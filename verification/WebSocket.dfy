/** WebSocket framing (ws/ws.go), sections 5.2 to 5.5 of RFC 6455. */
module WebSocket {
  import opened Collections
  import opened Bytes

  const TEXT := 1
  const BINARY := 2
  const CLOSE := 8
  const PING := 9
  const PONG := 10
  const CONT := 0
  const MAX_FRAME: nat := 0x400_0000

  /** A masking key. */
  type Key = k: seq<Byte> | |k| == 4 witness [0, 0, 0, 0]

  datatype Frame = Frame(fin: bool, op: nat, payload: seq<Byte>)

  ghost predicate Legal(f: Frame) { f.op < 16 && |f.payload| <= MAX_FRAME }

  /* ---- one frame ---- */

  ghost function Masked(p: seq<Byte>, k: Key): seq<Byte> {
    if p == [] then [] else Masked(p[..|p| - 1], k) + [Xor(p[|p| - 1], k[(|p| - 1) % 4])]
  }

  /** The first two bytes. */
  function Start(f: Frame, masked: bool): seq<Byte>
    requires f.op < 16
  {
    var n := |f.payload|;
    [(if f.fin then 0x80 else 0) + f.op, (if masked then 0x80 else 0) + (if n < 126 then n else if n < 65536 then 126 else 127)]
  }

  /** The extended length, if any. */
  function Extension(n: nat): seq<Byte> {
    if n < 126 then [] else if n < 65536 then BigEndian(n, 2) else BigEndian(n, 8)
  }

  function Header(f: Frame, masked: bool): seq<Byte>
    requires f.op < 16
  {
    Start(f, masked) + Extension(|f.payload|)
  }

  ghost function Encoded(f: Frame, mask: Option<Key>): seq<Byte>
    requires f.op < 16
  {
    match mask
    case None => Header(f, false) + f.payload
    case Some(k) => Header(f, true) + k + Masked(f.payload, k)
  }

  datatype ReadResult = Read(f: Frame, rest: seq<Byte>) | Short | TooBig(rest: seq<Byte>)

  /** readFrame on a byte stream. */
  ghost function ReadFrame(s: seq<Byte>): ReadResult {
    if |s| < 2 then Short else ReadLength(s[0], s[1], s[2..])
  }

  ghost function ReadLength(b0: Byte, b1: Byte, s: seq<Byte>): ReadResult {
    var n := b1 % 0x80;
    var ext := if n == 126 then 2 else if n == 127 then 8 else 0;
    if |s| < ext then Short
    else ReadBody(b0 >= 0x80, b0 % 16, b1 >= 0x80, if ext == 0 then n else Value(s[..ext]), s[ext..])
  }

  /** The rest of a frame, after its header. */
  ghost function ReadBody(fin: bool, op: nat, masked: bool, n: nat, s: seq<Byte>): ReadResult {
    if n > MAX_FRAME then TooBig(s)
    else if !masked then (if |s| < n then Short else Read(Frame(fin, op, s[..n]), s[n..]))
    else if |s| < 4 + n then Short
    else Read(Frame(fin, op, Masked(s[4..4 + n], s[..4])), s[4 + n..])
  }

  lemma {:induction false} MaskedLength(p: seq<Byte>, k: Key)
    ensures |Masked(p, k)| == |p|
  {
    if p != [] { MaskedLength(p[..|p| - 1], k); }
  }

  /** Masking twice with the same key gives the payload back. */
  lemma {:induction false} MaskedTwice(p: seq<Byte>, k: Key)
    ensures Masked(Masked(p, k), k) == p
  {
    if p != [] {
      var n := |p| - 1;
      var q := Masked(p, k);
      MaskedLength(p, k);
      assert q[..n] == Masked(p[..n], k) by { MaskedLength(p[..n], k); }
      MaskedTwice(p[..n], k);
      XorTwice(p[n], k[n % 4]);
      assert p == p[..n] + [p[n]];
    }
  }

  lemma ExtensionReads(n: nat, t: seq<Byte>)
    requires n < Pow256(8)
    ensures var e := Extension(n);
            (e + t)[|e|..] == t && (e != [] ==> Value((e + t)[..|e|]) == n)
            && |e| == if n < 126 then 0 else if n < 65536 then 2 else 8
  {
    var e := Extension(n);
    Pow256Values();
    if n >= 126 { ValueOfBigEndian(n, |e|); }
    assert (e + t)[..|e|] == e;
  }

  lemma StartReads(f: Frame, masked: bool)
    requires f.op < 16
    ensures var b, n := Start(f, masked), |f.payload|;
            && (b[0] >= 0x80) == f.fin && b[0] % 16 == f.op && (b[1] >= 0x80) == masked
            && b[1] % 0x80 == if n < 126 then n else if n < 65536 then 126 else 127
  {
  }

  lemma LengthReads(b0: Byte, b1: Byte, n: nat, t: seq<Byte>)
    requires n < Pow256(8) && b1 % 0x80 == if n < 126 then n else if n < 65536 then 126 else 127
    ensures ReadLength(b0, b1, Extension(n) + t) == ReadBody(b0 >= 0x80, b0 % 16, b1 >= 0x80, n, t)
  {
    ExtensionReads(n, t);
  }

  lemma AfterTwo(b: seq<Byte>, t: seq<Byte>)
    requires |b| == 2
    ensures (b + t)[0] == b[0] && (b + t)[1] == b[1] && (b + t)[2..] == t
  {
  }

  lemma HeaderReads(f: Frame, masked: bool, t: seq<Byte>)
    requires f.op < 16 && |f.payload| < Pow256(8)
    ensures ReadFrame(Header(f, masked) + t) == ReadBody(f.fin, f.op, masked, |f.payload|, t)
  {
    var b, e := Start(f, masked), Extension(|f.payload|);
    var s := Header(f, masked) + t;
    StartReads(f, masked);
    LengthReads(b[0], b[1], |f.payload|, t);
    Assoc(b, e, t);
    assert s == b + (e + t);
    AfterTwo(b, e + t);
  }

  lemma MaskedReads(f: Frame, k: Key, t: seq<Byte>)
    requires Legal(f)
    ensures ReadBody(f.fin, f.op, true, |f.payload|, k + Masked(f.payload, k) + t) == Read(f, t)
  {
    var m := Masked(f.payload, k);
    var s := k + m + t;
    MaskedLength(f.payload, k);
    MaskedTwice(f.payload, k);
    assert s[..4] == k && s[4..4 + |m|] == m && s[4 + |m|..] == t;
  }

  lemma PlainReads(f: Frame, t: seq<Byte>)
    requires Legal(f)
    ensures ReadBody(f.fin, f.op, false, |f.payload|, f.payload + t) == Read(f, t)
  {
  }

  /** For every payload up to the cap, masked or not, reading undoes writing and leaves the
      rest of the stream untouched. */
  lemma FrameRoundTrip(f: Frame, mask: Option<Key>, t: seq<Byte>)
    requires Legal(f)
    ensures ReadFrame(Encoded(f, mask) + t) == Read(f, t)
  {
    match mask
    case None =>
      assert Encoded(f, mask) + t == Header(f, false) + (f.payload + t);
      Pow256Values();
      HeaderReads(f, false, f.payload + t);
      PlainReads(f, t);
    case Some(k) =>
      var s := k + Masked(f.payload, k) + t;
      assert Encoded(f, mask) + t == Header(f, true) + s;
      Pow256Values();
      HeaderReads(f, true, s);
      MaskedReads(f, k, t);
  }

  /** The cap is exact: a longer payload is written all the same, and every reader with the
      same cap refuses it. */
  lemma ReadsBackIffWithinCap(f: Frame, mask: Option<Key>, t: seq<Byte>)
    requires f.op < 16 && |f.payload| < Pow256(8)
    ensures ReadFrame(Encoded(f, mask) + t) == Read(f, t) <==> |f.payload| <= MAX_FRAME
  {
    if |f.payload| <= MAX_FRAME {
      FrameRoundTrip(f, mask, t);
    } else {
      var body := if mask.Some? then mask.value + Masked(f.payload, mask.value) else f.payload;
      assert Encoded(f, mask) + t == Header(f, mask.Some?) + (body + t);
      HeaderReads(f, mask.Some?, body + t);
    }
  }

  /* ---- messages ---- */

  /** The bytes to read, the bytes written, the number of random keys drawn, and whether a
      close frame was sent. */
  datatype Link = Link(input: seq<Byte>, output: seq<Byte>, drawn: nat, closed: bool)

  datatype Message = Got(op: nat, payload: seq<Byte>) | Failed

  /** What stays the same on one connection: its role and its source of random keys. */
  datatype Side = Side(client: bool, keys: nat -> Key)

  ghost function Write(c: Side, l: Link, op: nat, payload: seq<Byte>): Link
    requires op < 16
  {
    if l.closed then l
    else if c.client then l.(output := l.output + Encoded(Frame(true, op, payload), Some(c.keys(l.drawn))), drawn := l.drawn + 1)
    else l.(output := l.output + Encoded(Frame(true, op, payload), None))
  }

  function WriteClose(l: Link): Link { if l.closed then l else l.(closed := true, output := l.output + [0x88, 0x00]) }

  function Rest(r: ReadResult): seq<Byte> { if r.Short? then [] else r.rest }

  /** ReadMessage, having gathered msg with opcode op so far. */
  ghost function ReadMessage(c: Side, l: Link, op: nat, msg: seq<Byte>): (Link, Message)
    decreases |l.input|
  {
    var r := ReadFrame(l.input);
    var l1 := l.(input := Rest(r));
    if !r.Read? then (l1, Failed)
    else
    ReadShrinks(l.input);
    if r.f.op == PING then ReadMessage(c, Write(c, l1, PONG, r.f.payload), op, msg)
    else if r.f.op == PONG then ReadMessage(c, l1, op, msg)
    else if r.f.op == CLOSE then (WriteClose(l1), Failed)
    else
      var op' := if r.f.op == CONT then op else r.f.op;
      var msg' := if r.f.op == CONT then msg + r.f.payload else r.f.payload;
      if r.f.fin then (l1, Got(op', msg')) else ReadMessage(c, l1, op', msg')
  }

  lemma ReadShrinks(s: seq<Byte>)
    requires ReadFrame(s).Read?
    ensures |ReadFrame(s).rest| < |s|
  {
  }

  /* ---- fragmented messages ---- */

  /** The frames of one message: a data frame, then continuations, the last one final, with
      pings and pongs anywhere before the end. */
  ghost predicate Fragments(fs: seq<Frame>, started: bool) {
    && fs != [] && Legal(fs[0])
    && if fs[0].op == PING || fs[0].op == PONG then Fragments(fs[1..], started)
       else
         && fs[0].op != CLOSE && (fs[0].op == CONT <==> started)
         && if fs[0].fin then |fs| == 1 else Fragments(fs[1..], true)
  }

  predicate IsData(f: Frame) { f.op != PING && f.op != PONG }

  /** The opcode of the first data frame. */
  function FirstOp(fs: seq<Frame>): nat { if fs == [] then 0 else if IsData(fs[0]) then fs[0].op else FirstOp(fs[1..]) }

  /** The data payloads one after the other. */
  function Joined(fs: seq<Frame>): seq<Byte> {
    if fs == [] then [] else (if IsData(fs[0]) then fs[0].payload else []) + Joined(fs[1..])
  }

  /** The answers owed to the pings, in order. */
  ghost function Answered(c: Side, l: Link, fs: seq<Frame>): Link
    decreases |fs|
  {
    if fs == [] then l
    else Answered(c, if fs[0].op == PING then Write(c, l, PONG, fs[0].payload) else l, fs[1..])
  }

  ghost predicate AllLegal(fs: seq<Frame>) { forall i :: 0 <= i < |fs| ==> fs[i].op < 16 }

  /** Frames on the wire, each masked with its own key or not at all. */
  ghost function Stream(fs: seq<Frame>, masks: seq<Option<Key>>): seq<Byte>
    requires |masks| == |fs| && AllLegal(fs)
  {
    if fs == [] then [] else Encoded(fs[0], masks[0]) + Stream(fs[1..], masks[1..])
  }

  lemma {:induction false} FragmentsLegal(fs: seq<Frame>, started: bool)
    requires Fragments(fs, started)
    ensures AllLegal(fs)
    decreases |fs|
  {
    if |fs| > 1 {
      FragmentsLegal(fs[1..], started || IsData(fs[0]));
      forall i | 0 <= i < |fs| ensures fs[i].op < 16 {
        if i > 0 { assert fs[i] == fs[1..][i - 1]; }
      }
    }
  }

  /** One turn of ReadMessage on a stream that starts with frame f. */
  lemma ReadsOne(c: Side, l: Link, op: nat, msg: seq<Byte>, f: Frame, mask: Option<Key>, rest: seq<Byte>)
    requires Legal(f) && f.op != CLOSE && l.input == Encoded(f, mask) + rest
    ensures var l1 := l.(input := rest);
            var op', msg' := if f.op == CONT then op else f.op, if f.op == CONT then msg + f.payload else f.payload;
            ReadMessage(c, l, op, msg) ==
            if f.op == PING then ReadMessage(c, Write(c, l1, PONG, f.payload), op, msg)
            else if f.op == PONG then ReadMessage(c, l1, op, msg)
            else if f.fin then (l1, Got(op', msg')) else ReadMessage(c, l1, op', msg')
  {
    FrameRoundTrip(f, mask, rest);
  }

  /** The frames fs of a message, of which some were read if started, are next on the link. */
  ghost predicate Incoming(l: Link, fs: seq<Frame>, masks: seq<Option<Key>>, started: bool, t: seq<Byte>) {
    Fragments(fs, started) && |masks| == |fs| && AllLegal(fs) && l.input == Stream(fs, masks) + t
  }

  /** What reading them should give. */
  ghost function Expected(c: Side, l: Link, op: nat, msg: seq<Byte>, fs: seq<Frame>, started: bool, t: seq<Byte>): (Link, Message) {
    (Answered(c, l, fs).(input := t), Got(if started then op else FirstOp(fs), (if started then msg else []) + Joined(fs)))
  }

  lemma NextFragment(l: Link, fs: seq<Frame>, masks: seq<Option<Key>>, started: bool, t: seq<Byte>) returns (rest: seq<Byte>)
    requires Incoming(l, fs, masks, started, t)
    ensures fs != [] && Legal(fs[0]) && fs[0].op != CLOSE && masks != [] && l.input == Encoded(fs[0], masks[0]) + rest
    ensures IsData(fs[0]) && fs[0].fin ==> |fs| == 1 && rest == t
    ensures IsData(fs[0]) ==> (fs[0].op == CONT <==> started)
    ensures !(IsData(fs[0]) && fs[0].fin) ==> Incoming(l.(input := rest), fs[1..], masks[1..], started || IsData(fs[0]), t)
  {
    rest := Stream(fs[1..], masks[1..]) + t;
    Assoc(Encoded(fs[0], masks[0]), Stream(fs[1..], masks[1..]), t);
    if |fs| == 1 { assert fs[1..] == []; Assoc([], [], t); }
    TailLegal(fs);
  }

  lemma TailLegal(fs: seq<Frame>)
    requires fs != [] && AllLegal(fs)
    ensures AllLegal(fs[1..])
  {
  }

  /** ReadMessage after some fragments of the message were read. */
  lemma {:induction false} ReadsFragments(c: Side, l: Link, op: nat, msg: seq<Byte>, fs: seq<Frame>, masks: seq<Option<Key>>, started: bool, t: seq<Byte>)
    requires Incoming(l, fs, masks, started, t)
    ensures ReadMessage(c, l, op, msg) == Expected(c, l, op, msg, fs, started, t)
    decreases |fs|
  {
    var rest := NextFragment(l, fs, masks, started, t);
    var f, l1 := fs[0], l.(input := rest);
    if IsData(f) {
      ReadsPiece(c, l, op, msg, f, masks[0], rest, started);
      if f.fin {
        LastExpected(c, l, op, msg, fs, started, t);
      } else {
        var op', msg' := if started then op else f.op, (if started then msg else []) + f.payload;
        ReadsFragments(c, l1, op', msg', fs[1..], masks[1..], true, t);
        MoreExpected(c, l, op, msg, fs, started, rest, t);
      }
    } else {
      ReadsOne(c, l, op, msg, f, masks[0], rest);
      var l2 := if f.op == PING then Write(c, l1, PONG, f.payload) else l1;
      ReadsFragments(c, l2, op, msg, fs[1..], masks[1..], started, t);
      ControlExpected(c, l, op, msg, fs, started, rest, t, l2);
    }
  }

  lemma LastExpected(c: Side, l: Link, op: nat, msg: seq<Byte>, fs: seq<Frame>, started: bool, t: seq<Byte>)
    requires |fs| == 1 && IsData(fs[0])
    ensures Expected(c, l, op, msg, fs, started, t) ==
            (l.(input := t), Got(if started then op else fs[0].op, (if started then msg else []) + fs[0].payload))
  {
    JoinedSplit(if started then msg else [], fs);
    assert fs[1..] == [] && Answered(c, l, fs[1..]) == l;
  }

  lemma MoreExpected(c: Side, l: Link, op: nat, msg: seq<Byte>, fs: seq<Frame>, started: bool, rest: seq<Byte>, t: seq<Byte>)
    requires fs != [] && IsData(fs[0])
    ensures var op', msg' := if started then op else fs[0].op, (if started then msg else []) + fs[0].payload;
            Expected(c, l, op, msg, fs, started, t) == Expected(c, l.(input := rest), op', msg', fs[1..], true, t)
  {
    JoinedSplit(if started then msg else [], fs);
    AnsweredInput(c, l, fs[1..], rest);
  }

  lemma ControlExpected(c: Side, l: Link, op: nat, msg: seq<Byte>, fs: seq<Frame>, started: bool, rest: seq<Byte>, t: seq<Byte>, l': Link)
    requires fs != [] && !IsData(fs[0])
    requires l' == if fs[0].op == PING then Write(c, l.(input := rest), PONG, fs[0].payload) else l.(input := rest)
    ensures Expected(c, l, op, msg, fs, started, t) == Expected(c, l', op, msg, fs[1..], started, t)
  {
    var none: seq<Byte> := [];
    assert none + Joined(fs[1..]) == Joined(fs[1..]);
    assert Joined(fs) == Joined(fs[1..]);
    var l2 := if fs[0].op == PING then Write(c, l, PONG, fs[0].payload) else l;
    assert l' == l2.(input := rest);
    AnsweredInput(c, l2, fs[1..], rest);
    assert Answered(c, l, fs) == Answered(c, l2, fs[1..]);
  }

  /** One data frame: the first starts the message, the others continue it. */
  lemma ReadsPiece(c: Side, l: Link, op: nat, msg: seq<Byte>, f: Frame, mask: Option<Key>, rest: seq<Byte>, started: bool)
    requires Legal(f) && f.op != CLOSE && IsData(f) && (f.op == CONT <==> started) && l.input == Encoded(f, mask) + rest
    ensures var l1, op', msg' := l.(input := rest), if started then op else f.op, (if started then msg else []) + f.payload;
            ReadMessage(c, l, op, msg) == if f.fin then (l1, Got(op', msg')) else ReadMessage(c, l1, op', msg')
  {
    ReadsOne(c, l, op, msg, f, mask, rest);
    assert [] + f.payload == f.payload;
  }

  lemma JoinedSplit(base: seq<Byte>, fs: seq<Frame>)
    requires fs != [] && IsData(fs[0])
    ensures base + Joined(fs) == base + fs[0].payload + Joined(fs[1..])
    ensures |fs| == 1 ==> base + Joined(fs) == base + fs[0].payload
  {
    assert Joined(fs) == fs[0].payload + Joined(fs[1..]);
    Assoc(base, fs[0].payload, Joined(fs[1..]));
    if |fs| == 1 {
      assert fs[1..] == [];
      Assoc(base, fs[0].payload, []);
    }
  }

  lemma Assoc(a: seq<Byte>, b: seq<Byte>, c: seq<Byte>)
    ensures a + (b + c) == a + b + c && a + [] == a && [] + a == a && [] + c == c
  {
  }

  /** The answers do not depend on what is still to be read. */
  lemma {:induction false} AnsweredInput(c: Side, l: Link, fs: seq<Frame>, s: seq<Byte>)
    ensures Answered(c, l.(input := s), fs) == Answered(c, l, fs).(input := s)
    decreases |fs|
  {
    if fs != [] {
      AnsweredInput(c, if fs[0].op == PING then Write(c, l, PONG, fs[0].payload) else l, fs[1..], s);
    }
  }

  /** For any fragmented message with pings and pongs between the fragments, ReadMessage
      returns the opcode of the first and the payloads joined, answers the pings in order,
      and leaves the stream at the next frame. */
  lemma ReadsMessage(c: Side, l: Link, fs: seq<Frame>, masks: seq<Option<Key>>, t: seq<Byte>)
    requires Fragments(fs, false) && |masks| == |fs| && AllLegal(fs) && l.input == Stream(fs, masks) + t
    ensures ReadMessage(c, l, 0, []) == (Answered(c, l, fs).(input := t), Got(FirstOp(fs), Joined(fs)))
  {
    ReadsFragments(c, l, 0, [], fs, masks, false, t);
    assert [] + Joined(fs) == Joined(fs);
  }

  /* ---- the connection ---- */

  method Mask(p: seq<Byte>, k: Key) returns (m: seq<Byte>)
    ensures m == Masked(p, k)
  {
    m := [];
    for i := 0 to |p|
      invariant m == Masked(p[..i], k)
    {
      assert p[..i + 1][..i] == p[..i];
      m := m + [Xor(p[i], k[i % 4])];
    }
    assert p[..|p|] == p;
  }

  class Conn {
    const side: Side
    var input: seq<Byte>
    var output: seq<Byte>
    var drawn: nat
    var closed: bool

    ghost function State(): Link reads this { Link(input, output, drawn, closed) }

    constructor (side: Side, input: seq<Byte>)
      ensures this.side == side && State() == Link(input, [], 0, false)
    {
      this.side, this.input, output, drawn, closed := side, input, [], 0, false;
    }

    method WriteFrame(op: nat, payload: seq<Byte>)
      requires op < 16
      modifies this
      ensures State() == Write(side, old(State()), op, payload)
    {
      if closed { return; }
      var hdr := Header(Frame(true, op, payload), side.client);
      if side.client {
        var k := side.keys(drawn);
        var m := Mask(payload, k);
        drawn := drawn + 1;
        output := output + (hdr + k + m);
      } else {
        output := output + (hdr + payload);
      }
    }

    method SendClose()
      modifies this
      ensures State() == WriteClose(old(State()))
    {
      if closed { return; }
      closed := true;
      output := output + [0x88, 0x00];
    }

    /** Takes one frame off the input. */
    method NextFrame() returns (r: ReadResult)
      modifies this`input
      ensures r == ReadFrame(old(input)) && input == Rest(r)
    {
      if |input| < 2 { input := []; return Short; }
      var b0, b1 := input[0], input[1];
      var s := input[2..];
      var n: nat, ext := b1 % 0x80, if b1 % 0x80 == 126 then 2 else if b1 % 0x80 == 127 then 8 else 0;
      if |s| < ext { input := []; return Short; }
      if ext > 0 { n := Value(s[..ext]); }
      r := Body(b0 >= 0x80, b0 % 16, b1 >= 0x80, n, s[ext..]);
      input := Rest(r);
    }

    method ReadAll() returns (m: Message)
      modifies this
      ensures (State(), m) == ReadMessage(side, old(State()), 0, [])
    {
      var op, msg := 0, [];
      while true
        invariant ReadMessage(side, old(State()), 0, []) == ReadMessage(side, State(), op, msg)
        decreases |input|
      {
        ghost var l := State();
        var r := NextFrame();
        if !r.Read? { return Failed; }
        ReadShrinks(l.input);
        if r.f.op == PING {
          WriteFrame(PONG, r.f.payload);
          continue;
        }
        if r.f.op == PONG { continue; }
        if r.f.op == CLOSE {
          SendClose();
          return Failed;
        }
        if r.f.op == CONT { msg := msg + r.f.payload; } else { op, msg := r.f.op, r.f.payload; }
        if r.f.fin { return Got(op, msg); }
      }
    }
  }

  method Body(fin: bool, op: nat, masked: bool, n: nat, s: seq<Byte>) returns (r: ReadResult)
    ensures r == ReadBody(fin, op, masked, n, s)
  {
    if n > MAX_FRAME { return TooBig(s); }
    if !masked {
      return if |s| < n then Short else Read(Frame(fin, op, s[..n]), s[n..]);
    }
    if |s| < 4 + n { return Short; }
    var p := Mask(s[4..4 + n], s[..4]);
    return Read(Frame(fin, op, p), s[4 + n..]);
  }

  /* ---- both ends ---- */

  /** A message an application may send: text or binary, within the cap. */
  predicate Sendable(m: (nat, seq<Byte>)) { (m.0 == TEXT || m.0 == BINARY) && |m.1| <= MAX_FRAME }

  /** The mask a write uses: a client draws a fresh key, a server none. */
  ghost function MaskOf(c: Side, l: Link): Option<Key> { if c.client then Some(c.keys(l.drawn)) else None }

  /** An open connection appends one final frame, masked if and only if it is a client's; a
      closed one writes nothing. */
  lemma WriteAppends(c: Side, l: Link, op: nat, payload: seq<Byte>)
    requires op < 16
    ensures var l' := Write(c, l, op, payload);
            && (l.closed ==> l' == l)
            && (!l.closed ==> l'.output == l.output + Encoded(Frame(true, op, payload), MaskOf(c, l)) && l'.input == l.input && !l'.closed)
            && (!l.closed && c.client ==> l'.drawn == l.drawn + 1)
  {
  }

  /** The mask bit on the wire says who wrote. */
  lemma MaskBit(f: Frame, mask: Option<Key>)
    requires Legal(f)
    ensures |Encoded(f, mask)| >= 2 && (Encoded(f, mask)[1] >= 0x80 <==> mask.Some?) && (Encoded(f, mask)[0] >= 0x80 <==> f.fin)
  {
    StartReads(f, mask.Some?);
    var b := Start(f, mask.Some?);
    assert Header(f, mask.Some?)[0] == b[0] && Header(f, mask.Some?)[1] == b[1];
  }

  /** A message written by one end, whichever, is read by the other with the same opcode and
      payload, and what follows it is left. */
  lemma SentIsReceived(c: Side, l: Link, d: Side, r: Link, op: nat, payload: seq<Byte>, t: seq<Byte>)
    requires !l.closed && Sendable((op, payload))
    requires |l.output| <= |Write(c, l, op, payload).output| && r.input == Write(c, l, op, payload).output[|l.output|..] + t
    ensures ReadMessage(d, r, 0, []) == (r.(input := t), Got(op, payload))
  {
    var f, mask := Frame(true, op, payload), MaskOf(c, l);
    WriteAppends(c, l, op, payload);
    assert (l.output + Encoded(f, mask))[|l.output|..] == Encoded(f, mask);
    ReadsOne(d, r, 0, [], f, mask, t);
  }

  /** A close frame ends the reading and is answered with one, once. */
  lemma CloseIsAnswered(c: Side, l: Link, op: nat, msg: seq<Byte>, payload: seq<Byte>, fin: bool, mask: Option<Key>, t: seq<Byte>)
    requires |payload| <= MAX_FRAME && l.input == Encoded(Frame(fin, CLOSE, payload), mask) + t
    ensures ReadMessage(c, l, op, msg) == (l.(input := t, closed := true, output := if l.closed then l.output else l.output + [0x88, 0x00]), Failed)
  {
    FrameRoundTrip(Frame(fin, CLOSE, payload), mask, t);
  }
}
