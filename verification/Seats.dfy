/** One peer's place in one group: the directory groups/<gid> with the roster, the "left"
    marker and the key material, and every operation that changes it (peer/groups.go). Each
    operation is a function of the seat, what arrived and how the surroundings behaved. */
module Seats {
  import opened Collections
  import opened Ratchet
  import opened Inbound
  import opened Rosters

  datatype Standing = In | Removed | Dissolved

  /** keys.json: my chain, the receive state per sender, the epoch of my chain each
      co-member was handed. */
  datatype Keys = Keys(mine: Option<Sender>, senders: map<Fp, Recv>, handed: map<Fp, int>)

  /** A group_key message of mine, and a post of mine with the members it was meant for. */
  datatype KeyMsg = KeyMsg(to: Fp, dist: Dist)
  datatype Post = Post(blob: Blob, audience: set<Fp>)

  /** `posts` records what this peer ever posted; `out` every key message it tried to send,
      which may have arrived even if the send failed; `got` those whose send succeeded. */
  datatype Seat = Seat(me: Fp, gid: Gid, group: Option<Roster>, left: Standing, keys: Keys, out: set<KeyMsg>, got: set<KeyMsg>, posts: set<Post>)

  datatype MarkWrite = Written | Torn | NotWritten

  /** How the surroundings behave during one operation: the random chain seed (or none),
      whether group.json, keys.json, the distribution record and the sealed chain are
      written, which co-members can be reached, how the marker is written and cleared. */
  datatype Luck = Luck(rand: int, randOk: bool, groupOk: bool, keysOk: bool, recordOk: bool, sealOk: bool, reached: set<Fp>, mark: MarkWrite, clearOk: bool)

  const NoKeys := Keys(None, map[], map[])

  function Members(g: Roster): set<Fp> { Fps(g.members) }

  /* ---- my sender key ---- */

  function HandedAt(handed: map<Fp, int>, fp: Fp): int { if fp in handed then handed[fp] else 0 }

  /** The co-members who have not been handed the current epoch of my chain. */
  function Owed(me: Fp, g: Roster, handed: map<Fp, int>, epoch: int): set<Fp> {
    set fp | fp in Members(g) && fp != me && HandedAt(handed, fp) < epoch
  }

  function Handing(fps: set<Fp>, k: Sender): set<KeyMsg> {
    set fp | fp in fps :: KeyMsg(fp, Dist(k.epoch, k.index, k.chain))
  }

  function Recorded(handed: map<Fp, int>, reached: set<Fp>, epoch: int): map<Fp, int> {
    handed + map fp | fp in reached :: epoch
  }

  /** distributeSenderKey: all who are owed the chain are tried, those reached recorded. */
  function Distribute(s: Seat, g: Roster, k: Luck): Seat {
    if s.keys.mine.None? then s else
      var mine := s.keys.mine.value;
      var owed := Owed(s.me, g, s.keys.handed, mine.epoch);
      var s1 := s.(out := s.out + Handing(owed, mine), got := s.got + Handing(owed * k.reached, mine));
      if !k.recordOk then s1 else s1.(keys := s.keys.(handed := Recorded(s.keys.handed, owed * k.reached, mine.epoch)))
  }

  /** ensureSenderKey; false when no key could be made. */
  function Ensure(s: Seat, k: Luck): (Seat, bool) {
    if s.keys.mine.Some? then (s, true)
    else if !k.randOk || !k.keysOk then (s, false)
    else (s.(keys := s.keys.(mine := Some(Sender(1, 0, Seed(k.rand))))), true)
  }

  function EpochOf(keys: Keys): int { if keys.mine.Some? then keys.mine.value.epoch else 0 }

  /** A fresh chain; what is known of non-members is forgotten, and nobody was handed it. */
  function FreshKeys(keys: Keys, g: Roster, epoch: int, rand: int): Keys {
    Keys(Some(Sender(epoch, 0, Seed(rand))), map fp | fp in keys.senders && fp in Members(g) :: keys.senders[fp], map[])
  }

  predicate RekeyOk(k: Luck) { k.randOk && k.keysOk }

  /** rekeyGroup. */
  function Rekey(s: Seat, g: Roster, k: Luck): Seat {
    if !RekeyOk(k) then s
    else Distribute(s.(keys := FreshKeys(s.keys, g, EpochOf(s.keys) + 1, k.rand)), g, k)
  }

  /** redistributeSenderKey. */
  function Redistribute(s: Seat, g: Roster, k: Luck): Seat {
    if s.keys.mine.None? || !k.keysOk then s
    else Distribute(s.(keys := s.keys.(handed := map[])), g, k)
  }

  function NextSenderEpoch(cur: int, now: int): (e: int)
    ensures e > cur && e >= now && (e == cur + 1 || e == now)
  {
    if now > cur + 1 then now else cur + 1
  }

  /** RotateSenderKeys for this group. */
  function Rotate(s: Seat, now: int, k: Luck): Seat {
    if s.group.None? || s.left != In || !RekeyOk(k) then s
    else s.(keys := FreshKeys(s.keys, s.group.value, NextSenderEpoch(EpochOf(s.keys), now), k.rand))
  }

  /** DistributeSenderKeys for this group. */
  function TopUp(s: Seat, k: Luck): Seat {
    if s.group.None? || s.left != In then s else Distribute(s, s.group.value, k)
  }

  /** fanOutGroup: the chain is advanced on disk before the envelope leaves. */
  ghost function FanOut(s: Seat, m: Message, k: Luck): Seat {
    if s.group.None? || s.left != In then s else
      var (s1, ok) := Ensure(s, k);
      if !ok then s1 else Seal(Distribute(s1, s.group.value, k), s.group.value, m, k)
  }

  ghost function Seal(s: Seat, g: Roster, m: Message, k: Luck): Seat {
    if s.keys.mine.None? || !k.sealOk then s else
      var (mine, b) := Sealing(s.keys.mine.value, m);
      s.(keys := s.keys.(mine := Some(mine)), posts := s.posts + {Post(b, Members(g))})
  }

  /* ---- rosters ---- */

  /** markGroupLeft; a marker that was cut off reads as "removed". */
  function Mark(s: Seat, why: Standing, w: MarkWrite): Seat {
    match w
    case Written => s.(left := why)
    case Torn => s.(left := Removed)
    case NotWritten => s
  }

  /** applyRoster accepts this roster as the next one. */
  ghost predicate Acceptable(s: Seat, g: Roster) {
    && s.group.Some? && g.gid == s.group.value.gid && Verifies(g) && g.owner == s.group.value.owner
    && g.version > s.group.value.version && s.left != Dissolved
  }

  /** applyRoster. */
  ghost function ApplyRoster(s: Seat, g: Roster, k: Luck): Seat {
    if !Acceptable(s, g) then s
    else if s.me !in Members(g) then
      var s1 := if k.groupOk then s.(group := Some(g)) else s;
      if s.left == In then Mark(s1, Removed, k.mark) else s1
    else if !k.groupOk then s
    else Converge(s, g, k)
  }

  /** The roster I am on is stored; now my key material follows it. */
  function Converge(s: Seat, g: Roster, k: Luck): Seat
    requires s.group.Some?
  {
    var s1 := s.(group := Some(g));
    if s.left != In then Rekey(if k.clearOk then s1.(left := In) else s1, g, k)
    else if Members(s.group.value) - Members(g) != {} then Rekey(s1, g, k)
    else Distribute(s1, g, k)
  }

  /** refreshRoster, given what the relay answered. */
  ghost function Refresh(s: Seat, r: Reply, k: Luck): Seat {
    if s.group.None? then s else
      match r
      case Failed => s
      case Forbidden => if s.left == In then Mark(s, Removed, k.mark) else s
      case Got(g) => ApplyRoster(s, g, k)
  }

  /** A group_invite: its sender, the roster it carries, whether the sender is a friend, and
      the owner I applied to, if I applied and it is known. */
  datatype Invite = Invite(from: Fp, gid: Gid, roster: Option<Roster>, friend: bool, applied: Option<Option<Fp>>)

  ghost predicate Trusted(s: Seat, i: Invite) {
    && i.roster.Some? && Verifies(i.roster.value) && i.gid == i.roster.value.gid
    && (i.roster.value.owner == i.from || Administers(i.roster.value.profile, i.from))
    && (i.friend || (i.applied.Some? && (i.applied.value.None? || i.applied.value.value == i.from)))
    && s.me in Members(i.roster.value)
  }

  /** handleGroupInvite. */
  ghost function TakeInvite(s: Seat, i: Invite, k: Luck, k': Luck): Seat {
    if !Trusted(s, i) || i.gid != s.gid then s
    else if s.group.Some? then
      var s1 := ApplyRoster(s, i.roster.value, k);
      if s.left == In && s1.left == In && s1.group.Some? then Redistribute(s1, s1.group.value, k') else s1
    else Join(s, i.roster.value, k)
  }

  function Join(s: Seat, g: Roster, k: Luck): Seat {
    if !k.groupOk then s else
      var (s1, ok) := Ensure(s.(group := Some(g)), k);
      if ok then Distribute(s1, g, k) else s1
  }

  /** GroupCreate, once the relay took the first roster of a new group of mine. */
  ghost function Create(s: Seat, g: Roster, published: bool, k: Luck): Seat {
    if s.group.Some? || g.gid != s.gid || g.owner != s.me || g.version != 1 || |g.members| < 2 || !Verifies(g) || !published then s else Join(s, g, k)
  }

  /** handleGroupKey. */
  ghost function TakeKey(s: Seat, from: Fp, d: Dist, r: Reply, k: Luck, k': Luck): Seat {
    if d.epoch < 1 || d.index < 0 || s.group.None? then s else
      var s1 := if from in Members(s.group.value) then s else Refresh(s, r, k);
      if s1.group.None? || from !in Members(s1.group.value) || !k'.keysOk then s1
      else StoreKey(s1, from, d)
  }

  function Entry(keys: Keys, fp: Fp): Option<Recv> { if fp in keys.senders then Some(keys.senders[fp]) else None }

  function StoreKey(s: Seat, from: Fp, d: Dist): Seat {
    var e := HandleKey(Entry(s.keys, from), d);
    if e.None? then s else s.(keys := s.keys.(senders := s.keys.senders[from := e.value]))
  }

  /** What remains to be done after a letter: nothing, or refetch the roster. */
  datatype Verdict = Ignored | Rejected(r: Outcome) | NotMember | Taken | Refetch

  /** handleGroupEnvelope, up to the refetch that a group_update asks for. */
  ghost function TakeLetter(s: Seat, from: Fp, b: Blob, seen: bool, r: Reply, k: Luck, k': Luck): (Seat, Verdict) {
    if from == s.me || s.group.None? then (s, Ignored)
    else if s.left != In then (DissolveWhileLeft(s, from, b, k), Ignored)
    else
      var s1 := if from in Members(s.group.value) then s else Refresh(s, r, k);
      if s1.group.None? || from !in Members(s1.group.value) then (s1, NotMember)
      else OpenLetter(s1, from, b, seen, k')
  }

  /** dissolveWhileLeft; the opened state is not stored. */
  ghost function DissolveWhileLeft(s: Seat, from: Fp, b: Blob, k: Luck): Seat
    requires s.group.Some?
  {
    var (_, r) := HandleEnvelope(Entry(s.keys, from), b, false);
    if from == s.group.value.owner && r.Opened? && r.m.kind.Dissolve? && s.left != Dissolved then Mark(s, Dissolved, k.mark)
    else s
  }

  ghost function OpenLetter(s: Seat, from: Fp, b: Blob, seen: bool, k: Luck): (Seat, Verdict)
    requires s.group.Some?
  {
    var (h, r) := HandleEnvelope(Entry(s.keys, from), b, k.keysOk);
    if !r.Opened? || !k.keysOk then (s, Rejected(r))
    else
      var s1 := s.(keys := s.keys.(senders := s.keys.senders[from := h.value]));
      if r.m.from != from || seen then (s1, Ignored)
      else if r.m.kind.Update? then (s1, Refetch)
      else if r.m.kind.Dissolve? && from == s.group.value.owner then (Mark(s1, Dissolved, k.mark), Taken)
      else (s1, Taken)
  }

  /* ---- the owner ---- */

  /** republishRoster by the owner; published says that the relay answered "ok". */
  ghost function Republish(s: Seat, ch: Change, published: bool, m: Message, k: Luck, k': Luck): Seat {
    if s.group.None? || s.group.value.owner != s.me then s else
      var g := s.group.value;
      var next := NextRoster(g, ch);
      if !Verifies(next) || !published || !k.groupOk then s
      else FanOut(AfterRepublish(s, next, g, ch, k), m, k')
  }

  /** Dropped members force a new chain, added ones are handed the current one. */
  function AfterRepublish(s: Seat, next: Roster, g: Roster, ch: Change, k: Luck): Seat {
    var s1 := s.(group := Some(next));
    if Members(g) * ch.drop != {} then Rekey(s1, next, k)
    else if Members(next) - Members(g) != {} then Distribute(s1, next, k)
    else s1
  }

  /** The user deletes the group record. */
  function Remove(s: Seat): Seat { s.(group := None, left := In, keys := NoKeys) }

  /* ---- everything that can happen to a seat ---- */

  datatype Op =
    | Created(g: Roster, published: bool, k: Luck)
    | Invited(i: Invite, k: Luck, k': Luck)
    | KeyCame(from: Fp, d: Dist, r: Reply, k: Luck, k': Luck)
    | LetterCame(from: Fp, b: Blob, seen: bool, r: Reply, k: Luck, k': Luck)
    | Poked(r: Reply, k: Luck)
    | Posted(m: Message, k: Luck)
    | Rotated(now: int, k: Luck)
    | ToppedUp(k: Luck)
    | Republished(ch: Change, published: bool, m: Message, k: Luck, k': Luck)
    | Deleted

  ghost function Do(s: Seat, op: Op): Seat {
    match op
    case Created(g, published, k) => Create(s, g, published, k)
    case Invited(i, k, k') => TakeInvite(s, i, k, k')
    case KeyCame(from, d, r, k, k') => TakeKey(s, from, d, r, k, k')
    case LetterCame(from, b, seen, r, k, k') => TakeLetter(s, from, b, seen, r, k, k').0
    case Poked(r, k) => Refresh(s, r, k)
    case Posted(m, k) => FanOut(s, m, k)
    case Rotated(now, k) => Rotate(s, now, k)
    case ToppedUp(k) => TopUp(s, k)
    case Republished(ch, ok, m, k, k') => Republish(s, ch, ok, m, k, k')
    case Deleted => Remove(s)
  }

  ghost predicate DoneAt(run: seq<Seat>, ops: seq<Op>, n: nat)
    requires n < |ops| && |run| == |ops| + 1
  {
    run[n + 1] == Do(run[n], ops[n])
  }

  /** A run of one seat, its operations one at a time. */
  ghost predicate Behaves(run: seq<Seat>, ops: seq<Op>) {
    |run| == |ops| + 1 && forall n :: 0 <= n < |ops| ==> DoneAt(run, ops, n)
  }
}
