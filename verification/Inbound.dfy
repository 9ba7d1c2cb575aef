/** What arrives for one sender of a group: its key distributions and its envelopes, and the
    receive state kept for it (peer/groups.go). */
module Inbound {
  import opened Collections
  import opened Ratchet

  /** The payload of a group_key message. */
  datatype Dist = Dist(epoch: int, index: int, chain: Chain)

  /* ---- the handlers ---- */

  function HandleKey(held: Option<Recv>, d: Dist): Option<Recv> {
    if d.epoch < 1 || d.index < 0 then held
    else if held.Some? && d.epoch < held.value.epoch then held
    else if held.Some? && d.epoch == held.value.epoch && d.index == held.value.index && d.chain == held.value.chain then held
    else Some(Recv(d.epoch, d.index, d.chain, map[]))
  }

  /** A well-formed distribution is taken whatever is held, unless that is of a higher epoch:
      then epoch, index and chain are those of the distribution, and the cache is empty unless
      all three already were. */
  lemma KeyIsTaken(held: Option<Recv>, d: Dist)
    requires d.epoch >= 1 && d.index >= 0
    ensures var h := HandleKey(held, d); var same := held.Some? && held.value.epoch == d.epoch && held.value.index == d.index && held.value.chain == d.chain;
            && (held.Some? && held.value.epoch > d.epoch ==> h == held)
            && (!(held.Some? && held.value.epoch > d.epoch) ==>
                  && h.Some? && h.value.epoch == d.epoch && h.value.index == d.index && h.value.chain == d.chain
                  && h.value.skipped == if same then held.value.skipped else map[])
  {
  }

  /** What is stored after an envelope: the moved state if it opened and was written. */
  ghost function HandleEnvelope(held: Option<Recv>, b: Blob, writeOk: bool): (Option<Recv>, Outcome) {
    if held.None? then (held, KeyMissing)
    else
      var (st, r) := Opening(held.value, b);
      (if r.Opened? && writeOk then Some(st) else held, r)
  }

  /** The entry of keys.json for one sender. */
  class SenderEntry {
    var held: Option<Recv>

    constructor ()
      ensures held == None
    {
      held := None;
    }

    method HandleGroupKey(d: Dist, writeOk: bool)
      modifies this
      ensures held == if writeOk then HandleKey(old(held), d) else old(held)
    {
      if d.epoch < 1 || d.index < 0 { return; }
      if held.Some? {
        if d.epoch < held.value.epoch { return; }
        if d.epoch == held.value.epoch && held.value.index == d.index && held.value.chain == d.chain { return; }
      }
      if writeOk { held := Some(Recv(d.epoch, d.index, d.chain, map[])); }
    }

    /** Works on a copy of the stored state and stores it only when the envelope opened. */
    method HandleGroupEnvelope(b: Blob, writeOk: bool) returns (r: Outcome)
      modifies this
      ensures (held, r) == HandleEnvelope(old(held), b, writeOk)
    {
      if held.None? { return KeyMissing; }
      var st := new RecvState(held.value);
      r := st.GroupOpen(b);
      if !r.Opened? { return; }
      if writeOk { held := Some(Recv(st.epoch, st.index, st.chain, st.skipped)); }
    }
  }
}
