/** Orders and successors on view identifiers and viewstamps (util.h). */
module Stamps {

  datatype Option<+T> = None | Some(value: T)

  /** A machine identifier: an unsigned 64-bit number, used only for equality and order. */
  type Mid = nat

  datatype Viewid = Viewid(counter: nat, manager: Mid)

  datatype Viewstamp = Viewstamp(vid: Viewid, ts: nat)

  const ZERO_VID := Viewid(0, 0)
  const ZERO_STAMP := Viewstamp(ZERO_VID, 0)

  /** Timestamps are unsigned 32-bit numbers. */
  const TS_LIMIT := 0x1_0000_0000

  predicate VidLt(a: Viewid, b: Viewid) {
    a.counter < b.counter || (a.counter == b.counter && a.manager < b.manager)
  }

  predicate VidLe(a: Viewid, b: Viewid) {
    VidLt(a, b) || a == b
  }

  predicate Lt(a: Viewstamp, b: Viewstamp) {
    VidLt(a.vid, b.vid) || (a.vid == b.vid && a.ts < b.ts)
  }

  predicate Le(a: Viewstamp, b: Viewstamp) {
    Lt(a, b) || a == b
  }

  function Succ(a: Viewstamp): Viewstamp {
    Viewstamp(a.vid, a.ts + 1)
  }

  /** `operator+` as written: add modulo 2^32 and give up (None) when the sum went down. */
  function Plus(a: Viewstamp, i: nat): (r: Option<Viewstamp>)
    requires a.ts < TS_LIMIT && i < TS_LIMIT
    ensures r.None? <==> a.ts + i >= TS_LIMIT
    ensures r.Some? ==> r.value.vid == a.vid && r.value.ts == a.ts + i && Le(a, r.value)
  {
    var n := Viewstamp(a.vid, (a.ts + i) % TS_LIMIT);
    if n.ts < a.ts then None else Some(n)
  }

  /** Nothing lies strictly between a stamp and its successor, nor between the end of one view
      and the start of a later one. */
  lemma SuccIsLeast(a: Viewstamp, b: Viewstamp)
    ensures Lt(a, b) <==> Le(Succ(a), b)
    ensures b.ts == 0 && Lt(a, b) ==> VidLt(a.vid, b.vid)
  {
  }
}
