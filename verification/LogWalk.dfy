/** Walks along the log: the VIEW_CHANGE scan, executing in one go or in two, and whole runs. */
module LogWalk {
  import opened Stamps
  import opened CohortSpec
  import opened CohortInvariants

  /** `path` follows the jump index through logged stamps. */
  ghost predicate Chain(log: Log, jumps: Jumps, path: seq<Viewstamp>) {
    && path != []
    && forall i :: 0 < i < |path| ==> path[i] == VsNext(jumps, path[i - 1]) && path[i] in log
  }

  /** The scan ends at the last stamp of the gapless chain: every step of the chain is logged and
      the next stamp is not. */
  lemma {:induction false} ScanIsChainEnd(log: Log, jumps: Jumps, from: Viewstamp) returns (path: seq<Viewstamp>)
    ensures Chain(log, jumps, path) && path[0] == from
    ensures path[|path| - 1] == ScanFrom(log, jumps, from)
    ensures VsNext(jumps, ScanFrom(log, jumps, from)) !in log
    decreases Above(log.Keys, VsNext(jumps, from))
  {
    var n := VsNext(jumps, from);
    if n in log {
      AboveDrops(log.Keys, n, VsNext(jumps, n));
      var rest := ScanIsChainEnd(log, jumps, n);
      path := [from] + rest;
      assert forall i :: 0 < i < |path| ==> path[i] == rest[i - 1];
    } else {
      path := [from];
    }
  }

  /** A chain is a strictly increasing sequence of stamps, and the scan finds the end of every
      gapless chain that cannot be extended. */
  lemma {:induction false} ChainEndIsScan(log: Log, jumps: Jumps, path: seq<Viewstamp>)
    requires Chain(log, jumps, path)
    ensures Le(path[0], path[|path| - 1])
    ensures VsNext(jumps, path[|path| - 1]) !in log ==> path[|path| - 1] == ScanFrom(log, jumps, path[0])
    decreases |path|
  {
    if |path| > 1 {
      var n := VsNext(jumps, path[0]);
      assert path[1] == n && n in log;
      assert forall i :: 0 < i < |path[1..]| ==> path[1..][i] == path[i + 1] && path[1..][i - 1] == path[i];
      ChainEndIsScan(log, jumps, path[1..]);
      AboveDrops(log.Keys, n, VsNext(jumps, n));
    }
  }

  /** The log holds every client stamp of `last`'s view up to `last`. */
  ghost predicate HoldsUpto(log: Log, last: Viewstamp) {
    forall t: nat :: 1 <= t <= last.ts ==> Viewstamp(last.vid, t) in log
  }

  /** The scan never ends below its start, and the log holds its end's view up to the end. */
  lemma {:induction false} ScanHolds(log: Log, jumps: Jumps, from: Viewstamp)
    requires JumpsMatch(log, jumps) && HoldsUpto(log, from)
    ensures Le(from, ScanFrom(log, jumps, from))
    ensures HoldsUpto(log, ScanFrom(log, jumps, from))
    ensures ScanFrom(log, jumps, from).vid == from.vid || FormedView(log, ScanFrom(log, jumps, from).vid)
    decreases Above(log.Keys, VsNext(jumps, from))
  {
    var n := VsNext(jumps, from);
    if n in log {
      AboveDrops(log.Keys, n, VsNext(jumps, n));
      ScanHolds(log, jumps, n);
    }
  }

  ghost predicate FormedView(log: Log, v: Viewid) {
    Viewstamp(v, 0) in log
  }

  /** With no formation continuing `from`'s view, the scan covers all of the view that is held. */
  lemma {:induction false} ScanReaches(log: Log, jumps: Jumps, from: Viewstamp, n: nat)
    requires JumpsMatch(log, jumps) && HoldsUpto(log, Viewstamp(from.vid, n)) && from.ts <= n
    requires forall k :: k in log && log[k].arg.Form? ==> log[k].arg.form.prev.vid != from.vid
    ensures Le(Viewstamp(from.vid, n), ScanFrom(log, jumps, from))
    decreases n - from.ts
  {
    if from.ts < n {
      assert from !in jumps;
      var s := Succ(from);
      assert s == Viewstamp(from.vid, from.ts + 1) && s in log;
      AboveDrops(log.Keys, s, VsNext(jumps, s));
      ScanReaches(log, jumps, s, n);
    } else if VsNext(jumps, from) in log {
      var s := VsNext(jumps, from);
      AboveDrops(log.Keys, s, VsNext(jumps, s));
      var path := ScanIsChainEnd(log, jumps, from);
      ChainEndIsScan(log, jumps, path);
    }
  }

  /** On a fixed log, executing up to c1 and then up to c2 is executing up to c2. */
  lemma {:induction false} ExecSplits(s: Cohort, c1: Viewstamp, c2: Viewstamp)
    requires Le(c1, c2)
    ensures AdvanceExecuted(AdvanceExecuted(s.(committed := c1)).(committed := c2))
         == AdvanceExecuted(s.(committed := c2))
    decreases Above(s.log.Keys, VsNext(s.jumps, s.executed))
  {
    var n := VsNext(s.jumps, s.executed);
    if Le(n, c1) && n in s.log {
      var t := ExecOne(s, n);
      if s.log[n].arg.Client? { ExecRequestFrame(s, n); } else { ExecFormFrame(s, n); }
      ExecOneCommutes(s, n, c1);
      ExecOneCommutes(s, n, c2);
      AboveDrops(s.log.Keys, n, VsNext(s.jumps, n));
      ExecUnfold(s.(committed := c1));
      ExecUnfold(s.(committed := c2));
      hide ExecOne, ExecFrom;
      ExecSplits(t, c1, c2);
    } else {
      assert s.(committed := c1).(committed := c2) == s.(committed := c2);
    }
  }

  lemma ExecRequestCommutes(s: Cohort, n: Viewstamp, c: Viewstamp)
    requires n in s.log && s.log[n].arg.Client?
    ensures ExecRequest(s.(committed := c), n) == ExecRequest(s, n).(committed := c)
  {
  }

  lemma ExecFormCommutes(s: Cohort, n: Viewstamp, c: Viewstamp)
    requires n in s.log && s.log[n].arg.Form?
    ensures ExecForm(s.(committed := c), n) == ExecForm(s, n).(committed := c)
  {
    hide Aborted;
  }

  lemma ExecOneCommutes(s: Cohort, n: Viewstamp, c: Viewstamp)
    requires n in s.log
    ensures ExecOne(s.(committed := c), n) == ExecOne(s, n).(committed := c)
    ensures ExecOne(s, n).executed == n
  {
    if s.log[n].arg.Client? {
      ExecRequestCommutes(s, n, c);
      hide ExecForm;
    } else {
      ExecFormCommutes(s, n, c);
      hide ExecRequest;
    }
  }

  lemma ExecUnfold(s: Cohort)
    requires var n := VsNext(s.jumps, s.executed); Le(n, s.committed) && n in s.log
    ensures var n := VsNext(s.jumps, s.executed); AdvanceExecuted(s) == AdvanceExecuted(ExecOne(s, n))
  {
    var n := VsNext(s.jumps, s.executed);
    if s.log[n].arg.Client? { ExecRequestFrame(s, n); } else { ExecFormFrame(s, n); }
  }

  // ---------------------------------------------------------------- runs of one cohort

  /** The state after handling the events in order. */
  ghost function Run(s: Cohort, es: seq<Event>): Cohort
    requires RunOk(s, es)
    decreases |es|
  {
    if es == [] then s else Run(Handle(s, es[0]), es[1..])
  }

  ghost predicate RunOk(s: Cohort, es: seq<Event>)
    decreases |es|
  {
    es != [] ==> EventOk(s, es[0]) && NoDuplicateStamp(s, es[0]) && RunOk(Handle(s, es[0]), es[1..])
  }

  /** The two states a cohort can start in. */
  lemma StartsOk(self: Mid)
    ensures Inv(Founder(self)) && Inv(Joiner(self))
  {
    var f := Founder(self);
    assert f.log.Keys == {FormStamp(SyntheticView(self))} && f.jumps.Keys == {ZERO_STAMP};
  }

  /** Over any run: the cursors stay ordered, the executed stamp stays in the installed view, no
      stamp is handed to the state machine twice, and executed, view and log never go back. */
  lemma {:induction false} RunKeeps(s: Cohort, es: seq<Event>)
    requires Inv(s) && RunOk(s, es)
    ensures Inv(Run(s, es)) && Grows(s, Run(s, es))
    decreases |es|
  {
    hide Inv, Grows, Handle, EventOk, NoDuplicateStamp;
    if es == [] {
      GrowsRefl(s);
    } else {
      var t := Handle(s, es[0]);
      HandleKeeps(s, es[0]);
      RunKeeps(t, es[1..]);
      GrowsTrans(s, t, Run(t, es[1..]));
    }
  }
}
