/** A cohort whose log may hold entries off the linear history: when executing stays on the history. */
module HistoryWalk {
  import opened Stamps
  import opened CohortSpec
  import opened CohortInvariants
  import opened LogWalk
  import opened Traffic
  import opened BackupSteps
  import opened LinearHistory

  /** Whatever the log holds at a stamp of the history is what the history has there. */
  ghost predicate Agrees(log: Log, g: seq<Slot>) {
    forall x :: x in g && x.vs in log ==> log[x.vs].arg == x.arg
  }

  /** No logged entry on the walk from `vs` up to `upto` lies off the history: no entry at all, or no
      client request. */
  ghost predicate WalkOn(log: Log, jumps: Jumps, vs: Viewstamp, upto: Viewstamp, g: seq<Slot>, all: bool)
    decreases Above(log.Keys, vs)
  {
    Le(vs, upto) && vs in log ==>
      && (all || log[vs].arg.Client? ==> Slot(vs, log[vs].arg) in g)
      && (AboveDrops(log.Keys, vs, VsNext(jumps, vs)); WalkOn(log, jumps, VsNext(jumps, vs), upto, g, all))
  }

  ghost predicate OnHistory(s: Cohort, g: seq<Slot>) {
    exists n: nat :: ExecutedTo(s, g, n)
  }

  /** The executed stamp is none of the history's. */
  ghost predicate Strayed(s: Cohort, g: seq<Slot>) {
    forall n: nat :: n <= |g| ==> s.executed != StampAt(g, n)
  }

  // ---------------------------------------------------------------- one entry

  lemma ExecOneParts(s: Cohort, n: Viewstamp)
    requires n in s.log
    ensures var t := ExecOne(s, n);
            && SameArgs(s.log, t.log) && t.jumps == s.jumps && t.committed == s.committed && t.executed == n
            && t.submitted == s.submitted + if s.log[n].arg.Client? then [Submission(n, s.log[n].arg.req)] else []
  {
    if s.log[n].arg.Client? { ExecRequestFrame(s, n); hide ExecForm; } else { ExecFormFrame(s, n); hide ExecRequest, Aborted; }
  }

  /** From the history, an entry of the history leads along it. */
  lemma StepOn(s: Cohort, g: seq<Slot>)
    requires Linear(g) && JumpsMatch(s.log, s.jumps) && OnHistory(s, g)
    requires var x := VsNext(s.jumps, s.executed); x in s.log && Slot(x, s.log[x].arg) in g
    ensures OnHistory(ExecOne(s, VsNext(s.jumps, s.executed)), g)
  {
    var x := VsNext(s.jumps, s.executed);
    var n: nat :| ExecutedTo(s, g, n);
    NextIsNextSlot(s, g, n);
    ExecOneParts(s, x);
    assert g[..n + 1][..n] == g[..n];
    hide ExecOne, Linear, JumpsMatch;
    assert ExecutedTo(ExecOne(s, x), g, n + 1);
  }

  /** Only from the history does an entry of the history follow. */
  lemma StepFrom(s: Cohort, g: seq<Slot>, x: Viewstamp)
    requires Linear(g) && JumpsMatch(s.log, s.jumps) && x == VsNext(s.jumps, s.executed) && x in s.log
    requires Slot(x, s.log[x].arg) in g
    ensures !Strayed(s, g)
  {
    var j := IndexOf(g, Slot(x, s.log[x].arg));
    NextFollows(s, g, j);
  }

  /** An entry off the history leads off it. */
  lemma StepOff(s: Cohort, g: seq<Slot>)
    requires Linear(g) && Agrees(s.log, g)
    requires var x := VsNext(s.jumps, s.executed); x in s.log && Slot(x, s.log[x].arg) !in g
    ensures Strayed(ExecOne(s, VsNext(s.jumps, s.executed)), g)
  {
    var x := VsNext(s.jumps, s.executed);
    ExecOneParts(s, x);
    hide ExecOne, Linear;
    forall n: nat | n <= |g| ensures x != StampAt(g, n) {
      if n > 0 { assert g[n - 1] in g; }
    }
  }

  lemma AgreesSame(l: Log, m: Log, g: seq<Slot>)
    requires SameArgs(l, m) && Agrees(l, g)
    ensures Agrees(m, g)
  {
  }

  lemma {:induction false} WalkSame(l: Log, m: Log, jumps: Jumps, vs: Viewstamp, upto: Viewstamp, g: seq<Slot>, all: bool)
    requires SameArgs(l, m)
    ensures WalkOn(l, jumps, vs, upto, g, all) == WalkOn(m, jumps, vs, upto, g, all)
    decreases Above(l.Keys, vs)
  {
    if Le(vs, upto) && vs in l {
      AboveDrops(l.Keys, vs, VsNext(jumps, vs));
      WalkSame(l, m, jumps, VsNext(jumps, vs), upto, g, all);
    }
  }

  /** The walk still before the cohort. */
  ghost predicate Ahead(s: Cohort, upto: Viewstamp, g: seq<Slot>, all: bool) {
    WalkOn(s.log, s.jumps, VsNext(s.jumps, s.executed), upto, g, all)
  }

  lemma AheadStep(s: Cohort, upto: Viewstamp, g: seq<Slot>, all: bool)
    requires var x := VsNext(s.jumps, s.executed); Le(x, upto) && x in s.log
    ensures var x := VsNext(s.jumps, s.executed);
            Ahead(s, upto, g, all) <==>
              (all || s.log[x].arg.Client? ==> Slot(x, s.log[x].arg) in g) && Ahead(ExecOne(s, x), upto, g, all)
  {
    var x := VsNext(s.jumps, s.executed);
    ExecOneParts(s, x);
    var t := ExecOne(s, x);
    hide ExecOne;
    WalkSame(s.log, t.log, s.jumps, VsNext(s.jumps, x), upto, g, all);
  }

  lemma AheadStop(s: Cohort, upto: Viewstamp, g: seq<Slot>, all: bool)
    requires var x := VsNext(s.jumps, s.executed); !(Le(x, upto) && x in s.log)
    ensures Ahead(s, upto, g, all)
  {
  }

  /** The walk up to c2 is the walk up to c1, and then on from where executing up to c1 ends. */
  lemma {:induction false} WalkResumes(s: Cohort, c2: Viewstamp, g: seq<Slot>, all: bool)
    requires Le(s.committed, c2)
    ensures Ahead(s, c2, g, all) <==> Ahead(s, s.committed, g, all) && Ahead(AdvanceExecuted(s), c2, g, all)
    decreases Above(s.log.Keys, VsNext(s.jumps, s.executed))
  {
    var x := VsNext(s.jumps, s.executed);
    if Le(x, s.committed) && x in s.log {
      ExecOneParts(s, x);
      ExecUnfold(s);
      AheadStep(s, s.committed, g, all);
      AheadStep(s, c2, g, all);
      AboveDrops(s.log.Keys, x, VsNext(s.jumps, x));
      hide ExecOne, AdvanceExecuted, Ahead;
      WalkResumes(ExecOne(s, x), c2, g, all);
    } else {
      AheadStop(s, s.committed, g, all);
      assert AdvanceExecuted(s) == s;
    }
  }

  // ---------------------------------------------------------------- executing

  lemma ExecArgs(s: Cohort)
    ensures SameArgs(s.log, AdvanceExecuted(s).log) && AdvanceExecuted(s).jumps == s.jumps
    ensures AdvanceExecuted(s).committed == s.committed
  {
    ExecFromFrame(s, VsNext(s.jumps, s.executed));
  }

  /** Once off the history, executing does not lead back to it. */
  lemma {:induction false} StrayedStays(s: Cohort, g: seq<Slot>)
    requires Linear(g) && JumpsMatch(s.log, s.jumps) && Agrees(s.log, g) && Strayed(s, g)
    ensures Strayed(AdvanceExecuted(s), g)
    decreases Above(s.log.Keys, VsNext(s.jumps, s.executed))
  {
    var x := VsNext(s.jumps, s.executed);
    if Le(x, s.committed) && x in s.log {
      var t := ExecOne(s, x);
      ExecOneParts(s, x);
      ExecUnfold(s);
      AboveDrops(s.log.Keys, x, VsNext(s.jumps, x));
      hide ExecOne, AdvanceExecuted, Strayed, Linear, JumpsMatch, Agrees;
      if Slot(x, s.log[x].arg) in g { StepFrom(s, g, x); } else { StepOff(s, g); }
      SameArgsJumps(s.log, t.log, s.jumps);
      AgreesSame(s.log, t.log, g);
      StrayedStays(t, g);
    }
  }

  /** A cohort on the history stays there by executing if and only if no entry it walks over lies off
      the history. */
  lemma {:induction false} ExecStaysOn(s: Cohort, g: seq<Slot>)
    requires Linear(g) && JumpsMatch(s.log, s.jumps) && Agrees(s.log, g) && OnHistory(s, g)
    ensures OnHistory(AdvanceExecuted(s), g) <==> Ahead(s, s.committed, g, true)
    ensures OnHistory(AdvanceExecuted(s), g) || Strayed(AdvanceExecuted(s), g)
    decreases Above(s.log.Keys, VsNext(s.jumps, s.executed))
  {
    var x := VsNext(s.jumps, s.executed);
    if Le(x, s.committed) && x in s.log {
      var t := ExecOne(s, x);
      ExecOneParts(s, x);
      ExecUnfold(s);
      AheadStep(s, s.committed, g, true);
      AboveDrops(s.log.Keys, x, VsNext(s.jumps, x));
      SameArgsJumps(s.log, t.log, s.jumps);
      AgreesSame(s.log, t.log, g);
      hide ExecOne, AdvanceExecuted, Strayed, Linear, JumpsMatch, Agrees, Ahead, OnHistory;
      if Slot(x, s.log[x].arg) in g {
        StepOn(s, g);
        ExecStaysOn(t, g);
      } else {
        StepOff(s, g);
        StrayedStays(t, g);
        NotBoth(AdvanceExecuted(t), g);
      }
    } else {
      AheadStop(s, s.committed, g, true);
    }
  }

  lemma NotBoth(s: Cohort, g: seq<Slot>)
    requires Strayed(s, g)
    ensures !OnHistory(s, g)
  {
    hide Requests;
  }

  // ---------------------------------------------------------------- requests

  lemma {:induction false} RequestsFrom(g: seq<Slot>, x: Submission)
    requires x in Requests(g)
    ensures Slot(x.vs, Client(x.req)) in g
  {
    var last := g[|g| - 1];
    if last.arg.Client? && x == Submission(last.vs, last.arg.req) {
      assert last == Slot(x.vs, Client(x.req));
    } else {
      RequestsFrom(g[..|g| - 1], x);
    }
  }

  /** Nothing has been handed over that is not on the history, though the cohort may have left it. */
  ghost predicate Placed(s: Cohort, g: seq<Slot>) {
    OnHistory(s, g) || (Strayed(s, g) && s.submitted <= Requests(g))
  }

  lemma OnPlaced(s: Cohort, g: seq<Slot>)
    requires OnHistory(s, g)
    ensures s.submitted <= Requests(g)
  {
    hide Requests;
    var n: nat :| ExecutedTo(s, g, n);
    RequestsPrefix(g, n, |g|);
    assert g[..|g|] == g;
  }

  lemma {:induction false} SubmittedGrows(s: Cohort)
    ensures s.submitted <= AdvanceExecuted(s).submitted
    decreases Above(s.log.Keys, VsNext(s.jumps, s.executed))
  {
    var x := VsNext(s.jumps, s.executed);
    if Le(x, s.committed) && x in s.log {
      ExecOneParts(s, x);
      ExecUnfold(s);
      AboveDrops(s.log.Keys, x, VsNext(s.jumps, x));
      hide ExecOne, AdvanceExecuted;
      SubmittedGrows(ExecOne(s, x));
    }
  }

  /** A step that hands over nothing off the history. */
  lemma StepPlaced(s: Cohort, g: seq<Slot>)
    requires Linear(g) && JumpsMatch(s.log, s.jumps) && Agrees(s.log, g) && Placed(s, g)
    requires var x := VsNext(s.jumps, s.executed); x in s.log && (s.log[x].arg.Client? ==> Slot(x, s.log[x].arg) in g)
    ensures Placed(ExecOne(s, VsNext(s.jumps, s.executed)), g)
  {
    var x := VsNext(s.jumps, s.executed);
    ExecOneParts(s, x);
    hide ExecOne, Linear, JumpsMatch, Agrees, OnHistory, Strayed;
    if Slot(x, s.log[x].arg) in g {
      StepFrom(s, g, x);
      StepOn(s, g);
    } else {
      StepOff(s, g);
      if OnHistory(s, g) { OnPlaced(s, g); }
    }
  }

  /** Executing hands over only requests of the history, in its order, if and only if no request it walks
      over lies off the history. */
  lemma {:induction false} ExecSubmitsOn(s: Cohort, g: seq<Slot>)
    requires Linear(g) && JumpsMatch(s.log, s.jumps) && Agrees(s.log, g) && Placed(s, g)
    ensures AdvanceExecuted(s).submitted <= Requests(g) <==> Ahead(s, s.committed, g, false)
    ensures AdvanceExecuted(s).submitted <= Requests(g) ==> Placed(AdvanceExecuted(s), g)
    decreases Above(s.log.Keys, VsNext(s.jumps, s.executed))
  {
    var x := VsNext(s.jumps, s.executed);
    if Le(x, s.committed) && x in s.log {
      var t := ExecOne(s, x);
      ExecOneParts(s, x);
      ExecUnfold(s);
      AheadStep(s, s.committed, g, false);
      AboveDrops(s.log.Keys, x, VsNext(s.jumps, x));
      SameArgsJumps(s.log, t.log, s.jumps);
      AgreesSame(s.log, t.log, g);
      hide ExecOne, AdvanceExecuted, Linear, JumpsMatch, Agrees, Ahead, Placed, Requests;
      if s.log[x].arg.Client? && Slot(x, s.log[x].arg) !in g {
        SubmittedGrows(t);
        OffRequest(t.submitted, AdvanceExecuted(t).submitted, Submission(x, s.log[x].arg.req), g);
      } else {
        StepPlaced(s, g);
        ExecSubmitsOn(t, g);
      }
    } else {
      AheadStop(s, s.committed, g, false);
      assert AdvanceExecuted(s) == s;
      if OnHistory(s, g) { OnPlaced(s, g); }
    }
  }

  lemma OffRequest(a: seq<Submission>, b: seq<Submission>, x: Submission, g: seq<Slot>)
    requires x in a && a <= b && Slot(x.vs, Client(x.req)) !in g
    ensures !(b <= Requests(g))
  {
    if b <= Requests(g) {
      assert x in Requests(g);
      RequestsFrom(g, x);
    }
  }

  // ---------------------------------------------------------------- REPLICATE

  /** The same log, executed stamp and submissions. */
  ghost predicate SamePlace(s: Cohort, t: Cohort) {
    SameArgs(s.log, t.log) && t.jumps == s.jumps && t.executed == s.executed && t.submitted == s.submitted
  }

  lemma PlaceSame(s: Cohort, t: Cohort, g: seq<Slot>)
    requires SamePlace(s, t)
    ensures OnHistory(t, g) == OnHistory(s, g) && Strayed(t, g) == Strayed(s, g) && Placed(t, g) == Placed(s, g)
  {
    hide Requests;
    if OnHistory(s, g) { var n: nat :| ExecutedTo(s, g, n); assert ExecutedTo(t, g, n); }
    if OnHistory(t, g) { var n: nat :| ExecutedTo(t, g, n); assert ExecutedTo(s, g, n); }
  }

  lemma SameAhead(s: Cohort, t: Cohort, upto: Viewstamp, g: seq<Slot>, all: bool)
    requires SamePlace(s, t)
    ensures Ahead(s, upto, g, all) == Ahead(t, upto, g, all)
  {
    WalkSame(s.log, t.log, s.jumps, VsNext(s.jumps, s.executed), upto, g, all);
  }

  /** Executing, then committing more, then executing again. */
  lemma TwoStages(u: Cohort, u2: Cohort, g: seq<Slot>)
    requires Linear(g) && JumpsMatch(u.log, u.jumps) && Agrees(u.log, g) && OnHistory(u, g)
    requires SamePlace(AdvanceExecuted(u), u2) && Le(u.committed, u2.committed)
    ensures OnHistory(AdvanceExecuted(u2), g) <==> Ahead(u, u2.committed, g, true)
    ensures AdvanceExecuted(u2).submitted <= Requests(g) <==> Ahead(u, u2.committed, g, false)
  {
    var u1 := AdvanceExecuted(u);
    ExecArgs(u);
    SameArgsJumps(u.log, u1.log, u.jumps);
    SameArgsJumps(u1.log, u2.log, u.jumps);
    AgreesSame(u.log, u1.log, g);
    AgreesSame(u1.log, u2.log, g);
    PlaceSame(u1, u2, g);
    forall all ensures Ahead(u, u2.committed, g, all) <==> Ahead(u, u.committed, g, all) && Ahead(u2, u2.committed, g, all) {
      WalkResumes(u, u2.committed, g, all);
      SameAhead(u1, u2, u2.committed, g, all);
    }
    hide AdvanceExecuted, Linear, JumpsMatch, Agrees, OnHistory, Strayed, Ahead, Placed, Requests, SameArgs;
    ExecStaysOn(u, g);
    if OnHistory(u1, g) {
      ExecStaysOn(u2, g);
    } else {
      StrayedStays(u2, g);
      NotBoth(AdvanceExecuted(u2), g);
    }
    IsPlaced(u, g);
    ExecSubmitsOn(u, g);
    if u1.submitted <= Requests(g) {
      ExecSubmitsOn(u2, g);
    } else {
      SubmittedGrows(u2);
      PrefixFails(u1.submitted, AdvanceExecuted(u2).submitted, Requests(g));
    }
  }

  lemma IsPlaced(s: Cohort, g: seq<Slot>)
    requires OnHistory(s, g)
    ensures Placed(s, g)
  {
  }

  lemma PrefixFails(a: seq<Submission>, b: seq<Submission>, c: seq<Submission>)
    requires a <= b && !(a <= c)
    ensures !(b <= c)
  {
  }

  /** What a log pull executes is what `advance_committed` executes at its beginning. */
  lemma PullPlace(s: Cohort, src: Mid, latest: Viewstamp, done: DoneCb) returns (u2: Cohort)
    ensures SamePlace(s, u2) && Le(s.committed, u2.committed)
    ensures var t := PullLog(s, src, latest, done);
            SamePlace(AdvanceExecuted(u2), t) && t.committed == u2.committed
  {
    var o, i := OpenPull(s, src, latest, done), |s.pulls|;
    OpenPullFrame(s, src, latest, done);
    var n := VsNext(o.jumps, o.committed);
    u2 := CommitFrom(o, n);
    CommitFromFrame(o, n);
    ExecArgs(u2);
    AdvanceCommittedKeepsPulls(o);
    var s1 := AdvanceCommitted(o);
    StepBackFrame(s1, i);
    SettleFrame(StepBack(s1, i), i);
    hide OpenPull, CommitFrom, AdvanceExecuted, StepBack, Settle;
  }

  /** REPLICATE at a cohort on the history. With what is logged then, the cohort stays on the history if
      and only if no entry on the walk from `executed` up to the new `committed` lies off it; and it
      hands over only requests of the history, in its order, if and only if no request on that walk
      does. The new `committed` is the one it was told, unless it was ahead or had entries waiting. */
  lemma ReplicateStaysOn(s: Cohort, g: seq<Slot>, src: Mid, vs: Viewstamp, arg: Arg, committed: Viewstamp)
    requires Linear(g) && JumpsMatch(s.log, s.jumps) && OnHistory(s, g)
    requires WfSlot(vs, arg) && !RefusesReplicate(s, vs) && Agrees(StoreEntry(s, vs, arg).log, g)
    ensures var t, w := OnReplicate(s, src, vs, arg, committed), StoreEntry(s, vs, arg);
            && (OnHistory(t, g) <==> Ahead(w, t.committed, g, true))
            && (t.submitted <= Requests(g) <==> Ahead(w, t.committed, g, false))
            && (Lags(RaiseCommitted(s, committed)) ==> t.committed == RaiseCommitted(s, committed).committed)
  {
    var w := StoreEntry(s, vs, arg);
    var u := RaiseCommitted(w, committed);
    StoredPlace(s, vs, arg, committed);
    PlaceSame(s.(log := w.log, jumps := w.jumps), u, g);
    assert OnHistory(u, g) by { HistoryOnly(s, u, g); }
    hide StoreEntry, RaiseCommitted, OnHistory, Linear, JumpsMatch, Agrees, Requests, Ahead, AdvanceExecuted, PullLog;
    ExecArgs(u);
    var primary := if vs.ts != 0 then s.view.primary else arg.form.view.primary;
    var u1 := AdvanceExecuted(u);
    var u2 := PullPlace(u1, primary, vs, AckReplicate(src, vs));
    var t := PullLog(u1, primary, vs, AckReplicate(src, vs));
    TwoStages(u, u2, g);
    PlaceSame(AdvanceExecuted(u2), t, g);
    SameAhead(w, u, t.committed, g, true);
    SameAhead(w, u, t.committed, g, false);
    if Lags(RaiseCommitted(s, committed)) { OnReplicateCursors(s, src, vs, arg, committed); }
  }

  lemma StoredPlace(s: Cohort, vs: Viewstamp, arg: Arg, committed: Viewstamp)
    requires JumpsMatch(s.log, s.jumps) && WfSlot(vs, arg)
    ensures var w, u := StoreEntry(s, vs, arg), RaiseCommitted(StoreEntry(s, vs, arg), committed);
            && JumpsMatch(u.log, u.jumps) && SamePlace(w, u) && u.executed == s.executed && u.submitted == s.submitted
            && u.log == w.log && u.jumps == w.jumps
  {
    hide JumpsMatch, JumpsUpdate;
    if vs !in s.log { InsertJumps(s.log, s.jumps, vs, Entry(arg, None, None, Logged)); }
  }

  lemma HistoryOnly(s: Cohort, t: Cohort, g: seq<Slot>)
    requires OnHistory(s, g) && t.executed == s.executed && t.submitted == s.submitted
    ensures OnHistory(t, g)
  {
    hide Requests;
    var n: nat :| ExecutedTo(s, g, n);
    assert ExecutedTo(t, g, n);
  }

  // ---------------------------------------------------------------- a guard

  /** Every logged formation is one of the history's. */
  ghost predicate FormsOn(log: Log, g: seq<Slot>) {
    forall k :: k in log && log[k].arg.Form? ==> Slot(k, log[k].arg) in g
  }

  /** At slot k the history goes on to a new view whose formation is not logged, but the log has
      something else there: a leftover of the old view. */
  ghost predicate LeftoverAt(log: Log, g: seq<Slot>, k: nat)
    requires k < |g|
  {
    g[k].arg.Form? && g[k].vs !in log && Succ(StampAt(g, k)) in log
  }

  ghost predicate HeldFrom(log: Log, g: seq<Slot>, n: nat, k: nat)
    requires k <= |g|
  {
    forall i :: n <= i < k ==> g[i].vs in log
  }

  /** Between slots n and m there is a leftover that everything before it leads to. */
  ghost predicate Leftover(log: Log, g: seq<Slot>, n: nat, m: nat)
    requires m <= |g|
  {
    exists k: nat :: n <= k < m && HeldFrom(log, g, n, k) && LeftoverAt(log, g, k)
  }

  /** The next stamp after slot n: the history's next slot, or a stamp of the old view where the new
      view's formation is missing. */
  lemma NextOf(log: Log, jumps: Jumps, g: seq<Slot>, n: nat)
    requires Linear(g) && JumpsMatch(log, jumps) && Agrees(log, g) && FormsOn(log, g) && n < |g|
    ensures var x := VsNext(jumps, StampAt(g, n));
            x == if g[n].arg.Form? && g[n].vs !in log then Succ(StampAt(g, n)) else g[n].vs
  {
    var e := StampAt(g, n);
    assert Fits(g, n) && g[n] in g;
    if e in jumps {
      var y := Slot(jumps[e], log[jumps[e]].arg);
      assert y in g;
      var j := IndexOf(g, y);
      assert Fits(g, j);
      StampsDistinct(g, j, n);
    }
  }

  /** A stamp of the old view after the history has left it is not the history's. */
  lemma LeftoverOff(g: seq<Slot>, k: nat, arg: Arg)
    requires Linear(g) && k < |g| && g[k].arg.Form?
    ensures Slot(Succ(StampAt(g, k)), arg) !in g && Lt(Succ(StampAt(g, k)), g[k].vs)
  {
    var x := Slot(Succ(StampAt(g, k)), arg);
    assert Fits(g, k);
    SuccIsLeast(StampAt(g, k), g[k].vs);
    if x in g {
      var j := IndexOf(g, x);
      if j < k { if j + 1 < k { StampsIncrease(g, j + 1, k); } }
      if k < j { StampsIncrease(g, k + 1, j + 1); }
    }
  }

  lemma LeftoverNow(log: Log, g: seq<Slot>, n: nat, m: nat)
    requires n < m <= |g| && LeftoverAt(log, g, n)
    ensures Leftover(log, g, n, m)
  {
    assert HeldFrom(log, g, n, n);
  }

  lemma LeftoverLater(log: Log, g: seq<Slot>, n: nat, m: nat)
    requires n < m <= |g| && g[n].vs in log
    ensures Leftover(log, g, n, m) <==> Leftover(log, g, n + 1, m)
  {
    if Leftover(log, g, n, m) {
      var k: nat :| n <= k < m && HeldFrom(log, g, n, k) && LeftoverAt(log, g, k);
      assert k != n && HeldFrom(log, g, n + 1, k);
    }
    if Leftover(log, g, n + 1, m) {
      var k: nat :| n + 1 <= k < m && HeldFrom(log, g, n + 1, k) && LeftoverAt(log, g, k);
      assert HeldFrom(log, g, n, k);
    }
  }

  lemma LeftoverNever(log: Log, g: seq<Slot>, n: nat, m: nat)
    requires n < m <= |g| && g[n].vs !in log && !LeftoverAt(log, g, n)
    ensures !Leftover(log, g, n, m)
  {
  }

  /** The walk from slot n up to slot m stays on the history unless there is a leftover on the way. */
  lemma {:induction false} WalkGuard(log: Log, jumps: Jumps, g: seq<Slot>, n: nat, m: nat)
    requires Linear(g) && JumpsMatch(log, jumps) && Agrees(log, g) && FormsOn(log, g) && n <= |g| && m <= |g|
    ensures WalkOn(log, jumps, VsNext(jumps, StampAt(g, n)), StampAt(g, m), g, true) <==> !Leftover(log, g, n, m)
    decreases if n <= m then m - n else 0
  {
    var x := VsNext(jumps, StampAt(g, n));
    if n < m {
      NextOf(log, jumps, g, n);
      if n + 1 < m { StampsIncrease(g, n + 1, m); }
      if g[n].vs in log {
        assert g[n] in g && StampAt(g, n + 1) == x;
        AboveDrops(log.Keys, x, VsNext(jumps, x));
        LeftoverLater(log, g, n, m);
        WalkGuard(log, jumps, g, n + 1, m);
      } else if LeftoverAt(log, g, n) {
        LeftoverNow(log, g, n, m);
        LeftoverOff(g, n, log[x].arg);
        AboveDrops(log.Keys, x, VsNext(jumps, x));
      } else {
        LeftoverNever(log, g, n, m);
      }
    } else if m < n {
      StampsIncrease(g, m, n);
    }
  }

  /** A guard that decides it: with logged formations from the history only, REPLICATE of a commit on the
      history takes a cohort off the history if and only if somewhere between `executed` and that commit
      the history enters a view whose formation the cohort lacks while it holds a leftover there. In
      particular it stays on if the commit lies in the view it executes. */
  lemma ReplicateGuard(s: Cohort, g: seq<Slot>, src: Mid, vs: Viewstamp, arg: Arg, committed: Viewstamp, n: nat, m: nat)
    requires Linear(g) && JumpsMatch(s.log, s.jumps) && ExecutedTo(s, g, n)
    requires WfSlot(vs, arg) && !RefusesReplicate(s, vs) && Lags(RaiseCommitted(s, committed))
    requires Agrees(StoreEntry(s, vs, arg).log, g) && FormsOn(StoreEntry(s, vs, arg).log, g)
    requires m <= |g| && RaiseCommitted(s, committed).committed == StampAt(g, m)
    ensures var t, w := OnReplicate(s, src, vs, arg, committed), StoreEntry(s, vs, arg);
            && (OnHistory(t, g) <==> !Leftover(w.log, g, n, m))
            && (StampAt(g, m).vid == s.executed.vid ==> OnHistory(t, g))
  {
    var w := StoreEntry(s, vs, arg);
    StoredPlace(s, vs, arg, committed);
    hide OnReplicate, StoreEntry, Linear, JumpsMatch, Agrees, FormsOn, RefusesReplicate, Requests, Leftover;
    ReplicateStaysOn(s, g, src, vs, arg, committed);
    WalkGuard(w.log, w.jumps, g, n, m);
    if StampAt(g, m).vid == s.executed.vid { SameViewNone(w.log, g, n, m); }
  }

  lemma SameViewNone(log: Log, g: seq<Slot>, n: nat, m: nat)
    requires Linear(g) && n <= |g| && m <= |g| && StampAt(g, m).vid == StampAt(g, n).vid
    ensures !Leftover(log, g, n, m)
  {
    forall k: nat | n <= k < m ensures !LeftoverAt(log, g, k) {
      assert Fits(g, k);
      if n < k { StampsIncrease(g, n, k); }
      if k + 1 < m { StampsIncrease(g, k + 1, m); }
      SuccIsLeast(StampAt(g, k), g[k].vs);
    }
  }
}
