/** What a completed `pull_log` says about the log. */
module LogPull {
  import opened Stamps
  import opened CohortSpec
  import opened CohortInvariants
  import Quorum

  /** Every stamp of `top`'s view up to `top` and above `ex` is logged or being asked for. */
  ghost predicate SegmentHeld(log: Log, pend: set<Viewstamp>, ex: Viewstamp, top: Viewstamp) {
    forall t: nat :: t <= top.ts && Lt(ex, Viewstamp(top.vid, t)) ==>
      Viewstamp(top.vid, t) in log || Viewstamp(top.vid, t) in pend
  }

  /** Walking back from `top` to view `b` along the logged formations, every segment is held. */
  ghost predicate Covered(log: Log, pend: set<Viewstamp>, ex: Viewstamp, top: Viewstamp, b: Viewid)
    decreases top.vid.counter, top.vid.manager
  {
    && SegmentHeld(log, pend, ex, top)
    && VidLe(b, top.vid)
    && (VidLt(b, top.vid) ==>
          && Viewstamp(top.vid, 0) in log
          && Covered(log, pend, ex, log[Viewstamp(top.vid, 0)].arg.form.prev, b))
  }

  /** Every stamp above `ex` on the prev chain that leads back from `top` is logged. */
  ghost predicate ChainHeld(log: Log, ex: Viewstamp, top: Viewstamp)
    decreases top.vid.counter, top.vid.manager
  {
    && SegmentHeld(log, {}, ex, top)
    && (VidLt(ex.vid, top.vid) ==>
          && Viewstamp(top.vid, 0) in log
          && ChainHeld(log, ex, log[Viewstamp(top.vid, 0)].arg.form.prev))
  }

  ghost function Pending(pl: Pull): set<Viewstamp> {
    pl.expected - pl.received
  }

  ghost predicate PullOk(s: Cohort, pl: Pull) {
    && pl.received <= pl.expected
    && Covered(s.log, Pending(pl), s.executed, pl.latest, pl.bottomview)
    && (pl.bottomdone ==> VidLe(pl.bottomview, VsNext(s.jumps, s.executed).vid))
    && (pl.done.AckReplicate? ==> pl.done.vs == pl.latest)
  }

  ghost predicate PullsOk(s: Cohort) {
    forall i :: 0 <= i < |s.pulls| ==> PullOk(s, s.pulls[i])
  }

  lemma {:induction false} CoveredGrows(l: Log, m: Log, p: set<Viewstamp>, q: set<Viewstamp>,
                                        ex: Viewstamp, ex': Viewstamp, top: Viewstamp, b: Viewid)
    requires Covered(l, p, ex, top, b)
    requires LogGrows(l, m) && Le(ex, ex') && (forall x :: x in p ==> x in m || x in q)
    ensures Covered(m, q, ex', top, b)
    decreases top.vid.counter, top.vid.manager
  {
    if VidLt(b, top.vid) {
      CoveredGrows(l, m, p, q, ex, ex', l[Viewstamp(top.vid, 0)].arg.form.prev, b);
    }
  }

  /** Stepping from the formation of view `b` to the view of its `prev`. */
  lemma {:induction false} CoveredStep(log: Log, p: set<Viewstamp>, q: set<Viewstamp>,
                                       ex: Viewstamp, top: Viewstamp, b: Viewid)
    requires Covered(log, p, ex, top, b) && Viewstamp(b, 0) in log && p <= q
    requires SegmentHeld(log, q, ex, log[Viewstamp(b, 0)].arg.form.prev)
    ensures Covered(log, q, ex, top, log[Viewstamp(b, 0)].arg.form.prev.vid)
    decreases top.vid.counter, top.vid.manager
  {
    var prev := log[Viewstamp(b, 0)].arg.form.prev;
    assert VidLt(prev.vid, b);
    if VidLt(b, top.vid) {
      CoveredStep(log, p, q, ex, log[Viewstamp(top.vid, 0)].arg.form.prev, b);
    }
  }

  /** The number of views walked back so far. */
  ghost function ViewsPassed(log: Log, top: Viewstamp, b: Viewid): nat
    decreases top.vid.counter, top.vid.manager
  {
    if VidLt(b, top.vid) && Viewstamp(top.vid, 0) in log
    then 1 + ViewsPassed(log, log[Viewstamp(top.vid, 0)].arg.form.prev, b) else 0
  }

  ghost function FormationsAbove(log: Log, b: Viewid, top: Viewid): set<Viewstamp> {
    set k | k in log && k.ts == 0 && VidLt(b, k.vid) && VidLe(k.vid, top)
  }

  /** Each step back strictly lowers the bottom view and passes one more formation. */
  lemma {:induction false} StepPassesOne(log: Log, p: set<Viewstamp>, ex: Viewstamp, top: Viewstamp, b: Viewid)
    requires Covered(log, p, ex, top, b) && Viewstamp(b, 0) in log
    ensures var prev := log[Viewstamp(b, 0)].arg.form.prev;
            VidLt(prev.vid, b) && ViewsPassed(log, top, prev.vid) == ViewsPassed(log, top, b) + 1
    decreases top.vid.counter, top.vid.manager
  {
    if VidLt(b, top.vid) {
      StepPassesOne(log, p, ex, log[Viewstamp(top.vid, 0)].arg.form.prev, b);
    }
  }

  /** So a pull walks back at most as many views as there are logged formations above its bottom. */
  lemma {:induction false} StepsBounded(log: Log, p: set<Viewstamp>, ex: Viewstamp, top: Viewstamp, b: Viewid)
    requires Covered(log, p, ex, top, b)
    ensures ViewsPassed(log, top, b) <= |FormationsAbove(log, b, top.vid)|
    decreases top.vid.counter, top.vid.manager
  {
    if VidLt(b, top.vid) {
      var xs := Viewstamp(top.vid, 0);
      var prev := log[xs].arg.form.prev;
      StepsBounded(log, p, ex, prev, b);
      assert VidLt(prev.vid, top.vid);
      Quorum.SubsetSize(FormationsAbove(log, b, prev.vid), FormationsAbove(log, b, top.vid) - {xs});
    }
  }

  // ---------------------------------------------------------------- every handler keeps PullsOk

  lemma PullsKept(s: Cohort, t: Cohort)
    requires PullsOk(s) && Grows(s, t) && t.pulls == s.pulls
    ensures PullsOk(t)
  {
    hide Covered, Grows;
    forall i | 0 <= i < |t.pulls| ensures PullOk(t, t.pulls[i]) {
      PullKept(s, t, s.pulls[i]);
    }
  }

  lemma PullKept(s: Cohort, t: Cohort, pl: Pull)
    requires PullOk(s, pl) && Grows(s, t)
    ensures PullOk(t, pl)
  {
    hide Covered;
    CoveredGrows(s.log, t.log, Pending(pl), Pending(pl), s.executed, t.executed, pl.latest, pl.bottomview);
  }

  /** Asking for the missing stamps makes the segment held. */
  lemma MissingCovers(log: Log, pend: set<Viewstamp>, ex: Viewstamp, top: Viewstamp)
    ensures SegmentHeld(log, pend + Missing(log, ex, top), ex, top)
    ensures Missing(log, ex, top) !! log.Keys
  {
    var want := Missing(log, ex, top);
    forall t: nat | t <= top.ts && Lt(ex, Viewstamp(top.vid, t))
      ensures Viewstamp(top.vid, t) in log || Viewstamp(top.vid, t) in want
    {
    }
  }

  /** Received stamps are logged. */
  ghost predicate ReceivedLogged(s: Cohort) {
    forall i :: 0 <= i < |s.pulls| ==> s.pulls[i].received <= s.log.Keys
  }

  /** Replacing one pull by another good one, in a state that otherwise looks the same to pulls. */
  lemma OnePull(s: Cohort, t: Cohort, i: nat, pl: Pull)
    requires PullsOk(s) && ReceivedLogged(s) && i < |s.pulls|
    requires t.log == s.log && t.jumps == s.jumps && t.executed == s.executed
    requires t.pulls == s.pulls[i := pl] && PullOk(s, pl) && pl.received <= s.log.Keys
    ensures PullsOk(t) && ReceivedLogged(t)
  {
    hide Covered;
    forall j | 0 <= j < |t.pulls| ensures PullOk(t, t.pulls[j]) && t.pulls[j].received <= t.log.Keys {
      if j != i { assert t.pulls[j] == s.pulls[j]; }
    }
  }

  lemma StepBackPulls(s: Cohort, i: nat)
    requires PullsOk(s) && ReceivedLogged(s) && i < |s.pulls|
    ensures PullsOk(StepBack(s, i)) && ReceivedLogged(StepBack(s, i))
  {
    hide Covered, Missing;
    var pl := s.pulls[i];
    var xs := Viewstamp(pl.bottomview, 0);
    assert PullOk(s, pl);
    if !VidLt(VsNext(s.jumps, s.executed).vid, pl.bottomview) {
      OnePull(s, StepBack(s, i), i, pl.(bottomdone := true));
    } else if xs in s.log {
      var prev := s.log[xs].arg.form.prev;
      var pl1 := pl.(bottomview := prev.vid);
      var s1 := s.(pulls := s.pulls[i := pl1]);
      StepBackInto(s, i);
      var want := Missing(s.log, s.executed, prev);
      var pl2 := pl1.(expected := pl.expected + want);
      MissingCovers(s.log, Pending(pl), s.executed, prev);
      assert Pending(pl2) == Pending(pl) + want by {
        assert want !! pl.received;
      }
      CoveredStep(s.log, Pending(pl), Pending(pl2), s.executed, pl.latest, pl.bottomview);
      PullUptoPulls(s1, i, prev);
      OnePull(s, StepBack(s, i), i, pl2) by {
        assert s.pulls[i := pl1][i := pl2] == s.pulls[i := pl2];
        assert StepBack(s, i) == PullUpto(s1, i, prev);
        PullUptoFrame(s1, i, prev);
        hide PullUpto, StepBack;
      }
    }
  }

  lemma StepBackInto(s: Cohort, i: nat)
    requires i < |s.pulls| && VidLt(VsNext(s.jumps, s.executed).vid, s.pulls[i].bottomview)
    requires Viewstamp(s.pulls[i].bottomview, 0) in s.log
    ensures var prev := s.log[Viewstamp(s.pulls[i].bottomview, 0)].arg.form.prev;
            StepBack(s, i) == PullUpto(s.(pulls := s.pulls[i := s.pulls[i].(bottomview := prev.vid)]), i, prev)
  {
    hide PullUpto;
  }

  lemma PullUptoPulls(s: Cohort, i: nat, latest: Viewstamp)
    requires i < |s.pulls|
    ensures PullUpto(s, i, latest).pulls
         == s.pulls[i := s.pulls[i].(expected := s.pulls[i].expected + Missing(s.log, s.executed, latest))]
  {
    hide Missing;
  }

  lemma FetchlogCheckPulls(s: Cohort, i: nat)
    requires Inv(s) && PullsOk(s) && ReceivedLogged(s) && i < |s.pulls|
    ensures PullsOk(FetchlogCheck(s, i)) && ReceivedLogged(FetchlogCheck(s, i))
  {
    hide Covered, Inv, AdvanceCommitted, StepBack, Fire;
    var s1 := AdvanceCommitted(s);
    AdvanceCommittedKeeps(s);
    AdvanceCommittedKeepsPulls(s);
    PullsKept(s, s1);
    StepBackPulls(s1, i);
    StepBackFrame(s1, i);
    var s2 := StepBack(s1, i);
    SettleFrame(s2, i);
    SettlePulls(s2, i);
  }

  lemma SettlePulls(s: Cohort, i: nat)
    requires PullsOk(s) && ReceivedLogged(s) && i < |s.pulls|
    ensures PullsOk(Settle(s, i)) && ReceivedLogged(Settle(s, i))
  {
    hide Covered, Fire;
    var pl := s.pulls[i];
    FireFrame(s, pl.done, pl.ok && pl.bottomdone);
    assert PullOk(s, pl);
    if PullSettled(pl) {
      OnePull(s, Settle(s, i), i, pl.(done := NullCb));
    }
  }

  lemma ReceivedKept(s: Cohort, t: Cohort)
    requires ReceivedLogged(s) && Grows(s, t) && t.pulls == s.pulls
    ensures ReceivedLogged(t)
  {
  }

  lemma NoteFetchedPulls(s: Cohort, i: nat, vs: Viewstamp, resp: Option<Arg>)
    requires Inv(s) && PullsOk(s) && ReceivedLogged(s)
    requires i < |s.pulls| && vs in s.pulls[i].expected && (resp.Some? ==> WfSlot(vs, resp.value))
    ensures PullsOk(NoteFetched(s, i, vs, resp)) && ReceivedLogged(NoteFetched(s, i, vs, resp))
  {
    hide Covered, Inv;
    var pl, t := s.pulls[i], NoteFetched(s, i, vs, resp);
    assert PullOk(s, pl);
    if vs !in s.log && resp.None? {
      OnePull(s, t, i, pl.(ok := false));
    } else {
      var s1 := if vs in s.log then s else Insert(s, vs, Entry(resp.value, None, None, Logged));
      if vs in s.log { GrowsRefl(s); } else { InsertKeeps(s, vs, Entry(resp.value, None, None, Logged)); }
      assert s1.pulls == s.pulls;
      PullsKept(s, s1);
      ReceivedKept(s, s1);
      hide Grows;
      var pl2 := pl.(received := pl.received + {vs});
      assert PullOk(s1, pl);
      CoveredGrows(s1.log, s1.log, Pending(pl), Pending(pl2), s1.executed, s1.executed, pl.latest, pl.bottomview);
      OnePull(s1, t, i, pl2);
    }
  }

  lemma FetchlogCbPulls(s: Cohort, i: nat, vs: Viewstamp, resp: Option<Arg>)
    requires Inv(s) && PullsOk(s) && ReceivedLogged(s)
    requires i < |s.pulls| && vs in s.pulls[i].expected && (resp.Some? ==> WfSlot(vs, resp.value))
    ensures PullsOk(FetchlogCb(s, i, vs, resp)) && ReceivedLogged(FetchlogCb(s, i, vs, resp))
  {
    hide Inv, PullsOk, ReceivedLogged, NoteFetched, FetchlogCheck;
    NoteFetchedKeeps(s, i, vs, resp);
    NoteFetchedPulls(s, i, vs, resp);
    FetchlogCheckPulls(NoteFetched(s, i, vs, resp), i);
  }

  lemma OpenPullPulls(s: Cohort, src: Mid, latest: Viewstamp, done: DoneCb)
    requires PullsOk(s) && ReceivedLogged(s)
    requires done.AckReplicate? ==> done.vs == latest
    ensures PullsOk(OpenPull(s, src, latest, done)) && ReceivedLogged(OpenPull(s, src, latest, done))
  {
    hide Missing;
    var i := |s.pulls|;
    var pl := Pull(latest, src, {}, {}, latest.vid, true, false, done);
    var s1 := s.(pulls := s.pulls + [pl]);
    var s2 := OpenPull(s, src, latest, done);
    OpenPullFrame(s, src, latest, done);
    PullUptoPulls(s1, i, latest);
    hide PullUpto;
    MissingCovers(s.log, {}, s.executed, latest);
    assert {} + Missing(s.log, s.executed, latest) == Missing(s.log, s.executed, latest);
    forall j | 0 <= j < |s2.pulls| ensures PullOk(s2, s2.pulls[j]) && s2.pulls[j].received <= s2.log.Keys {
      if j < i {
        assert s2.pulls[j] == s.pulls[j] && PullOk(s, s.pulls[j]);
      } else {
        assert Pending(s2.pulls[j]) == Missing(s.log, s.executed, latest);
      }
    }
  }

  lemma PullLogPulls(s: Cohort, src: Mid, latest: Viewstamp, done: DoneCb)
    requires Inv(s) && PullsOk(s) && ReceivedLogged(s)
    requires done.AckReplicate? ==> done.vs == latest
    ensures PullsOk(PullLog(s, src, latest, done)) && ReceivedLogged(PullLog(s, src, latest, done))
  {
    hide Inv, PullsOk, ReceivedLogged, OpenPull, FetchlogCheck;
    OpenPullFrame(s, src, latest, done);
    SideKeeps(s, OpenPull(s, src, latest, done));
    OpenPullPulls(s, src, latest, done);
    FetchlogCheckPulls(OpenPull(s, src, latest, done), |s.pulls|);
  }

  // ---------------------------------------------------------------- what success means

  /** The condition under which `fetchlog_check` calls the completion callback with true. */
  predicate Succeeds(pl: Pull) {
    PullSettled(pl) && pl.ok && pl.bottomdone
  }

  lemma SettledMeansAll(pl: Pull)
    requires PullSettled(pl) && pl.ok && pl.received <= pl.expected
    ensures Pending(pl) == {}
  {
    if pl.received != pl.expected {
      var x :| x in pl.expected && x !in pl.received;
      Quorum.SubsetSize(pl.received, pl.expected - {x});
    }
  }

  /** Below the bottom view nothing has been asked for, so the chain is held exactly when the part
      below the bottom formation is. */
  lemma {:induction false} HeldToBottom(log: Log, ex: Viewstamp, top: Viewstamp, b: Viewid)
    requires Covered(log, {}, ex, top, b)
    ensures VidLe(b, ex.vid) ==> ChainHeld(log, ex, top)
    ensures VidLt(ex.vid, b) ==>
              && Viewstamp(b, 0) in log
              && (ChainHeld(log, ex, top) <==> ChainHeld(log, ex, log[Viewstamp(b, 0)].arg.form.prev))
    decreases top.vid.counter, top.vid.manager
  {
    if VidLt(b, top.vid) {
      HeldToBottom(log, ex, log[Viewstamp(top.vid, 0)].arg.form.prev, b);
    } else {
      assert VidLt(ex.vid, b) ==> Lt(ex, Viewstamp(b, 0));
    }
  }

  /** A successful pull leaves the whole prev chain from the requested stamp down to `executed` in
      the log, provided the next stamp to execute is not in a view above the bottom one. In general
      the chain is held exactly when its part below the bottom formation is. */
  lemma SuccessHoldsChain(s: Cohort, pl: Pull)
    requires Inv(s) && PullOk(s, pl) && Succeeds(pl)
    ensures !VidLt(pl.bottomview, VsNext(s.jumps, s.executed).vid) || VidLe(pl.bottomview, s.executed.vid)
            ==> ChainHeld(s.log, s.executed, pl.latest)
    ensures VidLt(s.executed.vid, pl.bottomview) ==>
              && Viewstamp(pl.bottomview, 0) in s.log
              && (ChainHeld(s.log, s.executed, pl.latest)
                  <==> ChainHeld(s.log, s.executed, s.log[Viewstamp(pl.bottomview, 0)].arg.form.prev))
  {
    SettledMeansAll(pl);
    HeldToBottom(s.log, s.executed, pl.latest, pl.bottomview);
    var n := VsNext(s.jumps, s.executed);
    if VidLt(s.executed.vid, pl.bottomview) && n.vid == pl.bottomview {
      assert s.executed in s.jumps && n in s.log && n == Viewstamp(pl.bottomview, 0);
      assert s.log[n].arg.form.prev == s.executed;
    }
  }

  /** What a cohort's log holds when it acknowledges `vs` without having moved past its view. */
  ghost predicate AckMeans(s: Cohort, vs: Viewstamp) {
    VidLe(s.executed.vid, vs.vid) ==>
      && (forall t: nat :: 1 <= t <= vs.ts ==> Viewstamp(vs.vid, t) in s.log)
      && (vs.vid != ZERO_VID ==> Viewstamp(vs.vid, 0) in s.log)
  }

  lemma SuccessMeans(s: Cohort, pl: Pull)
    requires Inv(s) && PullOk(s, pl) && PullSettled(pl) && pl.ok
    ensures AckMeans(s, pl.latest)
  {
    SettledMeansAll(pl);
    var vs := pl.latest;
    if VidLe(s.executed.vid, vs.vid) {
      forall t: nat | t <= vs.ts && (t > 0 || vs.vid != ZERO_VID) ensures Viewstamp(vs.vid, t) in s.log {
        if !Lt(s.executed, Viewstamp(vs.vid, t)) {
          assert s.executed.vid == vs.vid && t <= s.executed.ts;
        }
      }
    }
  }
}
