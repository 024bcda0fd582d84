/** What a cohort's log holds when it says that it has accepted NEW_VIEW or received REPLICATE. */
module NewViewAnswers {
  import opened Stamps
  import opened CohortSpec
  import opened CohortInvariants
  import opened LogPull
  import opened LogWalk
  import opened Traffic
  import opened Quorum
  import opened CohortRuns
  import opened NewViewRuns

  // ---------------------------------------------------------------- what a finished pull leaves behind

  /** Walking back from `latest` to view b everything above `executed` is logged, and b is not above the
      view of the next stamp to execute. */
  ghost predicate Reached(s: Cohort, latest: Viewstamp, b: Viewid) {
    Covered(s.log, {}, s.executed, latest, b) && VidLe(b, VsNext(s.jumps, s.executed).vid)
  }

  /** The log holds the view of `latest` up to `latest`, unless the cohort has moved past that view, and
      the prev chain from there back to some view it has reached. */
  ghost predicate Pulled(s: Cohort, latest: Viewstamp) {
    AckMeans(s, latest) && exists b :: Reached(s, latest, b)
  }

  /** The whole prev chain down to `executed` is held, unless a logged formation leads from `executed` to a
      view above the one reached; then it is held exactly if its part below that view is. */
  lemma PulledHolds(s: Cohort, latest: Viewstamp)
    requires Inv(s) && Pulled(s, latest)
    ensures s.executed !in s.jumps ==> ChainHeld(s.log, s.executed, latest)
    ensures VidLe(s.executed.vid, latest.vid) ==> HoldsUpto(s.log, latest)
    ensures ChainHeld(s.log, s.executed, latest) || exists b ::
              && Reached(s, latest, b) && VidLt(s.executed.vid, b) && VidLt(b, VsNext(s.jumps, s.executed).vid)
              && Viewstamp(b, 0) in s.log && !ChainHeld(s.log, s.executed, s.log[Viewstamp(b, 0)].arg.form.prev)
  {
    var b :| Reached(s, latest, b);
    HeldToBottom(s.log, s.executed, latest, b);
    var n := VsNext(s.jumps, s.executed);
    if VidLt(s.executed.vid, b) && n.vid == b {
      assert s.executed in s.jumps && n in s.log && n == Viewstamp(b, 0);
      assert s.log[n].arg.form.prev == s.executed;
      hide Covered;
      SelfHeld(s);
    }
  }

  lemma SelfHeld(s: Cohort)
    ensures ChainHeld(s.log, s.executed, s.executed)
  {
  }

  /** Pulls keep what they are for until they have reported. */
  ghost predicate GoalsKept(s: Cohort, t: Cohort) {
    && |s.pulls| <= |t.pulls|
    && forall i :: 0 <= i < |s.pulls| ==>
         t.pulls[i].latest == s.pulls[i].latest && (t.pulls[i].done == s.pulls[i].done || t.pulls[i].done == NullCb)
  }

  /** A pull of s with this callback has been for this stamp. */
  ghost predicate HasGoal(s: Cohort, d: DoneCb, latest: Viewstamp) {
    exists i :: 0 <= i < |s.pulls| && s.pulls[i].done == d && s.pulls[i].latest == latest
  }

  /** Every new acknowledgement or acceptance is for a pull of s, whose stamp has been pulled. */
  ghost predicate Earned(s: Cohort, t: Cohort) {
    forall m :: m in t.sent && m !in s.sent && Answer(m) ==> exists latest :: HasGoal(s, DoneOf(m), latest) && Pulled(t, latest)
  }

  lemma SettleGoals(s: Cohort, i: nat)
    requires i < |s.pulls|
    ensures GoalsKept(s, Settle(s, i))
  {
    hide PullSettled;
  }

  lemma SettleEarns(s: Cohort, i: nat)
    requires Inv(s) && PullsOk(s) && i < |s.pulls|
    ensures GoalsKept(s, Settle(s, i)) && Earned(s, Settle(s, i))
  {
    hide Inv, Covered, GoalsKept;
    SettleGoals(s, i);
    var pl, t := s.pulls[i], Settle(s, i);
    assert PullOk(s, pl);
    FireFrame(s, pl.done, pl.ok && pl.bottomdone);
    SettleFrame(s, i);
    if PullSettled(pl) && pl.ok && pl.bottomdone {
      SuccessMeans(s, pl);
      SettledMeansAll(pl);
      assert Reached(s, pl.latest, pl.bottomview);
      SamePulled(s, t, pl.latest);
      assert HasGoal(s, pl.done, pl.latest);
    }
    forall m | m in t.sent && m !in s.sent && Answer(m) ensures HasGoal(s, DoneOf(m), pl.latest) && Pulled(t, pl.latest) {
      assert pl.ok && pl.bottomdone && DoneOf(m) == pl.done;
    }
  }

  lemma SamePulled(s: Cohort, t: Cohort, latest: Viewstamp)
    requires Pulled(s, latest) && SideFrame(s, t)
    ensures Pulled(t, latest)
  {
    hide Covered;
    var b :| Reached(s, latest, b);
    assert Reached(t, latest, b);
  }

  lemma StepBackGoals(s: Cohort, i: nat)
    requires i < |s.pulls|
    ensures GoalsKept(s, StepBack(s, i)) && GoalsKept(StepBack(s, i), s)
    ensures forall m :: m in StepBack(s, i).sent && m !in s.sent ==> !Answer(m)
  {
    StepBackAnswers(s, i);
    hide Missing;
  }

  lemma GoalBack(s: Cohort, t: Cohort, d: DoneCb, latest: Viewstamp)
    requires GoalsKept(t, s) && |t.pulls| == |s.pulls| && HasGoal(t, d, latest) && GoalsKept(s, t)
    requires d != NullCb
    ensures HasGoal(s, d, latest)
  {
    var i :| 0 <= i < |t.pulls| && t.pulls[i].done == d && t.pulls[i].latest == latest;
    assert s.pulls[i].done == d && s.pulls[i].latest == latest;
  }

  lemma FetchlogCheckEarns(s: Cohort, i: nat)
    requires AllOk(s) && i < |s.pulls|
    ensures GoalsKept(s, FetchlogCheck(s, i)) && Earned(s, FetchlogCheck(s, i))
    ensures |FetchlogCheck(s, i).pulls| == |s.pulls|
  {
    hide Inv, PullsOk, ReceivedLogged, AdvanceCommitted, StepBack, Settle, Pulled, SideFrame;
    var s1 := AdvanceCommitted(s);
    AdvanceCommittedSilent(s);
    AdvanceCommittedKeeps(s);
    AdvanceCommittedKeepsPulls(s);
    PullsKept(s, s1);
    ReceivedKept(s, s1);
    StepBackGoals(s1, i);
    StepBackPulls(s1, i);
    StepBackFrame(s1, i);
    FetchlogCheckSays(s, i);
    var s2 := StepBack(s1, i);
    SideKeeps(s1, s2);
    SettleEarns(s2, i);
    SideSelf(s1, s2);
    var t := Settle(s2, i);
    forall m | m in t.sent && m !in s.sent && Answer(m) ensures exists latest :: HasGoal(s, DoneOf(m), latest) && Pulled(t, latest) {
      assert m !in s2.sent;
      var latest :| HasGoal(s2, DoneOf(m), latest) && Pulled(t, latest);
      GoalBack(s1, s2, DoneOf(m), latest);
      SameGoal(s1, s, DoneOf(m), latest);
    }
  }

  lemma SameGoal(s: Cohort, t: Cohort, d: DoneCb, latest: Viewstamp)
    requires t.pulls == s.pulls && HasGoal(s, d, latest)
    ensures HasGoal(t, d, latest)
  {
  }

  /** The stamp the pull opened by this event is for. */
  function OpenedFor(e: Event): Viewstamp {
    match e
    case Replicate(_, vs, _, _) => vs
    case NvRequest(_, _, nv) => nv.latest
    case _ => ZERO_STAMP
  }

  /** The goal is one of s, or of the pull this event opens. */
  ghost predicate GoalOf(s: Cohort, e: Event, d: DoneCb, latest: Viewstamp) {
    HasGoal(s, d, latest) || (Opened(s, e) == Some(d) && latest == OpenedFor(e))
  }

  /** After handling e in s: pulls are for what they were or for what e says, and every acknowledgement or
      acceptance sent has been earned. */
  ghost predicate AllEarned(s: Cohort, e: Event, t: Cohort) {
    && (forall i :: 0 <= i < |t.pulls| && t.pulls[i].done != NullCb ==> GoalOf(s, e, t.pulls[i].done, t.pulls[i].latest))
    && (forall m :: m in t.sent && m !in s.sent && Answer(m) ==>
          exists latest :: GoalOf(s, e, DoneOf(m), latest) && Pulled(t, latest))
  }

  lemma OpenPullGoals(s: Cohort, src: Mid, latest: Viewstamp, done: DoneCb)
    ensures var o := OpenPull(s, src, latest, done);
            && |o.pulls| == |s.pulls| + 1 && o.pulls[|s.pulls|].done == done && o.pulls[|s.pulls|].latest == latest
            && (forall j :: 0 <= j < |s.pulls| ==> o.pulls[j] == s.pulls[j])
            && (forall m :: m in o.sent && m !in s.sent ==> m.FetchCall?)
  {
    hide Missing;
  }

  lemma OpenGoal(s: Cohort, u: Cohort, o: Cohort, e: Event, done: DoneCb, latest: Viewstamp, d: DoneCb, l: Viewstamp)
    requires u.pulls == s.pulls && |o.pulls| == |u.pulls| + 1
    requires o.pulls[|u.pulls|].done == done && o.pulls[|u.pulls|].latest == latest
    requires forall j :: 0 <= j < |u.pulls| ==> o.pulls[j] == u.pulls[j]
    requires Opened(s, e) == Some(done) && latest == OpenedFor(e) && HasGoal(o, d, l)
    ensures GoalOf(s, e, d, l)
  {
    hide Opened;
    var j :| 0 <= j < |o.pulls| && o.pulls[j].done == d && o.pulls[j].latest == l;
    if j < |u.pulls| { assert s.pulls[j].done == d && s.pulls[j].latest == l; }
  }

  lemma PullLogEarns(s: Cohort, e: Event, u: Cohort, src: Mid, latest: Viewstamp, done: DoneCb)
    requires AllOk(u) && u.sent == s.sent && u.pulls == s.pulls
    requires Opened(s, e) == Some(done) && latest == OpenedFor(e) && (done.AckReplicate? ==> done.vs == latest)
    ensures AllEarned(s, e, PullLog(u, src, latest, done))
  {
    hide AllOk, FetchlogCheck, OpenPull, Opened, HasGoal, Pulled, OpenedFor, GoalOf;
    var o, i := OpenPull(u, src, latest, done), |u.pulls|;
    PullLogOpens(u, src, latest, done);
    OpenPullGoals(u, src, latest, done);
    FetchlogCheckEarns(o, i);
    var t := FetchlogCheck(o, i);
    forall m | m in t.sent && m !in s.sent && Answer(m) ensures exists l :: GoalOf(s, e, DoneOf(m), l) && Pulled(t, l) {
      assert m !in o.sent;
      var l :| HasGoal(o, DoneOf(m), l) && Pulled(t, l);
      OpenGoal(s, u, o, e, done, latest, DoneOf(m), l);
    }
    forall j: nat | j < |t.pulls| && t.pulls[j].done != NullCb ensures GoalOf(s, e, t.pulls[j].done, t.pulls[j].latest) {
      GoalAt(o, j);
      OpenGoal(s, u, o, e, done, latest, o.pulls[j].done, o.pulls[j].latest);
    }
  }

  lemma GoalAt(o: Cohort, j: nat)
    requires j < |o.pulls|
    ensures HasGoal(o, o.pulls[j].done, o.pulls[j].latest)
  {
  }

  lemma OnReplicateEarns(s: Cohort, e: Event)
    requires AllOk(s) && EventOk(s, e) && e.Replicate?
    ensures AllEarned(s, e, Handle(s, e))
  {
    hide Inv, PullsOk, ReceivedLogged, PullLog, StoreReplicate, AllEarned, GoalOf;
    if RefusesReplicate(s, e.vs) {
      QuietEarns(s, e, s);
    } else {
      var u := StoreReplicate(s, e.vs, e.arg, e.committed);
      StoreReplicateKeeps(s, e.vs, e.arg, e.committed);
      StoreReplicateSilent(s, e.vs, e.arg, e.committed);
      PullsKept(s, u);
      ReceivedKept(s, u);
      var primary := if e.vs.ts != 0 then s.view.primary else e.arg.form.view.primary;
      PullLogEarns(s, e, u, primary, e.vs, AckReplicate(e.src, e.vs));
    }
  }

  lemma OnNewViewEarns(s: Cohort, e: Event)
    requires AllOk(s) && e.NvRequest?
    ensures AllEarned(s, e, Handle(s, e))
  {
    hide Inv, PullsOk, ReceivedLogged, PullLog, AbortOther, AllEarned, GoalOf;
    var nv, t := e.nvarg, Handle(s, e);
    if RefusesNv(s, nv.view.vid) {
      assert t == s.(sent := s.sent + {NvReply(s.self, e.src, e.xid, nv.view.vid, false)});
      QuietEarns(s, e, t);
    } else {
      var u := AdoptNewView(s, nv.view);
      SideKeeps(s, u);
      PullsKept(s, u);
      ReceivedKept(s, u);
      PullLogEarns(s, e, u, nv.view.primary, nv.latest, AnswerNewView(e.src, e.xid, nv.view.vid));
    }
  }

  lemma QuietEarns(s: Cohort, e: Event, t: Cohort)
    requires t.pulls == s.pulls && forall m :: m in t.sent && m !in s.sent ==> !Answer(m)
    ensures AllEarned(s, e, t)
  {
    hide Opened;
    forall i: nat | i < |t.pulls| ensures HasGoal(s, t.pulls[i].done, t.pulls[i].latest) { GoalAt(s, i); }
  }

  lemma FetchedEarns(s: Cohort, e: Event)
    requires AllOk(s) && EventOk(s, e) && e.Fetched?
    ensures AllEarned(s, e, Handle(s, e))
  {
    var i, u := e.pull, NoteFetched(s, e.pull, e.vs, e.resp);
    NoteGoals(s, i, e.vs, e.resp);
    NoteFetchedSilent(s, i, e.vs, e.resp);
    NoteFetchedKeeps(s, i, e.vs, e.resp);
    NoteFetchedPulls(s, i, e.vs, e.resp);
    hide Inv, PullsOk, ReceivedLogged, FetchlogCheck, NoteFetched, Pulled, Opened, HasGoal, GoalsKept;
    FetchlogCheckEarns(u, i);
    var t := FetchlogCheck(u, i);
    forall m | m in t.sent && m !in s.sent && Answer(m) ensures exists l :: GoalOf(s, e, DoneOf(m), l) && Pulled(t, l) {
      var l :| HasGoal(u, DoneOf(m), l) && Pulled(t, l);
      assert HasGoal(s, DoneOf(m), l) by { NotedGoal(s, u, DoneOf(m), l); }
    }
    forall j: nat | j < |t.pulls| && t.pulls[j].done != NullCb ensures HasGoal(s, t.pulls[j].done, t.pulls[j].latest) {
      KeptGoal(u, t, j);
      NotedGoal(s, u, t.pulls[j].done, t.pulls[j].latest);
    }
  }

  lemma KeptGoal(s: Cohort, t: Cohort, j: nat)
    requires GoalsKept(s, t) && j < |t.pulls| && |t.pulls| == |s.pulls| && t.pulls[j].done != NullCb
    ensures HasGoal(s, t.pulls[j].done, t.pulls[j].latest)
  {
    GoalAt(s, j);
  }

  lemma NoteGoals(s: Cohort, i: nat, vs: Viewstamp, resp: Option<Arg>)
    requires i < |s.pulls| && (resp.Some? ==> WfSlot(vs, resp.value))
    ensures var u := NoteFetched(s, i, vs, resp);
            |u.pulls| == |s.pulls| && forall j :: 0 <= j < |s.pulls| ==> u.pulls[j].done == s.pulls[j].done && u.pulls[j].latest == s.pulls[j].latest
  {
    hide JumpsUpdate;
  }

  lemma NotedGoal(s: Cohort, u: Cohort, d: DoneCb, l: Viewstamp)
    requires |u.pulls| == |s.pulls| && HasGoal(u, d, l)
    requires forall j :: 0 <= j < |s.pulls| ==> u.pulls[j].done == s.pulls[j].done && u.pulls[j].latest == s.pulls[j].latest
    ensures HasGoal(s, d, l)
  {
    var j :| 0 <= j < |u.pulls| && u.pulls[j].done == d && u.pulls[j].latest == l;
    assert s.pulls[j].done == d && s.pulls[j].latest == l;
  }

  /** No cohort acknowledges REPLICATE or accepts NEW_VIEW before it has pulled what it was asked to. */
  lemma HandleEarns(s: Cohort, e: Event)
    requires AllOk(s) && EventOk(s, e) && NoDuplicateStamp(s, e)
    ensures AllEarned(s, e, Handle(s, e))
  {
    hide AllOk, Handle, AllEarned, NoDuplicateStamp, AllExplained;
    if e.Replicate? {
      OnReplicateEarns(s, e);
    } else if e.NvRequest? {
      OnNewViewEarns(s, e);
    } else if e.Fetched? {
      FetchedEarns(s, e);
    } else {
      OtherExplained(s, e);
      QuietEarns(s, e, Handle(s, e));
    }
  }

  // ---------------------------------------------------------------- over runs of a group

  /** A manager has sent x the NEW_VIEW call that this callback answers, to continue from `latest`. */
  ghost predicate AskedBy(sys: Sys, x: Mid, d: DoneCb, latest: Viewstamp)
    requires d.AnswerNewView?
  {
    exists nv :: InNet(sys, NvCall(d.caller, x, d.xid, nv)) && nv.view.vid == d.vid && nv.latest == latest
  }

  ghost predicate PullsAsked(sys: Sys, x: Mid)
    requires x in sys
  {
    forall i :: 0 <= i < |sys[x].pulls| && sys[x].pulls[i].done.AnswerNewView? ==>
      AskedBy(sys, x, sys[x].pulls[i].done, sys[x].pulls[i].latest)
  }

  lemma AskedMore(sys: Sys, sys': Sys, x: Mid, d: DoneCb, latest: Viewstamp)
    requires d.AnswerNewView? && AskedBy(sys, x, d, latest) && forall m :: InNet(sys, m) ==> InNet(sys', m)
    ensures AskedBy(sys', x, d, latest)
  {
    hide InNet;
    var nv :| InNet(sys, NvCall(d.caller, x, d.xid, nv)) && nv.view.vid == d.vid && nv.latest == latest;
    assert InNet(sys', NvCall(d.caller, x, d.xid, nv));
  }

  lemma GoalAsked(sys: Sys, x: Mid, e: Event, d: DoneCb, latest: Viewstamp)
    requires x in sys && Enabled(sys, x, e) && PullsAsked(sys, x) && d.AnswerNewView? && GoalOf(sys[x], e, d, latest)
    ensures AskedBy(sys, x, d, latest)
  {
    hide NoDuplicateStamp, RefusesNv, RefusesReplicate, InNet;
    if HasGoal(sys[x], d, latest) {
      var i :| 0 <= i < |sys[x].pulls| && sys[x].pulls[i].done == d && sys[x].pulls[i].latest == latest;
    } else {
      assert e.NvRequest? && InNet(sys, NvCall(e.src, x, e.xid, e.nvarg));
    }
  }

  lemma StepAsked(sys: Sys, a: Act, sys': Sys, x: Mid)
    requires SysOk(sys) && Step(sys, a, sys') && x in sys && PullsAsked(sys, x)
    ensures x in sys' && PullsAsked(sys', x)
  {
    hide AllOk, Handle, NoDuplicateStamp, AskedBy, GoalOf, AttemptOk, Grows, Inv, InNet;
    var c := a.who;
    assert CohortOk(sys, c);
    EnabledOk(sys, c, a.ev);
    AllInv(sys[c]);
    HandleKeeps(sys[c], a.ev);
    GrowsNet(sys[c], Handle(sys[c], a.ev));
    StepNet(sys, a, sys');
    HandleEarns(sys[c], a.ev);
    hide Enabled;
    forall i: nat | i < |sys'[x].pulls| && sys'[x].pulls[i].done.AnswerNewView?
      ensures AskedBy(sys', x, sys'[x].pulls[i].done, sys'[x].pulls[i].latest)
    {
      if x == c { GoalAsked(sys, x, a.ev, sys'[x].pulls[i].done, sys'[x].pulls[i].latest); }
      AskedMore(sys, sys', x, sys'[x].pulls[i].done, sys'[x].pulls[i].latest);
    }
  }

  lemma {:induction false} RunAsked(h: History, k: nat, x: Mid)
    requires IsRun(h) && k < |h.states| && x in h.states[k]
    ensures PullsAsked(h.states[k], x)
  {
    hide SysOk, Enabled, Handle, AllOk, OwnEntries, XidsUsed, AskedBy;
    if k == 0 {
      assert Unanswered(h.states[0][x]);
    } else {
      assert Step(h.states[k - 1], h.acts[k - 1], h.states[k]);
      RunOkAt(h, k - 1);
      RunAsked(h, k - 1, x);
      StepAsked(h.states[k - 1], h.acts[k - 1], h.states[k], x);
    }
  }

  /** Whenever a cohort says that it has accepted a NEW_VIEW, a manager has asked it to, and its log then
      holds what the manager's call asks for: see PulledHolds. */
  lemma NewViewAnswerMeans(h: History, k: nat, m: Msg) returns (nv: NvArg)
    requires IsRun(h) && SentAt(h, k, m) && m.NvReply? && m.accepted
    ensures InNet(h.states[k], NvCall(m.dst, m.src, m.xid, nv)) && nv.view.vid == m.vid
    ensures Pulled(h.states[k + 1][m.src], nv.latest) && Inv(h.states[k + 1][m.src])
  {
    hide Start, AllOk, Handle, NoDuplicateStamp, Pulled, GoalOf, AttemptOk, InNet, Inv;
    var x, sys := m.src, h.states[k];
    assert Step(sys, h.acts[k], h.states[k + 1]);
    RunOkAt(h, k);
    RunAsked(h, k, x);
    assert CohortOk(sys, x);
    EnabledOk(sys, x, h.acts[k].ev);
    AllInv(sys[x]);
    HandleKeeps(sys[x], h.acts[k].ev);
    HandleEarns(sys[x], h.acts[k].ev);
    var latest :| GoalOf(sys[x], h.acts[k].ev, DoneOf(m), latest) && Pulled(h.states[k + 1][x], latest);
    hide Enabled, AllEarned;
    GoalAsked(sys, x, h.acts[k].ev, DoneOf(m), latest);
    nv :| InNet(sys, NvCall(m.dst, x, m.xid, nv)) && nv.view.vid == m.vid && nv.latest == latest;
  }

  /** Before step k cohort x has held, at some moment, everything a new view that continues from `latest`
      needs. */
  ghost predicate PulledBefore(h: History, k: nat, x: Mid, latest: Viewstamp)
    requires IsRun(h)
  {
    exists n: nat :: n <= k && n < |h.states| && x in h.states[n] && Inv(h.states[n][x]) && Pulled(h.states[n][x], latest)
  }

  lemma AdoptedPulled(h: History, k: nat, x: Mid, c: Mid, xid: nat, nv: NvArg)
    requires IsRun(h) && k < |h.states| && AdoptedBefore(h, k, x, c, xid, nv) && c in h.states[k]
    requires NvCall(c, x, xid, nv) in h.states[k][c].sent
    requires forall m :: m in h.states[k][c].sent && m.NvCall? && m.xid == xid ==> m.nvarg == nv
    ensures PulledBefore(h, k, x, nv.latest)
  {
    hide SysOk, Step, AllOk, Pulled, AcceptsNv, Inv, OwnEntries, XidsUsed;
    var m := NvReply(x, c, xid, nv.view.vid, true);
    assert !InNet(h.states[0], m) by { if InNet(h.states[0], m) { StartSilent(h.states[0], m); } }
    var n := FindSent(h, k, m);
    var nv' := NewViewAnswerMeans(h, n, m);
    CallStays(h, n, k, NvCall(c, x, xid, nv'));
  }

  lemma CallStays(h: History, n: nat, k: nat, m: Msg)
    requires IsRun(h) && n <= k < |h.states| && InNet(h.states[n], m)
    ensures m.src in h.states[k] && m in h.states[k][m.src].sent
  {
    hide IsRun, Grows;
    CohortGrows(h, n, k, m.src);
    GrowsNet(h.states[n][m.src], h.states[k][m.src]);
  }

  lemma SenderThere(h: History, k: nat, m: Msg)
    requires IsRun(h) && SentAt(h, k, m)
    ensures k < |h.states| && m.src in h.states[k]
  {
    hide Start, Step;
  }

  /** Before a view is formed, majorities of its members and of the members of the view the manager is in
      have held everything it is to continue from. */
  lemma FormedViewPulled(h: History, k: nat, m: Msg) returns (q: set<Mid>)
    requires IsRun(h) && SentAt(h, k, m) && m.InitCall?
    ensures Majority(q, Mids(m.form.view)) && Majority(q, Mids(h.states[k][m.src].view))
    ensures forall x :: x in q ==> PulledBefore(h, k, x, m.form.prev)
  {
    var xid;
    q, xid := InitViewWarranted(h, k, m);
    SenderThere(h, k, m);
    hide *;
    forall x | x in q ensures PulledBefore(h, k, x, m.form.prev) {
      AdoptedPulled(h, k, x, m.src, xid, NvArg(m.form.prev, m.form.view));
    }
  }
}
