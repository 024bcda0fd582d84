/** Concrete runs of the handlers that show why some theorems need their hypotheses. */
module Counterexamples {
  import opened Stamps
  import opened CohortSpec
  import opened CohortInvariants
  import opened LogPull
  import opened LogWalk
  import opened Quorum
  import opened AckSets
  import opened Traffic
  import opened PrimaryLoop
  import opened PrimarySteps
  import opened BackupSteps

  const OLD_VID := Viewid(1, 1)
  const NEW_VID := Viewid(2, 1)

  /** Neither advancing loop has anything to do. */
  predicate Idle(s: Cohort) {
    && Lt(s.latest, VsNext(s.jumps, s.committed))
    && (Lt(s.committed, VsNext(s.jumps, s.executed)) || VsNext(s.jumps, s.executed) !in s.log)
  }

  lemma IdleStays(s: Cohort)
    requires Idle(s)
    ensures AdvanceExecuted(s) == s && AdvanceCommitted(s) == s
  {
  }

  /** A pull that finds nothing missing asks for nothing. */
  lemma OpensEmpty(s: Cohort, src: Mid, vs: Viewstamp, done: DoneCb)
    requires Missing(s.log, s.executed, vs) == {}
    ensures OpenPull(s, src, vs, done) == s.(pulls := s.pulls + [Pull(vs, src, {}, {}, vs.vid, true, false, done)])
  {
    var i, pl := |s.pulls|, Pull(vs, src, {}, {}, vs.vid, true, false, done);
    var s1 := s.(pulls := s.pulls + [pl]);
    assert pl.(expected := pl.expected + {}) == pl && s1.pulls[i := pl] == s1.pulls;
    assert Missing(s1.log, s1.executed, vs) == {};
    hide Missing;
  }

  /** At an idle cohort it goes on to look one view back. */
  lemma PullUnfolds(s: Cohort, src: Mid, vs: Viewstamp, done: DoneCb)
    requires Idle(s) && Missing(s.log, s.executed, vs) == {}
    ensures var o := s.(pulls := s.pulls + [Pull(vs, src, {}, {}, vs.vid, true, false, done)]);
            |StepBack(o, |s.pulls|).pulls| == |o.pulls|
            && PullLog(s, src, vs, done) == Settle(StepBack(o, |s.pulls|), |s.pulls|)
  {
    OpensEmpty(s, src, vs, done);
    var o := s.(pulls := s.pulls + [Pull(vs, src, {}, {}, vs.vid, true, false, done)]);
    assert Idle(o);
    hide OpenPull, Missing, Idle;
    IdleStays(o);
    StepBackFrame(o, |s.pulls|);
    hide StepBack, Settle, AdvanceCommitted;
  }

  /** If the bottom is reached there, it acknowledges at once. */
  lemma IdlePull(s: Cohort, src: Mid, vs: Viewstamp, to: Mid)
    requires Idle(s) && Missing(s.log, s.executed, vs) == {}
    requires !VidLt(VsNext(s.jumps, s.executed).vid, vs.vid)
    ensures var t := PullLog(s, src, vs, AckReplicate(to, vs));
            t == s.(pulls := t.pulls, sent := s.sent + {ReplicateReply(s.self, to, vs)})
  {
    var i, pl := |s.pulls|, Pull(vs, src, {}, {}, vs.vid, true, false, AckReplicate(to, vs));
    var o := s.(pulls := s.pulls + [pl]);
    PullUnfolds(s, src, vs, AckReplicate(to, vs));
    hide PullLog, Missing;
    var b := StepBack(o, i);
    assert b == o.(pulls := o.pulls[i := pl.(bottomdone := true)]);
    hide StepBack;
  }

  /** A backup stores an entry it cannot execute yet. */
  lemma StoreIdle(s: Cohort, vs: Viewstamp, arg: Arg, committed: Viewstamp)
    requires WfSlot(vs, arg) && Lt(s.committed, vs) && vs !in s.log && Le(committed, s.committed)
    requires Idle(Insert(s, vs, Entry(arg, None, None, Logged)))
    ensures StoreReplicate(s, vs, arg, committed) == Insert(s, vs, Entry(arg, None, None, Logged))
  {
    IdleStays(Insert(s, vs, Entry(arg, None, None, Logged)));
    hide AdvanceExecuted;
  }

  // ---------------------------------------------------------------- a pull that misses a fork

  const BASE := Viewstamp(OLD_VID, 0)
  const FORK := ViewForm(BASE, View(Viewid(3, 1), 2, [1]))
  const LATE := ViewForm(Viewstamp(OLD_VID, 7), View(Viewid(2, 2), 2, [1]))

  lemma StoresAndAcks(s: Cohort, f: Formation)
    requires s.latest == BASE && s.committed == BASE && s.executed == BASE
    requires VidLt(BASE.vid, f.view.vid) && FormStamp(f) !in s.log
    requires !VidLt(VsNext(JumpsUpdate(s.jumps, FormStamp(f), Form(f)), BASE).vid, f.view.vid)
    ensures var t := OnReplicate(s, 2, FormStamp(f), Form(f), ZERO_STAMP);
            && ReplicateReply(s.self, 2, FormStamp(f)) in t.sent
            && t.log == s.log[FormStamp(f) := Entry(Form(f), None, None, Logged)]
            && t.jumps == JumpsUpdate(s.jumps, FormStamp(f), Form(f))
            && t.latest == BASE && t.committed == BASE && t.executed == BASE && t.self == s.self
  {
    var vs := FormStamp(f);
    var s1 := Insert(s, vs, Entry(Form(f), None, None, Logged));
    StoreIdle(s, vs, Form(f), ZERO_STAMP);
    assert Missing(s1.log, s1.executed, vs) == {};
    IdlePull(s1, f.view.primary, vs, 2);
    hide PullLog, StoreReplicate, Missing;
  }

  /** Without the proviso of SuccessHoldsChain a success can be wrong: a logged formation FORK that
      leaves `executed` directly hides that the pull of LATE never asked for stamps 1 to 7. */
  lemma SuccessCanMissFork()
    ensures var s := Founder(1);
            var t := OnReplicate(OnReplicate(s, 2, FormStamp(FORK), Form(FORK), ZERO_STAMP),
                                 2, FormStamp(LATE), Form(LATE), ZERO_STAMP);
            && ReplicateReply(1, 2, FormStamp(LATE)) in t.sent
            && Viewstamp(OLD_VID, 1) !in t.log
            && !ChainHeld(t.log, t.executed, FormStamp(LATE))
  {
    hide OnReplicate;
    var s := Founder(1);
    StoresAndAcks(s, FORK);
    var s1 := OnReplicate(s, 2, FormStamp(FORK), Form(FORK), ZERO_STAMP);
    StoresAndAcks(s1, LATE);
    var t := OnReplicate(s1, 2, FormStamp(LATE), Form(LATE), ZERO_STAMP);
    assert !SegmentHeld(t.log, {}, BASE, LATE.prev) by {
      assert Viewstamp(OLD_VID, 1) !in t.log;
    }
    assert t.log[FormStamp(LATE)].arg.form.prev == LATE.prev;
  }

  // ---------------------------------------------------------------- the second view of a group of three

  const SECOND := ViewForm(BASE, View(NEW_VID, 1, [2, 3]))

  /** A backup in the view of f stores the first client entry of the view and acknowledges it. */
  lemma StoresRequest(s: Cohort, f: Formation, req: Request)
    requires s.mode == Active && s.validView && s.view == f.view && s.self in f.view.backups && s.self != f.view.primary
    requires s.latest == ZERO_STAMP && s.committed == FormStamp(f) && s.executed == FormStamp(f)
    requires FormStamp(f) !in s.jumps && Succ(FormStamp(f)) !in s.log && VidLt(ZERO_VID, f.view.vid)
    ensures var vs := Succ(FormStamp(f));
            var t := OnReplicate(s, 1, vs, Client(req), FormStamp(f));
            && ReplicateReply(s.self, 1, vs) in t.sent && s.sent <= t.sent
            && t.mode == Active && t.validView && t.view == f.view && t.proposedVid == s.proposedVid && t.self == s.self
            && t.log == s.log[vs := Entry(Client(req), None, None, Logged)] && t.jumps == s.jumps
            && t.executed == s.executed && t.committed == s.committed && t.submitted == s.submitted && t.latest == s.latest
  {
    var vs := Succ(FormStamp(f));
    var s1 := Insert(s, vs, Entry(Client(req), None, None, Logged));
    StoreIdle(s, vs, Client(req), FormStamp(f));
    assert Missing(s1.log, s1.executed, vs) == {};
    IdlePull(s1, f.view.primary, vs, 1);
    hide PullLog, StoreReplicate, Missing;
  }

  // ---------------------------------------------------------------- a former primary

  /** Between hearing of a commit in a later view and executing its own leftovers: the entries of its
      view are in the log, and no logged formation leads out of the view. */
  ghost predicate Overrun(s: Cohort, v: View) {
    && s.validView && s.view == v && s.latest.vid == v.vid && s.executed.vid == v.vid && s.executed.ts <= s.latest.ts
    && (forall k: nat :: At(v, k) in s.log <==> k <= s.latest.ts)
    && LastView(s, v) && VidLt(v.vid, s.committed.vid)
  }

  /** From s to t exactly the requests that s has logged in its view and not executed are handed to the
      state machine, in order. */
  ghost predicate RanLeftovers(s: Cohort, t: Cohort, v: View) {
    && s.executed.ts <= s.latest.ts
    && |t.submitted| == |s.submitted| + (s.latest.ts - s.executed.ts) && s.submitted <= t.submitted
    && forall i: nat :: i < s.latest.ts - s.executed.ts ==> Leftover(s, t, v, i)
  }

  /** The i-th request after the executed ones is the i-th that t hands over. */
  ghost predicate Leftover(s: Cohort, t: Cohort, v: View, i: nat) {
    var n := At(v, s.executed.ts + 1 + i);
    && n in s.log && s.log[n].arg.Client? && |s.submitted| + i < |t.submitted|
    && t.submitted[|s.submitted| + i] == Submission(n, s.log[n].arg.req)
  }

  lemma OverrunStep(s: Cohort, v: View)
    requires Overrun(s, v) && s.executed.ts < s.latest.ts
    ensures var n, t := At(v, s.executed.ts + 1), ExecRequest(s, At(v, s.executed.ts + 1));
            && VsNext(s.jumps, s.executed) == n && n in s.log && s.log[n].arg.Client? && Le(n, s.committed)
            && Overrun(t, v) && t.executed == n && t.latest == s.latest && t.committed == s.committed && SameArgs(s.log, t.log)
            && t.submitted == s.submitted + [Submission(n, s.log[n].arg.req)] && t.self == s.self && t.crashed == s.crashed
  {
    var n := At(v, s.executed.ts + 1);
    assert s.executed == At(v, s.executed.ts) && n in s.log && WfSlot(n, s.log[n].arg);
    assert ExecRequest(s, n).log.Keys == s.log.Keys;
  }

  lemma RanStep(s: Cohort, s1: Cohort, t: Cohort, v: View)
    requires RanLeftovers(s1, t, v) && s.executed.ts < s.latest.ts && SameArgs(s.log, s1.log)
    requires s1.executed.ts == s.executed.ts + 1 && s1.latest == s.latest
    requires |s1.submitted| == |s.submitted| + 1 && s.submitted <= s1.submitted && Leftover(s, s1, v, 0)
    ensures RanLeftovers(s, t, v)
  {
    forall i: nat | i < s.latest.ts - s.executed.ts ensures Leftover(s, t, v, i) {
      if i > 0 {
        assert Leftover(s1, t, v, i - 1);
        assert s1.executed.ts + 1 + (i - 1) == s.executed.ts + 1 + i;
      }
    }
  }

  lemma OverrunStop(s: Cohort, v: View)
    requires Overrun(s, v) && s.executed.ts == s.latest.ts
    ensures AdvanceExecuted(s) == s && RanLeftovers(s, s, v) && Idle(s) && s.executed == s.latest
  {
    assert s.executed == At(v, s.executed.ts);
    assert VsNext(s.jumps, s.executed) == At(v, s.executed.ts + 1);
  }

  /** It hands every one of them to the state machine. */
  lemma {:induction false} RunsLeftovers(s: Cohort, v: View)
    requires Overrun(s, v)
    ensures var t := AdvanceExecuted(s);
            && Overrun(t, v) && t.executed == s.latest && t.crashed == s.crashed && RanLeftovers(s, t, v) && Idle(t)
            && t.latest == s.latest && t.committed == s.committed && t.self == s.self
    decreases s.latest.ts - s.executed.ts
  {
    if s.executed.ts < s.latest.ts {
      var n := At(v, s.executed.ts + 1);
      OverrunStep(s, v);
      ExecUnfoldRequest(s, n);
      var t := ExecRequest(s, n);
      hide ExecRequest, AdvanceExecuted, RanLeftovers, Idle;
      RunsLeftovers(t, v);
      assert Leftover(s, t, v, 0);
      RanStep(s, t, AdvanceExecuted(t), v);
    } else {
      OverrunStop(s, v);
      hide AdvanceExecuted, Idle, RanLeftovers;
    }
  }

  /** A pull by an idle cohort changes its pulls and what it has sent, and nothing else. */
  lemma PullByIdle(s: Cohort, src: Mid, vs: Viewstamp, done: DoneCb)
    requires Idle(s)
    ensures var t := PullLog(s, src, vs, done); SideFrame(s, t) && t.latest == s.latest && t.crashed == s.crashed
  {
    hide OpenPull, StepBack, Settle, AdvanceCommitted, Idle, AcksKept;
    var o, i := OpenPull(s, src, vs, done), |s.pulls|;
    OpenPullFrame(s, src, vs, done);
    OpenPullIdle(s, src, vs, done);
    IdleStays(o);
    StepBackFrame(o, i);
    StepBackCursors(o, i);
    SettleFrame(StepBack(o, i), i);
    SettleCursors(StepBack(o, i), i);
    assert PullLog(s, src, vs, done) == Settle(StepBack(o, i), i);
  }

  lemma OpenPullIdle(s: Cohort, src: Mid, vs: Viewstamp, done: DoneCb)
    requires Idle(s)
    ensures Idle(OpenPull(s, src, vs, done)) && SameCursors(s, OpenPull(s, src, vs, done))
  {
    hide Missing;
  }

  lemma HearsLater(s: Cohort, v: View, f: Formation)
    requires Leads(s, v) && LastView(s, v) && VidLt(v.vid, f.prev.vid)
    ensures var u := RaiseCommitted(StoreEntry(s, FormStamp(f), Form(f)), FormStamp(f));
            && Overrun(u, v) && u.latest == s.latest && u.committed == FormStamp(f) && u.crashed == s.crashed
            && SameLeftovers(s, u, v) && u.self == s.self == v.primary
  {
    hide AcksNested;
    SuccIsLeast(f.prev, FormStamp(f));
  }

  /** Why an era asks every log to lie on the history, and when the assertion in `replicate_cb` fails.
      A cohort leads v and knows of no later view. It receives the formation f of a view that does not
      follow v, since another view has been formed in between. It does not leave v, but it has been told
      of a commit beyond everything it logged: it hands every request it has logged and not executed to
      the state machine, acknowledged by a majority or not. From then on any acknowledgement at all stops
      it. */
  lemma FormerPrimaryOverruns(s: Cohort, v: View, f: Formation, src: Mid)
    requires Leads(s, v) && LastView(s, v) && VidLt(v.vid, f.prev.vid)
    ensures var t := OnReplicate(s, src, FormStamp(f), Form(f), FormStamp(f));
            && t.view == v && t.validView && t.executed == s.latest && t.latest == s.latest && t.committed == FormStamp(f)
            && RanLeftovers(s, t, v) && t.crashed == s.crashed
            && OutrunsLatest(t) && (forall from, vs :: ReplicateCb(t, from, vs) == t.(crashed := true))
  {
    var fs := FormStamp(f);
    var u := RaiseCommitted(StoreEntry(s, fs, Form(f)), fs);
    HearsLater(s, v, f);
    RunsLeftovers(u, v);
    OnReplicateForm(s, src, f);
    hide StoreEntry, RaiseCommitted, OnReplicate, ReplicateCb, Leads, LastView, AdvanceExecuted, PullLog, SameArgs;
    var w := AdvanceExecuted(u);
    PullByIdle(w, f.view.primary, fs, AckReplicate(src, fs));
    var t := PullLog(w, f.view.primary, fs, AckReplicate(src, fs));
    OverrunEnd(s, u, w, t, v);
    forall from, vs ensures ReplicateCb(t, from, vs) == t.(crashed := true) { OutrunStops(t, from, vs); }
  }

  lemma OnReplicateForm(s: Cohort, src: Mid, f: Formation)
    ensures var fs := FormStamp(f);
            OnReplicate(s, src, fs, Form(f), fs)
            == PullLog(AdvanceExecuted(RaiseCommitted(StoreEntry(s, fs, Form(f)), fs)), f.view.primary, fs, AckReplicate(src, fs))
  {
    hide AdvanceExecuted, PullLog, StoreEntry, RaiseCommitted;
  }

  lemma OverrunEnd(s: Cohort, u: Cohort, w: Cohort, t: Cohort, v: View)
    requires Overrun(u, v) && SameLeftovers(s, u, v) && u.latest == s.latest && s.self == v.primary && u.crashed == s.crashed
    requires Overrun(w, v) && w.executed == u.latest && RanLeftovers(u, w, v) && w.crashed == u.crashed
    requires w.latest == u.latest && w.committed == u.committed && w.self == s.self
    requires SideFrame(w, t) && t.latest == w.latest && t.crashed == w.crashed
    ensures t.view == v && t.validView && t.executed == s.latest && t.latest == s.latest && t.committed == u.committed
    ensures RanLeftovers(s, t, v) && t.crashed == s.crashed && OutrunsLatest(t)
  {
    forall i: nat | i < s.latest.ts - s.executed.ts ensures Leftover(s, t, v, i) {
      assert Leftover(u, w, v, i);
    }
  }

  /** The same entries waiting in the view. */
  ghost predicate SameLeftovers(s: Cohort, u: Cohort, v: View) {
    && u.executed == s.executed && u.submitted == s.submitted
    && forall k: nat :: At(v, k) in u.log ==> At(v, k) in s.log && u.log[At(v, k)] == s.log[At(v, k)]
  }

  lemma OutrunStops(t: Cohort, from: Mid, vs: Viewstamp)
    requires OutrunsLatest(t)
    ensures ReplicateCb(t, from, vs) == t.(crashed := true)
  {
    hide AckFrom, AdvanceCommitted, IsMember;
  }

  /** The third view of the group: its members could not reach cohort 1 when they formed the one between. */
  const THIRD := ViewForm(Viewstamp(Viewid(3, 2), 0), View(Viewid(4, 2), 2, [3, 1]))

  /** Cohort 1 when it has formed the second view. */
  function Leading(): Cohort {
    Cohort(1, Active, true, SECOND.view, SECOND.view.vid, None, None, 0, FormStamp(SECOND), FormStamp(SECOND), FormStamp(SECOND),
           map[BASE := Entry(Form(SyntheticView(1)), None, None, Executing), FormStamp(SECOND) := Entry(Form(SECOND), None, None, Executing)],
           map[ZERO_STAMP := BASE, BASE := FormStamp(SECOND)], map[], [], [], {}, false)
  }

  lemma LeadingLeads()
    ensures Leads(Leading(), SECOND.view) && LastView(Leading(), SECOND.view) && AllOk(Leading())
  {
    var s := Leading();
    assert s.log.Keys == {BASE, FormStamp(SECOND)} && s.jumps.Keys == {ZERO_STAMP, BASE};
  }

  /** The primary's own acknowledgement is no majority of three. */
  lemma OneOfThree()
    ensures !Majority({1}, Mids(SECOND.view))
  {
    assert Mids(SECOND.view) == {1, 2, 3} && {1} * {1, 2, 3} == {1};
  }

  /** A request that a primary of three takes waits. */
  lemma TakesOrphan(handle: nat, orphan: Request)
    requires orphan.vid == SECOND.view.vid
    ensures var t, n := OnExecute(Leading(), handle, orphan), Succ(FormStamp(SECOND));
            && Leads(t, SECOND.view) && LastView(t, SECOND.view) && t.submitted == [] && !t.crashed
            && t.latest == n && t.executed == FormStamp(SECOND) && t.committed == FormStamp(SECOND)
            && n in t.log && t.log[n].arg == Client(orphan)
  {
    var s, v := Leading(), SECOND.view;
    LeadingLeads();
    OneOfThree();
    LogRequestLeads(s, v, handle, orphan);
    LogsOrphan(handle, orphan);
    hide LogRequest, OnExecute, AdvanceCommitted, Leads, LastView, Leading, Mids, Majority, PrimaryEntry, SameAcks;
    var u := LogRequest(s, handle, orphan);
    CommitStays(u, v);
  }

  lemma LogsOrphan(handle: nat, orphan: Request)
    requires orphan.vid == SECOND.view.vid
    ensures var s, u, n := Leading(), LogRequest(Leading(), handle, orphan), Succ(FormStamp(SECOND));
            && OnExecute(s, handle, orphan) == AdvanceCommitted(u)
            && s.latest == s.executed == s.committed == FormStamp(SECOND)
            && u.submitted == [] && !u.crashed && u.executed == FormStamp(SECOND) && u.committed == FormStamp(SECOND) && u.latest == n
            && LastView(u, SECOND.view) && At(SECOND.view, 1) == n && n in u.log && u.log[n].arg == Client(orphan)
  {
    hide AdvanceCommitted;
    assert Leading().jumps.Keys == {ZERO_STAMP, BASE};
  }

  lemma CommitStays(u: Cohort, v: View)
    requires Leads(u, v) && u.committed.ts + 1 == u.latest.ts && u.executed == u.committed && Waiting(u, v, u.latest.ts)
    requires At(v, u.latest.ts) in u.log && u.log[At(v, u.latest.ts)].ack.Some?
    requires !Majority(Received(u, v, u.latest.ts), Mids(v))
    ensures AdvanceCommitted(u) == u
  {
    CommitHead(u, v);
    hide Majority, Mids, AcksNested;
    assert At(v, u.committed.ts + 1) == At(v, u.latest.ts);
    CommitFromStop(u, VsNext(u.jumps, u.committed));
    hide Leads, CommitFrom;
  }

  lemma OrphanRuns(s: Cohort, orphan: Request, from: Mid, vs: Viewstamp)
    requires Leads(s, SECOND.view) && LastView(s, SECOND.view) && s.submitted == [] && !s.crashed
    requires s.latest == Succ(FormStamp(SECOND)) && s.executed == FormStamp(SECOND)
    requires s.latest in s.log && s.log[s.latest].arg == Client(orphan)
    ensures var t := OnReplicate(s, 2, FormStamp(THIRD), Form(THIRD), FormStamp(THIRD));
            && t.submitted == [Submission(Succ(FormStamp(SECOND)), orphan)] && t.view == SECOND.view
            && !t.crashed && ReplicateCb(t, from, vs).crashed
  {
    hide OnReplicate, ReplicateCb, Leads, LastView, OutrunsLatest;
    FormerPrimaryOverruns(s, SECOND.view, THIRD, 2);
    var t := OnReplicate(s, 2, FormStamp(THIRD), Form(THIRD), FormStamp(THIRD));
    assert Leftover(s, t, SECOND.view, 0);
  }

  /** The same with three members: cohort 1 takes a request that nobody acknowledges, misses the view
      (3,2), and hears of the view (4,2). It runs the request, though the group has gone on without it,
      and stops at the next acknowledgement. */
  lemma OrphanIsExecuted(handle: nat, orphan: Request, from: Mid, vs: Viewstamp)
    requires orphan.vid == SECOND.view.vid
    ensures var s1 := OnExecute(Leading(), handle, orphan);
            var s2 := OnReplicate(s1, 2, FormStamp(THIRD), Form(THIRD), FormStamp(THIRD));
            && s1.submitted == [] && s1.committed == s1.executed == FormStamp(SECOND)
            && s2.submitted == [Submission(Succ(FormStamp(SECOND)), orphan)] && s2.view == SECOND.view
            && !s2.crashed && ReplicateCb(s2, from, vs).crashed
  {
    hide *;
    TakesOrphan(handle, orphan);
    OrphanRuns(OnExecute(Leading(), handle, orphan), orphan, from, vs);
  }
}
