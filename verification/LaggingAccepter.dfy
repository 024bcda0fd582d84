/**
 * A run in which a committed request is left behind by a view change: a member promises the view
 * change before it has installed the view that it leaves, then installs that view and acknowledges.
 */
module LaggingAccepter {
  import opened Stamps
  import opened CohortSpec
  import opened CohortInvariants
  import opened LogPull
  import opened LogWalk
  import opened Traffic
  import opened Quorum
  import opened CohortRuns
  import opened PrimaryLoop
  import opened ViewChanges
  import opened AckRuns
  import opened AckSets
  import opened Counterexamples

  const FORMED := FormStamp(SECOND)
  const TAKEN := Succ(FORMED)
  const GROUP := SECOND.view
  const FOUNDING: Formation := SyntheticView(1)
  const ATTEMPT := Viewid(3, 3)

  // ---------------------------------------------------------------- cohort 1, the primary

  function Primary0(): Cohort {
    Leading().(sent := {ReplicateCall(1, 2, FORMED, Form(SECOND), FORMED), ReplicateCall(1, 3, FORMED, Form(SECOND), FORMED)})
  }

  function Primary1(req: Request): Cohort { OnExecute(Primary0(), 0, req) }
  function Primary2(req: Request): Cohort { OnFetchlog(Primary1(req), BASE) }
  function Primary3(req: Request): Cohort { ReplicateCb(Primary2(req), 2, TAKEN) }

  // ---------------------------------------------------------------- cohort 2, which lags

  /** It was let into the group, promised the second view, and has not heard of it since. */
  function Lagger0(): Cohort {
    Joiner(2).(mode := ViewChange, proposedVid := GROUP.vid)
  }

  function Lagger1(): Cohort { OnViewChange(Lagger0(), 3, 0, GROUP, ATTEMPT) }
  function Lagger2(): Cohort { OnReplicate(Lagger1(), 1, FORMED, Form(SECOND), FORMED) }
  function Lagger3(): Cohort { Lagger3Of(Lagger2()) }
  function Lagger3Of(s: Cohort): Cohort {
    if |s.pulls| > 0 then FetchlogCb(s, 0, BASE, Some(Form(FOUNDING))) else s
  }
  function Lagger4(req: Request): Cohort { OnReplicate(Lagger3(), 1, TAKEN, Client(req), FORMED) }

  const LAGGER_REPORT := Report(2, ZERO_STAMP, None)

  lemma LaggerAccepts()
    ensures var t := Lagger1();
            && t == Lagger0().(mode := ViewChange, proposedVid := ATTEMPT,
                               sent := {VcReply(2, 3, 0, ATTEMPT, Accept(LAGGER_REPORT))})
            && !RefusesVc(Lagger0(), GROUP.vid, ATTEMPT) && MyReport(Lagger0()) == LAGGER_REPORT
  {
  }

  /** Cohort 2 when it has stored the formation and opened a pull. */
  function Stored(): Cohort {
    Lagger1().(log := map[FORMED := Entry(Form(SECOND), None, None, Logged)], jumps := map[BASE := FORMED], committed := FORMED)
  }

  lemma LaggerStores()
    ensures var t := Lagger2();
            && t.pulls == [Pull(FORMED, 1, {BASE}, {}, BASE.vid, true, false, AckReplicate(1, FORMED))]
            && t == Stored().(pulls := t.pulls, sent := Lagger1().sent + {FetchCall(2, 1, 0, BASE)})
  {
    StoredReady();
    StoredAs();
    hide *;
    StoredPulls(Stored(), AckReplicate(1, FORMED));
  }

  lemma StoredPulls(w: Cohort, done: DoneCb)
    requires Idle(w) && Missing(w.log, w.executed, FORMED) == {} && w.pulls == []
    requires w.self == 2 && w.executed == ZERO_STAMP && w.jumps == map[BASE := FORMED] && done == AckReplicate(1, FORMED)
    requires w.log == map[FORMED := Entry(Form(SECOND), None, None, Logged)]
    ensures var t := PullLog(w, 1, FORMED, done);
            && t.pulls == [Pull(FORMED, 1, {BASE}, {}, BASE.vid, true, false, done)]
            && t == w.(pulls := t.pulls, sent := w.sent + {FetchCall(2, 1, 0, BASE)})
  {
    hide PullLog, Missing, Idle, StepBack, Settle;
    var o := w.(pulls := [Pull(FORMED, 1, {}, {}, FORMED.vid, true, false, done)]);
    PullUnfolds(w, 1, FORMED, done);
    assert w.(pulls := w.pulls + [Pull(FORMED, 1, {}, {}, FORMED.vid, true, false, done)]) == o;
    LaggerStepsBack(o);
  }

  lemma StoredReady()
    ensures Idle(Stored()) && Missing(Stored().log, Stored().executed, FORMED) == {}
    ensures Stored().self == 2 && Stored().executed == ZERO_STAMP && Stored().sent == Lagger1().sent && Stored().pulls == []
    ensures Stored().jumps == map[BASE := FORMED] && Stored().log == map[FORMED := Entry(Form(SECOND), None, None, Logged)]
  {
    LaggerAccepts();
    hide Lagger1;
  }

  lemma StoredAs()
    ensures StoreReplicate(Lagger1(), FORMED, Form(SECOND), FORMED) == Stored()
    ensures Lagger2() == PullLog(Stored(), 1, FORMED, AckReplicate(1, FORMED))
  {
    LaggerAccepts();
    hide Lagger1;
    assert Idle(Stored());
    IdleStays(Stored());
    hide AdvanceExecuted, PullLog;
    assert RaiseCommitted(StoreEntry(Lagger1(), FORMED, Form(SECOND)), FORMED) == Stored();
  }

  lemma LaggerStepsBack(o: Cohort)
    requires o.self == 2 && o.executed == ZERO_STAMP && o.jumps == map[BASE := FORMED]
    requires o.log == map[FORMED := Entry(Form(SECOND), None, None, Logged)]
    requires o.pulls == [Pull(FORMED, 1, {}, {}, FORMED.vid, true, false, AckReplicate(1, FORMED))]
    ensures var pl := Pull(FORMED, 1, {BASE}, {}, BASE.vid, true, false, AckReplicate(1, FORMED));
            Settle(StepBack(o, 0), 0) == o.(pulls := [pl], sent := o.sent + {FetchCall(2, 1, 0, BASE)})
  {
    assert Missing(o.log, o.executed, BASE) == {BASE};
    hide Missing;
    var b := StepBack(o, 0);
    assert b.pulls[0].expected == {} + {BASE} == {BASE};
    assert b.sent == o.sent + {FetchCall(2, 1, 0, BASE)};
  }

  /** s when the founding formation has been fetched. */
  function Fetched(s: Cohort): Cohort {
    s.(log := map[FORMED := Entry(Form(SECOND), None, None, Logged), BASE := Entry(Form(FOUNDING), None, None, Logged)],
       jumps := map[BASE := FORMED, ZERO_STAMP := BASE],
       pulls := [Pull(FORMED, 1, {BASE}, {BASE}, BASE.vid, true, false, AckReplicate(1, FORMED))])
  }

  /** Cohort 2 before that. */
  ghost predicate Waits(s: Cohort) {
    && s.self == 2 && s.executed == ZERO_STAMP && s.committed == FORMED && s.latest == ZERO_STAMP
    && s.log == map[FORMED := Entry(Form(SECOND), None, None, Logged)] && s.jumps == map[BASE := FORMED]
    && s.pulls == [Pull(FORMED, 1, {BASE}, {}, BASE.vid, true, false, AckReplicate(1, FORMED))]
  }

  lemma LaggerWaits()
    ensures Waits(Lagger2())
  {
    LaggerStores();
    StoredReady();
    LaggerAccepts();
    hide Lagger2, Lagger1;
  }

  lemma FetchedAs(s: Cohort)
    requires Waits(s)
    ensures NoteFetched(s, 0, BASE, Some(Form(FOUNDING))) == Fetched(s)
  {
    assert s.log[BASE := Entry(Form(FOUNDING), None, None, Logged)] == Fetched(s).log;
    assert s.jumps[ZERO_STAMP := BASE] == Fetched(s).jumps;
    assert {} + {BASE} == {BASE};
  }

  /** It executes both formations: it is active in the second view, and its promise is gone. */
  lemma FetchedExecutes(s: Cohort)
    requires Waits(s)
    ensures var u := AdvanceCommitted(Fetched(s));
            && u.mode == Active && u.validView && u.view == GROUP && u.proposedVid == GROUP.vid && u.executed == FORMED
            && u.latest == ZERO_STAMP && u.committed == FORMED && u.self == 2 && u.sent == s.sent
            && u.jumps == Fetched(s).jumps && u.log.Keys == {FORMED, BASE} && u.pulls == Fetched(s).pulls
  {
    var s0 := Fetched(s);
    AdvanceCommittedKeepsPulls(s0);
    assert VsNext(s0.jumps, FORMED) == TAKEN && VsNext(s0.jumps, ZERO_STAMP) == BASE && VsNext(s0.jumps, BASE) == FORMED;
    assert CommitFrom(s0, VsNext(s0.jumps, s0.committed)) == s0;
    assert AdvanceCommitted(s0) == AdvanceExecuted(s0);
    hide CommitFrom, AdvanceCommitted, AdvanceExecuted, Aborted;
    ExecUnfold(s0);
    var s1 := ExecForm(s0, BASE);
    FirstForm(s0);
    ExecUnfold(s1);
    var s2 := ExecForm(s1, FORMED);
    SecondForm(s1);
    ExecEnds(s2);
  }

  lemma FirstForm(s: Cohort)
    requires s.log == map[FORMED := Entry(Form(SECOND), None, None, Logged), BASE := Entry(Form(FOUNDING), None, None, Logged)]
    ensures ExecOne(s, BASE) == ExecForm(s, BASE)
    ensures var t := ExecForm(s, BASE);
            && t.executed == BASE && t.jumps == s.jumps && t.committed == s.committed && t.latest == s.latest && t.self == s.self
            && t.sent == s.sent && t.pulls == s.pulls && t.log.Keys == {FORMED, BASE} && t.log[FORMED] == s.log[FORMED]
  {
    hide Aborted;
  }

  lemma SecondForm(s: Cohort)
    requires FORMED in s.log && s.log[FORMED].arg == Form(SECOND) && s.log.Keys == {FORMED, BASE}
    ensures ExecOne(s, FORMED) == ExecForm(s, FORMED)
    ensures var t := ExecForm(s, FORMED);
            && t.mode == Active && t.validView && t.view == GROUP && t.proposedVid == GROUP.vid && t.executed == FORMED
            && t.jumps == s.jumps && t.committed == s.committed && t.latest == s.latest && t.self == s.self
            && t.sent == s.sent && t.pulls == s.pulls && t.log.Keys == {FORMED, BASE}
  {
    hide Aborted;
  }

  lemma ExecEnds(s: Cohort)
    requires Lt(s.committed, VsNext(s.jumps, s.executed))
    ensures AdvanceExecuted(s) == s
  {
  }

  lemma FetchedSettles(s: Cohort)
    requires Waits(s)
    ensures var t := FetchlogCheck(Fetched(s), 0);
            && t.mode == Active && t.validView && t.view == GROUP && t.proposedVid == GROUP.vid && t.executed == FORMED
            && t.latest == ZERO_STAMP && t.committed == FORMED && t.self == 2 && FORMED !in t.jumps && TAKEN !in t.log
            && t.sent == s.sent + {ReplicateReply(2, 1, FORMED)}
  {
    FetchedExecutes(s);
    AdvanceCommittedKeepsPulls(Fetched(s));
    hide AdvanceCommitted;
    var u := AdvanceCommitted(Fetched(s));
    var b := StepBack(u, 0);
    assert b == u.(pulls := [Fetched(s).pulls[0].(bottomdone := true)]);
    hide StepBack;
    assert b.pulls[0].expected == {BASE} && b.pulls[0].received == {BASE};
  }

  lemma LaggerInstalls()
    ensures var t := Lagger3();
            && t.mode == Active && t.validView && t.view == GROUP && t.proposedVid == GROUP.vid && t.executed == FORMED
            && t.latest == ZERO_STAMP && t.committed == FORMED && t.self == 2 && FORMED !in t.jumps && TAKEN !in t.log
            && t.sent == Lagger2().sent + {ReplicateReply(2, 1, FORMED)}
  {
    LaggerWaits();
    FetchedAs(Lagger2());
    hide Lagger2, FetchlogCheck, NoteFetched, Fetched;
    FetchedSettles(Lagger2());
  }

  lemma LaggerAcks(req: Request)
    ensures var t := Lagger4(req);
            && ReplicateReply(2, 1, TAKEN) in t.sent && Lagger3().sent <= t.sent
            && t.mode == Active && t.validView && t.view == GROUP && t.self == 2
  {
    LaggerInstalls();
    hide Lagger3, OnReplicate;
    StoresRequest(Lagger3(), SECOND, req);
  }

  // ---------------------------------------------------------------- cohort 3, which manages the attempt

  function Manager0(): Cohort { Leading().(self := 3, latest := ZERO_STAMP) }
  function Manager1(): Cohort { Initiate(Manager0(), []) }
  function Manager2(): Cohort { OnViewChange(Manager1(), 3, 0, GROUP, ATTEMPT) }
  function Manager3(): Cohort { PrepareCb(Manager2(), 0, 3, Some(Accept(MANAGER_REPORT))) }
  function Manager4(): Cohort { PrepareCb(Manager3(), 0, 2, Some(Accept(LAGGER_REPORT))) }
  function Manager5(): Cohort { PrepareCb(Manager4(), 0, 1, None) }

  const MANAGER_REPORT := Report(3, FORMED, None)
  const CHOICE := NvArg(FORMED, View(ATTEMPT, 3, [2]))

  /** The attempt when it has been accepted by `accepted` and answered by `done`. */
  function AttemptAfter(accepted: set<Mid>, done: set<Mid>, accepts: seq<Report>, nv: NvArg): Attempt {
    Attempt(0, ATTEMPT, {1, 2, 3}, accepted, done, {}, {}, accepts, None, ZERO_VID, nv, false)
  }

  lemma GroupMembers()
    ensures Mids(GROUP) == {1, 2, 3} && |Mids(GROUP)| == 3
    ensures Majority({2, 3}, Mids(GROUP)) && Majority({1, 2}, Mids(GROUP)) && !Majority({1}, Mids(GROUP))
  {
    assert Mids(GROUP) == {1, 2, 3};
    assert {2, 3} * {1, 2, 3} == {2, 3} && {1, 2} * {1, 2, 3} == {1, 2} && {1} * {1, 2, 3} == {1};
  }

  lemma ManagerStarts()
    ensures var t := Manager1();
            && t == Manager0().(mode := ViewChange, nextXid := 1, attempt := Some(AttemptAfter({}, {}, [], NO_NVARG)), sent := t.sent)
            && VcCall(3, 2, 0, GROUP, ATTEMPT) in t.sent && VcCall(3, 3, 0, GROUP, ATTEMPT) in t.sent
  {
    GroupMembers();
    assert Mids(GROUP) + (set j | j in []) == {1, 2, 3};
    hide Mids;
  }

  lemma ManagerScan()
    ensures ScanFrom(Manager0().log, Manager0().jumps, FORMED) == FORMED
  {
    assert VsNext(Manager0().jumps, FORMED) == TAKEN;
  }

  lemma ManagerAccepts()
    ensures var t := Manager2();
            && t == Manager1().(proposedVid := ATTEMPT, sent := Manager1().sent + {VcReply(3, 3, 0, ATTEMPT, Accept(MANAGER_REPORT))})
            && !RefusesVc(Manager1(), GROUP.vid, ATTEMPT)
  {
    ManagerStarts();
    ManagerScan();
    hide Manager1, ScanFrom;
    assert MyReport(Manager1()) == MANAGER_REPORT;
  }

  /** Recording an answer while others are outstanding. */
  lemma ManagerNotes(s: Cohort, from: Mid, r: Report, accepted: set<Mid>, accepts: seq<Report>)
    requires s.attempt == Some(AttemptAfter(accepted, accepted, accepts, NO_NVARG))
    requires r.newview.None? && from !in accepted && |accepted| < 2
    ensures PrepareCb(s, 0, from, Some(Accept(r)))
         == s.(attempt := Some(AttemptAfter(accepted + {from}, accepted + {from}, accepts + [r], NO_NVARG)))
  {
    var b := AttemptAfter(accepted + {from}, accepted + {from}, accepts + [r], NO_NVARG);
    assert NoteAnswer(s.attempt.value, from, Some(Accept(r))) == b;
    hide NoteAnswer;
    assert |accepted + {from}| != |{1, 2, 3}|;
  }

  lemma ManagerChooses(nv: NvArg)
    ensures Choose(AttemptAfter({3, 2}, {3, 2, 1}, [MANAGER_REPORT, LAGGER_REPORT], nv)) == Some(CHOICE)
  {
    var r3, r2 := MANAGER_REPORT, LAGGER_REPORT;
    assert [r3, r2][..1] == [r3] && [r3][..0] == [];
    assert Best([], None) == None && Best([r3], None) == Some(r3) && Best([r3, r2], None) == Some(r3);
    assert OtherIds([], 3) == [] && OtherIds([r3], 3) == [] && OtherIds([r3, r2], 3) == [2];
  }

  lemma ManagerIssues(s: Cohort)
    requires s.attempt == Some(AttemptAfter({3, 2}, {3, 2}, [MANAGER_REPORT, LAGGER_REPORT], NO_NVARG)) && s.view == GROUP
    ensures PrepareCb(s, 0, 1, None).attempt == Some(AttemptAfter({3, 2}, {3, 2, 1}, [MANAGER_REPORT, LAGGER_REPORT], CHOICE))
    ensures PrepareCb(s, 0, 1, None).view == GROUP
  {
    GroupMembers();
    ManagerChooses(NO_NVARG);
    assert {3, 2} + {1} == {3, 2, 1} == {1, 2, 3} && {3, 2} == {2, 3};
    hide Choose, Mids, Majority;
    assert NotePrepare(s, 1, None).attempt == Some(AttemptAfter({3, 2}, {3, 2, 1}, [MANAGER_REPORT, LAGGER_REPORT], NO_NVARG));
  }

  lemma ManagerPasses()
    ensures Manager3() == Manager2().(attempt := Some(AttemptAfter({3}, {3}, [MANAGER_REPORT], NO_NVARG)))
    ensures Manager4() == Manager2().(attempt := Some(AttemptAfter({3, 2}, {3, 2}, [MANAGER_REPORT, LAGGER_REPORT], NO_NVARG)))
    ensures Manager5().attempt == Some(AttemptAfter({3, 2}, {3, 2, 1}, [MANAGER_REPORT, LAGGER_REPORT], CHOICE))
    ensures Manager5().view == GROUP
  {
    ManagerStarts();
    ManagerAccepts();
    hide PrepareCb, Manager2, Manager1;
    ManagerNotes(Manager2(), 3, MANAGER_REPORT, {}, []);
    assert {} + {3} == {3} && [] + [MANAGER_REPORT] == [MANAGER_REPORT];
    ManagerNotes(Manager3(), 2, LAGGER_REPORT, {3}, [MANAGER_REPORT]);
    assert {3} + {2} == {3, 2} && [MANAGER_REPORT] + [LAGGER_REPORT] == [MANAGER_REPORT, LAGGER_REPORT];
    ManagerIssues(Manager4());
  }

  /** The choice continues from the formation: it does not reach stamp 1 of the view. */
  lemma ChoiceFallsShort()
    ensures PassesPrepare(Manager5(), ATTEMPT, GROUP) && Manager5().attempt.value.newview.None?
    ensures Choose(Manager5().attempt.value) == Some(CHOICE) && Lt(CHOICE.latest, TAKEN)
  {
    ManagerPasses();
    hide Manager5;
    AttemptPasses(Manager5());
  }

  lemma AttemptPasses(s: Cohort)
    requires s.attempt == Some(AttemptAfter({3, 2}, {3, 2, 1}, [MANAGER_REPORT, LAGGER_REPORT], CHOICE)) && s.view == GROUP
    ensures PassesPrepare(s, ATTEMPT, GROUP) && s.attempt.value.newview.None?
    ensures Choose(s.attempt.value) == Some(CHOICE) && Lt(CHOICE.latest, TAKEN)
  {
    GroupMembers();
    ManagerChooses(CHOICE);
    hide Mids, Majority, Choose;
    assert {3, 2} == {2, 3};
  }

  // ---------------------------------------------------------------- cohort 1 again

  lemma PrimaryTakes(req: Request)
    requires req.vid == GROUP.vid
    ensures TakesRequest(Primary0(), req) && Succ(Primary0().latest) == TAKEN && TAKEN !in Primary0().log
    ensures var t := Primary1(req);
            && t == LogRequest(Primary0(), 0, req) && t.latest == TAKEN && t.committed == FORMED && t.executed == FORMED
            && t.log == Primary0().log[TAKEN := PrimaryEntry(Primary0(), 0, req)] && t.jumps == Primary0().jumps
            && t.view == GROUP && t.validView && t.self == 1 && ReplicateCall(1, 2, TAKEN, Client(req), FORMED) in t.sent
            && ReplicateCall(1, 2, FORMED, Form(SECOND), FORMED) in t.sent
  {
    PrimaryLogs(req);
    GroupMembers();
    var s := Primary0();
    var u := LogRequest(s, 0, req);
    assert CommitFrom(u, TAKEN) == u by { hide Majority, Mids, LogRequest; }
    assert AdvanceExecuted(u) == u by { hide LogRequest, Mids; }
    hide LogRequest, CommitFrom, AdvanceExecuted;
    assert AdvanceCommitted(u) == u;
    hide AdvanceCommitted;
  }

  lemma PrimaryLogs(req: Request)
    requires req.vid == GROUP.vid
    ensures var s, u := Primary0(), LogRequest(Primary0(), 0, req);
            && u.latest == TAKEN && u.committed == FORMED && u.executed == FORMED && u.jumps == s.jumps && VsNext(u.jumps, FORMED) == TAKEN
            && u.log == s.log[TAKEN := PrimaryEntry(s, 0, req)] && u.log[TAKEN].ack == Some(AckSet({1}, Mids(GROUP)))
            && u.view == GROUP && u.validView && u.self == 1 && ReplicateCall(1, 2, TAKEN, Client(req), FORMED) in u.sent
            && ReplicateCall(1, 2, FORMED, Form(SECOND), FORMED) in u.sent
  {
    var s := Primary0();
    assert {1} + (set b | b in GROUP.backups) == Mids(GROUP);
    hide Mids;
  }

  lemma PrimaryAnswers(req: Request)
    requires req.vid == GROUP.vid
    ensures Primary2(req) == Primary1(req).(sent := Primary1(req).sent + {FetchReply(1, BASE, Form(FOUNDING))})
  {
    PrimaryTakes(req);
    hide Primary1, LogRequest, PrimaryEntry;
    assert BASE in Primary0().log && Primary0().log[BASE].arg == Form(FOUNDING);
  }

  lemma PrimaryCommits(req: Request)
    requires req.vid == GROUP.vid
    ensures TAKEN in Primary3(req).log && Primary3(req).log[TAKEN].ack.None?
  {
    GroupMembers();
    PrimaryTakes(req);
    PrimaryAnswers(req);
    assert {1} + (set b | b in GROUP.backups) == Mids(GROUP);
    var s := Primary2(req);
    assert s.log[TAKEN].ack == Some(AckSet({1}, Mids(GROUP))) && s.jumps == Primary0().jumps;
    assert VsNext(s.jumps, FORMED) == TAKEN;
    hide Primary1, Primary2, Primary0, Mids, Majority, LogRequest, PrimaryEntry;
    SecondAck(s);
  }

  lemma SecondAck(s: Cohort)
    requires s.self == 1 && s.validView && s.view == GROUP && s.latest == TAKEN && s.committed == FORMED
    requires TAKEN in s.log && s.log[TAKEN].ack == Some(AckSet({1}, Mids(GROUP))) && VsNext(s.jumps, FORMED) == TAKEN
    ensures var t := ReplicateCb(s, 2, TAKEN); TAKEN in t.log && t.log[TAKEN].ack.None?
  {
    GroupMembers();
    assert IsMember(s, 2);
    hide Mids, Majority;
    var u := AckOne(s, 2, TAKEN);
    assert {1} + {2} == {1, 2};
    assert u.log[TAKEN].ack == Some(AckSet({1, 2}, Mids(GROUP))) && u.jumps == s.jumps && u.committed == FORMED && u.latest == TAKEN;
    assert AckFrom(s, 2, TAKEN, TAKEN) == u by { AckFromStop(u, 2, VsNext(s.jumps, TAKEN), TAKEN); AckFromStep(s, 2, TAKEN, TAKEN); }
    assert ReplicateCb(s, 2, TAKEN) == AdvanceCommitted(u) by { hide AckOne, AckFrom, AdvanceCommitted, IsMember; }
    hide AckOne, AckFrom, ReplicateCb, IsMember;
    CommitsLast(u);
  }

  lemma CommitsLast(u: Cohort)
    requires u.latest == TAKEN && u.committed == FORMED && VsNext(u.jumps, FORMED) == TAKEN
    requires TAKEN in u.log && u.log[TAKEN].ack == Some(AckSet({1, 2}, Mids(GROUP)))
    ensures var t := AdvanceCommitted(u); TAKEN in t.log && t.log[TAKEN].ack.None?
  {
    GroupMembers();
    hide Mids, Majority;
    CommitFromStep(u, TAKEN);
    var w := CommitOne(u, TAKEN);
    assert CommitFrom(w, VsNext(u.jumps, TAKEN)) == w && w.log[TAKEN].ack.None?;
    hide CommitFrom, CommitOne;
    AdvanceExecutedKept(w);
    hide AdvanceExecuted, LogGrows, AcksKept;
    assert AdvanceCommitted(u) == AdvanceExecuted(w);
    KeptNone(w, AdvanceExecuted(w), TAKEN);
  }

  lemma KeptNone(s: Cohort, t: Cohort, k: Viewstamp)
    requires AcksKept(s, t) && k in s.log && s.log[k].ack.None?
    ensures k in t.log && t.log[k].ack.None?
  {
    hide Majority;
  }

  // ---------------------------------------------------------------- the run

  function Group(a: Cohort, b: Cohort, c: Cohort): Sys {
    map[1 := a, 2 := b, 3 := c]
  }

  /** The states the three cohorts go through. */
  datatype Cast = Cast(a0: Cohort, a1: Cohort, a2: Cohort, a3: Cohort,
                       b0: Cohort, b1: Cohort, b2: Cohort, b3: Cohort, b4: Cohort,
                       c0: Cohort, c1: Cohort, c2: Cohort, c3: Cohort, c4: Cohort, c5: Cohort)

  function States(k: Cast): seq<Sys> {
    [Group(k.a0, k.b0, k.c0), Group(k.a0, k.b0, k.c1), Group(k.a0, k.b1, k.c1), Group(k.a0, k.b1, k.c2),
     Group(k.a0, k.b1, k.c3), Group(k.a0, k.b1, k.c4), Group(k.a0, k.b1, k.c5), Group(k.a1, k.b1, k.c5),
     Group(k.a1, k.b2, k.c5), Group(k.a2, k.b2, k.c5), Group(k.a2, k.b3, k.c5), Group(k.a2, k.b4, k.c5),
     Group(k.a3, k.b4, k.c5)]
  }

  function Acts(req: Request): seq<Act> {
    [Act(3, StartAttempt([])),
     Act(2, VcRequest(3, 0, GROUP, ATTEMPT)), Act(3, VcRequest(3, 0, GROUP, ATTEMPT)),
     Act(3, VcAnswered(0, 3, Some(Accept(MANAGER_REPORT)))), Act(3, VcAnswered(0, 2, Some(Accept(LAGGER_REPORT)))),
     Act(3, VcAnswered(0, 1, None)),
     Act(1, Execute(0, req)),
     Act(2, Replicate(1, FORMED, Form(SECOND), FORMED)), Act(1, Fetchlog(BASE)),
     Act(2, Event.Fetched(0, BASE, Some(Form(FOUNDING)))),
     Act(2, Replicate(1, TAKEN, Client(req), FORMED)), Act(1, Replicated(2, TAKEN))]
  }

  lemma MapUpdates<T>(a: T, b: T, c: T, t: T)
    ensures var m: map<Mid, T> := map[1 := a, 2 := b, 3 := c];
            && m[1 := t] == map[1 := t, 2 := b, 3 := c] && m[2 := t] == map[1 := a, 2 := t, 3 := c]
            && m[3 := t] == map[1 := a, 2 := b, 3 := t]
  {
  }

  lemma GroupUpdates(a: Cohort, b: Cohort, c: Cohort, t: Cohort)
    ensures Group(a, b, c)[1 := t] == Group(t, b, c) && Group(a, b, c)[2 := t] == Group(a, t, c)
    ensures Group(a, b, c)[3 := t] == Group(a, b, t)
    ensures Group(a, b, c).Keys == {1, 2, 3} && Group(a, b, c)[1] == a && Group(a, b, c)[2] == b && Group(a, b, c)[3] == c
  {
    MapUpdates(a, b, c, t);
  }

  lemma StepOne(a: Cohort, b: Cohort, c: Cohort, e: Event)
    requires EventOk(a, e) && Enabled(Group(a, b, c), 1, e)
    ensures Step(Group(a, b, c), Act(1, e), Group(Handle(a, e), b, c))
  {
    GroupUpdates(a, b, c, Handle(a, e));
    hide Enabled, Handle, EventOk, Group;
  }

  lemma StepTwo(a: Cohort, b: Cohort, c: Cohort, e: Event)
    requires EventOk(b, e) && Enabled(Group(a, b, c), 2, e)
    ensures Step(Group(a, b, c), Act(2, e), Group(a, Handle(b, e), c))
  {
    GroupUpdates(a, b, c, Handle(b, e));
    hide Enabled, Handle, EventOk, Group;
  }

  lemma StepThree(a: Cohort, b: Cohort, c: Cohort, e: Event)
    requires EventOk(c, e) && Enabled(Group(a, b, c), 3, e)
    ensures Step(Group(a, b, c), Act(3, e), Group(a, b, Handle(c, e)))
  {
    GroupUpdates(a, b, c, Handle(c, e));
    hide Enabled, Handle, EventOk, Group;
  }

  lemma StartStep(a: Cohort, b: Cohort, c: Cohort)
    ensures Step(Group(a, b, c), Act(3, StartAttempt([])), Group(a, b, Initiate(c, [])))
  {
    hide Initiate;
    StepThree(a, b, c, StartAttempt([]));
  }

  lemma PromiseTwo(a: Cohort, b: Cohort, c: Cohort)
    requires VcCall(3, 2, 0, GROUP, ATTEMPT) in c.sent
    ensures Step(Group(a, b, c), Act(2, VcRequest(3, 0, GROUP, ATTEMPT)), Group(a, OnViewChange(b, 3, 0, GROUP, ATTEMPT), c))
  {
    hide OnViewChange;
    StepTwo(a, b, c, VcRequest(3, 0, GROUP, ATTEMPT));
  }

  lemma PromiseThree(a: Cohort, b: Cohort, c: Cohort)
    requires VcCall(3, 3, 0, GROUP, ATTEMPT) in c.sent
    ensures Step(Group(a, b, c), Act(3, VcRequest(3, 0, GROUP, ATTEMPT)), Group(a, b, OnViewChange(c, 3, 0, GROUP, ATTEMPT)))
  {
    hide OnViewChange;
    StepThree(a, b, c, VcRequest(3, 0, GROUP, ATTEMPT));
  }

  lemma AnswerStep(a: Cohort, b: Cohort, c: Cohort, from: Mid, res: Option<VcAnswer>)
    requires c.attempt.Some? && c.attempt.value.xid == 0 && c.attempt.value.proposedVid == ATTEMPT
    requires from in c.attempt.value.underlings && from !in c.attempt.value.prepareDone
    requires res.Some? ==> InNet(Group(a, b, c), VcReply(from, 3, 0, ATTEMPT, res.value))
    ensures Step(Group(a, b, c), Act(3, VcAnswered(0, from, res)), Group(a, b, PrepareCb(c, 0, from, res)))
  {
    hide PrepareCb;
    StepThree(a, b, c, VcAnswered(0, from, res));
  }

  lemma ExecuteStep(a: Cohort, b: Cohort, c: Cohort, req: Request)
    requires Succ(a.latest) !in a.log
    ensures Step(Group(a, b, c), Act(1, Execute(0, req)), Group(OnExecute(a, 0, req), b, c))
  {
    hide OnExecute, TakesRequest;
    StepOne(a, b, c, Execute(0, req));
  }

  lemma ReplicateStep(a: Cohort, b: Cohort, c: Cohort, vs: Viewstamp, arg: Arg)
    requires WfSlot(vs, arg) && ReplicateCall(1, 2, vs, arg, FORMED) in a.sent
    ensures Step(Group(a, b, c), Act(2, Replicate(1, vs, arg, FORMED)), Group(a, OnReplicate(b, 1, vs, arg, FORMED), c))
  {
    hide OnReplicate;
    StepTwo(a, b, c, Replicate(1, vs, arg, FORMED));
  }

  lemma FetchlogStep(a: Cohort, b: Cohort, c: Cohort)
    ensures Step(Group(a, b, c), Act(1, Fetchlog(BASE)), Group(OnFetchlog(a, BASE), b, c))
  {
    hide OnFetchlog;
    StepOne(a, b, c, Fetchlog(BASE));
  }

  lemma FetchedStep(a: Cohort, b: Cohort, c: Cohort)
    requires |b.pulls| == 1 && b.pulls[0].src == 1 && BASE in b.pulls[0].expected
    requires FetchReply(1, BASE, Form(FOUNDING)) in a.sent
    ensures Step(Group(a, b, c), Act(2, Event.Fetched(0, BASE, Some(Form(FOUNDING)))),
                 Group(a, FetchlogCb(b, 0, BASE, Some(Form(FOUNDING))), c))
  {
    hide FetchlogCb;
    StepTwo(a, b, c, Event.Fetched(0, BASE, Some(Form(FOUNDING))));
  }

  lemma AckStep(a: Cohort, b: Cohort, c: Cohort)
    requires ReplicateReply(2, 1, TAKEN) in b.sent
    ensures Step(Group(a, b, c), Act(1, Replicated(2, TAKEN)), Group(ReplicateCb(a, 2, TAKEN), b, c))
  {
    hide ReplicateCb;
    StepOne(a, b, c, Replicated(2, TAKEN));
  }

  /** What Start asks of one cohort. */
  ghost predicate Starts(s: Cohort) {
    AllOk(s) && Unanswered(s) && OwnEntries(s) && XidsUsed(s) && s.attempt.None?
  }

  lemma CastStarts()
    ensures Starts(Primary0()) && Starts(Lagger0()) && Starts(Manager0())
    ensures Primary0().self == 1 && Lagger0().self == 2 && Manager0().self == 3
  {
    FounderParts();
    hide Inv;
  }

  lemma FounderParts()
    ensures Inv(Primary0()) && Inv(Lagger0()) && Inv(Manager0())
  {
    assert Leading().log.Keys == {BASE, FORMED} && Leading().jumps.Keys == {ZERO_STAMP, BASE};
  }

  /** The group at the start: the second view has been formed, cohort 3 has installed it and cohort 2
      has not heard of it. */
  lemma RunStarts(a: Cohort, b: Cohort, c: Cohort)
    requires Starts(a) && Starts(b) && Starts(c) && a.self == 1 && b.self == 2 && c.self == 3
    ensures Start(Group(a, b, c))
  {
    GroupUpdates(a, b, c, a);
    hide AllOk, Unanswered, OwnEntries, Group;
  }

  /** The steps of the run, for whatever cohorts take them. */
  ghost predicate Plays(k: Cast, req: Request) {
    && Start(Group(k.a0, k.b0, k.c0))
    && forall i :: 0 <= i < 12 ==> Step(States(k)[i], Acts(req)[i], States(k)[i + 1])
  }

  ghost function TheCast(req: Request): Cast {
    Cast(Primary0(), Primary1(req), Primary2(req), Primary3(req), Lagger0(), Lagger1(), Lagger2(), Lagger3(), Lagger4(req),
         Manager0(), Manager1(), Manager2(), Manager3(), Manager4(), Manager5())
  }

  /** Each cohort's next state is what its handler makes of the one before. */
  ghost predicate Scripted(k: Cast, req: Request) {
    && k.c1 == Initiate(k.c0, []) && k.b1 == OnViewChange(k.b0, 3, 0, GROUP, ATTEMPT)
    && k.c2 == OnViewChange(k.c1, 3, 0, GROUP, ATTEMPT)
    && k.c3 == PrepareCb(k.c2, 0, 3, Some(Accept(MANAGER_REPORT))) && k.c4 == PrepareCb(k.c3, 0, 2, Some(Accept(LAGGER_REPORT)))
    && k.c5 == PrepareCb(k.c4, 0, 1, None)
    && k.a1 == OnExecute(k.a0, 0, req) && k.b2 == OnReplicate(k.b1, 1, FORMED, Form(SECOND), FORMED)
    && k.a2 == OnFetchlog(k.a1, BASE) && |k.b2.pulls| == 1 && k.b3 == FetchlogCb(k.b2, 0, BASE, Some(Form(FOUNDING)))
    && k.b4 == OnReplicate(k.b3, 1, TAKEN, Client(req), FORMED) && k.a3 == ReplicateCb(k.a2, 2, TAKEN)
  }

  ghost predicate Live(c: Cohort) {
    c.attempt.Some? && c.attempt.value.xid == 0 && c.attempt.value.proposedVid == ATTEMPT && c.attempt.value.underlings == {1, 2, 3}
  }

  /** What the handlers find on the network when they run. */
  ghost predicate Supplied(k: Cast, req: Request) {
    && VcCall(3, 2, 0, GROUP, ATTEMPT) in k.c1.sent && VcCall(3, 3, 0, GROUP, ATTEMPT) in k.c1.sent
    && Live(k.c2) && Live(k.c3) && Live(k.c4)
    && 3 !in k.c2.attempt.value.prepareDone && 2 !in k.c3.attempt.value.prepareDone && 1 !in k.c4.attempt.value.prepareDone
    && VcReply(3, 3, 0, ATTEMPT, Accept(MANAGER_REPORT)) in k.c2.sent
    && VcReply(2, 3, 0, ATTEMPT, Accept(LAGGER_REPORT)) in k.b1.sent
    && Succ(k.a0.latest) !in k.a0.log
    && ReplicateCall(1, 2, FORMED, Form(SECOND), FORMED) in k.a1.sent
    && ReplicateCall(1, 2, TAKEN, Client(req), FORMED) in k.a2.sent
    && FetchReply(1, BASE, Form(FOUNDING)) in k.a2.sent
    && |k.b2.pulls| == 1 && k.b2.pulls[0].src == 1 && BASE in k.b2.pulls[0].expected
    && ReplicateReply(2, 1, TAKEN) in k.b4.sent
  }

  lemma ManagerLives()
    ensures Live(Manager2()) && Live(Manager3()) && Live(Manager4())
    ensures 3 !in Manager2().attempt.value.prepareDone && 2 !in Manager3().attempt.value.prepareDone
    ensures 1 !in Manager4().attempt.value.prepareDone
  {
    hide Manager0, Manager1, Manager2, Manager3, Manager4, Manager5;
    ManagerStarts();
    ManagerAccepts();
    ManagerPasses();
  }

  lemma CastManager(req: Request)
    ensures var k := TheCast(req);
            && VcCall(3, 2, 0, GROUP, ATTEMPT) in k.c1.sent && VcCall(3, 3, 0, GROUP, ATTEMPT) in k.c1.sent
            && Live(k.c2) && Live(k.c3) && Live(k.c4)
            && 3 !in k.c2.attempt.value.prepareDone && 2 !in k.c3.attempt.value.prepareDone && 1 !in k.c4.attempt.value.prepareDone
            && VcReply(3, 3, 0, ATTEMPT, Accept(MANAGER_REPORT)) in k.c2.sent
  {
    hide Manager0, Manager1, Manager2, Manager3, Manager4, Manager5, Live;
    ManagerLives();
    ManagerStarts();
    ManagerAccepts();
  }

  lemma CastLagger(req: Request)
    ensures var k := TheCast(req);
            && VcReply(2, 3, 0, ATTEMPT, Accept(LAGGER_REPORT)) in k.b1.sent && ReplicateReply(2, 1, TAKEN) in k.b4.sent
            && |k.b2.pulls| == 1 && k.b2.pulls[0].src == 1 && BASE in k.b2.pulls[0].expected
            && k.b3 == FetchlogCb(k.b2, 0, BASE, Some(Form(FOUNDING)))
  {
    LaggerAccepts();
    LaggerStores();
    LaggerAcks(req);
    hide Lagger0, Lagger1, Lagger2, Lagger4, Stored, FetchlogCb;
  }

  lemma CastPrimary(req: Request)
    requires req.vid == GROUP.vid
    ensures var k := TheCast(req);
            && Succ(k.a0.latest) !in k.a0.log && ReplicateCall(1, 2, FORMED, Form(SECOND), FORMED) in k.a1.sent
            && ReplicateCall(1, 2, TAKEN, Client(req), FORMED) in k.a2.sent && FetchReply(1, BASE, Form(FOUNDING)) in k.a2.sent
  {
    PrimaryTakes(req);
    PrimaryAnswers(req);
    hide Primary0, Primary1, Primary2, LogRequest, PrimaryEntry;
  }

  lemma CastSupplied(req: Request)
    requires req.vid == GROUP.vid
    ensures Supplied(TheCast(req), req)
  {
    hide Primary0, Primary1, Primary2, Primary3, Lagger0, Lagger1, Lagger2, Lagger3, Lagger4, Live;
    hide Manager0, Manager1, Manager2, Manager3, Manager4, Manager5;
    CastManager(req);
    CastLagger(req);
    CastPrimary(req);
  }

  lemma CastScripted(req: Request)
    ensures Scripted(TheCast(req), req)
  {
    CastLagger(req);
    hide Initiate, OnViewChange, PrepareCb, OnExecute, OnReplicate, OnFetchlog, FetchlogCb, ReplicateCb, Leading, Joiner;
  }

  lemma RunPlays(k: Cast, req: Request)
    requires Scripted(k, req) && Supplied(k, req) && Start(Group(k.a0, k.b0, k.c0))
    ensures Plays(k, req)
  {
    hide Start, Step, Scripted, Supplied, Group, States, Acts;
    PromiseSteps(k, req);
    AnswerSteps(k, req);
    InstallSteps(k, req);
    CommitSteps(k, req);
    StatesAre(k);
    ActsAre(req);
    TwelveSteps(States(k), Acts(req));
  }

  lemma StatesAre(k: Cast)
    ensures var ss := States(k);
            && |ss| == 13 && ss[0] == Group(k.a0, k.b0, k.c0) && ss[1] == Group(k.a0, k.b0, k.c1) && ss[2] == Group(k.a0, k.b1, k.c1)
            && ss[3] == Group(k.a0, k.b1, k.c2) && ss[4] == Group(k.a0, k.b1, k.c3) && ss[5] == Group(k.a0, k.b1, k.c4)
            && ss[6] == Group(k.a0, k.b1, k.c5) && ss[7] == Group(k.a1, k.b1, k.c5) && ss[8] == Group(k.a1, k.b2, k.c5)
            && ss[9] == Group(k.a2, k.b2, k.c5) && ss[10] == Group(k.a2, k.b3, k.c5) && ss[11] == Group(k.a2, k.b4, k.c5)
            && ss[12] == Group(k.a3, k.b4, k.c5)
  {
    hide Group;
  }

  lemma ActsAre(req: Request)
    ensures var x := Acts(req);
            && |x| == 12 && x[0] == Act(3, StartAttempt([]))
            && x[1] == Act(2, VcRequest(3, 0, GROUP, ATTEMPT)) && x[2] == Act(3, VcRequest(3, 0, GROUP, ATTEMPT))
            && x[3] == Act(3, VcAnswered(0, 3, Some(Accept(MANAGER_REPORT))))
            && x[4] == Act(3, VcAnswered(0, 2, Some(Accept(LAGGER_REPORT)))) && x[5] == Act(3, VcAnswered(0, 1, None))
            && x[6] == Act(1, Execute(0, req)) && x[7] == Act(2, Replicate(1, FORMED, Form(SECOND), FORMED))
            && x[8] == Act(1, Fetchlog(BASE)) && x[9] == Act(2, Event.Fetched(0, BASE, Some(Form(FOUNDING))))
            && x[10] == Act(2, Replicate(1, TAKEN, Client(req), FORMED)) && x[11] == Act(1, Replicated(2, TAKEN))
  {
  }

  lemma TwelveSteps(ss: seq<Sys>, x: seq<Act>)
    requires |ss| == 13 && |x| == 12
    requires Step(ss[0], x[0], ss[1]) && Step(ss[1], x[1], ss[2]) && Step(ss[2], x[2], ss[3]) && Step(ss[3], x[3], ss[4])
    requires Step(ss[4], x[4], ss[5]) && Step(ss[5], x[5], ss[6]) && Step(ss[6], x[6], ss[7]) && Step(ss[7], x[7], ss[8])
    requires Step(ss[8], x[8], ss[9]) && Step(ss[9], x[9], ss[10]) && Step(ss[10], x[10], ss[11]) && Step(ss[11], x[11], ss[12])
    ensures forall i :: 0 <= i < 12 ==> Step(ss[i], x[i], ss[i + 1])
  {
    hide Step;
  }

  lemma PromiseSteps(k: Cast, req: Request)
    requires Scripted(k, req) && Supplied(k, req)
    ensures Step(Group(k.a0, k.b0, k.c0), Act(3, StartAttempt([])), Group(k.a0, k.b0, k.c1))
    ensures Step(Group(k.a0, k.b0, k.c1), Act(2, VcRequest(3, 0, GROUP, ATTEMPT)), Group(k.a0, k.b1, k.c1))
    ensures Step(Group(k.a0, k.b1, k.c1), Act(3, VcRequest(3, 0, GROUP, ATTEMPT)), Group(k.a0, k.b1, k.c2))
  {
    hide Step, Group, Initiate, OnViewChange, PrepareCb, OnExecute, OnReplicate, OnFetchlog, FetchlogCb, ReplicateCb, Live;
    StartStep(k.a0, k.b0, k.c0);
    PromiseTwo(k.a0, k.b0, k.c1);
    PromiseThree(k.a0, k.b1, k.c1);
  }

  lemma AnswerSteps(k: Cast, req: Request)
    requires Scripted(k, req) && Supplied(k, req)
    ensures Step(Group(k.a0, k.b1, k.c2), Act(3, VcAnswered(0, 3, Some(Accept(MANAGER_REPORT)))), Group(k.a0, k.b1, k.c3))
    ensures Step(Group(k.a0, k.b1, k.c3), Act(3, VcAnswered(0, 2, Some(Accept(LAGGER_REPORT)))), Group(k.a0, k.b1, k.c4))
    ensures Step(Group(k.a0, k.b1, k.c4), Act(3, VcAnswered(0, 1, None)), Group(k.a0, k.b1, k.c5))
  {
    hide Step, Group, Initiate, OnViewChange, PrepareCb, OnExecute, OnReplicate, OnFetchlog, FetchlogCb, ReplicateCb;
    GroupUpdates(k.a0, k.b1, k.c2, k.a0);
    GroupUpdates(k.a0, k.b1, k.c3, k.a0);
    AnswerStep(k.a0, k.b1, k.c2, 3, Some(Accept(MANAGER_REPORT)));
    AnswerStep(k.a0, k.b1, k.c3, 2, Some(Accept(LAGGER_REPORT)));
    AnswerStep(k.a0, k.b1, k.c4, 1, None);
  }

  lemma InstallSteps(k: Cast, req: Request)
    requires Scripted(k, req) && Supplied(k, req)
    ensures Step(Group(k.a0, k.b1, k.c5), Act(1, Execute(0, req)), Group(k.a1, k.b1, k.c5))
    ensures Step(Group(k.a1, k.b1, k.c5), Act(2, Replicate(1, FORMED, Form(SECOND), FORMED)), Group(k.a1, k.b2, k.c5))
    ensures Step(Group(k.a1, k.b2, k.c5), Act(1, Fetchlog(BASE)), Group(k.a2, k.b2, k.c5))
    ensures Step(Group(k.a2, k.b2, k.c5), Act(2, Event.Fetched(0, BASE, Some(Form(FOUNDING)))), Group(k.a2, k.b3, k.c5))
  {
    hide Step, Group, Initiate, OnViewChange, PrepareCb, OnExecute, OnReplicate, OnFetchlog, FetchlogCb, ReplicateCb, Live;
    ExecuteStep(k.a0, k.b1, k.c5, req);
    ReplicateStep(k.a1, k.b1, k.c5, FORMED, Form(SECOND));
    FetchlogStep(k.a1, k.b2, k.c5);
    FetchedStep(k.a2, k.b2, k.c5);
  }

  lemma CommitSteps(k: Cast, req: Request)
    requires Scripted(k, req) && Supplied(k, req)
    ensures Step(Group(k.a2, k.b3, k.c5), Act(2, Replicate(1, TAKEN, Client(req), FORMED)), Group(k.a2, k.b4, k.c5))
    ensures Step(Group(k.a2, k.b4, k.c5), Act(1, Replicated(2, TAKEN)), Group(k.a3, k.b4, k.c5))
  {
    hide Step, Group, Initiate, OnViewChange, PrepareCb, OnExecute, OnReplicate, OnFetchlog, FetchlogCb, ReplicateCb, Live;
    ReplicateStep(k.a2, k.b3, k.c5, TAKEN, Client(req));
    AckStep(k.a2, k.b4, k.c5);
  }

  // ---------------------------------------------------------------- what the run shows

  /** At its end cohort 1 has committed what the attempt has left behind. */
  ghost predicate Shows(k: Cast, req: Request) {
    && k.a0.validView && k.a0.view == GROUP && TakesRequest(k.a0, req) && Succ(k.a0.latest) == TAKEN
    && TAKEN in k.a3.log && k.a3.log[TAKEN].ack.None?
    && ReplicateReply(2, 1, TAKEN) in k.b4.sent && ReplicateReply(2, 1, TAKEN) !in k.b3.sent && ActiveIn(k.b4, GROUP.vid)
    && PassesPrepare(k.c5, ATTEMPT, GROUP) && k.c5.attempt.value.newview.None?
    && Choose(k.c5.attempt.value) == Some(CHOICE) && Lt(CHOICE.latest, TAKEN)
    && !k.b0.validView && !RefusesVc(k.b0, GROUP.vid, ATTEMPT)
  }

  lemma CastShows(req: Request)
    requires req.vid == GROUP.vid
    ensures Shows(TheCast(req), req)
  {
    ShowsPrimary(req);
    ShowsLagger(req);
    ChoiceFallsShort();
    hide Primary0, Primary1, Primary2, Primary3, Lagger0, Lagger1, Lagger2, Lagger3, Lagger4, Choose, TakesRequest, PassesPrepare;
    hide Manager0, Manager1, Manager2, Manager3, Manager4, Manager5, RefusesVc;
  }

  lemma ShowsPrimary(req: Request)
    requires req.vid == GROUP.vid
    ensures Primary0().validView && Primary0().view == GROUP && TakesRequest(Primary0(), req) && Succ(Primary0().latest) == TAKEN
    ensures TAKEN in Primary3(req).log && Primary3(req).log[TAKEN].ack.None?
  {
    PrimaryTakes(req);
    PrimaryCommits(req);
    hide Primary3, TakesRequest;
  }

  lemma ShowsLagger(req: Request)
    ensures ReplicateReply(2, 1, TAKEN) in Lagger4(req).sent && ReplicateReply(2, 1, TAKEN) !in Lagger3().sent
    ensures ActiveIn(Lagger4(req), GROUP.vid) && !Lagger0().validView && !RefusesVc(Lagger0(), GROUP.vid, ATTEMPT)
  {
    LaggerAcks(req);
    LaggerInstalls();
    LaggerStores();
    LaggerAccepts();
    hide Lagger1, Lagger2, Lagger3, Lagger4, RefusesVc;
  }

  lemma PlaysRun(k: Cast, req: Request) returns (h: History)
    requires Plays(k, req)
    ensures h == History(States(k), Acts(req)) && IsRun(h)
  {
    h := History(States(k), Acts(req));
    hide Start, Step, Group;
  }

  /** Why FreshChangeKeepsCommitted asks supporters to accept the attempt while in the view. In this run
      cohort 1 takes a request as stamp 1 of its view and commits it with the acknowledgement of cohort
      2, who is active in the view then; and the attempt of cohort 3 passes its majority check with no
      reported newview. But cohort 2 promised the attempt before it had a view, and installing the view
      took that promise back. The attempt does not continue from stamp 1. */
  lemma CommittedLeftBehind(req: Request) returns (h: History)
    requires req.vid == GROUP.vid
    ensures IsRun(h) && |h.acts| == 12 && Takes(h, 6, 1, GROUP, 1) && HasCommitted(h.states[12], 1, TAKEN)
    ensures Acks(h, 10, 2, 1, TAKEN) && ActiveIn(h.states[11][2], GROUP.vid)
    ensures AcceptsVc(h, 1, 2, ATTEMPT) && !h.states[1][2].validView
    ensures 3 in h.states[6] && PassesPrepare(h.states[6][3], ATTEMPT, GROUP) && h.states[6][3].attempt.value.newview.None?
    ensures !ContinuesFrom(h, 6, 3, TAKEN)
  {
    hide Primary0, Primary1, Primary2, Primary3, Lagger0, Lagger1, Lagger2, Lagger3, Lagger4, Scripted, Supplied, Shows, Starts;
    hide Manager0, Manager1, Manager2, Manager3, Manager4, Manager5, IsRun, Start, Plays;
    var k := TheCast(req);
    CastStarts();
    CastSupplied(req);
    CastScripted(req);
    CastShows(req);
    RunStarts(k.a0, k.b0, k.c0);
    hide TheCast, Group;
    RunPlays(k, req);
    h := PlaysRun(k, req);
    RunShows(h, k, req);
    ActsAre(req);
  }

  lemma RunShows(h: History, k: Cast, req: Request)
    requires h == History(States(k), Acts(req)) && IsRun(h) && Shows(k, req)
    ensures Takes(h, 6, 1, GROUP, 1) && HasCommitted(h.states[12], 1, TAKEN)
    ensures Acks(h, 10, 2, 1, TAKEN) && ActiveIn(h.states[11][2], GROUP.vid)
    ensures AcceptsVc(h, 1, 2, ATTEMPT) && !h.states[1][2].validView
    ensures 3 in h.states[6] && PassesPrepare(h.states[6][3], ATTEMPT, GROUP) && h.states[6][3].attempt.value.newview.None?
    ensures !ContinuesFrom(h, 6, 3, TAKEN)
  {
    StatesAre(k);
    ActsAre(req);
    hide *;
    RunTakes(h, k, req);
    RunAcks(h, k, req);
    RunFallsShort(h, k, req);
  }

  lemma RunTakes(h: History, k: Cast, req: Request)
    requires IsRun(h) && Shows(k, req) && |h.states| == 13 && h.acts == Acts(req)
    requires h.states[6] == Group(k.a0, k.b1, k.c5) && h.states[12] == Group(k.a3, k.b4, k.c5)
    ensures Takes(h, 6, 1, GROUP, 1) && HasCommitted(h.states[12], 1, TAKEN)
  {
    ActsAre(req);
    hide IsRun, TakesRequest, PassesPrepare, Choose, RefusesVc, Group, Acts;
    GroupUpdates(k.a0, k.b1, k.c5, k.a0);
    GroupUpdates(k.a3, k.b4, k.c5, k.a3);
  }

  lemma RunAcks(h: History, k: Cast, req: Request)
    requires IsRun(h) && Shows(k, req) && |h.states| == 13 && h.acts == Acts(req)
    requires h.states[10] == Group(k.a2, k.b3, k.c5) && h.states[11] == Group(k.a2, k.b4, k.c5)
    requires h.states[1] == Group(k.a0, k.b0, k.c1)
    ensures Acks(h, 10, 2, 1, TAKEN) && ActiveIn(h.states[11][2], GROUP.vid)
    ensures AcceptsVc(h, 1, 2, ATTEMPT) && !h.states[1][2].validView
  {
    ActsAre(req);
    hide IsRun, TakesRequest, PassesPrepare, Choose, RefusesVc, Group, Acts;
    GroupUpdates(k.a2, k.b3, k.c5, k.a3);
    GroupUpdates(k.a2, k.b4, k.c5, k.a3);
    GroupUpdates(k.a0, k.b0, k.c1, k.a3);
  }

  lemma RunFallsShort(h: History, k: Cast, req: Request)
    requires IsRun(h) && Shows(k, req) && |h.states| == 13 && h.states[6] == Group(k.a0, k.b1, k.c5)
    ensures 3 in h.states[6] && PassesPrepare(h.states[6][3], ATTEMPT, GROUP) && h.states[6][3].attempt.value.newview.None?
    ensures !ContinuesFrom(h, 6, 3, TAKEN)
  {
    hide IsRun, TakesRequest, Choose, RefusesVc, Group, AcceptsVc;
    GroupUpdates(k.a0, k.b1, k.c5, k.a0);
  }
}
