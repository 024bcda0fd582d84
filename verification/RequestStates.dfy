/**
 * How handlers treat the client entries in the log: their execution state, the client call waiting
 * for each, and the reply cache. Only EXECUTE and the completion of an execution touch these.
 */
module RequestStates {
  import opened Stamps
  import opened CohortSpec
  import opened CohortInvariants
  import opened Traffic

  /** The request has been handed to the state machine and not been answered yet. */
  ghost predicate Running(s: Cohort, sub: Submission) {
    && sub.vs in s.log && s.log[sub.vs].arg == Client(sub.req) && s.log[sub.vs].state == Executing
  }

  /** Client entries beyond the executed stamp have not been executed. */
  ghost predicate Unexecuted(s: Cohort) {
    forall k :: k in s.log && s.log[k].arg.Client? && Lt(s.executed, k) ==> s.log[k].state.Logged? || s.log[k].state.Committed?
  }

  /** No client entry becomes executed. */
  ghost predicate NoneFinishes(l: Log, m: Log) {
    forall k :: k in m && m[k].arg.Client? && m[k].state.Executed? ==> k in l && l[k].state.Executed?
  }

  lemma NoneFinishesTrans(l: Log, m: Log, n: Log)
    requires NoneFinishes(l, m) && NoneFinishes(m, n) && LogGrows(m, n)
    ensures NoneFinishes(l, n)
  {
  }

  /** The step hands further requests to the state machine and does not disturb those it has. */
  ghost predicate Submits(s: Cohort, t: Cohort) {
    && LogGrows(s.log, t.log) && Le(s.executed, t.executed) && s.submitted <= t.submitted
    && (forall k :: k in s.log && s.log[k].arg.Client? && Le(k, s.executed) ==> t.log[k].state == s.log[k].state)
    && NoneFinishes(s.log, t.log)
    && (forall i :: |s.submitted| <= i < |t.submitted| ==>
          && Lt(s.executed, t.submitted[i].vs) && Le(t.submitted[i].vs, t.executed)
          && Running(t, t.submitted[i]))
    && (Unexecuted(s) ==> Unexecuted(t))
  }

  /** Besides, it leaves the waiting clients and the cache alone and answers no client. */
  ghost predicate Work(s: Cohort, t: Cohort) {
    && Submits(s, t) && t.cache == s.cache
    && (forall k :: k in s.log && s.log[k].arg.Client? ==> t.log[k].sbp == s.log[k].sbp)
    && (forall k :: k in t.log && k !in s.log && t.log[k].arg.Client? ==> t.log[k].sbp == None)
    && (forall m :: m in t.sent && m !in s.sent ==> !m.ClientReply?)
  }

  lemma SubmitsTrans(s: Cohort, t: Cohort, u: Cohort)
    requires Submits(s, t) && Submits(t, u)
    ensures Submits(s, u)
  {
    hide Unexecuted, LogGrows, NoneFinishes;
    NoneFinishesTrans(s.log, t.log, u.log);
    assert LogGrows(s.log, u.log) by { LogGrowsTrans(s.log, t.log, u.log); }
    assert forall k :: k in s.log ==> k in t.log && t.log[k].arg == s.log[k].arg by { LogGrowsMeans(s.log, t.log); }
    forall i | |s.submitted| <= i < |u.submitted|
      ensures Lt(s.executed, u.submitted[i].vs) && Le(u.submitted[i].vs, u.executed) && Running(u, u.submitted[i])
    {
      if i < |t.submitted| {
        assert u.submitted[i] == t.submitted[i];
        RunningStays(t, u, t.submitted[i]);
      }
    }
  }

  /** What has been handed to the state machine keeps running. */
  lemma RunningStays(s: Cohort, t: Cohort, sub: Submission)
    requires Submits(s, t) && Running(s, sub) && Le(sub.vs, s.executed)
    ensures Running(t, sub)
  {
    hide Unexecuted;
  }

  lemma WorkTrans(s: Cohort, t: Cohort, u: Cohort)
    requires Work(s, t) && Work(t, u)
    ensures Work(s, u)
  {
    SubmitsTrans(s, t, u);
    assert forall k :: k in s.log ==> k in t.log && t.log[k].arg == s.log[k].arg by { LogGrowsMeans(s.log, t.log); }
    assert forall k :: k in t.log ==> k in u.log && u.log[k].arg == t.log[k].arg by { LogGrowsMeans(t.log, u.log); }
    hide Submits;
  }

  lemma WorkSubmits(s: Cohort, t: Cohort)
    requires Work(s, t)
    ensures Submits(s, t)
  {
  }

  lemma LogGrowsTrans(l: Log, m: Log, n: Log)
    requires LogGrows(l, m) && LogGrows(m, n)
    ensures LogGrows(l, n)
  {
  }

  lemma LogGrowsMeans(l: Log, m: Log)
    requires LogGrows(l, m)
    ensures forall k :: k in l ==> k in m && m[k].arg == l[k].arg
  {
  }

  lemma WorkRefl(s: Cohort)
    ensures Work(s, s)
  {
  }

  /** Bookkeeping elsewhere. */
  lemma SideWork(s: Cohort, t: Cohort)
    requires SideFrame(s, t) && forall m :: m in t.sent && m !in s.sent ==> !m.ClientReply?
    ensures Work(s, t)
  {
  }

  lemma InsertWork(s: Cohort, vs: Viewstamp, arg: Arg)
    requires WfSlot(vs, arg) && (vs in s.log ==> arg.Form? && s.log[vs].arg == arg)
    ensures Work(s, Insert(s, vs, Entry(arg, None, None, Logged)))
  {
    InsertSubmits(s, vs, Entry(arg, None, None, Logged));
    hide JumpsUpdate, Submits;
  }

  lemma InsertSubmits(s: Cohort, vs: Viewstamp, e: Entry)
    requires WfSlot(vs, e.arg) && (vs in s.log ==> e.arg.Form? && s.log[vs].arg == e.arg) && e.state == Logged
    ensures Submits(s, Insert(s, vs, e))
  {
    hide JumpsUpdate;
    var t := Insert(s, vs, e);
    assert LogGrows(s.log, t.log) && NoneFinishes(s.log, t.log);
    assert Unexecuted(s) ==> Unexecuted(t);
    hide LogGrows, NoneFinishes, Unexecuted;
  }

  // ---------------------------------------------------------------- the loops

  lemma ExecRequestWork(s: Cohort, vs: Viewstamp)
    requires vs in s.log && s.log[vs].arg.Client? && Lt(s.executed, vs)
    ensures Work(s, ExecRequest(s, vs))
  {
    var t := ExecRequest(s, vs);
    assert t.log.Keys == s.log.Keys;
  }

  lemma ExecFormWork(s: Cohort, vs: Viewstamp)
    requires vs in s.log && s.log[vs].arg.Form? && Lt(s.executed, vs)
    ensures Work(s, ExecForm(s, vs))
  {
    hide Aborted;
    var t := ExecForm(s, vs);
    assert t.log.Keys == s.log.Keys;
  }

  lemma {:induction false} ExecFromWork(s: Cohort, vs: Viewstamp)
    requires Lt(s.executed, vs)
    ensures Work(s, ExecFrom(s, vs))
    decreases Above(s.log.Keys, vs)
  {
    hide Work;
    if Le(vs, s.committed) && vs in s.log {
      var s1, n := ExecOne(s, vs), VsNext(s.jumps, vs);
      if s.log[vs].arg.Client? {
        ExecRequestWork(s, vs);
        ExecRequestFrame(s, vs);
      } else {
        ExecFormWork(s, vs);
        ExecFormFrame(s, vs);
      }
      assert s1.executed == vs;
      hide ExecOne, ExecRequest, ExecForm;
      AboveDrops(s.log.Keys, vs, n);
      ExecFromWork(s1, n);
      WorkTrans(s, s1, ExecFrom(s1, n));
    } else {
      WorkRefl(s);
    }
  }

  lemma AdvanceExecutedWork(s: Cohort)
    ensures Work(s, AdvanceExecuted(s))
  {
    ExecFromWork(s, VsNext(s.jumps, s.executed));
  }

  lemma CommitOneWork(s: Cohort, vs: Viewstamp)
    requires vs in s.log && Lt(s.committed, vs) && Le(s.executed, s.committed)
    ensures Work(s, CommitOne(s, vs))
  {
    assert CommitOne(s, vs).log.Keys == s.log.Keys;
  }

  lemma {:induction false} CommitFromWork(s: Cohort, vs: Viewstamp)
    requires Lt(s.committed, vs) && Le(s.executed, s.committed)
    ensures Work(s, CommitFrom(s, vs))
    decreases Above(s.log.Keys, vs)
  {
    WorkRefl(s);
    SideWork(s, s.(crashed := true));
    hide Work;
    if Le(vs, s.latest) && vs in s.log && s.log[vs].ack.Some?
       && Quorum.Majority(s.log[vs].ack.value.received, s.log[vs].ack.value.expected) {
      var s1, n := CommitOne(s, vs), VsNext(s.jumps, vs);
      CommitOneWork(s, vs);
      CommitFromStep(s, vs);
      AboveDrops(s.log.Keys, vs, n);
      assert s1.log.Keys == s.log.Keys;
      CommitFromWork(s1, n);
      WorkTrans(s, s1, CommitFrom(s1, n));
    }
  }

  lemma AdvanceCommittedWork(s: Cohort)
    requires Inv(s)
    ensures Work(s, AdvanceCommitted(s))
  {
    var n := VsNext(s.jumps, s.committed);
    CommitFromWork(s, n);
    AdvanceExecutedWork(CommitFrom(s, n));
    hide Work, Inv, CommitFrom, AdvanceExecuted;
    WorkTrans(s, CommitFrom(s, n), AdvanceCommitted(s));
  }

  lemma AckOneWork(s: Cohort, from: Mid, vs: Viewstamp)
    requires vs in s.log
    ensures Work(s, AckOne(s, from, vs))
  {
    var e := AckOne(s, from, vs).log[vs];
    assert e.arg == s.log[vs].arg && e.sbp == s.log[vs].sbp && e.state == s.log[vs].state;
    assert AckOne(s, from, vs) == s.(log := s.log[vs := e]);
    hide AckOne;
    SameEntryWork(s, vs, e);
  }

  /** Changing nothing but the acknowledgement set of one entry. */
  lemma SameEntryWork(s: Cohort, vs: Viewstamp, e: Entry)
    requires vs in s.log && e.arg == s.log[vs].arg && e.sbp == s.log[vs].sbp && e.state == s.log[vs].state
    ensures Work(s, s.(log := s.log[vs := e]))
  {
    SameEntrySubmits(s, vs, e);
    hide Submits;
  }

  lemma SameEntrySubmits(s: Cohort, vs: Viewstamp, e: Entry)
    requires vs in s.log && e.arg == s.log[vs].arg && e.state == s.log[vs].state
    ensures Submits(s, s.(log := s.log[vs := e]))
  {
    var t := s.(log := s.log[vs := e]);
    assert LogGrows(s.log, t.log) && NoneFinishes(s.log, t.log);
    assert Unexecuted(s) ==> Unexecuted(t);
    hide LogGrows, NoneFinishes, Unexecuted;
  }

  lemma {:induction false} AckFromWork(s: Cohort, from: Mid, vs: Viewstamp, upto: Viewstamp)
    ensures Work(s, AckFrom(s, from, vs, upto))
    decreases Above(s.log.Keys, vs)
  {
    WorkRefl(s);
    SideWork(s, s.(crashed := true));
    hide Work;
    if Le(vs, upto) && vs in s.log {
      var s1, n := AckOne(s, from, vs), VsNext(s.jumps, vs);
      AckOneWork(s, from, vs);
      assert s1.log.Keys == s.log.Keys;
      AboveDrops(s.log.Keys, vs, n);
      AckFromWork(s1, from, n, upto);
      WorkTrans(s, s1, AckFrom(s1, from, n, upto));
    }
  }

  // ---------------------------------------------------------------- handlers

  lemma ReplicateCbWork(s: Cohort, from: Mid, vs: Viewstamp)
    requires Inv(s)
    ensures Work(s, ReplicateCb(s, from, vs))
  {
    WorkRefl(s);
    SideWork(s, s.(crashed := true));
    hide Work, Inv, AckFrom, AdvanceCommitted, IsMember;
    var n := VsNext(s.jumps, s.committed);
    var t := AckFrom(s, from, n, vs);
    AckFromWork(s, from, n, vs);
    AckFromFrame(s, from, n, vs);
    FrameKeeps(s, t);
    AdvanceCommittedWork(t);
    WorkTrans(s, t, AdvanceCommitted(t));
  }

  lemma FetchlogCheckWork(s: Cohort, i: nat)
    requires Inv(s) && i < |s.pulls|
    ensures Work(s, FetchlogCheck(s, i))
  {
    hide Work, Inv, AdvanceCommitted, StepBack, Settle, SideFrame;
    var s1 := AdvanceCommitted(s);
    AdvanceCommittedWork(s);
    AdvanceCommittedKeepsPulls(s);
    var s2 := StepBack(s1, i);
    StepBackFrame(s1, i);
    StepBackAnswers(s1, i);
    SideWork(s1, s2);
    SettleFrame(s2, i);
    SettleSays(s2, i);
    SideWork(s2, Settle(s2, i));
    WorkTrans(s, s1, s2);
    WorkTrans(s, s2, Settle(s2, i));
  }

  lemma SettleSays(s: Cohort, i: nat)
    requires i < |s.pulls|
    ensures forall m :: m in Settle(s, i).sent && m !in s.sent ==> !m.ClientReply?
  {
  }

  lemma NoteFetchedWork(s: Cohort, i: nat, vs: Viewstamp, resp: Option<Arg>)
    requires i < |s.pulls| && (resp.Some? ==> WfSlot(vs, resp.value))
    ensures Work(s, NoteFetched(s, i, vs, resp))
  {
    hide Work, Insert;
    var t := NoteFetched(s, i, vs, resp);
    if vs !in s.log && resp.Some? {
      var u := Insert(s, vs, Entry(resp.value, None, None, Logged));
      InsertWork(s, vs, resp.value);
      SideWork(u, t);
      WorkTrans(s, u, t);
    } else {
      SideWork(s, t);
    }
  }

  lemma FetchlogCbWork(s: Cohort, i: nat, vs: Viewstamp, resp: Option<Arg>)
    requires Inv(s) && i < |s.pulls| && (resp.Some? ==> WfSlot(vs, resp.value))
    ensures Work(s, FetchlogCb(s, i, vs, resp))
  {
    hide Work, Inv, NoteFetched, FetchlogCheck;
    var t := NoteFetched(s, i, vs, resp);
    NoteFetchedWork(s, i, vs, resp);
    NoteFetchedKeeps(s, i, vs, resp);
    FetchlogCheckWork(t, i);
    WorkTrans(s, t, FetchlogCheck(t, i));
  }

  lemma PullLogWork(s: Cohort, src: Mid, latest: Viewstamp, done: DoneCb)
    requires Inv(s)
    ensures Work(s, PullLog(s, src, latest, done))
  {
    hide Work, Inv, OpenPull, FetchlogCheck, SideFrame;
    var o, i := OpenPull(s, src, latest, done), |s.pulls|;
    OpenPullFrame(s, src, latest, done);
    OpenPullDone(s, src, latest, done);
    SideWork(s, o);
    SideKeeps(s, o);
    FetchlogCheckWork(o, i);
    WorkTrans(s, o, FetchlogCheck(o, i));
  }

  lemma OnReplicateWork(s: Cohort, src: Mid, vs: Viewstamp, arg: Arg, committed: Viewstamp)
    requires Inv(s) && WfSlot(vs, arg)
    ensures Work(s, OnReplicate(s, src, vs, arg, committed))
  {
    WorkRefl(s);
    hide Work, Inv, PullLog, Insert, AdvanceExecuted;
    if !RefusesReplicate(s, vs) {
      var t, u := StoreEntry(s, vs, arg), RaiseCommitted(StoreEntry(s, vs, arg), committed);
      if vs !in s.log { InsertWork(s, vs, arg); }
      StoreEntryKeeps(s, vs, arg, committed);
      RaiseWork(t, committed);
      hide RaiseCommitted, StoreEntry;
      WorkTrans(s, t, u);
      AdvanceExecutedWork(u);
      AdvanceExecutedKeeps(u);
      var w := AdvanceExecuted(u);
      WorkTrans(s, u, w);
      var primary := if vs.ts != 0 then s.view.primary else arg.form.view.primary;
      PullLogWork(w, primary, vs, AckReplicate(src, vs));
      WorkTrans(s, w, PullLog(w, primary, vs, AckReplicate(src, vs)));
    }
  }

  lemma RaiseWork(s: Cohort, committed: Viewstamp)
    ensures Work(s, RaiseCommitted(s, committed))
  {
  }

  lemma OnNewViewWork(s: Cohort, src: Mid, xid: nat, nv: NvArg)
    requires Inv(s)
    ensures Work(s, OnNewView(s, src, xid, nv))
  {
    hide Work, Inv, PullLog, RefusesNv, AbortOther;
    if RefusesNv(s, nv.view.vid) {
      SideWork(s, OnNewView(s, src, xid, nv));
    } else {
      var u := AdoptNewView(s, nv.view);
      SideWork(s, u);
      SideKeeps(s, u);
      var d := AnswerNewView(src, xid, nv.view.vid);
      PullLogWork(u, nv.view.primary, nv.latest, d);
      WorkTrans(s, u, PullLog(u, nv.view.primary, nv.latest, d));
    }
  }

  lemma CursorWork(s: Cohort, vs: Viewstamp)
    ensures Work(s, s.(latest := vs, committed := vs))
  {
  }

  lemma FormViewWork(s: Cohort, f: Formation)
    requires Inv(s) && FormsView(s, f)
    requires FormStamp(f) in s.log ==> s.log[FormStamp(f)].arg == Form(f)
    ensures Work(s, FormView(s, f))
  {
    hide Work, Inv, AdvanceCommitted, Insert;
    if f.view.primary != s.self {
      SideWork(s, s.(crashed := true));
      return;
    }
    var vs := FormStamp(f);
    var s1 := Insert(s, vs, Entry(Form(f), None, None, Logged));
    InsertWork(s, vs, Form(f));
    CursorWork(s1, vs);
    var s2 := LogFormation(s, f);
    WorkTrans(s, s1, s2);
    LogFormationKeeps(s, f);
    hide LogFormation;
    AdvanceCommittedWork(s2);
    var s3 := AdvanceCommitted(s2);
    WorkTrans(s, s2, s3);
    SideWork(s3, FormView(s, f));
    WorkTrans(s, s3, FormView(s, f));
  }

  lemma ManagerWork(s: Cohort, t: Cohort)
    requires ManagerFrame(s, t) && forall m :: m in t.sent && m !in s.sent ==> !m.ClientReply?
    ensures Work(s, t)
  {
    hide Work;
    SideWork(s, t);
  }

  lemma FetchlogWork(s: Cohort, vs: Viewstamp)
    ensures Work(s, OnFetchlog(s, vs))
  {
    hide Work;
    SideWork(s, OnFetchlog(s, vs));
  }

  /** Every handler but EXECUTE and the completion of an execution. */
  lemma HandleWork(s: Cohort, e: Event)
    requires Inv(s) && EventOk(s, e) && NoDuplicateStamp(s, e) && !e.Execute? && !e.ExecDone?
    ensures Work(s, Handle(s, e))
  {
    WorkRefl(s);
    hide Work, Inv, SideFrame, ManagerFrame;
    hide OnReplicate, ReplicateCb, FetchlogCb, OnNewView, FormView, Initiate, OnViewChange, PrepareCb, NewviewCb, OnFetchlog;
    match e
    case Replicate(src, vs, arg, committed) => OnReplicateWork(s, src, vs, arg, committed);
    case Replicated(src, vs) => ReplicateCbWork(s, src, vs);
    case Fetchlog(vs) => FetchlogWork(s, vs);
    case Fetched(i, vs, resp) => FetchlogCbWork(s, i, vs, resp);
    case StartAttempt(joiners) => InitiateFrame(s, joiners); InitiateSays(s, joiners); SideWork(s, Initiate(s, joiners));
    case VcRequest(src, xid, oldview, newvid) =>
      OnViewChangeFrame(s, src, xid, oldview, newvid);
      OnViewChangeSays(s, src, xid, oldview, newvid);
      SideWork(s, OnViewChange(s, src, xid, oldview, newvid));
    case VcAnswered(xid, src, res) =>
      PrepareCbFrame(s, xid, src, res);
      VcAnsweredSays(s, xid, src, res);
      ManagerWork(s, PrepareCb(s, xid, src, res));
    case NvRequest(src, xid, nv) => OnNewViewWork(s, src, xid, nv);
    case NvAnswered(xid, src, acc) =>
      NewviewCbFrame(s, xid, src, acc);
      NewviewCbSays(s, xid, src, acc);
      ManagerWork(s, NewviewCb(s, xid, src, acc));
    case InitView(f) => if FormsView(s, f) { FormViewWork(s, f); }
  }

  // ---------------------------------------------------------------- EXECUTE and completion

  lemma ParkSubmits(s: Cohort, req: Request, handle: Option<nat>)
    ensures Submits(s, Park(s, req, handle))
  {
    WorkRefl(s);
    var hit := Cached(s, req.client, req.rid);
    if hit.Some? { SameEntrySubmits(s, s.cache[req.client].rle, hit.value.(sbp := handle)); }
    hide Submits;
  }

  lemma LogRequestSubmits(s: Cohort, handle: nat, req: Request)
    requires Succ(s.latest) !in s.log
    ensures Submits(s, LogRequest(s, handle, req))
  {
    hide Insert;
    var vs, e, t := Succ(s.latest), PrimaryEntry(s, handle, req), LogRequest(s, handle, req);
    InsertSubmits(s, vs, e);
    var u := Insert(s, vs, e);
    assert t.log == u.log && t.executed == u.executed && t.submitted == u.submitted;
    hide LogRequest, LogGrows, NoneFinishes;
  }

  lemma ReplySubmits(s: Cohort, handle: nat, res: ExecRes)
    ensures Submits(s, Reply(s, handle, res))
  {
  }

  lemma OnExecuteSubmits(s: Cohort, handle: nat, req: Request)
    requires Inv(s) && (TakesRequest(s, req) ==> Succ(s.latest) !in s.log)
    ensures Submits(s, OnExecute(s, handle, req))
  {
    WorkRefl(s);
    hide Submits, Inv, Park, LogRequest, AdvanceCommitted, Stale, Reply;
    var s1 := Park(s, req, None);
    ParkKeeps(s, req, None);
    ParkSubmits(s, req, None);
    ParkSubmits(s, req, Some(handle));
    ReplySubmits(s, handle, Ok(if req.client in s.cache then s.cache[req.client].reply else ""));
    ReplySubmits(s1, handle, Redirect(s.view.vid, s.view.primary));
    if TakesRequest(s, req) {
      var s2 := LogRequest(s1, handle, req);
      LogRequestSubmits(s1, handle, req);
      LogRequestKeeps(s1, handle, req);
      AdvanceCommittedWork(s2);
      WorkSubmits(s2, AdvanceCommitted(s2));
      hide Work;
      SubmitsTrans(s, s1, s2);
      SubmitsTrans(s, s2, AdvanceCommitted(s2));
    } else if OnExecute(s, handle, req) == Reply(s1, handle, Redirect(s.view.vid, s.view.primary)) {
      SubmitsTrans(s, s1, Reply(s1, handle, Redirect(s.view.vid, s.view.primary)));
    }
  }

  /** Every handler but the completion of an execution. */
  lemma HandleSubmits(s: Cohort, e: Event)
    requires Inv(s) && EventOk(s, e) && NoDuplicateStamp(s, e) && !e.ExecDone?
    ensures Submits(s, Handle(s, e))
  {
    hide Submits, Inv, TakesRequest, OnExecute, Work;
    if e.Execute? {
      OnExecuteSubmits(s, e.handle, e.req);
    } else {
      hide Handle;
      HandleWork(s, e);
      WorkSubmits(s, Handle(s, e));
    }
  }
}
