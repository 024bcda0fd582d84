/** Every handler keeps a cohort on a linear history, as long as what it is sent comes from there. */
module HistorySteps {
  import opened Stamps
  import opened CohortSpec
  import opened CohortInvariants
  import opened Traffic
  import opened LinearHistory

  lemma FollowsGrows(s: Cohort, g: seq<Slot>, g': seq<Slot>)
    requires Follows(s, g) && g <= g'
    ensures Follows(s, g')
  {
    hide Requests;
    var n: nat :| ExecutedTo(s, g, n);
    assert forall x :: x in g ==> x in g';
    assert g'[..n] == g[..n];
    assert ExecutedTo(s, g', n);
    forall k ensures Recorded(s.log, g', k) {
      assert Recorded(s.log, g, k);
    }
  }

  ghost predicate SameRun(s: Cohort, t: Cohort) {
    && SameArgs(s.log, t.log) && t.executed == s.executed && t.submitted == s.submitted
    && t.validView == s.validView && t.view == s.view
  }

  lemma SameFollows(s: Cohort, t: Cohort, g: seq<Slot>)
    requires Follows(s, g) && SameRun(s, t)
    ensures Follows(t, g)
  {
    hide Requests;
    var n: nat :| ExecutedTo(s, g, n);
    assert ExecutedTo(t, g, n);
    SameLogIn(s.log, t.log, g);
    hide LogIn;
  }

  lemma SideFollows(s: Cohort, t: Cohort, g: seq<Slot>)
    requires Follows(s, g) && SideFrame(s, t)
    ensures Follows(t, g)
  {
    SameFollows(s, t, g);
  }

  lemma AdvanceCommittedFollows(s: Cohort, g: seq<Slot>)
    requires Linear(g) && Follows(s, g) && Inv(s)
    ensures Follows(AdvanceCommitted(s), g)
  {
    hide Follows, Linear, CommitFrom, AdvanceExecuted;
    var n := VsNext(s.jumps, s.committed);
    CommitFromFrame(s, n);
    var t := CommitFrom(s, n);
    FrameKeeps(s, t);
    SameFollows(s, t, g);
    AdvanceExecutedFollows(t, g);
  }

  lemma FetchlogCheckFollows(s: Cohort, g: seq<Slot>, i: nat)
    requires Linear(g) && Follows(s, g) && Inv(s) && i < |s.pulls|
    ensures Follows(FetchlogCheck(s, i), g)
  {
    hide Inv, Follows, Linear, AdvanceCommitted, StepBack, Settle, SideFrame;
    AdvanceCommittedFollows(s, g);
    AdvanceCommittedKeepsPulls(s);
    var s1 := AdvanceCommitted(s);
    StepBackFrame(s1, i);
    SideFollows(s1, StepBack(s1, i), g);
    SettleFrame(StepBack(s1, i), i);
    SideFollows(StepBack(s1, i), FetchlogCheck(s, i), g);
  }

  /** Logging an entry of the history. */
  lemma InsertFollows(s: Cohort, vs: Viewstamp, e: Entry, g: seq<Slot>)
    requires Follows(s, g) && WfSlot(vs, e.arg) && Slot(vs, e.arg) in g
    ensures Follows(Insert(s, vs, e), g)
  {
    hide Requests, JumpsUpdate;
    var n: nat :| ExecutedTo(s, g, n);
    var t := Insert(s, vs, e);
    assert ExecutedTo(t, g, n);
    forall k ensures Recorded(t.log, g, k) {
      assert Recorded(s.log, g, k);
    }
  }

  lemma NoteFetchedFollows(s: Cohort, g: seq<Slot>, i: nat, vs: Viewstamp, resp: Option<Arg>)
    requires Follows(s, g) && i < |s.pulls|
    requires resp.Some? ==> WfSlot(vs, resp.value) && Slot(vs, resp.value) in g
    ensures Follows(NoteFetched(s, i, vs, resp), g)
  {
    hide Follows, Insert;
    var t := NoteFetched(s, i, vs, resp);
    if vs !in s.log && resp.Some? {
      var e := Entry(resp.value, None, None, Logged);
      InsertFollows(s, vs, e, g);
      SideFollows(Insert(s, vs, e), t, g);
    } else {
      SideFollows(s, t, g);
    }
  }

  lemma FetchlogCbFollows(s: Cohort, g: seq<Slot>, i: nat, vs: Viewstamp, resp: Option<Arg>)
    requires Linear(g) && Follows(s, g) && Inv(s) && i < |s.pulls|
    requires resp.Some? ==> WfSlot(vs, resp.value) && Slot(vs, resp.value) in g
    ensures Follows(FetchlogCb(s, i, vs, resp), g)
  {
    hide Follows, Linear, Inv, NoteFetched, FetchlogCheck;
    NoteFetchedFollows(s, g, i, vs, resp);
    NoteFetchedKeeps(s, i, vs, resp);
    FetchlogCheckFollows(NoteFetched(s, i, vs, resp), g, i);
  }

  lemma PullLogFollows(s: Cohort, g: seq<Slot>, src: Mid, latest: Viewstamp, done: DoneCb)
    requires Linear(g) && Follows(s, g) && Inv(s)
    ensures Follows(PullLog(s, src, latest, done), g)
  {
    hide Follows, Linear, Inv, OpenPull, FetchlogCheck, SideFrame;
    var o := OpenPull(s, src, latest, done);
    OpenPullFrame(s, src, latest, done);
    SideFollows(s, o, g);
    SideKeeps(s, o);
    FetchlogCheckFollows(o, g, |s.pulls|);
  }

  lemma OnReplicateFollows(s: Cohort, g: seq<Slot>, src: Mid, vs: Viewstamp, arg: Arg, committed: Viewstamp)
    requires Linear(g) && Follows(s, g) && Inv(s) && WfSlot(vs, arg) && Slot(vs, arg) in g
    ensures Follows(OnReplicate(s, src, vs, arg, committed), g)
  {
    hide Follows, Linear, PullLog, Insert, AdvanceExecuted, JumpsMatch;
    if !RefusesReplicate(s, vs) {
      var e := Entry(arg, None, None, Logged);
      InsertFollows(s, vs, e, g);
      var t, u := StoreEntry(s, vs, arg), RaiseCommitted(StoreEntry(s, vs, arg), committed);
      SameFollows(t, u, g);
      StoreEntryKeeps(s, vs, arg, committed);
      hide RaiseCommitted, StoreEntry;
      AdvanceExecutedFollows(u, g);
      AdvanceExecutedKeeps(u);
      hide Inv;
      var primary := if vs.ts != 0 then s.view.primary else arg.form.view.primary;
      PullLogFollows(AdvanceExecuted(u), g, primary, vs, AckReplicate(src, vs));
    }
  }

  lemma ParkFollows(s: Cohort, g: seq<Slot>, req: Request, handle: Option<nat>)
    requires Follows(s, g)
    ensures Follows(Park(s, req, handle), g)
  {
    hide Follows;
    var t := Park(s, req, handle);
    assert t.log.Keys == s.log.Keys;
    SameFollows(s, t, g);
  }

  lemma LogRequestFollows(s: Cohort, g: seq<Slot>, handle: nat, req: Request)
    requires Follows(s, g) && Slot(Succ(s.latest), Client(req)) in g
    ensures Follows(LogRequest(s, handle, req), g)
  {
    hide Follows, Insert, PrimaryEntry;
    PrimaryEntryArg(s, handle, req);
    var vs, e := Succ(s.latest), PrimaryEntry(s, handle, req);
    InsertFollows(s, vs, e, g);
    SameFollows(Insert(s, vs, e), LogRequest(s, handle, req), g);
  }

  lemma OnExecuteFollows(s: Cohort, g: seq<Slot>, handle: nat, req: Request)
    requires Linear(g) && Follows(s, g) && Inv(s)
    requires TakesRequest(s, req) ==> Slot(Succ(s.latest), Client(req)) in g && Succ(s.latest) !in s.log
    ensures Follows(OnExecute(s, handle, req), g)
  {
    hide Follows, Linear, Inv, Park, LogRequest, AdvanceCommitted, Stale, Reply;
    var s1 := Park(s, req, None);
    ParkKeeps(s, req, None);
    ParkFollows(s, g, req, None);
    ParkFollows(s, g, req, Some(handle));
    if TakesRequest(s, req) {
      LogRequestKeeps(s1, handle, req);
      LogRequestFollows(s1, g, handle, req);
      AdvanceCommittedFollows(LogRequest(s1, handle, req), g);
    } else {
      ReplyFollows(s, g, handle, Ok(if req.client in s.cache then s.cache[req.client].reply else ""));
      ReplyFollows(s1, g, handle, Redirect(s.view.vid, s.view.primary));
    }
  }

  lemma ReplyFollows(s: Cohort, g: seq<Slot>, handle: nat, res: ExecRes)
    requires Follows(s, g)
    ensures Follows(Reply(s, handle, res), g)
  {
    hide Follows;
    SideFollows(s, Reply(s, handle, res), g);
  }

  lemma ExecuteDoneFollows(s: Cohort, g: seq<Slot>, vs: Viewstamp, reply: string)
    requires Follows(s, g) && vs in s.log && s.log[vs].arg.Client?
    ensures Follows(ExecuteDone(s, vs, reply), g)
  {
    hide Follows;
    assert ExecuteDone(s, vs, reply).log.Keys == s.log.Keys;
    SameFollows(s, ExecuteDone(s, vs, reply), g);
  }

  lemma ReplicateCbFollows(s: Cohort, g: seq<Slot>, from: Mid, vs: Viewstamp)
    requires Linear(g) && Follows(s, g) && Inv(s)
    ensures Follows(ReplicateCb(s, from, vs), g)
  {
    hide Follows, Linear, AckFrom, AdvanceCommitted, IsMember, Inv;
    var n := VsNext(s.jumps, s.committed);
    var t := AckFrom(s, from, n, vs);
    AckFromFrame(s, from, n, vs);
    FrameKeeps(s, t);
    SameFollows(s, t, g);
    SameFollows(s, s.(crashed := true), g);
    AdvanceCommittedFollows(t, g);
  }

  lemma OnNewViewFollows(s: Cohort, g: seq<Slot>, src: Mid, xid: nat, nv: NvArg)
    requires Linear(g) && Follows(s, g) && Inv(s)
    ensures Follows(OnNewView(s, src, xid, nv), g)
  {
    hide Follows, Linear, PullLog, AbortOther, RefusesNv, Inv;
    if RefusesNv(s, nv.view.vid) {
      SideFollows(s, OnNewView(s, src, xid, nv), g);
    } else {
      var u := AdoptNewView(s, nv.view);
      SideFollows(s, u, g);
      SideKeeps(s, u);
      PullLogFollows(u, g, nv.view.primary, nv.latest, AnswerNewView(src, xid, nv.view.vid));
    }
  }

  /** What the event brings into the log comes from the history. */
  ghost predicate Fed(s: Cohort, e: Event, g: seq<Slot>) {
    match e
    case Replicate(_, vs, arg, _) => Slot(vs, arg) in g
    case Fetched(_, vs, resp) => resp.Some? ==> Slot(vs, resp.value) in g
    case Execute(_, req) => TakesRequest(s, req) ==> Slot(Succ(s.latest), Client(req)) in g
    case InitView(f) => FormsView(s, f) ==> Slot(FormStamp(f), Form(f)) in g
    case _ => true
  }

  lemma HandleFollows(s: Cohort, g: seq<Slot>, e: Event)
    requires Linear(g) && Follows(s, g) && Inv(s) && EventOk(s, e) && NoDuplicateStamp(s, e) && Fed(s, e, g)
    ensures Follows(Handle(s, e), g)
  {
    hide Follows, Linear, Inv, TakesRequest, SideFrame, ManagerFrame;
    hide OnExecute, ExecuteDone, OnReplicate, ReplicateCb, FetchlogCb, OnNewView, Initiate, OnViewChange, PrepareCb, NewviewCb, OnInitView;
    match e
    case Execute(handle, req) => OnExecuteFollows(s, g, handle, req);
    case ExecDone(vs, reply) => ExecuteDoneFollows(s, g, vs, reply);
    case Replicate(src, vs, arg, committed) => OnReplicateFollows(s, g, src, vs, arg, committed);
    case Replicated(src, vs) => ReplicateCbFollows(s, g, src, vs);
    case Fetched(i, vs, resp) => FetchlogCbFollows(s, g, i, vs, resp);
    case NvRequest(src, xid, nv) => OnNewViewFollows(s, g, src, xid, nv);
    case InitView(f) => OnInitViewFollows(s, g, f);
    case Fetchlog(vs) => FetchlogFollows(s, g, vs);
    case StartAttempt(joiners) => InitiateFrame(s, joiners); SideFollows(s, Initiate(s, joiners), g);
    case VcRequest(src, xid, oldview, newvid) =>
      OnViewChangeFrame(s, src, xid, oldview, newvid);
      SideFollows(s, OnViewChange(s, src, xid, oldview, newvid), g);
    case VcAnswered(xid, src, res) =>
      PrepareCbFrame(s, xid, src, res);
      ManagerFollows(s, PrepareCb(s, xid, src, res), g);
    case NvAnswered(xid, src, acc) =>
      NewviewCbFrame(s, xid, src, acc);
      ManagerFollows(s, NewviewCb(s, xid, src, acc), g);
  }

  lemma OnInitViewFollows(s: Cohort, g: seq<Slot>, f: Formation)
    requires Linear(g) && Follows(s, g) && Inv(s) && (FormsView(s, f) ==> Slot(FormStamp(f), Form(f)) in g)
    requires FormsView(s, f) && FormStamp(f) in s.log ==> s.log[FormStamp(f)].arg == Form(f)
    ensures Follows(OnInitView(s, f), g)
  {
    hide Follows, Linear, Inv, AdvanceCommitted, Insert, SideFrame, SameRun;
    var t := OnInitView(s, f);
    if FormsView(s, f) && f.view.primary == s.self {
      var vs := FormStamp(f);
      var e := Entry(Form(f), None, None, Logged);
      InsertFollows(s, vs, e, g);
      LogFormationKeeps(s, f);
      var u := LogFormation(s, f);
      CursorRun(Insert(s, vs, e), vs);
      SameFollows(Insert(s, vs, e), u, g);
      hide LogFormation;
      AdvanceCommittedFollows(u, g);
      CursorSent(AdvanceCommitted(u), f);
      SameFollows(AdvanceCommitted(u), t, g);
    } else {
      CrashRun(s);
      SameFollows(s, s.(crashed := true), g);
    }
  }

  lemma CursorRun(s: Cohort, vs: Viewstamp)
    ensures SameRun(s, s.(latest := vs, committed := vs))
  {
  }

  lemma CursorSent(s: Cohort, f: Formation)
    ensures SameRun(s, SendFormation(s, f))
  {
  }

  lemma CrashRun(s: Cohort)
    ensures SameRun(s, s.(crashed := true))
  {
  }

  lemma FetchlogFollows(s: Cohort, g: seq<Slot>, vs: Viewstamp)
    requires Follows(s, g)
    ensures Follows(OnFetchlog(s, vs), g)
  {
    hide Follows;
    SideFollows(s, OnFetchlog(s, vs), g);
  }

  lemma ManagerFollows(s: Cohort, t: Cohort, g: seq<Slot>)
    requires Follows(s, g) && ManagerFrame(s, t)
    ensures Follows(t, g)
  {
    hide Follows;
    SideFollows(s, t, g);
  }
}
