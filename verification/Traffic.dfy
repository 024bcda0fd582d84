/** Where every message a cohort sends comes from, and which promises a handler can break. */
module Traffic {
  import opened Stamps
  import opened CohortSpec
  import opened CohortInvariants
  import opened LogPull
  import Quorum

  ghost predicate AllOk(s: Cohort) {
    Inv(s) && PullsOk(s) && ReceivedLogged(s)
  }

  // ---------------------------------------------------------------- the advancing loops are silent

  ghost predicate Silent(s: Cohort, t: Cohort) {
    t.sent == s.sent && t.pulls == s.pulls && t.self == s.self && t.jumps == s.jumps
  }

  lemma AdvanceExecutedSilent(s: Cohort)
    ensures Silent(s, AdvanceExecuted(s)) && SameArgs(s.log, AdvanceExecuted(s).log)
  {
    ExecFromFrame(s, VsNext(s.jumps, s.executed));
  }

  lemma AdvanceCommittedSilent(s: Cohort)
    ensures Silent(s, AdvanceCommitted(s)) && SameArgs(s.log, AdvanceCommitted(s).log)
  {
    var n := VsNext(s.jumps, s.committed);
    CommitFromFrame(s, n);
    AdvanceExecutedSilent(CommitFrom(s, n));
  }

  // ---------------------------------------------------------------- promises

  /** Without installing a view, `proposedVid` only rises, the cohort does not become active, and an
      accepted view is only replaced by one that respects the promise made so far. */
  ghost predicate PromiseKept(s: Cohort, t: Cohort) {
    && VidLe(s.proposedVid, t.proposedVid)
    && (t.mode == Active ==> s.mode == Active)
    && (t.acceptedView == s.acceptedView
        || (t.acceptedView.Some? && VidLe(s.proposedVid, t.acceptedView.value.vid)))
  }

  /** Either a formation was executed, which moves `executed` to a later view, or promises hold. */
  ghost predicate Promise(s: Cohort, t: Cohort) {
    VidLt(s.executed.vid, t.executed.vid) || (t.executed.vid == s.executed.vid && PromiseKept(s, t))
  }

  /** The attempt keeps its identity and what it has been told; other parts of it may change. */
  ghost predicate SameAttempt(a: Option<Attempt>, b: Option<Attempt>) {
    && a.Some? == b.Some?
    && (a.Some? ==>
          && b.value.xid == a.value.xid && b.value.proposedVid == a.value.proposedVid
          && b.value.nvAccepted == a.value.nvAccepted && b.value.prepareAccepted == a.value.prepareAccepted
          && b.value.accepts == a.value.accepts && b.value.newview == a.value.newview
          && b.value.prepareDone == a.value.prepareDone && b.value.nvDone == a.value.nvDone)
  }

  /** Executing formations leaves the promise at the last one's view; nothing else moves it. */
  ghost predicate PromiseMoves(s: Cohort, t: Cohort) {
    t.proposedVid == if VidLt(s.executed.vid, t.executed.vid) then t.executed.vid else s.proposedVid
  }

  /** The attempt is as it was, or aborted. */
  ghost predicate OnlyAborts(a: Option<Attempt>, b: Option<Attempt>) {
    && a.Some? == b.Some?
    && (a.Some? ==> b.value == a.value.(aborted := b.value.aborted) && (a.value.aborted ==> b.value.aborted))
  }

  /** A cohort that installs a view gives up its attempt to leave the one before. */
  ghost predicate Stands(s: Cohort, t: Cohort) {
    && OnlyAborts(s.attempt, t.attempt) && t.nextXid == s.nextXid
    && ((t.view == s.view && t.validView == s.validView) || (t.attempt.Some? ==> t.attempt.value.aborted))
  }

  /** A cohort that executes formations serves in the last one's view: it is active and has forgotten any
      view it had accepted. Otherwise it goes on as it was. */
  ghost predicate Serves(s: Cohort, t: Cohort) {
    if VidLt(s.executed.vid, t.executed.vid) then t.mode == Active && t.acceptedView == None && t.validView
    else t.mode == s.mode && t.acceptedView == s.acceptedView && t.validView == s.validView
  }

  ghost predicate Steady(s: Cohort, t: Cohort) {
    Promise(s, t) && Stands(s, t) && PromiseMoves(s, t) && Serves(s, t)
  }

  lemma SteadyTrans(s: Cohort, t: Cohort, u: Cohort)
    requires Steady(s, t) && Steady(t, u)
    ensures Steady(s, u)
  {
  }

  lemma {:induction false} ExecFromSteady(s: Cohort, vs: Viewstamp)
    requires Inv(s) && vs == VsNext(s.jumps, s.executed)
    ensures Steady(s, ExecFrom(s, vs))
    decreases Above(s.log.Keys, vs)
  {
    hide Inv;
    if Le(vs, s.committed) && vs in s.log {
      var s1, n := ExecOne(s, vs), VsNext(s.jumps, vs);
      NextIsSuccOrForm(s) by { assert JumpsMatch(s.log, s.jumps) by { InvJumps(s); } }
      if s.log[vs].arg.Client? {
        ExecRequestKeeps(s, vs);
        ExecRequestFrame(s, vs);
      } else {
        ExecFormKeeps(s, vs);
        ExecFormFrame(s, vs);
      }
      assert Steady(s, s1);
      hide ExecOne, ExecRequest, ExecForm;
      AboveDrops(s.log.Keys, vs, n);
      ExecFromSteady(s1, n);
      SteadyTrans(s, s1, ExecFrom(s1, n));
    }
  }

  lemma InvJumps(s: Cohort)
    requires Inv(s)
    ensures JumpsMatch(s.log, s.jumps)
  {
  }

  lemma AdvanceExecutedSteady(s: Cohort)
    requires Inv(s)
    ensures Steady(s, AdvanceExecuted(s))
  {
    ExecFromSteady(s, VsNext(s.jumps, s.executed));
  }

  lemma AdvanceCommittedSteady(s: Cohort)
    requires Inv(s)
    ensures Steady(s, AdvanceCommitted(s))
  {
    hide Inv, CommitFrom, AdvanceExecuted;
    var n := VsNext(s.jumps, s.committed);
    CommitFromFrame(s, n);
    FrameKeeps(s, CommitFrom(s, n));
    AdvanceExecutedSteady(CommitFrom(s, n));
  }

  /** Bookkeeping that touches neither promises nor the executed stamp. */
  ghost predicate Same(s: Cohort, t: Cohort) {
    && t.mode == s.mode && t.proposedVid == s.proposedVid && t.acceptedView == s.acceptedView
    && t.executed == s.executed && t.attempt == s.attempt
    && t.view == s.view && t.validView == s.validView && t.nextXid == s.nextXid
  }

  lemma SameSteady(s: Cohort, t: Cohort, u: Cohort)
    requires Same(s, t) && Steady(t, u)
    ensures Steady(s, u)
  {
  }

  lemma StepBackSame(s: Cohort, i: nat)
    requires i < |s.pulls|
    ensures Same(s, StepBack(s, i))
  {
  }

  lemma SettleSame(s: Cohort, i: nat)
    requires i < |s.pulls|
    ensures Same(s, Settle(s, i))
  {
  }

  lemma FetchlogCheckSteady(s: Cohort, i: nat)
    requires Inv(s) && i < |s.pulls|
    ensures Steady(s, FetchlogCheck(s, i))
  {
    hide Inv, AdvanceCommitted, StepBack, Settle;
    AdvanceCommittedSteady(s);
    AdvanceCommittedKeepsPulls(s);
    var s1 := AdvanceCommitted(s);
    StepBackSame(s1, i);
    StepBackFrame(s1, i);
    SettleSame(StepBack(s1, i), i);
  }

  lemma PullLogSteady(s: Cohort, src: Mid, latest: Viewstamp, done: DoneCb)
    requires Inv(s)
    ensures Steady(s, PullLog(s, src, latest, done))
  {
    hide Inv, FetchlogCheck, Missing;
    var t := OpenPull(s, src, latest, done);
    OpenPullFrame(s, src, latest, done);
    SideKeeps(s, t);
    FetchlogCheckSteady(t, |s.pulls|);
    SameSteady(s, t, FetchlogCheck(t, |s.pulls|));
  }

  lemma OnReplicateSteady(s: Cohort, src: Mid, vs: Viewstamp, arg: Arg, committed: Viewstamp)
    requires Inv(s) && WfSlot(vs, arg)
    ensures Steady(s, OnReplicate(s, src, vs, arg, committed))
  {
    hide Inv, PullLog, AdvanceExecuted, JumpsUpdate;
    if !RefusesReplicate(s, vs) {
      var t := RaiseCommitted(StoreEntry(s, vs, arg), committed);
      StoreEntryKeeps(s, vs, arg, committed);
      AdvanceExecutedSteady(t);
      assert Same(s, t);
      hide RaiseCommitted, StoreEntry;
      AdvanceExecutedKeeps(t);
      var u := AdvanceExecuted(t);
      var primary := if vs.ts != 0 then s.view.primary else arg.form.view.primary;
      PullLogSteady(u, primary, vs, AckReplicate(src, vs));
      SameSteady(s, t, u);
      SteadyTrans(s, u, PullLog(u, primary, vs, AckReplicate(src, vs)));
    }
  }

  lemma FetchlogCbSteady(s: Cohort, i: nat, vs: Viewstamp, resp: Option<Arg>)
    requires Inv(s) && i < |s.pulls| && (resp.Some? ==> WfSlot(vs, resp.value))
    ensures Steady(s, FetchlogCb(s, i, vs, resp))
  {
    hide Inv, FetchlogCheck, JumpsUpdate;
    var t := NoteFetched(s, i, vs, resp);
    NoteFetchedKeeps(s, i, vs, resp);
    FetchlogCheckSteady(t, i);
    SameSteady(s, t, FetchlogCheck(t, i));
  }

  lemma LogRequestSame(s: Cohort, handle: nat, req: Request)
    ensures Same(s, LogRequest(Park(s, req, None), handle, req))
  {
    hide JumpsUpdate, PrimaryEntry;
  }

  lemma NotTakenSame(s: Cohort, handle: nat, req: Request)
    requires !TakesRequest(s, req)
    ensures Same(s, OnExecute(s, handle, req))
  {
    hide AdvanceCommitted, Stale, LogRequest;
  }

  lemma OnExecuteSteady(s: Cohort, handle: nat, req: Request)
    requires Inv(s) && (TakesRequest(s, req) ==> Succ(s.latest) !in s.log)
    ensures Steady(s, OnExecute(s, handle, req))
  {
    hide Inv, AdvanceCommitted, Stale, LogRequest, Park, Same;
    if TakesRequest(s, req) {
      var s1 := Park(s, req, None);
      ParkKeeps(s, req, None);
      var s2 := LogRequest(s1, handle, req);
      LogRequestKeeps(s1, handle, req);
      AdvanceCommittedSteady(s2);
      LogRequestSame(s, handle, req);
      SameSteady(s, s2, AdvanceCommitted(s2));
    } else {
      NotTakenSame(s, handle, req);
      SameIsPromise(s, OnExecute(s, handle, req));
    }
  }

  lemma FrameSame(s: Cohort, t: Cohort)
    requires CommitFrame(s, t)
    ensures Same(s, t)
  {
    hide SameEntries;
  }

  lemma ReplicateCbSteady(s: Cohort, from: Mid, vs: Viewstamp)
    requires Inv(s)
    ensures Steady(s, ReplicateCb(s, from, vs))
  {
    hide Inv, AckFrom, AdvanceCommitted, IsMember, Steady, CommitFrame;
    var n := VsNext(s.jumps, s.committed);
    var t := AckFrom(s, from, n, vs);
    AckFromFrame(s, from, n, vs);
    FrameKeeps(s, t);
    AdvanceCommittedSteady(t);
    FrameSame(s, t);
    SameSteady(s, t, AdvanceCommitted(t));
    SameIsPromise(s, s);
    SameIsPromise(s, s.(crashed := true));
  }

  lemma AbortOtherSame(a: Option<Attempt>, vid: Viewid)
    ensures OnlyAborts(a, AbortOther(a, vid))
  {
  }

  /** From adopting a new view in s to u, and on to t. */
  lemma AdoptSteady(s: Cohort, u: Cohort, t: Cohort, v: View)
    requires u.executed == s.executed && u.proposedVid == s.proposedVid && u.view == s.view && u.validView == s.validView
    requires u.nextXid == s.nextXid && OnlyAborts(s.attempt, u.attempt) && u.mode == ViewChange && u.acceptedView == Some(v)
    requires VidLe(s.proposedVid, v.vid) && Steady(u, t)
    ensures Promise(s, t) && Stands(s, t) && PromiseMoves(s, t)
    ensures if VidLt(s.executed.vid, t.executed.vid) then t.mode == Active && t.acceptedView == None && t.validView
            else t.mode == ViewChange && t.acceptedView == Some(v)
  {
  }

  lemma OnNewViewSteady(s: Cohort, src: Mid, xid: nat, nv: NvArg)
    requires Inv(s)
    ensures var t := OnNewView(s, src, xid, nv);
            && Promise(s, t) && Stands(s, t) && PromiseMoves(s, t)
            && (VidLt(s.executed.vid, t.executed.vid) ==> t.mode == Active && t.acceptedView == None && t.validView)
            && (!RefusesNv(s, nv.view.vid) && !VidLt(s.executed.vid, t.executed.vid) ==>
                  t.mode == ViewChange && t.acceptedView == Some(nv.view))
  {
    hide Inv, PullLog, AbortOther, Steady, Promise, Stands, PromiseMoves;
    var t := OnNewView(s, src, xid, nv);
    if RefusesNv(s, nv.view.vid) {
      SameIsPromise(s, t);
      SteadyParts(s, t);
    } else {
      var u := AdoptNewView(s, nv.view);
      AbortOtherSame(s.attempt, nv.view.vid);
      SideKeeps(s, u);
      PullLogSteady(u, nv.view.primary, nv.latest, AnswerNewView(src, xid, nv.view.vid));
      AdoptSteady(s, u, t, nv.view);
    }
  }

  lemma SteadyParts(s: Cohort, t: Cohort)
    requires Steady(s, t)
    ensures Promise(s, t) && Stands(s, t) && PromiseMoves(s, t) && Serves(s, t)
  {
  }

  lemma FormViewSteady(s: Cohort, f: Formation)
    requires Inv(s) && FormsView(s, f)
    requires FormStamp(f) in s.log ==> s.log[FormStamp(f)].arg == Form(f)
    ensures Steady(s, FormView(s, f))
  {
    hide Inv, AdvanceCommitted, JumpsUpdate;
    if f.view.primary == s.self {
      var t := LogFormation(s, f);
      LogFormationKeeps(s, f);
      AdvanceCommittedSteady(t);
      assert Same(s, t);
      hide LogFormation;
      SameSteady(s, t, AdvanceCommitted(t));
      assert Same(AdvanceCommitted(t), FormView(s, f));
    }
  }

  lemma ManagerPromise(s: Cohort, t: Cohort)
    requires ManagerFrame(s, t)
    ensures Promise(s, t) && t.pulls == s.pulls && t.executed == s.executed
  {
  }

  lemma InitiatePromise(s: Cohort, joiners: seq<Mid>)
    ensures Promise(s, Initiate(s, joiners)) && Initiate(s, joiners).executed == s.executed
  {
    hide MaxVid, Mids;
  }

  lemma OnViewChangePromise(s: Cohort, src: Mid, xid: nat, oldview: View, newvid: Viewid)
    ensures var t := OnViewChange(s, src, xid, oldview, newvid);
            Promise(s, t) && Stands(s, t) && t.executed == s.executed
  {
    hide MyReport, AbortOther, PromiseMoves, Serves;
    AbortOtherSame(s.attempt, newvid);
  }

  /** The events that can change what an attempt has been told. */
  predicate ManagerEvent(e: Event) {
    e.StartAttempt? || e.VcAnswered? || e.NvAnswered?
  }

  /** No handler breaks a promise except by executing formation entries: it then stands at the last
      one's view, and it has been lowered exactly if that view is below what was promised. */
  lemma HandlePromise(s: Cohort, e: Event)
    requires Inv(s) && EventOk(s, e) && NoDuplicateStamp(s, e)
    ensures Promise(s, Handle(s, e))
    ensures !ManagerEvent(e) ==> Stands(s, Handle(s, e))
    ensures var t := Handle(s, e);
            && (VidLt(s.executed.vid, t.executed.vid) ==>
                  t.proposedVid == t.executed.vid && t.mode == Active && t.acceptedView == None && t.validView)
            && (VidLt(t.proposedVid, s.proposedVid)
                <==> VidLt(s.executed.vid, t.executed.vid) && VidLt(t.executed.vid, s.proposedVid))
  {
    HandleMoves(s, e);
    hide Inv, Handle, NoDuplicateStamp, PromiseMoves;
  }

  lemma HandleMoves(s: Cohort, e: Event)
    requires Inv(s) && EventOk(s, e) && NoDuplicateStamp(s, e)
    ensures Promise(s, Handle(s, e))
    ensures !ManagerEvent(e) ==> Stands(s, Handle(s, e))
    ensures var t := Handle(s, e);
            VidLt(s.executed.vid, t.executed.vid) ==>
              t.proposedVid == t.executed.vid && t.mode == Active && t.acceptedView == None && t.validView
  {
    hide Inv, Promise, ManagerFrame, Stands;
    PromiseRefl(s);
    match e
    case Execute(handle, req) => OnExecuteSteady(s, handle, req);
    case Replicate(src, vs, arg, committed) => OnReplicateSteady(s, src, vs, arg, committed);
    case Replicated(src, vs) => ReplicateCbSteady(s, src, vs);
    case Fetched(i, vs, resp) => FetchlogCbSteady(s, i, vs, resp);
    case VcAnswered(xid, src, res) => PrepareCbFrame(s, xid, src, res); ManagerPromise(s, PrepareCb(s, xid, src, res));
    case NvRequest(src, xid, nv) => OnNewViewSteady(s, src, xid, nv);
    case InitView(f) => if FormsView(s, f) { FormViewSteady(s, f); }
    case StartAttempt(joiners) => InitiatePromise(s, joiners);
    case VcRequest(src, xid, oldview, newvid) => OnViewChangePromise(s, src, xid, oldview, newvid);
    case NvAnswered(xid, src, acc) => NewviewCbFrame(s, xid, src, acc); ManagerPromise(s, NewviewCb(s, xid, src, acc));
    case ExecDone(vs, reply) => SameIsPromise(s, ExecuteDone(s, vs, reply));
    case Fetchlog(vs) => SameIsPromise(s, OnFetchlog(s, vs));
  }

  lemma PromiseRefl(s: Cohort)
    ensures Steady(s, s)
  {
  }

  lemma SteadyPromise(s: Cohort, t: Cohort)
    requires Steady(s, t)
    ensures Promise(s, t)
  {
  }

  lemma PromiseTrans(s: Cohort, t: Cohort, u: Cohort)
    requires Promise(s, t) && Promise(t, u)
    ensures Promise(s, u)
  {
  }

  lemma SameIsPromise(s: Cohort, t: Cohort)
    requires Same(s, t)
    ensures Steady(s, t)
  {
  }

  /** A cohort is active only once it has a view. */
  lemma ActiveHasView(s: Cohort, e: Event)
    requires Inv(s) && EventOk(s, e) && NoDuplicateStamp(s, e) && (s.mode == Active ==> s.validView)
    ensures var t := Handle(s, e); t.mode == Active ==> t.validView
  {
    hide Handle, JumpsMatch, ExecutedHeld, SubmittedInOrder, CacheOk, LogGrows, NoDuplicateStamp;
    HandleKeeps(s, e);
    HandlePromise(s, e);
  }

  // ---------------------------------------------------------------- who opens and answers pulls

  /** A pull keeps its completion callback until the callback has run. */
  ghost predicate PullsFrom(s: Cohort, t: Cohort) {
    && |s.pulls| <= |t.pulls|
    && forall i :: 0 <= i < |s.pulls| ==> t.pulls[i].done == s.pulls[i].done || t.pulls[i].done == NullCb
  }

  ghost predicate HasDone(s: Cohort, d: DoneCb) {
    exists i :: 0 <= i < |s.pulls| && s.pulls[i].done == d
  }

  /** Messages that answer a REPLICATE or accept a NEW_VIEW. */
  predicate Answer(m: Msg) {
    m.ReplicateReply? || (m.NvReply? && m.accepted)
  }

  /** The callback that sends this answer. */
  function DoneOf(m: Msg): DoneCb
    requires Answer(m)
  {
    if m.ReplicateReply? then AckReplicate(m.dst, m.vs) else AnswerNewView(m.dst, m.xid, m.vid)
  }

  /** New answers come from pulls that were open, and an acknowledgement means the view is held. */
  ghost predicate AnswersFrom(s: Cohort, t: Cohort) {
    forall m :: m in t.sent && m !in s.sent && Answer(m) ==>
      m.src == s.self && HasDone(s, DoneOf(m)) && (m.ReplicateReply? ==> AckMeans(t, m.vs))
  }

  lemma SettleAnswers(s: Cohort, i: nat)
    requires Inv(s) && PullsOk(s) && i < |s.pulls|
    ensures PullsFrom(s, Settle(s, i)) && AnswersFrom(s, Settle(s, i))
  {
    hide Inv, Covered;
    var pl, t := s.pulls[i], Settle(s, i);
    assert PullOk(s, pl);
    FireFrame(s, pl.done, pl.ok && pl.bottomdone);
    if PullSettled(pl) && pl.ok { SuccessMeans(s, pl); }
    forall m | m in t.sent && m !in s.sent && Answer(m)
      ensures m.src == s.self && HasDone(s, DoneOf(m)) && (m.ReplicateReply? ==> AckMeans(t, m.vs))
    {
      assert pl.ok && DoneOf(m) == s.pulls[i].done;
    }
  }

  lemma StepBackAnswers(s: Cohort, i: nat)
    requires i < |s.pulls|
    ensures PullsFrom(s, StepBack(s, i)) && PullsFrom(StepBack(s, i), s)
    ensures forall m :: m in StepBack(s, i).sent && m !in s.sent ==> m.FetchCall?
  {
    hide Missing;
  }

  lemma FetchlogCheckAnswers(s: Cohort, i: nat)
    requires AllOk(s) && i < |s.pulls|
    ensures PullsFrom(s, FetchlogCheck(s, i)) && AnswersFrom(s, FetchlogCheck(s, i))
  {
    hide Inv, PullsOk, ReceivedLogged, AdvanceCommitted, StepBack, Settle, AckMeans, SideFrame;
    var s1 := AdvanceCommitted(s);
    AdvanceCommittedSilent(s);
    AdvanceCommittedKeeps(s);
    PullsKept(s, s1);
    ReceivedKept(s, s1);
    StepBackAnswers(s1, i);
    StepBackPulls(s1, i);
    StepBackFrame(s1, i);
    var s2 := StepBack(s1, i);
    SideKeeps(s1, s2);
    SettleAnswers(s2, i);
    SideSelf(s1, s2);
    var t := Settle(s2, i);
    forall m | m in t.sent && m !in s.sent && Answer(m) ensures HasDone(s, DoneOf(m)) && m !in s2.sent {
      assert HasDone(s2, DoneOf(m));
      var j :| 0 <= j < |s2.pulls| && s2.pulls[j].done == DoneOf(m);
      assert s1.pulls[j].done == DoneOf(m);
    }
  }

  lemma SideSelf(s: Cohort, t: Cohort)
    requires SideFrame(s, t)
    ensures t.self == s.self && s.sent <= t.sent
  {
  }

  /** The completion callback of the pull this event opens, if it opens one. */
  function Opened(s: Cohort, e: Event): Option<DoneCb> {
    match e
    case Replicate(src, vs, _, _) => if RefusesReplicate(s, vs) then None else Some(AckReplicate(src, vs))
    case NvRequest(src, xid, nv) =>
      if RefusesNv(s, nv.view.vid) then None else Some(AnswerNewView(src, xid, nv.view.vid))
    case _ => None
  }

  /** Which event in which state can make a cohort send this message. */
  ghost predicate Explained(s: Cohort, e: Event, t: Cohort, m: Msg) {
    match m
    case ReplicateCall(src, dst, vs, arg, committed) =>
      && src == s.self
      && ((e.Execute? && TakesRequest(s, e.req) && dst in s.view.backups
           && vs == Succ(s.latest) && arg == Client(e.req) && committed == s.committed)
          || (e.InitView? && vs == FormStamp(e.form) && arg == Form(e.form) && committed == vs))
    case ReplicateReply(src, dst, vs) =>
      src == s.self && AckMeans(t, vs) && (HasDone(s, AckReplicate(dst, vs)) || Opened(s, e) == Some(AckReplicate(dst, vs)))
    case NvReply(src, dst, xid, vid, accepted) =>
      accepted ==>
        && src == s.self
        && (HasDone(s, AnswerNewView(dst, xid, vid)) || Opened(s, e) == Some(AnswerNewView(dst, xid, vid)))
    case FetchReply(src, vs, arg) => src == s.self && vs in s.log && arg == s.log[vs].arg
    case VcReply(src, dst, xid, newvid, answer) =>
      && src == s.self && e.VcRequest? && e.src == dst && e.xid == xid && e.newvid == newvid
      && (answer.Accept? ==> !RefusesVc(s, e.oldview.vid, newvid) && answer.report == MyReport(s))
      && (answer.Reject? ==> RefusesVc(s, e.oldview.vid, newvid) && answer == MyRefusal(s))
    case VcCall(_, _, _, _, _) => (e.StartAttempt? || e.VcAnswered?) && AsksFor(s, t, m)
    case NvCall(_, _, _, _) => e.VcAnswered? && IssuedBy(s, t, m)
    case InitCall(_, _, _) => e.NvAnswered? && FormedBy(s, t, m)
    case ClientReply(handle, res) =>
      || (e.Execute? && e.handle == handle && AnswersClient(s, e.req, res))
      || (e.ExecDone? && e.vs in s.log && s.log[e.vs].sbp == Some(handle) && res == Ok(e.reply))
    case FetchCall(_, _, _, _) => true
  }

  /** What a refused VIEW_CHANGE is answered. */
  function MyRefusal(s: Cohort): VcAnswer {
    Reject(if s.validView then Some(s.view) else None, s.proposedVid)
  }

  /** A VIEW_CHANGE call of the attempt in t, which leaves the view installed in s. */
  ghost predicate AsksFor(s: Cohort, t: Cohort, m: Msg)
    requires m.VcCall?
  {
    && m.src == s.self && m.oldview == s.view
    && t.attempt.Some? && t.attempt.value.xid == m.xid && t.attempt.value.proposedVid == m.newvid
    && m.dst in t.attempt.value.underlings
  }

  /** A NEW_VIEW call of the attempt in t: everybody asked has been heard of, majorities of the installed
      view and of the latest view reported have accepted, and the call carries the choice. */
  ghost predicate IssuedBy(s: Cohort, t: Cohort, m: Msg)
    requires m.NvCall?
  {
    && m.src == s.self && t.attempt.Some?
    && var a := t.attempt.value;
       && a.xid == m.xid && !a.aborted && m.dst in a.underlings && |a.prepareDone| == |a.underlings|
       && Quorum.Majority(a.prepareAccepted, Mids(s.view))
       && (a.newview.Some? ==> Quorum.Majority(a.prepareAccepted, Mids(a.newview.value)))
       && Choose(a) == Some(m.nvarg) && a.nvarg == m.nvarg
  }

  /** An INIT_VIEW call of the attempt in t: majorities of the installed view and of the proposed one
      have accepted NEW_VIEW, and the call goes to the new primary. */
  ghost predicate FormedBy(s: Cohort, t: Cohort, m: Msg)
    requires m.InitCall?
  {
    && m.src == s.self && t.attempt.Some?
    && var a := t.attempt.value;
       && !a.aborted && m.form == ViewForm(a.nvarg.latest, a.nvarg.view) && m.dst == m.form.view.primary
       && Quorum.Majority(a.nvAccepted, Mids(m.form.view)) && Quorum.Majority(a.nvAccepted, Mids(s.view))
  }

  /** What EXECUTE may answer at once: the cached reply, or who the primary is. */
  ghost predicate AnswersClient(s: Cohort, req: Request, res: ExecRes) {
    match res
    case Ok(reply) =>
      && req.client in s.cache && s.cache[req.client].rid == req.rid && s.cache[req.client].rle in s.log
      && s.log[s.cache[req.client].rle].state == Executed && reply == s.cache[req.client].reply
    case Redirect(vid, primary) =>
      vid == s.view.vid && primary == s.view.primary && (req.vid != s.view.vid || s.self != s.view.primary)
  }

  ghost predicate AllExplained(s: Cohort, e: Event, t: Cohort) {
    && (forall m :: m in t.sent && m !in s.sent ==> Explained(s, e, t, m))
    && (forall i :: 0 <= i < |t.pulls| ==>
          t.pulls[i].done == NullCb || HasDone(s, t.pulls[i].done) || Opened(s, e) == Some(t.pulls[i].done))
  }

  lemma SamePulls(s: Cohort, e: Event, t: Cohort)
    requires t.pulls == s.pulls
    requires forall m :: m in t.sent && m !in s.sent ==> Explained(s, e, t, m)
    ensures AllExplained(s, e, t)
  {
    forall i | 0 <= i < |t.pulls| ensures HasDone(s, t.pulls[i].done) {
    }
  }

  /** Opening a pull leaves every callback where it was, and asks for entries. */
  lemma PullLogOpens(u: Cohort, src: Mid, latest: Viewstamp, done: DoneCb)
    requires AllOk(u) && (done.AckReplicate? ==> done.vs == latest)
    ensures var o := OpenPull(u, src, latest, done);
            && AllOk(o) && u.sent <= o.sent && o.self == u.self && |o.pulls| == |u.pulls| + 1
            && (forall m :: m in o.sent && m !in u.sent ==> m.FetchCall?)
            && (forall d :: HasDone(o, d) ==> HasDone(u, d) || d == done)
  {
    hide Inv, PullsOk, ReceivedLogged, SideFrame;
    var o := OpenPull(u, src, latest, done);
    OpenPullFrame(u, src, latest, done);
    SideKeeps(u, o);
    OpenPullPulls(u, src, latest, done);
    OpenPullDone(u, src, latest, done);
    SideSelf(u, o);
    hide OpenPull, HasDone;
    forall d | HasDone(o, d) ensures HasDone(u, d) || d == done { OpenedDone(u, o, done, d); }
  }

  /** Opening a pull in `u`, which still has the messages and pulls of `s`, and checking it. */
  lemma PullLogExplained(s: Cohort, e: Event, u: Cohort, src: Mid, latest: Viewstamp, done: DoneCb)
    requires AllOk(u) && u.sent == s.sent && u.pulls == s.pulls && u.self == s.self
    requires Opened(s, e) == Some(done) && (done.AckReplicate? ==> done.vs == latest)
    ensures AllExplained(s, e, PullLog(u, src, latest, done))
  {
    hide AllOk, FetchlogCheck, OpenPull, AckMeans, Opened, HasDone, Explained;
    var o, i := OpenPull(u, src, latest, done), |u.pulls|;
    PullLogOpens(u, src, latest, done);
    FetchlogCheckAnswers(o, i);
    FetchlogCheckSays(o, i);
    var t := FetchlogCheck(o, i);
    forall d | HasDone(u, d) ensures HasDone(s, d) { SamePullsHave(u, s, d); }
    forall m | m in t.sent && m !in s.sent ensures Explained(s, e, t, m) {
      PulledMessage(s, e, t, o, done, m);
    }
    forall j: nat | j < |t.pulls| && t.pulls[j].done != NullCb ensures HasDone(s, t.pulls[j].done) || t.pulls[j].done == done {
      PullHas(o, t, j);
    }
  }

  lemma SamePullsHave(u: Cohort, s: Cohort, d: DoneCb)
    requires u.pulls == s.pulls && HasDone(u, d)
    ensures HasDone(s, d)
  {
  }

  lemma PullHas(o: Cohort, t: Cohort, j: nat)
    requires PullsFrom(o, t) && j < |t.pulls| == |o.pulls| && t.pulls[j].done != NullCb
    ensures HasDone(o, t.pulls[j].done)
  {
    assert o.pulls[j].done == t.pulls[j].done;
  }

  /** A message sent when a pull that was just opened is checked. */
  lemma PulledMessage(s: Cohort, e: Event, t: Cohort, o: Cohort, done: DoneCb, m: Msg)
    requires Opened(s, e) == Some(done) && o.self == s.self && m in t.sent && m !in s.sent
    requires m in o.sent ==> m.FetchCall?
    requires m !in o.sent ==> m.FetchCall? || Answer(m) || m.NvReply?
    requires AnswersFrom(o, t)
    requires forall d :: HasDone(o, d) ==> HasDone(s, d) || d == done
    ensures Explained(s, e, t, m)
  {
    hide AckMeans, Opened, HasDone, TakesRequest, RefusesVc, MyReport;
  }

  lemma OpenedDone(s: Cohort, o: Cohort, done: DoneCb, d: DoneCb)
    requires |o.pulls| == |s.pulls| + 1 && o.pulls[|s.pulls|].done == done
    requires forall j :: 0 <= j < |s.pulls| ==> o.pulls[j].done == s.pulls[j].done
    requires HasDone(o, d)
    ensures HasDone(s, d) || d == done
  {
    var j :| 0 <= j < |o.pulls| && o.pulls[j].done == d;
    assert j < |s.pulls| ==> s.pulls[j].done == d;
  }

  lemma OpenPullDone(s: Cohort, src: Mid, latest: Viewstamp, done: DoneCb)
    ensures var o := OpenPull(s, src, latest, done);
            && (forall j :: 0 <= j < |s.pulls| ==> o.pulls[j].done == s.pulls[j].done)
            && o.pulls[|s.pulls|].done == done
            && (forall m :: m in o.sent && m !in s.sent ==> m.FetchCall?)
  {
    hide Missing;
  }

  /** Everything `fetchlog_check` sends: calls for more entries, and answers. */
  lemma FetchlogCheckSays(s: Cohort, i: nat)
    requires i < |s.pulls|
    ensures |FetchlogCheck(s, i).pulls| == |s.pulls|
    ensures forall m :: m in FetchlogCheck(s, i).sent && m !in s.sent ==> m.FetchCall? || Answer(m) || m.NvReply?
  {
    hide AdvanceCommitted, StepBack;
    AdvanceCommittedSilent(s);
    AdvanceCommittedKeepsPulls(s);
    var s1 := AdvanceCommitted(s);
    StepBackAnswers(s1, i);
    StepBackFrame(s1, i);
  }

  lemma OnReplicateExplained(s: Cohort, e: Event)
    requires AllOk(s) && EventOk(s, e) && e.Replicate?
    ensures AllOk(Handle(s, e)) && AllExplained(s, e, Handle(s, e))
  {
    hide Inv, PullsOk, ReceivedLogged, PullLog, StoreReplicate;
    if RefusesReplicate(s, e.vs) {
      SamePulls(s, e, s);
    } else {
      var u := StoreReplicate(s, e.vs, e.arg, e.committed);
      StoreReplicateKeeps(s, e.vs, e.arg, e.committed);
      StoreReplicateSilent(s, e.vs, e.arg, e.committed);
      PullsKept(s, u);
      ReceivedKept(s, u);
      var primary := if e.vs.ts != 0 then s.view.primary else e.arg.form.view.primary;
      PullLogKeeps(u, primary, e.vs, AckReplicate(e.src, e.vs));
      PullLogPulls(u, primary, e.vs, AckReplicate(e.src, e.vs));
      PullLogExplained(s, e, u, primary, e.vs, AckReplicate(e.src, e.vs));
    }
  }

  lemma StoreReplicateSilent(s: Cohort, vs: Viewstamp, arg: Arg, committed: Viewstamp)
    requires WfSlot(vs, arg)
    ensures var u := StoreReplicate(s, vs, arg, committed); u.sent == s.sent && u.pulls == s.pulls && u.self == s.self
  {
    hide JumpsUpdate, AdvanceExecuted;
    AdvanceExecutedSilent(RaiseCommitted(StoreEntry(s, vs, arg), committed));
  }

  lemma OnNewViewExplained(s: Cohort, e: Event)
    requires AllOk(s) && e.NvRequest?
    ensures AllOk(Handle(s, e)) && AllExplained(s, e, Handle(s, e))
  {
    hide Inv, PullLog, Covered, AbortOther, TakesRequest, RefusesVc, MyReport, AckMeans;
    var nv, t := e.nvarg, Handle(s, e);
    OnNewViewKeeps(s, e.src, e.xid, nv);
    if RefusesNv(s, nv.view.vid) {
      PullsKept(s, t);
      SamePulls(s, e, t);
    } else {
      var u := AdoptNewView(s, nv.view);
      SideKeeps(s, u);
      PullsKept(s, u);
      PullLogPulls(u, nv.view.primary, nv.latest, AnswerNewView(e.src, e.xid, nv.view.vid));
      PullLogExplained(s, e, u, nv.view.primary, nv.latest, AnswerNewView(e.src, e.xid, nv.view.vid));
    }
  }

  lemma FetchedExplained(s: Cohort, e: Event)
    requires AllOk(s) && EventOk(s, e) && e.Fetched?
    ensures AllOk(Handle(s, e)) && AllExplained(s, e, Handle(s, e))
  {
    hide Inv, PullsOk, ReceivedLogged, FetchlogCheck, NoteFetched, AckMeans, TakesRequest, RefusesVc, MyReport;
    var i, u := e.pull, NoteFetched(s, e.pull, e.vs, e.resp);
    FetchlogCbKeeps(s, i, e.vs, e.resp);
    FetchlogCbPulls(s, i, e.vs, e.resp);
    NoteFetchedKeeps(s, i, e.vs, e.resp);
    NoteFetchedPulls(s, i, e.vs, e.resp);
    NoteFetchedSilent(s, i, e.vs, e.resp);
    FetchlogCheckAnswers(u, i);
    FetchlogCheckSays(u, i);
    var t := FetchlogCheck(u, i);
    forall m | m in t.sent && m !in s.sent ensures Explained(s, e, t, m) {
      if Answer(m) { SameDone(s, u, DoneOf(m)); }
    }
    forall j | 0 <= j < |t.pulls| && t.pulls[j].done != NullCb ensures HasDone(s, t.pulls[j].done) {
      assert s.pulls[j].done == t.pulls[j].done;
    }
  }

  lemma SameDone(s: Cohort, u: Cohort, d: DoneCb)
    requires |u.pulls| == |s.pulls| && (forall j :: 0 <= j < |s.pulls| ==> u.pulls[j].done == s.pulls[j].done)
    requires HasDone(u, d)
    ensures HasDone(s, d)
  {
    var j :| 0 <= j < |u.pulls| && u.pulls[j].done == d;
    assert s.pulls[j].done == d;
  }

  lemma NoteFetchedSilent(s: Cohort, i: nat, vs: Viewstamp, resp: Option<Arg>)
    requires i < |s.pulls| && (resp.Some? ==> WfSlot(vs, resp.value))
    ensures var u := NoteFetched(s, i, vs, resp);
            && u.sent == s.sent && u.self == s.self && |u.pulls| == |s.pulls|
            && forall j :: 0 <= j < |s.pulls| ==> u.pulls[j].done == s.pulls[j].done
  {
    hide JumpsUpdate;
  }

  lemma LogRequestSays(s: Cohort, handle: nat, req: Request)
    requires s.mode == Active
    ensures var t := AdvanceCommitted(LogRequest(Park(s, req, None), handle, req));
            && t.pulls == s.pulls
            && forall m :: m in t.sent && m !in s.sent ==>
                 && m.ReplicateCall? && m.src == s.self && m.dst in s.view.backups
                 && m.vs == Succ(s.latest) && m.arg == Client(req) && m.committed == s.committed
  {
    hide AdvanceCommitted, Stale, JumpsUpdate, PrimaryEntry;
    AdvanceCommittedSilent(LogRequest(Park(s, req, None), handle, req));
  }

  lemma OnExecuteSays(s: Cohort, handle: nat, req: Request)
    ensures var t := OnExecute(s, handle, req); t.pulls == s.pulls
    ensures forall m :: m in OnExecute(s, handle, req).sent && m !in s.sent ==>
              Explained(s, Execute(handle, req), OnExecute(s, handle, req), m) && !Answer(m)
  {
    hide AdvanceCommitted, Stale, LogRequest, RefusesVc, MyReport, AckMeans;
    if TakesRequest(s, req) {
      LogRequestSays(s, handle, req);
    }
  }

  lemma ExecDoneSays(s: Cohort, vs: Viewstamp, reply: string)
    requires vs in s.log && s.log[vs].arg.Client?
    ensures ExecuteDone(s, vs, reply).pulls == s.pulls
    ensures forall m :: m in ExecuteDone(s, vs, reply).sent && m !in s.sent ==>
              m.ClientReply? && s.log[vs].sbp == Some(m.handle) && m.res == Ok(reply)
  {
  }

  lemma InitiateSays(s: Cohort, joiners: seq<Mid>)
    ensures Initiate(s, joiners).pulls == s.pulls
    ensures forall m :: m in Initiate(s, joiners).sent && m !in s.sent ==> m.VcCall? && AsksFor(s, Initiate(s, joiners), m)
  {
    hide Mids, MaxVid;
  }

  lemma OnViewChangeSays(s: Cohort, src: Mid, xid: nat, oldview: View, newvid: Viewid)
    ensures OnViewChange(s, src, xid, oldview, newvid).pulls == s.pulls
    ensures forall m :: m in OnViewChange(s, src, xid, oldview, newvid).sent && m !in s.sent ==>
              && m.VcReply? && m.src == s.self && m.dst == src && m.xid == xid && m.newvid == newvid
              && (m.answer.Accept? ==> !RefusesVc(s, oldview.vid, newvid) && m.answer.report == MyReport(s))
              && (m.answer.Reject? ==> RefusesVc(s, oldview.vid, newvid) && m.answer == MyRefusal(s))
  {
    hide MyReport, AbortOther;
    if RefusesVc(s, oldview.vid, newvid) {
      var mine := if s.validView then Some(s.view) else None;
      VcSent(s, src, xid, newvid, Reject(mine, s.proposedVid));
    } else {
      VcSent(s, src, xid, newvid, Accept(MyReport(s)));
    }
    hide RefusesVc;
  }

  lemma VcSent(s: Cohort, src: Mid, xid: nat, newvid: Viewid, answer: VcAnswer)
    ensures forall m :: m in s.sent + {VcReply(s.self, src, xid, newvid, answer)} && m !in s.sent ==>
              m == VcReply(s.self, src, xid, newvid, answer)
  {
  }

  lemma NewviewCbSays(s: Cohort, xid: nat, from: Mid, acc: Option<bool>)
    ensures NewviewCb(s, xid, from, acc).pulls == s.pulls
    ensures forall m :: m in NewviewCb(s, xid, from, acc).sent && m !in s.sent ==>
              m.InitCall? && FormedBy(s, NewviewCb(s, xid, from, acc), m)
  {
    hide Quorum.Majority, Mids;
    var t := NewviewCb(s, xid, from, acc);
    if s.attempt.Some? && s.attempt.value.xid == xid {
      var a := NoteNv(s.attempt.value, from, acc);
      assert NewviewPasses(s, a) ==> t.attempt == Some(a);
      hide NoteNv;
    }
  }

  lemma ReplicateCbSilent(s: Cohort, from: Mid, vs: Viewstamp)
    ensures ReplicateCb(s, from, vs).pulls == s.pulls && ReplicateCb(s, from, vs).sent == s.sent
  {
    hide AckFrom, AdvanceCommitted, IsMember;
    var n := VsNext(s.jumps, s.committed);
    AckFromFrame(s, from, n, vs);
    AdvanceCommittedSilent(AckFrom(s, from, n, vs));
  }

  lemma OnInitViewSays(s: Cohort, f: Formation)
    ensures OnInitView(s, f).pulls == s.pulls
    ensures forall m :: m in OnInitView(s, f).sent && m !in s.sent ==>
              m.ReplicateCall? && m.src == s.self && m.vs == FormStamp(f) && m.arg == Form(f) && m.committed == m.vs
  {
    hide AdvanceCommitted, JumpsUpdate;
    AdvanceCommittedSilent(LogFormation(s, f));
  }

  /** Checking keeps the identity of the attempt, and only asks more cohorts. */
  ghost predicate SameCalls(s: Cohort, t: Cohort) {
    && t.self == s.self && t.view == s.view && s.attempt.Some? && t.attempt.Some?
    && t.attempt.value.xid == s.attempt.value.xid && t.attempt.value.proposedVid == s.attempt.value.proposedVid
    && s.attempt.value.underlings <= t.attempt.value.underlings
  }

  /** What checking sends. */
  ghost predicate ChecksSay(s: Cohort, t: Cohort) {
    && SameCalls(s, t)
    && forall m :: m in t.sent && m !in s.sent ==> (m.VcCall? && AsksFor(s, t, m)) || (m.NvCall? && IssuedBy(s, t, m))
  }

  lemma ExtendSays(s: Cohort)
    requires s.attempt.Some? && s.attempt.value.newview.Some?
    ensures SameCalls(s, Extend(s))
    ensures forall m :: m in Extend(s).sent && m !in s.sent ==> m.VcCall? && AsksFor(s, Extend(s), m)
  {
    hide Mids;
  }

  lemma IssueSays(s: Cohort)
    requires s.attempt.Some? && !s.attempt.value.aborted && |s.attempt.value.prepareDone| == |s.attempt.value.underlings|
    requires Quorum.Majority(s.attempt.value.prepareAccepted, Mids(s.view))
    requires s.attempt.value.newview.Some? ==> Quorum.Majority(s.attempt.value.prepareAccepted, Mids(s.attempt.value.newview.value))
    ensures ChecksSay(s, ChooseAndIssue(s))
  {
    hide Quorum.Majority, Mids, ChooseFresh, ChooseMerged;
  }

  lemma ChecksNothing(s: Cohort)
    requires s.attempt.Some?
    ensures ChecksSay(s, s) && ChecksSay(s, AbortAttempt(s))
  {
    hide Quorum.Majority, Mids, Choose;
  }

  lemma ChecksTrans(s: Cohort, u: Cohort, t: Cohort)
    requires SameCalls(s, u) && ChecksSay(u, t)
    requires forall m :: m in u.sent && m !in s.sent ==> m.VcCall? && AsksFor(s, u, m)
    ensures ChecksSay(s, t)
  {
    hide Quorum.Majority, Mids, Choose;
  }

  lemma {:induction false} CheckPrepareSays(s: Cohort)
    requires s.attempt.Some?
    ensures ChecksSay(s, CheckPrepare(s))
    decreases s.attempt.value.newview.Some? && VidLt(s.attempt.value.mergedVid, s.attempt.value.newview.value.vid)
  {
    hide Quorum.Majority, Mids, ChecksSay, Extend, ChooseAndIssue, AbortAttempt, SameCalls, AsksFor;
    var a := s.attempt.value;
    ChecksNothing(s);
    if a.aborted || |a.prepareDone| != |a.underlings| || !Quorum.Majority(a.prepareAccepted, Mids(s.view)) {
    } else if a.newview.Some? && VidLt(a.mergedVid, a.newview.value.vid) {
      ExtendMerges(s);
      CheckPrepareSays(Extend(s));
      ExtendSays(s);
      ChecksTrans(s, Extend(s), CheckPrepare(Extend(s)));
    } else if a.newview.Some? && !Quorum.Majority(a.prepareAccepted, Mids(a.newview.value)) {
    } else {
      IssueSays(s);
    }
  }

  lemma VcAnsweredSays(s: Cohort, xid: nat, from: Mid, res: Option<VcAnswer>)
    ensures PrepareCb(s, xid, from, res).pulls == s.pulls
    ensures var t := PrepareCb(s, xid, from, res);
            forall m :: m in t.sent && m !in s.sent ==> (m.VcCall? && AsksFor(s, t, m)) || (m.NvCall? && IssuedBy(s, t, m))
  {
    hide CheckPrepare, NoteAnswer, Choose, Quorum.Majority, Mids;
    PrepareCbFrame(s, xid, from, res);
    if s.attempt.Some? { CheckPrepareSays(NotePrepare(s, from, res)); }
  }

  /** Handlers that neither open nor advance a pull. */
  lemma OtherExplained(s: Cohort, e: Event)
    requires AllOk(s) && EventOk(s, e) && NoDuplicateStamp(s, e)
    requires !e.Replicate? && !e.NvRequest? && !e.Fetched?
    ensures Handle(s, e).pulls == s.pulls && AllExplained(s, e, Handle(s, e))
    ensures forall m :: m in Handle(s, e).sent && m !in s.sent ==> !Answer(m)
  {
    hide AllOk, AckMeans, TakesRequest, RefusesVc, MyReport, MyRefusal, AsksFor, IssuedBy, FormedBy, AnswersClient;
    hide OnExecute, ReplicateCb, PrepareCb, OnInitView, Initiate, OnViewChange, NewviewCb, ExecuteDone;
    var t := Handle(s, e);
    match e {
      case Execute(handle, req) => OnExecuteSays(s, handle, req);
      case Replicated(src, vs) => ReplicateCbSilent(s, src, vs);
      case VcAnswered(xid, src, res) => VcAnsweredSays(s, xid, src, res);
      case InitView(f) => OnInitViewSays(s, f);
      case StartAttempt(joiners) => InitiateSays(s, joiners);
      case VcRequest(src, xid, oldview, newvid) => OnViewChangeSays(s, src, xid, oldview, newvid);
      case NvAnswered(xid, src, acc) => NewviewCbSays(s, xid, src, acc);
      case ExecDone(vs, reply) => ExecDoneSays(s, vs, reply);
      case Fetchlog(vs) =>
    }
    SamePulls(s, e, t);
  }

  /** Every handler keeps the pull bookkeeping, and every message it sends is explained. */
  lemma HandleExplained(s: Cohort, e: Event)
    requires AllOk(s) && EventOk(s, e) && NoDuplicateStamp(s, e)
    ensures AllOk(Handle(s, e)) && AllExplained(s, e, Handle(s, e))
  {
    hide Inv, PullsOk, ReceivedLogged, Handle, Grows, AllExplained, NoDuplicateStamp;
    if e.Replicate? {
      OnReplicateExplained(s, e);
    } else if e.NvRequest? {
      OnNewViewExplained(s, e);
    } else if e.Fetched? {
      FetchedExplained(s, e);
    } else {
      OtherExplained(s, e);
      HandleKeeps(s, e);
      PullsKept(s, Handle(s, e));
      ReceivedKept(s, Handle(s, e));
    }
  }
}
