/** Every handler run by the primary of a view, and by a former primary that has not left its view yet. */
module PrimarySteps {
  import opened Stamps
  import opened CohortSpec
  import opened CohortInvariants
  import opened Traffic
  import opened Quorum
  import opened PrimaryLoop

  /** H(k) is who holds the first k entries of the view. Every recorded acknowledgement is true, and
      every committed entry is held by a majority. */
  ghost predicate Backed(s: Cohort, v: View, H: nat -> set<Mid>)
    requires Leads(s, v)
  {
    && (forall k: nat :: Waiting(s, v, k) ==> Received(s, v, k) <= H(k))
    && (forall k: nat :: 1 <= k <= s.committed.ts ==> Majority(H(k), Mids(v)))
  }

  /** No entry above `committed` has been acknowledged by a majority. */
  ghost predicate Exact(s: Cohort, v: View)
    requires Leads(s, v)
  {
    forall k: nat :: Waiting(s, v, k) ==> !Majority(Received(s, v, k), Mids(v))
  }

  /** What a part of a step of the primary leads to. */
  ghost predicate Led(s: Cohort, t: Cohort, v: View, H: nat -> set<Mid>) {
    && Leads(t, v) && Backed(t, v, H)
    && s.latest.ts <= t.latest.ts && s.committed.ts <= t.committed.ts && t.crashed == s.crashed
  }

  /** The same for a whole step. */
  ghost predicate Stepped(s: Cohort, t: Cohort, v: View, H: nat -> set<Mid>)
    requires Leads(s, v)
  {
    Led(s, t, v, H) && (Exact(s, v) ==> Exact(t, v))
  }

  lemma FrameStepped(s: Cohort, t: Cohort, v: View, H: nat -> set<Mid>)
    requires Leads(s, v) && Backed(s, v, H) && LeadFrame(s, t) && t.crashed == s.crashed
    ensures Stepped(s, t, v, H) && t.latest == s.latest
  {
    FrameLeads(s, t, v);
    hide Leads, Majority, Mids;
    assert forall k: nat :: Waiting(t, v, k) ==> Waiting(s, v, k) && Received(t, v, k) == Received(s, v, k);
  }

  lemma CommitLed(s: Cohort, v: View, H: nat -> set<Mid>)
    requires Leads(s, v) && Backed(s, v, H)
    ensures var t := AdvanceCommitted(s); Led(s, t, v, H) && t.latest == s.latest && Exact(t, v)
  {
    CommitsExactly(s, v);
    var t := AdvanceCommitted(s);
    LeadWaiting(s, v);
    LeadWaiting(t, v);
    hide AdvanceCommitted, Leads, Majority, Mids;
    forall k: nat | Waiting(t, v, k) ensures Received(t, v, k) <= H(k) && !Majority(Received(t, v, k), Mids(v)) {
      assert Waiting(s, v, k);
    }
    forall k: nat | 1 <= k <= t.committed.ts ensures Majority(H(k), Mids(v)) {
      if s.committed.ts < k {
        assert Waiting(s, v, k);
        MajorityGrows(Received(s, v, k), H(k), Mids(v));
      }
    }
  }

  lemma LeadWaiting(s: Cohort, v: View)
    requires Leads(s, v)
    ensures s.committed.ts <= s.latest.ts
    ensures forall k: nat :: Waiting(s, v, k) ==> At(v, k) in s.log && s.log[At(v, k)].ack.Some?
  {
  }

  lemma SteppedTrans(s: Cohort, t: Cohort, u: Cohort, v: View, H: nat -> set<Mid>)
    requires Leads(s, v) && Stepped(s, t, v, H) && Stepped(t, u, v, H)
    ensures Stepped(s, u, v, H)
  {
    hide Leads, Backed, Exact;
  }

  lemma LedCommit(s: Cohort, t: Cohort, v: View, H: nat -> set<Mid>)
    requires Leads(s, v) && Led(s, t, v, H)
    ensures Stepped(s, AdvanceCommitted(t), v, H) && AdvanceCommitted(t).latest == t.latest
  {
    CommitLed(t, v, H);
    hide Leads, Backed, Exact, AdvanceCommitted;
  }

  // ---------------------------------------------------------------- client requests

  lemma LogRequestLed(s: Cohort, v: View, H: nat -> set<Mid>, handle: nat, req: Request)
    requires Leads(s, v) && LastView(s, v) && Backed(s, v, H) && v.primary in H(s.latest.ts + 1)
    ensures var t := LogRequest(s, handle, req);
            && Led(s, t, v, H) && t.latest == At(v, s.latest.ts + 1) && t.log[t.latest].arg == Client(req)
  {
    LogRequestLeads(s, v, handle, req);
    PrimaryEntryArg(s, handle, req);
    LogRequestCrash(s, handle, req);
    var t, n := LogRequest(s, handle, req), s.latest.ts + 1;
    LeadWaiting(s, v);
    LeadWaiting(t, v);
    hide LogRequest, Leads, Majority, Mids, PrimaryEntry;
    forall k: nat | Waiting(t, v, k) ensures Received(t, v, k) <= H(k) {
      if k != n { assert Waiting(s, v, k) && Waiting(t.(latest := s.latest), v, k); }
    }
  }

  lemma LogRequestCrash(s: Cohort, handle: nat, req: Request)
    ensures LogRequest(s, handle, req).crashed == s.crashed
  {
    hide JumpsUpdate, PrimaryEntry;
  }

  lemma ParkFrame(s: Cohort, req: Request, handle: Option<nat>)
    ensures LeadFrame(s, Park(s, req, handle)) && Park(s, req, handle).crashed == s.crashed
    ensures Park(s, req, handle).mode == s.mode
  {
    assert Park(s, req, handle).log.Keys == s.log.Keys;
  }

  /** A request the primary takes is logged at the next stamp of the view. */
  lemma TakeStepped(s: Cohort, v: View, H: nat -> set<Mid>, handle: nat, req: Request)
    requires Leads(s, v) && LastView(s, v) && Backed(s, v, H)
    requires v.primary in H(s.latest.ts + 1) && TakesRequest(s, req)
    ensures var t := OnExecute(s, handle, req);
            && Stepped(s, t, v, H) && t.latest == At(v, s.latest.ts + 1)
            && t.latest in t.log && t.log[t.latest].arg == Client(req)
  {
    hide Leads, LogRequest, Park, AdvanceCommitted, Backed, Exact;
    var s1 := Park(s, req, None);
    ParkFrame(s, req, None);
    FrameStepped(s, s1, v, H);
    var s2 := LogRequest(s1, handle, req);
    LogRequestLed(s1, v, H, handle, req);
    LatestHeld(s2, v);
    assert SameArgs(s2.log, AdvanceCommitted(s2).log) by { AdvanceCommittedSilent(s2); }
    assert Led(s, s2, v, H);
    LedCommit(s, s2, v, H);
    assert OnExecute(s, handle, req) == AdvanceCommitted(s2);
  }

  lemma LatestHeld(s: Cohort, v: View)
    requires Leads(s, v)
    ensures s.latest in s.log
  {
    assert s.latest == At(v, s.latest.ts);
  }

  lemma NotTakenFrame(s: Cohort, handle: nat, req: Request)
    requires !TakesRequest(s, req)
    ensures LeadFrame(s, OnExecute(s, handle, req)) && OnExecute(s, handle, req).crashed == s.crashed
  {
    hide Stale, Park, LogRequest, AdvanceCommitted, Reply;
    var s1 := Park(s, req, None);
    ParkFrame(s, req, None);
    ParkFrame(s, req, Some(handle));
    ReplyFrame(s, handle, Ok(if req.client in s.cache then s.cache[req.client].reply else ""));
    ReplyFrame(s1, handle, Redirect(s.view.vid, s.view.primary));
    hide LeadFrame;
    var t := OnExecute(s, handle, req);
    if t == Reply(s1, handle, Redirect(s.view.vid, s.view.primary)) {
      LeadFrameTrans(s, s1, t);
    } else {
      LeadFrameRefl(s);
    }
  }

  lemma ReplyFrame(s: Cohort, handle: nat, res: ExecRes)
    ensures LeadFrame(s, Reply(s, handle, res)) && Reply(s, handle, res).crashed == s.crashed
  {
  }

  lemma LeadFrameTrans(s: Cohort, t: Cohort, u: Cohort)
    requires LeadFrame(s, t) && LeadFrame(t, u)
    ensures LeadFrame(s, u)
  {
  }

  lemma LeadFrameRefl(s: Cohort)
    ensures LeadFrame(s, s)
  {
  }

  // ---------------------------------------------------------------- acknowledgements

  lemma AckLed(s: Cohort, v: View, H: nat -> set<Mid>, from: Mid, m: nat)
    requires Leads(s, v) && Backed(s, v, H) && s.committed.ts < m <= s.latest.ts
    requires forall k: nat :: k <= m ==> from in H(k)
    ensures var u := AckFrom(s, from, At(v, s.committed.ts + 1), At(v, m)); Led(s, u, v, H) && u.latest == s.latest
  {
    AckLeads(s, v, from, m);
    AckCrash(s, from, v, m);
    var u := AckFrom(s, from, At(v, s.committed.ts + 1), At(v, m));
    LeadWaiting(s, v);
    LeadWaiting(u, v);
    hide Leads, AckFrom, Mids, Majority;
    forall k: nat | Waiting(u, v, k) ensures Received(u, v, k) <= H(k) {
      assert Waiting(s, v, k);
    }
  }

  lemma ReplicateCbStepped(s: Cohort, v: View, H: nat -> set<Mid>, from: Mid, vs: Viewstamp)
    requires Leads(s, v) && Backed(s, v, H) && AckTrue(s, v, H, from, vs)
    ensures var t := ReplicateCb(s, from, vs); Stepped(s, t, v, H) && t.latest == s.latest
  {
    hide Backed, AckFrom, ReplicateCb, AdvanceCommitted, Mids, Exact;
    if from !in Mids(v) || Le(vs, s.committed) {
      CbIgnores(s, v, from, vs);
      FrameStepped(s, s, v, H);
    } else {
      CbOwn(s, v, vs);
      ReplicateCbLeads(s, v, from, vs.ts);
      hide Leads;
      var u := AckFrom(s, from, At(v, s.committed.ts + 1), vs);
      AckLed(s, v, H, from, vs.ts);
      LedCommit(s, u, v, H);
    }
  }

  /** An acknowledgement of a stamp this cohort gave out; if of this view, by a cohort that holds it. */
  ghost predicate AckTrue(s: Cohort, v: View, H: nat -> set<Mid>, from: Mid, vs: Viewstamp) {
    Le(vs, s.latest) && (vs.vid == v.vid ==> forall k: nat :: k <= vs.ts ==> from in H(k))
  }

  lemma CbOwn(s: Cohort, v: View, vs: Viewstamp)
    requires Leads(s, v) && Le(vs, s.latest) && Lt(s.committed, vs)
    ensures vs == At(v, vs.ts) && s.committed.ts < vs.ts <= s.latest.ts
  {
    hide Mids, AcksNested;
  }

  lemma CbIgnores(s: Cohort, v: View, from: Mid, vs: Viewstamp)
    requires Leads(s, v) && Le(vs, s.latest) && (from !in Mids(v) || Le(vs, s.committed))
    ensures ReplicateCb(s, from, vs) == s
  {
    hide AckFrom, AdvanceCommitted, Mids, AcksNested;
  }

  lemma AckCrash(s: Cohort, from: Mid, v: View, m: nat)
    requires Leads(s, v) && s.committed.ts < m <= s.latest.ts
    ensures AckFrom(s, from, At(v, s.committed.ts + 1), At(v, m)).crashed == s.crashed
  {
    var lo := s.committed.ts + 1;
    AckFromAdds(s, s, v, from, lo, lo, m);
  }

  // ---------------------------------------------------------------- the primary catches up itself

  /** An entry of another view, and if it forms a view that follows this one, that view follows
      everything this cohort has logged here. */
  predicate Elsewhere(s: Cohort, v: View, vs: Viewstamp, arg: Arg) {
    vs.vid != v.vid && (arg.Form? && arg.form.prev.vid == v.vid ==> s.latest.ts <= arg.form.prev.ts)
  }

  lemma InsertElsewhereLeads(s: Cohort, v: View, vs: Viewstamp, arg: Arg)
    requires Leads(s, v) && WfSlot(vs, arg) && Elsewhere(s, v, vs, arg)
    ensures var t := Insert(s, vs, Entry(arg, None, None, Logged)); Leads(t, v) && SameAcks(s, t, v)
  {
    var t := Insert(s, vs, Entry(arg, None, None, Logged));
    assert forall k: nat :: At(v, k) in t.log <==> At(v, k) in s.log;
    assert forall k: nat :: At(v, k) in s.log ==> t.log[At(v, k)] == s.log[At(v, k)];
    hide Mids;
    assert AcksNested(t, v) by {
      assert forall k: nat :: Waiting(t, v, k) ==> Waiting(s, v, k) && Received(t, v, k) == Received(s, v, k);
    }
  }

  /** Through a state t with the same acknowledgement sets. */
  lemma AcksStepped(s: Cohort, t: Cohort, u: Cohort, v: View, H: nat -> set<Mid>)
    requires Leads(s, v) && Backed(s, v, H) && Leads(t, v) && SameAcks(s, t, v)
    requires t.latest == s.latest && t.committed == s.committed && LeadFrame(t, u) && u.crashed == s.crashed
    ensures Stepped(s, u, v, H) && u.latest == s.latest
  {
    FrameLeads(t, u, v);
    LeadWaiting(u, v);
    LeadWaiting(s, v);
    hide Leads, Majority, Mids;
    forall k: nat | Waiting(u, v, k) ensures Waiting(s, v, k) && Received(u, v, k) == Received(s, v, k) {
      assert Waiting(t, v, k) && Waiting(s, v, k);
    }
  }

  lemma NoteFetchedStepped(s: Cohort, v: View, H: nat -> set<Mid>, i: nat, vs: Viewstamp, resp: Option<Arg>)
    requires Leads(s, v) && Backed(s, v, H) && i < |s.pulls| && (resp.Some? ==> WfSlot(vs, resp.value))
    requires resp.Some? && vs !in s.log ==> Elsewhere(s, v, vs, resp.value)
    ensures var t := NoteFetched(s, i, vs, resp); Stepped(s, t, v, H) && t.latest == s.latest
  {
    var t := NoteFetched(s, i, vs, resp);
    if vs !in s.log && resp.Some? {
      var u := Insert(s, vs, Entry(resp.value, None, None, Logged));
      InsertElsewhereLeads(s, v, vs, resp.value);
      hide Leads, JumpsUpdate, Backed;
      assert LeadFrame(u, t);
      AcksStepped(s, u, t, v, H);
    } else {
      hide Leads, Backed;
      FrameStepped(s, t, v, H);
    }
  }

  lemma StepBackLeadFrame(s: Cohort, i: nat)
    requires i < |s.pulls|
    ensures LeadFrame(s, StepBack(s, i)) && StepBack(s, i).crashed == s.crashed
  {
    hide Missing;
  }

  lemma SettleLeadFrame(s: Cohort, i: nat)
    requires i < |s.pulls|
    ensures LeadFrame(s, Settle(s, i)) && Settle(s, i).crashed == s.crashed
  {
    var pl := s.pulls[i];
    FireLeadFrame(s, pl.done, pl.ok && pl.bottomdone);
    hide Fire;
  }

  lemma FireLeadFrame(s: Cohort, done: DoneCb, good: bool)
    ensures LeadFrame(s, Fire(s, done, good)) && Fire(s, done, good).crashed == s.crashed
  {
  }

  lemma FetchlogCheckStepped(s: Cohort, v: View, H: nat -> set<Mid>, i: nat)
    requires Leads(s, v) && Backed(s, v, H) && i < |s.pulls|
    ensures var t := FetchlogCheck(s, i); Stepped(s, t, v, H) && t.latest == s.latest
  {
    hide Leads, Backed, AdvanceCommitted, StepBack, Settle, LeadFrame, Exact;
    var s1 := AdvanceCommitted(s);
    assert Led(s, s, v, H);
    LedCommit(s, s, v, H);
    AdvanceCommittedKeepsPulls(s);
    var s2 := StepBack(s1, i);
    StepBackLeadFrame(s1, i);
    StepBackFrame(s1, i);
    FrameStepped(s1, s2, v, H);
    SettleLeadFrame(s2, i);
    FrameStepped(s2, Settle(s2, i), v, H);
    hide Stepped;
    SteppedTrans(s, s1, s2, v, H);
    SteppedTrans(s, s2, Settle(s2, i), v, H);
  }

  lemma SteppedOn(s: Cohort, t: Cohort, v: View, H: nat -> set<Mid>)
    requires Leads(s, v) && Stepped(s, t, v, H)
    ensures Leads(t, v) && Backed(t, v, H)
  {
  }

  lemma FetchlogCbStepped(s: Cohort, v: View, H: nat -> set<Mid>, i: nat, vs: Viewstamp, resp: Option<Arg>)
    requires Leads(s, v) && Backed(s, v, H) && i < |s.pulls| && (resp.Some? ==> WfSlot(vs, resp.value))
    requires resp.Some? && vs !in s.log ==> Elsewhere(s, v, vs, resp.value)
    ensures var t := FetchlogCb(s, i, vs, resp); Stepped(s, t, v, H) && t.latest == s.latest
  {
    hide Leads, Backed, NoteFetched, FetchlogCheck, Stepped;
    var u := NoteFetched(s, i, vs, resp);
    NoteFetchedStepped(s, v, H, i, vs, resp);
    SteppedOn(s, u, v, H);
    FetchlogCheckStepped(u, v, H, i);
    SteppedTrans(s, u, FetchlogCheck(u, i), v, H);
  }

  lemma OpenPullLeadFrame(s: Cohort, src: Mid, latest: Viewstamp, done: DoneCb)
    ensures LeadFrame(s, OpenPull(s, src, latest, done)) && OpenPull(s, src, latest, done).crashed == s.crashed
  {
    hide Missing;
  }

  lemma PullLogStepped(s: Cohort, v: View, H: nat -> set<Mid>, src: Mid, latest: Viewstamp, done: DoneCb)
    requires Leads(s, v) && Backed(s, v, H)
    ensures var t := PullLog(s, src, latest, done); Stepped(s, t, v, H) && t.latest == s.latest
  {
    hide Leads, Backed, OpenPull, FetchlogCheck, LeadFrame, Stepped;
    var u := OpenPull(s, src, latest, done);
    OpenPullLeadFrame(s, src, latest, done);
    FrameStepped(s, u, v, H);
    SteppedOn(s, u, v, H);
    FetchlogCheckStepped(u, v, H, |s.pulls|);
    SteppedTrans(s, u, FetchlogCheck(u, |s.pulls|), v, H);
  }

  lemma OnNewViewStepped(s: Cohort, v: View, H: nat -> set<Mid>, src: Mid, xid: nat, nv: NvArg)
    requires Leads(s, v) && Backed(s, v, H)
    ensures var t := OnNewView(s, src, xid, nv); Stepped(s, t, v, H) && t.latest == s.latest
  {
    hide Leads, Backed, PullLog, RefusesNv, AbortOther, Stepped;
    if RefusesNv(s, nv.view.vid) {
      FrameStepped(s, OnNewView(s, src, xid, nv), v, H);
    } else {
      var u := AdoptNewView(s, nv.view);
      FrameStepped(s, u, v, H);
      SteppedOn(s, u, v, H);
      PullLogStepped(u, v, H, nv.view.primary, nv.latest, AnswerNewView(src, xid, nv.view.vid));
      SteppedTrans(s, u, OnNewView(s, src, xid, nv), v, H);
    }
  }

  // ---------------------------------------------------------------- formations of the past

  /** An old REPLICATE finds its entry and everything before it committed. */
  lemma OnReplicateStepped(s: Cohort, v: View, H: nat -> set<Mid>, src: Mid, vs: Viewstamp, arg: Arg, committed: Viewstamp)
    requires Leads(s, v) && Backed(s, v, H) && WfSlot(vs, arg)
    requires vs.ts == 0 ==> Le(vs, s.committed) && Le(committed, s.committed)
    ensures var t := OnReplicate(s, src, vs, arg, committed); Stepped(s, t, v, H) && t.latest == s.latest
  {
    hide Backed, PullLog, AdvanceExecuted, AcksNested, Mids, Insert;
    if RefusesReplicate(s, vs) {
      FrameStepped(s, s, v, H);
    } else {
      assert vs.ts == 0;
      assert s.(committed := s.committed) == s;
      var u := AdvanceExecuted(s);
      assert StoreReplicate(s, vs, arg, committed) == u;
      AdvanceExecutedStepped(s, v, H);
      hide Leads, StoreReplicate, Stepped;
      SteppedOn(s, u, v, H);
      PullLogStepped(u, v, H, arg.form.view.primary, vs, AckReplicate(src, vs));
      SteppedTrans(s, u, OnReplicate(s, src, vs, arg, committed), v, H);
    }
  }

  lemma AdvanceExecutedStepped(s: Cohort, v: View, H: nat -> set<Mid>)
    requires Leads(s, v) && Backed(s, v, H)
    ensures var u := AdvanceExecuted(s); Stepped(s, u, v, H) && u.latest == s.latest
  {
    hide AdvanceExecuted;
    ExecFromLeads(s, v);
    var u := AdvanceExecuted(s);
    LeadFrameRefl(u);
    AcksStepped(s, u, u, v, H);
  }

  // ---------------------------------------------------------------- all handlers

  /** What a step needs of its event: acknowledgements are true, REPLICATE and fetched entries are old,
      and if it takes a request it knows of no later view. */
  ghost predicate PrimaryFed(s: Cohort, v: View, H: nat -> set<Mid>, e: Event) {
    match e
    case Execute(_, req) => TakesRequest(s, req) ==> LastView(s, v) && v.primary in H(s.latest.ts + 1)
    case Replicated(src, vs) => AckTrue(s, v, H, src, vs)
    case Fetched(_, vs, resp) => resp.Some? && vs !in s.log ==> Elsewhere(s, v, vs, resp.value)
    case Replicate(_, vs, _, committed) => vs.ts == 0 ==> Le(vs, s.committed) && Le(committed, s.committed)
    case InitView(f) => !FormsView(s, f)
    case _ => true
  }

  /** A view change in progress, and the state machine's answers, do not concern the loop. */
  lemma OtherFrame(s: Cohort, e: Event)
    requires EventOk(s, e)
    requires ManagerEvent(e) || e.VcRequest? || e.ExecDone? || e.Fetchlog?
    ensures LeadFrame(s, Handle(s, e))
    ensures !ManagerEvent(e) ==> Handle(s, e).crashed == s.crashed
  {
    hide PrepareCb, NewviewCb, Initiate, OnViewChange, ManagerFrame, ExecuteDone;
    match e
    case StartAttempt(joiners) => InitiateLeadFrame(s, joiners);
    case VcRequest(src, xid, oldview, newvid) => OnViewChangeLeadFrame(s, src, xid, oldview, newvid);
    case VcAnswered(xid, src, res) =>
      PrepareCbFrame(s, xid, src, res);
      ManagerLeadFrame(s, PrepareCb(s, xid, src, res));
    case NvAnswered(xid, src, acc) =>
      NewviewCbFrame(s, xid, src, acc);
      ManagerLeadFrame(s, NewviewCb(s, xid, src, acc));
    case ExecDone(vs, reply) => ExecuteDoneLeadFrame(s, vs, reply);
    case Fetchlog(vs) =>
  }

  lemma ManagerLeadFrame(s: Cohort, t: Cohort)
    requires ManagerFrame(s, t)
    ensures LeadFrame(s, t)
  {
  }

  lemma InitiateLeadFrame(s: Cohort, joiners: seq<Mid>)
    ensures LeadFrame(s, Initiate(s, joiners))
  {
    hide MaxVid, Mids;
  }

  lemma OnViewChangeLeadFrame(s: Cohort, src: Mid, xid: nat, oldview: View, newvid: Viewid)
    ensures LeadFrame(s, OnViewChange(s, src, xid, oldview, newvid))
    ensures OnViewChange(s, src, xid, oldview, newvid).crashed == s.crashed
  {
    hide MyReport, AbortOther, RefusesVc;
  }

  lemma ExecuteDoneLeadFrame(s: Cohort, vs: Viewstamp, reply: string)
    requires vs in s.log && s.log[vs].arg.Client?
    ensures LeadFrame(s, ExecuteDone(s, vs, reply)) && ExecuteDone(s, vs, reply).crashed == s.crashed
  {
    var u := FinishEntry(s, vs, reply);
    assert u.log.Keys == s.log.Keys;
    assert LeadFrame(s, u) && u.crashed == s.crashed;
    hide FinishEntry;
  }

  /** The primary's part of the invariant survives every event of a run of one view. */
  lemma HandleStepped(s: Cohort, v: View, H: nat -> set<Mid>, e: Event)
    requires Leads(s, v) && Backed(s, v, H) && EventOk(s, e) && PrimaryFed(s, v, H, e)
    ensures var t := Handle(s, e);
            && Stepped(s, t.(crashed := s.crashed), v, H)
            && (!ManagerEvent(e) ==> t.crashed == s.crashed)
            && (if e.Execute? && TakesRequest(s, e.req)
                then t.latest == At(v, s.latest.ts + 1) && t.latest in t.log && t.log[t.latest].arg == Client(e.req)
                else t.latest == s.latest)
  {
    hide Leads, Backed, Exact, TakesRequest;
    hide OnExecute, ExecuteDone, OnReplicate, ReplicateCb, FetchlogCb, OnNewView, Initiate, OnViewChange, PrepareCb, NewviewCb, OnFetchlog, LastView;
    var t := Handle(s, e);
    match e
    case Execute(handle, req) =>
      if TakesRequest(s, req) {
        TakeStepped(s, v, H, handle, req);
      } else {
        NotTakenFrame(s, handle, req);
        FrameStepped(s, t, v, H);
      }
    case Replicate(src, vs, arg, committed) => OnReplicateStepped(s, v, H, src, vs, arg, committed);
    case InitView(f) => FrameStepped(s, s, v, H);
    case Replicated(src, vs) => ReplicateCbStepped(s, v, H, src, vs);
    case Fetched(i, vs, resp) => FetchlogCbStepped(s, v, H, i, vs, resp);
    case NvRequest(src, xid, nv) => OnNewViewStepped(s, v, H, src, xid, nv);
    case _ =>
      OtherFrame(s, e);
      hide Handle;
      FrameStepped(s, t.(crashed := s.crashed), v, H);
  }
}
