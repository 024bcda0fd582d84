/** Every handler run by a cohort that is not the primary of the current view. */
module BackupSteps {
  import opened Stamps
  import opened CohortSpec
  import opened CohortInvariants
  import opened Traffic

  /** Nothing this cohort logged as a primary is still waiting for acknowledgements. */
  ghost predicate Lags(s: Cohort) {
    Le(s.latest, s.committed)
  }

  ghost predicate SameCursors(s: Cohort, t: Cohort) {
    t.latest == s.latest && t.committed == s.committed && t.crashed == s.crashed
  }

  lemma AdvanceExecutedCursors(s: Cohort)
    ensures SameCursors(s, AdvanceExecuted(s))
  {
    ExecFromFrame(s, VsNext(s.jumps, s.executed));
  }

  /** The commit loop has nothing to do, so it dereferences no acknowledgement set. */
  lemma AdvanceCommittedCursors(s: Cohort)
    requires Lags(s)
    ensures SameCursors(s, AdvanceCommitted(s))
  {
    AdvanceExecutedCursors(s);
    assert CommitFrom(s, VsNext(s.jumps, s.committed)) == s;
    hide CommitFrom, AdvanceExecuted;
  }

  lemma StepBackCursors(s: Cohort, i: nat)
    requires i < |s.pulls|
    ensures SameCursors(s, StepBack(s, i))
  {
    hide Missing;
  }

  lemma SettleCursors(s: Cohort, i: nat)
    requires i < |s.pulls|
    ensures SameCursors(s, Settle(s, i))
  {
  }

  lemma FetchlogCheckCursors(s: Cohort, i: nat)
    requires Lags(s) && i < |s.pulls|
    ensures SameCursors(s, FetchlogCheck(s, i))
  {
    hide AdvanceCommitted, StepBack, Settle;
    AdvanceCommittedCursors(s);
    AdvanceCommittedKeepsPulls(s);
    var s1 := AdvanceCommitted(s);
    StepBackCursors(s1, i);
    StepBackFrame(s1, i);
    SettleCursors(StepBack(s1, i), i);
  }

  lemma PullLogCursors(s: Cohort, src: Mid, latest: Viewstamp, done: DoneCb)
    requires Lags(s)
    ensures SameCursors(s, PullLog(s, src, latest, done))
  {
    hide FetchlogCheck, Missing;
    FetchlogCheckCursors(OpenPull(s, src, latest, done), |s.pulls|);
  }

  lemma FetchlogCbCursors(s: Cohort, i: nat, vs: Viewstamp, resp: Option<Arg>)
    requires Lags(s) && i < |s.pulls| && (resp.Some? ==> WfSlot(vs, resp.value))
    ensures SameCursors(s, FetchlogCb(s, i, vs, resp))
  {
    hide FetchlogCheck, JumpsUpdate;
    assert SameCursors(s, NoteFetched(s, i, vs, resp));
    FetchlogCheckCursors(NoteFetched(s, i, vs, resp), i);
  }

  /** REPLICATE at a cohort that lags once it has heard of the new `committed`. */
  lemma OnReplicateCursors(s: Cohort, src: Mid, vs: Viewstamp, arg: Arg, committed: Viewstamp)
    requires Lags(RaiseCommitted(s, committed)) && WfSlot(vs, arg)
    ensures var t := OnReplicate(s, src, vs, arg, committed);
            && t.latest == s.latest && t.crashed == s.crashed
            && t.committed == if RefusesReplicate(s, vs) then s.committed else RaiseCommitted(s, committed).committed
  {
    hide PullLog, AdvanceExecuted, JumpsUpdate;
    if !RefusesReplicate(s, vs) {
      var u := RaiseCommitted(StoreEntry(s, vs, arg), committed);
      assert u.latest == s.latest && u.crashed == s.crashed;
      assert u.committed == RaiseCommitted(s, committed).committed;
      AdvanceExecutedCursors(u);
      hide RaiseCommitted, StoreEntry;
      var primary := if vs.ts != 0 then s.view.primary else arg.form.view.primary;
      PullLogCursors(AdvanceExecuted(u), primary, vs, AckReplicate(src, vs));
    }
  }

  lemma LagsOn(s: Cohort, committed: Viewstamp)
    requires Lags(s)
    ensures Lags(RaiseCommitted(s, committed))
  {
  }

  lemma OnNewViewCursors(s: Cohort, src: Mid, xid: nat, nv: NvArg)
    requires Lags(s)
    ensures SameCursors(s, OnNewView(s, src, xid, nv))
  {
    hide PullLog, RefusesNv, AbortOther;
    if !RefusesNv(s, nv.view.vid) {
      PullLogCursors(AdoptNewView(s, nv.view), nv.view.primary, nv.latest, AnswerNewView(src, xid, nv.view.vid));
    }
  }

  lemma OnExecuteCursors(s: Cohort, handle: nat, req: Request)
    requires !TakesRequest(s, req)
    ensures SameCursors(s, OnExecute(s, handle, req))
  {
    hide Stale, LogRequest, AdvanceCommitted;
  }

  lemma InitiateCursors(s: Cohort, joiners: seq<Mid>)
    ensures SameCursors(s, Initiate(s, joiners))
  {
    hide MaxVid, Mids;
  }

  lemma OnViewChangeCursors(s: Cohort, src: Mid, xid: nat, oldview: View, newvid: Viewid)
    ensures SameCursors(s, OnViewChange(s, src, xid, oldview, newvid))
  {
    hide MyReport, AbortOther, RefusesVc;
  }

  lemma ManagerCursors(s: Cohort, t: Cohort)
    requires ManagerFrame(s, t)
    ensures t.latest == s.latest && t.committed == s.committed
  {
  }

  /** The assertion of `replicate_cb` on the views of `latest` and `committed` fails. */
  predicate OutrunsLatest(s: Cohort) {
    s.view.primary == s.self && s.latest.vid != s.committed.vid
  }

  /** An acknowledgement changes nothing at a cohort that lags, or fails the assertion. */
  lemma ReplicateCbCursors(s: Cohort, from: Mid, vs: Viewstamp)
    requires Lags(s) && Le(vs, s.latest)
    ensures ReplicateCb(s, from, vs) == if OutrunsLatest(s) then s.(crashed := true) else s
  {
    hide AckFrom, AdvanceCommitted, IsMember;
  }

  /** `committed` of a cohort that takes no requests follows what it is told, and nothing crashes but
      an acknowledgement that finds `committed` in a later view than `latest`. */
  lemma HandleLags(s: Cohort, e: Event)
    requires Lags(s) && EventOk(s, e)
    requires e.Execute? ==> !TakesRequest(s, e.req)
    requires e.Replicated? ==> Le(e.vs, s.latest)
    requires e.InitView? ==> !FormsView(s, e.form)
    ensures var t := Handle(s, e);
            && t.latest == s.latest
            && (!ManagerEvent(e) ==> t.crashed == (s.crashed || (e.Replicated? && OutrunsLatest(s))))
            && (t.committed == s.committed
                || (e.Replicate? && t.committed == e.committed && Lt(s.committed, e.committed)))
  {
    hide TakesRequest, ManagerFrame, Lags;
    hide OnExecute, ExecuteDone, OnReplicate, ReplicateCb, FetchlogCb, OnNewView, Initiate, OnViewChange, PrepareCb, NewviewCb, OnFetchlog;
    match e
    case Execute(handle, req) => OnExecuteCursors(s, handle, req);
    case ExecDone(vs, reply) => ExecuteDoneCursors(s, vs, reply);
    case Replicate(src, vs, arg, committed) => LagsOn(s, committed); OnReplicateCursors(s, src, vs, arg, committed);
    case Replicated(src, vs) => ReplicateCbCursors(s, src, vs);
    case InitView(f) =>
    case Fetchlog(vs) => FetchlogCursors(s, vs);
    case Fetched(i, vs, resp) => FetchlogCbCursors(s, i, vs, resp);
    case StartAttempt(joiners) => InitiateCursors(s, joiners);
    case VcRequest(src, xid, oldview, newvid) => OnViewChangeCursors(s, src, xid, oldview, newvid);
    case VcAnswered(xid, src, res) =>
      PrepareCbFrame(s, xid, src, res);
      ManagerCursors(s, PrepareCb(s, xid, src, res));
    case NvRequest(src, xid, nv) => OnNewViewCursors(s, src, xid, nv);
    case NvAnswered(xid, src, acc) =>
      NewviewCbFrame(s, xid, src, acc);
      ManagerCursors(s, NewviewCb(s, xid, src, acc));
  }

  /** A former primary that hears of a formation at or beyond its last stamp has nothing waiting any
      more: from then on it lags. */
  lemma FormerHears(s: Cohort, src: Mid, vs: Viewstamp, arg: Arg, committed: Viewstamp)
    requires WfSlot(vs, arg) && vs.ts == 0 && Le(s.latest, committed) && Lt(s.committed, committed)
    ensures var t := OnReplicate(s, src, vs, arg, committed);
            Lags(t) && t.latest == s.latest && t.committed == committed && t.crashed == s.crashed
  {
    OnReplicateCursors(s, src, vs, arg, committed);
    hide OnReplicate;
  }

  lemma ExecuteDoneCursors(s: Cohort, vs: Viewstamp, reply: string)
    requires vs in s.log && s.log[vs].arg.Client?
    ensures SameCursors(s, ExecuteDone(s, vs, reply))
  {
  }

  lemma FetchlogCursors(s: Cohort, vs: Viewstamp)
    ensures SameCursors(s, OnFetchlog(s, vs))
  {
  }
}
