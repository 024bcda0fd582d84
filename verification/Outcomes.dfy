/** What each handler of a cohort does, for every case: the messages it must send, and what it records. */
module Outcomes {
  import opened Stamps
  import opened CohortSpec
  import opened CohortInvariants
  import opened LogPull
  import opened Traffic
  import opened Quorum
  import opened AckSets

  // ---------------------------------------------------------------- VIEW_CHANGE

  /** An attempt that is under way hears an answer, or that there is none. */
  ghost predicate Hears(s: Cohort, xid: nat) {
    s.attempt.Some? && s.attempt.value.xid == xid && !s.attempt.value.aborted
  }

  /** An attempt asks every member of the installed view and every joiner, and proposes a view above
      everything this cohort knows of. */
  lemma InitiateOutcome(s: Cohort, joiners: seq<Mid>)
    ensures var t := Initiate(s, joiners);
            if (s.attempt.Some? && !s.attempt.value.aborted) || !s.validView || s.self !in Mids(s.view) then t == s
            else
              && t.mode == ViewChange && Hears(t, s.nextXid) && s.nextXid < t.nextXid
              && var a := t.attempt.value;
                 && a.proposedVid.manager == s.self && VidLt(s.view.vid, a.proposedVid) && VidLt(s.proposedVid, a.proposedVid)
                 && a.underlings == Mids(s.view) + (set j | j in joiners) && a.prepareDone == {} && a.accepts == []
                 && t.sent == s.sent + (set u | u in a.underlings :: VcCall(s.self, u, a.xid, s.view, a.proposedVid))
  {
    hide Mids;
  }

  /** VIEW_CHANGE is always answered: with a refusal if it leaves an older view or proposes less than was
      promised, and otherwise with a promise and a report of the longest gapless log. */
  lemma ViewChangeOutcome(s: Cohort, src: Mid, xid: nat, oldview: View, newvid: Viewid)
    ensures var t := OnViewChange(s, src, xid, oldview, newvid);
            if (s.validView && VidLt(oldview.vid, s.view.vid)) || VidLt(newvid, s.proposedVid) then
              t == s.(sent := s.sent + {VcReply(s.self, src, xid, newvid,
                                                Reject(if s.validView then Some(s.view) else None, s.proposedVid))})
            else
              && t.proposedVid == newvid && t.mode == ViewChange && t.acceptedView == s.acceptedView
              && (t.attempt.Some? && !t.attempt.value.aborted ==> t.attempt == s.attempt && t.attempt.value.proposedVid == newvid)
              && t.sent == s.sent + {VcReply(s.self, src, xid, newvid,
                                             Accept(Report(s.self, ScanFrom(s.log, s.jumps, s.executed), s.acceptedView)))}
  {
    hide ScanFrom;
  }

  lemma CheckKeepsRecord(s: Cohort)
    requires s.attempt.Some?
    ensures SameRecord(s, CheckPrepare(s))
    decreases s.attempt.value.newview.Some? && VidLt(s.attempt.value.mergedVid, s.attempt.value.newview.value.vid)
  {
    hide Majority, Mids, Extend, ChooseAndIssue, AbortAttempt, SameRecord;
    RecordParts(s);
    var a := s.attempt.value;
    if !(a.aborted || |a.prepareDone| != |a.underlings| || !Majority(a.prepareAccepted, Mids(s.view)))
       && a.newview.Some? && VidLt(a.mergedVid, a.newview.value.vid) {
      ExtendMerges(s);
      CheckKeepsRecord(Extend(s));
      RecordTrans(s, Extend(s), CheckPrepare(Extend(s)));
    }
  }

  /** What the attempt has been told, and the promise of its manager. */
  ghost predicate SameRecord(s: Cohort, t: Cohort) {
    && t.proposedVid == s.proposedVid && s.attempt.Some? && t.attempt.Some?
    && var a, b := s.attempt.value, t.attempt.value;
       && b.prepareDone == a.prepareDone && b.prepareAccepted == a.prepareAccepted && b.accepts == a.accepts
       && b.newview == a.newview && b.xid == a.xid && b.proposedVid == a.proposedVid && (a.aborted ==> b.aborted)
  }

  lemma RecordTrans(s: Cohort, t: Cohort, u: Cohort)
    requires SameRecord(s, t) && SameRecord(t, u)
    ensures SameRecord(s, u)
  {
  }

  lemma RecordParts(s: Cohort)
    requires s.attempt.Some?
    ensures SameRecord(s, s) && SameRecord(s, AbortAttempt(s)) && SameRecord(s, ChooseAndIssue(s))
    ensures s.attempt.value.newview.Some? ==> SameRecord(s, Extend(s))
  {
    hide Choose, Mids;
  }

  /** Of two views that may have been reported, the later. */
  ghost predicate IsLater(w: Option<View>, a: Option<View>, b: Option<View>) {
    && (w == a || w == b)
    && (a.Some? ==> w.Some? && VidLe(a.value.vid, w.value.vid))
    && (b.Some? ==> w.Some? && VidLe(b.value.vid, w.value.vid))
  }

  /** Every answer is recorded: who has been heard of, the first acceptance of each with its report and
      the latest view reported; a refusal ends the attempt and raises the promise. */
  lemma AnswerRecorded(s: Cohort, xid: nat, from: Mid, res: Option<VcAnswer>)
    requires Hears(s, xid)
    ensures var t := PrepareCb(s, xid, from, res);
            && t.attempt.Some? && t.attempt.value.prepareDone == s.attempt.value.prepareDone + {from}
            && var a, b := s.attempt.value, t.attempt.value;
               && (if res.Some? && res.value.Accept? && from !in a.prepareAccepted then
                     && b.prepareAccepted == a.prepareAccepted + {from} && b.accepts == a.accepts + [res.value.report]
                     && IsLater(b.newview, a.newview, res.value.report.newview)
                   else
                     b.prepareAccepted == a.prepareAccepted && b.accepts == a.accepts && b.newview == a.newview)
               && (if res.Some? && res.value.Reject? then
                     && b.aborted && t.sent == s.sent
                     && t.proposedVid == (if VidLt(s.proposedVid, res.value.newvid) then res.value.newvid else s.proposedVid)
                   else t.proposedVid == s.proposedVid)
  {
    var u := NotePrepare(s, from, res);
    CheckKeepsRecord(u);
    assert res.Some? && res.value.Reject? ==> CheckPrepare(u) == u;
    hide CheckPrepare;
  }

  /** The members of the latest view reported whom the attempt has not asked yet. */
  ghost function NotAsked(a: Attempt, w: Option<View>): set<Mid> {
    if w.Some? && VidLt(a.mergedVid, w.value.vid) then Mids(w.value) - a.underlings else {}
  }

  /** What an answer to VIEW_CHANGE leads to. Nothing is sent before everybody asked has been heard of;
      then the attempt ends if no majority of the installed view has accepted; else it asks the members
      of the latest view reported that it has not asked; else it ends if no majority of those has
      accepted; else every underling is sent the choice. */
  lemma PrepareOutcome(s: Cohort, xid: nat, from: Mid, res: Option<VcAnswer>)
    requires Hears(s, xid) && (res.Some? ==> res.value.Accept?)
    ensures var t := PrepareCb(s, xid, from, res);
            t.attempt.Some? &&
            var a, b := s.attempt.value, t.attempt.value;
            var more := NotAsked(a, b.newview);
            if |b.prepareDone| != |a.underlings| then
              t.sent == s.sent && !b.aborted && b.underlings == a.underlings
            else if !Majority(b.prepareAccepted, Mids(s.view)) then
              t.sent == s.sent && b.aborted
            else if more != {} then
              && !b.aborted && b.underlings == a.underlings + more
              && t.sent == s.sent + (set u | u in more :: VcCall(s.self, u, xid, s.view, a.proposedVid))
            else if b.newview.Some? && !Majority(b.prepareAccepted, Mids(b.newview.value)) then
              t.sent == s.sent && b.aborted
            else if Choose(b).None? then
              t.sent == s.sent && t.crashed
            else
              && !b.aborted && b.nvarg == Choose(b).value
              && t.sent == s.sent + (set u | u in a.underlings :: NvCall(s.self, u, xid, Choose(b).value))
  {
    var u := NotePrepare(s, from, res);
    assert u.sent == s.sent && u.view == s.view && u.self == s.self && !u.attempt.value.aborted && u.attempt.value.xid == xid
           && u.attempt.value.underlings == s.attempt.value.underlings && u.attempt.value.mergedVid == s.attempt.value.mergedVid
           && u.attempt.value.proposedVid == s.attempt.value.proposedVid;
    hide NotePrepare;
    CheckKeepsRecord(u);
    hide CheckPrepare;
    CheckOutcome(u);
    SameChoice(u.attempt.value, CheckPrepare(u).attempt.value);
    hide Majority, Mids, Choose;
  }

  lemma SameChoice(a: Attempt, b: Attempt)
    requires b.accepts == a.accepts && b.newview == a.newview && b.proposedVid == a.proposedVid
    ensures Choose(a) == Choose(b)
  {
  }

  /** The same for an attempt whose record is complete. */
  ghost predicate Checked(s: Cohort, t: Cohort)
    requires s.attempt.Some? && t.attempt.Some?
  {
    var a, b := s.attempt.value, t.attempt.value;
    var more := NotAsked(a, a.newview);
    if |a.prepareDone| != |a.underlings| then t == s
    else if !Majority(a.prepareAccepted, Mids(s.view)) then t.sent == s.sent && b.aborted
    else if more != {} then
      && !b.aborted && b.underlings == a.underlings + more
      && t.sent == s.sent + (set u | u in more :: VcCall(s.self, u, a.xid, s.view, a.proposedVid))
    else if a.newview.Some? && !Majority(a.prepareAccepted, Mids(a.newview.value)) then t.sent == s.sent && b.aborted
    else if Choose(a).None? then t.sent == s.sent && t.crashed
    else
      && !b.aborted && b.nvarg == Choose(a).value
      && t.sent == s.sent + (set u | u in a.underlings :: NvCall(s.self, u, a.xid, Choose(a).value))
  }

  ghost predicate Merges(a: Attempt) {
    a.newview.Some? && VidLt(a.mergedVid, a.newview.value.vid)
  }

  lemma IssueOutcome(s: Cohort)
    requires s.attempt.Some? && !s.attempt.value.aborted
    ensures var a, t := s.attempt.value, ChooseAndIssue(s);
            && t.attempt.Some? && t.sent == s.sent + (if Choose(a).None? then {} else set u | u in a.underlings :: NvCall(s.self, u, a.xid, Choose(a).value))
            && (if Choose(a).None? then t.crashed else !t.attempt.value.aborted && t.attempt.value.nvarg == Choose(a).value)
  {
    hide Choose;
  }

  lemma CheckPlain(s: Cohort)
    requires s.attempt.Some? && !s.attempt.value.aborted && !Merges(s.attempt.value)
    ensures CheckPrepare(s).attempt.Some? && Checked(s, CheckPrepare(s))
  {
    IssueOutcome(s);
    assert NotAsked(s.attempt.value, s.attempt.value.newview) == {};
    hide Majority, Mids, Choose, ChooseAndIssue, NotAsked, Merges;
    var a := s.attempt.value;
    if |a.prepareDone| == |a.underlings| && Majority(a.prepareAccepted, Mids(s.view))
       && !(a.newview.Some? && !Majority(a.prepareAccepted, Mids(a.newview.value))) {
      assert CheckPrepare(s) == ChooseAndIssue(s) by { NotMerging(s); }
      hide CheckPrepare;
    }
  }

  lemma NotMerging(s: Cohort)
    requires s.attempt.Some? && !s.attempt.value.aborted && !Merges(s.attempt.value)
    requires var a := s.attempt.value;
             && |a.prepareDone| == |a.underlings| && Majority(a.prepareAccepted, Mids(s.view))
             && (a.newview.Some? ==> Majority(a.prepareAccepted, Mids(a.newview.value)))
    ensures CheckPrepare(s) == ChooseAndIssue(s)
  {
    hide Majority, Mids, ChooseAndIssue;
  }

  /** A reported view all of whose members were asked. */
  lemma ExtendNobody(s: Cohort)
    requires s.attempt.Some? && Merges(s.attempt.value) && NotAsked(s.attempt.value, s.attempt.value.newview) == {}
    ensures Extend(s) == s.(attempt := Some(s.attempt.value.(mergedVid := s.attempt.value.newview.value.vid)))
  {
    var a := s.attempt.value;
    var more := NotAsked(a, a.newview);
    assert a.underlings + more == a.underlings;
    assert s.sent + (set x | x in more :: VcCall(s.self, x, a.xid, s.view, a.proposedVid)) == s.sent;
    hide Mids;
  }

  lemma ExtendSomebody(s: Cohort)
    requires s.attempt.Some? && !s.attempt.value.aborted && Merges(s.attempt.value)
    requires NotAsked(s.attempt.value, s.attempt.value.newview) != {}
    requires |s.attempt.value.prepareDone| == |s.attempt.value.underlings|
    requires Majority(s.attempt.value.prepareAccepted, Mids(s.view))
    ensures CheckPrepare(s) == Extend(s) && Checked(s, Extend(s))
  {
    var a, u := s.attempt.value, Extend(s);
    var more := NotAsked(a, a.newview);
    assert |a.underlings + more| == |a.underlings| + |more| && |more| > 0;
    hide Majority, Mids;
  }

  lemma CheckOutcome(s: Cohort)
    requires s.attempt.Some? && !s.attempt.value.aborted
    ensures CheckPrepare(s).attempt.Some? && Checked(s, CheckPrepare(s))
  {
    hide Majority, Mids;
    var a := s.attempt.value;
    if |a.prepareDone| == |a.underlings| && Majority(a.prepareAccepted, Mids(s.view)) && Merges(a) {
      if NotAsked(a, a.newview) == {} {
        var u := Extend(s);
        ExtendNobody(s);
        assert CheckPrepare(s) == CheckPrepare(u) by { hide Majority, Mids, Extend, ChooseAndIssue; }
        hide CheckPrepare, Extend, Choose;
        CheckPlain(u);
        SameChoice(a, u.attempt.value);
      } else {
        hide Checked;
        ExtendSomebody(s);
        hide CheckPrepare;
      }
    } else {
      CheckEarly(s);
      hide CheckPrepare, Checked;
    }
  }

  lemma CheckEarly(s: Cohort)
    requires s.attempt.Some? && !s.attempt.value.aborted
    requires var a := s.attempt.value;
             !(|a.prepareDone| == |a.underlings| && Majority(a.prepareAccepted, Mids(s.view)) && Merges(a))
    ensures CheckPrepare(s).attempt.Some? && Checked(s, CheckPrepare(s))
  {
    if Merges(s.attempt.value) {
      hide Majority, Mids, Choose, Extend, ChooseAndIssue;
    } else {
      CheckPlain(s);
      hide CheckPrepare, Checked;
    }
  }

  // ---------------------------------------------------------------- NEW_VIEW answered

  /** What an answer to NEW_VIEW leads to: INIT_VIEW goes to the new primary exactly if majorities of both
      views have accepted; without them the attempt ends when everybody has been heard of. */
  lemma NewviewOutcome(s: Cohort, xid: nat, from: Mid, acc: Option<bool>)
    requires s.attempt.Some? && s.attempt.value.xid == xid
    ensures var t := NewviewCb(s, xid, from, acc);
            t.attempt.Some? &&
            var a, b := s.attempt.value, t.attempt.value;
            && b.nvDone == a.nvDone + {from} && b.nvarg == a.nvarg
            && b.nvAccepted == a.nvAccepted + (if acc == Some(true) then {from} else {})
            && if !a.aborted && Majority(b.nvAccepted, Mids(a.nvarg.view)) && Majority(b.nvAccepted, Mids(s.view)) then
                 && !b.aborted
                 && t.sent == s.sent + {InitCall(s.self, a.nvarg.view.primary, ViewForm(a.nvarg.latest, a.nvarg.view))}
               else
                 t.sent == s.sent && b.aborted == (a.aborted || |b.nvDone| == |a.underlings|)
  {
    assert acc == Some(true) || s.attempt.value.nvAccepted + {} == s.attempt.value.nvAccepted;
    hide Majority, Mids;
  }

  // ---------------------------------------------------------------- client requests

  /** The client's latest request known here is this one, and its log entry is at k. */
  ghost predicate KnownAt(s: Cohort, req: Request, k: Viewstamp) {
    req.client in s.cache && s.cache[req.client].rid == req.rid && s.cache[req.client].rle == k && k in s.log
  }

  ghost predicate Known(s: Cohort, req: Request) {
    req.client in s.cache && KnownAt(s, req, s.cache[req.client].rle)
  }

  /** It was logged in an older view and not committed. */
  ghost predicate LeftBehind(s: Cohort, req: Request)
    requires Known(s, req)
  {
    s.log[s.cache[req.client].rle].state == Logged && VidLt(s.cache[req.client].rle.vid, s.view.vid)
  }

  /** s with the client handle of the entry at k replaced. */
  ghost predicate Handled(s: Cohort, t: Cohort, k: Viewstamp, handle: Option<nat>)
    requires k in s.log
  {
    t == s.(log := s.log[k := s.log[k].(sbp := handle)], sent := t.sent)
  }

  /** EXECUTE while a view change is in progress is ignored. */
  lemma ExecuteIgnored(s: Cohort, handle: nat, req: Request)
    requires s.mode != Active
    ensures OnExecute(s, handle, req) == s
  {
  }

  /** A request already executed is answered from the reply cache, and nothing else happens. */
  lemma ExecuteCached(s: Cohort, handle: nat, req: Request)
    requires s.mode == Active && Known(s, req) && s.log[s.cache[req.client].rle].state == Executed
    ensures OnExecute(s, handle, req) == s.(sent := s.sent + {ClientReply(handle, Ok(s.cache[req.client].reply))})
  {
  }

  /** A request that is being worked on takes over the client handle; the answer comes when it is done. */
  lemma ExecuteParked(s: Cohort, handle: nat, req: Request)
    requires s.mode == Active && Known(s, req) && s.log[s.cache[req.client].rle].state != Executed && !LeftBehind(s, req)
    ensures Handled(s, OnExecute(s, handle, req), s.cache[req.client].rle, Some(handle))
    ensures OnExecute(s, handle, req).sent == s.sent
  {
    hide LogRequest, AdvanceCommitted;
  }

  /** Any other request is redirected to the current primary unless it is addressed to the current view
      and this cohort is its primary. */
  lemma ExecuteRedirected(s: Cohort, handle: nat, req: Request)
    requires s.mode == Active && (Known(s, req) ==> LeftBehind(s, req))
    requires req.vid != s.view.vid || s.self != s.view.primary
    ensures var t := OnExecute(s, handle, req);
            && t.sent == s.sent + {ClientReply(handle, Redirect(s.view.vid, s.view.primary))}
            && (if Known(s, req) then Handled(s, t, s.cache[req.client].rle, None) else t == s.(sent := t.sent))
  {
    hide LogRequest, AdvanceCommitted;
  }

  /** Otherwise the primary logs it at the next stamp, remembers where, and sends it to every backup with
      its own `committed`; nobody else is sent anything. */
  lemma ExecuteTaken(s: Cohort, handle: nat, req: Request)
    requires s.mode == Active && (Known(s, req) ==> LeftBehind(s, req))
    requires req.vid == s.view.vid && s.self == s.view.primary && Succ(s.latest) !in s.log
    ensures var t, k := OnExecute(s, handle, req), Succ(s.latest);
            && t.latest == k && k in t.log && t.log[k].arg == Client(req) && t.log[k].sbp == Some(handle)
            && t.cache == s.cache[req.client := CacheEntry(req.rid, k, if req.client in s.cache then s.cache[req.client].reply else "")]
            && (forall b :: b in s.view.backups ==> ReplicateCall(s.self, b, k, Client(req), s.committed) in t.sent)
            && t.sent == s.sent + (set b | b in s.view.backups :: ReplicateCall(s.self, b, k, Client(req), s.committed))
  {
    hide AdvanceCommitted, Park;
    var u := Park(s, req, None);
    ParkParts(s, req);
    var w := LogRequest(u, handle, req);
    LogRequestParts(u, handle, req);
    Unexecuted(s, req);
    hide LogRequest;
    AdvanceCommittedSilent(w);
    AdvanceCommittedSide(w);
  }

  /** The stale copy, if any, is not in the way. */
  lemma Unexecuted(s: Cohort, req: Request)
    requires s.mode == Active && (Known(s, req) ==> LeftBehind(s, req))
    requires req.vid == s.view.vid && s.self == s.view.primary
    ensures forall handle :: OnExecute(s, handle, req) == AdvanceCommitted(LogRequest(Park(s, req, None), handle, req))
  {
    hide AdvanceCommitted, LogRequest, Park;
  }

  lemma ParkParts(s: Cohort, req: Request)
    ensures var u := Park(s, req, None);
            && u == s.(log := u.log) && u.log.Keys == s.log.Keys
  {
  }

  lemma LogRequestParts(s: Cohort, handle: nat, req: Request)
    ensures var w, k := LogRequest(s, handle, req), Succ(s.latest);
            && w.latest == k && k in w.log && w.log[k].arg == Client(req) && w.log[k].sbp == Some(handle)
            && w.cache == s.cache[req.client := CacheEntry(req.rid, k, if req.client in s.cache then s.cache[req.client].reply else "")]
            && w.sent == s.sent + (set b | b in s.view.backups :: ReplicateCall(s.self, b, k, Client(req), s.committed))
  {
    hide JumpsUpdate;
  }

  lemma AdvanceCommittedSide(s: Cohort)
    ensures var t := AdvanceCommitted(s);
            t.latest == s.latest && t.cache == s.cache && SameEntries(s.log, t.log) && Le(s.committed, t.committed)
  {
    var n := VsNext(s.jumps, s.committed);
    CommitFromFrame(s, n);
    var u := CommitFrom(s, n);
    ExecFromFrame(u, VsNext(u.jumps, u.executed));
  }

  /** A completed request is marked, its reply cached, and the client that waits for it is answered. */
  lemma ExecuteDoneOutcome(s: Cohort, vs: Viewstamp, reply: string)
    requires vs in s.log && s.log[vs].arg.Client?
    ensures var t, e := ExecuteDone(s, vs, reply), s.log[vs];
            && t.log == s.log[vs := e.(state := Executed, sbp := None)]
            && t.cache == s.cache[e.arg.req.client := CacheEntry(e.arg.req.rid, vs, reply)]
            && t.sent == s.sent + (if e.sbp.Some? then {ClientReply(e.sbp.value, Ok(reply))} else {})
  {
  }

  // ---------------------------------------------------------------- the log

  /** FETCHLOG is answered exactly if the entry is logged. */
  lemma FetchlogOutcome(s: Cohort, vs: Viewstamp)
    ensures OnFetchlog(s, vs).sent == s.sent + (if vs in s.log then {FetchReply(s.self, vs, s.log[vs].arg)} else {})
  {
  }

  /** From s to t every stamp the i-th pull has come to wait for was asked for, from the pull's source. */
  ghost predicate AsksAll(s: Cohort, t: Cohort) {
    && |s.pulls| <= |t.pulls| && t.self == s.self && s.sent <= t.sent
    && (forall i :: 0 <= i < |s.pulls| ==> t.pulls[i].src == s.pulls[i].src && s.pulls[i].expected <= t.pulls[i].expected)
    && (forall i: nat, k :: i < |t.pulls| && k in t.pulls[i].expected && (i < |s.pulls| ==> k !in s.pulls[i].expected) ==>
          FetchCall(s.self, t.pulls[i].src, i, k) in t.sent)
  }

  lemma AsksTrans(s: Cohort, t: Cohort, u: Cohort)
    requires AsksAll(s, t) && AsksAll(t, u)
    ensures AsksAll(s, u)
  {
    forall i: nat, k | i < |u.pulls| && k in u.pulls[i].expected && (i < |s.pulls| ==> k !in s.pulls[i].expected)
      ensures FetchCall(s.self, u.pulls[i].src, i, k) in u.sent
    {
      if i < |t.pulls| && k in t.pulls[i].expected { assert FetchCall(s.self, t.pulls[i].src, i, k) in t.sent; }
    }
  }

  lemma SamePullsAsk(s: Cohort, t: Cohort)
    requires t.pulls == s.pulls && t.self == s.self && s.sent <= t.sent
    ensures AsksAll(s, t)
  {
  }

  lemma PullUptoAsks(s: Cohort, i: nat, latest: Viewstamp)
    requires i < |s.pulls|
    ensures AsksAll(s, PullUpto(s, i, latest))
  {
    hide Missing;
  }

  lemma StepBackAsks(s: Cohort, i: nat)
    requires i < |s.pulls|
    ensures AsksAll(s, StepBack(s, i)) && |StepBack(s, i).pulls| == |s.pulls|
  {
    hide PullUpto;
    StepBackFrame(s, i);
    var pl := s.pulls[i];
    var xs := Viewstamp(pl.bottomview, 0);
    if VidLt(VsNext(s.jumps, s.executed).vid, pl.bottomview) && xs in s.log {
      var prev := s.log[xs].arg.form.prev;
      var u := s.(pulls := s.pulls[i := pl.(bottomview := prev.vid)]);
      assert AsksAll(s, u);
      PullUptoAsks(u, i, prev);
      AsksTrans(s, u, PullUpto(u, i, prev));
    }
  }

  lemma SettleAsks(s: Cohort, i: nat)
    requires i < |s.pulls|
    ensures AsksAll(s, Settle(s, i))
  {
    hide Fire;
    var pl := s.pulls[i];
    FireFrame(s, pl.done, pl.ok && pl.bottomdone);
    FirePulls(s, pl.done, pl.ok && pl.bottomdone);
  }

  lemma FirePulls(s: Cohort, done: DoneCb, good: bool)
    ensures Fire(s, done, good).pulls == s.pulls
  {
  }

  lemma FetchlogCheckAsks(s: Cohort, i: nat)
    requires i < |s.pulls|
    ensures AsksAll(s, FetchlogCheck(s, i))
  {
    hide AdvanceCommitted, StepBack, Settle, AsksAll;
    AdvanceCommittedSilent(s);
    AdvanceCommittedKeepsPulls(s);
    var s1 := AdvanceCommitted(s);
    SamePullsAsk(s, s1);
    StepBackAsks(s1, i);
    SettleAsks(StepBack(s1, i), i);
    AsksTrans(s, s1, StepBack(s1, i));
    AsksTrans(s, StepBack(s1, i), FetchlogCheck(s, i));
  }

  lemma OpenPullAsks(s: Cohort, src: Mid, latest: Viewstamp, done: DoneCb)
    ensures AsksAll(s, OpenPull(s, src, latest, done))
    ensures |OpenPull(s, src, latest, done).pulls| == |s.pulls| + 1
    ensures OpenPull(s, src, latest, done).pulls[|s.pulls|].src == src
    ensures OpenPull(s, src, latest, done).pulls[|s.pulls|].expected == Missing(s.log, s.executed, latest)
  {
    hide Missing;
    var want := Missing(s.log, s.executed, latest);
    assert {} + want == want;
  }

  /** Opening a pull asks its source for everything missing of the view of its last stamp, up to there,
      that comes after what has been executed. */
  lemma PullLogAsks(s: Cohort, src: Mid, latest: Viewstamp, done: DoneCb)
    ensures AsksAll(s, PullLog(s, src, latest, done))
    ensures forall n: nat :: n <= latest.ts && Lt(s.executed, Viewstamp(latest.vid, n)) && Viewstamp(latest.vid, n) !in s.log ==>
              FetchCall(s.self, src, |s.pulls|, Viewstamp(latest.vid, n)) in PullLog(s, src, latest, done).sent
  {
    var o, i := OpenPull(s, src, latest, done), |s.pulls|;
    OpenPullAsks(s, src, latest, done);
    hide OpenPull, FetchlogCheck;
    FetchlogCheckAsks(o, i);
    AsksTrans(s, o, FetchlogCheck(o, i));
    forall n: nat | n <= latest.ts && Lt(s.executed, Viewstamp(latest.vid, n)) && Viewstamp(latest.vid, n) !in s.log
      ensures FetchCall(s.self, src, i, Viewstamp(latest.vid, n)) in FetchlogCheck(o, i).sent
    {
      assert Viewstamp(latest.vid, n) in Missing(s.log, s.executed, latest);
      assert FetchCall(s.self, o.pulls[i].src, i, Viewstamp(latest.vid, n)) in o.sent;
    }
  }

  /** NEW_VIEW is refused if it proposes an older view or less than was promised. Otherwise the cohort gives
      up any other attempt, adopts the view unless it installs one at once, keeps its promise, and asks
      the new primary for everything it lacks of the view to continue from. */
  lemma NewViewOutcome(s: Cohort, src: Mid, xid: nat, nv: NvArg)
    requires Inv(s)
    ensures var t := OnNewView(s, src, xid, nv);
            if (s.validView && VidLt(nv.view.vid, s.view.vid)) || VidLt(nv.view.vid, s.proposedVid) then
              t == s.(sent := s.sent + {NvReply(s.self, src, xid, nv.view.vid, false)})
            else
              && AsksAll(s, t)
              && (t.attempt.Some? && !t.attempt.value.aborted ==> t.attempt.value.proposedVid == nv.view.vid)
              && (!VidLt(s.executed.vid, t.executed.vid) ==>
                    t.mode == ViewChange && t.acceptedView == Some(nv.view) && t.proposedVid == s.proposedVid)
              && forall n: nat :: n <= nv.latest.ts && Lt(s.executed, Viewstamp(nv.latest.vid, n))
                                  && Viewstamp(nv.latest.vid, n) !in s.log ==>
                   FetchCall(s.self, nv.view.primary, |s.pulls|, Viewstamp(nv.latest.vid, n)) in t.sent
  {
    hide PullLog, AsksAll, Inv;
    if !RefusesNv(s, nv.view.vid) {
      OnNewViewSteady(s, src, xid, nv);
      var u := AdoptNewView(s, nv.view);
      SideKeeps(s, u);
      PullLogSteady(u, nv.view.primary, nv.latest, AnswerNewView(src, xid, nv.view.vid));
      PullLogAsks(u, nv.view.primary, nv.latest, AnswerNewView(src, xid, nv.view.vid));
      SamePullsAsk(s, u);
      AsksTrans(s, u, OnNewView(s, src, xid, nv));
    }
  }

  /** REPLICATE of a client entry is ignored by a cohort that is changing views, is the primary, or is no
      member. Otherwise the entry is stored if it is above `committed`, `committed` is raised, and
      whatever is missing up to the entry is asked for from the primary of its view. */
  lemma ReplicateOutcome(s: Cohort, src: Mid, vs: Viewstamp, arg: Arg, committed: Viewstamp)
    requires WfSlot(vs, arg)
    ensures var t := OnReplicate(s, src, vs, arg, committed);
            if vs.ts != 0 && (s.mode != Active || s.view.primary == s.self || !s.validView || s.self !in Mids(s.view)) then t == s
            else
              && AsksAll(s, t) && (vs in t.log <==> vs in s.log || Lt(s.committed, vs)) && Le(s.committed, t.committed) && Le(committed, t.committed)
              && var primary := if vs.ts != 0 then s.view.primary else arg.form.view.primary;
                 forall n: nat :: n <= vs.ts && Lt(t.executed, Viewstamp(vs.vid, n)) && Viewstamp(vs.vid, n) !in t.log ==>
                   FetchCall(s.self, primary, |s.pulls|, Viewstamp(vs.vid, n)) in t.sent
  {
    hide PullLog, AsksAll, StoreReplicate;
    if !RefusesReplicate(s, vs) {
      var u := StoreReplicate(s, vs, arg, committed);
      var primary := if vs.ts != 0 then s.view.primary else arg.form.view.primary;
      StoreParts(s, vs, arg, committed);
      PullLogAsks(u, primary, vs, AckReplicate(src, vs));
      PullLogSide(u, primary, vs, AckReplicate(src, vs));
      SamePullsAsk(s, u);
      AsksTrans(s, u, PullLog(u, primary, vs, AckReplicate(src, vs)));
    }
  }

  lemma StoreParts(s: Cohort, vs: Viewstamp, arg: Arg, committed: Viewstamp)
    requires WfSlot(vs, arg)
    ensures var u := StoreReplicate(s, vs, arg, committed);
            && u.pulls == s.pulls && u.self == s.self && u.sent == s.sent
            && (vs in u.log <==> vs in s.log || Lt(s.committed, vs)) && Le(s.committed, u.committed) && Le(committed, u.committed)
  {
    hide JumpsUpdate, AdvanceExecuted;
    var w := RaiseCommitted(StoreEntry(s, vs, arg), committed);
    AdvanceExecutedSilent(w);
    ExecFromFrame(w, VsNext(w.jumps, w.executed));
    assert AdvanceExecuted(w).committed == w.committed by { AdvanceParts(w); }
  }

  lemma AdvanceParts(s: Cohort)
    ensures AdvanceExecuted(s).committed == s.committed
  {
    ExecFromFrame(s, VsNext(s.jumps, s.executed));
  }

  /** A pull only adds to the log and to what has been executed and committed. */
  lemma PullLogSide(s: Cohort, src: Mid, latest: Viewstamp, done: DoneCb)
    ensures var t := PullLog(s, src, latest, done);
            && t.log.Keys == s.log.Keys && Le(s.committed, t.committed)
            && (forall k :: Lt(t.executed, k) ==> Lt(s.executed, k))
  {
    var o, i := OpenPull(s, src, latest, done), |s.pulls|;
    OpenPullFrame(s, src, latest, done);
    hide OpenPull, AdvanceCommitted, StepBack, Settle;
    AdvanceCommittedKeepsPulls(o);
    AdvanceCommittedSide(o);
    AdvanceRises(o);
    var u := AdvanceCommitted(o);
    StepBackFrame(u, i);
    SettleFrame(StepBack(u, i), i);
  }

  lemma {:induction false} ExecRises(s: Cohort, vs: Viewstamp)
    requires Lt(s.executed, vs)
    ensures Le(s.executed, ExecFrom(s, vs).executed)
    decreases Above(s.log.Keys, vs)
  {
    if Le(vs, s.committed) && vs in s.log {
      var s1, n := ExecOne(s, vs), VsNext(s.jumps, vs);
      if s.log[vs].arg.Client? { ExecRequestFrame(s, vs); } else { ExecFormFrame(s, vs); }
      assert s1.executed == vs by { if s.log[vs].arg.Client? { hide ExecForm; } else { hide ExecRequest, Aborted; } }
      hide ExecOne;
      AboveDrops(s.log.Keys, vs, n);
      ExecRises(s1, n);
    }
  }

  lemma AdvanceRises(s: Cohort)
    ensures Le(s.executed, AdvanceCommitted(s).executed)
  {
    var n := VsNext(s.jumps, s.committed);
    CommitFromFrame(s, n);
    var u := CommitFrom(s, n);
    hide CommitFrom;
    ExecRises(u, VsNext(u.jumps, u.executed));
  }

  /** A pull whose last answer is in reports at once: a REPLICATE is acknowledged if everything has arrived
      and the bottom is reached, and NEW_VIEW is answered either way. */
  ghost predicate Reports(s: Cohort, t: Cohort, i: nat, done: DoneCb)
    requires i < |t.pulls|
  {
    var pl := t.pulls[i];
    var good := pl.ok && pl.bottomdone;
    if !pl.ok || |pl.expected| == |pl.received| then
      && pl.done == NullCb
      && (match done
          case AckReplicate(to, vs) => good ==> ReplicateReply(s.self, to, vs) in t.sent
          case AnswerNewView(to, xid, vid) => NvReply(s.self, to, xid, vid, good) in t.sent
          case NullCb => true)
    else pl.done == done
  }

  lemma SettleReports(s: Cohort, i: nat)
    requires i < |s.pulls|
    ensures |Settle(s, i).pulls| == |s.pulls| && Reports(s, Settle(s, i), i, s.pulls[i].done)
  {
  }

  lemma StepBackDone(s: Cohort, i: nat)
    requires i < |s.pulls|
    ensures |StepBack(s, i).pulls| == |s.pulls| && StepBack(s, i).pulls[i].done == s.pulls[i].done && StepBack(s, i).self == s.self
  {
    hide Missing;
  }

  lemma CheckReports(s: Cohort, i: nat)
    requires i < |s.pulls|
    ensures |FetchlogCheck(s, i).pulls| == |s.pulls| && Reports(s, FetchlogCheck(s, i), i, s.pulls[i].done)
  {
    hide AdvanceCommitted, StepBack, Settle;
    AdvanceCommittedSilent(s);
    AdvanceCommittedKeepsPulls(s);
    var u := AdvanceCommitted(s);
    StepBackDone(u, i);
    SettleReports(StepBack(u, i), i);
  }

  /** So it is whenever an answer to FETCHLOG arrives. */
  lemma FetchedReports(s: Cohort, i: nat, vs: Viewstamp, resp: Option<Arg>)
    requires i < |s.pulls| && (resp.Some? ==> WfSlot(vs, resp.value))
    ensures var t := FetchlogCb(s, i, vs, resp);
            |t.pulls| == |s.pulls| && Reports(s, t, i, s.pulls[i].done) && (resp.Some? ==> vs in t.log)
  {
    var u := NoteFetched(s, i, vs, resp);
    assert u.pulls[i].done == s.pulls[i].done && u.self == s.self && (resp.Some? ==> vs in u.log) by { hide JumpsUpdate; }
    hide NoteFetched, FetchlogCheck;
    CheckReports(u, i);
    CheckKeys(u, i);
  }

  lemma CheckKeys(s: Cohort, i: nat)
    requires i < |s.pulls|
    ensures FetchlogCheck(s, i).log.Keys == s.log.Keys
  {
    hide AdvanceCommitted, StepBack, Settle;
    AdvanceCommittedSilent(s);
    AdvanceCommittedKeepsPulls(s);
    var u := AdvanceCommitted(s);
    StepBackFrame(u, i);
    SettleFrame(StepBack(u, i), i);
  }

  /** And when a pull is opened that has nothing to wait for. */
  lemma OpenedReports(s: Cohort, src: Mid, latest: Viewstamp, done: DoneCb)
    ensures var t := PullLog(s, src, latest, done); |t.pulls| == |s.pulls| + 1 && Reports(s, t, |s.pulls|, done)
  {
    var o := OpenPull(s, src, latest, done);
    OpenPullFrame(s, src, latest, done);
    OpenPullDone(s, src, latest, done);
    hide OpenPull, FetchlogCheck;
    CheckReports(o, |s.pulls|);
  }

  /** Checking a pull steps one view back where that is possible: past the formation of the lowest view
      reached, asking for what is missing of the view before it, as long as the next stamp to execute is
      below. Otherwise the bottom is reached, or the formation has still to arrive. */
  lemma CheckSteps(s: Cohort, i: nat)
    requires i < |s.pulls|
    ensures var t, b := FetchlogCheck(s, i), s.pulls[i].bottomview;
            && |t.pulls| == |s.pulls| && t.log.Keys == s.log.Keys && t.pulls[i].ok == s.pulls[i].ok
            && if !VidLt(VsNext(t.jumps, t.executed).vid, b) then t.pulls[i].bottomdone && t.pulls[i].bottomview == b
               else if Viewstamp(b, 0) in t.log then
                 && t.pulls[i].bottomview == t.log[Viewstamp(b, 0)].arg.form.prev.vid
                 && StepAsks(t, i, t.log[Viewstamp(b, 0)].arg.form.prev)
               else t.pulls[i].bottomview == b && t.pulls[i].bottomdone == s.pulls[i].bottomdone
  {
    hide AdvanceCommitted, StepBack, Settle, StepAsks;
    AdvanceCommittedSilent(s);
    AdvanceCommittedKeepsPulls(s);
    var u := AdvanceCommitted(s);
    StepBackSteps(u, i);
    StepBackFrame(u, i);
    SettleFrame(StepBack(u, i), i);
    SettleSteps(StepBack(u, i), i);
  }

  /** Everything missing up to `top` of its view, after what has been executed, has been asked for. */
  ghost predicate StepAsks(t: Cohort, i: nat, top: Viewstamp)
    requires i < |t.pulls|
  {
    forall n: nat :: n <= top.ts && Lt(t.executed, Viewstamp(top.vid, n)) && Viewstamp(top.vid, n) !in t.log ==>
      && Viewstamp(top.vid, n) in t.pulls[i].expected
      && FetchCall(t.self, t.pulls[i].src, i, Viewstamp(top.vid, n)) in t.sent
  }

  lemma PullUptoSteps(s: Cohort, i: nat, latest: Viewstamp)
    requires i < |s.pulls|
    ensures var t := PullUpto(s, i, latest);
            && |t.pulls| == |s.pulls| && t.pulls[i] == s.pulls[i].(expected := t.pulls[i].expected) && StepAsks(t, i, latest)
  {
    var want := Missing(s.log, s.executed, latest);
    var t := PullUpto(s, i, latest);
    forall n: nat | n <= latest.ts && Lt(t.executed, Viewstamp(latest.vid, n)) && Viewstamp(latest.vid, n) !in t.log
      ensures Viewstamp(latest.vid, n) in want
    {
    }
    hide Missing;
  }

  lemma StepBackSteps(s: Cohort, i: nat)
    requires i < |s.pulls|
    ensures var t, b := StepBack(s, i), s.pulls[i].bottomview;
            && |t.pulls| == |s.pulls| && t.pulls[i].ok == s.pulls[i].ok
            && if !VidLt(VsNext(s.jumps, s.executed).vid, b) then t.pulls[i].bottomdone && t.pulls[i].bottomview == b
               else if Viewstamp(b, 0) in s.log then
                 && t.pulls[i].bottomview == s.log[Viewstamp(b, 0)].arg.form.prev.vid
                 && StepAsks(t, i, s.log[Viewstamp(b, 0)].arg.form.prev)
               else t.pulls[i].bottomview == b && t.pulls[i].bottomdone == s.pulls[i].bottomdone
  {
    hide PullUpto, StepAsks;
    var pl := s.pulls[i];
    var xs := Viewstamp(pl.bottomview, 0);
    if VidLt(VsNext(s.jumps, s.executed).vid, pl.bottomview) && xs in s.log {
      var prev := s.log[xs].arg.form.prev;
      PullUptoSteps(s.(pulls := s.pulls[i := pl.(bottomview := prev.vid)]), i, prev);
    }
  }

  lemma SettleSteps(s: Cohort, i: nat)
    requires i < |s.pulls|
    ensures var t := Settle(s, i);
            && |t.pulls| == |s.pulls| && t.pulls[i] == s.pulls[i].(done := t.pulls[i].done)
            && (forall top :: StepAsks(s, i, top) ==> StepAsks(t, i, top))
  {
    hide Fire;
    FirePulls(s, s.pulls[i].done, s.pulls[i].ok && s.pulls[i].bottomdone);
    FireFrame(s, s.pulls[i].done, s.pulls[i].ok && s.pulls[i].bottomdone);
  }

  // ---------------------------------------------------------------- acknowledgements and committing

  /** An acknowledgement is ignored by a cohort that is not the primary of its view, for a stamp already
      committed, and from a cohort outside the view; it stops the cohort if `committed` is in another view
      than `latest`, or if it is for a stamp never given out. Otherwise it is recorded for the stamps from
      the first one not committed up to its own, and committing goes on. */
  lemma AckOutcome(s: Cohort, from: Mid, vs: Viewstamp)
    ensures var t := ReplicateCb(s, from, vs);
            if s.view.primary != s.self then t == s
            else if s.latest.vid != s.committed.vid then t == s.(crashed := true)
            else if Le(vs, s.committed) then t == s
            else if Lt(s.latest, vs) then t == s.(crashed := true)
            else if !s.validView || from !in Mids(s.view) then t == s
            else t == AdvanceCommitted(AckFrom(s, from, VsNext(s.jumps, s.committed), vs))
  {
    hide AdvanceCommitted, AckFrom, Mids;
  }

  /** Where the commit loop ends: beyond the last stamp given out, at an entry that no majority has
      acknowledged, or, stopping the cohort, at a stamp that is not logged or has no acknowledgement set. */
  lemma {:induction false} CommitStops(s: Cohort)
    ensures var t := CommitFrom(s, VsNext(s.jumps, s.committed));
            var k := VsNext(t.jumps, t.committed);
            if Lt(t.latest, k) then t.crashed == s.crashed
            else if k !in t.log || t.log[k].ack.None? then t.crashed
            else t.crashed == s.crashed && !Majority(t.log[k].ack.value.received, t.log[k].ack.value.expected)
    decreases Above(s.log.Keys, VsNext(s.jumps, s.committed))
  {
    hide Majority;
    var n := VsNext(s.jumps, s.committed);
    if Le(n, s.latest) && n in s.log && s.log[n].ack.Some?
       && Majority(s.log[n].ack.value.received, s.log[n].ack.value.expected) {
      var u := CommitOne(s, n);
      CommitFromStep(s, n);
      assert u.log.Keys == s.log.Keys && u.jumps == s.jumps && u.committed == n && u.crashed == s.crashed && u.latest == s.latest;
      AboveDrops(s.log.Keys, n, VsNext(s.jumps, n));
      hide CommitFrom, CommitOne;
      CommitStops(u);
    }
  }

  // ---------------------------------------------------------------- INIT_VIEW

  /** INIT_VIEW of a later view at its primary logs the formation and sends it to every backup; INIT_VIEW
      of an older view, or of the one installed, does nothing. */
  lemma InitViewOutcome(s: Cohort, f: Formation)
    ensures var t := OnInitView(s, f);
            if s.validView && !VidLt(s.view.vid, f.view.vid) then t == s
            else if f.view.primary != s.self then t == s.(crashed := true)
            else
              && FormStamp(f) in t.log && t.log[FormStamp(f)].arg == Form(f)
              && t.latest == FormStamp(f) && Le(FormStamp(f), t.committed)
              && t.sent == s.sent + (set b | b in f.view.backups :: ReplicateCall(s.self, b, FormStamp(f), Form(f), FormStamp(f)))
  {
    hide AdvanceCommitted, JumpsUpdate;
    var u := LogFormation(s, f);
    AdvanceCommittedSilent(u);
    AdvanceCommittedSide(u);
  }
}
