/**
 * When the manager of a view change asks for a new view, and when it has it formed: what every NEW_VIEW
 * and INIT_VIEW call on the network rests on, over runs of a group.
 */
module NewViewRuns {
  import opened Stamps
  import opened CohortSpec
  import opened CohortInvariants
  import opened Traffic
  import opened Quorum
  import opened CohortRuns
  import opened ViewChoice
  import opened ViewChanges

  // ---------------------------------------------------------------- the manager's books

  /** Everything the attempt says about itself agrees with the calls made: it has asked its underlings and
      nobody else, from the view it leaves, and all its NEW_VIEW calls carry one view. */
  ghost predicate BooksOk(s: Cohort, a: Attempt) {
    && a.xid < s.nextXid
    && a.prepareDone <= a.underlings && a.prepareAccepted <= a.prepareDone
    && (forall m :: m in s.sent && m.VcCall? && m.xid == a.xid ==> m.dst in a.underlings && m.newvid == a.proposedVid)
    && (!a.aborted ==> s.validView && forall u :: u in a.underlings ==> VcCall(s.self, u, a.xid, s.view, a.proposedVid) in s.sent)
    && (a.newview.Some? ==> exists r :: r in a.accepts && r.newview == a.newview)
    && (forall m :: m in s.sent && m.NvCall? && m.xid == a.xid ==>
          m.nvarg == a.nvarg && a.nvarg.view.vid == a.proposedVid && a.prepareDone == a.underlings)
  }

  ghost predicate ManagerOk(s: Cohort) {
    XidsUsed(s) && (s.attempt.Some? ==> BooksOk(s, s.attempt.value))
  }

  lemma ChooseVid(a: Attempt)
    requires Choose(a).Some?
    ensures Choose(a).value.view.vid == a.proposedVid
  {
    hide Best, Overtaken, OtherIds, Mids;
  }

  /** The same attempt, perhaps aborted, after a step that makes no call for it. */
  lemma BooksStay(s: Cohort, t: Cohort, a: Attempt, b: Attempt)
    requires BooksOk(s, a) && t.self == s.self && s.nextXid <= t.nextXid && s.sent <= t.sent
    requires forall m :: m in t.sent && m !in s.sent ==> !m.VcCall? && !m.NvCall?
    requires b == a.(aborted := b.aborted, nvAccepted := b.nvAccepted, nvDone := b.nvDone) && (a.aborted ==> b.aborted)
    requires b.aborted || (t.view == s.view && t.validView == s.validView)
    ensures BooksOk(t, b)
  {
  }

  lemma XidsStay(s: Cohort, t: Cohort)
    requires XidsUsed(s) && s.nextXid <= t.nextXid
    requires forall m :: m in t.sent && m !in s.sent ==> !m.VcCall? && !m.NvCall?
    ensures XidsUsed(t)
  {
  }

  lemma SameXids(s: Cohort, t: Cohort)
    requires XidsUsed(s) && t.sent == s.sent && t.nextXid == s.nextXid
    ensures XidsUsed(t)
  {
  }

  lemma OthersCallNobody(s: Cohort, e: Event)
    requires AllOk(s) && EventOk(s, e) && NoDuplicateStamp(s, e) && !e.StartAttempt? && !e.VcAnswered?
    ensures var t := Handle(s, e);
            && s.sent <= t.sent && t.self == s.self
            && forall m :: m in t.sent && m !in s.sent ==> !m.VcCall? && !m.NvCall?
  {
    hide AllOk, Handle, NoDuplicateStamp, EventOk, AsksFor, IssuedBy, FormedBy, Grows, Inv;
    HandleExplained(s, e);
    AllInv(s);
    HandleKeeps(s, e);
    GrowsNet(s, Handle(s, e));
    var t := Handle(s, e);
    forall m | m in t.sent && m !in s.sent ensures !m.VcCall? && !m.NvCall? {
      assert Explained(s, e, t, m);
    }
  }

  /** Events that do not concern the manager. */
  lemma OthersKeepBooks(s: Cohort, e: Event)
    requires AllOk(s) && EventOk(s, e) && NoDuplicateStamp(s, e) && !ManagerEvent(e) && ManagerOk(s)
    ensures ManagerOk(Handle(s, e))
  {
    hide AllOk, Handle, NoDuplicateStamp, EventOk, Inv, BooksOk, XidsUsed, Promise;
    var t := Handle(s, e);
    OthersCallNobody(s, e);
    AllInv(s);
    HandlePromise(s, e);
    XidsStay(s, t);
    if t.attempt.Some? { BooksStay(s, t, s.attempt.value, t.attempt.value); }
  }

  /** Starting an attempt asks every member of the view and every joiner. */
  lemma InitiateBooks(s: Cohort, joiners: seq<Mid>)
    requires ManagerOk(s)
    ensures ManagerOk(Initiate(s, joiners))
  {
    hide Mids, MaxVid;
  }

  /** NEW_VIEW has not been issued for the attempt. */
  ghost predicate Unissued(s: Cohort, xid: nat) {
    forall m :: m in s.sent && m.NvCall? ==> m.xid != xid
  }

  lemma NotIssuedYet(s: Cohort, from: Mid)
    requires s.attempt.Some? && BooksOk(s, s.attempt.value)
    requires from in s.attempt.value.underlings && from !in s.attempt.value.prepareDone
    ensures Unissued(s, s.attempt.value.xid)
  {
  }

  /** The latest new view told stays one that an accepter reported. */
  lemma NoteNewview(a: Attempt, from: Mid, res: Option<VcAnswer>)
    requires a.newview.Some? ==> exists r :: r in a.accepts && r.newview == a.newview
    ensures var b := NoteAnswer(a, from, res);
            b.newview.Some? ==> exists r :: r in b.accepts && r.newview == b.newview
  {
    var b := NoteAnswer(a, from, res);
    if res.Some? && res.value.Accept? && from !in a.prepareAccepted {
      assert res.value.report in b.accepts;
      if a.newview.Some? {
        var r :| r in a.accepts && r.newview == a.newview;
        assert r in b.accepts;
      }
    }
  }

  lemma NoteBooks(s: Cohort, from: Mid, res: Option<VcAnswer>)
    requires s.attempt.Some? && BooksOk(s, s.attempt.value) && Unissued(s, s.attempt.value.xid)
    requires from in s.attempt.value.underlings && from !in s.attempt.value.prepareDone
    ensures var t := NotePrepare(s, from, res);
            && t.attempt.Some? && BooksOk(t, t.attempt.value) && Unissued(t, t.attempt.value.xid)
            && t.sent == s.sent && t.nextXid == s.nextXid
  {
    hide LaterView, MaxVid;
    NoteNewview(s.attempt.value, from, res);
  }

  lemma ExtendBooks(s: Cohort)
    requires s.attempt.Some? && s.attempt.value.newview.Some? && XidsUsed(s)
    requires BooksOk(s, s.attempt.value) && Unissued(s, s.attempt.value.xid) && !s.attempt.value.aborted
    ensures var t := Extend(s);
            BooksOk(t, t.attempt.value) && Unissued(t, t.attempt.value.xid) && XidsUsed(t) && !t.attempt.value.aborted
  {
    hide Mids;
  }

  lemma SameSize(a: set<Mid>, b: set<Mid>)
    requires a <= b && |a| == |b|
    ensures a == b
  {
    if a != b {
      var x :| x in b && x !in a;
      SubsetSize(a, b - {x});
    }
  }

  lemma IssueBooks(s: Cohort)
    requires s.attempt.Some? && XidsUsed(s) && BooksOk(s, s.attempt.value) && Unissued(s, s.attempt.value.xid)
    requires |s.attempt.value.prepareDone| == |s.attempt.value.underlings|
    ensures ManagerOk(ChooseAndIssue(s))
  {
    SameSize(s.attempt.value.prepareDone, s.attempt.value.underlings);
    if Choose(s.attempt.value).Some? { ChooseVid(s.attempt.value); }
    hide Choose;
  }

  lemma {:induction false} CheckBooks(s: Cohort)
    requires s.attempt.Some? && XidsUsed(s) && BooksOk(s, s.attempt.value) && Unissued(s, s.attempt.value.xid)
    ensures ManagerOk(CheckPrepare(s))
    decreases s.attempt.value.newview.Some? && VidLt(s.attempt.value.mergedVid, s.attempt.value.newview.value.vid)
  {
    var a := s.attempt.value;
    BooksStay(s, s, a, a.(aborted := true));
    AbortBooks(s);
    hide BooksOk, Majority, Mids, Extend, ChooseAndIssue, AbortAttempt, Unissued, XidsUsed;
    if a.aborted || |a.prepareDone| != |a.underlings| || !Majority(a.prepareAccepted, Mids(s.view)) {
    } else if a.newview.Some? && VidLt(a.mergedVid, a.newview.value.vid) {
      ExtendMerges(s);
      ExtendBooks(s);
      CheckBooks(Extend(s));
    } else if a.newview.Some? && !Majority(a.prepareAccepted, Mids(a.newview.value)) {
    } else {
      IssueBooks(s);
    }
  }

  lemma AbortBooks(s: Cohort)
    requires s.attempt.Some? && XidsUsed(s) && BooksOk(s, s.attempt.value)
    ensures ManagerOk(AbortAttempt(s)) && ManagerOk(s)
  {
  }

  lemma PrepareBooks(s: Cohort, xid: nat, from: Mid, res: Option<VcAnswer>)
    requires ManagerOk(s)
    requires s.attempt.Some? && s.attempt.value.xid == xid ==>
               from in s.attempt.value.underlings && from !in s.attempt.value.prepareDone
    ensures ManagerOk(PrepareCb(s, xid, from, res))
  {
    hide BooksOk, CheckPrepare, NotePrepare, XidsUsed, Unissued;
    if s.attempt.Some? && s.attempt.value.xid == xid && !s.attempt.value.aborted {
      NotIssuedYet(s, from);
      NoteBooks(s, from, res);
      SameXids(s, NotePrepare(s, from, res));
      CheckBooks(NotePrepare(s, from, res));
    }
  }

  lemma NoteNvParts(a: Attempt, from: Mid, acc: Option<bool>)
    ensures var b := NoteNv(a, from, acc);
            b == a.(nvAccepted := b.nvAccepted, nvDone := b.nvDone)
  {
  }

  lemma NewviewParts(s: Cohort, xid: nat, from: Mid, acc: Option<bool>)
    ensures var t := NewviewCb(s, xid, from, acc);
            && t.self == s.self && t.nextXid == s.nextXid && t.view == s.view && t.validView == s.validView
            && t.attempt.Some? == s.attempt.Some?
            && (s.attempt.Some? ==>
                  && t.attempt.value == s.attempt.value.(aborted := t.attempt.value.aborted, nvAccepted := t.attempt.value.nvAccepted,
                                                         nvDone := t.attempt.value.nvDone)
                  && (s.attempt.value.aborted ==> t.attempt.value.aborted))
  {
    hide NewviewPasses, NoteNv;
    if s.attempt.Some? { NoteNvParts(s.attempt.value, from, acc); }
  }

  lemma NewviewBooks(s: Cohort, xid: nat, from: Mid, acc: Option<bool>)
    requires ManagerOk(s)
    ensures ManagerOk(NewviewCb(s, xid, from, acc))
  {
    hide NewviewCb, BooksOk, XidsUsed, FormedBy;
    var t := NewviewCb(s, xid, from, acc);
    NewviewCbFrame(s, xid, from, acc);
    NewviewCbSays(s, xid, from, acc);
    XidsStay(s, t);
    NewviewParts(s, xid, from, acc);
    if s.attempt.Some? {
      BooksStay(s, t, s.attempt.value, t.attempt.value);
    }
  }

  lemma HandleBooks(sys: Sys, c: Mid, e: Event)
    requires SysOk(sys) && c in sys && Enabled(sys, c, e) && ManagerOk(sys[c])
    ensures ManagerOk(Handle(sys[c], e))
  {
    hide AllOk, ManagerOk, NoDuplicateStamp, InNet, AttemptOk, Initiate, PrepareCb, NewviewCb;
    EnabledOk(sys, c, e);
    assert CohortOk(sys, c);
    if e.StartAttempt? {
      InitiateBooks(sys[c], e.joiners);
    } else if e.VcAnswered? {
      PrepareBooks(sys[c], e.xid, e.src, e.res);
    } else if e.NvAnswered? {
      NewviewBooks(sys[c], e.xid, e.src, e.accepted);
    } else {
      hide Handle;
      OthersKeepBooks(sys[c], e);
    }
  }

  /** In every run the books of every manager are in order at every moment. */
  lemma {:induction false} RunBooks(h: History, k: nat, c: Mid)
    requires IsRun(h) && k < |h.states| && c in h.states[k]
    ensures ManagerOk(h.states[k][c])
  {
    hide SysOk, Enabled, Handle, AllOk, Unanswered, OwnEntries, BooksOk;
    if k > 0 {
      assert Step(h.states[k - 1], h.acts[k - 1], h.states[k]);
      RunOkAt(h, k - 1);
      RunBooks(h, k - 1, c);
      if h.acts[k - 1].who == c { HandleBooks(h.states[k - 1], c, h.acts[k - 1].ev); }
    }
  }

  // ---------------------------------------------------------------- calls and answers of a run

  /** At step k the message is put on the network. */
  ghost predicate SentAt(h: History, k: nat, m: Msg)
    requires IsRun(h)
  {
    && k < |h.acts| && !m.ClientReply? && h.acts[k].who == m.src && m.src in h.states[k] && m.src in h.states[k + 1]
    && m in h.states[k + 1][m.src].sent && m !in h.states[k][m.src].sent
  }

  /** Everything on the network that was not there at the start was sent at some step. */
  lemma {:induction false} FindSent(h: History, j: nat, m: Msg) returns (k: nat)
    requires IsRun(h) && j < |h.states| && InNet(h.states[j], m) && !InNet(h.states[0], m)
    ensures k < j && SentAt(h, k, m)
  {
    hide Start, Enabled, Handle;
    assert j > 0;
    assert Step(h.states[j - 1], h.acts[j - 1], h.states[j]);
    if InNet(h.states[j - 1], m) {
      k := FindSent(h, j - 1, m);
    } else {
      k := j - 1;
    }
  }

  /** At step p manager c hears of u's VIEW_CHANGE call number xid: an answer, or that there is none. */
  ghost predicate HearsOf(h: History, p: nat, c: Mid, xid: nat, u: Mid)
    requires IsRun(h)
  {
    p < |h.acts| && h.acts[p].who == c && h.acts[p].ev.VcAnswered? && h.acts[p].ev.xid == xid && h.acts[p].ev.src == u
  }

  lemma PrepareDone(s: Cohort, xid: nat, from: Mid, res: Option<VcAnswer>)
    ensures var t := PrepareCb(s, xid, from, res);
            t.attempt.Some? ==>
              && s.attempt.Some? && t.attempt.value.xid == s.attempt.value.xid
              && (t.attempt.value.prepareDone <= s.attempt.value.prepareDone
                  || (s.attempt.value.xid == xid && t.attempt.value.prepareDone <= s.attempt.value.prepareDone + {from}))
  {
    hide CheckPrepare;
    if s.attempt.Some? { CheckPrepareAttempt(NotePrepare(s, from, res)); }
  }

  lemma HandleDone(s: Cohort, e: Event, u: Mid)
    requires Inv(s) && EventOk(s, e) && NoDuplicateStamp(s, e)
    ensures var t := Handle(s, e);
            t.attempt.Some? && u in t.attempt.value.prepareDone ==>
              || (s.attempt.Some? && s.attempt.value.xid == t.attempt.value.xid && u in s.attempt.value.prepareDone)
              || (e.VcAnswered? && e.xid == t.attempt.value.xid && e.src == u)
  {
    hide Inv, NoDuplicateStamp, EventOk, PrepareCb, Promise;
    if e.VcAnswered? {
      PrepareDone(s, e.xid, e.src, e.res);
    } else if e.NvAnswered? {
      hide Handle;
      NewviewParts(s, e.xid, e.src, e.accepted);
      HandleNv(s, e);
    } else if !e.StartAttempt? {
      hide Handle;
      HandlePromise(s, e);
    }
  }

  lemma HandleNv(s: Cohort, e: Event)
    requires EventOk(s, e) && e.NvAnswered?
    ensures Handle(s, e) == NewviewCb(s, e.xid, e.src, e.accepted)
  {
    hide NewviewCb;
  }

  lemma {:induction false} FindHeard(h: History, k: nat, c: Mid, u: Mid) returns (p: nat)
    requires IsRun(h) && k < |h.states| && c in h.states[k]
    requires h.states[k][c].attempt.Some? && u in h.states[k][c].attempt.value.prepareDone
    ensures p < k && HearsOf(h, p, c, h.states[k][c].attempt.value.xid, u)
  {
    hide Enabled, Handle, AllOk, Unanswered, OwnEntries, XidsUsed, NoDuplicateStamp, EventOk;
    assert k > 0;
    var sys, a := h.states[k - 1], h.acts[k - 1];
    assert Step(sys, a, h.states[k]);
    if a.who != c {
      p := FindHeard(h, k - 1, c, u);
    } else {
      RunOkAt(h, k - 1);
      assert CohortOk(sys, c);
      AllInv(sys[c]);
      EnabledOk(sys, c, a.ev);
      HandleDone(sys[c], a.ev, u);
      if sys[c].attempt.Some? && sys[c].attempt.value.xid == h.states[k][c].attempt.value.xid && u in sys[c].attempt.value.prepareDone {
        p := FindHeard(h, k - 1, c, u);
      } else {
        p := k - 1;
      }
    }
  }

  // ---------------------------------------------------------------- NEW_VIEW

  /** x has accepted VIEW_CHANGE vid before step k, reporting r. */
  ghost predicate ReportedBefore(h: History, k: nat, vid: Viewid, r: Report)
    requires IsRun(h)
  {
    exists p: nat :: p < k && AcceptsVc(h, p, r.myid, vid) && r == MyReport(h.states[p][r.myid])
  }

  /** The latest of the views the reports mention, if there is one. */
  ghost predicate LatestReported(reports: seq<Report>, w: Option<View>) {
    && (w.Some? ==> exists r :: r in reports && r.newview == w)
    && (forall r :: r in reports && r.newview.Some? ==> w.Some? && VidLe(r.newview.value.vid, w.value.vid))
  }

  /** What a NEW_VIEW call proposes, given the reports: to continue from the greatest report of those
      eligible, under its author. Without a view reported, all who accepted are members; otherwise the
      members of the latest view reported are. */
  ghost predicate Proposes(nv: NvArg, reports: seq<Report>, w: Option<View>) {
    && (exists r :: r in reports && r.myid == nv.view.primary && r.latest == nv.latest)
    && (w.None? ==>
          && Mids(nv.view) == Ids(reports) && NoRepeats(nv.view)
          && (forall r :: r in reports ==> Le(r.latest, nv.latest)))
    && (w.Some? && NoRepeats(w.value) ==>
          && Mids(nv.view) == Mids(w.value) && NoRepeats(nv.view)
          && (forall r :: r in reports && r.myid in Mids(w.value) ==> Le(r.latest, nv.latest)))
  }

  /** The reports on which the manager c bases its NEW_VIEW at step k. */
  ghost predicate Warrants(h: History, k: nat, c: Mid, nv: NvArg, reports: seq<Report>, w: Option<View>)
    requires IsRun(h) && k < |h.states| && c in h.states[k]
  {
    && DistinctIds(reports) && (forall r :: r in reports ==> ReportedBefore(h, k, nv.view.vid, r))
    && Majority(Ids(reports), Mids(h.states[k][c].view))
    && LatestReported(reports, w) && (w.Some? ==> Majority(Ids(reports), Mids(w.value)))
    && Proposes(nv, reports, w)
  }

  /** Everybody the manager has sent the VIEW_CHANGE call to has answered it or will not. */
  ghost predicate AllHeard(h: History, k: nat, c: Mid, xid: nat)
    requires IsRun(h) && k < |h.states| && c in h.states[k]
  {
    forall m :: m in h.states[k][c].sent && m.VcCall? && m.xid == xid ==> exists p: nat :: p < k && HearsOf(h, p, c, xid, m.dst)
  }

  lemma AttemptBooks(sys: Sys, c: Mid)
    requires SysOk(sys) && c in sys && sys[c].attempt.Some?
    ensures AttemptOk(sys, c, sys[c].attempt.value) && sys[c].self == c
  {
    hide AllOk, AttemptOk;
    assert CohortOk(sys, c);
  }

  /** The step that sends a NEW_VIEW call is an answer to VIEW_CHANGE, and the attempt is complete then. */
  lemma IssueStep(h: History, k: nat, m: Msg)
    requires IsRun(h) && SentAt(h, k, m) && m.NvCall?
    ensures h.acts[k].ev.VcAnswered? && IssuedBy(h.states[k][m.src], h.states[k + 1][m.src], m)
  {
    hide Start, Enabled, Handle, AllOk, NoDuplicateStamp, IssuedBy;
    var c := m.src;
    assert Step(h.states[k], h.acts[k], h.states[k + 1]);
    RunOkAt(h, k);
    assert CohortOk(h.states[k], c);
    EnabledOk(h.states[k], c, h.acts[k].ev);
    HandleExplained(h.states[k][c], h.acts[k].ev);
    assert Explained(h.states[k][c], h.acts[k].ev, h.states[k + 1][c], m);
  }

  /** Each report the attempt has recorded was made before the step that completes it. */
  lemma RecordedReports(h: History, k: nat, c: Mid)
    requires IsRun(h) && k < |h.acts| && c in h.states[k + 1] && h.states[k + 1][c].attempt.Some?
    requires h.acts[k].who == c && h.acts[k].ev.VcAnswered?
    ensures var a := h.states[k + 1][c].attempt.value;
            && DistinctIds(a.accepts) && Ids(a.accepts) == a.prepareAccepted
            && (forall r :: r in a.accepts ==> ReportedBefore(h, k, a.proposedVid, r))
  {
    var a := h.states[k + 1][c].attempt.value;
    hide IsRun, SysOk, AcceptsVc, MyReport, InNet, AllOk;
    RunOkAt(h, k + 1);
    AttemptBooks(h.states[k + 1], c);
    forall r | r in a.accepts ensures ReportedBefore(h, k, a.proposedVid, r) {
      var p := FindVcAccept(h, k + 1, VcReply(r.myid, c, a.xid, a.proposedVid, Accept(r)));
      assert p != k by { NotRequest(h, p, r.myid, a.proposedVid); }
    }
    forall x ensures x in Ids(a.accepts) <==> x in a.prepareAccepted {
      if x in a.prepareAccepted { var r :| r in a.accepts && r.myid == x; }
    }
  }

  lemma NotRequest(h: History, p: nat, x: Mid, vid: Viewid)
    requires IsRun(h) && AcceptsVc(h, p, x, vid)
    ensures p < |h.acts| && h.acts[p].ev.VcRequest?
  {
    hide IsRun, RefusesVc;
  }

  lemma LatestOf(a: Attempt, sys: Sys, c: Mid, s: Cohort)
    requires AttemptOk(sys, c, a) && BooksOk(s, a)
    ensures LatestReported(a.accepts, a.newview)
  {
    hide InNet;
  }

  lemma ChoiceLeads(a: Attempt, nv: NvArg)
    requires Choose(a) == Some(nv)
    ensures exists r :: r in a.accepts && r.myid == nv.view.primary && r.latest == nv.latest
  {
    var among := if a.newview.Some? then Some(Mids(a.newview.value)) else None;
    BestIsMax(a.accepts, among);
    hide Best, Mids, Overtaken, OtherIds;
    assert Best(a.accepts, among).Some? && Best(a.accepts, among).value in a.accepts;
  }

  lemma ChoiceProposes(a: Attempt, nv: NvArg)
    requires DistinctIds(a.accepts) && Choose(a) == Some(nv)
    ensures Proposes(nv, a.accepts, a.newview)
  {
    ChoiceLeads(a, nv);
    hide Mids, NoRepeats, ChooseFresh, ChooseMerged;
    if a.newview.None? {
      FreshViewSpec(a.accepts, a.proposedVid);
    } else if NoRepeats(a.newview.value) {
      MergedViewSpec(a.accepts, a.proposedVid, a.newview.value);
    }
  }

  /** Every NEW_VIEW call is sent when everybody asked for a VIEW_CHANGE has been heard of, and majorities
      both of the view the manager is in and of the latest view reported have accepted; it proposes to
      continue from the greatest report, under its author. */
  lemma NewViewWarranted(h: History, k: nat, m: Msg) returns (reports: seq<Report>, w: Option<View>)
    requires IsRun(h) && SentAt(h, k, m) && m.NvCall?
    ensures Warrants(h, k, m.src, m.nvarg, reports, w)
    ensures AllHeard(h, k + 1, m.src, m.xid)
  {
    hide IsRun, SentAt, Warrants, AllHeard;
    reports, w := NewViewReported(h, k, m);
  }

  lemma AskedHeard(h: History, k: nat, c: Mid)
    requires IsRun(h) && k < |h.states| && c in h.states[k] && h.states[k][c].attempt.Some?
    requires |h.states[k][c].attempt.value.prepareDone| == |h.states[k][c].attempt.value.underlings|
    ensures AllHeard(h, k, c, h.states[k][c].attempt.value.xid)
  {
    var s := h.states[k][c];
    var a := s.attempt.value;
    RunBooks(h, k, c);
    hide IsRun, HearsOf;
    SameSize(a.prepareDone, a.underlings);
    forall m | m in s.sent && m.VcCall? && m.xid == a.xid ensures exists p: nat :: p < k && HearsOf(h, p, c, a.xid, m.dst) {
      var p := FindHeard(h, k, c, m.dst);
    }
  }

  // ---------------------------------------------------------------- INIT_VIEW

  /** Before step k cohort x has accepted NEW_VIEW from manager c for exactly this proposal, and has said so
      once it had pulled the log. */
  ghost predicate AdoptedBefore(h: History, k: nat, x: Mid, c: Mid, xid: nat, nv: NvArg)
    requires IsRun(h) && k < |h.states|
  {
    && InNet(h.states[k], NvReply(x, c, xid, nv.view.vid, true))
    && exists n: nat :: n < k && AcceptsNv(h, n, x, nv.view.vid) && h.acts[n].ev == NvRequest(c, xid, nv)
  }

  lemma FormStep(h: History, k: nat, m: Msg)
    requires IsRun(h) && SentAt(h, k, m) && m.InitCall?
    ensures h.acts[k].ev.NvAnswered? && FormedBy(h.states[k][m.src], h.states[k + 1][m.src], m)
    ensures h.states[k + 1][m.src].view == h.states[k][m.src].view
    ensures forall x :: x != m.src && x in h.states[k] ==> h.states[k + 1][x] == h.states[k][x]
  {
    hide Start, Enabled, AllOk, NoDuplicateStamp, FormedBy, NewviewCb;
    var c, e := m.src, h.acts[k].ev;
    assert Step(h.states[k], h.acts[k], h.states[k + 1]);
    RunOkAt(h, k);
    assert CohortOk(h.states[k], c);
    EnabledOk(h.states[k], c, e);
    HandleExplained(h.states[k][c], e);
    assert Explained(h.states[k][c], e, h.states[k + 1][c], m);
    NewviewParts(h.states[k][c], e.xid, e.src, e.accepted);
  }

  /** The message x answers was sent to it by the manager, and is on the manager's books. */
  lemma AcceptedCall(h: History, n: nat, k: nat, x: Mid, c: Mid, vid: Viewid)
    requires IsRun(h) && AcceptsNv(h, n, x, vid) && n <= k < |h.states| && h.acts[n].ev.src == c && c in h.states[k]
    ensures NvCall(c, x, h.acts[n].ev.xid, h.acts[n].ev.nvarg) in h.states[k][c].sent
  {
    hide Start, Handle, Grows, NoDuplicateStamp, RefusesNv;
    assert Step(h.states[n], h.acts[n], h.states[n + 1]);
    assert InNet(h.states[n], NvCall(c, x, h.acts[n].ev.xid, h.acts[n].ev.nvarg));
    CohortGrows(h, n, k, c);
    GrowsNet(h.states[n][c], h.states[k][c]);
  }

  /** Who is recorded as having accepted NEW_VIEW when the manager has the view formed. */
  lemma RecordedAdoptions(h: History, k: nat, c: Mid, x: Mid)
    requires IsRun(h) && k < |h.acts| && c in h.states[k + 1] && h.states[k + 1][c].attempt.Some?
    requires h.acts[k].who == c && h.acts[k].ev.NvAnswered? && x in h.states[k + 1][c].attempt.value.nvAccepted
    ensures var a := h.states[k + 1][c].attempt.value;
            && InNet(h.states[k + 1], NvReply(x, c, a.xid, a.proposedVid, true)) && a.nvarg.view.vid == a.proposedVid
            && NvCall(c, x, a.xid, a.nvarg) in h.states[k + 1][c].sent
            && exists n: nat :: n < k && AcceptsNv(h, n, x, a.proposedVid) && h.acts[n].ev == NvRequest(c, a.xid, a.nvarg)
  {
    var a := h.states[k + 1][c].attempt.value;
    hide IsRun, SysOk, RefusesNv, InNet, AllOk;
    RunOkAt(h, k + 1);
    AttemptBooks(h.states[k + 1], c);
    RunBooks(h, k + 1, c);
    assert InNet(h.states[k + 1], NvReply(x, c, a.xid, a.proposedVid, true));
    ReplySender(h.states[k + 1], NvReply(x, c, a.xid, a.proposedVid, true));
    var n := FindNvAccept(h, k + 1, x, c, a.xid, a.proposedVid);
    AcceptedCall(h, n, k + 1, x, c, a.proposedVid);
    assert n != k;
    assert h.acts[n].ev == NvRequest(c, a.xid, a.nvarg);
  }

  lemma ReplySender(sys: Sys, m: Msg)
    requires InNet(sys, m)
    ensures m.src in sys && m in sys[m.src].sent
  {
  }

  /** What was on the network after a step that only sent m was there before. */
  lemma OnlySent(h: History, k: nat, m: Msg, r: Msg)
    requires IsRun(h) && SentAt(h, k, m) && m.InitCall? && InNet(h.states[k + 1], r) && !r.InitCall?
    ensures InNet(h.states[k], r)
  {
    FormStep(h, k, m);
    hide Start, Enabled, AllOk, NoDuplicateStamp, FormedBy, NewviewCb;
    var c, e := m.src, h.acts[k].ev;
    assert Step(h.states[k], h.acts[k], h.states[k + 1]);
    RunOkAt(h, k);
    assert CohortOk(h.states[k], c);
    NewviewCbSays(h.states[k][c], e.xid, e.src, e.accepted);
  }

  /** Every INIT_VIEW call goes to the primary of the view it forms, and is sent when majorities both of
      that view and of the view the manager is in have accepted exactly this view, to continue from
      exactly this stamp. */
  lemma InitViewWarranted(h: History, k: nat, m: Msg) returns (q: set<Mid>, xid: nat)
    requires IsRun(h) && SentAt(h, k, m) && m.InitCall?
    ensures m.dst == m.form.view.primary
    ensures Majority(q, Mids(m.form.view)) && Majority(q, Mids(h.states[k][m.src].view))
    ensures forall x :: x in q ==>
              && AdoptedBefore(h, k, x, m.src, xid, NvArg(m.form.prev, m.form.view))
              && NvCall(m.src, x, xid, NvArg(m.form.prev, m.form.view)) in h.states[k][m.src].sent
    ensures forall r :: r in h.states[k][m.src].sent && r.NvCall? && r.xid == xid ==> r.nvarg == NvArg(m.form.prev, m.form.view)
  {
    var c := m.src;
    FormStep(h, k, m);
    OneProposal(h, k, m);
    var a := h.states[k + 1][c].attempt.value;
    q, xid := a.nvAccepted, a.xid;
    var nv := NvArg(m.form.prev, m.form.view);
    assert nv == a.nvarg;
    hide SysOk, Start, Step, Majority, Mids, AllOk, InNet, FormedBy, AcceptsNv;
    forall x | x in q
      ensures AdoptedBefore(h, k, x, c, xid, nv) && NvCall(c, x, xid, nv) in h.states[k][c].sent
    {
      RecordedAdoptions(h, k, c, x);
      OnlySent(h, k, m, NvReply(x, c, xid, nv.view.vid, true));
      SentBefore(h, k, m, NvCall(c, x, xid, nv));
    }
  }

  /** All the NEW_VIEW calls of an attempt carry the same proposal. */
  lemma OneProposal(h: History, k: nat, m: Msg)
    requires IsRun(h) && SentAt(h, k, m) && m.InitCall?
    ensures h.states[k + 1][m.src].attempt.Some?
    ensures forall r :: r in h.states[k][m.src].sent && r.NvCall? && r.xid == h.states[k + 1][m.src].attempt.value.xid ==>
              r.nvarg == NvArg(m.form.prev, m.form.view)
  {
    FormStep(h, k, m);
    RunBooks(h, k + 1, m.src);
    CohortGrows(h, k, k + 1, m.src);
    hide Start, Step, Majority, Mids, XidsUsed;
  }

  lemma SentBefore(h: History, k: nat, m: Msg, r: Msg)
    requires IsRun(h) && SentAt(h, k, m) && m.InitCall? && r in h.states[k + 1][m.src].sent && r.NvCall?
    ensures r in h.states[k][m.src].sent
  {
    hide Start, Enabled, AllOk, NoDuplicateStamp, FormedBy, NewviewCb;
    FormStep(h, k, m);
    var e := h.acts[k].ev;
    assert Step(h.states[k], h.acts[k], h.states[k + 1]);
    NewviewCbSays(h.states[k][m.src], e.xid, e.src, e.accepted);
  }

  // ---------------------------------------------------------------- views that are formed survive

  /** A view that a manager has had formed is not lost by a later attempt from the same view v: whatever
      NEW_VIEW that attempt sends is built on a view reported to it that is not older, with the same
      members as that view. */
  lemma FormedViewSurvives(h: History, i: nat, j: nat, m1: Msg, m2: Msg, v: View) returns (reports: seq<Report>, w: View)
    requires IsRun(h) && SentAt(h, i, m1) && m1.InitCall? && SentAt(h, j, m2) && m2.NvCall?
    requires h.states[i][m1.src].view == v && h.states[j][m2.src].view == v
    requires VidLt(m1.form.view.vid, m2.nvarg.view.vid)
    requires forall x :: x in Mids(v) ==> PromisedFirst(h, x, m1.form.view.vid, m2.nvarg.view.vid)
    ensures Warrants(h, j, m2.src, m2.nvarg, reports, Some(w)) && VidLe(m1.form.view.vid, w.vid)
  {
    FormStep(h, i, m1);
    IssueStep(h, j, m2);
    var a1, a2 := h.states[i + 1][m1.src].attempt.value, h.states[j + 1][m2.src].attempt.value;
    FormedVid(h, i, m1);
    ChooseVid(a2);
    IssueView(h, j, m2);
    assert GathersNewview(h.states[i + 1][m1.src], m1.form.view.vid, v);
    assert PassesPrepare(h.states[j + 1][m2.src], m2.nvarg.view.vid, v);
    hide IsRun, Mids, Majority, Choose, PromisedFirst, Warrants, SysOk, FormedBy, IssuedBy;
    CompetingAttempts(h, i + 1, j + 1, m1.src, m2.src, m1.form.view.vid, m2.nvarg.view.vid, v);
    var w0;
    reports, w0 := NewViewReported(h, j, m2);
    w := w0.value;
  }

  lemma FormedVid(h: History, k: nat, m: Msg)
    requires IsRun(h) && SentAt(h, k, m) && m.InitCall?
    ensures h.states[k + 1][m.src].attempt.Some?
    ensures h.states[k + 1][m.src].attempt.value.proposedVid == m.form.view.vid
  {
    FormStep(h, k, m);
    var a := h.states[k + 1][m.src].attempt.value;
    var x := MajoritiesMeet(a.nvAccepted, a.nvAccepted, Mids(m.form.view));
    hide Start, Step, Majority, Mids, FormedBy;
    RecordedAdoptions(h, k, m.src, x);
  }

  lemma IssueView(h: History, k: nat, m: Msg)
    requires IsRun(h) && SentAt(h, k, m) && m.NvCall?
    ensures h.states[k + 1][m.src].view == h.states[k][m.src].view
  {
    hide Start, Enabled, PrepareCb, NoDuplicateStamp;
    IssueStep(h, k, m);
    var e, s := h.acts[k].ev, h.states[k][m.src];
    assert Step(h.states[k], h.acts[k], h.states[k + 1]);
    PrepareCbFrame(s, e.xid, e.src, e.res);
  }

  /** As NewViewWarranted, naming the view the attempt has recorded. */
  lemma NewViewReported(h: History, k: nat, m: Msg) returns (reports: seq<Report>, w: Option<View>)
    requires IsRun(h) && SentAt(h, k, m) && m.NvCall?
    ensures Warrants(h, k, m.src, m.nvarg, reports, w)
    ensures h.states[k + 1][m.src].attempt.Some? && w == h.states[k + 1][m.src].attempt.value.newview
    ensures AllHeard(h, k + 1, m.src, m.xid)
  {
    var c := m.src;
    IssueStep(h, k, m);
    var s, t := h.states[k][c], h.states[k + 1][c];
    var a := t.attempt.value;
    hide IsRun, SysOk, Majority, Mids, Choose, ReportedBefore, AllOk, BooksOk, Proposes, LatestReported, AttemptOk;
    RecordedReports(h, k, c);
    RunOkAt(h, k + 1);
    AttemptBooks(h.states[k + 1], c);
    RunBooks(h, k + 1, c);
    LatestOf(a, h.states[k + 1], c, t);
    ChoiceProposes(a, m.nvarg);
    ChooseVid(a);
    reports, w := a.accepts, a.newview;
    AskedHeard(h, k + 1, c);
  }
}
