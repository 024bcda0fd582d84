/** The two theorems about view changes over runs of a group. */
module ViewChanges {
  import opened Stamps
  import opened CohortSpec
  import opened CohortInvariants
  import opened LogPull
  import opened LogWalk
  import opened Traffic
  import opened Quorum
  import opened CohortRuns
  import opened ViewChoice

  /** The manager's live attempt `vid`, leaving view v, has its NEW_VIEW majority of v. */
  ghost predicate GathersNewview(s: Cohort, vid: Viewid, v: View) {
    && s.attempt.Some? && s.attempt.value.proposedVid == vid && s.view == v
    && Majority(s.attempt.value.nvAccepted, Mids(v))
  }

  /** The manager's live attempt `vid`, leaving view v, passes the VIEW_CHANGE majority check of v. */
  ghost predicate PassesPrepare(s: Cohort, vid: Viewid, v: View) {
    && s.attempt.Some? && s.attempt.value.proposedVid == vid && s.view == v && !s.attempt.value.aborted
    && Majority(s.attempt.value.prepareAccepted, Mids(v))
  }

  function Min(a: nat, b: nat): nat { if a < b then a else b }
  function Max(a: nat, b: nat): nat { if a < b then b else a }

  /** If x accepts NEW_VIEW a and VIEW_CHANGE b, it accepted VIEW_CHANGE a before NEW_VIEW a, and it
      executes no formation entry from the first of the three to the last. */
  ghost predicate PromisedFirst(h: History, x: Mid, a: Viewid, b: Viewid)
    requires IsRun(h)
  {
    forall n: nat, p: nat :: AcceptsNv(h, n, x, a) && AcceptsVc(h, p, x, b) ==>
      exists q: nat :: q < n && AcceptsVc(h, q, x, a) && SameViewBetween(h, x, Min(p, q), Max(n, p) + 1)
  }

  /** Cohort x executes no formation entry between two moments. */
  ghost predicate SameViewBetween(h: History, x: Mid, i: nat, j: nat) {
    && i < |h.states| && j < |h.states| && x in h.states[i] && x in h.states[j]
    && h.states[i][x].executed.vid == h.states[j][x].executed.vid
  }

  lemma Between(h: History, x: Mid, i: nat, j: nat, k: nat, l: nat)
    requires IsRun(h) && SameViewBetween(h, x, i, j) && i <= k <= l <= j
    ensures x in h.states[k] && x in h.states[l]
    ensures h.states[k][x].executed.vid == h.states[l][x].executed.vid
    ensures PromiseKept(h.states[k][x], h.states[l][x])
  {
    hide IsRun, PromiseKept, LogGrows;
    CohortGrows(h, i, k, x);
    CohortGrows(h, k, l, x);
    CohortGrows(h, l, j, x);
    CohortPromise(h, k, l, x);
  }

  /** Accepting VIEW_CHANGE promises its view. */
  lemma VcPromises(h: History, k: nat, x: Mid, vid: Viewid)
    requires IsRun(h) && AcceptsVc(h, k, x, vid)
    ensures x in h.states[k + 1] && h.states[k + 1][x].proposedVid == vid && h.states[k + 1][x].mode == ViewChange
    ensures VidLe(h.states[k][x].proposedVid, vid)
  {
    hide Start, Enabled, MyReport, AbortOther;
    assert Step(h.states[k], h.acts[k], h.states[k + 1]);
  }

  /** Accepting NEW_VIEW, if it executes no formation, leaves an accepted view that is not older. */
  lemma NvAdopts(h: History, k: nat, x: Mid, vid: Viewid)
    requires IsRun(h) && AcceptsNv(h, k, x, vid) && SameViewBetween(h, x, k, k + 1)
    requires VidLe(vid, h.states[k][x].proposedVid)
    ensures VidLe(vid, h.states[k + 1][x].proposedVid)
    ensures var w := h.states[k + 1][x].acceptedView; w.Some? && VidLe(vid, w.value.vid)
  {
    hide Start, Enabled, AbortOther, PullLog, AllOk;
    assert Step(h.states[k], h.acts[k], h.states[k + 1]);
    RunOkAt(h, k);
    assert CohortOk(h.states[k], x);
    var s, e := h.states[k][x], h.acts[k].ev;
    AllInv(s);
    var u := AdoptNewView(s, e.nvarg.view);
    SideKeeps(s, u);
    PullLogSteady(u, e.nvarg.view.primary, e.nvarg.latest, AnswerNewView(e.src, e.xid, vid));
  }

  lemma ReportNewview(s: Cohort)
    ensures MyReport(s).newview == s.acceptedView
  {
    hide ScanFrom;
  }

  /** Having promised b, a cohort accepts no NEW_VIEW for a lower a. */
  lemma PromiseBlocks(h: History, p: nat, n: nat, x: Mid, a: Viewid, b: Viewid, hi: nat)
    requires IsRun(h) && AcceptsVc(h, p, x, b) && AcceptsNv(h, n, x, a) && VidLt(a, b)
    requires n <= hi && SameViewBetween(h, x, p, hi)
    ensures n <= p
  {
    hide IsRun, RefusesVc, ScanFrom;
    if p < n {
      VcPromises(h, p, x, b);
      Between(h, x, p, hi, p + 1, n);
      assert false;
    }
  }

  /** Having promised and then accepted a, a cohort reports a view not older than a. */
  lemma AcceptanceShows(h: History, q: nat, n: nat, p: nat, x: Mid, a: Viewid, hi: nat)
    requires IsRun(h) && AcceptsVc(h, q, x, a) && AcceptsNv(h, n, x, a) && q < n < p && p < |h.states|
    requires p <= hi && SameViewBetween(h, x, q, hi)
    ensures x in h.states[p]
    ensures var w := h.states[p][x].acceptedView; w.Some? && VidLe(a, w.value.vid)
  {
    hide IsRun, RefusesVc, RefusesNv, MyReport;
    VcPromises(h, q, x, a);
    Between(h, x, q, hi, q + 1, n);
    Between(h, x, q, hi, n, n + 1);
    NvAdopts(h, n, x, a);
    Between(h, x, q, hi, n + 1, p);
  }

  /** A cohort that accepted both attempts reported an accepted view not older than a. */
  lemma BothAccepted(h: History, n: nat, p: nat, x: Mid, a: Viewid, b: Viewid)
    requires IsRun(h) && AcceptsNv(h, n, x, a) && AcceptsVc(h, p, x, b) && VidLt(a, b)
    requires PromisedFirst(h, x, a, b)
    ensures var w := MyReport(h.states[p][x]).newview; w.Some? && VidLe(a, w.value.vid)
  {
    hide IsRun, RefusesVc, RefusesNv, MyReport;
    ReportNewview(h.states[p][x]);
    var q: nat :| q < n && AcceptsVc(h, q, x, a) && SameViewBetween(h, x, Min(p, q), Max(n, p) + 1);
    var lo, hi := Min(p, q), Max(n, p) + 1;
    if p < n {
      SameViewFrom(h, x, lo, p, hi);
      PromiseBlocks(h, p, n, x, a, b, hi);
    } else {
      assert n != p;
      SameViewFrom(h, x, lo, q, hi);
      AcceptanceShows(h, q, n, p, x, a, hi);
    }
  }

  lemma SameViewFrom(h: History, x: Mid, lo: nat, k: nat, hi: nat)
    requires IsRun(h) && SameViewBetween(h, x, lo, hi) && lo <= k <= hi
    ensures SameViewBetween(h, x, k, hi)
  {
    hide IsRun;
    Between(h, x, lo, hi, k, hi);
  }

  /** Who accepted an attempt, when, and what was reported. */
  lemma AcceptedReport(h: History, j: nat, c: Mid, x: Mid) returns (r: Report, p: nat)
    requires IsRun(h) && j < |h.states| && c in h.states[j]
    requires h.states[j][c].attempt.Some? && x in h.states[j][c].attempt.value.prepareAccepted
    ensures r in h.states[j][c].attempt.value.accepts && r.myid == x
    ensures p < j && AcceptsVc(h, p, x, h.states[j][c].attempt.value.proposedVid)
    ensures p < |h.states| && x in h.states[p] && r == MyReport(h.states[p][x])
  {
    hide IsRun, MyReport, RefusesVc, AllOk, InNet;
    RunOkAt(h, j);
    assert CohortOk(h.states[j], c);
    var a := h.states[j][c].attempt.value;
    r :| r in a.accepts && r.myid == x;
    p := FindVcAccept(h, j, VcReply(x, c, a.xid, a.proposedVid, Accept(r)));
  }

  lemma AcceptedNewview(h: History, i: nat, c: Mid, x: Mid) returns (n: nat)
    requires IsRun(h) && i < |h.states| && c in h.states[i]
    requires h.states[i][c].attempt.Some? && x in h.states[i][c].attempt.value.nvAccepted
    ensures AcceptsNv(h, n, x, h.states[i][c].attempt.value.proposedVid)
  {
    hide IsRun, RefusesNv, AllOk;
    RunOkAt(h, i);
    assert CohortOk(h.states[i], c);
    var a := h.states[i][c].attempt.value;
    n := FindNvAccept(h, i, x, c, a.xid, a.proposedVid);
  }

  lemma AttemptFacts(h: History, j: nat, c: Mid, r: Report)
    requires IsRun(h) && j < |h.states| && c in h.states[j] && h.states[j][c].attempt.Some?
    requires r in h.states[j][c].attempt.value.accepts
    ensures var a := h.states[j][c].attempt.value;
            && DistinctIds(a.accepts) && r.myid in a.prepareAccepted
            && (r.newview.Some? ==> a.newview.Some? && VidLe(r.newview.value.vid, a.newview.value.vid))
  {
    hide IsRun, AllOk, InNet;
    RunOkAt(h, j);
    assert CohortOk(h.states[j], c);
  }

  lemma MergedMembers(at: Attempt)
    requires at.newview.Some? && NoRepeats(at.newview.value) && Choose(at).Some?
    ensures Mids(Choose(at).value.view) == Mids(at.newview.value)
  {
    MergedViewSpec(at.accepts, at.proposedVid, at.newview.value);
  }

  /** Competing attempts: if attempt a gathers its NEW_VIEW majority of a view and a later attempt b
      passes its VIEW_CHANGE check in the same view, b has been told of an accepted view not older
      than a, so it rebuilds on that view and does not choose a fresh membership. */
  lemma CompetingAttempts(h: History, i: nat, j: nat, ma: Mid, mb: Mid, a: Viewid, b: Viewid, v: View)
    requires IsRun(h) && i < |h.states| && j < |h.states| && ma in h.states[i] && mb in h.states[j]
    requires GathersNewview(h.states[i][ma], a, v) && PassesPrepare(h.states[j][mb], b, v) && VidLt(a, b)
    requires forall x :: x in Mids(v) ==> PromisedFirst(h, x, a, b)
    ensures var at := h.states[j][mb].attempt.value;
            && at.newview.Some? && VidLe(a, at.newview.value.vid)
            && (NoRepeats(at.newview.value) && Choose(at).Some? ==>
                  Mids(Choose(at).value.view) == Mids(at.newview.value))
  {
    var at, bt := h.states[i][ma].attempt.value, h.states[j][mb].attempt.value;
    var x := MajoritiesMeet(at.nvAccepted, bt.prepareAccepted, Mids(v));
    hide *;
    var n := AcceptedNewview(h, i, ma, x);
    var r, p := AcceptedReport(h, j, mb, x);
    BothAccepted(h, n, p, x, a, b);
    AttemptFacts(h, j, mb, r);
    VidLeTrans(a, r.newview.value.vid, bt.newview.value.vid);
    if NoRepeats(bt.newview.value) && Choose(bt).Some? {
      MergedMembers(bt);
    }
  }

  lemma VidLeTrans(a: Viewid, b: Viewid, c: Viewid)
    requires VidLe(a, b) && VidLe(b, c)
    ensures VidLe(a, c)
  {
  }

  /** In every run, a fresh view proposed by an attempt has exactly the cohorts that accepted its
      VIEW_CHANGE as members, each once. */
  lemma FreshMembersAccepted(h: History, j: nat, c: Mid)
    requires IsRun(h) && j < |h.states| && c in h.states[j] && h.states[j][c].attempt.Some?
    requires h.states[j][c].attempt.value.newview.None? && Choose(h.states[j][c].attempt.value).Some?
    ensures var at := h.states[j][c].attempt.value;
            Mids(Choose(at).value.view) == at.prepareAccepted && NoRepeats(Choose(at).value.view)
  {
    var at := h.states[j][c].attempt.value;
    AcceptsKnown(h, j, c);
    hide IsRun, Mids, NoRepeats, ChooseFresh;
    FreshViewSpec(at.accepts, at.proposedVid);
  }

  /** Exactly the accepters have reported, each once. */
  lemma AcceptsKnown(h: History, j: nat, c: Mid)
    requires IsRun(h) && j < |h.states| && c in h.states[j] && h.states[j][c].attempt.Some?
    ensures var at := h.states[j][c].attempt.value;
            DistinctIds(at.accepts) && forall x :: x in Ids(at.accepts) <==> x in at.prepareAccepted
  {
    var at := h.states[j][c].attempt.value;
    hide IsRun, AllOk, InNet;
    RunOkAt(h, j);
    assert CohortOk(h.states[j], c);
    forall x ensures x in Ids(at.accepts) <==> x in at.prepareAccepted {
      if x in at.prepareAccepted { var r :| r in at.accepts && r.myid == x; }
    }
  }

  // ---------------------------------------------------------------- committed requests survive

  ghost predicate ActiveIn(s: Cohort, v: Viewid) {
    s.mode == Active && s.validView && s.view.vid == v
  }

  /** At moment k cohort x is active in view v and holds its client entries up to n. */
  ghost predicate HeldWhileActive(h: History, k: nat, x: Mid, v: Viewid, n: nat) {
    && k < |h.states| && x in h.states[k]
    && ActiveIn(h.states[k][x], v) && HoldsUpto(h.states[k][x].log, Viewstamp(v, n))
  }

  /** At step k cohort x acknowledges stamp (v, m) and is then active in v. */
  ghost predicate AcksWhileActive(h: History, k: nat, x: Mid, v: Viewid, m: nat)
    requires IsRun(h)
  {
    && k < |h.acts| && h.acts[k].who == x && x in h.states[k] && x in h.states[k + 1]
    && (exists p :: ReplicateReply(x, p, Viewstamp(v, m)) in h.states[k + 1][x].sent - h.states[k][x].sent)
    && ActiveIn(h.states[k + 1][x], v)
  }

  /** An acknowledgement sent while active in the view means every earlier entry is held. */
  lemma AckMeansHeld(h: History, k: nat, x: Mid, v: Viewid, m: nat, n: nat)
    requires IsRun(h) && AcksWhileActive(h, k, x, v, m) && n <= m
    ensures HeldWhileActive(h, k + 1, x, v, n)
  {
    hide Start, Enabled, Handle, NoDuplicateStamp;
    assert Step(h.states[k], h.acts[k], h.states[k + 1]);
    RunOkAt(h, k);
    RunOkAt(h, k + 1);
    EnabledOk(h.states[k], x, h.acts[k].ev);
    assert CohortOk(h.states[k], x) && CohortOk(h.states[k + 1], x);
    HandleExplained(h.states[k][x], h.acts[k].ev);
    var t := h.states[k + 1][x];
    var p :| ReplicateReply(x, p, Viewstamp(v, m)) in t.sent - h.states[k][x].sent;
    assert Explained(h.states[k][x], h.acts[k].ev, t, ReplicateReply(x, p, Viewstamp(v, m)));
    assert CursorsOk(t);
  }

  /** The log knows of no view after v. */
  ghost predicate NoLaterView(log: Log, v: Viewid) {
    forall k :: k in log && log[k].arg.Form? ==> VidLe(k.vid, v)
  }

  /** What the hypotheses of the theorem ask of a cohort at the moment it accepts the attempt. */
  ghost predicate AcceptsFreshly(h: History, x: Mid, vid: Viewid, v: Viewid)
    requires IsRun(h)
  {
    forall k: nat :: AcceptsVc(h, k, x, vid) ==> NoLaterView(h.states[k][x].log, v)
  }

  ghost predicate AcceptsInView(h: History, x: Mid, vid: Viewid, v: Viewid)
    requires IsRun(h)
  {
    forall k: nat :: AcceptsVc(h, k, x, vid) ==> h.states[k][x].validView && h.states[k][x].view.vid == v
  }

  /** What x reports to the attempt is not below (v, n). */
  ghost predicate ReportsAtLeast(h: History, x: Mid, vid: Viewid, v: Viewid, n: nat)
    requires IsRun(h)
  {
    forall p: nat :: AcceptsVc(h, p, x, vid) ==> Le(Viewstamp(v, n), MyReport(h.states[p][x]).latest)
  }

  /** A cohort that was active in v before moment k, holds (v, n) at moment k, and accepts the attempt
      at another step while in v, reports at least (v, n). */
  lemma HolderReports(h: History, i: nat, k: nat, p: nat, x: Mid, v: Viewid, n: nat, vid: Viewid)
    requires IsRun(h) && i <= k <= i + 1 && k < |h.states| && x in h.states[i] && ActiveIn(h.states[i][x], v)
    requires x in h.states[k] && HoldsUpto(h.states[k][x].log, Viewstamp(v, n))
    requires AcceptsVc(h, p, x, vid) && (i < k ==> p != i)
    requires h.states[p][x].validView && h.states[p][x].view.vid == v && NoLaterView(h.states[p][x].log, v)
    ensures Le(Viewstamp(v, n), MyReport(h.states[p][x]).latest)
  {
    RunInv(h, i, x);
    RunInv(h, p, x);
    var s, t := h.states[i][x], h.states[p][x];
    assert s.executed.vid == v && t.executed.vid == v;
    hide IsRun, RefusesVc, Inv, MyReport;
    if p < i {
      VcPromises(h, p, x, vid);
      assert SameViewBetween(h, x, p, i);
      Between(h, x, p, i, p + 1, i);
      assert false;
    }
    CohortGrows(h, k, p, x);
    ReportReaches(t, v, n);
  }

  lemma RunInv(h: History, k: nat, x: Mid)
    requires IsRun(h) && k < |h.states| && x in h.states[k]
    ensures Inv(h.states[k][x])
  {
    hide IsRun, AllOk;
    RunOkAt(h, k);
    assert CohortOk(h.states[k], x);
    AllInv(h.states[k][x]);
  }

  lemma ReportReaches(t: Cohort, v: Viewid, n: nat)
    requires Inv(t) && t.validView && t.view.vid == v && NoLaterView(t.log, v)
    requires HoldsUpto(t.log, Viewstamp(v, n))
    ensures Le(Viewstamp(v, n), MyReport(t).latest)
  {
    forall k | k in t.log && t.log[k].arg.Form? ensures t.log[k].arg.form.prev.vid != v {
      assert WfSlot(k, t.log[k].arg);
    }
    ReportHolds(t, v);
    if t.executed.ts <= n {
      ScanReaches(t.log, t.jumps, t.executed, n);
    }
  }

  /** A report never lies below the executed stamp, its view is known and held up to it. */
  lemma ReportHolds(t: Cohort, v: Viewid)
    requires Inv(t) && NoLaterView(t.log, v)
    ensures Le(t.executed, MyReport(t).latest) && HoldsUpto(t.log, MyReport(t).latest)
    ensures VidLe(MyReport(t).latest.vid, v)
  {
    ScanHolds(t.log, t.jumps, t.executed);
    var l := MyReport(t).latest;
    assert t.validView ==> Viewstamp(t.executed.vid, 0) in t.log;
    if FormedView(t.log, l.vid) {
      assert WfSlot(Viewstamp(l.vid, 0), t.log[Viewstamp(l.vid, 0)].arg);
    }
  }

  /** If a majority q of view v would report at least (v, n), and an attempt from v passes its majority
      check with no reported newview and with accepters that know of no view after v, then the attempt
      proposes to continue from (v, n) or later, under a primary whose log holds (v, n). */
  lemma FreshChangeContinues(h: History, j: nat, mb: Mid, v: View, n: nat, q: set<Mid>)
    requires IsRun(h) && j < |h.states| && mb in h.states[j]
    requires h.states[j][mb].attempt.Some? && h.states[j][mb].attempt.value.newview.None?
    requires PassesPrepare(h.states[j][mb], h.states[j][mb].attempt.value.proposedVid, v)
    requires n > 0 && Majority(q, Mids(v))
    requires forall x :: x in h.states[j][mb].attempt.value.prepareAccepted ==>
               && AcceptsFreshly(h, x, h.states[j][mb].attempt.value.proposedVid, v.vid)
               && (x in q ==> ReportsAtLeast(h, x, h.states[j][mb].attempt.value.proposedVid, v.vid, n))
    ensures ContinuesFrom(h, j, mb, Viewstamp(v.vid, n))
  {
    var at := h.states[j][mb].attempt.value;
    var vid := at.proposedVid;
    var x := MajoritiesMeet(q, at.prepareAccepted, Mids(v));
    hide *;
    var r, p := AcceptedReport(h, j, mb, x);
    AttemptFacts(h, j, mb, r);
    assert Le(Viewstamp(v.vid, n), r.latest) by { ReportKnown(h, p, x, vid, v.vid, n); }
    var b := FreshLeader(at, r, Viewstamp(v.vid, n));
    AttemptFacts(h, j, mb, b);
    var b', pb := AcceptedReport(h, j, mb, b.myid);
    assert b' == b by { SameReport(at.accepts, b, b'); }
    assert NoLaterView(h.states[pb][b.myid].log, v.vid) by { AcceptorFacts(h, pb, b.myid, vid, v.vid); }
    PrimaryHolds(h, pb, b.myid, v.vid, n, vid);
    ContinuesKnown(h, j, mb, Viewstamp(v.vid, n), pb);
  }

  /** The attempt makes a choice that continues from vs or later, and the primary it chooses held vs
      when it accepted. */
  ghost predicate ContinuesFrom(h: History, j: nat, mb: Mid, vs: Viewstamp)
    requires IsRun(h) && j < |h.states| && mb in h.states[j] && h.states[j][mb].attempt.Some?
  {
    var at := h.states[j][mb].attempt.value;
    && Choose(at).Some?
    && Le(vs, Choose(at).value.latest)
    && exists p: nat :: p < j && AcceptsVc(h, p, Choose(at).value.view.primary, at.proposedVid)
         && vs in h.states[p][Choose(at).value.view.primary].log
  }

  lemma ContinuesKnown(h: History, j: nat, mb: Mid, vs: Viewstamp, p: nat)
    requires IsRun(h) && j < |h.states| && mb in h.states[j] && h.states[j][mb].attempt.Some?
    requires Choose(h.states[j][mb].attempt.value).Some? && Le(vs, Choose(h.states[j][mb].attempt.value).value.latest)
    requires p < j && p < |h.acts|
    requires AcceptsVc(h, p, Choose(h.states[j][mb].attempt.value).value.view.primary, h.states[j][mb].attempt.value.proposedVid)
    requires vs in h.states[p][Choose(h.states[j][mb].attempt.value).value.view.primary].log
    ensures ContinuesFrom(h, j, mb, vs)
  {
    hide IsRun, Choose, RefusesVc;
  }

  lemma ReportKnown(h: History, p: nat, x: Mid, vid: Viewid, v: Viewid, n: nat)
    requires IsRun(h) && AcceptsVc(h, p, x, vid) && ReportsAtLeast(h, x, vid, v, n)
    ensures Le(Viewstamp(v, n), MyReport(h.states[p][x]).latest)
  {
    hide IsRun, MyReport, RefusesVc;
  }

  lemma AcceptorFacts(h: History, p: nat, x: Mid, vid: Viewid, v: Viewid)
    requires IsRun(h) && AcceptsVc(h, p, x, vid) && AcceptsFreshly(h, x, vid, v)
    ensures p < |h.states| && x in h.states[p] && NoLaterView(h.states[p][x].log, v)
    ensures AcceptsInView(h, x, vid, v) ==> h.states[p][x].validView && h.states[p][x].view.vid == v
  {
    hide Start, Step, RefusesVc, NoLaterView;
  }

  lemma SameReport(accepts: seq<Report>, a: Report, b: Report)
    requires DistinctIds(accepts) && a in accepts && b in accepts && a.myid == b.myid
    ensures a == b
  {
  }

  /** A fresh choice exists once some report is above zero, and leads with a greatest report. */
  lemma FreshLeader(at: Attempt, r: Report, vs: Viewstamp) returns (b: Report)
    requires at.newview.None? && DistinctIds(at.accepts) && r in at.accepts && Le(vs, r.latest) && vs.ts > 0
    ensures Choose(at).Some? && Le(vs, Choose(at).value.latest)
    ensures b in at.accepts && b.myid == Choose(at).value.view.primary && Le(vs, b.latest)
  {
    FreshViewSpec(at.accepts, at.proposedVid);
    assert Lt(ZERO_STAMP, r.latest);
    hide ChooseFresh;
    var nv := Choose(at).value;
    b :| b in at.accepts && b.myid == nv.view.primary && b.latest == nv.latest;
  }

  lemma PrimaryHolds(h: History, p: nat, x: Mid, v: Viewid, n: nat, vid: Viewid)
    requires IsRun(h) && AcceptsVc(h, p, x, vid) && NoLaterView(h.states[p][x].log, v) && n > 0
    requires Le(Viewstamp(v, n), MyReport(h.states[p][x]).latest)
    ensures Viewstamp(v, n) in h.states[p][x].log
  {
    hide Start, Step, RefusesVc, Inv;
    var t := h.states[p][x];
    RunInv(h, p, x);
    ReportHolds(t, v);
    hide MyReport;
    var l := MyReport(t).latest;
    assert l.vid == v && n <= l.ts;
  }
}
