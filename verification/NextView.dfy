/** The step from one view to the next: INIT_VIEW at a cohort that reported the whole history. */
module NextView {
  import opened Stamps
  import opened CohortSpec
  import opened CohortInvariants
  import opened LogWalk
  import opened Traffic
  import opened Quorum
  import opened CohortRuns
  import opened LinearHistory
  import opened HistorySteps
  import opened PrimaryLoop
  import opened PrimarySteps
  import opened BackupSteps
  import opened OneView
  import opened EraSteps

  // ---------------------------------------------------------------- executing up to the scan

  lemma {:induction false} ScanRises(log: Log, jumps: Jumps, from: Viewstamp)
    ensures Le(from, ScanFrom(log, jumps, from))
    decreases Above(log.Keys, VsNext(jumps, from))
  {
    var n := VsNext(jumps, from);
    if n in log {
      AboveDrops(log.Keys, n, VsNext(jumps, n));
      ScanRises(log, jumps, n);
    }
  }

  /** With everything logged committed, executing reaches exactly what the cohort would report. */
  lemma {:induction false} ExecReachesScan(s: Cohort)
    requires forall k :: k in s.log ==> Le(k, s.committed)
    ensures AdvanceExecuted(s).executed == ScanFrom(s.log, s.jumps, s.executed)
    decreases Above(s.log.Keys, VsNext(s.jumps, s.executed))
  {
    var n := VsNext(s.jumps, s.executed);
    if n in s.log {
      AboveDrops(s.log.Keys, n, VsNext(s.jumps, n));
      ExecUnfold(s);
      var t := ExecOne(s, n);
      if s.log[n].arg.Client? { ExecRequestFrame(s, n); } else { ExecFormFrame(s, n); }
      ScanSameKeys(s.log, t.log, s.jumps, n);
      hide ExecOne, AdvanceExecuted;
      ExecReachesScan(t);
    }
  }

  lemma {:induction false} ScanSameKeys(l: Log, m: Log, jumps: Jumps, from: Viewstamp)
    requires l.Keys == m.Keys
    ensures ScanFrom(l, jumps, from) == ScanFrom(m, jumps, from)
    decreases Above(l.Keys, VsNext(jumps, from))
  {
    var n := VsNext(jumps, from);
    if n in l {
      AboveDrops(l.Keys, n, VsNext(jumps, n));
      ScanSameKeys(l, m, jumps, n);
    }
  }

  /** Appending a formation right after the end of the scan. */
  lemma {:induction false} ScanExtends(l: Log, j: Jumps, m: Log, k: Jumps, from: Viewstamp, vs: Viewstamp)
    requires var e := ScanFrom(l, j, from); e !in j && Lt(e, vs) && k == j[e := vs]
    requires m.Keys == l.Keys + {vs} && VsNext(k, vs) !in m && VsNext(j, ScanFrom(l, j, from)) != vs
    ensures ScanFrom(m, k, from) == vs
    decreases Above(l.Keys, VsNext(j, from))
  {
    var e, n := ScanFrom(l, j, from), VsNext(j, from);
    if n in l {
      ScanRises(l, j, n);
      AboveDrops(l.Keys, n, VsNext(j, n));
      AboveDrops(m.Keys, n, VsNext(k, n));
      assert from != e;
      ScanExtends(l, j, m, k, n, vs);
    } else {
      assert e == from && VsNext(k, from) == vs;
      assert ScanFrom(m, k, vs) == vs;
      AboveDrops(m.Keys, vs, VsNext(k, vs));
    }
  }

  // ---------------------------------------------------------------- the beginning of an era

  ghost predicate Opens(s: Cohort, f: Formation) {
    && s.validView && s.view == f.view
    && s.latest == FormStamp(f) && s.committed == FormStamp(f) && s.executed == FormStamp(f)
  }

  /** The primary has just formed the view, and every log lies on the history up to it. The others may
      be anywhere: behind, still serving as the primary of an earlier view, with REPLICATE calls,
      acknowledgements and pulls about the past under way. */
  ghost predicate Formed(sys: Sys, era: Era) {
    && era.Valid() && era.Primary() in sys && Opens(sys[era.Primary()], era.form)
    && forall c :: c in sys ==> MemberOk(sys, era, era.Opening(), c)
  }

  lemma OpensLeads(era: Era, s: Cohort)
    requires era.Valid() && s.self == era.Primary() && Opens(s, era.form) && Inv(s) && Follows(s, era.Opening())
    ensures Leads(s, era.View())
    ensures Course(era, s) == era.Opening()
  {
    var v := era.View();
    hide Linear, Requests, ViewKnown;
    forall k: nat ensures At(v, k) in s.log <==> k == 0 {
      if At(v, k) in s.log {
        assert Recorded(s.log, era.Opening(), At(v, k));
        OpeningEarlier(era, Slot(At(v, k), s.log[At(v, k)].arg));
      }
    }
    forall p | p in s.jumps ensures p.vid != v.vid {
      var k := s.jumps[p];
      assert Recorded(s.log, era.Opening(), k);
      OpeningEarlier(era, Slot(k, s.log[k].arg));
    }
  }

  lemma OpensBacked(s: Cohort, v: View, H: nat -> set<Mid>)
    requires Leads(s, v) && s.latest.ts == 0
    ensures Backed(s, v, H) && Exact(s, v)
  {
    LeadWaiting(s, v);
    hide Leads, Majority, Mids;
    assert forall k: nat :: !Waiting(s, v, k);
  }

  /** The beginning of an era satisfies its invariant. */
  lemma FormedOk(sys: Sys, era: Era)
    requires Formed(sys, era)
    ensures EraOk(sys, era) && Now(sys, era) == era.Opening()
  {
    var s := sys[era.Primary()];
    hide Linear, Follows, CourseTo, AllOk, True, PullsFor, Backed, Exact, Holders, Leads;
    assert MemberOk(sys, era, era.Opening(), era.Primary());
    AllInv(s);
    OpensLeads(era, s);
    OpensBacked(s, era.View(), Holders(sys, era.View()));
    hide MemberOk, Inv;
  }

  // ---------------------------------------------------------------- the step to the next view

  /** The formation continues right after the history, and its primary's log reaches that far. */
  ghost predicate Continues(sys: Sys, era: Era, c: Mid, f: Formation)
    requires Running(sys, era) && c in sys
  {
    && f.view.primary == c && c !in f.view.backups
    && f.prev == sys[era.Primary()].latest && MyReport(sys[c]).latest == f.prev
  }

  /** A cohort that reported the whole history forms the next view, which continues right after it. */
  ghost predicate ViewStep(sys: Sys, a: Act, sys': Sys, era: Era, era': Era) {
    && a.who in sys && Arrives(sys, a.who, a.ev) && sys' == sys[a.who := Handle(sys[a.who], a.ev)]
    && a.ev.InitView? && Running(sys, era) && Continues(sys, era, a.who, a.ev.form)
    && era' == Era(Now(sys, era), a.ev.form)
  }

  lemma {:induction false} CourseEnd(era: Era, s: Cohort)
    requires era.Valid() && Leads(s, era.View())
    ensures var g := Course(era, s);
            |g| > 0 && StampAt(g, |g|) == s.latest && forall x :: x in g ==> Le(x.vs, s.latest)
  {
    var g, v := Course(era, s), era.View();
    CourseLinear(era, s);
    assert s.latest == At(v, s.latest.ts);
    hide Leads, Linear;
    assert g[|g| - 1].vs == At(v, s.latest.ts);
    forall x | x in g ensures Le(x.vs, s.latest) {
      var i := IndexOf(g, x);
      if i + 1 < |g| { StampsIncrease(g, i + 1, |g|); }
    }
  }

  lemma AppendLinear(g: seq<Slot>, x: Slot)
    requires Linear(g) && WfSlot(x.vs, x.arg) && x.arg.Form? && x.arg.form.prev == StampAt(g, |g|)
    ensures Linear(g + [x])
  {
    var h := g + [x];
    forall i: nat | i < |h| ensures Fits(h, i) {
      assert StampAt(h, i) == StampAt(g, i);
      if i < |g| { assert Fits(g, i) && h[i] == g[i]; } else { assert h[i] == x; }
    }
  }

  lemma NextValid(sys: Sys, era: Era, c: Mid, f: Formation)
    requires Running(sys, era) && c in sys && Continues(sys, era, c, f)
    ensures Era(Now(sys, era), f).Valid()
    ensures VidLt(era.View().vid, f.view.vid) && Lt(sys[era.Primary()].latest, FormStamp(f))
  {
    var s := sys[era.Primary()];
    CourseEnd(era, s);
    CourseLinear(era, s);
    SuccIsLeast(f.prev, FormStamp(f));
    assert s.latest.vid == era.View().vid;
    hide Leads, Linear, CourseTo, MyReport;
    AppendLinear(Now(sys, era), Slot(FormStamp(f), Form(f)));
  }

  /** Nothing a cohort has logged or given out reaches the new view. */
  lemma LogBelow(sys: Sys, era: Era, c: Mid)
    requires EraOk(sys, era) && c in sys
    ensures era.Primary() in sys
    ensures forall k :: k in sys[c].log ==> Le(k, sys[era.Primary()].latest)
    ensures forall p :: p in sys[c].jumps ==> Lt(p, sys[era.Primary()].latest)
  {
    hide EraOk, Leads, Linear, Holders, Backed, Exact, AllOk, PullsFor, Lags, Former, Le, CourseTo;
    PrimaryFacts(sys, era);
    MemberOf(sys, era, c);
    var s, l := sys[c], sys[era.Primary()].latest;
    CourseEnd(era, sys[era.Primary()]);
    forall k | k in s.log ensures Le(k, l) { assert Recorded(s.log, Now(sys, era), k); }
    InvJumps(s);
    hide Inv, Follows, Running, MemberOk;
    forall p | p in s.jumps ensures Lt(p, l) { LtLe(p, s.jumps[p], l); }
  }

  lemma LtLe(a: Viewstamp, b: Viewstamp, c: Viewstamp)
    requires Lt(a, b) && Le(b, c)
    ensures Lt(a, c)
  {
  }

  lemma LatestBelow(sys: Sys, era: Era, c: Mid)
    requires EraOk(sys, era) && c in sys
    ensures VidLe(sys[c].latest.vid, era.View().vid)
    ensures sys[c].validView ==> VidLe(sys[c].view.vid, era.View().vid)
  {
    hide EraOk, Leads, Linear, Holders, Backed, Exact, AllOk, PullsFor, CourseTo, JumpsMatch, ExecutedHeld, SubmittedInOrder, CacheOk;
    PrimaryFacts(sys, era);
    MemberOf(sys, era, c);
    var s, p := sys[c], sys[era.Primary()];
    hide MemberOk;
    ExecutedBelow(era, p, s);
    FormerParts(p, era.View());
    if c != era.Primary() {
      if !Lags(s) { FormerParts(s, s.view); }
    }
  }

  /** `form_view` at a cohort whose log reaches the formation's prev executes everything up to and
      including the formation; all it sends is the formation. */
  lemma FormViewOpens(s: Cohort, f: Formation)
    requires f.view.primary == s.self && MyReport(s).latest == f.prev
    requires forall k :: k in s.log ==> Le(k, f.prev)
    requires forall p :: p in s.jumps ==> Lt(p, f.prev)
    ensures var t := FormView(s, f);
            && t.latest == FormStamp(f) && t.committed == FormStamp(f) && t.executed == FormStamp(f)
            && t.crashed == s.crashed && t.pulls == s.pulls
  {
    var vs := FormStamp(f);
    var u := LogFormation(s, f);
    LogFormationParts(s, f);
    hide LogFormation, ScanFrom;
    assert CommitFrom(u, VsNext(u.jumps, vs)) == u;
    ScanExtends(s.log, s.jumps, u.log, u.jumps, s.executed, vs);
    ExecReachesScan(u);
    assert AdvanceCommitted(u) == AdvanceExecuted(u);
    ExecFromFrame(u, VsNext(u.jumps, u.executed));
    hide AdvanceExecuted, AdvanceCommitted;
  }

  lemma LogFormationParts(s: Cohort, f: Formation)
    requires MyReport(s).latest == f.prev
    requires forall k :: k in s.log ==> Le(k, f.prev)
    requires forall p :: p in s.jumps ==> Lt(p, f.prev)
    ensures var u, vs := LogFormation(s, f), FormStamp(f);
            && u.latest == vs && u.committed == vs && u.executed == s.executed && u.crashed == s.crashed && u.pulls == s.pulls
            && u.jumps == s.jumps[f.prev := vs] && u.log.Keys == s.log.Keys + {vs}
            && (forall k :: k in u.log ==> Le(k, vs)) && VsNext(u.jumps, vs) !in u.log
            && ScanFrom(s.log, s.jumps, s.executed) == f.prev && f.prev !in s.jumps && VsNext(s.jumps, f.prev) != vs
            && Lt(vs, VsNext(u.jumps, vs))
  {
    hide ScanFrom;
  }

  lemma ViewShape(sys: Sys, a: Act, sys': Sys, era: Era, era': Era)
    requires ViewStep(sys, a, sys', era, era')
    ensures a.who in sys && Arrives(sys, a.who, a.ev) && EventOk(sys[a.who], a.ev) && a.ev.InitView? && Running(sys, era)
    ensures sys'.Keys == sys.Keys && (forall d :: d in sys && d != a.who ==> sys'[d] == sys[d])
    ensures sys'[a.who] == Handle(sys[a.who], a.ev) && Continues(sys, era, a.who, a.ev.form)
    ensures era'.past == Now(sys, era) && era'.form == a.ev.form && era'.Primary() == a.who
  {
    hide Running, Now, MyReport, Handle;
    assert Continues(sys, era, a.who, a.ev.form);
  }

  /** Nothing the forming cohort has logged is in the new view, so it logs nothing twice. */
  lemma FormingFresh(sys: Sys, era: Era, c: Mid, f: Formation)
    requires EraOk(sys, era) && c in sys && Running(sys, era) && Continues(sys, era, c, f)
    ensures FormsView(sys[c], f) && FormStamp(f) !in sys[c].log
    ensures VidLt(sys[c].latest.vid, f.view.vid) && VidLt(era.View().vid, f.view.vid)
    ensures f.view.primary == c && MyReport(sys[c]).latest == f.prev
    ensures forall k :: k in sys[c].log ==> Le(k, f.prev)
    ensures forall p :: p in sys[c].jumps ==> Lt(p, f.prev)
  {
    hide EraOk, Leads, Linear, Now, MyReport;
    NextValid(sys, era, c, f);
    LogBelow(sys, era, c);
    LatestBelow(sys, era, c);
    hide Running;
  }

  /** What the forming cohort's step is. */
  lemma FormingFacts(sys: Sys, a: Act, sys': Sys, era: Era, era': Era)
    requires EraOk(sys, era) && ViewStep(sys, a, sys', era, era')
    ensures a.who in sys && a.who in sys' && a.ev.InitView? && EventOk(sys[a.who], a.ev)
    ensures NoDuplicateStamp(sys[a.who], a.ev)
    ensures sys'[a.who] == OnInitView(sys[a.who], a.ev.form) == FormView(sys[a.who], a.ev.form)
  {
    ViewShape(sys, a, sys', era, era');
    hide EraOk, ViewStep, FormView, OnInitView, FormsView, Continues, Running, Arrives, Handle, EventOk, NoDuplicateStamp, MyReport, Now;
    FormingFresh(sys, era, a.who, a.ev.form);
    HandleForms(sys[a.who], a.ev);
  }

  lemma HandleForms(s: Cohort, e: Event)
    requires e.InitView? && EventOk(s, e) && FormsView(s, e.form) && FormStamp(e.form) !in s.log
    ensures NoDuplicateStamp(s, e) && Handle(s, e) == OnInitView(s, e.form) == FormView(s, e.form)
  {
    hide FormView;
  }

  lemma FormingFollows(sys: Sys, a: Act, sys': Sys, era: Era, era': Era)
    requires EraOk(sys, era) && ViewStep(sys, a, sys', era, era')
    ensures a.who in sys' && era'.Valid() && Follows(sys'[a.who], era'.Opening())
  {
    var c, f := a.who, a.ev.form;
    hide EraOk, ViewStep, Continues, Handle, Linear, Now, Running, Arrives, MyReport, EventOk;
    ViewShape(sys, a, sys', era, era');
    FormingFacts(sys, a, sys', era, era');
    NextValid(sys, era, c, f);
    MemberOf(sys, era, c);
    hide MemberOk, PullsFor, Lags, Former, Follows, Inv, AllOk, NoDuplicateStamp;
    FollowsGrows(sys[c], Now(sys, era), era'.Opening());
    assert era'.Opening()[|era'.past|] == Slot(FormStamp(f), Form(f));
    hide FormView, OnInitView;
    HandleFollows(sys[c], era'.Opening(), a.ev);
  }

  /** The forming cohort installs the view, and has executed the whole history. */
  lemma FormingOpens(sys: Sys, a: Act, sys': Sys, era: Era, era': Era)
    requires EraOk(sys, era) && ViewStep(sys, a, sys', era, era')
    ensures a.who in sys && a.who in sys' && AllOk(sys'[a.who]) && Inv(sys'[a.who])
    ensures era'.Valid() && Follows(sys'[a.who], era'.Opening())
    ensures Opens(sys'[a.who], era'.form) && sys'[a.who].crashed == sys[a.who].crashed && sys'[a.who].pulls == sys[a.who].pulls
    ensures LogGrows(sys[a.who].log, sys'[a.who].log) && sys'[a.who].self == a.who
    ensures sys'[a.who].mode == Active ==> sys'[a.who].validView
  {
    ViewShape(sys, a, sys', era, era');
    hide EraOk, ViewStep, Continues, Handle, Linear, Now, Running, FormView, AllOk, Inv, Follows, Opens, LogGrows, AllExplained;
    hide NoDuplicateStamp, EventOk, Arrives, MyReport;
    FormingFacts(sys, a, sys', era, era');
    FormingFollows(sys, a, sys', era, era');
    ActorFacts(sys, a, sys'[a.who], era);
    MemberOf(sys, era, a.who);
    hide MemberOk, PullsFor, Lags, Former, Le, Lt;
    FormingFresh(sys, era, a.who, a.ev.form);
    FormViewOpens(sys[a.who], a.ev.form);
    OpensView(sys'[a.who], era');
  }

  lemma OpensView(t: Cohort, era: Era)
    requires era.Valid() && Inv(t) && Follows(t, era.Opening())
    requires t.latest == FormStamp(era.form) && t.committed == FormStamp(era.form) && t.executed == FormStamp(era.form)
    ensures Opens(t, era.form)
  {
    var g, y := era.Opening(), Slot(FormStamp(era.form), Form(era.form));
    assert g[|era.past|] == y;
    OpeningEarlier(era, y);
    assert t.validView && t.view.vid == era.form.view.vid by { hide JumpsMatch, ExecutedHeld, SubmittedInOrder, CacheOk, Follows; }
    hide Inv, LogIn, Requests;
    var x :| x in g && x.arg.Form? && x.arg.form.view == t.view;
    var i := IndexOf(g, x);
    assert Fits(g, i);
    SlotUnique(g, x, y);
  }

  /** A cohort that opens an era has handed every request of the history to its state machine. */
  lemma OpensSubmitted(t: Cohort, era: Era)
    requires era.Valid() && Opens(t, era.form) && Follows(t, era.Opening())
    ensures t.submitted == Requests(era.past)
  {
    var g := era.Opening();
    hide Linear, LogIn, ViewKnown, Requests;
    var n: nat :| ExecutedTo(t, g, n);
    assert StampAt(g, |g|) == FormStamp(era.form);
    StampsDistinct(g, n, |g|);
    assert g[..n] == g && g[..|g| - 1] == era.past;
    LastForm(g);
  }

  lemma LastForm(g: seq<Slot>)
    requires g != [] && g[|g| - 1].arg.Form?
    ensures Requests(g) == Requests(g[..|g| - 1])
  {
  }

  lemma ViewMoves(sys: Sys, a: Act, sys': Sys, era: Era, era': Era)
    requires EraOk(sys, era) && ViewStep(sys, a, sys', era, era')
    ensures Running(sys, era) && Running(sys', era') && Now(sys', era') == era'.Opening()
    ensures MovedOn(sys, era, sys', era') && Follow(sys, era, era')
  {
    var c, f := a.who, a.ev.form;
    ViewShape(sys, a, sys', era, era');
    hide EraOk, ViewStep, Continues, Handle, Linear, Now, FormView, AllOk, Inv, Follows, LogGrows, Arrives, Le, Leads, EventOk;
    FormingOpens(sys, a, sys', era, era');
    FormingFresh(sys, era, c, f);
    OpensLeads(era', sys'[c]);
    OpensCursors(sys'[c], f);
    OpensNow(sys', era');
    CommittedBelow(sys, era, f);
    hide Opens, Running, FormsView, MyReport, Course;
    forall d | d in sys ensures LogGrows(sys[d].log, sys'[d].log) && Le(sys[d].latest, sys'[d].latest) {
      if d == c {
        VidIsLe(sys[c].latest, sys'[c].latest);
      } else {
        LogGrowsRefl(sys[d].log);
        LeRefl(sys[d].latest);
      }
    }
    OpeningGrows(era', era.View());
    MovedParts(sys, era, sys', era');
  }

  lemma OpeningGrows(era': Era, v: View)
    requires VidLt(v.vid, era'.form.view.vid)
    ensures era'.past <= era'.Opening()
    ensures forall x :: x in era'.Opening() && x !in era'.past ==> VidLe(v.vid, x.vs.vid)
  {
  }

  lemma MovedParts(sys: Sys, era: Era, sys': Sys, era': Era)
    requires Running(sys, era) && Running(sys', era') && VidLe(era.View().vid, era'.View().vid) && sys'.Keys == sys.Keys
    requires forall c :: c in sys ==> LogGrows(sys[c].log, sys'[c].log) && Le(sys[c].latest, sys'[c].latest)
    requires Now(sys, era) <= Now(sys', era')
    requires forall x :: x in Now(sys', era') && x !in Now(sys, era) ==> VidLe(era.View().vid, x.vs.vid)
    requires Le(sys[era.Primary()].committed, sys'[era'.Primary()].committed)
    ensures MovedOn(sys, era, sys', era')
  {
    hide Running, Now, LogGrows, Le;
  }

  lemma OpensCursors(s: Cohort, f: Formation)
    requires Opens(s, f)
    ensures s.latest == FormStamp(f) && s.committed == FormStamp(f)
  {
  }

  lemma OpensNow(sys: Sys, era: Era)
    requires era.Valid() && era.Primary() in sys && Leads(sys[era.Primary()], era.View())
    requires Course(era, sys[era.Primary()]) == era.Opening()
    ensures Running(sys, era) && Now(sys, era) == era.Opening()
  {
    hide Leads, Linear, Course;
  }

  lemma VidIsLe(a: Viewstamp, b: Viewstamp)
    requires VidLt(a.vid, b.vid)
    ensures Le(a, b)
  {
  }

  lemma CommittedBelow(sys: Sys, era: Era, f: Formation)
    requires EraOk(sys, era) && VidLt(era.View().vid, f.view.vid)
    ensures era.Primary() in sys && Le(sys[era.Primary()].committed, FormStamp(f))
    ensures forall d :: d in sys ==> Le(sys[d].committed, FormStamp(f))
  {
    hide EraOk, Leads, Linear, Now;
    PrimaryFacts(sys, era);
    hide Running, Backed, Exact, Holders;
    FormerParts(sys[era.Primary()], era.View());
    forall d | d in sys ensures Le(sys[d].committed, FormStamp(f)) {
      MemberOf(sys, era, d);
      hide MemberOk, AllOk, Inv, Follows, PullsFor, Lags, Former;
    }
  }

  /** The old primary, if it is not the one that forms the next view, is a former primary from now on. */
  lemma OldPrimary(sys: Sys, a: Act, sys': Sys, era: Era, era': Era)
    requires EraOk(sys, era) && ViewStep(sys, a, sys', era, era') && a.who != era.Primary()
    ensures era.Primary() in sys' && Former(sys'[era.Primary()], era'.Opening(), era'.View())
  {
    ViewShape(sys, a, sys', era, era');
    hide EraOk, ViewStep, Handle, Arrives, MyReport, EventOk, Linear, CourseTo, Continues;
    var p, s := era.Primary(), sys[era.Primary()];
    FormingFresh(sys, era, a.who, a.ev.form);
    LeadFormer(era, era', s);
  }

  lemma LeadFormer(era: Era, era': Era, s: Cohort)
    requires era.Valid() && Leads(s, era.View()) && era'.past == Course(era, s)
    requires VidLt(era.View().vid, era'.View().vid)
    ensures Former(s, era'.Opening(), era'.View())
  {
    CourseEnd(era, s);
    FormerParts(s, era.View());
    hide Leads, Linear, Course;
  }

  lemma OtherMember(sys: Sys, a: Act, sys': Sys, era: Era, era': Era, d: Mid)
    requires EraOk(sys, era) && ViewStep(sys, a, sys', era, era') && d in sys' && d != a.who
    ensures Running(sys', era') && MemberOk(sys', era', Now(sys', era'), d)
  {
    ViewMoves(sys, a, sys', era, era');
    ViewShape(sys, a, sys', era, era');
    hide EraOk, ViewStep, Handle, Arrives, EventOk, AllOk, Inv, Follows, PullsFor, Lags, Former, MovedOn, Follow, Continues, Now, True, Le;
    hide Leads, Linear;
    MemberOf(sys, era, d);
    if d == era.Primary() {
      MemberKeeps(sys, era, sys', era', d);
      OldPrimary(sys, a, sys', era, era');
      LeRefl(sys[d].committed);
      BelowGrows(sys, era, sys', era', sys[d].committed);
    } else {
      hide MemberOk;
      MemberStays(sys, era, sys', era', d);
    }
  }

  /** All the forming cohort sends is the formation. */
  lemma FormingSays(sys: Sys, a: Act, sys': Sys, era: Era, era': Era)
    requires EraOk(sys, era) && ViewStep(sys, a, sys', era, era')
    ensures Running(sys', era') && a.who in sys' && PullsFor(sys', sys'[a.who])
    ensures forall m :: m in sys'[a.who].sent ==> True(sys', era', Now(sys', era'), m)
  {
    ViewShape(sys, a, sys', era, era');
    var c, f, s, t := a.who, a.ev.form, sys[a.who], sys'[a.who];
    hide EraOk, ViewStep, Handle, Arrives, AllOk, Inv, Follows, PullsFor, Lags, Former, MovedOn, Follow, Continues, True, Le, LogGrows;
    hide Running, Now, OnInitView, FormView, NoDuplicateStamp, EventOk, Opens, Linear;
    ViewMoves(sys, a, sys', era, era');
    FormingOpens(sys, a, sys', era, era');
    FormingFacts(sys, a, sys', era, era');
    MemberOf(sys, era, c);
    OnInitViewSays(s, f);
    PullsGrow(sys, era, sys', era', s);
    SamePullsFor(sys', s, t);
    MovedRunning(sys, era, sys', era');
    forall m | m in t.sent ensures True(sys', era', Now(sys', era'), m) {
      if m in s.sent {
        assert True(sys, era, Now(sys, era), m);
        TrueGrows(sys, era, sys', era', m);
      } else {
        FormationTrue(sys', era', m);
      }
    }
  }

  lemma SamePullsFor(sys: Sys, s: Cohort, t: Cohort)
    requires PullsFor(sys, s) && t.pulls == s.pulls
    ensures PullsFor(sys, t)
  {
  }

  lemma FormationTrue(sys: Sys, era: Era, m: Msg)
    requires era.Primary() in sys && Opens(sys[era.Primary()], era.form)
    requires m.ReplicateCall? && m.src == era.Primary()
    requires m.vs == FormStamp(era.form) && m.arg == Form(era.form) && m.committed == m.vs
    ensures True(sys, era, era.Opening(), m)
  {
    assert era.Opening()[|era.past|] == Slot(m.vs, m.arg);
  }

  /** Forming a view right after the history, at a cohort that reported all of it, begins the next era:
      the new primary has executed every request of the past, and no assertion fails. */
  lemma NextFormed(sys: Sys, a: Act, sys': Sys, era: Era, era': Era)
    requires EraOk(sys, era) && ViewStep(sys, a, sys', era, era')
    ensures Formed(sys', era') && MovedOn(sys, era, sys', era')
    ensures sys'[a.who].submitted == Requests(era'.past) && sys'[a.who].crashed == sys[a.who].crashed
  {
    hide EraOk, Handle, AllOk, Inv, Follows, PullsFor, Lags, Former, MovedOn, Follow, Now, True, Le, LogGrows, Running, Arrives, Linear;
    hide MyReport;
    var c := a.who;
    ViewMoves(sys, a, sys', era, era');
    FormingOpens(sys, a, sys', era, era');
    FormingSays(sys, a, sys', era, era');
    OpensSubmitted(sys'[c], era');
    forall d | d in sys' ensures MemberOk(sys', era', era'.Opening(), d) {
      if d != c { OtherMember(sys, a, sys', era, era', d); }
    }
  }

  // ---------------------------------------------------------------- the current primary can go on

  lemma {:induction false} LeadScan(s: Cohort, v: View, k: nat)
    requires Leads(s, v) && LastView(s, v) && k <= s.latest.ts
    ensures ScanFrom(s.log, s.jumps, At(v, k)) == s.latest
    decreases s.latest.ts - k
  {
    assert s.latest == At(v, s.latest.ts);
    var n := At(v, k + 1);
    assert VsNext(s.jumps, At(v, k)) == n;
    if k < s.latest.ts {
      AboveDrops(s.log.Keys, n, VsNext(s.jumps, n));
      LeadScan(s, v, k + 1);
    }
  }

  /** The primary of the current view reports the whole history, so a next view that continues from its
      report with it as the primary is such a step. */
  lemma PrimaryReports(sys: Sys, era: Era, f: Formation)
    requires EraOk(sys, era) && f.prev == sys[era.Primary()].latest
    requires f.view.primary == era.Primary() && era.Primary() !in f.view.backups
    ensures Continues(sys, era, era.Primary(), f)
  {
    hide EraOk, Holders, Backed, Exact, Linear;
    PrimaryFacts(sys, era);
    var s, v := sys[era.Primary()], era.View();
    MemberOf(sys, era, era.Primary());
    hide MemberOk, AllOk, PullsFor, Lags, Former;
    InvJumps(s);
    hide Inv, ScanFrom;
    PrimaryLast(era, s);
    assert s.executed == At(v, s.executed.ts);
    LeadScan(s, v, s.executed.ts);
  }
}
