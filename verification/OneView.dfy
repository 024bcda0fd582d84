/**
 * A group whose logs all lie on one linear history, while one primary serves. Cohorts fetch what they
 * miss, traffic of earlier views is still under way, former primaries may not have noticed yet, and
 * any number of view changes may be attempted. The network loses, repeats and reorders messages.
 */
module OneView {
  import opened Stamps
  import opened CohortSpec
  import opened CohortInvariants
  import opened LogPull
  import opened Traffic
  import opened Quorum
  import opened CohortRuns
  import opened LinearHistory
  import opened HistorySteps
  import opened PrimaryLoop
  import opened PrimarySteps
  import opened BackupSteps

  /** The formation of the view, and the history it continues. */
  datatype Era = Era(past: seq<Slot>, form: Formation) {
    ghost function View(): View { form.view }
    ghost function Primary(): Mid { form.view.primary }
    ghost function Opening(): seq<Slot> { past + [Slot(FormStamp(form), Form(form))] }
    ghost predicate Valid() { Linear(Opening()) && Primary() !in form.view.backups }
  }

  /** The opening of the era, continued by the n client entries its primary s has logged. */
  ghost function CourseTo(era: Era, s: Cohort, n: nat): seq<Slot>
    requires Leads(s, era.View()) && n <= s.latest.ts
  {
    era.Opening() + seq(n, k requires 0 <= k < n => Slot(At(era.View(), k + 1), s.log[At(era.View(), k + 1)].arg))
  }

  ghost function Course(era: Era, s: Cohort): seq<Slot>
    requires Leads(s, era.View())
  {
    CourseTo(era, s, s.latest.ts)
  }

  lemma CourseLinear(era: Era, s: Cohort)
    requires era.Valid() && Leads(s, era.View())
    ensures Linear(Course(era, s))
  {
    var v, g, o := era.View(), Course(era, s), era.Opening();
    hide AcksNested;
    forall i: nat | i < |g| ensures Fits(g, i) {
      if i < |o| {
        assert Fits(o, i);
        assert g[i] == o[i] && StampAt(g, i) == StampAt(o, i);
      } else {
        var k := i - |o| + 1;
        assert g[i] == Slot(At(v, k), s.log[At(v, k)].arg) && At(v, k) in s.log;
        assert WfSlot(At(v, k), s.log[At(v, k)].arg);
        assert g[i - 1].vs == At(v, k - 1);
      }
    }
  }

  lemma CourseGrows(era: Era, s: Cohort, t: Cohort)
    requires Leads(s, era.View()) && Leads(t, era.View()) && LogGrows(s.log, t.log) && s.latest.ts <= t.latest.ts
    ensures Course(era, s) <= Course(era, t)
  {
    hide AcksNested;
  }

  lemma CourseTakes(era: Era, s: Cohort)
    requires Leads(s, era.View()) && s.latest.ts > 0
    ensures s.latest in s.log && Slot(s.latest, s.log[s.latest].arg) in Course(era, s)
  {
    hide AcksNested;
    var v, n := era.View(), s.latest.ts;
    assert s.latest == At(v, n);
    assert Course(era, s)[|era.past| + n] == Slot(At(v, n), s.log[At(v, n)].arg);
  }

  /** Entries of the past lie in earlier views and form views that follow earlier views. */
  lemma OpeningEarlier(era: Era, x: Slot)
    requires era.Valid() && x in era.Opening()
    ensures x.vs == FormStamp(era.form) || VidLt(x.vs.vid, era.View().vid)
    ensures x.arg.Form? ==> VidLt(x.arg.form.prev.vid, era.View().vid)
    ensures VidLt(ZERO_VID, era.View().vid)
  {
    var o := era.Opening();
    var i := IndexOf(o, x);
    assert o[|era.past|] == Slot(FormStamp(era.form), Form(era.form));
    assert Fits(o, i) && Fits(o, |era.past|);
    if i < |era.past| {
      StampsIncrease(o, i + 1, |o|);
      SuccIsLeast(x.vs, FormStamp(era.form));
    }
    if x.arg.Form? {
      SuccIsLeast(x.arg.form.prev, FormStamp(x.arg.form));
    }
    SuccIsLeast(era.form.prev, FormStamp(era.form));
  }

  /** A slot of the history that the primary does not hold belongs to the past. */
  lemma NotHeldIsEarlier(era: Era, s: Cohort, x: Slot)
    requires era.Valid() && Leads(s, era.View()) && x in Course(era, s)
    ensures x.vs !in s.log ==> Elsewhere(s, era.View(), x.vs, x.arg)
    ensures VidLe(x.vs.vid, era.View().vid)
    ensures x.arg.Form? ==> x.arg.form.prev.vid != era.View().vid
  {
    hide AcksNested;
    var v, g, o := era.View(), Course(era, s), era.Opening();
    var i := IndexOf(g, x);
    if i < |o| {
      assert x == o[i];
      OpeningEarlier(era, x);
      assert At(v, 0) in s.log && FormStamp(era.form) == At(v, 0);
    } else {
      assert x.vs == At(v, i - |o| + 1);
      assert At(v, i - |o| + 1) in s.log && WfSlot(x.vs, x.arg);
    }
  }

  /** The primary of the era knows of no view that follows its own. */
  lemma PrimaryLast(era: Era, s: Cohort)
    requires era.Valid() && Leads(s, era.View()) && LogIn(s.log, Course(era, s)) && JumpsMatch(s.log, s.jumps)
    ensures LastView(s, era.View())
  {
    hide Leads, CourseTo, Linear;
    forall p | p in s.jumps ensures p.vid != era.View().vid {
      var k := s.jumps[p];
      assert Recorded(s.log, Course(era, s), k);
      NotHeldIsEarlier(era, s, Slot(k, s.log[k].arg));
    }
  }

  lemma ExecutedBelow(era: Era, s: Cohort, c: Cohort)
    requires era.Valid() && Leads(s, era.View()) && Follows(c, Course(era, s))
    ensures VidLe(c.executed.vid, era.View().vid) && era.View().vid != ZERO_VID
  {
    var g := Course(era, s);
    hide Leads, Linear, Requests, LogIn, ViewKnown, CourseTo;
    OpeningEarlier(era, Slot(FormStamp(era.form), Form(era.form)));
    var n: nat :| ExecutedTo(c, g, n);
    if n > 0 {
      assert g[n - 1] in g;
      NotHeldIsEarlier(era, s, g[n - 1]);
    }
  }

  /** Only the primary of the era takes requests addressed to its view. */
  lemma OnlyPrimaryTakes(era: Era, s: Cohort, c: Cohort, req: Request)
    requires era.Valid() && Leads(s, era.View()) && Follows(c, Course(era, s)) && (c.mode == Active ==> c.validView)
    requires TakesRequest(c, req) && req.vid == era.View().vid
    ensures c.self == era.Primary()
  {
    var g := Course(era, s);
    CourseLinear(era, s);
    hide Leads, Requests, LogIn, Cached, Stale;
    var x :| x in g && x.arg.Form? && x.arg.form.view == c.view;
    var y := Slot(FormStamp(era.form), Form(era.form));
    assert y in g by { assert g[|era.past|] == y; }
    assert FormStamp(x.arg.form) == x.vs by {
      var i := IndexOf(g, x);
      assert Fits(g, i);
    }
    hide Linear, CourseTo;
    SlotUnique(g, x, y);
  }

  // ---------------------------------------------------------------- the invariant of an era

  ghost predicate HoldsTo(log: Log, v: View, n: nat) {
    forall k: nat :: k <= n ==> At(v, k) in log
  }

  /** The cohorts that hold the formation and the first n client entries of the view. */
  ghost function Holders(sys: Sys, v: View): nat -> set<Mid> {
    (n: nat) => set c | c in sys && HoldsTo(sys[c].log, v, n)
  }

  ghost predicate Running(sys: Sys, era: Era) {
    era.Valid() && era.Primary() in sys && Leads(sys[era.Primary()], era.View())
  }

  ghost function Now(sys: Sys, era: Era): seq<Slot>
    requires Running(sys, era)
  {
    Course(era, sys[era.Primary()])
  }

  /** c has given out the stamp, or a later one. */
  ghost predicate GivenOut(sys: Sys, c: Mid, vs: Viewstamp) {
    c in sys ==> Le(vs, sys[c].latest)
  }

  /** What a message on the network says about the history g is true. */
  ghost predicate True(sys: Sys, era: Era, g: seq<Slot>, m: Msg)
    requires era.Primary() in sys
  {
    match m
    case ReplicateCall(src, dst, vs, arg, committed) =>
      && Slot(vs, arg) in g && GivenOut(sys, src, vs)
      && (vs.ts == 0 ==> committed == vs) && Le(committed, sys[era.Primary()].committed)
    case ReplicateReply(src, dst, vs) =>
      && GivenOut(sys, dst, vs)
      && (dst == era.Primary() && vs.vid == era.View().vid ==> src in sys && HoldsTo(sys[src].log, era.View(), vs.ts))
    case FetchReply(src, vs, arg) => Slot(vs, arg) in g
    case _ => true
  }

  /** Whoever is waiting for this cohort's acknowledgement has given out its stamp. */
  ghost predicate PullsFor(sys: Sys, s: Cohort) {
    forall i :: 0 <= i < |s.pulls| && s.pulls[i].done.AckReplicate? ==> GivenOut(sys, s.pulls[i].done.to, s.pulls[i].done.vs)
  }

  /** The primary of an earlier view that has not heard of a later one; nothing it logged is off g. */
  ghost predicate Former(s: Cohort, g: seq<Slot>, v: View) {
    && Leads(s, s.view) && VidLt(s.view.vid, v.vid)
    && forall x :: x in g && x.vs.vid == s.view.vid ==> x.vs.ts <= s.latest.ts
  }

  ghost predicate MemberOk(sys: Sys, era: Era, g: seq<Slot>, c: Mid)
    requires era.Primary() in sys && c in sys
  {
    var s := sys[c];
    && s.self == c && AllOk(s) && Follows(s, g) && PullsFor(sys, s)
    && (s.mode == Active ==> s.validView)
    && (forall m :: m in s.sent ==> True(sys, era, g, m))
    && (c != era.Primary() ==> (Lags(s) || Former(s, g, era.View())) && Le(s.committed, sys[era.Primary()].committed))
  }

  ghost predicate EraOk(sys: Sys, era: Era) {
    && Running(sys, era)
    && Backed(sys[era.Primary()], era.View(), Holders(sys, era.View()))
    && Exact(sys[era.Primary()], era.View())
    && forall c :: c in sys ==> MemberOk(sys, era, Now(sys, era), c)
  }

  /** A step in which no view is formed, and no request is taken by anyone but the primary. */
  ghost predicate EraStep(sys: Sys, a: Act, sys': Sys, era: Era) {
    && a.who in sys && Arrives(sys, a.who, a.ev) && sys' == sys[a.who := Handle(sys[a.who], a.ev)]
    && (a.ev.InitView? ==> !FormsView(sys[a.who], a.ev.form))
    && (a.ev.Execute? && TakesRequest(sys[a.who], a.ev.req) ==> a.who == era.Primary())
  }

  // ---------------------------------------------------------------- what only grows

  /** The group has moved on: no log has lost anything, no cohort has taken back a stamp, the history
      has grown by slots of the view or of later ones, and the primary has committed more of it. */
  ghost predicate MovedOn(sys: Sys, era: Era, sys': Sys, era': Era) {
    && Running(sys, era) && Running(sys', era') && VidLe(era.View().vid, era'.View().vid)
    && sys'.Keys == sys.Keys
    && (forall c :: c in sys ==> LogGrows(sys[c].log, sys'[c].log) && Le(sys[c].latest, sys'[c].latest))
    && Now(sys, era) <= Now(sys', era')
    && (forall x :: x in Now(sys', era') && x !in Now(sys, era) ==> VidLe(era.View().vid, x.vs.vid))
    && Le(sys[era.Primary()].committed, sys'[era'.Primary()].committed)
  }

  /** Either the same era, or its primary had given out nothing in its view before. */
  ghost predicate Follow(sys: Sys, era: Era, era': Era) {
    era' == era || (era'.Primary() in sys && VidLt(sys[era'.Primary()].latest.vid, era'.View().vid))
  }

  lemma LeTrans(a: Viewstamp, b: Viewstamp, c: Viewstamp)
    requires Le(a, b) && Le(b, c)
    ensures Le(a, c)
  {
  }

  lemma GivenGrows(sys: Sys, era: Era, sys': Sys, era': Era, c: Mid, vs: Viewstamp)
    requires MovedOn(sys, era, sys', era') && GivenOut(sys, c, vs)
    ensures GivenOut(sys', c, vs)
  {
    hide Running, Now, LogGrows, Le, VidLe;
    if c in sys { LeTrans(vs, sys[c].latest, sys'[c].latest); }
  }

  lemma SlotGrows(sys: Sys, era: Era, sys': Sys, era': Era, x: Slot)
    requires MovedOn(sys, era, sys', era') && x in Now(sys, era)
    ensures x in Now(sys', era')
  {
    hide Running, Now, LogGrows, Le;
    var i :| 0 <= i < |Now(sys, era)| && Now(sys, era)[i] == x;
    assert Now(sys', era')[i] == x;
  }

  lemma CommittedRises(sys: Sys, era: Era, sys': Sys, era': Era)
    requires MovedOn(sys, era, sys', era')
    ensures era.Primary() in sys && era'.Primary() in sys'
    ensures Le(sys[era.Primary()].committed, sys'[era'.Primary()].committed)
  {
    hide Leads, Now, LogGrows, Le, VidLe, Linear;
  }

  lemma BelowGrows(sys: Sys, era: Era, sys': Sys, era': Era, vs: Viewstamp)
    requires MovedOn(sys, era, sys', era') && era.Primary() in sys && Le(vs, sys[era.Primary()].committed)
    ensures era'.Primary() in sys' && Le(vs, sys'[era'.Primary()].committed)
  {
    hide *;
    CommittedRises(sys, era, sys', era');
    LeTrans(vs, sys[era.Primary()].committed, sys'[era'.Primary()].committed);
  }

  lemma HeldGrows(sys: Sys, era: Era, sys': Sys, era': Era, c: Mid, v: View, n: nat)
    requires MovedOn(sys, era, sys', era') && c in sys && HoldsTo(sys[c].log, v, n)
    ensures c in sys' && HoldsTo(sys'[c].log, v, n)
  {
    hide Running, Now;
  }

  lemma TrueGrows(sys: Sys, era: Era, sys': Sys, era': Era, m: Msg)
    requires MovedOn(sys, era, sys', era') && Follow(sys, era, era')
    requires True(sys, era, Now(sys, era), m)
    ensures True(sys', era', Now(sys', era'), m)
  {
    MovedRunning(sys, era, sys', era');
    hide Running, Now, MovedOn, HoldsTo, GivenOut, Follow, Le;
    match m
    case ReplicateCall(src, dst, vs, arg, committed) =>
      SlotGrows(sys, era, sys', era', Slot(vs, arg));
      GivenGrows(sys, era, sys', era', src, vs);
      BelowGrows(sys, era, sys', era', committed);
    case ReplicateReply(src, dst, vs) =>
      GivenGrows(sys, era, sys', era', dst, vs);
      if dst == era'.Primary() && vs.vid == era'.View().vid { ReplyGrows(sys, era, sys', era', src, vs); }
    case FetchReply(src, vs, arg) => SlotGrows(sys, era, sys', era', Slot(vs, arg));
    case _ =>
  }

  /** No acknowledgement of the new view can be older than the view. */
  lemma ReplyGrows(sys: Sys, era: Era, sys': Sys, era': Era, src: Mid, vs: Viewstamp)
    requires MovedOn(sys, era, sys', era') && Follow(sys, era, era')
    requires GivenOut(sys, era'.Primary(), vs) && vs.vid == era'.View().vid
    requires era == era' ==> src in sys && HoldsTo(sys[src].log, era.View(), vs.ts)
    ensures src in sys' && HoldsTo(sys'[src].log, era'.View(), vs.ts)
  {
    hide Running, Now, MovedOn, HoldsTo;
    if era == era' {
      HeldGrows(sys, era, sys', era', src, era.View(), vs.ts);
    } else {
      assert false;
    }
  }

  lemma MovedRunning(sys: Sys, era: Era, sys': Sys, era': Era)
    requires MovedOn(sys, era, sys', era')
    ensures Running(sys, era) && Running(sys', era') && era.Primary() in sys && era'.Primary() in sys'
  {
    hide Leads, Now, Linear;
  }

  lemma HoldersGrow(sys: Sys, era: Era, sys': Sys, era': Era, v: View, n: nat)
    requires MovedOn(sys, era, sys', era')
    ensures Holders(sys, v)(n) <= Holders(sys', v)(n)
  {
    hide Running, Now, MovedOn, HoldsTo;
    forall c | c in Holders(sys, v)(n) ensures c in Holders(sys', v)(n) { HeldGrows(sys, era, sys', era', c, v, n); }
  }

  lemma FormerGrows(s: Cohort, g: seq<Slot>, v: View, g': seq<Slot>, v': View)
    requires Former(s, g, v) && VidLe(v.vid, v'.vid)
    requires forall x :: x in g' && x !in g ==> VidLe(v.vid, x.vs.vid)
    ensures Former(s, g', v')
  {
    hide Leads;
  }

  /** A cohort that did not move, unless it was or is the primary. */
  lemma MemberStays(sys: Sys, era: Era, sys': Sys, era': Era, c: Mid)
    requires MovedOn(sys, era, sys', era') && Follow(sys, era, era')
    requires c in sys && MemberOk(sys, era, Now(sys, era), c) && sys'[c] == sys[c]
    requires c != era.Primary() && c != era'.Primary()
    ensures MemberOk(sys', era', Now(sys', era'), c)
  {
    MemberKeeps(sys, era, sys', era', c);
    BelowGrows(sys, era, sys', era', sys[c].committed);
    if !Lags(sys[c]) { FormerGrows(sys[c], Now(sys, era), era.View(), Now(sys', era'), era'.View()); }
    hide Running, Now, AllOk, Follows, True, PullsFor, Former, MovedOn, Lags;
  }

  /** What a cohort that did not move needs of the new state. */
  lemma MemberKeeps(sys: Sys, era: Era, sys': Sys, era': Era, c: Mid)
    requires MovedOn(sys, era, sys', era') && Follow(sys, era, era')
    requires c in sys && MemberOk(sys, era, Now(sys, era), c) && sys'[c] == sys[c]
    ensures Follows(sys'[c], Now(sys', era')) && PullsFor(sys', sys'[c])
    ensures forall m :: m in sys'[c].sent ==> True(sys', era', Now(sys', era'), m)
  {
    FollowsGrows(sys[c], Now(sys, era), Now(sys', era'));
    hide Running, Now, AllOk, Follows, True, Follow, Former, Lags;
    forall m | m in sys'[c].sent ensures True(sys', era', Now(sys', era'), m) {
      TrueGrows(sys, era, sys', era', m);
    }
    PullsGrow(sys, era, sys', era', sys[c]);
  }

  lemma PullsGrow(sys: Sys, era: Era, sys': Sys, era': Era, s: Cohort)
    requires MovedOn(sys, era, sys', era') && PullsFor(sys, s)
    ensures PullsFor(sys', s)
  {
    hide MovedOn, GivenOut;
    forall i: nat | i < |s.pulls| && s.pulls[i].done.AckReplicate?
      ensures GivenOut(sys', s.pulls[i].done.to, s.pulls[i].done.vs)
    {
      GivenGrows(sys, era, sys', era', s.pulls[i].done.to, s.pulls[i].done.vs);
    }
  }

}
