/** Every step of a group that forms no view keeps the group on its linear history. */
module EraSteps {
  import opened Stamps
  import opened CohortSpec
  import opened CohortInvariants
  import opened LogPull
  import opened Traffic
  import opened Quorum
  import opened CohortRuns
  import opened LinearHistory
  import opened HistorySteps
  import opened PrimaryLoop
  import opened PrimarySteps
  import opened BackupSteps
  import opened OneView

  // ---------------------------------------------------------------- the cohort that moves, on its own

  lemma MemberOf(sys: Sys, era: Era, c: Mid)
    requires EraOk(sys, era) && c in sys
    ensures MemberOk(sys, era, Now(sys, era), c) && sys[c].self == c && AllOk(sys[c]) && Inv(sys[c])
    ensures Follows(sys[c], Now(sys, era)) && PullsFor(sys, sys[c]) && (sys[c].mode == Active ==> sys[c].validView)
    ensures c != era.Primary() ==> Lags(sys[c]) || Former(sys[c], Now(sys, era), era.View())
    ensures c != era.Primary() ==> Le(sys[c].committed, sys[era.Primary()].committed)
  {
    hide Leads, Now, Linear, Holders, Backed, Exact, AllOk, Follows, PullsFor, Lags, Former, Le, True;
    assert MemberOk(sys, era, Now(sys, era), c);
    AllInv(sys[c]);
    hide Inv;
  }

  lemma PrimaryFacts(sys: Sys, era: Era)
    requires EraOk(sys, era)
    ensures Running(sys, era) && era.Valid() && era.Primary() in sys && Leads(sys[era.Primary()], era.View())
    ensures Backed(sys[era.Primary()], era.View(), Holders(sys, era.View())) && Exact(sys[era.Primary()], era.View())
    ensures Linear(Now(sys, era))
  {
    hide Leads, Backed, Exact, MemberOk, Linear, Holders;
    CourseLinear(era, sys[era.Primary()]);
  }

  /** What the general theorems say of any event whose handling logs no second entry under a stamp. */
  lemma ActorFacts(sys: Sys, a: Act, t: Cohort, era: Era)
    requires EraOk(sys, era) && a.who in sys && Arrives(sys, a.who, a.ev) && NoDuplicateStamp(sys[a.who], a.ev)
    requires t == Handle(sys[a.who], a.ev)
    ensures AllOk(t) && Inv(t) && AllExplained(sys[a.who], a.ev, t) && Grows(sys[a.who], t) && LogGrows(sys[a.who].log, t.log)
    ensures t.self == a.who && (t.mode == Active ==> t.validView)
  {
    MemberOf(sys, era, a.who);
    hide EraOk, MemberOk, AllOk, Inv, Handle, NoDuplicateStamp, Follows, Grows, AllExplained, LogGrows, PullsFor, Lags, Former;
    var s := sys[a.who];
    HandleKeeps(s, a.ev);
    HandleExplained(s, a.ev);
    ActiveHasView(s, a.ev);
    GrowsParts(s, t);
  }

  lemma GrowsParts(s: Cohort, t: Cohort)
    requires Grows(s, t)
    ensures LogGrows(s.log, t.log) && t.self == s.self && s.sent <= t.sent
  {
  }

  lemma InNetTrue(sys: Sys, era: Era, m: Msg)
    requires EraOk(sys, era) && InNet(sys, m)
    ensures True(sys, era, Now(sys, era), m)
  {
    hide True, Backed, Exact, Leads, Now, Linear, Holders, AllOk, Follows, PullsFor, Lags, Former;
    assert MemberOk(sys, era, Now(sys, era), m.src);
  }

  /** The primary takes a request at a stamp its log does not hold. */
  lemma NoDuplicates(sys: Sys, a: Act, sys': Sys, era: Era)
    requires EraOk(sys, era) && EraStep(sys, a, sys', era)
    ensures NoDuplicateStamp(sys[a.who], a.ev)
  {
    PrimaryFacts(sys, era);
    LeadLatest(sys[era.Primary()], era.View());
    hide EraOk, Leads, Handle, Arrives, TakesRequest;
  }

  lemma LeadLatest(s: Cohort, v: View)
    requires Leads(s, v)
    ensures Succ(s.latest) == At(v, s.latest.ts + 1) && Succ(s.latest) !in s.log
  {
  }

  lemma StepFacts(sys: Sys, a: Act, sys': Sys, era: Era)
    requires EraOk(sys, era) && EraStep(sys, a, sys', era)
    ensures a.who in sys && EventOk(sys[a.who], a.ev) && NoDuplicateStamp(sys[a.who], a.ev)
    ensures sys' == sys[a.who := Handle(sys[a.who], a.ev)]
    ensures AllOk(sys'[a.who]) && Inv(sys'[a.who]) && AllExplained(sys[a.who], a.ev, sys'[a.who])
    ensures LogGrows(sys[a.who].log, sys'[a.who].log) && sys'[a.who].self == a.who
    ensures sys'[a.who].mode == Active ==> sys'[a.who].validView
  {
    NoDuplicates(sys, a, sys', era);
    ArrivesOk(sys, a.who, a.ev);
    hide EraOk, Handle, NoDuplicateStamp, Arrives, AllOk, Inv, AllExplained, LogGrows, EventOk;
    ActorFacts(sys, a, sys'[a.who], era);
  }

  lemma ArrivesOk(sys: Sys, c: Mid, e: Event)
    requires c in sys && Arrives(sys, c, e)
    ensures EventOk(sys[c], e)
  {
  }

  // ---------------------------------------------------------------- the primary

  ghost function With(H: nat -> set<Mid>, p: Mid): nat -> set<Mid> {
    (n: nat) => H(n) + {p}
  }

  lemma BackedMono(s: Cohort, v: View, H: nat -> set<Mid>, H': nat -> set<Mid>)
    requires Leads(s, v) && Backed(s, v, H) && forall k: nat :: k <= s.latest.ts ==> H(k) <= H'(k)
    ensures Backed(s, v, H')
  {
    LeadWaiting(s, v);
    hide Leads, Majority, Mids;
    forall k: nat | 1 <= k <= s.committed.ts ensures Majority(H'(k), Mids(v)) {
      MajorityGrows(H(k), H'(k), Mids(v));
    }
  }

  lemma HoldersUpto(sys: Sys, v: View, c: Mid, n: nat)
    requires c in sys && HoldsTo(sys[c].log, v, n)
    ensures forall k: nat :: k <= n ==> c in Holders(sys, v)(k)
  {
  }

  /** A recorded answer to a pull lies on the history. */
  lemma FetchedTrue(sys: Sys, a: Act, sys': Sys, era: Era)
    requires EraOk(sys, era) && EraStep(sys, a, sys', era) && a.ev.Fetched? && a.ev.resp.Some?
    ensures a.who in sys && Running(sys, era) && Slot(a.ev.vs, a.ev.resp.value) in Now(sys, era)
  {
    hide EraOk, Now, InNet, Leads, Backed, Exact, Linear, Holders, Handle, Arrives;
    PrimaryFacts(sys, era);
    FetchedSent(sys, a.who, a.ev);
    hide EraStep;
    FetchedKnown(sys, era, sys[a.who].pulls[a.ev.pull].src, a.ev.vs, a.ev.resp.value);
  }

  lemma FetchedKnown(sys: Sys, era: Era, src: Mid, vs: Viewstamp, arg: Arg)
    requires EraOk(sys, era) && InNet(sys, FetchReply(src, vs, arg)) && Running(sys, era)
    ensures Slot(vs, arg) in Now(sys, era)
  {
    hide EraOk, Now, InNet, Running;
    InNetTrue(sys, era, FetchReply(src, vs, arg));
  }

  lemma FetchedSent(sys: Sys, c: Mid, e: Event)
    requires c in sys && Arrives(sys, c, e) && e.Fetched? && e.resp.Some?
    ensures e.pull < |sys[c].pulls| && InNet(sys, FetchReply(sys[c].pulls[e.pull].src, e.vs, e.resp.value))
  {
    hide InNet;
  }

  lemma CallTrue(sys: Sys, a: Act, sys': Sys, era: Era)
    requires EraOk(sys, era) && EraStep(sys, a, sys', era) && a.ev.Replicate?
    ensures a.who in sys && era.Primary() in sys && Slot(a.ev.vs, a.ev.arg) in Now(sys, era)
    ensures GivenOut(sys, a.ev.src, a.ev.vs) && Le(a.ev.committed, sys[era.Primary()].committed)
    ensures a.ev.vs.ts == 0 ==> a.ev.committed == a.ev.vs
  {
    InNetTrue(sys, era, ReplicateCall(a.ev.src, a.who, a.ev.vs, a.ev.arg, a.ev.committed));
    PrimaryFacts(sys, era);
    hide EraOk, Now, Handle, Running, Backed, Exact, Leads, Le, GivenOut, InNet;
  }

  lemma ReplyTrue(sys: Sys, a: Act, sys': Sys, era: Era)
    requires EraOk(sys, era) && EraStep(sys, a, sys', era) && a.ev.Replicated?
    ensures a.who in sys && Le(a.ev.vs, sys[a.who].latest)
    ensures a.who == era.Primary() && a.ev.vs.vid == era.View().vid ==>
              a.ev.src in sys && HoldsTo(sys[a.ev.src].log, era.View(), a.ev.vs.ts)
  {
    InNetTrue(sys, era, ReplicateReply(a.ev.src, a.who, a.ev.vs));
    hide EraOk, Now, Handle, HoldsTo, Le, InNet;
  }

  /** Every event the primary can see is one its loop can deal with. */
  lemma PrimarySees(sys: Sys, a: Act, sys': Sys, era: Era)
    requires EraOk(sys, era) && EraStep(sys, a, sys', era) && a.who == era.Primary()
    ensures PrimaryFed(sys[a.who], era.View(), With(Holders(sys, era.View()), era.Primary()), a.ev)
  {
    PrimaryFacts(sys, era);
    MemberOf(sys, era, a.who);
    var s, e := sys[a.who], a.ev;
    hide EraOk, Leads, Backed, Exact, MemberOk, TakesRequest, Linear, Handle, AllOk, PullsFor, Former, Lags, HoldsTo, Holders, Arrives;
    hide CourseTo, Le;
    match e
    case Execute(handle, req) => PrimaryLast(era, s) by { InvJumps(s); assert LogIn(s.log, Course(era, s)); }
    case Replicate(src, vs, arg, committed) => CallTrue(sys, a, sys', era);
    case Replicated(src, vs) =>
      ReplyTrue(sys, a, sys', era);
      if vs.vid == era.View().vid { HoldersUpto(sys, era.View(), src, vs.ts); }
    case Fetched(i, vs, resp) =>
      if resp.Some? {
        FetchedTrue(sys, a, sys', era);
        NotHeldIsEarlier(era, s, Slot(vs, resp.value));
      }
    case _ =>
  }

  /** What the primary's step leads to, on its own. */
  lemma PrimaryHandles(sys: Sys, a: Act, sys': Sys, era: Era)
    requires EraOk(sys, era) && EraStep(sys, a, sys', era) && a.who == era.Primary()
    ensures var s, t, H := sys[a.who], sys'[a.who], With(Holders(sys, era.View()), a.who);
            && Leads(t, era.View()) && Backed(t, era.View(), H) && Exact(t, era.View())
            && s.latest.ts <= t.latest.ts && s.committed.ts <= t.committed.ts
            && (!ManagerEvent(a.ev) ==> t.crashed == s.crashed)
            && (a.ev.Execute? && TakesRequest(s, a.ev.req) ==>
                  t.latest == Succ(s.latest) && t.latest in t.log && t.log[t.latest].arg == Client(a.ev.req))
  {
    var s, t, v := sys[a.who], sys'[a.who], era.View();
    var H := Holders(sys, v);
    PrimarySees(sys, a, sys', era);
    StepFacts(sys, a, sys', era);
    PrimaryFacts(sys, era);
    hide EraOk, EraStep, MemberOk, AllExplained, AllOk, PrimaryFed, TakesRequest, Handle, NoDuplicateStamp, EventOk, Inv;
    hide Exact, Backed, Leads, Mids, Majority, Linear, Course, LogGrows;
    BackedMono(s, v, H, With(H, a.who));
    HandleStepped(s, v, With(H, a.who), a.ev);
    var u := t.(crashed := s.crashed);
    LeadsUncrashed(u, t, v, With(H, a.who));
    LeadLatest(s, v);
  }

  lemma LeadsUncrashed(u: Cohort, t: Cohort, v: View, H: nat -> set<Mid>)
    requires Leads(u, v) && t == u.(crashed := t.crashed)
    ensures Leads(t, v) && (Backed(u, v, H) ==> Backed(t, v, H)) && (Exact(u, v) ==> Exact(t, v))
  {
    FrameLeads(u, t, v);
    SameBacked(u, t, v, H);
  }

  lemma SameBacked(u: Cohort, t: Cohort, v: View, H: nat -> set<Mid>)
    requires Leads(u, v) && Leads(t, v) && t.log == u.log && t.latest == u.latest && t.committed == u.committed
    ensures Backed(u, v, H) ==> Backed(t, v, H)
    ensures Exact(u, v) ==> Exact(t, v)
  {
    LeadWaiting(u, v);
    LeadWaiting(t, v);
    hide Leads, Majority, Mids;
    assert forall k: nat :: Waiting(t, v, k) ==> Waiting(u, v, k) && Received(t, v, k) == Received(u, v, k);
    assert forall k: nat :: Waiting(u, v, k) ==> Waiting(t, v, k);
  }

  // ---------------------------------------------------------------- a former primary

  /** Everybody a former primary might count. */
  ghost function Everybody(s: Cohort, v: View, from: Mid): set<Mid> {
    Mids(v) + {from} + set k, x | k in s.log && s.log[k].ack.Some? && x in s.log[k].ack.value.received :: x
  }

  ghost function Anyone(s: Cohort, v: View, from: Mid): nat -> set<Mid> {
    (n: nat) => Everybody(s, v, from)
  }

  lemma FormerBacked(s: Cohort, v: View, from: Mid)
    requires Leads(s, v)
    ensures Backed(s, v, Anyone(s, v, from))
  {
    LeadWaiting(s, v);
    var q := Everybody(s, v, from);
    assert q * Mids(v) == Mids(v) && v.primary in Mids(v);
    assert |Mids(v)| > 0;
    hide Leads, Mids;
    forall k: nat | Waiting(s, v, k) ensures Received(s, v, k) <= q {
      assert At(v, k) in s.log;
    }
  }

  /** A slot of the history that a former primary does not hold does not touch its view. */
  lemma FormerElsewhere(s: Cohort, g: seq<Slot>, v: View, x: Slot)
    requires Linear(g) && Former(s, g, v) && LogIn(s.log, g) && x in g
    ensures x.vs !in s.log ==> Elsewhere(s, s.view, x.vs, x.arg)
  {
    FormerLatest(s);
    hide AcksNested;
    var j := IndexOf(g, x);
    assert Fits(g, j);
    if x.vs.vid == s.view.vid { assert x.vs == At(s.view, x.vs.ts); }
    if x.arg.Form? && x.arg.form.prev.vid == s.view.vid && x.arg.form.prev.ts < s.latest.ts {
      assert Recorded(s.log, g, s.latest);
      var y := Slot(s.latest, s.log[s.latest].arg);
      var i := IndexOf(g, y);
      hide Leads, Linear, LogIn;
      BetweenForm(g, i, j);
    }
  }

  lemma FormerLatest(s: Cohort)
    requires Leads(s, s.view)
    ensures s.latest in s.log && s.latest.vid == s.view.vid
  {
    assert s.latest == At(s.view, s.latest.ts);
  }

  /** No stamp of the view a formation follows comes after its prev. */
  lemma BetweenForm(g: seq<Slot>, i: nat, j: nat)
    requires Linear(g) && i < |g| && j < |g| && g[j].arg.Form? && g[i].vs.vid == g[j].arg.form.prev.vid
    ensures Le(g[i].vs, g[j].arg.form.prev)
  {
    assert Fits(g, j);
    assert StampAt(g, i + 1) == g[i].vs && StampAt(g, j + 1) == g[j].vs;
    SuccIsLeast(g[j].arg.form.prev, g[j].vs);
    if i + 1 < j { StampsIncrease(g, i + 1, j); }
    if j < i { StampsIncrease(g, j + 1, i + 1); }
  }

  /** Every event a former primary can see, short of the formation that ends its term. */
  lemma FormerSees(sys: Sys, a: Act, sys': Sys, era: Era)
    requires EraOk(sys, era) && EraStep(sys, a, sys', era) && a.who != era.Primary()
    requires Former(sys[a.who], Now(sys, era), era.View())
    requires a.ev.Replicate? && a.ev.vs.ts == 0 ==> Le(a.ev.committed, sys[a.who].committed)
    ensures var s, from := sys[a.who], if a.ev.Replicated? then a.ev.src else 0;
            PrimaryFed(s, s.view, Anyone(s, s.view, from), a.ev)
  {
    PrimaryFacts(sys, era);
    MemberOf(sys, era, a.who);
    var s, e := sys[a.who], a.ev;
    hide EraOk, Backed, Exact, MemberOk, TakesRequest, Linear, Handle, Now, AllOk, PullsFor, Lags, Inv, Arrives, Leads, Holders;
    match e
    case Replicate(src, vs, arg, committed) => CallTrue(sys, a, sys', era);
    case Replicated(src, vs) =>
      ReplyTrue(sys, a, sys', era);
      assert src in Everybody(s, s.view, src);
    case Fetched(i, vs, resp) =>
      if resp.Some? {
        FetchedTrue(sys, a, sys', era);
        FormerElsewhere(s, Now(sys, era), era.View(), Slot(vs, resp.value));
      }
    case _ =>
  }

  lemma FormerStays(s: Cohort, t: Cohort, g: seq<Slot>, v: View, e: Event)
    requires Former(s, g, v) && EventOk(s, e) && t == Handle(s, e)
    requires PrimaryFed(s, s.view, Anyone(s, s.view, if e.Replicated? then e.src else 0), e)
    requires e.Execute? ==> !TakesRequest(s, e.req)
    ensures Former(t, g, v) && t.latest == s.latest && t.committed.vid == s.view.vid && !OutrunsLatest(s)
    ensures !ManagerEvent(e) ==> t.crashed == s.crashed
  {
    var H := Anyone(s, s.view, if e.Replicated? then e.src else 0);
    FormerBacked(s, s.view, if e.Replicated? then e.src else 0);
    FormerParts(s, s.view);
    hide Leads, Backed, Exact, Handle, PrimaryFed, TakesRequest, Anyone, EventOk;
    HandleStepped(s, s.view, H, e);
    var u := t.(crashed := s.crashed);
    LeadsUncrashed(u, t, s.view, H);
    FormerParts(t, s.view);
  }

  lemma FormerParts(s: Cohort, v: View)
    requires Leads(s, v)
    ensures s.latest.vid == v.vid && s.committed.vid == v.vid && s.view == v
  {
  }

  /** The formation that ends a former primary's term. */
  lemma FormerEnds(s: Cohort, g: seq<Slot>, v: View, e: Event)
    requires Former(s, g, v) && e.Replicate? && EventOk(s, e) && e.vs.ts == 0 && e.committed == e.vs
    requires Lt(s.committed, e.committed)
    ensures var t := Handle(s, e);
            Lags(t) && t.latest == s.latest && t.committed == e.committed && t.crashed == s.crashed && !OutrunsLatest(s)
  {
    FormerParts(s, s.view);
    hide Leads, OnReplicate;
    SuccIsLeast(s.committed, e.vs);
    FormerHears(s, e.src, e.vs, e.arg, e.committed);
  }

  /** What the step of a cohort other than the primary leads to, on its own. */
  ghost predicate Handled(sys: Sys, s: Cohort, t: Cohort, era: Era, e: Event)
    requires Running(sys, era)
  {
    && t.latest == s.latest && (Lags(t) || Former(t, Now(sys, era), era.View()))
    && Le(t.committed, sys[era.Primary()].committed)
    && (!ManagerEvent(e) ==> t.crashed == (s.crashed || (e.Replicated? && OutrunsLatest(s))))
  }

  lemma LaggerHandles(sys: Sys, a: Act, sys': Sys, era: Era)
    requires EraOk(sys, era) && EraStep(sys, a, sys', era) && a.who != era.Primary() && Lags(sys[a.who])
    ensures Running(sys, era) && Handled(sys, sys[a.who], sys'[a.who], era, a.ev)
  {
    MemberOf(sys, era, a.who);
    PrimaryFacts(sys, era);
    ArrivesOk(sys, a.who, a.ev);
    if a.ev.Replicate? { CallTrue(sys, a, sys', era); }
    if a.ev.Replicated? { ReplyTrue(sys, a, sys', era); }
    hide EraOk, Backed, Exact, TakesRequest, Linear, Handle, Now, AllOk, PullsFor, Inv, Arrives, Leads, Holders, Running;
    hide OutrunsLatest, Follows, GivenOut, Former, MemberOk, HoldsTo;
    LaggerAlone(sys[a.who], sys'[a.who], a.ev, sys[era.Primary()].committed);
  }

  lemma LaggerAlone(s: Cohort, t: Cohort, e: Event, top: Viewstamp)
    requires Lags(s) && EventOk(s, e) && t == Handle(s, e) && Le(s.committed, top)
    requires e.Execute? ==> !TakesRequest(s, e.req)
    requires e.Replicated? ==> Le(e.vs, s.latest)
    requires e.InitView? ==> !FormsView(s, e.form)
    requires e.Replicate? ==> Le(e.committed, top)
    ensures Lags(t) && t.latest == s.latest && Le(t.committed, top)
    ensures !ManagerEvent(e) ==> t.crashed == (s.crashed || (e.Replicated? && OutrunsLatest(s)))
  {
    hide Handle, TakesRequest, OutrunsLatest, FormsView, EventOk;
    HandleLags(s, e);
  }

  /** The event is the formation that ends a former primary's term. */
  predicate EndsTerm(s: Cohort, e: Event) {
    e.Replicate? && e.vs.ts == 0 && Lt(s.committed, e.committed)
  }

  lemma TermEnds(sys: Sys, a: Act, sys': Sys, era: Era)
    requires EraOk(sys, era) && EraStep(sys, a, sys', era)
    requires Running(sys, era) && Former(sys[a.who], Now(sys, era), era.View()) && EndsTerm(sys[a.who], a.ev)
    ensures Handled(sys, sys[a.who], sys'[a.who], era, a.ev)
  {
    CallTrue(sys, a, sys', era);
    ArrivesOk(sys, a.who, a.ev);
    FormerEnds(sys[a.who], Now(sys, era), era.View(), a.ev);
    hide Former, EraOk, Handle, Now, Arrives, Running, OutrunsLatest, TakesRequest, Lags, Le;
  }

  lemma TermStays(sys: Sys, a: Act, sys': Sys, era: Era)
    requires EraOk(sys, era) && EraStep(sys, a, sys', era) && a.who != era.Primary()
    requires Running(sys, era) && Former(sys[a.who], Now(sys, era), era.View()) && !EndsTerm(sys[a.who], a.ev)
    ensures Handled(sys, sys[a.who], sys'[a.who], era, a.ev)
  {
    var s, t, g, v := sys[a.who], sys'[a.who], Now(sys, era), era.View();
    StayFed(sys, a, sys', era);
    hide Former, EraOk, Handle, Now, Arrives, Running, OutrunsLatest, TakesRequest, Lags, Le, PrimaryFed, EventOk;
    FormerStays(s, t, g, v, a.ev);
    FormerBelow(s, g, v, t.committed, sys[era.Primary()].committed);
  }

  lemma StayFed(sys: Sys, a: Act, sys': Sys, era: Era)
    requires EraOk(sys, era) && EraStep(sys, a, sys', era) && a.who != era.Primary()
    requires Running(sys, era) && Former(sys[a.who], Now(sys, era), era.View()) && !EndsTerm(sys[a.who], a.ev)
    ensures var s, e := sys[a.who], a.ev; PrimaryFed(s, s.view, Anyone(s, s.view, if e.Replicated? then e.src else 0), e)
    ensures EventOk(sys[a.who], a.ev) && (a.ev.Execute? ==> !TakesRequest(sys[a.who], a.ev.req))
    ensures era.Primary() in sys && sys[era.Primary()].committed.vid == era.View().vid
  {
    hide Former, EraOk, Handle, Now, Leads, Linear, PrimaryFed, TakesRequest;
    ArrivesOk(sys, a.who, a.ev);
    hide Arrives;
    FormerSees(sys, a, sys', era);
    FormerParts(sys[era.Primary()], era.View());
  }

  lemma FormerHandles(sys: Sys, a: Act, sys': Sys, era: Era)
    requires EraOk(sys, era) && EraStep(sys, a, sys', era) && a.who != era.Primary()
    requires Running(sys, era) && Former(sys[a.who], Now(sys, era), era.View())
    ensures Handled(sys, sys[a.who], sys'[a.who], era, a.ev)
  {
    hide EraOk, EraStep, Former, Handled, Running, Now;
    StepShape(sys, a, sys', era);
    if EndsTerm(sys[a.who], a.ev) { TermEnds(sys, a, sys', era); } else { TermStays(sys, a, sys', era); }
  }

  lemma FormerBelow(s: Cohort, g: seq<Slot>, v: View, vs: Viewstamp, top: Viewstamp)
    requires Former(s, g, v) && vs.vid == s.view.vid && top.vid == v.vid
    ensures Le(vs, top)
  {
    FormerVid(s, g, v);
    hide Former;
  }

  lemma FormerVid(s: Cohort, g: seq<Slot>, v: View)
    requires Former(s, g, v)
    ensures VidLt(s.view.vid, v.vid)
  {
  }

  /** A cohort that is not the primary follows what it is told, and fails no assertion but one. */
  lemma OtherHandles(sys: Sys, a: Act, sys': Sys, era: Era)
    requires EraOk(sys, era) && EraStep(sys, a, sys', era) && a.who != era.Primary()
    ensures Running(sys, era) && Handled(sys, sys[a.who], sys'[a.who], era, a.ev)
  {
    MemberOf(sys, era, a.who);
    PrimaryFacts(sys, era);
    hide EraOk, EraStep, Former, Handled, Running, Now;
    if Lags(sys[a.who]) { LaggerHandles(sys, a, sys', era); } else { FormerHandles(sys, a, sys', era); }
  }

  // ---------------------------------------------------------------- the group moves on

  lemma NewSlots(era: Era, s: Cohort, t: Cohort, x: Slot)
    requires Leads(s, era.View()) && Leads(t, era.View()) && x in Course(era, t) && x !in Course(era, s)
    requires LogGrows(s.log, t.log) && s.latest.ts <= t.latest.ts
    ensures x.vs.vid == era.View().vid
  {
    CourseGrows(era, s, t);
    var i := NewIndex(Course(era, s), Course(era, t), x);
    hide AcksNested;
  }

  lemma NewIndex(g: seq<Slot>, h: seq<Slot>, x: Slot) returns (i: nat)
    requires g <= h && x in h && x !in g
    ensures |g| <= i < |h| && h[i] == x
  {
    i :| i < |h| && h[i] == x;
  }

  /** The primary, or its unchanged state, has moved on. */
  lemma PrimaryMoves(sys: Sys, a: Act, sys': Sys, era: Era)
    requires EraOk(sys, era) && EraStep(sys, a, sys', era)
    ensures Running(sys, era) && era.Primary() in sys' && Leads(sys'[era.Primary()], era.View())
    ensures var s, t := sys[era.Primary()], sys'[era.Primary()];
            LogGrows(s.log, t.log) && s.latest.ts <= t.latest.ts && s.committed.ts <= t.committed.ts
  {
    hide EraStep, EraOk, AllExplained, AllOk, Handle, NoDuplicateStamp, EventOk, Inv, LogGrows, Exact, Leads, Holders, Linear, Now;
    PrimaryFacts(sys, era);
    hide Running, Backed;
    StepShape(sys, a, sys', era);
    if a.who == era.Primary() {
      StepFacts(sys, a, sys', era);
      hide TakesRequest, With;
      PrimaryHandles(sys, a, sys', era);
    } else {
      LogGrowsRefl(sys[era.Primary()].log);
    }
  }

  lemma LeadsRise(s: Cohort, t: Cohort, v: View)
    requires Leads(s, v) && Leads(t, v) && s.latest.ts <= t.latest.ts && s.committed.ts <= t.committed.ts
    ensures Le(s.latest, t.latest) && Le(s.committed, t.committed)
  {
    FormerParts(s, v);
    FormerParts(t, v);
    hide Leads;
  }

  lemma LogsMove(sys: Sys, a: Act, sys': Sys, era: Era, c: Mid)
    requires EraOk(sys, era) && EraStep(sys, a, sys', era) && c in sys
    ensures c in sys' && LogGrows(sys[c].log, sys'[c].log) && Le(sys[c].latest, sys'[c].latest)
  {
    hide EraStep, EraOk, AllExplained, AllOk, Handle, NoDuplicateStamp, EventOk, Inv, LogGrows, Leads, Now, Linear, Lags, Former, Le;
    StepShape(sys, a, sys', era);
    if c != a.who {
      LogGrowsRefl(sys[c].log);
      LeRefl(sys[c].latest);
    } else if c == era.Primary() {
      PrimaryMoves(sys, a, sys', era);
      LeadsRise(sys[c], sys'[c], era.View());
    } else {
      StepFacts(sys, a, sys', era);
      hide Running;
      OtherHandles(sys, a, sys', era);
      LeRefl(sys[c].latest);
    }
  }

  lemma LeRefl(a: Viewstamp)
    ensures Le(a, a)
  {
  }

  lemma StepMoves(sys: Sys, a: Act, sys': Sys, era: Era)
    requires EraOk(sys, era) && EraStep(sys, a, sys', era)
    ensures MovedOn(sys, era, sys', era)
  {
    hide EraStep, EraOk, Handle, Course, LogGrows, Leads, Linear, Le, VidLe;
    var p, v := era.Primary(), era.View();
    PrimaryMoves(sys, a, sys', era);
    StepShape(sys, a, sys', era);
    LeadsRise(sys[p], sys'[p], v);
    CourseGrows(era, sys[p], sys'[p]);
    VidLeRefl(v.vid);
    forall x | x in Now(sys', era) && x !in Now(sys, era) ensures VidLe(v.vid, x.vs.vid) {
      NewSlots(era, sys[p], sys'[p], x);
    }
    forall c | c in sys ensures LogGrows(sys[c].log, sys'[c].log) && Le(sys[c].latest, sys'[c].latest) {
      LogsMove(sys, a, sys', era, c);
    }
  }

  lemma VidLeRefl(a: Viewid)
    ensures VidLe(a, a)
  {
  }

  lemma StepShape(sys: Sys, a: Act, sys': Sys, era: Era)
    requires EraStep(sys, a, sys', era)
    ensures sys'.Keys == sys.Keys && a.who in sys && (forall d :: d in sys && d != a.who ==> sys'[d] == sys[d])
  {
    hide Arrives, Handle;
  }

  lemma LogGrowsRefl(l: Log)
    ensures LogGrows(l, l)
  {
  }

  lemma HoldersCover(sys: Sys, sys': Sys, era: Era, k: nat)
    requires MovedOn(sys, era, sys', era) && era.Primary() in sys' && k <= sys'[era.Primary()].latest.ts
    ensures With(Holders(sys, era.View()), era.Primary())(k) <= Holders(sys', era.View())(k)
  {
    MovedRunning(sys, era, sys', era);
    HoldersGrow(sys, era, sys', era, era.View(), k);
    LeadHolds(sys'[era.Primary()], era.View(), k);
    hide Leads, MovedOn, HoldsTo, Now;
  }

  lemma LeadHolds(s: Cohort, v: View, n: nat)
    requires Leads(s, v) && n <= s.latest.ts
    ensures HoldsTo(s.log, v, n)
  {
  }

  lemma PrimaryBacked(sys: Sys, a: Act, sys': Sys, era: Era)
    requires EraOk(sys, era) && EraStep(sys, a, sys', era)
    ensures era.Primary() in sys' && Leads(sys'[era.Primary()], era.View()) && Exact(sys'[era.Primary()], era.View())
    ensures Backed(sys'[era.Primary()], era.View(), With(Holders(sys, era.View()), era.Primary()))
  {
    var p, v := era.Primary(), era.View();
    PrimaryFacts(sys, era);
    StepShape(sys, a, sys', era);
    hide EraOk, EraStep, Exact, Backed, Leads, Holders, With, Linear, Now, Running;
    if a.who == p {
      PrimaryHandles(sys, a, sys', era);
    } else {
      BackedWith(sys[p], v, Holders(sys, v), p);
    }
  }

  /** The primary's part of the invariant after a step of any cohort. */
  lemma PrimaryStays(sys: Sys, a: Act, sys': Sys, era: Era)
    requires EraOk(sys, era) && EraStep(sys, a, sys', era)
    ensures Running(sys', era)
    ensures Backed(sys'[era.Primary()], era.View(), Holders(sys', era.View())) && Exact(sys'[era.Primary()], era.View())
  {
    hide EraOk, EraStep, Exact, Backed, Leads, Holders, With, MovedOn, Linear, Now;
    var p, v := era.Primary(), era.View();
    var H := With(Holders(sys, v), p);
    StepMoves(sys, a, sys', era);
    MovedRunning(sys, era, sys', era);
    PrimaryBacked(sys, a, sys', era);
    forall k: nat | k <= sys'[p].latest.ts ensures H(k) <= Holders(sys', v)(k) {
      HoldersCover(sys, sys', era, k);
    }
    BackedMono(sys'[p], v, H, Holders(sys', v));
  }

  lemma BackedWith(s: Cohort, v: View, H: nat -> set<Mid>, p: Mid)
    requires Leads(s, v) && Backed(s, v, H)
    ensures Backed(s, v, With(H, p))
  {
    BackedMono(s, v, H, With(H, p));
  }

  // ---------------------------------------------------------------- what the moving cohort sends and stores

  /** A request is taken at the next stamp, which becomes the next slot of the history. */
  lemma TakenLogged(sys: Sys, a: Act, sys': Sys, era: Era)
    requires EraOk(sys, era) && EraStep(sys, a, sys', era) && MovedOn(sys, era, sys', era)
    requires a.ev.Execute? && TakesRequest(sys[a.who], a.ev.req)
    ensures a.who == era.Primary() && sys'[a.who].latest == Succ(sys[a.who].latest)
    ensures Slot(Succ(sys[a.who].latest), Client(a.ev.req)) in Now(sys', era)
  {
    PrimaryHandles(sys, a, sys', era);
    hide EraOk, TakesRequest, Handle, Leads, Course, Arrives, Linear, Backed, Exact, With, Holders;
    CourseTakes(era, sys'[a.who]);
  }

  /** What the event brings comes from the history as it is after the step. */
  lemma StepFed(sys: Sys, a: Act, sys': Sys, era: Era)
    requires EraOk(sys, era) && EraStep(sys, a, sys', era) && MovedOn(sys, era, sys', era)
    ensures Fed(sys[a.who], a.ev, Now(sys', era))
  {
    var s, e := sys[a.who], a.ev;
    MovedRunning(sys, era, sys', era);
    hide EraOk, MovedOn, Now, TakesRequest, Handle, GivenOut, Arrives;
    match e
    case Replicate(src, vs, arg, committed) =>
      CallTrue(sys, a, sys', era);
      SlotGrows(sys, era, sys', era, Slot(vs, arg));
    case Fetched(i, vs, resp) =>
      if resp.Some? {
        FetchedTrue(sys, a, sys', era);
        SlotGrows(sys, era, sys', era, Slot(vs, resp.value));
      }
    case Execute(handle, req) =>
      if TakesRequest(s, req) { TakenLogged(sys, a, sys', era); }
    case _ =>
  }

  lemma MemberFollows(sys: Sys, a: Act, sys': Sys, era: Era)
    requires EraOk(sys, era) && EraStep(sys, a, sys', era) && MovedOn(sys, era, sys', era)
    ensures Follows(sys'[a.who], Now(sys', era))
  {
    MovedRunning(sys, era, sys', era);
    StepFacts(sys, a, sys', era);
    StepFed(sys, a, sys', era);
    MemberOf(sys, era, a.who);
    CourseLinear(era, sys'[era.Primary()]);
    MovedPrefix(sys, era, sys', era);
    var s := sys[a.who];
    hide EraOk, EraStep, MovedOn, NoDuplicateStamp, Linear, Now, Handle, Running, Follows, Fed, EventOk, AllExplained, Inv, AllOk;
    FollowsGrows(s, Now(sys, era), Now(sys', era));
    HandleFollows(s, Now(sys', era), a.ev);
  }

  lemma MovedPrefix(sys: Sys, era: Era, sys': Sys, era': Era)
    requires MovedOn(sys, era, sys', era')
    ensures Running(sys, era) && Running(sys', era') && Now(sys, era) <= Now(sys', era')
  {
    hide Running, Now, Le, VidLe, LogGrows;
  }

  /** Whoever a pull will acknowledge to has given out its stamp. */
  lemma DoneFor(sys: Sys, a: Act, sys': Sys, era: Era, d: DoneCb)
    requires EraOk(sys, era) && EraStep(sys, a, sys', era) && MovedOn(sys, era, sys', era) && d.AckReplicate?
    requires HasDone(sys[a.who], d) || Opened(sys[a.who], a.ev) == Some(d)
    ensures GivenOut(sys', d.to, d.vs)
  {
    var s, e := sys[a.who], a.ev;
    if HasDone(s, d) {
      MemberOf(sys, era, a.who);
      HeldDone(sys, s, d);
    } else {
      OpenedBy(s, e, d);
      CallTrue(sys, a, sys', era);
    }
    hide EraOk, EraStep, MovedOn, HasDone, Opened, GivenOut;
    GivenGrows(sys, era, sys', era, d.to, d.vs);
  }

  lemma HeldDone(sys: Sys, s: Cohort, d: DoneCb)
    requires PullsFor(sys, s) && d.AckReplicate? && HasDone(s, d)
    ensures GivenOut(sys, d.to, d.vs)
  {
    hide GivenOut;
  }

  lemma OpenedBy(s: Cohort, e: Event, d: DoneCb)
    requires Opened(s, e) == Some(d) && d.AckReplicate?
    ensures e.Replicate? && d == AckReplicate(e.src, e.vs)
  {
    hide RefusesReplicate, RefusesNv;
  }

  lemma MemberPulls(sys: Sys, a: Act, sys': Sys, era: Era)
    requires EraOk(sys, era) && EraStep(sys, a, sys', era) && MovedOn(sys, era, sys', era)
    ensures PullsFor(sys', sys'[a.who])
  {
    StepFacts(sys, a, sys', era);
    PullsExplained(sys[a.who], a.ev, sys'[a.who]);
    hide EraOk, EraStep, MovedOn, HasDone, Opened, GivenOut, Handle, AllOk, Inv, AllExplained, NoDuplicateStamp, EventOk, LogGrows;
    forall i: nat | i < |sys'[a.who].pulls| && sys'[a.who].pulls[i].done.AckReplicate?
      ensures GivenOut(sys', sys'[a.who].pulls[i].done.to, sys'[a.who].pulls[i].done.vs)
    {
      DoneFor(sys, a, sys', era, sys'[a.who].pulls[i].done);
    }
  }

  lemma PullsExplained(s: Cohort, e: Event, t: Cohort)
    requires AllExplained(s, e, t)
    ensures forall i :: 0 <= i < |t.pulls| ==>
              t.pulls[i].done == NullCb || HasDone(s, t.pulls[i].done) || Opened(s, e) == Some(t.pulls[i].done)
  {
    hide HasDone, Opened, Explained;
  }

  /** Handling an INIT_VIEW of the installed view does nothing. */
  lemma IdleInit(sys: Sys, a: Act, sys': Sys, era: Era)
    requires EraStep(sys, a, sys', era) && a.ev.InitView?
    ensures sys'[a.who] == sys[a.who]
  {
    hide Arrives;
  }

  lemma SentCall(sys: Sys, a: Act, sys': Sys, era: Era, m: Msg)
    requires EraOk(sys, era) && EraStep(sys, a, sys', era) && MovedOn(sys, era, sys', era) && m.ReplicateCall?
    requires m in sys'[a.who].sent && m !in sys[a.who].sent && Explained(sys[a.who], a.ev, sys'[a.who], m)
    requires sys[a.who].self == a.who
    ensures era.Primary() in sys' && True(sys', era, Now(sys', era), m)
  {
    if a.ev.InitView? { IdleInit(sys, a, sys', era); assert false; }
    MovedRunning(sys, era, sys', era);
    TakenLogged(sys, a, sys', era);
    CommittedRises(sys, era, sys', era);
    hide EraOk, TakesRequest, Handle, Now, Running, MovedOn, Arrives;
  }

  lemma SentReply(sys: Sys, a: Act, sys': Sys, era: Era, m: Msg)
    requires EraOk(sys, era) && EraStep(sys, a, sys', era) && MovedOn(sys, era, sys', era) && m.ReplicateReply?
    requires Explained(sys[a.who], a.ev, sys'[a.who], m) && sys[a.who].self == a.who
    ensures era.Primary() in sys' && True(sys', era, Now(sys', era), m)
  {
    var t := sys'[a.who];
    MovedRunning(sys, era, sys', era);
    ReplyFrom(sys[a.who], a.ev, t, m);
    DoneFor(sys, a, sys', era, AckReplicate(m.dst, m.vs));
    hide EraOk, TakesRequest, Handle, Now, MovedOn, Arrives, Explained, Opened, HasDone, AckMeans, HoldsTo, GivenOut, Running;
    if m.vs.vid == era.View().vid {
      MemberFollows(sys, a, sys', era);
      AckHolds(sys', era, t, m.vs);
    }
  }

  lemma ReplyFrom(s: Cohort, e: Event, t: Cohort, m: Msg)
    requires m.ReplicateReply? && Explained(s, e, t, m)
    ensures m.src == s.self && AckMeans(t, m.vs)
    ensures HasDone(s, AckReplicate(m.dst, m.vs)) || Opened(s, e) == Some(AckReplicate(m.dst, m.vs))
  {
    hide AckMeans, HasDone, Opened;
  }

  lemma AckHolds(sys: Sys, era: Era, c: Cohort, vs: Viewstamp)
    requires Running(sys, era) && Follows(c, Now(sys, era)) && AckMeans(c, vs) && vs.vid == era.View().vid
    ensures HoldsTo(c.log, era.View(), vs.ts)
  {
    ExecutedBelow(era, sys[era.Primary()], c);
    hide Leads, Follows, Course, Linear;
    assert forall k: nat :: At(era.View(), k) == Viewstamp(vs.vid, k);
  }

  lemma SentFetched(sys: Sys, a: Act, sys': Sys, era: Era, m: Msg)
    requires EraOk(sys, era) && EraStep(sys, a, sys', era) && MovedOn(sys, era, sys', era) && m.FetchReply?
    requires Explained(sys[a.who], a.ev, sys'[a.who], m)
    ensures era.Primary() in sys' && True(sys', era, Now(sys', era), m)
  {
    MovedRunning(sys, era, sys', era);
    MemberOf(sys, era, a.who);
    hide EraOk, Handle, Now, MovedOn, Arrives, AllOk, PullsFor, Lags, Former, Running;
    assert Recorded(sys[a.who].log, Now(sys, era), m.vs);
    SlotGrows(sys, era, sys', era, Slot(m.vs, m.arg));
  }

  /** Whatever the cohort sends in the step is true. */
  lemma MemberSpeaks(sys: Sys, a: Act, sys': Sys, era: Era)
    requires EraOk(sys, era) && EraStep(sys, a, sys', era) && MovedOn(sys, era, sys', era)
    ensures era.Primary() in sys' && forall m :: m in sys'[a.who].sent ==> True(sys', era, Now(sys', era), m)
  {
    MovedRunning(sys, era, sys', era);
    MemberOf(sys, era, a.who);
    StepFacts(sys, a, sys', era);
    var s, e, t := sys[a.who], a.ev, sys'[a.who];
    SentExplained(s, e, t);
    hide EraOk, EraStep, MovedOn, EventOk, AllOk, Inv, Handle, NoDuplicateStamp, True, Now, Running, Follows, PullsFor, Explained, LogGrows;
    hide AllExplained, Lags, Former, Le;
    forall m | m in t.sent ensures True(sys', era, Now(sys', era), m) {
      if m in s.sent {
        assert True(sys, era, Now(sys, era), m);
        TrueGrows(sys, era, sys', era, m);
      } else {
        match m
        case ReplicateCall(_, _, _, _, _) => SentCall(sys, a, sys', era, m);
        case ReplicateReply(_, _, _) => SentReply(sys, a, sys', era, m);
        case FetchReply(_, _, _) => SentFetched(sys, a, sys', era, m);
        case _ => OtherTrue(sys', era, Now(sys', era), m);
      }
    }
  }

  lemma SentExplained(s: Cohort, e: Event, t: Cohort)
    requires AllExplained(s, e, t)
    ensures forall m :: m in t.sent && m !in s.sent ==> Explained(s, e, t, m)
  {
    hide Explained;
  }

  lemma OtherTrue(sys: Sys, era: Era, g: seq<Slot>, m: Msg)
    requires era.Primary() in sys && !m.ReplicateCall? && !m.ReplicateReply? && !m.FetchReply?
    ensures True(sys, era, g, m)
  {
  }

  // ---------------------------------------------------------------- one step

  /** The cohort that moved. */
  lemma MemberMoves(sys: Sys, a: Act, sys': Sys, era: Era)
    requires EraOk(sys, era) && EraStep(sys, a, sys', era) && MovedOn(sys, era, sys', era)
    ensures era.Primary() in sys' && MemberOk(sys', era, Now(sys', era), a.who)
  {
    MovedRunning(sys, era, sys', era);
    StepFacts(sys, a, sys', era);
    MemberFollows(sys, a, sys', era);
    MemberPulls(sys, a, sys', era);
    MemberSpeaks(sys, a, sys', era);
    if a.who != era.Primary() { OtherMoves(sys, a, sys', era); }
    hide EraOk, EraStep, MovedOn, Handle, AllOk, True, NoDuplicateStamp, Inv, AllExplained, Follows, PullsFor, EventOk, Lags, Former;
    hide Now, LogGrows, Running, Le;
  }

  lemma OtherMoves(sys: Sys, a: Act, sys': Sys, era: Era)
    requires EraOk(sys, era) && EraStep(sys, a, sys', era) && MovedOn(sys, era, sys', era) && a.who != era.Primary()
    ensures Running(sys', era) && a.who in sys' && (Lags(sys'[a.who]) || Former(sys'[a.who], Now(sys', era), era.View()))
    ensures era.Primary() in sys' && Le(sys'[a.who].committed, sys'[era.Primary()].committed)
  {
    MovedRunning(sys, era, sys', era);
    OtherHandles(sys, a, sys', era);
    var t := sys'[a.who];
    BelowGrows(sys, era, sys', era, t.committed);
    hide EraOk, EraStep, Former, Handle, Now, Running;
    if !Lags(t) { FormerGrows(t, Now(sys, era), era.View(), Now(sys', era), era.View()); }
  }

  lemma MemberNext(sys: Sys, a: Act, sys': Sys, era: Era, d: Mid)
    requires EraOk(sys, era) && EraStep(sys, a, sys', era) && MovedOn(sys, era, sys', era) && d in sys'
    ensures era.Primary() in sys' && MemberOk(sys', era, Now(sys', era), d)
  {
    MovedRunning(sys, era, sys', era);
    if d == a.who {
      MemberMoves(sys, a, sys', era);
    } else {
      Unmoved(sys, a, sys', era, d);
      MemberOf(sys, era, d);
      hide EraOk, EraStep, MovedOn, Now, Running, AllOk, Inv, Follows, PullsFor, Lags, Former, Le;
      if d == era.Primary() {
        MemberKeeps(sys, era, sys', era, d);
        hide True;
      } else {
        hide MemberOk;
        MemberStays(sys, era, sys', era, d);
      }
    }
  }

  lemma Unmoved(sys: Sys, a: Act, sys': Sys, era: Era, d: Mid)
    requires EraStep(sys, a, sys', era) && d in sys' && d != a.who
    ensures d in sys && sys'[d] == sys[d]
  {
    hide Arrives, Handle;
  }

  /** The invariant of an era survives every step that forms no view. */
  lemma EraKeeps(sys: Sys, a: Act, sys': Sys, era: Era)
    requires EraOk(sys, era) && EraStep(sys, a, sys', era)
    ensures EraOk(sys', era) && MovedOn(sys, era, sys', era)
  {
    StepMoves(sys, a, sys', era);
    PrimaryStays(sys, a, sys', era);
    hide MemberOk, Running, Backed, Exact, MovedOn, EraStep, Holders, Now;
    forall d | d in sys' ensures MemberOk(sys', era, Now(sys', era), d) {
      MemberNext(sys, a, sys', era, d);
    }
  }

  /** An event fails an assertion exactly if it is an acknowledgement that finds `committed` in a later
      view than `latest` at a cohort that still is the primary of its installed view; the manager of a
      view change apart. */
  lemma StepFails(sys: Sys, a: Act, sys': Sys, era: Era)
    requires EraOk(sys, era) && EraStep(sys, a, sys', era) && !ManagerEvent(a.ev)
    ensures sys'[a.who].crashed == (sys[a.who].crashed || (a.ev.Replicated? && OutrunsLatest(sys[a.who])))
  {
    if a.who == era.Primary() {
      PrimaryHandles(sys, a, sys', era);
      PrimaryFacts(sys, era);
      FormerParts(sys[a.who], era.View());
    } else {
      OtherHandles(sys, a, sys', era);
    }
    hide EraOk, EraStep, Leads, Linear, Backed, Exact, With, Holders, Running, Now, Former, Lags;
  }

  /** If every request is addressed to the current view, only its primary takes requests. */
  lemma AddressedSteps(sys: Sys, a: Act, sys': Sys, era: Era)
    requires EraOk(sys, era) && Step(sys, a, sys')
    requires a.ev.InitView? ==> !FormsView(sys[a.who], a.ev.form)
    requires a.ev.Execute? ==> a.ev.req.vid == era.View().vid
    ensures EraStep(sys, a, sys', era)
  {
    PrimaryFacts(sys, era);
    MemberOf(sys, era, a.who);
    hide EraOk, Handle, Arrives, AllOk, Inv, PullsFor, Lags, Former, Leads, Linear, Backed, Exact, Holders, Follows, TakesRequest, NoDuplicateStamp;
    if a.ev.Execute? && TakesRequest(sys[a.who], a.ev.req) {
      OnlyPrimaryTakes(era, sys[era.Primary()], sys[a.who], a.ev.req);
    }
  }
}
