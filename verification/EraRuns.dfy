/** What holds at every moment of every run that goes through any number of views. */
module EraRuns {
  import opened Stamps
  import opened CohortSpec
  import opened CohortInvariants
  import opened Traffic
  import opened Quorum
  import opened CohortRuns
  import opened LogWalk
  import opened LinearHistory
  import opened HistorySteps
  import opened PrimaryLoop
  import opened PrimarySteps
  import opened BackupSteps
  import opened OneView
  import opened EraSteps
  import opened NextView

  /** Either the step forms no view, or it forms the next one. */
  ghost predicate RunStep(sys: Sys, a: Act, sys': Sys, era: Era, era': Era) {
    || (EraStep(sys, a, sys', era) && era' == era)
    || ViewStep(sys, a, sys', era, era')
  }

  /** A run that starts when some view has just been formed; eras[k] is the view at moment k with the
      history before it. */
  ghost predicate EraRun(h: History, eras: seq<Era>) {
    && |h.states| == |h.acts| + 1 && |eras| == |h.states|
    && Formed(h.states[0], eras[0])
    && forall k :: 0 <= k < |h.acts| ==> RunStep(h.states[k], h.acts[k], h.states[k + 1], eras[k], eras[k + 1])
  }

  /** The invariant survives every step of either kind. */
  lemma RunStepKeeps(sys: Sys, a: Act, sys': Sys, era: Era, era': Era)
    requires EraOk(sys, era) && RunStep(sys, a, sys', era, era')
    ensures EraOk(sys', era') && MovedOn(sys, era, sys', era')
  {
    hide EraOk, EraStep, ViewStep, MovedOn, Formed;
    if EraStep(sys, a, sys', era) && era' == era {
      EraKeeps(sys, a, sys', era);
    } else {
      NextFormed(sys, a, sys', era, era');
      FormedOk(sys', era');
    }
  }

  lemma {:induction false} EraHolds(h: History, eras: seq<Era>, k: nat)
    requires EraRun(h, eras) && k < |h.states|
    ensures EraOk(h.states[k], eras[k])
  {
    hide EraOk, RunStep, Formed, MovedOn;
    if k == 0 {
      FormedOk(h.states[0], eras[0]);
    } else {
      EraHolds(h, eras, k - 1);
      RunStepKeeps(h.states[k - 1], h.acts[k - 1], h.states[k], eras[k - 1], eras[k]);
    }
  }

  lemma MovedTrans(a: Sys, x: Era, b: Sys, y: Era, c: Sys, z: Era)
    requires MovedOn(a, x, b, y) && MovedOn(b, y, c, z)
    ensures MovedOn(a, x, c, z)
  {
    hide Leads, Linear, LogGrows, Now, Le, VidLe;
    forall d | d in a ensures LogGrows(a[d].log, c[d].log) && Le(a[d].latest, c[d].latest) {
      LogGrowsTrans(a[d].log, b[d].log, c[d].log);
      LeTrans(a[d].latest, b[d].latest, c[d].latest);
    }
    LeTrans(a[x.Primary()].committed, b[y.Primary()].committed, c[z.Primary()].committed);
    VidsTrans(x.View().vid, y.View().vid, z.View().vid);
    forall q | q in Now(c, z) && q !in Now(a, x) ensures VidLe(x.View().vid, q.vs.vid) {
      VidsTrans(x.View().vid, y.View().vid, q.vs.vid);
    }
    MovedParts(a, x, c, z);
  }

  lemma VidsTrans(a: Viewid, b: Viewid, c: Viewid)
    ensures VidLe(a, b) && VidLe(b, c) ==> VidLe(a, c)
  {
  }

  lemma LogGrowsTrans(l: Log, m: Log, n: Log)
    requires LogGrows(l, m) && LogGrows(m, n)
    ensures LogGrows(l, n)
  {
  }

  lemma MovedRefl(a: Sys, era: Era)
    requires EraOk(a, era)
    ensures MovedOn(a, era, a, era)
  {
    hide Leads, Linear, Now, Backed, Exact, MemberOk;
  }

  /** No log entry is ever overwritten or lost, no cohort gives a stamp out again, and from one view to
      the next the history only gets longer and more of it committed. */
  lemma {:induction false} RunMovesOn(h: History, eras: seq<Era>, i: nat, j: nat)
    requires EraRun(h, eras) && i <= j < |h.states|
    ensures MovedOn(h.states[i], eras[i], h.states[j], eras[j])
    decreases j - i
  {
    hide EraOk, RunStep, Formed, MovedOn;
    if i == j {
      EraHolds(h, eras, i);
      MovedRefl(h.states[i], eras[i]);
    } else {
      RunMovesOn(h, eras, i, j - 1);
      EraHolds(h, eras, j - 1);
      RunStepKeeps(h.states[j - 1], h.acts[j - 1], h.states[j], eras[j - 1], eras[j]);
      MovedTrans(h.states[i], eras[i], h.states[j - 1], eras[j - 1], h.states[j], eras[j]);
    }
  }

  /** The history at a moment of the run. */
  ghost function NowAt(h: History, eras: seq<Era>, k: nat): seq<Slot>
    requires k < |h.states| && k < |eras| && Running(h.states[k], eras[k])
  {
    Now(h.states[k], eras[k])
  }

  lemma NowFacts(h: History, eras: seq<Era>, i: nat, j: nat, c: Mid)
    requires EraRun(h, eras) && i <= j < |h.states| && c in h.states[i]
    ensures Running(h.states[j], eras[j]) && Linear(NowAt(h, eras, j)) && Follows(h.states[i][c], NowAt(h, eras, j))
  {
    hide RunStep, Formed, EraOk, MovedOn, Follows, Now, Running, Linear;
    EraHolds(h, eras, i);
    EraHolds(h, eras, j);
    RunMovesOn(h, eras, i, j);
    MemberOf(h.states[i], eras[i], c);
    hide MemberOk, AllOk, Inv, PullsFor, Lags, Former;
    PrimaryFacts(h.states[j], eras[j]);
    hide Leads, Backed, Exact;
    MovedPrefix(h.states[i], eras[i], h.states[j], eras[j]);
    FollowsGrows(h.states[i][c], Now(h.states[i], eras[i]), Now(h.states[j], eras[j]));
  }

  function Later(i: nat, j: nat): nat { if i <= j then j else i }

  /** Any two cohorts that ever hold an entry at the same stamp hold the same one. */
  lemma LogsAgree(h: History, eras: seq<Era>, i: nat, j: nat, a: Mid, b: Mid, vs: Viewstamp)
    requires EraRun(h, eras) && i < |h.states| && j < |h.states| && a in h.states[i] && b in h.states[j]
    requires vs in h.states[i][a].log && vs in h.states[j][b].log
    ensures h.states[i][a].log[vs].arg == h.states[j][b].log[vs].arg
  {
    var s, t, k := h.states[i][a], h.states[j][b], Later(i, j);
    hide RunStep, Formed, Linear, Now, Running, Requests;
    NowFacts(h, eras, i, k, a);
    NowFacts(h, eras, j, k, b);
    assert Recorded(s.log, NowAt(h, eras, k), vs) && Recorded(t.log, NowAt(h, eras, k), vs);
    SlotUnique(NowAt(h, eras, k), Slot(vs, s.log[vs].arg), Slot(vs, t.log[vs].arg));
  }

  /** The requests any two cohorts have handed to their state machines, at any two moments, are one a
      prefix of the other. */
  lemma SubmissionsComparable(h: History, eras: seq<Era>, i: nat, j: nat, a: Mid, b: Mid)
    requires EraRun(h, eras) && i < |h.states| && j < |h.states| && a in h.states[i] && b in h.states[j]
    ensures h.states[i][a].submitted <= h.states[j][b].submitted || h.states[j][b].submitted <= h.states[i][a].submitted
  {
    var s, t, k := h.states[i][a], h.states[j][b], Later(i, j);
    hide RunStep, Formed, Linear, Now, Running, Requests, LogIn, ViewKnown;
    NowFacts(h, eras, i, k, a);
    NowFacts(h, eras, j, k, b);
    var g := NowAt(h, eras, k);
    var m: nat :| ExecutedTo(s, g, m);
    var n: nat :| ExecutedTo(t, g, n);
    if m <= n { RequestsPrefix(g, m, n); } else { RequestsPrefix(g, n, m); }
  }

  /** At every moment i every client entry at or below the `committed` of the primary is held, together
      with the formation and every earlier entry of the view, by a majority of the view's members, and
      is still held by one at every later moment j, whatever views are formed in between; and
      `committed` is as high as the acknowledgements received allow. */
  lemma CommittedHeldByMajority(h: History, eras: seq<Era>, i: nat, j: nat)
    requires EraRun(h, eras) && i <= j < |h.states|
    ensures eras[i].Primary() in h.states[i] && Leads(h.states[i][eras[i].Primary()], eras[i].View())
    ensures var s, v := h.states[i][eras[i].Primary()], eras[i].View();
            && (forall n: nat :: 1 <= n <= s.committed.ts ==> Majority(Holders(h.states[j], v)(n), Mids(v)))
            && Exact(s, v)
  {
    hide RunStep, Formed, EraOk, Majority, Mids, Exact, Holders, MovedOn, Now, Linear;
    EraHolds(h, eras, i);
    PrimaryFacts(h.states[i], eras[i]);
    RunMovesOn(h, eras, i, j);
    var s, v := h.states[i][eras[i].Primary()], eras[i].View();
    hide Leads, Running, EraRun;
    forall n: nat | 1 <= n <= s.committed.ts ensures Majority(Holders(h.states[j], v)(n), Mids(v)) {
      HoldersGrow(h.states[i], eras[i], h.states[j], eras[j], v, n);
      MajorityGrows(Holders(h.states[i], v)(n), Holders(h.states[j], v)(n), Mids(v));
    }
  }

  lemma PrimaryContinues(sys: Sys, a: Act, sys': Sys, era: Era, era': Era)
    requires EraOk(sys, era) && RunStep(sys, a, sys', era, era')
    ensures era.Primary() in sys && era'.Primary() in sys'
    ensures sys[era.Primary()].submitted <= sys'[era'.Primary()].submitted
  {
    hide EraOk, EraStep, ViewStep, Leads, Backed, Exact, Linear, Now, Handle, Formed, MovedOn, Requests;
    PrimaryFacts(sys, era);
    if EraStep(sys, a, sys', era) && era' == era {
      StepShape(sys, a, sys', era);
      if a.who == era.Primary() { StepSubmits(sys, a, sys', era); }
    } else {
      NextFormed(sys, a, sys', era, era');
      ViewShape(sys, a, sys', era, era');
      MemberOf(sys, era, era.Primary());
      SubmittedBelow(sys[era.Primary()], Now(sys, era));
    }
  }

  lemma StepSubmits(sys: Sys, a: Act, sys': Sys, era: Era)
    requires EraOk(sys, era) && EraStep(sys, a, sys', era)
    ensures a.who in sys && a.who in sys' && sys[a.who].submitted <= sys'[a.who].submitted
  {
    hide EraOk, EraStep, Handle, AllExplained, AllOk, NoDuplicateStamp, EventOk;
    StepFacts(sys, a, sys', era);
    MemberOf(sys, era, a.who);
    hide Inv, MemberOk, Follows, PullsFor, Lags, Former;
    HandleKeeps(sys[a.who], a.ev);
  }

  lemma SubmittedBelow(s: Cohort, g: seq<Slot>)
    requires Follows(s, g)
    ensures s.submitted <= Requests(g)
  {
    hide LogIn, ViewKnown, Requests;
    var n: nat :| ExecutedTo(s, g, n);
    RequestsPrefix(g, n, |g|);
    assert g[..|g|] == g;
  }

  /** No request that a primary has handed to its state machine is lost or reordered by later views:
      every later primary has handed over at least the same requests in the same order. */
  lemma {:induction false} PrimariesContinue(h: History, eras: seq<Era>, i: nat, j: nat)
    requires EraRun(h, eras) && i <= j < |h.states|
    ensures eras[i].Primary() in h.states[i] && eras[j].Primary() in h.states[j]
    ensures h.states[i][eras[i].Primary()].submitted <= h.states[j][eras[j].Primary()].submitted
    decreases j - i
  {
    hide EraOk, RunStep, Formed, Running, Leads, Linear, Now, Backed, Exact;
    if i == j {
      EraHolds(h, eras, i);
      PrimaryFacts(h.states[i], eras[i]);
    } else {
      PrimariesContinue(h, eras, i, j - 1);
      EraHolds(h, eras, j - 1);
      PrimaryContinues(h.states[j - 1], h.acts[j - 1], h.states[j], eras[j - 1], eras[j]);
    }
  }

  /** Which assertions fail: apart from the manager of a view change, exactly the one in `replicate_cb`,
      when an acknowledgement reaches a cohort that is still the primary of its installed view and has
      meanwhile been told of a commit in a later view. */
  lemma FailsExactly(h: History, eras: seq<Era>, k: nat)
    requires EraRun(h, eras) && k < |h.acts|
    ensures var c, e := h.acts[k].who, h.acts[k].ev;
            c in h.states[k] && c in h.states[k + 1] &&
            (!ManagerEvent(e) ==>
               h.states[k + 1][c].crashed == (h.states[k][c].crashed || (e.Replicated? && OutrunsLatest(h.states[k][c]))))
  {
    var sys, a, sys' := h.states[k], h.acts[k], h.states[k + 1];
    EraHolds(h, eras, k);
    assert RunStep(sys, a, sys', eras[k], eras[k + 1]);
    hide EraRun, EraOk, EraStep, ViewStep, MovedOn, Formed, OutrunsLatest, Requests, Handle;
    if EraStep(sys, a, sys', eras[k]) {
      StepShape(sys, a, sys', eras[k]);
      if !ManagerEvent(a.ev) { StepFails(sys, a, sys', eras[k]); }
    } else {
      ViewShape(sys, a, sys', eras[k], eras[k + 1]);
      NextFormed(sys, a, sys', eras[k], eras[k + 1]);
    }
  }

  // ---------------------------------------------------------------- such runs exist

  lemma FounderOpening(self: Mid)
    ensures var f := SyntheticView(self);
            Era([], f).Opening() == [Slot(FormStamp(f), Form(f))] && Era([], f).Valid()
  {
    var f := SyntheticView(self);
    var g := [Slot(FormStamp(f), Form(f))];
    assert Era([], f).Opening() == g;
    assert Fits(g, 0);
  }

  lemma FounderFollows(self: Mid)
    ensures var f := SyntheticView(self); Follows(Founder(self), [Slot(FormStamp(f), Form(f))])
  {
    var f, s := SyntheticView(self), Founder(self);
    var x := Slot(FormStamp(f), Form(f));
    var g := [x];
    assert g[..1] == g && g[..0] == [] && Requests(g) == Requests([]) + [];
    assert ExecutedTo(s, g, 1);
    assert x in g;
  }

  lemma StartsInOrder(self: Mid)
    ensures AllOk(Founder(self)) && AllOk(Joiner(self))
  {
    StartsOk(self);
    hide Inv;
  }

  lemma StartsQuiet(self: Mid)
    ensures Unanswered(Founder(self)) && Unanswered(Joiner(self))
    ensures OwnEntries(Founder(self)) && OwnEntries(Joiner(self)) && XidsUsed(Founder(self)) && XidsUsed(Joiner(self))
  {
  }

  /** A group that has just been founded, with any cohorts waiting to be let in, is at the beginning of
      an era, and is a start state of the runs of CohortRuns. */
  lemma FoundedGroup(self: Mid, others: set<Mid>)
    ensures var sys := (map c | c in others :: Joiner(c))[self := Founder(self)];
            Start(sys) && Formed(sys, Era([], SyntheticView(self)))
  {
    var era := Era([], SyntheticView(self));
    var sys := (map c | c in others :: Joiner(c))[self := Founder(self)];
    FounderOpening(self);
    FounderFollows(self);
    StartsSelf(self);
    forall c | c in sys ensures sys[c].self == c && AllOk(sys[c]) && Unanswered(sys[c]) && OwnEntries(sys[c]) && XidsUsed(sys[c]) && Bare(sys[c]) {
      StartsInOrder(c);
      StartsQuiet(c);
      StartsSelf(c);
    }
    hide AllOk, Unanswered, OwnEntries, XidsUsed, Linear, Follows, Founder, Joiner;
    forall c | c in sys ensures MemberOk(sys, era, era.Opening(), c) {
      if c != self { JoinerFollows(c, era.Opening()); }
      BareMember(sys, era, era.Opening(), c);
    }
  }

  /** A cohort that has sent and pulled nothing; unless it has a view it has given out nothing. */
  ghost predicate Bare(s: Cohort) {
    && s.sent == {} && s.pulls == [] && s.attempt.None? && Lags(s) && (s.mode == Active ==> s.validView)
  }

  lemma StartsSelf(c: Mid)
    ensures Founder(c).self == c && Joiner(c).self == c && Bare(Founder(c)) && Bare(Joiner(c))
    ensures Opens(Founder(c), SyntheticView(c)) && Joiner(c).committed == ZERO_STAMP
  {
  }

  lemma BareMember(sys: Sys, era: Era, g: seq<Slot>, c: Mid)
    requires era.Primary() in sys && c in sys && sys[c].self == c && AllOk(sys[c]) && Follows(sys[c], g) && Bare(sys[c])
    requires c != era.Primary() ==> Le(sys[c].committed, sys[era.Primary()].committed)
    ensures MemberOk(sys, era, g, c)
  {
    hide AllOk, Follows, True;
  }

  lemma JoinerFollows(c: Mid, g: seq<Slot>)
    ensures Follows(Joiner(c), g)
  {
    assert ExecutedTo(Joiner(c), g, 0);
  }
}
