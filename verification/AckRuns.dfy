/** Acknowledgements over runs of a group, and the survival of what a primary has committed. */
module AckRuns {
  import opened Stamps
  import opened CohortSpec
  import opened CohortInvariants
  import opened LogWalk
  import opened Traffic
  import opened Quorum
  import opened AckSets
  import opened CohortRuns
  import opened ViewChanges

  // ---------------------------------------------------------------- what a recorded acknowledgement means

  /** x has acknowledged to c the stamp k or a later one of the same view. */
  ghost predicate AckSent(sys: Sys, x: Mid, c: Mid, k: Viewstamp) {
    exists m: nat :: k.ts <= m && InNet(sys, ReplicateReply(x, c, Viewstamp(k.vid, m)))
  }

  ghost predicate AcksTold(sys: Sys, c: Mid, l: Log) {
    forall k, x :: k in l && l[k].ack.Some? && x in l[k].ack.value.received && x != c ==> AckSent(sys, x, c, k)
  }

  ghost predicate LogsOk(sys: Sys) {
    forall c :: c in sys ==> HoldsUpto(sys[c].log, sys[c].latest) && AcksTold(sys, c, sys[c].log)
  }

  lemma StartLogsOk(sys: Sys)
    requires Start(sys)
    ensures LogsOk(sys)
  {
    hide AllOk, Unanswered, HoldsUpto;
    forall c | c in sys ensures HoldsUpto(sys[c].log, sys[c].latest) && AcksTold(sys, c, sys[c].log) {
      assert OwnEntries(sys[c]);
    }
  }

  lemma HoldsMore(l: Log, m: Log, last: Viewstamp)
    requires HoldsUpto(l, last) && LogGrows(l, m)
    ensures HoldsUpto(m, last)
  {
  }

  lemma HoldsNext(l: Log, m: Log, last: Viewstamp)
    requires HoldsUpto(l, last) && LogGrows(l, m) && Succ(last) in m
    ensures HoldsUpto(m, Succ(last))
  {
  }

  /** A handler leaves the log complete up to the last stamp given out. */
  lemma HandleHolds(s: Cohort, e: Event)
    requires EventOk(s, e) && NoDuplicateStamp(s, e) && HoldsUpto(s.log, s.latest)
    ensures HoldsUpto(Handle(s, e).log, Handle(s, e).latest)
  {
    hide Handle, TakesRequest, NoDuplicateStamp, AcksAfter, AcksKept, AcksKeptBut, Bound, Majority, HoldsUpto, LogGrows, EventOk;
    var t := Handle(s, e);
    if e.Execute? && TakesRequest(s, e.req) {
      TakeFresh(s, e);
      TakeAcks(s, e.handle, e.req);
      HandleExecute(s, e);
      HoldsNext(s.log, t.log, s.latest);
    } else if e.Replicated? {
      ReplicateCbAcks(s, e.src, e.vs);
      HandleReplicated(s, e);
      AfterLog(s, t, e.src, e.vs);
      HoldsMore(s.log, t.log, s.latest);
    } else {
      OtherAcks(s, e);
      KeptLog(s, t);
      if t.latest == s.latest {
        HoldsMore(s.log, t.log, s.latest);
      } else {
        HoldsForm(t.log, t.latest);
      }
    }
  }

  lemma HoldsForm(l: Log, vs: Viewstamp)
    requires vs.ts == 0
    ensures HoldsUpto(l, vs)
  {
  }

  lemma AfterLog(s: Cohort, t: Cohort, from: Mid, vs: Viewstamp)
    requires AcksAfter(s, t, from, vs)
    ensures LogGrows(s.log, t.log) && t.latest == s.latest
  {
  }

  lemma KeptLog(s: Cohort, t: Cohort)
    requires AcksKept(s, t)
    ensures LogGrows(s.log, t.log)
  {
  }

  lemma HandleExecute(s: Cohort, e: Event)
    requires EventOk(s, e) && e.Execute?
    ensures Handle(s, e) == OnExecute(s, e.handle, e.req)
  {
    hide OnExecute;
  }

  lemma HandleReplicated(s: Cohort, e: Event)
    requires EventOk(s, e) && e.Replicated?
    ensures Handle(s, e) == ReplicateCb(s, e.src, e.vs)
  {
    hide ReplicateCb;
  }

  lemma ToldMore(sys: Sys, sys': Sys, c: Mid, l: Log)
    requires AcksTold(sys, c, l) && forall m :: InNet(sys, m) ==> InNet(sys', m)
    ensures AcksTold(sys', c, l)
  {
    hide InNet;
    forall k, x | k in l && l[k].ack.Some? && x in l[k].ack.value.received && x != c ensures AckSent(sys', x, c, k) {
      SentMore(sys, sys', x, c, k);
    }
  }

  lemma SentMore(sys: Sys, sys': Sys, x: Mid, c: Mid, k: Viewstamp)
    requires AckSent(sys, x, c, k) && forall m :: InNet(sys, m) ==> InNet(sys', m)
    ensures AckSent(sys', x, c, k)
  {
    hide InNet;
    var m: nat :| k.ts <= m && InNet(sys, ReplicateReply(x, c, Viewstamp(k.vid, m)));
    assert InNet(sys', ReplicateReply(x, c, Viewstamp(k.vid, m)));
  }

  lemma TakeTold(sys: Sys, c: Mid, e: Event)
    requires c in sys && Enabled(sys, c, e) && sys[c].self == c && AcksTold(sys, c, sys[c].log)
    requires e.Execute? && TakesRequest(sys[c], e.req)
    ensures AcksTold(sys, c, Handle(sys[c], e).log)
  {
    EnabledOk(sys, c, e);
    var s, t := sys[c], Handle(sys[c], e);
    hide Handle, TakesRequest, NoDuplicateStamp, AckSent, Majority, LogGrows, Everyone;
    TakeFresh(s, e);
    TakeAcks(s, e.handle, e.req);
    HandleExecute(s, e);
  }

  lemma ReplicatedTold(sys: Sys, c: Mid, e: Event)
    requires c in sys && Enabled(sys, c, e) && sys[c].self == c && AcksTold(sys, c, sys[c].log) && e.Replicated?
    ensures AcksTold(sys, c, Handle(sys[c], e).log)
  {
    assert InNet(sys, ReplicateReply(e.src, c, e.vs)) && EventOk(sys[c], e);
    var s, t := sys[c], Handle(sys[c], e);
    hide Handle, Enabled, AckSent, InNet, Majority, LogGrows;
    ReplicateCbAcks(s, e.src, e.vs);
    HandleReplicated(s, e);
    forall k, x | k in t.log && t.log[k].ack.Some? && x in t.log[k].ack.value.received && x != c
      ensures AckSent(sys, x, c, k)
    {
      if x !in s.log[k].ack.value.received { NowSent(sys, x, c, k, e.vs); }
    }
  }

  /** What the handler records was sent. */
  lemma HandleTold(sys: Sys, c: Mid, e: Event)
    requires c in sys && Enabled(sys, c, e) && sys[c].self == c && AcksTold(sys, c, sys[c].log)
    ensures AcksTold(sys, c, Handle(sys[c], e).log)
  {
    EnabledOk(sys, c, e);
    hide Handle, TakesRequest, Enabled, NoDuplicateStamp, AckSent;
    if e.Execute? && TakesRequest(sys[c], e.req) {
      TakeTold(sys, c, e);
    } else if e.Replicated? {
      ReplicatedTold(sys, c, e);
    } else {
      OtherAcks(sys[c], e);
    }
  }

  lemma TakeFresh(s: Cohort, e: Event)
    requires e.Execute? && TakesRequest(s, e.req) && NoDuplicateStamp(s, e)
    ensures Succ(s.latest) !in s.log
  {
  }

  lemma NowSent(sys: Sys, x: Mid, c: Mid, k: Viewstamp, vs: Viewstamp)
    requires InNet(sys, ReplicateReply(x, c, vs)) && k.vid == vs.vid && k.ts <= vs.ts
    ensures AckSent(sys, x, c, k)
  {
    assert vs == Viewstamp(k.vid, vs.ts);
  }

  lemma StepLogsOk(sys: Sys, a: Act, sys': Sys)
    requires SysOk(sys) && LogsOk(sys) && Step(sys, a, sys')
    ensures LogsOk(sys') && forall m :: InNet(sys, m) ==> InNet(sys', m)
  {
    hide AllOk, Enabled, Handle, Grows, Inv, AcksTold, HoldsUpto, AttemptOk, NoDuplicateStamp;
    var c, s := a.who, sys[a.who];
    assert CohortOk(sys, c);
    EnabledOk(sys, c, a.ev);
    AllInv(s);
    HandleKeeps(s, a.ev);
    GrowsNet(s, Handle(s, a.ev));
    HandleHolds(s, a.ev);
    HandleTold(sys, c, a.ev);
    forall d | d in sys' ensures HoldsUpto(sys'[d].log, sys'[d].latest) && AcksTold(sys', d, sys'[d].log) {
      ToldMore(sys, sys', d, sys'[d].log);
    }
  }

  /** At every moment of every run whoever is recorded as having acknowledged an entry has sent that
      acknowledgement, and logs are complete up to the last stamp their owners gave out. */
  lemma {:induction false} RunLogsOk(h: History, k: nat)
    requires IsRun(h) && k < |h.states|
    ensures LogsOk(h.states[k])
  {
    hide SysOk, Start, Step, LogsOk;
    if k == 0 {
      StartLogsOk(h.states[0]);
    } else {
      RunLogsOk(h, k - 1);
      RunOkAt(h, k - 1);
      StepLogsOk(h.states[k - 1], h.acts[k - 1], h.states[k]);
    }
  }

  /** At step k cohort x sends c an acknowledgement of vs. */
  ghost predicate Acks(h: History, k: nat, x: Mid, c: Mid, vs: Viewstamp)
    requires IsRun(h)
  {
    && k < |h.acts| && h.acts[k].who == x && x in h.states[k] && x in h.states[k + 1]
    && ReplicateReply(x, c, vs) in h.states[k + 1][x].sent - h.states[k][x].sent
  }

  /** Every acknowledgement on the network was sent at some step. */
  lemma {:induction false} FindAck(h: History, j: nat, x: Mid, c: Mid, vs: Viewstamp) returns (k: nat)
    requires IsRun(h) && j < |h.states| && InNet(h.states[j], ReplicateReply(x, c, vs))
    ensures k < j && Acks(h, k, x, c, vs)
  {
    hide Start, Enabled, Handle;
    var m := ReplicateReply(x, c, vs);
    if j == 0 {
      StartSilent(h.states[0], m);
      assert false;
    }
    assert Step(h.states[j - 1], h.acts[j - 1], h.states[j]);
    if InNet(h.states[j - 1], m) {
      k := FindAck(h, j - 1, x, c, vs);
    } else {
      k := j - 1;
    }
  }

  // ---------------------------------------------------------------- what committing means

  /** At step i cohort c, serving as the primary of v, takes a request and gives it stamp (v, n). */
  ghost predicate Takes(h: History, i: nat, c: Mid, v: View, n: nat)
    requires IsRun(h)
  {
    && i < |h.acts| && h.acts[i].who == c && c in h.states[i] && h.acts[i].ev.Execute?
    && TakesRequest(h.states[i][c], h.acts[i].ev.req)
    && h.states[i][c].validView && h.states[i][c].view == v && Succ(h.states[i][c].latest) == Viewstamp(v.vid, n)
  }

  /** Committing an entry drops its acknowledgement set. */
  ghost predicate HasCommitted(sys: Sys, c: Mid, vs: Viewstamp) {
    c in sys && vs in sys[c].log && sys[c].log[vs].ack.None?
  }

  /** Taken by c and still waiting, over the members of v. */
  ghost predicate WaitsIn(s: Cohort, vs: Viewstamp, v: View) {
    && vs in s.log && s.log[vs].arg.Client?
    && (s.log[vs].ack.Some? ==> s.log[vs].ack.value.expected == Mids(v))
  }

  lemma TakeWaits(s: Cohort, e: Event, v: View)
    requires e.Execute? && TakesRequest(s, e.req) && NoDuplicateStamp(s, e) && s.view == v
    ensures WaitsIn(Handle(s, e), Succ(s.latest), v)
    ensures Handle(s, e).log[Succ(s.latest)].ack.None? ==> Majority({s.self}, Mids(v))
  {
    TakeFresh(s, e);
    TakeAcks(s, e.handle, e.req);
    HandleExecute(s, e);
    assert Everyone(s) == Mids(v);
    hide Handle, OnExecute, Mids, Everyone, Majority;
  }

  /** The step at which a waiting entry is committed: a majority has acknowledged. */
  lemma HandleCommits(sys: Sys, c: Mid, e: Event, vs: Viewstamp, v: View) returns (q: set<Mid>)
    requires c in sys && Enabled(sys, c, e) && sys[c].self == c && AcksTold(sys, c, sys[c].log)
    requires WaitsIn(sys[c], vs, v) && sys[c].log[vs].ack.Some?
    ensures WaitsIn(Handle(sys[c], e), vs, v)
    ensures Handle(sys[c], e).log[vs].ack.None? ==>
              Majority(q, Mids(v)) && forall x :: x in q && x != c ==> AckSent(sys, x, c, vs)
  {
    EnabledOk(sys, c, e);
    var s, t := sys[c], Handle(sys[c], e);
    hide Handle, TakesRequest, NoDuplicateStamp, AckSent, Majority, Mids;
    q := s.log[vs].ack.value.received;
    if e.Execute? && TakesRequest(s, e.req) {
      TakeFresh(s, e);
      TakeAcks(s, e.handle, e.req);
      HandleExecute(s, e);
      hide Everyone;
    } else if e.Replicated? {
      assert InNet(sys, ReplicateReply(e.src, c, e.vs));
      ReplicateCbAcks(s, e.src, e.vs);
      HandleReplicated(s, e);
      q := Bound(s, vs, e.src, e.vs);
      if vs.vid == e.vs.vid && vs.ts <= e.vs.ts { NowSent(sys, e.src, c, vs, e.vs); }
    } else {
      OtherAcks(s, e);
    }
  }

  lemma HandleWaits(s: Cohort, e: Event, vs: Viewstamp, v: View)
    requires EventOk(s, e) && NoDuplicateStamp(s, e) && WaitsIn(s, vs, v) && s.log[vs].ack.None?
    ensures WaitsIn(Handle(s, e), vs, v) && Handle(s, e).log[vs].ack.None?
  {
    hide Handle, TakesRequest, NoDuplicateStamp, Majority, Mids;
    if e.Execute? && TakesRequest(s, e.req) {
      TakeFresh(s, e);
      TakeAcks(s, e.handle, e.req);
      HandleExecute(s, e);
      hide Everyone;
    } else if e.Replicated? {
      ReplicateCbAcks(s, e.src, e.vs);
      HandleReplicated(s, e);
      hide Bound;
    } else {
      OtherAcks(s, e);
    }
  }

  /** What committing vs requires to have been said. */
  ghost predicate Warranted(sys: Sys, c: Mid, vs: Viewstamp, v: View, q: set<Mid>) {
    Majority(q, Mids(v)) && forall x :: x in q && x != c ==> AckSent(sys, x, c, vs)
  }

  lemma WarrantedMore(sys: Sys, sys': Sys, c: Mid, vs: Viewstamp, v: View, q: set<Mid>)
    requires Warranted(sys, c, vs, v, q) && forall m :: InNet(sys, m) ==> InNet(sys', m)
    ensures Warranted(sys', c, vs, v, q)
  {
    hide InNet, AckSent, Majority, Mids;
    forall x | x in q && x != c ensures AckSent(sys', x, c, vs) { SentMore(sys, sys', x, c, vs); }
  }

  lemma StepWaits(sys: Sys, a: Act, sys': Sys, c: Mid, vs: Viewstamp, v: View, q0: set<Mid>) returns (q: set<Mid>)
    requires SysOk(sys) && LogsOk(sys) && Step(sys, a, sys') && c in sys && WaitsIn(sys[c], vs, v)
    requires HasCommitted(sys, c, vs) ==> Warranted(sys, c, vs, v, q0)
    ensures c in sys' && WaitsIn(sys'[c], vs, v) && (HasCommitted(sys', c, vs) ==> Warranted(sys', c, vs, v, q))
  {
    q := q0;
    StepLogsOk(sys, a, sys');
    hide Enabled, Handle, AllOk, AckSent, Majority, Mids, WaitsIn, AttemptOk, HoldsUpto, AcksTold, InNet, Warranted;
    if a.who == c {
      assert CohortOk(sys, c);
      EnabledOk(sys, c, a.ev);
      if HasCommitted(sys, c, vs) {
        HandleWaits(sys[c], a.ev, vs, v);
      } else {
        q := HandleCommits(sys, c, a.ev, vs, v);
        if HasCommitted(sys', c, vs) { assert Warranted(sys, c, vs, v, q); }
      }
    }
    if HasCommitted(sys', c, vs) { WarrantedMore(sys, sys', c, vs, v, q); }
  }

  /** A primary commits an entry it took only after a majority of its view, itself apart, has
      acknowledged that entry or a later one of the view. */
  lemma {:induction false} CommittedByMajority(h: History, i: nat, l: nat, c: Mid, v: View, n: nat) returns (q: set<Mid>)
    requires IsRun(h) && Takes(h, i, c, v, n) && i < l < |h.states|
    ensures c in h.states[l] && WaitsIn(h.states[l][c], Viewstamp(v.vid, n), v)
    ensures HasCommitted(h.states[l], c, Viewstamp(v.vid, n)) ==> Warranted(h.states[l], c, Viewstamp(v.vid, n), v, q)
    decreases l
  {
    var k, vs := l - 1, Viewstamp(v.vid, n);
    var sys, a, sys' := h.states[k], h.acts[k], h.states[l];
    q := {c};
    RunOkAt(h, k);
    RunLogsOk(h, k);
    hide Start, Enabled, Handle, AllOk, AckSent, Majority, Mids, TakesRequest, WaitsIn, AttemptOk, HoldsUpto, AcksTold, InNet;
    assert Step(sys, a, sys');
    if k == i {
      hide IsRun, LogsOk;
      assert CohortOk(sys, c);
      EnabledOk(sys, c, a.ev);
      TakeWaits(sys[c], a.ev, v);
    } else {
      q := CommittedByMajority(h, i, k, c, v, n);
      hide IsRun, LogsOk, SysOk, Step;
      q := StepWaits(sys, a, sys', c, vs, v, q);
    }
  }

  // ---------------------------------------------------------------- committed requests survive

  /** Whenever x acknowledges to c a stamp of v, it is active in v. */
  ghost predicate AcksActively(h: History, x: Mid, c: Mid, v: Viewid)
    requires IsRun(h)
  {
    forall k: nat, m: nat :: Acks(h, k, x, c, Viewstamp(v, m)) ==> ActiveIn(h.states[k + 1][x], v)
  }

  lemma HolderAlways(h: History, i: nat, k: nat, x: Mid, v: Viewid, n: nat, vid: Viewid)
    requires IsRun(h) && i <= k <= i + 1 && k < |h.states| && x in h.states[i] && ActiveIn(h.states[i][x], v)
    requires x in h.states[k] && HoldsUpto(h.states[k][x].log, Viewstamp(v, n))
    requires AcceptsFreshly(h, x, vid, v) && AcceptsInView(h, x, vid, v)
    requires i < k ==> !AcceptsVc(h, i, x, vid)
    ensures ReportsAtLeast(h, x, vid, v, n)
  {
    hide Start, Step, MyReport, RefusesVc, HoldsUpto, NoLaterView;
    forall p: nat | AcceptsVc(h, p, x, vid) ensures Le(Viewstamp(v, n), MyReport(h.states[p][x]).latest) {
      HolderReports(h, i, k, p, x, v, n, vid);
    }
  }

  /** A cohort that acknowledged while active reports the stamp to any attempt it accepts in the view. */
  lemma AckerReports(h: History, l: nat, x: Mid, c: Mid, v: Viewid, n: nat, vid: Viewid)
    requires IsRun(h) && l < |h.states| && AckSent(h.states[l], x, c, Viewstamp(v, n)) && AcksActively(h, x, c, v)
    requires AcceptsFreshly(h, x, vid, v) && AcceptsInView(h, x, vid, v)
    ensures ReportsAtLeast(h, x, vid, v, n)
  {
    hide IsRun, InNet, MyReport, RefusesVc;
    var m: nat :| n <= m && InNet(h.states[l], ReplicateReply(x, c, Viewstamp(v, m)));
    var k := FindAck(h, l, x, c, Viewstamp(v, m));
    AckMeansHeld(h, k, x, v, m, n);
    HolderAlways(h, k + 1, k + 1, x, v, n, vid);
  }

  /** So does the primary that took the entry. */
  lemma TakerReports(h: History, i: nat, c: Mid, v: View, n: nat, vid: Viewid)
    requires IsRun(h) && Takes(h, i, c, v, n)
    requires AcceptsFreshly(h, c, vid, v.vid) && AcceptsInView(h, c, vid, v.vid)
    ensures ReportsAtLeast(h, c, vid, v.vid, n)
  {
    TakerHolds(h, i, c, v, n);
    hide IsRun, MyReport, RefusesVc, TakesRequest;
    HolderAlways(h, i, i + 1, c, v.vid, n, vid);
  }

  lemma TakerHolds(h: History, i: nat, c: Mid, v: View, n: nat)
    requires IsRun(h) && Takes(h, i, c, v, n)
    ensures c in h.states[i + 1] && HoldsUpto(h.states[i + 1][c].log, Viewstamp(v.vid, n))
  {
    hide Start, Enabled, Handle, AllOk;
    assert Step(h.states[i], h.acts[i], h.states[i + 1]);
    RunLogsOk(h, i + 1);
    RunLogsOk(h, i);
    EnabledOk(h.states[i], c, h.acts[i].ev);
    var s, e := h.states[i][c], h.acts[i].ev;
    TakeFresh(s, e);
    TakeAcks(s, e.handle, e.req);
    HandleExecute(s, e);
  }

  /** No committed request is lost by a fresh view change. Let the primary c of view v take a request as
      (v, n) and commit it, every acknowledgement it was sent for the view coming from a cohort active
      there; and let an attempt from v pass its majority check with no reported newview, its accepters
      knowing of no view after v and its supporters accepting while in v. Then the attempt proposes to
      continue from (v, n) or later, under a primary whose log holds (v, n). */
  lemma FreshChangeKeepsCommitted(h: History, i: nat, l: nat, j: nat, c: Mid, mb: Mid, v: View, n: nat)
    requires IsRun(h) && Takes(h, i, c, v, n) && i < l < |h.states| && HasCommitted(h.states[l], c, Viewstamp(v.vid, n))
    requires j < |h.states| && mb in h.states[j]
    requires h.states[j][mb].attempt.Some? && h.states[j][mb].attempt.value.newview.None?
    requires PassesPrepare(h.states[j][mb], h.states[j][mb].attempt.value.proposedVid, v)
    requires forall x :: x in Mids(v) && x != c ==> AcksActively(h, x, c, v.vid)
    requires forall x :: x in h.states[j][mb].attempt.value.prepareAccepted ==>
               && AcceptsFreshly(h, x, h.states[j][mb].attempt.value.proposedVid, v.vid)
               && (x == c || AckSent(h.states[l], x, c, Viewstamp(v.vid, n)) ==>
                     AcceptsInView(h, x, h.states[j][mb].attempt.value.proposedVid, v.vid))
    ensures ContinuesFrom(h, j, mb, Viewstamp(v.vid, n))
  {
    var at := h.states[j][mb].attempt.value;
    var vid := at.proposedVid;
    var q0 := CommittedByMajority(h, i, l, c, v, n);
    assert Warranted(h.states[l], c, Viewstamp(v.vid, n), v, q0);
    var q := q0 * Mids(v);
    assert q * Mids(v) == q0 * Mids(v);
    assert Majority(q, Mids(v));
    assert n > 0;
    hide *;
    forall x | x in at.prepareAccepted && x in q ensures ReportsAtLeast(h, x, vid, v.vid, n) {
      if x == c {
        TakerReports(h, i, c, v, n, vid);
      } else {
        AckerReports(h, l, x, c, v.vid, n, vid);
      }
    }
    FreshChangeContinues(h, j, mb, v, n, q);
  }
}
