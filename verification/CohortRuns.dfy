/**
 * Runs of a whole group: any number of cohorts over a network that loses, repeats and reorders
 * messages, with timers firing at any moment. The two theorems about competing view changes.
 */
module CohortRuns {
  import opened Stamps
  import opened CohortSpec
  import opened CohortInvariants
  import opened LogPull
  import opened LogWalk
  import opened Traffic
  import opened Quorum

  type Sys = map<Mid, Cohort>

  datatype Act = Act(who: Mid, ev: Event)

  ghost predicate InNet(sys: Sys, m: Msg) {
    !m.ClientReply? && m.src in sys && m in sys[m.src].sent
  }

  /** An event can happen at a cohort: its message was sent to it at some time, or it is a timer, a
      client call or an RPC error. A reply, or an error, reaches the
      callback of the call it answers, once. */
  ghost predicate Arrives(sys: Sys, c: Mid, e: Event)
    requires c in sys
  {
    var s := sys[c];
    && EventOk(s, e)
    && match e
       case Replicate(src, vs, arg, committed) => InNet(sys, ReplicateCall(src, c, vs, arg, committed))
       case Replicated(src, vs) => InNet(sys, ReplicateReply(src, c, vs))
       case Fetched(i, vs, resp) => resp.Some? ==> InNet(sys, FetchReply(s.pulls[i].src, vs, resp.value))
       case VcRequest(src, xid, oldview, newvid) => InNet(sys, VcCall(src, c, xid, oldview, newvid))
       case VcAnswered(xid, src, res) =>
         s.attempt.Some? && s.attempt.value.xid == xid ==>
           && src in s.attempt.value.underlings && src !in s.attempt.value.prepareDone
           && (res.Some? ==> InNet(sys, VcReply(src, c, xid, s.attempt.value.proposedVid, res.value)))
       case NvRequest(src, xid, nv) => InNet(sys, NvCall(src, c, xid, nv))
       case NvAnswered(xid, src, acc) =>
         s.attempt.Some? && s.attempt.value.xid == xid ==>
           && src in s.attempt.value.underlings && src !in s.attempt.value.nvDone
           && (acc.Some? ==> InNet(sys, NvReply(src, c, xid, s.attempt.value.proposedVid, acc.value)))
       case InitView(f) => exists src :: InNet(sys, InitCall(src, c, f))
       case _ => true
  }

  ghost predicate Enabled(sys: Sys, c: Mid, e: Event)
    requires c in sys
  {
    Arrives(sys, c, e) && NoDuplicateStamp(sys[c], e)
  }

  ghost predicate Step(sys: Sys, a: Act, sys': Sys) {
    a.who in sys && Enabled(sys, a.who, a.ev) && sys' == sys[a.who := Handle(sys[a.who], a.ev)]
  }

  datatype History = History(states: seq<Sys>, acts: seq<Act>)

  /** A cohort that has answered no call yet, except for log entries it was asked for. */
  ghost predicate Unanswered(s: Cohort) {
    && (forall m :: m in s.sent ==> !Answer(m) && !m.VcReply?)
    && (forall i :: 0 <= i < |s.pulls| ==> !s.pulls[i].done.AnswerNewView?)
  }

  /** The log is complete up to the last stamp given out, and nobody else has acknowledged any of it. */
  ghost predicate OwnEntries(s: Cohort) {
    && HoldsUpto(s.log, s.latest)
    && (forall k :: k in s.log && s.log[k].ack.Some? ==> s.log[k].ack.value.received <= {s.self})
  }

  /** The numbers of the manager's calls are not used again. */
  ghost predicate XidsUsed(s: Cohort) {
    forall m :: m in s.sent && (m.VcCall? || m.NvCall?) ==> m.xid < s.nextXid
  }

  /** A start state: every cohort is in order, nobody has answered anybody yet, no attempt is under
      way. Cohorts may have sent REPLICATE and other calls, and may have pulls open. */
  ghost predicate Start(sys: Sys) {
    forall c :: c in sys ==>
      && sys[c].self == c && AllOk(sys[c]) && Unanswered(sys[c]) && OwnEntries(sys[c]) && sys[c].attempt.None?
      && XidsUsed(sys[c])
  }

  ghost predicate IsRun(h: History) {
    && |h.states| == |h.acts| + 1
    && Start(h.states[0])
    && forall k :: 0 <= k < |h.acts| ==> Step(h.states[k], h.acts[k], h.states[k + 1])
  }

  // ---------------------------------------------------------------- the invariant of a run

  ghost predicate Signed(s: Cohort) {
    forall m :: m in s.sent && m.VcReply? && m.answer.Accept? ==> m.answer.report.myid == s.self
  }

  /** What an attempt believes it was told is on the network, and newview is the latest view told. */
  ghost predicate AttemptOk(sys: Sys, c: Mid, a: Attempt) {
    && (forall x :: x in a.nvAccepted ==> InNet(sys, NvReply(x, c, a.xid, a.proposedVid, true)))
    && (forall x :: x in a.prepareAccepted ==> exists r :: r in a.accepts && r.myid == x)
    && (forall r :: r in a.accepts ==>
          && r.myid in a.prepareAccepted
          && InNet(sys, VcReply(r.myid, c, a.xid, a.proposedVid, Accept(r)))
          && (r.newview.Some? ==> a.newview.Some? && VidLe(r.newview.value.vid, a.newview.value.vid)))
    && (forall i, j :: 0 <= i < j < |a.accepts| ==> a.accepts[i].myid != a.accepts[j].myid)
  }

  ghost predicate CohortOk(sys: Sys, c: Mid)
    requires c in sys
  {
    && sys[c].self == c && AllOk(sys[c]) && Signed(sys[c])
    && (sys[c].attempt.Some? ==> AttemptOk(sys, c, sys[c].attempt.value))
  }

  ghost predicate SysOk(sys: Sys) {
    forall c :: c in sys ==> CohortOk(sys, c)
  }

  lemma StartOk(sys: Sys)
    requires Start(sys)
    ensures SysOk(sys)
  {
    hide AllOk, OwnEntries;
    forall c | c in sys ensures CohortOk(sys, c) {
      assert Unanswered(sys[c]);
    }
  }

  lemma NetGrows(sys: Sys, sys': Sys, c: Mid, a: Attempt)
    requires forall m :: InNet(sys, m) ==> InNet(sys', m)
    requires AttemptOk(sys, c, a)
    ensures AttemptOk(sys', c, a)
  {
  }

  lemma SameAttemptOk(sys: Sys, c: Mid, a: Attempt, b: Attempt)
    requires AttemptOk(sys, c, a)
    requires b.xid == a.xid && b.proposedVid == a.proposedVid && b.nvAccepted == a.nvAccepted
    requires b.prepareAccepted == a.prepareAccepted && b.accepts == a.accepts && b.newview == a.newview
    ensures AttemptOk(sys, c, b)
  {
  }

  /** Recording one more accepted VIEW_CHANGE. */
  lemma AcceptOk(sys: Sys, c: Mid, a: Attempt, b: Attempt, r: Report)
    requires AttemptOk(sys, c, a) && r.myid !in a.prepareAccepted
    requires InNet(sys, VcReply(r.myid, c, a.xid, a.proposedVid, Accept(r)))
    requires b.xid == a.xid && b.proposedVid == a.proposedVid && b.nvAccepted == a.nvAccepted
    requires b.prepareAccepted == a.prepareAccepted + {r.myid} && b.accepts == a.accepts + [r]
    requires b.newview == LaterView(a.newview, r.newview)
    ensures AttemptOk(sys, c, b)
  {
    hide InNet;
    forall x | x in b.prepareAccepted ensures exists q :: q in b.accepts && q.myid == x {
      if x == r.myid {
        assert r in b.accepts;
      } else {
        var q :| q in a.accepts && q.myid == x;
        assert q in b.accepts;
      }
    }
    assert forall q :: q in b.accepts ==> q in a.accepts || q == r;
    forall i, j | 0 <= i < j < |b.accepts| ensures b.accepts[i].myid != b.accepts[j].myid {
      if j == |a.accepts| { assert a.accepts[i] in a.accepts; }
    }
  }

  lemma NoteAnswerOk(sys: Sys, c: Mid, a: Attempt, from: Mid, res: Option<VcAnswer>)
    requires AttemptOk(sys, c, a)
    requires res.Some? ==> InNet(sys, VcReply(from, c, a.xid, a.proposedVid, res.value))
    requires res.Some? && res.value.Accept? ==> res.value.report.myid == from
    ensures AttemptOk(sys, c, NoteAnswer(a, from, res))
  {
    hide InNet, AttemptOk, LaterView;
    var b := NoteAnswer(a, from, res);
    if res.Some? && res.value.Accept? && from !in a.prepareAccepted {
      var r := res.value.report;
      assert res.value == Accept(r) && r.myid == from;
      AcceptOk(sys, c, a, b, r);
    } else {
      SameAttemptOk(sys, c, a, b);
    }
  }

  lemma SameAttemptTrans(a: Option<Attempt>, b: Option<Attempt>, c: Option<Attempt>)
    requires SameAttempt(a, b) && SameAttempt(b, c)
    ensures SameAttempt(a, c)
  {
  }

  lemma CheckPartsAttempt(s: Cohort)
    requires s.attempt.Some?
    ensures SameAttempt(s.attempt, s.attempt) && SameAttempt(s.attempt, AbortAttempt(s).attempt)
    ensures SameAttempt(s.attempt, ChooseAndIssue(s).attempt)
    ensures s.attempt.value.newview.Some? ==> SameAttempt(s.attempt, Extend(s).attempt)
  {
    hide Mids, Choose;
  }

  lemma {:induction false} CheckPrepareAttempt(s: Cohort)
    requires s.attempt.Some?
    ensures SameAttempt(s.attempt, CheckPrepare(s).attempt)
    decreases s.attempt.value.newview.Some? && VidLt(s.attempt.value.mergedVid, s.attempt.value.newview.value.vid)
  {
    hide Majority, Mids, SameAttempt, Extend, ChooseAndIssue, AbortAttempt;
    CheckPartsAttempt(s);
    if s.attempt.value.newview.Some? && VidLt(s.attempt.value.mergedVid, s.attempt.value.newview.value.vid) {
      ExtendMerges(s);
      CheckPrepareAttempt(Extend(s));
      SameAttemptTrans(s.attempt, Extend(s).attempt, CheckPrepare(Extend(s)).attempt);
    }
  }

  /** The attempt after any event is in order with respect to the network before it. */
  lemma HandleAttempt(sys: Sys, c: Mid, e: Event)
    requires SysOk(sys) && c in sys && Enabled(sys, c, e)
    ensures var t := Handle(sys[c], e); t.attempt.Some? ==> AttemptOk(sys, c, t.attempt.value)
  {
    hide AttemptOk, AllOk, InNet, MyReport;
    var s := sys[c];
    assert CohortOk(sys, c);
    var t := Handle(s, e);
    if e.StartAttempt? {
      if s.attempt.Some? && t.attempt == s.attempt {
      } else if t.attempt.Some? {
        EmptyAttemptOk(sys, c, t.attempt.value);
      }
    } else if e.VcAnswered? {
      VcAnsweredAttempt(sys, c, e.xid, e.src, e.res);
    } else if e.NvAnswered? {
      if t.attempt.Some? && s.attempt.value.xid == e.xid {
        NoteNvOk(sys, c, s.attempt.value, t.attempt.value, e.src, e.accepted);
      }
    } else {
      AllInv(s);
      HandlePromise(s, e);
      if t.attempt.Some? { SameAttemptOk(sys, c, s.attempt.value, t.attempt.value); }
    }
  }

  lemma AllInv(s: Cohort)
    requires AllOk(s)
    ensures Inv(s)
  {
  }

  lemma EmptyAttemptOk(sys: Sys, c: Mid, a: Attempt)
    requires a.nvAccepted == {} && a.prepareAccepted == {} && a.accepts == []
    ensures AttemptOk(sys, c, a)
  {
  }

  lemma NoteNvOk(sys: Sys, c: Mid, a: Attempt, b: Attempt, from: Mid, acc: Option<bool>)
    requires AttemptOk(sys, c, a) && SameAttempt(Some(NoteNv(a, from, acc)), Some(b))
    requires acc.Some? ==> InNet(sys, NvReply(from, c, a.xid, a.proposedVid, acc.value))
    ensures AttemptOk(sys, c, b)
  {
    hide InNet;
  }

  lemma VcAnsweredAttempt(sys: Sys, c: Mid, xid: nat, src: Mid, res: Option<VcAnswer>)
    requires SysOk(sys) && c in sys && Enabled(sys, c, VcAnswered(xid, src, res))
    ensures var t := PrepareCb(sys[c], xid, src, res); t.attempt.Some? ==> AttemptOk(sys, c, t.attempt.value)
  {
    hide AttemptOk, AllOk, CheckPrepare, NoteAnswer;
    var s := sys[c];
    assert CohortOk(sys, c);
    if s.attempt.Some? && s.attempt.value.xid == xid && !s.attempt.value.aborted {
      var a := s.attempt.value;
      if res.Some? && res.value.Accept? {
        assert CohortOk(sys, src);
        assert VcReply(src, c, xid, a.proposedVid, res.value) in sys[src].sent;
      }
      NoteAnswerOk(sys, c, a, src, res);
      var u := NotePrepare(s, src, res);
      CheckPrepareAttempt(u);
      SameAttemptOk(sys, c, u.attempt.value, CheckPrepare(u).attempt.value);
    }
  }

  lemma StepOk(sys: Sys, a: Act, sys': Sys)
    requires SysOk(sys) && Step(sys, a, sys')
    ensures SysOk(sys')
  {
    hide AttemptOk, AllOk, Enabled, Handle, Grows, AllExplained, Inv, InNet, Signed, NoDuplicateStamp, EventOk;
    var c, s := a.who, sys[a.who];
    assert CohortOk(sys, c);
    EnabledOk(sys, c, a.ev);
    HandleExplained(s, a.ev);
    AllInv(s);
    HandleKeeps(s, a.ev);
    HandleAttempt(sys, c, a.ev);
    GrowsNet(s, Handle(s, a.ev));
    HandleSigned(s, a.ev);
    StepNet(sys, a, sys');
    forall d | d in sys' ensures CohortOk(sys', d) {
      assert CohortOk(sys, d);
      if sys'[d].attempt.Some? {
        NetGrows(sys, sys', d, sys'[d].attempt.value);
      }
    }
  }

  lemma StepNet(sys: Sys, a: Act, sys': Sys)
    requires Step(sys, a, sys') && sys[a.who].sent <= sys'[a.who].sent
    ensures forall m :: InNet(sys, m) ==> InNet(sys', m)
  {
    hide Enabled, Handle;
  }

  lemma EnabledOk(sys: Sys, c: Mid, e: Event)
    requires c in sys && Enabled(sys, c, e)
    ensures EventOk(sys[c], e) && NoDuplicateStamp(sys[c], e)
  {
  }

  lemma GrowsNet(s: Cohort, t: Cohort)
    requires Grows(s, t)
    ensures s.sent <= t.sent && t.self == s.self
  {
  }

  lemma HandleSigned(s: Cohort, e: Event)
    requires AllOk(s) && EventOk(s, e) && NoDuplicateStamp(s, e) && Signed(s)
    ensures Handle(s, e).self == s.self ==> Signed(Handle(s, e))
  {
    hide AllOk, Handle, NoDuplicateStamp, ScanFrom;
    HandleExplained(s, e);
  }

  lemma {:induction false} RunOkAt(h: History, k: nat)
    requires IsRun(h) && k < |h.states|
    ensures SysOk(h.states[k])
  {
    hide SysOk, Start, Step;
    if k == 0 {
      StartOk(h.states[0]);
    } else {
      RunOkAt(h, k - 1);
      StepOk(h.states[k - 1], h.acts[k - 1], h.states[k]);
    }
  }

  // ---------------------------------------------------------------- events of a run

  /** At step k cohort x accepts VIEW_CHANGE for `newvid`. */
  ghost predicate AcceptsVc(h: History, k: nat, x: Mid, newvid: Viewid)
    requires IsRun(h)
  {
    && k < |h.acts| && h.acts[k].who == x && x in h.states[k]
    && h.acts[k].ev.VcRequest? && h.acts[k].ev.newvid == newvid
    && !RefusesVc(h.states[k][x], h.acts[k].ev.oldview.vid, newvid)
  }

  /** At step k cohort x accepts NEW_VIEW for a view with identifier `vid`. */
  ghost predicate AcceptsNv(h: History, k: nat, x: Mid, vid: Viewid)
    requires IsRun(h)
  {
    && k < |h.acts| && h.acts[k].who == x
    && h.acts[k].ev.NvRequest? && h.acts[k].ev.nvarg.view.vid == vid
    && x in h.states[k] && !RefusesNv(h.states[k][x], vid)
  }

  /** Every acceptance on the network was sent by a cohort that accepted, reporting its state then. */
  lemma {:induction false} FindVcAccept(h: History, j: nat, m: Msg) returns (k: nat)
    requires IsRun(h) && j < |h.states|
    requires m.VcReply? && m.answer.Accept? && InNet(h.states[j], m)
    ensures k < j && AcceptsVc(h, k, m.src, m.newvid)
    ensures m.answer.report == MyReport(h.states[k][m.src])
  {
    hide Start, Enabled, Handle, AllOk, NoDuplicateStamp, MyReport, RefusesVc;
    RunOkAt(h, j);
    if j == 0 {
      StartSilent(h.states[0], m);
      assert false;
    }
    assert Step(h.states[j - 1], h.acts[j - 1], h.states[j]);
    if InNet(h.states[j - 1], m) {
      k := FindVcAccept(h, j - 1, m);
    } else {
      k := j - 1;
      var c := h.acts[k].who;
      RunOkAt(h, k);
      EnabledOk(h.states[k], c, h.acts[k].ev);
      assert CohortOk(h.states[k], c);
      HandleExplained(h.states[k][c], h.acts[k].ev);
      assert Explained(h.states[k][c], h.acts[k].ev, h.states[j][c], m);
    }
  }

  lemma StartSilent(sys: Sys, m: Msg)
    requires Start(sys) && InNet(sys, m)
    ensures !Answer(m) && !m.VcReply?
  {
    hide AllOk, OwnEntries;
    assert Unanswered(sys[m.src]);
  }

  lemma StartOpensNone(sys: Sys, x: Mid, d: DoneCb)
    requires Start(sys) && x in sys && HasDone(sys[x], d)
    ensures !d.AnswerNewView?
  {
    hide AllOk, OwnEntries;
    assert Unanswered(sys[x]);
  }

  /** Likewise for NEW_VIEW: the acceptance comes from a pull that the accepting event opened. */
  lemma {:induction false} FindNvAccept(h: History, j: nat, x: Mid, caller: Mid, xid: nat, vid: Viewid) returns (k: nat)
    requires IsRun(h) && j < |h.states| && x in h.states[j]
    requires NvReply(x, caller, xid, vid, true) in h.states[j][x].sent
             || HasDone(h.states[j][x], AnswerNewView(caller, xid, vid))
    ensures k < j && AcceptsNv(h, k, x, vid) && h.acts[k].ev.src == caller && h.acts[k].ev.xid == xid
  {
    hide Start, Enabled, Handle, AllOk, NoDuplicateStamp, RefusesNv;
    var d := AnswerNewView(caller, xid, vid);
    var m := NvReply(x, caller, xid, vid, true);
    if j == 0 {
      if HasDone(h.states[0][x], d) { StartOpensNone(h.states[0], x, d); } else { StartSilent(h.states[0], m); }
      assert false;
    }
    k := j - 1;
    var c := h.acts[k].who;
    assert Step(h.states[k], h.acts[k], h.states[j]);
    if m in h.states[k][x].sent || HasDone(h.states[k][x], d) {
      k := FindNvAccept(h, k, x, caller, xid, vid);
    } else {
      assert c == x;
      RunOkAt(h, k);
      EnabledOk(h.states[k], c, h.acts[k].ev);
      assert CohortOk(h.states[k], c);
      HandleExplained(h.states[k][c], h.acts[k].ev);
      assert m in h.states[j][x].sent ==> Explained(h.states[k][c], h.acts[k].ev, h.states[j][c], m);
      assert Opened(h.states[k][c], h.acts[k].ev) == Some(d);
    }
  }

  // ---------------------------------------------------------------- one cohort between two moments

  lemma {:induction false} CohortGrows(h: History, i: nat, j: nat, x: Mid)
    requires IsRun(h) && i <= j < |h.states| && x in h.states[i]
    ensures x in h.states[j] && Grows(h.states[i][x], h.states[j][x])
    decreases j - i
  {
    hide Start, Enabled, Handle, AllOk, NoDuplicateStamp, Grows;
    if i == j {
      GrowsRefl(h.states[i][x]);
    } else {
      CohortGrows(h, i, j - 1, x);
      var s, a, t := h.states[j - 1], h.acts[j - 1], h.states[j];
      assert Step(s, a, t);
      RunOkAt(h, j - 1);
      assert CohortOk(s, x);
      if a.who == x {
        EnabledOk(s, x, a.ev);
        AllInv(s[x]);
        HandleKeeps(s[x], a.ev);
      } else {
        GrowsRefl(s[x]);
      }
      GrowsTrans(h.states[i][x], s[x], t[x]);
    }
  }

  /** Between two moments at which a cohort is in the same view, it keeps its promises. */
  lemma {:induction false} CohortPromise(h: History, i: nat, j: nat, x: Mid)
    requires IsRun(h) && i <= j < |h.states| && x in h.states[i]
    ensures x in h.states[j] && Promise(h.states[i][x], h.states[j][x])
    decreases j - i
  {
    hide Start, Enabled, Handle, AllOk, NoDuplicateStamp, Promise;
    if i == j {
      PromiseRefl(h.states[i][x]);
      SteadyPromise(h.states[i][x], h.states[i][x]);
    } else {
      CohortPromise(h, i, j - 1, x);
      var s, a, t := h.states[j - 1], h.acts[j - 1], h.states[j];
      assert Step(s, a, t);
      RunOkAt(h, j - 1);
      assert CohortOk(s, x);
      PromiseRefl(s[x]);
      SteadyPromise(s[x], s[x]);
      if a.who == x {
        EnabledOk(s, x, a.ev);
        AllInv(s[x]);
        HandlePromise(s[x], a.ev);
      }
      PromiseTrans(h.states[i][x], s[x], t[x]);
    }
  }
}
