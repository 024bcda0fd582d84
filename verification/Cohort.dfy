/**
 * The cohort as the program runs it: one object whose handlers change its fields in place. Every
 * method is proved to do what the value model in CohortSpec.dfy says.
 */
module CohortProcess {
  import opened Stamps
  import opened CohortSpec
  import opened CohortInvariants
  import Quorum

  /** `view2mids`. */
  method View2Mids(v: View) returns (m: Quorum.MidSet)
    ensures fresh(m) && m.Valid() && m.Contents() == Mids(v)
  {
    m := new Quorum.MidSet();
    var added := m.Insert(v.primary);
    var i := 0;
    while i < |v.backups|
      invariant i <= |v.backups| && m.Valid()
      invariant m.Contents() == {v.primary} + (set b | b in v.backups[..i])
    {
      added := m.Insert(v.backups[i]);
      assert v.backups[..i + 1] == v.backups[..i] + [v.backups[i]];
      i := i + 1;
    }
    assert v.backups[..i] == v.backups;
  }

  class CohortObject {
    const self: Mid
    var mode: Mode
    var validView: bool
    var view: View
    var proposedVid: Viewid
    var acceptedView: Option<View>
    var attempt: Option<Attempt>
    var nextXid: nat
    var latest: Viewstamp
    var committed: Viewstamp
    var executed: Viewstamp
    var log: Log
    var jumps: Jumps
    var cache: map<Mid, CacheEntry>
    var pulls: seq<Pull>
    var submitted: seq<Submission>
    var sent: set<Msg>
    var crashed: bool

    /** The whole state as a value. */
    function State(): Cohort
      reads this
    {
      Cohort(self, mode, validView, view, proposedVid, acceptedView, attempt, nextXid, latest, committed, executed,
             log, jumps, cache, pulls, submitted, sent, crashed)
    }

    /** A cohort that forms a new group. */
    constructor Found(self: Mid)
      ensures State() == Founder(self)
    {
      this.self := self;
      proposedVid, acceptedView, attempt, nextXid := ZERO_VID, None, None, 0;
      cache, pulls, submitted, sent, crashed := map[], [], [], {}, false;
      var f := SyntheticView(self);
      view, validView := f.view, true;
      latest := FormStamp(f);
      committed := FormStamp(f);
      executed := FormStamp(f);
      log := map[FormStamp(f) := Entry(Form(f), None, None, Logged)];
      jumps := map[ZERO_STAMP := FormStamp(f)];
      mode := Active;
    }

    /** A cohort that waits to be let into a group. */
    constructor Join(self: Mid)
      ensures State() == Joiner(self)
    {
      this.self := self;
      proposedVid, acceptedView, attempt, nextXid := ZERO_VID, None, None, 0;
      cache, pulls, submitted, sent, crashed := map[], [], [], {}, false;
      view, validView, mode := NO_VIEW, false, Bootstrap;
      latest, committed, executed := ZERO_STAMP, ZERO_STAMP, ZERO_STAMP;
      log, jumps := map[], map[];
    }

    method Log(vs: Viewstamp, e: Entry)
      requires WfSlot(vs, e.arg)
      modifies this
      ensures State() == Insert(old(State()), vs, e)
    {
      if vs.ts == 0 {
        var prev := e.arg.form.prev;
        if prev !in jumps || Lt(jumps[prev], vs) {
          jumps := jumps[prev := vs];
        }
      }
      log := log[vs := e];
    }

    // -------------------------------------------------------------- advancing

    /** Handing a request to the state machine. */
    method ExecuteRequest(vs: Viewstamp)
      requires vs in log && log[vs].arg.Client?
      modifies this
      ensures State() == ExecRequest(old(State()), vs)
    {
      var e := log[vs];
      submitted := submitted + [Submission(vs, e.arg.req)];
      executed := vs;
      log := log[vs := e.(state := Executing)];
    }

    method AbortAnyAttempt()
      modifies `attempt
      ensures attempt == Aborted(old(attempt))
    {
      if attempt.Some? {
        attempt := Some(attempt.value.(aborted := true));
      }
    }

    method SetView(v: View)
      modifies this
      ensures State() == old(State()).(view := v, proposedVid := v.vid, validView := true)
    {
      view := v;
      proposedVid := v.vid;
      validView := true;
    }

    method Activate()
      modifies this
      ensures State() == old(State()).(acceptedView := None, attempt := Aborted(old(attempt)), mode := Active)
    {
      hide Aborted;
      acceptedView := None;
      AbortAnyAttempt();
      mode := Active;
    }

    /** Installing the view of a formation entry. */
    method ExecuteFormation(vs: Viewstamp)
      requires vs in log && log[vs].arg.Form?
      modifies this
      ensures State() == ExecForm(old(State()), vs)
    {
      hide Aborted;
      var e := log[vs];
      SetView(e.arg.form.view);
      Activate();
      executed := vs;
      log := log[vs := e.(state := Executing)];
    }

    /** One turn of the loop in `advance_executed`. */
    method ExecuteEntry(vs: Viewstamp)
      requires vs in log
      modifies this
      ensures State() == ExecOne(old(State()), vs)
    {
      hide ExecRequest, ExecForm;
      assert WfSlot(vs, log[vs].arg);
      if vs.ts != 0 {
        ExecuteRequest(vs);
      } else {
        ExecuteFormation(vs);
      }
    }

    method DoAdvanceExecuted()
      modifies this
      ensures State() == AdvanceExecuted(old(State()))
    {
      ghost var s := State();
      var vs := VsNext(jumps, executed);
      hide ExecOne, AdvanceExecuted;
      assert AdvanceExecuted(s) == ExecFrom(s, vs) by { ExecStarts(s); }
      while Le(vs, committed)
        invariant ExecFrom(State(), vs) == ExecFrom(s, VsNext(s.jumps, s.executed))
        decreases Above(log.Keys, vs)
      {
        if vs !in log { break; }
        ExecStep(State(), vs);
        ExecuteEntry(vs);
        vs := VsNext(jumps, vs);
      }
      ExecStops(State(), vs);
    }

    method CommitEntry(vs: Viewstamp)
      requires vs in log
      modifies this
      ensures State() == CommitOne(old(State()), vs)
    {
      committed := vs;
      log := log[vs := log[vs].(ack := None, state := Committed)];
    }

    method DoAdvanceCommitted()
      modifies this
      ensures State() == AdvanceCommitted(old(State()))
    {
      ghost var s := State();
      hide CommitFrom, AdvanceExecuted, CommitOne, Quorum.Majority;
      var vs := VsNext(jumps, committed);
      while Le(vs, latest)
        invariant CommitFrom(State(), vs) == CommitFrom(s, VsNext(s.jumps, s.committed))
        decreases Above(log.Keys, vs)
      {
        CommitStep(State(), vs);
        if vs !in log || log[vs].ack.None? {
          crashed := true;
          break;
        }
        var ack := log[vs].ack.value;
        if !Quorum.Majority(ack.received, ack.expected) { break; }
        CommitEntry(vs);
        vs := VsNext(jumps, vs);
      }
      CommitStops(State(), vs);
      DoAdvanceExecuted();
    }

    // -------------------------------------------------------------- acknowledgements

    method AckEntry(from: Mid, vs: Viewstamp)
      requires vs in log
      modifies this
      ensures State() == AckOne(old(State()), from, vs)
    {
      var e := log[vs];
      if e.ack.Some? {
        log := log[vs := e.(ack := Some(e.ack.value.(received := e.ack.value.received + {from})))];
      }
    }

    /** `replicate_cb`. */
    method DoReplicateCb(from: Mid, upto: Viewstamp)
      modifies this
      ensures State() == ReplicateCb(old(State()), from, upto)
    {
      hide AckOne, AckFrom, AdvanceCommitted, IsMember;
      if view.primary != self { return; }
      if latest.vid != committed.vid {
        crashed := true;
        return;
      }
      if Le(upto, committed) { return; }
      if Lt(latest, upto) {
        crashed := true;
        return;
      }
      if !IsMember(State(), from) { return; }
      AckUpto(from, upto);
      DoAdvanceCommitted();
    }

    method AckUpto(from: Mid, upto: Viewstamp)
      modifies this
      ensures State() == AckFrom(old(State()), from, VsNext(old(jumps), old(committed)), upto)
    {
      ghost var s := State();
      hide AckOne, AckFrom;
      var vs := VsNext(jumps, committed);
      while Le(vs, upto)
        invariant AckFrom(State(), from, vs, upto) == AckFrom(s, from, VsNext(s.jumps, s.committed), upto)
        decreases Above(log.Keys, vs)
      {
        AckStep(State(), from, vs, upto);
        if vs !in log {
          crashed := true;
          return;
        }
        AckEntry(from, vs);
        vs := VsNext(jumps, vs);
      }
      AckStops(State(), from, vs, upto);
    }

    // -------------------------------------------------------------- pulling the log

    /** `pull_upto`. */
    method DoPullUpto(i: nat, upto: Viewstamp)
      requires i < |pulls|
      modifies this
      ensures State() == PullUpto(old(State()), i, upto)
    {
      ghost var s := State();
      hide PullUpto;
      if VidLt(upto.vid, executed.vid) {
        NothingWanted(s, i, upto);
        return;
      }
      var base := if upto.vid == executed.vid then executed.ts + 1 else 0;
      var t := base;
      WantedNone(s, i, upto.vid, base);
      while t <= upto.ts
        invariant base <= t && (t <= upto.ts + 1 || t == base)
        invariant State() == Wanting(s, i, Wanted(s.log, upto.vid, base, t))
        decreases upto.ts + 1 - t
      {
        var vs := Viewstamp(upto.vid, t);
        WantedNext(s, i, upto.vid, base, t);
        if vs !in log {
          Ask(i, vs);
        }
        t := t + 1;
      }
      WantedAll(s, i, upto, base, t);
    }

    method Ask(i: nat, vs: Viewstamp)
      requires i < |pulls|
      modifies this
      ensures State() == Asked(old(State()), i, vs)
    {
      pulls := pulls[i := pulls[i].(expected := pulls[i].expected + {vs})];
      sent := sent + {FetchCall(self, pulls[i].src, i, vs)};
    }

    method DoFire(done: DoneCb, good: bool)
      modifies this
      ensures State() == Fire(old(State()), done, good)
    {
      match done
      case AckReplicate(to, vs) => if good { sent := sent + {ReplicateReply(self, to, vs)}; }
      case AnswerNewView(to, xid, vid) => sent := sent + {NvReply(self, to, xid, vid, good)};
      case NullCb =>
    }

    method DoStepBack(i: nat)
      requires i < |pulls|
      modifies this
      ensures State() == StepBack(old(State()), i)
    {
      hide PullUpto;
      var pl := pulls[i];
      if VidLt(VsNext(jumps, executed).vid, pl.bottomview) {
        var xs := Viewstamp(pl.bottomview, 0);
        if xs in log {
          var prev := log[xs].arg.form.prev;
          pulls := pulls[i := pl.(bottomview := prev.vid)];
          DoPullUpto(i, prev);
        }
      } else {
        pulls := pulls[i := pl.(bottomdone := true)];
      }
    }

    method DoSettle(i: nat)
      requires i < |pulls|
      modifies this
      ensures State() == Settle(old(State()), i)
    {
      var pl := pulls[i];
      FireFrame(State(), pl.done, pl.ok && pl.bottomdone);
      FirePulls(State(), pl.done, pl.ok && pl.bottomdone);
      hide Fire;
      if !pl.ok || |pl.expected| == |pl.received| {
        DoFire(pl.done, pl.ok && pl.bottomdone);
        pulls := pulls[i := pl.(done := NullCb)];
      }
    }

    /** `fetchlog_check`. */
    method DoFetchlogCheck(i: nat)
      requires i < |pulls|
      modifies this
      ensures State() == FetchlogCheck(old(State()), i)
    {
      AdvanceCommittedKeepsPulls(State());
      hide AdvanceCommitted, StepBack, Settle;
      DoAdvanceCommitted();
      StepBackFrame(State(), i);
      DoStepBack(i);
      DoSettle(i);
    }

    /** `fetchlog_cb`; the answer is None after an RPC error. */
    method DoFetchlogCb(i: nat, vs: Viewstamp, resp: Option<Arg>)
      requires i < |pulls| && (resp.Some? ==> WfSlot(vs, resp.value))
      modifies this
      ensures State() == FetchlogCb(old(State()), i, vs, resp)
    {
      hide FetchlogCheck, Insert;
      if vs !in log {
        if resp.None? {
          pulls := pulls[i := pulls[i].(ok := false)];
          DoFetchlogCheck(i);
          return;
        }
        InsertPulls(State(), vs, Entry(resp.value, None, None, Logged));
        Log(vs, Entry(resp.value, None, None, Logged));
      }
      pulls := pulls[i := pulls[i].(received := pulls[i].received + {vs})];
      DoFetchlogCheck(i);
    }

    /** `pull_log`. */
    method DoPullLog(src: Mid, upto: Viewstamp, done: DoneCb)
      modifies this
      ensures State() == PullLog(old(State()), src, upto, done)
    {
      hide FetchlogCheck, PullUpto;
      var i := |pulls|;
      pulls := pulls + [Pull(upto, src, {}, {}, upto.vid, true, false, done)];
      PullUptoFrame(State(), i, upto);
      DoPullUpto(i, upto);
      DoFetchlogCheck(i);
    }

    // -------------------------------------------------------------- client requests

    method SetWaiter(k: Viewstamp, handle: Option<nat>)
      requires k in log
      modifies `log
      ensures log == old(log)[k := old(log)[k].(sbp := handle)]
    {
      log := log[k := log[k].(sbp := handle)];
    }

    method Answer(handle: nat, res: ExecRes)
      modifies this
      ensures State() == Reply(old(State()), handle, res)
    {
      sent := sent + {ClientReply(handle, res)};
    }

    /** REP_EXECUTE. */
    method DoExecute(handle: nat, req: Request)
      modifies this
      ensures State() == OnExecute(old(State()), handle, req)
    {
      hide LogRequest, AdvanceCommitted, Reply;
      if mode != Active { return; }
      var c := req.client;
      if c in cache && cache[c].rid == req.rid && cache[c].rle in log {
        var k := cache[c].rle;
        if log[k].state == Executed {
          Answer(handle, Ok(cache[c].reply));
          return;
        }
        ghost var s := State();
        SetWaiter(k, None);
        assert State() == Park(s, req, None);
        if !(log[k].state == Logged && VidLt(k.vid, view.vid)) {
          SetWaiter(k, Some(handle));
          assert State() == Park(s, req, Some(handle));
          return;
        }
      }
      if req.vid != view.vid || self != view.primary {
        Answer(handle, Redirect(view.vid, view.primary));
        return;
      }
      DoLogRequest(handle, req);
      DoAdvanceCommitted();
    }

    /** The primary's part of REP_EXECUTE: log the request, remember it, replicate it. */
    method DoLogRequest(handle: nat, req: Request)
      modifies this
      ensures State() == LogRequest(old(State()), handle, req)
    {
      hide Insert;
      var vs := Succ(latest);
      var prior := if req.client in cache then cache[req.client].reply else "";
      var e := MakeEntry(handle, req);
      InsertSide(State(), vs, e);
      Log(vs, e);
      latest := vs;
      cache := cache[req.client := CacheEntry(req.rid, vs, prior)];
      Replicate(view.backups, vs, Client(req), committed);
    }

    /** The log entry of a request: this cohort has it, and every member is to acknowledge it. */
    method MakeEntry(handle: nat, req: Request) returns (e: Entry)
      ensures e == PrimaryEntry(State(), handle, req)
    {
      var expected := {self};
      var i := 0;
      while i < |view.backups|
        invariant i <= |view.backups|
        invariant expected == {self} + set b | b in view.backups[..i]
      {
        expected := expected + {view.backups[i]};
        assert view.backups[..i + 1] == view.backups[..i] + [view.backups[i]];
        i := i + 1;
      }
      assert view.backups[..i] == view.backups;
      e := Entry(Client(req), Some(AckSet({self}, expected)), Some(handle), Logged);
    }

    /** One REPLICATE call to each backup. */
    method Replicate(to: seq<Mid>, vs: Viewstamp, arg: Arg, upto: Viewstamp)
      modifies `sent
      ensures sent == old(sent) + set b | b in to :: ReplicateCall(self, b, vs, arg, upto)
    {
      var i := 0;
      while i < |to|
        invariant i <= |to|
        invariant sent == old(sent) + set b | b in to[..i] :: ReplicateCall(self, b, vs, arg, upto)
      {
        sent := sent + {ReplicateCall(self, to[i], vs, arg, upto)};
        assert to[..i + 1] == to[..i] + [to[i]];
        i := i + 1;
      }
      assert to[..i] == to;
    }

    method Finish(vs: Viewstamp, reply: string)
      requires vs in log && log[vs].arg.Client?
      modifies this
      ensures State() == FinishEntry(old(State()), vs, reply)
    {
      var e := log[vs];
      log := log[vs := e.(state := Executed, sbp := None)];
      cache := cache[e.arg.req.client := CacheEntry(e.arg.req.rid, vs, reply)];
    }

    /** `execute_done`. */
    method DoExecuteDone(vs: Viewstamp, reply: string)
      requires vs in log && log[vs].arg.Client?
      modifies this
      ensures State() == ExecuteDone(old(State()), vs, reply)
    {
      hide FinishEntry, Reply;
      var waiter := log[vs].sbp;
      Finish(vs, reply);
      if waiter.Some? {
        Answer(waiter.value, Ok(reply));
      }
    }

    // -------------------------------------------------------------- backups

    method Store(vs: Viewstamp, arg: Arg)
      requires WfSlot(vs, arg)
      modifies this
      ensures State() == StoreEntry(old(State()), vs, arg)
    {
      hide Insert;
      if Lt(committed, vs) && vs !in log {
        Log(vs, Entry(arg, None, None, Logged));
      }
    }

    /** REP_REPLICATE. */
    method DoReplicate(src: Mid, vs: Viewstamp, arg: Arg, upto: Viewstamp)
      requires WfSlot(vs, arg)
      modifies this
      ensures State() == OnReplicate(old(State()), src, vs, arg, upto)
    {
      ghost var s := State();
      hide StoreEntry, AdvanceExecuted, PullLog, IsMember;
      var primary;
      if vs.ts != 0 {
        if mode != Active { return; }
        if view.primary == self { return; }
        if !IsMember(State(), self) { return; }
        primary := view.primary;
      } else {
        primary := arg.form.view.primary;
      }
      Store(vs, arg);
      if Lt(committed, upto) {
        committed := upto;
      }
      assert State() == RaiseCommitted(StoreEntry(s, vs, arg), upto);
      DoAdvanceExecuted();
      DoPullLog(primary, vs, AckReplicate(src, vs));
    }

    /** REP_FETCHLOG. */
    method DoFetchlog(vs: Viewstamp)
      modifies this
      ensures State() == OnFetchlog(old(State()), vs)
    {
      if vs !in log { return; }
      sent := sent + {FetchReply(self, vs, log[vs].arg)};
    }

    // -------------------------------------------------------------- view changes: accepters

    method AbortOtherAttempt(vid: Viewid)
      modifies `attempt
      ensures attempt == AbortOther(old(attempt), vid)
    {
      if attempt.Some? && attempt.value.proposedVid != vid {
        attempt := Some(attempt.value.(aborted := true));
      }
    }

    /** The open-ended scan of REP_VIEW_CHANGE for the last consecutive entry. */
    method Scan() returns (last: Viewstamp)
      ensures last == ScanFrom(log, jumps, executed)
    {
      last := executed;
      var vs := VsNext(jumps, executed);
      while vs in log
        invariant vs == VsNext(jumps, last)
        invariant ScanFrom(log, jumps, last) == ScanFrom(log, jumps, executed)
        decreases Above(log.Keys, vs)
      {
        AboveDrops(log.Keys, vs, VsNext(jumps, vs));
        last := vs;
        vs := VsNext(jumps, vs);
      }
    }

    method Promise(newvid: Viewid)
      modifies this
      ensures State() == old(State()).(mode := ViewChange, proposedVid := newvid, attempt := AbortOther(old(attempt), newvid))
    {
      hide AbortOther;
      mode := ViewChange;
      proposedVid := newvid;
      AbortOtherAttempt(newvid);
    }

    method Adopt(v: View)
      modifies this
      ensures State() == AdoptNewView(old(State()), v)
    {
      hide AbortOther;
      mode := ViewChange;
      AbortOtherAttempt(v.vid);
      acceptedView := Some(v);
    }

    /** REP_VIEW_CHANGE. */
    method DoViewChange(src: Mid, xid: nat, oldview: View, newvid: Viewid)
      modifies this
      ensures State() == OnViewChange(old(State()), src, xid, oldview, newvid)
    {
      hide AbortOther, ScanFrom;
      if (validView && VidLt(oldview.vid, view.vid)) || VidLt(newvid, proposedVid) {
        var mine := if validView then Some(view) else None;
        sent := sent + {VcReply(self, src, xid, newvid, Reject(mine, proposedVid))};
        return;
      }
      Promise(newvid);
      var last := Scan();
      sent := sent + {VcReply(self, src, xid, newvid, Accept(Report(self, last, acceptedView)))};
    }

    /** REP_NEW_VIEW. */
    method DoNewView(src: Mid, xid: nat, nv: NvArg)
      modifies this
      ensures State() == OnNewView(old(State()), src, xid, nv)
    {
      hide AdoptNewView, PullLog;
      if (validView && VidLt(nv.view.vid, view.vid)) || VidLt(nv.view.vid, proposedVid) {
        sent := sent + {NvReply(self, src, xid, nv.view.vid, false)};
        return;
      }
      Adopt(nv.view);
      DoPullLog(nv.view.primary, nv.latest, AnswerNewView(src, xid, nv.view.vid));
    }

    /** `form_view`. */
    method DoFormView(f: Formation)
      modifies this
      ensures State() == FormView(old(State()), f)
    {
      hide LogFormation, AdvanceCommitted;
      if f.view.primary != self {
        crashed := true;
        return;
      }
      LogForm(f);
      DoAdvanceCommitted();
      var vs := FormStamp(f);
      Replicate(f.view.backups, vs, Form(f), vs);
    }

    method LogForm(f: Formation)
      modifies this
      ensures State() == LogFormation(old(State()), f)
    {
      hide Insert;
      var vs := FormStamp(f);
      InsertSide(State(), vs, Entry(Form(f), None, None, Logged));
      Log(vs, Entry(Form(f), None, None, Logged));
      latest := vs;
      committed := vs;
    }

    /** REP_INIT_VIEW. */
    method DoInitView(f: Formation)
      modifies this
      ensures State() == OnInitView(old(State()), f)
    {
      hide FormView;
      if FormsView(State(), f) {
        DoFormView(f);
      }
    }

    // -------------------------------------------------------------- view changes: the manager

    /** One VIEW_CHANGE call to each of these cohorts. */
    method CallAll(to: set<Mid>, xid: nat, v: View, newvid: Viewid)
      modifies `sent
      ensures sent == old(sent) + set u | u in to :: VcCall(self, u, xid, v, newvid)
    {
      var todo := to;
      while todo != {}
        invariant todo <= to
        invariant sent == old(sent) + set u | u in to - todo :: VcCall(self, u, xid, v, newvid)
        decreases todo
      {
        var u :| u in todo;
        sent := sent + {VcCall(self, u, xid, v, newvid)};
        assert to - (todo - {u}) == (to - todo) + {u};
        todo := todo - {u};
      }
      assert to - todo == to;
    }

    /** `view_change_issue_newview`. */
    method IssueNewview(to: set<Mid>, xid: nat, nv: NvArg)
      modifies `sent
      ensures sent == old(sent) + set u | u in to :: NvCall(self, u, xid, nv)
    {
      var todo := to;
      while todo != {}
        invariant todo <= to
        invariant sent == old(sent) + set u | u in to - todo :: NvCall(self, u, xid, nv)
        decreases todo
      {
        var u :| u in todo;
        sent := sent + {NvCall(self, u, xid, nv)};
        assert to - (todo - {u}) == (to - todo) + {u};
        todo := todo - {u};
      }
      assert to - todo == to;
    }

    /** The members of the view and the cohorts asking to join. */
    static method Underlings(v: View, joiners: seq<Mid>) returns (under: set<Mid>)
      ensures under == Mids(v) + set j | j in joiners
    {
      hide Mids;
      under := Mids(v);
      var i := 0;
      while i < |joiners|
        invariant i <= |joiners| && under == Mids(v) + set j | j in joiners[..i]
      {
        under := under + {joiners[i]};
        assert joiners[..i + 1] == joiners[..i] + [joiners[i]];
        i := i + 1;
      }
      assert joiners[..i] == joiners;
    }

    /** `view_change_initiate`. */
    method DoInitiate(joiners: seq<Mid>)
      modifies this
      ensures State() == Initiate(old(State()), joiners)
    {
      hide Mids;
      if attempt.Some? && !attempt.value.aborted { return; }
      if !IsMember(State(), self) { return; }
      var under := Underlings(view, joiners);
      var maxview := view.vid;
      if VidLt(maxview, proposedVid) {
        maxview := proposedVid;
      }
      var vid := Viewid(maxview.counter + 1, self);
      var xid := nextXid;
      OpenAttempt(vid, under);
      CallAll(under, xid, view, vid);
    }

    method OpenAttempt(vid: Viewid, under: set<Mid>)
      modifies this
      ensures State() == old(State()).(mode := ViewChange, nextXid := old(nextXid) + 1,
          attempt := Some(Attempt(old(nextXid), vid, under, {}, {}, {}, {}, [], None, ZERO_VID, NO_NVARG, false)))
    {
      attempt := Some(Attempt(nextXid, vid, under, {}, {}, {}, {}, [], None, ZERO_VID, NO_NVARG, false));
      mode := ViewChange;
      nextXid := nextXid + 1;
    }

    /** The scan for the greatest report; `overtaken` is the assertion of the merged scan. */
    static method FindBest(accepts: seq<Report>, among: Option<set<Mid>>, primary: Mid)
      returns (best: Option<Report>, overtaken: bool)
      ensures best == Best(accepts, among)
      ensures among.Some? ==> overtaken == Overtaken(accepts, among.value, primary)
    {
      best, overtaken := None, false;
      var i := 0;
      assert accepts[..0] == [];
      while i < |accepts|
        invariant i <= |accepts| && best == Best(accepts[..i], among)
        invariant among.Some? ==> overtaken == Overtaken(accepts[..i], among.value, primary)
      {
        var r := accepts[i];
        assert accepts[..i + 1][..i] == accepts[..i];
        if among.None? || r.myid in among.value {
          if Lt(if best.Some? then best.value.latest else ZERO_STAMP, r.latest) {
            if best.Some? && best.value.myid == primary {
              overtaken := true;
            }
            best := Some(r);
          }
        }
        i := i + 1;
      }
      assert accepts[..i] == accepts;
    }

    /** The accepters other than the primary, in the order of their replies. */
    static method Others(accepts: seq<Report>, id: Mid) returns (ids: seq<Mid>)
      ensures ids == OtherIds(accepts, id)
    {
      ids := [];
      var i := 0;
      while i < |accepts|
        invariant i <= |accepts| && ids == OtherIds(accepts[..i], id)
      {
        assert accepts[..i + 1][..i] == accepts[..i];
        if accepts[i].myid != id {
          ids := ids + [accepts[i].myid];
        }
        i := i + 1;
      }
      assert accepts[..i] == accepts;
    }

    /** Putting the old primary where the new one stood among the backups. */
    static method Swap(ids: seq<Mid>, a: Mid, b: Mid) returns (r: seq<Mid>)
      ensures r == Replaced(ids, a, b)
    {
      r := ids;
      var i := 0;
      while i < |ids|
        invariant i <= |ids| == |r|
        invariant forall k :: 0 <= k < |ids| ==> r[k] == if k < i && ids[k] == a then b else ids[k]
      {
        if r[i] == a {
          r := r[i := b];
        }
        i := i + 1;
      }
    }

    /** `view_change_choose_view`; None where the code's assertion fails or it reads an unset cohort. */
    static method ChooseView(a: Attempt) returns (nv: Option<NvArg>)
      ensures nv == Choose(a)
    {
      hide Best, Overtaken, OtherIds;
      if a.newview.Some? {
        var v := a.newview.value;
        var best, overtaken := FindBest(a.accepts, Some(Mids(v)), v.primary);
        if best.None? || overtaken { return None; }
        if best.value.myid == v.primary {
          return Some(NvArg(best.value.latest, View(a.proposedVid, v.primary, v.backups)));
        }
        var backups := Swap(v.backups, best.value.myid, v.primary);
        return Some(NvArg(best.value.latest, View(a.proposedVid, best.value.myid, backups)));
      }
      var best, _ := FindBest(a.accepts, None, 0);
      if best.None? { return None; }
      var others := Others(a.accepts, best.value.myid);
      if |others| != |a.accepts| - 1 { return None; }
      return Some(NvArg(best.value.latest, View(a.proposedVid, best.value.myid, others)));
    }

    method DoChooseAndIssue()
      requires attempt.Some?
      modifies this
      ensures State() == ChooseAndIssue(old(State()))
    {
      hide Choose;
      var a := attempt.value;
      var nv := ChooseView(a);
      if nv.None? {
        crashed := true;
        return;
      }
      attempt := Some(a.(nvarg := nv.value));
      IssueNewview(a.underlings, a.xid, nv.value);
    }

    /** Asking the members of a reported view that were not asked yet. */
    method DoExtend()
      requires attempt.Some? && attempt.value.newview.Some?
      modifies this
      ensures State() == Extend(old(State()))
    {
      hide Mids;
      var a := attempt.value;
      var more := Mids(a.newview.value) - a.underlings;
      attempt := Some(a.(underlings := a.underlings + more, mergedVid := a.newview.value.vid));
      CallAll(more, a.xid, view, a.proposedVid);
    }

    /** `view_change_check_prepare`, which calls itself once after extending the attempt. */
    method DoCheckPrepare()
      requires attempt.Some?
      modifies this
      ensures State() == CheckPrepare(old(State()))
      decreases attempt.value.newview.Some? && VidLt(attempt.value.mergedVid, attempt.value.newview.value.vid)
    {
      hide Quorum.Majority, Extend, ChooseAndIssue, Mids;
      var a := attempt.value;
      if a.aborted || |a.prepareDone| != |a.underlings| { return; }
      if !Quorum.Majority(a.prepareAccepted, Mids(view)) {
        AbortAnyAttempt();
        return;
      }
      if a.newview.Some? {
        if VidLt(a.mergedVid, a.newview.value.vid) {
          ExtendMerges(State());
          DoExtend();
          DoCheckPrepare();
          return;
        }
        if !Quorum.Majority(a.prepareAccepted, Mids(a.newview.value)) {
          AbortAnyAttempt();
          return;
        }
      }
      DoChooseAndIssue();
    }

    /** `view_change_prepare_cb`; None is an RPC error. The attempt is found by its call identifier. */
    method DoPrepareCb(xid: nat, from: Mid, res: Option<VcAnswer>)
      modifies this
      ensures State() == PrepareCb(old(State()), xid, from, res)
    {
      ghost var s := State();
      hide CheckPrepare;
      if attempt.None? || attempt.value.xid != xid || attempt.value.aborted { return; }
      var a := attempt.value;
      a := a.(prepareDone := a.prepareDone + {from});
      if res.Some? {
        if res.value.Reject? {
          a := a.(aborted := true);
          if VidLt(proposedVid, res.value.newvid) {
            proposedVid := res.value.newvid;
          }
        } else if from !in a.prepareAccepted {
          var r := res.value.report;
          a := a.(prepareAccepted := a.prepareAccepted + {from}, accepts := a.accepts + [r]);
          if r.newview.Some? {
            if a.newview.None? || VidLt(a.newview.value.vid, r.newview.value.vid) {
              a := a.(newview := r.newview);
            }
          }
        }
      }
      attempt := Some(a);
      assert State() == NotePrepare(s, from, res);
      DoCheckPrepare();
    }

    /** `view_change_newview_cb` with `view_change_check_newview`. */
    method DoNewviewCb(xid: nat, from: Mid, accepted: Option<bool>)
      modifies this
      ensures State() == NewviewCb(old(State()), xid, from, accepted)
    {
      hide Mids, Quorum.Majority;
      if attempt.None? || attempt.value.xid != xid { return; }
      var a := NoteNv(attempt.value, from, accepted);
      if a.aborted {
        attempt := Some(a);
        return;
      }
      if !Quorum.Majority(a.nvAccepted, Mids(a.nvarg.view)) || !Quorum.Majority(a.nvAccepted, Mids(view)) {
        attempt := Some(a.(aborted := |a.nvDone| == |a.underlings|));
        return;
      }
      attempt := Some(a);
      sent := sent + {InitCall(self, a.nvarg.view.primary, ViewForm(a.nvarg.latest, a.nvarg.view))};
    }

    /** Every event runs its handler, keeps the invariant, and never takes back what only grows. */
    method Dispatch(e: Event)
      requires Inv(State()) && EventOk(State(), e) && NoDuplicateStamp(State(), e)
      modifies this
      ensures State() == Handle(old(State()), e)
      ensures Inv(State()) && Grows(old(State()), State())
    {
      HandleKeeps(State(), e);
      hide Inv, Grows, NoDuplicateStamp, AdvanceCommitted, CheckPrepare, OnExecute, ExecuteDone, OnReplicate, ReplicateCb;
      hide OnFetchlog, FetchlogCb, Initiate, OnViewChange, PrepareCb, OnNewView, NewviewCb, OnInitView;
      match e
      case Execute(handle, req) => DoExecute(handle, req);
      case ExecDone(vs, reply) => DoExecuteDone(vs, reply);
      case Replicate(src, vs, arg, upto) => DoReplicate(src, vs, arg, upto);
      case Replicated(src, vs) => DoReplicateCb(src, vs);
      case Fetchlog(vs) => DoFetchlog(vs);
      case Fetched(i, vs, resp) => DoFetchlogCb(i, vs, resp);
      case StartAttempt(joiners) => DoInitiate(joiners);
      case VcRequest(src, xid, oldview, newvid) => DoViewChange(src, xid, oldview, newvid);
      case VcAnswered(xid, src, res) => DoPrepareCb(xid, src, res);
      case NvRequest(src, xid, nv) => DoNewView(src, xid, nv);
      case NvAnswered(xid, src, accepted) => DoNewviewCb(xid, src, accepted);
      case InitView(f) => DoInitView(f);
    }
  }

  lemma ExecStarts(s: Cohort)
    ensures AdvanceExecuted(s) == ExecFrom(s, VsNext(s.jumps, s.executed))
  {
  }

  lemma ExecStep(s: Cohort, vs: Viewstamp)
    requires vs in s.log && Le(vs, s.committed)
    ensures ExecFrom(s, vs) == ExecFrom(ExecOne(s, vs), VsNext(s.jumps, vs))
    ensures ExecOne(s, vs).jumps == s.jumps
    ensures Above(ExecOne(s, vs).log.Keys, VsNext(s.jumps, vs)) < Above(s.log.Keys, vs)
  {
    AboveDrops(s.log.Keys, vs, VsNext(s.jumps, vs));
    if s.log[vs].arg.Client? { ExecRequestFrame(s, vs); } else { ExecFormFrame(s, vs); }
    hide ExecRequest, ExecForm;
  }

  lemma ExecStops(s: Cohort, vs: Viewstamp)
    ensures !(Le(vs, s.committed) && vs in s.log) ==> ExecFrom(s, vs) == s
  {
  }

  /** What the loop of `advance_committed` does at one stamp. */
  lemma CommitStep(s: Cohort, vs: Viewstamp)
    requires Le(vs, s.latest)
    ensures vs !in s.log || s.log[vs].ack.None? ==> CommitFrom(s, vs) == s.(crashed := true)
    ensures vs in s.log && s.log[vs].ack.Some? ==>
              var ack := s.log[vs].ack.value;
              if Quorum.Majority(ack.received, ack.expected)
              then CommitFrom(s, vs) == CommitFrom(CommitOne(s, vs), VsNext(s.jumps, vs))
                   && CommitOne(s, vs).jumps == s.jumps && Above(CommitOne(s, vs).log.Keys, VsNext(s.jumps, vs)) < Above(s.log.Keys, vs)
              else CommitFrom(s, vs) == s
  {
    if vs in s.log {
      assert CommitOne(s, vs).log.Keys == s.log.Keys;
      AboveDrops(s.log.Keys, vs, VsNext(s.jumps, vs));
    }
  }

  lemma CommitStops(s: Cohort, vs: Viewstamp)
    ensures !Le(vs, s.latest) ==> CommitFrom(s, vs) == s
  {
  }

  /** What the loop of `replicate_cb` does at one stamp. */
  lemma AckStep(s: Cohort, from: Mid, vs: Viewstamp, upto: Viewstamp)
    requires Le(vs, upto)
    ensures vs !in s.log ==> AckFrom(s, from, vs, upto) == s.(crashed := true)
    ensures vs in s.log ==>
              var s1 := AckOne(s, from, vs);
              && AckFrom(s, from, vs, upto) == AckFrom(s1, from, VsNext(s.jumps, vs), upto)
              && s1.jumps == s.jumps && Above(s1.log.Keys, VsNext(s.jumps, vs)) < Above(s.log.Keys, vs)
  {
    if vs in s.log {
      assert AckOne(s, from, vs).log.Keys == s.log.Keys;
      AboveDrops(s.log.Keys, vs, VsNext(s.jumps, vs));
    }
  }

  lemma AckStops(s: Cohort, from: Mid, vs: Viewstamp, upto: Viewstamp)
    ensures !Le(vs, upto) ==> AckFrom(s, from, vs, upto) == s
  {
  }

  /** The stamps from base up to but excluding t that the log lacks. */
  ghost function Wanted(log: Log, vid: Viewid, base: nat, t: nat): set<Viewstamp> {
    set u: nat | base <= u < t && Viewstamp(vid, u) !in log :: Viewstamp(vid, u)
  }

  /** Having asked for these stamps. */
  ghost function Wanting(s: Cohort, i: nat, want: set<Viewstamp>): Cohort
    requires i < |s.pulls|
  {
    s.(pulls := s.pulls[i := s.pulls[i].(expected := s.pulls[i].expected + want)],
       sent := s.sent + set vs | vs in want :: FetchCall(s.self, s.pulls[i].src, i, vs))
  }

  ghost function Asked(s: Cohort, i: nat, vs: Viewstamp): Cohort
    requires i < |s.pulls|
  {
    s.(pulls := s.pulls[i := s.pulls[i].(expected := s.pulls[i].expected + {vs})],
       sent := s.sent + {FetchCall(s.self, s.pulls[i].src, i, vs)})
  }

  lemma WantedNone(s: Cohort, i: nat, vid: Viewid, base: nat)
    requires i < |s.pulls|
    ensures Wanting(s, i, Wanted(s.log, vid, base, base)) == s
  {
    var want, pl := Wanted(s.log, vid, base, base), s.pulls[i];
    assert want == {};
    assert pl.expected + want == pl.expected;
    assert s.pulls[i := pl] == s.pulls;
  }

  lemma WantedNext(s: Cohort, i: nat, vid: Viewid, base: nat, t: nat)
    requires i < |s.pulls| && base <= t
    ensures var vs, w := Viewstamp(vid, t), Wanting(s, i, Wanted(s.log, vid, base, t));
            && |w.pulls| == |s.pulls|
            && Wanting(s, i, Wanted(s.log, vid, base, t + 1)) == if vs in s.log then w else Asked(w, i, vs)
  {
    var vs, a, b := Viewstamp(vid, t), Wanted(s.log, vid, base, t), Wanted(s.log, vid, base, t + 1);
    assert b == if vs in s.log then a else a + {vs};
    hide Wanted;
    WantMore(s, i, a, vs);
  }

  lemma WantMore(s: Cohort, i: nat, want: set<Viewstamp>, vs: Viewstamp)
    requires i < |s.pulls|
    ensures |Wanting(s, i, want).pulls| == |s.pulls|
    ensures Wanting(s, i, want + {vs}) == Asked(Wanting(s, i, want), i, vs)
  {
    var pl := s.pulls[i];
    assert pl.expected + (want + {vs}) == pl.expected + want + {vs};
    assert (set x | x in want + {vs} :: FetchCall(s.self, pl.src, i, x))
        == (set x | x in want :: FetchCall(s.self, pl.src, i, x)) + {FetchCall(s.self, pl.src, i, vs)};
  }

  lemma WantedAll(s: Cohort, i: nat, upto: Viewstamp, base: nat, t: nat)
    requires i < |s.pulls| && FetchBase(s.executed, upto) == Some(base) && base <= t && upto.ts < t
    requires t <= upto.ts + 1 || t == base
    ensures Wanting(s, i, Wanted(s.log, upto.vid, base, t)) == PullUpto(s, i, upto)
  {
    assert Wanted(s.log, upto.vid, base, t) == Missing(s.log, s.executed, upto);
    hide Wanted, Missing;
  }

  lemma NothingWanted(s: Cohort, i: nat, upto: Viewstamp)
    requires i < |s.pulls| && FetchBase(s.executed, upto).None?
    ensures PullUpto(s, i, upto) == s
  {
    WantedNone(s, i, upto.vid, 0);
    assert Wanted(s.log, upto.vid, 0, 0) == {} == Missing(s.log, s.executed, upto);
  }

  lemma FirePulls(s: Cohort, done: DoneCb, good: bool)
    ensures Fire(s, done, good).pulls == s.pulls
  {
  }

  lemma InsertPulls(s: Cohort, vs: Viewstamp, e: Entry)
    requires WfSlot(vs, e.arg)
    ensures Insert(s, vs, e).pulls == s.pulls
  {
  }

  lemma InsertSide(s: Cohort, vs: Viewstamp, e: Entry)
    requires WfSlot(vs, e.arg)
    ensures var t := Insert(s, vs, e);
            t.view == s.view && t.committed == s.committed && t.cache == s.cache && t.sent == s.sent
  {
  }
}
