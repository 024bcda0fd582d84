/** What every handler of a cohort keeps, whatever messages arrive. */
module CohortInvariants {
  import opened Stamps
  import opened CohortSpec
  import Quorum

  /** Everything executed is committed, and the executed stamp lies in the installed view. */
  ghost predicate CursorsOk(s: Cohort) {
    && Le(s.executed, s.committed)
    && s.executed.vid == (if s.validView then s.view.vid else ZERO_VID)
  }

  /** The jump index is what recomputing it from the log would give: a stamp has a jump exactly
      when some logged formation has it as `prev`, and the jump is the greatest such formation. */
  ghost predicate JumpsMatch(log: Log, jumps: Jumps) {
    && (forall p :: p in jumps ==> jumps[p] in log && log[jumps[p]].arg.Form? && log[jumps[p]].arg.form.prev == p)
    && (forall k :: k in log && log[k].arg.Form? ==>
          log[k].arg.form.prev in jumps && Le(k, jumps[log[k].arg.form.prev]))
  }

  /** The log holds the executed part of the current view. */
  ghost predicate ExecutedHeld(s: Cohort) {
    forall t: nat :: t <= s.executed.ts && (t > 0 || s.validView) ==> Viewstamp(s.executed.vid, t) in s.log
  }

  /** Requests reach the state machine in strictly increasing stamp order, none beyond `executed`. */
  ghost predicate SubmittedInOrder(s: Cohort) {
    && (forall i, j :: 0 <= i < j < |s.submitted| ==> Lt(s.submitted[i].vs, s.submitted[j].vs))
    && (forall i :: 0 <= i < |s.submitted| ==> Le(s.submitted[i].vs, s.executed))
  }

  ghost predicate CacheOk(s: Cohort) {
    forall c :: c in s.cache ==> s.cache[c].rle in s.log
  }

  ghost predicate Inv(s: Cohort) {
    CursorsOk(s) && JumpsMatch(s.log, s.jumps) && ExecutedHeld(s) && SubmittedInOrder(s) && CacheOk(s)
  }

  ghost predicate LogGrows(l: Log, m: Log) {
    && l.Keys <= m.Keys
    && forall k :: k in l ==> m[k].arg == l[k].arg
  }

  /** What never goes back. `committed`, `proposedVid` and `latest` are not here: they can. */
  ghost predicate Grows(s: Cohort, t: Cohort) {
    && t.self == s.self
    && Le(s.executed, t.executed)
    && Le(VsNext(s.jumps, s.executed), VsNext(t.jumps, t.executed))
    && LogGrows(s.log, t.log)
    && s.sent <= t.sent
    && s.submitted <= t.submitted
    && (s.validView ==> t.validView && VidLe(s.view.vid, t.view.vid))
  }

  lemma GrowsTrans(s: Cohort, t: Cohort, u: Cohort)
    requires Grows(s, t) && Grows(t, u)
    ensures Grows(s, u)
  {
  }

  lemma GrowsRefl(s: Cohort)
    ensures Grows(s, s)
  {
  }

  /** A map has at most one entry per stamp. Runs in which a handler would log a second, different
      entry under an existing stamp are outside the model. */
  ghost predicate NoDuplicateStamp(s: Cohort, e: Event) {
    match e
    case Execute(_, req) => TakesRequest(s, req) ==> Succ(s.latest) !in s.log
    case InitView(f) => FormsView(s, f) && FormStamp(f) in s.log ==> s.log[FormStamp(f)].arg == Form(f)
    case _ => true
  }

  /** Two jump indexes that match the same log are equal. */
  lemma JumpsDetermined(log: Log, j1: Jumps, j2: Jumps)
    requires JumpsMatch(log, j1) && JumpsMatch(log, j2)
    ensures j1 == j2
  {
    forall p | p in j1 ensures p in j2 && j2[p] == j1[p] {
      assert log[j1[p]].arg.form.prev == p;
      assert log[j2[p]].arg.form.prev == p;
    }
    forall p | p in j2 ensures p in j1 {
      assert log[j2[p]].arg.form.prev == p;
    }
  }

  lemma InsertJumps(log: Log, jumps: Jumps, vs: Viewstamp, e: Entry)
    requires JumpsMatch(log, jumps) && WfSlot(vs, e.arg) && (vs in log ==> log[vs].arg == e.arg)
    ensures JumpsMatch(log[vs := e], JumpsUpdate(jumps, vs, e.arg))
    ensures forall p :: Le(VsNext(jumps, p), VsNext(JumpsUpdate(jumps, vs, e.arg), p))
  {
  }

  ghost predicate SameArgs(l: Log, m: Log) {
    m.Keys == l.Keys && forall k :: k in l ==> m[k].arg == l[k].arg
  }

  lemma SameArgsJumps(l: Log, m: Log, jumps: Jumps)
    requires JumpsMatch(l, jumps) && SameArgs(l, m)
    ensures JumpsMatch(m, jumps)
  {
  }

  lemma InsertKeeps(s: Cohort, vs: Viewstamp, e: Entry)
    requires Inv(s) && WfSlot(vs, e.arg)
    requires vs in s.log ==> s.log[vs].arg == e.arg
    ensures Inv(Insert(s, vs, e)) && Grows(s, Insert(s, vs, e))
  {
    hide JumpsMatch, JumpsUpdate;
    var t := Insert(s, vs, e);
    assert t.log.Keys == s.log.Keys + {vs};
    InsertJumps(s.log, s.jumps, vs, e);
  }

  // ---------------------------------------------------------------- the two advancing loops

  /** The next stamp to execute, if logged, either continues the view or starts a later one. */
  lemma NextIsSuccOrForm(s: Cohort)
    requires JumpsMatch(s.log, s.jumps) && VsNext(s.jumps, s.executed) in s.log
    ensures var n := VsNext(s.jumps, s.executed);
            if s.log[n].arg.Client? then n == Succ(s.executed)
            else n.ts == 0 && VidLt(s.executed.vid, n.vid) && s.log[n].arg.form.view.vid == n.vid
  {
    var n := VsNext(s.jumps, s.executed);
    assert WfSlot(n, s.log[n].arg);
  }

  lemma ExecRequestKeeps(s: Cohort, vs: Viewstamp)
    requires Inv(s) && vs == VsNext(s.jumps, s.executed) && vs in s.log && s.log[vs].arg.Client?
    requires Le(vs, s.committed)
    ensures Inv(ExecRequest(s, vs)) && Grows(s, ExecRequest(s, vs))
  {
    NextIsSuccOrForm(s);
    hide JumpsMatch;
    var t := ExecRequest(s, vs);
    assert t.log.Keys == s.log.Keys;
    SameArgsJumps(s.log, t.log, s.jumps);
  }

  lemma ExecFormKeeps(s: Cohort, vs: Viewstamp)
    requires Inv(s) && vs == VsNext(s.jumps, s.executed) && vs in s.log && s.log[vs].arg.Form?
    requires Le(vs, s.committed)
    ensures Inv(ExecForm(s, vs)) && Grows(s, ExecForm(s, vs))
  {
    NextIsSuccOrForm(s);
    hide JumpsMatch, Aborted;
    var t := ExecForm(s, vs);
    assert t.log.Keys == s.log.Keys;
    SameArgsJumps(s.log, t.log, s.jumps);
    assert ExecutedHeld(t) && CacheOk(t);
    assert Grows(s, t) by { hide ExecutedHeld, SubmittedInOrder, CacheOk; }
    hide LogGrows, ExecutedHeld, CacheOk;
  }

  lemma {:induction false} ExecFromKeeps(s: Cohort, vs: Viewstamp)
    requires Inv(s) && vs == VsNext(s.jumps, s.executed)
    ensures Inv(ExecFrom(s, vs)) && Grows(s, ExecFrom(s, vs))
    decreases Above(s.log.Keys, vs)
  {
    hide Inv, Grows;
    if Le(vs, s.committed) && vs in s.log {
      var s1, n := ExecOne(s, vs), VsNext(s.jumps, vs);
      if s.log[vs].arg.Client? { ExecRequestKeeps(s, vs); } else { ExecFormKeeps(s, vs); }
      if s.log[vs].arg.Client? { ExecRequestFrame(s, vs); } else { ExecFormFrame(s, vs); }
      hide ExecOne, ExecRequest, ExecForm;
      AboveDrops(s.log.Keys, vs, n);
      ExecFromKeeps(s1, n);
      GrowsTrans(s, s1, ExecFrom(s1, n));
    } else {
      GrowsRefl(s);
    }
  }

  lemma AdvanceExecutedKeeps(s: Cohort)
    requires Inv(s)
    ensures Inv(AdvanceExecuted(s)) && Grows(s, AdvanceExecuted(s))
  {
    ExecFromKeeps(s, VsNext(s.jumps, s.executed));
  }

  lemma FrameKeeps(s: Cohort, t: Cohort)
    requires Inv(s) && CommitFrame(s, t)
    ensures Inv(t) && Grows(s, t)
  {
    hide JumpsMatch;
    SameArgsJumps(s.log, t.log, s.jumps);
  }

  lemma AdvanceCommittedKeeps(s: Cohort)
    requires Inv(s)
    ensures Inv(AdvanceCommitted(s)) && Grows(s, AdvanceCommitted(s))
  {
    hide Inv, Grows, CommitFrame, CommitFrom, AdvanceExecuted;
    var n := VsNext(s.jumps, s.committed);
    var t := CommitFrom(s, n);
    CommitFromFrame(s, n);
    FrameKeeps(s, t);
    AdvanceExecutedKeeps(t);
    GrowsTrans(s, t, AdvanceExecuted(t));
  }

  lemma {:induction false} AckFromFrame(s: Cohort, from: Mid, vs: Viewstamp, upto: Viewstamp)
    ensures CommitFrame(s, AckFrom(s, from, vs, upto))
    decreases Above(s.log.Keys, vs)
  {
    if Le(vs, upto) && vs in s.log {
      var s1, n := AckOne(s, from, vs), VsNext(s.jumps, vs);
      assert s1.log.Keys == s.log.Keys && CommitFrame(s, s1);
      AboveDrops(s.log.Keys, vs, n);
      AckFromFrame(s1, from, n, upto);
      CommitFrameTrans(s, s1, AckFrom(s1, from, n, upto));
    }
  }

  // ---------------------------------------------------------------- the handlers

  lemma ReplicateCbKeeps(s: Cohort, from: Mid, vs: Viewstamp)
    requires Inv(s)
    ensures Inv(ReplicateCb(s, from, vs)) && Grows(s, ReplicateCb(s, from, vs))
  {
    hide Inv, Grows, CommitFrame, AckFrom, AdvanceCommitted, IsMember;
    GrowsRefl(s);
    CrashKeeps(s);
    var n := VsNext(s.jumps, s.committed);
    var t := AckFrom(s, from, n, vs);
    AckFromFrame(s, from, n, vs);
    FrameKeeps(s, t);
    AdvanceCommittedKeeps(t);
    GrowsTrans(s, t, AdvanceCommitted(t));
  }

  /** Bookkeeping that leaves the log and the cursors alone. */
  ghost predicate SideFrame(s: Cohort, t: Cohort) {
    && t.self == s.self && t.executed == s.executed && t.committed == s.committed
    && t.log == s.log && t.jumps == s.jumps && t.submitted == s.submitted && t.cache == s.cache
    && t.validView == s.validView && t.view == s.view && s.sent <= t.sent
  }

  lemma SideKeeps(s: Cohort, t: Cohort)
    requires Inv(s) && SideFrame(s, t)
    ensures Inv(t) && Grows(s, t)
  {
  }

  lemma CrashKeeps(s: Cohort)
    requires Inv(s)
    ensures Inv(s.(crashed := true)) && Grows(s, s.(crashed := true))
  {
  }

  lemma PullUptoFrame(s: Cohort, i: nat, latest: Viewstamp)
    requires i < |s.pulls|
    ensures SideFrame(s, PullUpto(s, i, latest)) && |PullUpto(s, i, latest).pulls| == |s.pulls|
  {
  }

  lemma StepBackFrame(s: Cohort, i: nat)
    requires i < |s.pulls|
    ensures SideFrame(s, StepBack(s, i))
    ensures |StepBack(s, i).pulls| == |s.pulls|
  {
    hide PullUpto;
    var pl := s.pulls[i];
    var xs := Viewstamp(pl.bottomview, 0);
    if VidLt(VsNext(s.jumps, s.executed).vid, pl.bottomview) && xs in s.log {
      var prev := s.log[xs].arg.form.prev;
      PullUptoFrame(s.(pulls := s.pulls[i := pl.(bottomview := prev.vid)]), i, prev);
    }
  }

  lemma FireFrame(s: Cohort, done: DoneCb, good: bool)
    ensures SideFrame(s, Fire(s, done, good))
  {
  }

  lemma SettleFrame(s: Cohort, i: nat)
    requires i < |s.pulls|
    ensures SideFrame(s, Settle(s, i))
  {
    hide Fire;
    var pl := s.pulls[i];
    FireFrame(s, pl.done, pl.ok && pl.bottomdone);
  }

  lemma FetchlogCheckKeeps(s: Cohort, i: nat)
    requires Inv(s) && i < |s.pulls|
    ensures Inv(FetchlogCheck(s, i)) && Grows(s, FetchlogCheck(s, i))
  {
    hide Inv, Grows, SideFrame, AdvanceCommitted, StepBack, Settle;
    var s1 := AdvanceCommitted(s);
    AdvanceCommittedKeeps(s);
    AdvanceCommittedKeepsPulls(s);
    StepBackFrame(s1, i);
    var s2 := StepBack(s1, i);
    SettleFrame(s2, i);
    SideKeeps(s1, s2);
    SideKeeps(s2, Settle(s2, i));
    GrowsTrans(s, s1, s2);
    GrowsTrans(s, s2, Settle(s2, i));
  }

  lemma NoteFetchedKeeps(s: Cohort, i: nat, vs: Viewstamp, resp: Option<Arg>)
    requires Inv(s) && i < |s.pulls| && (resp.Some? ==> WfSlot(vs, resp.value))
    ensures Inv(NoteFetched(s, i, vs, resp)) && Grows(s, NoteFetched(s, i, vs, resp))
  {
    hide Inv, Grows;
    var t := NoteFetched(s, i, vs, resp);
    if vs !in s.log && resp.Some? {
      var s1 := Insert(s, vs, Entry(resp.value, None, None, Logged));
      InsertKeeps(s, vs, Entry(resp.value, None, None, Logged));
      SideKeeps(s1, t);
      GrowsTrans(s, s1, t);
    } else {
      SideKeeps(s, t);
    }
  }

  lemma FetchlogCbKeeps(s: Cohort, i: nat, vs: Viewstamp, resp: Option<Arg>)
    requires Inv(s) && i < |s.pulls| && (resp.Some? ==> WfSlot(vs, resp.value))
    ensures Inv(FetchlogCb(s, i, vs, resp)) && Grows(s, FetchlogCb(s, i, vs, resp))
  {
    hide Inv, Grows, FetchlogCheck, NoteFetched;
    var t := NoteFetched(s, i, vs, resp);
    NoteFetchedKeeps(s, i, vs, resp);
    FetchlogCheckKeeps(t, i);
    GrowsTrans(s, t, FetchlogCheck(t, i));
  }

  lemma OpenPullFrame(s: Cohort, src: Mid, latest: Viewstamp, done: DoneCb)
    ensures SideFrame(s, OpenPull(s, src, latest, done))
  {
    hide PullUpto;
    var pl := Pull(latest, src, {}, {}, latest.vid, true, false, done);
    PullUptoFrame(s.(pulls := s.pulls + [pl]), |s.pulls|, latest);
  }

  lemma PullLogKeeps(s: Cohort, src: Mid, latest: Viewstamp, done: DoneCb)
    requires Inv(s)
    ensures Inv(PullLog(s, src, latest, done)) && Grows(s, PullLog(s, src, latest, done))
  {
    hide Inv, Grows, FetchlogCheck, OpenPull, SideFrame;
    var t := OpenPull(s, src, latest, done);
    OpenPullFrame(s, src, latest, done);
    SideKeeps(s, t);
    FetchlogCheckKeeps(t, |s.pulls|);
    GrowsTrans(s, t, FetchlogCheck(t, |s.pulls|));
  }

  lemma StoreEntryKeeps(s: Cohort, vs: Viewstamp, arg: Arg, committed: Viewstamp)
    requires Inv(s) && WfSlot(vs, arg)
    ensures var t := RaiseCommitted(StoreEntry(s, vs, arg), committed); Inv(t) && Grows(s, t)
  {
    hide Inv, Grows, Insert;
    GrowsRefl(s);
    var t := StoreEntry(s, vs, arg);
    if Lt(s.committed, vs) && vs !in s.log { InsertKeeps(s, vs, Entry(arg, None, None, Logged)); }
    var u := RaiseCommitted(t, committed);
    assert CommitFrame(t, u);
    FrameKeeps(t, u);
    GrowsTrans(s, t, u);
  }

  lemma StoreReplicateKeeps(s: Cohort, vs: Viewstamp, arg: Arg, committed: Viewstamp)
    requires Inv(s) && WfSlot(vs, arg)
    ensures Inv(StoreReplicate(s, vs, arg, committed)) && Grows(s, StoreReplicate(s, vs, arg, committed))
  {
    hide Inv, Grows, AdvanceExecuted, StoreEntry, RaiseCommitted;
    var t := RaiseCommitted(StoreEntry(s, vs, arg), committed);
    StoreEntryKeeps(s, vs, arg, committed);
    AdvanceExecutedKeeps(t);
    GrowsTrans(s, t, AdvanceExecuted(t));
  }

  lemma OnReplicateKeeps(s: Cohort, src: Mid, vs: Viewstamp, arg: Arg, committed: Viewstamp)
    requires Inv(s) && WfSlot(vs, arg)
    ensures Inv(OnReplicate(s, src, vs, arg, committed)) && Grows(s, OnReplicate(s, src, vs, arg, committed))
  {
    hide Inv, Grows, StoreReplicate, PullLog;
    GrowsRefl(s);
    if !RefusesReplicate(s, vs) {
      StoreReplicateKeeps(s, vs, arg, committed);
      var s1 := StoreReplicate(s, vs, arg, committed);
      var primary := if vs.ts != 0 then s.view.primary else arg.form.view.primary;
      PullLogKeeps(s1, primary, vs, AckReplicate(src, vs));
      GrowsTrans(s, s1, PullLog(s1, primary, vs, AckReplicate(src, vs)));
    }
  }

  lemma CacheKeeps(s: Cohort, c: Mid, e: CacheEntry)
    requires Inv(s) && e.rle in s.log
    ensures Inv(s.(cache := s.cache[c := e])) && Grows(s, s.(cache := s.cache[c := e]))
  {
  }

  lemma LogRequestKeeps(s: Cohort, handle: nat, req: Request)
    requires Inv(s) && Succ(s.latest) !in s.log
    ensures Inv(LogRequest(s, handle, req)) && Grows(s, LogRequest(s, handle, req))
  {
    hide Inv, Grows, JumpsUpdate, PrimaryEntry;
    var vs, t := Succ(s.latest), LogRequest(s, handle, req);
    assert PrimaryEntry(s, handle, req).arg == Client(req) by { PrimaryEntryArg(s, handle, req); }
    var s1 := Insert(s, vs, PrimaryEntry(s, handle, req));
    InsertKeeps(s, vs, PrimaryEntry(s, handle, req));
    var s2 := s1.(cache := t.cache);
    CacheKeeps(s1, req.client, t.cache[req.client]);
    SideKeeps(s2, t);
    GrowsTrans(s, s1, s2);
    GrowsTrans(s, s2, t);
  }

  lemma PrimaryEntryArg(s: Cohort, handle: nat, req: Request)
    ensures PrimaryEntry(s, handle, req).arg == Client(req)
  {
  }

  /** Changing only the client handle or the state of one entry. */
  lemma TouchKeeps(s: Cohort, k: Viewstamp, e: Entry)
    requires Inv(s) && k in s.log && e.arg == s.log[k].arg
    ensures Inv(s.(log := s.log[k := e])) && Grows(s, s.(log := s.log[k := e]))
  {
    hide JumpsMatch;
    var t := s.(log := s.log[k := e]);
    assert t.log.Keys == s.log.Keys;
    SameArgsJumps(s.log, t.log, s.jumps);
  }

  lemma ParkKeeps(s: Cohort, req: Request, handle: Option<nat>)
    requires Inv(s)
    ensures Inv(Park(s, req, handle)) && Grows(s, Park(s, req, handle))
    ensures Park(s, req, handle).log.Keys == s.log.Keys && Park(s, req, handle).latest == s.latest
  {
    hide Inv, Grows;
    GrowsRefl(s);
    var hit := Cached(s, req.client, req.rid);
    if hit.Some? {
      TouchKeeps(s, s.cache[req.client].rle, hit.value.(sbp := handle));
    }
  }

  lemma ReplyKeeps(s: Cohort, handle: nat, res: ExecRes)
    requires Inv(s)
    ensures Inv(Reply(s, handle, res)) && Grows(s, Reply(s, handle, res))
  {
    hide Inv, Grows;
    SideKeeps(s, Reply(s, handle, res));
  }

  lemma OnExecuteKeeps(s: Cohort, handle: nat, req: Request)
    requires Inv(s) && (TakesRequest(s, req) ==> Succ(s.latest) !in s.log)
    ensures Inv(OnExecute(s, handle, req)) && Grows(s, OnExecute(s, handle, req))
  {
    hide Inv, Grows, LogRequest, Park, AdvanceCommitted, Stale, Reply;
    var t := OnExecute(s, handle, req);
    var hit := Cached(s, req.client, req.rid);
    var s1 := Park(s, req, None);
    ParkKeeps(s, req, None);
    ParkKeeps(s, req, Some(handle));
    if s.mode != Active {
      GrowsRefl(s);
    } else if hit.Some? && hit.value.state == Executed {
      ReplyKeeps(s, handle, Ok(s.cache[req.client].reply));
    } else if hit.Some? && !Stale(s, req.client, hit.value) {
    } else if req.vid != s.view.vid || s.self != s.view.primary {
      ReplyKeeps(s1, handle, Redirect(s.view.vid, s.view.primary));
      GrowsTrans(s, s1, t);
    } else {
      var s2 := LogRequest(s1, handle, req);
      LogRequestKeeps(s1, handle, req);
      AdvanceCommittedKeeps(s2);
      GrowsTrans(s, s1, s2);
      GrowsTrans(s, s2, t);
    }
  }

  lemma FinishEntryKeeps(s: Cohort, vs: Viewstamp, reply: string)
    requires Inv(s) && vs in s.log && s.log[vs].arg.Client?
    ensures Inv(FinishEntry(s, vs, reply)) && Grows(s, FinishEntry(s, vs, reply))
  {
    hide Inv, Grows;
    var e := s.log[vs];
    var e1, c := e.(state := Executed, sbp := None), e.arg.req.client;
    var s1 := s.(log := s.log[vs := e1]);
    TouchKeeps(s, vs, e1);
    CacheKeeps(s1, c, CacheEntry(e.arg.req.rid, vs, reply));
    assert FinishEntry(s, vs, reply) == s1.(cache := s1.cache[c := CacheEntry(e.arg.req.rid, vs, reply)]);
    GrowsTrans(s, s1, FinishEntry(s, vs, reply));
  }

  lemma ExecuteDoneKeeps(s: Cohort, vs: Viewstamp, reply: string)
    requires Inv(s) && vs in s.log && s.log[vs].arg.Client?
    ensures Inv(ExecuteDone(s, vs, reply)) && Grows(s, ExecuteDone(s, vs, reply))
  {
    hide Inv, Grows, FinishEntry, Reply;
    var s1 := FinishEntry(s, vs, reply);
    FinishEntryKeeps(s, vs, reply);
    if s.log[vs].sbp.Some? {
      ReplyKeeps(s1, s.log[vs].sbp.value, Ok(reply));
      GrowsTrans(s, s1, ExecuteDone(s, vs, reply));
    }
  }

  /** Moving `latest` and `committed` anywhere not below `executed`. */
  lemma CursorKeeps(s: Cohort, vs: Viewstamp)
    requires Inv(s) && Le(s.executed, vs)
    ensures var t := s.(latest := vs, committed := vs); Inv(t) && Grows(s, t)
  {
  }

  lemma LogFormationKeeps(s: Cohort, f: Formation)
    requires Inv(s) && FormsView(s, f)
    requires FormStamp(f) in s.log ==> s.log[FormStamp(f)].arg == Form(f)
    ensures Inv(LogFormation(s, f)) && Grows(s, LogFormation(s, f))
  {
    hide Grows, Insert, JumpsMatch, ExecutedHeld, SubmittedInOrder, CacheOk;
    var vs := FormStamp(f);
    var e := Entry(Form(f), None, None, Logged);
    var s1 := Insert(s, vs, e);
    InsertKeeps(s, vs, e);
    InsertCursors(s, vs, e);
    CursorKeeps(s1, vs);
    GrowsTrans(s, s1, LogFormation(s, f));
  }

  lemma InsertCursors(s: Cohort, vs: Viewstamp, e: Entry)
    requires WfSlot(vs, e.arg)
    ensures Insert(s, vs, e).executed == s.executed
  {
  }

  lemma FormViewKeeps(s: Cohort, f: Formation)
    requires Inv(s) && FormsView(s, f)
    requires FormStamp(f) in s.log ==> s.log[FormStamp(f)].arg == Form(f)
    ensures Inv(FormView(s, f)) && Grows(s, FormView(s, f))
  {
    hide Inv, Grows, AdvanceCommitted, LogFormation;
    if f.view.primary != s.self {
      CrashKeeps(s);
    } else {
      var s1 := LogFormation(s, f);
      LogFormationKeeps(s, f);
      AdvanceCommittedKeeps(s1);
      var s2 := AdvanceCommitted(s1);
      SideKeeps(s2, FormView(s, f));
      GrowsTrans(s, s1, s2);
      GrowsTrans(s, s2, FormView(s, f));
    }
  }

  /** What the manager's side of a view change may touch. */
  ghost predicate ManagerFrame(s: Cohort, t: Cohort) {
    && t == s.(attempt := t.attempt, sent := t.sent, crashed := t.crashed, proposedVid := t.proposedVid)
    && s.sent <= t.sent
    && VidLe(s.proposedVid, t.proposedVid)
  }

  lemma ManagerTrans(s: Cohort, t: Cohort, u: Cohort)
    requires ManagerFrame(s, t) && ManagerFrame(t, u)
    ensures ManagerFrame(s, u)
  {
  }

  lemma ExtendFrame(s: Cohort)
    requires s.attempt.Some? && s.attempt.value.newview.Some?
    ensures ManagerFrame(s, Extend(s))
  {
  }

  /** Once extended, the attempt covers the reported view, so the check does not extend again. */
  lemma ExtendMerges(s: Cohort)
    requires s.attempt.Some? && s.attempt.value.newview.Some?
    ensures Extend(s).attempt.Some?
    ensures Extend(s).attempt.value.newview == s.attempt.value.newview
    ensures Extend(s).attempt.value.mergedVid == s.attempt.value.newview.value.vid
  {
  }

  lemma IssueFrame(s: Cohort)
    requires s.attempt.Some?
    ensures ManagerFrame(s, s) && ManagerFrame(s, AbortAttempt(s)) && ManagerFrame(s, ChooseAndIssue(s))
  {
    hide Choose;
  }

  lemma {:induction false} CheckPrepareFrame(s: Cohort)
    requires s.attempt.Some?
    ensures ManagerFrame(s, CheckPrepare(s))
    decreases s.attempt.value.newview.Some? && VidLt(s.attempt.value.mergedVid, s.attempt.value.newview.value.vid)
  {
    hide ManagerFrame, Quorum.Majority, Extend, ChooseAndIssue, Mids, Aborted;
    IssueFrame(s);
    if s.attempt.value.newview.Some? {
      ExtendFrame(s);
      if VidLt(s.attempt.value.mergedVid, s.attempt.value.newview.value.vid) {
        ExtendMerges(s);
        CheckPrepareFrame(Extend(s));
        ManagerTrans(s, Extend(s), CheckPrepare(Extend(s)));
      }
    }
  }

  lemma PrepareCbFrame(s: Cohort, xid: nat, from: Mid, res: Option<VcAnswer>)
    ensures ManagerFrame(s, PrepareCb(s, xid, from, res))
  {
    hide NoteAnswer, CheckPrepare;
    if s.attempt.Some? {
      var t := NotePrepare(s, from, res);
      assert ManagerFrame(s, t);
      CheckPrepareFrame(t);
      hide ManagerFrame, NotePrepare;
      ManagerTrans(s, t, CheckPrepare(t));
    }
  }

  lemma InitiateFrame(s: Cohort, joiners: seq<Mid>)
    ensures SideFrame(s, Initiate(s, joiners))
  {
  }

  lemma OnViewChangeFrame(s: Cohort, src: Mid, xid: nat, oldview: View, newvid: Viewid)
    ensures SideFrame(s, OnViewChange(s, src, xid, oldview, newvid))
  {
    hide MyReport, AbortOther, RefusesVc;
  }

  lemma NewviewCbFrame(s: Cohort, xid: nat, from: Mid, accepted: Option<bool>)
    ensures ManagerFrame(s, NewviewCb(s, xid, from, accepted))
  {
    hide NewviewPasses, NoteNv;
  }

  lemma OnNewViewKeeps(s: Cohort, src: Mid, xid: nat, nv: NvArg)
    requires Inv(s)
    ensures Inv(OnNewView(s, src, xid, nv)) && Grows(s, OnNewView(s, src, xid, nv))
  {
    hide Inv, Grows, PullLog, RefusesNv;
    if RefusesNv(s, nv.view.vid) {
      SideKeeps(s, OnNewView(s, src, xid, nv));
    } else {
      var s1 := AdoptNewView(s, nv.view);
      SideKeeps(s, s1);
      PullLogKeeps(s1, nv.view.primary, nv.latest, AnswerNewView(src, xid, nv.view.vid));
      GrowsTrans(s, s1, OnNewView(s, src, xid, nv));
    }
  }

  lemma FetchlogFrame(s: Cohort, vs: Viewstamp)
    ensures SideFrame(s, OnFetchlog(s, vs))
  {
  }

  lemma ManagerKeeps(s: Cohort, t: Cohort)
    requires Inv(s) && ManagerFrame(s, t)
    ensures Inv(t) && Grows(s, t)
  {
    hide Inv, Grows;
    SideKeeps(s, t);
  }

  /** Every handler keeps the invariant, and nothing it guards ever goes back. */
  lemma HandleKeeps(s: Cohort, e: Event)
    requires Inv(s) && EventOk(s, e) && NoDuplicateStamp(s, e)
    ensures Inv(Handle(s, e)) && Grows(s, Handle(s, e))
  {
    hide Inv, Grows, OnExecute, ExecuteDone, OnReplicate, ReplicateCb, FetchlogCb, FormView, Initiate, OnViewChange;
    hide PrepareCb, OnNewView, NewviewCb, OnFetchlog, SideFrame, ManagerFrame, TakesRequest;
    match e
    case Execute(handle, req) => OnExecuteKeeps(s, handle, req);
    case ExecDone(vs, reply) => ExecuteDoneKeeps(s, vs, reply);
    case Replicate(src, vs, arg, committed) => OnReplicateKeeps(s, src, vs, arg, committed);
    case Replicated(src, vs) => ReplicateCbKeeps(s, src, vs);
    case Fetchlog(vs) => FetchlogFrame(s, vs); SideKeeps(s, OnFetchlog(s, vs));
    case Fetched(i, vs, resp) => FetchlogCbKeeps(s, i, vs, resp);
    case StartAttempt(joiners) => InitiateFrame(s, joiners); SideKeeps(s, Initiate(s, joiners));
    case VcRequest(src, xid, oldview, newvid) =>
      OnViewChangeFrame(s, src, xid, oldview, newvid);
      SideKeeps(s, OnViewChange(s, src, xid, oldview, newvid));
    case VcAnswered(xid, src, res) => PrepareCbFrame(s, xid, src, res); ManagerKeeps(s, PrepareCb(s, xid, src, res));
    case NvRequest(src, xid, nv) => OnNewViewKeeps(s, src, xid, nv);
    case NvAnswered(xid, src, accepted) => NewviewCbFrame(s, xid, src, accepted); ManagerKeeps(s, NewviewCb(s, xid, src, accepted));
    case InitView(f) =>
      GrowsRefl(s);
      if FormsView(s, f) { FormViewKeeps(s, f); }
  }
}
