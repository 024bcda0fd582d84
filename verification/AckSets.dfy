/** What handlers do to the acknowledgement sets of client entries. */
module AckSets {
  import opened Stamps
  import opened CohortSpec
  import opened CohortInvariants
  import opened Traffic
  import opened Quorum

  /** No acknowledgement is added, and one set is dropped only because a majority was in it. */
  ghost predicate AcksKept(s: Cohort, t: Cohort) {
    && t.self == s.self && LogGrows(s.log, t.log)
    && (forall k :: k in t.log && t.log[k].ack.Some? ==> k in s.log && t.log[k].ack == s.log[k].ack)
    && (forall k :: k in s.log && s.log[k].arg.Client? && s.log[k].ack.Some? && t.log[k].ack.None? ==>
          Majority(s.log[k].ack.value.received, s.log[k].ack.value.expected))
  }

  lemma KeptTrans(s: Cohort, t: Cohort, u: Cohort)
    requires AcksKept(s, t) && AcksKept(t, u)
    ensures AcksKept(s, u)
  {
    hide Majority;
  }

  lemma KeptRefl(s: Cohort)
    ensures AcksKept(s, s)
  {
  }

  lemma SideKept(s: Cohort, t: Cohort)
    requires SideFrame(s, t)
    ensures AcksKept(s, t)
  {
  }

  /** Changing one entry but neither its payload nor its acknowledgement set. */
  lemma EntryKept(s: Cohort, vs: Viewstamp, e: Entry)
    requires vs in s.log && e.arg == s.log[vs].arg && e.ack == s.log[vs].ack
    ensures AcksKept(s, s.(log := s.log[vs := e]))
  {
  }

  lemma InsertKept(s: Cohort, vs: Viewstamp, arg: Arg)
    requires WfSlot(vs, arg) && (vs in s.log ==> arg.Form? && s.log[vs].arg == arg)
    ensures AcksKept(s, Insert(s, vs, Entry(arg, None, None, Logged)))
  {
    hide JumpsUpdate;
  }

  lemma ExecOneKept(s: Cohort, vs: Viewstamp)
    requires vs in s.log
    ensures AcksKept(s, ExecOne(s, vs))
  {
    EntryKept(s, vs, s.log[vs].(state := Executing));
    ExecOneLog(s, vs);
    hide ExecOne;
  }

  lemma ExecOneLog(s: Cohort, vs: Viewstamp)
    requires vs in s.log
    ensures ExecOne(s, vs).log == s.log[vs := s.log[vs].(state := Executing)] && ExecOne(s, vs).self == s.self
    ensures ExecOne(s, vs).jumps == s.jumps && ExecOne(s, vs).latest == s.latest
  {
    if s.log[vs].arg.Client? { hide ExecForm; } else { hide ExecRequest, Aborted; }
  }

  lemma {:induction false} ExecFromKept(s: Cohort, vs: Viewstamp)
    ensures AcksKept(s, ExecFrom(s, vs))
    decreases Above(s.log.Keys, vs)
  {
    KeptRefl(s);
    if Le(vs, s.committed) && vs in s.log {
      var s1, n := ExecOne(s, vs), VsNext(s.jumps, vs);
      ExecOneKept(s, vs);
      ExecOneLog(s, vs);
      AboveDrops(s.log.Keys, vs, n);
      hide ExecOne, AcksKept;
      assert s1.log.Keys == s.log.Keys;
      ExecFromKept(s1, n);
      KeptTrans(s, s1, ExecFrom(s1, n));
    }
  }

  lemma CommitOneKept(s: Cohort, vs: Viewstamp)
    requires vs in s.log && s.log[vs].ack.Some?
    requires Majority(s.log[vs].ack.value.received, s.log[vs].ack.value.expected)
    ensures AcksKept(s, CommitOne(s, vs))
  {
  }

  lemma {:induction false} CommitFromKept(s: Cohort, vs: Viewstamp)
    ensures AcksKept(s, CommitFrom(s, vs))
    decreases Above(s.log.Keys, vs)
  {
    KeptRefl(s);
    SideKept(s, s.(crashed := true));
    hide AcksKept, Majority;
    if Le(vs, s.latest) && vs in s.log && s.log[vs].ack.Some?
       && Majority(s.log[vs].ack.value.received, s.log[vs].ack.value.expected) {
      var s1, n := CommitOne(s, vs), VsNext(s.jumps, vs);
      CommitOneKept(s, vs);
      CommitFromStep(s, vs);
      AboveDrops(s.log.Keys, vs, n);
      assert s1.log.Keys == s.log.Keys;
      CommitFromKept(s1, n);
      KeptTrans(s, s1, CommitFrom(s1, n));
    }
  }

  lemma AdvanceExecutedKept(s: Cohort)
    ensures AcksKept(s, AdvanceExecuted(s)) && AdvanceExecuted(s).latest == s.latest
  {
    ExecFromKept(s, VsNext(s.jumps, s.executed));
    ExecFromFrame(s, VsNext(s.jumps, s.executed));
  }

  lemma AdvanceCommittedKept(s: Cohort)
    ensures AcksKept(s, AdvanceCommitted(s)) && AdvanceCommitted(s).latest == s.latest
  {
    hide AcksKept, CommitFrom, AdvanceExecuted;
    var n := VsNext(s.jumps, s.committed);
    CommitFromKept(s, n);
    CommitFromFrame(s, n);
    AdvanceExecutedKept(CommitFrom(s, n));
    KeptTrans(s, CommitFrom(s, n), AdvanceCommitted(s));
  }

  // ---------------------------------------------------------------- handlers

  lemma FetchlogCheckKept(s: Cohort, i: nat)
    requires i < |s.pulls|
    ensures AcksKept(s, FetchlogCheck(s, i)) && FetchlogCheck(s, i).latest == s.latest
  {
    hide AcksKept, AdvanceCommitted, StepBack, Settle, SideFrame;
    var s1 := AdvanceCommitted(s);
    AdvanceCommittedKept(s);
    AdvanceCommittedKeepsPulls(s);
    var s2 := StepBack(s1, i);
    StepBackFrame(s1, i);
    SideKept(s1, s2);
    PullLatest(s1, i);
    SettleFrame(s2, i);
    SideKept(s2, Settle(s2, i));
    PullLatest(s2, i);
    KeptTrans(s, s1, s2);
    KeptTrans(s, s2, Settle(s2, i));
  }

  lemma PullLatest(s: Cohort, i: nat)
    requires i < |s.pulls|
    ensures StepBack(s, i).latest == s.latest && Settle(s, i).latest == s.latest
  {
    hide Missing;
  }

  lemma FetchlogCbKept(s: Cohort, i: nat, vs: Viewstamp, resp: Option<Arg>)
    requires i < |s.pulls| && (resp.Some? ==> WfSlot(vs, resp.value))
    ensures AcksKept(s, FetchlogCb(s, i, vs, resp)) && FetchlogCb(s, i, vs, resp).latest == s.latest
  {
    hide AcksKept, FetchlogCheck, Insert;
    var t := NoteFetched(s, i, vs, resp);
    if vs !in s.log && resp.Some? {
      var u := Insert(s, vs, Entry(resp.value, None, None, Logged));
      InsertKept(s, vs, resp.value);
      InsertLatest(s, vs, Entry(resp.value, None, None, Logged));
      SideKept(u, t);
      KeptTrans(s, u, t);
    } else {
      SideKept(s, t);
    }
    hide NoteFetched;
    FetchlogCheckKept(t, i);
    KeptTrans(s, t, FetchlogCheck(t, i));
  }

  lemma InsertLatest(s: Cohort, vs: Viewstamp, e: Entry)
    requires WfSlot(vs, e.arg)
    ensures Insert(s, vs, e).latest == s.latest
  {
  }

  lemma PullLogKept(s: Cohort, src: Mid, latest: Viewstamp, done: DoneCb)
    ensures AcksKept(s, PullLog(s, src, latest, done)) && PullLog(s, src, latest, done).latest == s.latest
  {
    hide AcksKept, FetchlogCheck, SideFrame, Missing;
    var o, i := OpenPull(s, src, latest, done), |s.pulls|;
    OpenPullFrame(s, src, latest, done);
    SideKept(s, o);
    assert o.latest == s.latest;
    hide OpenPull;
    FetchlogCheckKept(o, i);
    KeptTrans(s, o, FetchlogCheck(o, i));
  }

  lemma OnReplicateKept(s: Cohort, src: Mid, vs: Viewstamp, arg: Arg, committed: Viewstamp)
    requires WfSlot(vs, arg)
    ensures var t := OnReplicate(s, src, vs, arg, committed); AcksKept(s, t) && t.latest == s.latest
  {
    KeptRefl(s);
    hide AcksKept, PullLog, Insert, AdvanceExecuted;
    if !RefusesReplicate(s, vs) {
      var t, u := StoreEntry(s, vs, arg), RaiseCommitted(StoreEntry(s, vs, arg), committed);
      if vs !in s.log {
        InsertKept(s, vs, arg);
        InsertLatest(s, vs, Entry(arg, None, None, Logged));
      }
      RaiseKept(t, committed);
      KeptTrans(s, t, u);
      assert u.latest == s.latest;
      hide RaiseCommitted, StoreEntry;
      AdvanceExecutedKept(u);
      var w := AdvanceExecuted(u);
      KeptTrans(s, u, w);
      var primary := if vs.ts != 0 then s.view.primary else arg.form.view.primary;
      PullLogKept(w, primary, vs, AckReplicate(src, vs));
      KeptTrans(s, w, PullLog(w, primary, vs, AckReplicate(src, vs)));
    }
  }

  lemma RaiseKept(s: Cohort, committed: Viewstamp)
    ensures AcksKept(s, RaiseCommitted(s, committed))
  {
  }

  lemma OnNewViewKept(s: Cohort, src: Mid, xid: nat, nv: NvArg)
    ensures AcksKept(s, OnNewView(s, src, xid, nv)) && OnNewView(s, src, xid, nv).latest == s.latest
  {
    hide AcksKept, PullLog, RefusesNv, AbortOther;
    if RefusesNv(s, nv.view.vid) {
      SideKept(s, OnNewView(s, src, xid, nv));
    } else {
      var u := AdoptNewView(s, nv.view);
      SideKept(s, u);
      PullLogKept(u, nv.view.primary, nv.latest, AnswerNewView(src, xid, nv.view.vid));
      KeptTrans(s, u, OnNewView(s, src, xid, nv));
    }
  }

  lemma FormViewKept(s: Cohort, f: Formation)
    requires FormStamp(f) in s.log ==> s.log[FormStamp(f)].arg == Form(f)
    ensures var t := FormView(s, f);
            AcksKept(s, t) && t.latest == if f.view.primary == s.self then FormStamp(f) else s.latest
  {
    hide AcksKept, AdvanceCommitted, Insert;
    if f.view.primary != s.self {
      SideKept(s, s.(crashed := true));
    } else {
      var vs := FormStamp(f);
      var s1, s2 := Insert(s, vs, Entry(Form(f), None, None, Logged)), LogFormation(s, f);
      InsertKept(s, vs, Form(f));
      CursorKept(s1, vs);
      KeptTrans(s, s1, s2);
      assert s2.latest == vs;
      hide LogFormation;
      AdvanceCommittedKept(s2);
      var s3 := AdvanceCommitted(s2);
      KeptTrans(s, s2, s3);
      SideKept(s3, FormView(s, f));
      KeptTrans(s, s3, FormView(s, f));
    }
  }

  lemma CursorKept(s: Cohort, vs: Viewstamp)
    ensures AcksKept(s, s.(latest := vs, committed := vs))
  {
  }

  lemma ParkKept(s: Cohort, req: Request, handle: Option<nat>)
    ensures AcksKept(s, Park(s, req, handle)) && Park(s, req, handle).latest == s.latest
  {
    KeptRefl(s);
    var hit := Cached(s, req.client, req.rid);
    if hit.Some? { EntryKept(s, s.cache[req.client].rle, hit.value.(sbp := handle)); }
    hide AcksKept;
  }

  lemma FinishKept(s: Cohort, vs: Viewstamp, reply: string)
    requires vs in s.log && s.log[vs].arg.Client?
    ensures AcksKept(s, ExecuteDone(s, vs, reply)) && ExecuteDone(s, vs, reply).latest == s.latest
  {
    var e := s.log[vs].(state := Executed, sbp := None);
    EntryKept(s, vs, e);
    var t := ExecuteDone(s, vs, reply);
    assert t.log == s.log[vs := e] && t.self == s.self;
    hide ExecuteDone;
  }

  lemma ReplyKept(s: Cohort, handle: nat, res: ExecRes)
    ensures AcksKept(s, Reply(s, handle, res)) && Reply(s, handle, res).latest == s.latest
  {
  }

  /** The set a primary waits for: itself and the backups of its view. */
  function Everyone(s: Cohort): set<Mid> {
    {s.self} + set b | b in s.view.backups
  }

  /** A request that is taken gets the next stamp, acknowledged by this cohort alone; if it is committed
      in the same step this cohort was a majority by itself. */
  lemma TakeAcks(s: Cohort, handle: nat, req: Request)
    requires TakesRequest(s, req) && Succ(s.latest) !in s.log
    ensures var t, k := OnExecute(s, handle, req), Succ(s.latest);
            && LogGrows(s.log, t.log) && t.latest == k && k in t.log && t.log[k].arg == Client(req) && t.self == s.self
            && (t.log[k].ack.Some? ==> t.log[k].ack.value == AckSet({s.self}, Everyone(s)))
            && (t.log[k].ack.None? ==> Majority({s.self}, Everyone(s)))
            && AcksKeptBut(s, t, k)
  {
    hide AcksKept, AdvanceCommitted, Park, Majority, Stale;
    var s1, k := Park(s, req, None), Succ(s.latest);
    ParkKept(s, req, None);
    ParkSides(s, req);
    var s2 := LogRequest(s1, handle, req);
    LogRequestAcks(s1, handle, req);
    AdvanceCommittedKept(s2);
    assert OnExecute(s, handle, req) == AdvanceCommitted(s2);
    hide LogRequest, OnExecute;
    TakeParts(s, s1, s2, AdvanceCommitted(s2), k, req);
  }

  /** As AcksKept, for all stamps but one. */
  ghost predicate AcksKeptBut(s: Cohort, t: Cohort, x: Viewstamp) {
    && (forall k :: k in t.log && t.log[k].ack.Some? && k != x ==> k in s.log && t.log[k].ack == s.log[k].ack)
    && (forall k :: k in s.log && k in t.log && s.log[k].arg.Client? && s.log[k].ack.Some? && t.log[k].ack.None? ==>
          Majority(s.log[k].ack.value.received, s.log[k].ack.value.expected))
  }

  lemma ParkSides(s: Cohort, req: Request)
    ensures Park(s, req, None).self == s.self && Park(s, req, None).view == s.view
    ensures Park(s, req, None).log.Keys == s.log.Keys
  {
  }

  lemma LogRequestAcks(s: Cohort, handle: nat, req: Request)
    ensures var t, k := LogRequest(s, handle, req), Succ(s.latest);
            && t.log == s.log[k := PrimaryEntry(s, handle, req)] && t.latest == k && t.self == s.self
            && PrimaryEntry(s, handle, req).arg == Client(req)
            && PrimaryEntry(s, handle, req).ack == Some(AckSet({s.self}, Everyone(s)))
  {
    hide JumpsUpdate;
  }

  /** The entry of a taken request: `s2` is `s1` with a new entry at `k`. */
  ghost predicate AddsEntry(s: Cohort, s1: Cohort, s2: Cohort, k: Viewstamp, req: Request) {
    && k !in s1.log && s2.log.Keys == s1.log.Keys + {k} && s2.self == s.self
    && (forall x :: x in s1.log ==> s2.log[x] == s1.log[x])
    && s2.log[k].arg == Client(req) && s2.log[k].ack == Some(AckSet({s.self}, Everyone(s)))
  }

  lemma TakeParts(s: Cohort, s1: Cohort, s2: Cohort, t: Cohort, k: Viewstamp, req: Request)
    requires AcksKept(s, s1) && AddsEntry(s, s1, s2, k, req) && AcksKept(s2, t)
    ensures LogGrows(s.log, t.log) && k in t.log && t.log[k].arg == Client(req) && t.self == s.self
    ensures t.log[k].ack.Some? ==> t.log[k].ack.value == AckSet({s.self}, Everyone(s))
    ensures t.log[k].ack.None? ==> Majority({s.self}, Everyone(s))
    ensures AcksKeptBut(s, t, k)
  {
    TakeGrows(s, s1, s2, t, k, req);
    TakeEntry(s, s1, s2, t, k, req);
    TakeKept(s, s1, s2, t, k, req);
    hide *;
  }

  lemma TakeGrows(s: Cohort, s1: Cohort, s2: Cohort, t: Cohort, k: Viewstamp, req: Request)
    requires AcksKept(s, s1) && AddsEntry(s, s1, s2, k, req) && AcksKept(s2, t)
    ensures LogGrows(s.log, t.log) && k in t.log && t.log[k].arg == Client(req) && t.self == s.self
  {
    hide Majority, Everyone;
  }

  lemma TakeEntry(s: Cohort, s1: Cohort, s2: Cohort, t: Cohort, k: Viewstamp, req: Request)
    requires AcksKept(s, s1) && AddsEntry(s, s1, s2, k, req) && AcksKept(s2, t) && k in t.log
    ensures t.log[k].ack.Some? ==> t.log[k].ack.value == AckSet({s.self}, Everyone(s))
    ensures t.log[k].ack.None? ==> Majority({s.self}, Everyone(s))
  {
    hide Majority, Everyone, LogGrows;
  }

  lemma TakeKept(s: Cohort, s1: Cohort, s2: Cohort, t: Cohort, k: Viewstamp, req: Request)
    requires AcksKept(s, s1) && AddsEntry(s, s1, s2, k, req) && AcksKept(s2, t)
    ensures AcksKeptBut(s, t, k)
  {
    hide Majority, Everyone;
  }

  // ---------------------------------------------------------------- replicate_cb

  /** Between two states of the acknowledging loop: only `from` is added, only up to m in the view. */
  ghost predicate AcksAdded(s: Cohort, t: Cohort, from: Mid, upto: Viewstamp) {
    && t.self == s.self && SameArgs(s.log, t.log) && t.latest == s.latest
    && forall k :: k in s.log ==>
         && t.log[k].ack.Some? == s.log[k].ack.Some?
         && (t.log[k].ack.Some? ==>
               && t.log[k].ack.value.expected == s.log[k].ack.value.expected
               && t.log[k].ack.value.received <= Bound(s, k, from, upto))
  }

  /** Who can be in the set of entry k after an acknowledgement of `upto` by `from`. */
  ghost function Bound(s: Cohort, k: Viewstamp, from: Mid, upto: Viewstamp): set<Mid>
    requires k in s.log && s.log[k].ack.Some?
  {
    s.log[k].ack.value.received + if k.vid == upto.vid && k.ts <= upto.ts then {from} else {}
  }

  lemma AckOneAdded(s: Cohort, s0: Cohort, from: Mid, vs: Viewstamp, upto: Viewstamp)
    requires AcksAdded(s0, s, from, upto) && vs in s.log && vs.vid == upto.vid && vs.ts <= upto.ts
    ensures AcksAdded(s0, AckOne(s, from, vs), from, upto)
  {
    var t := AckOne(s, from, vs);
    AckOneEntries(s, from, vs);
    hide AckOne, SameArgs;
    assert SameArgs(s0.log, t.log) by { SameArgsTrans(s0.log, s.log, t.log); }
  }

  lemma SameArgsTrans(l: Log, m: Log, n: Log)
    requires SameArgs(l, m) && SameArgs(m, n)
    ensures SameArgs(l, n)
  {
  }

  lemma AckOneEntries(s: Cohort, from: Mid, vs: Viewstamp)
    requires vs in s.log
    ensures var t := AckOne(s, from, vs);
            && t.self == s.self && t.latest == s.latest && SameArgs(s.log, t.log)
            && (forall k :: k in s.log && k != vs ==> t.log[k] == s.log[k])
            && t.log[vs].ack == if s.log[vs].ack.None? then None
                                else Some(AckSet(s.log[vs].ack.value.received + {from}, s.log[vs].ack.value.expected))
  {
  }

  lemma {:induction false} AckFromAdded(s: Cohort, s0: Cohort, from: Mid, vs: Viewstamp, upto: Viewstamp)
    requires AcksAdded(s0, s, from, upto) && VidLe(upto.vid, vs.vid)
    ensures AcksAdded(s0, AckFrom(s, from, vs, upto), from, upto)
    decreases Above(s.log.Keys, vs)
  {
    hide AcksAdded;
    CrashAdded(s0, s, from, upto);
    if Le(vs, upto) && vs in s.log {
      var s1, n := AckOne(s, from, vs), VsNext(s.jumps, vs);
      AckOneAdded(s, s0, from, vs, upto);
      assert s1.log.Keys == s.log.Keys;
      AboveDrops(s.log.Keys, vs, n);
      AckFromAdded(s1, s0, from, n, upto);
    }
  }

  lemma CrashAdded(s0: Cohort, s: Cohort, from: Mid, upto: Viewstamp)
    requires AcksAdded(s0, s, from, upto)
    ensures AcksAdded(s0, s.(crashed := true), from, upto)
  {
  }

  lemma AddedRefl(s: Cohort, from: Mid, upto: Viewstamp)
    ensures AcksAdded(s, s, from, upto)
  {
  }

  lemma MajorityUp(a: set<Mid>, b: set<Mid>, s: set<Mid>)
    requires a <= b && Majority(a, s)
    ensures Majority(b, s)
  {
    SubsetSize(a * s, b * s);
  }

  /** After `replicate_cb` for `upto`: sets grow by at most its sender, for stamps of that view up to
      it, and a set is dropped only if a majority had acknowledged, the sender included. */
  ghost predicate AcksAfter(s: Cohort, t: Cohort, from: Mid, upto: Viewstamp) {
    && t.self == s.self && t.latest == s.latest && LogGrows(s.log, t.log)
    && (forall k :: k in t.log && t.log[k].ack.Some? ==>
          && k in s.log && s.log[k].ack.Some? && t.log[k].ack.value.expected == s.log[k].ack.value.expected
          && t.log[k].ack.value.received <= Bound(s, k, from, upto))
    && (forall k :: k in s.log && s.log[k].arg.Client? && s.log[k].ack.Some? && t.log[k].ack.None? ==>
          Majority(Bound(s, k, from, upto), s.log[k].ack.value.expected))
  }

  lemma AddedThenKept(s: Cohort, u: Cohort, t: Cohort, from: Mid, upto: Viewstamp)
    requires AcksAdded(s, u, from, upto) && AcksKept(u, t) && t.latest == u.latest
    ensures AcksAfter(s, t, from, upto)
  {
    hide Majority, Bound;
    forall k | k in s.log && s.log[k].arg.Client? && s.log[k].ack.Some? && t.log[k].ack.None?
      ensures Majority(Bound(s, k, from, upto), s.log[k].ack.value.expected)
    {
      MajorityUp(u.log[k].ack.value.received, Bound(s, k, from, upto), s.log[k].ack.value.expected);
    }
  }

  lemma ReplicateCbAcks(s: Cohort, from: Mid, upto: Viewstamp)
    ensures AcksAfter(s, ReplicateCb(s, from, upto), from, upto)
  {
    AddedRefl(s, from, upto);
    KeptRefl(s);
    AddedThenKept(s, s, s, from, upto);
    SideKept(s, s.(crashed := true));
    AddedThenKept(s, s, s.(crashed := true), from, upto);
    hide AcksAdded, AcksKept, AcksAfter, AckFrom, AdvanceCommitted, IsMember;
    var t := ReplicateCb(s, from, upto);
    if t != s && t != s.(crashed := true) {
      var n := VsNext(s.jumps, s.committed);
      var u := AckFrom(s, from, n, upto);
      AckFromAdded(s, s, from, n, upto);
      AdvanceCommittedKept(u);
      AddedThenKept(s, u, AdvanceCommitted(u), from, upto);
    }
  }

  // ---------------------------------------------------------------- every handler

  /** Handlers other than EXECUTE and the acknowledgement. */
  lemma OtherAcks(s: Cohort, e: Event)
    requires EventOk(s, e) && NoDuplicateStamp(s, e) && !e.Replicated?
    requires e.Execute? ==> !TakesRequest(s, e.req)
    ensures AcksKept(s, Handle(s, e))
    ensures Handle(s, e).latest == if e.InitView? && FormsView(s, e.form) && e.form.view.primary == s.self
                                   then FormStamp(e.form) else s.latest
  {
    KeptRefl(s);
    hide AcksKept, SideFrame, ManagerFrame, TakesRequest;
    hide OnExecute, ExecuteDone, OnReplicate, FetchlogCb, OnNewView, FormView, Initiate, OnViewChange, PrepareCb, NewviewCb, OnFetchlog;
    match e
    case Execute(handle, req) => NotTakenAcks(s, handle, req);
    case ExecDone(vs, reply) => FinishKept(s, vs, reply);
    case Replicate(src, vs, arg, committed) => OnReplicateKept(s, src, vs, arg, committed);
    case Fetchlog(vs) => FetchlogFrame(s, vs); SideKept(s, OnFetchlog(s, vs)); FetchlogLatest(s, vs);
    case Fetched(i, vs, resp) => FetchlogCbKept(s, i, vs, resp);
    case StartAttempt(joiners) => InitiateFrame(s, joiners); SideKept(s, Initiate(s, joiners)); InitiateLatest(s, joiners);
    case VcRequest(src, xid, oldview, newvid) =>
      OnViewChangeFrame(s, src, xid, oldview, newvid);
      SideKept(s, OnViewChange(s, src, xid, oldview, newvid));
      OnViewChangeLatest(s, src, xid, oldview, newvid);
    case VcAnswered(xid, src, res) =>
      PrepareCbFrame(s, xid, src, res);
      ManagerKept(s, PrepareCb(s, xid, src, res));
    case NvRequest(src, xid, nv) => OnNewViewKept(s, src, xid, nv);
    case NvAnswered(xid, src, acc) =>
      NewviewCbFrame(s, xid, src, acc);
      ManagerKept(s, NewviewCb(s, xid, src, acc));
    case InitView(f) => if FormsView(s, f) && f.view.primary == s.self { FormViewKept(s, f); } else { InitFails(s, f); }
  }

  lemma InitFails(s: Cohort, f: Formation)
    requires !FormsView(s, f) || f.view.primary != s.self
    ensures AcksKept(s, OnInitView(s, f)) && OnInitView(s, f).latest == s.latest
  {
    KeptRefl(s);
    SideKept(s, s.(crashed := true));
    hide AcksKept;
  }

  lemma ManagerKept(s: Cohort, t: Cohort)
    requires ManagerFrame(s, t)
    ensures AcksKept(s, t) && t.latest == s.latest
  {
  }

  lemma FetchlogLatest(s: Cohort, vs: Viewstamp)
    ensures OnFetchlog(s, vs).latest == s.latest
  {
  }

  lemma InitiateLatest(s: Cohort, joiners: seq<Mid>)
    ensures Initiate(s, joiners).latest == s.latest
  {
    hide MaxVid, Mids;
  }

  lemma OnViewChangeLatest(s: Cohort, src: Mid, xid: nat, oldview: View, newvid: Viewid)
    ensures OnViewChange(s, src, xid, oldview, newvid).latest == s.latest
  {
    hide MyReport, AbortOther, RefusesVc;
  }

  lemma NotTakenAcks(s: Cohort, handle: nat, req: Request)
    requires !TakesRequest(s, req)
    ensures AcksKept(s, OnExecute(s, handle, req)) && OnExecute(s, handle, req).latest == s.latest
  {
    KeptRefl(s);
    hide AcksKept, Park, Stale, Reply, LogRequest, AdvanceCommitted;
    var s1 := Park(s, req, None);
    ParkKept(s, req, None);
    ParkKept(s, req, Some(handle));
    ReplyKept(s, handle, Ok(if req.client in s.cache then s.cache[req.client].reply else ""));
    ReplyKept(s1, handle, Redirect(s.view.vid, s.view.primary));
    KeptTrans(s, s1, Reply(s1, handle, Redirect(s.view.vid, s.view.primary)));
  }
}
