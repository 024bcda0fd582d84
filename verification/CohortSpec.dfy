/**
 * One cohort of the replication group (cohort.C) as a value, and every handler as a function on it.
 * The class in Cohort.dfy runs the same handlers in place and is proved against these functions.
 */
module CohortSpec {
  import opened Stamps
  import Quorum

  datatype View = View(vid: Viewid, primary: Mid, backups: seq<Mid>)

  function Mids(v: View): set<Mid> {
    {v.primary} + (set b | b in v.backups)
  }

  /** The payload of an entry with timestamp 0: a view and the last stamp before it. */
  datatype ViewForm = ViewForm(prev: Viewstamp, view: View)

  function FormStamp(f: ViewForm): Viewstamp {
    Viewstamp(f.view.vid, 0)
  }

  /** Formations are taken to be well formed: the view starts after its `prev`. */
  type Formation = f: ViewForm | Lt(f.prev, FormStamp(f))
    witness ViewForm(ZERO_STAMP, View(Viewid(1, 0), 0, []))

  datatype Request = Request(client: Mid, rid: nat, vid: Viewid, body: string)

  datatype Arg = Client(req: Request) | Form(form: Formation)

  /** An entry carries a formation exactly when its timestamp is 0, and then its own view's. */
  predicate WfSlot(vs: Viewstamp, arg: Arg) {
    && (vs.ts == 0 <==> arg.Form?)
    && (arg.Form? ==> FormStamp(arg.form) == vs)
  }

  datatype AckSet = AckSet(received: set<Mid>, expected: set<Mid>)

  datatype RqState = Logged | Committed | Executing | Executed

  /** `sbp` is the handle of the client call waiting for this entry. */
  datatype Entry = Entry(arg: Arg, ack: Option<AckSet>, sbp: Option<nat>, state: RqState)

  type Log = l: map<Viewstamp, Entry> | forall vs :: vs in l ==> WfSlot(vs, l[vs].arg)

  /** The jump index: last stamp of a view to the first stamp of the next one. */
  type Jumps = j: map<Viewstamp, Viewstamp> | forall p :: p in j ==> Lt(p, j[p])

  /** `rle` is the stamp of the log entry the cache entry points to. */
  datatype CacheEntry = CacheEntry(rid: nat, rle: Viewstamp, reply: string)

  datatype DoneCb =
    | AckReplicate(to: Mid, vs: Viewstamp)
    | AnswerNewView(caller: Mid, xid: nat, vid: Viewid)
    | NullCb

  /** One `pull_log_state`. `latest` records the argument of the `pull_log` that created it. */
  datatype Pull = Pull(latest: Viewstamp, src: Mid, expected: set<Viewstamp>, received: set<Viewstamp>,
                       bottomview: Viewid, ok: bool, bottomdone: bool, done: DoneCb)

  datatype Report = Report(myid: Mid, latest: Viewstamp, newview: Option<View>)

  datatype VcAnswer = Accept(report: Report) | Reject(oldview: Option<View>, newvid: Viewid)

  datatype NvArg = NvArg(latest: Viewstamp, view: View)

  datatype Attempt = Attempt(xid: nat, proposedVid: Viewid, underlings: set<Mid>,
                             prepareAccepted: set<Mid>, prepareDone: set<Mid>,
                             nvAccepted: set<Mid>, nvDone: set<Mid>, accepts: seq<Report>,
                             newview: Option<View>, mergedVid: Viewid, nvarg: NvArg, aborted: bool)

  datatype ExecRes = Ok(reply: string) | Redirect(vid: Viewid, primary: Mid)

  /** RPC calls and replies a cohort has put on the network; a datagram once sent may arrive
      never, late or many times. `xid` and `pull` identify the call a reply belongs to. */
  datatype Msg =
    | ReplicateCall(src: Mid, dst: Mid, vs: Viewstamp, arg: Arg, committed: Viewstamp)
    | ReplicateReply(src: Mid, dst: Mid, vs: Viewstamp)
    | FetchCall(src: Mid, dst: Mid, pull: nat, vs: Viewstamp)
    | FetchReply(src: Mid, vs: Viewstamp, arg: Arg)
    | VcCall(src: Mid, dst: Mid, xid: nat, oldview: View, newvid: Viewid)
    | VcReply(src: Mid, dst: Mid, xid: nat, newvid: Viewid, answer: VcAnswer)
    | NvCall(src: Mid, dst: Mid, xid: nat, nvarg: NvArg)
    | NvReply(src: Mid, dst: Mid, xid: nat, vid: Viewid, accepted: bool)
    | InitCall(src: Mid, dst: Mid, form: ViewForm)
    | ClientReply(handle: nat, res: ExecRes)

  datatype Mode = Active | Bootstrap | ViewChange

  /** A request handed to the state machine. */
  datatype Submission = Submission(vs: Viewstamp, req: Request)

  datatype Cohort = Cohort(
    self: Mid, mode: Mode, validView: bool, view: View, proposedVid: Viewid,
    acceptedView: Option<View>, attempt: Option<Attempt>, nextXid: nat,
    latest: Viewstamp, committed: Viewstamp, executed: Viewstamp,
    log: Log, jumps: Jumps, cache: map<Mid, CacheEntry>, pulls: seq<Pull>,
    submitted: seq<Submission>, sent: set<Msg>, crashed: bool)

  const NO_VIEW := View(ZERO_VID, 0, [])
  const NO_NVARG := NvArg(ZERO_STAMP, NO_VIEW)

  predicate IsMember(s: Cohort, m: Mid) {
    s.validView && m in Mids(s.view)
  }

  // ---------------------------------------------------------------- the constructor

  /** The one-member view a cohort starts when it is told to join nobody. */
  function SyntheticView(self: Mid): Formation {
    ViewForm(ZERO_STAMP, View(Viewid(1, self), self, []))
  }

  /** A cohort that starts a new group: its first view is already installed. */
  function Founder(self: Mid): Cohort {
    var f := SyntheticView(self);
    var vs := FormStamp(f);
    Cohort(self, Active, true, f.view, ZERO_VID, None, None, 0, vs, vs, vs,
           map[vs := Entry(Form(f), None, None, Logged)], map[ZERO_STAMP := vs],
           map[], [], [], {}, false)
  }

  /** A cohort that waits to be let into a group. */
  function Joiner(self: Mid): Cohort {
    Cohort(self, Bootstrap, false, NO_VIEW, ZERO_VID, None, None, 0, ZERO_STAMP, ZERO_STAMP, ZERO_STAMP,
           map[], map[], map[], [], [], {}, false)
  }

  // ---------------------------------------------------------------- walking the log

  function VsNext(jumps: Jumps, vs: Viewstamp): (n: Viewstamp)
    ensures Lt(vs, n)
  {
    if vs in jumps then jumps[vs] else Succ(vs)
  }

  /** The number of logged stamps at or above `vs`: what every walk over the log uses up. */
  ghost function Above(keys: set<Viewstamp>, vs: Viewstamp): nat {
    |set k | k in keys && Le(vs, k)|
  }

  lemma AboveDrops(keys: set<Viewstamp>, vs: Viewstamp, n: Viewstamp)
    requires vs in keys && Lt(vs, n)
    ensures Above(keys, n) < Above(keys, vs)
  {
    var a := set k | k in keys && Le(vs, k);
    var b := set k | k in keys && Le(n, k);
    Quorum.SubsetSize(b, a - {vs});
  }

  function JumpsUpdate(jumps: Jumps, vs: Viewstamp, arg: Arg): Jumps
    requires WfSlot(vs, arg)
  {
    if vs.ts != 0 then jumps
    else
      var p := arg.form.prev;
      if p !in jumps || Lt(jumps[p], vs) then jumps[p := vs] else jumps
  }

  function Insert(s: Cohort, vs: Viewstamp, e: Entry): Cohort
    requires WfSlot(vs, e.arg)
  {
    s.(jumps := JumpsUpdate(s.jumps, vs, e.arg), log := s.log[vs := e])
  }

  /** The last stamp of the gapless chain that VIEW_CHANGE reports. */
  function ScanFrom(log: Log, jumps: Jumps, last: Viewstamp): Viewstamp
    decreases Above(log.Keys, VsNext(jumps, last))
  {
    var vs := VsNext(jumps, last);
    if vs in log then
      AboveDrops(log.Keys, vs, VsNext(jumps, vs));
      ScanFrom(log, jumps, vs)
    else last
  }

  // ---------------------------------------------------------------- executing and committing

  function SetState(s: Cohort, vs: Viewstamp, st: RqState): Cohort
    requires vs in s.log
  {
    s.(log := s.log[vs := s.log[vs].(state := st)])
  }

  function InstallView(s: Cohort, v: View): Cohort {
    s.(view := v, proposedVid := v.vid, validView := true, acceptedView := None,
       attempt := Aborted(s.attempt), mode := Active)
  }

  function Aborted(a: Option<Attempt>): Option<Attempt> {
    if a.Some? then Some(a.value.(aborted := true)) else None
  }

  /** Executing a client entry hands its request to the state machine. */
  function ExecRequest(s: Cohort, vs: Viewstamp): Cohort
    requires vs in s.log && s.log[vs].arg.Client?
  {
    SetState(s.(submitted := s.submitted + [Submission(vs, s.log[vs].arg.req)], executed := vs), vs, Executing)
  }

  /** Executing a formation entry installs its view. */
  function ExecForm(s: Cohort, vs: Viewstamp): Cohort
    requires vs in s.log && s.log[vs].arg.Form?
  {
    SetState(InstallView(s, s.log[vs].arg.form.view).(executed := vs), vs, Executing)
  }

  /** The body of the loop in `advance_executed`. */
  function ExecOne(s: Cohort, vs: Viewstamp): Cohort
    requires vs in s.log
  {
    if s.log[vs].arg.Client? then ExecRequest(s, vs) else ExecForm(s, vs)
  }

  function ExecFrom(s: Cohort, vs: Viewstamp): Cohort
    decreases Above(s.log.Keys, vs)
  {
    if Le(vs, s.committed) && vs in s.log then
      var s1 := ExecOne(s, vs);
      AboveDrops(s.log.Keys, vs, VsNext(s.jumps, vs));
      assert s1.log.Keys == s.log.Keys;
      ExecFrom(s1, VsNext(s.jumps, vs))
    else s
  }

  function AdvanceExecuted(s: Cohort): Cohort {
    ExecFrom(s, VsNext(s.jumps, s.executed))
  }

  function CommitOne(s: Cohort, vs: Viewstamp): Cohort
    requires vs in s.log
  {
    s.(committed := vs, log := s.log[vs := s.log[vs].(ack := None, state := Committed)])
  }

  function CommitFrom(s: Cohort, vs: Viewstamp): Cohort
    decreases Above(s.log.Keys, vs)
  {
    if !Le(vs, s.latest) then s
    else if vs !in s.log || s.log[vs].ack.None? then s.(crashed := true)
    else
      var ack := s.log[vs].ack.value;
      if !Quorum.Majority(ack.received, ack.expected) then s
      else
        var s1 := CommitOne(s, vs);
        AboveDrops(s.log.Keys, vs, VsNext(s.jumps, vs));
        assert s1.log.Keys == s.log.Keys;
        CommitFrom(s1, VsNext(s.jumps, vs))
  }

  function AdvanceCommitted(s: Cohort): Cohort {
    AdvanceExecuted(CommitFrom(s, VsNext(s.jumps, s.committed)))
  }

  // ---------------------------------------------------------------- acknowledgements

  function AckOne(s: Cohort, from: Mid, vs: Viewstamp): Cohort
    requires vs in s.log
  {
    var e := s.log[vs];
    if e.ack.None? then s
    else s.(log := s.log[vs := e.(ack := Some(e.ack.value.(received := e.ack.value.received + {from})))])
  }

  function AckFrom(s: Cohort, from: Mid, vs: Viewstamp, upto: Viewstamp): Cohort
    decreases Above(s.log.Keys, vs)
  {
    if !Le(vs, upto) then s
    else if vs !in s.log then s.(crashed := true)
    else
      var s1 := AckOne(s, from, vs);
      AboveDrops(s.log.Keys, vs, VsNext(s.jumps, vs));
      assert s1.log.Keys == s.log.Keys;
      AckFrom(s1, from, VsNext(s.jumps, vs), upto)
  }

  /** `replicate_cb`: the reply of backup `from` to a REPLICATE. */
  function ReplicateCb(s: Cohort, from: Mid, vs: Viewstamp): Cohort {
    if s.view.primary != s.self then s
    else if s.latest.vid != s.committed.vid then s.(crashed := true)
    else if Le(vs, s.committed) then s
    else if Lt(s.latest, vs) then s.(crashed := true)
    else if !IsMember(s, from) then s
    else AdvanceCommitted(AckFrom(s, from, VsNext(s.jumps, s.committed), vs))
  }

  // ---------------------------------------------------------------- pulling the log

  /** The first stamp `pull_upto` asks for; None when it returns at once. */
  function FetchBase(executed: Viewstamp, latest: Viewstamp): Option<nat> {
    if VidLt(latest.vid, executed.vid) then None
    else if latest.vid == executed.vid then Some(executed.ts + 1)
    else Some(0)
  }

  function Missing(log: Log, executed: Viewstamp, latest: Viewstamp): set<Viewstamp> {
    var base := FetchBase(executed, latest);
    if base.None? then {}
    else set t: nat | base.value <= t <= latest.ts && Viewstamp(latest.vid, t) !in log
           :: Viewstamp(latest.vid, t)
  }

  function PullUpto(s: Cohort, i: nat, latest: Viewstamp): Cohort
    requires i < |s.pulls|
  {
    var pl := s.pulls[i];
    var want := Missing(s.log, s.executed, latest);
    s.(pulls := s.pulls[i := pl.(expected := pl.expected + want)],
       sent := s.sent + set vs | vs in want :: FetchCall(s.self, pl.src, i, vs))
  }

  /** Running the completion callback of a pull. A failed REPLICATE is rejected, not answered. */
  function Fire(s: Cohort, done: DoneCb, good: bool): Cohort {
    match done
    case AckReplicate(to, vs) => if good then s.(sent := s.sent + {ReplicateReply(s.self, to, vs)}) else s
    case AnswerNewView(to, xid, vid) => s.(sent := s.sent + {NvReply(s.self, to, xid, vid, good)})
    case NullCb => s
  }

  /** The part of `fetchlog_check` that walks one view back or finds the bottom reached. */
  function StepBack(s: Cohort, i: nat): Cohort
    requires i < |s.pulls|
  {
    var pl := s.pulls[i];
    if VidLt(VsNext(s.jumps, s.executed).vid, pl.bottomview) then
      var xs := Viewstamp(pl.bottomview, 0);
      if xs in s.log then
        var prev := s.log[xs].arg.form.prev;
        PullUpto(s.(pulls := s.pulls[i := pl.(bottomview := prev.vid)]), i, prev)
      else s
    else s.(pulls := s.pulls[i := pl.(bottomdone := true)])
  }

  predicate PullSettled(pl: Pull) {
    !pl.ok || |pl.expected| == |pl.received|
  }

  /** The end of `fetchlog_check`: report once when everything asked for has arrived or failed. */
  function Settle(s: Cohort, i: nat): Cohort
    requires i < |s.pulls|
  {
    var pl := s.pulls[i];
    if PullSettled(pl) then
      Fire(s, pl.done, pl.ok && pl.bottomdone).(pulls := s.pulls[i := pl.(done := NullCb)])
    else s
  }

  function FetchlogCheck(s: Cohort, i: nat): Cohort
    requires i < |s.pulls|
  {
    var s1 := AdvanceCommitted(s);
    AdvanceCommittedKeepsPulls(s);
    Settle(StepBack(s1, i), i)
  }

  /** The first half of `fetchlog_cb`: file the answer, or note the failure. */
  function NoteFetched(s: Cohort, i: nat, vs: Viewstamp, resp: Option<Arg>): (t: Cohort)
    requires i < |s.pulls|
    requires resp.Some? ==> WfSlot(vs, resp.value)
    ensures |t.pulls| == |s.pulls|
  {
    var pl := s.pulls[i];
    if vs in s.log then s.(pulls := s.pulls[i := pl.(received := pl.received + {vs})])
    else if resp.None? then s.(pulls := s.pulls[i := pl.(ok := false)])
    else
      Insert(s, vs, Entry(resp.value, None, None, Logged))
        .(pulls := s.pulls[i := pl.(received := pl.received + {vs})])
  }

  /** `fetchlog_cb`. */
  function FetchlogCb(s: Cohort, i: nat, vs: Viewstamp, resp: Option<Arg>): Cohort
    requires i < |s.pulls|
    requires resp.Some? ==> WfSlot(vs, resp.value)
  {
    FetchlogCheck(NoteFetched(s, i, vs, resp), i)
  }

  /** A new `pull_log_state` that has asked for the first segment. */
  function OpenPull(s: Cohort, src: Mid, latest: Viewstamp, done: DoneCb): (t: Cohort)
    ensures |t.pulls| == |s.pulls| + 1
  {
    var pl := Pull(latest, src, {}, {}, latest.vid, true, false, done);
    PullUpto(s.(pulls := s.pulls + [pl]), |s.pulls|, latest)
  }

  /** `pull_log`. */
  function PullLog(s: Cohort, src: Mid, latest: Viewstamp, done: DoneCb): Cohort {
    FetchlogCheck(OpenPull(s, src, latest, done), |s.pulls|)
  }

  // ---------------------------------------------------------------- client requests

  /** The log entry the reply cache holds for this client's request, if it is the cached one. */
  function Cached(s: Cohort, client: Mid, rid: nat): Option<Entry> {
    if client in s.cache && s.cache[client].rid == rid && s.cache[client].rle in s.log
    then Some(s.log[s.cache[client].rle]) else None
  }

  function Reply(s: Cohort, handle: nat, res: ExecRes): Cohort {
    s.(sent := s.sent + {ClientReply(handle, res)})
  }

  /** An earlier copy of the request that was logged in an older view and never committed. */
  predicate Stale(s: Cohort, client: Mid, hit: Entry) {
    hit.state == Logged && client in s.cache && VidLt(s.cache[client].rle.vid, s.view.vid)
  }

  /** The log entry a primary makes for a request: acknowledged by itself, expected of the view. */
  function PrimaryEntry(s: Cohort, handle: nat, req: Request): Entry {
    Entry(Client(req), Some(AckSet({s.self}, {s.self} + set b | b in s.view.backups)), Some(handle), Logged)
  }

  /** The primary gives the request the next stamp, logs it and replicates it. */
  function LogRequest(s: Cohort, handle: nat, req: Request): Cohort {
    var vs := Succ(s.latest);
    var prior := if req.client in s.cache then s.cache[req.client].reply else "";
    Insert(s, vs, PrimaryEntry(s, handle, req))
      .(latest := vs, cache := s.cache[req.client := CacheEntry(req.rid, vs, prior)],
        sent := s.sent + set b | b in s.view.backups :: ReplicateCall(s.self, b, vs, Client(req), s.committed))
  }

  /** A retransmission of a request that is still being worked on takes over the reply handle. */
  function Park(s: Cohort, req: Request, handle: Option<nat>): Cohort {
    var hit := Cached(s, req.client, req.rid);
    if hit.None? then s
    else s.(log := s.log[s.cache[req.client].rle := hit.value.(sbp := handle)])
  }

  /** REP_EXECUTE. */
  function OnExecute(s: Cohort, handle: nat, req: Request): Cohort {
    if s.mode != Active then s
    else
      var hit := Cached(s, req.client, req.rid);
      if hit.Some? && hit.value.state == Executed then
        Reply(s, handle, Ok(s.cache[req.client].reply))
      else if hit.Some? && !Stale(s, req.client, hit.value) then Park(s, req, Some(handle))
      else if req.vid != s.view.vid || s.self != s.view.primary then
        Reply(Park(s, req, None), handle, Redirect(s.view.vid, s.view.primary))
      else AdvanceCommitted(LogRequest(Park(s, req, None), handle, req))
  }

  /** When EXECUTE appends the request to the log. */
  predicate TakesRequest(s: Cohort, req: Request) {
    var hit := Cached(s, req.client, req.rid);
    && s.mode == Active
    && (hit.Some? ==> hit.value.state != Executed && Stale(s, req.client, hit.value))
    && req.vid == s.view.vid && s.self == s.view.primary
  }

  /** Marking an entry executed and caching its reply. */
  function FinishEntry(s: Cohort, vs: Viewstamp, reply: string): Cohort
    requires vs in s.log && s.log[vs].arg.Client?
  {
    var e := s.log[vs];
    s.(log := s.log[vs := e.(state := Executed, sbp := None)],
       cache := s.cache[e.arg.req.client := CacheEntry(e.arg.req.rid, vs, reply)])
  }

  /** `execute_done`: the state machine has answered the request logged at `vs`. */
  function ExecuteDone(s: Cohort, vs: Viewstamp, reply: string): Cohort
    requires vs in s.log && s.log[vs].arg.Client?
  {
    var s1 := FinishEntry(s, vs, reply);
    if s.log[vs].sbp.Some? then Reply(s1, s.log[vs].sbp.value, Ok(reply)) else s1
  }

  // ---------------------------------------------------------------- backups

  /** The three checks REPLICATE makes on a client entry. The stamp's view is not among them. */
  predicate RefusesReplicate(s: Cohort, vs: Viewstamp) {
    vs.ts != 0 && (s.mode != Active || s.view.primary == s.self || !IsMember(s, s.self))
  }

  function StoreEntry(s: Cohort, vs: Viewstamp, arg: Arg): Cohort
    requires WfSlot(vs, arg)
  {
    if Lt(s.committed, vs) && vs !in s.log then Insert(s, vs, Entry(arg, None, None, Logged)) else s
  }

  function RaiseCommitted(s: Cohort, committed: Viewstamp): Cohort {
    s.(committed := if Lt(s.committed, committed) then committed else s.committed)
  }

  /** REPLICATE up to the call of `pull_log`. */
  function StoreReplicate(s: Cohort, vs: Viewstamp, arg: Arg, committed: Viewstamp): Cohort
    requires WfSlot(vs, arg)
  {
    AdvanceExecuted(RaiseCommitted(StoreEntry(s, vs, arg), committed))
  }

  /** REP_REPLICATE. */
  function OnReplicate(s: Cohort, src: Mid, vs: Viewstamp, arg: Arg, committed: Viewstamp): Cohort
    requires WfSlot(vs, arg)
  {
    if RefusesReplicate(s, vs) then s
    else
      var primary := if vs.ts != 0 then s.view.primary else arg.form.view.primary;
      PullLog(StoreReplicate(s, vs, arg, committed), primary, vs, AckReplicate(src, vs))
  }

  /** REP_FETCHLOG. */
  function OnFetchlog(s: Cohort, vs: Viewstamp): Cohort {
    if vs in s.log then s.(sent := s.sent + {FetchReply(s.self, vs, s.log[vs].arg)}) else s
  }

  // ---------------------------------------------------------------- view changes: accepters

  predicate RefusesVc(s: Cohort, oldvid: Viewid, newvid: Viewid) {
    (s.validView && VidLt(oldvid, s.view.vid)) || VidLt(newvid, s.proposedVid)
  }

  function AbortOther(a: Option<Attempt>, vid: Viewid): Option<Attempt> {
    if a.Some? && a.value.proposedVid != vid then Aborted(a) else a
  }

  function MyReport(s: Cohort): Report {
    Report(s.self, ScanFrom(s.log, s.jumps, s.executed), s.acceptedView)
  }

  /** REP_VIEW_CHANGE. */
  function OnViewChange(s: Cohort, src: Mid, xid: nat, oldview: View, newvid: Viewid): Cohort {
    if RefusesVc(s, oldview.vid, newvid) then
      var mine := if s.validView then Some(s.view) else None;
      s.(sent := s.sent + {VcReply(s.self, src, xid, newvid, Reject(mine, s.proposedVid))})
    else
      s.(mode := ViewChange, proposedVid := newvid, attempt := AbortOther(s.attempt, newvid),
         sent := s.sent + {VcReply(s.self, src, xid, newvid, Accept(MyReport(s)))})
  }

  predicate RefusesNv(s: Cohort, vid: Viewid) {
    (s.validView && VidLt(vid, s.view.vid)) || VidLt(vid, s.proposedVid)
  }

  /** NEW_VIEW up to the call of `pull_log`: `proposedVid` stays as it is. */
  function AdoptNewView(s: Cohort, view: View): Cohort {
    s.(mode := ViewChange, attempt := AbortOther(s.attempt, view.vid), acceptedView := Some(view))
  }

  /** REP_NEW_VIEW. */
  function OnNewView(s: Cohort, src: Mid, xid: nat, nv: NvArg): Cohort {
    if RefusesNv(s, nv.view.vid) then
      s.(sent := s.sent + {NvReply(s.self, src, xid, nv.view.vid, false)})
    else
      PullLog(AdoptNewView(s, nv.view), nv.view.primary, nv.latest, AnswerNewView(src, xid, nv.view.vid))
  }

  /** `form_view` up to `advance_committed`; this can lower `committed`. */
  function LogFormation(s: Cohort, f: Formation): Cohort {
    var vs := FormStamp(f);
    Insert(s, vs, Entry(Form(f), None, None, Logged)).(latest := vs, committed := vs)
  }

  function SendFormation(s: Cohort, f: Formation): Cohort {
    var vs := FormStamp(f);
    s.(sent := s.sent + set b | b in f.view.backups :: ReplicateCall(s.self, b, vs, Form(f), vs))
  }

  /** `form_view`, which starts with an assertion. */
  function FormView(s: Cohort, f: Formation): Cohort {
    if f.view.primary != s.self then s.(crashed := true)
    else SendFormation(AdvanceCommitted(LogFormation(s, f)), f)
  }

  /** INIT_VIEW forms only views later than the installed one. */
  predicate FormsView(s: Cohort, f: Formation) {
    !s.validView || VidLt(s.view.vid, f.view.vid)
  }

  /** REP_INIT_VIEW. */
  function OnInitView(s: Cohort, f: Formation): Cohort {
    if FormsView(s, f) then FormView(s, f) else s
  }

  // ---------------------------------------------------------------- view changes: the manager

  function MaxVid(a: Viewid, b: Viewid): Viewid {
    if VidLt(a, b) then b else a
  }

  /** `view_change_initiate`. */
  function Initiate(s: Cohort, joiners: seq<Mid>): Cohort {
    if (s.attempt.Some? && !s.attempt.value.aborted) || !IsMember(s, s.self) then s
    else
      var under := Mids(s.view) + set j | j in joiners;
      var vid := Viewid(MaxVid(s.view.vid, s.proposedVid).counter + 1, s.self);
      s.(mode := ViewChange, nextXid := s.nextXid + 1,
         attempt := Some(Attempt(s.nextXid, vid, under, {}, {}, {}, {}, [], None, ZERO_VID, NO_NVARG, false)),
         sent := s.sent + set u | u in under :: VcCall(s.self, u, s.nextXid, s.view, vid))
  }

  /** The first report with the greatest `latest` above zero, among members of `among` if given. */
  function Best(accepts: seq<Report>, among: Option<set<Mid>>): Option<Report> {
    if accepts == [] then None
    else
      var r := accepts[|accepts| - 1];
      var b := Best(accepts[..|accepts| - 1], among);
      if among.Some? && r.myid !in among.value then b
      else if Lt(if b.Some? then b.value.latest else ZERO_STAMP, r.latest) then Some(r)
      else b
  }

  /** The assertion inside the merged scan: once newview's primary leads, nothing may overtake it. */
  predicate Overtaken(accepts: seq<Report>, among: set<Mid>, primary: Mid) {
    accepts != [] &&
    var init := accepts[..|accepts| - 1];
    || Overtaken(init, among, primary)
    || (var b, b' := Best(init, Some(among)), Best(accepts, Some(among));
        b.Some? && b.value.myid == primary && b' != b)
  }

  function OtherIds(accepts: seq<Report>, id: Mid): seq<Mid> {
    if accepts == [] then []
    else
      var r := accepts[|accepts| - 1];
      OtherIds(accepts[..|accepts| - 1], id) + (if r.myid == id then [] else [r.myid])
  }

  function Replaced(ids: seq<Mid>, a: Mid, b: Mid): (r: seq<Mid>)
    ensures |r| == |ids|
    ensures forall i :: 0 <= i < |ids| ==> r[i] == if ids[i] == a then b else ids[i]
  {
    seq(|ids|, i requires 0 <= i < |ids| => if ids[i] == a then b else ids[i])
  }

  /** `view_change_choose_view` without a reported newview: everyone who accepted. None when no
      report is above zero (the code then reads an uninitialised cohort), or when the accepters
      other than the chosen primary do not fill the backup vector. */
  function ChooseFresh(accepts: seq<Report>, vid: Viewid): Option<NvArg> {
    var b := Best(accepts, None);
    if b.None? then None
    else
      var others := OtherIds(accepts, b.value.myid);
      if |others| != |accepts| - 1 then None
      else Some(NvArg(b.value.latest, View(vid, b.value.myid, others)))
  }

  /** `view_change_choose_view` on a reported newview: the same members, led by the one with the
      greatest report. None when the assertion fails or no member's report is above zero. */
  function ChooseMerged(accepts: seq<Report>, vid: Viewid, nv: View): Option<NvArg> {
    var b := Best(accepts, Some(Mids(nv)));
    if b.None? || Overtaken(accepts, Mids(nv), nv.primary) then None
    else if b.value.myid == nv.primary then Some(NvArg(b.value.latest, View(vid, nv.primary, nv.backups)))
    else Some(NvArg(b.value.latest, View(vid, b.value.myid, Replaced(nv.backups, b.value.myid, nv.primary))))
  }

  function Choose(a: Attempt): Option<NvArg> {
    if a.newview.Some? then ChooseMerged(a.accepts, a.proposedVid, a.newview.value)
    else ChooseFresh(a.accepts, a.proposedVid)
  }

  /** `view_change_choose_view` followed by `view_change_issue_newview`. */
  function ChooseAndIssue(s: Cohort): Cohort
    requires s.attempt.Some?
  {
    var a := s.attempt.value;
    var nv := Choose(a);
    if nv.None? then s.(crashed := true)
    else
      s.(attempt := Some(a.(nvarg := nv.value)),
         sent := s.sent + set u | u in a.underlings :: NvCall(s.self, u, a.xid, nv.value))
  }

  function AbortAttempt(s: Cohort): Cohort {
    s.(attempt := Aborted(s.attempt))
  }

  /** Asking the members of a reported newview that were not asked yet. */
  function Extend(s: Cohort): Cohort
    requires s.attempt.Some? && s.attempt.value.newview.Some?
  {
    var a := s.attempt.value;
    var more := Mids(a.newview.value) - a.underlings;
    s.(attempt := Some(a.(underlings := a.underlings + more, mergedVid := a.newview.value.vid)),
       sent := s.sent + set u | u in more :: VcCall(s.self, u, a.xid, s.view, a.proposedVid))
  }

  /** `view_change_check_prepare`. */
  function CheckPrepare(s: Cohort): Cohort
    requires s.attempt.Some?
    decreases s.attempt.value.newview.Some? && VidLt(s.attempt.value.mergedVid, s.attempt.value.newview.value.vid)
  {
    var a := s.attempt.value;
    if a.aborted || |a.prepareDone| != |a.underlings| then s
    else if !Quorum.Majority(a.prepareAccepted, Mids(s.view)) then AbortAttempt(s)
    else if a.newview.Some? && VidLt(a.mergedVid, a.newview.value.vid) then CheckPrepare(Extend(s))
    else if a.newview.Some? && !Quorum.Majority(a.prepareAccepted, Mids(a.newview.value)) then AbortAttempt(s)
    else ChooseAndIssue(s)
  }

  function LaterView(a: Option<View>, b: Option<View>): Option<View> {
    if b.Some? && (a.None? || VidLt(a.value.vid, b.value.vid)) then b else a
  }

  /** What an answer to VIEW_CHANGE does to the attempt; None is an RPC error or timeout. */
  function NoteAnswer(a0: Attempt, from: Mid, res: Option<VcAnswer>): Attempt {
    var a := a0.(prepareDone := a0.prepareDone + {from});
    if res.None? then a
    else if res.value.Reject? then a.(aborted := true)
    else if from in a.prepareAccepted then a
    else a.(prepareAccepted := a.prepareAccepted + {from}, accepts := a.accepts + [res.value.report],
            newview := LaterView(a.newview, res.value.report.newview))
  }

  /** `view_change_prepare_cb` up to the final check. */
  function NotePrepare(s: Cohort, from: Mid, res: Option<VcAnswer>): Cohort
    requires s.attempt.Some?
  {
    var vid := if res.Some? && res.value.Reject? then MaxVid(s.proposedVid, res.value.newvid) else s.proposedVid;
    s.(attempt := Some(NoteAnswer(s.attempt.value, from, res)), proposedVid := vid)
  }

  /** `view_change_prepare_cb`. A callback of an earlier attempt finds that attempt aborted. */
  function PrepareCb(s: Cohort, xid: nat, from: Mid, res: Option<VcAnswer>): Cohort {
    if s.attempt.None? || s.attempt.value.xid != xid || s.attempt.value.aborted then s
    else CheckPrepare(NotePrepare(s, from, res))
  }

  predicate NewviewPasses(s: Cohort, a: Attempt) {
    && Quorum.Majority(a.nvAccepted, Mids(a.nvarg.view))
    && Quorum.Majority(a.nvAccepted, Mids(s.view))
  }

  function NoteNv(a: Attempt, from: Mid, accepted: Option<bool>): Attempt {
    a.(nvDone := a.nvDone + {from},
       nvAccepted := if accepted == Some(true) then a.nvAccepted + {from} else a.nvAccepted)
  }

  /** `view_change_newview_cb` with `view_change_check_newview`. */
  function NewviewCb(s: Cohort, xid: nat, from: Mid, accepted: Option<bool>): Cohort {
    if s.attempt.None? || s.attempt.value.xid != xid then s
    else
      var a := NoteNv(s.attempt.value, from, accepted);
      var passes := !a.aborted && NewviewPasses(s, a);
      var giveUp := !a.aborted && !passes && |a.nvDone| == |a.underlings|;
      s.(attempt := Some(a.(aborted := a.aborted || giveUp)),
         sent := if passes
                 then s.sent + {InitCall(s.self, a.nvarg.view.primary, ViewForm(a.nvarg.latest, a.nvarg.view))}
                 else s.sent)
  }

  // ---------------------------------------------------------------- all handlers

  datatype Event =
    | Execute(handle: nat, req: Request)
    | ExecDone(vs: Viewstamp, reply: string)
    | Replicate(src: Mid, vs: Viewstamp, arg: Arg, committed: Viewstamp)
    | Replicated(src: Mid, vs: Viewstamp)
    | Fetchlog(vs: Viewstamp)
    | Fetched(pull: nat, vs: Viewstamp, resp: Option<Arg>)
    | StartAttempt(joiners: seq<Mid>)
    | VcRequest(src: Mid, xid: nat, oldview: View, newvid: Viewid)
    | VcAnswered(xid: nat, src: Mid, res: Option<VcAnswer>)
    | NvRequest(src: Mid, xid: nat, nvarg: NvArg)
    | NvAnswered(xid: nat, src: Mid, accepted: Option<bool>)
    | InitView(form: Formation)

  /** What the runtime guarantees of an event: log slots are well formed, a callback belongs to
      a pull that asked for the stamp, and the state machine answers requests it was given. */
  predicate EventOk(s: Cohort, e: Event) {
    match e
    case Replicate(_, vs, arg, _) => WfSlot(vs, arg)
    case Fetched(i, vs, resp) =>
      && i < |s.pulls| && vs in s.pulls[i].expected
      && (resp.Some? ==> WfSlot(vs, resp.value))
    case ExecDone(vs, _) => vs in s.log && s.log[vs].arg.Client? && s.log[vs].state == Executing
    case _ => true
  }

  function Handle(s: Cohort, e: Event): Cohort
    requires EventOk(s, e)
  {
    match e
    case Execute(handle, req) => OnExecute(s, handle, req)
    case ExecDone(vs, reply) => ExecuteDone(s, vs, reply)
    case Replicate(src, vs, arg, committed) => OnReplicate(s, src, vs, arg, committed)
    case Replicated(src, vs) => ReplicateCb(s, src, vs)
    case Fetchlog(vs) => OnFetchlog(s, vs)
    case Fetched(i, vs, resp) => FetchlogCb(s, i, vs, resp)
    case StartAttempt(joiners) => Initiate(s, joiners)
    case VcRequest(src, xid, oldview, newvid) => OnViewChange(s, src, xid, oldview, newvid)
    case VcAnswered(xid, src, res) => PrepareCb(s, xid, src, res)
    case NvRequest(src, xid, nvarg) => OnNewView(s, src, xid, nvarg)
    case NvAnswered(xid, src, accepted) => NewviewCb(s, xid, src, accepted)
    case InitView(f) => OnInitView(s, f)
  }

  // ---------------------------------------------------------------- frames of the loops

  /** What `advance_executed` may change. */
  ghost predicate ExecFrame(s: Cohort, t: Cohort) {
    && t == s.(mode := t.mode, validView := t.validView, view := t.view, proposedVid := t.proposedVid,
               acceptedView := t.acceptedView, attempt := t.attempt, executed := t.executed,
               log := t.log, submitted := t.submitted)
    && SameEntries(s.log, t.log)
  }

  /** The same stamps with the same payloads, client handles aside. */
  ghost predicate SameEntries(l: Log, m: Log) {
    && m.Keys == l.Keys
    && forall k :: k in l ==> m[k].arg == l[k].arg && m[k].sbp == l[k].sbp
  }

  lemma ExecRequestFrame(s: Cohort, vs: Viewstamp)
    requires vs in s.log && s.log[vs].arg.Client?
    ensures ExecFrame(s, ExecRequest(s, vs))
  {
  }

  lemma ExecFormFrame(s: Cohort, vs: Viewstamp)
    requires vs in s.log && s.log[vs].arg.Form?
    ensures ExecFrame(s, ExecForm(s, vs))
  {
  }

  lemma {:induction false} ExecFromFrame(s: Cohort, vs: Viewstamp)
    ensures ExecFrame(s, ExecFrom(s, vs))
    decreases Above(s.log.Keys, vs)
  {
    if Le(vs, s.committed) && vs in s.log {
      var s1, n := ExecOne(s, vs), VsNext(s.jumps, vs);
      if s.log[vs].arg.Client? { ExecRequestFrame(s, vs); } else { ExecFormFrame(s, vs); }
      AboveDrops(s.log.Keys, vs, n);
      ExecFromFrame(s1, n);
      assert ExecFrom(s, vs) == ExecFrom(s1, n);
    }
  }

  /** What `advance_committed` may change before it calls `advance_executed`. */
  ghost predicate CommitFrame(s: Cohort, t: Cohort) {
    && t == s.(committed := t.committed, log := t.log, crashed := t.crashed)
    && SameEntries(s.log, t.log)
    && Le(s.committed, t.committed)
  }

  lemma CommitOneFrame(s: Cohort, vs: Viewstamp)
    requires vs in s.log && Lt(s.committed, vs)
    ensures CommitFrame(s, CommitOne(s, vs))
  {
  }

  lemma CommitFrameTrans(s: Cohort, t: Cohort, u: Cohort)
    requires CommitFrame(s, t) && CommitFrame(t, u)
    ensures CommitFrame(s, u)
  {
  }

  lemma CommitFromStep(s: Cohort, vs: Viewstamp)
    requires Le(vs, s.latest) && vs in s.log && s.log[vs].ack.Some?
    requires Quorum.Majority(s.log[vs].ack.value.received, s.log[vs].ack.value.expected)
    ensures CommitFrom(s, vs) == CommitFrom(CommitOne(s, vs), VsNext(s.jumps, vs))
  {
  }

  lemma {:induction false} CommitFromFrame(s: Cohort, vs: Viewstamp)
    requires Lt(s.committed, vs)
    ensures CommitFrame(s, CommitFrom(s, vs))
    decreases Above(s.log.Keys, vs)
  {
    if Le(vs, s.latest) && vs in s.log && s.log[vs].ack.Some?
       && Quorum.Majority(s.log[vs].ack.value.received, s.log[vs].ack.value.expected) {
      var s1, n := CommitOne(s, vs), VsNext(s.jumps, vs);
      CommitOneFrame(s, vs);
      AboveDrops(s.log.Keys, vs, n);
      CommitFromFrame(s1, n);
      CommitFrameTrans(s, s1, CommitFrom(s1, n));
      CommitFromStep(s, vs);
    }
  }

  lemma AdvanceCommittedKeepsPulls(s: Cohort)
    ensures AdvanceCommitted(s).pulls == s.pulls
  {
    var t := CommitFrom(s, VsNext(s.jumps, s.committed));
    CommitFromFrame(s, VsNext(s.jumps, s.committed));
    ExecFromFrame(t, VsNext(t.jumps, t.executed));
  }
}
