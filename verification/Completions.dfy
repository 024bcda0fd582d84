/**
 * A cohort together with the queue in front of its state machine: what clients are answered.
 */
module Completions {
  import opened Stamps
  import opened CohortSpec
  import opened CohortInvariants
  import opened Traffic
  import opened RequestStates
  import opened ExecServer

  /** `calls` records which request came with each client call's handle. */
  datatype Node = Node(cohort: Cohort, server: Server, calls: map<nat, Request>)

  datatype NodeEvent = Handles(ev: CohortSpec.Event) | BackendUp | BackendReply(reply: string) | BackendGone

  /** The requests an event handed to the state machine. */
  ghost function NewJobs(s: Cohort, t: Cohort): seq<Submission> {
    if s.submitted <= t.submitted then t.submitted[|s.submitted|..] else []
  }

  ghost function Feed(s: Server, subs: seq<Submission>): Server
    decreases |subs|
  {
    if subs == [] then s else Feed(Enqueue(s, subs[0]), subs[1..])
  }

  /** Any event of the cohort but a completion; completions come from the queue. */
  ghost predicate NodeStep(n: Node, ev: NodeEvent, n': Node) {
    match ev
    case Handles(e) =>
      && !e.ExecDone? && EventOk(n.cohort, e) && NoDuplicateStamp(n.cohort, e)
      && (e.Execute? ==> e.handle !in n.calls)
      && n' == Node(Handle(n.cohort, e), Feed(n.server, NewJobs(n.cohort, Handle(n.cohort, e))),
                    if e.Execute? then n.calls[e.handle := e.req] else n.calls)
    case BackendUp => n.server.connects > 0 && n.server.rq != [] && n' == n.(server := Connected(n.server))
    case BackendGone => n.server.up && n' == n.(server := Eof(n.server))
    case BackendReply(reply) =>
      && n.server.up && n.server.wire != [] && n.server.rq != []
      && n' == n.(server := Packet(n.server, reply), cohort := Complete(n.cohort, n.server.rq[0].vs, reply))
  }

  /** The callback `execute_done`, run on whatever is logged at the stamp. */
  function Complete(s: Cohort, vs: Viewstamp, reply: string): Cohort {
    if vs in s.log && s.log[vs].arg.Client? then ExecuteDone(s, vs, reply) else s
  }

  // ---------------------------------------------------------------- the queue follows the log

  ghost predicate Finished(s: Cohort, sub: Submission) {
    sub.vs in s.log && s.log[sub.vs].arg == Client(sub.req) && s.log[sub.vs].state == Executed
  }

  /** The queue holds exactly the requests that are being executed. */
  ghost predicate QueueOk(n: Node) {
    && ServerOk(n.server) && OwnReplies(n.server)
    && Jobs(n.server.done) + n.server.rq == n.cohort.submitted
    && (forall i :: 0 <= i < |n.server.rq| ==> Running(n.cohort, n.server.rq[i]))
    && (forall i :: 0 <= i < |n.server.done| ==> Finished(n.cohort, n.server.done[i].sub))
  }

  lemma {:induction false} FeedKeeps(s: Server, subs: seq<Submission>)
    requires ServerOk(s)
    ensures var t := Feed(s, subs); ServerOk(t) && t.done == s.done && t.rq == s.rq + subs
    decreases |subs|
  {
    if subs == [] {
      assert s.rq + [] == s.rq;
    } else {
      var u := Enqueue(s, subs[0]);
      StepsKeepOk(s, subs[0], "");
      OthersKeepQueue(s, subs[0]);
      hide ServerOk, Enqueue;
      FeedKeeps(u, subs[1..]);
      assert s.rq + [subs[0]] + subs[1..] == s.rq + subs;
    }
  }

  lemma HandledQueue(n: Node, s': Cohort, calls: map<nat, Request>)
    requires QueueOk(n) && Inv(n.cohort) && Submits(n.cohort, s')
    ensures QueueOk(Node(s', Feed(n.server, NewJobs(n.cohort, s')), calls))
  {
    var s, sv, new_ := n.cohort, n.server, NewJobs(n.cohort, s');
    FeedKeeps(sv, new_);
    assert SubmittedInOrder(s);
    hide Inv, Feed, ServerOk, Unexecuted, NoneFinishes;
    var t := Feed(sv, new_);
    assert s'.submitted == s.submitted + new_;
    assert Jobs(t.done) + t.rq == s'.submitted by { Regroup(Jobs(sv.done), sv.rq, new_); }
    forall i | 0 <= i < |t.rq| ensures Running(s', t.rq[i]) {
      if i < |sv.rq| {
        assert t.rq[i] == sv.rq[i] == s.submitted[|sv.done| + i];
        RunningStays(s, s', sv.rq[i]);
      } else {
        assert t.rq[i] == s'.submitted[|sv.done| + i];
      }
    }
    forall i | 0 <= i < |t.done| ensures Finished(s', t.done[i].sub) {
      assert t.done[i].sub == Jobs(sv.done)[i] == s.submitted[i];
      LogGrowsMeans(s.log, s'.log);
    }
  }

  /** The backend's reply finds its entry in the log, being executed: `execute_done` is safe. */
  lemma CompletionExpected(n: Node, reply: string)
    requires QueueOk(n) && n.server.rq != []
    ensures EventOk(n.cohort, ExecDone(n.server.rq[0].vs, reply))
    ensures Complete(n.cohort, n.server.rq[0].vs, reply) == Handle(n.cohort, ExecDone(n.server.rq[0].vs, reply))
    ensures n.cohort.log[n.server.rq[0].vs].arg == Client(n.server.rq[0].req)
  {
    assert Running(n.cohort, n.server.rq[0]);
  }

  lemma ExecuteDoneLog(s: Cohort, vs: Viewstamp, reply: string)
    requires vs in s.log && s.log[vs].arg.Client?
    ensures var t := ExecuteDone(s, vs, reply);
            && t.log == s.log[vs := s.log[vs].(state := Executed, sbp := None)]
            && t.submitted == s.submitted && t.executed == s.executed && t.mode == s.mode && t.view == s.view
            && t.cache == s.cache[s.log[vs].arg.req.client := CacheEntry(s.log[vs].arg.req.rid, vs, reply)]
            && (t.sent == if s.log[vs].sbp.Some? then s.sent + {ClientReply(s.log[vs].sbp.value, Ok(reply))} else s.sent)
  {
  }

  /** Completing one request leaves the others as they are. */
  lemma CompleteOthers(s: Cohort, sub: Submission, reply: string, o: Submission)
    requires Running(s, sub)
    ensures Finished(Complete(s, sub.vs, reply), sub)
    ensures Running(s, o) && o.vs != sub.vs ==> Running(Complete(s, sub.vs, reply), o)
    ensures Finished(s, o) ==> Finished(Complete(s, sub.vs, reply), o)
    ensures Complete(s, sub.vs, reply).submitted == s.submitted
  {
    ExecuteDoneLog(s, sub.vs, reply);
    hide ExecuteDone;
  }

  lemma NextStillRuns(n: Node, reply: string, i: nat)
    requires QueueOk(n) && Inv(n.cohort) && n.server.rq != [] && 0 < i < |n.server.rq|
    ensures Running(Complete(n.cohort, n.server.rq[0].vs, reply), n.server.rq[i])
  {
    var s, sv := n.cohort, n.server;
    assert sv.rq[i] == s.submitted[|sv.done| + i] && sv.rq[0] == s.submitted[|sv.done|];
    assert SubmittedInOrder(s);
    assert Running(s, sv.rq[0]) && Running(s, sv.rq[i]);
    hide Inv, QueueOk, Running, Finished, Complete;
    CompleteOthers(s, sv.rq[0], reply, sv.rq[i]);
  }

  lemma JobsMove(done: seq<Answer>, rq: seq<Submission>, a: Answer)
    requires rq != [] && a.sub == rq[0]
    ensures Jobs(done + [a]) + rq[1..] == Jobs(done) + rq
  {
    assert Jobs(done + [a]) == Jobs(done) + [a.sub];
  }

  lemma RepliedQueue(n: Node, reply: string)
    requires QueueOk(n) && Inv(n.cohort) && n.server.up && n.server.wire != [] && n.server.rq != []
    ensures QueueOk(n.(server := Packet(n.server, reply), cohort := Complete(n.cohort, n.server.rq[0].vs, reply)))
  {
    var s, sv, sub := n.cohort, n.server, n.server.rq[0];
    StepsKeepOk(sv, sub, reply);
    PacketAnswersFront(sv, reply);
    var t, s' := Packet(sv, reply), Complete(s, sub.vs, reply);
    hide Inv, Packet, ServerOk, Complete, Running, Finished;
    CompleteOthers(s, sub, reply, sub);
    JobsMove(sv.done, sv.rq, Answer(sub, sub, reply));
    hide Jobs;
    forall i | 0 <= i < |t.rq| ensures Running(s', t.rq[i]) {
      NextStillRuns(n, reply, i + 1);
    }
    forall i | 0 <= i < |t.done| ensures Finished(s', t.done[i].sub) {
      if i < |sv.done| { CompleteOthers(s, sub, reply, sv.done[i].sub); }
    }
  }

  // ---------------------------------------------------------------- replies are the client's own

  /** The same request of the same client, whatever view it was addressed to. */
  predicate SameCall(a: Request, b: Request) {
    a.client == b.client && a.rid == b.rid
  }

  /** The reply is one that executing this entry has produced. */
  ghost predicate Produced(done: seq<Answer>, vs: Viewstamp, reply: string) {
    exists i :: 0 <= i < |done| && done[i].sub.vs == vs && done[i].reply == reply
  }

  /** The reply was produced by executing an entry for this request. */
  ghost predicate ProducedFor(done: seq<Answer>, req: Request, reply: string) {
    exists i :: 0 <= i < |done| && SameCall(done[i].sub.req, req) && done[i].reply == reply
  }

  /** A client waits only at an entry for its own request. */
  ghost predicate WaitersOk(s: Cohort, calls: map<nat, Request>) {
    forall k :: k in s.log && s.log[k].arg.Client? && s.log[k].sbp.Some? ==>
      s.log[k].sbp.value in calls && SameCall(calls[s.log[k].sbp.value], s.log[k].arg.req)
  }

  /** The cache points at an entry for the client's request, and once that is executed holds its reply. */
  ghost predicate CacheTrue(s: Cohort, done: seq<Answer>) {
    forall c :: c in s.cache ==>
      var e := s.cache[c];
      && e.rle in s.log && s.log[e.rle].arg.Client?
      && s.log[e.rle].arg.req.client == c && s.log[e.rle].arg.req.rid == e.rid
      && (s.log[e.rle].state == Executed ==> Produced(done, e.rle, e.reply))
  }

  /** Whoever was sent a reply was sent one produced by executing its own request. */
  ghost predicate RepliesOwn(s: Cohort, done: seq<Answer>, calls: map<nat, Request>) {
    forall h, reply :: ClientReply(h, Ok(reply)) in s.sent ==> h in calls && ProducedFor(done, calls[h], reply)
  }

  ghost predicate AnswersOk(n: Node) {
    && WaitersOk(n.cohort, n.calls) && CacheTrue(n.cohort, n.server.done) && RepliesOwn(n.cohort, n.server.done, n.calls)
  }

  lemma WorkAnswers(s: Cohort, t: Cohort, done: seq<Answer>, calls: map<nat, Request>)
    requires Work(s, t)
    ensures WaitersOk(s, calls) ==> WaitersOk(t, calls)
    ensures CacheTrue(s, done) ==> CacheTrue(t, done)
    ensures RepliesOwn(s, done, calls) ==> RepliesOwn(t, done, calls)
  {
    LogGrowsMeans(s.log, t.log);
    hide LogGrows, Unexecuted, Running;
  }

  lemma MoreCalls(s: Cohort, done: seq<Answer>, calls: map<nat, Request>, h: nat, req: Request)
    requires h !in calls
    ensures WaitersOk(s, calls) ==> WaitersOk(s, calls[h := req])
    ensures RepliesOwn(s, done, calls) ==> RepliesOwn(s, done, calls[h := req])
  {
  }

  lemma MoreDone(s: Cohort, done: seq<Answer>, calls: map<nat, Request>, a: Answer)
    ensures CacheTrue(s, done) ==> CacheTrue(s, done + [a])
    ensures RepliesOwn(s, done, calls) ==> RepliesOwn(s, done + [a], calls)
  {
    forall vs, reply | Produced(done, vs, reply) ensures Produced(done + [a], vs, reply) {
      var i :| 0 <= i < |done| && done[i].sub.vs == vs && done[i].reply == reply;
      assert (done + [a])[i] == done[i];
    }
    forall req, reply | ProducedFor(done, req, reply) ensures ProducedFor(done + [a], req, reply) {
      var i :| 0 <= i < |done| && SameCall(done[i].sub.req, req) && done[i].reply == reply;
      assert (done + [a])[i] == done[i];
    }
  }

  /** Parking a call at the entry of its own request. */
  lemma ParkAnswers(s: Cohort, done: seq<Answer>, calls: map<nat, Request>, req: Request, handle: Option<nat>)
    requires WaitersOk(s, calls) && CacheTrue(s, done) && RepliesOwn(s, done, calls)
    requires handle.Some? ==> handle.value in calls && SameCall(calls[handle.value], req)
    ensures var t := Park(s, req, handle); WaitersOk(t, calls) && CacheTrue(t, done) && RepliesOwn(t, done, calls)
  {
    hide Produced, ProducedFor;
    assert Park(s, req, handle).log.Keys == s.log.Keys;
  }

  lemma RedirectAnswers(s: Cohort, done: seq<Answer>, calls: map<nat, Request>, handle: nat, v: Viewid, p: Mid)
    requires WaitersOk(s, calls) && CacheTrue(s, done) && RepliesOwn(s, done, calls)
    ensures var t := Reply(s, handle, Redirect(v, p));
            WaitersOk(t, calls) && CacheTrue(t, done) && RepliesOwn(t, done, calls)
  {
    hide Produced, ProducedFor;
  }

  lemma LogRequestAnswers(s: Cohort, done: seq<Answer>, calls: map<nat, Request>, handle: nat, req: Request)
    requires WaitersOk(s, calls) && CacheTrue(s, done) && RepliesOwn(s, done, calls)
    requires handle in calls && calls[handle] == req && Succ(s.latest) !in s.log
    ensures var t := LogRequest(s, handle, req);
            WaitersOk(t, calls) && CacheTrue(t, done) && RepliesOwn(t, done, calls)
  {
    hide Produced, ProducedFor, JumpsUpdate;
    var t := LogRequest(s, handle, req);
    assert t.log.Keys == s.log.Keys + {Succ(s.latest)};
  }

  lemma CachedReplyAnswers(s: Cohort, done: seq<Answer>, calls: map<nat, Request>, handle: nat, req: Request)
    requires WaitersOk(s, calls) && CacheTrue(s, done) && RepliesOwn(s, done, calls)
    requires handle in calls && calls[handle] == req
    requires Cached(s, req.client, req.rid).Some? && Cached(s, req.client, req.rid).value.state == Executed
    requires forall i :: 0 <= i < |done| ==> Finished(s, done[i].sub)
    ensures var t := Reply(s, handle, Ok(s.cache[req.client].reply));
            WaitersOk(t, calls) && CacheTrue(t, done) && RepliesOwn(t, done, calls)
    ensures ProducedFor(done, req, s.cache[req.client].reply)
  {
    var e := s.cache[req.client];
    var i :| 0 <= i < |done| && done[i].sub.vs == e.rle && done[i].reply == e.reply;
    assert Finished(s, done[i].sub) && SameCall(done[i].sub.req, req);
    hide Produced;
  }

  lemma ExecuteAnswers(n: Node, handle: nat, req: Request)
    requires Inv(n.cohort) && QueueOk(n) && AnswersOk(n) && handle !in n.calls
    requires TakesRequest(n.cohort, req) ==> Succ(n.cohort.latest) !in n.cohort.log
    ensures var t, calls := OnExecute(n.cohort, handle, req), n.calls[handle := req];
            WaitersOk(t, calls) && CacheTrue(t, n.server.done) && RepliesOwn(t, n.server.done, calls)
  {
    var s, done, calls := n.cohort, n.server.done, n.calls[handle := req];
    MoreCalls(s, done, n.calls, handle, req);
    assert forall i :: 0 <= i < |done| ==> Finished(s, done[i].sub);
    hide QueueOk, WaitersOk, CacheTrue, RepliesOwn, Inv, Park, LogRequest, AdvanceCommitted, Stale, Reply, Finished;
    var s1 := Park(s, req, None);
    ParkAnswers(s, done, calls, req, None);
    ParkAnswers(s, done, calls, req, Some(handle));
    ParkKeeps(s, req, None);
    RedirectAnswers(s1, done, calls, handle, s.view.vid, s.view.primary);
    var hit := Cached(s, req.client, req.rid);
    if hit.Some? && hit.value.state == Executed {
      CachedReplyAnswers(s, done, calls, handle, req);
    }
    if TakesRequest(s, req) {
      var s2 := LogRequest(s1, handle, req);
      LogRequestAnswers(s1, done, calls, handle, req);
      LogRequestKeeps(s1, handle, req);
      AdvanceCommittedWork(s2);
      WorkAnswers(s2, AdvanceCommitted(s2), done, calls);
    }
  }

  /** What `execute_done` does to the waiting clients, the cache and the replies sent. */
  lemma CompleteAnswers(s: Cohort, sub: Submission, reply: string, done: seq<Answer>, calls: map<nat, Request>)
    requires Running(s, sub) && WaitersOk(s, calls) && CacheTrue(s, done) && RepliesOwn(s, done, calls)
    requires Produced(done, sub.vs, reply) && forall r :: SameCall(sub.req, r) ==> ProducedFor(done, r, reply)
    ensures var t := Complete(s, sub.vs, reply); WaitersOk(t, calls) && CacheTrue(t, done) && RepliesOwn(t, done, calls)
  {
    ExecuteDoneLog(s, sub.vs, reply);
    var t := Complete(s, sub.vs, reply);
    assert t == ExecuteDone(s, sub.vs, reply);
    hide Produced, ProducedFor, ExecuteDone, Complete;
    assert t.log.Keys == s.log.Keys;
  }

  lemma ReplyAnswers(n: Node, reply: string)
    requires QueueOk(n) && AnswersOk(n) && n.server.up && n.server.wire != [] && n.server.rq != []
    ensures AnswersOk(n.(server := Packet(n.server, reply), cohort := Complete(n.cohort, n.server.rq[0].vs, reply)))
  {
    var s, sub, calls := n.cohort, n.server.rq[0], n.calls;
    PacketAnswersFront(n.server, reply);
    assert Running(s, sub);
    var a := Answer(sub, sub, reply);
    var done := n.server.done + [a];
    assert done[|n.server.done|] == a;
    assert Produced(done, sub.vs, reply) && forall r :: SameCall(sub.req, r) ==> ProducedFor(done, r, reply);
    hide QueueOk, Packet, Produced, ProducedFor, Complete, WaitersOk, CacheTrue, RepliesOwn, Running, SameCall;
    MoreDone(s, n.server.done, calls, a);
    CompleteAnswers(s, sub, reply, done, calls);
  }

  // ---------------------------------------------------------------- every run

  ghost predicate NodeOk(n: Node) {
    Inv(n.cohort) && Unexecuted(n.cohort) && QueueOk(n) && AnswersOk(n) && (n.cohort.mode == Active ==> n.cohort.validView)
  }

  lemma UnexecutedStays(s: Cohort, t: Cohort)
    requires Unexecuted(s) && Submits(s, t)
    ensures Unexecuted(t)
  {
  }

  lemma HandledAnswers(n: Node, e: CohortSpec.Event, n': Node)
    requires NodeOk(n) && NodeStep(n, Handles(e), n')
    ensures AnswersOk(n')
  {
    var s, t := n.cohort, Handle(n.cohort, e);
    FeedKeeps(n.server, NewJobs(s, t));
    hide Inv, QueueOk, Unexecuted, WaitersOk, CacheTrue, RepliesOwn, Feed, NewJobs, OnExecute, Work, TakesRequest;
    if e.Execute? {
      ExecuteAnswers(n, e.handle, e.req);
    } else {
      hide Handle;
      HandleWork(s, e);
      WorkAnswers(s, t, n.server.done, n.calls);
    }
  }

  lemma HandledOk(n: Node, e: CohortSpec.Event, n': Node)
    requires NodeOk(n) && NodeStep(n, Handles(e), n')
    ensures NodeOk(n')
  {
    HandledAnswers(n, e, n');
    hide Inv, QueueOk, Unexecuted, AnswersOk, Feed, NewJobs, Submits, Handle, Grows;
    HandleKeeps(n.cohort, e);
    HandleSubmits(n.cohort, e);
    UnexecutedStays(n.cohort, n'.cohort);
    HandledQueue(n, n'.cohort, n'.calls);
    ActiveHasView(n.cohort, e);
  }

  lemma RepliedOk(n: Node, reply: string, n': Node)
    requires NodeOk(n) && NodeStep(n, BackendReply(reply), n')
    ensures NodeOk(n')
  {
    var s, sub := n.cohort, n.server.rq[0];
    RepliedQueue(n, reply);
    ReplyAnswers(n, reply);
    CompletionExpected(n, reply);
    hide QueueOk, AnswersOk, Packet, Complete, Grows;
    HandleKeeps(s, ExecDone(sub.vs, reply));
    ActiveHasView(s, ExecDone(sub.vs, reply));
    ExecuteDoneLog(s, sub.vs, reply);
    hide ExecuteDone, Inv;
    SubmittedBelow(n, s, sub.vs);
  }

  /** What is running lies at or below the executed stamp. */
  lemma SubmittedBelow(n: Node, s: Cohort, vs: Viewstamp)
    requires QueueOk(n) && Inv(n.cohort) && n.server.rq != [] && vs == n.server.rq[0].vs
    ensures Le(vs, n.cohort.executed)
  {
    assert n.cohort.submitted[|n.server.done|] == n.server.rq[0];
    assert SubmittedInOrder(n.cohort);
  }

  lemma ConnectionOk(n: Node, ev: NodeEvent, n': Node)
    requires NodeOk(n) && NodeStep(n, ev, n') && (ev.BackendUp? || ev.BackendGone?)
    ensures NodeOk(n') && n'.cohort == n.cohort
  {
    hide Inv, Unexecuted, WaitersOk, CacheTrue, RepliesOwn;
    var any := Submission(ZERO_STAMP, Request(0, 0, ZERO_VID, ""));
    StepsKeepOk(n.server, any, "");
    OthersKeepQueue(n.server, any);
    hide Connected, Eof, ServerOk;
  }

  lemma StepKeepsNode(n: Node, ev: NodeEvent, n': Node)
    requires NodeOk(n) && NodeStep(n, ev, n')
    ensures NodeOk(n')
  {
    hide NodeOk, NodeStep;
    match ev
    case Handles(e) => HandledOk(n, e, n');
    case BackendReply(reply) => RepliedOk(n, reply, n');
    case _ => ConnectionOk(n, ev, n');
  }

  /** A cohort starts with an empty queue, having answered nobody. */
  lemma StartNode(self: Mid)
    ensures NodeOk(Node(Founder(self), INITIAL, map[])) && NodeOk(Node(Joiner(self), INITIAL, map[]))
  {
    var f := Founder(self);
    assert f.log.Keys == {FormStamp(SyntheticView(self))} && f.jumps.Keys == {ZERO_STAMP};
    assert Jobs([]) == [];
  }

  ghost predicate NodeRun(ns: seq<Node>, evs: seq<NodeEvent>) {
    && |ns| == |evs| + 1 && NodeOk(ns[0])
    && forall k :: 0 <= k < |evs| ==> NodeStep(ns[k], evs[k], ns[k + 1])
  }

  lemma {:induction false} NodeRunOk(ns: seq<Node>, evs: seq<NodeEvent>, k: nat)
    requires NodeRun(ns, evs) && k < |ns|
    ensures NodeOk(ns[k])
  {
    hide NodeOk, NodeStep;
    if k > 0 {
      NodeRunOk(ns, evs, k - 1);
      StepKeepsNode(ns[k - 1], evs[k - 1], ns[k]);
    }
  }

  /** In every run: the completed requests are a prefix of those handed to the state machine, in stamp
      order, each completed once with the reply to itself, and at most one is in flight. */
  lemma CompletionsInOrder(ns: seq<Node>, evs: seq<NodeEvent>, k: nat)
    requires NodeRun(ns, evs) && k < |ns|
    ensures var n := ns[k];
            && Jobs(n.server.done) <= n.cohort.submitted && OwnReplies(n.server)
            && |n.server.wire| + n.server.connects <= 1
            && (forall i, j :: 0 <= i < j < |n.server.done| ==> Lt(n.server.done[i].sub.vs, n.server.done[j].sub.vs))
            && (forall i :: 0 <= i < |n.server.done| ==> Finished(n.cohort, n.server.done[i].sub))
  {
    NodeRunOk(ns, evs, k);
    var n := ns[k];
    assert SubmittedInOrder(n.cohort);
    hide NodeRun, Inv, Unexecuted, AnswersOk, Finished;
    AtMostOne(n.server);
    forall i, j | 0 <= i < j < |n.server.done| ensures Lt(n.server.done[i].sub.vs, n.server.done[j].sub.vs) {
      assert n.server.done[i].sub == n.cohort.submitted[i] && n.server.done[j].sub == n.cohort.submitted[j];
    }
  }

  /** In every run every client that is sent a reply is sent one that executing its own request has
      produced, whether at once or out of the cache. */
  lemma RepliesAreOwn(ns: seq<Node>, evs: seq<NodeEvent>, k: nat, handle: nat, reply: string)
    requires NodeRun(ns, evs) && k < |ns| && ClientReply(handle, Ok(reply)) in ns[k].cohort.sent
    ensures handle in ns[k].calls && ProducedFor(ns[k].server.done, ns[k].calls[handle], reply)
  {
    NodeRunOk(ns, evs, k);
    hide NodeRun, Inv, Unexecuted, QueueOk, WaitersOk, CacheTrue, ProducedFor;
  }
}
