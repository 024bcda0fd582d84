/** Retransmissions: how often one request is logged, and what its client is answered. */
module ReplyCache {
  import opened Stamps
  import opened CohortSpec
  import opened CohortInvariants
  import opened RequestStates
  import opened ExecServer
  import opened Completions

  /** All the client's other requests in this cohort's log have been executed. */
  ghost predicate OneOutstanding(s: Cohort, c: Mid, rid: nat) {
    forall k :: k in s.log && s.log[k].arg.Client? && s.log[k].arg.req.client == c && s.log[k].arg.req.rid != rid ==>
      s.log[k].state == Executed
  }

  /** The client sends nothing but this request. */
  ghost predicate OnlySends(ev: NodeEvent, c: Mid, rid: nat) {
    ev.Handles? && ev.ev.Execute? && ev.ev.req.client == c ==> ev.ev.req.rid == rid
  }

  /** The cache knows the request, and the entry it points to was logged in view v or later, or has been
      executed; or the cohort has moved past v. */
  ghost predicate Placed(s: Cohort, c: Mid, rid: nat, v: Viewid) {
    && s.validView && VidLe(v, s.view.vid)
    && (VidLt(v, s.view.vid)
        || (c in s.cache && s.cache[c].rid == rid && s.cache[c].rle in s.log
            && (!VidLt(s.cache[c].rle.vid, v) || s.log[s.cache[c].rle].state == Executed)))
  }

  /** The cache holds the reply to this request. */
  ghost predicate Settled(s: Cohort, c: Mid, rid: nat) {
    c in s.cache && s.cache[c].rid == rid && s.cache[c].rle in s.log && s.log[s.cache[c].rle].state == Executed
  }

  lemma PlacedNotTaken(s: Cohort, req: Request)
    requires Placed(s, req.client, req.rid, req.vid)
    ensures !TakesRequest(s, req)
  {
  }

  /** What EXECUTE does to the reply cache. */
  lemma ExecuteCache(s: Cohort, handle: nat, req: Request)
    ensures var t := OnExecute(s, handle, req);
            if TakesRequest(s, req)
            then t.cache.Keys == s.cache.Keys + {req.client}
                 && t.cache[req.client].rid == req.rid && t.cache[req.client].rle == Succ(s.latest)
                 && forall c :: c in s.cache && c != req.client ==> t.cache[c] == s.cache[c]
            else t.cache == s.cache
  {
    hide AdvanceCommitted, Stale, LogRequest, Park, Reply;
    ParkCache(s, req, None);
    ParkCache(s, req, Some(handle));
    if TakesRequest(s, req) {
      var s1 := Park(s, req, None);
      LogRequestCache(s1, handle, req);
      AdvanceCommittedCache(LogRequest(s1, handle, req));
    } else {
      ReplyCached(s, handle, Ok(if req.client in s.cache then s.cache[req.client].reply else ""));
      ReplyCached(Park(s, req, None), handle, Redirect(s.view.vid, s.view.primary));
    }
  }

  lemma ParkCache(s: Cohort, req: Request, handle: Option<nat>)
    ensures Park(s, req, handle).cache == s.cache && Park(s, req, handle).latest == s.latest
  {
  }

  lemma ReplyCached(s: Cohort, handle: nat, res: ExecRes)
    ensures Reply(s, handle, res).cache == s.cache
  {
  }

  lemma LogRequestCache(s: Cohort, handle: nat, req: Request)
    ensures exists x :: LogRequest(s, handle, req).cache == s.cache[req.client := CacheEntry(req.rid, Succ(s.latest), x)]
  {
    hide JumpsUpdate, PrimaryEntry;
  }

  lemma AdvanceCommittedCache(s: Cohort)
    ensures AdvanceCommitted(s).cache == s.cache
  {
    var t := CommitFrom(s, VsNext(s.jumps, s.committed));
    CommitFromFrame(s, VsNext(s.jumps, s.committed));
    ExecFromFrame(t, VsNext(t.jumps, t.executed));
  }

  /** An executed entry stays executed. */
  lemma ExecutedStays(s: Cohort, t: Cohort, k: Viewstamp)
    requires Unexecuted(s) && Submits(s, t) && k in s.log && s.log[k].arg.Client? && s.log[k].state == Executed
    ensures k in t.log && t.log[k].state == Executed
  {
    assert Le(k, s.executed);
  }

  /** The event leaves the client's cache entry alone, or takes the request, or completes it. */
  lemma CacheStep(n: Node, ev: NodeEvent, n': Node, c: Mid, rid: nat)
    requires NodeOk(n) && NodeStep(n, ev, n') && OneOutstanding(n.cohort, c, rid) && OnlySends(ev, c, rid)
    requires c in n.cohort.cache
    ensures Grows(n.cohort, n'.cohort) && c in n'.cohort.cache
    ensures || n'.cohort.cache[c] == n.cohort.cache[c]
            || Settled(n'.cohort, c, rid)
            || (ev.Handles? && ev.ev.Execute? && SameCall(ev.ev.req, Request(c, rid, ZERO_VID, ""))
                && TakesRequest(n.cohort, ev.ev.req))
  {
    var s, t := n.cohort, n'.cohort;
    hide Unexecuted, AnswersOk, Inv, Grows, Feed, NewJobs, TakesRequest;
    match ev
    case Handles(e) =>
      hide QueueOk;
      HandleKeeps(s, e);
      if e.Execute? {
        ExecuteCache(s, e.handle, e.req);
        hide OnExecute;
      } else {
        hide Handle;
        HandleWork(s, e);
      }
    case BackendReply(reply) => CompletionCache(n, reply, c, rid);
    case _ =>
      hide QueueOk;
      GrowsRefl(s);
  }

  lemma CompletionCache(n: Node, reply: string, c: Mid, rid: nat)
    requires NodeOk(n) && OneOutstanding(n.cohort, c, rid)
    requires n.server.up && n.server.wire != [] && n.server.rq != []
    ensures var t := Complete(n.cohort, n.server.rq[0].vs, reply);
            && Grows(n.cohort, t)
            && (n.server.rq[0].req.client == c ==> Settled(t, c, rid))
            && (n.server.rq[0].req.client != c && c in n.cohort.cache ==> c in t.cache && t.cache[c] == n.cohort.cache[c])
  {
    var s, sub := n.cohort, n.server.rq[0];
    assert Running(s, sub);
    CompletionExpected(n, reply);
    HandleKeeps(s, ExecDone(sub.vs, reply));
    ExecuteDoneLog(s, sub.vs, reply);
    hide Inv, QueueOk, AnswersOk, Unexecuted, Grows, ExecuteDone, Complete;
  }

  /** The entry the cache points to stays executed. */
  lemma CachedStaysExecuted(n: Node, ev: NodeEvent, n': Node, c: Mid)
    requires NodeOk(n) && NodeStep(n, ev, n') && c in n.cohort.cache && n.cohort.cache[c].rle in n.cohort.log
    requires n.cohort.log[n.cohort.cache[c].rle].state == Executed
    ensures n.cohort.cache[c].rle in n'.cohort.log && n'.cohort.log[n.cohort.cache[c].rle].state == Executed
  {
    var s, t, k := n.cohort, n'.cohort, n.cohort.cache[c].rle;
    assert s.log[k].arg.Client? by { assert CacheTrue(s, n.server.done); }
    hide Inv, QueueOk, AnswersOk, Unexecuted, Feed, NewJobs;
    match ev
    case Handles(e) =>
      hide Handle;
      HandleSubmits(s, e);
      ExecutedStays(s, t, k);
    case BackendReply(reply) =>
      var sub := n.server.rq[0];
      CompletionExpected(n, reply);
      ExecuteDoneLog(s, sub.vs, reply);
      hide ExecuteDone;
    case _ =>
  }

  lemma PlacedStays(n: Node, ev: NodeEvent, n': Node, c: Mid, rid: nat, v: Viewid)
    requires NodeOk(n) && NodeStep(n, ev, n') && OneOutstanding(n.cohort, c, rid) && OnlySends(ev, c, rid)
    requires Placed(n.cohort, c, rid, v)
    ensures Placed(n'.cohort, c, rid, v)
  {
    var s, t := n.cohort, n'.cohort;
    StepGrows(n, ev, n');
    GrowsMeans(s, t);
    hide NodeOk, NodeStep, OneOutstanding, Grows;
    if !VidLt(v, s.view.vid) {
      CacheStep(n, ev, n', c, rid);
      if s.log[s.cache[c].rle].state == Executed { CachedStaysExecuted(n, ev, n', c); }
      if ev.Handles? && ev.ev.Execute? && SameCall(ev.ev.req, Request(c, rid, ZERO_VID, "")) && TakesRequest(s, ev.ev.req) {
        PlacedNotTaken(s, ev.ev.req);
        assert false;
      }
    }
  }

  lemma StepGrows(n: Node, ev: NodeEvent, n': Node)
    requires NodeOk(n) && NodeStep(n, ev, n')
    ensures Grows(n.cohort, n'.cohort)
  {
    hide Unexecuted, AnswersOk, Inv, Grows, Feed, NewJobs, Handle;
    match ev
    case Handles(e) => HandleKeeps(n.cohort, e);
    case BackendReply(reply) =>
      CompletionExpected(n, reply);
      HandleKeeps(n.cohort, ExecDone(n.server.rq[0].vs, reply));
    case _ => GrowsRefl(n.cohort);
  }

  lemma GrowsMeans(s: Cohort, t: Cohort)
    requires Grows(s, t) && s.validView
    ensures t.validView && VidLe(s.view.vid, t.view.vid)
    ensures forall k :: k in s.log ==> k in t.log && t.log[k].arg == s.log[k].arg
  {
  }

  lemma SettledStays(n: Node, ev: NodeEvent, n': Node, c: Mid, rid: nat)
    requires NodeOk(n) && NodeStep(n, ev, n') && OneOutstanding(n.cohort, c, rid) && OnlySends(ev, c, rid)
    requires Settled(n.cohort, c, rid)
    ensures Settled(n'.cohort, c, rid)
  {
    hide NodeOk, NodeStep, OneOutstanding, Grows, Stale;
    CacheStep(n, ev, n', c, rid);
    CachedStaysExecuted(n, ev, n', c);
  }

  // ---------------------------------------------------------------- runs

  /** Between two moments the client has one outstanding request, and retransmits only that. */
  ghost predicate Retransmits(ns: seq<Node>, evs: seq<NodeEvent>, i: nat, j: nat, c: Mid, rid: nat)
    requires NodeRun(ns, evs) && i <= j <= |evs|
  {
    forall k :: i <= k < j ==> OneOutstanding(ns[k].cohort, c, rid) && OnlySends(evs[k], c, rid)
  }

  lemma {:induction false} PlacedThroughout(ns: seq<Node>, evs: seq<NodeEvent>, i: nat, j: nat, c: Mid, rid: nat, v: Viewid)
    requires NodeRun(ns, evs) && i <= j <= |evs| && Retransmits(ns, evs, i, j, c, rid)
    requires Placed(ns[i].cohort, c, rid, v)
    ensures Placed(ns[j].cohort, c, rid, v)
    decreases j - i
  {
    hide NodeOk, NodeStep, Placed, OneOutstanding, OnlySends;
    if i < j {
      PlacedThroughout(ns, evs, i, j - 1, c, rid, v);
      NodeRunOk(ns, evs, j - 1);
      PlacedStays(ns[j - 1], evs[j - 1], ns[j], c, rid, v);
    }
  }

  lemma {:induction false} SettledThroughout(ns: seq<Node>, evs: seq<NodeEvent>, i: nat, j: nat, c: Mid, rid: nat)
    requires NodeRun(ns, evs) && i <= j <= |evs| && Retransmits(ns, evs, i, j, c, rid)
    requires Settled(ns[i].cohort, c, rid)
    ensures Settled(ns[j].cohort, c, rid)
    decreases j - i
  {
    hide NodeOk, NodeStep, Settled, OneOutstanding, OnlySends;
    if i < j {
      SettledThroughout(ns, evs, i, j - 1, c, rid);
      NodeRunOk(ns, evs, j - 1);
      SettledStays(ns[j - 1], evs[j - 1], ns[j], c, rid);
    }
  }

  lemma TakenIsPlaced(n: Node, handle: nat, req: Request, n': Node)
    requires NodeOk(n) && NodeStep(n, Handles(Execute(handle, req)), n') && TakesRequest(n.cohort, req)
    requires !VidLt(n.cohort.latest.vid, req.vid)
    ensures Placed(n'.cohort, req.client, req.rid, req.vid)
  {
    var s, t := n.cohort, n'.cohort;
    StepGrows(n, Handles(Execute(handle, req)), n');
    GrowsMeans(s, t);
    ExecuteCache(s, handle, req);
    StepKeepsNode(n, Handles(Execute(handle, req)), n');
    hide Inv, QueueOk, Unexecuted, Feed, NewJobs, OnExecute, Grows, Cached, Stale, WaitersOk, RepliesOwn;
  }

  /** However often a client retransmits its one outstanding request, a primary whose `latest` lies in
      its own view gives it at most one viewstamp per view. */
  lemma OneStampPerView(ns: seq<Node>, evs: seq<NodeEvent>, i: nat, j: nat, h: nat, h': nat, a: Request, b: Request)
    requires NodeRun(ns, evs) && i < j < |evs|
    requires evs[i] == Handles(Execute(h, a)) && evs[j] == Handles(Execute(h', b)) && SameCall(a, b) && a.vid == b.vid
    requires TakesRequest(ns[i].cohort, a) && !VidLt(ns[i].cohort.latest.vid, a.vid)
    requires Retransmits(ns, evs, i + 1, j, a.client, a.rid)
    ensures !TakesRequest(ns[j].cohort, b)
  {
    hide NodeOk, Retransmits, TakesRequest, Placed;
    NodeRunOk(ns, evs, i);
    assert NodeStep(ns[i], evs[i], ns[i + 1]);
    hide NodeStep;
    TakenIsPlaced(ns[i], h, a, ns[i + 1]);
    PlacedThroughout(ns, evs, i + 1, j, a.client, a.rid, a.vid);
    PlacedNotTaken(ns[j].cohort, b);
  }

  /** Once the request is executed its client always gets the reply that the execution of an entry for
      it produced, and it is not logged again. */
  lemma ExecutedIsAnswered(ns: seq<Node>, evs: seq<NodeEvent>, i: nat, j: nat, handle: nat, req: Request)
    requires NodeRun(ns, evs) && i < j < |evs| && evs[j] == Handles(Execute(handle, req))
    requires evs[i].BackendReply? && ns[i].server.rq != [] && ns[i].server.rq[0].req.client == req.client
    requires Retransmits(ns, evs, i, j, req.client, req.rid)
    ensures Settled(ns[j].cohort, req.client, req.rid)
    ensures ns[j].cohort.mode == Active ==>
              var x := ns[j].cohort.cache[req.client].reply;
              && ProducedFor(ns[j].server.done, req, x)
              && ns[j + 1].cohort == Reply(ns[j].cohort, handle, Ok(x))
  {
    NodeRunOk(ns, evs, i);
    NodeRunOk(ns, evs, j);
    assert NodeStep(ns[i], evs[i], ns[i + 1]) && NodeStep(ns[j], evs[j], ns[j + 1]);
    assert OneOutstanding(ns[i].cohort, req.client, req.rid);
    CompletionCache(ns[i], evs[i].reply, req.client, req.rid);
    assert Retransmits(ns, evs, i + 1, j, req.client, req.rid);
    hide NodeRun, Retransmits, Complete, Settled, Packet, Feed, NewJobs;
    SettledThroughout(ns, evs, i + 1, j, req.client, req.rid);
    SettledReply(ns[j], handle, req);
  }

  lemma SettledReply(n: Node, handle: nat, req: Request)
    requires NodeOk(n) && Settled(n.cohort, req.client, req.rid)
    ensures n.cohort.mode == Active ==>
              var x := n.cohort.cache[req.client].reply;
              ProducedFor(n.server.done, req, x) && OnExecute(n.cohort, handle, req) == Reply(n.cohort, handle, Ok(x))
  {
    var e, done := n.cohort.cache[req.client], n.server.done;
    assert Produced(done, e.rle, e.reply);
    var i :| 0 <= i < |done| && done[i].sub.vs == e.rle && done[i].reply == e.reply;
    assert Finished(n.cohort, done[i].sub) && SameCall(done[i].sub.req, req);
    hide Inv, Unexecuted, WaitersOk, RepliesOwn, LogRequest, AdvanceCommitted, Park;
  }

  /** The discipline is needed: if another request of the same client is still being executed when the
      primary logs this one, its completion takes over the cache entry, and a retransmission in the
      same view is logged a second time. */
  lemma CompletionForgets(s: Cohort, handle: nat, req: Request, k: Viewstamp, reply: string)
    requires Inv(s) && TakesRequest(s, req) && Succ(s.latest) !in s.log
    requires k in s.log && s.log[k].arg.Client? && s.log[k].arg.req.client == req.client && s.log[k].arg.req.rid != req.rid
    ensures var u := OnExecute(s, handle, req);
            && k in u.log && u.log[k].arg.Client?
            && (var t := ExecuteDone(u, k, reply);
                t.mode == Active && t.view == s.view && t.self == s.self ==> TakesRequest(t, req))
  {
    OnExecuteKeeps(s, handle, req);
    var u := OnExecute(s, handle, req);
    GrowsLog(s, u);
    ExecuteDoneLog(u, k, reply);
    hide OnExecute, Inv, Grows, ExecuteDone;
  }

  lemma GrowsLog(s: Cohort, t: Cohort)
    requires Grows(s, t)
    ensures forall k :: k in s.log ==> k in t.log && t.log[k].arg == s.log[k].arg
  {
  }
}
