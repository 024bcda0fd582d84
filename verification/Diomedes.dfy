/**
 * Primary/backup replication in Diomedes (diomedes.cc) with one steady primary: the primary numbers
 * client requests and broadcasts each once; backups apply them in order.
 */
module Diomedes {

  /** Request identifiers are unsigned 32-bit numbers. */
  const LIMIT := 0x1_0000_0000

  datatype Req = Req(client: nat, xid: nat, body: string)
  datatype Resp = Resp(xid: nat, body: string)

  /** A deterministic state machine: what it answers is a function of all it has been sent. */
  type Backend = seq<Req> -> Resp

  const CLIENT_REQUEST := 'Q'
  const PRIMARY_REQUEST := 'R'

  /** A client request or primary request message. */
  datatype Packet = Packet(kind: char, id: nat, req: Req)

  const ZERO_PACKET := Packet('\0', 0, Req(0, 0, ""))

  /** What RunRequest works on: the requests the state machine has been sent, and the response cache. */
  datatype Core = Core(machine: seq<Req>, responses: map<nat, Resp>)

  datatype Reply = Reply(client: nat, resp: Resp)

  /** One server. `waiting` is the mode WAITING_FOR_REQUESTS of a primary; `sent`, `votes` and `replies`
      are what it has put on the network; `failed` records a failed CHECK. */
  datatype Replica = Replica(curr: nat, lastValid: nat, last: Packet, core: Core, waiting: bool,
                             sent: set<Packet>, votes: set<Packet>, replies: set<Reply>, failed: bool)

  const FRESH := Replica(0, 0, ZERO_PACKET, Core([], map[]), true, {}, {}, {}, false)

  /** Whether RunRequest answers from the cache. */
  predicate IsCached(c: Core, req: Req) {
    req.client in c.responses && c.responses[req.client].xid == req.xid
  }

  /** RunRequest. */
  function RunRequest(backend: Backend, c: Core, req: Req): Core {
    if IsCached(c, req) then c
    else
      var m := c.machine + [req];
      Core(m, c.responses[req.client := backend(m)])
  }

  /** SendVote, with its two checks on the remembered request. */
  function SendVote(s: Replica): Replica {
    if s.last.id != s.curr || (s.last.kind != PRIMARY_REQUEST && s.last.kind != '\0') then s.(failed := true)
    else s.(votes := s.votes + {s.last})
  }

  /** HandleRequestAsPrimary. */
  function HandleRequest(backend: Backend, s: Replica, msg: Packet): Replica {
    if !s.waiting then s.(failed := true)
    else if msg.kind != CLIENT_REQUEST then s
    else
      var id := (s.curr + 1) % LIMIT;
      var pkt := Packet(PRIMARY_REQUEST, id, msg.req);
      var s1 := s.(last := pkt, curr := id, sent := s.sent + {pkt}, core := RunRequest(backend, s.core, msg.req));
      if IsCached(s.core, msg.req)
      then s1.(replies := s.replies + {Reply(msg.req.client, s.core.responses[msg.req.client])})
      else s1.(waiting := false)
  }

  /** ProcessPrimaryMessage of a PRIMARY_REQUEST. */
  function ProcessPrimary(backend: Backend, s: Replica, msg: Packet): Replica {
    if msg.id <= s.curr then SendVote(s)
    else if msg.id - 1 == s.curr then
      SendVote(s.(last := msg, core := RunRequest(backend, s.core, msg.req),
                  lastValid := s.curr, curr := (s.curr + 1) % LIMIT))
    else s
  }

  // ---------------------------------------------------------------- a cluster

  /** `numbered` records the requests the primary has numbered, in order. */
  datatype Cluster = Cluster(primary: Replica, backups: map<nat, Replica>, numbered: seq<Req>)

  datatype Event =
    | ClientMsg(msg: Packet)
    | Acknowledged
    | Deliver(to: nat, msg: Packet)
    | Poll(at: nat)

  /** The network may deliver any broadcast never, late, repeatedly and in any order. */
  ghost predicate Step(backend: Backend, c: Cluster, e: Event, c': Cluster) {
    match e
    case ClientMsg(msg) =>
      && c.primary.waiting
      && c' == c.(primary := HandleRequest(backend, c.primary, msg),
                  numbered := if msg.kind == CLIENT_REQUEST then c.numbered + [msg.req] else c.numbered)
    case Acknowledged => c' == c.(primary := c.primary.(waiting := true))
    case Deliver(b, msg) =>
      && b in c.backups && msg in c.primary.sent
      && c' == c.(backups := c.backups[b := ProcessPrimary(backend, c.backups[b], msg)])
    case Poll(b) => b in c.backups && c' == c.(backups := c.backups[b := SendVote(c.backups[b])])
  }

  /** Running requests one after another from the start. */
  ghost function Applied(backend: Backend, reqs: seq<Req>): Core {
    if reqs == [] then Core([], map[])
    else RunRequest(backend, Applied(backend, reqs[..|reqs| - 1]), reqs[|reqs| - 1])
  }

  /** The remembered request of a replica that has gone through the first k requests. */
  ghost function PacketAt(numbered: seq<Req>, k: nat): Packet
    requires k <= |numbered|
  {
    if k == 0 then ZERO_PACKET else Packet(PRIMARY_REQUEST, k, numbered[k - 1])
  }

  /** The replica has gone through exactly the first `curr` requests. */
  ghost predicate AtPrefix(backend: Backend, s: Replica, numbered: seq<Req>) {
    && s.curr <= |numbered|
    && s.core == Applied(backend, numbered[..s.curr])
    && s.last == PacketAt(numbered, s.curr)
    && !s.failed
    && (forall v :: v in s.votes ==> v.id <= s.curr && v == PacketAt(numbered, v.id))
  }

  ghost predicate ClusterOk(backend: Backend, c: Cluster) {
    && |c.numbered| < LIMIT
    && c.primary.curr == |c.numbered| && AtPrefix(backend, c.primary, c.numbered)
    && (forall m :: m in c.primary.sent ==> 1 <= m.id <= |c.numbered| && m == PacketAt(c.numbered, m.id))
    && (forall b :: b in c.backups ==> AtPrefix(backend, c.backups[b], c.numbered))
  }

  lemma VoteStays(backend: Backend, s: Replica, numbered: seq<Req>)
    requires AtPrefix(backend, s, numbered)
    ensures AtPrefix(backend, SendVote(s), numbered)
  {
  }

  lemma PrefixGrows(backend: Backend, s: Replica, numbered: seq<Req>, req: Req)
    requires AtPrefix(backend, s, numbered)
    ensures AtPrefix(backend, s, numbered + [req])
  {
    assert (numbered + [req])[..s.curr] == numbered[..s.curr];
  }

  lemma AppliedNext(backend: Backend, numbered: seq<Req>, k: nat)
    requires k < |numbered|
    ensures Applied(backend, numbered[..k + 1]) == RunRequest(backend, Applied(backend, numbered[..k]), numbered[k])
  {
    assert numbered[..k + 1][..k] == numbered[..k];
  }

  lemma DeliverStays(backend: Backend, s: Replica, numbered: seq<Req>, msg: Packet)
    requires AtPrefix(backend, s, numbered) && |numbered| < LIMIT
    requires 1 <= msg.id <= |numbered| && msg == PacketAt(numbered, msg.id)
    ensures AtPrefix(backend, ProcessPrimary(backend, s, msg), numbered)
  {
    VoteStays(backend, s, numbered);
    if msg.id == s.curr + 1 {
      AppliedNext(backend, numbered, s.curr);
    }
  }

  lemma PrimaryStays(backend: Backend, s: Replica, numbered: seq<Req>, msg: Packet)
    requires AtPrefix(backend, s, numbered) && s.curr == |numbered| && s.waiting
    requires msg.kind == CLIENT_REQUEST && |numbered| + 1 < LIMIT
    ensures var t, n := HandleRequest(backend, s, msg), numbered + [msg.req];
            t.curr == |n| && AtPrefix(backend, t, n) && t.sent == s.sent + {PacketAt(n, |n|)}
  {
    var n := numbered + [msg.req];
    assert n[..|n| - 1] == numbered == numbered[..s.curr] && n[..|n|] == n;
    AppliedNext(backend, n, |numbered|);
  }

  /** Every step keeps the cluster in order, up to 2^32 - 1 requests. */
  lemma StepKeeps(backend: Backend, c: Cluster, e: Event, c': Cluster)
    requires ClusterOk(backend, c) && Step(backend, c, e, c') && |c'.numbered| < LIMIT
    ensures ClusterOk(backend, c')
  {
    hide AtPrefix;
    match e
    case ClientMsg(msg) =>
      if msg.kind == CLIENT_REQUEST {
        PrimaryStays(backend, c.primary, c.numbered, msg);
        forall b | b in c'.backups ensures AtPrefix(backend, c'.backups[b], c'.numbered) {
          PrefixGrows(backend, c.backups[b], c.numbered, msg.req);
        }
      }
    case Acknowledged => WaitingStays(backend, c.primary, c.numbered);
    case Deliver(b, msg) => DeliverStays(backend, c.backups[b], c.numbered, msg);
    case Poll(b) => VoteStays(backend, c.backups[b], c.numbered);
  }

  lemma WaitingStays(backend: Backend, s: Replica, numbered: seq<Req>)
    requires AtPrefix(backend, s, numbered)
    ensures AtPrefix(backend, s.(waiting := true), numbered)
  {
  }

  ghost predicate IsRun(backend: Backend, cs: seq<Cluster>, es: seq<Event>) {
    && |cs| == |es| + 1
    && cs[0].primary == FRESH && cs[0].numbered == []
    && (forall b :: b in cs[0].backups ==> cs[0].backups[b] == FRESH)
    && (forall k :: 0 <= k < |es| ==> Step(backend, cs[k], es[k], cs[k + 1]))
  }

  lemma {:induction false} RunOk(backend: Backend, cs: seq<Cluster>, es: seq<Event>, k: nat)
    requires IsRun(backend, cs, es) && k < |cs| && |cs[k].numbered| < LIMIT
    ensures ClusterOk(backend, cs[k])
  {
    if k > 0 {
      assert Step(backend, cs[k - 1], es[k - 1], cs[k]);
      RunOk(backend, cs, es, k - 1);
      hide ClusterOk;
      StepKeeps(backend, cs[k - 1], es[k - 1], cs[k]);
    }
  }

  /** In every run, whatever the network loses, repeats or reorders: each backup has gone through the
      primary's first `curr` requests; replicas with equal `curr` have equal machines and response
      caches; and the checks in SendVote never fail. */
  lemma BackupsFollow(backend: Backend, cs: seq<Cluster>, es: seq<Event>, k: nat)
    requires IsRun(backend, cs, es) && k < |cs| && |cs[k].numbered| < LIMIT
    ensures var c := cs[k];
            && c.primary.curr == |c.numbered| && c.primary.core == Applied(backend, c.numbered) && !c.primary.failed
            && (forall b :: b in c.backups ==>
                  && c.backups[b].curr <= c.primary.curr
                  && c.backups[b].core == Applied(backend, c.numbered[..c.backups[b].curr])
                  && !c.backups[b].failed)
            && (forall a, b :: a in c.backups && b in c.backups && c.backups[a].curr == c.backups[b].curr ==>
                  c.backups[a].core == c.backups[b].core)
            && (forall b :: b in c.backups && c.backups[b].curr == c.primary.curr ==> c.backups[b].core == c.primary.core)
  {
    RunOk(backend, cs, es, k);
    assert cs[k].numbered[..|cs[k].numbered|] == cs[k].numbered;
  }

  /** A vote that is not for an older request carries the transaction id of the primary's current one:
      the primary's own check on votes never fails either. */
  lemma VotesMatch(backend: Backend, cs: seq<Cluster>, es: seq<Event>, k: nat, b: nat, v: Packet)
    requires IsRun(backend, cs, es) && k < |cs| && |cs[k].numbered| < LIMIT
    requires b in cs[k].backups && v in cs[k].backups[b].votes
    ensures v.id <= cs[k].primary.curr
    ensures v.id >= cs[k].primary.curr ==> v.req.xid == cs[k].primary.last.req.xid
  {
    RunOk(backend, cs, es, k);
  }

  // ---------------------------------------------------------------- every request is voted for and answered

  /** The replica has voted for every request it has gone through. */
  ghost predicate VotedFor(s: Replica, numbered: seq<Req>)
    requires s.curr <= |numbered|
  {
    forall k: nat :: 1 <= k <= s.curr ==> PacketAt(numbered, k) in s.votes
  }

  /** What delivering message number msg.id does to a backup: an older request is voted for again, the
      next one is applied and voted for, and a later one changes nothing. */
  lemma DeliverOutcome(backend: Backend, s: Replica, numbered: seq<Req>, msg: Packet)
    requires AtPrefix(backend, s, numbered) && |numbered| < LIMIT
    requires 1 <= msg.id <= |numbered| && msg == PacketAt(numbered, msg.id)
    ensures var t := ProcessPrimary(backend, s, msg);
            && t.curr == (if msg.id == s.curr + 1 then s.curr + 1 else s.curr)
            && t.core == (if msg.id == s.curr + 1 then RunRequest(backend, s.core, msg.req) else s.core)
            && t.lastValid == (if msg.id == s.curr + 1 then s.curr else s.lastValid)
            && t.votes == s.votes + (if msg.id <= s.curr + 1 then {PacketAt(numbered, t.curr)} else {})
  {
  }

  lemma DeliverVotes(backend: Backend, s: Replica, numbered: seq<Req>, msg: Packet)
    requires AtPrefix(backend, s, numbered) && |numbered| < LIMIT && VotedFor(s, numbered)
    requires 1 <= msg.id <= |numbered| && msg == PacketAt(numbered, msg.id)
    ensures VotedFor(ProcessPrimary(backend, s, msg), numbered)
  {
    DeliverOutcome(backend, s, numbered, msg);
    hide ProcessPrimary, AtPrefix;
  }

  lemma VotedGrows(s: Replica, numbered: seq<Req>, req: Req)
    requires s.curr <= |numbered| && VotedFor(s, numbered)
    ensures VotedFor(s, numbered + [req])
  {
    forall k: nat | 1 <= k <= s.curr ensures PacketAt(numbered + [req], k) in s.votes {
      assert PacketAt(numbered + [req], k) == PacketAt(numbered, k);
    }
  }

  lemma VoteStep(backend: Backend, c: Cluster, e: Event, c': Cluster, b: nat)
    requires ClusterOk(backend, c) && Step(backend, c, e, c') && b in c.backups
    requires c.backups[b].curr <= |c.numbered| && VotedFor(c.backups[b], c.numbered)
    requires b in c'.backups && c'.backups[b].curr <= |c'.numbered|
    ensures VotedFor(c'.backups[b], c'.numbered)
  {
    hide VotedFor, RunRequest, HandleRequest, ProcessPrimary, SendVote, AtPrefix;
    match e
    case ClientMsg(msg) => VotedGrows(c.backups[b], c.numbered, msg.req);
    case Acknowledged =>
    case Deliver(to, msg) => if to == b { DeliverVotes(backend, c.backups[b], c.numbered, msg); }
    case Poll(at) => if at == b { PollVotes(c.backups[b], c.numbered); }
  }

  lemma BackupThere(backend: Backend, c: Cluster, e: Event, c': Cluster, b: nat)
    requires Step(backend, c, e, c') && b in c'.backups
    ensures b in c.backups && |c.numbered| <= |c'.numbered|
  {
    hide HandleRequest, ProcessPrimary, SendVote;
  }

  lemma PrefixOf(backend: Backend, c: Cluster, b: nat)
    requires ClusterOk(backend, c) && b in c.backups
    ensures c.backups[b].curr <= |c.numbered|
  {
  }

  /** At every moment of every run each backup has voted for every request it has gone through. */
  lemma {:induction false} BackupsVote(backend: Backend, cs: seq<Cluster>, es: seq<Event>, k: nat, b: nat)
    requires IsRun(backend, cs, es) && k < |cs| && |cs[k].numbered| < LIMIT && b in cs[k].backups
    ensures cs[k].backups[b].curr <= |cs[k].numbered| && VotedFor(cs[k].backups[b], cs[k].numbered)
  {
    hide ClusterOk, Step;
    RunOk(backend, cs, es, k);
    PrefixOf(backend, cs[k], b);
    if k > 0 {
      assert Step(backend, cs[k - 1], es[k - 1], cs[k]);
      BackupThere(backend, cs[k - 1], es[k - 1], cs[k], b);
      RunOk(backend, cs, es, k - 1);
      BackupsVote(backend, cs, es, k - 1, b);
      hide VotedFor;
      VoteStep(backend, cs[k - 1], es[k - 1], cs[k], b);
    }
  }

  lemma PollVotes(s: Replica, numbered: seq<Req>)
    requires s.curr <= |numbered| && VotedFor(s, numbered)
    ensures SendVote(s).curr == s.curr && VotedFor(SendVote(s), numbered)
  {
  }

  /** A client request is numbered and broadcast; one that is cached is answered at once, and for any
      other the primary runs it and then takes no more until a vote has acknowledged it. */
  lemma RequestOutcome(backend: Backend, s: Replica, numbered: seq<Req>, msg: Packet)
    requires AtPrefix(backend, s, numbered) && s.curr == |numbered| && s.waiting
    requires msg.kind == CLIENT_REQUEST && |numbered| + 1 < LIMIT
    ensures var t := HandleRequest(backend, s, msg);
            && Packet(PRIMARY_REQUEST, |numbered| + 1, msg.req) in t.sent
            && (if msg.req.client in s.core.responses && s.core.responses[msg.req.client].xid == msg.req.xid then
                  t.waiting && Reply(msg.req.client, s.core.responses[msg.req.client]) in t.replies && t.core == s.core
                else
                  !t.waiting && t.replies == s.replies && t.core.machine == s.core.machine + [msg.req])
  {
  }

  /** The bound is needed: request 2^32 gets number 0, which a backup takes for an old one. */
  lemma WrapStalls(backend: Backend, p: Replica, b: Replica, msg: Packet)
    requires p.waiting && msg.kind == CLIENT_REQUEST && p.curr == LIMIT - 1 && b.curr == LIMIT - 1 && b.core == p.core
    ensures var p' := HandleRequest(backend, p, msg);
            && p'.last in p'.sent && p'.core == RunRequest(backend, p.core, msg.req)
            && ProcessPrimary(backend, b, p'.last).core == b.core
  {
  }

  // ---------------------------------------------------------------- duplicate suppression

  /** The last request of a client that the machine has been sent. */
  ghost function LastOf(machine: seq<Req>, client: nat): seq<Req> {
    if machine == [] then []
    else if machine[|machine| - 1].client == client then [machine[|machine| - 1]]
    else LastOf(machine[..|machine| - 1], client)
  }

  /** No client's request is run twice in a row. */
  ghost predicate NoRepeats(machine: seq<Req>) {
    forall i :: 0 <= i < |machine| ==>
      var prev := LastOf(machine[..i], machine[i].client);
      prev == [] || prev[0].xid != machine[i].xid
  }

  /** A state machine that answers each call with the transaction id of the call, as section 9 of
      RFC 5531 asks. */
  ghost predicate Echoes(backend: Backend) {
    forall m: seq<Req> :: m != [] ==> backend(m).xid == m[|m| - 1].xid
  }

  /** With such a machine the response cache names each client's last request, so a retransmission of
      it is answered from the cache and never run again. */
  lemma {:induction false} RetransmissionsRunOnce(backend: Backend, reqs: seq<Req>)
    requires Echoes(backend)
    ensures var c := Applied(backend, reqs);
            && NoRepeats(c.machine)
            && (forall client :: client in c.responses <==> LastOf(c.machine, client) != [])
            && (forall client :: client in c.responses ==> c.responses[client].xid == LastOf(c.machine, client)[0].xid)
  {
    if reqs != [] {
      var init, req := reqs[..|reqs| - 1], reqs[|reqs| - 1];
      RetransmissionsRunOnce(backend, init);
      var c, d := Applied(backend, init), Applied(backend, reqs);
      if !IsCached(c, req) {
        var m := c.machine + [req];
        assert d.machine == m && m[..|m| - 1] == c.machine;
        assert backend(m).xid == req.xid;
        forall i | 0 <= i < |m|
          ensures var prev := LastOf(m[..i], m[i].client); prev == [] || prev[0].xid != m[i].xid
        {
          assert i < |c.machine| ==> m[..i] == c.machine[..i] && m[i] == c.machine[i];
        }
      }
    }
  }

  // ---------------------------------------------------------------- the server

  class Server {
    const backend: Backend
    var currReqId: nat
    var lastValidReqId: nat
    var lastPrimaryRequest: Packet
    var machine: seq<Req>
    var responseMap: map<nat, Resp>
    var waiting: bool
    var sent: set<Packet>
    var votes: set<Packet>
    var replies: set<Reply>
    var failed: bool

    ghost function State(): Replica
      reads this
    {
      Replica(currReqId, lastValidReqId, lastPrimaryRequest, Core(machine, responseMap), waiting,
              sent, votes, replies, failed)
    }

    constructor (backend: Backend)
      ensures this.backend == backend && State() == FRESH
    {
      this.backend := backend;
      currReqId, lastValidReqId, lastPrimaryRequest := 0, 0, ZERO_PACKET;
      machine, responseMap, waiting := [], map[], true;
      sent, votes, replies, failed := {}, {}, {}, false;
    }

    method Run(request: Req) returns (ran: bool)
      modifies this
      ensures State() == old(State()).(core := RunRequest(backend, old(State()).core, request))
      ensures ran == !IsCached(old(State()).core, request)
    {
      if request.client in responseMap && request.xid == responseMap[request.client].xid {
        return false;
      }
      machine := machine + [request];
      responseMap := responseMap[request.client := backend(machine)];
      return true;
    }

    method Vote()
      modifies this
      ensures State() == SendVote(old(State()))
    {
      if lastPrimaryRequest.id != currReqId
         || (lastPrimaryRequest.kind != PRIMARY_REQUEST && lastPrimaryRequest.kind != '\0') {
        failed := true;
        return;
      }
      votes := votes + {lastPrimaryRequest};
    }

    method BuildPrimaryRequest(msg: Packet) returns (built: bool)
      modifies this
      ensures built == (msg.kind == CLIENT_REQUEST)
      ensures State() == if built
                         then old(State()).(last := Packet(PRIMARY_REQUEST, (old(currReqId) + 1) % LIMIT, msg.req))
                         else old(State())
    {
      if msg.kind != CLIENT_REQUEST { return false; }
      lastPrimaryRequest := msg;
      lastPrimaryRequest := lastPrimaryRequest.(kind := PRIMARY_REQUEST);
      lastPrimaryRequest := lastPrimaryRequest.(id := (currReqId + 1) % LIMIT);
      return true;
    }

    method HandleRequestAsPrimary(msg: Packet)
      modifies this
      ensures State() == HandleRequest(backend, old(State()), msg)
    {
      if !waiting {
        failed := true;
        return;
      }
      var built := BuildPrimaryRequest(msg);
      if !built { return; }
      currReqId := (currReqId + 1) % LIMIT;
      sent := sent + {lastPrimaryRequest};
      var ran := Run(lastPrimaryRequest.req);
      if !ran {
        replies := replies + {Reply(msg.req.client, responseMap[msg.req.client])};
        return;
      }
      waiting := false;
    }

    method ProcessPrimaryMessage(msg: Packet)
      modifies this
      ensures State() == ProcessPrimary(backend, old(State()), msg)
    {
      if msg.id <= currReqId {
        Vote();
        return;
      }
      if msg.id - 1 == currReqId {
        lastPrimaryRequest := msg;
        var ran := Run(msg.req);
        lastValidReqId := currReqId;
        currReqId := (currReqId + 1) % LIMIT;
        Vote();
      }
    }
  }
}
