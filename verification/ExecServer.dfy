/**
 * The queue in front of the state machine (execute.h): requests are sent one at a time over a stream
 * connection that may break at any moment, and each reply runs the callback of the oldest request.
 */
module ExecServer {
  import opened Stamps
  import opened CohortSpec

  /** A callback that has run: whose callback, which request the backend answered, and the reply. */
  datatype Answer = Answer(sub: Submission, answered: Submission, reply: string)

  /** `up` says whether `x_` is set; `wire` is what was sent on the current connection and not answered
      yet, oldest first; `connects` counts the calls of tcpconnect under way. */
  datatype Server = Server(rq: seq<Submission>, up: bool, wire: seq<Submission>, connects: nat, done: seq<Answer>)

  const INITIAL := Server([], false, [], 0, [])

  /** `sendreq`. */
  function SendReq(s: Server): Server
    requires s.rq != []
  {
    if s.up then s.(wire := s.wire + [s.rq[0]]) else s.(connects := s.connects + 1)
  }

  /** `execute`. */
  function Enqueue(s: Server, sub: Submission): Server {
    var s1 := s.(rq := s.rq + [sub]);
    if |s1.rq| == 1 then SendReq(s1) else s1
  }

  /** `connect_cb`. */
  function Connected(s: Server): Server
    requires s.connects > 0 && s.rq != []
  {
    SendReq(s.(up := true, wire := [], connects := s.connects - 1))
  }

  /** `recv` of a packet: the reply to the oldest request on the wire. */
  function Packet(s: Server, reply: string): Server
    requires s.up && s.wire != [] && s.rq != []
  {
    var s1 := s.(rq := s.rq[1..], wire := s.wire[1..], done := s.done + [Answer(s.rq[0], s.wire[0], reply)]);
    if s1.rq != [] then SendReq(s1) else s1
  }

  /** `recv` at the end of the stream. */
  function Eof(s: Server): Server
    requires s.up
  {
    var s1 := s.(up := false, wire := []);
    if s1.rq != [] then SendReq(s1) else s1
  }

  /** The oldest request is in flight, or one connection attempt for it is; never both, never twice. */
  ghost predicate ServerOk(s: Server) {
    if s.rq == [] then s.wire == [] && s.connects == 0
    else (s.up && s.wire == [s.rq[0]] && s.connects == 0) || (!s.up && s.wire == [] && s.connects == 1)
  }

  lemma StepsKeepOk(s: Server, sub: Submission, reply: string)
    requires ServerOk(s)
    ensures ServerOk(INITIAL) && ServerOk(Enqueue(s, sub))
    ensures s.connects > 0 ==> s.rq != [] && ServerOk(Connected(s))
    ensures s.up && s.wire != [] ==> s.rq != [] && ServerOk(Packet(s, reply))
    ensures s.up ==> ServerOk(Eof(s))
  {
  }

  /** So the reply that arrives is the reply to the request whose callback it runs. */
  lemma PacketAnswersFront(s: Server, reply: string)
    requires ServerOk(s) && s.up && s.wire != []
    ensures s.rq != [] && |s.wire| == 1
    ensures Packet(s, reply).done == s.done + [Answer(s.rq[0], s.rq[0], reply)]
    ensures Packet(s, reply).rq == s.rq[1..]
  {
  }

  /** A request waits until its own reply arrives, whatever happens to the connection. */
  lemma OthersKeepQueue(s: Server, sub: Submission)
    ensures Enqueue(s, sub).rq == s.rq + [sub] && Enqueue(s, sub).done == s.done
    ensures s.connects > 0 && s.rq != [] ==> Connected(s).rq == s.rq && Connected(s).done == s.done
    ensures s.up ==> Eof(s).rq == s.rq && Eof(s).done == s.done
  {
  }

  // ---------------------------------------------------------------- runs of the queue alone

  datatype Event = Submit(sub: Submission) | Connects | Answers(reply: string) | Breaks

  ghost predicate Possible(s: Server, e: Event) {
    match e
    case Submit(_) => true
    case Connects => s.connects > 0 && s.rq != []
    case Answers(_) => s.up && s.wire != [] && s.rq != []
    case Breaks => s.up
  }

  ghost function Next(s: Server, e: Event): Server
    requires Possible(s, e)
  {
    match e
    case Submit(sub) => Enqueue(s, sub)
    case Connects => Connected(s)
    case Answers(reply) => Packet(s, reply)
    case Breaks => Eof(s)
  }

  ghost function Jobs(done: seq<Answer>): seq<Submission> {
    seq(|done|, i requires 0 <= i < |done| => done[i].sub)
  }

  ghost function Submitted(es: seq<Event>): seq<Submission> {
    if es == [] then []
    else (if es[0].Submit? then [es[0].sub] else []) + Submitted(es[1..])
  }

  ghost predicate RunsTo(s: Server, es: seq<Event>, t: Server)
    decreases |es|
  {
    if es == [] then t == s else Possible(s, es[0]) && RunsTo(Next(s, es[0]), es[1..], t)
  }

  /** Every callback that has run, ran with the reply to its own request. */
  ghost predicate OwnReplies(s: Server) {
    forall i :: 0 <= i < |s.done| ==> s.done[i].answered == s.done[i].sub
  }

  /** In every run the callbacks that have run, followed by those still waiting, are exactly the
      requests submitted, in order: each callback runs at most once, with the reply to its own request,
      and at most one request is in flight. */
  lemma {:induction false} CompletionsFollowSubmissions(s: Server, es: seq<Event>, t: Server)
    requires ServerOk(s) && OwnReplies(s) && RunsTo(s, es, t)
    ensures ServerOk(t) && OwnReplies(t) && |t.wire| + t.connects <= 1
    ensures Jobs(t.done) + t.rq == Jobs(s.done) + s.rq + Submitted(es)
    decreases |es|
  {
    hide ServerOk, Next, OwnReplies, Jobs, Possible;
    if es == [] {
      AtMostOne(s);
    } else {
      StepKeepsOrder(s, es[0]);
      CompletionsFollowSubmissions(Next(s, es[0]), es[1..], t);
      Regroup(Jobs(s.done) + s.rq, if es[0].Submit? then [es[0].sub] else [], Submitted(es[1..]));
    }
  }

  lemma AtMostOne(s: Server)
    requires ServerOk(s)
    ensures |s.wire| + s.connects <= 1
  {
  }

  lemma Regroup(a: seq<Submission>, b: seq<Submission>, c: seq<Submission>)
    ensures a + b + c == a + (b + c)
  {
  }

  lemma StepKeepsOrder(s: Server, e: Event)
    requires ServerOk(s) && OwnReplies(s) && Possible(s, e)
    ensures ServerOk(Next(s, e)) && OwnReplies(Next(s, e))
    ensures Jobs(Next(s, e).done) + Next(s, e).rq == Jobs(s.done) + s.rq + (if e.Submit? then [e.sub] else [])
  {
    var t := Next(s, e);
    match e
    case Submit(sub) => assert Jobs(t.done) + t.rq == Jobs(s.done) + s.rq + [sub];
    case Answers(reply) =>
      PacketAnswersFront(s, reply);
      assert Jobs(t.done) == Jobs(s.done) + [s.rq[0]];
      assert Jobs(t.done) + t.rq == Jobs(s.done) + s.rq;
    case _ => assert Jobs(t.done) + t.rq == Jobs(s.done) + s.rq;
  }

  // ---------------------------------------------------------------- the class

  class ExecBackend {
    var rq: seq<Submission>
    var up: bool
    ghost var wire: seq<Submission>
    ghost var connects: nat
    ghost var done: seq<Answer>

    ghost function State(): Server
      reads this
    {
      Server(rq, up, wire, connects, done)
    }

    constructor ()
      ensures State() == INITIAL
    {
      rq, up, wire, connects, done := [], false, [], 0, [];
    }

    method Execute(sub: Submission)
      requires ServerOk(State())
      modifies this
      ensures State() == Enqueue(old(State()), sub) && ServerOk(State())
    {
      rq := rq + [sub];
      if |rq| == 1 {
        SendRequest();
      }
    }

    method ConnectCb()
      requires ServerOk(State()) && connects > 0
      modifies this
      ensures old(State()).rq != [] && State() == Connected(old(State())) && ServerOk(State())
    {
      up := true;
      wire, connects := [], connects - 1;
      SendRequest();
    }

    /** A packet, or None at the end of the stream; returns the callback to run. */
    method Recv(pkt: Option<string>) returns (called: Option<Answer>)
      requires ServerOk(State()) && up && (pkt.Some? ==> wire != [])
      modifies this
      ensures ServerOk(State())
      ensures pkt.None? ==> called == None && State() == Eof(old(State()))
      ensures pkt.Some? ==>
                && State() == Packet(old(State()), pkt.value)
                && called == Some(Answer(old(rq)[0], old(rq)[0], pkt.value))
    {
      if pkt.None? {
        up := false;
        wire := [];
        if |rq| > 0 { SendRequest(); }
        return None;
      }
      var r := rq[0];
      rq := rq[1..];
      called := Some(Answer(r, r, pkt.value));
      done := done + [Answer(r, wire[0], pkt.value)];
      wire := wire[1..];
      if |rq| > 0 { SendRequest(); }
    }

    method SendRequest()
      requires rq != []
      modifies this
      ensures State() == SendReq(old(State()))
    {
      if !up {
        connects := connects + 1;
        return;
      }
      wire := wire + [rq[0]];
    }
  }
}
