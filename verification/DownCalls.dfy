/** What clients are told when a target fails, and what the other requests leave behind. */
module DownCalls {
  import opened Enforcer
  import opened EnforcerRuns
  import opened Registrations

  // ---------------------------------------------------------------- one failure

  /** When a target fails, every object registered for it, and nobody else, gets a first call that names the
      generation that has just ended; then the target is forgotten and its generation is raised. */
  lemma DownOutcome(s: State, t: Target)
    ensures var s' := ObserveDown(s, t);
            && (forall h :: h in At(s.clients, t).Values ==> DownCall(h, t, s.base + [Gen(s, t)], 1) in s'.downs)
            && (forall d :: d in s'.downs && d !in s.downs ==>
                  d.to in At(s.clients, t).Values && d == DownCall(d.to, t, s.base + [Gen(s, t)], 1))
            && s.downs <= s'.downs
            && Gen(s', t) == (Gen(s, t) + 1) % LIMIT && s'.lines == s.lines + [t]
            && At(s'.clients, t) == map[] && At(s'.waiting, t) == map[] && t !in s'.monitored
            && (forall u :: u != t ==> At(s'.clients, u) == At(s.clients, u) && Gen(s', u) == Gen(s, u))
  {
    var s' := ObserveDown(s, t);
    forall h | h in At(s.clients, t).Values ensures DownCall(h, t, s.base + [Gen(s, t)], 1) in s'.downs {
      var id :| id in At(s.clients, t) && At(s.clients, t)[id] == h;
    }
  }

  // ---------------------------------------------------------------- over runs

  /** The call was made, or repeats one that was made, when the target failed at moment i with the receiver
      registered, and names the generation that ended then. */
  ghost predicate MadeAt(ss: seq<State>, es: seq<Event>, i: nat, d: DownCall)
    requires IsRun(ss, es)
  {
    && i < |es| && es[i] == Down(d.target) && d.to in At(ss[i].clients, d.target).Values
    && d.generation == ss[i].base + [Gen(ss[i], d.target)]
  }

  /** The process has not restarted from moment i to moment j. */
  ghost predicate NoRestart(es: seq<Event>, i: nat, j: nat)
    requires j <= |es|
  {
    forall k :: i <= k < j ==> !es[k].Crash? && !es[k].CrashAfterWrite?
  }

  /** A call repeats another one: only the number of tries differs. */
  ghost predicate Repeats(d: DownCall, c: DownCall) {
    d.to == c.to && d.target == c.target && d.generation == c.generation
  }

  /** Apart from a failure, handlers only repeat calls, and the fixed part of the generation stays. */
  ghost predicate OnlyRepeats(s: State, s': State) {
    s'.base == s.base && forall d :: d in s'.downs ==> exists c :: c in s.downs && Repeats(d, c)
  }

  lemma SameDowns(s: State, s': State)
    requires s'.base == s.base && s'.downs <= s.downs
    ensures OnlyRepeats(s, s')
  {
    forall d | d in s'.downs ensures exists c :: c in s.downs && Repeats(d, c) { assert Repeats(d, d); }
  }

  lemma EnrollDowns(s: State, u: Target, h: Handle, delay: int, lethal: bool)
    requires h in s.objs
    ensures Enroll(s, u, h, delay, lethal).base == s.base && Enroll(s, u, h, delay, lethal).downs == s.downs
  {
    hide Include;
  }

  lemma WithdrawDowns(s: State, u: Target, h: Handle)
    requires h in s.objs
    ensures Withdraw(s, u, h).0.base == s.base && Withdraw(s, u, h).0.downs == s.downs
  {
    hide Erase, Without;
  }

  lemma RegisterDowns(s: State, e: Event)
    requires Ok(s) && e.Register?
    ensures OnlyRepeats(s, Next(s, e))
  {
    var s1 := WithClient(s, e.id, e.tag);
    WithClientKeeps(s, e.id, e.tag);
    assert s1.base == s.base && s1.downs == s.downs;
    hide WithClient, GenCheck, Enroll, AllFiled, Interested, SetsOk, ObjsOk, OnlyRepeats;
    EnrollDowns(s1, e.t, s1.all[e.id], e.delay, e.lethal);
    SameDowns(s, Next(s, e));
  }

  lemma CancelDowns(s: State, e: Event)
    requires Ok(s) && e.Cancel?
    ensures OnlyRepeats(s, Next(s, e))
  {
    var s1 := WithClient(s, e.id, e.tag);
    WithClientKeeps(s, e.id, e.tag);
    assert s1.base == s.base && s1.downs == s.downs;
    hide WithClient, GenCheck, Withdraw, AllFiled, Interested, SetsOk, ObjsOk, OnlyRepeats;
    WithdrawDowns(s1, e.t, s1.all[e.id]);
    SameDowns(s, Next(s, e));
  }

  lemma ReportRepeats(s: State, call: DownCall, ok: bool)
    requires call in s.downs && call.to in s.objs
    ensures OnlyRepeats(s, ReportDown(s, call, ok))
  {
    var s0 := if call.retries == 0 then s else s.(downs := s.downs - {call});
    ReportedParts(s0, call, ok);
    ReportedBase(s0, call, ok);
    var s' := ReportDown(s, call, ok);
    hide Reported;
    forall d | d in s'.downs ensures exists c :: c in s.downs && Repeats(d, c) {
      if d in s.downs { assert Repeats(d, d); } else { assert Repeats(d, call); }
    }
  }

  lemma ReportedBase(s: State, call: DownCall, ok: bool)
    requires call.to in s.objs
    ensures Reported(s, call, ok).base == s.base
  {
    hide Erase, Without;
  }

  lemma TimerRepeats(s: State, e: Event)
    requires Ok(s) && Possible(s, e) && (e.Repeat? || e.Timer? || e.UpSeen? || e.Kill?)
    ensures OnlyRepeats(s, Next(s, e))
  {
    hide AllFiled, Interested, RepeatWaiting, AddToWaiting, OnlyRepeats;
    if e.Repeat? { RepeatSame(s, e.t, e.h); RepeatBase(s, e.t, e.h); }
    if e.Timer? { TimerSame(s, e.t, e.h); RepeatBase(s, e.t, e.h); }
    SameDowns(s, Next(s, e));
  }

  lemma HeartbeatRepeats(s: State, e: Event)
    requires Ok(s) && Possible(s, e) && e.Heartbeat?
    ensures OnlyRepeats(s, Next(s, e))
  {
    hide AllFiled, Interested, RemoveClient, OnlyRepeats;
    RemoveDowns(s, e.h);
    SameDowns(s, Next(s, e));
  }

  lemma AnswerRepeats(s: State, e: Event)
    requires Ok(s) && Possible(s, e) && e.DownAnswered?
    ensures OnlyRepeats(s, Next(s, e))
  {
    CallKnown(s, e.call);
    hide Ok, ReportDown, OnlyRepeats;
    ReportRepeats(s, e.call, e.ok);
  }

  lemma StepRepeats(s: State, e: Event)
    requires Ok(s) && Possible(s, e) && !e.Down? && !e.Crash? && !e.CrashAfterWrite?
    ensures OnlyRepeats(s, Next(s, e))
  {
    hide Ok, Next, OnlyRepeats, Possible;
    if e.Register? { RegisterDowns(s, e); }
    else if e.Cancel? { CancelDowns(s, e); }
    else if e.DownAnswered? { AnswerRepeats(s, e); }
    else if e.Heartbeat? { HeartbeatRepeats(s, e); }
    else { TimerRepeats(s, e); }
  }

  lemma RepeatBase(s: State, u: Target, h: Handle)
    requires h in s.objs
    ensures RepeatWaiting(s, u, h).base == s.base && AddToWaiting(s, u, h).base == s.base
  {
    hide Include;
  }

  lemma RemoveDowns(s: State, h: Handle)
    requires h in s.objs
    ensures RemoveClient(s, h).base == s.base && RemoveClient(s, h).downs == s.downs
  {
    hide Without;
  }

  lemma DownBase(s: State, t: Target)
    ensures ObserveDown(s, t).base == s.base
  {
  }

  lemma CrashClears(s: State, e: Event)
    requires Ok(s) && (e.Crash? || e.CrashAfterWrite?)
    ensures Next(s, e).downs == {}
  {
  }

  /** A call that is new after a failure was made at that failure. */
  lemma NewlyMade(ss: seq<State>, es: seq<Event>, i: nat, d: DownCall)
    requires IsRun(ss, es) && i < |es| && es[i].Down? && d in ss[i + 1].downs && d !in ss[i].downs
    ensures MadeAt(ss, es, i, d)
  {
    hide Ok, At, Gen;
    DownOutcome(ss[i], es[i].t);
    hide ObserveDown;
  }

  lemma StepBase(s: State, e: Event)
    requires Ok(s) && e.Down?
    ensures Next(s, e).base == s.base
  {
    DownBase(s, e.t);
    hide Ok, ObserveDown;
  }

  /** Every call outstanding goes back to a failure of its target since the process last started: it was
      made to a client registered then and names the generation that ended. */
  lemma {:induction false} CallsNameFailures(ss: seq<State>, es: seq<Event>, j: nat, d: DownCall) returns (i: nat)
    requires IsRun(ss, es) && ss[0].downs == {} && j < |ss| && d in ss[j].downs
    ensures i < j && MadeAt(ss, es, i, d) && NoRestart(es, i, j) && ss[j].base == ss[i].base
    decreases j
  {
    hide Ok, OnlyRepeats, At, Gen, Next, Possible;
    assert j > 0;
    var s, e := ss[j - 1], es[j - 1];
    RunOk(ss, es, j - 1);
    if e.Crash? || e.CrashAfterWrite? {
      CrashClears(s, e);
      assert false;
    } else if e.Down? {
      StepBase(s, e);
      if d in s.downs {
        i := CallsNameFailures(ss, es, j - 1, d);
      } else {
        i := j - 1;
        NewlyMade(ss, es, i, d);
      }
    } else {
      StepRepeats(s, e);
      var c := Repeated(s, ss[j], d);
      i := CallsNameFailures(ss, es, j - 1, c);
    }
  }

  lemma Repeated(s: State, s': State, d: DownCall) returns (c: DownCall)
    requires OnlyRepeats(s, s') && d in s'.downs
    ensures c in s.downs && Repeats(d, c) && s'.base == s.base
  {
    c :| c in s.downs && Repeats(d, c);
  }

  /** So whatever a client is told is over: below 2^32 lines the generation it names has been passed, and a
      request that carries it is answered LONG_DEAD. */
  lemma ToldIsOver(ss: seq<State>, es: seq<Event>, j: nat, d: DownCall)
    requires IsRun(ss, es) && ss[0].downs == {} && j < |ss| && d in ss[j].downs && |ss[j].lines| < LIMIT
    ensures d.generation != [] && d.generation[|d.generation| - 1] < Gen(ss[j], d.target)
    ensures GenCheck(ss[j], d.target, d.generation, true) == LongDead
  {
    var i := CallsNameFailures(ss, es, j, d);
    hide Ok, Gen, Next, Possible, GenCheck, At;
    GenPassed(ss, es, i, j, d.target);
    OldIsLongDead(ss[j], d.target, Gen(ss[i], d.target));
  }

  /** A failure raises the target's generation for good. */
  lemma GenPassed(ss: seq<State>, es: seq<Event>, i: nat, j: nat, t: Target)
    requires IsRun(ss, es) && i < j < |ss| && es[i] == Down(t) && |ss[j].lines| < LIMIT
    ensures Gen(ss[i], t) < Gen(ss[j], t)
  {
    RunOk(ss, es, i);
    RunOk(ss, es, j);
    RunAppends(ss, es, i, i + 1);
    RunAppends(ss, es, i + 1, j);
    CountGrows(ss[i].lines, ss[j].lines, t);
    CountGrows(ss[i + 1].lines, ss[j].lines, t);
    CountNext(ss[i].lines, t, t);
    assert ss[i + 1].lines == ss[i].lines + [t];
    assert Logged(ss[i]) && Logged(ss[j]);
    hide IsRun, Ok;
  }

  lemma OldIsLongDead(s: State, t: Target, g: nat)
    requires g < Gen(s, t)
    ensures GenCheck(s, t, s.base + [g], true) == LongDead
  {
    var q, mine := s.base + [g], s.base + [Gen(s, t)];
    GenCheckIsLex(s, t, q, true);
    var n := |s.base|;
    assert q[..n] == mine[..n] && q[n] < mine[n];
    hide GenCheck, Gen;
    assert LexLess(q, mine);
  }

  // ---------------------------------------------------------------- answers and removals

  /** What the answer to a CLIENT_DOWN call leads to: an acknowledgement withdraws the client from the
      target, and removes it if it has no other; a failed call is made again, three times in all, and then
      the client is removed. */
  lemma ReportOutcome(s: State, call: DownCall, ok: bool)
    requires Ok(s) && call in s.downs && 1 <= call.retries <= MAX_RETRIES
    ensures call.to in s.objs &&
            var s', h, id := ReportDown(s, call, ok), call.to, s.objs[call.to].id;
            if ok then
              && call.target !in s'.objs[h].ups && id !in At(s'.clients, call.target) && id !in At(s'.deadly, call.target)
              && (s.objs[h].ups.Keys <= {call.target} ==> id !in s'.all) && s'.downs == s.downs - {call}
            else if call.retries < MAX_RETRIES then
              s' == s.(downs := s.downs - {call} + {DownCall(h, call.target, call.generation, call.retries + 1)})
            else
              Left(s, s', h) && s'.downs == s.downs - {call}
  {
    CallKnown(s, call);
    hide Ok;
    var s0 := s.(downs := s.downs - {call});
    if ok {
      AckOutcome(s0, call);
    } else if call.retries == MAX_RETRIES {
      RemoveOutcome(s0, call.to);
      RemoveDowns(s0, call.to);
      hide RemoveClient;
    }
  }

  lemma AckOutcome(s: State, call: DownCall)
    requires call.to in s.objs && call.retries != 0
    ensures var s', h, id := Reported(s, call, true), call.to, s.objs[call.to].id;
            && h in s'.objs && call.target !in s'.objs[h].ups && id !in At(s'.clients, call.target) && id !in At(s'.deadly, call.target)
            && (s.objs[h].ups.Keys <= {call.target} ==> id !in s'.all) && s'.downs == s.downs
  {
    var h, t, id := call.to, call.target, s.objs[call.to].id;
    var s2 := DropUp(s, h, t).(clients := Erase(s.clients, t, id), deadly := Erase(s.deadly, t, id));
    assert id !in At(s2.clients, t) && id !in At(s2.deadly, t);
    assert s.objs[h].ups.Keys <= {t} ==> s2.objs[h].ups == map[];
    if s2.objs[h].ups == map[] {
      EmptyRemovalSets(s2, h);
      RemoveOutcome(s2, h);
      RemoveDowns(s2, h);
    }
    hide RemoveClient;
  }

  /** The client has left: it is not on file, in no set of a target it had an interval for, and such a
      target is monitored only if some other client is registered for it. */
  ghost predicate Left(s: State, s': State, h: Handle)
    requires h in s.objs
  {
    var id, ts := s.objs[h].id, s.objs[h].ups.Keys;
    && id !in s'.all && s'.objs == s.objs
    && (forall t :: At(s'.clients, t) == (if t in ts then At(s.clients, t) - {id} else At(s.clients, t)))
    && (forall t :: At(s'.deadly, t) == (if t in ts then At(s.deadly, t) - {id} else At(s.deadly, t)))
    && (forall t :: t in s'.monitored <==> t in s.monitored && (t in ts ==> At(s'.clients, t) != map[]))
  }

  lemma RemoveOutcome(s: State, h: Handle)
    requires h in s.objs
    ensures Left(s, RemoveClient(s, h), h)
  {
    var id, ts := s.objs[h].id, s.objs[h].ups.Keys;
    WithoutAt(s.clients, ts, id);
    WithoutAt(s.deadly, ts, id);
    hide Without;
  }

  lemma WithoutAt(m: map<Target, Clients>, ts: set<Target>, id: Id)
    ensures forall t :: At(Without(m, ts, id), t) == if t in ts then At(m, t) - {id} else At(m, t)
  {
  }

  /** A heartbeat that has failed as often as allowed removes the client. */
  lemma HeartbeatOutcome(s: State, h: Handle, ok: bool, retry: nat)
    requires h in s.objs
    ensures if s.objs[h].id in s.all && !ok && retry >= CLIENT_RETRY then Left(s, OnHeartbeat(s, h, ok, retry), h)
            else OnHeartbeat(s, h, ok, retry) == s
  {
    RemoveOutcome(s, h);
    hide RemoveClient, Left;
  }

  // ---------------------------------------------------------------- SPY_REGISTER and SPY_CANCEL

  /** A registration is acknowledged exactly if it carries the current generation. Then the client is in the
      target's set under its own object, with the interval it asked for, waits for the target if that is
      zero, may have the target killed if it asked so, and the target is monitored. Nothing else changes. */
  lemma RegisterOutcome(s: State, e: Event)
    requires Ok(s) && e.Register?
    ensures (e.id in s.all ==> s.all[e.id] in s.objs) &&
            var (s', st) := OnRegister(s, e.t, e.query, e.valid, e.id, e.tag, e.delay, e.lethal);
            if !(e.valid && e.query == s.base + [Gen(s, e.t)]) then s' == s && st != RegisterAck
            else
              && st == RegisterAck && e.id in s'.all && s'.all[e.id] in s'.objs
              && var h := s'.all[e.id];
                 && (e.id in s.all ==> h == s.all[e.id] && s'.next == s.next)
                 && s'.objs[h].id == e.id && e.t in s'.objs[h].ups && s'.objs[h].ups[e.t] == e.delay
                 && At(s'.clients, e.t) == (if e.id in At(s.clients, e.t) then At(s.clients, e.t) else At(s.clients, e.t)[e.id := h])
                 && At(s'.deadly, e.t) == (if e.lethal && e.id !in At(s.deadly, e.t) then At(s.deadly, e.t)[e.id := h] else At(s.deadly, e.t))
                 && (e.delay == 0 ==> e.id in At(s'.waiting, e.t))
                 && e.t in s'.monitored
                 && (forall u :: u != e.t ==> At(s'.clients, u) == At(s.clients, u) && At(s'.deadly, u) == At(s.deadly, u)
                                              && At(s'.waiting, u) == At(s.waiting, u) && (u in s'.monitored <==> u in s.monitored))
                 && SameLog(s, s') && s'.downs == s.downs
  {
    GenCheckIsLex(s, e.t, e.query, e.valid);
    GenCheckAnswers(s, e.t, e.query, e.valid);
    RegisterKeeps(s, e);
    var s1 := WithClient(s, e.id, e.tag);
    WithClientKeeps(s, e.id, e.tag);
    WithClientSets(s, e.id, e.tag);
    hide WithClient, GenCheck, Enroll, AllFiled, Interested, SetsOk, ObjsOk, Gen, Logged, SameLog;
    if e.valid && e.query == s.base + [Gen(s, e.t)] {
      assert e.query == GenVec(s, e.t);
      var h := s1.all[e.id];
      EnrollSets(s1, e.t, h, e.delay, e.lethal);
      EnrollDowns(s1, e.t, h, e.delay, e.lethal);
      var s' := Enroll(s1, e.t, h, e.delay, e.lethal);
      assert s' == Next(s, e);
      assert At(s'.clients, e.t) != map[] by { assert e.id in At(s'.clients, e.t); }
    }
  }

  lemma WithClientSets(s: State, id: Id, tag: nat)
    ensures var s1 := WithClient(s, id, tag);
            && s1.clients == s.clients && s1.deadly == s.deadly && s1.waiting == s.waiting && s1.monitored == s.monitored
            && s1.downs == s.downs && (id in s.all ==> s1 == s)
  {
  }

  lemma EnrollSets(s: State, t: Target, h: Handle, delay: int, lethal: bool)
    requires h in s.objs
    ensures var s', id := Enroll(s, t, h, delay, lethal), s.objs[h].id;
            && s'.all == s.all && s'.next == s.next && h in s'.objs && s'.objs[h].id == id && t in s'.objs[h].ups && s'.objs[h].ups[t] == delay
            && At(s'.clients, t) == (if id in At(s.clients, t) then At(s.clients, t) else At(s.clients, t)[id := h])
            && At(s'.deadly, t) == (if lethal && id !in At(s.deadly, t) then At(s.deadly, t)[id := h] else At(s.deadly, t))
            && (delay == 0 ==> id in At(s'.waiting, t))
            && (forall u :: u != t ==> At(s'.clients, u) == At(s.clients, u) && At(s'.deadly, u) == At(s.deadly, u)
                                       && At(s'.waiting, u) == At(s.waiting, u) && (u in s'.monitored <==> u in s.monitored))
  {
    var id := s.objs[h].id;
    var s1 := SetUp(s.(clients := Include(s.clients, t, id, h)), h, t, delay);
    EnrollShape(s, t, h, delay, lethal);
    SetUpParts(s.(clients := Include(s.clients, t, id, h)), h, t, delay);
    IncludeAt(s.clients, t, id, h);
    IncludeAt(s.deadly, t, id, h);
    hide RepeatWaiting, SetUp, Include, At, Enroll;
    RepeatSets(s1, t, h);
  }

  lemma EnrollShape(s: State, t: Target, h: Handle, delay: int, lethal: bool)
    requires h in s.objs
    ensures var s', id := Enroll(s, t, h, delay, lethal), s.objs[h].id;
            var s2 := RepeatWaiting(SetUp(s.(clients := Include(s.clients, t, id, h)), h, t, delay), t, h);
            && s' == s2.(deadly := if lethal then Include(s2.deadly, t, id, h) else s2.deadly, monitored := s'.monitored)
            && (s'.monitored == s2.monitored || s'.monitored == s2.monitored + {t})
  {
    hide RepeatWaiting, SetUp, Include, At;
  }

  lemma SetUpParts(s: State, h: Handle, t: Target, delay: int)
    requires h in s.objs
    ensures var s1 := SetUp(s, h, t, delay);
            && s1 == s.(objs := s1.objs) && h in s1.objs && t in s1.objs[h].ups && s1.objs[h].ups[t] == delay && s1.objs[h].id == s.objs[h].id
  {
  }

  lemma IncludeAt(m: map<Target, Clients>, t: Target, id: Id, h: Handle)
    ensures At(Include(m, t, id, h), t) == (if id in At(m, t) then At(m, t) else At(m, t)[id := h])
    ensures id in At(Include(m, t, id, h), t)
    ensures forall u :: u != t ==> At(Include(m, t, id, h), u) == At(m, u)
  {
  }

  lemma RepeatSets(s: State, t: Target, h: Handle)
    requires h in s.objs && t in s.objs[h].ups && s.objs[h].id in At(s.clients, t)
    ensures var s', id := RepeatWaiting(s, t, h), s.objs[h].id;
            && s' == s.(waiting := s'.waiting) && (s.objs[h].ups[t] == 0 ==> id in At(s'.waiting, t))
            && (forall u :: u != t ==> At(s'.waiting, u) == At(s.waiting, u))
  {
  }

  /** A cancel is acknowledged exactly if it carries the current generation and the client is registered.
      Then the client is in neither set of the target, and a target left without clients is no longer
      monitored. */
  lemma CancelOutcome(s: State, e: Event)
    requires Ok(s) && e.Cancel?
    ensures (e.id in s.all ==> s.all[e.id] in s.objs) &&
            var (s', st) := OnCancel(s, e.t, e.query, e.valid, e.id, e.tag);
            && (st == CancelAck <==> e.valid && e.query == s.base + [Gen(s, e.t)] && e.id in At(s.clients, e.t))
            && (st == CancelAck ==>
                  && At(s'.clients, e.t) == At(s.clients, e.t) - {e.id} && At(s'.deadly, e.t) == At(s.deadly, e.t) - {e.id}
                  && (At(s'.clients, e.t) == map[] ==> e.t !in s'.monitored))
            && SameLog(s, s')
  {
    GenCheckIsLex(s, e.t, e.query, e.valid);
    GenCheckAnswers(s, e.t, e.query, e.valid);
    CancelKeeps(s, e);
    var s1 := WithClient(s, e.id, e.tag);
    WithClientKeeps(s, e.id, e.tag);
    WithClientSets(s, e.id, e.tag);
    hide WithClient, GenCheck, Withdraw, AllFiled, Interested, SetsOk, ObjsOk, Gen, Logged, SameLog;
    assert GenCheck(s, e.t, e.query, e.valid) == Success <==> e.valid && e.query == s.base + [Gen(s, e.t)];
    WithdrawSets(s1, e.t, s1.all[e.id]);
  }

  lemma WithdrawSets(s: State, t: Target, h: Handle)
    requires h in s.objs
    ensures var (s', st) := Withdraw(s, t, h); var id := s.objs[h].id;
            && (st == CancelAck <==> id in At(s.clients, t)) && (st == CancelAck || st == CancelError)
            && (st == CancelAck ==>
                  && At(s'.clients, t) == At(s.clients, t) - {id} && At(s'.deadly, t) == At(s.deadly, t) - {id}
                  && (At(s'.clients, t) == map[] ==> t !in s'.monitored))
  {
    var id := s.objs[h].id;
    var s1 := DropUp(s.(clients := Erase(s.clients, t, id), deadly := Erase(s.deadly, t, id)), h, t);
    var s2 := if At(s1.clients, t) == map[] then s1.(monitored := s1.monitored - {t}) else s1;
    if s2.objs[h].ups == map[] { EmptyRemovalSets(s2, h); }
    assert At(s1.clients, t) == At(s.clients, t) - {id} && At(s1.deadly, t) == At(s.deadly, t) - {id};
    hide RemoveClient, DropUp, Erase;
  }

  lemma EmptyRemovalSets(s: State, h: Handle)
    requires h in s.objs && s.objs[h].ups == map[]
    ensures var s' := RemoveClient(s, h); s'.clients == s.clients && s'.deadly == s.deadly && s'.monitored == s.monitored
  {
    assert Without(s.clients, {}, s.objs[h].id) == s.clients && Without(s.deadly, {}, s.objs[h].id) == s.deadly;
  }
}
