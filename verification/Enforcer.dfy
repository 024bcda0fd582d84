/**
 * The Falcon enforcer (enforcer.cc) as a value: clients register for targets, a target's generation
 * rises with every observed failure, and generations outlive a crash in the generation log.
 */
module Enforcer {
  type Target = string
  type Id = string

  /** Client objects are on the heap; a handle stands for the reference. Sets of clients are ordered by
      the client's id, so they hold at most one object per id and erase by id. */
  type Handle = nat
  type Clients = map<Id, Handle>

  /** Generation numbers are unsigned 32-bit numbers. */
  const LIMIT := 0x1_0000_0000
  const MAX_RETRIES := 3
  const CLIENT_RETRY := 5

  datatype Client = Client(id: Id, ups: map<Target, int>, tag: nat)

  /** A CLIENT_DOWN call: which object was told that which generation of which target is gone. */
  datatype DownCall = DownCall(to: Handle, target: Target, generation: seq<nat>, retries: nat)

  /** `lines` is the generation log; `monitored` are the targets between StartMonitoring and
      StopMonitoring; `downs` the CLIENT_DOWN calls not answered yet. */
  datatype State = State(base: seq<nat>, generations: map<Target, nat>, lines: seq<Target>,
                         objs: map<Handle, Client>, next: Handle, all: Clients,
                         clients: map<Target, Clients>, waiting: map<Target, Clients>, deadly: map<Target, Clients>,
                         monitored: set<Target>, downs: set<DownCall>)

  datatype Status = Success | UnknownTarget | BadGenVec | FutureGen | LongDead
                  | RegisterAck | CancelAck | CancelError | KillAck

  function At(m: map<Target, Clients>, t: Target): Clients {
    if t in m then m[t] else map[]
  }

  function Gen(s: State, t: Target): nat {
    if t in s.generations then s.generations[t] else 0
  }

  function GenVec(s: State, t: Target): seq<nat> {
    s.base + [Gen(s, t)]
  }

  // ---------------------------------------------------------------- generations

  /** The comparison loop of GenCheck from index i on. */
  function Compare(mine: seq<nat>, query: seq<nat>, i: nat): Status
    requires |mine| == |query| && i <= |query|
    decreases |query| - i
  {
    if i == |query| then Success
    else if mine[i] < query[i] then FutureGen
    else if mine[i] > query[i] then LongDead
    else Compare(mine, query, i + 1)
  }

  /** GenCheck, for layers whose UpdateGenerations does nothing. */
  function GenCheck(s: State, t: Target, query: seq<nat>, valid: bool): Status {
    if !valid then UnknownTarget
    else if |GenVec(s, t)| != |query| then BadGenVec
    else Compare(GenVec(s, t), query, 0)
  }

  /** The lexicographic order: equal up to some index and smaller there. */
  ghost predicate LexLess(a: seq<nat>, b: seq<nat>)
    requires |a| == |b|
  {
    exists k :: 0 <= k < |a| && a[..k] == b[..k] && a[k] < b[k]
  }

  lemma {:induction false} CompareIsLex(mine: seq<nat>, query: seq<nat>, i: nat)
    requires |mine| == |query| && i <= |query| && mine[..i] == query[..i]
    ensures Compare(mine, query, i) in {Success, LongDead, FutureGen}
    ensures Compare(mine, query, i) == Success <==> mine == query
    ensures Compare(mine, query, i) == LongDead <==> LexLess(query, mine)
    ensures Compare(mine, query, i) == FutureGen <==> LexLess(mine, query)
    decreases |query| - i
  {
    if i == |query| {
      assert mine == mine[..i] && query == query[..i];
    } else if mine[i] == query[i] {
      assert mine[..i + 1] == mine[..i] + [mine[i]] && query[..i + 1] == query[..i] + [query[i]];
      CompareIsLex(mine, query, i + 1);
    } else {
      LexDecided(mine, query, i);
    }
  }

  /** The first difference decides the order. */
  lemma LexDecided(a: seq<nat>, b: seq<nat>, i: nat)
    requires |a| == |b| && i < |a| && a[..i] == b[..i] && a[i] != b[i]
    ensures a != b
    ensures LexLess(a, b) <==> a[i] < b[i]
    ensures LexLess(b, a) <==> b[i] < a[i]
  {
    SamePrefix(a, b, i);
    if a[i] < b[i] { assert LexLess(a, b); } else { assert LexLess(b, a); }
  }

  lemma SamePrefix(a: seq<nat>, b: seq<nat>, i: nat)
    requires |a| == |b| && i < |a| && a[..i] == b[..i] && a[i] != b[i]
    ensures forall k: nat :: k < |a| && a[..k] == b[..k] && a[k] != b[k] ==> k == i
  {
    assert forall k: nat :: k < i ==> a[k] == a[..i][k] == b[..i][k] == b[k];
  }

  /** For a target that can be monitored and a vector of the right length, GenCheck answers SUCCESS,
      LONG_DEAD or FUTURE_GEN exactly as the query is equal to, smaller or larger than the current
      vector in lexicographic order. */
  lemma GenCheckIsLex(s: State, t: Target, query: seq<nat>, valid: bool)
    ensures GenCheck(s, t, query, valid) == UnknownTarget <==> !valid
    ensures GenCheck(s, t, query, valid) == BadGenVec <==> valid && |query| != |s.base| + 1
    ensures valid && |query| == |s.base| + 1 ==>
              && (GenCheck(s, t, query, valid) == Success <==> query == GenVec(s, t))
              && (GenCheck(s, t, query, valid) == LongDead <==> LexLess(query, GenVec(s, t)))
              && (GenCheck(s, t, query, valid) == FutureGen <==> LexLess(GenVec(s, t), query))
  {
    if valid && |query| == |s.base| + 1 {
      CompareIsLex(GenVec(s, t), query, 0);
    }
  }

  /** IncrementGeneration: the log line is on disk before the counter moves. */
  function Increment(s: State, t: Target): State {
    s.(lines := s.lines + [t], generations := s.generations[t := (Gen(s, t) + 1) % LIMIT])
  }

  function Count(lines: seq<Target>, t: Target): nat {
    if lines == [] then 0
    else Count(lines[..|lines| - 1], t) + (if lines[|lines| - 1] == t then 1 else 0)
  }

  // ---------------------------------------------------------------- clients

  /** Erasing, by id, from the set of one target. */
  function Erase(m: map<Target, Clients>, t: Target, id: Id): map<Target, Clients> {
    m[t := At(m, t) - {id}]
  }

  /** Inserting into the set of one target; an object already there under the same id stays. */
  function Include(m: map<Target, Clients>, t: Target, id: Id, h: Handle): map<Target, Clients> {
    if id in At(m, t) then m else m[t := At(m, t)[id := h]]
  }

  function SetUp(s: State, h: Handle, t: Target, delay: int): State
    requires h in s.objs
  {
    s.(objs := s.objs[h := s.objs[h].(ups := s.objs[h].ups[t := delay])])
  }

  function DropUp(s: State, h: Handle, t: Target): State
    requires h in s.objs
  {
    s.(objs := s.objs[h := s.objs[h].(ups := s.objs[h].ups - {t})])
  }

  /** GetClient, first part: a new object when the id is unknown. */
  function WithClient(s: State, id: Id, tag: nat): State {
    if id in s.all then s
    else s.(objs := s.objs[s.next := Client(id, map[], tag)], next := s.next + 1, all := s.all[id := s.next])
  }

  /** One turn of the loop in RemoveClient. */
  function RemoveFrom(s: State, id: Id, t: Target): State {
    var s1 := s.(clients := Erase(s.clients, t, id), deadly := Erase(s.deadly, t, id));
    if At(s1.clients, t) == map[] then s1.(monitored := s1.monitored - {t}) else s1
  }

  /** The sets of the targets in ts without id. */
  function Without(m: map<Target, Clients>, ts: set<Target>, id: Id): map<Target, Clients> {
    map t | t in m.Keys + ts :: if t in ts then At(m, t) - {id} else m[t]
  }

  /** RemoveClient: the client leaves every target it has an interval for; targets left without
      clients are no longer monitored. */
  function RemoveClient(s: State, h: Handle): State
    requires h in s.objs
  {
    var id, ts := s.objs[h].id, s.objs[h].ups.Keys;
    var clients := Without(s.clients, ts, id);
    s.(all := s.all - {id}, clients := clients, deadly := Without(s.deadly, ts, id),
       monitored := s.monitored - set t | t in ts && At(clients, t) == map[])
  }

  /** ReportDown: the answer to the `retries`-th CLIENT_DOWN call, or with 0 the first call. A call is
      answered once, by the client or by the transport giving up. */
  function ReportDown(s: State, call: DownCall, ok: bool): State
    requires call.to in s.objs
  {
    Reported(if call.retries == 0 then s else s.(downs := s.downs - {call}), call, ok)
  }

  function Reported(s: State, call: DownCall, ok: bool): State
    requires call.to in s.objs
  {
    var h, t := call.to, call.target;
    if ok && call.retries != 0 then
      var s1 := DropUp(s, h, t);
      var id := s.objs[h].id;
      var s2 := s1.(clients := Erase(s.clients, t, id), deadly := Erase(s.deadly, t, id));
      if s2.objs[h].ups == map[] then RemoveClient(s2, h) else s2
    else if call.retries == MAX_RETRIES then RemoveClient(s, h)
    else s.(downs := s.downs + {call.(retries := call.retries + 1)})
  }

  /** ObserveDown. */
  function ObserveDown(s: State, t: Target): State {
    var told := set id | id in At(s.clients, t) :: DownCall(At(s.clients, t)[id], t, GenVec(s, t), 1);
    Increment(s.(downs := s.downs + told), t)
      .(clients := s.clients[t := map[]], waiting := s.waiting[t := map[]], monitored := s.monitored - {t})
  }

  /** AddToWaiting. */
  function AddToWaiting(s: State, t: Target, h: Handle): State
    requires h in s.objs
  {
    if s.objs[h].id in At(s.clients, t) then s.(waiting := Include(s.waiting, t, s.objs[h].id, h)) else s
  }

  /** RepeatWaiting up to the timer; looking up a missing interval creates one of zero. */
  function RepeatWaiting(s: State, t: Target, h: Handle): State
    requires h in s.objs
  {
    if s.objs[h].id !in At(s.clients, t) then s
    else
      var s1 := if t in s.objs[h].ups then s else SetUp(s, h, t, 0);
      if s1.objs[h].ups[t] == 0 then AddToWaiting(s1, t, h) else s1
  }

  // ---------------------------------------------------------------- requests

  /** SPY_REGISTER after GenCheck has passed. */
  function Enroll(s: State, t: Target, h: Handle, delay: int, lethal: bool): State
    requires h in s.objs
  {
    var id := s.objs[h].id;
    var isNew := id !in At(s.clients, t);
    var s1 := SetUp(s.(clients := Include(s.clients, t, id, h)), h, t, delay);
    var s2 := RepeatWaiting(s1, t, h);
    var s3 := if lethal then s2.(deadly := Include(s2.deadly, t, id, h)) else s2;
    if |At(s3.clients, t)| == 1 && isNew then s3.(monitored := s3.monitored + {t}) else s3
  }

  function OnRegister(s: State, t: Target, query: seq<nat>, valid: bool, id: Id, tag: nat, delay: int, lethal: bool): (State, Status)
    requires id in s.all ==> s.all[id] in s.objs
  {
    var st := GenCheck(s, t, query, valid);
    if st != Success then (s, st)
    else
      var s1 := WithClient(s, id, tag);
      (Enroll(s1, t, s1.all[id], delay, lethal), RegisterAck)
  }

  /** SPY_CANCEL after GenCheck has passed. */
  function Withdraw(s: State, t: Target, h: Handle): (State, Status)
    requires h in s.objs
  {
    var id := s.objs[h].id;
    if id !in At(s.clients, t) then (s, CancelError)
    else
      var s1 := DropUp(s.(clients := Erase(s.clients, t, id), deadly := Erase(s.deadly, t, id)), h, t);
      var s2 := if At(s1.clients, t) == map[] then s1.(monitored := s1.monitored - {t}) else s1;
      (if s2.objs[h].ups == map[] then RemoveClient(s2, h) else s2, CancelAck)
  }

  function OnCancel(s: State, t: Target, query: seq<nat>, valid: bool, id: Id, tag: nat): (State, Status)
    requires id in s.all ==> s.all[id] in s.objs
  {
    var st := GenCheck(s, t, query, valid);
    if st != Success then (s, st)
    else
      var s1 := WithClient(s, id, tag);
      Withdraw(s1, t, s1.all[id])
  }

  function OnKill(s: State, t: Target, query: seq<nat>, valid: bool): Status {
    var st := GenCheck(s, t, query, valid);
    if st != Success then st else KillAck
  }

  /** HandleClientHeartbeat. */
  function OnHeartbeat(s: State, h: Handle, ok: bool, retry: nat): State
    requires h in s.objs
  {
    if s.objs[h].id in s.all && !ok && retry >= CLIENT_RETRY then RemoveClient(s, h) else s
  }

  /** A crash followed by InitGenerations: only the log survives. */
  function Restart(s: State, base: seq<nat>): State {
    State(base, map t | t in s.lines :: Count(s.lines, t) % LIMIT, s.lines,
          map[], 0, map[], map[], map[], map[], {}, {})
  }
}
