/** What every step of the enforcer keeps, over any number of requests, failures, timers and crashes. */
module EnforcerRuns {
  import opened Enforcer

  /** Every member is a live object filed under its own id. */
  ghost predicate Filed(objs: map<Handle, Client>, cs: Clients) {
    forall id :: id in cs ==> cs[id] in objs && objs[cs[id]].id == id
  }

  ghost predicate AllFiled(objs: map<Handle, Client>, m: map<Target, Clients>) {
    forall t :: t in m ==> Filed(objs, m[t])
  }

  /** Every member of a target's set has an interval for the target. */
  ghost predicate Interested(objs: map<Handle, Client>, m: map<Target, Clients>) {
    forall t, id :: t in m && id in m[t] && m[t][id] in objs ==> t in objs[m[t][id]].ups
  }

  /** A target with a registered client is being monitored. */
  ghost predicate WatchedBy(clients: map<Target, Clients>, monitored: set<Target>) {
    forall t :: At(clients, t) != map[] ==> t in monitored
  }

  ghost predicate Watched(s: State) {
    WatchedBy(s.clients, s.monitored)
  }

  lemma JoinWatched(clients: map<Target, Clients>, monitored: set<Target>, t: Target, id: Id, h: Handle)
    requires WatchedBy(clients, monitored)
    ensures var c := Include(clients, t, id, h);
            WatchedBy(c, if |At(c, t)| == 1 && id !in At(clients, t) then monitored + {t} else monitored)
  {
    if At(clients, t) == map[] {
      assert |At(Include(clients, t, id, h), t)| == |map[id := h]| == 1;
    }
  }

  lemma LeaveWatched(clients: map<Target, Clients>, monitored: set<Target>, t: Target, id: Id)
    requires WatchedBy(clients, monitored)
    ensures var c := Erase(clients, t, id);
            WatchedBy(c, monitored) && (At(c, t) == map[] ==> WatchedBy(c, monitored - {t}))
  {
    assert id !in At(clients, t) ==> At(clients, t) - {id} == At(clients, t);
  }

  /** Generations are the line counts of the log. */
  ghost predicate Logged(s: State) {
    forall t :: Gen(s, t) == Count(s.lines, t) % LIMIT
  }

  ghost predicate ObjsOk(s: State) {
    && Filed(s.objs, s.all)
    && (forall h :: h in s.objs ==> h < s.next)
    && (forall d :: d in s.downs ==> d.to in s.objs)
  }

  ghost predicate Ok(s: State) {
    && ObjsOk(s)
    && AllFiled(s.objs, s.clients) && AllFiled(s.objs, s.deadly) && AllFiled(s.objs, s.waiting)
    && Interested(s.objs, s.clients) && Interested(s.objs, s.deadly)
    && Watched(s)
    && Logged(s)
  }

  // ---------------------------------------------------------------- building blocks

  /** Sets and intervals, without the monitor. */
  ghost predicate SetsOk(s: State) {
    && ObjsOk(s)
    && AllFiled(s.objs, s.clients) && AllFiled(s.objs, s.deadly) && AllFiled(s.objs, s.waiting)
    && Interested(s.objs, s.clients) && Interested(s.objs, s.deadly)
  }

  lemma SetUpKeeps(s: State, h: Handle, t: Target, delay: int)
    requires SetsOk(s) && h in s.objs
    ensures SetsOk(SetUp(s, h, t, delay))
  {
  }

  lemma WithClientKeeps(s: State, id: Id, tag: nat)
    requires SetsOk(s)
    ensures var s1 := WithClient(s, id, tag);
            SetsOk(s1) && id in s1.all && s1.all[id] in s1.objs && s1.objs[s1.all[id]].id == id
    ensures WithClient(s, id, tag).clients == s.clients && WithClient(s, id, tag).monitored == s.monitored
    ensures WithClient(s, id, tag).lines == s.lines && WithClient(s, id, tag).generations == s.generations
  {
  }

  /** Leaving a target: the interval and the memberships go together. */
  lemma LeaveKeeps(s: State, h: Handle, t: Target)
    requires SetsOk(s) && h in s.objs
    ensures var id := s.objs[h].id;
            SetsOk(DropUp(s.(clients := Erase(s.clients, t, id), deadly := Erase(s.deadly, t, id)), h, t))
  {
    DropKeeps(s.objs, s.clients, h, t);
    DropKeeps(s.objs, s.deadly, h, t);
    DropKeeps(s.objs, s.waiting, h, t);
    hide AllFiled, Interested;
  }

  ghost function Dropped(objs: map<Handle, Client>, h: Handle, t: Target): map<Handle, Client>
    requires h in objs
  {
    objs[h := objs[h].(ups := objs[h].ups - {t})]
  }

  lemma DropKeeps(objs: map<Handle, Client>, m: map<Target, Clients>, h: Handle, t: Target)
    requires AllFiled(objs, m) && h in objs
    ensures AllFiled(Dropped(objs, h, t), m) && AllFiled(Dropped(objs, h, t), Erase(m, t, objs[h].id))
    ensures Interested(objs, m) ==> Interested(Dropped(objs, h, t), Erase(m, t, objs[h].id))
  {
  }

  lemma EmptyKeeps(objs: map<Handle, Client>, m: map<Target, Clients>, t: Target)
    requires AllFiled(objs, m)
    ensures AllFiled(objs, m[t := map[]]) && (Interested(objs, m) ==> Interested(objs, m[t := map[]]))
  {
  }

  lemma WithoutKeeps(objs: map<Handle, Client>, m: map<Target, Clients>, ts: set<Target>, id: Id)
    requires AllFiled(objs, m) && Interested(objs, m)
    ensures AllFiled(objs, Without(m, ts, id)) && Interested(objs, Without(m, ts, id))
    ensures forall t :: At(Without(m, ts, id), t) == if t in ts then At(m, t) - {id} else At(m, t)
  {
  }

  lemma RemoveKeepsSets(s: State, h: Handle)
    requires SetsOk(s) && h in s.objs
    ensures SetsOk(RemoveClient(s, h))
  {
    var id, ts := s.objs[h].id, s.objs[h].ups.Keys;
    WithoutKeeps(s.objs, s.clients, ts, id);
    WithoutKeeps(s.objs, s.deadly, ts, id);
    hide Without;
  }

  lemma RemoveSameLog(s: State, h: Handle)
    requires h in s.objs
    ensures SameLog(s, RemoveClient(s, h))
  {
  }

  lemma RemoveKeepsWatch(s: State, h: Handle)
    requires SetsOk(s) && Watched(s) && h in s.objs
    ensures Watched(RemoveClient(s, h))
  {
    WithoutKeeps(s.objs, s.clients, s.objs[h].ups.Keys, s.objs[h].id);
    hide Without;
  }

  /** After RemoveClient the object is in no target's client set and in no target's deadly set. */
  lemma RemovedEverywhere(s: State, h: Handle, t: Target)
    requires Ok(s) && h in s.objs
    ensures var s1 := RemoveClient(s, h);
            && h !in At(s1.clients, t).Values && h !in At(s1.deadly, t).Values && h !in s1.all.Values
  {
    WithoutKeeps(s.objs, s.clients, s.objs[h].ups.Keys, s.objs[h].id);
    WithoutKeeps(s.objs, s.deadly, s.objs[h].ups.Keys, s.objs[h].id);
  }

  lemma {:induction false} CountNext(lines: seq<Target>, x: Target, t: Target)
    ensures Count(lines + [x], t) == Count(lines, t) + (if t == x then 1 else 0)
  {
    assert (lines + [x])[..|lines|] == lines;
  }

  lemma IncrementKeeps(s: State, t: Target)
    requires Logged(s)
    ensures Logged(Increment(s, t))
  {
    forall u ensures Gen(Increment(s, t), u) == Count(s.lines + [t], u) % LIMIT {
      CountNext(s.lines, t, u);
    }
  }

  /** The loop of RemoveClient, one target at a time, computes the same as the whole. */
  lemma RemoveFromNext(m: map<Target, Clients>, ts: set<Target>, t: Target, id: Id)
    requires t !in ts
    ensures Erase(Without(m, ts, id), t, id) == Without(m, ts + {t}, id)
  {
  }

  // ---------------------------------------------------------------- the steps

  datatype Event =
    | Register(t: Target, query: seq<nat>, valid: bool, id: Id, tag: nat, delay: int, lethal: bool)
    | Cancel(t: Target, query: seq<nat>, valid: bool, id: Id, tag: nat)
    | Kill(t: Target, query: seq<nat>, valid: bool)
    | Down(t: Target)
    | DownAnswered(call: DownCall, ok: bool)
    | UpSeen(t: Target)
    | Repeat(t: Target, h: Handle)
    | Timer(t: Target, h: Handle)
    | Heartbeat(h: Handle, ok: bool, retry: nat)
    | Crash(base: seq<nat>)
    | CrashAfterWrite(t: Target, base: seq<nat>)

  ghost predicate Possible(s: State, e: Event) {
    match e
    case DownAnswered(call, _) => call in s.downs
    case Repeat(_, h) => h in s.objs
    case Timer(_, h) => h in s.objs
    case Heartbeat(h, _, _) => h in s.objs
    case _ => true
  }

  /** A crash can fall between writing the log line and raising the counter. */
  ghost function Next(s: State, e: Event): State
    requires Ok(s) && Possible(s, e)
  {
    match e
    case Register(t, q, valid, id, tag, delay, lethal) => OnRegister(s, t, q, valid, id, tag, delay, lethal).0
    case Cancel(t, q, valid, id, tag) => OnCancel(s, t, q, valid, id, tag).0
    case Kill(_, _, _) => s
    case Down(t) => ObserveDown(s, t)
    case DownAnswered(call, ok) => ReportDown(s, call, ok)
    case UpSeen(t) => s.(waiting := s.waiting[t := map[]])
    case Repeat(t, h) => RepeatWaiting(s, t, h)
    case Timer(t, h) => AddToWaiting(s, t, h)
    case Heartbeat(h, ok, retry) => OnHeartbeat(s, h, ok, retry)
    case Crash(base) => Restart(s, base)
    case CrashAfterWrite(t, base) => Restart(s.(lines := s.lines + [t]), base)
  }

  /** The request is answered with its acknowledgement. */
  ghost predicate Accepts(s: State, e: Event)
    requires Ok(s)
  {
    match e
    case Register(t, q, valid, id, tag, delay, lethal) => OnRegister(s, t, q, valid, id, tag, delay, lethal).1 == RegisterAck
    case Cancel(t, q, valid, id, tag) => OnCancel(s, t, q, valid, id, tag).1 == CancelAck
    case Kill(t, q, valid) => OnKill(s, t, q, valid) == KillAck
    case _ => false
  }

  /** The generations and the log are not touched. */
  ghost predicate SameLog(s: State, t: State) {
    t.lines == s.lines && t.generations == s.generations
  }

  lemma AddToWaitingKeeps(s: State, t: Target, h: Handle)
    requires SetsOk(s) && h in s.objs
    ensures var s1 := AddToWaiting(s, t, h);
            SetsOk(s1) && s1.clients == s.clients && s1.monitored == s.monitored && SameLog(s, s1)
  {
  }

  lemma RepeatKeeps(s: State, t: Target, h: Handle)
    requires SetsOk(s) && h in s.objs
    ensures var s1 := RepeatWaiting(s, t, h);
            && SetsOk(s1) && s1.clients == s.clients && s1.monitored == s.monitored && SameLog(s, s1)
            && h in s1.objs && s1.objs[h].id == s.objs[h].id && (t in s.objs[h].ups ==> s1.objs == s.objs)
            && s1.deadly == s.deadly && s1.all == s.all
  {
    hide SetsOk;
    if s.objs[h].id in At(s.clients, t) && t !in s.objs[h].ups {
      SetUpKeeps(s, h, t, 0);
      AddToWaitingKeeps(SetUp(s, h, t, 0), t, h);
    } else {
      AddToWaitingKeeps(s, t, h);
    }
  }

  /** Joining a target's set once the interval is recorded. */
  lemma JoinKeeps(objs: map<Handle, Client>, m: map<Target, Clients>, t: Target, h: Handle)
    requires AllFiled(objs, m) && Interested(objs, m) && h in objs && t in objs[h].ups
    ensures AllFiled(objs, Include(m, t, objs[h].id, h)) && Interested(objs, Include(m, t, objs[h].id, h))
  {
  }

  lemma EnrollKeeps(s: State, t: Target, h: Handle, delay: int, lethal: bool)
    requires SetsOk(s) && Watched(s) && h in s.objs
    ensures var s1 := Enroll(s, t, h, delay, lethal); SetsOk(s1) && Watched(s1) && SameLog(s, s1)
  {
    var id := s.objs[h].id;
    var u := SetUp(s, h, t, delay);
    SetUpKeeps(s, h, t, delay);
    JoinKeeps(u.objs, u.clients, t, h);
    JoinKeeps(u.objs, u.deadly, t, h);
    var s1 := SetUp(s.(clients := Include(s.clients, t, id, h)), h, t, delay);
    assert s1 == u.(clients := Include(s.clients, t, id, h));
    assert SetsOk(s1);
    RepeatKeeps(s1, t, h);
    var s2 := RepeatWaiting(s1, t, h);
    JoinWatched(s.clients, s.monitored, t, id, h);
    hide RepeatWaiting, SetUp, Interested, AllFiled, ObjsOk, Include, WatchedBy;
  }

  lemma RegisterKeeps(s: State, e: Event)
    requires Ok(s) && e.Register?
    ensures Ok(Next(s, e)) && SameLog(s, Next(s, e))
  {
    var s1 := WithClient(s, e.id, e.tag);
    WithClientKeeps(s, e.id, e.tag);
    hide WithClient, Enroll, GenCheck, AllFiled, Interested, ObjsOk;
    assert Watched(s1);
    EnrollKeeps(s1, e.t, s1.all[e.id], e.delay, e.lethal);
  }

  lemma WithdrawKeeps(s: State, t: Target, h: Handle)
    requires SetsOk(s) && Watched(s) && h in s.objs
    ensures var s1 := Withdraw(s, t, h).0; SetsOk(s1) && Watched(s1) && SameLog(s, s1)
  {
    var id := s.objs[h].id;
    LeaveKeeps(s, h, t);
    var s1 := DropUp(s.(clients := Erase(s.clients, t, id), deadly := Erase(s.deadly, t, id)), h, t);
    var s2 := if At(s1.clients, t) == map[] then s1.(monitored := s1.monitored - {t}) else s1;
    LeaveWatched(s.clients, s.monitored, t, id);
    hide AllFiled, Interested, WatchedBy, Erase, RemoveClient, ObjsOk;
    assert SetsOk(s2) && Watched(s2) && h in s2.objs && SameLog(s, s2);
    RemoveKeepsSets(s2, h);
    RemoveKeepsWatch(s2, h);
    hide SetsOk, Watched, DropUp;
    RemoveSameLog(s2, h);
  }

  lemma CancelKeeps(s: State, e: Event)
    requires Ok(s) && e.Cancel?
    ensures Ok(Next(s, e)) && SameLog(s, Next(s, e))
  {
    var s1 := WithClient(s, e.id, e.tag);
    WithClientKeeps(s, e.id, e.tag);
    hide WithClient, Withdraw, GenCheck, AllFiled, Interested, ObjsOk;
    assert Watched(s1);
    WithdrawKeeps(s1, e.t, s1.all[e.id]);
  }

  lemma RemoveKeeps(s: State, h: Handle)
    requires Ok(s) && h in s.objs
    ensures Ok(RemoveClient(s, h)) && SameLog(s, RemoveClient(s, h))
  {
    RemoveKeepsSets(s, h);
    RemoveKeepsWatch(s, h);
    hide AllFiled, Interested, ObjsOk;
  }

  lemma ReportDownKeeps(s: State, call: DownCall, ok: bool)
    requires Ok(s) && call in s.downs
    ensures Ok(ReportDown(s, call, ok)) && SameLog(s, ReportDown(s, call, ok))
  {
    var s0 := if call.retries == 0 then s else s.(downs := s.downs - {call});
    assert Ok(s0) && call.to in s0.objs && SameLog(s, s0) by { hide AllFiled, Interested; }
    ReportedKeeps(s0, call, ok);
    hide Ok, Reported;
  }

  lemma ReportedKeeps(s: State, call: DownCall, ok: bool)
    requires Ok(s) && call.to in s.objs
    ensures Ok(Reported(s, call, ok)) && SameLog(s, Reported(s, call, ok))
  {
    var h, t := call.to, call.target;
    if ok && call.retries != 0 {
      var id := s.objs[h].id;
      LeaveKeeps(s, h, t);
      var s2 := DropUp(s, h, t).(clients := Erase(s.clients, t, id), deadly := Erase(s.deadly, t, id));
      assert s2 == DropUp(s.(clients := Erase(s.clients, t, id), deadly := Erase(s.deadly, t, id)), h, t);
      assert Watched(s2);
      assert Ok(s2) by { hide AllFiled, Interested; }
      hide Ok;
      RemoveKeeps(s2, h);
    } else {
      hide AllFiled, Interested;
      RemoveKeeps(s, h);
    }
  }

  lemma DownParts(s: State, t: Target)
    ensures var u := ObserveDown(s, t);
            && u.lines == Increment(s, t).lines && u.generations == Increment(s, t).generations
            && u.objs == s.objs && u.deadly == s.deadly && u.all == s.all && u.next == s.next
            && u.clients == s.clients[t := map[]] && u.waiting == s.waiting[t := map[]] && u.monitored == s.monitored - {t}
            && forall d :: d in u.downs ==> d in s.downs || d.to in At(s.clients, t).Values
  {
  }

  lemma DownKeeps(s: State, t: Target)
    requires Ok(s)
    ensures Ok(ObserveDown(s, t))
  {
    DownParts(s, t);
    IncrementKeeps(s, t);
    EmptyKeeps(s.objs, s.clients, t);
    EmptyKeeps(s.objs, s.waiting, t);
    var u := ObserveDown(s, t);
    DownObjs(s, t);
    SameLogged(Increment(s, t), u);
    hide ObserveDown, Increment, AllFiled, Interested, ObjsOk, Logged, Filed;
  }

  lemma SameLogged(a: State, b: State)
    requires Logged(a) && b.lines == a.lines && b.generations == a.generations
    ensures Logged(b)
  {
    hide Count;
  }

  lemma DownObjs(s: State, t: Target)
    requires Ok(s)
    ensures ObjsOk(ObserveDown(s, t))
  {
    DownParts(s, t);
    assert Filed(s.objs, At(s.clients, t));
    hide ObserveDown, AllFiled, Interested, Logged, Watched;
  }

  lemma {:induction false} CountZero(lines: seq<Target>, t: Target)
    ensures t !in lines ==> Count(lines, t) == 0
  {
    if lines != [] {
      CountZero(lines[..|lines| - 1], t);
    }
  }

  lemma RestartKeeps(s: State, base: seq<nat>)
    ensures Ok(Restart(s, base))
  {
    forall t ensures Gen(Restart(s, base), t) == Count(s.lines, t) % LIMIT {
      CountZero(s.lines, t);
    }
  }

  /** Every step of the enforcer keeps the invariant, crashes included. */
  lemma StepKeeps(s: State, e: Event)
    requires Ok(s) && Possible(s, e)
    ensures Ok(Next(s, e))
  {
    match e
    case Register(_, _, _, _, _, _, _) => RegisterKeeps(s, e);
    case Cancel(_, _, _, _, _) => CancelKeeps(s, e);
    case Kill(_, _, _) =>
    case Down(t) => DownKeeps(s, t);
    case DownAnswered(call, ok) => ReportDownKeeps(s, call, ok);
    case UpSeen(t) =>
    case Repeat(t, h) => hide AllFiled, Interested, RepeatWaiting; RepeatKeeps(s, t, h);
    case Timer(t, h) => hide AllFiled, Interested, AddToWaiting; AddToWaitingKeeps(s, t, h);
    case Heartbeat(h, ok, retry) => hide AllFiled, Interested; RemoveKeeps(s, h);
    case Crash(base) => RestartKeeps(s, base);
    case CrashAfterWrite(t, base) => RestartKeeps(s.(lines := s.lines + [t]), base);
  }

  // ---------------------------------------------------------------- runs

  ghost predicate IsRun(ss: seq<State>, es: seq<Event>) {
    && |ss| == |es| + 1 && Ok(ss[0])
    && forall k :: 0 <= k < |es| ==> Ok(ss[k]) && Possible(ss[k], es[k]) && ss[k + 1] == Next(ss[k], es[k])
  }

  /** A freshly started enforcer. */
  lemma StartOk(lines: seq<Target>, base: seq<nat>)
    ensures Ok(Restart(State(base, map[], lines, map[], 0, map[], map[], map[], map[], {}, {}), base))
  {
    RestartKeeps(State(base, map[], lines, map[], 0, map[], map[], map[], map[], {}, {}), base);
  }

  lemma {:induction false} RunOk(ss: seq<State>, es: seq<Event>, k: nat)
    requires IsRun(ss, es) && k < |ss|
    ensures Ok(ss[k])
  {
    hide Ok, Possible, Next;
    if k > 0 {
      RunOk(ss, es, k - 1);
      StepKeeps(ss[k - 1], es[k - 1]);
    }
  }

  lemma {:induction false} CountGrows(a: seq<Target>, b: seq<Target>, t: Target)
    requires a <= b
    ensures Count(a, t) <= Count(b, t) <= |b|
    decreases |b|
  {
    if a == b {
      if b != [] { CountGrows(b[..|b| - 1], b[..|b| - 1], t); }
    } else {
      CountGrows(a, b[..|b| - 1], t);
    }
  }

  /** The log is only appended to. */
  lemma StepAppends(s: State, e: Event)
    requires Ok(s) && Possible(s, e)
    ensures s.lines <= Next(s, e).lines
  {
    hide Ok;
    match e
    case Register(_, _, _, _, _, _, _) => RegisterKeeps(s, e);
    case Cancel(_, _, _, _, _) => CancelKeeps(s, e);
    case DownAnswered(call, ok) => ReportDownKeeps(s, call, ok);
    case Repeat(t, h) => RepeatLines(s, t, h);
    case Heartbeat(h, ok, retry) => RemoveSameLog(s, h) by { assert h in s.objs; }
    case _ =>
  }

  lemma RepeatLines(s: State, t: Target, h: Handle)
    requires Ok(s) && h in s.objs
    ensures RepeatWaiting(s, t, h).lines == s.lines
  {
    hide AllFiled, Interested;
    RepeatKeeps(s, t, h);
  }

  lemma {:induction false} RunAppends(ss: seq<State>, es: seq<Event>, i: nat, j: nat)
    requires IsRun(ss, es) && i <= j < |ss|
    ensures ss[i].lines <= ss[j].lines
    decreases j - i
  {
    hide Ok, Possible, Next;
    if i < j {
      RunAppends(ss, es, i, j - 1);
      StepAppends(ss[j - 1], es[j - 1]);
    }
  }

  /** At every moment: a target with a registered client is being monitored, and whoever is in a
      target's client set or deadly set has an interval for the target. */
  lemma MembersAreWatched(ss: seq<State>, es: seq<Event>, k: nat, t: Target, id: Id)
    requires IsRun(ss, es) && k < |ss|
    ensures id in At(ss[k].clients, t) ==>
              && t in ss[k].monitored
              && At(ss[k].clients, t)[id] in ss[k].objs && t in ss[k].objs[At(ss[k].clients, t)[id]].ups
    ensures id in At(ss[k].deadly, t) ==>
              At(ss[k].deadly, t)[id] in ss[k].objs && t in ss[k].objs[At(ss[k].deadly, t)[id]].ups
  {
    RunOk(ss, es, k);
    hide IsRun;
    assert Filed(ss[k].objs, At(ss[k].clients, t)) && Filed(ss[k].objs, At(ss[k].deadly, t));
  }

  /** The object is in no target's client set, in no deadly set, and not on file. */
  ghost predicate Gone(s: State, h: Handle) {
    && h in s.objs && NotIn(h, s.clients) && NotIn(h, s.deadly)
    && (forall id :: id in s.all ==> s.all[id] != h)
  }

  ghost predicate NotIn(h: Handle, m: map<Target, Clients>) {
    forall t, id :: t in m && id in m[t] ==> m[t][id] != h
  }

  lemma ChangesStayOut(m: map<Target, Clients>, h: Handle, t: Target, id: Id, g: Handle, ts: set<Target>)
    requires NotIn(h, m)
    ensures NotIn(h, Erase(m, t, id)) && NotIn(h, Without(m, ts, id)) && NotIn(h, m[t := map[]])
    ensures g != h ==> NotIn(h, Include(m, t, id, g))
  {
  }

  lemma RemoveGone(s: State, g: Handle, h: Handle)
    requires Gone(s, h) && g in s.objs
    ensures Gone(RemoveClient(s, g), h)
  {
    ChangesStayOut(s.clients, h, "", s.objs[g].id, g, s.objs[g].ups.Keys);
    ChangesStayOut(s.deadly, h, "", s.objs[g].id, g, s.objs[g].ups.Keys);
    hide Without, NotIn;
  }

  lemma LeaveGone(s: State, g: Handle, t: Target, h: Handle)
    requires Gone(s, h) && g in s.objs
    ensures var id := s.objs[g].id;
            Gone(DropUp(s.(clients := Erase(s.clients, t, id), deadly := Erase(s.deadly, t, id)), g, t), h)
  {
    ChangesStayOut(s.clients, h, t, s.objs[g].id, g, {});
    ChangesStayOut(s.deadly, h, t, s.objs[g].id, g, {});
    hide Erase, NotIn;
  }

  lemma RepeatGone(s: State, t: Target, g: Handle, h: Handle)
    requires Gone(s, h) && g in s.objs
    ensures Gone(RepeatWaiting(s, t, g), h)
  {
    hide NotIn, Include;
  }

  lemma EnrollGone(s: State, t: Target, g: Handle, delay: int, lethal: bool, h: Handle)
    requires Gone(s, h) && g in s.objs && g != h
    ensures Gone(Enroll(s, t, g, delay, lethal), h)
  {
    var id := s.objs[g].id;
    ChangesStayOut(s.clients, h, t, id, g, {});
    ChangesStayOut(s.deadly, h, t, id, g, {});
    var s1 := SetUp(s.(clients := Include(s.clients, t, id, g)), g, t, delay);
    hide NotIn, Include;
    RepeatGone(s1, t, g, h);
    RepeatDeadly(s1, t, g);
    hide RepeatWaiting;
  }

  lemma RepeatDeadly(s: State, t: Target, g: Handle)
    requires g in s.objs
    ensures RepeatWaiting(s, t, g).deadly == s.deadly
  {
    hide Include;
  }

  lemma WithClientGone(s: State, id: Id, tag: nat, h: Handle)
    requires ObjsOk(s) && Gone(s, h)
    ensures var s1 := WithClient(s, id, tag); Gone(s1, h) && id in s1.all && s1.all[id] in s1.objs && s1.all[id] != h
  {
    hide NotIn;
  }

  lemma RegisterGone(s: State, e: Event, h: Handle)
    requires Ok(s) && Gone(s, h) && e.Register?
    ensures Gone(Next(s, e), h)
  {
    WithClientGone(s, e.id, e.tag, h);
    var s1 := WithClient(s, e.id, e.tag);
    hide AllFiled, Interested, NotIn, WithClient, Enroll, GenCheck, ObjsOk, Gone;
    EnrollGone(s1, e.t, s1.all[e.id], e.delay, e.lethal, h);
  }

  lemma WithdrawGone(s: State, t: Target, g: Handle, h: Handle)
    requires Gone(s, h) && g in s.objs
    ensures Gone(Withdraw(s, t, g).0, h)
  {
    var id := s.objs[g].id;
    LeaveGone(s, g, t, h);
    var s1 := DropUp(s.(clients := Erase(s.clients, t, id), deadly := Erase(s.deadly, t, id)), g, t);
    var s2 := if At(s1.clients, t) == map[] then s1.(monitored := s1.monitored - {t}) else s1;
    hide NotIn, Erase, RemoveClient;
    assert Gone(s2, h) && g in s2.objs;
    RemoveGone(s2, g, h);
  }

  lemma CancelGone(s: State, e: Event, h: Handle)
    requires Ok(s) && Gone(s, h) && e.Cancel?
    ensures Gone(Next(s, e), h)
  {
    WithClientGone(s, e.id, e.tag, h);
    var s1 := WithClient(s, e.id, e.tag);
    hide AllFiled, Interested, NotIn, WithClient, Withdraw, GenCheck, ObjsOk, Gone;
    WithdrawGone(s1, e.t, s1.all[e.id], h);
  }

  lemma ReportDownGone(s: State, call: DownCall, ok: bool, h: Handle)
    requires Gone(s, h) && call.to in s.objs
    ensures Gone(ReportDown(s, call, ok), h)
  {
    hide NotIn, Reported;
    ReportedGone(if call.retries == 0 then s else s.(downs := s.downs - {call}), call, ok, h);
  }

  lemma ReportedGone(s: State, call: DownCall, ok: bool, h: Handle)
    requires Gone(s, h) && call.to in s.objs
    ensures Gone(Reported(s, call, ok), h)
  {
    var g, t, id := call.to, call.target, s.objs[call.to].id;
    LeaveGone(s, g, t, h);
    var s2 := DropUp(s, g, t).(clients := Erase(s.clients, t, id), deadly := Erase(s.deadly, t, id));
    assert s2 == DropUp(s.(clients := Erase(s.clients, t, id), deadly := Erase(s.deadly, t, id)), g, t);
    assert g in s2.objs;
    RemoveGone(s, g, h);
    RemoveGone(s2, g, h);
    hide NotIn, Erase, RemoveClient, DropUp;
  }

  lemma DownGone(s: State, t: Target, h: Handle)
    requires Gone(s, h)
    ensures Gone(ObserveDown(s, t), h)
  {
    DownParts(s, t);
    ChangesStayOut(s.clients, h, t, "", h, {});
    hide NotIn, ObserveDown;
  }

  lemma GoneStays(s: State, e: Event, h: Handle)
    requires Ok(s) && Possible(s, e) && Gone(s, h) && !e.Crash? && !e.CrashAfterWrite?
    ensures Gone(Next(s, e), h)
  {
    hide Ok, RepeatWaiting, AddToWaiting, ReportDown, ObserveDown, OnRegister, OnCancel, RemoveClient, NotIn;
    match e
    case Register(_, _, _, _, _, _, _) => RegisterGone(s, e, h);
    case Cancel(_, _, _, _, _) => CancelGone(s, e, h);
    case Down(t) => DownGone(s, t, h);
    case DownAnswered(call, ok) => CallKnown(s, call); ReportDownGone(s, call, ok, h);
    case Repeat(t, g) => RepeatGone(s, t, g, h);
    case Timer(t, g) => TimerGone(s, t, g, h);
    case Heartbeat(g, ok, retry) => RemoveGone(s, g, h);
    case Kill(_, _, _) =>
    case UpSeen(_) =>
  }

  lemma CallKnown(s: State, call: DownCall)
    requires Ok(s) && call in s.downs
    ensures call.to in s.objs
  {
  }

  lemma TimerGone(s: State, t: Target, g: Handle, h: Handle)
    requires Gone(s, h) && g in s.objs
    ensures Gone(AddToWaiting(s, t, g), h)
  {
    hide NotIn, Include;
  }

  /** RemoveClient makes the object gone, and until the process restarts it never comes back into any
      target's client set or deadly set, whatever late answers and timers still hold on to it. */
  lemma {:induction false} RemovedForGood(ss: seq<State>, es: seq<Event>, i: nat, j: nat, h: Handle)
    requires IsRun(ss, es) && i < j < |ss| && h in ss[i].objs && ss[i + 1] == RemoveClient(ss[i], h)
    requires forall k :: i < k < j ==> !es[k].Crash? && !es[k].CrashAfterWrite?
    ensures Gone(ss[j], h)
    decreases j
  {
    if j == i + 1 {
      RunOk(ss, es, i);
      hide IsRun;
      RemoveMakesGone(ss[i], h);
    } else {
      hide Ok, Possible, Next, Gone, RemoveClient;
      RemovedForGood(ss, es, i, j - 1, h);
      GoneStays(ss[j - 1], es[j - 1], h);
    }
  }

  lemma RemoveMakesGone(s: State, h: Handle)
    requires Ok(s) && h in s.objs
    ensures Gone(RemoveClient(s, h), h)
  {
    var s1 := RemoveClient(s, h);
    forall t ensures h !in At(s1.clients, t).Values && h !in At(s1.deadly, t).Values && h !in s1.all.Values {
      RemovedEverywhere(s, h, t);
    }
    hide RemoveClient, Ok;
    NotInValues(h, s1.clients);
    NotInValues(h, s1.deadly);
    assert RemoveClient(s, h).objs == s.objs by { RemoveObjs(s, h); }
    hide NotIn;
  }

  lemma RemoveObjs(s: State, h: Handle)
    requires h in s.objs
    ensures RemoveClient(s, h).objs == s.objs
  {
  }

  lemma NotInValues(h: Handle, m: map<Target, Clients>)
    requires forall t :: h !in At(m, t).Values
    ensures NotIn(h, m)
  {
    forall t, id | t in m && id in m[t] ensures m[t][id] != h {
      assert h !in At(m, t).Values;
    }
  }

  /** The target and the generation vector a request carries. */
  ghost predicate Carries(e: Event, t: Target, g: nat) {
    match e
    case Register(u, q, _, _, _, _, _) => u == t && q != [] && q[|q| - 1] == g
    case Cancel(u, q, _, _, _) => u == t && q != [] && q[|q| - 1] == g
    case Kill(u, q, _) => u == t && q != [] && q[|q| - 1] == g
    case _ => false
  }

  lemma GenCheckAnswers(s: State, t: Target, query: seq<nat>, valid: bool)
    ensures GenCheck(s, t, query, valid) in {Success, UnknownTarget, BadGenVec, FutureGen, LongDead}
  {
    if valid && |GenVec(s, t)| == |query| { CompareIsLex(GenVec(s, t), query, 0); }
  }

  lemma AcceptedIsCurrent(s: State, e: Event, t: Target, g: nat)
    requires Ok(s) && Carries(e, t, g) && Accepts(s, e)
    ensures g == Gen(s, t)
  {
    GenCheckIsLex(s, e.t, e.query, e.valid);
    GenCheckAnswers(s, e.t, e.query, e.valid);
    hide AllFiled, Interested, GenCheck, WithClient, Enroll, Withdraw;
    assert GenCheck(s, t, e.query, e.valid) == Success;
    assert e.query == GenVec(s, t);
  }

  /** Once a target has been observed down at generation g, no later REGISTER, CANCEL or KILL that
      carries g is accepted, through any number of crashes: fewer than 2^32 failures. */
  lemma DeadStaysDead(ss: seq<State>, es: seq<Event>, i: nat, j: nat, t: Target)
    requires IsRun(ss, es) && i < j < |es| && es[i] == Down(t) && |ss[j].lines| < LIMIT
    requires Carries(es[j], t, Gen(ss[i], t))
    ensures Ok(ss[j]) && !Accepts(ss[j], es[j])
  {
    RunOk(ss, es, i);
    RunOk(ss, es, j);
    RunAppends(ss, es, i, i + 1);
    RunAppends(ss, es, i + 1, j);
    CountGrows(ss[i].lines, ss[j].lines, t);
    CountGrows(ss[i + 1].lines, ss[j].lines, t);
    CountNext(ss[i].lines, t, t);
    assert ss[i + 1].lines == ss[i].lines + [t];
    assert Gen(ss[i], t) < Gen(ss[j], t) by {
      assert Logged(ss[i]) && Logged(ss[j]);
      hide IsRun, Ok;
    }
    hide IsRun, Ok, Accepts, Carries;
    if Accepts(ss[j], es[j]) { AcceptedIsCurrent(ss[j], es[j], t, Gen(ss[i], t)); }
  }

  /** At every moment the log holds as many lines for a target as its generation, so a crash, even one
      between writing a line and raising the counter, never restores a smaller generation. */
  lemma GenerationsSurvive(ss: seq<State>, es: seq<Event>, k: nat, t: Target, u: Target, base: seq<nat>)
    requires IsRun(ss, es) && k < |ss| && |ss[k].lines| + 1 < LIMIT
    ensures Gen(ss[k], t) == Count(ss[k].lines, t)
    ensures Ok(ss[k]) && Gen(Next(ss[k], Crash(base)), t) == Gen(ss[k], t)
    ensures Gen(ss[k], t) <= Gen(Next(ss[k], CrashAfterWrite(u, base)), t) <= Gen(ss[k], t) + 1
  {
    hide *;
    RunOk(ss, es, k);
    SurvivesCrash(ss[k], t, u, base);
  }

  lemma SurvivesCrash(s: State, t: Target, u: Target, base: seq<nat>)
    requires Ok(s) && |s.lines| + 1 < LIMIT
    ensures Gen(s, t) == Count(s.lines, t)
    ensures Gen(Next(s, Crash(base)), t) == Gen(s, t)
    ensures Gen(s, t) <= Gen(Next(s, CrashAfterWrite(u, base)), t) <= Gen(s, t) + 1
  {
    assert Logged(s);
    assert Gen(s, t) == Count(s.lines, t) % LIMIT;
    hide Ok, Logged, Gen, Next, Count;
    CountGrows(s.lines, s.lines, t);
    CountNext(s.lines, u, t);
    CrashGen(s, t, u, base);
    SmallMod(Count(s.lines, t));
    SmallMod(Count(s.lines + [u], t));
  }

  lemma SmallMod(x: nat)
    ensures x < LIMIT ==> x % LIMIT == x
  {
  }

  lemma CrashGen(s: State, t: Target, u: Target, base: seq<nat>)
    requires Ok(s)
    ensures Gen(Next(s, Crash(base)), t) == Count(s.lines, t) % LIMIT
    ensures Gen(Next(s, CrashAfterWrite(u, base)), t) == Count(s.lines + [u], t) % LIMIT
  {
    NextRestarts(s, u, base);
    RestartGen(s, base, t);
    RestartGen(s.(lines := s.lines + [u]), base, t);
    hide Ok, Next, Restart, Gen, Count;
  }

  lemma NextRestarts(s: State, u: Target, base: seq<nat>)
    requires Ok(s)
    ensures Next(s, Crash(base)) == Restart(s, base)
    ensures Next(s, CrashAfterWrite(u, base)) == Restart(s.(lines := s.lines + [u]), base)
  {
    hide Ok, Restart, OnRegister, OnCancel, ObserveDown, ReportDown, RepeatWaiting, AddToWaiting, OnHeartbeat;
  }

  lemma RestartGen(s: State, base: seq<nat>, t: Target)
    ensures Gen(Restart(s, base), t) == Count(s.lines, t) % LIMIT
  {
    CountZero(s.lines, t);
    hide Count;
  }

  // ---------------------------------------------------------------- a late acknowledgement

  /** An acknowledgement of a CLIENT_DOWN call does not say which generation it is for: if the client
      has registered again in the meantime, it is dropped from the target all the same. */
  lemma LateAckDrops(s: State, call: DownCall)
    requires Ok(s) && call in s.downs && call.retries > 0
    ensures s.objs[call.to].id !in At(ReportDown(s, call, true).clients, call.target)
    ensures call.target !in ReportDown(s, call, true).objs[call.to].ups
  {
    hide AllFiled, Interested;
  }

  const T := "vm"
  const C := "10.0.0.1:7:1"

  function Empty(): State {
    State([], map[], [], map[], 0, map[], map[], map[], map[], {}, {})
  }

  /** And this can happen: a client registers, the target fails, the client registers for the next
      generation and is acknowledged; then the answer to the first failure's call arrives. */
  lemma LateAckRun()
    ensures var s1 := OnRegister(Empty(), T, [0], true, C, 1, -1, true);
            var s2 := ObserveDown(s1.0, T);
            0 in s1.0.objs && (C in s2.all ==> s2.all[C] in s2.objs) &&
            var s3 := OnRegister(s2, T, [1], true, C, 1, -1, true);
            var call := DownCall(0, T, [0], 1);
            && s3.1 == RegisterAck && C in At(s3.0.clients, T) && call in s3.0.downs && 0 in s3.0.objs
            && C !in At(ReportDown(s3.0, call, true).clients, T)
  {
    var s1 := OnRegister(Empty(), T, [0], true, C, 1, -1, true).0;
    assert GenVec(Empty(), T) == [0];
    FirstRegister();
    var s2 := ObserveDown(s1, T);
    SecondRegister(s1);
  }

  lemma FirstRegister()
    ensures var s := OnRegister(Empty(), T, [0], true, C, 1, -1, true).0;
            && s.base == [] && s.generations == map[] && s.lines == [] && s.objs.Keys == {0} && s.objs[0].id == C
            && s.objs[0].ups == map[T := -1] && s.all == map[C := 0] && At(s.clients, T) == map[C := 0] && s.downs == {}
  {
    assert GenVec(Empty(), T) == [0];
    assert Compare([0], [0], 0) == Success;
  }

  lemma SecondRegister(s: State)
    requires s.base == [] && s.generations == map[] && s.objs.Keys == {0} && s.objs[0].id == C && s.all == map[C := 0]
    requires s.objs[0].ups == map[T := -1] && At(s.clients, T) == map[C := 0] && s.downs == {}
    ensures var s2 := ObserveDown(s, T);
            0 in s2.objs && s2.all == map[C := 0] && s2.objs == s.objs &&
            var s3 := OnRegister(s2, T, [1], true, C, 1, -1, true);
            var call := DownCall(0, T, [0], 1);
            && s3.1 == RegisterAck && C in At(s3.0.clients, T) && call in s3.0.downs && 0 in s3.0.objs
            && C !in At(ReportDown(s3.0, call, true).clients, T)
  {
    var s2 := ObserveDown(s, T);
    DownParts(s, T);
    assert GenVec(s, T) == [0] && GenVec(s2, T) == [1];
    assert DownCall(0, T, [0], 1) in s2.downs by { assert C in At(s.clients, T); }
    assert s2.all == s.all && s2.base == [];
    assert Compare([1], [1], 0) == Success;
    hide ObserveDown, GenVec;
    SecondStep(s2);
  }

  lemma SecondStep(s: State)
    requires s.objs.Keys == {0} && s.objs[0].id == C && s.all == map[C := 0] && s.objs[0].ups == map[T := -1]
    requires GenVec(s, T) == [1] && At(s.clients, T) == map[] && DownCall(0, T, [0], 1) in s.downs
    ensures var s3 := OnRegister(s, T, [1], true, C, 1, -1, true);
            var call := DownCall(0, T, [0], 1);
            && s3.1 == RegisterAck && C in At(s3.0.clients, T) && call in s3.0.downs && 0 in s3.0.objs
            && C !in At(ReportDown(s3.0, call, true).clients, T)
  {
    assert Compare([1], [1], 0) == Success;
  }
}
