/** When a client's registration for a target is kept, and what ends it. */
module Registrations {
  import opened Enforcer
  import opened EnforcerRuns

  ghost predicate Registered(s: State, t: Target, id: Id) {
    id in At(s.clients, t)
  }

  /** RemoveClient of this object takes the client out of the target's set. */
  ghost predicate Reaches(s: State, h: Handle, t: Target, id: Id) {
    h in s.objs && s.objs[h].id == id && t in s.objs[h].ups
  }

  /** The client is given up: its heartbeat or the last try of a CLIENT_DOWN call has failed. */
  ghost predicate Removal(s: State, e: Event, t: Target, id: Id) {
    match e
    case Heartbeat(h, ok, retry) =>
      h in s.objs && s.objs[h].id in s.all && !ok && retry >= CLIENT_RETRY && Reaches(s, h, t, id)
    case DownAnswered(call, ok) => !(ok && call.retries != 0) && call.retries == MAX_RETRIES && Reaches(s, call.to, t, id)
    case _ => false
  }

  /** A CLIENT_DOWN call about the target is acknowledged by the client. */
  ghost predicate Acknowledged(s: State, e: Event, t: Target, id: Id) {
    && e.DownAnswered? && e.ok && e.call.retries != 0
    && e.call.target == t && e.call.to in s.objs && s.objs[e.call.to].id == id
  }

  /** What ends a registration as it should: the target fails, the client cancels or is given up, or the
      enforcer itself crashes. */
  ghost predicate Ends(s: State, e: Event, t: Target, id: Id)
    requires Ok(s)
  {
    || e == Down(t)
    || (e.Cancel? && e.t == t && e.id == id && Accepts(s, e))
    || Removal(s, e, t, id)
    || e.Crash? || e.CrashAfterWrite?
  }

  // ---------------------------------------------------------------- one step

  lemma RemoveDrops(s: State, h: Handle, t: Target, id: Id)
    requires h in s.objs && Registered(s, t, id)
    ensures Registered(RemoveClient(s, h), t, id) <==> !Reaches(s, h, t, id)
  {
  }

  /** Leaving one target; the removal of an object without intervals takes it out of no set. */
  lemma LeaveDrops(s: State, h: Handle, u: Target, t: Target, id: Id)
    requires h in s.objs && Registered(s, t, id)
    ensures var g := s.objs[h].id;
            var s1 := DropUp(s.(clients := Erase(s.clients, u, g), deadly := Erase(s.deadly, u, g)), h, u);
            && (Registered(s1, t, id) <==> !(u == t && g == id))
            && (s1.objs[h].ups == map[] ==> (Registered(RemoveClient(s1, h), t, id) <==> Registered(s1, t, id)))
  {
    var g := s.objs[h].id;
    var s1 := DropUp(s.(clients := Erase(s.clients, u, g), deadly := Erase(s.deadly, u, g)), h, u);
    if s1.objs[h].ups == map[] { EmptyRemoval(s1, h); }
  }

  lemma EmptyRemoval(s: State, h: Handle)
    requires h in s.objs && s.objs[h].ups == map[]
    ensures RemoveClient(s, h).clients == s.clients
  {
    assert Without(s.clients, {}, s.objs[h].id) == s.clients;
  }

  lemma RegisterKept(s: State, e: Event, t: Target, id: Id)
    requires Ok(s) && e.Register? && Registered(s, t, id)
    ensures Registered(Next(s, e), t, id)
  {
    var s1 := WithClient(s, e.id, e.tag);
    WithClientKeeps(s, e.id, e.tag);
    hide WithClient, GenCheck, SetsOk, ObjsOk, AllFiled, Interested, Enroll;
    EnrollKept(s1, e.t, s1.all[e.id], e.delay, e.lethal, t, id);
  }

  lemma EnrollKept(s: State, u: Target, h: Handle, delay: int, lethal: bool, t: Target, id: Id)
    requires h in s.objs && Registered(s, t, id)
    ensures Registered(Enroll(s, u, h, delay, lethal), t, id)
  {
    var s1 := SetUp(s.(clients := Include(s.clients, u, s.objs[h].id, h)), h, u, delay);
    assert Registered(s1, t, id);
    RepeatSame(s1, u, h);
    hide RepeatWaiting, SetUp, Include;
  }

  lemma RepeatSame(s: State, t: Target, h: Handle)
    requires h in s.objs
    ensures RepeatWaiting(s, t, h).clients == s.clients && RepeatWaiting(s, t, h).downs == s.downs
  {
    var s1 := if t in s.objs[h].ups then s else SetUp(s, h, t, 0);
    TimerSame(s1, t, h);
    hide AddToWaiting;
  }

  lemma TimerSame(s: State, t: Target, h: Handle)
    requires h in s.objs
    ensures AddToWaiting(s, t, h).clients == s.clients && AddToWaiting(s, t, h).downs == s.downs
    ensures AddToWaiting(s, t, h).objs == s.objs
  {
    hide Include;
  }

  lemma CancelDrops(s: State, e: Event, t: Target, id: Id)
    requires Ok(s) && e.Cancel? && Registered(s, t, id)
    ensures Registered(Next(s, e), t, id) <==> !(e.t == t && e.id == id && Accepts(s, e))
  {
    var s1 := WithClient(s, e.id, e.tag);
    WithClientKeeps(s, e.id, e.tag);
    hide WithClient, GenCheck, SetsOk, ObjsOk, AllFiled, Interested, Withdraw;
    GenCheckAnswers(s, e.t, e.query, e.valid);
    WithdrawDrops(s1, e.t, s1.all[e.id], t, id);
  }

  lemma WithdrawDrops(s: State, u: Target, h: Handle, t: Target, id: Id)
    requires h in s.objs && Registered(s, t, id)
    ensures Withdraw(s, u, h).1 == CancelAck <==> s.objs[h].id in At(s.clients, u)
    ensures Registered(Withdraw(s, u, h).0, t, id) <==> !(u == t && s.objs[h].id == id)
  {
    var g := s.objs[h].id;
    LeaveDrops(s, h, u, t, id);
    var s1 := DropUp(s.(clients := Erase(s.clients, u, g), deadly := Erase(s.deadly, u, g)), h, u);
    var s2 := if At(s1.clients, u) == map[] then s1.(monitored := s1.monitored - {u}) else s1;
    if s2.objs[h].ups == map[] { EmptyRemoval(s1, h); EmptyRemoval(s2, h); }
    hide RemoveClient, DropUp, Erase;
  }

  lemma ReportDrops(s: State, call: DownCall, ok: bool, t: Target, id: Id)
    requires call.to in s.objs && Registered(s, t, id)
    ensures Registered(ReportDown(s, call, ok), t, id) <==>
              !Acknowledged(s, DownAnswered(call, ok), t, id) && !Removal(s, DownAnswered(call, ok), t, id)
  {
    hide Reported;
    ReportedDrops(if call.retries == 0 then s else s.(downs := s.downs - {call}), call, ok, t, id);
  }

  lemma ReportedDrops(s: State, call: DownCall, ok: bool, t: Target, id: Id)
    requires call.to in s.objs && Registered(s, t, id)
    ensures Registered(Reported(s, call, ok), t, id) <==>
              !Acknowledged(s, DownAnswered(call, ok), t, id) && !Removal(s, DownAnswered(call, ok), t, id)
  {
    var h, u, g := call.to, call.target, s.objs[call.to].id;
    RemoveDrops(s, h, t, id);
    LeaveDrops(s, h, u, t, id);
    assert DropUp(s, h, u).(clients := Erase(s.clients, u, g), deadly := Erase(s.deadly, u, g))
        == DropUp(s.(clients := Erase(s.clients, u, g), deadly := Erase(s.deadly, u, g)), h, u);
    hide RemoveClient, DropUp, Erase;
  }

  /** A step takes a registered client out of a target's set if and only if it ends the registration, or
      is the answer to a CLIENT_DOWN call about the target that reached the client. */
  lemma StepDrops(s: State, e: Event, t: Target, id: Id)
    requires Ok(s) && Possible(s, e) && Registered(s, t, id)
    ensures Registered(Next(s, e), t, id) <==> !Ends(s, e, t, id) && !Acknowledged(s, e, t, id)
  {
    hide Ok, RepeatWaiting, AddToWaiting, ReportDown, OnRegister, OnCancel, RemoveClient, Increment, Accepts, Reaches;
    match e
    case Register(_, _, _, _, _, _, _) => RegisterKept(s, e, t, id);
    case Cancel(_, _, _, _, _) => CancelDrops(s, e, t, id);
    case DownAnswered(call, ok) => CallKnown(s, call); ReportDrops(s, call, ok, t, id);
    case Repeat(u, h) => RepeatSame(s, u, h);
    case Timer(u, h) => TimerSame(s, u, h);
    case Heartbeat(h, ok, retry) => RemoveDrops(s, h, t, id);
    case Down(u) => DownParts(s, u); hide ObserveDown;
    case _ =>
  }

  // ---------------------------------------------------------------- runs

  /** No CLIENT_DOWN call about the target is outstanding to an object of this client. */
  ghost predicate NoCall(s: State, t: Target, id: Id) {
    forall d :: d in s.downs && d.target == t ==> d.to in s.objs && s.objs[d.to].id != id
  }

  /** Objects keep their ids, and calls about the target repeat outstanding ones. */
  ghost predicate CallsFrom(s: State, s': State, t: Target) {
    && (forall h :: h in s.objs ==> h in s'.objs && s'.objs[h].id == s.objs[h].id)
    && (forall d :: d in s'.downs && d.target == t ==> exists c :: c in s.downs && c.target == t && c.to == d.to)
  }

  lemma CallsKeep(s: State, s': State, t: Target, id: Id)
    requires NoCall(s, t, id) && CallsFrom(s, s', t)
    ensures NoCall(s', t, id)
  {
  }

  lemma WithClientCalls(s: State, id: Id, tag: nat, t: Target)
    requires ObjsOk(s)
    ensures CallsFrom(s, WithClient(s, id, tag), t)
  {
  }

  lemma CallsTrans(a: State, b: State, c: State, t: Target)
    requires CallsFrom(a, b, t) && CallsFrom(b, c, t)
    ensures CallsFrom(a, c, t)
  {
    forall d | d in c.downs && d.target == t ensures exists x :: x in a.downs && x.target == t && x.to == d.to {
      var y :| y in b.downs && y.target == t && y.to == d.to;
    }
  }

  lemma SameCalls(s: State, s': State, t: Target)
    requires s'.downs == s.downs && forall h :: h in s.objs ==> h in s'.objs && s'.objs[h].id == s.objs[h].id
    ensures CallsFrom(s, s', t)
  {
  }

  lemma EnrollCalls(s: State, u: Target, h: Handle, delay: int, lethal: bool, t: Target)
    requires h in s.objs
    ensures CallsFrom(s, Enroll(s, u, h, delay, lethal), t)
  {
    var s1 := SetUp(s.(clients := Include(s.clients, u, s.objs[h].id, h)), h, u, delay);
    assert u in s1.objs[h].ups;
    RepeatSame(s1, u, h);
    assert RepeatWaiting(s1, u, h).objs == s1.objs by { TimerSame(s1, u, h); hide AddToWaiting, SetUp; }
    hide Include, RepeatWaiting;
    SameCalls(s, Enroll(s, u, h, delay, lethal), t);
  }

  lemma WithdrawCalls(s: State, u: Target, h: Handle, t: Target)
    requires h in s.objs
    ensures CallsFrom(s, Withdraw(s, u, h).0, t)
  {
    hide Erase, Without;
    SameCalls(s, Withdraw(s, u, h).0, t);
  }

  lemma ReportCalls(s: State, call: DownCall, ok: bool, t: Target)
    requires call in s.downs && call.to in s.objs
    ensures CallsFrom(s, ReportDown(s, call, ok), t)
  {
    var s0 := if call.retries == 0 then s else s.(downs := s.downs - {call});
    ReportedParts(s0, call, ok);
    var s' := ReportDown(s, call, ok);
    hide Reported;
    forall d | d in s'.downs && d.target == t ensures exists c :: c in s.downs && c.target == t && c.to == d.to {
      if d !in s.downs { assert d == call.(retries := call.retries + 1) && call.target == t && call.to == d.to; }
    }
  }

  lemma ReportedParts(s: State, call: DownCall, ok: bool)
    requires call.to in s.objs
    ensures var s' := Reported(s, call, ok);
            && s'.downs <= s.downs + {call.(retries := call.retries + 1)}
            && forall h :: h in s.objs ==> h in s'.objs && s'.objs[h].id == s.objs[h].id
  {
    hide Erase, Without;
  }

  lemma DownCalls(s: State, u: Target, t: Target)
    requires u != t
    ensures CallsFrom(s, ObserveDown(s, u), t)
  {
    var s' := ObserveDown(s, u);
    hide Increment;
    assert forall d :: d in s'.downs && d.target == t ==> d in s.downs by { NewCalls(s, u); }
    DownParts(s, u);
  }

  lemma NewCalls(s: State, u: Target)
    ensures forall d :: d in ObserveDown(s, u).downs && d !in s.downs ==> d.target == u
  {
  }

  lemma StepCalls(s: State, e: Event, t: Target)
    requires Ok(s) && Possible(s, e) && e != Down(t) && !e.Crash? && !e.CrashAfterWrite?
    ensures CallsFrom(s, Next(s, e), t)
  {
    hide Ok, RepeatWaiting, AddToWaiting, ReportDown, Enroll, Withdraw, WithClient, ObserveDown, RemoveClient, GenCheck, CallsFrom;
    SameCalls(s, s, t);
    match e
    case Register(u, q, valid, id, tag, delay, lethal) => RegisterCalls(s, e, t);
    case Cancel(_, _, _, _, _) => CancelCalls(s, e, t);
    case Down(u) => DownCalls(s, u, t);
    case DownAnswered(call, ok) => CallKnown(s, call); ReportCalls(s, call, ok, t);
    case Repeat(u, h) => RepeatCalls(s, u, h, t);
    case Timer(u, h) => RepeatCalls(s, u, h, t);
    case Heartbeat(h, ok, retry) => RemoveCalls(s, h, t);
    case UpSeen(u) => SameCalls(s, Next(s, e), t);
    case Kill(_, _, _) =>
  }

  lemma RegisterCalls(s: State, e: Event, t: Target)
    requires Ok(s) && e.Register?
    ensures CallsFrom(s, Next(s, e), t)
  {
    var s1 := WithClient(s, e.id, e.tag);
    WithClientKeeps(s, e.id, e.tag);
    WithClientCalls(s, e.id, e.tag, t);
    SameCalls(s, s, t);
    hide WithClient, GenCheck, SetsOk, ObjsOk, AllFiled, Interested, Enroll, CallsFrom;
    EnrollCalls(s1, e.t, s1.all[e.id], e.delay, e.lethal, t);
    CallsTrans(s, s1, Enroll(s1, e.t, s1.all[e.id], e.delay, e.lethal), t);
  }

  lemma CancelCalls(s: State, e: Event, t: Target)
    requires Ok(s) && e.Cancel?
    ensures CallsFrom(s, Next(s, e), t)
  {
    var s1 := WithClient(s, e.id, e.tag);
    WithClientKeeps(s, e.id, e.tag);
    WithClientCalls(s, e.id, e.tag, t);
    SameCalls(s, s, t);
    hide WithClient, GenCheck, SetsOk, ObjsOk, AllFiled, Interested, Withdraw, CallsFrom;
    WithdrawCalls(s1, e.t, s1.all[e.id], t);
    CallsTrans(s, s1, Withdraw(s1, e.t, s1.all[e.id]).0, t);
  }

  lemma RepeatCalls(s: State, u: Target, h: Handle, t: Target)
    requires h in s.objs
    ensures CallsFrom(s, RepeatWaiting(s, u, h), t) && CallsFrom(s, AddToWaiting(s, u, h), t)
  {
    var s1 := if u in s.objs[h].ups then s else SetUp(s, h, u, 0);
    RepeatSame(s, u, h);
    TimerSame(s, u, h);
    TimerSame(s1, u, h);
    SameCalls(s, AddToWaiting(s, u, h), t);
    hide AddToWaiting;
    SameCalls(s, RepeatWaiting(s, u, h), t);
  }

  lemma RemoveCalls(s: State, h: Handle, t: Target)
    requires h in s.objs
    ensures CallsFrom(s, RemoveClient(s, h), t)
  {
    hide Without;
    SameCalls(s, RemoveClient(s, h), t);
  }

  /** Nobody acknowledges a call that is not outstanding. */
  lemma NoAcknowledgement(s: State, e: Event, t: Target, id: Id)
    requires Possible(s, e) && NoCall(s, t, id)
    ensures !Acknowledged(s, e, t, id)
  {
  }

  /** The registration has lasted from moment i to moment j. */
  ghost predicate Lasts(ss: seq<State>, i: nat, j: nat, t: Target, id: Id)
    requires j < |ss|
  {
    forall m :: i <= m <= j ==> Registered(ss[m], t, id)
  }

  ghost predicate NothingEnds(ss: seq<State>, es: seq<Event>, i: nat, j: nat, t: Target, id: Id)
    requires IsRun(ss, es) && j < |ss|
  {
    forall k :: i <= k < j ==> !Ends(ss[k], es[k], t, id)
  }

  /** A registration made when no CLIENT_DOWN call about the target is outstanding to the client lasts
      exactly until the target next fails, the client cancels or is given up, or the enforcer crashes. */
  lemma {:induction false} RegistrationLasts(ss: seq<State>, es: seq<Event>, i: nat, j: nat, t: Target, id: Id)
    requires IsRun(ss, es) && i <= j < |ss| && Registered(ss[i], t, id) && NoCall(ss[i], t, id)
    ensures Lasts(ss, i, j, t, id) <==> NothingEnds(ss, es, i, j, t, id)
    ensures NothingEnds(ss, es, i, j, t, id) ==> NoCall(ss[j], t, id)
    decreases j
  {
    hide Ok, Possible, Next, NoCall, Ends, Acknowledged, CallsFrom;
    if i < j {
      RegistrationLasts(ss, es, i, j - 1, t, id);
      var s, e, s' := ss[j - 1], es[j - 1], ss[j];
      RunOk(ss, es, j - 1);
      if NothingEnds(ss, es, i, j - 1, t, id) {
        NoAcknowledgement(s, e, t, id);
        StepDrops(s, e, t, id);
        if !Ends(s, e, t, id) {
          EndsNot(s, e, t, id);
          StepCalls(s, e, t);
          CallsKeep(s, s', t, id);
        }
      }
    }
  }

  lemma EndsNot(s: State, e: Event, t: Target, id: Id)
    requires Ok(s) && !Ends(s, e, t, id)
    ensures e != Down(t) && !e.Crash? && !e.CrashAfterWrite?
  {
    hide Ok, Accepts, Removal;
  }
}
