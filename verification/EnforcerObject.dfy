/** The enforcer as the program runs it: one object whose maps the handlers change in place. */
module EnforcerObject {
  import opened Enforcer
  import opened EnforcerRuns

  class EnforcerServer {
    var genVec: seq<nat>
    var generations: map<Target, nat>
    var log: seq<Target>
    var objs: map<Handle, Client>
    var next: Handle
    var allClients: Clients
    var targetClients: map<Target, Clients>
    var waitingForUp: map<Target, Clients>
    var deadly: map<Target, Clients>
    var monitored: set<Target>
    var downs: set<DownCall>

    ghost function Snapshot(): State
      reads this
    {
      State(genVec, generations, log, objs, next, allClients, targetClients, waitingForUp, deadly, monitored, downs)
    }

    constructor (base: seq<nat>, lines: seq<Target>)
      ensures Snapshot() == Restart(State(base, map[], lines, map[], 0, map[], map[], map[], map[], {}, {}), base)
      ensures Ok(Snapshot())
    {
      genVec, log, objs, next, allClients := base, lines, map[], 0, map[];
      targetClients, waitingForUp, deadly, monitored, downs := map[], map[], map[], {}, {};
      generations := map t | t in lines :: Count(lines, t) % LIMIT;
      new;
      StartOk(lines, base);
    }

    method GenerationOf(t: Target) returns (g: nat)
      ensures g == Gen(Snapshot(), t)
    {
      g := if t in generations then generations[t] else 0;
    }

    /** The comparison of generation vectors, with its early returns. */
    method CheckGenerations(t: Target, query: seq<nat>, valid: bool) returns (st: Status)
      ensures st == GenCheck(Snapshot(), t, query, valid)
    {
      var g := GenerationOf(t);
      var mine := genVec + [g];
      if !valid { return UnknownTarget; }
      if |mine| != |query| { return BadGenVec; }
      var i := 0;
      while i < |query|
        invariant i <= |query|
        invariant Compare(mine, query, 0) == Compare(mine, query, i)
      {
        if mine[i] < query[i] { return FutureGen; }
        if mine[i] > query[i] { return LongDead; }
        i := i + 1;
      }
      return Success;
    }

    method IncrementGeneration(t: Target)
      modifies this
      ensures Snapshot() == Increment(old(Snapshot()), t)
    {
      log := log + [t];
      var g := GenerationOf(t);
      generations := generations[t := (g + 1) % LIMIT];
    }

    method GetClient(id: Id, tag: nat) returns (h: Handle)
      requires ObjsOk(Snapshot())
      modifies this
      ensures Snapshot() == WithClient(old(Snapshot()), id, tag)
      ensures id in allClients && h == allClients[id] && h in objs && objs[h].id == id
    {
      if id !in allClients {
        objs := objs[next := Client(id, map[], tag)];
        allClients := allClients[id := next];
        next := next + 1;
      }
      h := allClients[id];
    }

    method LeaveTarget(id: Id, t: Target)
      modifies this
      ensures Snapshot() == RemoveFrom(old(Snapshot()), id, t)
    {
      targetClients := Erase(targetClients, t, id);
      deadly := Erase(deadly, t, id);
      if At(targetClients, t) == map[] {
        monitored := monitored - {t};
      }
    }

    /** The loop visits the client's targets one by one. */
    method DoRemoveClient(h: Handle)
      requires h in objs
      modifies this
      ensures Snapshot() == RemoveClient(old(Snapshot()), h)
    {
      hide RemoveFrom;
      ghost var s := Snapshot();
      var id, todo := objs[h].id, objs[h].ups.Keys;
      ghost var done: set<Target> := {};
      RemovedNothing(s, id);
      allClients := allClients - {id};
      while todo != {}
        invariant done !! todo && done + todo == s.objs[h].ups.Keys
        invariant Snapshot() == Removed(s, id, done)
        decreases todo
      {
        var t :| t in todo;
        RemovedNext(s, id, done, t);
        LeaveTarget(id, t);
        done, todo := done + {t}, todo - {t};
      }
      assert done == s.objs[h].ups.Keys;
    }

    method DoReportDown(call: DownCall, ok: bool)
      requires call.to in objs
      modifies this
      ensures Snapshot() == ReportDown(old(Snapshot()), call, ok)
    {
      var h, t := call.to, call.target;
      if call.retries != 0 { downs := downs - {call}; }
      if ok && call.retries != 0 {
        objs := objs[h := objs[h].(ups := objs[h].ups - {t})];
        targetClients := Erase(targetClients, t, objs[h].id);
        deadly := Erase(deadly, t, objs[h].id);
        if objs[h].ups == map[] {
          DoRemoveClient(h);
        }
        return;
      }
      if call.retries == MAX_RETRIES {
        DoRemoveClient(h);
        return;
      }
      downs := downs + {call.(retries := call.retries + 1)};
    }

    method TellClients(t: Target)
      requires Filed(objs, At(targetClients, t))
      modifies this
      ensures Snapshot() == old(Snapshot()).(downs := old(downs) + Told(old(Snapshot()), t, At(old(targetClients), t).Keys))
    {
      ghost var s := Snapshot();
      var g := GenerationOf(t);
      var members := At(targetClients, t);
      var todo := members.Keys;
      ghost var done: set<Id> := {};
      while todo != {}
        invariant done !! todo && done + todo == members.Keys
        invariant Snapshot() == s.(downs := s.downs + Told(s, t, done))
        decreases todo
      {
        var id :| id in todo;
        var call := DownCall(members[id], t, genVec + [g], 0);
        assert Told(s, t, done + {id}) == Told(s, t, done) + {call.(retries := 1)};
        DoReportDown(call, true);
        done, todo := done + {id}, todo - {id};
      }
      assert done == members.Keys;
    }

    /** Every client of the target is told, then the generation moves, then the target is forgotten. */
    method DoObserveDown(t: Target)
      requires Ok(Snapshot())
      modifies this
      ensures Snapshot() == ObserveDown(old(Snapshot()), t) && Ok(Snapshot())
    {
      ghost var s := Snapshot();
      MembersFiled(s, t);
      DownKeeps(s, t);
      hide Ok, Filed;
      TellClients(t);
      IncrementGeneration(t);
      targetClients := targetClients[t := map[]];
      waitingForUp := waitingForUp[t := map[]];
      monitored := monitored - {t};
    }

    method DoRepeatWaiting(t: Target, h: Handle)
      requires h in objs
      modifies this
      ensures Snapshot() == RepeatWaiting(old(Snapshot()), t, h)
    {
      if objs[h].id in At(targetClients, t) {
        if t !in objs[h].ups {
          objs := objs[h := objs[h].(ups := objs[h].ups[t := 0])];
        }
        if objs[h].ups[t] == 0 {
          waitingForUp := Include(waitingForUp, t, objs[h].id, h);
        }
      }
    }

    method DoEnroll(t: Target, h: Handle, delay: int, lethal: bool)
      requires h in objs
      modifies this
      ensures Snapshot() == Enroll(old(Snapshot()), t, h, delay, lethal)
    {
      hide RepeatWaiting;
      var id := objs[h].id;
      var isNew := id !in At(targetClients, t);
      targetClients := Include(targetClients, t, id, h);
      objs := objs[h := objs[h].(ups := objs[h].ups[t := delay])];
      DoRepeatWaiting(t, h);
      if lethal {
        deadly := Include(deadly, t, id, h);
      }
      if |At(targetClients, t)| == 1 && isNew {
        monitored := monitored + {t};
      }
    }

    /** SPY_REGISTER. */
    method DoRegister(t: Target, query: seq<nat>, valid: bool, id: Id, tag: nat, delay: int, lethal: bool) returns (st: Status)
      requires Ok(Snapshot())
      modifies this
      ensures id in old(allClients) ==> old(allClients)[id] in old(objs)
      ensures var r := OnRegister(old(Snapshot()), t, query, valid, id, tag, delay, lethal);
              Snapshot() == r.0 && st == r.1
      ensures Ok(Snapshot())
    {
      OkObjs(Snapshot());
      RegisterOk(Snapshot(), t, query, valid, id, tag, delay, lethal);
      hide Ok, Enroll, WithClient, ObjsOk, GenCheck;
      st := CheckGenerations(t, query, valid);
      if st != Success { return; }
      var h := GetClient(id, tag);
      DoEnroll(t, h, delay, lethal);
      return RegisterAck;
    }

    method DoWithdraw(t: Target, h: Handle) returns (st: Status)
      requires h in objs
      modifies this
      ensures var r := Withdraw(old(Snapshot()), t, h); Snapshot() == r.0 && st == r.1
    {
      hide RemoveClient;
      var id := objs[h].id;
      if id !in At(targetClients, t) { return CancelError; }
      targetClients := Erase(targetClients, t, id);
      objs := objs[h := objs[h].(ups := objs[h].ups - {t})];
      deadly := Erase(deadly, t, id);
      if At(targetClients, t) == map[] {
        monitored := monitored - {t};
      }
      if objs[h].ups == map[] {
        DoRemoveClient(h);
      }
      return CancelAck;
    }

    /** SPY_CANCEL. */
    method DoCancel(t: Target, query: seq<nat>, valid: bool, id: Id, tag: nat) returns (st: Status)
      requires Ok(Snapshot())
      modifies this
      ensures id in old(allClients) ==> old(allClients)[id] in old(objs)
      ensures var r := OnCancel(old(Snapshot()), t, query, valid, id, tag);
              Snapshot() == r.0 && st == r.1
      ensures Ok(Snapshot())
    {
      OkObjs(Snapshot());
      CancelOk(Snapshot(), t, query, valid, id, tag);
      hide Ok, Withdraw, WithClient, ObjsOk, GenCheck;
      st := CheckGenerations(t, query, valid);
      if st != Success { return; }
      var h := GetClient(id, tag);
      st := DoWithdraw(t, h);
    }
  }

  /** The state after leaving the targets in ts, as RemoveClient does one after another. */
  ghost function Removed(s: State, id: Id, ts: set<Target>): State {
    s.(all := s.all - {id}, clients := Without(s.clients, ts, id), deadly := Without(s.deadly, ts, id),
       monitored := s.monitored - Emptied(Without(s.clients, ts, id), ts))
  }

  lemma RemovedNothing(s: State, id: Id)
    ensures Removed(s, id, {}) == s.(all := s.all - {id})
  {
    assert Without(s.clients, {}, id) == s.clients && Without(s.deadly, {}, id) == s.deadly;
  }

  lemma RemovedNext(s: State, id: Id, ts: set<Target>, t: Target)
    requires t !in ts
    ensures RemoveFrom(Removed(s, id, ts), id, t) == Removed(s, id, ts + {t})
  {
    RemoveFromNext(s.clients, ts, t, id);
    RemoveFromNext(s.deadly, ts, t, id);
    EmptiedNext(Without(s.clients, ts, id), ts, t, id);
    hide Without, Erase, At;
  }

  ghost function Emptied(m: map<Target, Clients>, ts: set<Target>): set<Target> {
    set t | t in ts && At(m, t) == map[]
  }

  lemma EmptiedNext(m: map<Target, Clients>, ts: set<Target>, t: Target, id: Id)
    requires t !in ts
    ensures var m1 := Erase(m, t, id);
            Emptied(m1, ts + {t}) == if At(m1, t) == map[] then Emptied(m, ts) + {t} else Emptied(m, ts)
  {
    assert forall u :: u in ts ==> At(Erase(m, t, id), u) == At(m, u);
  }

  ghost function Told(s: State, t: Target, ids: set<Id>): set<DownCall>
    requires ids <= At(s.clients, t).Keys
  {
    set id | id in ids :: DownCall(At(s.clients, t)[id], t, GenVec(s, t), 1)
  }

  lemma MembersFiled(s: State, t: Target)
    requires Ok(s)
    ensures Filed(s.objs, At(s.clients, t))
  {
  }

  lemma OkObjs(s: State)
    requires Ok(s)
    ensures ObjsOk(s) && forall id :: id in s.all ==> s.all[id] in s.objs
  {
  }

  lemma RegisterOk(s: State, t: Target, query: seq<nat>, valid: bool, id: Id, tag: nat, delay: int, lethal: bool)
    requires Ok(s)
    ensures (id in s.all ==> s.all[id] in s.objs) && Ok(OnRegister(s, t, query, valid, id, tag, delay, lethal).0)
  {
    RegisterKeeps(s, Register(t, query, valid, id, tag, delay, lethal));
    OkObjs(s);
    hide Ok, OnRegister;
  }

  lemma CancelOk(s: State, t: Target, query: seq<nat>, valid: bool, id: Id, tag: nat)
    requires Ok(s)
    ensures (id in s.all ==> s.all[id] in s.objs) && Ok(OnCancel(s, t, query, valid, id, tag).0)
  {
    CancelKeeps(s, Cancel(t, query, valid, id, tag));
    OkObjs(s);
    hide Ok, OnCancel;
  }
}
