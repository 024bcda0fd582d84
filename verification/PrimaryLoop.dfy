/** The primary of a view: its acknowledgement sets and what its commit loop computes. */
module PrimaryLoop {
  import opened Stamps
  import opened CohortSpec
  import opened CohortInvariants
  import opened Traffic
  import opened Quorum

  function At(v: View, k: nat): Viewstamp {
    Viewstamp(v.vid, k)
  }

  /** The backups recorded as holding the primary's k-th entry of the view. */
  ghost function Received(s: Cohort, v: View, k: nat): set<Mid>
    requires At(v, k) in s.log && s.log[At(v, k)].ack.Some?
  {
    s.log[At(v, k)].ack.value.received
  }

  ghost predicate Waiting(s: Cohort, v: View, k: nat) {
    s.committed.ts < k <= s.latest.ts
  }

  /** The uncommitted entries carry acknowledgement sets over the members of the view, and the sets
      are nested: whoever holds a later entry holds every earlier one. */
  ghost predicate AcksNested(s: Cohort, v: View) {
    && (forall k: nat :: Waiting(s, v, k) ==>
          && At(v, k) in s.log && s.log[At(v, k)].ack.Some?
          && s.log[At(v, k)].ack.value.expected == Mids(v) && v.primary in Received(s, v, k))
    && (forall k: nat, l: nat :: Waiting(s, v, k) && Waiting(s, v, l) && k <= l ==>
          Received(s, v, l) <= Received(s, v, k))
  }

  /** A cohort acting as primary of v. Formations that follow its view, if it has any in its log,
      follow everything it has logged there. */
  ghost predicate Leads(s: Cohort, v: View) {
    && s.self == v.primary && s.validView && s.view == v
    && s.latest.vid == v.vid && s.committed.vid == v.vid && s.executed.vid == v.vid
    && s.executed.ts <= s.committed.ts <= s.latest.ts
    && (forall k: nat :: At(v, k) in s.log <==> k <= s.latest.ts)
    && (forall p :: p in s.jumps && p.vid == v.vid ==> s.latest.ts <= p.ts)
    && AcksNested(s, v)
  }

  /** No view that follows v is in the jump index. */
  ghost predicate LastView(s: Cohort, v: View) {
    forall p :: p in s.jumps ==> p.vid != v.vid
  }

  lemma NextAt(s: Cohort, v: View, k: nat)
    requires Leads(s, v) && k < s.latest.ts
    ensures VsNext(s.jumps, At(v, k)) == At(v, k + 1)
  {
  }

  // ---------------------------------------------------------------- executing

  lemma ExecRequestLeads(s: Cohort, v: View)
    requires Leads(s, v) && s.executed.ts < s.committed.ts
    ensures var n := At(v, s.executed.ts + 1);
            && n in s.log && s.log[n].arg.Client?
            && Leads(ExecRequest(s, n), v) && ExecRequest(s, n).executed == n
            && ExecRequest(s, n).committed == s.committed && ExecRequest(s, n).latest == s.latest
            && SameAcks(s, ExecRequest(s, n), v)
  {
    var n := At(v, s.executed.ts + 1);
    assert n in s.log && WfSlot(n, s.log[n].arg);
    var t := ExecRequest(s, n);
    assert t.log.Keys == s.log.Keys;
  }

  /** Entries still waiting have the same acknowledgement sets. */
  ghost predicate SameAcks(s: Cohort, t: Cohort, v: View) {
    forall k: nat :: Waiting(t, v, k) ==>
      At(v, k) in s.log && At(v, k) in t.log && t.log[At(v, k)].ack == s.log[At(v, k)].ack
  }

  /** As primary, executing catches up with `committed`. */
  lemma {:induction false} ExecFromLeads(s: Cohort, v: View)
    requires Leads(s, v)
    ensures var t := AdvanceExecuted(s);
            && Leads(t, v) && t.executed == s.committed && t.committed == s.committed && t.latest == s.latest
            && SameAcks(s, t, v) && t.crashed == s.crashed
    decreases s.committed.ts - s.executed.ts
  {
    if s.executed.ts < s.committed.ts {
      var n := At(v, s.executed.ts + 1);
      ExecHead(s, v);
      ExecRequestLeads(s, v);
      ExecUnfoldRequest(s, n);
      hide ExecRequest, AdvanceExecuted, Leads;
      var t := ExecRequest(s, n);
      ExecFromLeads(t, v);
    } else {
      assert s.executed == At(v, s.executed.ts) && s.committed == At(v, s.committed.ts);
      assert AdvanceExecuted(s) == s;
      hide AdvanceExecuted;
    }
  }

  lemma ExecHead(s: Cohort, v: View)
    requires Leads(s, v) && s.executed.ts < s.committed.ts
    ensures VsNext(s.jumps, s.executed) == At(v, s.executed.ts + 1) && Le(At(v, s.executed.ts + 1), s.committed)
  {
    assert s.executed == At(v, s.executed.ts) && s.committed == At(v, s.committed.ts);
    NextAt(s, v, s.executed.ts);
  }

  lemma ExecUnfoldRequest(s: Cohort, n: Viewstamp)
    requires n == VsNext(s.jumps, s.executed) && Le(n, s.committed) && n in s.log && s.log[n].arg.Client?
    ensures AdvanceExecuted(s) == AdvanceExecuted(ExecRequest(s, n)) && ExecRequest(s, n).crashed == s.crashed
  {
    ExecRequestFrame(s, n);
    var t := ExecRequest(s, n);
    AboveDrops(s.log.Keys, n, VsNext(s.jumps, n));
    assert ExecOne(s, n) == t && t.jumps == s.jumps && t.executed == n;
    hide ExecRequest;
  }

  // ---------------------------------------------------------------- committing

  lemma CommitOneLeads(s: Cohort, v: View)
    requires Leads(s, v) && s.committed.ts < s.latest.ts
    ensures var n := At(v, s.committed.ts + 1);
            && n in s.log && s.log[n].ack.Some?
            && Leads(CommitOne(s, n), v) && CommitOne(s, n).committed == n && CommitOne(s, n).crashed == s.crashed
            && CommitOne(s, n).latest == s.latest && SameAcks(s, CommitOne(s, n), v)
  {
    var n := At(v, s.committed.ts + 1);
    assert Waiting(s, v, n.ts);
    var t := CommitOne(s, n);
    assert t.log.Keys == s.log.Keys;
    assert forall k: nat :: Waiting(t, v, k) ==> Waiting(s, v, k) && t.log[At(v, k)] == s.log[At(v, k)];
  }

  /** From s to t the loop passed exactly entries whose sets hold a majority, and stopped at one
      whose set does not or at the end. */
  ghost predicate Passes(s: Cohort, t: Cohort, v: View)
    requires Leads(s, v)
  {
    && t.latest == s.latest && s.committed.ts <= t.committed.ts <= s.latest.ts && SameAcks(s, t, v)
    && t.crashed == s.crashed
    && (forall k: nat :: Waiting(s, v, k) && k <= t.committed.ts ==> Majority(Received(s, v, k), Mids(v)))
    && (t.committed.ts < s.latest.ts ==>
          Waiting(s, v, t.committed.ts + 1) && !Majority(Received(s, v, t.committed.ts + 1), Mids(v)))
  }

  lemma PassOne(s: Cohort, t: Cohort, u: Cohort, v: View)
    requires Leads(s, v) && Leads(t, v) && Passes(t, u, v)
    requires t.latest == s.latest && t.committed.ts == s.committed.ts + 1 && SameAcks(s, t, v) && t.crashed == s.crashed
    requires Waiting(s, v, t.committed.ts) && Majority(Received(s, v, t.committed.ts), Mids(v))
    ensures Passes(s, u, v)
  {
    hide Majority;
    forall k: nat | Waiting(s, v, k) && k <= u.committed.ts ensures Majority(Received(s, v, k), Mids(v)) {
      if k != t.committed.ts { assert Waiting(t, v, k); }
    }
    if u.committed.ts < s.latest.ts { assert Waiting(t, v, u.committed.ts + 1); }
    forall k: nat | Waiting(u, v, k) ensures At(v, k) in s.log && u.log[At(v, k)].ack == s.log[At(v, k)].ack {
      assert Waiting(t, v, k);
    }
  }

  /** The entry the loop looks at next. */
  lemma CommitHead(s: Cohort, v: View)
    requires Leads(s, v) && s.committed.ts < s.latest.ts
    ensures var k := s.committed.ts + 1;
            && Waiting(s, v, k) && Le(At(v, k), s.latest) && At(v, k) in s.log && s.log[At(v, k)].ack.Some?
            && s.log[At(v, k)].ack.value.expected == Mids(v) && s.log[At(v, k)].ack.value.received == Received(s, v, k)
            && VsNext(s.jumps, s.committed) == At(v, k)
  {
    hide Mids;
    assert Waiting(s, v, s.committed.ts + 1);
    assert s.committed == At(v, s.committed.ts);
    NextAt(s, v, s.committed.ts);
  }

  lemma CommitFromStop(s: Cohort, vs: Viewstamp)
    requires Le(vs, s.latest) ==>
               && vs in s.log && s.log[vs].ack.Some?
               && !Majority(s.log[vs].ack.value.received, s.log[vs].ack.value.expected)
    ensures CommitFrom(s, vs) == s
  {
  }

  lemma PassesStop(s: Cohort, v: View)
    requires Leads(s, v)
    requires s.committed.ts < s.latest.ts ==>
               Waiting(s, v, s.committed.ts + 1) && !Majority(Received(s, v, s.committed.ts + 1), Mids(v))
    ensures Passes(s, s, v)
  {
    hide Majority, Mids;
  }

  /** The loop of `advance_committed` at a primary; none of its assertions fail. */
  lemma {:induction false} CommitFromLeads(s: Cohort, v: View)
    requires Leads(s, v)
    ensures var t := CommitFrom(s, VsNext(s.jumps, s.committed)); Leads(t, v) && Passes(s, t, v)
    decreases s.latest.ts - s.committed.ts
  {
    hide Majority, CommitFrom, CommitOne, Passes, Mids, AcksNested;
    var n := VsNext(s.jumps, s.committed);
    if s.committed.ts < s.latest.ts {
      CommitHead(s, v);
      if Majority(Received(s, v, n.ts), Mids(v)) {
        CommitOneLeads(s, v);
        CommitFromStep(s, n);
        CommitOneJumps(s, n);
        hide Leads;
        var t := CommitOne(s, n);
        CommitFromLeads(t, v);
        PassOne(s, t, CommitFrom(t, VsNext(s.jumps, n)), v);
      } else {
        PassesStop(s, v);
        CommitFromStop(s, n);
      }
    } else {
      PassesStop(s, v);
      assert s.committed == At(v, s.committed.ts);
      CommitFromStop(s, n);
    }
  }

  lemma CommitOneJumps(s: Cohort, vs: Viewstamp)
    requires vs in s.log
    ensures CommitOne(s, vs).jumps == s.jumps
  {
  }

  lemma MajorityGrows(a: set<Mid>, b: set<Mid>, s: set<Mid>)
    requires a <= b && Majority(a, s)
    ensures Majority(b, s)
  {
    SubsetSize(a * s, b * s);
  }

  /** Where the commit loop stops is decided by the acknowledgement sets: they are nested. */
  lemma PassesExactly(s: Cohort, t: Cohort, v: View)
    requires Leads(s, v) && Passes(s, t, v)
    ensures forall k: nat :: Waiting(s, v, k) ==> (k <= t.committed.ts <==> Majority(Received(s, v, k), Mids(v)))
  {
    assert AcksNested(s, v);
    hide Majority, Mids, SameAcks, Leads;
    forall k: nat | Waiting(s, v, k) && t.committed.ts < k ensures !Majority(Received(s, v, k), Mids(v)) {
      if Majority(Received(s, v, k), Mids(v)) { NestedMajority(s, v, t.committed.ts + 1, k); }
    }
  }

  lemma SameAcksTrans(s: Cohort, t: Cohort, u: Cohort, v: View)
    requires SameAcks(s, t, v) && SameAcks(t, u, v) && u.latest == t.latest && u.committed == t.committed
    ensures SameAcks(s, u, v)
  {
    assert forall k: nat :: Waiting(u, v, k) ==> Waiting(t, v, k);
  }

  /** `advance_committed` at a primary sets `committed` to the greatest waiting stamp that a majority
      of the view has acknowledged, although its loop stops at the first failure: the sets are
      nested. Execution then catches up. No assertion fails. */
  lemma CommitsExactly(s: Cohort, v: View)
    requires Leads(s, v)
    ensures var t := AdvanceCommitted(s);
            && Leads(t, v) && t.latest == s.latest && s.committed.ts <= t.committed.ts && t.executed == t.committed
            && SameAcks(s, t, v) && t.crashed == s.crashed
            && (forall k: nat :: Waiting(s, v, k) ==>
                  (k <= t.committed.ts <==> Majority(Received(s, v, k), Mids(v))))
  {
    CommitFromLeads(s, v);
    var u := CommitFrom(s, VsNext(s.jumps, s.committed));
    assert AdvanceCommitted(s) == AdvanceExecuted(u);
    hide CommitFrom, AdvanceExecuted, AdvanceCommitted, Leads, AcksNested, Majority, Mids;
    PassesExactly(s, u, v);
    ExecFromLeads(u, v);
    hide SameAcks;
    SameAcksTrans(s, u, AdvanceExecuted(u), v);
  }

  lemma NestedMajority(s: Cohort, v: View, k: nat, l: nat)
    requires Leads(s, v) && Waiting(s, v, k) && Waiting(s, v, l) && k <= l
    requires Majority(Received(s, v, l), Mids(v))
    ensures Majority(Received(s, v, k), Mids(v))
  {
    MajorityGrows(Received(s, v, l), Received(s, v, k), Mids(v));
  }

  // ---------------------------------------------------------------- the primary's other steps

  /** Changing entries without touching stamps, acknowledgement sets or cursors. */
  ghost predicate LeadFrame(s: Cohort, t: Cohort) {
    && t.self == s.self && t.validView == s.validView && t.view == s.view && t.jumps == s.jumps
    && t.latest == s.latest && t.committed == s.committed && t.executed == s.executed
    && t.log.Keys == s.log.Keys && forall k :: k in s.log ==> t.log[k].ack == s.log[k].ack
  }

  lemma FrameLeads(s: Cohort, t: Cohort, v: View)
    requires Leads(s, v) && LeadFrame(s, t)
    ensures Leads(t, v) && SameAcks(s, t, v)
  {
    assert forall k: nat :: Waiting(t, v, k) ==> Waiting(s, v, k) && Received(t, v, k) == Received(s, v, k);
  }

  /** A request the primary accepts gets the next stamp of the view, acknowledged by itself alone. */
  lemma LogRequestLeads(s: Cohort, v: View, handle: nat, req: Request)
    requires Leads(s, v) && LastView(s, v)
    ensures var t, n := LogRequest(s, handle, req), s.latest.ts + 1;
            && Leads(t, v) && t.latest == At(v, n) && t.committed == s.committed && Waiting(t, v, n)
            && Received(t, v, n) == {v.primary} && SameAcks(s, t.(latest := s.latest), v)
            && t.log == s.log[At(v, n) := PrimaryEntry(s, handle, req)]
  {
    var t, n := LogRequest(s, handle, req), s.latest.ts + 1;
    assert Succ(s.latest) == At(v, n);
    assert t.log == s.log[At(v, n) := PrimaryEntry(s, handle, req)];
    assert {s.self} + (set b | b in v.backups) == Mids(v);
    assert forall k: nat :: Waiting(t, v, k) ==> Waiting(s, v, k) || k == n;
    assert t.jumps == s.jumps;
    hide Mids;
    forall k: nat | Waiting(t, v, k)
      ensures At(v, k) in t.log && t.log[At(v, k)].ack.Some? && t.log[At(v, k)].ack.value.expected == Mids(v)
      ensures v.primary in Received(t, v, k)
      ensures k < n ==> Received(t, v, k) == Received(s, v, k)
    {
      if k < n { assert Waiting(s, v, k); }
    }
  }

  /** What one acknowledgement adds to the sets. */
  ghost predicate AddsAck(s: Cohort, t: Cohort, v: View, from: Mid, lo: nat, m: nat)
    requires Leads(s, v)
  {
    && t.latest == s.latest && t.committed == s.committed
    && (forall k: nat :: Waiting(s, v, k) ==>
          && At(v, k) in t.log && t.log[At(v, k)].ack.Some?
          && Received(t, v, k) == if lo <= k <= m then Received(s, v, k) + {from} else Received(s, v, k))
  }

  lemma AckOneAdds(s: Cohort, s0: Cohort, v: View, from: Mid, lo: nat, k: nat)
    requires Leads(s0, v) && s0.committed.ts < lo <= k <= s0.latest.ts
    requires LeadCursors(s0, s) && AddsAck(s0, s, v, from, lo, k - 1)
    ensures At(v, k) in s.log
    ensures LeadCursors(s0, AckOne(s, from, At(v, k))) && AddsAck(s0, AckOne(s, from, At(v, k)), v, from, lo, k)
  {
    assert Waiting(s0, v, k);
    var t := AckOne(s, from, At(v, k));
    hide Leads, Mids;
    forall l: nat | Waiting(s0, v, l)
      ensures At(v, l) in t.log && t.log[At(v, l)].ack.Some?
      ensures Received(t, v, l) == if lo <= l <= k then Received(s0, v, l) + {from} else Received(s0, v, l)
    {
      assert At(v, l) in s.log;
    }
  }

  /** The loop in `replicate_cb`, entry by entry: it is not a Leads state in between. */
  lemma {:induction false} AckFromAdds(s: Cohort, s0: Cohort, v: View, from: Mid, lo: nat, k: nat, m: nat)
    requires Leads(s0, v) && s0.committed.ts < lo <= k && m <= s0.latest.ts
    requires LeadCursors(s0, s) && AddsAck(s0, s, v, from, lo, k - 1)
    ensures var t := AckFrom(s, from, At(v, k), At(v, m));
            LeadCursors(s0, t) && AddsAck(s0, t, v, from, lo, if k <= m then m else k - 1)
    decreases m + 1 - k
  {
    hide AckFrom, AckOne, AddsAck, AcksNested;
    var n := At(v, k);
    if k <= m {
      AckOneAdds(s, s0, v, from, lo, k);
      AckFromStep(s, from, n, At(v, m));
      if k < m {
        NextAt(s0, v, k);
        hide Leads;
        AckFromAdds(AckOne(s, from, n), s0, v, from, lo, k + 1, m);
      } else {
        AckFromStop(AckOne(s, from, n), from, VsNext(s.jumps, n), n);
      }
    } else {
      AckFromStop(s, from, n, At(v, m));
    }
  }

  lemma AckFromStep(s: Cohort, from: Mid, vs: Viewstamp, upto: Viewstamp)
    requires Le(vs, upto) && vs in s.log
    ensures AckFrom(s, from, vs, upto) == AckFrom(AckOne(s, from, vs), from, VsNext(s.jumps, vs), upto)
  {
  }

  lemma AckFromStop(s: Cohort, from: Mid, vs: Viewstamp, upto: Viewstamp)
    requires !Le(vs, upto)
    ensures AckFrom(s, from, vs, upto) == s
  {
  }

  ghost predicate LeadCursors(s: Cohort, t: Cohort) {
    && t.self == s.self && t.validView == s.validView && t.view == s.view
    && t.crashed == s.crashed && t.jumps == s.jumps
    && t.latest == s.latest && t.committed == s.committed && t.executed == s.executed
    && t.log.Keys == s.log.Keys
    && (forall k :: k in s.log && s.log[k].ack.Some? ==>
          t.log[k].ack.Some? && t.log[k].ack.value.expected == s.log[k].ack.value.expected)
  }

  /** Recording an acknowledgement of stamp m keeps the sets nested: it is added to every waiting
      entry up to m. */
  lemma AckLeads(s: Cohort, v: View, from: Mid, m: nat)
    requires Leads(s, v) && s.committed.ts < m <= s.latest.ts
    ensures var t := AckFrom(s, from, At(v, s.committed.ts + 1), At(v, m));
            Leads(t, v) && AddsAck(s, t, v, from, s.committed.ts + 1, m)
  {
    var lo := s.committed.ts + 1;
    AckFromAdds(s, s, v, from, lo, lo, m);
    AddedLeads(s, AckFrom(s, from, At(v, lo), At(v, m)), v, from, m);
  }

  lemma AddedLeads(s: Cohort, t: Cohort, v: View, from: Mid, m: nat)
    requires Leads(s, v) && LeadCursors(s, t) && AddsAck(s, t, v, from, s.committed.ts + 1, m)
    ensures Leads(t, v)
  {
    assert AcksNested(t, v) by { AddedNested(s, t, v, from, m); }
    hide AcksNested, AddsAck;
  }

  lemma AddedNested(s: Cohort, t: Cohort, v: View, from: Mid, m: nat)
    requires Leads(s, v) && LeadCursors(s, t) && AddsAck(s, t, v, from, s.committed.ts + 1, m)
    ensures AcksNested(t, v)
  {
    assert AcksNested(s, v);
    hide Leads, Mids;
    assert forall k: nat :: Waiting(t, v, k) <==> Waiting(s, v, k);
    forall k: nat, l: nat | Waiting(t, v, k) && Waiting(t, v, l) && k <= l
      ensures Received(t, v, l) <= Received(t, v, k)
    {
      assert Waiting(s, v, k) && Waiting(s, v, l) && Received(s, v, l) <= Received(s, v, k);
    }
  }

  /** `replicate_cb` at a primary, for an acknowledgement it can receive in its own view. */
  lemma ReplicateCbLeads(s: Cohort, v: View, from: Mid, m: nat)
    requires Leads(s, v) && from in Mids(v) && m <= s.latest.ts
    ensures var t := ReplicateCb(s, from, At(v, m)); Leads(t, v) && t.latest == s.latest
    ensures m <= s.committed.ts ==> ReplicateCb(s, from, At(v, m)) == s
    ensures m > s.committed.ts ==>
              var u := AckFrom(s, from, At(v, s.committed.ts + 1), At(v, m));
              && Leads(u, v) && AddsAck(s, u, v, from, s.committed.ts + 1, m)
              && ReplicateCb(s, from, At(v, m)) == AdvanceCommitted(u)
  {
    if m > s.committed.ts {
      CbUnfolds(s, v, from, m);
      AckLeads(s, v, from, m);
      var u := AckFrom(s, from, At(v, s.committed.ts + 1), At(v, m));
      hide ReplicateCb, AdvanceCommitted, AckFrom, AddsAck, Leads;
      CommitsExactly(u, v);
      assert u.latest == s.latest by { AddsLatest(s, u, v, from, s.committed.ts + 1, m); }
    } else {
      CbReturns(s, v, from, m);
      hide ReplicateCb;
    }
  }

  lemma AddsLatest(s: Cohort, t: Cohort, v: View, from: Mid, lo: nat, m: nat)
    requires Leads(s, v) && AddsAck(s, t, v, from, lo, m)
    ensures t.latest == s.latest
  {
  }

  lemma CbReturns(s: Cohort, v: View, from: Mid, m: nat)
    requires Leads(s, v) && m <= s.committed.ts
    ensures ReplicateCb(s, from, At(v, m)) == s
  {
    hide AckFrom, AdvanceCommitted, Mids, AcksNested;
  }

  lemma CbUnfolds(s: Cohort, v: View, from: Mid, m: nat)
    requires Leads(s, v) && from in Mids(v) && s.committed.ts < m <= s.latest.ts
    ensures ReplicateCb(s, from, At(v, m)) == AdvanceCommitted(AckFrom(s, from, At(v, s.committed.ts + 1), At(v, m)))
  {
    CbPasses(s, v, from, m);
    hide AckFrom, AdvanceCommitted, Mids, Leads, VsNext, IsMember;
  }

  /** None of the early exits of `replicate_cb` is taken. */
  lemma CbPasses(s: Cohort, v: View, from: Mid, m: nat)
    requires Leads(s, v) && from in Mids(v) && s.committed.ts < m <= s.latest.ts
    ensures s.view.primary == s.self && s.latest.vid == s.committed.vid && IsMember(s, from)
    ensures !Le(At(v, m), s.committed) && !Lt(s.latest, At(v, m))
    ensures VsNext(s.jumps, s.committed) == At(v, s.committed.ts + 1)
  {
    hide Mids, AcksNested;
    assert s.committed == At(v, s.committed.ts);
    NextAt(s, v, s.committed.ts);
  }
}
