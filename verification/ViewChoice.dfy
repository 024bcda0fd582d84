/** `view_change_choose_view`: the view a manager proposes from the reports it has gathered. */
module ViewChoice {
  import opened Stamps
  import opened CohortSpec

  ghost predicate DistinctIds(accepts: seq<Report>) {
    forall i, j :: 0 <= i < j < |accepts| ==> accepts[i].myid != accepts[j].myid
  }

  ghost predicate Considered(r: Report, among: Option<set<Mid>>) {
    among.Some? ==> r.myid in among.value
  }

  /** The scan finds a considered report that no considered report exceeds, if one is above zero. */
  lemma {:induction false} BestIsMax(accepts: seq<Report>, among: Option<set<Mid>>)
    ensures var b := Best(accepts, among);
            && (b.Some? ==> b.value in accepts && Considered(b.value, among) && Lt(ZERO_STAMP, b.value.latest))
            && (forall r :: r in accepts && Considered(r, among) && Lt(ZERO_STAMP, r.latest) ==>
                  b.Some? && Le(r.latest, b.value.latest))
  {
    if accepts != [] {
      var init := accepts[..|accepts| - 1];
      BestIsMax(init, among);
      assert accepts == init + [accepts[|accepts| - 1]];
    }
  }

  /** Of several greatest reports the first is chosen. */
  lemma {:induction false} BestIsFirst(accepts: seq<Report>, among: Option<set<Mid>>) returns (i: nat)
    requires Best(accepts, among).Some?
    ensures i < |accepts| && Best(accepts, among).value == accepts[i]
    ensures forall j :: 0 <= j < i && Considered(accepts[j], among) ==> Lt(accepts[j].latest, accepts[i].latest)
  {
    var init, r := accepts[..|accepts| - 1], accepts[|accepts| - 1];
    var b := Best(init, among);
    if Best(accepts, among) == b {
      i := BestIsFirst(init, among);
    } else {
      i := |accepts| - 1;
      BestIsMax(init, among);
      forall j | 0 <= j < i && Considered(accepts[j], among) ensures Lt(accepts[j].latest, r.latest) {
        assert accepts[j] == init[j] && init[j] in init;
        assert Le(ZERO_STAMP, accepts[j].latest);
      }
    }
  }

  lemma {:induction false} OtherIdsSpec(accepts: seq<Report>, id: Mid)
    requires DistinctIds(accepts)
    ensures var o := OtherIds(accepts, id);
            && (forall x :: x in o <==> x != id && exists r :: r in accepts && r.myid == x)
            && (forall i, j :: 0 <= i < j < |o| ==> o[i] != o[j])
            && |o| == |accepts| - (if exists r :: r in accepts && r.myid == id then 1 else 0)
  {
    if accepts != [] {
      var last, init := accepts[|accepts| - 1], accepts[..|accepts| - 1];
      OtherIdsSpec(init, id);
      var o := OtherIds(init, id);
      assert accepts == init + [last];
      assert last.myid !in o;
      assert forall r :: r in init ==> r.myid != last.myid;
      assert last in accepts;
    }
  }

  ghost predicate NoRepeats(v: View) {
    v.primary !in v.backups && DistinctMids(v.backups)
  }

  ghost function Ids(accepts: seq<Report>): set<Mid> {
    set r | r in accepts :: r.myid
  }

  /** A fresh view has exactly the accepters as members, without repeats, every backup slot filled,
      and the primary's report is greatest. */
  lemma FreshViewSpec(accepts: seq<Report>, vid: Viewid)
    requires DistinctIds(accepts)
    ensures ChooseFresh(accepts, vid).Some? <==> exists r :: r in accepts && Lt(ZERO_STAMP, r.latest)
    ensures var c := ChooseFresh(accepts, vid);
            c.Some? ==>
              && c.value.view.vid == vid
              && Mids(c.value.view) == Ids(accepts) && NoRepeats(c.value.view)
              && |c.value.view.backups| == |accepts| - 1
              && (exists r :: r in accepts && r.myid == c.value.view.primary && r.latest == c.value.latest)
              && (forall r :: r in accepts ==> Le(r.latest, c.value.latest))
  {
    BestIsMax(accepts, None);
    var b := Best(accepts, None);
    if b.Some? {
      OtherIdsSpec(accepts, b.value.myid);
      var c := ChooseFresh(accepts, vid);
      assert b.value in accepts;
      forall r | r in accepts ensures Le(r.latest, c.value.latest) {
        assert Le(ZERO_STAMP, r.latest);
      }
      forall x ensures x in Mids(c.value.view) <==> x in Ids(accepts) {
        if x in Ids(accepts) { var r :| r in accepts && r.myid == x; }
      }
    }
  }

  /** A view rebuilt on a reported newview has the same members in a different order at most, and its
      primary's report is greatest among the members' reports. */
  lemma MergedViewSpec(accepts: seq<Report>, vid: Viewid, nv: View)
    requires NoRepeats(nv)
    ensures var c := ChooseMerged(accepts, vid, nv);
            c.Some? ==>
              && c.value.view.vid == vid
              && NoRepeats(c.value.view)
              && multiset([c.value.view.primary] + c.value.view.backups) == multiset([nv.primary] + nv.backups)
              && Mids(c.value.view) == Mids(nv)
              && (exists r :: r in accepts && r.myid == c.value.view.primary && r.latest == c.value.latest)
              && (forall r :: r in accepts && r.myid in Mids(nv) ==> Le(r.latest, c.value.latest))
  {
    var c := ChooseMerged(accepts, vid, nv);
    if c.Some? {
      BestIsMax(accepts, Some(Mids(nv)));
      var b := Best(accepts, Some(Mids(nv))).value;
      forall r | r in accepts && r.myid in Mids(nv) ensures Le(r.latest, c.value.latest) {
        assert Considered(r, Some(Mids(nv))) && Le(ZERO_STAMP, r.latest);
      }
      if b.myid != nv.primary {
        SwapSpec(nv.backups, b.myid, nv.primary);
        SameMembers(c.value.view, nv);
      }
    }
  }

  lemma SameMembers(v: View, w: View)
    requires multiset([v.primary] + v.backups) == multiset([w.primary] + w.backups)
    ensures Mids(v) == Mids(w)
  {
    forall x ensures x in Mids(v) <==> x in multiset([v.primary] + v.backups) {}
    forall x ensures x in Mids(w) <==> x in multiset([w.primary] + w.backups) {}
  }

  ghost predicate DistinctMids(ids: seq<Mid>) {
    forall i, j :: 0 <= i < j < |ids| ==> ids[i] != ids[j]
  }

  /** Putting `b` where `a` stands in a list that has `a` once and `b` not at all. */
  lemma SwapSpec(ids: seq<Mid>, a: Mid, b: Mid)
    requires a in ids && b !in ids && DistinctMids(ids)
    ensures multiset([a] + Replaced(ids, a, b)) == multiset([b] + ids)
    ensures a !in Replaced(ids, a, b) && DistinctMids(Replaced(ids, a, b))
  {
    var r := Replaced(ids, a, b);
    var k :| 0 <= k < |ids| && ids[k] == a;
    assert multiset([a] + r) == multiset([b] + ids) by {
      assert r == ids[..k] + [b] + ids[k + 1..];
      assert ids == ids[..k] + [a] + ids[k + 1..];
      hide DistinctMids, Replaced;
      SwapMultiset(ids[..k], a, b, ids[k + 1..]);
    }
  }

  lemma SwapMultiset(pre: seq<Mid>, a: Mid, b: Mid, post: seq<Mid>)
    ensures multiset([a] + (pre + [b] + post)) == multiset([b] + (pre + [a] + post))
  {
    assert multiset(pre + [b] + post) == multiset(pre) + multiset{b} + multiset(post);
    assert multiset(pre + [a] + post) == multiset(pre) + multiset{a} + multiset(post);
  }

  // ---------------------------------------------------------------- when the assertion fails

  /** Report i beats everything considered before it. */
  ghost predicate Leads(accepts: seq<Report>, among: Option<set<Mid>>, i: nat) {
    && i < |accepts| && Considered(accepts[i], among) && Lt(ZERO_STAMP, accepts[i].latest)
    && forall k :: 0 <= k < i && Considered(accepts[k], among) ==> Lt(accepts[k].latest, accepts[i].latest)
  }

  /** The best report is the leader that nothing after it exceeds. */
  lemma {:induction false} BestLeads(accepts: seq<Report>, among: Option<set<Mid>>, i: nat)
    requires Leads(accepts, among, i)
    requires forall j :: i < j < |accepts| && Considered(accepts[j], among) ==> !Lt(accepts[i].latest, accepts[j].latest)
    ensures Best(accepts, among) == Some(accepts[i])
  {
    var init := accepts[..|accepts| - 1];
    if i < |init| {
      BestLeads(init, among, i);
    } else {
      BestIsMax(init, among);
      var b := Best(init, among);
      if b.Some? { var k :| 0 <= k < |init| && init[k] == b.value; }
    }
  }

  lemma {:induction false} LeaderOf(accepts: seq<Report>, among: Option<set<Mid>>) returns (i: nat)
    requires Best(accepts, among).Some?
    ensures Leads(accepts, among, i) && Best(accepts, among) == Some(accepts[i])
  {
    var init, last := accepts[..|accepts| - 1], accepts[|accepts| - 1];
    BestIsMax(init, among);
    if Best(accepts, among) == Best(init, among) {
      i := LeaderOf(init, among);
    } else {
      i := |accepts| - 1;
      forall k | 0 <= k < i && Considered(accepts[k], among) ensures Lt(accepts[k].latest, accepts[i].latest) {
        assert init[k] in init;
        assert Le(ZERO_STAMP, accepts[k].latest);
      }
    }
  }

  /** The assertion in the merged scan fails exactly when newview's primary takes the lead in the
      order of the replies and some member's later reply then exceeds it. */
  lemma {:induction false} OvertakenSpec(accepts: seq<Report>, among: set<Mid>, primary: Mid)
    ensures Overtaken(accepts, among, primary) <==>
      exists i, j :: 0 <= i < j < |accepts| && accepts[i].myid == primary && Leads(accepts, Some(among), i)
                     && Considered(accepts[j], Some(among)) && Lt(accepts[i].latest, accepts[j].latest)
  {
    if accepts != [] {
      var init, last, am := accepts[..|accepts| - 1], accepts[|accepts| - 1], Some(among);
      OvertakenSpec(init, among, primary);
      assert forall i :: 0 <= i < |init| ==> init[i] == accepts[i] && (Leads(init, am, i) <==> Leads(accepts, am, i));
      if Overtaken(accepts, among, primary) && !Overtaken(init, among, primary) {
        var i := LeaderOf(init, am);
        assert Leads(accepts, am, i) && accepts[i].myid == primary && Lt(accepts[i].latest, last.latest);
        assert accepts[|init|] == last;
      }
      if i, j :| 0 <= i < j < |accepts| && accepts[i].myid == primary && Leads(accepts, am, i)
                 && Considered(accepts[j], am) && Lt(accepts[i].latest, accepts[j].latest) {
        if !Overtaken(init, among, primary) {
          assert Leads(init, am, i);
          BestLeads(init, am, i);
        }
      }
    }
  }
}
