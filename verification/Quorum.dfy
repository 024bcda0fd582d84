/** The quorum set of set.h: a sorted tree of members, intersected with two cursors. */
module Quorum {
  import opened Stamps

  /** The meaning of `contains_majority_of`. */
  predicate Majority(a: set<Mid>, s: set<Mid>) {
    2 * |a * s| > |s|
  }

  ghost predicate Sorted(m: seq<Mid>) {
    forall i, j :: 0 <= i < j < |m| ==> m[i] < m[j]
  }

  ghost function Elems(m: seq<Mid>): set<Mid> {
    set v | v in m
  }

  /** The in-order listing of the tree after `itree::insert` of a new key. */
  function Inserted(m: seq<Mid>, v: Mid): seq<Mid> {
    if m == [] then [v]
    else if v < m[0] then [v] + m
    else [m[0]] + Inserted(m[1..], v)
  }

  lemma {:induction false} InsertedSorted(m: seq<Mid>, v: Mid)
    requires Sorted(m) && v !in m
    ensures Sorted(Inserted(m, v)) && Elems(Inserted(m, v)) == Elems(m) + {v}
  {
    var r := Inserted(m, v);
    if m == [] {
    } else if v < m[0] {
      assert Elems(r) == {v} + Elems(m);
    } else {
      var t := Inserted(m[1..], v);
      InsertedSorted(m[1..], v);
      assert r == [m[0]] + t;
      assert Elems(m) == {m[0]} + Elems(m[1..]);
      assert Elems(r) == {m[0]} + Elems(t);
      forall k | 0 <= k < |t| ensures m[0] < t[k] {
        assert t[k] in Elems(t);
        if t[k] in m[1..] {
          var j :| 0 <= j < |m[1..]| && m[1..][j] == t[k];
          assert m[j + 1] == t[k];
        }
      }
    }
  }

  lemma {:induction false} SortedSize(m: seq<Mid>)
    requires Sorted(m)
    ensures |Elems(m)| == |m|
  {
    if m != [] {
      SortedSize(m[1..]);
      assert Elems(m) == {m[0]} + Elems(m[1..]);
    }
  }

  lemma SubsetSize<T>(a: set<T>, b: set<T>)
    requires a <= b
    ensures |a| <= |b|
  {
    assert b == a + (b - a);
  }

  /** Quorum intersection: two sets that each hold a majority of `s` share a member of `s`. */
  lemma MajoritiesMeet(a: set<Mid>, b: set<Mid>, s: set<Mid>) returns (x: Mid)
    requires Majority(a, s) && Majority(b, s)
    ensures x in a && x in b && x in s
  {
    if (a * s) * (b * s) == {} {
      SubsetSize((a * s) + (b * s), s);
      assert false;
    }
    x :| x in (a * s) * (b * s);
  }

  /** Everything before one cursor is below everything from the other cursor on. */
  ghost predicate Passed(a: seq<Mid>, i: nat, b: seq<Mid>, j: nat)
    requires i <= |a| && j <= |b|
  {
    && (forall x, y :: 0 <= x < i && j <= y < |b| ==> a[x] < b[y])
    && (forall x, y :: i <= x < |a| && 0 <= y < j ==> b[y] < a[x])
  }

  ghost function Common(a: seq<Mid>, i: nat, b: seq<Mid>, j: nat): set<Mid>
    requires i <= |a| && j <= |b|
  {
    Elems(a[..i]) * Elems(b[..j])
  }

  /** What moving a cursor does to the common part, for each outcome of the comparison. */
  lemma Advance(a: seq<Mid>, i: nat, b: seq<Mid>, j: nat)
    requires Sorted(a) && Sorted(b) && i < |a| && j < |b| && Passed(a, i, b, j)
    ensures a[i] < b[j] ==> Passed(a, i + 1, b, j) && Common(a, i + 1, b, j) == Common(a, i, b, j)
    ensures b[j] < a[i] ==> Passed(a, i, b, j + 1) && Common(a, i, b, j + 1) == Common(a, i, b, j)
    ensures a[i] == b[j] ==>
              Passed(a, i + 1, b, j + 1) && Common(a, i + 1, b, j + 1) == Common(a, i, b, j) + {a[i]}
  {
    assert a[..i + 1] == a[..i] + [a[i]] && b[..j + 1] == b[..j] + [b[j]];
    assert Elems(a[..i + 1]) == Elems(a[..i]) + {a[i]};
    assert Elems(b[..j + 1]) == Elems(b[..j]) + {b[j]};
    assert a[i] !in b[..j] && b[j] !in a[..i];
  }

  lemma PassedNone(a: seq<Mid>, b: seq<Mid>)
    ensures Passed(a, 0, b, 0) && Common(a, 0, b, 0) == {}
  {
  }

  lemma PassedAll(a: seq<Mid>, i: nat, b: seq<Mid>, j: nat)
    requires i <= |a| && j <= |b| && Passed(a, i, b, j) && (i == |a| || j == |b|)
    ensures Common(a, i, b, j) == Elems(a) * Elems(b)
  {
    assert a == a[..i] + a[i..] && b == b[..j] + b[j..];
    forall x | x in a && x in b ensures x in a[..i] && x in b[..j] {
      var k :| 0 <= k < |a| && a[k] == x;
      var l :| 0 <= l < |b| && b[l] == x;
      assert a[..i][if k < i then k else 0] == x;
      assert b[..j][if l < j then l else 0] == x;
    }
  }

  class MidSet {
    var mem: seq<Mid>

    ghost predicate Valid()
      reads this
    {
      Sorted(mem)
    }

    ghost function Contents(): set<Mid>
      reads this
    {
      Elems(mem)
    }

    constructor ()
      ensures Valid() && Contents() == {}
    {
      mem := [];
    }

    method Size() returns (count: nat)
      requires Valid()
      ensures count == |Contents()|
    {
      count := 0;
      var e := 0;
      while e < |mem|
        invariant e <= |mem| && count == e
      {
        count := count + 1;
        e := e + 1;
      }
      SortedSize(mem);
    }

    method Contains(v: Mid) returns (found: bool)
      ensures found == (v in Contents())
    {
      found := v in mem;
    }

    method Insert(v: Mid) returns (fresh_: bool)
      requires Valid()
      modifies this
      ensures Valid() && Contents() == old(Contents()) + {v}
      ensures fresh_ == (v !in old(Contents()))
      ensures !fresh_ ==> mem == old(mem)
    {
      if v in mem { return false; }
      InsertedSorted(mem, v);
      mem := Inserted(mem, v);
      return true;
    }

    method Members() returns (v: seq<Mid>)
      requires Valid()
      ensures Sorted(v) && Elems(v) == Contents()
    {
      v := [];
      var e := 0;
      while e < |mem|
        invariant e <= |mem| && v == mem[..e]
      {
        v := v + [mem[e]];
        e := e + 1;
      }
      assert v == mem;
    }

    method Clear()
      modifies this
      ensures Valid() && Contents() == {}
    {
      mem := [];
    }

    /** The two-cursor merge. The result set may alias either operand. */
    method IntersectWith(s: MidSet, r: MidSet)
      requires Valid() && s.Valid() && r.Valid()
      modifies r
      ensures Valid() && s.Valid() && r.Valid()
      ensures r.Contents() == old(r.Contents()) + old(Contents()) * old(s.Contents())
      ensures r != this ==> mem == old(mem)
      ensures r != s ==> s.mem == old(s.mem)
    {
      hide Sorted, Passed, Common;
      var e1, e2 := 0, 0;
      ghost var a, b := mem, s.mem;
      PassedNone(a, b);
      while e1 < |mem| && e2 < |s.mem|
        invariant mem == a && s.mem == b && r.Valid()
        invariant e1 <= |a| && e2 <= |b|
        invariant Passed(a, e1, b, e2)
        invariant r.Contents() == old(r.Contents()) + Common(a, e1, b, e2)
        decreases |mem| - e1 + |s.mem| - e2
      {
        Advance(a, e1, b, e2);
        if mem[e1] < s.mem[e2] {
          e1 := e1 + 1;
        } else if s.mem[e2] < mem[e1] {
          e2 := e2 + 1;
        } else {
          var fresh_ := r.Insert(mem[e1]);
          e1, e2 := e1 + 1, e2 + 1;
        }
      }
      PassedAll(a, e1, b, e2);
    }

    method ContainsMajorityOf(s: MidSet) returns (b: bool)
      requires Valid() && s.Valid()
      ensures b == Majority(Contents(), s.Contents())
    {
      var common := new MidSet();
      IntersectWith(s, common);
      var n := common.Size();
      var m := s.Size();
      b := n >= m / 2 + 1;
    }
  }
}
