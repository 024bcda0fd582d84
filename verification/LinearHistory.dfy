/** A history in which every entry continues the one before it, and cohorts that execute along it. */
module LinearHistory {
  import opened Stamps
  import opened CohortSpec
  import opened CohortInvariants

  datatype Slot = Slot(vs: Viewstamp, arg: Arg)

  /** The stamp executed after n slots; a cohort that has executed nothing stands at zero. */
  ghost function StampAt(g: seq<Slot>, n: nat): Viewstamp
    requires n <= |g|
  {
    if n == 0 then ZERO_STAMP else g[n - 1].vs
  }

  /** The slot is the next stamp of its view, or a formation whose `prev` is the slot before. */
  ghost predicate Fits(g: seq<Slot>, i: nat)
    requires i < |g|
  {
    && WfSlot(g[i].vs, g[i].arg)
    && (g[i].arg.Client? ==> i > 0 && g[i].vs == Succ(StampAt(g, i)))
    && (g[i].arg.Form? ==> g[i].arg.form.prev == StampAt(g, i))
  }

  ghost predicate Linear(g: seq<Slot>) {
    forall i: nat {:trigger Fits(g, i)} :: i < |g| ==> Fits(g, i)
  }

  /** The client requests of a history, in order. */
  ghost function Requests(g: seq<Slot>): seq<Submission> {
    if g == [] then []
    else
      var last := g[|g| - 1];
      Requests(g[..|g| - 1]) + (if last.arg.Client? then [Submission(last.vs, last.arg.req)] else [])
  }

  lemma {:induction false} StampsIncrease(g: seq<Slot>, i: nat, j: nat)
    requires Linear(g) && i < j <= |g|
    ensures Lt(StampAt(g, i), StampAt(g, j))
    decreases j - i
  {
    assert Fits(g, j - 1);
    if i < j - 1 {
      StampsIncrease(g, i, j - 1);
    }
  }

  lemma StampsDistinct(g: seq<Slot>, i: nat, j: nat)
    requires Linear(g) && i <= |g| && j <= |g| && StampAt(g, i) == StampAt(g, j)
    ensures i == j
  {
    if i < j { StampsIncrease(g, i, j); }
    if j < i { StampsIncrease(g, j, i); }
  }

  lemma IndexOf(g: seq<Slot>, x: Slot) returns (i: nat)
    requires x in g
    ensures i < |g| && g[i] == x && StampAt(g, i + 1) == x.vs
  {
    i :| 0 <= i < |g| && g[i] == x;
  }

  lemma SlotUnique(g: seq<Slot>, a: Slot, b: Slot)
    requires Linear(g) && a in g && b in g && a.vs == b.vs
    ensures a == b
  {
    hide *;
    var i := IndexOf(g, a);
    var j := IndexOf(g, b);
    StampsDistinct(g, i + 1, j + 1);
  }

  lemma {:induction false} RequestsPrefix(g: seq<Slot>, m: nat, n: nat)
    requires m <= n <= |g|
    ensures Requests(g[..m]) <= Requests(g[..n])
    decreases n
  {
    if m < n {
      RequestsPrefix(g, m, n - 1);
      assert g[..n][..n - 1] == g[..n - 1];
    }
  }

  ghost predicate Recorded(log: Log, g: seq<Slot>, k: Viewstamp) {
    k in log ==> Slot(k, log[k].arg) in g
  }

  ghost predicate LogIn(log: Log, g: seq<Slot>) {
    forall k {:trigger Recorded(log, g, k)} :: Recorded(log, g, k)
  }

  lemma SameLogIn(l: Log, m: Log, g: seq<Slot>)
    requires LogIn(l, g) && SameArgs(l, m)
    ensures LogIn(m, g)
  {
    forall k ensures Recorded(m, g, k) {
      assert Recorded(l, g, k);
    }
  }

  /** The installed view is one the history forms. */
  ghost predicate ViewKnown(s: Cohort, g: seq<Slot>) {
    s.validView ==> exists x :: x in g && x.arg.Form? && x.arg.form.view == s.view
  }

  /** s has executed exactly the first n slots. */
  ghost predicate ExecutedTo(s: Cohort, g: seq<Slot>, n: nat) {
    && n <= |g|
    && s.executed == StampAt(g, n)
    && s.submitted == Requests(g[..n])
  }

  ghost predicate Follows(s: Cohort, g: seq<Slot>) {
    LogIn(s.log, g) && ViewKnown(s, g) && exists n: nat :: ExecutedTo(s, g, n)
  }

  /** If the next stamp to execute is logged with a slot of the history, it is the next slot of the
      history, however incomplete the log is and whatever else it holds. */
  lemma NextIsNextSlot(s: Cohort, g: seq<Slot>, n: nat)
    requires Linear(g) && JumpsMatch(s.log, s.jumps) && n <= |g| && s.executed == StampAt(g, n)
    requires var x := VsNext(s.jumps, s.executed); x in s.log && Slot(x, s.log[x].arg) in g
    ensures n < |g| && g[n] == Slot(VsNext(s.jumps, s.executed), s.log[VsNext(s.jumps, s.executed)].arg)
  {
    var x := VsNext(s.jumps, s.executed);
    var j := IndexOf(g, Slot(x, s.log[x].arg));
    NextFollows(s, g, j);
    StampsDistinct(g, j, n);
  }

  /** A slot of the history is executed only right after the slot before it. */
  lemma NextFollows(s: Cohort, g: seq<Slot>, j: nat)
    requires Linear(g) && JumpsMatch(s.log, s.jumps) && j < |g|
    requires var x := VsNext(s.jumps, s.executed); x in s.log && g[j] == Slot(x, s.log[x].arg)
    ensures s.executed == StampAt(g, j)
  {
    var x := VsNext(s.jumps, s.executed);
    NextIsSuccOrForm(s);
    assert Fits(g, j);
    if s.log[x].arg.Client? {
      assert x == Succ(s.executed) && x == Succ(StampAt(g, j));
    } else {
      assert s.executed in s.jumps;
      assert g[j].arg.form.prev == s.executed;
    }
  }

  lemma ExecRequestFollows(s: Cohort, g: seq<Slot>, n: nat)
    requires Linear(g) && LogIn(s.log, g) && ViewKnown(s, g) && ExecutedTo(s, g, n) && JumpsMatch(s.log, s.jumps)
    requires VsNext(s.jumps, s.executed) in s.log && s.log[VsNext(s.jumps, s.executed)].arg.Client?
    ensures var t := ExecRequest(s, VsNext(s.jumps, s.executed));
            LogIn(t.log, g) && ViewKnown(t, g) && ExecutedTo(t, g, n + 1)
  {
    assert Recorded(s.log, g, VsNext(s.jumps, s.executed));
    NextIsNextSlot(s, g, n);
    assert g[..n + 1][..n] == g[..n];
    var t := ExecRequest(s, VsNext(s.jumps, s.executed));
    assert t.log.Keys == s.log.Keys;
    SameLogIn(s.log, t.log, g);
    hide LogIn, Linear, JumpsMatch;
  }

  lemma ExecFormFollows(s: Cohort, g: seq<Slot>, n: nat)
    requires Linear(g) && LogIn(s.log, g) && ExecutedTo(s, g, n) && JumpsMatch(s.log, s.jumps)
    requires VsNext(s.jumps, s.executed) in s.log && s.log[VsNext(s.jumps, s.executed)].arg.Form?
    ensures var t := ExecForm(s, VsNext(s.jumps, s.executed));
            LogIn(t.log, g) && ViewKnown(t, g) && ExecutedTo(t, g, n + 1)
  {
    assert Recorded(s.log, g, VsNext(s.jumps, s.executed));
    NextIsNextSlot(s, g, n);
    FormLeads(s, g, n);
    SameLogIn(s.log, ExecForm(s, g[n].vs).log, g);
    hide LogIn, Linear, JumpsMatch, ExecForm;
    assert g[n] in g;
  }

  lemma FormLeads(s: Cohort, g: seq<Slot>, n: nat)
    requires ExecutedTo(s, g, n) && n < |g| && g[n].arg.Form? && g[n].vs in s.log && s.log[g[n].vs].arg == g[n].arg
    ensures var t := ExecForm(s, g[n].vs);
            ExecutedTo(t, g, n + 1) && t.view == g[n].arg.form.view && SameArgs(s.log, t.log)
  {
    hide Aborted;
    assert g[..n + 1][..n] == g[..n];
  }

  /** Executing walks along the history. */
  lemma {:induction false} ExecFromFollows(s: Cohort, g: seq<Slot>, n: nat)
    requires Linear(g) && LogIn(s.log, g) && ViewKnown(s, g) && ExecutedTo(s, g, n) && JumpsMatch(s.log, s.jumps)
    ensures Follows(AdvanceExecuted(s), g)
    decreases |g| - n
  {
    hide ViewKnown, Linear, JumpsMatch;
    var x := VsNext(s.jumps, s.executed);
    if Le(x, s.committed) && x in s.log {
      assert Recorded(s.log, g, x);
      hide LogIn;
      NextIsNextSlot(s, g, n);
      var t := ExecOne(s, x);
      if s.log[x].arg.Client? {
        ExecRequestFollows(s, g, n);
        ExecRequestFrame(s, x);
      } else {
        ExecFormFollows(s, g, n);
        ExecFormFrame(s, x);
      }
      SameArgsJumps(s.log, t.log, s.jumps);
      assert t.executed == x;
      AboveDrops(s.log.Keys, x, VsNext(s.jumps, x));
      assert AdvanceExecuted(s) == AdvanceExecuted(t) by { hide ExecOne; }
      hide ExecOne, AdvanceExecuted;
      ExecFromFollows(t, g, n + 1);
    }
  }

  lemma AdvanceExecutedFollows(s: Cohort, g: seq<Slot>)
    requires Linear(g) && Follows(s, g) && JumpsMatch(s.log, s.jumps)
    ensures Follows(AdvanceExecuted(s), g)
  {
    var n: nat :| ExecutedTo(s, g, n);
    ExecFromFollows(s, g, n);
  }
}
