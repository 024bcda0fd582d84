/**
 * The generation log as a file of characters: IncrementGeneration appends a line, InitGenerations
 * reads the file back through a buffer of 256 characters.
 */
module GenerationLog {
  import opened Enforcer
  import EnforcerRuns

  /** `fgets` into a buffer of 256 reads at most 255 characters. */
  const CHUNK := 255

  /** How many characters `fgets` takes: up to and including the first newline, or a full buffer, or
      what is left of the file. */
  function ChunkLen(file: string, max: nat): (n: nat)
    ensures n <= |file| && n <= max
    ensures file != "" && max > 0 ==> n > 0
  {
    if file == "" || max == 0 then 0
    else if file[0] == '\n' then 1
    else 1 + ChunkLen(file[1..], max - 1)
  }

  /** The targets InitGenerations counts: each chunk with its last character cut off. */
  function Parse(file: string): seq<Target>
    decreases |file|
  {
    if file == "" then []
    else
      var n := ChunkLen(file, CHUNK);
      [file[..n - 1]] + Parse(file[n..])
  }

  function Line(t: Target): string {
    t + "\n"
  }

  /** The file after the lines have been appended. */
  function Render(lines: seq<Target>): string {
    if lines == [] then "" else Render(lines[..|lines| - 1]) + Line(lines[|lines| - 1])
  }

  /** A target that fits the read buffer with its newline. The C string functions also rely on it
      holding no NUL. */
  predicate Storable(t: Target) {
    |t| < CHUNK && '\n' !in t && '\0' !in t
  }

  /** The file ends where a chunk ends by itself: nothing appended can become part of its last chunk. */
  predicate Whole(file: string)
    decreases |file|
  {
    file == "" ||
    var n := ChunkLen(file, CHUNK);
    if n == |file| then file[n - 1] == '\n' || n == CHUNK else Whole(file[n..])
  }

  lemma {:induction false} LineIsChunk(t: Target, rest: string, max: nat)
    requires '\n' !in t && |t| < max
    ensures ChunkLen(Line(t) + rest, max) == |t| + 1
    decreases |t|
  {
    var f := Line(t) + rest;
    if t != "" {
      assert f[1..] == Line(t[1..]) + rest;
      LineIsChunk(t[1..], rest, max - 1);
    }
  }

  /** A storable line is read back as one target. */
  lemma ParseLine(t: Target, rest: string)
    requires Storable(t)
    ensures Parse(Line(t) + rest) == [t] + Parse(rest)
  {
    var f := Line(t) + rest;
    LineIsChunk(t, rest, CHUNK);
    assert f[..|t|] == t && f[|t| + 1..] == rest;
  }

  /** A chunk that ended by itself is not changed by what is appended after it. */
  lemma {:induction false} ChunkStays(file: string, more: string, max: nat)
    requires file != "" && max > 0
    requires var n := ChunkLen(file, max); n < |file| || file[n - 1] == '\n' || n == max
    ensures ChunkLen(file + more, max) == ChunkLen(file, max)
    decreases |file|
  {
    assert (file + more)[0] == file[0];
    if file[0] != '\n' {
      assert (file + more)[1..] == file[1..] + more;
      if file[1..] != "" && max > 1 {
        ChunkStays(file[1..], more, max - 1);
      }
    }
  }

  /** An unfinished chunk takes in more. */
  lemma {:induction false} ChunkExtends(file: string, more: string, max: nat)
    requires file != "" && more != "" && ChunkLen(file, max) == |file| < max && file[|file| - 1] != '\n'
    ensures ChunkLen(file + more, max) > |file|
    decreases |file|
  {
    assert (file + more)[0] == file[0] && (file + more)[1..] == file[1..] + more;
    if file[0] == '\n' {
      assert false;
    }
    if |file| > 1 {
      ChunkExtends(file[1..], more, max - 1);
    } else {
      assert file[1..] + more == more;
      assert max - 1 > 0;
    }
  }

  /** Appending after a whole file adds exactly the appended lines. */
  lemma {:induction false} ParseAppend(file: string, more: string)
    requires Whole(file)
    ensures Parse(file + more) == Parse(file) + Parse(more)
    decreases |file|
  {
    if file == "" {
      assert file + more == more;
    } else {
      var n := ChunkLen(file, CHUNK);
      ChunkStays(file, more, CHUNK);
      assert (file + more)[..n - 1] == file[..n - 1] && (file + more)[n..] == file[n..] + more;
      assert Whole(file[n..]);
      ParseAppend(file[n..], more);
    }
  }

  lemma {:induction false} WholeAppend(file: string, t: Target)
    requires Whole(file) && Storable(t)
    ensures Whole(file + Line(t))
    decreases |file|
  {
    if file == "" {
      assert file + Line(t) == Line(t) + "" == Line(t);
      LineIsChunk(t, "", CHUNK);
    } else {
      var n := ChunkLen(file, CHUNK);
      ChunkStays(file, Line(t), CHUNK);
      assert (file + Line(t))[n..] == file[n..] + Line(t);
      WholeAppend(file[n..], t);
    }
  }

  /** InitGenerations restores exactly the lines written. */
  lemma {:induction false} RoundTrip(lines: seq<Target>)
    requires forall i :: 0 <= i < |lines| ==> Storable(lines[i])
    ensures Whole(Render(lines)) && Parse(Render(lines)) == lines
    decreases |lines|
  {
    if lines != [] {
      var init, t := lines[..|lines| - 1], lines[|lines| - 1];
      RoundTrip(init);
      WholeAppend(Render(init), t);
      ParseAppend(Render(init), Line(t));
      assert Line(t) + "" == Line(t);
      ParseLine(t, "");
      assert lines == init + [t];
    }
  }

  /** Appending a line adds that line, and nothing else, exactly when the file was whole. A line torn
      by a crash leaves a file that is not. */
  lemma AppendsLine(file: string, t: Target)
    requires Storable(t)
    ensures Parse(file + Line(t)) == Parse(file) + [t] <==> Whole(file)
  {
    assert Line(t) + "" == Line(t);
    ParseLine(t, "");
    if Whole(file) {
      ParseAppend(file, Line(t));
    } else {
      Swallows(file, Line(t));
    }
  }

  /** Appending to a file that is not whole changes the last target read. */
  lemma {:induction false} Swallows(file: string, more: string)
    requires !Whole(file) && more != ""
    ensures Parse(file) != [] && Parse(file + more) != []
    ensures !(Parse(file) <= Parse(file + more))
    decreases |file|
  {
    var n := ChunkLen(file, CHUNK);
    var f := file + more;
    if n == |file| {
      ChunkExtends(file, more, CHUNK);
      var m := ChunkLen(f, CHUNK);
      assert |Parse(f)[0]| == m - 1 > n - 1 == |Parse(file)[0]|;
    } else {
      ChunkStays(file, more, CHUNK);
      assert f[..n - 1] == file[..n - 1] && f[n..] == file[n..] + more;
      Swallows(file[n..], more);
      assert Parse(f)[1..] == Parse(f[n..]) && Parse(file)[1..] == Parse(file[n..]);
    }
  }

  // ---------------------------------------------------------------- torn lines

  /** A crash in the middle of a write leaves part of a line; restarting on that file does not lower any
      generation. */
  lemma TornTailRestores(file: string, part: string)
    requires Whole(file)
    ensures Parse(file) <= Parse(file + part)
    ensures forall t :: Count(Parse(file), t) <= Count(Parse(file + part), t)
  {
    ParseAppend(file, part);
    forall t ensures Count(Parse(file), t) <= Count(Parse(file + part), t) {
      CountPrefix(Parse(file), Parse(file + part), t);
    }
  }

  lemma {:induction false} CountPrefix(a: seq<Target>, b: seq<Target>, t: Target)
    requires a <= b
    ensures Count(a, t) <= Count(b, t)
    decreases |b|
  {
    if a != b {
      CountPrefix(a, b[..|b| - 1], t);
    }
  }

  /** But the line written next is lost: after a torn "b", the line for "a" is read as "ba", and the
      next restart gives "a" a smaller generation than it had. */
  lemma TornLineForgets()
    ensures var file := Line("a") + "b";
            && !Whole(file)
            && Count(Parse(file), "a") == 1
            && Count(Parse(file + Line("a")), "a") == 1
            && Parse(file + Line("a")) == ["a", "ba"]
  {
    var file := Line("a") + "b";
    ParseLine("a", "b");
    assert ChunkLen("b", CHUNK) == 1 && "b"[..0] == "" && Parse("b") == [""] + Parse("");
    LineIsChunk("a", "b", CHUNK);
    assert file[2..] == "b";
    assert !Whole("b");
    assert file + Line("a") == Line("a") + (Line("ba") + "");
    ParseLine("a", Line("ba") + "");
    ParseLine("ba", "");
    assert Parse(file) == ["a", ""];
    assert Parse(file + Line("a")) == ["a", "ba"];
    CountTwo("a", "", "a");
    CountTwo("a", "ba", "a");
  }

  lemma CountTwo(a: Target, b: Target, t: Target)
    ensures Count([a, b], t) == (if a == t then 1 else 0) + (if b == t then 1 else 0)
  {
    assert [a, b][..1] == [a] && [a][..0] == [];
    assert Count([a], t) == Count([a][..0], t) + (if a == t then 1 else 0);
    assert Count([a, b], t) == Count([a, b][..1], t) + (if b == t then 1 else 0);
  }

  // ---------------------------------------------------------------- steps with crashes in between

  /** The counters are unsigned 32-bit numbers. */
  type Word = g: nat | g < LIMIT

  /** `writing` is a target whose line is on disk while its counter has not moved yet. */
  datatype Log = Log(file: string, gens: map<Target, nat>, writing: seq<Target>)

  function GenOf(gens: map<Target, nat>, t: Target): nat {
    if t in gens then gens[t] else 0
  }

  /** Adding one to an unsigned 32-bit counter. */
  function Up(g: nat): nat {
    (g + 1) % LIMIT
  }

  /** The counters of a log, modulo 2^32. */
  function Tally(lines: seq<Target>): map<Target, nat> {
    map t | t in lines :: Count(lines, t) % LIMIT
  }

  datatype LogEvent = Write(t: Target) | Bump | Lower(t: Target, g: nat) | Restart

  /** IncrementGeneration is Write and then Bump; FastForwardGeneration is one Lower or some
      increments; the process can crash between any two of these. */
  ghost predicate LogStep(a: Log, e: LogEvent, b: Log) {
    match e
    case Write(t) => Storable(t) && a.writing == [] && b == a.(file := a.file + Line(t), writing := [t])
    case Bump => a.writing != [] && b == a.(gens := a.gens[a.writing[0] := Up(GenOf(a.gens, a.writing[0]))], writing := [])
    case Lower(t, g) => a.writing == [] && g < GenOf(a.gens, t) && b == a.(gens := a.gens[t := g])
    case Restart => b == Log(a.file, Tally(Parse(a.file)), [])
  }

  /** The log is ahead of the counters. */
  ghost predicate LogAhead(l: Log) {
    && Whole(l.file) && |l.writing| <= 1
    && forall t :: GenOf(l.gens, t) + (if t in l.writing then 1 else 0) <= Count(Parse(l.file), t)
  }

  lemma {:induction false} CountNone(lines: seq<Target>, t: Target)
    ensures t !in lines ==> Count(lines, t) == 0
  {
    if lines != [] {
      CountNone(lines[..|lines| - 1], t);
    }
  }

  /** At every point the log holds at least as many lines as the generation, so a restart at any point
      never gives a smaller one, below 2^32 lines of the target. */
  lemma LogStaysAhead(a: Log, e: LogEvent, b: Log)
    requires LogAhead(a) && LogStep(a, e, b)
    ensures LogAhead(b)
    ensures e.Restart? ==> forall t ::
              && GenOf(b.gens, t) == Count(Parse(a.file), t) % LIMIT
              && (Count(Parse(a.file), t) < LIMIT ==> GenOf(b.gens, t) >= GenOf(a.gens, t))
  {
    var lines := Parse(a.file);
    match e
    case Write(t) =>
      AppendsLine(a.file, t);
      WholeAppend(a.file, t);
      assert (lines + [t])[..|lines|] == lines;
      hide Parse, Whole, Line;
      assert forall u :: Count(lines + [t], u) == Count(lines, u) + (if u == t then 1 else 0);
    case Bump => hide Parse, Whole; UpSmall(GenOf(a.gens, a.writing[0])); assert a.writing == [a.writing[0]]; hide Up;
    case Lower(t, g) => hide Parse, Whole;
    case Restart =>
      hide Parse, Whole;
      forall t
        ensures GenOf(b.gens, t) == Count(lines, t) % LIMIT <= Count(lines, t)
        ensures Count(lines, t) < LIMIT ==> Count(lines, t) % LIMIT == Count(lines, t)
      {
        CountNone(lines, t);
        EnforcerRuns.SmallMod(Count(lines, t));
        ModBelow(Count(lines, t));
      }
  }

  lemma ModBelow(x: nat)
    ensures x % LIMIT <= x
  {
    if x < LIMIT { EnforcerRuns.SmallMod(x); }
  }

  lemma UpSmall(g: nat)
    ensures Up(g) <= g + 1
  {
    ModBelow(g + 1);
  }

  ghost predicate LogRun(ls: seq<Log>, es: seq<LogEvent>) {
    && |ls| == |es| + 1 && ls[0] == Log("", map[], [])
    && forall k :: 0 <= k < |es| ==> LogStep(ls[k], es[k], ls[k + 1])
  }

  /** Over every run from an empty log. */
  lemma {:induction false} LogAlwaysAhead(ls: seq<Log>, es: seq<LogEvent>, k: nat)
    requires LogRun(ls, es) && k < |ls|
    ensures LogAhead(ls[k])
  {
    hide LogAhead, LogStep;
    if k == 0 {
      assert LogAhead(ls[0]) by { EmptyAhead(); }
    } else {
      LogAlwaysAhead(ls, es, k - 1);
      LogStaysAhead(ls[k - 1], es[k - 1], ls[k]);
    }
  }

  lemma EmptyAhead()
    ensures LogAhead(Log("", map[], []))
  {
  }

  // ---------------------------------------------------------------- the methods

  class Generations {
    var file: string
    var gens: map<Target, nat>

    constructor (file: string)
      ensures this.file == file && gens == map[]
    {
      this.file, gens := file, map[];
    }

    /** The read loop; `rest` is what the stream has not delivered yet. */
    method Init()
      modifies this`gens
      requires gens == map[]
      ensures gens == Tally(Parse(file))
    {
      var rest := file;
      ghost var seen: seq<Target> := [];
      assert gens == Tally([]);
      while rest != ""
        invariant seen + Parse(rest) == Parse(file)
        invariant gens == Tally(seen)
        decreases |rest|
      {
        var n := ChunkLen(rest, CHUNK);
        var target := rest[..n - 1];
        TallyNext(seen, target);
        Shift(seen, target, Parse(rest[n..]));
        gens := gens[target := Up(GenOf(gens, target))];
        seen := seen + [target];
        rest := rest[n..];
      }
      assert seen + [] == seen;
    }

    method Increment(t: Target)
      modifies this
      ensures file == old(file) + Line(t) && gens == old(gens)[t := Up(GenOf(old(gens), t))]
    {
      file := file + Line(t);
      gens := gens[t := Up(GenOf(gens, t))];
    }

    /** FastForwardGeneration: down at once, or up one logged line at a time. */
    method FastForward(t: Target, g: Word)
      modifies this
      ensures GenOf(gens, t) == g && forall u :: u != t ==> GenOf(gens, u) == GenOf(old(gens), u)
      ensures file == old(file) + Render(Copies(t, if GenOf(old(gens), t) < g then g - GenOf(old(gens), t) else 0))
    {
      ghost var g0 := GenOf(gens, t);
      ghost var n := 0;
      if g < GenOf(gens, t) {
        gens := gens[t := g];
      }
      assert file == old(file) + Render(Copies(t, 0));
      while GenOf(gens, t) < g
        invariant GenOf(gens, t) <= g && GenOf(gens, t) == (if g < g0 then g else g0) + n
        invariant forall u :: u != t ==> GenOf(gens, u) == GenOf(old(gens), u)
        invariant file == old(file) + Render(Copies(t, n))
        decreases g - GenOf(gens, t)
      {
        CopiesNext(t, n);
        assert old(file) + Render(Copies(t, n)) + Line(t) == old(file) + Render(Copies(t, n + 1));
        EnforcerRuns.SmallMod(GenOf(gens, t) + 1);
        Increment(t);
        n := n + 1;
      }
    }
  }

  function Copies(t: Target, n: nat): seq<Target> {
    seq(n, _ => t)
  }

  lemma CopiesNext(t: Target, n: nat)
    ensures Render(Copies(t, n + 1)) == Render(Copies(t, n)) + Line(t)
  {
    assert Copies(t, n + 1)[..n] == Copies(t, n);
  }

  lemma Shift(a: seq<Target>, t: Target, b: seq<Target>)
    ensures a + ([t] + b) == a + [t] + b
  {
  }

  lemma ModNext(c: nat)
    ensures Up(c % LIMIT) == (c + 1) % LIMIT
  {
  }

  lemma TallyNext(lines: seq<Target>, t: Target)
    ensures Tally(lines + [t]) == Tally(lines)[t := Up(GenOf(Tally(lines), t))]
  {
    ModNext(Count(lines, t));
    assert (lines + [t])[..|lines|] == lines;
    CountNone(lines, t);
  }
}
