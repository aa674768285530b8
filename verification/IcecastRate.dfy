/** The measured rate of each source (src/icecast.rs:321-360): a window of
    samples slid at each read of the statistics; and the audience of one read
    (src/icecast.rs:193-204). */
module IcecastRate {
  import opened Base

  const WINDOW := 60
  const MIN_SPAN := 30

  datatype Source = Source(mount: string, start: Option<string>, bytes: Option<nat>, listeners: Option<U32>)

  /** One successful read of the statistics. */
  datatype Poll = Poll(at: int, sources: seq<Source>)

  datatype Sample = Sample(at: int, bytes: nat)

  /** Samples of one source, oldest first, under one stream start. */
  datatype Run = Run(start: Option<string>, samples: seq<Sample>)

  datatype Rate = Rate(bytes: int, span: int)

  // =====================================================================
  // Runs: what the window summarizes
  // =====================================================================

  /** A sample goes on with a run: same start, later, and no fewer bytes. */
  predicate Continues(run: Run, start: Option<string>, x: Sample) {
    && run.start == start
    && (run.samples != [] ==>
          run.samples[|run.samples| - 1].at < x.at && run.samples[|run.samples| - 1].bytes <= x.bytes)
  }

  function Extended(run: Option<Run>, start: Option<string>, x: Sample): (r: Run)
    ensures r.samples != []
  {
    if run.Some? && Continues(run.value, start, x) then Run(start, run.value.samples + [x]) else Run(start, [x])
  }

  predicate Counts(s: Source, m: string) { s.mount == m && s.bytes.Some? }

  /** The run of `m` after the first `n` sources of a read. The second entry of
      a mount starts over. */
  function RunIn(before: Option<Run>, p: Poll, n: nat, m: string): (r: Option<Run>)
    requires n <= |p.sources|
    ensures r.Some? ==> r.value.samples != []
  {
    if n == 0 then None
    else
      var s := p.sources[n - 1];
      var run := RunIn(before, p, n - 1, m);
      if !Counts(s, m) then run
      else Some(Extended(if run.None? then before else None, s.start, Sample(p.at, s.bytes.value)))
  }

  /** The uninterrupted run of `m` at the end of some reads. */
  function RunAfter(polls: seq<Poll>, m: string): (r: Option<Run>)
    ensures r.Some? ==> r.value.samples != []
  {
    if polls == [] then None
    else
      var p := polls[|polls| - 1];
      RunIn(RunAfter(polls[..|polls| - 1], m), p, |p.sources|, m)
  }

  ghost predicate Ordered(xs: seq<Sample>) {
    forall i, j :: 0 <= i < j < |xs| ==> xs[i].at < xs[j].at && xs[i].bytes <= xs[j].bytes
  }

  ghost predicate Proper(run: Option<Run>) { run.Some? ==> run.value.samples != [] && Ordered(run.value.samples) }

  lemma ExtendedIsProper(run: Option<Run>, start: Option<string>, x: Sample)
    requires Proper(run)
    ensures Proper(Some(Extended(run, start, x)))
  {
  }

  lemma {:induction false} RunInIsProper(before: Option<Run>, p: Poll, n: nat, m: string)
    requires Proper(before) && n <= |p.sources|
    ensures Proper(RunIn(before, p, n, m))
    ensures RunIn(before, p, n, m).Some? ==>
              RunIn(before, p, n, m).value.samples[|RunIn(before, p, n, m).value.samples| - 1].at == p.at
  {
    if n > 0 {
      RunInIsProper(before, p, n - 1, m);
      var s, run := p.sources[n - 1], RunIn(before, p, n - 1, m);
      if Counts(s, m) { ExtendedIsProper(if run.None? then before else None, s.start, Sample(p.at, s.bytes.value)); }
    }
  }

  /** In every run times strictly increase and bytes never decrease. */
  lemma {:induction false} RunsAreProper(polls: seq<Poll>, m: string)
    ensures Proper(RunAfter(polls, m))
    decreases |polls|
  {
    if polls != [] {
      var p := polls[|polls| - 1];
      RunsAreProper(polls[..|polls| - 1], m);
      RunInIsProper(RunAfter(polls[..|polls| - 1], m), p, |p.sources|, m);
    }
  }

  /** `p` read this sample of `m`. */
  ghost predicate Reads(p: Poll, m: string, start: Option<string>, x: Sample) {
    exists i :: 0 <= i < |p.sources| && p.sources[i].mount == m && p.sources[i].start == start &&
      p.sources[i].bytes == Some(x.bytes) && x.at == p.at
  }

  /** A run's samples are the reads of the last polls, one each, with nothing
      between. */
  ghost predicate ComesFrom(polls: seq<Poll>, m: string, run: Run) {
    && |run.samples| <= |polls|
    && forall i :: 0 <= i < |run.samples| ==> Reads(polls[|polls| - |run.samples| + i], m, run.start, run.samples[i])
  }

  lemma {:induction false} RunInReads(before: Option<Run>, p: Poll, n: nat, m: string)
    requires n <= |p.sources| && RunIn(before, p, n, m).Some?
    ensures var run := RunIn(before, p, n, m).value; var k := |run.samples| - 1;
            && k >= 0 && Reads(p, m, run.start, run.samples[k])
            && (k > 0 ==> before.Some? && run == Run(before.value.start, before.value.samples + [run.samples[k]]))
  {
    var s := p.sources[n - 1];
    if Counts(s, m) {
      assert p.sources[n - 1].bytes == Some(s.bytes.value);
    } else {
      RunInReads(before, p, n - 1, m);
    }
  }

  lemma {:induction false} RunComesFromLastPolls(polls: seq<Poll>, m: string)
    requires RunAfter(polls, m).Some?
    ensures ComesFrom(polls, m, RunAfter(polls, m).value)
    decreases |polls|
  {
    var earlier, p := polls[..|polls| - 1], polls[|polls| - 1];
    var before := RunAfter(earlier, m);
    RunInReads(before, p, |p.sources|, m);
    var run := RunAfter(polls, m).value;
    if |run.samples| > 1 {
      RunComesFromLastPolls(earlier, m);
      forall i | 0 <= i < |run.samples| - 1
        ensures Reads(polls[|polls| - |run.samples| + i], m, run.start, run.samples[i])
      {
        assert run.samples[i] == before.value.samples[i];
      }
    }
  }

  // =====================================================================
  // Windows
  // =====================================================================

  /** Where the window begins, looking from sample `k` on. */
  function Begin(xs: seq<Sample>, k: nat): (b: nat)
    requires k < |xs|
    ensures k <= b < |xs|
    decreases |xs| - k
  {
    if k + 1 < |xs| && xs[|xs| - 1].at - xs[k + 1].at >= WINDOW then Begin(xs, k + 1) else k
  }

  function Window(xs: seq<Sample>): seq<Sample>
    requires xs != []
  {
    xs[Begin(xs, 0)..]
  }

  /** The window begins at the latest sample at least a minute old, or at the
      start of the run when there is none. */
  lemma {:induction false} BeginIsLatest(xs: seq<Sample>, k: nat)
    requires k < |xs| && Ordered(xs) && (k > 0 ==> xs[|xs| - 1].at - xs[k].at >= WINDOW)
    ensures var b := Begin(xs, k); b > 0 ==> xs[|xs| - 1].at - xs[b].at >= WINDOW
    ensures forall i :: Begin(xs, k) < i < |xs| ==> xs[|xs| - 1].at - xs[i].at < WINDOW
    decreases |xs| - k
  {
    if k + 1 < |xs| && xs[|xs| - 1].at - xs[k + 1].at >= WINDOW { BeginIsLatest(xs, k + 1); }
  }

  /** A window slid again and again is the window of the whole run. */
  lemma {:induction false} SlideGoesOn(xs: seq<Sample>, x: Sample, k: nat)
    requires xs != [] && Ordered(xs + [x]) && k <= Begin(xs, 0)
    ensures Begin(xs + [x], 0) == Begin(xs + [x], k)
    decreases k
  {
    if k > 0 {
      SlideGoesOn(xs, x, k - 1);
      assert Ordered(xs) by {
        forall i, j | 0 <= i < j < |xs| ensures xs[i].at < xs[j].at && xs[i].bytes <= xs[j].bytes {
          assert (xs + [x])[i] == xs[i] && (xs + [x])[j] == xs[j];
        }
      }
      BeginIsLatest(xs, 0);
      var b := Begin(xs, 0);
      assert (xs + [x])[k] == xs[k] && (xs + [x])[|xs|] == x;
      assert xs[|xs| - 1].at < x.at by { assert (xs + [x])[|xs| - 1] == xs[|xs| - 1]; }
    }
  }

  lemma {:induction false} BeginOfSuffix(xs: seq<Sample>, d: nat, k: nat)
    requires d + k < |xs|
    ensures Begin(xs[d..], k) + d == Begin(xs, d + k)
    decreases |xs| - k
  {
    if d + k + 1 < |xs| && xs[|xs| - 1].at - xs[d + k + 1].at >= WINDOW { BeginOfSuffix(xs, d, k + 1); }
  }

  lemma WindowSlides(xs: seq<Sample>, x: Sample)
    requires xs != [] && Ordered(xs + [x])
    ensures Window(xs + [x]) == Window(Window(xs) + [x])
  {
    var d := Begin(xs, 0);
    SlideGoesOn(xs, x, d);
    assert (xs + [x])[d..] == Window(xs) + [x];
    BeginOfSuffix(xs + [x], d, 0);
  }

  /** `record`'s inner loop. */
  method Slide(win: seq<Sample>) returns (slid: seq<Sample>)
    requires win != []
    ensures slid == Window(win)
  {
    slid := win;
    ghost var k := 0;
    while |slid| > 1 && slid[|slid| - 1].at - slid[1].at >= WINDOW
      invariant k < |win| && slid == win[k..] && Begin(win, k) == Begin(win, 0)
      decreases |slid|
    {
      slid := slid[1..];
      k := k + 1;
    }
  }

  // =====================================================================
  // The health record
  // =====================================================================

  function At<V>(m: map<string, V>, k: string): Option<V> { if k in m then Some(m[k]) else None }

  /** A run, cut to its window. */
  function Kept(run: Option<Run>): (r: Option<Run>)
    requires run.Some? ==> run.value.samples != []
    ensures r.Some? ==> r.value.samples != []
  {
    if run.None? then None else Some(Run(run.value.start, Window(run.value.samples)))
  }

  /** The rate a window shows, once it spans half a minute: bytes over
      seconds. */
  function RateOf(win: seq<Sample>): Option<Rate>
    requires win != []
  {
    var first, last := win[0], win[|win| - 1];
    if last.at - first.at >= MIN_SPAN then Some(Rate(last.bytes - first.bytes, last.at - first.at)) else None
  }

  lemma WindowIsOrdered(xs: seq<Sample>)
    requires xs != [] && Ordered(xs)
    ensures Window(xs) != [] && Ordered(Window(xs)) && Window(xs)[|Window(xs)| - 1] == xs[|xs| - 1]
  {
  }

  /** Extending a run and extending its window agree. */
  lemma KeptExtends(run: Option<Run>, start: Option<string>, x: Sample)
    requires Proper(run)
    ensures Kept(Some(Extended(run, start, x))) == Kept(Some(Extended(Kept(run), start, x)))
  {
    ExtendedIsProper(run, start, x);
    if run.Some? {
      var xs, win := run.value.samples, Window(run.value.samples);
      WindowIsOrdered(xs);
      if Continues(run.value, start, x) {
        assert Extended(run, start, x) == Run(start, xs + [x]);
        assert Extended(Kept(run), start, x) == Run(start, win + [x]);
        WindowSlides(xs, x);
      }
    }
  }

  /** The first of the first `n` sources that is `m`. */
  function First(p: Poll, n: nat, m: string): (s: Option<Source>)
    requires n <= |p.sources|
    ensures s.Some? ==> Counts(s.value, m)
  {
    if n == 0 then None
    else if First(p, n - 1, m).Some? then First(p, n - 1, m)
    else if Counts(p.sources[n - 1], m) then Some(p.sources[n - 1])
    else None
  }

  /** The rate of `m`: over the window that ends at its first entry. */
  function RateIn(before: Option<Run>, p: Poll, n: nat, m: string): Option<Rate>
    requires n <= |p.sources|
  {
    match First(p, n, m)
    case None => None
    case Some(s) => RateOf(Window(Extended(before, s.start, Sample(p.at, s.bytes.value)).samples))
  }

  lemma {:induction false} FirstBeginsTheRun(before: Option<Run>, p: Poll, n: nat, m: string)
    requires n <= |p.sources|
    ensures First(p, n, m).None? <==> RunIn(before, p, n, m).None?
  {
    if n > 0 { FirstBeginsTheRun(before, p, n - 1, m); }
  }

  /** A shown rate is defined: it spans half a minute at least, and its bytes
      never decreased. */
  lemma RatesAreDefined(polls: seq<Poll>, p: Poll, m: string)
    ensures var r := RateIn(RunAfter(polls, m), p, |p.sources|, m);
            r.Some? ==> r.value.span >= MIN_SPAN && r.value.bytes >= 0
  {
    RunsAreProper(polls, m);
    if First(p, |p.sources|, m).Some? {
      var s := First(p, |p.sources|, m).value;
      var x := Sample(p.at, s.bytes.value);
      ExtendedIsProper(RunAfter(polls, m), s.start, x);
      WindowIsOrdered(Extended(RunAfter(polls, m), s.start, x).samples);
    }
  }

  // ----- a mount listed twice -----------------------------------------

  /** How many of the first `n` sources are `m`. */
  function Entries(p: Poll, n: nat, m: string): nat
    requires n <= |p.sources|
  {
    if n == 0 then 0 else Entries(p, n - 1, m) + if Counts(p.sources[n - 1], m) then 1 else 0
  }

  /** A second entry of the mount starts its run over. */
  lemma {:induction false} SecondEntryStartsOver(before: Option<Run>, p: Poll, n: nat, m: string)
    requires n <= |p.sources|
    ensures Entries(p, n, m) == 0 <==> First(p, n, m).None?
    ensures Entries(p, n, m) == 1 ==>
              var s := First(p, n, m).value;
              RunIn(before, p, n, m) == Some(Extended(before, s.start, Sample(p.at, s.bytes.value)))
    ensures Entries(p, n, m) > 1 ==> RunIn(before, p, n, m).Some? && |RunIn(before, p, n, m).value.samples| == 1
  {
    if n > 0 {
      SecondEntryStartsOver(before, p, n - 1, m);
      FirstBeginsTheRun(before, p, n - 1, m);
    }
  }

  /** The run goes on, and began at least half a minute before. */
  predicate LongEnough(before: Option<Run>, s: Source, at: int)
    requires s.bytes.Some? && (before.Some? ==> before.value.samples != [])
  {
    && before.Some? && Continues(before.value, s.start, Sample(at, s.bytes.value))
    && at - before.value.samples[0].at >= MIN_SPAN
  }

  /** A rate is shown exactly once the run of the first entry lasts half a
      minute. */
  lemma RateIsShown(before: Option<Run>, p: Poll, m: string)
    requires Proper(before) && First(p, |p.sources|, m).Some?
    ensures RateIn(before, p, |p.sources|, m).Some? <==> LongEnough(before, First(p, |p.sources|, m).value, p.at)
  {
    var s := First(p, |p.sources|, m).value;
    var x := Sample(p.at, s.bytes.value);
    ExtendedIsProper(before, s.start, x);
    BeginIsLatest(Extended(before, s.start, x).samples, 0);
  }

  /** The rate shown is that of the window kept exactly when the mount is
      listed once, or its first entry shows none. */
  lemma ShowsTheWindowKept(polls: seq<Poll>, p: Poll, m: string)
    ensures var before, after := RunAfter(polls, m), RunAfter(polls + [p], m); var first := First(p, |p.sources|, m);
            && (after.None? <==> first.None?)
            && (after.Some? ==>
                  (RateIn(before, p, |p.sources|, m) == RateOf(Kept(after).value.samples)
                   <==> Entries(p, |p.sources|, m) == 1 || !LongEnough(before, first.value, p.at)))
  {
    assert (polls + [p])[..|polls|] == polls;
    RunsAreProper(polls, m);
    FirstBeginsTheRun(RunAfter(polls, m), p, |p.sources|, m);
    SecondEntryStartsOver(RunAfter(polls, m), p, |p.sources|, m);
    if First(p, |p.sources|, m).Some? { RateIsShown(RunAfter(polls, m), p, m); }
  }

  /** Such as a mount read at 0, then twice at 40: the rate shown is over 40
      seconds, and the window kept is of one sample. */
  lemma ListedTwice()
    ensures var polls := [Poll(0, [Source("m", None, Some(0), None)])];
            var p := Poll(40, [Source("m", None, Some(10), None), Source("m", None, Some(20), None)]);
            && RateIn(RunAfter(polls, "m"), p, 2, "m") == Some(Rate(10, 40))
            && RunAfter(polls + [p], "m") == Some(Run(None, [Sample(40, 20)]))
            && RateOf([Sample(40, 20)]).None?
  {
    var first := Poll(0, [Source("m", None, Some(0), None)]);
    var p := Poll(40, [Source("m", None, Some(10), None), Source("m", None, Some(20), None)]);
    assert RunIn(None, first, 0, "m") == None;
    assert RunIn(None, first, 1, "m") == Some(Run(None, [Sample(0, 0)]));
    assert [first][..0] == [] && ([first] + [p])[..1] == [first];
    var before := RunAfter([first], "m");
    assert First(p, 1, "m") == Some(p.sources[0]) by { assert First(p, 0, "m").None?; }
    assert First(p, 2, "m") == Some(p.sources[0]);
    assert RunIn(before, p, 0, "m") == None;
    assert RunIn(before, p, 1, "m").Some?;
  }

  /** One source of a read, measured against the window kept for it. */
  function Measured(kept: Option<Run>, s: Source, at: int): Run
    requires s.bytes.Some? && (kept.Some? ==> kept.value.samples != [])
  {
    Run(s.start, Window(Extended(kept, s.start, Sample(at, s.bytes.value)).samples))
  }

  method Measure(s: Source, at: int, kept: Option<Run>) returns (run: Run, rate: Option<Rate>)
    requires s.bytes.Some? && (kept.Some? ==> kept.value.samples != [])
    ensures run == Measured(kept, s, at) && run.samples != [] && rate == RateOf(run.samples)
  {
    var x := Sample(at, s.bytes.value);
    var win := if kept.Some? && Continues(kept.value, s.start, x) then kept.value.samples else [];
    win := Slide(win + [x]);
    run := Run(s.start, win);
    rate := RateOf(win);
  }

  /** What one more source changes for a mount. */
  lemma OneMoreSource(before: Option<Run>, p: Poll, i: nat, m: string)
    requires i < |p.sources| && Proper(before)
    ensures var s, run := p.sources[i], RunIn(before, p, i, m);
            && (!Counts(s, m) ==>
                  RunIn(before, p, i + 1, m) == run && RateIn(before, p, i + 1, m) == RateIn(before, p, i, m))
            && (Counts(s, m) ==>
                  var kept := Measured(if run.None? then Kept(before) else None, s, p.at);
                  && Kept(RunIn(before, p, i + 1, m)) == Some(kept)
                  && RateIn(before, p, i + 1, m) == if run.None? then RateOf(kept.samples) else RateIn(before, p, i, m))
    ensures RunIn(before, p, i, m).Some? && Counts(p.sources[i], m) ==>
              RateOf(Measured(None, p.sources[i], p.at).samples).None?
    ensures RunIn(before, p, i, m).None? ==> RateIn(before, p, i, m).None?
  {
    FirstBeginsTheRun(before, p, i, m);
    var s := p.sources[i];
    if Counts(s, m) { KeptExtends(before, s.start, Sample(p.at, s.bytes.value)); }
  }

  /** The three maps of `record` at one mount, after `i` sources. */
  ghost predicate Tracks(
    before: Option<Run>, p: Poll, i: nat, m: string, left: Option<Run>, next: Option<Run>, shown: Option<Rate>)
    requires i <= |p.sources| && (before.Some? ==> before.value.samples != [])
  {
    && next == Kept(RunIn(before, p, i, m))
    && left == (if RunIn(before, p, i, m).None? then Kept(before) else None)
    && shown == RateIn(before, p, i, m)
  }

  lemma TracksOneMore(
    before: Option<Run>, p: Poll, i: nat, m: string, left: Option<Run>, next: Option<Run>, shown: Option<Rate>)
    requires i < |p.sources| && Proper(before) && Tracks(before, p, i, m, left, next, shown)
    ensures !Counts(p.sources[i], m) ==> Tracks(before, p, i + 1, m, left, next, shown)
    ensures left.Some? ==> left.value.samples != []
    ensures Counts(p.sources[i], m) ==>
              var kept := Measured(left, p.sources[i], p.at); var rate := RateOf(kept.samples);
              Tracks(before, p, i + 1, m, None, Some(kept), if rate.Some? then rate else shown)
  {
    OneMoreSource(before, p, i, m);
  }

  /** One turn of `record`'s loop. */
  method Entry(
    ghost seen: seq<Poll>, p: Poll, i: nat, left0: map<string, Run>, next0: map<string, Run>, shown0: map<string, Rate>)
    returns (left: map<string, Run>, next: map<string, Run>, shown: map<string, Rate>)
    requires i < |p.sources| && forall m :: Proper(RunAfter(seen, m))
    requires forall m :: Tracks(RunAfter(seen, m), p, i, m, At(left0, m), At(next0, m), At(shown0, m))
    ensures forall m :: Tracks(RunAfter(seen, m), p, i + 1, m, At(left, m), At(next, m), At(shown, m))
  {
    left, next, shown := left0, next0, shown0;
    var s := p.sources[i];
    TracksOneMore(RunAfter(seen, s.mount), p, i, s.mount, At(left, s.mount), At(next, s.mount), At(shown, s.mount));
    if s.bytes.Some? {
      var run, rate := Measure(s, p.at, At(left, s.mount));
      left := left - {s.mount};
      next := next[s.mount := run];
      if rate.Some? { shown := shown[s.mount := rate.value]; }
    }
    forall m ensures Tracks(RunAfter(seen, m), p, i + 1, m, At(left, m), At(next, m), At(shown, m)) {
      if m != s.mount {
        assert At(left, m) == At(left0, m) && At(next, m) == At(next0, m) && At(shown, m) == At(shown0, m);
        TracksOneMore(RunAfter(seen, m), p, i, m, At(left0, m), At(next0, m), At(shown0, m));
      }
    }
  }

  class Health {
    var history: map<string, Run>
    var rates: map<string, Rate>
    /** Every successful read. */
    ghost var polls: seq<Poll>

    /** Each mount's window is the window of its uninterrupted run. */
    ghost predicate Valid()
      reads this
    {
      forall m :: At(history, m) == Kept(RunAfter(polls, m))
    }

    constructor ()
      ensures Valid() && polls == []
    {
      history, rates, polls := map[], map[], [];
    }

    method Record(p: Poll)
      requires Valid()
      modifies this
      ensures Valid() && polls == old(polls) + [p]
      ensures forall m :: At(rates, m) == RateIn(RunAfter(old(polls), m), p, |p.sources|, m)
    {
      ghost var seen := polls;
      var left, next: map<string, Run>, shown: map<string, Rate> := history, map[], map[];
      forall m ensures Proper(RunAfter(seen, m)) { RunsAreProper(seen, m); }
      for i := 0 to |p.sources|
        invariant polls == seen
        invariant forall m :: Tracks(RunAfter(seen, m), p, i, m, At(left, m), At(next, m), At(shown, m))
      {
        left, next, shown := Entry(seen, p, i, left, next, shown);
      }
      history, rates, polls := next, shown, polls + [p];
      assert polls[..|polls| - 1] == seen;
    }
  }

  // =====================================================================
  // The audience
  // =====================================================================

  const U32_MAX: int := 0xFFFF_FFFF

  datatype Unknown = Absent(mount: string) | NoSource(mount: string) | NoCount(mount: string)

  /** The first source of a mount. */
  function SourceOf(sources: seq<Source>, m: string): (s: Option<Source>)
    ensures s.Some? ==> s.value in sources && s.value.mount == m
    ensures s.None? <==> forall x <- sources :: x.mount != m
  {
    if sources == [] then None else if sources[0].mount == m then Some(sources[0]) else SourceOf(sources[1..], m)
  }

  predicate Known(sources: seq<Source>, m: string) {
    var s := SourceOf(sources, m);
    s.Some? && s.value.start.Some? && s.value.listeners.Some?
  }

  function Listeners(sources: seq<Source>, mounts: seq<string>): nat
    requires forall m <- mounts :: Known(sources, m)
  {
    if mounts == [] then 0
    else
      var n := |mounts| - 1;
      assert mounts[n] in mounts && Known(sources, mounts[n]);
      Listeners(sources, mounts[..n]) + SourceOf(sources, mounts[n]).value.listeners.value
  }

  /** Why the first mount that is not known is not. */
  ghost predicate Explains(e: Unknown, sources: seq<Source>, mounts: seq<string>) {
    exists i :: 0 <= i < |mounts| && mounts[i] == e.mount && (forall m <- mounts[..i] :: Known(sources, m))
      && match e
         case Absent(m) => SourceOf(sources, m).None?
         case NoSource(m) => SourceOf(sources, m).Some? && SourceOf(sources, m).value.start.None?
         case NoCount(m) =>
           SourceOf(sources, m).Some? && SourceOf(sources, m).value.start.Some? &&
             SourceOf(sources, m).value.listeners.None?
  }

  /** `audience`: all our mounts or nothing, never a partial sum. */
  method Audience(sources: seq<Source>, mounts: seq<string>) returns (r: Result<U32, Unknown>)
    ensures r.Ok? <==> forall m <- mounts :: Known(sources, m)
    ensures r.Ok? ==> r.value == Min(U32_MAX, Listeners(sources, mounts))
    ensures r.Err? ==> Explains(r.error, sources, mounts)
  {
    var total: U32 := 0;
    for i := 0 to |mounts|
      invariant forall m <- mounts[..i] :: Known(sources, m)
      invariant total == Min(U32_MAX, Listeners(sources, mounts[..i]))
    {
      assert mounts[..i + 1][..i] == mounts[..i] && mounts[..i + 1] == mounts[..i] + [mounts[i]];
      assert mounts[i] in mounts;
      var m := mounts[i];
      var s := SourceOf(sources, m);
      if s.None? { return Err(Absent(m)); }
      if s.value.start.None? { return Err(NoSource(m)); }
      if s.value.listeners.None? { return Err(NoCount(m)); }
      total := Min(total + s.value.listeners.value, U32_MAX);
    }
    assert mounts[..|mounts|] == mounts;
    r := Ok(total);
  }
}
