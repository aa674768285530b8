/** Air time: wall time minus the station's halts (src/air_time.rs).

    `Halted` and `Aired` say, second by second, what a listener heard; they know
    nothing of the walk back over the halts that computes a cutoff, nor of the
    order in which the halts were written. */
module AirTime {
  import opened Base

  /** One row of `broadcast_halt`; no `end` means the halt is still open. */
  datatype Halt = Halt(start: int, end: Option<int>)

  predicate Covers(h: Halt, t: int) {
    h.start <= t && (h.end.Some? ==> t < h.end.value)
  }

  ghost predicate Halted(halts: seq<Halt>, t: int) {
    exists h <- halts :: Covers(h, t)
  }

  /** How many seconds of [a, b) are in no halt. */
  ghost function Aired(halts: seq<Halt>, a: int, b: int): nat
    decreases b - a
  {
    if a >= b then 0 else (if Halted(halts, a) then 0 else 1) + Aired(halts, a + 1, b)
  }

  /** `c` is the latest instant, not before the first one an i64 can hold, from
      which `window` seconds of air time reach `now`; it is exact unless that
      first instant stopped it. */
  ghost predicate IsCutoff(halts: seq<Halt>, now: int, window: int, c: int) {
    && I64_MIN <= c <= now
    && Aired(halts, c, now) <= Max(window, 0)
    && (c > I64_MIN ==> Aired(halts, c, now) == Max(window, 0))
    && (forall t :: c < t <= now ==> Aired(halts, t, now) < window)
  }

  // ----- the measure -----

  lemma {:induction false} AiredSplits(halts: seq<Halt>, a: int, b: int, c: int)
    requires a <= b <= c
    ensures Aired(halts, a, c) == Aired(halts, a, b) + Aired(halts, b, c)
    decreases b - a
  {
    if a < b { AiredSplits(halts, a + 1, b, c); }
  }

  lemma {:induction false} AllAired(halts: seq<Halt>, a: int, b: int)
    requires a <= b
    requires forall t :: a <= t < b ==> !Halted(halts, t)
    ensures Aired(halts, a, b) == b - a
    decreases b - a
  {
    if a < b { AllAired(halts, a + 1, b); }
  }

  lemma {:induction false} AllHalted(halts: seq<Halt>, a: int, b: int)
    requires a <= b
    requires forall t :: a <= t < b ==> Halted(halts, t)
    ensures Aired(halts, a, b) == 0
    decreases b - a
  {
    if a < b { AllHalted(halts, a + 1, b); }
  }

  lemma {:induction false} SameHalts(xs: seq<Halt>, ys: seq<Halt>, a: int, b: int)
    requires forall t :: a <= t < b ==> (Halted(xs, t) <==> Halted(ys, t))
    ensures Aired(xs, a, b) == Aired(ys, a, b)
    decreases b - a
  {
    if a < b { SameHalts(xs, ys, a + 1, b); }
  }

  lemma {:induction false} AiredIsElapsed(halts: seq<Halt>, a: int, b: int)
    requires a <= b
    ensures Aired(halts, a, b) <= b - a
    decreases b - a
  {
    if a < b { AiredIsElapsed(halts, a + 1, b); }
  }

  lemma CutoffIsUnique(halts: seq<Halt>, now: int, window: int, c: int, d: int)
    requires IsCutoff(halts, now, window, c) && IsCutoff(halts, now, window, d)
    ensures c == d
  {
  }

  // ----- the walk -----

  /** The last stretch before the answer is all aired, so its start is a cutoff. */
  lemma StretchEndsTheWalk(halts: seq<Halt>, now: int, window: int, cursor: int, left: int, c: int)
    requires cursor <= now && 0 <= left && I64_MIN <= c <= cursor
    requires c == Max(cursor - left, I64_MIN)
    requires forall t :: c <= t < cursor ==> !Halted(halts, t)
    requires Aired(halts, cursor, now) + left == Max(window, 0)
    requires forall t :: cursor < t <= now ==> Aired(halts, t, now) < window
    requires left == 0 ==> cursor == now
    ensures IsCutoff(halts, now, window, c)
  {
    AiredSplits(halts, c, cursor, now);
    AllAired(halts, c, cursor);
    forall t | c < t <= now ensures Aired(halts, t, now) < window {
      if t <= cursor {
        AiredSplits(halts, t, cursor, now);
        AllAired(halts, t, cursor);
      }
    }
  }

  /** Walking over one halt [start, end) and the aired stretch [end, cursor)
      after it. */
  lemma StepOverHalt(halts: seq<Halt>, now: int, window: int, start: int, end: int, cursor: int, left: int)
    requires start <= end <= cursor <= now
    requires cursor - end < left
    requires forall t :: start <= t < end ==> Halted(halts, t)
    requires forall t :: end <= t < cursor ==> !Halted(halts, t)
    requires Aired(halts, cursor, now) + left == Max(window, 0)
    requires forall t :: cursor < t <= now ==> Aired(halts, t, now) < window
    ensures Aired(halts, start, now) + left - (cursor - end) == Max(window, 0)
    ensures forall t :: start < t <= now ==> Aired(halts, t, now) < window
  {
    AiredSplits(halts, start, cursor, now);
    AiredSplits(halts, start, end, cursor);
    AllHalted(halts, start, end);
    AllAired(halts, end, cursor);
    forall t | start < t <= now ensures Aired(halts, t, now) < window {
      if t <= end {
        AiredSplits(halts, t, end, now);
        AiredSplits(halts, end, cursor, now);
        AllHalted(halts, t, end);
      } else if t <= cursor {
        AiredSplits(halts, t, cursor, now);
        AllAired(halts, t, cursor);
      }
    }
  }

  /** What is left of the walk: the halts not seen yet, where it is, and how
      much air time it still has to cover. */
  function Walk(halts: seq<Halt>, now: int, cursor: int, left: int): int {
    if halts == [] then Max(cursor - left, I64_MIN)
    else
      var Halt(start, ending) := halts[0];
      if start >= cursor then Walk(halts[1..], now, cursor, left)
      else
        var end := EndBefore(halts[0], now, cursor);
        if cursor - end >= left then cursor - left else Walk(halts[1..], now, start, left - (cursor - end))
  }

  /** Where a halt ends, seen from the cursor; an open one runs to `now`. */
  function EndBefore(h: Halt, now: int, cursor: int): int {
    Max(Min(if h.end.Some? then h.end.value else now, cursor), h.start)
  }

  /** The answer to a query. */
  function CutoffOf(halts: seq<Halt>, now: int, window: int): int { Walk(halts, now, now, Max(window, 0)) }

  /** The loop over the halts. */
  method CutoffFrom(halts: seq<Halt>, now: int, window: int) returns (c: int)
    requires I64_MIN <= now && forall h <- halts :: I64_MIN <= h.start
    ensures c == CutoffOf(halts, now, window)
    ensures NewestFirst(halts) && NewestTells(halts) ==> IsCutoff(halts, now, window, c)
  {
    var cursor := now;
    var left := Max(window, 0);
    var i := 0;
    while i < |halts|
      invariant 0 <= i <= |halts|
      invariant Walk(halts[i..], now, cursor, left) == CutoffOf(halts, now, window)
    {
      var Halt(start, ending) := halts[i];
      assert halts[i..][0] == halts[i] && halts[i..][1..] == halts[i + 1..];
      if start < cursor {
        var end := Max(Min(if ending.Some? then ending.value else now, cursor), start);
        var aired := cursor - end;
        if aired >= left {
          c := cursor - left;
          if NewestFirst(halts) && NewestTells(halts) { WalkIsExact(halts, now, window); }
          return;
        }
        left := left - aired;
        cursor := start;
      }
      i := i + 1;
    }
    c := Max(cursor - left, I64_MIN);
    if NewestFirst(halts) && NewestTells(halts) { WalkIsExact(halts, now, window); }
  }

  // ----- exactly when the walk is right -----

  /** As the query sorts them, in any order where starts are equal; none ends
      before it starts. */
  ghost predicate NewestFirst(halts: seq<Halt>) {
    && (forall h <- halts :: h.end.Some? ==> h.start <= h.end.value)
    && (forall i, j :: 0 <= i < j < |halts| ==> halts[j].start <= halts[i].start)
  }

  /** When halt `i` ends, no newer one has begun. */
  predicate EndsNewest(halts: seq<Halt>, i: nat)
    requires i < |halts|
  {
    halts[i].end.Some? && (i > 0 ==> halts[i].end.value < halts[i - 1].start)
  }

  /** When a halt ends and no newer one has begun, every older one is over. */
  predicate NewestTells(halts: seq<Halt>) {
    forall i, j :: 0 <= i < j < |halts| && EndsNewest(halts, i) ==>
      halts[j].end.Some? && halts[j].end.value <= halts[i].end.value
  }

  /** Most recent first and pairwise disjoint. */
  ghost predicate DisjointNewestFirst(halts: seq<Halt>) {
    && (forall h <- halts :: h.end.Some? ==> h.start <= h.end.value)
    && (forall i, j :: 0 <= i < j < |halts| ==>
         halts[j].end.Some? && halts[j].end.value <= halts[i].start)
  }

  /** Disjoint halts are one case. */
  lemma DisjointTells(halts: seq<Halt>)
    requires DisjointNewestFirst(halts)
    ensures NewestFirst(halts) && NewestTells(halts)
  {
    forall i, j | 0 <= i < j < |halts| ensures halts[j].start <= halts[i].start {
      assert halts[j] in halts;
    }
    forall i, j | 0 <= i < j < |halts| && EndsNewest(halts, i)
      ensures halts[j].end.Some? && halts[j].end.value <= halts[i].end.value
    {
      assert halts[i] in halts;
    }
  }

  /** Between the end of the halt just met and the cursor nothing is halted. */
  lemma StretchIsAired(halts: seq<Halt>, i: nat, now: int, cursor: int, t: int)
    requires NewestFirst(halts) && NewestTells(halts) && i < |halts| && cursor <= now
    requires halts[i].start < cursor && forall k :: 0 <= k < i ==> cursor <= halts[k].start
    requires EndBefore(halts[i], now, cursor) <= t < cursor
    ensures !Halted(halts, t)
  {
    assert halts[i] in halts;
    assert EndsNewest(halts, i);
    forall h | h in halts ensures !Covers(h, t) {
      var k :| 0 <= k < |halts| && halts[k] == h;
    }
  }

  /** The walk before halt `i`: the air time from the cursor on is covered, and
      what was passed over begins there or later. */
  ghost predicate Walking(halts: seq<Halt>, i: nat, now: int, window: int, cursor: int, left: int)
    requires i <= |halts|
  {
    && I64_MIN <= cursor <= now && 0 <= left && (left == 0 ==> cursor == now)
    && Aired(halts, cursor, now) + left == Max(window, 0)
    && (forall t :: cursor < t <= now ==> Aired(halts, t, now) < window)
    && (forall k :: 0 <= k < i ==> cursor <= halts[k].start)
  }

  ghost predicate Walkable(halts: seq<Halt>) {
    NewestFirst(halts) && NewestTells(halts) && forall h <- halts :: I64_MIN <= h.start
  }

  lemma WalkEnds(halts: seq<Halt>, now: int, window: int, cursor: int, left: int)
    requires Walking(halts, |halts|, now, window, cursor, left)
    ensures IsCutoff(halts, now, window, Max(cursor - left, I64_MIN))
  {
    forall t | t < cursor ensures !Halted(halts, t) {
      forall h | h in halts ensures !Covers(h, t) { var k :| 0 <= k < |halts| && halts[k] == h; }
    }
    StretchEndsTheWalk(halts, now, window, cursor, left, Max(cursor - left, I64_MIN));
  }

  lemma WalkStops(halts: seq<Halt>, i: nat, now: int, window: int, cursor: int, left: int)
    requires i < |halts| && Walkable(halts) && Walking(halts, i, now, window, cursor, left)
    requires halts[i].start < cursor && cursor - EndBefore(halts[i], now, cursor) >= left
    ensures IsCutoff(halts, now, window, cursor - left)
  {
    assert halts[i] in halts;
    forall t | EndBefore(halts[i], now, cursor) <= t < cursor ensures !Halted(halts, t) {
      StretchIsAired(halts, i, now, cursor, t);
    }
    StretchEndsTheWalk(halts, now, window, cursor, left, cursor - left);
  }

  lemma WalkStepsOver(halts: seq<Halt>, i: nat, now: int, window: int, cursor: int, left: int)
    requires i < |halts| && Walkable(halts) && Walking(halts, i, now, window, cursor, left)
    requires halts[i].start < cursor && cursor - EndBefore(halts[i], now, cursor) < left
    ensures Walking(halts, i + 1, now, window, halts[i].start, left - (cursor - EndBefore(halts[i], now, cursor)))
  {
    var start, end := halts[i].start, EndBefore(halts[i], now, cursor);
    assert halts[i] in halts;
    forall t | end <= t < cursor ensures !Halted(halts, t) { StretchIsAired(halts, i, now, cursor, t); }
    forall t | start <= t < end ensures Halted(halts, t) { assert Covers(halts[i], t); }
    StepOverHalt(halts, now, window, start, end, cursor, left);
  }

  /** The walk from halt `i` on. */
  lemma {:induction false} WalkGoesOn(halts: seq<Halt>, i: nat, now: int, window: int, cursor: int, left: int)
    requires i <= |halts| && Walkable(halts) && Walking(halts, i, now, window, cursor, left)
    ensures IsCutoff(halts, now, window, Walk(halts[i..], now, cursor, left))
    decreases |halts| - i
  {
    if i == |halts| {
      WalkEnds(halts, now, window, cursor, left);
    } else {
      assert halts[i..][0] == halts[i] && halts[i..][1..] == halts[i + 1..];
      var aired := cursor - EndBefore(halts[i], now, cursor);
      if halts[i].start >= cursor {
        WalkGoesOn(halts, i + 1, now, window, cursor, left);
      } else if aired >= left {
        WalkStops(halts, i, now, window, cursor, left);
      } else {
        WalkStepsOver(halts, i, now, window, cursor, left);
        WalkGoesOn(halts, i + 1, now, window, halts[i].start, left - aired);
      }
    }
  }

  lemma WalkIsExact(halts: seq<Halt>, now: int, window: int)
    requires Walkable(halts) && I64_MIN <= now
    ensures IsCutoff(halts, now, window, CutoffOf(halts, now, window))
  {
    assert halts[0..] == halts;
    WalkGoesOn(halts, 0, now, window, now, Max(window, 0));
  }

  /** The walk passes over what begins at the cursor or after it. */
  lemma {:induction false} WalkSkips(halts: seq<Halt>, i: nat, now: int, cursor: int, left: int)
    requires i <= |halts| && forall k :: 0 <= k < i ==> cursor <= halts[k].start
    ensures Walk(halts, now, cursor, left) == Walk(halts[i..], now, cursor, left)
    decreases i
  {
    if i == 0 {
      assert halts[0..] == halts;
    } else {
      WalkSkips(halts[1..], i - 1, now, cursor, left);
      assert halts[1..][i - 1..] == halts[i..];
    }
  }

  /** A halt that ends newest while an older one goes on: asked just before the
      next, for the time since that end, the walk stops at the end. */
  lemma OlderGoesOn(halts: seq<Halt>, i: nat, j: nat) returns (now: int, window: int)
    requires NewestFirst(halts) && i < j < |halts| && EndsNewest(halts, i)
    requires forall h <- halts :: I64_MIN < h.start
    requires halts[j].end.None? || halts[j].end.value > halts[i].end.value
    ensures I64_MIN <= now && !IsCutoff(halts, now, window, CutoffOf(halts, now, window))
  {
    var end := halts[i].end.value;
    now := if i > 0 then halts[i - 1].start else end + 1;
    window := now - end;
    assert halts[i] in halts && halts[j] in halts;
    WalkSkips(halts, i, now, now, window);
    assert halts[i..][0] == halts[i];
    assert CutoffOf(halts, now, window) == end;
    assert Covers(halts[j], end);
    AiredIsElapsed(halts, end + 1, now);
  }

  ghost predicate AlwaysExact(halts: seq<Halt>) {
    forall now, window :: I64_MIN <= now ==> IsCutoff(halts, now, window, CutoffOf(halts, now, window))
  }

  /** Of halts as the query sorts them, every cutoff is right exactly when, each
      time a halt ends with no newer one begun, every older one is over. */
  lemma WalkIsExactly(halts: seq<Halt>)
    requires NewestFirst(halts) && forall h <- halts :: I64_MIN < h.start
    ensures AlwaysExact(halts) <==> NewestTells(halts)
  {
    if NewestTells(halts) {
      forall now, window | I64_MIN <= now ensures IsCutoff(halts, now, window, CutoffOf(halts, now, window)) {
        WalkIsExact(halts, now, window);
      }
    } else {
      var i, j :| 0 <= i < j < |halts| && EndsNewest(halts, i)
        && !(halts[j].end.Some? && halts[j].end.value <= halts[i].end.value);
      var now, window := OlderGoesOn(halts, i, j);
    }
  }

  // ----- the table -----

  /** In start order, disjoint, and only the last row may be open. */
  ghost predicate Ordered(rows: seq<Halt>) {
    && (forall r <- rows :: r.end.Some? ==> r.start <= r.end.value)
    && (forall i, j :: 0 <= i < j < |rows| ==> rows[i].end.Some? && rows[i].end.value <= rows[j].start)
  }

  predicate HasOpen(rows: seq<Halt>) { exists r <- rows :: r.end.None? }

  function Closed(r: Halt, at: int): Halt {
    if r.end.None? then r.(end := Some(Max(at, r.start))) else r
  }

  function AllClosed(rows: seq<Halt>, at: int): (r: seq<Halt>)
    ensures |r| == |rows|
  {
    seq(|rows|, i requires 0 <= i < |rows| => Closed(rows[i], at))
  }

  function Marked(rows: seq<Halt>, halted: bool, at: int): seq<Halt> {
    if !halted then AllClosed(rows, at)
    else if HasOpen(rows) then rows
    else rows + [Halt(at, None)]
  }

  /** Every instant written in the table is at most `at`. */
  ghost predicate NotAfter(rows: seq<Halt>, at: int) {
    forall r <- rows :: r.start <= at && (r.end.Some? ==> r.end.value <= at)
  }

  lemma MarkKeepsOrder(rows: seq<Halt>, halted: bool, at: int)
    requires Ordered(rows) && NotAfter(rows, at)
    ensures Ordered(Marked(rows, halted, at)) && NotAfter(Marked(rows, halted, at), at)
  {
    var next := Marked(rows, halted, at);
    if halted && !HasOpen(rows) {
      forall i, j | 0 <= i < j < |next| ensures next[i].end.Some? && next[i].end.value <= next[j].start {
        assert rows[i] in rows;
      }
    }
  }

  datatype Mark = Mark(halted: bool, at: int)

  function Marks(rows: seq<Halt>, marks: seq<Mark>): seq<Halt>
    decreases |marks|
  {
    if marks == [] then rows else Marks(Marked(rows, marks[0].halted, marks[0].at), marks[1..])
  }

  ghost predicate ClockNeverGoesBack(marks: seq<Mark>) {
    forall i, j :: 0 <= i < j < |marks| ==> marks[i].at <= marks[j].at
  }

  lemma {:induction false} RunKeepsOrder(rows: seq<Halt>, marks: seq<Mark>)
    requires Ordered(rows) && ClockNeverGoesBack(marks)
    requires marks != [] ==> NotAfter(rows, marks[0].at)
    ensures Ordered(Marks(rows, marks))
    decreases |marks|
  {
    if marks != [] {
      MarkKeepsOrder(rows, marks[0].halted, marks[0].at);
      RunKeepsOrder(Marked(rows, marks[0].halted, marks[0].at), marks[1..]);
    }
  }

  /** Whatever a station that starts with an empty table marks, its halts stay
      ordered and disjoint as long as its clock never goes back. */
  lemma EveryTableIsOrdered(marks: seq<Mark>)
    requires ClockNeverGoesBack(marks)
    ensures Ordered(Marks([], marks))
  {
    RunKeepsOrder([], marks);
  }

  // ----- what the query reads -----

  /** `h` among halts sorted newest first, before those of its start. */
  function Placed(halts: seq<Halt>, h: Halt): seq<Halt> {
    if halts == [] || halts[0].start <= h.start then [h] + halts else [halts[0]] + Placed(halts[1..], h)
  }

  /** The table newest first (rows of one start come back last inserted first,
      as the index on `start_at` is scanned). */
  function ByStart(rows: seq<Halt>): seq<Halt> {
    if rows == [] then [] else Placed(ByStart(rows[..|rows| - 1]), rows[|rows| - 1])
  }

  /** The halts begun before `now`. */
  function BegunBefore(halts: seq<Halt>, now: int): seq<Halt> {
    if halts == [] then [] else (if halts[0].start < now then [halts[0]] else []) + BegunBefore(halts[1..], now)
  }

  function Begun(rows: seq<Halt>, now: int): seq<Halt> { BegunBefore(ByStart(rows), now) }

  /** No row ends before it starts. */
  ghost predicate Sane(rows: seq<Halt>) { forall r <- rows :: r.end.Some? ==> r.start <= r.end.value }

  lemma {:induction false} PlacedHolds(halts: seq<Halt>, h: Halt)
    ensures forall x :: x in Placed(halts, h) <==> x in halts || x == h
    decreases |halts|
  {
    if halts != [] && halts[0].start > h.start {
      PlacedHolds(halts[1..], h);
      assert halts == [halts[0]] + halts[1..];
    }
  }

  lemma {:induction false} PlacedIsSorted(halts: seq<Halt>, h: Halt)
    requires NewestFirst(halts) && (h.end.Some? ==> h.start <= h.end.value)
    ensures NewestFirst(Placed(halts, h))
    decreases |halts|
  {
    PlacedHolds(halts, h);
    if halts != [] && halts[0].start > h.start {
      var rest, after := halts[1..], Placed(halts[1..], h);
      assert forall x <- rest :: x in halts;
      PlacedIsSorted(rest, h);
      PlacedHolds(rest, h);
      forall j | 0 <= j < |after| ensures after[j].start <= halts[0].start {
        assert after[j] in after;
        if after[j] != h { var k :| 0 <= k < |rest| && rest[k] == after[j]; }
      }
    }
  }

  lemma {:induction false} ByStartIsSorted(rows: seq<Halt>)
    requires Sane(rows)
    ensures NewestFirst(ByStart(rows))
    ensures forall x :: x in ByStart(rows) <==> x in rows
    decreases |rows|
  {
    if rows != [] {
      var n := |rows| - 1;
      ByStartIsSorted(rows[..n]);
      PlacedIsSorted(ByStart(rows[..n]), rows[n]);
      PlacedHolds(ByStart(rows[..n]), rows[n]);
      assert rows == rows[..n] + [rows[n]];
    }
  }

  /** Leaving out what begins later changes nothing for the walk. */
  lemma {:induction false} WalkReadsBegun(halts: seq<Halt>, now: int, cursor: int, left: int)
    requires cursor <= now
    ensures Walk(BegunBefore(halts, now), now, cursor, left) == Walk(halts, now, cursor, left)
    decreases |halts|
  {
    if halts != [] {
      var rest := BegunBefore(halts[1..], now);
      if halts[0].start < now {
        assert BegunBefore(halts, now)[1..] == rest;
        var end := EndBefore(halts[0], now, cursor);
        WalkReadsBegun(halts[1..], now, halts[0].start, left - (cursor - end));
      } else {
        assert BegunBefore(halts, now) == rest;
      }
      WalkReadsBegun(halts[1..], now, cursor, left);
    }
  }

  lemma {:induction false} BegunAreRows(halts: seq<Halt>, now: int)
    ensures forall h <- BegunBefore(halts, now) :: h in halts
    decreases |halts|
  {
    if halts != [] { BegunAreRows(halts[1..], now); }
  }

  /** The order of the rows does not matter to what a cutoff is. */
  lemma SameCutoffs(xs: seq<Halt>, ys: seq<Halt>, now: int, window: int, c: int)
    requires forall h :: h in xs <==> h in ys
    ensures IsCutoff(xs, now, window, c) <==> IsCutoff(ys, now, window, c)
  {
    forall t, u ensures Aired(xs, t, u) == Aired(ys, t, u) { SameHalts(xs, ys, t, u); }
  }

  /** What the query and the walk answer on a table. */
  function Answer(rows: seq<Halt>, now: int, window: int): int { CutoffOf(Begun(rows, now), now, window) }

  lemma AnswerIsTheWalk(rows: seq<Halt>, now: int, window: int)
    requires Sane(rows)
    ensures Answer(rows, now, window) == CutoffOf(ByStart(rows), now, window)
    ensures IsCutoff(rows, now, window, Answer(rows, now, window))
       <==> IsCutoff(ByStart(rows), now, window, CutoffOf(ByStart(rows), now, window))
  {
    WalkReadsBegun(ByStart(rows), now, now, Max(window, 0));
    ByStartIsSorted(rows);
    SameCutoffs(rows, ByStart(rows), now, window, Answer(rows, now, window));
  }

  /** Every answer on the table is the cutoff of its halts. */
  ghost predicate AnswersRight(rows: seq<Halt>) {
    forall now, window :: I64_MIN <= now ==> IsCutoff(rows, now, window, Answer(rows, now, window))
  }

  /** A table answers right, at every instant and for every window, exactly when
      each time a halt ends with no newer one begun, every older one is over. */
  lemma AnswersRightExactly(rows: seq<Halt>)
    requires Sane(rows) && forall r <- rows :: I64_MIN < r.start
    ensures AnswersRight(rows) <==> NewestTells(ByStart(rows))
  {
    var halts := ByStart(rows);
    ByStartIsSorted(rows);
    WalkIsExactly(halts);
    forall now, window
      ensures IsCutoff(rows, now, window, Answer(rows, now, window)) <==>
                IsCutoff(halts, now, window, CutoffOf(halts, now, window))
    {
      AnswerIsTheWalk(rows, now, window);
    }
  }

  // ----- what the marks leave -----

  lemma {:induction false} MarksAreSane(rows: seq<Halt>, marks: seq<Mark>)
    requires Sane(rows) && (forall r <- rows :: I64_MIN < r.start) && (forall m <- marks :: I64_MIN < m.at)
    ensures Sane(Marks(rows, marks)) && forall r <- Marks(rows, marks) :: I64_MIN < r.start
    decreases |marks|
  {
    if marks != [] {
      var next := Marked(rows, marks[0].halted, marks[0].at);
      forall r | r in next ensures I64_MIN < r.start && (r.end.Some? ==> r.start <= r.end.value) {
        if r !in rows && !marks[0].halted {
          var k :| 0 <= k < |rows| && Closed(rows[k], marks[0].at) == r;
          assert rows[k] in rows;
        }
      }
      MarksAreSane(next, marks[1..]);
    }
  }

  /** Whatever the station marks and its clock does, the answers are right
      exactly on those tables. */
  lemma RunAnswersRightExactly(marks: seq<Mark>)
    requires forall m <- marks :: I64_MIN < m.at
    ensures AnswersRight(Marks([], marks)) <==> NewestTells(ByStart(Marks([], marks)))
  {
    MarksAreSane([], marks);
    AnswersRightExactly(Marks([], marks));
  }

  lemma LastIsNewest(rows: seq<Halt>)
    requires Ordered(rows) && rows != []
    ensures var n := |rows| - 1;
            Ordered(rows[..n]) && forall h <- rows[..n] :: h.end.Some? && h.start <= h.end.value <= rows[n].start
  {
    var n := |rows| - 1;
    assert forall h <- rows[..n] :: h in rows;
    forall h | h in rows[..n] ensures h.end.Some? && h.start <= h.end.value <= rows[n].start {
      var k :| 0 <= k < n && rows[k] == h;
    }
  }

  lemma DisjointWith(halts: seq<Halt>, h: Halt)
    requires DisjointNewestFirst(halts) && (h.end.Some? ==> h.start <= h.end.value)
    requires forall x <- halts :: x.end.Some? && x.start <= x.end.value <= h.start
    ensures DisjointNewestFirst(Placed(halts, h)) && Placed(halts, h) == [h] + halts
  {
    assert halts != [] ==> halts[0] in halts;
    var all := [h] + halts;
    forall i, j | 0 <= i < j < |all| ensures all[j].end.Some? && all[j].end.value <= all[i].start {
      assert all[j] in halts;
    }
  }

  lemma {:induction false} OrderedIsDisjoint(rows: seq<Halt>)
    requires Ordered(rows)
    ensures DisjointNewestFirst(ByStart(rows)) && forall h :: h in ByStart(rows) <==> h in rows
    decreases |rows|
  {
    if rows != [] {
      var n := |rows| - 1;
      LastIsNewest(rows);
      OrderedIsDisjoint(rows[..n]);
      DisjointWith(ByStart(rows[..n]), rows[n]);
      assert rows == rows[..n] + [rows[n]];
    }
  }

  /** A station whose clock never goes back always answers right. */
  lemma ForwardClockAnswersRight(marks: seq<Mark>)
    requires ClockNeverGoesBack(marks) && forall m <- marks :: I64_MIN < m.at
    ensures AnswersRight(Marks([], marks))
  {
    EveryTableIsOrdered(marks);
    OrderedIsDisjoint(Marks([], marks));
    DisjointTells(ByStart(Marks([], marks)));
    RunAnswersRightExactly(marks);
  }

  // ----- one mark -----

  lemma {:induction false} PlacedLater(halts: seq<Halt>, h: Halt)
    requires NewestFirst(halts) && halts != [] && halts[0].start > h.start
    ensures Placed(halts, h)[0] == halts[0] && exists j :: 0 < j < |Placed(halts, h)| && Placed(halts, h)[j] == h
  {
    PlacedHolds(halts[1..], h);
    var rest := Placed(halts[1..], h);
    assert h in rest;
    var k :| 0 <= k < |rest| && rest[k] == h;
    assert Placed(halts, h)[k + 1] == h;
  }

  /** Opening a halt keeps the answers right exactly when none began later. */
  lemma OpensExactly(rows: seq<Halt>, at: int)
    requires Sane(rows) && NewestTells(ByStart(rows)) && !HasOpen(rows)
    ensures NewestTells(ByStart(Marked(rows, true, at))) <==> forall r <- rows :: r.start <= at
  {
    var halts, next := ByStart(rows), ByStart(Marked(rows, true, at));
    var open := Halt(at, None);
    ByStartIsSorted(rows);
    assert (rows + [open])[..|rows|] == rows;
    assert next == Placed(halts, open);
    if halts == [] || halts[0].start <= at {
      forall r | r in rows ensures r.start <= at { var k :| 0 <= k < |halts| && halts[k] == r; }
      OpensNewest(halts, open);
    } else {
      assert halts[0] in rows;
      PlacedLater(halts, open);
      var j :| 0 < j < |next| && next[j] == open;
      assert EndsNewest(next, 0);
    }
  }

  lemma OpensNewest(halts: seq<Halt>, open: Halt)
    requires NewestTells(halts) && open.end.None?
    ensures NewestTells([open] + halts)
  {
    var next := [open] + halts;
    forall i, j | 0 <= i < j < |next| && EndsNewest(next, i)
      ensures next[j].end.Some? && next[j].end.value <= next[i].end.value
    {
      assert EndsNewest(halts, i - 1);
    }
  }

  lemma {:induction false} ClosedPlaces(halts: seq<Halt>, h: Halt, at: int)
    ensures Placed(AllClosed(halts, at), Closed(h, at)) == AllClosed(Placed(halts, h), at)
    decreases |halts|
  {
    if halts != [] && halts[0].start > h.start {
      ClosedPlaces(halts[1..], h, at);
      assert AllClosed(halts, at)[1..] == AllClosed(halts[1..], at);
    }
  }

  lemma {:induction false} ClosedByStart(rows: seq<Halt>, at: int)
    ensures ByStart(AllClosed(rows, at)) == AllClosed(ByStart(rows), at)
    decreases |rows|
  {
    if rows != [] {
      var n := |rows| - 1;
      ClosedByStart(rows[..n], at);
      ClosedPlaces(ByStart(rows[..n]), rows[n], at);
      assert AllClosed(rows, at)[..n] == AllClosed(rows[..n], at);
    }
  }

  /** Closing the newest halt keeps them right exactly when no older one ends
      later. */
  lemma ClosesExactly(rows: seq<Halt>, at: int)
    requires var halts := ByStart(rows);
             && NewestTells(halts) && halts != [] && halts[0].end.None?
             && forall i :: 1 <= i < |halts| ==> halts[i].end.Some?
    ensures var halts := ByStart(rows); var end := Max(at, halts[0].start);
            NewestTells(ByStart(Marked(rows, false, at))) <==>
              forall i :: 1 <= i < |halts| ==> halts[i].end.value <= end
  {
    var halts, next := ByStart(rows), ByStart(Marked(rows, false, at));
    ClosedByStart(rows, at);
    forall i | 1 <= i < |halts| ensures next[i] == halts[i] {}
    assert EndsNewest(next, 0) && next[0].end.value == Max(at, halts[0].start);
    if forall i :: 1 <= i < |halts| ==> halts[i].end.value <= next[0].end.value {
      forall i, j | 0 <= i < j < |next| && EndsNewest(next, i)
        ensures next[j].end.Some? && next[j].end.value <= next[i].end.value
      {
        if i > 0 { assert EndsNewest(halts, i); }
      }
    }
  }

  const SET_BACK := [Mark(true, 100), Mark(false, 200), Mark(true, 120), Mark(false, 130)]

  const SET_BEFORE := [Mark(true, 100), Mark(false, 200), Mark(true, 50), Mark(false, 80)]

  lemma FourMarks(a: int, b: int, c: int, d: int)
    requires a <= b && c <= d
    ensures Marks([], [Mark(true, a), Mark(false, b), Mark(true, c), Mark(false, d)]) ==
              [Halt(a, Some(b)), Halt(c, Some(d))]
  {
    var marks := [Mark(true, a), Mark(false, b), Mark(true, c), Mark(false, d)];
    var one, two, three := [Halt(a, None)], [Halt(a, Some(b))], [Halt(a, Some(b)), Halt(c, None)];
    var four := [Halt(a, Some(b)), Halt(c, Some(d))];
    assert Marked([], true, a) == one && Marked(one, false, b) == two;
    assert Marked(two, true, c) == three && Marked(three, false, d) == four;
    assert marks[1..] == [Mark(false, b), Mark(true, c), Mark(false, d)];
    assert marks[1..][1..] == [Mark(true, c), Mark(false, d)];
    assert marks[1..][1..][1..] == [Mark(false, d)] && [Mark(false, d)][1..] == [];
    assert Marks(three, [Mark(false, d)]) == Marks(four, []) == four;
    assert Marks(two, marks[1..][1..]) == four;
    assert Marks(one, marks[1..]) == four;
  }

  lemma TwoByStart(x: Halt, y: Halt)
    ensures ByStart([x, y]) == if x.start <= y.start then [y, x] else [x, y]
  {
    assert [x, y][..1] == [x] && [x][..0] == [] && ByStart([]) == [];
    assert ByStart([x]) == Placed([], x) == [x];
    assert [x][1..] == [] && Placed([], y) == [y];
  }

  /** With the clock set back inside a halt already written, the walk stops in
      it: at 150, ten seconds of air time are said to begin at 140. */
  lemma ClockSetBackAnswersWrong()
    ensures var rows := Marks([], SET_BACK); Answer(rows, 150, 10) == 140 && !IsCutoff(rows, 150, 10, 140)
  {
    var inner, outer := Halt(120, Some(130)), Halt(100, Some(200));
    FourMarks(100, 200, 120, 130);
    TwoByStart(outer, inner);
    assert [inner, outer][1..] == [outer] && [outer][1..] == [] && BegunBefore([], 150) == [];
    assert BegunBefore([outer], 150) == [outer];
    assert Begun([outer, inner], 150) == [inner, outer];
    assert Covers(outer, 140);
    AiredIsElapsed([outer, inner], 141, 150);
  }

  /** Set back before it, the clock does no harm. */
  lemma ClockSetBeforeAnswersRight()
    ensures AnswersRight(Marks([], SET_BEFORE)) && !Ordered(Marks([], SET_BEFORE))
  {
    FourMarks(100, 200, 50, 80);
    TwoByStart(Halt(100, Some(200)), Halt(50, Some(80)));
    RunAnswersRightExactly(SET_BEFORE);
  }

  class HaltTable {
    var rows: seq<Halt>

    constructor ()
      ensures rows == [] && Sane(rows)
    { rows := []; }

    method Mark(halted: bool, at: int)
      modifies this
      ensures rows == Marked(old(rows), halted, at)
      ensures Sane(old(rows)) ==> Sane(rows)
      ensures Ordered(old(rows)) && NotAfter(old(rows), at) ==> Ordered(rows) && NotAfter(rows, at)
    {
      ghost var before := rows;
      if halted {
        var i := 0;
        while i < |rows| && rows[i].end.Some?
          invariant 0 <= i <= |rows| && forall k :: 0 <= k < i ==> rows[k].end.Some?
        { i := i + 1; }
        if i == |rows| { rows := rows + [Halt(at, None)]; }
      } else {
        var i := 0;
        while i < |rows|
          invariant 0 <= i <= |rows| == |before|
          invariant forall k :: 0 <= k < i ==> rows[k] == Closed(before[k], at)
          invariant forall k :: i <= k < |rows| ==> rows[k] == before[k]
        {
          rows := rows[i := Closed(rows[i], at)];
          i := i + 1;
        }
      }
      if Ordered(before) && NotAfter(before, at) { MarkKeepsOrder(before, halted, at); }
    }

    /** The wall instant from which plays count against `window` seconds of air
        time. */
    method Cutoff(now: int, window: int) returns (c: int)
      requires Sane(rows) && I64_MIN <= now && forall r <- rows :: I64_MIN <= r.start
      ensures c == Answer(rows, now, window)
      ensures NewestTells(ByStart(rows)) ==> IsCutoff(rows, now, window, c)
    {
      ByStartIsSorted(rows);
      BegunAreRows(ByStart(rows), now);
      c := CutoffFrom(Begun(rows, now), now, window);
      AnswerIsTheWalk(rows, now, window);
      if NewestTells(ByStart(rows)) { WalkIsExact(ByStart(rows), now, window); }
    }
  }

  // ----- what the windows promise -----

  /** While a halt stays open a window is frozen: at every instant since the halt
      began, a positive window has the cutoff it had when it began. */
  lemma FrozenWhileHalted(rows: seq<Halt>, h: Halt, now: int, window: int, c: int, d: int)
    requires h in rows && h.end.None? && h.start <= now && 0 < window
    requires IsCutoff(rows, h.start, window, c) && IsCutoff(rows, now, window, d)
    ensures c == d
  {
    forall t | h.start <= t <= now ensures Aired(rows, t, now) == 0 {
      forall u | t <= u < now ensures Halted(rows, u) { assert Covers(h, u); }
      AllHalted(rows, t, now);
    }
    forall t | c <= t <= h.start ensures Aired(rows, t, now) == Aired(rows, t, h.start) {
      AiredSplits(rows, t, h.start, now);
    }
    CutoffIsUnique(rows, now, window, c, d);
  }

  /** Cutting by `a` and then, from there, by `b` is cutting by `a + b`. */
  lemma CutoffsCompose(rows: seq<Halt>, now: int, a: nat, b: nat, c: int, d: int)
    requires IsCutoff(rows, now, a, c)
    ensures IsCutoff(rows, c, b, d) <==> d <= c && IsCutoff(rows, now, a + b, d)
  {
    forall t | t <= c ensures Aired(rows, t, now) == Aired(rows, t, c) + Aired(rows, c, now) {
      AiredSplits(rows, t, c, now);
    }
  }
}
