/** The projection of a grid (`preview_of`, src/grid_engine.rs:1111-1272).

    `Simulated` is the walk, minute by minute; the method only records where the
    decision or a live window changes. */
module Preview {
  import opened Base
  import opened Resolver
  import Text

  /** A live window open at some minute (src/resolver.rs:507). */
  datatype LiveWindow = LiveWindow(ruleId: string, occurrence: string, openedAgo: int)

  /** The resolver, over the projected rules, and the canonical name of a
      playlist. */
  datatype World = World(
    next: (seq<Rule>, int, Playback) -> Decision,
    window: (seq<Rule>, string, int) -> Option<LiveWindow>,
    canonical: string -> Option<string>)

  const MAX_WINDOW_S := 31 * 86400

  datatype Key = Key(origin: Origin, ruleId: string, playlist: string)

  datatype Occurrence = Occurrence(epoch: int, key: Key)

  datatype LiveProjection = LiveProjection(
    ruleId: string, dj: string, opens: int, openBefore: bool, closes: Option<int>)

  // ----- what the walk is over -----

  predicate Projectable(r: Rule) { !(r.kind.Every? && r.kind.cadence.Tracks?) }

  function Projected(rules: seq<Rule>): seq<Rule> {
    if rules == [] then []
    else (if Projectable(rules[0]) then [rules[0]] else []) + Projected(rules[1..])
  }

  /** Every elapsed cadence starts one cadence away from its first mark. */
  function Seeds(rules: seq<Rule>, from: int): map<string, EveryState> {
    if rules == [] then map[]
    else
      var rest := Seeds(rules[1..], from);
      if rules[0].kind.Every? && rules[0].kind.cadence.Elapsed?
      then rest[rules[0].id := EveryState(Some(from), 0)]
      else rest
  }

  function Minutes(from: int, window: int): nat {
    (Min(Max(window, 0), MAX_WINDOW_S) + 59) / 60
  }

  function Consume(pb: Playback, d: Decision, at: int): Playback {
    var taken := if d.mark.Some? then pb.taken + {d.mark.value} else pb.taken;
    var every :=
      if d.origin == FromEvery && d.ruleId.Some? then
        var tracks := if d.ruleId.value in pb.every then pb.every[d.ruleId.value].tracksSince else 0;
        pb.every[d.ruleId.value := EveryState(Some(at), tracks)]
      else pb.every;
    Playback(every, taken)
  }

  /** The simulated state before minute `k`. */
  function Simulated(w: World, rules: seq<Rule>, from: int, k: nat): Playback {
    if k == 0 then Playback(Seeds(rules, from), {})
    else
      var at := from + 60 * (k - 1);
      var pb := Simulated(w, rules, from, k - 1);
      Consume(pb, w.next(Projected(rules), at, pb), at)
  }

  function DecisionAt(w: World, rules: seq<Rule>, from: int, k: nat): Decision {
    w.next(Projected(rules), from + 60 * k, Simulated(w, rules, from, k))
  }

  function OrEmpty(s: Option<string>): string { if s.Some? then s.value else "" }

  function KeyOf(d: Decision): Key { Key(d.origin, OrEmpty(d.ruleId), OrEmpty(d.playlist)) }

  function KeyAt(w: World, rules: seq<Rule>, from: int, k: nat): Key { KeyOf(DecisionAt(w, rules, from, k)) }

  function WindowAt(w: World, rules: seq<Rule>, from: int, dj: string, k: nat): Option<LiveWindow> {
    w.window(Projected(rules), dj, from + 60 * k)
  }

  /** The decision keys of the first `n` minutes. */
  function Walk(w: World, rules: seq<Rule>, from: int, n: nat): seq<Key> {
    seq(n, k requires 0 <= k < n => KeyAt(w, rules, from, k))
  }

  // ----- the segments -----

  function SegmentEnd(starts: seq<nat>, i: nat, n: nat): nat {
    if i + 1 < |starts| then starts[i + 1] else n
  }

  ghost predicate Tiles(starts: seq<nat>, n: nat) {
    && (n > 0 <==> starts != []) && (n > 0 ==> starts[0] == 0)
    && (forall i {:trigger SegmentEnd(starts, i, n)} :: 0 <= i < |starts| ==> starts[i] < SegmentEnd(starts, i, n) <= n)
  }

  ghost predicate Carried(walk: seq<Key>, from: nat, to: nat, key: Key) {
    to <= |walk| && forall k :: from <= k < to ==> walk[k] == key
  }

  /** No occurrence repeats the one before. */
  ghost predicate ChangesOnly(occ: seq<Occurrence>) {
    forall i, j :: 0 <= i < j < |occ| && j == i + 1 ==> occ[i].key != occ[j].key
  }

  /** The occurrences are the segments of the walk: each starts at its minute and
      carries the key of all its minutes, and the next one differs. */
  ghost predicate Expands(occ: seq<Occurrence>, starts: seq<nat>, walk: seq<Key>, from: int) {
    && |starts| == |occ| && Tiles(starts, |walk|)
    && (forall i :: 0 <= i < |occ| ==> occ[i].epoch == from + 60 * starts[i])
    && (forall i {:trigger occ[i]} :: 0 <= i < |occ| ==>
          Carried(walk, starts[i], SegmentEnd(starts, i, |walk|), occ[i].key))
    && ChangesOnly(occ)
  }

  lemma {:induction false} StartsGrow(starts: seq<nat>, n: nat, i: nat, j: nat)
    requires Tiles(starts, n) && i < j < |starts|
    ensures starts[i] < starts[j]
    decreases j
  {
    assert starts[j - 1] < SegmentEnd(starts, j - 1, n);
    if i < j - 1 { StartsGrow(starts, n, i, j - 1); }
  }

  /** The occurrences are the change-only form of the walk. */
  ghost predicate Projects(occ: seq<Occurrence>, walk: seq<Key>, from: int) {
    exists starts :: Expands(occ, starts, walk, from)
  }

  /** The last occurrence not after `at`. */
  predicate InForce(occ: seq<Occurrence>, i: nat, at: int) {
    i < |occ| && occ[i].epoch <= at && (forall j :: i < j < |occ| ==> at < occ[j].epoch)
  }

  /** Expanding a preview gives back the walk: the last occurrence not after a
      minute carries that minute's key. */
  lemma ExpansionIsTheWalk(occ: seq<Occurrence>, starts: seq<nat>, walk: seq<Key>, from: int, i: nat, k: nat)
    requires Expands(occ, starts, walk, from) && k < |walk| && InForce(occ, i, from + 60 * k)
    ensures occ[i].key == walk[k]
  {
    assert Carried(walk, starts[i], SegmentEnd(starts, i, |walk|), occ[i].key);
  }

  /** The minute `k` is in one segment. */
  lemma {:induction false} SegmentOf(starts: seq<nat>, n: nat, k: nat, i: nat) returns (j: nat)
    requires Tiles(starts, n) && k < n && i < |starts| && starts[i] <= k
    ensures i <= j < |starts| && starts[j] <= k < SegmentEnd(starts, j, n)
    decreases |starts| - i
  {
    if k < SegmentEnd(starts, i, n) { return i; }
    j := SegmentOf(starts, n, k, i + 1);
  }

  lemma SegmentIsInForce(occ: seq<Occurrence>, starts: seq<nat>, walk: seq<Key>, from: int, j: nat, k: nat)
    requires Expands(occ, starts, walk, from) && j < |occ| && starts[j] <= k < SegmentEnd(starts, j, |walk|)
    ensures InForce(occ, j, from + 60 * k)
  {
    forall l | j < l < |occ| ensures from + 60 * k < occ[l].epoch {
      if j + 1 < l { StartsGrow(starts, |walk|, j + 1, l); }
    }
  }

  /** Some occurrence is in force, and it carries this key. */
  ghost predicate Says(occ: seq<Occurrence>, at: int, key: Key) {
    && (exists i: nat :: InForce(occ, i, at))
    && (forall i: nat :: InForce(occ, i, at) ==> occ[i].key == key)
  }

  lemma SegmentSays(occ: seq<Occurrence>, starts: seq<nat>, walk: seq<Key>, from: int, k: nat)
    requires Expands(occ, starts, walk, from) && k < |walk|
    ensures Says(occ, from + 60 * k, walk[k])
  {
    var j := SomeSegment(occ, starts, walk, from, k);
    forall i: nat | InForce(occ, i, from + 60 * k) ensures occ[i].key == walk[k] {
      ExpansionIsTheWalk(occ, starts, walk, from, i, k);
    }
  }

  /** A preview is the trace: at each minute of the walk some occurrence is in
      force, it carries that minute's decision, and no occurrence repeats the one
      before. */
  lemma PreviewIsTheTrace(occ: seq<Occurrence>, walk: seq<Key>, from: int, k: nat)
    requires Projects(occ, walk, from) && k < |walk|
    ensures Says(occ, from + 60 * k, walk[k]) && ChangesOnly(occ)
  {
    var starts :| Expands(occ, starts, walk, from);
    EachChanges(occ, starts, walk, from);
    SegmentSays(occ, starts, walk, from, k);
  }

  lemma EachChanges(occ: seq<Occurrence>, starts: seq<nat>, walk: seq<Key>, from: int)
    requires Expands(occ, starts, walk, from)
    ensures ChangesOnly(occ)
  {
  }

  lemma SomeSegment(occ: seq<Occurrence>, starts: seq<nat>, walk: seq<Key>, from: int, k: nat) returns (j: nat)
    requires Expands(occ, starts, walk, from) && k < |walk|
    ensures InForce(occ, j, from + 60 * k)
  {
    j := SegmentOf(starts, |walk|, k, 0);
    SegmentIsInForce(occ, starts, walk, from, j, k);
  }

  lemma StartsNotBefore(
    a: seq<Occurrence>, b: seq<Occurrence>, s: seq<nat>, t: seq<nat>, walk: seq<Key>, from: int, i: nat)
    requires Expands(a, s, walk, from) && Expands(b, t, walk, from)
    requires 0 < i < |s| && i <= |t| && s[i - 1] == t[i - 1] && a[i - 1] == b[i - 1]
    ensures SegmentEnd(t, i - 1, |walk|) <= s[i]
  {
    assert s[i - 1] < SegmentEnd(s, i - 1, |walk|) == s[i] < SegmentEnd(s, i, |walk|);
    assert Carried(walk, s[i], SegmentEnd(s, i, |walk|), a[i].key);
    assert walk[s[i]] == a[i].key;
    assert Carried(walk, t[i - 1], SegmentEnd(t, i - 1, |walk|), b[i - 1].key);
  }

  lemma SameKeyAtStart(
    a: seq<Occurrence>, b: seq<Occurrence>, s: seq<nat>, t: seq<nat>, walk: seq<Key>, from: int, i: nat)
    requires Expands(a, s, walk, from) && Expands(b, t, walk, from) && i < |s| && i < |t| && s[i] == t[i]
    ensures a[i] == b[i]
  {
    assert s[i] < SegmentEnd(s, i, |walk|) && t[i] < SegmentEnd(t, i, |walk|);
    assert Carried(walk, s[i], SegmentEnd(s, i, |walk|), a[i].key) &&
      Carried(walk, t[i], SegmentEnd(t, i, |walk|), b[i].key);
    assert walk[s[i]] == a[i].key && walk[t[i]] == b[i].key;
  }

  lemma {:induction false} SameStarts(
    a: seq<Occurrence>, b: seq<Occurrence>, s: seq<nat>, t: seq<nat>, walk: seq<Key>, from: int, n: nat)
    requires Expands(a, s, walk, from) && Expands(b, t, walk, from) && n <= |s| && n <= |t|
    ensures forall i :: 0 <= i < n ==> s[i] == t[i] && a[i] == b[i]
  {
    if n > 0 {
      SameStarts(a, b, s, t, walk, from, n - 1);
      if n > 1 {
        StartsNotBefore(a, b, s, t, walk, from, n - 1);
        StartsNotBefore(b, a, t, s, walk, from, n - 1);
      }
      SameKeyAtStart(a, b, s, t, walk, from, n - 1);
    }
  }

  lemma NoMoreSegments(a: seq<Occurrence>, b: seq<Occurrence>, s: seq<nat>, t: seq<nat>, walk: seq<Key>, from: int)
    requires Expands(a, s, walk, from) && Expands(b, t, walk, from)
    ensures |s| <= |t|
  {
    if |s| > |t| {
      if t != [] {
        SameStarts(a, b, s, t, walk, from, |t|);
        StartsNotBefore(a, b, s, t, walk, from, |t|);
      }
    }
  }

  /** A walk has one change-only form. */
  lemma PreviewIsUnique(a: seq<Occurrence>, b: seq<Occurrence>, walk: seq<Key>, from: int)
    requires Projects(a, walk, from) && Projects(b, walk, from)
    ensures a == b
  {
    var s :| Expands(a, s, walk, from);
    var t :| Expands(b, t, walk, from);
    NoMoreSegments(a, b, s, t, walk, from);
    NoMoreSegments(b, a, t, s, walk, from);
    SameStarts(a, b, s, t, walk, from, |s|);
  }

  /** One more minute: it prolongs the last segment or starts one. */
  method Record(key: Key, from: int, at: int, occ: seq<Occurrence>, ghost starts: seq<nat>, ghost walk: seq<Key>)
    returns (occ': seq<Occurrence>, ghost starts': seq<nat>)
    requires at == from + 60 * |walk| && Expands(occ, starts, walk, from)
    ensures Expands(occ', starts', walk + [key], from)
    ensures forall o <- occ' :: o in occ || o.key == key
  {
    if occ != [] && occ[|occ| - 1].key == key {
      occ', starts' := occ, starts;
      Prolonged(occ, starts, walk, from, key);
    } else {
      occ', starts' := occ + [Occurrence(at, key)], starts + [|walk|];
      Started(occ, starts, walk, from, key);
    }
  }

  lemma Prolonged(occ: seq<Occurrence>, starts: seq<nat>, walk: seq<Key>, from: int, key: Key)
    requires Expands(occ, starts, walk, from) && occ != [] && occ[|occ| - 1].key == key
    ensures Expands(occ, starts, walk + [key], from)
  {
    var n, walk' := |occ| - 1, walk + [key];
    assert forall i :: 0 <= i < n ==> SegmentEnd(starts, i, |walk'|) == SegmentEnd(starts, i, |walk|);
    forall i | 0 <= i <= n ensures Carried(walk', starts[i], SegmentEnd(starts, i, |walk'|), occ[i].key) {
      assert Carried(walk, starts[i], SegmentEnd(starts, i, |walk|), occ[i].key);
    }
  }

  lemma StartedCarries(occ: seq<Occurrence>, starts: seq<nat>, walk: seq<Key>, from: int, key: Key, i: nat)
    requires Expands(occ, starts, walk, from) && i < |occ|
    ensures SegmentEnd(starts + [|walk|], i, |walk| + 1) == SegmentEnd(starts, i, |walk|)
    ensures Carried(walk + [key], starts[i], SegmentEnd(starts, i, |walk|), occ[i].key)
  {
    assert Carried(walk, starts[i], SegmentEnd(starts, i, |walk|), occ[i].key);
  }

  lemma OneMoreChange(occ: seq<Occurrence>, o: Occurrence)
    requires ChangesOnly(occ) && (occ == [] || occ[|occ| - 1].key != o.key)
    ensures ChangesOnly(occ + [o])
  {
    var all := occ + [o];
    forall i, j | 0 <= i < j < |all| && j == i + 1 ensures all[i].key != all[j].key {
      if j < |occ| { assert occ[i].key != occ[j].key; }
    }
  }

  lemma OneMoreTile(starts: seq<nat>, n: nat)
    requires Tiles(starts, n)
    ensures Tiles(starts + [n], n + 1)
  {
    var more := starts + [n];
    forall i | 0 <= i < |more| ensures more[i] < SegmentEnd(more, i, n + 1) <= n + 1 {
      if i < |starts| { assert starts[i] < SegmentEnd(starts, i, n) <= n; }
    }
  }

  lemma Started(occ: seq<Occurrence>, starts: seq<nat>, walk: seq<Key>, from: int, key: Key)
    requires Expands(occ, starts, walk, from) && (occ == [] || occ[|occ| - 1].key != key)
    ensures Expands(occ + [Occurrence(from + 60 * |walk|, key)], starts + [|walk|], walk + [key], from)
  {
    var n, o, starts', walk' := |occ|, Occurrence(from + 60 * |walk|, key), starts + [|walk|], walk + [key];
    OneMoreTile(starts, |walk|);
    OneMoreChange(occ, o);
    forall i | 0 <= i <= n ensures Carried(walk', starts'[i], SegmentEnd(starts', i, |walk'|), (occ + [o])[i].key) {
      if i < n { StartedCarries(occ, starts, walk, from, key, i); }
    }
  }

  // ----- the live windows -----

  function EnabledDjs(rules: seq<Rule>): seq<string> {
    if rules == [] then []
    else
      var rest := EnabledDjs(rules[1..]);
      if rules[0].enabled && rules[0].kind.Live? then Text.Insert(rest, rules[0].kind.dj) else rest
  }

  lemma {:induction false} DjsAreSorted(rules: seq<Rule>)
    ensures Text.Sorted(EnabledDjs(rules))
    ensures forall dj :: dj in EnabledDjs(rules) <==> exists r <- rules :: r.enabled && r.kind.Live? && r.kind.dj == dj
    decreases |rules|
  {
    if rules != [] {
      DjsAreSorted(rules[1..]);
      if rules[0].enabled && rules[0].kind.Live? { Text.InsertSorts(EnabledDjs(rules[1..]), rules[0].kind.dj); }
      assert rules == [rules[0]] + rules[1..];
    }
  }

  /** What a projection stands for: the DJ's minutes [first, until) in one
      occurrence of the slot. */
  datatype Span = Span(dj: string, first: nat, until: Option<nat>, token: string)

  predicate Covers(s: Span, k: nat) { s.first <= k && (s.until.Some? ==> k < s.until.value) }

  /** The projection of a span: its rule and whether it was open before are those
      of its first minute. */
  ghost predicate Shows(p: LiveProjection, s: Span, w: World, rules: seq<Rule>, from: int) {
    var opening := WindowAt(w, rules, from, s.dj, s.first);
    && opening.Some?
    && p.dj == s.dj && p.opens == from + 60 * s.first
    && p.closes == (if s.until.Some? then Some(from + 60 * s.until.value) else None)
    && p.ruleId == opening.value.ruleId
    && p.openBefore == (s.first == 0 && opening.value.openedAgo > 0)
  }

  ghost predicate IsToken(w: World, rules: seq<Rule>, from: int, dj: string, k: nat, token: string) {
    WindowAt(w, rules, from, dj, k).Some? && WindowAt(w, rules, from, dj, k).value.occurrence == token
  }

  /** The span is one occurrence, whole: the minute that closes it is not of it. */
  ghost predicate SpanExact(s: Span, w: World, rules: seq<Rule>, from: int, n: nat) {
    && s.first < n
    && (s.until.Some? ==> s.first < s.until.value < n && !IsToken(w, rules, from, s.dj, s.until.value, s.token))
    && (forall k: nat :: k < n && Covers(s, k) ==> IsToken(w, rules, from, s.dj, k, s.token))
  }

  /** The spans of one DJ are disjoint and cover exactly the minutes its window is
      open. */
  ghost predicate DjExact(spans: seq<Span>, w: World, rules: seq<Rule>, from: int, dj: string, n: nat) {
    && (forall i :: 0 <= i < |spans| && spans[i].dj == dj ==> SpanExact(spans[i], w, rules, from, n))
    && DisjointSpans(spans, dj) && AllCovered(spans, w, rules, from, dj, n)
  }

  ghost predicate DisjointSpans(spans: seq<Span>, dj: string) {
    forall i, j :: 0 <= i < j < |spans| && spans[i].dj == dj && spans[j].dj == dj ==>
      spans[i].until.Some? && spans[i].until.value <= spans[j].first
  }

  ghost predicate AllCovered(spans: seq<Span>, w: World, rules: seq<Rule>, from: int, dj: string, n: nat) {
    forall k: nat :: k < n && WindowAt(w, rules, from, dj, k).Some? ==>
      exists i :: 0 <= i < |spans| && spans[i].dj == dj && Covers(spans[i], k)
  }

  /** The window open now, if any, is the DJ's last span. */
  ghost predicate OpenNow(spans: seq<Span>, open: map<string, (string, nat)>, dj: string) {
    && (dj in open ==>
         var (token, i) := open[dj];
         i < |spans| && spans[i].dj == dj && spans[i].until.None? && spans[i].token == token)
    && (dj !in open ==> forall i :: 0 <= i < |spans| && spans[i].dj == dj ==> spans[i].until.Some?)
  }

  type Open = map<string, (string, nat)>

  /** The occurrence open for a DJ is the one of the last minute walked. */
  ghost predicate OpenedLast(open: Open, w: World, rules: seq<Rule>, from: int, dj: string, n: nat) {
    if dj in open then n > 0 && IsToken(w, rules, from, dj, n - 1, open[dj].0)
    else n > 0 ==> WindowAt(w, rules, from, dj, n - 1).None?
  }

  /** One DJ's projections after `n` minutes. */
  ghost predicate Told(spans: seq<Span>, open: Open, w: World, rules: seq<Rule>, from: int, dj: string, n: nat) {
    DjExact(spans, w, rules, from, dj, n) && OpenNow(spans, open, dj) && OpenedLast(open, w, rules, from, dj, n)
  }

  /** What watching one DJ may change. */
  ghost predicate OnlyDj(spans: seq<Span>, after: seq<Span>, open: Open, open': Open, dj: string) {
    && |spans| <= |after|
    && (forall i :: 0 <= i < |spans| ==> after[i].dj == spans[i].dj && (spans[i].dj != dj ==> after[i] == spans[i]))
    && (forall i :: |spans| <= i < |after| ==> after[i].dj == dj)
    && (forall other :: other != dj ==>
          (other in open <==> other in open') && (other in open ==> open[other] == open'[other]))
  }

  lemma OthersUntouched(
    spans: seq<Span>, after: seq<Span>, open: Open, open': Open,
    w: World, rules: seq<Rule>, from: int, dj: string, other: string, n: nat)
    requires other != dj && OnlyDj(spans, after, open, open', dj) && Told(spans, open, w, rules, from, other, n)
    ensures Told(after, open', w, rules, from, other, n)
  {
    forall k: nat | k < n && WindowAt(w, rules, from, other, k).Some?
      ensures exists i :: 0 <= i < |after| && after[i].dj == other && Covers(after[i], k)
    {
      var i :| 0 <= i < |spans| && spans[i].dj == other && Covers(spans[i], k);
      assert after[i] == spans[i];
    }
  }

  lemma SameWindow(spans: seq<Span>, open: Open, w: World, rules: seq<Rule>, from: int, dj: string, n: nat)
    requires Told(spans, open, w, rules, from, dj, n)
    requires var now := WindowAt(w, rules, from, dj, n);
             if now.None? then dj !in open else dj in open && open[dj].0 == now.value.occurrence
    ensures Told(spans, open, w, rules, from, dj, n + 1)
  {
    forall i | 0 <= i < |spans| && spans[i].dj == dj && spans[i].until.None? ensures dj in open && i == open[dj].1 {}
    if dj in open { assert Covers(spans[open[dj].1], n); }
  }

  /** Before minute `n` is looked at, no window of the DJ is open any more. */
  ghost predicate Shut(spans: seq<Span>, open: Open, w: World, rules: seq<Rule>, from: int, dj: string, n: nat) {
    && dj !in open
    && (forall j :: 0 <= j < |spans| && spans[j].dj == dj ==>
         spans[j].until.Some? && spans[j].until.value <= n && SpanExact(spans[j], w, rules, from, n + 1))
    && DisjointSpans(spans, dj) && AllCovered(spans, w, rules, from, dj, n)
  }

  lemma WindowCloses(spans: seq<Span>, open: Open, w: World, rules: seq<Rule>, from: int, dj: string, n: nat)
    requires Told(spans, open, w, rules, from, dj, n) && dj in open
    requires !IsToken(w, rules, from, dj, n, open[dj].0)
    ensures var i := open[dj].1;
            var after := spans[i := spans[i].(until := Some(n))];
            OnlyDj(spans, after, open, open - {dj}, dj) && Shut(after, open - {dj}, w, rules, from, dj, n)
  {
    var i := open[dj].1;
    var after := spans[i := spans[i].(until := Some(n))];
    forall k: nat | k < n && WindowAt(w, rules, from, dj, k).Some?
      ensures exists j :: 0 <= j < |after| && after[j].dj == dj && Covers(after[j], k)
    {
      var j :| 0 <= j < |spans| && spans[j].dj == dj && Covers(spans[j], k);
      assert Covers(after[j], k);
    }
  }

  lemma WindowWasShut(spans: seq<Span>, open: Open, w: World, rules: seq<Rule>, from: int, dj: string, n: nat)
    requires Told(spans, open, w, rules, from, dj, n) && dj !in open
    ensures Shut(spans, open, w, rules, from, dj, n)
  {
  }

  lemma WindowStaysShut(spans: seq<Span>, open: Open, w: World, rules: seq<Rule>, from: int, dj: string, n: nat)
    requires Shut(spans, open, w, rules, from, dj, n) && WindowAt(w, rules, from, dj, n).None?
    ensures Told(spans, open, w, rules, from, dj, n + 1)
  {
  }

  lemma WindowOpens(spans: seq<Span>, open: Open, w: World, rules: seq<Rule>, from: int, dj: string, n: nat)
    requires Shut(spans, open, w, rules, from, dj, n) && WindowAt(w, rules, from, dj, n).Some?
    ensures var token := WindowAt(w, rules, from, dj, n).value.occurrence;
            && OnlyDj(spans, spans + [Span(dj, n, None, token)], open, open[dj := (token, |spans|)], dj)
            && Told(spans + [Span(dj, n, None, token)], open[dj := (token, |spans|)], w, rules, from, dj, n + 1)
  {
    var added := Span(dj, n, None, WindowAt(w, rules, from, dj, n).value.occurrence);
    var after := spans + [added];
    forall k: nat | k < n + 1 && WindowAt(w, rules, from, dj, k).Some?
      ensures exists j :: 0 <= j < |after| && after[j].dj == dj && Covers(after[j], k)
    {
      if k == n {
        assert after[|spans|].dj == dj && Covers(after[|spans|], k);
      } else {
        var j :| 0 <= j < |spans| && spans[j].dj == dj && Covers(spans[j], k);
        assert after[j].dj == dj && Covers(after[j], k);
      }
    }
  }

  lemma OnlyDjTwice(s0: seq<Span>, s1: seq<Span>, s2: seq<Span>, o0: Open, o1: Open, o2: Open, dj: string)
    requires OnlyDj(s0, s1, o0, o1, dj) && OnlyDj(s1, s2, o1, o2, dj)
    ensures OnlyDj(s0, s2, o0, o2, dj)
  {
  }

  ghost predicate AllShown(live: seq<LiveProjection>, spans: seq<Span>, w: World, rules: seq<Rule>, from: int) {
    |live| == |spans| && forall i :: 0 <= i < |live| ==> Shows(live[i], spans[i], w, rules, from)
  }

  /** The window open until now, if any, closes at minute `k`. */
  method CloseWindow(
    w: World, rules: seq<Rule>, from: int, dj: string, at: int, ghost k: nat,
    live: seq<LiveProjection>, open: Open, ghost spans: seq<Span>)
    returns (live': seq<LiveProjection>, open': Open, ghost spans': seq<Span>)
    requires at == from + 60 * k
    requires AllShown(live, spans, w, rules, from) && Told(spans, open, w, rules, from, dj, k)
    requires dj in open ==> !IsToken(w, rules, from, dj, k, open[dj].0)
    ensures AllShown(live', spans', w, rules, from) && Shut(spans', open', w, rules, from, dj, k)
    ensures OnlyDj(spans, spans', open, open', dj)
  {
    live', open', spans' := live, open, spans;
    if dj in open {
      WindowCloses(spans, open, w, rules, from, dj, k);
      var i := open[dj].1;
      live' := live[i := live[i].(closes := Some(at))];
      open' := open - {dj};
      spans' := spans[i := spans[i].(until := Some(k))];
    } else {
      WindowWasShut(spans, open, w, rules, from, dj, k);
    }
  }

  method OpenWindow(
    w: World, rules: seq<Rule>, from: int, dj: string, at: int, ghost k: nat, win: LiveWindow,
    live: seq<LiveProjection>, open: Open, ghost spans: seq<Span>)
    returns (live': seq<LiveProjection>, open': Open, ghost spans': seq<Span>)
    requires at == from + 60 * k && WindowAt(w, rules, from, dj, k) == Some(win)
    requires AllShown(live, spans, w, rules, from) && Shut(spans, open, w, rules, from, dj, k)
    ensures AllShown(live', spans', w, rules, from) && Told(spans', open', w, rules, from, dj, k + 1)
    ensures OnlyDj(spans, spans', open, open', dj)
  {
    WindowOpens(spans, open, w, rules, from, dj, k);
    open' := open[dj := (win.occurrence, |live|)];
    live' := live + [LiveProjection(win.ruleId, dj, at, at == from && win.openedAgo > 0, None)];
    spans' := spans + [Span(dj, k, None, win.occurrence)];
  }

  /** What minute `k` changes for one DJ. */
  method WatchDj(
    w: World, rules: seq<Rule>, from: int, dj: string, at: int, ghost k: nat,
    live: seq<LiveProjection>, open: Open, ghost spans: seq<Span>)
    returns (live': seq<LiveProjection>, open': Open, ghost spans': seq<Span>)
    requires at == from + 60 * k
    requires AllShown(live, spans, w, rules, from) && Told(spans, open, w, rules, from, dj, k)
    ensures AllShown(live', spans', w, rules, from) && Told(spans', open', w, rules, from, dj, k + 1)
    ensures OnlyDj(spans, spans', open, open', dj)
  {
    live', open', spans' := live, open, spans;
    var nowOpen := w.window(Projected(rules), dj, at);
    var token := if nowOpen.Some? then Some(nowOpen.value.occurrence) else None;
    var before := if dj in open then Some(open[dj].0) else None;
    if token == before {
      SameWindow(spans, open, w, rules, from, dj, k);
      return;
    }
    live', open', spans' := CloseWindow(w, rules, from, dj, at, k, live, open, spans);
    ghost var s1, o1 := spans', open';
    if nowOpen.None? {
      WindowStaysShut(spans', open', w, rules, from, dj, k);
    } else {
      live', open', spans' := OpenWindow(w, rules, from, dj, at, k, nowOpen.value, live', open', spans');
      OnlyDjTwice(spans, s1, spans', open, o1, open', dj);
    }
  }

  /** Every DJ's projections after `n` minutes. */
  ghost predicate AllTold(
    live: seq<LiveProjection>, spans: seq<Span>, open: Open, w: World, rules: seq<Rule>, from: int, djs: seq<string>,
    n: nat)
  {
    && AllShown(live, spans, w, rules, from)
    && (forall dj <- djs :: Told(spans, open, w, rules, from, dj, n))
    && (forall s <- spans :: s.dj in djs)
  }

  /** The projections of a preview: one span each, of a DJ of the grid, exact. */
  ghost predicate LiveExact(
    live: seq<LiveProjection>, spans: seq<Span>, w: World, rules: seq<Rule>, from: int, n: nat)
  {
    && AllShown(live, spans, w, rules, from)
    && (forall s <- spans :: s.dj in EnabledDjs(rules))
    && (forall dj <- EnabledDjs(rules) :: DjExact(spans, w, rules, from, dj, n))
  }

  /** All the DJs of the grid, at minute `k`. */
  method WatchDjs(
    w: World, rules: seq<Rule>, from: int, djs: seq<string>, at: int, ghost k: nat,
    live: seq<LiveProjection>, open: Open, ghost spans: seq<Span>)
    returns (live': seq<LiveProjection>, open': Open, ghost spans': seq<Span>)
    requires at == from + 60 * k
    requires Text.Sorted(djs) && AllTold(live, spans, open, w, rules, from, djs, k)
    ensures AllTold(live', spans', open', w, rules, from, djs, k + 1)
  {
    live', open', spans' := live, open, spans;
    var i := 0;
    while i < |djs|
      invariant 0 <= i <= |djs| && AllShown(live', spans', w, rules, from)
      invariant forall j :: 0 <= j < i ==> Told(spans', open', w, rules, from, djs[j], k + 1)
      invariant forall j :: i <= j < |djs| ==> Told(spans', open', w, rules, from, djs[j], k)
      invariant forall s <- spans' :: s.dj in djs
    {
      ghost var was, wasOpen := spans', open';
      live', open', spans' := WatchDj(w, rules, from, djs[i], at, k, live', open', spans');
      forall j | 0 <= j < |djs| && j != i
        ensures Told(spans', open', w, rules, from, djs[j], if j < i then k + 1 else k)
      {
        Distinct(djs, i, j);
        OthersUntouched(was, spans', wasOpen, open', w, rules, from, djs[i], djs[j], if j < i then k + 1 else k);
      }
      forall s | s in spans' ensures s.dj in djs {
        var m :| 0 <= m < |spans'| && spans'[m] == s;
        if m < |was| { assert was[m] in was; }
      }
      i := i + 1;
    }
  }

  lemma Distinct(xs: seq<string>, i: nat, j: nat)
    requires Text.Sorted(xs) && i < |xs| && j < |xs| && i != j
    ensures xs[i] != xs[j]
  {
    Text.LessIsTotal(xs[i], xs[j]);
  }

  /** The pool of the decision can be inspected. */
  predicate Readable(w: World, key: Key) { key.playlist == "" || w.canonical(key.playlist).Some? }

  ghost predicate AllReadable(w: World, walk: seq<Key>) { forall key <- walk :: Readable(w, key) }

  /** The pool of a decision is inspected when it is not that of the minute
      before. */
  method Inspects(w: World, key: Key, occ: seq<Occurrence>) returns (ok: bool)
    requires forall o <- occ :: Readable(w, o.key)
    ensures ok <==> Readable(w, key)
  {
    if occ != [] && occ[|occ| - 1].key == key {
      assert occ[|occ| - 1] in occ;
      return true;
    }
    ok := key.playlist == "" || w.canonical(key.playlist).Some?;
  }

  lemma WalkHoldsMinute(w: World, rules: seq<Rule>, from: int, k: nat, n: nat)
    requires k < n
    ensures KeyAt(w, rules, from, k) in Walk(w, rules, from, n)
  {
    assert Walk(w, rules, from, n)[k] == KeyAt(w, rules, from, k);
  }

  /** The projection of `rules` from `from`, over `window` seconds (31 days at
      most); none when a minute decides on a playlist that has no canonical
      name. */
  method PreviewOf(w: World, rules: seq<Rule>, from: int, window: int)
    returns (preview: Option<(seq<Occurrence>, seq<LiveProjection>)>)
    ensures preview.Some? <==> AllReadable(w, Walk(w, rules, from, Minutes(from, window)))
    ensures preview.Some? ==>
              && Projects(preview.value.0, Walk(w, rules, from, Minutes(from, window)), from)
              && LiveProjects(preview.value.1, w, rules, from, Minutes(from, window))
  {
    var djs := EnabledDjs(rules);
    DjsAreSorted(rules);
    var end := from + Min(Max(window, 0), MAX_WINDOW_S);
    var sim := Playback(Seeds(rules, from), {});
    var open: Open := map[];
    ghost var starts: seq<nat>, spans: seq<Span> := [], [];
    var occ: seq<Occurrence>, live: seq<LiveProjection> := [], [];
    NothingTold(w, rules, from, djs);
    var secs := from;
    ghost var k := 0;
    ghost var walk: seq<Key> := [];
    while secs < end
      invariant secs == from + 60 * k && k == |walk| <= Minutes(from, window)
      invariant sim == Simulated(w, rules, from, k) && walk == Walk(w, rules, from, k)
      invariant Expands(occ, starts, walk, from)
      invariant AllReadable(w, walk) && forall o <- occ :: Readable(w, o.key)
      invariant AllTold(live, spans, open, w, rules, from, djs, k)
      decreases end - secs
    {
      MinutesAhead(from, window, k);
      var key;
      key, sim := Decide(w, rules, from, secs, k, sim);
      NextWalk(w, rules, from, k);
      live, open, spans := WatchDjs(w, rules, from, djs, secs, k, live, open, spans);
      var ok := Inspects(w, key, occ);
      if !ok {
        WalkHoldsMinute(w, rules, from, k, Minutes(from, window));
        return None;
      }
      occ, starts := Record(key, from, secs, occ, starts, walk);
      walk := walk + [key];
      secs, k := secs + 60, k + 1;
    }
    MinutesAhead(from, window, k);
    assert k == Minutes(from, window);
    ToldIsExact(live, spans, open, w, rules, from, k);
    preview := Some((occ, live));
  }

  lemma NothingTold(w: World, rules: seq<Rule>, from: int, djs: seq<string>)
    ensures AllTold([], [], map[], w, rules, from, djs, 0)
  {
  }

  lemma ToldIsExact(
    live: seq<LiveProjection>, spans: seq<Span>, open: Open, w: World, rules: seq<Rule>, from: int, n: nat)
    requires AllTold(live, spans, open, w, rules, from, EnabledDjs(rules), n)
    ensures LiveExact(live, spans, w, rules, from, n)
  {
  }

  lemma MinutesAhead(from: int, window: int, k: nat)
    ensures k < Minutes(from, window) <==> from + 60 * k < from + Min(Max(window, 0), MAX_WINDOW_S)
  {
  }

  /** The decision of a minute, and the state once its occurrence is consumed. */
  method Decide(w: World, rules: seq<Rule>, from: int, at: int, ghost k: nat, sim: Playback)
    returns (key: Key, sim': Playback)
    requires at == from + 60 * k && sim == Simulated(w, rules, from, k)
    ensures key == KeyAt(w, rules, from, k) && sim' == Simulated(w, rules, from, k + 1)
  {
    var decision := w.next(Projected(rules), at, sim);
    key, sim' := KeyOf(decision), Consume(sim, decision, at);
  }

  lemma NextWalk(w: World, rules: seq<Rule>, from: int, k: nat)
    ensures Walk(w, rules, from, k + 1) == Walk(w, rules, from, k) + [KeyAt(w, rules, from, k)]
  {
  }

  predicate OpenAt(p: LiveProjection, at: int) { p.opens <= at && (p.closes.Some? ==> at < p.closes.value) }

  /** The projections tell the windows of every enabled DJ over `n` minutes. */
  ghost predicate LiveProjects(live: seq<LiveProjection>, w: World, rules: seq<Rule>, from: int, n: nat) {
    exists spans :: LiveExact(live, spans, w, rules, from, n)
  }

  lemma SpansAreTheWindows(
    live: seq<LiveProjection>, spans: seq<Span>, w: World, rules: seq<Rule>, from: int, n: nat, dj: string, k: nat)
    requires LiveExact(live, spans, w, rules, from, n) && dj in EnabledDjs(rules) && k < n
    ensures WindowAt(w, rules, from, dj, k).Some? <==> exists p <- live :: p.dj == dj && OpenAt(p, from + 60 * k)
    ensures forall i, j :: 0 <= i < j < |live| && live[i].dj == dj && live[j].dj == dj ==>
              live[i].closes.Some? && live[i].closes.value <= live[j].opens
  {
    assert DjExact(spans, w, rules, from, dj, n);
    forall i | 0 <= i < |live| ensures OpenAt(live[i], from + 60 * k) <==> Covers(spans[i], k) {
      assert Shows(live[i], spans[i], w, rules, from);
    }
    if WindowAt(w, rules, from, dj, k).Some? {
      var i :| 0 <= i < |spans| && spans[i].dj == dj && Covers(spans[i], k);
      assert live[i] in live && live[i].dj == dj;
    }
  }

  /** A DJ's projected intervals are disjoint and in order, and hold exactly the
      minutes at which its window is open. */
  lemma LiveIntervalsAreTheWindows(
    live: seq<LiveProjection>, w: World, rules: seq<Rule>, from: int, n: nat, dj: string, k: nat)
    requires LiveProjects(live, w, rules, from, n) && dj in EnabledDjs(rules) && k < n
    ensures WindowAt(w, rules, from, dj, k).Some? <==> exists p <- live :: p.dj == dj && OpenAt(p, from + 60 * k)
    ensures forall i, j :: 0 <= i < j < |live| && live[i].dj == dj && live[j].dj == dj ==>
              live[i].closes.Some? && live[i].closes.value <= live[j].opens
  {
    var spans :| LiveExact(live, spans, w, rules, from, n);
    SpansAreTheWindows(live, spans, w, rules, from, n, dj, k);
  }
}
