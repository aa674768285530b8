/** What airs next (`next_media`, src/grid_engine.rs). */
module GridEngine {
  import opened Base
  import opened Resolver
  import opened GridSearch

  /** Seconds before a hard mark during which selection protects it. */
  const HARD_GUARD_S := 600
  /** Seconds a track may run past a hard mark. */
  const HARD_FINISH_TOLERANCE_S := 15

  // =====================================================================
  // The late budget
  // =====================================================================

  /** What the engine reads besides its own state: the rules, the resolver at any
      instant, whether a hard decision falls on a minute, the next hard mark, and
      the canonical name of a playlist. */
  datatype World = World(
    rules: seq<Rule>,
    resolve: (int, Playback) -> seq<Decision>,
    falls: (Decision, int) -> bool,
    nextHardMark: (int, Playback) -> Option<int>,
    canonical: string -> Option<string>)

  function RuleNamed(rules: seq<Rule>, id: Option<string>): Option<Rule> {
    if rules == [] then None
    else if Some(rules[0].id) == id then Some(rules[0])
    else RuleNamed(rules[1..], id)
  }

  function ExpiryOf(w: World, d: Decision): Option<int> {
    match RuleNamed(w.rules, d.ruleId)
    case Some(r) => if r.kind.AtClock? && r.kind.expiry.Some? then Some(r.kind.expiry.value) else None
    case None => None
  }

  function FallingAt(w: World, ds: seq<Decision>, mark: int): seq<Decision> {
    if ds == [] then []
    else
      (if ds[0].origin == FromAtClockHard && w.falls(ds[0], mark) then [ds[0]] else []) + FallingAt(w, ds[1..], mark)
  }

  function Due(w: World, pb: Playback, mark: int): seq<Decision> { FallingAt(w, w.resolve(mark, pb), mark) }

  function LeastExpiry(w: World, due: seq<Decision>): Option<int> {
    if due == [] then None
    else
      match (ExpiryOf(w, due[0]), LeastExpiry(w, due[1..]))
      case (None, rest) => rest
      case (first, None) => first
      case (Some(a), Some(b)) => Some(Min(a, b))
  }

  lemma {:induction false} LeastExpiryIsLeast(w: World, due: seq<Decision>)
    ensures LeastExpiry(w, due).None? <==> forall d <- due :: ExpiryOf(w, d).None?
    ensures var least := LeastExpiry(w, due);
            least.Some? ==>
              && (exists d <- due :: ExpiryOf(w, d) == least)
              && (forall d <- due :: ExpiryOf(w, d).Some? ==> least.value <= ExpiryOf(w, d).value)
    decreases |due|
  {
    if due != [] {
      LeastExpiryIsLeast(w, due[1..]);
      assert due[0] in due;
      assert forall d <- due[1..] :: d in due;
    }
  }

  /** Every occurrence due at the mark is due at `at` too. */
  predicate StillDue(w: World, pb: Playback, due: seq<Decision>, at: int) {
    var later := w.resolve(at, pb);
    forall d <- due :: exists l <- later :: l.ruleId == d.ruleId && l.mark == d.mark
  }

  function Deadline(w: World, pb: Playback, due: seq<Decision>, mark: int, offset: int, extension: int): int
    decreases extension - offset
  {
    if offset > extension then mark + extension
    else if !StillDue(w, pb, due, mark + offset) then mark + offset - 1
    else Deadline(w, pb, due, mark, offset + 60, extension)
  }

  function ExpiryBudget(w: World, pb: Playback, now: int, mark: int): Option<int> {
    var due := Due(w, pb, mark);
    var expiry := LeastExpiry(w, due);
    if expiry.None? then None
    else
      var deadline := Deadline(w, pb, due, mark, 60, Min(expiry.value, HARD_GUARD_S));
      if deadline > now then Some((deadline - now) * 1000) else None
  }

  lemma {:induction false} DeadlineIsSafe(
    w: World, pb: Playback, due: seq<Decision>, mark: int, offset: int, extension: int)
    requires 0 <= extension && 60 <= offset <= extension + 60 && offset % 60 == 0
    requires forall k :: 0 < k && 60 * k < offset ==> StillDue(w, pb, due, mark + 60 * k)
    ensures var deadline := Deadline(w, pb, due, mark, offset, extension);
            && deadline <= mark + extension
            && (forall k :: 0 < k && mark + 60 * k <= deadline ==> StillDue(w, pb, due, mark + 60 * k))
            && (deadline == mark + extension
                || ((deadline + 1 - mark) % 60 == 0 && !StillDue(w, pb, due, deadline + 1)))
    decreases extension - offset
  {
    if offset <= extension && StillDue(w, pb, due, mark + offset) {
      forall k | 0 < k && 60 * k < offset + 60 ensures StillDue(w, pb, due, mark + 60 * k) {
        if 60 * k >= offset { assert 60 * k == offset; }
      }
      DeadlineIsSafe(w, pb, due, mark, offset + 60, extension);
    }
  }

  /** The late budget never lets a track run past an expiry, past the guard, or
      into a minute at which an occurrence due at the mark has lapsed, and it is
      as long as that allows. */
  lemma LateBudgetIsSafe(w: World, pb: Playback, now: int, mark: int) returns (deadline: int)
    requires ExpiryBudget(w, pb, now, mark).Some?
    ensures ExpiryBudget(w, pb, now, mark).value == (deadline - now) * 1000 > 0
    ensures deadline <= mark + HARD_GUARD_S
    ensures forall d <- Due(w, pb, mark) :: ExpiryOf(w, d).Some? ==> deadline <= mark + ExpiryOf(w, d).value
    ensures forall k :: 0 < k && mark + 60 * k <= deadline ==> StillDue(w, pb, Due(w, pb, mark), mark + 60 * k)
    ensures || deadline == mark + HARD_GUARD_S
            || (exists d <- Due(w, pb, mark) :: ExpiryOf(w, d) == Some(deadline - mark))
            || ((deadline + 1 - mark) % 60 == 0 && !StillDue(w, pb, Due(w, pb, mark), deadline + 1))
  {
    var due := Due(w, pb, mark);
    LeastExpiryIsLeast(w, due);
    var extension := Min(LeastExpiry(w, due).value, HARD_GUARD_S);
    ExpiriesAreNatural(w);
    DeadlineIsSafe(w, pb, due, mark, 60, extension);
    deadline := Deadline(w, pb, due, mark, 60, extension);
  }

  lemma ExpiriesAreNatural(w: World)
    ensures forall d :: ExpiryOf(w, d).Some? ==> 0 <= ExpiryOf(w, d).value
  {}

  // =====================================================================
  // The pull
  // =====================================================================

  /** A group holding the air: the rule that started it, and when. */
  datatype Hold = Hold(ruleId: string, playlist: string, origin: Origin, startedAt: int)

  datatype Incident =
    | SourceEmpty(ruleId: Option<string>, playlist: string, origin: Origin, at: int)
    | BoundaryOverrun(mark: int, media: string)

  /** One track logged as started. */
  datatype Entry = Entry(decision: Decision, media: string, at: int)

  /** What a pull may change: the held group, cooldowns and consumed
      occurrences, the groups put back to the top of their cycle, the incidents
      and the broadcast log. */
  datatype Store = Store(
    hold: Option<Hold>,
    playback: Playback,
    restarted: seq<string>,
    incidents: seq<Incident>,
    log: seq<Entry>)

  /** One call: the gate, whether the station just woke (and the clock marks it
      slept through), the override queue's offer, the selection's answers. */
  datatype Pull = Pull(
    now: int,
    halted: bool,
    woken: bool,
    missed: set<string>,
    override: Option<string>,
    produce: Request -> Outcome)

  datatype Reply =
    | Halted
    | Overridden(media: string)
    | Aired(decision: Decision, media: string)
    | FallbackAir
    | PoolEmpty
    | Error

  function EndHold(w: World, s: Store, playlist: string): Store {
    var key := w.canonical(playlist);
    s.(hold := None, restarted := if key.Some? then s.restarted + [key.value] else s.restarted)
  }

  function Woken(w: World, s: Store, p: Pull): Store {
    if !p.woken then s
    else
      var s1 := s.(playback := s.playback.(taken := s.playback.taken + p.missed));
      if s.hold.Some? then EndHold(w, s1, s.hold.value.playlist) else s1
  }

  /** The rule that started the hold is still there, enabled, and still points at
      the group. */
  predicate Stands(rules: seq<Rule>, h: Hold) {
    exists r <- rules ::
      r.enabled && r.id == h.ruleId && (r.kind.Every? || r.kind.AtClock?) && r.kind.playlist == h.playlist
  }

  function WithCurrentHold(w: World, s: Store): Store {
    if s.hold.Some? && !Stands(w.rules, s.hold.value) then EndHold(w, s, s.hold.value.playlist) else s
  }

  function HeldDecision(h: Hold): Decision {
    Decision(
      if h.origin == FromAtClockHard || h.origin == FromAtClockSoft then h.origin else FromEvery,
      Some(h.ruleId), Some(h.playlist), None)
  }

  /** Right after the hard rendez-vous. */
  function HoldPosition(ranked: seq<Decision>): (at: nat)
    ensures at <= |ranked|
    ensures forall k :: 0 <= k < at ==> ranked[k].origin == FromAtClockHard
    ensures at < |ranked| ==> ranked[at].origin != FromAtClockHard
  {
    if ranked == [] || ranked[0].origin != FromAtClockHard then 0 else 1 + HoldPosition(ranked[1..])
  }

  function HardFit(now: int, mark: Option<int>): Option<int> {
    if mark.Some? && mark.value > now && mark.value - now <= HARD_GUARD_S
    then Some((mark.value - now + HARD_FINISH_TOLERANCE_S) * 1000)
    else None
  }

  function LateFit(w: World, pb: Playback, now: int, mark: Option<int>): Option<int> {
    if mark.Some? && HardFit(now, mark).Some? then
      var late := ExpiryBudget(w, pb, now, mark.value);
      if late.Some? && late.value > HardFit(now, mark).value then late else None
    else None
  }

  function Budgets(hard: Option<int>, late: Option<int>): seq<Option<int>> {
    if hard.None? then [None] else if late.None? then [hard, None] else [hard, late, None]
  }

  function SearchFor(w: World, s: Store, p: Pull): (search: Search)
    ensures search.Valid()
  {
    var ranked := w.resolve(p.now, s.playback);
    var at := HoldPosition(ranked);
    var mark := w.nextHardMark(p.now + 1, s.playback);
    var budgets := Budgets(HardFit(p.now, mark), LateFit(w, s.playback, p.now, mark));
    if s.hold.Some?
    then Search(ranked[..at] + [HeldDecision(s.hold.value)] + ranked[at..], Some(at), budgets, p.produce)
    else Search(ranked, None, budgets, p.produce)
  }

  /** Source `i` was found empty: a held group is released, another source is
      reported. */
  function AfterEmpty(w: World, s: Store, search: Search, i: nat, now: int): Store
    requires i < |search.ranked|
  {
    var d := search.ranked[i];
    if d.playlist.None? then s
    else if search.Held(i) then EndHold(w, s, d.playlist.value)
    else s.(incidents := s.incidents + [SourceEmpty(d.ruleId, d.playlist.value, d.origin, now)])
  }

  ghost predicate InRange(search: Search, ranks: seq<nat>) {
    forall k :: 0 <= k < |ranks| ==> ranks[k] < |search.ranked|
  }

  function AfterEmpties(w: World, s: Store, search: Search, ranks: seq<nat>, now: int): Store
    requires InRange(search, ranks)
  {
    if ranks == [] then s
    else AfterEmpty(w, AfterEmpties(w, s, search, ranks[..|ranks| - 1], now), search, ranks[|ranks| - 1], now)
  }

  function PersistEffects(s: Store, d: Decision, now: int): Store {
    var taken := if d.mark.Some? then s.playback.taken + {d.mark.value} else s.playback.taken;
    var every :=
      if d.origin == FromEvery && d.ruleId.Some?
      then s.playback.every[d.ruleId.value := EveryState(Some(now), 0)]
      else s.playback.every;
    s.(playback := Playback(every, taken))
  }

  function StartHold(w: World, s: Store, d: Decision, holds: bool, now: int): Store {
    if !Punctual(d.origin) || d.ruleId.None? || d.playlist.None? || !holds then s
    else
      var s1 :=
        if s.hold.Some? && s.hold.value.playlist != d.playlist.value then EndHold(w, s, s.hold.value.playlist) else s;
      s1.(hold := Some(Hold(d.ruleId.value, d.playlist.value, d.origin, now)))
  }

  function AfterTurn(w: World, s: Store, search: Search, i: nat, late: bool, turn: Outcome, p: Pull): Store
    requires i < |search.ranked| && turn.Turn?
  {
    var d := search.ranked[i];
    var mark := w.nextHardMark(p.now + 1, s.playback);
    var s1 :=
      if late && mark.Some?
      then s.(incidents := s.incidents + [BoundaryOverrun(mark.value, turn.media)])
      else s;
    var s2 :=
      if search.Held(i) then (if turn.holds then s1 else s1.(hold := None))
      else StartHold(w, PersistEffects(s1, d, p.now), d, turn.holds, p.now);
    s2.(log := s2.log + [Entry(d, turn.media, p.now)])
  }

  function Settled(w: World, s: Store, search: Search, c: Course, p: Pull): (Store, Reply)
    requires InRange(search, c.empties)
    requires c.end.Won? ==>
               c.end.rank < |search.ranked| && c.end.tier < |search.budgets| &&
                 search.Answer(c.end.rank, c.end.tier).Turn?
  {
    var s1 := AfterEmpties(w, s, search, c.empties, p.now);
    match c.end
    case Won(i, t) =>
      var turn := search.Answer(i, t);
      (AfterTurn(w, s1, search, i, t > 0, turn, p), Aired(search.ranked[i], turn.media))
    case Broke(_, _) => (s1, Error)
    case Dry => (s1, if search.ranked == [] then FallbackAir else PoolEmpty)
  }

  lemma {:induction false} EmptyRanksInRange(s: Search, tries: seq<Try>)
    requires QueueOk(s, tries)
    ensures InRange(s, EmptyRanks(s, tries))
    decreases |tries|
  {
    if tries != [] { EmptyRanksInRange(s, tries[1..]); }
  }

  /** The engine's state as the pull searches it. */
  function Ready(w: World, s: Store, p: Pull): Store { WithCurrentHold(w, Woken(w, s, p)) }

  function CourseOf(w: World, s: Store, p: Pull): (c: Course)
    ensures InRange(SearchFor(w, Ready(w, s, p), p), c.empties)
    ensures var search := SearchFor(w, Ready(w, s, p), p);
            c.end.Won? ==>
              c.end.rank < |search.ranked| && c.end.tier < |search.budgets| &&
              search.Answer(c.end.rank, c.end.tier).Turn?
  {
    var search := SearchFor(w, Ready(w, s, p), p);
    DrainIsTheSearch(search);
    var c := Drain(search, Opening(search));
    EmptyRanksInRange(search, c.tries);
    c
  }

  function Next(w: World, s: Store, p: Pull): (Store, Reply) {
    if p.halted then (s, Halted)
    else if p.override.Some? then (Woken(w, s, p), Overridden(p.override.value))
    else Settled(w, Ready(w, s, p), SearchFor(w, Ready(w, s, p), p), CourseOf(w, s, p), p)
  }

  // =====================================================================
  // What a pull promises
  // =====================================================================

  lemma {:induction false} EmptiesOnlyRelease(w: World, s: Store, search: Search, ranks: seq<nat>, now: int)
    requires InRange(search, ranks)
    ensures var s1 := AfterEmpties(w, s, search, ranks, now);
            && s1.playback == s.playback && s1.log == s.log
            && s1.hold == if exists i <- ranks :: search.Held(i) && search.ranked[i].playlist.Some? then None
                  else s.hold
    decreases |ranks|
  {
    if ranks != [] {
      var n := |ranks| - 1;
      EmptiesOnlyRelease(w, s, search, ranks[..n], now);
      assert ranks == ranks[..n] + [ranks[n]];
    }
  }

  /** A pull airs the source of the least (budget, rank) try that ends it, when
      that try produced a media; an error before it surfaces; the pull finds the
      pool empty, or falls back, exactly when no try ends it. */
  lemma PullAirsTheFirst(w: World, s: Store, p: Pull)
    requires !p.halted && p.override.None?
    ensures var search := SearchFor(w, Ready(w, s, p), p);
            match Next(w, s, p).1
            case Aired(d, media) =>
              exists i: nat, t: nat :: search.IsFirst(i, t) && d == search.ranked[i] && search.Answer(i, t).Turn? &&
                media == search.Answer(i, t).media
            case Error =>
              exists i: nat, t: nat :: search.IsFirst(i, t) && !search.Answer(i, t).Turn?
            case PoolEmpty =>
              && search.ranked != []
              && forall i: nat, t: nat :: i < |search.ranked| && t < |search.budgets| && search.Reached(i, t) ==>
                    !search.Ends(i, t)
            case FallbackAir => search.ranked == []
            case _ => false
  {
    DrainIsTheSearch(SearchFor(w, Ready(w, s, p), p));
  }

  /** Who was found empty before the pull ended. */
  ghost predicate FoundNothing(search: Search, end: End, i: nat) {
    exists t: nat :: Asks(search, i, t) && NotAfterEnd(search, end, i, t) && search.Answer(i, t) == Nothing
  }

  lemma {:induction false} EmptyRanksAre(s: Search, tries: seq<Try>, i: nat)
    requires QueueOk(s, tries)
    ensures i in EmptyRanks(s, tries) <==> exists q <- tries :: q.rank == i && s.Answer(q.rank, q.tier) == Nothing
    decreases |tries|
  {
    if tries != [] {
      EmptyRanksAre(s, tries[1..], i);
      assert tries == [tries[0]] + tries[1..];
    }
  }

  lemma EmptiesFound(w: World, s: Store, p: Pull, i: nat)
    ensures var search := SearchFor(w, Ready(w, s, p), p);
            i in CourseOf(w, s, p).empties <==> FoundNothing(search, CourseOf(w, s, p).end, i)
  {
    var search := SearchFor(w, Ready(w, s, p), p);
    var c := CourseOf(w, s, p);
    DrainIsTheSearch(search);
    EmptyRanksAre(search, c.tries, i);
    if FoundNothing(search, c.end, i) {
      var t: nat :| Asks(search, i, t) && NotAfterEnd(search, c.end, i, t) && search.Answer(i, t) == Nothing;
      assert Try(i, t) in c.tries;
    }
    if q :| q in c.tries && q.rank == i && search.Answer(q.rank, q.tier) == Nothing {
      assert Try(q.rank, q.tier) in c.tries;
    }
  }

  /** The effects of a pull on the playback state and the log. */
  ghost predicate OnlyTheWinners(ready: Store, search: Search, end: End, after: Store, reply: Reply, now: int) {
    if !reply.Aired? then after.playback == ready.playback && after.log == ready.log
    else
      var d := reply.decision;
      && end.Won? && after.log == ready.log + [Entry(d, reply.media, now)]
      && after.playback ==
           if search.Held(end.rank) then ready.playback
           else Playback(
             if d.origin == FromEvery && d.ruleId.Some?
             then ready.playback.every[d.ruleId.value := EveryState(Some(now), 0)]
             else ready.playback.every,
             ready.playback.taken + (if d.mark.Some? then {d.mark.value} else {}))
  }

  lemma SettledEffects(w: World, s: Store, search: Search, c: Course, p: Pull)
    requires InRange(search, c.empties)
    requires c.end.Won? ==>
               c.end.rank < |search.ranked| && c.end.tier < |search.budgets| &&
                 search.Answer(c.end.rank, c.end.tier).Turn?
    ensures OnlyTheWinners(s, search, c.end, Settled(w, s, search, c, p).0, Settled(w, s, search, c, p).1, p.now)
  {
    EmptiesOnlyRelease(w, s, search, c.empties, p.now);
    if c.end.Won? {
      TurnEffects(w, AfterEmpties(w, s, search, c.empties, p.now), search, c.end.rank, c.end.tier > 0,
        search.Answer(c.end.rank, c.end.tier), p);
    }
  }

  /** Cooldowns, consumed occurrences and the log change once at most, and only
      for the source that airs; a held turn consumes nothing. */
  lemma EffectsBelongToTheWinner(w: World, s: Store, p: Pull)
    requires !p.halted && p.override.None?
    ensures OnlyTheWinners(
              Ready(w, s, p), SearchFor(w, Ready(w, s, p), p), CourseOf(w, s, p).end,
              Next(w, s, p).0, Next(w, s, p).1, p.now)
  {
    SettledEffects(w, Ready(w, s, p), SearchFor(w, Ready(w, s, p), p), CourseOf(w, s, p), p);
  }

  lemma TurnEffects(w: World, s: Store, search: Search, i: nat, late: bool, turn: Outcome, p: Pull)
    requires i < |search.ranked| && turn.Turn?
    ensures var d, after := search.ranked[i], AfterTurn(w, s, search, i, late, turn, p);
            && after.log == s.log + [Entry(d, turn.media, p.now)]
            && after.playback == if search.Held(i) then s.playback else PersistEffects(s, d, p.now).playback
  {
  }

  lemma TurnHold(w: World, s: Store, search: Search, i: nat, late: bool, turn: Outcome, p: Pull)
    requires i < |search.ranked| && turn.Turn? && search.ranked[i].playlist.Some?
    ensures var d, after := search.ranked[i], AfterTurn(w, s, search, i, late, turn, p);
            after.hold ==
              if search.Held(i) then (if turn.holds then s.hold else None)
              else if Punctual(d.origin) && d.ruleId.Some? && turn.holds
              then Some(Hold(d.ruleId.value, d.playlist.value, d.origin, p.now))
              else s.hold
  {
  }

  /** A group held is searched at its place, if it is searched at all. */
  lemma EmptiesRelease(w: World, s: Store, p: Pull)
    ensures var ready, c := Ready(w, s, p), CourseOf(w, s, p); var search := SearchFor(w, ready, p);
            AfterEmpties(w, ready, search, c.empties, p.now).hold ==
              if search.heldAt.Some? && FoundNothing(search, c.end, search.heldAt.value) then None else ready.hold
  {
    var ready, c := Ready(w, s, p), CourseOf(w, s, p);
    var search := SearchFor(w, ready, p);
    EmptiesOnlyRelease(w, ready, search, c.empties, p.now);
    if search.heldAt.Some? { EmptiesFound(w, s, p, search.heldAt.value); }
  }

  /** What holds the air after a pull: the winner's own group, if it just started
      a cycle; the held group, until its cycle ends or it is found empty. */
  lemma HoldAfterPull(w: World, s: Store, p: Pull)
    requires Next(w, s, p).1.Aired?
    ensures var ready, (after, reply), c := Ready(w, s, p), Next(w, s, p), CourseOf(w, s, p);
            var search := SearchFor(w, ready, p);
            var d, turn := reply.decision, search.Answer(c.end.rank, c.end.tier);
            after.hold ==
              if search.Held(c.end.rank) then (if turn.holds then ready.hold else None)
              else if Punctual(d.origin) && d.ruleId.Some? && turn.holds
              then Some(Hold(d.ruleId.value, d.playlist.value, d.origin, p.now))
              else if search.heldAt.Some? && FoundNothing(search, c.end, search.heldAt.value) then None
              else ready.hold
  {
    var ready, c := Ready(w, s, p), CourseOf(w, s, p);
    var search := SearchFor(w, ready, p);
    DrainIsTheSearch(search);
    EmptiesRelease(w, s, p);
    assert search.ranked[c.end.rank].playlist.Some?;
    TurnHold(w, AfterEmpties(w, ready, search, c.empties, p.now), search, c.end.rank, c.end.tier > 0,
      search.Answer(c.end.rank, c.end.tier), p);
  }

  /** A held group whose turn is ready airs before everything but the hard
      rendez-vous: if none of those produces, it keeps the air. */
  lemma HeldGroupKeepsTheAir(w: World, s: Store, p: Pull)
    requires !p.halted && p.override.None? && Ready(w, s, p).hold.Some?
    requires var search := SearchFor(w, Ready(w, s, p), p);
             && search.Answer(search.heldAt.value, 0).Turn?
             && (forall i: nat :: i < search.heldAt.value && search.ranked[i].origin == FromAtClockHard ==>
                   !search.Ends(i, 0))
    ensures var search := SearchFor(w, Ready(w, s, p), p);
            Next(w, s, p).1 ==
              Aired(HeldDecision(Ready(w, s, p).hold.value), search.Answer(search.heldAt.value, 0).media)
    ensures Next(w, s, p).0.playback == Ready(w, s, p).playback
  {
    var search := SearchFor(w, Ready(w, s, p), p);
    var at := search.heldAt.value;
    assert search.IsFirst(at, 0);
    DrainIsTheSearch(search);
    var c := CourseOf(w, s, p);
    assert search.IsFirst(c.end.rank, c.end.tier);
    FirstIsUnique(search, at, 0, c.end.rank, c.end.tier);
    EffectsBelongToTheWinner(w, s, p);
  }

  // =====================================================================
  // Runs of pulls
  // =====================================================================

  datatype Step = Step(world: World, pull: Pull)

  function Run(s: Store, steps: seq<Step>): Store
    decreases |steps|
  {
    if steps == [] then s else Run(Next(steps[0].world, s, steps[0].pull).0, steps[1..])
  }

  /** The resolver offers no occurrence already consumed (src/resolver.rs:283). */
  ghost predicate OffersFreshMarks(w: World) {
    forall at, pb, d :: d in w.resolve(at, pb) && d.mark.Some? ==> d.mark.value !in pb.taken
  }

  ghost predicate OccurrencesOnce(s: Store) {
    && (forall e <- s.log :: e.decision.mark.Some? ==> e.decision.mark.value in s.playback.taken)
    && (forall a, b :: 0 <= a < b < |s.log| && s.log[a].decision.mark.Some? ==>
          s.log[a].decision.mark != s.log[b].decision.mark)
  }

  lemma MarksComeFromTheResolver(w: World, s: Store, p: Pull, i: nat)
    requires i < |SearchFor(w, s, p).ranked| && SearchFor(w, s, p).ranked[i].mark.Some?
    ensures SearchFor(w, s, p).ranked[i] in w.resolve(p.now, s.playback)
  {
  }

  lemma OneMoreEntry(s: Store, after: Store, e: Entry)
    requires OccurrencesOnce(s) && s.playback.taken <= after.playback.taken
    requires after.log == s.log + [e]
    requires e.decision.mark.Some? ==>
               e.decision.mark.value !in s.playback.taken && e.decision.mark.value in after.playback.taken
    ensures OccurrencesOnce(after)
  {
  }

  lemma ReadyTakes(w: World, s: Store, p: Pull)
    ensures Ready(w, s, p).log == s.log
    ensures Ready(w, s, p).playback.taken == s.playback.taken + (if p.woken then p.missed else {})
  {
  }

  /** The occurrence a pull airs was not consumed, and now is. */
  lemma AiredMarkWasFresh(w: World, s: Store, p: Pull)
    requires !p.halted && p.override.None? && OffersFreshMarks(w) && Next(w, s, p).1.Aired?
    ensures var (after, reply), ready := Next(w, s, p), Ready(w, s, p);
            && after.log == ready.log + [Entry(reply.decision, reply.media, p.now)]
            && ready.playback.taken <= after.playback.taken
            && (reply.decision.mark.Some? ==>
                  reply.decision.mark.value !in ready.playback.taken &&
                    reply.decision.mark.value in after.playback.taken)
  {
    var ready, c, reply := Ready(w, s, p), CourseOf(w, s, p), Next(w, s, p).1;
    EffectsBelongToTheWinner(w, s, p);
    if reply.decision.mark.Some? { MarksComeFromTheResolver(w, ready, p, c.end.rank); }
  }

  lemma PullKeepsOccurrences(w: World, s: Store, p: Pull)
    requires OffersFreshMarks(w) && OccurrencesOnce(s)
    ensures OccurrencesOnce(Next(w, s, p).0)
  {
    var (after, reply) := Next(w, s, p);
    if !p.halted && p.override.None? {
      ReadyTakes(w, s, p);
      if reply.Aired? {
        AiredMarkWasFresh(w, s, p);
        OneMoreEntry(s, after, Entry(reply.decision, reply.media, p.now));
      } else {
        EffectsBelongToTheWinner(w, s, p);
      }
    }
  }

  /** Over any run of pulls, whatever the selection, the overrides and the wakes
      do, a clock occurrence airs at most once. */
  lemma {:induction false} OccurrencesAirOnce(s: Store, steps: seq<Step>)
    requires OccurrencesOnce(s) && forall k :: 0 <= k < |steps| ==> OffersFreshMarks(steps[k].world)
    ensures OccurrencesOnce(Run(s, steps))
    decreases |steps|
  {
    if steps != [] {
      PullKeepsOccurrences(steps[0].world, s, steps[0].pull);
      OccurrencesAirOnce(Next(steps[0].world, s, steps[0].pull).0, steps[1..]);
    }
  }

  ghost predicate NeverSince(before: Store, after: Store, mark: string) {
    && mark in after.playback.taken && before.log <= after.log
    && forall k :: |before.log| <= k < |after.log| ==> after.log[k].decision.mark != Some(mark)
  }

  lemma PullSkipsConsumed(w: World, s: Store, p: Pull, mark: string)
    requires OffersFreshMarks(w)
    requires mark in s.playback.taken || (!p.halted && p.woken && mark in p.missed)
    ensures NeverSince(s, Next(w, s, p).0, mark)
  {
    var (after, reply) := Next(w, s, p);
    if !p.halted && p.override.None? {
      ReadyTakes(w, s, p);
      if reply.Aired? { AiredMarkWasFresh(w, s, p); } else { EffectsBelongToTheWinner(w, s, p); }
    }
  }

  /** A consumed occurrence, and one slept through, never airs in any later run:
      a wake catches nothing up. */
  lemma {:induction false} ConsumedNeverAirs(s: Store, steps: seq<Step>, mark: string)
    requires forall k :: 0 <= k < |steps| ==> OffersFreshMarks(steps[k].world)
    requires || mark in s.playback.taken
             || (steps != [] && !steps[0].pull.halted && steps[0].pull.woken && mark in steps[0].pull.missed)
    ensures NeverSince(s, Run(s, steps), mark)
    decreases |steps|
  {
    if steps != [] {
      var next := Next(steps[0].world, s, steps[0].pull).0;
      PullSkipsConsumed(steps[0].world, s, steps[0].pull, mark);
      ConsumedNeverAirs(next, steps[1..], mark);
    }
  }

  /** The held group was started by a track that aired, of a punctual rule. */
  ghost predicate HoldFromLog(s: Store) {
    s.hold.Some? ==>
      var h := s.hold.value;
      && Punctual(h.origin)
      && (exists e <- s.log ::
           e.decision.ruleId == Some(h.ruleId) && e.decision.playlist == Some(h.playlist)
           && e.decision.origin == h.origin && e.at == h.startedAt)
  }

  lemma ReadyHold(w: World, s: Store, p: Pull)
    requires HoldFromLog(s)
    ensures HoldFromLog(Ready(w, s, p)) && HoldFromLog(Woken(w, s, p)) && Ready(w, s, p).log == s.log
  {
  }

  lemma HoldFromMore(s: Store, after: Store)
    requires HoldFromLog(s) && s.log <= after.log && (after.hold == s.hold || after.hold.None?)
    ensures HoldFromLog(after)
  {
    if after.hold.Some? {
      var h := s.hold.value;
      var e :| e in s.log && e.decision.ruleId == Some(h.ruleId) && e.decision.playlist == Some(h.playlist)
        && e.decision.origin == h.origin && e.at == h.startedAt;
      var k :| 0 <= k < |s.log| && s.log[k] == e;
      assert after.log[k] == e;
    }
  }

  lemma HoldFromEntry(after: Store, d: Decision, media: string, now: int)
    requires Punctual(d.origin) && d.ruleId.Some? && d.playlist.Some? && Entry(d, media, now) in after.log
    requires after.hold == Some(Hold(d.ruleId.value, d.playlist.value, d.origin, now))
    ensures HoldFromLog(after)
  {
  }

  lemma PullKeepsHold(w: World, s: Store, p: Pull)
    requires HoldFromLog(s)
    ensures HoldFromLog(Next(w, s, p).0)
  {
    var ((after, reply), ready) := (Next(w, s, p), Ready(w, s, p));
    ReadyHold(w, s, p);
    if !p.halted && p.override.None? {
      EffectsBelongToTheWinner(w, s, p);
      if reply.Aired? {
        HoldAfterPull(w, s, p);
        var d := reply.decision;
        assert after.log[|s.log|] in after.log;
        if after.hold == ready.hold || after.hold.None? {
          HoldFromMore(ready, after);
        } else {
          HoldFromEntry(after, d, reply.media, p.now);
        }
      } else {
        EmptiesOnlyRelease(w, ready, SearchFor(w, ready, p), CourseOf(w, s, p).empties, p.now);
        HoldFromMore(ready, after);
      }
    }
  }

  lemma {:induction false} HoldsComeFromTheLog(s: Store, steps: seq<Step>)
    requires HoldFromLog(s)
    ensures HoldFromLog(Run(s, steps))
    decreases |steps|
  {
    if steps != [] {
      PullKeepsHold(steps[0].world, s, steps[0].pull);
      HoldsComeFromTheLog(Next(steps[0].world, s, steps[0].pull).0, steps[1..]);
    }
  }

  // =====================================================================
  // The engine
  // =====================================================================

  /** The latest instant a late track may reach, walking the minutes after the
      mark. */
  method HardExpiryBudget(w: World, pb: Playback, now: int, mark: int) returns (budget: Option<int>)
    ensures budget == ExpiryBudget(w, pb, now, mark)
  {
    var due := Due(w, pb, mark);
    var expiry := LeastExpiry(w, due);
    if expiry.None? { return None; }
    var extension := Min(expiry.value, HARD_GUARD_S);
    var deadline := mark + extension;
    var offset := 60;
    while offset <= extension
      invariant Deadline(w, pb, due, mark, 60, extension) == Deadline(w, pb, due, mark, offset, extension)
      invariant deadline == mark + extension
      decreases extension - offset
    {
      if !StillDue(w, pb, due, mark + offset) {
        deadline := mark + offset - 1;
        break;
      }
      offset := offset + 60;
    }
    return if deadline > now then Some((deadline - now) * 1000) else None;
  }

  /** The budgets of a pull: on time for the next hard mark, late but within its
      expiry, none. */
  method FitBudgets(w: World, pb: Playback, now: int) returns (hard: Option<int>, late: Option<int>)
    ensures hard == HardFit(now, w.nextHardMark(now + 1, pb))
    ensures late == LateFit(w, pb, now, w.nextHardMark(now + 1, pb))
  {
    var mark := w.nextHardMark(now + 1, pb);
    hard, late := HardFit(now, mark), None;
    if mark.Some? && hard.Some? {
      late := HardExpiryBudget(w, pb, now, mark.value);
      if late.Some? && late.value <= hard.value { late := None; }
    }
  }

  /** An attempt as it waits in the queue: its rank, decision and budget. */
  datatype Attempt = Attempt(rank: nat, decision: Decision, budget: Option<int>)

  ghost predicate Waits(search: Search, a: Attempt, q: Try) {
    && q.rank < |search.ranked| && q.tier < |search.budgets|
    && a == Attempt(q.rank, search.ranked[q.rank], search.budgets[q.tier])
  }

  /** Each try of the queue waits as its attempt. */
  ghost predicate Lined(search: Search, attempts: seq<Attempt>, queue: seq<Try>) {
    |attempts| == |queue| && forall k :: 0 <= k < |queue| ==> Waits(search, attempts[k], queue[k])
  }

  /** What was tried and found empty so far, and what the queue will add, make
      the whole course. */
  ghost predicate AddsUp(course: Course, rest: Course, empties: seq<nat>, tried: seq<Try>) {
    course.end == rest.end && course.empties == empties + rest.empties && course.tries == tried + rest.tries
  }

  /** The pull in progress. */
  ghost predicate Underway(
    search: Search, course: Course, attempts: seq<Attempt>, queue: seq<Try>, empties: seq<nat>, tried: seq<Try>)
  {
    && search.Valid() && QueueOk(search, queue) && InRange(search, empties)
    && Lined(search, attempts, queue)
    && AddsUp(course, Drain(search, queue), empties, tried)
  }

  lemma UnderwayAtFirst(search: Search, attempts: seq<Attempt>)
    requires search.Valid() && QueueOk(search, Opening(search)) && |attempts| == |search.ranked|
    requires forall k :: 0 <= k < |attempts| ==> attempts[k] == Attempt(k, search.ranked[k], search.budgets[0])
    ensures Underway(search, Drain(search, Opening(search)), attempts, Opening(search), [], [])
  {
  }

  lemma LinedBehind(search: Search, attempts: seq<Attempt>, queue: seq<Try>)
    requires Lined(search, attempts, queue) && queue != []
    ensures Lined(search, attempts[1..], queue[1..])
  {
  }

  lemma LinedWith(search: Search, attempts: seq<Attempt>, queue: seq<Try>, a: Attempt, q: Try)
    requires Lined(search, attempts, queue) && Waits(search, a, q)
    ensures Lined(search, attempts + [a], queue + [q])
  {
  }

  lemma AddsUpAsked(course: Course, rest: Course, empties: seq<nat>, tried: seq<Try>, q: Try)
    requires AddsUp(course, Asked(rest, q), empties, tried)
    ensures AddsUp(course, rest, empties, tried + [q])
  {
    assert tried + ([q] + rest.tries) == tried + [q] + rest.tries;
  }

  lemma AddsUpEmpty(course: Course, rest: Course, empties: seq<nat>, tried: seq<Try>, q: Try)
    requires AddsUp(course, FoundEmpty(rest, q), empties, tried)
    ensures AddsUp(course, rest, empties + [q.rank], tried)
  {
    assert empties + ([q.rank] + rest.empties) == empties + [q.rank] + rest.empties;
  }

  lemma DrainPast(search: Search, queue: seq<Try>)
    requires search.Valid() && QueueOk(search, queue) && queue != []
    ensures QueueOk(search, queue[1..]) && Work(search, queue[1..]) < Work(search, queue)
    ensures var q, rest := queue[0], Drain(search, queue[1..]);
            && (search.ranked[q.rank].playlist.None? ==> Drain(search, queue) == rest)
            && (search.ranked[q.rank].playlist.Some? && search.Answer(q.rank, q.tier) == Nothing ==>
                  Drain(search, queue) == Asked(FoundEmpty(rest, q), q))
  {
  }

  lemma UnderwayAfterSkip(
    search: Search, course: Course, attempts: seq<Attempt>, queue: seq<Try>, empties: seq<nat>, tried: seq<Try>)
    requires Underway(search, course, attempts, queue, empties, tried)
    requires queue != [] && attempts[0].decision.playlist.None?
    ensures Underway(search, course, attempts[1..], queue[1..], empties, tried)
    ensures Work(search, queue[1..]) < Work(search, queue)
  {
    assert Waits(search, attempts[0], queue[0]);
    LinedBehind(search, attempts, queue);
    DrainPast(search, queue);
  }

  lemma UnderwayAfterEmpty(
    search: Search, course: Course, attempts: seq<Attempt>, queue: seq<Try>, empties: seq<nat>, tried: seq<Try>)
    requires Underway(search, course, attempts, queue, empties, tried)
    requires queue != [] && attempts[0].decision.playlist.Some? &&
               search.Answer(queue[0].rank, queue[0].tier) == Nothing
    ensures Underway(search, course, attempts[1..], queue[1..], empties + [queue[0].rank], tried + [queue[0]])
    ensures Work(search, queue[1..]) < Work(search, queue)
  {
    assert Waits(search, attempts[0], queue[0]);
    LinedBehind(search, attempts, queue);
    DrainPast(search, queue);
    var q, rest := queue[0], Drain(search, queue[1..]);
    AddsUpAsked(course, FoundEmpty(rest, q), empties, tried, q);
    AddsUpEmpty(course, rest, empties, tried + [q], q);
    InRangeGrows(search, empties, q.rank);
  }

  lemma InRangeGrows(search: Search, empties: seq<nat>, i: nat)
    requires InRange(search, empties) && i < |search.ranked|
    ensures InRange(search, empties + [i])
  {
  }

  /** The budget tried after one that nothing fits. */
  lemma NextBudget(search: Search, hard: Option<int>, late: Option<int>, t: nat)
    requires search.Valid() && search.budgets == Budgets(hard, late) && t < |search.budgets| && search.budgets[t].Some?
    ensures t + 1 < |search.budgets| && search.budgets[t + 1] == if search.budgets[t] == hard then late else None
  {
    assert search.budgets[0] == hard;
  }

  lemma DrainGoesOn(search: Search, queue: seq<Try>)
    requires search.Valid() && QueueOk(search, queue) && queue != []
    requires search.ranked[queue[0].rank].playlist.Some? && !search.Last(queue[0].tier)
    requires search.Answer(queue[0].rank, queue[0].tier) == NoFit
    ensures var q := Try(queue[0].rank, queue[0].tier + 1);
            && QueueOk(search, queue[1..] + [q])
            && Drain(search, queue) == Asked(Drain(search, queue[1..] + [q]), queue[0])
            && Work(search, queue[1..] + [q]) < Work(search, queue)
  {
    WorkAdds(search, queue[1..], Try(queue[0].rank, queue[0].tier + 1));
  }

  lemma UnderwayAfterNoFit(
    search: Search, hard: Option<int>, late: Option<int>, course: Course, attempts: seq<Attempt>, queue: seq<Try>,
    empties: seq<nat>, tried: seq<Try>)
    requires Underway(search, course, attempts, queue, empties, tried) && search.budgets == Budgets(hard, late)
    requires queue != [] && attempts[0].decision.playlist.Some? && search.Answer(queue[0].rank, queue[0].tier) == NoFit
    requires attempts[0].budget.Some?
    ensures var again := attempts[0].(budget := if attempts[0].budget == hard then late else None);
            var q := Try(queue[0].rank, queue[0].tier + 1);
            && Underway(search, course, attempts[1..] + [again], queue[1..] + [q], empties, tried + [queue[0]])
            && Work(search, queue[1..] + [q]) < Work(search, queue)
  {
    assert Waits(search, attempts[0], queue[0]);
    NextBudget(search, hard, late, queue[0].tier);
    DrainGoesOn(search, queue);
    var q := Try(queue[0].rank, queue[0].tier + 1);
    var again := attempts[0].(budget := if attempts[0].budget == hard then late else None);
    LinedBehind(search, attempts, queue);
    LinedWith(search, attempts[1..], queue[1..], again, q);
    AddsUpAsked(course, Drain(search, queue[1..] + [q]), empties, tried, queue[0]);
  }

  lemma UnderwayAtEnd(
    search: Search, course: Course, attempts: seq<Attempt>, queue: seq<Try>, empties: seq<nat>, tried: seq<Try>)
    requires Underway(search, course, attempts, queue, empties, tried)
    requires queue != [] && attempts[0].decision.playlist.Some? && search.Ends(queue[0].rank, queue[0].tier)
    ensures course.empties == empties && course.tries == tried + [queue[0]]
    ensures course.end ==
              if search.Answer(queue[0].rank, queue[0].tier).Turn? then Won(queue[0].rank, queue[0].tier)
              else Broke(queue[0].rank, queue[0].tier)
  {
  }

  lemma UnderwayAtLast(search: Search, course: Course, empties: seq<nat>, tried: seq<Try>)
    requires Underway(search, course, [], [], empties, tried)
    ensures course == Course(Dry, empties, tried)
  {
    assert empties + [] == empties && tried + [] == tried;
  }

  lemma AfterOneMoreEmpty(w: World, s: Store, search: Search, empties: seq<nat>, i: nat, now: int)
    requires InRange(search, empties) && i < |search.ranked|
    ensures AfterEmpties(w, s, search, empties + [i], now)
         == AfterEmpty(w, AfterEmpties(w, s, search, empties, now), search, i, now)
  {
    assert (empties + [i])[..|empties|] == empties;
  }

  /** The attempt the pull ended on, and the answer it got. */
  ghost predicate EndedBy(search: Search, end: End, last: Option<Attempt>, answer: Outcome) {
    if end.Dry? then last.None?
    else
      && last.Some? && Waits(search, last.value, Try(end.rank, end.tier))
      && answer == search.Answer(end.rank, end.tier) && (end.Won? <==> answer.Turn?)
  }

  class Engine {
    var hold: Option<Hold>
    var every: map<string, EveryState>
    var taken: set<string>
    var restarted: seq<string>
    var incidents: seq<Incident>
    var log: seq<Entry>
    /** What the last pull asked the selection, in order. */
    ghost var tried: seq<Try>

    constructor ()
      ensures State() == Store(None, Playback(map[], {}), [], [], [])
    {
      hold, every, taken, restarted, incidents, log := None, map[], {}, [], [], [];
    }

    function State(): Store
      reads this
    {
      Store(hold, Playback(every, taken), restarted, incidents, log)
    }

    method End(w: World, playlist: string)
      modifies this
      ensures tried == old(tried)
      ensures State() == EndHold(w, old(State()), playlist)
    {
      hold := None;
      var key := w.canonical(playlist);
      if key.Some? { restarted := restarted + [key.value]; }
    }

    method ReconcileWake(w: World, p: Pull)
      modifies this
      ensures State() == Woken(w, old(State()), p)
    {
      if p.woken {
        taken := taken + p.missed;
        if hold.Some? { End(w, hold.value.playlist); }
      }
    }

    method CurrentHold(w: World)
      modifies this
      ensures State() == WithCurrentHold(w, old(State()))
    {
      if hold.Some? && !Stands(w.rules, hold.value) { End(w, hold.value.playlist); }
    }

    method Persist(d: Decision, now: int)
      modifies this
      ensures tried == old(tried)
      ensures State() == PersistEffects(old(State()), d, now)
    {
      if d.mark.Some? { taken := taken + {d.mark.value}; }
      if d.origin == FromEvery && d.ruleId.Some? { every := every[d.ruleId.value := EveryState(Some(now), 0)]; }
    }

    method StartHoldIfGroup(w: World, d: Decision, holds: bool, now: int)
      modifies this
      ensures tried == old(tried)
      ensures State() == StartHold(w, old(State()), d, holds, now)
    {
      if !Punctual(d.origin) { return; }
      if d.ruleId.None? || d.playlist.None? || !holds { return; }
      if hold.Some? && hold.value.playlist != d.playlist.value { End(w, hold.value.playlist); }
      hold := Some(Hold(d.ruleId.value, d.playlist.value, d.origin, now));
    }

    method TakeTurn(w: World, search: Search, i: nat, late: bool, turn: Outcome, p: Pull)
      requires i < |search.ranked| && turn.Turn?
      modifies this
      ensures tried == old(tried)
      ensures State() == AfterTurn(w, old(State()), search, i, late, turn, p)
    {
      var d := search.ranked[i];
      var mark := w.nextHardMark(p.now + 1, State().playback);
      if late && mark.Some? {
        incidents := incidents + [BoundaryOverrun(mark.value, turn.media)];
      }
      if search.heldAt == Some(i) {
        if !turn.holds { hold := None; }
      } else {
        Persist(d, p.now);
        StartHoldIfGroup(w, d, turn.holds, p.now);
      }
      log := log + [Entry(d, turn.media, p.now)];
    }

    method FindEmpty(w: World, search: Search, a: Attempt, now: int, ghost s: Store, ghost empties: seq<nat>)
      requires a.rank < |search.ranked| && a.decision == search.ranked[a.rank] && a.decision.playlist.Some?
      requires InRange(search, empties) && State() == AfterEmpties(w, s, search, empties, now)
      modifies this
      ensures InRange(search, empties + [a.rank]) && State() == AfterEmpties(w, s, search, empties + [a.rank], now)
      ensures tried == old(tried)
    {
      AfterOneMoreEmpty(w, s, search, empties, a.rank, now);
      if search.heldAt == Some(a.rank) {
        End(w, a.decision.playlist.value);
      } else {
        incidents := incidents + [SourceEmpty(a.decision.ruleId, a.decision.playlist.value, a.decision.origin, now)];
      }
    }

    /** One question to the selection, and what the queue makes of it. */
    method AskOne(search: Search, hard: Option<int>, late: Option<int>, first: Attempt, ghost q: Try, p: Pull)
      returns (produced: Outcome)
      requires search.Valid() && search.budgets == Budgets(hard, late) && search.produce == p.produce
      requires Waits(search, first, q) && first.decision.playlist.Some?
      modifies this`tried
      ensures produced == search.Answer(q.rank, q.tier)
      ensures tried == old(tried) + [q]
    {
      assert search.budgets[0] == hard;
      var held := search.heldAt == Some(first.rank);
      var start :=
        if held then Continue
        else if hard.Some? && first.budget != hard then Resume
        else if Punctual(first.decision.origin) then Fresh
        else Resume;
      tried := tried + [q];
      produced := p.produce(Request(first.rank, first.decision.playlist.value, start, first.budget));
    }

    /** Asking the sources in turn until one produces, or fails. */
    method TrySources(search: Search, hard: Option<int>, late: Option<int>, ghost course: Course, w: World, p: Pull)
      returns (last: Option<Attempt>, answer: Outcome)
      requires search.Valid() && search.budgets == Budgets(hard, late) && search.produce == p.produce
      requires QueueOk(search, Opening(search)) && course == Drain(search, Opening(search))
      modifies this
      ensures tried == course.tries
      ensures InRange(search, course.empties) && State() == AfterEmpties(w, old(State()), search, course.empties, p.now)
      ensures EndedBy(search, course.end, last, answer)
    {
      var attempts := seq(|search.ranked|, i requires 0 <= i < |search.ranked| => Attempt(i, search.ranked[i], hard));
      ghost var queue := Opening(search);
      ghost var empties: seq<nat> := [];
      tried, last, answer := [], None, Nothing;
      UnderwayAtFirst(search, attempts);
      while attempts != []
        invariant Underway(search, course, attempts, queue, empties, tried)
        invariant State() == AfterEmpties(w, old(State()), search, empties, p.now)
        decreases Work(search, queue)
      {
        var first := attempts[0];
        if first.decision.playlist.None? {
          UnderwayAfterSkip(search, course, attempts, queue, empties, tried);
          attempts, queue := attempts[1..], queue[1..];
          continue;
        }
        ghost var soFar := tried;
        answer := AskOne(search, hard, late, first, queue[0], p);
        if answer.NoFit? && first.budget.Some? {
          UnderwayAfterNoFit(search, hard, late, course, attempts, queue, empties, soFar);
          var retry := if first.budget == hard then late else None;
          attempts := attempts[1..] + [first.(budget := retry)];
          queue := queue[1..] + [Try(queue[0].rank, queue[0].tier + 1)];
        } else if !answer.Nothing? {
          UnderwayAtEnd(search, course, attempts, queue, empties, soFar);
          return Some(first), answer;
        } else {
          FindEmpty(w, search, first, p.now, old(State()), empties);
          UnderwayAfterEmpty(search, course, attempts, queue, empties, soFar);
          empties := empties + [first.rank];
          attempts, queue := attempts[1..], queue[1..];
        }
      }
      UnderwayAtLast(search, course, empties, tried);
      last := None;
    }

    method FallThrough(search: Search, hard: Option<int>, late: Option<int>, w: World, p: Pull) returns (reply: Reply)
      requires search.Valid() && search.budgets == Budgets(hard, late) && search.produce == p.produce
      requires QueueOk(search, Opening(search))
      modifies this
      ensures var c := Drain(search, Opening(search));
              && InRange(search, c.empties) && (c.end.Won? ==> search.Answer(c.end.rank, c.end.tier).Turn?)
              && (State(), reply) == Settled(w, old(State()), search, c, p)
              && tried == c.tries
    {
      var last, answer := TrySources(search, hard, late, Drain(search, Opening(search)), w, p);
      if last.Some? {
        if !answer.Turn? { return Error; }
        assert search.budgets[0] == hard;
        TakeTurn(w, search, last.value.rank, hard.Some? && last.value.budget != hard, answer, p);
        return Aired(last.value.decision, answer.media);
      }
      return if search.ranked == [] then FallbackAir else PoolEmpty;
    }

    /** A pull in a state ready for it. */
    method PullReady(w: World, p: Pull) returns (reply: Reply)
      modifies this
      ensures var search := SearchFor(w, old(State()), p); var c := Drain(search, Opening(search));
              && QueueOk(search, Opening(search)) && InRange(search, c.empties)
              && (c.end.Won? ==>
                    c.end.rank < |search.ranked| && c.end.tier < |search.budgets| &&
                      search.Answer(c.end.rank, c.end.tier).Turn?)
              && (State(), reply) == Settled(w, old(State()), search, c, p)
              && tried == c.tries
    {
      var playback := State().playback;
      var search := SearchFor(w, State(), p);
      var hard, late := FitBudgets(w, playback, p.now);
      DrainIsTheSearch(search);
      reply := FallThrough(search, hard, late, w, p);
    }

    /** A pull at a track boundary. */
    method NextMedia(w: World, p: Pull) returns (reply: Reply)
      modifies this
      ensures (State(), reply) == Next(w, old(State()), p)
      ensures !p.halted && p.override.None? ==> tried == CourseOf(w, old(State()), p).tries
    {
      if p.halted { return Halted; }
      ReconcileWake(w, p);
      if p.override.Some? { return Overridden(p.override.value); }
      CurrentHold(w);
      reply := PullReady(w, p);
    }
  }
}
