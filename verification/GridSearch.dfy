/** The attempts of one pull (src/grid_engine.rs:1403-1424).

    A pull tries the sources the resolver ranked, a held group among them, under
    up to three duration budgets. `Search` says which try wins, without any
    queue; `Drain` is the queue the engine works through. */
module GridSearch {
  import opened Base
  import opened Resolver

  /** How a group takes the turn. */
  datatype TurnStart = Fresh | Continue | Resume

  /** One question to the selection: this playlist, under this budget (ms). */
  datatype Request = Request(rank: nat, playlist: string, start: TurnStart, budget: Option<int>)

  /** Its answer: a media (and whether its group then holds the air), an empty
      pool, nothing short enough, or an error. */
  datatype Outcome = Turn(media: string, holds: bool) | Nothing | NoFit | Failure

  // =====================================================================
  // The search
  // =====================================================================

  predicate Punctual(o: Origin) {
    o == FromEvery || o == FromAtClockHard || o == FromAtClockSoft
  }

  /** One pull: the ranked sources (the held group at `heldAt`), the budgets in
      the order they are tried, and what the selection would answer. */
  datatype Search = Search(
    ranked: seq<Decision>,
    heldAt: Option<nat>,
    budgets: seq<Option<int>>,
    produce: Request -> Outcome)
  {
    /** One to three distinct budgets, the last of them unbounded. */
    ghost predicate Valid() {
      && 1 <= |budgets| <= 3
      && (forall t :: 0 <= t < |budgets| ==> (budgets[t].None? <==> t == |budgets| - 1))
      && (forall t, u :: 0 <= t < u < |budgets| ==> budgets[t] != budgets[u])
    }

    predicate Held(i: nat) { heldAt == Some(i) }

    function Start(i: nat, t: nat): TurnStart
      requires i < |ranked|
    {
      if Held(i) then Continue
      else if |budgets| > 1 && t > 0 then Resume
      else if Punctual(ranked[i].origin) then Fresh
      else Resume
    }

    function Ask(i: nat, t: nat): Request
      requires i < |ranked| && t < |budgets| && ranked[i].playlist.Some?
    {
      Request(i, ranked[i].playlist.value, Start(i, t), budgets[t])
    }

    /** A source without a playlist is passed over in silence. */
    function Answer(i: nat, t: nat): Outcome
      requires i < |ranked| && t < |budgets|
    {
      if ranked[i].playlist.None? then Nothing else produce(Ask(i, t))
    }

    /** Source `i` is asked under budget `t`: it found nothing to fit any
        earlier one. */
    ghost predicate Reached(i: nat, t: nat)
      requires i < |ranked| && t < |budgets|
    {
      forall u: nat :: u < t ==> Answer(i, u) == NoFit
    }

    predicate Last(t: nat) { t + 1 == |budgets| }

    /** The answer ends the pull: a media, or an error (finding nothing to fit
        an unbounded budget is one). */
    predicate Ends(i: nat, t: nat)
      requires i < |ranked| && t < |budgets|
    {
      Answer(i, t).Turn? || Answer(i, t).Failure? || (Answer(i, t).NoFit? && Last(t))
    }

    /** (`j`, `u`) comes before (`i`, `t`): budgets first, then ranks. */
    predicate Before(j: nat, u: nat, i: nat, t: nat) { u < t || (u == t && j < i) }

    ghost predicate NoneEndsBefore(i: nat, t: nat) {
      forall j: nat, u: nat :: j < |ranked| && u < |budgets| && Before(j, u, i, t) && Reached(j, u) ==> !Ends(j, u)
    }

    /** The least (budget, rank) try that ends the pull. */
    ghost predicate IsFirst(i: nat, t: nat) {
      && i < |ranked| && t < |budgets|
      && Reached(i, t) && Ends(i, t) && NoneEndsBefore(i, t)
    }

    /** The ranks asked under budget `t`, in order. */
    function Tier(t: nat): seq<nat>
      requires t < |budgets|
    {
      if t == 0 then seq(|ranked|, i => i) else Unfit(Tier(t - 1), t - 1)
    }

    function Unfit(ranks: seq<nat>, t: nat): seq<nat>
      requires t < |budgets|
    {
      if ranks == [] then []
      else
        (if ranks[0] < |ranked| && Answer(ranks[0], t) == NoFit then [ranks[0]] else []) + Unfit(ranks[1..], t)
    }
  }

  // =====================================================================
  // The queue
  // =====================================================================

  datatype Try = Try(rank: nat, tier: nat)

  datatype End = Won(rank: nat, tier: nat) | Broke(rank: nat, tier: nat) | Dry

  /** How a pull went: how it ended, the sources found empty on the way and the
      tries made, both in order. */
  datatype Course = Course(end: End, empties: seq<nat>, tries: seq<Try>)

  ghost predicate QueueOk(s: Search, queue: seq<Try>) {
    forall q <- queue :: q.rank < |s.ranked| && q.tier < |s.budgets|
  }

  function Work(s: Search, queue: seq<Try>): nat {
    if queue == [] then 0 else Work(s, queue[1..]) + 1 + Max(0, |s.budgets| - queue[0].tier)
  }

  lemma {:induction false} WorkAdds(s: Search, xs: seq<Try>, x: Try)
    ensures Work(s, xs + [x]) == Work(s, xs) + 1 + Max(0, |s.budgets| - x.tier)
    decreases |xs|
  {
    if xs == [] {
      assert xs + [x] == [x];
    } else {
      assert (xs + [x])[1..] == xs[1..] + [x];
      WorkAdds(s, xs[1..], x);
    }
  }

  function Asked(c: Course, q: Try): Course { c.(tries := [q] + c.tries) }

  function FoundEmpty(c: Course, q: Try): Course { c.(empties := [q.rank] + c.empties) }

  function EmptyRanks(s: Search, tries: seq<Try>): seq<nat>
    requires QueueOk(s, tries)
  {
    if tries == [] then []
    else
      (if s.Answer(tries[0].rank, tries[0].tier) == Nothing then [tries[0].rank] else []) + EmptyRanks(s, tries[1..])
  }

  /** Working through the queue of attempts: a source that found nothing to fit
      goes to the back with the next budget. */
  function Drain(s: Search, queue: seq<Try>): (c: Course)
    requires s.Valid() && QueueOk(s, queue)
    ensures QueueOk(s, c.tries) && c.empties == EmptyRanks(s, c.tries)
    ensures c.end.Dry? || (c.end.rank < |s.ranked| && c.end.tier < |s.budgets|)
    decreases Work(s, queue)
  {
    if queue == [] then Course(Dry, [], [])
    else
      var q, rest := queue[0], queue[1..];
      if s.ranked[q.rank].playlist.None? then Drain(s, rest)
      else
        match s.Answer(q.rank, q.tier)
        case Turn(_, _) => Course(Won(q.rank, q.tier), [], [q])
        case Failure => Course(Broke(q.rank, q.tier), [], [q])
        case Nothing => Asked(FoundEmpty(Drain(s, rest), q), q)
        case NoFit =>
          if s.Last(q.tier) then Course(Broke(q.rank, q.tier), [], [q])
          else
            WorkAdds(s, rest, Try(q.rank, q.tier + 1));
            Asked(Drain(s, rest + [Try(q.rank, q.tier + 1)]), q)
  }

  function Attempts(ranks: seq<nat>, t: nat): seq<Try> {
    seq(|ranks|, i requires 0 <= i < |ranks| => Try(ranks[i], t))
  }

  function Opening(s: Search): seq<Try> { Attempts(seq(|s.ranked|, i => i), 0) }

  // ----- the queue, budget by budget -----

  ghost predicate Increasing(xs: seq<nat>) { forall i, j :: 0 <= i < j < |xs| ==> xs[i] < xs[j] }

  lemma {:induction false} UnfitRanks(s: Search, ranks: seq<nat>, t: nat)
    requires t < |s.budgets| && Increasing(ranks)
    ensures Increasing(s.Unfit(ranks, t))
    ensures forall i :: i in s.Unfit(ranks, t) <==> i in ranks && i < |s.ranked| && s.Answer(i, t) == NoFit
    ensures (forall i <- ranks :: i < |s.ranked| ==> s.Answer(i, t) != NoFit) ==> s.Unfit(ranks, t) == []
    decreases |ranks|
  {
    if ranks != [] {
      UnfitRanks(s, ranks[1..], t);
      var later := s.Unfit(ranks[1..], t);
      assert forall i :: i in ranks <==> i == ranks[0] || i in ranks[1..];
      forall k | 0 <= k < |later| ensures ranks[0] < later[k] { assert later[k] in ranks[1..]; }
    }
  }

  lemma {:induction false} UnfitOneMore(s: Search, ranks: seq<nat>, i: nat, t: nat)
    requires t < |s.budgets| && i < |s.ranked|
    ensures s.Unfit(ranks + [i], t) == s.Unfit(ranks, t) + (if s.Answer(i, t) == NoFit then [i] else [])
    decreases |ranks|
  {
    if ranks == [] {
      assert ([] + [i])[1..] == [] && s.Unfit([], t) == [];
    } else {
      UnfitOneMore(s, ranks[1..], i, t);
      assert (ranks + [i])[1..] == ranks[1..] + [i];
    }
  }

  lemma UnfitSplits(s: Search, ranks: seq<nat>, p: nat, t: nat)
    requires t < |s.budgets| && p < |ranks| && ranks[p] < |s.ranked|
    ensures s.Unfit(ranks[..p + 1], t)
         == s.Unfit(ranks[..p], t) + (if s.Answer(ranks[p], t) == NoFit then [ranks[p]] else [])
  {
    UnfitOneMore(s, ranks[..p], ranks[p], t);
    assert ranks[..p + 1] == ranks[..p] + [ranks[p]];
  }

  lemma ReachedNext(s: Search, i: nat, t: nat)
    requires i < |s.ranked| && 0 < t < |s.budgets|
    ensures s.Reached(i, t) <==> s.Reached(i, t - 1) && s.Answer(i, t - 1) == NoFit
  {
  }

  lemma FirstTier(s: Search, i: nat)
    requires s.budgets != []
    ensures i in s.Tier(0) <==> i < |s.ranked|
    ensures i < |s.ranked| ==> s.Reached(i, 0)
  {
    if i < |s.ranked| { assert s.Tier(0)[i] == i; }
  }

  /** The ranks of a tier are those asked under its budget. */
  lemma {:induction false} TierRanks(s: Search, t: nat)
    requires t < |s.budgets|
    ensures Increasing(s.Tier(t))
    ensures forall i: nat :: i in s.Tier(t) <==> i < |s.ranked| && s.Reached(i, t)
    decreases t
  {
    if t == 0 {
      forall i: nat ensures i in s.Tier(0) <==> i < |s.ranked| && s.Reached(i, 0) { FirstTier(s, i); }
    } else {
      TierRanks(s, t - 1);
      UnfitRanks(s, s.Tier(t - 1), t - 1);
      forall i: nat ensures i in s.Tier(t) <==> i < |s.ranked| && s.Reached(i, t) {
        if i < |s.ranked| { ReachedNext(s, i, t); }
      }
    }
  }

  /** The queue once the first `p` ranks of tier `t` were tried. */
  function Shape(s: Search, t: nat, p: nat): seq<Try>
    requires t < |s.budgets| && p <= |s.Tier(t)|
  {
    Attempts(s.Tier(t)[p..], t) + Attempts(s.Unfit(s.Tier(t)[..p], t), t + 1)
  }

  /** In the order of budgets, then ranks: no try is made twice. */
  ghost predicate InOrder(s: Search, tries: seq<Try>) {
    forall a, b :: 0 <= a < b < |tries| ==> s.Before(tries[a].rank, tries[a].tier, tries[b].rank, tries[b].tier)
  }

  /** What the end of a pull says of the whole search. */
  ghost predicate EndsRight(s: Search, end: End) {
    match end
    case Won(i, t) => s.IsFirst(i, t) && s.Answer(i, t).Turn?
    case Broke(i, t) => s.IsFirst(i, t) && !s.Answer(i, t).Turn?
    case Dry => forall i: nat, t: nat :: i < |s.ranked| && t < |s.budgets| && s.Reached(i, t) ==> !s.Ends(i, t)
  }

  ghost predicate NotAfterEnd(s: Search, end: End, i: nat, t: nat) {
    end.Dry? || s.Before(i, t, end.rank, end.tier) || (i == end.rank && t == end.tier)
  }

  /** Source `i` really is asked under budget `t`. */
  ghost predicate Asks(s: Search, i: nat, t: nat) {
    i < |s.ranked| && t < |s.budgets| && s.ranked[i].playlist.Some? && s.Reached(i, t)
  }

  ghost predicate Ahead(s: Search, t: nat, p: nat, i: nat, u: nat)
    requires t < |s.budgets| && p <= |s.Tier(t)|
  {
    u > t || (u == t && i in s.Tier(t)[p..])
  }

  /** The tries of a course are those ahead of (`t`, `p`), up to its end. */
  ghost predicate TriesAhead(s: Search, c: Course, t: nat, p: nat)
    requires t < |s.budgets| && p <= |s.Tier(t)|
  {
    && InOrder(s, c.tries)
    && (forall i, u :: Try(i, u) in c.tries <==>
         Asks(s, i, u) && Ahead(s, t, p, i, u) && NotAfterEnd(s, c.end, i, u))
  }

  ghost predicate NoneEnded(s: Search, t: nat, p: nat)
    requires t < |s.budgets| && p <= |s.Tier(t)|
  {
    forall i: nat, u: nat ::
      i < |s.ranked| && u < |s.budgets| && s.Reached(i, u) && !Ahead(s, t, p, i, u) ==> !s.Ends(i, u)
  }

  lemma ShapeOk(s: Search, t: nat, p: nat)
    requires s.Valid() && t < |s.budgets| && p <= |s.Tier(t)| && NoneEnded(s, t, p)
    ensures QueueOk(s, Shape(s, t, p))
  {
    var tier := s.Tier(t);
    TierRanks(s, t);
    forall a, b | 0 <= a < b < |tier[..p]| ensures tier[..p][a] < tier[..p][b] {}
    UnfitRanks(s, tier[..p], t);
    if s.Last(t) {
      forall i | i in tier[..p] ensures i < |s.ranked| && s.Answer(i, t) != NoFit {
        assert i in tier && !Ahead(s, t, p, i, t);
      }
    }
    forall q | q in Shape(s, t, p) ensures q.rank < |s.ranked| && q.tier < |s.budgets| {
      if q in Attempts(tier[p..], t) {
        assert q.rank in tier;
      } else {
        assert q.rank in s.Unfit(tier[..p], t) && q.rank in tier;
      }
    }
  }

  /** The try at the head is the least one ahead. */
  lemma StepAhead(s: Search, t: nat, p: nat)
    requires t < |s.budgets| && p < |s.Tier(t)|
    ensures forall i: nat, u: nat :: Ahead(s, t, p, i, u) <==>
              Ahead(s, t, p + 1, i, u) || Try(i, u) == Try(s.Tier(t)[p], t)
    ensures forall i: nat, u: nat :: Ahead(s, t, p + 1, i, u) ==> s.Before(s.Tier(t)[p], t, i, u)
    ensures forall i: nat, u: nat ::
              i < |s.ranked| && u < |s.budgets| && s.Reached(i, u) && s.Before(i, u, s.Tier(t)[p], t) ==>
                !Ahead(s, t, p, i, u)
    ensures s.Tier(t)[p] < |s.ranked| && s.Reached(s.Tier(t)[p], t)
  {
    var tier := s.Tier(t);
    TierRanks(s, t);
    assert tier[p..] == [tier[p]] + tier[p + 1..];
    assert tier[p] in tier;
    assert forall k :: p < k < |tier| ==> tier[p] < tier[k];
  }

  lemma EndsHere(s: Search, t: nat, p: nat)
    requires s.Valid() && t < |s.budgets| && p < |s.Tier(t)| && NoneEnded(s, t, p)
    requires QueueOk(s, Shape(s, t, p))
    requires s.Tier(t)[p] < |s.ranked| && s.Ends(s.Tier(t)[p], t)
    ensures var c := Drain(s, Shape(s, t, p)); EndsRight(s, c.end) && TriesAhead(s, c, t, p)
  {
    var i := s.Tier(t)[p];
    assert Shape(s, t, p)[0] == Try(i, t);
    StepAhead(s, t, p);
    assert s.IsFirst(i, t);
    var c := Drain(s, Shape(s, t, p));
    assert c.tries == [Try(i, t)] && c.end.rank == i && c.end.tier == t;
    forall j, u | Asks(s, j, u) && Ahead(s, t, p, j, u) && NotAfterEnd(s, c.end, j, u) ensures Try(j, u) == Try(i, t) {}
  }

  lemma NothingLeft(s: Search, t: nat)
    requires s.Valid() && t < |s.budgets| && s.Last(t) && NoneEnded(s, t, |s.Tier(t)|)
    ensures Shape(s, t, |s.Tier(t)|) == []
    ensures EndsRight(s, Dry) && TriesAhead(s, Course(Dry, [], []), t, |s.Tier(t)|)
  {
    var tier := s.Tier(t);
    TierRanks(s, t);
    assert tier[..|tier|] == tier;
    UnfitRanks(s, tier, t);
    forall i | i in tier ensures s.Answer(i, t) != NoFit { assert !Ahead(s, t, |tier|, i, t); }
  }

  lemma StillNoneEnded(s: Search, t: nat, p: nat)
    requires s.Valid() && t < |s.budgets| && p < |s.Tier(t)| && NoneEnded(s, t, p)
    requires s.Tier(t)[p] < |s.ranked| && !s.Ends(s.Tier(t)[p], t)
    ensures NoneEnded(s, t, p + 1) && QueueOk(s, Shape(s, t, p + 1))
  {
    StepAhead(s, t, p);
    ShapeOk(s, t, p + 1);
  }

  lemma AttemptsJoin(xs: seq<nat>, ys: seq<nat>, t: nat)
    ensures Attempts(xs + ys, t) == Attempts(xs, t) + Attempts(ys, t)
  {
  }

  lemma ShapeBehindHead(s: Search, t: nat, p: nat)
    requires t < |s.budgets| && p < |s.Tier(t)|
    ensures Shape(s, t, p) != [] && Shape(s, t, p)[0] == Try(s.Tier(t)[p], t)
    ensures Shape(s, t, p)[1..] == Attempts(s.Tier(t)[p + 1..], t) + Attempts(s.Unfit(s.Tier(t)[..p], t), t + 1)
  {
    var tier := s.Tier(t);
    assert Attempts(tier[p..], t)[1..] == Attempts(tier[p + 1..], t);
  }

  lemma JoinsBehind(a: seq<Try>, b: seq<Try>, c: seq<Try>)
    ensures a + (b + c) == a + b + c
  {
  }

  /** The queue behind the head, with the head's retry at the back. */
  lemma QueueMoves(s: Search, t: nat, p: nat)
    requires t < |s.budgets| && p < |s.Tier(t)| && s.Tier(t)[p] < |s.ranked|
    ensures Shape(s, t, p) != [] && Shape(s, t, p)[0] == Try(s.Tier(t)[p], t)
    ensures Shape(s, t, p + 1)
         == Shape(s, t, p)[1..] + (if s.Answer(s.Tier(t)[p], t) == NoFit then [Try(s.Tier(t)[p], t + 1)] else [])
  {
    ShapeBehindHead(s, t, p);
    UnfitSplits(s, s.Tier(t), p, t);
    var before, i := s.Unfit(s.Tier(t)[..p], t), s.Tier(t)[p];
    var retry := if s.Answer(i, t) == NoFit then [i] else [];
    AttemptsJoin(before, retry, t + 1);
    assert Attempts(retry, t + 1) == if s.Answer(i, t) == NoFit then [Try(i, t + 1)] else [];
    JoinsBehind(Attempts(s.Tier(t)[p + 1..], t), Attempts(before, t + 1), Attempts(retry, t + 1));
  }

  /** One try that does not end the pull, then the rest. */
  lemma TryThenRest(s: Search, t: nat, p: nat)
    requires s.Valid() && t < |s.budgets| && p < |s.Tier(t)|
    requires QueueOk(s, Shape(s, t, p)) && QueueOk(s, Shape(s, t, p + 1))
    requires s.Tier(t)[p] < |s.ranked| && !s.Ends(s.Tier(t)[p], t)
    ensures var q, c, rest := Try(s.Tier(t)[p], t), Drain(s, Shape(s, t, p)), Drain(s, Shape(s, t, p + 1));
            && c.end == rest.end
            && c.tries == (if s.ranked[q.rank].playlist.Some? then [q] else []) + rest.tries
  {
    QueueMoves(s, t, p);
    var queue := Shape(s, t, p);
    if s.Answer(queue[0].rank, t) != NoFit { assert queue[1..] + [] == queue[1..]; }
  }

  lemma TryComesFirst(s: Search, c: Course, rest: Course, t: nat, p: nat)
    requires t < |s.budgets| && p < |s.Tier(t)|
    requires s.Tier(t)[p] < |s.ranked| && !s.Ends(s.Tier(t)[p], t)
    requires EndsRight(s, rest.end) && TriesAhead(s, rest, t, p + 1)
    requires c.end == rest.end
    requires c.tries == (if s.ranked[s.Tier(t)[p]].playlist.Some? then [Try(s.Tier(t)[p], t)] else []) + rest.tries
    requires rest.end.Dry? || Ahead(s, t, p + 1, rest.end.rank, rest.end.tier)
    ensures TriesAhead(s, c, t, p)
  {
    var q := Try(s.Tier(t)[p], t);
    StepAhead(s, t, p);
    forall b | 0 <= b < |rest.tries| ensures s.Before(q.rank, q.tier, rest.tries[b].rank, rest.tries[b].tier) {
      assert Try(rest.tries[b].rank, rest.tries[b].tier) in rest.tries;
    }
    assert NotAfterEnd(s, c.end, q.rank, q.tier);
  }

  /** The queue makes the tries of the search, in its order, up to the least one
      that ends the pull. */
  lemma {:induction false} DrainFrom(s: Search, t: nat, p: nat)
    requires s.Valid() && t < |s.budgets| && p <= |s.Tier(t)| && NoneEnded(s, t, p)
    requires QueueOk(s, Shape(s, t, p))
    ensures var c := Drain(s, Shape(s, t, p));
            EndsRight(s, c.end) && TriesAhead(s, c, t, p)
    ensures var c := Drain(s, Shape(s, t, p));
            c.end.Dry? || Ahead(s, t, p, c.end.rank, c.end.tier)
    decreases |s.budgets| - t, |s.Tier(t)| - p
  {
    var tier := s.Tier(t);
    if p < |tier| {
      StepAhead(s, t, p);
      if s.Ends(tier[p], t) {
        EndsHere(s, t, p);
      } else {
        StillNoneEnded(s, t, p);
        TryThenRest(s, t, p);
        DrainFrom(s, t, p + 1);
        TryComesFirst(s, Drain(s, Shape(s, t, p)), Drain(s, Shape(s, t, p + 1)), t, p);
      }
    } else if s.Last(t) {
      NothingLeft(s, t);
    } else {
      NextTier(s, t);
      DrainFrom(s, t + 1, 0);
    }
  }

  lemma NextTier(s: Search, t: nat)
    requires s.Valid() && t + 1 < |s.budgets|
    ensures Shape(s, t, |s.Tier(t)|) == Shape(s, t + 1, 0)
    ensures forall i: nat, u: nat :: i < |s.ranked| && u < |s.budgets| && s.Reached(i, u) ==>
              (Ahead(s, t, |s.Tier(t)|, i, u) <==> Ahead(s, t + 1, 0, i, u))
  {
    var tier := s.Tier(t);
    assert tier[..|tier|] == tier;
    assert s.Tier(t + 1)[0..] == s.Tier(t + 1) == s.Unfit(tier, t);
    TierRanks(s, t + 1);
  }

  /** The pull airs the least (budget, rank) that produces, if nothing fails
      before it: the queue neither skips nor repeats a try, makes at most three
      per source, and ends dry exactly when no try ends the pull. */
  lemma DrainIsTheSearch(s: Search)
    requires s.Valid()
    ensures QueueOk(s, Opening(s))
    ensures var c := Drain(s, Opening(s));
            && EndsRight(s, c.end) && InOrder(s, c.tries)
            && (forall i, t :: Try(i, t) in c.tries <==> Asks(s, i, t) && NotAfterEnd(s, c.end, i, t))
  {
    assert s.Tier(0)[0..] == s.Tier(0);
    assert Shape(s, 0, 0) == Opening(s);
    TierRanks(s, 0);
    assert forall i: nat, u: nat :: i < |s.ranked| && u < |s.budgets| && s.Reached(i, u) ==> Ahead(s, 0, 0, i, u);
    DrainFrom(s, 0, 0);
  }

  /** A pull has one outcome. */
  lemma FirstIsUnique(s: Search, i: nat, t: nat, j: nat, u: nat)
    requires s.IsFirst(i, t) && s.IsFirst(j, u)
    ensures i == j && t == u
  {
  }

  function TriesOf(tries: seq<Try>, i: nat): seq<Try> {
    if tries == [] then []
    else (if tries[0].rank == i then [tries[0]] else []) + TriesOf(tries[1..], i)
  }

  lemma {:induction false} TiersGrow(s: Search, tries: seq<Try>, i: nat)
    requires InOrder(s, tries)
    ensures forall q <- TriesOf(tries, i) :: q in tries && q.rank == i
    ensures forall a, b :: 0 <= a < b < |TriesOf(tries, i)| ==> TriesOf(tries, i)[a].tier < TriesOf(tries, i)[b].tier
    decreases |tries|
  {
    if tries != [] {
      forall a, b | 0 <= a < b < |tries[1..]|
        ensures s.Before(tries[1..][a].rank, tries[1..][a].tier, tries[1..][b].rank, tries[1..][b].tier)
      {
        assert tries[1..][a] == tries[a + 1];
      }
      TiersGrow(s, tries[1..], i);
      forall q | q in tries[1..] ensures s.Before(tries[0].rank, tries[0].tier, q.rank, q.tier) {}
    }
  }

  lemma {:induction false} GrowingTiersAreFew(xs: seq<Try>, low: nat, high: nat)
    requires low <= high && forall q <- xs :: low <= q.tier < high
    requires forall a, b :: 0 <= a < b < |xs| ==> xs[a].tier < xs[b].tier
    ensures |xs| <= high - low
    decreases |xs|
  {
    if xs != [] {
      forall q | q in xs[1..] ensures xs[0].tier + 1 <= q.tier < high {}
      GrowingTiersAreFew(xs[1..], xs[0].tier + 1, high);
    }
  }

  /** However the selection answers, a pull asks a source at most three times. */
  lemma AtMostThreeTries(s: Search, i: nat)
    requires s.Valid() && QueueOk(s, Opening(s))
    ensures |TriesOf(Drain(s, Opening(s)).tries, i)| <= |s.budgets| <= 3
  {
    DrainIsTheSearch(s);
    var tries := Drain(s, Opening(s)).tries;
    TiersGrow(s, tries, i);
    GrowingTiersAreFew(TriesOf(tries, i), 0, |s.budgets|);
  }
}
