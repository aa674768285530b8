/** Connections beginning and ending, from complete polls
    (src/connection_events.rs): a journal that replays into what is live. */
module ConnectionEvents {
  import opened Base
  import Text

  /** Mount and client id. */
  type Key = (string, string)

  datatype Connection = Connection(key: Key, secs: U64)

  datatype Seen = Seen(secs: U64, startedAt: int, lastSeenAt: int)

  datatype Change =
    | Started(key: Key, secs: U64, startedAt: int, lastSeenAt: int, observedAt: int)
    | Ended(key: Key, secs: U64, startedAt: int, lastSeenAt: int, observedAt: int)

  // =====================================================================
  // Replaying a journal
  // =====================================================================

  /** Who is live, with the start each was announced with. */
  type Live = map<Key, int>

  function Apply(live: Live, c: Change): Option<Live> {
    match c
    case Started(k, _, at, _, _) => if k in live then None else Some(live[k := at])
    case Ended(k, _, at, _, _) => if k in live && live[k] == at then Some(live - {k}) else None
  }

  /** What a journal leaves live; none if it starts someone twice, or ends
      someone who is not live or began otherwise. */
  function Replay(live: Live, journal: seq<Change>): Option<Live> {
    if journal == [] then Some(live)
    else
      match Replay(live, journal[..|journal| - 1])
      case None => None
      case Some(l) => Apply(l, journal[|journal| - 1])
  }

  lemma {:induction false} ReplayGoesOn(live: Live, a: seq<Change>, b: seq<Change>)
    requires Replay(live, a).Some?
    ensures Replay(live, a + b) == Replay(Replay(live, a).value, b)
    decreases |b|
  {
    if b == [] {
      assert a + b == a;
    } else {
      var n := |b| - 1;
      ReplayGoesOn(live, a, b[..n]);
      assert (a + b)[..|a + b| - 1] == a + b[..n];
    }
  }

  lemma ReplayOneMore(live: Live, journal: seq<Change>, c: Change)
    requires Replay(live, journal).Some?
    ensures Replay(live, journal + [c]) == Apply(Replay(live, journal).value, c)
  {
    assert (journal + [c])[..|journal|] == journal;
  }

  /** The part of a journal about one client. */
  function About(journal: seq<Change>, k: Key): seq<Change> {
    if journal == [] then []
    else
      var n := |journal| - 1;
      About(journal[..n], k) + if journal[n].key == k then [journal[n]] else []
  }

  /** Starts and ends in turn, beginning with a start, each end with its
      start's time. */
  ghost predicate Alternates(cs: seq<Change>) {
    && (forall i :: 0 <= i < |cs| ==> (cs[i].Started? <==> i % 2 == 0))
    && (forall i, j :: 0 <= i < j < |cs| && j == i + 1 && cs[j].Ended? ==> cs[j].startedAt == cs[i].startedAt)
  }

  /** The changes of one client say whether it is live. */
  ghost predicate Tells(mine: seq<Change>, live: Live, k: Key) {
    && Alternates(mine) && (k in live <==> |mine| % 2 == 1)
    && (k in live ==> live[k] == mine[|mine| - 1].startedAt)
  }

  lemma TellsOneMore(mine: seq<Change>, live: Live, c: Change, k: Key)
    requires Tells(mine, live, k) && c.key == k && Apply(live, c).Some?
    ensures Tells(mine + [c], Apply(live, c).value, k)
  {
    var n := |mine|;
    if c.Ended? { assert k in live && mine[n - 1].startedAt == c.startedAt; }
    assert c.Started? <==> n % 2 == 0;
    forall i | 0 <= i < n + 1 ensures (mine + [c])[i].Started? <==> i % 2 == 0 {
      if i < n { assert (mine + [c])[i] == mine[i]; }
    }
  }

  /** In a journal that replays, each client's starts and ends alternate, and
      it is live exactly after a start. */
  lemma {:induction false} ReplayedJournalsAlternate(journal: seq<Change>, k: Key)
    requires Replay(map[], journal).Some?
    ensures Tells(About(journal, k), Replay(map[], journal).value, k)
    decreases |journal|
  {
    if journal != [] {
      var n := |journal| - 1;
      ReplayedJournalsAlternate(journal[..n], k);
      if journal[n].key == k {
        TellsOneMore(About(journal[..n], k), Replay(map[], journal[..n]).value, journal[n], k);
      }
    }
  }

  // =====================================================================
  // One poll
  // =====================================================================

  /** A known client is gone, or its id was reused by a younger one. */
  predicate Ends(previous: map<Key, Seen>, current: map<Key, U64>, k: Key) {
    k in previous && (k !in current || current[k] < previous[k].secs)
  }

  predicate Starts(previous: map<Key, Seen>, current: map<Key, U64>, k: Key) {
    k in current && (k !in previous || current[k] < previous[k].secs)
  }

  /** When a client seen now for `secs` began, within what an `i64` holds. */
  function Estimate(at: int, secs: U64): int { Max(I64_MIN, at - Min(secs, I64_MAX)) }

  function EndOf(k: Key, s: Seen, at: int): Change { Ended(k, s.secs, s.startedAt, s.lastSeenAt, at) }

  function StartOf(k: Key, secs: U64, at: int): Change { Started(k, secs, Estimate(at, secs), at, at) }

  /** What is remembered after a poll. */
  function SeenNow(previous: map<Key, Seen>, current: map<Key, U64>, at: int): map<Key, Seen> {
    map k | k in current ::
      Seen(current[k], if Starts(previous, current, k) then Estimate(at, current[k]) else previous[k].startedAt, at)
  }

  function Beginnings(seen: map<Key, Seen>): Live { map k | k in seen :: seen[k].startedAt }

  /** The clients of a poll: of two entries for one client the last counts. */
  function Current(clients: seq<Connection>): map<Key, U64> {
    if clients == [] then map[]
    else
      var n := |clients| - 1;
      Current(clients[..n])[clients[n].key := clients[n].secs]
  }

  method ByKey(clients: seq<Connection>) returns (current: map<Key, U64>)
    ensures current == Current(clients)
  {
    current := map[];
    for i := 0 to |clients|
      invariant current == Current(clients[..i])
    {
      assert clients[..i + 1][..i] == clients[..i];
      current := current[clients[i].key := clients[i].secs];
    }
    assert clients[..|clients|] == clients;
  }

  // ----- keys in order ------------------------------------------------

  predicate KeyLess(a: Key, b: Key) { if a.0 != b.0 then Text.Less(a.0, b.0) else Text.Less(a.1, b.1) }

  ghost predicate SortedKeys(ks: seq<Key>) { forall i, j :: 0 <= i < j < |ks| ==> KeyLess(ks[i], ks[j]) }

  lemma KeyLessIsTotal(a: Key, b: Key)
    ensures KeyLess(a, b) || a == b || KeyLess(b, a)
    ensures !KeyLess(a, a)
  {
    Text.LessIsTotal(a.0, b.0);
    Text.LessIsTotal(a.1, b.1);
    Text.LessIsTotal(a.1, a.1);
  }

  lemma KeyLessIsTransitive(a: Key, b: Key, c: Key)
    requires KeyLess(a, b) && KeyLess(b, c)
    ensures KeyLess(a, c)
  {
    if a.0 == b.0 == c.0 {
      Text.LessIsTransitive(a.1, b.1, c.1);
    } else if a.0 != b.0 && b.0 != c.0 {
      Text.LessIsTransitive(a.0, b.0, c.0);
      Text.LessIsTotal(a.0, b.0);
    }
  }

  function InsertKey(ks: seq<Key>, k: Key): seq<Key> {
    if ks == [] || KeyLess(k, ks[0]) then [k] + ks else [ks[0]] + InsertKey(ks[1..], k)
  }

  lemma {:induction false} InsertKeySorts(ks: seq<Key>, k: Key)
    requires SortedKeys(ks) && k !in ks
    ensures SortedKeys(InsertKey(ks, k))
    ensures forall x :: x in InsertKey(ks, k) <==> x in ks || x == k
    decreases |ks|
  {
    if ks != [] {
      assert ks == [ks[0]] + ks[1..];
      KeyLessIsTotal(k, ks[0]);
      if KeyLess(k, ks[0]) {
        forall j | 1 <= j < |ks| ensures KeyLess(k, ks[j]) { KeyLessIsTransitive(k, ks[0], ks[j]); }
      } else {
        InsertKeySorts(ks[1..], k);
        forall x | x in InsertKey(ks[1..], k) ensures KeyLess(ks[0], x) {}
      }
    }
  }

  /** The keys of a BTreeMap, in the order it is walked. */
  method KeysInOrder(keys: set<Key>) returns (ks: seq<Key>)
    ensures SortedKeys(ks) && forall k :: k in ks <==> k in keys
  {
    ks := [];
    var todo := keys;
    while todo != {}
      invariant todo <= keys && SortedKeys(ks)
      invariant forall k :: k in ks <==> k in keys && k !in todo
      decreases todo
    {
      var k :| k in todo;
      InsertKeySorts(ks, k);
      ks := InsertKey(ks, k);
      todo := todo - {k};
    }
  }

  /** Ends before starts, each in the order of keys. */
  ghost predicate Before(c: Change, d: Change) {
    if c.Ended? == d.Ended? then KeyLess(c.key, d.key) else c.Ended?
  }

  ghost predicate InOrder(cs: seq<Change>) { forall i, j :: 0 <= i < j < |cs| ==> Before(cs[i], cs[j]) }

  lemma InOrderOneMore(cs: seq<Change>, c: Change)
    requires InOrder(cs) && forall d <- cs :: Before(d, c)
    ensures InOrder(cs + [c])
  {
  }

  // ----- ends ---------------------------------------------------------

  /** The ends among some keys. */
  function EndsOf(previous: map<Key, Seen>, current: map<Key, U64>, ks: seq<Key>, at: int): seq<Change> {
    if ks == [] then []
    else
      var n := |ks| - 1;
      EndsOf(previous, current, ks[..n], at)
      + if Ends(previous, current, ks[n]) then [EndOf(ks[n], previous[ks[n]], at)] else []
  }

  /** Live clients once some of them were ended. */
  function Remaining(previous: map<Key, Seen>, current: map<Key, U64>, ks: seq<Key>): Live {
    map k | k in previous && (k !in ks || !Ends(previous, current, k)) :: previous[k].startedAt
  }

  lemma LastKey(ks: seq<Key>)
    requires SortedKeys(ks) && ks != []
    ensures var before, last := ks[..|ks| - 1], ks[|ks| - 1];
            && SortedKeys(before) && last !in before && (forall k :: k in ks <==> k in before || k == last)
            && forall k <- before :: KeyLess(k, last)
  {
    var n := |ks| - 1;
    assert ks == ks[..n] + [ks[n]];
    KeyLessIsTotal(ks[n], ks[n]);
  }

  lemma RemainingOneLess(previous: map<Key, Seen>, current: map<Key, U64>, before: seq<Key>, k: Key, ks: seq<Key>)
    requires k !in before && forall x :: x in ks <==> x in before || x == k
    ensures var live := Remaining(previous, current, before);
            if Ends(previous, current, k)
            then k in live && live[k] == previous[k].startedAt && Remaining(previous, current, ks) == live - {k}
            else Remaining(previous, current, ks) == live
  {
  }

  lemma {:induction false} EndsOfReplay(previous: map<Key, Seen>, current: map<Key, U64>, ks: seq<Key>, at: int)
    requires SortedKeys(ks)
    ensures Replay(Beginnings(previous), EndsOf(previous, current, ks, at)) == Some(Remaining(previous, current, ks))
    decreases |ks|
  {
    if ks == [] {
      assert Remaining(previous, current, ks) == Beginnings(previous);
    } else {
      var before, k := ks[..|ks| - 1], ks[|ks| - 1];
      LastKey(ks);
      EndsOfReplay(previous, current, before, at);
      RemainingOneLess(previous, current, before, k, ks);
      var changes := EndsOf(previous, current, before, at);
      if Ends(previous, current, k) {
        ReplayOneMore(Beginnings(previous), changes, EndOf(k, previous[k], at));
      } else {
        assert changes + [] == changes;
      }
    }
  }

  /** The changes are exactly the ends among `ks`, in order. */
  ghost predicate AreEnds(cs: seq<Change>, previous: map<Key, Seen>, current: map<Key, U64>, ks: seq<Key>, at: int) {
    && InOrder(cs)
    && (forall c <- cs :: c.key in ks && Ends(previous, current, c.key) && c == EndOf(c.key, previous[c.key], at))
    && (forall k <- ks :: Ends(previous, current, k) ==> EndOf(k, previous[k], at) in cs)
  }

  lemma {:induction false} EndsOfAre(previous: map<Key, Seen>, current: map<Key, U64>, ks: seq<Key>, at: int)
    requires SortedKeys(ks)
    ensures AreEnds(EndsOf(previous, current, ks, at), previous, current, ks, at)
    decreases |ks|
  {
    if ks != [] {
      var n := |ks| - 1;
      LastKey(ks);
      EndsOfAre(previous, current, ks[..n], at);
      if Ends(previous, current, ks[n]) {
        InOrderOneMore(EndsOf(previous, current, ks[..n], at), EndOf(ks[n], previous[ks[n]], at));
      }
    }
  }

  /** Live clients once all that end were ended. */
  function Staying(previous: map<Key, Seen>, current: map<Key, U64>): Live {
    map k | k in previous && !Ends(previous, current, k) :: previous[k].startedAt
  }

  lemma AllEnded(previous: map<Key, Seen>, current: map<Key, U64>, ks: seq<Key>)
    requires forall k :: k in ks <==> k in previous
    ensures Remaining(previous, current, ks) == Staying(previous, current)
  {
  }

  lemma EndsOfNext(previous: map<Key, Seen>, current: map<Key, U64>, ks: seq<Key>, i: nat, at: int)
    requires i < |ks|
    ensures EndsOf(previous, current, ks[..i + 1], at) ==
              EndsOf(previous, current, ks[..i], at)
              + if Ends(previous, current, ks[i]) then [EndOf(ks[i], previous[ks[i]], at)] else []
  {
    assert ks[..i + 1][..i] == ks[..i];
  }

  /** The walk over the clients known. */
  method Part(at: int, previous: map<Key, Seen>, current: map<Key, U64>, keys: seq<Key>) returns (changes: seq<Change>)
    requires forall k <- keys :: k in previous
    ensures changes == EndsOf(previous, current, keys, at)
  {
    changes := [];
    for i := 0 to |keys|
      invariant changes == EndsOf(previous, current, keys[..i], at)
    {
      EndsOfNext(previous, current, keys, i, at);
      var k := keys[i];
      if k !in current || current[k] < previous[k].secs { changes := changes + [EndOf(k, previous[k], at)]; }
    }
    assert keys[..|keys|] == keys;
  }

  method CollectEnds(at: int, previous: map<Key, Seen>, current: map<Key, U64>) returns (changes: seq<Change>)
    ensures Replay(Beginnings(previous), changes) == Some(Staying(previous, current))
    ensures InOrder(changes)
    ensures forall k :: Ends(previous, current, k) ==> EndOf(k, previous[k], at) in changes
    ensures forall c <- changes :: Ends(previous, current, c.key) && c == EndOf(c.key, previous[c.key], at)
  {
    var keys := KeysInOrder(previous.Keys);
    changes := Part(at, previous, current, keys);
    EndsOfReplay(previous, current, keys, at);
    EndsOfAre(previous, current, keys, at);
    AllEnded(previous, current, keys);
  }

  // ----- starts -------------------------------------------------------

  /** The starts among some keys. */
  function StartsOf(previous: map<Key, Seen>, current: map<Key, U64>, ks: seq<Key>, at: int): seq<Change> {
    if ks == [] then []
    else
      var n := |ks| - 1;
      StartsOf(previous, current, ks[..n], at)
      + if Starts(previous, current, ks[n]) then [StartOf(ks[n], current[ks[n]], at)] else []
  }

  /** Live clients once some of the new ones were announced. */
  function Announced(previous: map<Key, Seen>, current: map<Key, U64>, at: int, ks: seq<Key>): Live {
    map k | k in current && (k in ks || !Starts(previous, current, k)) :: SeenNow(previous, current, at)[k].startedAt
  }

  lemma AnnouncedOneMore(
    previous: map<Key, Seen>, current: map<Key, U64>, at: int, before: seq<Key>, k: Key, ks: seq<Key>)
    requires k !in before && forall x :: x in ks <==> x in before || x == k
    ensures var live := Announced(previous, current, at, before);
            if Starts(previous, current, k)
            then k !in live && Announced(previous, current, at, ks) == live[k := Estimate(at, current[k])]
            else Announced(previous, current, at, ks) == live
  {
  }

  lemma {:induction false} StartsOfReplay(previous: map<Key, Seen>, current: map<Key, U64>, ks: seq<Key>, at: int)
    requires SortedKeys(ks)
    ensures Replay(Announced(previous, current, at, []), StartsOf(previous, current, ks, at)) ==
              Some(Announced(previous, current, at, ks))
    decreases |ks|
  {
    if ks != [] {
      var before, k := ks[..|ks| - 1], ks[|ks| - 1];
      LastKey(ks);
      StartsOfReplay(previous, current, before, at);
      AnnouncedOneMore(previous, current, at, before, k, ks);
      var changes := StartsOf(previous, current, before, at);
      if Starts(previous, current, k) {
        ReplayOneMore(Announced(previous, current, at, []), changes, StartOf(k, current[k], at));
      } else {
        assert changes + [] == changes;
      }
    }
  }

  /** The changes are exactly the starts among `ks`, in order. */
  ghost predicate AreStarts(cs: seq<Change>, previous: map<Key, Seen>, current: map<Key, U64>, ks: seq<Key>, at: int) {
    && InOrder(cs)
    && (forall c <- cs :: c.key in ks && Starts(previous, current, c.key) && c == StartOf(c.key, current[c.key], at))
    && (forall k <- ks :: Starts(previous, current, k) ==> StartOf(k, current[k], at) in cs)
  }

  lemma {:induction false} StartsOfAre(previous: map<Key, Seen>, current: map<Key, U64>, ks: seq<Key>, at: int)
    requires SortedKeys(ks)
    ensures AreStarts(StartsOf(previous, current, ks, at), previous, current, ks, at)
    decreases |ks|
  {
    if ks != [] {
      var n := |ks| - 1;
      LastKey(ks);
      StartsOfAre(previous, current, ks[..n], at);
      if Starts(previous, current, ks[n]) {
        InOrderOneMore(StartsOf(previous, current, ks[..n], at), StartOf(ks[n], current[ks[n]], at));
      }
    }
  }

  /** One client seen: its start, if it is one, and what is remembered. */
  method Note(at: int, previous: map<Key, Seen>, current: map<Key, U64>, k: Key)
    returns (started: seq<Change>, seen: Seen)
    requires k in current
    ensures started == if Starts(previous, current, k) then [StartOf(k, current[k], at)] else []
    ensures seen == SeenNow(previous, current, at)[k]
  {
    var secs := current[k];
    if k in previous && secs >= previous[k].secs { return [], Seen(secs, previous[k].startedAt, at); }
    var startedAt := Estimate(at, secs);
    return [Started(k, secs, startedAt, at, at)], Seen(secs, startedAt, at);
  }

  /** What is remembered of some keys. */
  ghost predicate Remembered(
    next: map<Key, Seen>, previous: map<Key, Seen>, current: map<Key, U64>, ks: seq<Key>, at: int)
  {
    forall k :: (k in next <==> k in ks) && (k in ks ==> k in current && next[k] == SeenNow(previous, current, at)[k])
  }

  lemma StartsOfNext(previous: map<Key, Seen>, current: map<Key, U64>, ks: seq<Key>, i: nat, at: int)
    requires i < |ks|
    ensures StartsOf(previous, current, ks[..i + 1], at) ==
              StartsOf(previous, current, ks[..i], at)
              + if Starts(previous, current, ks[i]) then [StartOf(ks[i], current[ks[i]], at)] else []
  {
    assert ks[..i + 1][..i] == ks[..i];
  }

  lemma RememberedNext(
    next: map<Key, Seen>, previous: map<Key, Seen>, current: map<Key, U64>, ks: seq<Key>, i: nat, seen: Seen, at: int)
    requires i < |ks| && Remembered(next, previous, current, ks[..i], at)
    requires ks[i] in current && seen == SeenNow(previous, current, at)[ks[i]]
    ensures Remembered(next[ks[i] := seen], previous, current, ks[..i + 1], at)
  {
    assert ks[..i + 1] == ks[..i] + [ks[i]];
  }

  lemma AllRemembered(next: map<Key, Seen>, previous: map<Key, Seen>, current: map<Key, U64>, ks: seq<Key>, at: int)
    requires Remembered(next, previous, current, ks, at) && forall k :: k in ks <==> k in current
    ensures next == SeenNow(previous, current, at)
  {
  }

  /** The walk over the clients of a poll. */
  method Announce(at: int, previous: map<Key, Seen>, current: map<Key, U64>, keys: seq<Key>)
    returns (changes: seq<Change>, next: map<Key, Seen>)
    requires forall k <- keys :: k in current
    ensures changes == StartsOf(previous, current, keys, at)
    ensures Remembered(next, previous, current, keys, at)
  {
    changes, next := [], map[];
    for i := 0 to |keys|
      invariant changes == StartsOf(previous, current, keys[..i], at)
      invariant Remembered(next, previous, current, keys[..i], at)
    {
      var started, seen := Note(at, previous, current, keys[i]);
      StartsOfNext(previous, current, keys, i, at);
      RememberedNext(next, previous, current, keys, i, seen, at);
      changes, next := changes + started, next[keys[i] := seen];
    }
    assert keys[..|keys|] == keys;
  }

  /** What the ends leave is what the starts begin from; what the starts leave
      is what is remembered. */
  lemma AllAnnounced(previous: map<Key, Seen>, current: map<Key, U64>, at: int, ks: seq<Key>)
    requires forall k :: k in ks <==> k in current
    ensures Announced(previous, current, at, []) == Staying(previous, current)
    ensures Announced(previous, current, at, ks) == Beginnings(SeenNow(previous, current, at))
  {
  }

  method CollectStarts(at: int, previous: map<Key, Seen>, current: map<Key, U64>)
    returns (changes: seq<Change>, next: map<Key, Seen>)
    ensures next == SeenNow(previous, current, at)
    ensures Replay(Staying(previous, current), changes) == Some(Beginnings(next))
    ensures InOrder(changes)
    ensures forall k :: Starts(previous, current, k) ==> StartOf(k, current[k], at) in changes
    ensures forall c <- changes :: Starts(previous, current, c.key) && c == StartOf(c.key, current[c.key], at)
  {
    var keys := KeysInOrder(current.Keys);
    changes, next := Announce(at, previous, current, keys);
    AllRemembered(next, previous, current, keys, at);
    StartsOfReplay(previous, current, keys, at);
    StartsOfAre(previous, current, keys, at);
    AllAnnounced(previous, current, at, keys);
  }

  lemma JournalGoesOn(
    previous: map<Key, Seen>, journal: seq<Change>, ended: seq<Change>, staying: Live, started: seq<Change>,
    next: map<Key, Seen>)
    requires Replay(map[], journal) == Some(Beginnings(previous))
    requires Replay(Beginnings(previous), ended) == Some(staying) && Replay(staying, started) == Some(Beginnings(next))
    ensures Replay(map[], journal + (ended + started)) == Some(Beginnings(next))
  {
    ReplayGoesOn(Beginnings(previous), ended, started);
    ReplayGoesOn(map[], journal, ended + started);
  }

  lemma EndsBeforeStarts(ended: seq<Change>, started: seq<Change>)
    requires InOrder(ended) && InOrder(started)
    requires (forall c <- ended :: c.Ended?) && (forall c <- started :: c.Started?)
    ensures InOrder(ended + started)
  {
    var all := ended + started;
    forall i, j | 0 <= i < j < |all| ensures Before(all[i], all[j]) {
      if i < |ended| { assert all[i] in ended; }
      if j < |ended| { assert Before(ended[i], ended[j]); } else { assert all[j] in started; }
      if i >= |ended| { assert Before(started[i - |ended|], started[j - |ended|]); }
    }
  }

  // =====================================================================
  // The tracker
  // =====================================================================

  class Tracker {
    var previous: map<Key, Seen>
    /** Every change announced, and the instant of the last complete poll. */
    ghost var journal: seq<Change>
    ghost var lastPoll: Option<int>

    /** The journal replays into the tracker's clients, all seen at the last
        complete poll. */
    ghost predicate Valid()
      reads this
    {
      && Replay(map[], journal) == Some(Beginnings(previous))
      && forall k :: k in previous ==> Some(previous[k].lastSeenAt) == lastPoll
    }

    constructor ()
      ensures Valid() && journal == [] && lastPoll == None
    {
      previous, journal, lastPoll := map[], [], None;
    }

    method Observe(at: int, clients: Option<seq<Connection>>) returns (changes: seq<Change>)
      requires Valid()
      modifies this
      ensures Valid() && journal == old(journal) + changes
      ensures clients.None? ==> changes == [] && previous == old(previous) && lastPoll == old(lastPoll)
      ensures clients.Some? ==> lastPoll == Some(at) && previous == SeenNow(old(previous), Current(clients.value), at)
      ensures clients.Some? ==> forall k :: Ends(old(previous), Current(clients.value), k) ==>
                EndOf(k, old(previous)[k], at) in changes
      ensures clients.Some? ==> forall k :: Starts(old(previous), Current(clients.value), k) ==>
                StartOf(k, Current(clients.value)[k], at) in changes
      ensures InOrder(changes)
      ensures forall c <- changes :: c.observedAt == at && (c.Ended? ==> Some(c.lastSeenAt) == old(lastPoll))
      ensures forall c <- changes :: clients.Some? &&
                if c.Ended? then Ends(old(previous), Current(clients.value), c.key)
                  else Starts(old(previous), Current(clients.value), c.key)
    {
      if clients.None? {
        assert journal == journal + [];
        return [];
      }
      var current := ByKey(clients.value);
      var ended := CollectEnds(at, previous, current);
      var started, next := CollectStarts(at, previous, current);
      changes := ended + started;
      EndsBeforeStarts(ended, started);
      JournalGoesOn(previous, journal, ended, Staying(previous, current), started, next);
      previous, journal, lastPoll := next, journal + changes, Some(at);
    }
  }
}
