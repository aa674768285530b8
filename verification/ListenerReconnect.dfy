/** Continuity of listeners across reconnects (src/listener_reconnect.rs).

    Instants are counted in nanoseconds, ages in whole seconds; a logical id
    `sleep:n` is its number `n`. */
module ListenerReconnect {
  import opened Base

  const SECOND := 1_000_000_000
  const GRACE := 30 * SECOND

  datatype Endpoint = Endpoint(mount: string, ip: string, agent: Option<string>)

  /** A listener as Icecast reports it, on its mount. */
  datatype Client = Client(mount: string, id: string, ip: string, seconds: U64, agent: Option<string>)

  datatype Session = Session(rawId: string, rawAge: U64, logicalId: nat, age: U64, since: int, lastSeen: int)

  datatype Connection = Connection(mount: string, id: nat, seconds: U64)

  type Sessions = map<Endpoint, seq<Session>>

  datatype Table = Table(previous: Sessions, observed: Option<int>, nextId: nat)

  function EndpointOf(c: Client): Endpoint { Endpoint(c.mount, c.ip, c.agent) }

  /** `now.saturating_duration_since(at)`. */
  function Elapsed(now: int, at: int): nat { Max(now - at, 0) }

  function AddSeconds(age: U64, ticks: nat): U64 { Min(age + ticks / SECOND, U64_MAX) }

  /** The age a view reports for a session at `now`. */
  function Reported(s: Session, now: int): U64 { AddSeconds(s.age, Elapsed(now, s.since)) }

  function Show(key: Endpoint, s: Session, now: int): Connection {
    Connection(key.mount, s.logicalId, Reported(s, now))
  }

  // =====================================================================
  // One endpoint
  // =====================================================================

  /** The session of the same raw client, whose raw age did not go back. */
  function SameRaw(sessions: seq<Session>, c: Client): (i: Option<nat>)
    ensures i.Some? ==> i.value < |sessions|
  {
    if sessions == [] then None
    else if sessions[0].rawId == c.id && c.seconds >= sessions[0].rawAge then Some(0)
    else
      match SameRaw(sessions[1..], c)
      case Some(i) => Some(i + 1)
      case None => None
  }

  /** The client may be the one that just left: it started within the time
      nobody looked, to the second. */
  predicate MayReplace(was: Session, c: Client, key: Endpoint, now: int) {
    && Elapsed(now, was.lastSeen) < GRACE
    && c.seconds <= AddSeconds(1, Elapsed(now, was.lastSeen))
    && key.agent.Some? && key.agent.value != ""
  }

  function Continues(left: seq<Session>, c: Client, key: Endpoint, mayReplace: bool, now: int): (i: Option<nat>)
    ensures i.Some? ==> i.value < |left|
  {
    var same := SameRaw(left, c);
    if same.Some? then same
    else if mayReplace && left != [] && MayReplace(left[0], c, key, now) then Some(0)
    else None
  }

  function Continued(was: Session, c: Client, now: int): Session {
    Session(c.id, c.seconds, was.logicalId, Max(c.seconds, Reported(was, now)), now, now)
  }

  function Fresh(c: Client, id: nat, now: int): Session { Session(c.id, c.seconds, id, c.seconds, now, now) }

  function Without(s: seq<Session>, i: nat): seq<Session>
    requires i < |s|
  {
    s[..i] + s[i + 1..]
  }

  /** The sessions of an endpoint's clients, in their order, and the last id
      given. */
  function Match(
    left: seq<Session>, clients: seq<Client>, key: Endpoint, mayReplace: bool, now: int,
    nextId: nat): (seq<Session>, nat)
    decreases |clients|
  {
    if clients == [] then ([], nextId)
    else
      match Continues(left, clients[0], key, mayReplace, now)
      case Some(i) =>
        var (rest, last) := Match(Without(left, i), clients[1..], key, mayReplace, now, nextId);
        ([Continued(left[i], clients[0], now)] + rest, last)
      case None =>
        var (rest, last) := Match(left, clients[1..], key, mayReplace, now, nextId + 1);
        ([Fresh(clients[0], nextId + 1, now)] + rest, last)
  }

  // ----- logical ids of one endpoint -----

  ghost predicate Distinct(s: seq<Session>) {
    forall i, j :: 0 <= i < j < |s| ==> s[i].logicalId != s[j].logicalId
  }

  ghost predicate Has(s: seq<Session>, id: nat) { exists i :: 0 <= i < |s| && s[i].logicalId == id }

  /** What becomes of a session when its client is seen again. */
  ghost predicate SeenAgain(was: seq<Session>, s: Session, now: int) {
    exists i :: 0 <= i < |was| && was[i].logicalId == s.logicalId && s.age >= Reported(was[i], now)
  }

  /** One session per client, of its raw id; its logical id is one of the
      endpoint's, used once, or a new one. */
  ghost predicate MatchOk(
    left: seq<Session>, clients: seq<Client>, now: int, nextId: nat, sessions: seq<Session>, last: nat)
  {
    && |sessions| == |clients| && nextId <= last && Distinct(sessions)
    && (forall i :: 0 <= i < |sessions| ==> SessionOk(left, clients[i], now, nextId, sessions[i], last))
  }

  ghost predicate SessionOk(left: seq<Session>, c: Client, now: int, nextId: nat, s: Session, last: nat) {
    && s.rawId == c.id && s.rawAge == c.seconds <= s.age && s.since == s.lastSeen == now
    && s.logicalId <= last && (s.logicalId <= nextId ==> SeenAgain(left, s, now))
  }

  lemma SeenAmongFewer(left: seq<Session>, at: nat, s: Session, now: int)
    requires Distinct(left) && at < |left| && SeenAgain(Without(left, at), s, now)
    ensures SeenAgain(left, s, now) && s.logicalId != left[at].logicalId
  {
    var rest := Without(left, at);
    var k :| 0 <= k < |rest| && rest[k].logicalId == s.logicalId && s.age >= Reported(rest[k], now);
    assert rest[k] == left[if k < at then k else k + 1];
  }

  lemma ContinuedIsOk(
    left: seq<Session>, at: nat, clients: seq<Client>, now: int, nextId: nat, tail: seq<Session>, last: nat)
    requires Distinct(left) && at < |left| && left[at].logicalId <= nextId && clients != []
    requires MatchOk(Without(left, at), clients[1..], now, nextId, tail, last)
    ensures MatchOk(left, clients, now, nextId, [Continued(left[at], clients[0], now)] + tail, last)
  {
    var first := Continued(left[at], clients[0], now);
    assert SeenAgain(left, first, now);
    forall i | 0 <= i < |tail|
      ensures SessionOk(left, clients[i + 1], now, nextId, tail[i], last) && tail[i].logicalId != first.logicalId
    {
      assert SessionOk(Without(left, at), clients[1..][i], now, nextId, tail[i], last);
      if tail[i].logicalId <= nextId { SeenAmongFewer(left, at, tail[i], now); }
    }
    FirstOfDistinct(first, tail);
  }

  lemma FreshIsOk(left: seq<Session>, clients: seq<Client>, now: int, nextId: nat, tail: seq<Session>, last: nat)
    requires (forall i :: 0 <= i < |left| ==> left[i].logicalId <= nextId) && clients != []
    requires MatchOk(left, clients[1..], now, nextId + 1, tail, last)
    ensures MatchOk(left, clients, now, nextId, [Fresh(clients[0], nextId + 1, now)] + tail, last)
  {
    var first := Fresh(clients[0], nextId + 1, now);
    forall i | 0 <= i < |tail|
      ensures SessionOk(left, clients[i + 1], now, nextId, tail[i], last) && tail[i].logicalId != first.logicalId
    {
      assert SessionOk(left, clients[1..][i], now, nextId + 1, tail[i], last);
    }
    FirstOfDistinct(first, tail);
  }

  lemma FirstOfDistinct(first: Session, tail: seq<Session>)
    requires Distinct(tail) && forall i :: 0 <= i < |tail| ==> tail[i].logicalId != first.logicalId
    ensures Distinct([first] + tail)
  {
  }

  lemma {:induction false} MatchSessions(
    left: seq<Session>, clients: seq<Client>, key: Endpoint, mayReplace: bool, now: int, nextId: nat)
    requires Distinct(left) && forall i :: 0 <= i < |left| ==> left[i].logicalId <= nextId
    ensures var (sessions, last) := Match(left, clients, key, mayReplace, now, nextId);
            MatchOk(left, clients, now, nextId, sessions, last)
    decreases |clients|
  {
    if clients != [] {
      match Continues(left, clients[0], key, mayReplace, now)
      case Some(i) =>
        var rest := Without(left, i);
        MatchSessions(rest, clients[1..], key, mayReplace, now, nextId);
        var (tail, last) := Match(rest, clients[1..], key, mayReplace, now, nextId);
        ContinuedIsOk(left, i, clients, now, nextId, tail, last);
      case None =>
        MatchSessions(left, clients[1..], key, mayReplace, now, nextId + 1);
        var (tail, last) := Match(left, clients[1..], key, mayReplace, now, nextId + 1);
        FreshIsOk(left, clients, now, nextId, tail, last);
    }
  }

  // =====================================================================
  // One complete poll
  // =====================================================================

  /** The clients of each endpoint, in the order of the poll. */
  function Grouped(clients: seq<Client>): map<Endpoint, seq<Client>> {
    if clients == [] then map[]
    else
      var n := |clients| - 1;
      var before, key := Grouped(clients[..n]), EndpointOf(clients[n]);
      before[key := (if key in before then before[key] else []) + [clients[n]]]
  }

  function SessionsAt(previous: Sessions, key: Endpoint): seq<Session> {
    if key in previous then previous[key] else []
  }

  /** `recent`: the previous poll was complete and recent enough. */
  predicate IsRecent(t: Table, now: int, maxInterval: int) {
    t.observed.Some? && Elapsed(now, t.observed.value) <= maxInterval
  }

  function MatchAt(
    previous: Sessions, key: Endpoint, clients: seq<Client>, recent: bool, now: int, nextId: nat): (seq<Session>, nat)
  {
    var left := SessionsAt(previous, key);
    Match(left, clients, key, recent && |left| == 1 && |clients| == 1, now, nextId)
  }

  /** The endpoints present in the poll, taken in some order. */
  function Present(
    previous: Sessions, grouped: map<Endpoint, seq<Client>>, order: seq<Endpoint>, recent: bool, now: int,
    nextId: nat): (Sessions, nat)
    requires forall k <- order :: k in grouped
  {
    if order == [] then (map[], nextId)
    else
      var n := |order| - 1;
      assert forall k <- order[..n] :: k in order;
      var (before, last) := Present(previous, grouped, order[..n], recent, now, nextId);
      var (sessions, last') := MatchAt(previous, order[n], grouped[order[n]], recent, now, last);
      (before[order[n] := sessions], last')
  }

  /** The sessions of an absent endpoint still within their lease. */
  function Leased(sessions: seq<Session>, now: int): seq<Session> {
    if sessions == [] then []
    else (if Elapsed(now, sessions[0].lastSeen) < GRACE then [sessions[0]] else []) + Leased(sessions[1..], now)
  }

  function Held(previous: Sessions, present: set<Endpoint>, now: int): Sessions {
    map key | key in previous && key !in present && Leased(previous[key], now) != [] :: Leased(previous[key], now)
  }

  /** The table after a complete poll whose endpoints were taken in `order`. */
  function Polled(t: Table, clients: seq<Client>, order: seq<Endpoint>, now: int, maxInterval: int): Table
    requires forall k <- order :: k in Grouped(clients)
  {
    var grouped := Grouped(clients);
    var (next, last) := Present(t.previous, grouped, order, IsRecent(t, now, maxInterval), now, t.nextId);
    Table(next + Held(t.previous, grouped.Keys, now), Some(now), last)
  }

  ghost predicate IsOrder(order: seq<Endpoint>, keys: set<Endpoint>) {
    && (forall i, j :: 0 <= i < j < |order| ==> order[i] != order[j])
    && (forall k :: k in order <==> k in keys)
  }

  /** What a view shows of a table, its endpoints taken in `order`. */
  function View(previous: Sessions, order: seq<Endpoint>, now: int): seq<Connection> {
    if order == [] then []
    else
      var n := |order| - 1;
      View(previous, order[..n], now) + Shows(order[n], SessionsAt(previous, order[n]), now)
  }

  function Shows(key: Endpoint, sessions: seq<Session>, now: int): seq<Connection> {
    seq(|sessions|, i requires 0 <= i < |sessions| => Show(key, sessions[i], now))
  }

  // =====================================================================
  // What one poll keeps
  // =====================================================================

  /** Logical ids are given once: no two sessions of the table share one. */
  ghost predicate Valid(t: Table) {
    && (forall key <- t.previous :: Distinct(t.previous[key]))
    && (forall key <- t.previous, i :: 0 <= i < |t.previous[key]| ==> t.previous[key][i].logicalId <= t.nextId)
    && (forall k, l :: k in t.previous && l in t.previous && k != l ==> Apart(t.previous[k], t.previous[l]))
  }

  ghost predicate Apart(a: seq<Session>, b: seq<Session>) {
    forall i, j :: 0 <= i < |a| && 0 <= j < |b| ==> a[i].logicalId != b[j].logicalId
  }

  /** How a session got into the new table: it is new, it was seen again at its
      endpoint, or it is held there within its lease. */
  ghost predicate Follows(t: Table, key: Endpoint, s: Session, seen: bool, now: int) {
    var was := SessionsAt(t.previous, key);
    || (seen && s.lastSeen == s.since == now && (s.logicalId > t.nextId || SeenAgain(was, s, now)))
    || (!seen && s in was && Elapsed(now, s.lastSeen) < GRACE)
  }

  lemma {:induction false} LeasedSessions(sessions: seq<Session>, now: int)
    ensures forall s :: s in Leased(sessions, now) <==> s in sessions && Elapsed(now, s.lastSeen) < GRACE
    ensures Distinct(sessions) ==> Distinct(Leased(sessions, now))
    decreases |sessions|
  {
    if sessions != [] {
      LeasedSessions(sessions[1..], now);
      assert sessions == [sessions[0]] + sessions[1..];
      if Distinct(sessions) {
        forall s | s in sessions[1..] ensures s.logicalId != sessions[0].logicalId {
          var i :| 0 <= i < |sessions[1..]| && sessions[1..][i] == s;
          assert sessions[i + 1] == s;
        }
      }
    }
  }

  /** A present endpoint after the poll: its sessions are its clients', and their
      ids are its own or newer than the table's. */
  ghost predicate PresentOk(
    t: Table, key: Endpoint, clients: seq<Client>, now: int, sessions: seq<Session>, last: nat)
  {
    && |sessions| == |clients| && Distinct(sessions)
    && (forall i :: 0 <= i < |sessions| ==>
          SessionOk(SessionsAt(t.previous, key), clients[i], now, t.nextId, sessions[i], last))
  }

  ghost predicate AllApart(next: Sessions) {
    forall k, l :: k in next && l in next && k != l ==> Apart(next[k], next[l])
  }

  /** The endpoints of `order`, each as it should be after the poll, no two
      sharing an id. */
  ghost predicate AllPresent(
    t: Table, grouped: map<Endpoint, seq<Client>>, order: seq<Endpoint>, now: int, next: Sessions, last: nat)
    requires forall k <- order :: k in grouped
  {
    && t.nextId <= last && (forall k :: k in next <==> k in order)
    && (forall k <- order :: PresentOk(t, k, grouped[k], now, next[k], last))
    && AllApart(next)
  }

  lemma PresentOkLater(
    t: Table, key: Endpoint, clients: seq<Client>, now: int, sessions: seq<Session>, last: nat, later: nat)
    requires PresentOk(t, key, clients, now, sessions, last) && last <= later
    ensures PresentOk(t, key, clients, now, sessions, later)
  {
    forall i | 0 <= i < |sessions|
      ensures SessionOk(SessionsAt(t.previous, key), clients[i], now, t.nextId, sessions[i], later)
    {
      assert SessionOk(SessionsAt(t.previous, key), clients[i], now, t.nextId, sessions[i], last);
    }
  }

  /** One more endpoint, apart from each of the others. */
  lemma ApartWith(next: Sessions, key: Endpoint, sessions: seq<Session>)
    requires AllApart(next) && key !in next
    requires forall k <- next :: Apart(next[k], sessions) && Apart(sessions, next[k])
    ensures AllApart(next[key := sessions])
  {
  }

  lemma AddPresent(
    t: Table, grouped: map<Endpoint, seq<Client>>, order: seq<Endpoint>, key: Endpoint, recent: bool, now: int,
    next: Sessions, last: nat)
    requires Valid(t) && (forall k <- order :: k in grouped) && key in grouped && key !in order
    requires AllPresent(t, grouped, order, now, next, last)
    ensures var (sessions, last') := MatchAt(t.previous, key, grouped[key], recent, now, last);
            AllPresent(t, grouped, order + [key], now, next[key := sessions], last')
  {
    var (sessions, last') := MatchAt(t.previous, key, grouped[key], recent, now, last);
    OneMoreEndpoint(t, key, grouped[key], recent, now, last);
    forall k | k in next ensures Apart(next[k], sessions) && Apart(sessions, next[k]) {
      NewEndpointApart(t, k, key, grouped[k], grouped[key], recent, now, next[k], last);
    }
    ApartWith(next, key, sessions);
    forall k | k in order ensures PresentOk(t, k, grouped[k], now, next[k], last') {
      PresentOkLater(t, k, grouped[k], now, next[k], last, last');
    }
  }

  lemma {:induction false} PresentEndpoints(
    t: Table, grouped: map<Endpoint, seq<Client>>, order: seq<Endpoint>, recent: bool, now: int)
    requires Valid(t) && (forall k <- order :: k in grouped)
    requires forall i, j :: 0 <= i < j < |order| ==> order[i] != order[j]
    ensures var (next, last) := Present(t.previous, grouped, order, recent, now, t.nextId);
            AllPresent(t, grouped, order, now, next, last)
    decreases |order|
  {
    if order != [] {
      var n := |order| - 1;
      var earlier, key := order[..n], order[n];
      assert order == earlier + [key];
      assert forall k <- earlier :: k in order;
      PresentEndpoints(t, grouped, earlier, recent, now);
      var (before, last) := Present(t.previous, grouped, earlier, recent, now, t.nextId);
      AddPresent(t, grouped, earlier, key, recent, now, before, last);
    }
  }

  lemma OneMoreEndpoint(t: Table, key: Endpoint, clients: seq<Client>, recent: bool, now: int, nextId: nat)
    requires Valid(t) && t.nextId <= nextId
    ensures var (sessions, last) := MatchAt(t.previous, key, clients, recent, now, nextId);
            nextId <= last && PresentOk(t, key, clients, now, sessions, last)
  {
    var left := SessionsAt(t.previous, key);
    MatchSessions(left, clients, key, recent && |left| == 1 && |clients| == 1, now, nextId);
  }

  lemma NewEndpointApart(
    t: Table, k: Endpoint, l: Endpoint, kClients: seq<Client>, lClients: seq<Client>, recent: bool, now: int,
    sessions: seq<Session>, nextId: nat)
    requires Valid(t) && t.nextId <= nextId && k != l
    requires PresentOk(t, k, kClients, now, sessions, nextId)
    ensures Apart(sessions, MatchAt(t.previous, l, lClients, recent, now, nextId).0)
    ensures Apart(MatchAt(t.previous, l, lClients, recent, now, nextId).0, sessions)
  {
    var left := SessionsAt(t.previous, l);
    MatchSessions(left, lClients, l, recent && |left| == 1 && |lClients| == 1, now, nextId);
    var added := MatchAt(t.previous, l, lClients, recent, now, nextId).0;
    forall i, j | 0 <= i < |sessions| && 0 <= j < |added| ensures sessions[i].logicalId != added[j].logicalId {
      assert SessionOk(left, lClients[j], now, nextId, added[j],
        MatchAt(t.previous, l, lClients, recent, now, nextId).1);
      assert SessionOk(SessionsAt(t.previous, k), kClients[i], now, t.nextId, sessions[i], nextId);
      if added[j].logicalId <= nextId {
        var b :| 0 <= b < |left| && left[b].logicalId == added[j].logicalId;
        if sessions[i].logicalId <= t.nextId {
          var was := SessionsAt(t.previous, k);
          var a :| 0 <= a < |was| && was[a].logicalId == sessions[i].logicalId;
          assert Apart(t.previous[k], t.previous[l]);
        }
      }
    }
  }

  /** After any complete poll, whatever it shows and whenever it comes: ids are
      still given once, and every session is new, seen again, or held. */
  lemma PollKeepsIds(t: Table, clients: seq<Client>, order: seq<Endpoint>, now: int, maxInterval: int)
    requires Valid(t) && IsOrder(order, Grouped(clients).Keys)
    ensures var t' := Polled(t, clients, order, now, maxInterval);
            && Valid(t') && t.nextId <= t'.nextId
            && (forall key, i :: key in t'.previous && 0 <= i < |t'.previous[key]| ==>
                 Follows(t, key, t'.previous[key][i], key in Grouped(clients), now))
            && (forall key <- Grouped(clients) :: key in t'.previous &&
                  PresentOk(t, key, Grouped(clients)[key], now, t'.previous[key], t'.nextId))
  {
    var grouped := Grouped(clients);
    var t' := Polled(t, clients, order, now, maxInterval);
    PollKeepsSessions(t, clients, order, now, maxInterval);
    forall k, l | k in t'.previous && l in t'.previous && k != l ensures Apart(t'.previous[k], t'.previous[l]) {
      StaysApart(t, t', grouped, k, l, now);
    }
    forall key, i | key in t'.previous && 0 <= i < |t'.previous[key]|
      ensures t'.previous[key][i].logicalId <= t'.nextId
      ensures Follows(t, key, t'.previous[key][i], key in grouped, now)
    {
      if key in grouped {
        assert SessionOk(SessionsAt(t.previous, key), grouped[key][i], now, t.nextId, t'.previous[key][i], t'.nextId);
      } else {
        assert t'.previous[key][i] in t.previous[key];
      }
    }
  }

  lemma PollKeepsSessions(t: Table, clients: seq<Client>, order: seq<Endpoint>, now: int, maxInterval: int)
    requires Valid(t) && IsOrder(order, Grouped(clients).Keys)
    ensures var t', grouped := Polled(t, clients, order, now, maxInterval), Grouped(clients);
            && t.nextId <= t'.nextId
            && (forall key <- grouped :: key in t'.previous &&
                  PresentOk(t, key, grouped[key], now, t'.previous[key], t'.nextId))
            && (forall key <- t'.previous :: key !in grouped ==>
                 key in t.previous && Distinct(t'.previous[key])
                 && forall s <- t'.previous[key] :: s in t.previous[key] && Elapsed(now, s.lastSeen) < GRACE)
            && (forall k, l :: k in grouped && l in grouped && k != l ==> Apart(t'.previous[k], t'.previous[l]))
  {
    PresentEndpoints(t, Grouped(clients), order, IsRecent(t, now, maxInterval), now);
    forall key | key in t.previous { LeasedSessions(t.previous[key], now); }
  }

  lemma StaysApart(t: Table, t': Table, grouped: map<Endpoint, seq<Client>>, k: Endpoint, l: Endpoint, now: int)
    requires Valid(t) && t.nextId <= t'.nextId && k != l && k in t'.previous && l in t'.previous
    requires forall key <- grouped :: key in t'.previous &&
               PresentOk(t, key, grouped[key], now, t'.previous[key], t'.nextId)
    requires forall key <- t'.previous :: key !in grouped ==>
               key in t.previous && forall s <- t'.previous[key] :: s in t.previous[key]
    requires k in grouped && l in grouped ==> Apart(t'.previous[k], t'.previous[l])
    ensures Apart(t'.previous[k], t'.previous[l])
  {
    var a, b := t'.previous[k], t'.previous[l];
    forall i, j | 0 <= i < |a| && 0 <= j < |b| ensures a[i].logicalId != b[j].logicalId {
      if k !in grouped || l !in grouped {
        var i0 := WhereFrom(t, t', grouped, k, i, now);
        var j0 := WhereFrom(t, t', grouped, l, j, now);
        if i0.Some? && j0.Some? { assert Apart(t.previous[k], t.previous[l]); }
      }
    }
  }

  /** The old session an id comes from, unless it is new. */
  lemma WhereFrom(t: Table, t': Table, grouped: map<Endpoint, seq<Client>>, k: Endpoint, i: nat, now: int)
    returns (j: Option<nat>)
    requires k in t'.previous && i < |t'.previous[k]|
    requires k in grouped ==> PresentOk(t, k, grouped[k], now, t'.previous[k], t'.nextId)
    requires k !in grouped ==> k in t.previous && forall s <- t'.previous[k] :: s in t.previous[k]
    ensures j.Some? ==>
              k in t.previous && j.value < |t.previous[k]| &&
              t.previous[k][j.value].logicalId == t'.previous[k][i].logicalId
    ensures j.None? ==> k in grouped && t'.previous[k][i].logicalId > t.nextId
  {
    var s := t'.previous[k][i];
    var was := SessionsAt(t.previous, k);
    if k in grouped {
      assert SessionOk(was, grouped[k][i], now, t.nextId, s, t'.nextId);
      if s.logicalId > t.nextId { return None; }
      var m :| 0 <= m < |was| && was[m].logicalId == s.logicalId && s.age >= Reported(was[m], now);
      return Some(m);
    }
    assert s in t'.previous[k];
    var m :| 0 <= m < |was| && was[m] == s;
    return Some(m);
  }

  // =====================================================================
  // Views
  // =====================================================================

  ghost predicate Located(t: Table, key: Endpoint, i: nat, id: nat) {
    key in t.previous && i < |t.previous[key]| && t.previous[key][i].logicalId == id
  }

  /** The connection is that of a session of the endpoints. */
  ghost predicate ShownBy(t: Table, order: seq<Endpoint>, now: int, c: Connection) {
    exists key, i: nat :: key in order && Located(t, key, i, c.id) && c == Show(key, t.previous[key][i], now)
  }

  lemma LastShown(t: Table, order: seq<Endpoint>, now: int, c: Connection)
    requires Valid(t) && order != []
    requires c in Shows(order[|order| - 1], SessionsAt(t.previous, order[|order| - 1]), now)
    ensures ShownBy(t, order, now, c)
    ensures order[|order| - 1] !in order[..|order| - 1] ==>
              !exists d :: ShownBy(t, order[..|order| - 1], now, d) && d.id == c.id
  {
    var key := order[|order| - 1];
    var i :| 0 <= i < |SessionsAt(t.previous, key)| && c == Show(key, SessionsAt(t.previous, key)[i], now);
    assert Located(t, key, i, c.id);
    forall d | ShownBy(t, order[..|order| - 1], now, d) && key !in order[..|order| - 1] ensures d.id != c.id {
      var k, j: nat :| k in order[..|order| - 1] && Located(t, k, j, d.id) && d == Show(k, t.previous[k][j], now);
      assert Apart(t.previous[k], t.previous[key]);
    }
  }

  ghost predicate AllShownBy(t: Table, order: seq<Endpoint>, now: int, view: seq<Connection>) {
    forall c <- view :: ShownBy(t, order, now, c)
  }

  ghost predicate ShowsAll(t: Table, order: seq<Endpoint>, now: int, view: seq<Connection>) {
    forall key <- order, i: nat :: key in t.previous && i < |t.previous[key]| ==>
      Show(key, t.previous[key][i], now) in view
  }

  ghost predicate IdsApart(view: seq<Connection>) { forall i, j :: 0 <= i < j < |view| ==> view[i].id != view[j].id }

  /** No endpoint twice. */
  ghost predicate NoneTwice(order: seq<Endpoint>) { forall i, j :: 0 <= i < j < |order| ==> order[i] != order[j] }

  lemma LastIsNew(order: seq<Endpoint>)
    requires NoneTwice(order) && order != []
    ensures var n := |order| - 1; NoneTwice(order[..n]) && order[n] !in order[..n] && order == order[..n] + [order[n]]
  {
  }

  lemma ShownByMore(t: Table, order: seq<Endpoint>, more: seq<Endpoint>, now: int, c: Connection)
    requires ShownBy(t, order, now, c) && forall key <- order :: key in more
    ensures ShownBy(t, more, now, c)
  {
  }

  lemma ViewIsShown(t: Table, order: seq<Endpoint>, now: int, before: seq<Connection>, shown: seq<Connection>)
    requires Valid(t) && order != [] && AllShownBy(t, order[..|order| - 1], now, before)
    requires shown == Shows(order[|order| - 1], SessionsAt(t.previous, order[|order| - 1]), now)
    ensures AllShownBy(t, order, now, before + shown)
  {
    forall c | c in before + shown ensures ShownBy(t, order, now, c) {
      if c in before {
        ShownByMore(t, order[..|order| - 1], order, now, c);
      } else {
        LastShown(t, order, now, c);
      }
    }
  }

  lemma ViewShowsAll(t: Table, order: seq<Endpoint>, now: int, before: seq<Connection>, shown: seq<Connection>)
    requires order != [] && ShowsAll(t, order[..|order| - 1], now, before)
    requires shown == Shows(order[|order| - 1], SessionsAt(t.previous, order[|order| - 1]), now)
    ensures ShowsAll(t, order, now, before + shown)
  {
    var n := |order| - 1;
    forall key, i: nat | key in order && key in t.previous && i < |t.previous[key]|
      ensures Show(key, t.previous[key][i], now) in before + shown
    {
      if key == order[n] {
        assert shown[i] == Show(key, t.previous[key][i], now);
      } else {
        assert order == order[..n] + [order[n]];
        assert key in order[..n];
      }
    }
  }

  lemma LastIdsApart(t: Table, order: seq<Endpoint>, now: int)
    requires Valid(t) && order != []
    ensures IdsApart(Shows(order[|order| - 1], SessionsAt(t.previous, order[|order| - 1]), now))
  {
  }

  lemma ViewIdsApart(t: Table, order: seq<Endpoint>, now: int, before: seq<Connection>, shown: seq<Connection>)
    requires Valid(t) && order != [] && order[|order| - 1] !in order[..|order| - 1]
    requires AllShownBy(t, order[..|order| - 1], now, before) && IdsApart(before)
    requires shown == Shows(order[|order| - 1], SessionsAt(t.previous, order[|order| - 1]), now)
    ensures IdsApart(before + shown)
  {
    LastIdsApart(t, order, now);
    var view := before + shown;
    forall i, j | 0 <= i < j < |view| ensures view[i].id != view[j].id {
      if i < |before| <= j {
        assert view[i] in before && view[j] in shown;
        LastShown(t, order, now, view[j]);
      }
    }
  }

  /** A view shows each session of its endpoints once, with its age. */
  lemma {:induction false} ViewShows(t: Table, order: seq<Endpoint>, now: int)
    requires Valid(t) && NoneTwice(order)
    ensures var view := View(t.previous, order, now);
            AllShownBy(t, order, now, view) && ShowsAll(t, order, now, view) && IdsApart(view)
    decreases |order|
  {
    if order != [] {
      var n := |order| - 1;
      LastIsNew(order);
      ViewShows(t, order[..n], now);
      var before, shown := View(t.previous, order[..n], now), Shows(order[n], SessionsAt(t.previous, order[n]), now);
      ViewIsShown(t, order, now, before, shown);
      ViewShowsAll(t, order, now, before, shown);
      ViewIdsApart(t, order, now, before, shown);
    }
  }

  // =====================================================================
  // Runs
  // =====================================================================

  /** One poll: complete, its endpoints taken in `order`, or failed. */
  datatype Poll = Poll(clients: Option<seq<Client>>, order: seq<Endpoint>, now: int, maxInterval: int)

  ghost predicate Orderly(e: Poll) { e.clients.Some? ==> IsOrder(e.order, Grouped(e.clients.value).Keys) }

  /** Any run of polls under a clock that never goes back. */
  ghost predicate IsRun(polls: seq<Poll>) {
    && (forall k :: 0 <= k < |polls| ==> Orderly(polls[k]))
    && (forall i, j :: 0 <= i < j < |polls| ==> polls[i].now <= polls[j].now)
  }

  ghost function Step(t: Table, e: Poll): Table
    requires Orderly(e)
  {
    if e.clients.None? then t.(observed := None) else Polled(t, e.clients.value, e.order, e.now, e.maxInterval)
  }

  const EMPTY := Table(map[], None, 0)

  /** The table after the first `n` polls. */
  ghost function At(polls: seq<Poll>, n: nat): Table
    requires IsRun(polls) && n <= |polls|
    decreases n, 0
  {
    if n == 0 then EMPTY else LeftBy(polls, n - 1)
  }

  /** The table that poll `n` leaves. */
  ghost function LeftBy(polls: seq<Poll>, n: nat): Table
    requires IsRun(polls) && n < |polls|
    decreases n, 1
  {
    Step(At(polls, n), polls[n])
  }

  /** One more poll of a run. */
  lemma OneMorePoll(polls: seq<Poll>, n: nat)
    requires IsRun(polls) && n < |polls|
    ensures At(polls, n + 1) == Step(At(polls, n), polls[n])
  {
    assert At(polls, n + 1) == LeftBy(polls, n);
  }

  lemma {:induction false} RunIsValid(polls: seq<Poll>, i: nat, n: nat)
    requires IsRun(polls) && i <= n <= |polls|
    ensures Valid(At(polls, n)) && At(polls, i).nextId <= At(polls, n).nextId
    decreases n
  {
    if n > 0 {
      RunIsValid(polls, if i < n then i else n - 1, n - 1);
      StepKeepsIds(At(polls, n - 1), polls[n - 1]);
    }
  }

  lemma StepKeepsIds(t: Table, e: Poll)
    requires Valid(t) && Orderly(e)
    ensures Valid(Step(t, e)) && t.nextId <= Step(t, e).nextId
  {
    if e.clients.Some? { PollKeepsIds(t, e.clients.value, e.order, e.now, e.maxInterval); }
  }

  /** In every view of a run the logical ids are pairwise distinct. */
  lemma ViewsHaveDistinctIds(polls: seq<Poll>, n: nat, order: seq<Endpoint>)
    requires IsRun(polls) && n <= |polls| && IsOrder(order, At(polls, n).previous.Keys)
    ensures forall now: int, i, j :: 0 <= i < j < |View(At(polls, n).previous, order, now)| ==>
              View(At(polls, n).previous, order, now)[i].id != View(At(polls, n).previous, order, now)[j].id
  {
    RunIsValid(polls, n, n);
    forall now: int, i, j | 0 <= i < j < |View(At(polls, n).previous, order, now)|
      ensures View(At(polls, n).previous, order, now)[i].id != View(At(polls, n).previous, order, now)[j].id
    {
      ViewShows(At(polls, n), order, now);
    }
  }

  ghost predicate Holds(t: Table, key: Endpoint, s: Session) { key in t.previous && s in t.previous[key] }

  lemma IdsAreCounted(polls: seq<Poll>, n: nat, key: Endpoint, s: Session)
    requires IsRun(polls) && n <= |polls| && Holds(At(polls, n), key, s)
    ensures s.logicalId <= At(polls, n).nextId
  {
    RunIsValid(polls, n, n);
  }

  lemma PollShows(polls: seq<Poll>, n: nat, key: Endpoint, s: Session)
    requires IsRun(polls) && n < |polls| && polls[n].clients.Some? && Holds(At(polls, n + 1), key, s)
    ensures Follows(At(polls, n), key, s, key in Grouped(polls[n].clients.value), polls[n].now)
  {
    var e := polls[n];
    OneMorePoll(polls, n);
    RunIsValid(polls, n, n);
    PollKeepsIds(At(polls, n), e.clients.value, e.order, e.now, e.maxInterval);
  }

  /** A complete poll that showed the endpoint. */
  predicate Sighted(e: Poll, key: Endpoint) { e.clients.Some? && key in Grouped(e.clients.value) }

  /** One poll back: an id that is not new was at the same endpoint before. */
  lemma WasThere(polls: seq<Poll>, n: nat, key: Endpoint, s: Session) returns (was: Session)
    requires IsRun(polls) && n < |polls| && Holds(At(polls, n + 1), key, s) && s.logicalId <= At(polls, n).nextId
    ensures Holds(At(polls, n), key, was) && was.logicalId == s.logicalId
    ensures s == was || (Sighted(polls[n], key) && s.since == polls[n].now && s.age >= Reported(was, polls[n].now))
  {
    var t, e := At(polls, n), polls[n];
    OneMorePoll(polls, n);
    if e.clients.None? { return s; }
    PollShows(polls, n, key, s);
    if s in SessionsAt(t.previous, key) { return s; }
    var before := SessionsAt(t.previous, key);
    var i :| 0 <= i < |before| && before[i].logicalId == s.logicalId && s.age >= Reported(before[i], e.now);
    return before[i];
  }

  /** An id given once stays at its endpoint; once gone, it is never given
      again. */
  lemma {:induction false} IdsAreNeverReused(polls: seq<Poll>, i: nat, n: nat, key: Endpoint, s: Session)
    returns (was: Session)
    requires IsRun(polls) && i <= n <= |polls| && s.logicalId <= At(polls, i).nextId && Holds(At(polls, n), key, s)
    ensures Holds(At(polls, i), key, was) && was.logicalId == s.logicalId
    decreases n
  {
    if i == n { return s; }
    RunIsValid(polls, i, n - 1);
    was := WasThere(polls, n - 1, key, s);
    was := IdsAreNeverReused(polls, i, n - 1, key, was);
  }

  ghost predicate Whole(t: int) { t % SECOND == 0 }

  ghost predicate WholeRun(polls: seq<Poll>) { forall k :: 0 <= k < |polls| ==> Whole(polls[k].now) }

  lemma WholeApart(a: int, b: int)
    requires Whole(a) && Whole(b)
    ensures Whole(b - a)
  {
  }

  lemma AddTwice(age: U64, x: nat, y: nat)
    requires Whole(x)
    ensures AddSeconds(AddSeconds(age, x), y) == AddSeconds(age, x + y)
  {
    assert (x + y) / SECOND == x / SECOND + y / SECOND;
  }

  lemma AddGrows(a: U64, b: U64, x: nat, y: nat)
    requires a <= b && x <= y
    ensures a <= AddSeconds(a, x) <= AddSeconds(b, y)
  {
  }

  lemma OnePace(s: Session, start: int, now: int)
    requires s.since <= start <= now && Whole(s.since) && Whole(start)
    ensures Reported(s, now) == AddSeconds(Reported(s, start), now - start)
  {
    WholeApart(s.since, start);
    AddTwice(s.age, start - s.since, now - start);
  }

  lemma NextPace(s: Session, shown: U64, start: int, mid: int, now: int)
    requires start <= mid <= now && Whole(start) && Whole(mid)
    requires s.since == mid && s.age >= AddSeconds(shown, mid - start)
    ensures Reported(s, now) >= AddSeconds(shown, now - start)
  {
    WholeApart(start, mid);
    AddTwice(shown, mid - start, now - mid);
    AddGrows(AddSeconds(shown, mid - start), s.age, now - mid, now - mid);
  }

  /** Two sessions of a table with one id are one session. */
  lemma OneSession(polls: seq<Poll>, n: nat, key: Endpoint, key': Endpoint, s: Session, s': Session)
    requires IsRun(polls) && n <= |polls| && Holds(At(polls, n), key, s) && Holds(At(polls, n), key', s')
    requires s.logicalId == s'.logicalId
    ensures key == key' && s == s'
  {
    RunIsValid(polls, n, n);
    var t := At(polls, n);
    var i :| 0 <= i < |t.previous[key]| && t.previous[key][i] == s;
    var j :| 0 <= j < |t.previous[key']| && t.previous[key'][j] == s';
    assert !Apart(t.previous[key], t.previous[key']);
  }

  /** A session's instants are those of complete polls, in order. */
  lemma {:induction false} SinceIsAPoll(polls: seq<Poll>, n: nat, key: Endpoint, s: Session)
    requires IsRun(polls) && n <= |polls| && Holds(At(polls, n), key, s)
    ensures exists m :: 0 <= m < n && polls[m].now == s.since
    decreases n
  {
    OneMorePoll(polls, n - 1);
    if Holds(At(polls, n - 1), key, s) {
      SinceIsAPoll(polls, n - 1, key, s);
    } else {
      PollShows(polls, n - 1, key, s);
      assert polls[n - 1].now == s.since;
    }
  }

  /** From the poll `i` that showed it on, a logical listener's age never goes
      down. */
  lemma {:induction false} AgesNeverDecrease(
    polls: seq<Poll>, i: nat, n: nat, key: Endpoint, first: Session, s: Session, now: int)
    requires IsRun(polls) && i < n <= |polls| && polls[n - 1].now <= now && s.logicalId == first.logicalId
    requires Holds(At(polls, i + 1), key, first) && Holds(At(polls, n), key, s)
    ensures Reported(s, now) >= Reported(first, polls[i].now)
    decreases n
  {
    if n == i + 1 {
      OneSession(polls, n, key, key, first, s);
      AddGrows(s.age, s.age, Elapsed(polls[i].now, s.since), Elapsed(now, s.since));
    } else {
      IdsAreCounted(polls, i + 1, key, first);
      RunIsValid(polls, i + 1, n - 1);
      var was := WasThere(polls, n - 1, key, s);
      AgesNeverDecrease(polls, i, n - 1, key, first, was, if s == was then now else polls[n - 1].now);
    }
  }

  /** When every instant is a whole second, it grows by at least the time
      elapsed. */
  lemma {:induction false} AgesKeepPace(
    polls: seq<Poll>, i: nat, n: nat, key: Endpoint, first: Session, s: Session, now: int)
    requires IsRun(polls) && i < n <= |polls| && polls[n - 1].now <= now && s.logicalId == first.logicalId
    requires Holds(At(polls, i + 1), key, first) && Holds(At(polls, n), key, s)
    requires Whole(now) && WholeRun(polls)
    ensures Reported(s, now) >= AddSeconds(Reported(first, polls[i].now), now - polls[i].now)
    decreases n
  {
    if n == i + 1 {
      OneSession(polls, n, key, key, first, s);
      SinceIsAPoll(polls, n, key, s);
      OnePace(s, polls[i].now, now);
    } else {
      IdsAreCounted(polls, i + 1, key, first);
      RunIsValid(polls, i + 1, n - 1);
      var was := WasThere(polls, n - 1, key, s);
      var mid := if s == was then now else polls[n - 1].now;
      AgesKeepPace(polls, i, n - 1, key, first, was, mid);
      if s != was { NextPace(s, Reported(first, polls[i].now), polls[i].now, mid, now); }
    }
  }

  /** The age of a session to the tick. */
  function Exact(s: Session, now: int): nat { s.age * SECOND + Elapsed(now, s.since) }

  lemma ReportedIsExact(s: Session, now: int)
    ensures Reported(s, now) == Min(Exact(s, now) / SECOND, U64_MAX)
  {
    assert (s.age * SECOND + Elapsed(now, s.since)) / SECOND == s.age + Elapsed(now, s.since) / SECOND;
  }

  /** A session seen again loses less than a second. */
  lemma SeenAgainLosesLittle(was: Session, s: Session, mid: int, now: int, g: int)
    requires mid <= now && s.since == mid && s.age >= Reported(was, mid)
    requires Exact(was, mid) >= Min(g, U64_MAX * SECOND)
    ensures Exact(s, now) >= Min(g + (now - mid) - (SECOND - 1), U64_MAX * SECOND)
  {
    ReportedIsExact(was, mid);
    if Exact(was, mid) < U64_MAX * SECOND {
      assert Reported(was, mid) == Exact(was, mid) / SECOND;
      assert Exact(was, mid) / SECOND * SECOND >= Exact(was, mid) - (SECOND - 1);
    } else {
      assert Exact(was, mid) / SECOND >= U64_MAX;
    }
  }

  /** How many complete polls, from `i` on and before `n`, showed the
      endpoint. */
  function Sightings(polls: seq<Poll>, i: nat, n: nat, key: Endpoint): nat
    requires i <= n <= |polls|
    decreases n
  {
    if i == n then 0
    else Sightings(polls, i, n - 1, key) + if Sighted(polls[n - 1], key) then 1 else 0
  }

  /** The time elapsed since poll `i`, but for what each sighting may lose. */
  function Pace(first: Session, polls: seq<Poll>, i: nat, n: nat, key: Endpoint, now: int): int
    requires i < n <= |polls|
  {
    Exact(first, polls[i].now) + (now - polls[i].now) - (SECOND - 1) * Sightings(polls, i + 1, n, key)
  }

  lemma {:induction false} ExactKeepsPace(
    polls: seq<Poll>, i: nat, n: nat, key: Endpoint, first: Session, s: Session, now: int)
    requires IsRun(polls) && i < n <= |polls| && polls[n - 1].now <= now && s.logicalId == first.logicalId
    requires Holds(At(polls, i + 1), key, first) && Holds(At(polls, n), key, s)
    ensures Exact(s, now) >= Min(Pace(first, polls, i, n, key, now), U64_MAX * SECOND)
    decreases n
  {
    if n == i + 1 {
      OneSession(polls, n, key, key, first, s);
      SinceIsAPoll(polls, n, key, s);
    } else {
      IdsAreCounted(polls, i + 1, key, first);
      RunIsValid(polls, i + 1, n - 1);
      var was := WasThere(polls, n - 1, key, s);
      var mid := if s == was then now else polls[n - 1].now;
      assert polls[n - 2].now <= polls[n - 1].now;
      ExactKeepsPace(polls, i, n - 1, key, first, was, mid);
      if s != was {
        SeenAgainLosesLittle(was, s, mid, now, Pace(first, polls, i, n - 1, key, mid));
      }
    }
  }

  /** At any instants, it grows by the time elapsed but for less than a second
      each time a complete poll showed its endpoint again. */
  lemma AgesNearlyKeepPace(polls: seq<Poll>, i: nat, n: nat, key: Endpoint, first: Session, s: Session, now: int)
    requires IsRun(polls) && i < n <= |polls| && polls[n - 1].now <= now && s.logicalId == first.logicalId
    requires Holds(At(polls, i + 1), key, first) && Holds(At(polls, n), key, s)
    ensures var lost := (SECOND - 1) * Sightings(polls, i + 1, n, key);
            Reported(s, now) >= AddSeconds(Reported(first, polls[i].now), Max(now - polls[i].now - lost, 0))
  {
    var more := now - polls[i].now - (SECOND - 1) * Sightings(polls, i + 1, n, key);
    if more <= 0 {
      AgesNeverDecrease(polls, i, n, key, first, s, now);
    } else {
      ExactKeepsPace(polls, i, n, key, first, s, now);
      ReportedIsExact(s, now);
      ReportedIsExact(first, polls[i].now);
    }
  }

  lemma {:induction false} GroupedHolds(clients: seq<Client>, c: Client)
    requires c in clients
    ensures EndpointOf(c) in Grouped(clients) && c in Grouped(clients)[EndpointOf(c)]
    decreases |clients|
  {
    var n := |clients| - 1;
    assert clients == clients[..n] + [clients[n]];
    if c != clients[n] { GroupedHolds(clients[..n], c); }
  }

  /** Every client of a complete poll is in its view, not younger than Icecast
      says. */
  lemma ClientsAreShown(polls: seq<Poll>, n: nat, c: Client) returns (s: Session)
    requires IsRun(polls) && n < |polls| && polls[n].clients.Some? && c in polls[n].clients.value
    ensures Holds(At(polls, n + 1), EndpointOf(c), s) && s.rawId == c.id && Reported(s, polls[n].now) >= c.seconds
  {
    var e, key := polls[n], EndpointOf(c);
    OneMorePoll(polls, n);
    RunIsValid(polls, n, n);
    PollKeepsIds(At(polls, n), e.clients.value, e.order, e.now, e.maxInterval);
    GroupedHolds(e.clients.value, c);
    var group := Grouped(e.clients.value)[key];
    var i :| 0 <= i < |group| && group[i] == c;
    s := At(polls, n + 1).previous[key][i];
    assert SessionOk(SessionsAt(At(polls, n).previous, key), group[i], e.now, At(polls, n).nextId, s,
      At(polls, n + 1).nextId);
  }

  /** A lone listener keeps its id exactly when its raw session goes on, or when
      the poll is recent and it may have replaced it. */
  lemma LoneListenerKeepsItsId(previous: Sessions, key: Endpoint, c: Client, recent: bool, now: int, nextId: nat)
    requires |SessionsAt(previous, key)| == 1 && previous[key][0].logicalId <= nextId
    ensures var was, (sessions, _) := previous[key][0], MatchAt(previous, key, [c], recent, now, nextId);
            && |sessions| == 1
            && (sessions[0].logicalId == was.logicalId <==>
                 (was.rawId == c.id && c.seconds >= was.rawAge) || (recent && MayReplace(was, c, key, now)))
            && (sessions[0].logicalId != was.logicalId ==>
                  sessions[0].logicalId == nextId + 1 && sessions[0].age == c.seconds)
  {
    var was := previous[key];
    assert SameRaw(was[1..], c) == None;
    var at := Continues(was, c, key, recent, now);
    var left, next := if at.Some? then Without(was, at.value) else was, if at.Some? then nextId else nextId + 1;
    assert Match(left, [c][1..], key, recent, now, next) == ([], next);
    assert Match(was, [c], key, recent, now, nextId).0 ==
      [if at.Some? then Continued(was[at.value], c, now) else Fresh(c, next, now)];
  }

  // ----- the lease -----

  ghost predicate Showed(polls: seq<Poll>, m: nat, key: Endpoint) {
    m < |polls| && polls[m].clients.Some? && key in Grouped(polls[m].clients.value)
  }

  /** Poll `m` really saw the listener: a client of its endpoint got its id. */
  ghost predicate Saw(polls: seq<Poll>, m: nat, key: Endpoint, id: nat)
    requires IsRun(polls)
  {
    && Showed(polls, m, key) && key in At(polls, m + 1).previous && Has(At(polls, m + 1).previous[key], id)
  }

  lemma ShownIsSeen(polls: seq<Poll>, n: nat, key: Endpoint, s: Session)
    requires IsRun(polls) && n < |polls| && Showed(polls, n, key) && Holds(At(polls, n + 1), key, s)
    ensures Saw(polls, n, key, s.logicalId) && s.lastSeen == polls[n].now
  {
    PollShows(polls, n, key, s);
    var sessions := At(polls, n + 1).previous[key];
    var i :| 0 <= i < |sessions| && sessions[i] == s;
  }

  lemma NotShownIsHeld(polls: seq<Poll>, n: nat, key: Endpoint, s: Session)
    requires IsRun(polls) && n < |polls| && !Showed(polls, n, key) && Holds(At(polls, n + 1), key, s)
    ensures Holds(At(polls, n), key, s)
  {
    OneMorePoll(polls, n);
    if polls[n].clients.Some? { PollShows(polls, n, key, s); }
  }

  /** A session remembers the last poll that saw it. */
  lemma {:induction false} LastSeenIsTrue(polls: seq<Poll>, n: nat, key: Endpoint, s: Session) returns (m: nat)
    requires IsRun(polls) && n <= |polls| && Holds(At(polls, n), key, s)
    ensures m < n && Saw(polls, m, key, s.logicalId) && polls[m].now == s.lastSeen
    ensures forall k: nat :: m < k < n ==> !Showed(polls, k, key)
    decreases n
  {
    if n == 0 {
      assert false;
    } else if Showed(polls, n - 1, key) {
      ShownIsSeen(polls, n - 1, key, s);
      m := n - 1;
    } else {
      NotShownIsHeld(polls, n - 1, key, s);
      m := LastSeenIsTrue(polls, n - 1, key, s);
    }
  }

  /** `m` is the last of the first polls, up to `n`, that saw this listener. */
  ghost predicate LastSaw(polls: seq<Poll>, m: nat, n: nat, key: Endpoint, id: nat)
    requires IsRun(polls) && n < |polls|
  {
    m <= n && Saw(polls, m, key, id) && forall k: nat :: m < k <= n ==> !Saw(polls, k, key, id)
  }

  lemma HeldWithinTheLease(polls: seq<Poll>, n: nat, key: Endpoint, s: Session)
    requires IsRun(polls) && n < |polls| && polls[n].clients.Some? && Holds(At(polls, n + 1), key, s)
    ensures Elapsed(polls[n].now, s.lastSeen) < GRACE
  {
    PollShows(polls, n, key, s);
  }

  lemma NotShownIsNotSeen(polls: seq<Poll>, m: nat, n: nat, key: Endpoint, id: nat)
    requires IsRun(polls) && m <= n < |polls| && Saw(polls, m, key, id)
    requires forall k: nat :: m < k <= n ==> !Showed(polls, k, key)
    ensures LastSaw(polls, m, n, key, id)
  {
  }

  /** No listener is in the view of a complete poll 30 s or more after the last
      poll that really saw it, however many polls came between. */
  lemma NoListenerOutlivesItsLease(polls: seq<Poll>, n: nat, key: Endpoint, s: Session) returns (m: nat)
    requires IsRun(polls) && n < |polls| && polls[n].clients.Some? && Holds(At(polls, n + 1), key, s)
    ensures LastSaw(polls, m, n, key, s.logicalId) && polls[n].now - polls[m].now < GRACE
  {
    m := LastSeenIsTrue(polls, n + 1, key, s);
    HeldWithinTheLease(polls, n, key, s);
    NotShownIsNotSeen(polls, m, n, key, s.logicalId);
  }

  // =====================================================================
  // The monitor
  // =====================================================================

  lemma {:induction false} SameView(p: Sessions, p': Sessions, order: seq<Endpoint>, now: int)
    requires forall k <- order :: SessionsAt(p, k) == SessionsAt(p', k)
    ensures View(p, order, now) == View(p', order, now)
    decreases |order|
  {
    if order != [] {
      var n := |order| - 1;
      assert forall k <- order[..n] :: k in order;
      SameView(p, p', order[..n], now);
    }
  }

  lemma OneMoreView(p: Sessions, order: seq<Endpoint>, key: Endpoint, sessions: seq<Session>, now: int)
    requires key !in order
    ensures View(p[key := sessions], order + [key], now) == View(p, order, now) + Shows(key, sessions, now)
  {
    var p', order' := p[key := sessions], order + [key];
    assert order'[..|order|] == order;
    SameView(p, p', order, now);
  }

  lemma OneMorePresent(
    previous: Sessions, grouped: map<Endpoint, seq<Client>>, order: seq<Endpoint>, key: Endpoint, recent: bool,
    now: int, nextId: nat)
    requires (forall k <- order :: k in grouped) && key in grouped
    ensures var (next, last) := Present(previous, grouped, order, recent, now, nextId);
            var (sessions, last') := MatchAt(previous, key, grouped[key], recent, now, last);
            Present(previous, grouped, order + [key], recent, now, nextId) == (next[key := sessions], last')
  {
    assert (order + [key])[..|order|] == order;
  }

  lemma {:induction false} PresentKeys(
    previous: Sessions, grouped: map<Endpoint, seq<Client>>, order: seq<Endpoint>, recent: bool, now: int, nextId: nat)
    requires forall k <- order :: k in grouped
    ensures forall k :: k in Present(previous, grouped, order, recent, now, nextId).0 <==> k in order
    decreases |order|
  {
    if order != [] {
      var n := |order| - 1;
      assert order == order[..n] + [order[n]];
      PresentKeys(previous, grouped, order[..n], recent, now, nextId);
    }
  }

  lemma AllArePresent(
    previous: Sessions, grouped: map<Endpoint, seq<Client>>, order: seq<Endpoint>, recent: bool, now: int, nextId: nat)
    requires IsOrder(order, grouped.Keys)
    ensures Present(previous, grouped, order, recent, now, nextId).0.Keys == grouped.Keys
  {
    PresentKeys(previous, grouped, order, recent, now, nextId);
  }

  lemma HeldOfTheRest(previous: Sessions, present: set<Endpoint>, now: int)
    ensures Held(previous - present, {}, now) == Held(previous, present, now)
  {
  }

  lemma OrderGrows(order: seq<Endpoint>, keys: set<Endpoint>, key: Endpoint)
    requires IsOrder(order, keys) && key !in keys
    ensures IsOrder(order + [key], keys + {key})
  {
    forall i, j | 0 <= i < j < |order + [key]| ensures (order + [key])[i] != (order + [key])[j] {
      assert (order + [key])[i] == order[i];
      assert order[i] in order;
    }
  }

  lemma PresentStep(
    before: Sessions, grouped: map<Endpoint, seq<Client>>, todo: set<Endpoint>, order: seq<Endpoint>, key: Endpoint,
    recent: bool, now: int, id: nat)
    requires key in todo && todo <= grouped.Keys && IsOrder(order, grouped.Keys - todo)
    ensures var (next, last) := Present(before, grouped, order, recent, now, id);
            var (sessions, last') := MatchAt(before, key, grouped[key], recent, now, last);
            && Present(before, grouped, order + [key], recent, now, id) == (next[key := sessions], last')
            && View(next[key := sessions], order + [key], now) == View(next, order, now) + Shows(key, sessions, now)
    ensures IsOrder(order + [key], grouped.Keys - (todo - {key}))
    ensures SessionsAt(before - (grouped.Keys - todo), key) == SessionsAt(before, key)
  {
    OneMorePresent(before, grouped, order, key, recent, now, id);
    var (next, last) := Present(before, grouped, order, recent, now, id);
    OneMoreView(next, order, key, MatchAt(before, key, grouped[key], recent, now, last).0, now);
    OrderGrows(order, grouped.Keys - todo, key);
    PutBack(grouped.Keys, todo, key);
  }

  lemma PutBack(all: set<Endpoint>, todo: set<Endpoint>, key: Endpoint)
    requires key in todo && todo <= all
    ensures all - (todo - {key}) == all - todo + {key}
  {
  }

  lemma HeldOneMore(previous: Sessions, todo: set<Endpoint>, key: Endpoint, now: int)
    requires key in todo && key in previous
    ensures key !in Held(previous, todo, now)
    ensures Held(previous, todo - {key}, now) ==
              if Leased(previous[key], now) == [] then Held(previous, todo, now)
              else Held(previous, todo, now)[key := Leased(previous[key], now)]
  {
  }

  lemma InsertLate(a: Sessions, b: Sessions, key: Endpoint, sessions: seq<Session>)
    ensures (a + b)[key := sessions] == a + b[key := sessions]
    ensures (a + b)[key := sessions].Keys == (a + b).Keys + {key}
  {
  }

  /** One more absent endpoint kept: the table, its order and its view. */
  lemma HeldStep(present: Sessions, previous: Sessions, todo: set<Endpoint>, now: int, next: Sessions, key: Endpoint)
    requires present.Keys !! previous.Keys && key in todo && todo <= previous.Keys
    requires next == present + Held(previous, todo, now)
    ensures key !in next
    ensures var sessions := Leased(previous[key], now);
            (if sessions == [] then next else next[key := sessions]) == present + Held(previous, todo - {key}, now)
  {
    HeldOneMore(previous, todo, key, now);
    InsertLate(present, Held(previous, todo, now), key, Leased(previous[key], now));
  }

  lemma OrderTakesKey(next: Sessions, order: seq<Endpoint>, key: Endpoint, sessions: seq<Session>)
    requires IsOrder(order, next.Keys) && key !in next
    ensures IsOrder(order + [key], next[key := sessions].Keys)
  {
    OrderGrows(order, next.Keys, key);
    KeysGrow(next, key, sessions);
  }

  lemma ShowOneMore(
    next: Sessions, order: seq<Endpoint>, before: seq<Connection>, shown: seq<Connection>, key: Endpoint,
    sessions: seq<Session>, now: int)
    requires key !in order && View(next, order, now) == before + shown
    ensures View(next[key := sessions], order + [key], now) == before + (shown + Shows(key, sessions, now))
  {
    OneMoreView(next, order, key, sessions, now);
    Regroup(before, shown, Shows(key, sessions, now));
  }

  lemma Regroup(a: seq<Connection>, b: seq<Connection>, c: seq<Connection>)
    ensures a + b + c == a + (b + c)
  {
  }

  lemma NotInOrder(order: seq<Endpoint>, keys: set<Endpoint>, key: Endpoint)
    requires IsOrder(order, keys) && key !in keys
    ensures key !in order
  {
  }

  lemma KeysGrow(next: Sessions, key: Endpoint, sessions: seq<Session>)
    ensures next[key := sessions].Keys == next.Keys + {key}
  {
  }

  /** What is done and what is left make the whole match. */
  ghost predicate GoesOn(whole: (seq<Session>, nat), done: seq<Session>, rest: (seq<Session>, nat)) {
    whole.0 == done + rest.0 && whole.1 == rest.1
  }

  lemma GoesOnWith(whole: (seq<Session>, nat), done: seq<Session>, s: Session, rest: (seq<Session>, nat))
    requires GoesOn(whole, done, ([s] + rest.0, rest.1))
    ensures GoesOn(whole, done + [s], rest)
  {
    assert done + ([s] + rest.0) == done + [s] + rest.0;
  }

  /** One client more, in the words of the loop. */
  lemma MatchNext(
    whole: (seq<Session>, nat), done: seq<Session>, left: seq<Session>, clients: seq<Client>, i: nat, key: Endpoint,
    mayReplace: bool, now: int, nextId: nat)
    requires i < |clients| && GoesOn(whole, done, Match(left, clients[i..], key, mayReplace, now, nextId))
    ensures var c := clients[i];
            match Continues(left, c, key, mayReplace, now)
            case Some(j) =>
              GoesOn(whole, done + [Continued(left[j], c, now)],
                Match(Without(left, j), clients[i + 1..], key, mayReplace, now, nextId))
            case None =>
              GoesOn(whole, done + [Fresh(c, nextId + 1, now)],
                Match(left, clients[i + 1..], key, mayReplace, now, nextId + 1))
  {
    var c := clients[i];
    assert clients[i..][0] == c && clients[i..][1..] == clients[i + 1..];
    match Continues(left, c, key, mayReplace, now)
    case Some(j) =>
      GoesOnWith(whole, done, Continued(left[j], c, now),
        Match(Without(left, j), clients[i + 1..], key, mayReplace, now, nextId));
    case None =>
      GoesOnWith(whole, done, Fresh(c, nextId + 1, now),
        Match(left, clients[i + 1..], key, mayReplace, now, nextId + 1));
  }

  lemma ShowsNext(key: Endpoint, sessions: seq<Session>, s: Session, now: int)
    ensures Shows(key, sessions + [s], now) == Shows(key, sessions, now) + [Show(key, s, now)]
  {
  }

  lemma GroupedNext(clients: seq<Client>, i: nat)
    requires i < |clients|
    ensures var before, key := Grouped(clients[..i]), EndpointOf(clients[i]);
            Grouped(clients[..i + 1]) == before[key := (if key in before then before[key] else []) + [clients[i]]]
  {
    assert clients[..i + 1][..i] == clients[..i];
  }

  class Continuity {
    var previous: Sessions
    var observed: Option<int>
    var nextId: nat

    constructor ()
      ensures State() == EMPTY
    {
      previous, observed, nextId := map[], None, 0;
    }

    function State(): Table
      reads this
    {
      Table(previous, observed, nextId)
    }

    /** One client against the sessions left. */
    method MatchOne(key: Endpoint, left: seq<Session>, client: Client, mayReplace: bool, now: int)
      returns (session: Session, rest: seq<Session>, connection: Connection)
      modifies this`nextId
      ensures match Continues(left, client, key, mayReplace, now)
              case Some(j) =>
                session == Continued(left[j], client, now) && rest == Without(left, j) && nextId == old(nextId)
              case None => session == Fresh(client, nextId, now) && rest == left && nextId == old(nextId) + 1
      ensures connection == Show(key, session, now)
    {
      var index := Continues(left, client, key, mayReplace, now);
      if index.Some? {
        session := Continued(left[index.value], client, now);
        rest := Without(left, index.value);
      } else {
        nextId := nextId + 1;
        session, rest := Fresh(client, nextId, now), left;
      }
      connection := Connection(key.mount, session.logicalId, Max(client.seconds, Reported(session, now)));
    }

    /** The clients of one endpoint against its sessions. */
    method MatchGroup(key: Endpoint, was: seq<Session>, clients: seq<Client>, recent: bool, now: int)
      returns (sessions: seq<Session>, shown: seq<Connection>)
      modifies this`nextId
      ensures (sessions, nextId) == Match(was, clients, key, recent && |was| == 1 && |clients| == 1, now, old(nextId))
      ensures shown == Shows(key, sessions, now)
    {
      var left, mayReplace := was, recent && |was| == 1 && |clients| == 1;
      sessions, shown := [], [];
      ghost var whole := Match(was, clients, key, mayReplace, now, nextId);
      assert clients[0..] == clients && [] + whole.0 == whole.0;
      var i := 0;
      while i < |clients|
        invariant 0 <= i <= |clients| && shown == Shows(key, sessions, now)
        invariant GoesOn(whole, sessions, Match(left, clients[i..], key, mayReplace, now, nextId))
      {
        var client := clients[i];
        MatchNext(whole, sessions, left, clients, i, key, mayReplace, now, nextId);
        var session, connection;
        session, left, connection := MatchOne(key, left, client, mayReplace, now);
        ShowsNext(key, sessions, session, now);
        shown := shown + [connection];
        sessions := sessions + [session];
        i := i + 1;
      }
      assert sessions + [] == sessions;
    }

    /** The endpoints of the poll, in whatever order the table yields them. */
    method TakePresent(grouped: map<Endpoint, seq<Client>>, recent: bool, now: int)
      returns (next: Sessions, shown: seq<Connection>, ghost order: seq<Endpoint>)
      modifies this`previous, this`nextId
      ensures IsOrder(order, grouped.Keys) &&
                (next, nextId) == Present(old(previous), grouped, order, recent, now, old(nextId))
      ensures previous == old(previous) - grouped.Keys && shown == View(next, order, now)
    {
      ghost var before, id := previous, nextId;
      var todo := grouped.Keys;
      next, shown, order := map[], [], [];
      while todo != {}
        invariant todo <= grouped.Keys && IsOrder(order, grouped.Keys - todo)
        invariant (next, nextId) == Present(before, grouped, order, recent, now, id)
        invariant previous == before - (grouped.Keys - todo)
        invariant shown == View(next, order, now)
        decreases |todo|
      {
        var key :| key in todo;
        PresentStep(before, grouped, todo, order, key, recent, now, id);
        var was := SessionsAt(previous, key);
        previous := previous - {key};
        assert previous == before - (grouped.Keys - (todo - {key}));
        var sessions, seen := MatchGroup(key, was, grouped[key], recent, now);
        next, shown := next[key := sessions], shown + seen;
        order, todo := order + [key], todo - {key};
      }
      assert grouped.Keys - todo == grouped.Keys;
    }

    /** The absent endpoints still within their lease. */
    method KeepAbsent(present: Sessions, now: int, ghost order: seq<Endpoint>)
      returns (next: Sessions, shown: seq<Connection>, ghost order': seq<Endpoint>)
      requires IsOrder(order, present.Keys) && present.Keys !! previous.Keys
      ensures next == present + Held(previous, {}, now)
      ensures IsOrder(order', next.Keys) && View(next, order', now) == View(present, order, now) + shown
    {
      var todo := previous.Keys;
      next, shown, order' := present, [], order;
      assert Held(previous, todo, now) == map[];
      assert View(present, order, now) + [] == View(present, order, now);
      while todo != {}
        invariant todo <= previous.Keys && next == present + Held(previous, todo, now)
        invariant IsOrder(order', next.Keys) && View(next, order', now) == View(present, order, now) + shown
        decreases |todo|
      {
        var key :| key in todo;
        var sessions := Leased(previous[key], now);
        HeldStep(present, previous, todo, now, next, key);
        OrderTakesKey(next, order', key, sessions);
        NotInOrder(order', next.Keys, key);
        ShowOneMore(next, order', View(present, order, now), shown, key, sessions, now);
        todo := todo - {key};
        if sessions != [] {
          next, order' := next[key := sessions], order' + [key];
          shown := shown + Shows(key, sessions, now);
        }
      }
    }

    /** A complete poll, grouped by endpoint. */
    method Retain(grouped: map<Endpoint, seq<Client>>, recent: bool, now: int)
      returns (view: seq<Connection>, ghost order: seq<Endpoint>, ghost shownIn: seq<Endpoint>)
      modifies this`previous, this`nextId
      ensures IsOrder(order, grouped.Keys) &&
                nextId == Present(old(previous), grouped, order, recent, now, old(nextId)).1
      ensures previous ==
                Present(old(previous), grouped, order, recent, now, old(nextId)).0 +
                Held(old(previous), grouped.Keys, now)
      ensures IsOrder(shownIn, previous.Keys) && view == View(previous, shownIn, now)
    {
      ghost var before, id := previous, nextId;
      var next, shown, all, kept;
      next, shown, order := TakePresent(grouped, recent, now);
      AllArePresent(before, grouped, order, recent, now, id);
      all, kept, shownIn := KeepAbsent(next, now, order);
      HeldOfTheRest(before, grouped.Keys, now);
      previous, view := all, shown + kept;
    }

    /** One poll; the view of a complete one, `None` for a failed one. */
    method Sample(clients: Option<seq<Client>>, now: int, maxInterval: int)
      returns (view: Option<seq<Connection>>, ghost order: seq<Endpoint>, ghost shownIn: seq<Endpoint>)
      modifies this
      ensures Orderly(Poll(clients, order, now, maxInterval))
      ensures State() == Step(old(State()), Poll(clients, order, now, maxInterval))
      ensures view.Some? <==> clients.Some?
      ensures view.Some? ==> IsOrder(shownIn, previous.Keys) && view.value == View(previous, shownIn, now)
    {
      order, shownIn := [], [];
      if clients.None? {
        observed := None;
        return None, order, shownIn;
      }
      var recent := observed.Some? && Elapsed(now, observed.value) <= maxInterval;
      var grouped := Group(clients.value);
      var shown;
      shown, order, shownIn := Retain(grouped, recent, now);
      observed, view := Some(now), Some(shown);
    }

    method Group(clients: seq<Client>) returns (grouped: map<Endpoint, seq<Client>>)
      ensures grouped == Grouped(clients)
    {
      grouped := map[];
      var i := 0;
      while i < |clients|
        invariant 0 <= i <= |clients| && grouped == Grouped(clients[..i])
      {
        var key := EndpointOf(clients[i]);
        GroupedNext(clients, i);
        grouped := grouped[key := (if key in grouped then grouped[key] else []) + [clients[i]]];
        i := i + 1;
      }
      assert clients[..|clients|] == clients;
    }

    /** How long the view stays true without another poll: within `limit`, never
        past the earliest lease. */
    method ValidFor(now: int, limit: nat) returns (ttl: nat)
      ensures ttl <= limit
      ensures forall key <- previous, s <- previous[key] :: ttl <= Max(GRACE - Elapsed(now, s.lastSeen), 0)
      ensures ttl == limit ||
                exists key <- previous :: exists s <- previous[key] :: ttl == Max(GRACE - Elapsed(now, s.lastSeen), 0)
    {
      ttl := limit;
      var todo := previous.Keys;
      while todo != {}
        invariant todo <= previous.Keys && ttl <= limit
        invariant forall key <- previous.Keys - todo, s <- previous[key] ::
                    ttl <= Max(GRACE - Elapsed(now, s.lastSeen), 0)
        invariant ttl == limit ||
                    exists key <- previous :: exists s <- previous[key] ::
                    ttl == Max(GRACE - Elapsed(now, s.lastSeen), 0)
        decreases |todo|
      {
        var key :| key in todo;
        var i := 0;
        while i < |previous[key]|
          invariant 0 <= i <= |previous[key]| && ttl <= limit
          invariant forall k <- previous.Keys - todo, s <- previous[k] ::
                      ttl <= Max(GRACE - Elapsed(now, s.lastSeen), 0)
          invariant forall j :: 0 <= j < i ==> ttl <= Max(GRACE - Elapsed(now, previous[key][j].lastSeen), 0)
          invariant ttl == limit ||
                      exists key <- previous :: exists s <- previous[key] ::
                      ttl == Max(GRACE - Elapsed(now, s.lastSeen), 0)
        {
          var s := previous[key][i];
          ttl := Min(ttl, Max(GRACE - Elapsed(now, s.lastSeen), 0));
          i := i + 1;
        }
        todo := todo - {key};
      }
    }
  }
}
