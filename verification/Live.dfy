/** The live DJ session (src/live.rs): who may connect, what airs, what a cut
    closes. Each callback is one atomic step. */
module Live {
  import opened Base
  import opened LiveOpening

  /** How long an accepted login waits for the harbor. */
  const PENDING_TTL_S := 30
  /** Cut slots remembered. */
  const BAN_CAP := 64
  /** The readiness window, and the longest gap between two measurements. */
  const READY_S := 3
  const FLOOR_DB := -90

  datatype Access = Slot | ByOpening(id: nat) | Urgent | Unknown

  /** `occurrence` names the slot's window for a slot, nothing otherwise. */
  datatype Session = Session(
    dj: string, access: Access, ruleId: string, occurrence: string, address: string, since: int)

  datatype Reason = Disconnected | Silence | Kicked

  datatype Health = Health(
    observed: Option<int>, goodSince: Option<int>, ready: bool, seenAudio: bool, level: int, peak: int)

  const NO_HEALTH := Health(None, None, false, false, 0, 0)

  datatype Ended = Ended(session: Session, reason: Reason, at: int)

  datatype Event = LiveStarted(dj: string, ruleId: string, at: int) | LiveEnded(dj: string, reason: Reason, at: int)

  datatype Config = Config(manual: bool, threshold: int, cooldown: int)

  type Key = (string, string)

  /** The locked state, the openings table, and what the hub told the station:
      the DJ it knows on air, the events, the disconnections asked for. */
  datatype Hub = Hub(
    pending: Option<Session>,
    session: Option<Session>,
    airRequested: bool,
    aired: bool,
    health: Health,
    ending: Option<Reason>,
    banned: seq<Key>,
    urgentCut: map<string, int>,
    last: Option<Ended>,
    openings: seq<Opening>,
    onAir: Option<string>,
    events: seq<Event>,
    kicks: nat)

  const SILENT_HUB := Hub(None, None, false, false, NO_HEALTH, None, [], map[], None, [], None, [], 0)

  // =====================================================================
  // Logging in
  // =====================================================================

  /** The DJ's slot now, as the grid answers (src/resolver.rs:507). */
  datatype Slots = NoWindow | Window(ruleId: string, occurrence: string) | GridUnreadable

  /** The DJ file's answer to a login. */
  datatype Entry = FileUnreadable | UnknownDj | BadPassword | Disabled | Accepted(urgent: bool)

  datatype AuthOutcome = Allowed(dj: string, access: Access, ruleId: string) | Refused

  predicate Cooling(cfg: Config, h: Hub, dj: string, now: int) {
    dj in h.urgentCut && now - h.urgentCut[dj] < cfg.cooldown
  }

  /** The first way in that is not closed to the DJ: slot, opening, urgent. */
  function WayIn(
    cfg: Config, h: Hub, dj: string, urgent: bool, slots: Slots, openingsReadable: bool, address: string,
    now: int): Option<Session>
  {
    var opening := if openingsReadable then Active(h.openings, dj, now) else None;
    if slots.Window? && (dj, slots.occurrence) !in h.banned
    then Some(Session(dj, Slot, slots.ruleId, slots.occurrence, address, now))
    else if opening.Some? && !opening.value.cut
    then Some(Session(dj, ByOpening(opening.value.id), "", "", address, now))
    else if urgent && !Cooling(cfg, h, dj, now)
    then Some(Session(dj, Urgent, "", "", address, now))
    else None
  }

  predicate Waiting(h: Hub, now: int) { h.pending.Some? && now - h.pending.value.since <= PENDING_TTL_S }

  function Login(
    cfg: Config, h: Hub, dj: string, entry: Entry, slots: Slots, openingsReadable: bool, address: string,
    now: int): (Hub, AuthOutcome)
  {
    if !entry.Accepted? || h.session.Some? then (h, Refused)
    else
      match WayIn(cfg, h, dj, entry.urgent, slots, openingsReadable, address, now)
      case None => (h, Refused)
      case Some(s) =>
        if Waiting(h, now) then (h, Refused) else (h.(pending := Some(s)), Allowed(dj, s.access, s.ruleId))
  }

  // =====================================================================
  // The session
  // =====================================================================

  function Connecting(h: Hub, now: int): Session {
    if Waiting(h, now) then h.pending.value.(since := now) else Session("?", Unknown, "", "", "", now)
  }

  function Connect(cfg: Config, h: Hub, now: int): Hub {
    var s := Connecting(h, now);
    var h1 :=
      h.(pending := None, session := Some(s), ending := None, health := NO_HEALTH, airRequested := !cfg.manual,
      aired := !cfg.manual);
    if cfg.manual then (if s.access.Unknown? then h1.(kicks := h1.kicks + 1) else h1)
    else h1.(onAir := Some(s.dj), events := h1.events + [LiveStarted(s.dj, s.ruleId, now)])
  }

  function Disconnect(h: Hub, now: int): Hub {
    var reason := if h.ending.Some? then h.ending.value else Disconnected;
    var h1 :=
      h.(session := None, airRequested := false, aired := false, health := NO_HEALTH, ending := None, onAir := None);
    if h.session.Some? && h.aired
    then
      var s := h.session.value;
      h1.(last := Some(Ended(s, reason, now)), events := h1.events + [LiveEnded(s.dj, reason, now)])
    else h1
  }

  function Remember(banned: seq<Key>, key: Key): seq<Key> {
    if key in banned then banned
    else if |banned| + 1 > BAN_CAP then (banned + [key])[|banned| + 1 - BAN_CAP..]
    else banned + [key]
  }

  /** Cutting the DJ closes the way it came in by; `recorded`: the cut reached
      the openings table. */
  function Cutting(h: Hub, reason: Reason, now: int, recorded: bool): (Hub, bool) {
    if h.session.None? || h.ending.Some? then (h, false)
    else
      var s := h.session.value;
      var banned := if s.access.Slot? && s.occurrence != "" then Remember(h.banned, (s.dj, s.occurrence)) else h.banned;
      var openings := if s.access.ByOpening? && recorded then Cut(h.openings, s.access.id) else h.openings;
      (h.(ending := Some(reason), banned := banned, urgentCut := h.urgentCut[s.dj := now], openings := openings,
        kicks := h.kicks + 1), true)
  }

  function Silent(cfg: Config, h: Hub, now: int, recorded: bool): Hub {
    if cfg.manual && !h.aired then h else Cutting(h, Silence, now, recorded).0
  }

  /** One measurement: decoded audio or not, its level and peak (dB). */
  function Measured(cfg: Config, h: Hub, ready: bool, level: int, peak: int, now: int): Hub {
    if h.session.None? || h.ending.Some? then h
    else
      var good := ready && Max(level, FLOOR_DB) >= cfg.threshold;
      var continuous := h.health.observed.Some? && now - h.health.observed.value <= READY_S;
      var since := if !good || !continuous then None else h.health.goodSince;
      h.(health := Health(
           Some(now), if good && since.None? then Some(now) else since, ready, h.health.seenAudio || ready,
           Max(level, FLOOR_DB), Max(peak, FLOOR_DB)))
  }

  function WentOnAir(h: Hub, now: int): Hub {
    if !h.airRequested || h.aired || h.ending.Some? || h.session.None? then h
    else
      var s := h.session.value;
      h.(aired := true, onAir := Some(s.dj), events := h.events + [LiveStarted(s.dj, s.ruleId, now)])
  }

  predicate InputReady(health: Health, now: int) {
    && health.ready
    && health.observed.Some? && now - health.observed.value <= READY_S
    && health.goodSince.Some? && now - health.goodSince.value >= READY_S
  }

  /** The session's way in is still open. `urgent`: the DJ still holds the right. */
  predicate AccessValid(cfg: Config, h: Hub, s: Session, urgent: bool, slots: Slots, openingsReadable: bool, now: int) {
    match s.access
    case Slot => slots.Window? && slots.occurrence == s.occurrence && (s.dj, s.occurrence) !in h.banned
    case ByOpening(id) =>
      var o := if openingsReadable then Active(h.openings, s.dj, now) else None;
      o.Some? && o.value.id == id && !o.value.cut
    case Urgent => urgent && !Cooling(cfg, h, s.dj, now)
    case Unknown => false
  }

  predicate MayTake(cfg: Config, h: Hub, dj: string, urgent: bool, slots: Slots, openingsReadable: bool, now: int) {
    && h.session.Some? && h.session.value.dj == dj
    && AccessValid(cfg, h, h.session.value, urgent, slots, openingsReadable, now)
    && h.ending.None? && InputReady(h.health, now)
  }

  function Take(cfg: Config, h: Hub, dj: string, urgent: bool, slots: Slots, openingsReadable: bool, now: int): Hub {
    if MayTake(cfg, h, dj, urgent, slots, openingsReadable, now) then h.(airRequested := true) else h
  }

  /** A DJ leaving of its own will: nothing is closed to it. */
  function Stop(h: Hub, dj: string): Hub {
    if h.session.Some? && h.session.value.dj == dj
    then h.(ending := Some(Disconnected), airRequested := false, kicks := h.kicks + 1)
    else h
  }

  // =====================================================================
  // Runs
  // =====================================================================

  datatype Act =
    | DoLogin(dj: string, entry: Entry, slots: Slots, openingsReadable: bool, address: string)
    | DoConnect
    | DoDisconnect
    | DoSilence(recorded: bool)
    | DoKick(recorded: bool)
    | DoMeasure(ready: bool, level: int, peak: int)
    | DoAir
    | DoTake(dj: string, urgent: bool, slots: Slots, openingsReadable: bool)
    | DoStop(dj: string)
    | DoOpen(dj: string, secs: nat)
    | DoClose(dj: string)

  datatype Action = At(act: Act, now: int)

  function Next(cfg: Config, h: Hub, a: Action): Hub {
    match a.act
    case DoLogin(dj, entry, slots, readable, address) => Login(cfg, h, dj, entry, slots, readable, address, a.now).0
    case DoConnect => Connect(cfg, h, a.now)
    case DoDisconnect => Disconnect(h, a.now)
    case DoSilence(recorded) => Silent(cfg, h, a.now, recorded)
    case DoKick(recorded) => Cutting(h, Kicked, a.now, recorded).0
    case DoMeasure(ready, level, peak) => Measured(cfg, h, ready, level, peak, a.now)
    case DoAir => WentOnAir(h, a.now)
    case DoTake(dj, urgent, slots, readable) => Take(cfg, h, dj, urgent, slots, readable, a.now)
    case DoStop(dj) => Stop(h, dj)
    case DoOpen(dj, secs) => h.(openings := Opened(h.openings, dj, a.now, a.now + secs))
    case DoClose(dj) => h.(openings := Closed(h.openings, dj, a.now))
  }

  /** The hub after the first `n` actions. */
  function After(cfg: Config, run: seq<Action>, n: nat): Hub
    requires n <= |run|
    decreases n, 0
  {
    if n == 0 then SILENT_HUB else LeftBy(cfg, run, n - 1)
  }

  /** The hub that action `n` leaves. */
  function LeftBy(cfg: Config, run: seq<Action>, n: nat): Hub
    requires n < |run|
    decreases n, 1
  {
    Next(cfg, After(cfg, run, n), run[n])
  }

  /** One more action of a run. */
  lemma OneMore(cfg: Config, run: seq<Action>, n: nat)
    requires n < |run|
    ensures After(cfg, run, n + 1) == Next(cfg, After(cfg, run, n), run[n])
  {
    assert After(cfg, run, n + 1) == LeftBy(cfg, run, n);
  }

  /** A connection finds nobody connected. */
  ghost predicate ConnectsAlone(cfg: Config, run: seq<Action>, k: nat)
    requires k < |run|
  {
    run[k].act.DoConnect? ==> After(cfg, run, k).session.None?
  }

  /** The clock never goes back, and the harbor connects one DJ at a time. */
  ghost predicate IsRun(cfg: Config, run: seq<Action>) {
    && (forall i, j :: 0 <= i < j < |run| ==> run[i].now <= run[j].now)
    && (forall k :: 0 <= k < |run| ==> ConnectsAlone(cfg, run, k))
  }

  // =====================================================================
  // LiveStarted and LiveEnded alternate
  // =====================================================================

  ghost predicate Fits(events: seq<Event>, i: nat)
    requires i < |events|
  {
    if i % 2 == 0 then events[i].LiveStarted? else events[i].LiveEnded? && events[i].dj == events[i - 1].dj
  }

  /** Starts and ends alternate, a start first, each end of the DJ that
      started. */
  ghost predicate Alternate(events: seq<Event>) { forall i :: 0 <= i < |events| ==> Fits(events, i) }

  /** The station knows a DJ exactly while one is aired: the session's, the last
      one that started. */
  ghost predicate TellsTheAir(h: Hub) {
    && Alternate(h.events)
    && (h.aired <==> |h.events| % 2 == 1)
    && (h.aired ==>
          h.session.Some? && h.onAir == Some(h.session.value.dj) && h.events[|h.events| - 1].dj == h.session.value.dj)
    && (!h.aired ==> h.onAir.None?)
  }

  lemma OneMoreEvent(events: seq<Event>, e: Event)
    requires Alternate(events)
    requires if |events| % 2 == 0 then e.LiveStarted? else e.LiveEnded? && e.dj == events[|events| - 1].dj
    ensures Alternate(events + [e])
  {
    forall i | 0 <= i < |events| + 1 ensures Fits(events + [e], i) {
      if i < |events| { assert Fits(events, i); }
    }
  }

  lemma ConnectTellsTheAir(cfg: Config, h: Hub, now: int)
    requires TellsTheAir(h) && !h.aired
    ensures TellsTheAir(Connect(cfg, h, now))
  {
    var s := Connecting(h, now);
    OneMoreEvent(h.events, LiveStarted(s.dj, s.ruleId, now));
  }

  lemma DisconnectTellsTheAir(h: Hub, now: int)
    requires TellsTheAir(h)
    ensures TellsTheAir(Disconnect(h, now))
  {
    var events := Disconnect(h, now).events;
    if h.aired { OneMoreEvent(h.events, events[|h.events|]); }
  }

  lemma AirTellsTheAir(h: Hub, now: int)
    requires TellsTheAir(h)
    ensures TellsTheAir(WentOnAir(h, now))
  {
    if !h.aired && h.session.Some? {
      OneMoreEvent(h.events, LiveStarted(h.session.value.dj, h.session.value.ruleId, now));
    }
  }

  lemma StepTellsTheAir(cfg: Config, h: Hub, a: Action)
    requires TellsTheAir(h) && (a.act.DoConnect? ==> !h.aired)
    ensures TellsTheAir(Next(cfg, h, a))
  {
    match a.act
    case DoConnect => ConnectTellsTheAir(cfg, h, a.now);
    case DoDisconnect => DisconnectTellsTheAir(h, a.now);
    case DoAir => AirTellsTheAir(h, a.now);
    case _ => OtherActsKeepTheAir(cfg, h, a);
  }

  /** A login changes who waits, a cut what it closes; nothing else. */
  lemma LoginTouches(
    cfg: Config, h: Hub, dj: string, entry: Entry, slots: Slots, openingsReadable: bool, address: string, now: int)
    ensures var after := Login(cfg, h, dj, entry, slots, openingsReadable, address, now).0;
              after == h.(pending := after.pending)
  {
  }

  lemma CuttingTouches(h: Hub, reason: Reason, now: int, recorded: bool)
    ensures var after := Cutting(h, reason, now, recorded).0;
            after ==
              h.(ending := after.ending, banned := after.banned, urgentCut := after.urgentCut,
              openings := after.openings, kicks := after.kicks)
    ensures h.ending.Some? ==> Cutting(h, reason, now, recorded).0 == h
  {
  }

  ghost predicate SameAir(h: Hub, after: Hub) {
    after.session == h.session && after.aired == h.aired && after.onAir == h.onAir && after.events == h.events
  }

  lemma OtherActsKeepTheAir(cfg: Config, h: Hub, a: Action)
    requires !a.act.DoConnect? && !a.act.DoDisconnect? && !a.act.DoAir?
    ensures SameAir(h, Next(cfg, h, a))
  {
    match a.act
    case DoLogin(dj, entry, slots, readable, address) =>
      LoginTouches(cfg, h, dj, entry, slots, readable, address, a.now);
    case DoSilence(recorded) => CuttingTouches(h, Silence, a.now, recorded);
    case DoKick(recorded) => CuttingTouches(h, Kicked, a.now, recorded);
    case _ =>
  }

  /** A start nobody ended: the events no longer alternate, or the hub forgot
      that the last one aired. */
  ghost predicate LostTheAir(h: Hub) { !Alternate(h.events) || (|h.events| % 2 == 1 && !h.aired) }

  lemma AddsDisorder(events: seq<Event>, e: Event)
    requires !Alternate(events) || (|events| % 2 == 1 && e.LiveStarted?)
    ensures !Alternate(events + [e])
  {
    if Alternate(events) {
      assert !Fits(events + [e], |events|);
    } else {
      var i :| 0 <= i < |events| && !Fits(events, i);
      assert !Fits(events + [e], i);
    }
  }

  lemma ConnectOverAir(cfg: Config, h: Hub, now: int)
    requires TellsTheAir(h) && h.aired
    ensures LostTheAir(Connect(cfg, h, now))
  {
    var s := Connecting(h, now);
    AddsDisorder(h.events, LiveStarted(s.dj, s.ruleId, now));
  }

  /** What was lost is never found again. */
  lemma LostStaysLost(cfg: Config, h: Hub, a: Action)
    requires LostTheAir(h)
    ensures LostTheAir(Next(cfg, h, a))
  {
    var events := Next(cfg, h, a).events;
    match a.act
    case DoConnect => if !cfg.manual { AddsDisorder(h.events, events[|h.events|]); }
    case DoDisconnect => if h.session.Some? && h.aired { AddsDisorder(h.events, events[|h.events|]); }
    case DoAir => if events != h.events { AddsDisorder(h.events, events[|h.events|]); }
    case _ => OtherActsKeepTheAir(cfg, h, a);
  }

  /** A connection comes while a DJ is on air. */
  ghost predicate ConnectsOverAir(cfg: Config, run: seq<Action>, k: nat)
    requires k < |run|
  {
    run[k].act.DoConnect? && After(cfg, run, k).aired
  }

  /** No connection came while a DJ was on air. */
  ghost predicate NoneOverAir(cfg: Config, run: seq<Action>, n: nat)
    requires n <= |run|
  {
    forall k :: 0 <= k < n ==> !ConnectsOverAir(cfg, run, k)
  }

  lemma {:induction false} TellsOrLost(cfg: Config, run: seq<Action>, n: nat)
    requires n <= |run|
    ensures NoneOverAir(cfg, run, n) ==> TellsTheAir(After(cfg, run, n))
    ensures !NoneOverAir(cfg, run, n) ==> LostTheAir(After(cfg, run, n))
    decreases n
  {
    if n > 0 {
      var h, a := After(cfg, run, n - 1), run[n - 1];
      TellsOrLost(cfg, run, n - 1);
      if NoneOverAir(cfg, run, n) {
        assert !ConnectsOverAir(cfg, run, n - 1);
        StepTellsTheAir(cfg, h, a);
      } else if NoneOverAir(cfg, run, n - 1) {
        assert ConnectsOverAir(cfg, run, n - 1);
        ConnectOverAir(cfg, h, a.now);
      } else {
        LostStaysLost(cfg, h, a);
      }
    }
  }

  /** Whatever the clock and the harbor do, the events alternate and the station
      knows the air exactly when no connection came while a DJ was on air. */
  lemma TellsTheAirExactly(cfg: Config, run: seq<Action>, n: nat)
    requires n <= |run|
    ensures TellsTheAir(After(cfg, run, n)) <==> NoneOverAir(cfg, run, n)
  {
    TellsOrLost(cfg, run, n);
  }

  /** A harbor that connects one DJ at a time never does. */
  lemma {:induction false} HarborNeverConnectsOverAir(cfg: Config, run: seq<Action>, n: nat)
    requires IsRun(cfg, run) && n <= |run|
    ensures NoneOverAir(cfg, run, n)
    decreases n
  {
    if n > 0 {
      HarborNeverConnectsOverAir(cfg, run, n - 1);
      TellsTheAirExactly(cfg, run, n - 1);
      assert ConnectsAlone(cfg, run, n - 1);
    }
  }

  lemma EventsAlternate(cfg: Config, run: seq<Action>, n: nat)
    requires IsRun(cfg, run) && n <= |run|
    ensures TellsTheAir(After(cfg, run, n))
  {
    HarborNeverConnectsOverAir(cfg, run, n);
    TellsTheAirExactly(cfg, run, n);
  }

  /** A second connection over a DJ still preparing is harmless; over one on air
      it starts a live twice. */
  lemma SecondConnections()
    ensures var run := [At(DoConnect, 0), At(DoConnect, 1)];
            && TellsTheAir(After(Config(true, 0, 0), run, 2)) && !TellsTheAir(After(Config(false, 0, 0), run, 2))
  {
    var run := [At(DoConnect, 0), At(DoConnect, 1)];
    var manual, direct := Config(true, 0, 0), Config(false, 0, 0);
    assert After(manual, run, 1) == Connect(manual, SILENT_HUB, 0) &&
      After(direct, run, 1) == Connect(direct, SILENT_HUB, 0);
    assert After(manual, run, 0) == SILENT_HUB;
    TellsTheAirExactly(manual, run, 2);
    TellsTheAirExactly(direct, run, 2);
    assert run[1].act.DoConnect? && After(direct, run, 1).aired;
  }

  /** Without the harbor's word, a second connection starts a live twice. */
  lemma TwoConnectionsBreakIt()
    ensures !Alternate(After(Config(false, 0, 0), [At(DoConnect, 0), At(DoConnect, 1)], 2).events)
  {
    var cfg, run := Config(false, 0, 0), [At(DoConnect, 0), At(DoConnect, 1)];
    var one := Connect(cfg, SILENT_HUB, 0);
    assert After(cfg, run, 1) == one;
    var events := Connect(cfg, one, 1).events;
    assert After(cfg, run, 2).events == events == [LiveStarted("?", "", 0), LiveStarted("?", "", 1)];
    assert !Fits(events, 1);
  }

  // =====================================================================
  // Manual takeover
  // =====================================================================

  /** A measurement as the readiness window sees it. */
  datatype Sample = Sample(at: int, ready: bool, good: bool)

  function SampleOf(cfg: Config, a: Action): Sample
    requires a.act.DoMeasure?
  {
    Sample(a.now, a.act.ready, a.act.ready && Max(a.act.level, FLOOR_DB) >= cfg.threshold)
  }

  /** What was measured of the session so far. */
  ghost function Samples(cfg: Config, run: seq<Action>, n: nat): seq<Sample>
    requires n <= |run|
  {
    if n == 0 then []
    else
      var before, h, a := Samples(cfg, run, n - 1), After(cfg, run, n - 1), run[n - 1];
      if a.act.DoConnect? || a.act.DoDisconnect? then []
      else if a.act.DoMeasure? && h.session.Some? && h.ending.None? then before + [SampleOf(cfg, a)]
      else before
  }

  /** From sample `from` on all is good audio, without a gap. */
  ghost predicate Streak(ms: seq<Sample>, from: nat) {
    && from < |ms|
    && (forall k :: from <= k < |ms| ==> ms[k].good)
    && (forall k, l :: from <= k < l < |ms| && l == k + 1 ==> ms[l].at - ms[k].at <= READY_S)
  }

  /** The session was ready at `t`: good audio since `t - 3` at the latest, and
      still at `t - 3` at the earliest. */
  ghost predicate Backed(ms: seq<Sample>, t: int) {
    exists from :: 0 <= from < |ms| && Streak(ms, from) && ms[from].at <= t - READY_S <= ms[|ms| - 1].at
  }

  ghost function GoodSince(ms: seq<Sample>): Option<int> {
    if ms == [] || !ms[|ms| - 1].good then None
    else
      var n := |ms| - 1;
      var before := GoodSince(ms[..n]);
      if before.Some? && ms[n].at - ms[n - 1].at <= READY_S then before else Some(ms[n].at)
  }

  ghost predicate InTimeOrder(ms: seq<Sample>) { forall i, j :: 0 <= i < j < |ms| ==> ms[i].at <= ms[j].at }

  lemma {:induction false} GoodSinceIsAStreak(ms: seq<Sample>) returns (from: nat)
    requires GoodSince(ms).Some?
    ensures Streak(ms, from) && ms[from].at == GoodSince(ms).value
    decreases |ms|
  {
    var n := |ms| - 1;
    from := n;
    if GoodSince(ms[..n]).Some? && ms[n].at - ms[n - 1].at <= READY_S {
      from := GoodSinceIsAStreak(ms[..n]);
      assert forall k :: from <= k < n ==> ms[..n][k] == ms[k];
    }
  }

  lemma {:induction false} GoodSinceIsEarliest(ms: seq<Sample>, from: nat)
    requires InTimeOrder(ms) && Streak(ms, from)
    ensures GoodSince(ms).Some? && GoodSince(ms).value <= ms[from].at
    decreases |ms|
  {
    var n := |ms| - 1;
    if from < n {
      assert forall k :: from <= k < n ==> ms[..n][k] == ms[k];
      GoodSinceIsEarliest(ms[..n], from);
    } else if GoodSince(ms[..n]).Some? {
      var a := GoodSinceIsAStreak(ms[..n]);
    }
  }

  /** The health kept on the fly is that of the samples. */
  ghost predicate HealthTells(health: Health, ms: seq<Sample>) {
    && health.goodSince == GoodSince(ms)
    && (if ms == [] then health.observed.None? && !health.ready
        else health.observed == Some(ms[|ms| - 1].at) && health.ready == ms[|ms| - 1].ready)
    && (forall m <- ms :: m.good ==> m.ready)
  }

  lemma ReadyMeansBacked(health: Health, ms: seq<Sample>, t: int)
    requires HealthTells(health, ms) && InTimeOrder(ms)
    ensures InputReady(health, t) <==> Backed(ms, t)
  {
    if InputReady(health, t) {
      var from := GoodSinceIsAStreak(ms);
    }
    if from :| 0 <= from < |ms| && Streak(ms, from) && ms[from].at <= t - READY_S <= ms[|ms| - 1].at {
      GoodSinceIsEarliest(ms, from);
      assert ms[|ms| - 1] in ms;
    }
  }

  lemma GoodSinceNext(ms: seq<Sample>, x: Sample)
    ensures GoodSince(ms + [x]) ==
              if !x.good then None
              else if ms != [] && GoodSince(ms).Some? && x.at - ms[|ms| - 1].at <= READY_S then GoodSince(ms)
              else Some(x.at)
  {
    assert (ms + [x])[..|ms|] == ms;
  }

  lemma MeasureTells(cfg: Config, h: Hub, a: Action, ms: seq<Sample>)
    requires a.act.DoMeasure? && HealthTells(h.health, ms) && h.session.Some? && h.ending.None?
    ensures HealthTells(Next(cfg, h, a).health, ms + [SampleOf(cfg, a)])
  {
    GoodSinceNext(ms, SampleOf(cfg, a));
  }

  lemma {:induction false} HealthIsTheSamples(cfg: Config, run: seq<Action>, n: nat)
    requires IsRun(cfg, run) && n <= |run|
    ensures HealthTells(After(cfg, run, n).health, Samples(cfg, run, n))
    ensures InTimeOrder(Samples(cfg, run, n))
    ensures forall m <- Samples(cfg, run, n) :: n > 0 && m.at <= run[n - 1].now
    decreases n
  {
    if n > 0 {
      HealthIsTheSamples(cfg, run, n - 1);
      var h, a, ms := After(cfg, run, n - 1), run[n - 1], Samples(cfg, run, n - 1);
      if a.act.DoMeasure? && h.session.Some? && h.ending.None? {
        MeasureTells(cfg, h, a, ms);
        forall i | 0 <= i < |ms| ensures ms[i].at <= a.now { assert ms[i] in ms; }
      } else if !a.act.DoConnect? && !a.act.DoDisconnect? {
        OtherActsKeepHealth(cfg, h, a);
      }
    }
  }

  lemma OtherActsKeepHealth(cfg: Config, h: Hub, a: Action)
    requires !a.act.DoConnect? && !a.act.DoDisconnect? && !(a.act.DoMeasure? && h.session.Some? && h.ending.None?)
    ensures Next(cfg, h, a).health == h.health
  {
  }

  ghost predicate Takes(cfg: Config, h: Hub, a: Action) {
    a.act.DoTake? && MayTake(cfg, h, a.act.dj, a.act.urgent, a.act.slots, a.act.openingsReadable, a.now)
  }

  /** The last take of the session that succeeded. */
  ghost function TakenAt(cfg: Config, run: seq<Action>, n: nat): Option<nat>
    requires n <= |run|
  {
    if n == 0 || run[n - 1].act.DoConnect? || run[n - 1].act.DoDisconnect? then None
    else if Takes(cfg, After(cfg, run, n - 1), run[n - 1]) then Some(n - 1)
    else TakenAt(cfg, run, n - 1)
  }

  lemma OtherActsKeepTheRequest(cfg: Config, h: Hub, a: Action)
    requires !a.act.DoConnect? && !a.act.DoDisconnect? && !Takes(cfg, h, a)
    ensures var h' := Next(cfg, h, a);
            h'.session == h.session && (h'.airRequested || h'.aired ==> h.airRequested || h.aired)
  {
  }

  lemma TakeKeepsSession(cfg: Config, h: Hub, a: Action)
    requires Takes(cfg, h, a)
    ensures h.session.Some? && h.session.value.dj == a.act.dj && Next(cfg, h, a).session == h.session
  {
  }

  /** Neither a connection nor a departure leaves the air requested. */
  lemma NobodyAirsYet(cfg: Config, h: Hub, a: Action)
    requires cfg.manual && (a.act.DoConnect? || a.act.DoDisconnect?)
    ensures !Next(cfg, h, a).airRequested && !Next(cfg, h, a).aired
  {
  }

  lemma TakeIsBacked(cfg: Config, run: seq<Action>, k: nat)
    requires IsRun(cfg, run) && k < |run| && Takes(cfg, After(cfg, run, k), run[k])
    ensures Backed(Samples(cfg, run, k), run[k].now)
  {
    HealthIsTheSamples(cfg, run, k);
    ReadyMeansBacked(After(cfg, run, k).health, Samples(cfg, run, k), run[k].now);
  }

  /** With manual takeover, a DJ airs only after a take of its own, in this very
      session, made while it was ready: good audio, without a gap, for the three
      seconds before. */
  lemma {:induction false} AirsOnlyAfterATake(cfg: Config, run: seq<Action>, n: nat) returns (k: nat)
    requires IsRun(cfg, run) && n <= |run| && cfg.manual
    requires After(cfg, run, n).airRequested || After(cfg, run, n).aired
    ensures TakenAt(cfg, run, n) == Some(k) && k < n && Takes(cfg, After(cfg, run, k), run[k])
    ensures After(cfg, run, n).session.Some? && After(cfg, run, n).session == After(cfg, run, k).session
    ensures run[k].act.dj == After(cfg, run, n).session.value.dj
    ensures Backed(Samples(cfg, run, k), run[k].now)
    decreases n
  {
    var h, a := After(cfg, run, n - 1), run[n - 1];
    OneMore(cfg, run, n - 1);
    if a.act.DoConnect? || a.act.DoDisconnect? { NobodyAirsYet(cfg, h, a); }
    if Takes(cfg, h, a) {
      k := n - 1;
      TakeKeepsSession(cfg, h, a);
      TakeIsBacked(cfg, run, k);
    } else {
      OtherActsKeepTheRequest(cfg, h, a);
      k := AirsOnlyAfterATake(cfg, run, n - 1);
    }
  }

  // =====================================================================
  // What a cut closes
  // =====================================================================

  /** The action cuts the session (silence or kick). */
  predicate Cuts(cfg: Config, h: Hub, a: Action) {
    h.session.Some? && h.ending.None? && (a.act.DoKick? || (a.act.DoSilence? && (!cfg.manual || h.aired)))
  }

  predicate Recorded(a: Action) { (a.act.DoKick? || a.act.DoSilence?) && a.act.recorded }

  function SlotKey(s: Session): Key { (s.dj, s.occurrence) }

  predicate BySlot(s: Session) { s.access.Slot? && s.occurrence != "" }

  lemma NoCutLeavesWays(cfg: Config, h: Hub, a: Action)
    requires !Cuts(cfg, h, a) && !a.act.DoOpen? && !a.act.DoClose?
    ensures var after := Next(cfg, h, a);
            after.banned == h.banned && after.urgentCut == h.urgentCut && after.openings == h.openings
  {
    match a.act
    case DoLogin(dj, entry, slots, readable, address) =>
      LoginTouches(cfg, h, dj, entry, slots, readable, address, a.now);
    case DoTake(_, _, _, _) => assert Next(cfg, h, a).openings == h.openings;
    case _ =>
  }

  lemma RequestKeepsCuts(rows: seq<Opening>, dj: string, now: int, until: int)
    ensures SameCuts(rows, Opened(rows, dj, now, until)) && SameCuts(rows, Closed(rows, dj, now))
  {
  }

  /** Nothing but a cut closes anything: a voluntary stop or a plain departure
      leaves every way in as it was. */
  lemma OnlyCutsClose(cfg: Config, h: Hub, a: Action)
    requires !Cuts(cfg, h, a)
    ensures Next(cfg, h, a).banned == h.banned && Next(cfg, h, a).urgentCut == h.urgentCut
    ensures SameCuts(h.openings, Next(cfg, h, a).openings)
    ensures !a.act.DoOpen? && !a.act.DoClose? ==> Next(cfg, h, a).openings == h.openings
  {
    match a.act
    case DoOpen(dj, secs) => RequestKeepsCuts(h.openings, dj, a.now, a.now + secs);
    case DoClose(dj) => RequestKeepsCuts(h.openings, dj, a.now, a.now);
    case _ => NoCutLeavesWays(cfg, h, a);
  }

  /** The rows of a table keep their place and their cuts. */
  ghost predicate SameCuts(rows: seq<Opening>, after: seq<Opening>) {
    |rows| <= |after| && forall i :: 0 <= i < |rows| ==> after[i].id == rows[i].id && after[i].cut == rows[i].cut
  }

  /** The session still connected, or the login waiting, came in by a way that
      was not closed; a waiting login and a session exclude each other. */
  ghost predicate CameInOpen(h: Hub) {
    && (h.session.Some? ==> h.pending.None?)
    && (h.pending.Some? ==> WasOpen(h, h.pending.value))
    && (h.session.Some? && h.ending.None? ==> WasOpen(h, h.session.value))
  }

  ghost predicate WasOpen(h: Hub, s: Session) {
    && (BySlot(s) ==> SlotKey(s) !in h.banned)
    && (s.access.ByOpening? ==> 1 <= s.access.id <= |h.openings|)
  }

  lemma StepCameInOpen(cfg: Config, h: Hub, a: Action)
    requires CameInOpen(h) && (a.act.DoConnect? ==> h.session.None?)
    requires forall i :: 0 <= i < |h.openings| ==> h.openings[i].id == i + 1
    ensures CameInOpen(Next(cfg, h, a))
  {
    var h' := Next(cfg, h, a);
    if !Cuts(cfg, h, a) {
      OnlyCutsClose(cfg, h, a);
      if a.act.DoLogin? && h'.pending != h.pending {
        LoginIsOpen(cfg, h, a);
      } else if !a.act.DoConnect? && !a.act.DoDisconnect? {
        OthersKeepSessions(cfg, h, a);
      }
    }
  }

  /** The DJ's slot is on and was not cut. */
  predicate SlotOpen(h: Hub, a: Action)
    requires a.act.DoLogin?
  {
    a.act.slots.Window? && (a.act.dj, a.act.slots.occurrence) !in h.banned
  }

  /** The DJ has an active opening, and it was not cut. */
  predicate OpeningOpen(h: Hub, a: Action, id: nat)
    requires a.act.DoLogin?
  {
    var o := Active(h.openings, a.act.dj, a.now);
    a.act.openingsReadable && o.Some? && o.value.id == id && !o.value.cut
  }

  ghost predicate AnyOpening(h: Hub, a: Action)
    requires a.act.DoLogin?
  {
    exists id: nat :: OpeningOpen(h, a, id)
  }

  /** The DJ holds the urgent right, and its cooldown is over. */
  predicate UrgentOpen(cfg: Config, h: Hub, a: Action)
    requires a.act.DoLogin?
  {
    a.act.entry == Accepted(true) && !Cooling(cfg, h, a.act.dj, a.now)
  }

  /** The way is open, and the ways tried before it are not. */
  ghost predicate FirstOpenWay(cfg: Config, h: Hub, a: Action, s: Session)
    requires a.act.DoLogin?
  {
    && s.dj == a.act.dj && s.since == a.now
    && match s.access
       case Slot => SlotOpen(h, a) && s.occurrence == a.act.slots.occurrence && s.ruleId == a.act.slots.ruleId
       case ByOpening(id) => OpeningOpen(h, a, id) && !SlotOpen(h, a)
       case Urgent => UrgentOpen(cfg, h, a) && !SlotOpen(h, a) && !AnyOpening(h, a)
       case Unknown => false
  }

  lemma WayInIsFirstOpen(cfg: Config, h: Hub, a: Action)
    requires a.act.DoLogin? && a.act.entry.Accepted?
    ensures var way :=
              WayIn(cfg, h, a.act.dj, a.act.entry.urgent, a.act.slots, a.act.openingsReadable, a.act.address, a.now);
            && (way.Some? <==> SlotOpen(h, a) || AnyOpening(h, a) || UrgentOpen(cfg, h, a))
            && (way.Some? ==> FirstOpenWay(cfg, h, a, way.value))
  {
    var o := Active(h.openings, a.act.dj, a.now);
    if a.act.openingsReadable && o.Some? && !o.value.cut { assert OpeningOpen(h, a, o.value.id); }
  }

  /** A login waits exactly when the DJ file accepts it, nobody is on or waits,
      and some way is open; it then comes in by the first open one. */
  lemma LoginIsOpen(cfg: Config, h: Hub, a: Action)
    requires a.act.DoLogin?
    requires forall i :: 0 <= i < |h.openings| ==> h.openings[i].id == i + 1
    ensures var h' := Next(cfg, h, a);
            && (h'.pending != h.pending <==>
                 && a.act.entry.Accepted? && h.session.None? && !Waiting(h, a.now)
                 && (SlotOpen(h, a) || AnyOpening(h, a) || UrgentOpen(cfg, h, a)))
            && (h'.pending != h.pending ==>
                 && h'.pending.Some? && FirstOpenWay(cfg, h, a, h'.pending.value) && WasOpen(h, h'.pending.value)
                 && h'.session.None?)
  {
    if a.act.entry.Accepted? { WayInIsFirstOpen(cfg, h, a); }
  }

  lemma OthersKeepSessions(cfg: Config, h: Hub, a: Action)
    requires !a.act.DoConnect? && !a.act.DoDisconnect?
    ensures Next(cfg, h, a).session == h.session
    ensures Next(cfg, h, a).pending == h.pending || a.act.DoLogin?
    ensures Next(cfg, h, a).ending.None? ==> h.ending.None?
  {
    match a.act
    case DoLogin(dj, entry, slots, readable, address) =>
      LoginTouches(cfg, h, dj, entry, slots, readable, address, a.now);
    case DoSilence(recorded) => CuttingTouches(h, Silence, a.now, recorded);
    case DoKick(recorded) => CuttingTouches(h, Kicked, a.now, recorded);
    case _ =>
  }

  /** The openings table after an action. */
  function OpeningsAfter(cfg: Config, h: Hub, a: Action): seq<Opening> {
    if a.act.DoOpen? then Opened(h.openings, a.act.dj, a.now, a.now + a.act.secs)
    else if a.act.DoClose? then Closed(h.openings, a.act.dj, a.now)
    else if Cuts(cfg, h, a) && Recorded(a) &&
      h.session.value.access.ByOpening? then Cut(h.openings, h.session.value.access.id)
    else h.openings
  }

  lemma OpeningsAreThose(cfg: Config, h: Hub, a: Action)
    ensures Next(cfg, h, a).openings == OpeningsAfter(cfg, h, a)
  {
    match a.act
    case DoOpen(_, _) =>
    case DoClose(_) =>
    case DoSilence(_) =>
    case DoKick(_) =>
    case _ => OthersKeepOpenings(cfg, h, a);
  }

  lemma OthersKeepOpenings(cfg: Config, h: Hub, a: Action)
    requires !a.act.DoOpen? && !a.act.DoClose? && !a.act.DoSilence? && !a.act.DoKick?
    ensures Next(cfg, h, a).openings == h.openings
  {
  }

  lemma OpeningsStepInOrder(cfg: Config, h: Hub, a: Action, at: int)
    requires Orderly(h.openings, at) && at <= a.now
    ensures Orderly(OpeningsAfter(cfg, h, a), a.now)
  {
    var rows := h.openings;
    if a.act.DoOpen? {
      OpenKeepsOrder(rows, a.act.dj, a.now, a.now + a.act.secs, at);
    } else if a.act.DoClose? {
      CloseKeepsOrder(rows, a.act.dj, a.now, at);
    } else if h.session.Some? && h.session.value.access.ByOpening? {
      CutKeepsOrder(rows, h.session.value.access.id, a.now, at);
    }
  }

  ghost predicate OneActive(rows: seq<Opening>, dj: string, now: int) {
    forall i, j :: 0 <= i < |rows| && 0 <= j < |rows| && IsActive(rows[i], dj, now) && IsActive(rows[j], dj, now) ==>
      i == j
  }

  /** At every moment of a run each DJ has at most one active opening. */
  lemma {:induction false} OpeningsStayInOrder(cfg: Config, run: seq<Action>, n: nat, now: int)
    requires IsRun(cfg, run) && n <= |run| && (n > 0 ==> run[n - 1].now <= now)
    ensures Orderly(After(cfg, run, n).openings, now) && CameInOpen(After(cfg, run, n))
    ensures forall dj :: OneActive(After(cfg, run, n).openings, dj, now)
    decreases n
  {
    if n > 0 {
      var h, a := After(cfg, run, n - 1), run[n - 1];
      OpeningsStayInOrder(cfg, run, n - 1, a.now);
      OpeningsStepInOrder(cfg, h, a, a.now);
      OpeningsAreThose(cfg, h, a);
      assert ConnectsAlone(cfg, run, n - 1);
      StepCameInOpen(cfg, h, a);
    }
    var rows := After(cfg, run, n).openings;
    forall dj ensures OneActive(rows, dj, now) {
      if i :| 0 <= i < |rows| && IsActive(rows[i], dj, now) { AtMostOneActive(rows, dj, now, i); }
    }
  }

  // ----- the remembered cuts -----

  /** The slot an action newly cuts, if any. */
  function NewlyCut(cfg: Config, h: Hub, a: Action): seq<Key> {
    if Cuts(cfg, h, a) && BySlot(h.session.value) && SlotKey(h.session.value) !in h.banned
    then [SlotKey(h.session.value)] else []
  }

  /** Every slot newly cut so far, in order. */
  ghost function CutLog(cfg: Config, run: seq<Action>, n: nat): seq<Key>
    requires n <= |run|
  {
    if n == 0 then [] else CutLog(cfg, run, n - 1) + NewlyCut(cfg, After(cfg, run, n - 1), run[n - 1])
  }

  /** The last `BAN_CAP` of a log. */
  function Latest(log: seq<Key>): seq<Key> { log[Max(0, |log| - BAN_CAP)..] }

  ghost predicate AllDistinct(keys: seq<Key>) { forall i, j :: 0 <= i < j < |keys| ==> keys[i] != keys[j] }

  lemma RememberIsLatest(log: seq<Key>, key: Key)
    requires key !in Latest(log)
    ensures Remember(Latest(log), key) == Latest(log + [key])
  {
  }

  lemma RememberKeepsDistinct(banned: seq<Key>, key: Key)
    requires AllDistinct(banned) && |banned| <= BAN_CAP
    ensures AllDistinct(Remember(banned, key)) && |Remember(banned, key)| <= BAN_CAP && key in Remember(banned, key)
  {
    var all := banned + [key];
    if key !in banned {
      forall i, j | 0 <= i < j < |all| ensures all[i] != all[j] { assert banned[i] in banned; }
      assert all[|banned|] == key;
      if |all| > BAN_CAP { assert all[|all| - BAN_CAP..][BAN_CAP - 1] == key; }
    }
  }

  lemma CutRemembers(cfg: Config, h: Hub, a: Action)
    ensures Next(cfg, h, a).banned ==
              if Cuts(cfg, h, a) && BySlot(h.session.value) then Remember(h.banned, SlotKey(h.session.value))
                else h.banned
  {
    if !Cuts(cfg, h, a) { OnlyCutsClose(cfg, h, a); }
  }

  /** The ban list tells the end of a log, each slot once. */
  ghost predicate RemembersEnd(banned: seq<Key>, log: seq<Key>) {
    banned == Latest(log) && AllDistinct(banned) && |banned| <= BAN_CAP
  }

  /** The ban list is the last 64 slots newly cut, each once. */
  lemma {:induction false} BansAreTheLatestCuts(cfg: Config, run: seq<Action>, n: nat)
    requires n <= |run|
    ensures RemembersEnd(After(cfg, run, n).banned, CutLog(cfg, run, n))
    decreases n
  {
    if n > 0 {
      BansAreTheLatestCuts(cfg, run, n - 1);
      StepRemembers(cfg, After(cfg, run, n - 1), run[n - 1], CutLog(cfg, run, n - 1));
    }
  }

  lemma StepRemembers(cfg: Config, h: Hub, a: Action, log: seq<Key>)
    requires RemembersEnd(h.banned, log)
    ensures RemembersEnd(Next(cfg, h, a).banned, log + NewlyCut(cfg, h, a))
  {
    CutRemembers(cfg, h, a);
    if Cuts(cfg, h, a) && BySlot(h.session.value) {
      RememberKeepsDistinct(h.banned, SlotKey(h.session.value));
      if SlotKey(h.session.value) !in h.banned { RememberIsLatest(log, SlotKey(h.session.value)); }
    }
    assert log + [] == log;
  }

  lemma CutLogStep(cfg: Config, run: seq<Action>, n: nat)
    requires n < |run|
    ensures CutLog(cfg, run, n) <= CutLog(cfg, run, n + 1)
  {
  }

  /** Each log goes on from the one before. */
  ghost predicate GrowOneByOne(logs: seq<seq<Key>>) {
    forall k, l :: 0 <= k < l < |logs| && l == k + 1 ==> logs[k] <= logs[l]
  }

  lemma {:induction false} GrowingLogs(logs: seq<seq<Key>>, i: nat, j: nat)
    requires i <= j < |logs| && GrowOneByOne(logs)
    ensures logs[i] <= logs[j]
    decreases j
  {
    if i < j {
      GrowingLogs(logs, i, j - 1);
      assert logs[j - 1] <= logs[j];
    }
  }

  lemma CutLogs(cfg: Config, run: seq<Action>) returns (logs: seq<seq<Key>>)
    ensures |logs| == |run| + 1 && forall k :: 0 <= k < |logs| ==> logs[k] == CutLog(cfg, run, k)
    ensures GrowOneByOne(logs)
  {
    logs := seq(|run| + 1, k requires 0 <= k <= |run| => CutLog(cfg, run, k));
    forall k, l | 0 <= k < l < |logs| && l == k + 1 ensures logs[k] <= logs[l] { CutLogStep(cfg, run, k); }
  }

  lemma CutLogGrows(cfg: Config, run: seq<Action>, i: nat, j: nat)
    requires i <= j <= |run|
    ensures CutLog(cfg, run, i) <= CutLog(cfg, run, j)
  {
    var logs := CutLogs(cfg, run);
    GrowingLogs(logs, i, j);
  }

  /** The `i`-th action cuts the slot `key`. */
  ghost predicate CutsSlot(cfg: Config, run: seq<Action>, i: nat, key: Key)
    requires i < |run|
  {
    var h := After(cfg, run, i);
    Cuts(cfg, h, run[i]) && BySlot(h.session.value) && SlotKey(h.session.value) == key
  }

  lemma SlotIsLogged(cfg: Config, run: seq<Action>, i: nat, key: Key)
    requires IsRun(cfg, run) && i < |run| && CutsSlot(cfg, run, i, key)
    ensures CutLog(cfg, run, i + 1) != [] && LastKey(CutLog(cfg, run, i + 1)) == key
  {
    OpeningsStayInOrder(cfg, run, i, run[i].now);
  }

  /** A key logged fewer than 64 keys ago is among the latest. */
  lemma StillAmongTheLatest(log: seq<Key>, later: seq<Key>)
    requires log != [] && log <= later && |later| - |log| < BAN_CAP
    ensures LastKey(log) in Latest(later)
  {
    assert Latest(later)[|log| - 1 - Max(0, |later| - BAN_CAP)] == LastKey(log);
  }

  lemma LoggedIsBanned(cfg: Config, run: seq<Action>, key: Key, n: nat)
    requires n <= |run| && key in Latest(CutLog(cfg, run, n))
    ensures key in After(cfg, run, n).banned
  {
    BansAreTheLatestCuts(cfg, run, n);
  }

  function LastKey(log: seq<Key>): Key
    requires log != []
  {
    log[|log| - 1]
  }

  lemma LoggedStaysLatest(cfg: Config, run: seq<Action>, m: nat, j: nat)
    requires m <= j <= |run| && CutLog(cfg, run, m) != []
    requires |CutLog(cfg, run, j)| - |CutLog(cfg, run, m)| < BAN_CAP
    ensures LastKey(CutLog(cfg, run, m)) in Latest(CutLog(cfg, run, j))
  {
    CutLogGrows(cfg, run, m, j);
    StillAmongTheLatest(CutLog(cfg, run, m), CutLog(cfg, run, j));
  }

  lemma LoggedStaysBanned(cfg: Config, run: seq<Action>, key: Key, m: nat, j: nat)
    requires m <= j <= |run| && CutLog(cfg, run, m) != [] && LastKey(CutLog(cfg, run, m)) == key
    requires |CutLog(cfg, run, j)| - |CutLog(cfg, run, m)| < BAN_CAP
    ensures key in After(cfg, run, j).banned
  {
    LoggedStaysLatest(cfg, run, m, j);
    LoggedIsBanned(cfg, run, key, j);
  }

  /** A cut slot stays refused until 64 more slots were newly cut. */
  lemma CutSlotStaysBanned(cfg: Config, run: seq<Action>, i: nat, j: nat, key: Key)
    requires IsRun(cfg, run) && i < j <= |run| && CutsSlot(cfg, run, i, key)
    requires |CutLog(cfg, run, j)| - |CutLog(cfg, run, i + 1)| < BAN_CAP
    ensures key in After(cfg, run, j).banned
  {
    SlotIsLogged(cfg, run, i, key);
    LoggedStaysBanned(cfg, run, key, i + 1, j);
  }

  // ----- openings and the urgent right -----

  /** No row is lost, none loses its cut. */
  ghost predicate KeepsCuts(rows: seq<Opening>, after: seq<Opening>) {
    |rows| <= |after| && forall k :: 0 <= k < |rows| && rows[k].cut ==> after[k].cut
  }

  lemma CutStaysCut(cfg: Config, h: Hub, a: Action)
    ensures KeepsCuts(h.openings, Next(cfg, h, a).openings)
  {
    if !Cuts(cfg, h, a) { OnlyCutsClose(cfg, h, a); }
  }

  lemma CutsKeptStep(cfg: Config, run: seq<Action>, k: nat)
    requires k < |run|
    ensures KeepsCuts(After(cfg, run, k).openings, After(cfg, run, k + 1).openings)
  {
    OneMore(cfg, run, k);
    CutStaysCut(cfg, After(cfg, run, k), run[k]);
  }

  /** Each table keeps the cuts of the one before. */
  ghost predicate KeepOneByOne(tables: seq<seq<Opening>>) {
    forall k, l :: 0 <= k < l < |tables| && l == k + 1 ==> KeepsCuts(tables[k], tables[l])
  }

  lemma {:induction false} KeptCuts(tables: seq<seq<Opening>>, i: nat, j: nat)
    requires i <= j < |tables| && KeepOneByOne(tables)
    ensures KeepsCuts(tables[i], tables[j])
    decreases j
  {
    if i < j {
      KeptCuts(tables, i, j - 1);
      assert KeepsCuts(tables[j - 1], tables[j]);
    }
  }

  lemma OpeningTables(cfg: Config, run: seq<Action>) returns (tables: seq<seq<Opening>>)
    ensures |tables| == |run| + 1 && forall k :: 0 <= k < |tables| ==> tables[k] == After(cfg, run, k).openings
    ensures KeepOneByOne(tables)
  {
    tables := seq(|run| + 1, k requires 0 <= k <= |run| => After(cfg, run, k).openings);
    forall k, l | 0 <= k < l < |tables| && l == k + 1 ensures KeepsCuts(tables[k], tables[l]) {
      CutsKeptStep(cfg, run, k);
    }
  }

  lemma CutsAreKept(cfg: Config, run: seq<Action>, i: nat, j: nat)
    requires i <= j <= |run|
    ensures KeepsCuts(After(cfg, run, i).openings, After(cfg, run, j).openings)
  {
    var tables := OpeningTables(cfg, run);
    KeptCuts(tables, i, j);
  }

  lemma RecordedCutIsCut(cfg: Config, run: seq<Action>, i: nat)
    requires IsRun(cfg, run) && i < |run| && Cuts(cfg, After(cfg, run, i), run[i]) && Recorded(run[i])
    requires After(cfg, run, i).session.value.access.ByOpening?
    ensures var id := After(cfg, run, i).session.value.access.id;
            1 <= id <= |After(cfg, run, i + 1).openings| && After(cfg, run, i + 1).openings[id - 1].cut
  {
    OpeningsStayInOrder(cfg, run, i, run[i].now);
  }

  lemma CutOpeningStaysCut(cfg: Config, run: seq<Action>, i: nat, j: nat)
    requires IsRun(cfg, run) && i < j <= |run| && Cuts(cfg, After(cfg, run, i), run[i]) && Recorded(run[i])
    requires After(cfg, run, i).session.value.access.ByOpening?
    ensures var id := After(cfg, run, i).session.value.access.id;
            1 <= id <= |After(cfg, run, j).openings| && After(cfg, run, j).openings[id - 1].cut
  {
    RecordedCutIsCut(cfg, run, i);
    CutsAreKept(cfg, run, i + 1, j);
  }

  lemma {:induction false} CutStartsTheCooldown(cfg: Config, run: seq<Action>, i: nat, j: nat)
    requires IsRun(cfg, run) && i < j <= |run| && Cuts(cfg, After(cfg, run, i), run[i])
    ensures var dj := After(cfg, run, i).session.value.dj;
            dj in After(cfg, run, j).urgentCut && After(cfg, run, j).urgentCut[dj] >= run[i].now
    decreases j
  {
    if i < j - 1 {
      CutStartsTheCooldown(cfg, run, i, j - 1);
      CooldownLasts(cfg, After(cfg, run, j - 1), run[j - 1], After(cfg, run, i).session.value.dj);
    }
  }

  lemma CooldownLasts(cfg: Config, h: Hub, a: Action, dj: string)
    requires dj in h.urgentCut
    ensures dj in Next(cfg, h, a).urgentCut && Next(cfg, h, a).urgentCut[dj] in {h.urgentCut[dj], a.now}
  {
    if !Cuts(cfg, h, a) { OnlyCutsClose(cfg, h, a); }
  }

  ghost function LoginOutcome(cfg: Config, run: seq<Action>, j: nat): AuthOutcome
    requires j < |run| && run[j].act.DoLogin?
  {
    var a := run[j];
    Login(cfg, After(cfg, run, j), a.act.dj, a.act.entry, a.act.slots, a.act.openingsReadable, a.act.address, a.now).1
  }

  /** After a cut no later login of that DJ gets in by the slot it was cut from,
      while that cut is remembered; by the opening it was cut from, if the cut was
      recorded; or by its urgent right before the cooldown ends. */
  lemma CutClosesTheWays(cfg: Config, run: seq<Action>, i: nat, j: nat)
    requires IsRun(cfg, run) && i < j < |run| && run[j].act.DoLogin?
    requires Cuts(cfg, After(cfg, run, i), run[i]) && run[j].act.dj == After(cfg, run, i).session.value.dj
    requires LoginOutcome(cfg, run, j).Allowed?
    ensures var s := After(cfg, run, i).session.value;
            match LoginOutcome(cfg, run, j).access
            case Slot => s.access.Slot? && run[j].act.slots.occurrence == s.occurrence != "" ==>
              |CutLog(cfg, run, j)| - |CutLog(cfg, run, i + 1)| >= BAN_CAP
            case ByOpening(id) => s.access == ByOpening(id) ==> !Recorded(run[i])
            case Urgent => run[j].now - run[i].now >= cfg.cooldown
            case Unknown => false
  {
    var s, h := After(cfg, run, i).session.value, After(cfg, run, j);
    if BySlot(s) && |CutLog(cfg, run, j)| - |CutLog(cfg, run, i + 1)| < BAN_CAP {
      CutSlotStaysBanned(cfg, run, i, j, SlotKey(s));
    }
    CutStartsTheCooldown(cfg, run, i, j);
    OpeningsStayInOrder(cfg, run, j, run[j].now);
    if s.access.ByOpening? && Recorded(run[i]) { CutOpeningStaysCut(cfg, run, i, j); }
  }

  // ----- the reason of an end -----

  ghost predicate Stops(h: Hub, a: Action) { a.act.DoStop? && h.session.Some? && h.session.value.dj == a.act.dj }

  /** Until the DJ is gone, the reason of its end is that of the first cut,
      exactly when it did not stop by itself meanwhile. */
  lemma {:induction false} FirstReasonHolds(cfg: Config, run: seq<Action>, i: nat, j: nat)
    requires IsRun(cfg, run) && i < j <= |run| && Cuts(cfg, After(cfg, run, i), run[i])
    requires forall k :: i < k < j ==> !run[k].act.DoConnect? && !run[k].act.DoDisconnect?
    ensures After(cfg, run, j).session == After(cfg, run, i).session
    ensures After(cfg, run, j).ending ==
              Some(if StoppedBetween(cfg, run, i + 1, j) then Disconnected else CutReason(run[i]))
    decreases j
  {
    if i < j - 1 {
      FirstReasonHolds(cfg, run, i, j - 1);
      EndingStep(cfg, After(cfg, run, j - 1), run[j - 1]);
    } else {
      assert !StoppedBetween(cfg, run, i + 1, j);
    }
  }

  const STOPPED_AFTER_KICK: seq<Action> :=
    [At(DoLogin("a", Accepted(true), NoWindow, false, ""), 0), At(DoConnect, 1), At(DoKick(true), 2),
      At(DoStop("a"), 3), At(DoDisconnect, 4)]

  const AUTOMATIC := Config(false, 0, 0)

  /** The station at each moment of that run. */
  lemma KickedThenStopped()
    ensures var cfg, run := AUTOMATIC, STOPPED_AFTER_KICK;
            && After(cfg, run, 1) == SILENT_HUB.(pending := Some(Session("a", Urgent, "", "", "", 0)))
            && After(cfg, run, 2) == Connect(cfg, After(cfg, run, 1), 1)
            && After(cfg, run, 3) == Cutting(After(cfg, run, 2), Kicked, 2, true).0
            && After(cfg, run, 4) == Stop(After(cfg, run, 3), "a")
            && After(cfg, run, 5) == Disconnect(After(cfg, run, 4), 4)
  {
    assert After(AUTOMATIC, STOPPED_AFTER_KICK, 0) == SILENT_HUB;
  }

  lemma LoggedIn()
    ensures After(AUTOMATIC, STOPPED_AFTER_KICK, 1).session.None?
  {
    assert After(AUTOMATIC, STOPPED_AFTER_KICK, 0) == SILENT_HUB;
  }

  lemma KickedRunIsARun()
    ensures IsRun(AUTOMATIC, STOPPED_AFTER_KICK)
  {
    var run := STOPPED_AFTER_KICK;
    LoggedIn();
    forall k | 0 <= k < |run| && run[k].act.DoConnect? ensures k == 1 {}
  }

  /** A kick, then a stop by the DJ: its end is told as voluntary. */
  lemma StopOverwritesAKick()
    ensures var cfg, run := AUTOMATIC, STOPPED_AFTER_KICK;
            && IsRun(cfg, run) && Cuts(cfg, After(cfg, run, 2), run[2]) && CutReason(run[2]) == Kicked
            && After(cfg, run, 5).events == [LiveStarted("a", "", 1), LiveEnded("a", Disconnected, 4)]
  {
    KickedRunIsARun();
    KickedThenStopped();
    assert After(AUTOMATIC, STOPPED_AFTER_KICK, 4).ending == Some(Disconnected);
  }

  function CutReason(a: Action): Reason { if a.act.DoKick? then Kicked else Silence }

  ghost predicate StoppedBetween(cfg: Config, run: seq<Action>, i: nat, j: nat)
    requires i <= j <= |run|
  {
    i < j && (StoppedBetween(cfg, run, i, j - 1) || Stops(After(cfg, run, j - 1), run[j - 1]))
  }

  lemma EndingStep(cfg: Config, h: Hub, a: Action)
    requires h.ending.Some? && !a.act.DoConnect? && !a.act.DoDisconnect?
    ensures Next(cfg, h, a).session == h.session
    ensures Next(cfg, h, a).ending == if Stops(h, a) then Some(Disconnected) else h.ending
  {
  }

  // =====================================================================
  // The hub
  // =====================================================================

  class LiveHub {
    const cfg: Config
    const table: OpeningTable
    var pending: Option<Session>
    var session: Option<Session>
    var airRequested: bool
    var aired: bool
    var health: Health
    var ending: Option<Reason>
    var banned: seq<Key>
    var urgentCut: map<string, int>
    var last: Option<Ended>
    /** What the station control knows. */
    var onAir: Option<string>
    var events: seq<Event>
    var kicks: nat

    constructor (cfg: Config)
      ensures this.cfg == cfg && fresh(table) && State() == SILENT_HUB
    {
      this.cfg := cfg;
      table := new OpeningTable();
      pending, session, airRequested, aired, health, ending := None, None, false, false, NO_HEALTH, None;
      banned, urgentCut, last, onAir, events, kicks := [], map[], None, None, [], 0;
    }

    function State(): Hub
      reads this, table
    {
      Hub(pending, session, airRequested, aired, health, ending, banned, urgentCut, last, table.rows, onAir, events,
        kicks)
    }

    method Admit(s: Session, now: int) returns (outcome: AuthOutcome)
      modifies this
      ensures (State(), outcome) ==
                if old(session).Some? || Waiting(old(State()), now) then (old(State()), Refused)
                else (old(State()).(pending := Some(s)), Allowed(s.dj, s.access, s.ruleId))
    {
      if session.Some? || (pending.Some? && now - pending.value.since <= PENDING_TTL_S) { return Refused; }
      pending := Some(s);
      outcome := Allowed(s.dj, s.access, s.ruleId);
    }

    /** A harbor login: slot, opening, urgent right, in that order. */
    method Decide(dj: string, entry: Entry, slots: Slots, openingsReadable: bool, address: string, now: int)
      returns (outcome: AuthOutcome)
      modifies this
      ensures (State(), outcome) == Login(cfg, old(State()), dj, entry, slots, openingsReadable, address, now)
    {
      if !entry.Accepted? { return Refused; }
      if session.Some? { return Refused; }
      if slots.Window? && (dj, slots.occurrence) !in banned {
        outcome := Admit(Session(dj, Slot, slots.ruleId, slots.occurrence, address, now), now);
        return;
      }
      if openingsReadable {
        var o := Active(table.rows, dj, now);
        if o.Some? && !o.value.cut {
          outcome := Admit(Session(dj, ByOpening(o.value.id), "", "", address, now), now);
          return;
        }
      }
      if entry.urgent && !(dj in urgentCut && now - urgentCut[dj] < cfg.cooldown) {
        outcome := Admit(Session(dj, Urgent, "", "", address, now), now);
        return;
      }
      return Refused;
    }

    /** The harbor took the stream: a session of its own. */
    method Arrive(now: int) returns (s: Session)
      modifies this
      ensures s == Connecting(old(State()), now)
      ensures State() == old(State()).(
                pending := None, session := Some(s), ending := None, health := NO_HEALTH,
                airRequested := !cfg.manual, aired := !cfg.manual)
    {
      s :=
        if pending.Some? && now - pending.value.since <= PENDING_TTL_S then pending.value.(since := now)
        else Session("?", Unknown, "", "", "", now);
      pending, session, ending, health := None, Some(s), None, NO_HEALTH;
      airRequested, aired := !cfg.manual, !cfg.manual;
    }

    /** The harbor took the stream. */
    method Connected(now: int)
      modifies this
      ensures State() == Connect(cfg, old(State()), now)
    {
      var s := Arrive(now);
      if cfg.manual {
        if s.access == Unknown { kicks := kicks + 1; }
      } else {
        StartLive(s, now);
      }
    }

    method StartLive(s: Session, now: int)
      modifies this`onAir, this`events
      ensures onAir == Some(s.dj) && events == old(events) + [LiveStarted(s.dj, s.ruleId, now)]
    {
      onAir := Some(s.dj);
      events := events + [LiveStarted(s.dj, s.ruleId, now)];
    }

    /** What the session leaves behind: why it ends, who it was, whether it
        aired. */
    method Leave() returns (reason: Reason, was: Option<Session>, wasAired: bool)
      modifies this
      ensures reason == if old(ending).Some? then old(ending).value else Disconnected
      ensures was == old(session) && wasAired == old(aired)
      ensures State() == old(State()).(
                session := None, airRequested := false, aired := false, health := NO_HEALTH, ending := None)
    {
      reason := if ending.Some? then ending.value else Disconnected;
      was, wasAired := session, aired;
      ending, airRequested, aired, health, session := None, false, false, NO_HEALTH, None;
    }

    /** The DJ left the harbor. */
    method DisconnectedBy(now: int) returns (ended: Option<Ended>)
      modifies this
      ensures State() == Disconnect(old(State()), now)
      ensures ended == if old(session).Some? && old(aired) then State().last else None
    {
      var reason, was, wasAired := Leave();
      ended := None;
      if was.Some? && wasAired {
        ended := Some(Ended(was.value, reason, now));
        last := ended;
      }
      onAir := None;
      if ended.Some? { events := events + [LiveEnded(was.value.dj, reason, now)]; }
    }

    /** Closes the way the DJ came in by, and asks for its disconnection. */
    method End(reason: Reason, now: int, recorded: bool) returns (ok: bool)
      modifies this, table
      ensures (State(), ok) == Cutting(old(State()), reason, now, recorded)
    {
      if session.None? || ending.Some? { return false; }
      var s := session.value;
      ending := Some(reason);
      if s.access == Slot && s.occurrence != "" {
        var key := (s.dj, s.occurrence);
        if key !in banned {
          banned := banned + [key];
          PopOldest();
        }
      }
      urgentCut := urgentCut[s.dj := now];
      if s.access.ByOpening? && recorded { table.MarkCut(s.access.id); }
      kicks := kicks + 1;
      return true;
    }

    /** Forgets the oldest cuts beyond the cap. */
    method PopOldest()
      modifies this`banned
      ensures banned == old(banned)[Max(0, |old(banned)| - BAN_CAP)..]
    {
      while |banned| > BAN_CAP
        invariant banned == old(banned)[|old(banned)| - |banned|..] && |banned| <= |old(banned)|
        invariant |banned| >= Min(BAN_CAP, |old(banned)|)
      {
        banned := banned[1..];
      }
    }

    method SilenceReported(now: int, recorded: bool)
      modifies this, table
      ensures State() == Silent(cfg, old(State()), now, recorded)
    {
      if cfg.manual && !aired { return; }
      var ok := End(Silence, now, recorded);
    }

    method Kick(now: int, recorded: bool) returns (ok: bool)
      modifies this, table
      ensures (State(), ok) == Cutting(old(State()), Kicked, now, recorded)
    {
      ok := End(Kicked, now, recorded);
    }

    method InputHealth(ready: bool, level: int, peak: int, now: int) returns (requested: bool)
      modifies this
      ensures State() == Measured(cfg, old(State()), ready, level, peak, now)
      ensures requested == (old(session).Some? && old(ending).None? && airRequested)
    {
      if session.None? || ending.Some? { return false; }
      var db := Max(level, FLOOR_DB);
      var continuous := health.observed.Some? && now - health.observed.value <= READY_S;
      var since := health.goodSince;
      if !ready || db < cfg.threshold || !continuous { since := None; }
      if ready && db >= cfg.threshold && since.None? { since := Some(now); }
      health := Health(Some(now), since, ready, health.seenAudio || ready, db, Max(peak, FLOOR_DB));
      return airRequested;
    }

    /** Liquidsoap's transition to the DJ source. */
    method Aired(now: int)
      modifies this
      ensures State() == WentOnAir(old(State()), now)
    {
      if !airRequested || aired || ending.Some? { return; }
      if session.None? { return; }
      aired := true;
      StartLive(session.value, now);
    }

    method DjTake(dj: string, urgent: bool, slots: Slots, openingsReadable: bool, now: int) returns (ok: bool)
      modifies this
      ensures State() == Take(cfg, old(State()), dj, urgent, slots, openingsReadable, now)
      ensures ok == MayTake(cfg, old(State()), dj, urgent, slots, openingsReadable, now)
    {
      if session.None? || session.value.dj != dj { return false; }
      if !AccessValid(cfg, State(), session.value, urgent, slots, openingsReadable, now) { return false; }
      if ending.Some? || !InputReady(health, now) { return false; }
      airRequested := true;
      return true;
    }

    method DjStop(dj: string) returns (ok: bool)
      modifies this
      ensures State() == Stop(old(State()), dj)
      ensures ok == (old(session).Some? && old(session).value.dj == dj)
    {
      if session.None? || session.value.dj != dj { return false; }
      ending, airRequested := Some(Disconnected), false;
      kicks := kicks + 1;
      return true;
    }
  }
}
