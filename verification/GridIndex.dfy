/** The relational index of the grid (src/grid_index.rs and its tables,
    migrations 0006, 0016, 0017, 0026, 0027, 0032): rules written to one base
    row, their weekdays and one detail row, in a transaction, and read back
    whatever the order of the rows. */
module GridIndex {
  import opened Base
  import opened Resolver
  import opened GridText
  import opened GridToml
  import D = GridDocument

  // =====================================================================
  // Tables
  // =====================================================================

  datatype BaseRow = BaseRow(
    enabled: bool, kind: KindTag, dateStart: Option<string>, dateEnd: Option<string>, utc: bool)

  datatype DayPartRow = DayPartRow(
    playlist: string, startHour: int, startMinute: int, endHour: Option<int>, endMinute: Option<int>)

  datatype AtClockRow = AtClockRow(
    playlist: string, everyMinutes: Option<int>, atHour: Option<int>, atMinute: Option<int>, mode: Mode,
    expiry: Option<int>)

  datatype EveryRow = EveryRow(playlist: string, elapsed: Option<int>, tracks: Option<int>)

  datatype LiveRow = LiveRow(dj: string, startHour: int, startMinute: int)

  datatype Tables = Tables(
    rule: map<string, BaseRow>, weekday: set<(string, string)>, baseRotation: map<string, string>,
    dayPart: map<string, DayPartRow>, atClock: map<string, AtClockRow>, every: map<string, EveryRow>,
    live: map<string, LiveRow>)

  const EMPTY := Tables(map[], {}, map[], map[], map[], map[], map[])

  // ----- what the tables refuse ---------------------------------------

  predicate Between(n: int, low: int, high: int) { low <= n <= high }

  predicate DayPartCheck(d: DayPartRow) {
    && Between(d.startHour, 0, 23) && Between(d.startMinute, 0, 59)
    && (d.endHour.Some? ==> Between(d.endHour.value, 0, 23))
    && (d.endMinute.Some? ==> Between(d.endMinute.value, 0, 59))
    && (d.endHour.None? <==> d.endMinute.None?)
  }

  predicate AtClockCheck(a: AtClockRow) {
    && (a.everyMinutes.Some? ==> Between(a.everyMinutes.value, 1, 1439))
    && (a.atHour.Some? ==> Between(a.atHour.value, 0, 23)) && (a.atMinute.Some? ==> Between(a.atMinute.value, 0, 59))
    && (a.expiry.Some? ==> a.expiry.value > 0)
    && (|| (a.everyMinutes.Some? && a.atHour.None? && a.atMinute.None?)
        || (a.everyMinutes.None? && a.atHour.None? && a.atMinute.Some?)
        || (a.everyMinutes.None? && a.atHour.Some? && a.atMinute.Some?))
  }

  predicate EveryCheck(e: EveryRow) {
    && (e.elapsed.Some? ==> e.elapsed.value > 0) && (e.tracks.Some? ==> e.tracks.value >= 1)
    && (e.elapsed.Some? <==> e.tracks.None?)
  }

  predicate LiveCheck(l: LiveRow) { Between(l.startHour, 0, 23) && Between(l.startMinute, 0, 59) }

  // =====================================================================
  // Casts
  // =====================================================================

  const TWO_64: int := 0x1_0000_0000_0000_0000

  /** `u64 as i64`: the upper half becomes negative. */
  function AsI64(n: U64): int { if n <= I64_MAX then n else n - TWO_64 }

  /** `i64 as u64`. */
  function AsU64(n: int): U64 { n % TWO_64 }

  function AsU32(n: int): U32 { n % 0x1_0000_0000 }

  function AsU8(n: int): int { n % 256 }

  // =====================================================================
  // A rule as rows
  // =====================================================================

  function TagOf(k: RuleKind): KindTag {
    match k
    case BaseRotation(_) => TagBaseRotation
    case DayPart(_, _, _) => TagDayPart
    case AtClock(_, _, _, _) => TagAtClock
    case Every(_, _) => TagEvery
    case Live(_, _) => TagLive
  }

  ghost predicate DatesOk(v: Validity) {
    (v.dateStart.Some? ==> DateOk(v.dateStart.value)) && (v.dateEnd.Some? ==> DateOk(v.dateEnd.value))
  }

  function DateCell(d: Option<Date>): Option<string>
    requires d.Some? ==> DateOk(d.value)
  {
    if d.Some? then Some(DateText(d.value)) else None
  }

  function BaseOf(r: Rule): BaseRow
    requires DatesOk(r.validity)
  {
    BaseRow(r.enabled, TagOf(r.kind), DateCell(r.validity.dateStart), DateCell(r.validity.dateEnd), r.validity.utc)
  }

  function DayPartOf(k: RuleKind): DayPartRow
    requires k.DayPart?
  {
    DayPartRow(k.playlist, k.start.hour, k.start.minute,
      if k.end.Some? then Some(k.end.value.hour) else None, if k.end.Some? then Some(k.end.value.minute) else None)
  }

  function AtClockOf(k: RuleKind): AtClockRow
    requires k.AtClock?
  {
    var expiry := if k.expiry.Some? then Some(AsI64(k.expiry.value)) else None;
    match k.anchor
    case EveryMinutes(n) => AtClockRow(k.playlist, Some(n), None, None, k.mode, expiry)
    case Minute(m) => AtClockRow(k.playlist, None, None, Some(m), k.mode, expiry)
    case At(w) => AtClockRow(k.playlist, None, Some(w.hour), Some(w.minute), k.mode, expiry)
  }

  function EveryOf(k: RuleKind): EveryRow
    requires k.Every?
  {
    match k.cadence
    case Elapsed(s) => EveryRow(k.playlist, Some(AsI64(s)), None)
    case Tracks(n) => EveryRow(k.playlist, None, Some(n))
  }

  predicate RowFits(k: RuleKind) {
    match k
    case BaseRotation(_) => true
    case DayPart(_, _, _) => DayPartCheck(DayPartOf(k))
    case AtClock(_, _, _, _) => AtClockCheck(AtClockOf(k))
    case Every(_, _) => EveryCheck(EveryOf(k))
    case Live(dj, w) => LiveCheck(LiveRow(dj, w.hour, w.minute))
  }

  /** What one rule's row cannot collide with, nor break. */
  ghost predicate Storable(r: Rule) { NoRepeat(r.validity.days) && RowFits(r.kind) }

  ghost predicate AllStorable(rules: seq<Rule>) { forall i :: 0 <= i < |rules| ==> Storable(rules[i]) }

  ghost predicate AllDatesOk(rules: seq<Rule>) { forall i :: 0 <= i < |rules| ==> DatesOk(rules[i].validity) }

  // =====================================================================
  // Stored rules
  // =====================================================================

  ghost predicate DetailIs(t: Tables, id: string, k: RuleKind) {
    match k
    case BaseRotation(p) => id in t.baseRotation && t.baseRotation[id] == p
    case DayPart(_, _, _) => id in t.dayPart && t.dayPart[id] == DayPartOf(k)
    case AtClock(_, _, _, _) => id in t.atClock && t.atClock[id] == AtClockOf(k)
    case Every(_, _) => id in t.every && t.every[id] == EveryOf(k)
    case Live(dj, w) => id in t.live && t.live[id] == LiveRow(dj, w.hour, w.minute)
  }

  ghost predicate DaysAre(rows: set<(string, string)>, id: string, days: seq<Weekday>) {
    && (forall w :: (id, WeekdayText(w)) in rows <==> w in days)
    && (forall s :: (id, s) in rows ==> ParseWeekday(s).Some?)
  }

  /** The rows of `r` are in the tables. */
  ghost predicate Holds(t: Tables, r: Rule)
    requires DatesOk(r.validity)
  {
    && r.id in t.rule && t.rule[r.id] == BaseOf(r)
    && DaysAre(t.weekday, r.id, r.validity.days)
    && DetailIs(t, r.id, r.kind)
  }

  /** No table knows `id`. */
  ghost predicate Unknown(t: Tables, id: string) {
    && id !in t.rule && id !in t.baseRotation && id !in t.dayPart && id !in t.atClock && id !in t.every && id !in t.live
    && forall s :: (id, s) !in t.weekday
  }

  /** The tables hold these rules and nothing else. */
  ghost predicate Stores(t: Tables, rules: seq<Rule>)
    requires AllDatesOk(rules)
  {
    && (forall i :: 0 <= i < |rules| ==> Holds(t, rules[i]))
    && (forall id :: id !in D.IdsOf(rules) ==> Unknown(t, id))
  }

  // =====================================================================
  // Writing
  // =====================================================================

  function WithDetail(t: Tables, id: string, k: RuleKind): Tables {
    match k
    case BaseRotation(p) => t.(baseRotation := t.baseRotation[id := p])
    case DayPart(_, _, _) => t.(dayPart := t.dayPart[id := DayPartOf(k)])
    case AtClock(_, _, _, _) => t.(atClock := t.atClock[id := AtClockOf(k)])
    case Every(_, _) => t.(every := t.every[id := EveryOf(k)])
    case Live(dj, w) => t.(live := t.live[id := LiveRow(dj, w.hour, w.minute)])
  }

  predicate DetailTaken(t: Tables, id: string, k: RuleKind) {
    match k
    case BaseRotation(_) => id in t.baseRotation
    case DayPart(_, _, _) => id in t.dayPart
    case AtClock(_, _, _, _) => id in t.atClock
    case Every(_, _) => id in t.every
    case Live(_, _) => id in t.live
  }

  function DayRows(id: string, days: seq<Weekday>): set<(string, string)> { set w | w in days :: (id, WeekdayText(w)) }

  /** The tables with the rows of one more rule. */
  function WithRule(t: Tables, r: Rule): Tables
    requires DatesOk(r.validity)
  {
    WithDetail(t.(rule := t.rule[r.id := BaseOf(r)], weekday := t.weekday + DayRows(r.id, r.validity.days)), r.id,
      r.kind)
  }

  /** None of the days of `id` has its row yet. */
  ghost predicate DaysFree(rows: set<(string, string)>, id: string, days: seq<Weekday>) {
    forall w <- days :: (id, WeekdayText(w)) !in rows
  }

  method InsertDays(rows: set<(string, string)>, id: string, days: seq<Weekday>)
    returns (r: Option<set<(string, string)>>)
    ensures r.Some? <==> NoRepeat(days) && DaysFree(rows, id, days)
    ensures r.Some? ==> r.value == rows + DayRows(id, days)
  {
    var tx := rows;
    for i := 0 to |days|
      invariant NoRepeat(days[..i]) && DaysFree(rows, id, days[..i])
      invariant tx == rows + DayRows(id, days[..i])
    {
      var row := (id, WeekdayText(days[i]));
      DayIsRow(id, days[..i], days[i]);
      assert days[..i + 1] == days[..i] + [days[i]];
      if row in tx {
        assert row in rows || days[i] in days[..i];
        return None;
      }
      tx := tx + {row};
    }
    assert days[..|days|] == days;
    r := Some(tx);
  }

  lemma DayIsRow(id: string, days: seq<Weekday>, w: Weekday)
    ensures (id, WeekdayText(w)) in DayRows(id, days) <==> w in days
    ensures DayRows(id, days + [w]) == DayRows(id, days) + {(id, WeekdayText(w))}
  {
    if (id, WeekdayText(w)) in DayRows(id, days) {
      var v :| v in days && WeekdayText(v) == WeekdayText(w);
      WeekdayRoundTrip(v);
      WeekdayRoundTrip(w);
    }
  }

  lemma DayRowsAre(rows: set<(string, string)>, id: string, days: seq<Weekday>)
    requires forall s :: (id, s) !in rows
    ensures DaysAre(rows + DayRows(id, days), id, days)
  {
    forall w ensures (id, WeekdayText(w)) in rows + DayRows(id, days) <==> w in days { DayIsRow(id, days, w); }
    forall s | (id, s) in rows + DayRows(id, days) ensures ParseWeekday(s).Some? {
      var v :| v in days && WeekdayText(v) == s;
      WeekdayRoundTrip(v);
    }
  }

  /** No key of the rule's rows is taken, and its row is within the checks. */
  ghost predicate Insertable(t: Tables, r: Rule) {
    && r.id !in t.rule && NoRepeat(r.validity.days) && DaysFree(t.weekday, r.id, r.validity.days)
    && !DetailTaken(t, r.id, r.kind) && RowFits(r.kind)
  }

  /** `insert_rule_in_tx`: base row, weekdays, detail; refused on a key or a
      check. */
  method InsertInTx(t: Tables, r: Rule) returns (tx: Option<Tables>)
    requires DatesOk(r.validity)
    ensures tx.Some? <==> Insertable(t, r)
    ensures tx.Some? ==> tx.value == WithRule(t, r)
  {
    if r.id in t.rule { return None; }
    var days := InsertDays(t.weekday, r.id, r.validity.days);
    if days.None? { return None; }
    var tables := t.(rule := t.rule[r.id := BaseOf(r)], weekday := days.value);
    if DetailTaken(tables, r.id, r.kind) || !RowFits(r.kind) { return None; }
    tx := Some(WithDetail(tables, r.id, r.kind));
  }

  /** Where nothing is left of an id, only the rule itself can be refused. */
  lemma UnknownIsInsertable(t: Tables, r: Rule)
    requires Unknown(t, r.id)
    ensures Insertable(t, r) <==> Storable(r)
  {
  }

  lemma WithRuleHolds(t: Tables, r: Rule)
    requires DatesOk(r.validity) && Unknown(t, r.id)
    ensures Holds(WithRule(t, r), r)
  {
    DayRowsAre(t.weekday, r.id, r.validity.days);
  }

  lemma ForeignDays(rows: set<(string, string)>, id: string, days: seq<Weekday>, other: string)
    requires id != other
    ensures forall x :: (other, x) in rows + DayRows(id, days) <==> (other, x) in rows
  {
  }

  lemma ForeignDetail(t: Tables, id: string, k: RuleKind, other: string, l: RuleKind)
    requires id != other
    ensures DetailIs(WithDetail(t, id, k), other, l) <==> DetailIs(t, other, l)
  {
  }

  lemma ForeignUnknown(t: Tables, id: string, k: RuleKind, other: string)
    requires id != other
    ensures Unknown(WithDetail(t, id, k), other) <==> Unknown(t, other)
  {
    assert WithDetail(t, id, k).weekday == t.weekday;
  }

  lemma DetailAlone(t: Tables, u: Tables, id: string, k: RuleKind)
    requires u == t.(rule := u.rule, weekday := u.weekday)
    ensures DetailIs(u, id, k) <==> DetailIs(t, id, k)
  {
  }

  lemma DaysAlone(rows: set<(string, string)>, more: set<(string, string)>, id: string, days: seq<Weekday>)
    requires DaysAre(rows, id, days) && forall x :: (id, x) in more <==> (id, x) in rows
    ensures DaysAre(more, id, days)
  {
  }

  lemma WithRuleKeeps(t: Tables, r: Rule, s: Rule)
    requires DatesOk(r.validity) && DatesOk(s.validity) && s.id != r.id && Holds(t, s)
    ensures Holds(WithRule(t, r), s)
  {
    var u := t.(rule := t.rule[r.id := BaseOf(r)], weekday := t.weekday + DayRows(r.id, r.validity.days));
    ForeignDays(t.weekday, r.id, r.validity.days, s.id);
    DaysAlone(t.weekday, u.weekday, s.id, s.validity.days);
    DetailAlone(t, u, s.id, s.kind);
    ForeignDetail(u, r.id, r.kind, s.id, s.kind);
  }

  lemma WithRuleForeign(t: Tables, r: Rule, id: string)
    requires DatesOk(r.validity) && id != r.id && Unknown(t, id)
    ensures Unknown(WithRule(t, r), id)
  {
    var u := t.(rule := t.rule[r.id := BaseOf(r)], weekday := t.weekday + DayRows(r.id, r.validity.days));
    ForeignDays(t.weekday, r.id, r.validity.days, id);
    ForeignUnknown(u, r.id, r.kind, id);
  }

  lemma StoresOneMore(t: Tables, rules: seq<Rule>, r: Rule)
    requires AllDatesOk(rules) && DatesOk(r.validity) && Stores(t, rules) && Unknown(t, r.id)
    requires r.id !in D.IdsOf(rules)
    ensures AllDatesOk(rules + [r]) && Stores(WithRule(t, r), rules + [r])
  {
    var all := rules + [r];
    forall i | 0 <= i < |all| ensures Holds(WithRule(t, r), all[i]) {
      if i < |rules| {
        assert rules[i].id in D.IdsOf(rules);
        WithRuleKeeps(t, r, rules[i]);
      } else {
        WithRuleHolds(t, r);
      }
    }
    D.IdsGrow(rules, r);
    forall id | id !in D.IdsOf(all) ensures Unknown(WithRule(t, r), id) { WithRuleForeign(t, r, id); }
  }

  lemma Repeats(rules: seq<Rule>, i: nat)
    requires i < |rules| && rules[i].id in D.IdsOf(rules[..i])
    ensures !D.UniqueIds(rules)
  {
    var j :| 0 <= j < i && rules[..i][j].id == rules[i].id;
  }

  lemma OneMoreId(rules: seq<Rule>, r: Rule)
    requires D.UniqueIds(rules) && r.id !in D.IdsOf(rules)
    ensures D.UniqueIds(rules + [r])
  {
    forall i | 0 <= i < |rules| ensures rules[i].id != r.id { assert rules[i].id in D.IdsOf(rules); }
  }

  // =====================================================================
  // Reading
  // =====================================================================

  datatype LoadError =
    | MissingDetail(id: string)
    | BadDateCell(id: string, value: string)
    | BadWeekdayCell(id: string, value: string)

  function AnchorFrom(a: AtClockRow): ClockAnchor {
    match (a.everyMinutes, a.atHour)
    case (Some(n), _) => EveryMinutes(AsU32(n))
    case (None, None) => Minute(AsU8(if a.atMinute.Some? then a.atMinute.value else 0))
    case (None, Some(h)) => At(WallClock(AsU8(h), AsU8(if a.atMinute.Some? then a.atMinute.value else 0)))
  }

  function EndFrom(d: DayPartRow): Option<WallClock> {
    if d.endHour.Some? && d.endMinute.Some? then Some(WallClock(AsU8(d.endHour.value), AsU8(d.endMinute.value)))
      else None
  }

  function CadenceFrom(e: EveryRow): Option<Cadence> {
    match (e.elapsed, e.tracks)
    case (Some(s), _) => Some(Elapsed(AsU64(s)))
    case (None, Some(n)) => Some(Tracks(AsU32(n)))
    case (None, None) => None
  }

  function KindFrom(t: Tables, id: string, tag: KindTag): Option<RuleKind> {
    match tag
    case TagBaseRotation => if id in t.baseRotation then Some(BaseRotation(t.baseRotation[id])) else None
    case TagDayPart =>
      if id !in t.dayPart then None
      else
        var d := t.dayPart[id];
        Some(DayPart(d.playlist, WallClock(AsU8(d.startHour), AsU8(d.startMinute)), EndFrom(d)))
    case TagAtClock =>
      if id !in t.atClock then None
      else
        var a := t.atClock[id];
        Some(AtClock(a.playlist, AnchorFrom(a), a.mode, if a.expiry.Some? then Some(AsU64(a.expiry.value)) else None))
    case TagEvery =>
      if id !in t.every || CadenceFrom(t.every[id]).None? then None
      else Some(Every(t.every[id].playlist, CadenceFrom(t.every[id]).value))
    case TagLive =>
      if id !in t.live then None
      else Some(Live(t.live[id].dj, WallClock(AsU8(t.live[id].startHour), AsU8(t.live[id].startMinute))))
  }

  predicate DateReads(cell: Option<string>, d: Option<Date>) {
    if cell.None? then d.None? else d.Some? && ReadDate(cell.value) == d
  }

  predicate DateBroken(cell: Option<string>) { cell.Some? && ReadDate(cell.value).None? }

  /** The days of the rows of `id`, each once, in any order. */
  ghost predicate DaysRead(rows: set<(string, string)>, id: string, days: seq<Weekday>) {
    NoRepeat(days) && forall w :: (id, WeekdayText(w)) in rows <==> w in days
  }

  ghost predicate ReadsAs(t: Tables, r: Rule) {
    && r.id in t.rule
    && r.enabled == t.rule[r.id].enabled && r.validity.utc == t.rule[r.id].utc
    && DateReads(t.rule[r.id].dateStart, r.validity.dateStart) && DateReads(t.rule[r.id].dateEnd, r.validity.dateEnd)
    && DaysRead(t.weekday, r.id, r.validity.days)
    && KindFrom(t, r.id, t.rule[r.id].kind) == Some(r.kind)
  }

  /** Every base row read into one rule, in any order. */
  ghost predicate Loads(t: Tables, rules: seq<Rule>) {
    && D.UniqueIds(rules) && D.IdsOf(rules) == t.rule.Keys
    && (forall i :: 0 <= i < |rules| ==> ReadsAs(t, rules[i]))
    && (forall row :: row in t.weekday ==> ParseWeekday(row.1).Some?)
  }

  /** What an error says is in the tables. */
  ghost predicate Faulty(t: Tables, e: LoadError) {
    match e
    case MissingDetail(id) => id in t.rule && KindFrom(t, id, t.rule[id].kind).None?
    case BadDateCell(id, v) =>
      id in t.rule && (t.rule[id].dateStart == Some(v) || t.rule[id].dateEnd == Some(v)) && ReadDate(v).None?
    case BadWeekdayCell(id, v) => (id, v) in t.weekday && ParseWeekday(v).None?
  }

  function DaysIn(m: map<string, seq<Weekday>>, id: string): seq<Weekday> { if id in m then m[id] else [] }

  method GroupDays(rows: set<(string, string)>) returns (r: Result<map<string, seq<Weekday>>, LoadError>)
    ensures r.Ok? ==>
              (forall id :: DaysRead(rows, id, DaysIn(r.value, id))) &&
              (forall row :: row in rows ==> ParseWeekday(row.1).Some?)
    ensures r.Err? ==>
              r.error.BadWeekdayCell? && (r.error.id, r.error.value) in rows && ParseWeekday(r.error.value).None?
  {
    var days: map<string, seq<Weekday>> := map[];
    var todo := rows;
    while todo != {}
      invariant todo <= rows
      invariant forall id :: DaysRead(rows - todo, id, DaysIn(days, id))
      invariant forall row :: row in rows - todo ==> ParseWeekday(row.1).Some?
      decreases todo
    {
      var row :| row in todo;
      match ParseWeekday(row.1) {
        case None => return Err(BadWeekdayCell(row.0, row.1));
        case Some(w) =>
          var more := days[row.0 := DaysIn(days, row.0) + [w]];
          forall id ensures DaysRead(rows - todo + {row}, id, DaysIn(more, id)) {
            DaysReadMore(rows - todo, row, w, id, DaysIn(days, id));
          }
          days := more;
      }
      assert rows - (todo - {row}) == rows - todo + {row};
      todo := todo - {row};
    }
    assert rows - todo == rows;
    r := Ok(days);
  }

  lemma DaysReadMore(rows: set<(string, string)>, row: (string, string), w: Weekday, id: string, days: seq<Weekday>)
    requires row !in rows && ParseWeekday(row.1) == Some(w) && DaysRead(rows, id, days)
    ensures DaysRead(rows + {row}, id, if id == row.0 then days + [w] else days)
  {
    var now := if id == row.0 then days + [w] else days;
    forall v ensures (id, WeekdayText(v)) in rows + {row} <==> v in now {
      WeekdayRoundTrip(v);
      WeekdayRoundTrip(w);
    }
    if id == row.0 {
      assert (id, WeekdayText(w)) == row;
      assert w !in days;
    }
  }

  class Index {
    var tables: Tables

    constructor ()
      ensures tables == EMPTY
    {
      tables := EMPTY;
    }

    /** `replace_grid`: all the rules or, on any refusal, nothing changed. */
    method ReplaceGrid(rules: seq<Rule>) returns (ok: bool)
      requires AllDatesOk(rules)
      modifies this
      ensures ok <==> D.UniqueIds(rules) && AllStorable(rules)
      ensures ok ==> Stores(tables, rules)
      ensures !ok ==> tables == old(tables)
    {
      var tx := EMPTY;
      for i := 0 to |rules|
        invariant D.UniqueIds(rules[..i]) && AllStorable(rules[..i])
        invariant Stores(tx, rules[..i])
        invariant tables == old(tables)
      {
        var r := rules[i];
        if r.id in D.IdsOf(rules[..i]) { Repeats(rules, i); }
        D.Step(rules, i);
        if Unknown(tx, r.id) { UnknownIsInsertable(tx, r); }
        var next := InsertInTx(tx, r);
        if next.None? { return false; }
        StoresOneMore(tx, rules[..i], r);
        OneMoreId(rules[..i], r);
        tx := next.value;
      }
      D.Whole(rules);
      tables := tx;
      ok := true;
    }

    method ReadRule(id: string, days: seq<Weekday>) returns (r: Result<Rule, LoadError>)
      requires id in tables.rule && DaysRead(tables.weekday, id, days)
      ensures r.Ok? ==> r.value.id == id && ReadsAs(tables, r.value)
      ensures r.Err? ==> Faulty(tables, r.error)
    {
      var row := tables.rule[id];
      if DateBroken(row.dateStart) { return Err(BadDateCell(id, row.dateStart.value)); }
      if DateBroken(row.dateEnd) { return Err(BadDateCell(id, row.dateEnd.value)); }
      var from := if row.dateStart.Some? then ReadDate(row.dateStart.value) else None;
      var to := if row.dateEnd.Some? then ReadDate(row.dateEnd.value) else None;
      var kind := KindFrom(tables, id, row.kind);
      if kind.None? { return Err(MissingDetail(id)); }
      r := Ok(Rule(id, row.enabled, Validity(row.utc, days, from, to), kind.value));
    }

    /** `load_grid`: the rows come in any order. */
    method LoadGrid() returns (r: Result<seq<Rule>, LoadError>)
      ensures r.Ok? ==> Loads(tables, r.value)
      ensures r.Err? ==> Faulty(tables, r.error)
    {
      var days := GroupDays(tables.weekday);
      if days.Err? { return Err(days.error); }
      var rules: seq<Rule> := [];
      var todo := tables.rule.Keys;
      while todo != {}
        invariant todo <= tables.rule.Keys
        invariant D.UniqueIds(rules) && D.IdsOf(rules) == tables.rule.Keys - todo
        invariant forall i :: 0 <= i < |rules| ==> ReadsAs(tables, rules[i])
        decreases todo
      {
        var id :| id in todo;
        var rule := ReadRule(id, DaysIn(days.value, id));
        if rule.Err? { return Err(rule.error); }
        D.IdsGrow(rules, rule.value);
        OneMoreId(rules, rule.value);
        rules := rules + [rule.value];
        todo := todo - {id};
      }
      r := Ok(rules);
    }
  }

  // =====================================================================
  // What the index promises
  // =====================================================================

  /** A table either loads or is faulty, never both. */
  lemma LoadsMeansNotFaulty(t: Tables, rules: seq<Rule>, e: LoadError)
    requires Loads(t, rules)
    ensures !Faulty(t, e)
  {
    if e.MissingDetail? || e.BadDateCell? {
      if e.id in t.rule {
        assert e.id in D.IdsOf(rules);
        var i :| 0 <= i < |rules| && rules[i].id == e.id;
        assert ReadsAs(t, rules[i]);
      }
    }
  }

  ghost predicate SameDays(a: seq<Weekday>, b: seq<Weekday>) {
    NoRepeat(a) && NoRepeat(b) && forall w :: w in a <==> w in b
  }

  /** The same rule, but for the order of its days. */
  ghost predicate SameRule(a: Rule, b: Rule) {
    && a == b.(validity := b.validity.(days := a.validity.days))
    && SameDays(a.validity.days, b.validity.days)
  }

  /** The same rules, in another order. */
  ghost predicate SameRules(a: seq<Rule>, b: seq<Rule>) {
    && |a| == |b| && D.UniqueIds(a) && D.UniqueIds(b) && D.IdsOf(a) == D.IdsOf(b)
    && forall i, j :: 0 <= i < |a| && 0 <= j < |b| && a[i].id == b[j].id ==> SameRule(a[i], b[j])
  }

  /** What the types of the source bound: hours and minutes are bytes. */
  predicate Bytes(w: WallClock) { 0 <= w.hour < 256 && 0 <= w.minute < 256 }

  predicate OfBytes(k: RuleKind) {
    match k
    case DayPart(_, w, e) => Bytes(w) && (e.Some? ==> Bytes(e.value))
    case AtClock(_, At(w), _, _) => Bytes(w)
    case AtClock(_, Minute(m), _, _) => 0 <= m < 256
    case Live(_, w) => Bytes(w)
    case _ => true
  }

  lemma CastsUndo(n: U64)
    ensures AsU64(AsI64(n)) == n
    ensures AsI64(n) > 0 <==> 0 < n <= I64_MAX
  {
  }

  /** A detail row reads back into the kind it was written from. */
  lemma DetailReadsBack(t: Tables, id: string, k: RuleKind)
    requires DetailIs(t, id, k) && OfBytes(k)
    ensures KindFrom(t, id, TagOf(k)) == Some(k)
  {
    match k
    case AtClock(_, _, _, expiry) => if expiry.Some? { CastsUndo(expiry.value); }
    case Every(_, Elapsed(s)) => CastsUndo(s);
    case _ =>
  }

  ghost predicate AllOfBytes(rules: seq<Rule>) { forall i :: 0 <= i < |rules| ==> OfBytes(rules[i].kind) }

  lemma HeldReadsBack(t: Tables, r: Rule, back: Rule)
    requires DatesOk(r.validity) && OfBytes(r.kind) && NoRepeat(r.validity.days) && Holds(t, r)
    requires back.id == r.id && ReadsAs(t, back)
    ensures SameRule(back, r)
  {
    DetailReadsBack(t, r.id, r.kind);
    if r.validity.dateStart.Some? { DateRoundTrip(r.validity.dateStart.value); }
    if r.validity.dateEnd.Some? { DateRoundTrip(r.validity.dateEnd.value); }
    assert back.validity == r.validity.(days := back.validity.days);
    forall w ensures w in back.validity.days <==> w in r.validity.days {
      assert (r.id, WeekdayText(w)) in t.weekday <==> w in r.validity.days;
    }
  }

  lemma HeldDetailReads(t: Tables, r: Rule)
    requires DatesOk(r.validity) && OfBytes(r.kind) && Holds(t, r)
    ensures KindFrom(t, r.id, t.rule[r.id].kind).Some?
  {
    DetailReadsBack(t, r.id, r.kind);
  }

  lemma HeldDatesRead(t: Tables, r: Rule)
    requires DatesOk(r.validity) && Holds(t, r)
    ensures !DateBroken(t.rule[r.id].dateStart) && !DateBroken(t.rule[r.id].dateEnd)
  {
    if r.validity.dateStart.Some? { DateRoundTrip(r.validity.dateStart.value); }
    if r.validity.dateEnd.Some? { DateRoundTrip(r.validity.dateEnd.value); }
  }

  /** Stored rules never fail to load. */
  lemma StoredNeverFails(t: Tables, rules: seq<Rule>, e: LoadError)
    requires AllDatesOk(rules) && AllOfBytes(rules) && Stores(t, rules)
    ensures !Faulty(t, e)
  {
    if e.id in D.IdsOf(rules) {
      var i :| 0 <= i < |rules| && rules[i].id == e.id;
      var r := rules[i];
      assert Holds(t, r);
      match e
      case MissingDetail(_) => HeldDetailReads(t, r);
      case BadDateCell(_, _) => HeldDatesRead(t, r);
      case BadWeekdayCell(_, _) =>
    } else {
      assert Unknown(t, e.id);
    }
  }

  lemma StoredIds(t: Tables, rules: seq<Rule>)
    requires AllDatesOk(rules) && Stores(t, rules)
    ensures t.rule.Keys == D.IdsOf(rules)
  {
    forall id ensures id in t.rule <==> id in D.IdsOf(rules) {
      if id in D.IdsOf(rules) {
        var i :| 0 <= i < |rules| && rules[i].id == id;
        assert Holds(t, rules[i]);
      } else {
        assert Unknown(t, id);
      }
    }
  }

  lemma {:induction false} AsManyIds(rules: seq<Rule>)
    requires D.UniqueIds(rules)
    ensures |D.IdsOf(rules)| == |rules|
    decreases |rules|
  {
    if rules == [] {
      assert D.IdsOf(rules) == {};
    } else {
      var n := |rules| - 1;
      var before := rules[..n];
      assert D.UniqueIds(before) by { forall i, j | 0 <= i < j < n ensures before[i].id != before[j].id {} }
      AsManyIds(before);
      assert rules == before + [rules[n]];
      D.IdsGrow(before, rules[n]);
      assert rules[n].id !in D.IdsOf(before);
    }
  }

  /** Loading undoes replacing: the same rules come back, whatever was stored
      before and whatever the order of the rows. */
  lemma LoadUndoesReplace(t: Tables, rules: seq<Rule>, loaded: seq<Rule>)
    requires AllDatesOk(rules) && AllOfBytes(rules) && AllStorable(rules) && D.UniqueIds(rules)
    requires Stores(t, rules) && Loads(t, loaded)
    ensures SameRules(loaded, rules)
  {
    StoredIds(t, rules);
    AsManyIds(rules);
    AsManyIds(loaded);
    forall i, j | 0 <= i < |loaded| && 0 <= j < |rules| && loaded[i].id == rules[j].id
      ensures SameRule(loaded[i], rules[j])
    {
      assert Holds(t, rules[j]) && Storable(rules[j]);
      HeldReadsBack(t, rules[j], loaded[i]);
    }
  }

  // ----- with the grammar ---------------------------------------------

  /** Durations an `i64` column can hold. */
  predicate Fits(k: RuleKind) {
    match k
    case AtClock(_, _, _, Some(s)) => s <= I64_MAX
    case Every(_, Elapsed(s)) => s <= I64_MAX
    case _ => true
  }

  /** The index takes a valid rule exactly when its duration fits. */
  lemma StorableExactly(r: Rule)
    requires Valid(r)
    ensures Storable(r) <==> Fits(r.kind)
    ensures OfBytes(r.kind) && DatesOk(r.validity)
  {
    match r.kind
    case AtClock(_, _, _, expiry) => if expiry.Some? { CastsUndo(expiry.value); }
    case Every(_, Elapsed(s)) => CastsUndo(s);
    case _ =>
  }

  /** So the grammar accepts rules the index refuses: an expiry of 2^63
      seconds. */
  lemma WideDurationsAreRefused()
    ensures var r :=
              Rule("a", true, Validity(false, [], None, None),
              AtClock("p", Minute(0), Soft, Some(0x8000_0000_0000_0000)));
            Valid(r) && Judge(RuleToDoc(r), 1) == Accepted(r) && !Storable(r)
  {
    var r :=
      Rule("a", true, Validity(false, [], None, None), AtClock("p", Minute(0), Soft, Some(0x8000_0000_0000_0000)));
    assert Trim("a") == "a" && Trim("p") == "p";
    RuleRoundTrip(r, 1);
    StorableExactly(r);
  }

  lemma SameRuleIsValid(a: Rule, b: Rule)
    requires SameRule(a, b) && Valid(b)
    ensures Valid(a)
  {
  }

  lemma SameRulesAreWellFormed(a: seq<Rule>, b: seq<Rule>)
    requires SameRules(a, b) && D.AllValid(b) && D.WellFormed(b)
    ensures D.AllValid(a) && D.WellFormed(a)
  {
    forall i | 0 <= i < |a| ensures Valid(a[i]) {
      var j := Partner(a, b, i);
      SameRuleIsValid(a[i], b[j]);
    }
    forall i, j | 0 <= i < j < |a| ensures !(a[i].kind.BaseRotation? && a[j].kind.BaseRotation?) {
      var k := Partner(a, b, i);
      var l := Partner(a, b, j);
      assert k != l;
    }
  }

  lemma Partner(a: seq<Rule>, b: seq<Rule>, i: nat) returns (j: nat)
    requires i < |a| && SameRules(a, b)
    ensures j < |b| && SameRule(a[i], b[j])
  {
    assert a[i].id in D.IdsOf(a);
    j :| 0 <= j < |b| && b[j].id == a[i].id;
  }

  // ----- what else the same rows say ----------------------------------

  /** Two rules of one id are held by the same rows exactly when they are the
      same but for the order of their days. */
  lemma HeldTwice(t: Tables, a: Rule, b: Rule)
    requires DatesOk(a.validity) && OfBytes(a.kind) && NoRepeat(a.validity.days)
    requires DatesOk(b.validity) && OfBytes(b.kind) && NoRepeat(b.validity.days)
    requires a.id == b.id && Holds(t, a)
    ensures Holds(t, b) <==> SameRule(b, a)
  {
    if Holds(t, b) {
      DetailReadsBack(t, a.id, a.kind);
      DetailReadsBack(t, b.id, b.kind);
      SameCells(a.validity.dateStart, b.validity.dateStart);
      SameCells(a.validity.dateEnd, b.validity.dateEnd);
      forall w ensures w in a.validity.days <==> w in b.validity.days {
        assert (a.id, WeekdayText(w)) in t.weekday <==> w in b.validity.days;
      }
      assert b == a.(validity := a.validity.(days := b.validity.days));
    }
  }

  lemma SameCells(d: Option<Date>, e: Option<Date>)
    requires (d.Some? ==> DateOk(d.value)) && (e.Some? ==> DateOk(e.value))
    requires DateCell(d) == DateCell(e)
    ensures d == e
  {
    if d.Some? {
      DateRoundTrip(d.value);
      DateRoundTrip(e.value);
    }
  }

  /** Rules as the grammar gives them. */
  ghost predicate Read(rules: seq<Rule>) {
    D.AllValid(rules) && D.UniqueIds(rules) && AllDatesOk(rules) && AllOfBytes(rules)
  }

  /** Tables that store some rules store others exactly when these are the
      same, in another order. */
  lemma StoredTwice(t: Tables, a: seq<Rule>, b: seq<Rule>)
    requires Read(a) && Read(b) && Stores(t, a)
    ensures Stores(t, b) <==> SameRules(b, a)
  {
    if Stores(t, b) {
      StoredIds(t, a);
      StoredIds(t, b);
      AsManyIds(a);
      AsManyIds(b);
      forall i, j | 0 <= i < |b| && 0 <= j < |a| && b[i].id == a[j].id ensures SameRule(b[i], a[j]) {
        assert Holds(t, a[j]) && Holds(t, b[i]) && Valid(a[j]) && Valid(b[i]);
        HeldTwice(t, a[j], b[i]);
      }
    }
    if SameRules(b, a) {
      forall i | 0 <= i < |b| ensures Holds(t, b[i]) {
        var j := Partner(b, a, i);
        assert Holds(t, a[j]) && Valid(a[j]) && Valid(b[i]);
        HeldTwice(t, a[j], b[i]);
      }
    }
  }

  /** Exporting after an apply: the loaded rules print into a document that
      reads back into them, and they are the applied rules. */
  lemma ExportReparses(doc: GridDoc, t: Tables, loaded: seq<Rule>)
    requires D.Reading(doc).Parsed? && AllDatesOk(D.Reading(doc).rules) && AllStorable(D.Reading(doc).rules)
    requires Stores(t, D.Reading(doc).rules) && Loads(t, loaded)
    ensures SameRules(loaded, D.Reading(doc).rules)
    ensures D.AllValid(loaded) && D.Reading(D.ToDoc(loaded)) == D.Parsed(loaded)
  {
    var rules := D.Reading(doc).rules;
    D.ReadIsValid(doc);
    forall i | 0 <= i < |rules| ensures OfBytes(rules[i].kind) { StorableExactly(rules[i]); }
    LoadUndoesReplace(t, rules, loaded);
    StoredIds(t, rules);
    SameRulesAreWellFormed(loaded, rules);
    D.GridRoundTrip(loaded);
  }
}
