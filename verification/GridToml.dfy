/** The grid grammar above the TOML text (src/grid_toml.rs): documents into
    rules, with every problem tied to its field, and rules back into
    documents. */
module GridToml {
  import opened Base
  import opened Resolver
  import opened GridText

  // =====================================================================
  // Documents
  // =====================================================================

  datatype KindTag = TagBaseRotation | TagDayPart | TagAtClock | TagEvery | TagLive

  datatype RuleDoc = RuleDoc(
    id: string, enabled: bool, utc: bool, kind: KindTag, playlist: string,
    dj: Option<string>, start: Option<string>, end: Option<string>,
    everyMinutes: Option<U32>, minute: Option<U32>, at: Option<string>, mode: Option<Mode>, expiry: Option<string>,
    minTracks: Option<U32>, minElapsed: Option<string>,
    days: seq<string>, dateStart: Option<string>, dateEnd: Option<string>)

  datatype GridDoc = GridDoc(version: U32, rules: seq<RuleDoc>)

  datatype Code =
    | MissingField | NotAllowed | Conflict | CodeBadDuration | BadTime | BadDate | BadWeekday
    | SchemaVersion | DuplicateId | SeveralFloors | ZeroWindow | DatesReversed | OutOfRange | Syntax

  datatype Field =
    | FieldId | FieldPlaylistRef | FieldDj | FieldStart | FieldEnd | FieldEveryMinutes | FieldMinute | FieldAt
    | FieldMode
    | FieldExpiry | FieldMinTracks | FieldMinElapsed | FieldDays | FieldDateStart | FieldDateEnd | FieldKind
    | FieldVersion | WholeFile

  /** One problem: its code, the rule (from 1) and the field it is on, and the
      rule's id. */
  datatype Diag = Diag(code: Code, rule: nat, field: Field, ruleId: string)

  /** A rule, its problems, or the panic of a duration cut inside a character. */
  datatype Verdict = Accepted(rule: Rule) | Rejected(diags: seq<Diag>) | Panicked

  // =====================================================================
  // Valid rules
  // =====================================================================

  predicate Minutes(w: WallClock, v: WallClock) { w.hour * 60 + w.minute == v.hour * 60 + v.minute }

  predicate Before(d: Date, e: Date) {
    d.year < e.year || (d.year == e.year && (d.month < e.month || (d.month == e.month && d.day < e.day)))
  }

  predicate NoRepeat(days: seq<Weekday>) { forall i, j :: 0 <= i < j < |days| ==> days[i] != days[j] }

  predicate ValidityOk(v: Validity) {
    && NoRepeat(v.days)
    && (v.dateStart.Some? ==> DateOk(v.dateStart.value)) && (v.dateEnd.Some? ==> DateOk(v.dateEnd.value))
    && (v.dateStart.Some? && v.dateEnd.Some? ==> !Before(v.dateEnd.value, v.dateStart.value))
  }

  predicate AnchorOk(a: ClockAnchor) {
    match a
    case EveryMinutes(n) => 1 <= n < 1440
    case Minute(m) => 0 <= m < 60
    case At(w) => ClockOk(w)
  }

  predicate NotBlank(s: string) { Trim(s) != "" }

  predicate Trimmed(s: string) { Trim(s) == s }

  predicate KindOk(k: RuleKind) {
    match k
    case BaseRotation(p) => NotBlank(p)
    case DayPart(p, start, end) =>
      NotBlank(p) && ClockOk(start) && (end.Some? ==> ClockOk(end.value) && !Minutes(start, end.value))
    case AtClock(p, anchor, _, expiry) => NotBlank(p) && AnchorOk(anchor) && (expiry.Some? ==> expiry.value > 0)
    case Every(p, Elapsed(s)) => NotBlank(p) && s > 0
    case Every(p, Tracks(n)) => NotBlank(p) && n > 0
    case Live(dj, opens) => NotBlank(dj) && Trimmed(dj) && ClockOk(opens)
  }

  predicate Valid(r: Rule) { NotBlank(r.id) && Trimmed(r.id) && ValidityOk(r.validity) && KindOk(r.kind) }

  // =====================================================================
  // Documents into rules
  // =====================================================================

  /** Where a problem is, but for its field. */
  datatype Site = Site(rule: nat, ruleId: string)

  function Problem(at: Site, code: Code, field: Field): seq<Diag> { [Diag(code, at.rule, field, at.ruleId)] }

  function If(b: bool, ds: seq<Diag>): seq<Diag> { if b then ds else [] }

  function IdProblems(at: Site, rd: RuleDoc): seq<Diag> { If(Trim(rd.id) == "", Problem(at, MissingField, FieldId)) }

  function RefProblems(at: Site, rd: RuleDoc): seq<Diag> {
    if rd.kind.TagLive? then If(rd.playlist != "", Problem(at, NotAllowed, FieldPlaylistRef))
    else
      If(Trim(rd.playlist) == "", Problem(at, MissingField, FieldPlaylistRef))
      + If(rd.dj.Some?, Problem(at, NotAllowed, FieldDj))
  }

  /** The weekdays accepted, in order, and the problems of the others. */
  function Days(at: Site, days: seq<string>): (seq<Weekday>, seq<Diag>) {
    if days == [] then ([], [])
    else
      var n := |days| - 1;
      var (kept, ds) := Days(at, days[..n]);
      match ParseWeekday(days[n])
      case Some(w) => if w in kept then (kept, ds + Problem(at, BadWeekday, FieldDays)) else (kept + [w], ds)
      case None => (kept, ds + Problem(at, BadWeekday, FieldDays))
  }

  function DateField(s: Option<string>): Option<Date> { if s.None? then None else ParseDate(s.value) }

  predicate DateFails(s: Option<string>) { s.Some? && ParseDate(s.value).None? }

  function TimeField(s: Option<string>): Option<WallClock> { if s.None? then None else ParseClock(s.value) }

  predicate TimeFails(s: Option<string>) { s.Some? && ParseClock(s.value).None? }

  function DateProblems(at: Site, rd: RuleDoc): seq<Diag> {
    var (from, to) := (DateField(rd.dateStart), DateField(rd.dateEnd));
    If(DateFails(rd.dateStart), Problem(at, BadDate, FieldDateStart))
    + If(DateFails(rd.dateEnd), Problem(at, BadDate, FieldDateEnd))
    + If(from.Some? && to.Some? && Before(to.value, from.value), Problem(at, DatesReversed, FieldDateEnd))
  }

  /** The scheduling fields, in the order they are checked. */
  const SCHEDULING: seq<Field> :=
    [FieldStart, FieldEnd, FieldEveryMinutes, FieldMinute, FieldAt, FieldMode, FieldExpiry, FieldMinTracks,
      FieldMinElapsed]

  predicate Given(rd: RuleDoc, f: Field) {
    match f
    case FieldStart => rd.start.Some?
    case FieldEnd => rd.end.Some?
    case FieldEveryMinutes => rd.everyMinutes.Some?
    case FieldMinute => rd.minute.Some?
    case FieldAt => rd.at.Some?
    case FieldMode => rd.mode.Some?
    case FieldExpiry => rd.expiry.Some?
    case FieldMinTracks => rd.minTracks.Some?
    case FieldMinElapsed => rd.minElapsed.Some?
    case _ => false
  }

  predicate Takes(k: KindTag, f: Field) {
    match f
    case FieldStart => k.TagDayPart? || k.TagLive?
    case FieldEnd => k.TagDayPart?
    case FieldEveryMinutes => k.TagAtClock?
    case FieldMinute => k.TagAtClock?
    case FieldAt => k.TagAtClock?
    case FieldMode => k.TagAtClock?
    case FieldExpiry => k.TagAtClock?
    case FieldMinTracks => k.TagEvery?
    case FieldMinElapsed => k.TagEvery?
    case _ => false
  }

  function StrayProblems(at: Site, rd: RuleDoc, fields: seq<Field>): seq<Diag> {
    if fields == [] then []
    else
      var n := |fields| - 1;
      StrayProblems(at, rd, fields[..n]) +
        If(Given(rd, fields[n]) && !Takes(rd.kind, fields[n]), Problem(at, NotAllowed, fields[n]))
  }

  function ConflictsAfter(at: Site, rd: RuleDoc): seq<Diag> {
    if rd.everyMinutes.Some?
    then If(rd.minute.Some?, Problem(at, Conflict, FieldMinute)) + If(rd.at.Some?, Problem(at, Conflict, FieldAt))
    else If(rd.minute.Some? && rd.at.Some?, Problem(at, Conflict, FieldAt))
  }

  /** Exactly one of `every_minutes`, `minute`, `at`. */
  function Anchor(at: Site, rd: RuleDoc): (Option<ClockAnchor>, seq<Diag>) {
    if rd.everyMinutes.None? && rd.minute.None? && rd.at.None? then (None, Problem(at, MissingField, FieldAt))
    else if ConflictsAfter(at, rd) != [] then (None, ConflictsAfter(at, rd))
    else if rd.everyMinutes.Some? then
      if 1 <= rd.everyMinutes.value < 1440 then (Some(EveryMinutes(rd.everyMinutes.value)), [])
      else (None, Problem(at, OutOfRange, FieldEveryMinutes))
    else if rd.minute.Some? then
      if rd.minute.value < 60 then (Some(Minute(rd.minute.value)), []) else (None, Problem(at, OutOfRange, FieldMinute))
    else
      match ParseClock(rd.at.value)
      case Some(w) => (Some(At(w)), [])
      case None => (None, Problem(at, BadTime, FieldAt))
  }

  /** The duration a rule of this kind reads, if any. */
  function ReadsDuration(rd: RuleDoc): Option<string> {
    if rd.kind.TagAtClock? then rd.expiry
    else if rd.kind.TagEvery? && rd.minTracks.None? then rd.minElapsed
    else None
  }

  predicate Panics(rd: RuleDoc) {
    ReadsDuration(rd).Some? && ParseDuration(ReadsDuration(rd).value).SplitPanics?
  }

  function DayPartKind(at: Site, rd: RuleDoc): (Option<RuleKind>, seq<Diag>) {
    var (start, end) := (TimeField(rd.start), TimeField(rd.end));
    (if start.Some? then Some(DayPart(rd.playlist, start.value, end)) else None,
     If(rd.start.None?, Problem(at, MissingField, FieldStart))
     + If(TimeFails(rd.start), Problem(at, BadTime, FieldStart))
     + If(TimeFails(rd.end), Problem(at, BadTime, FieldEnd))
     + If(start.Some? && end.Some? && Minutes(start.value, end.value), Problem(at, ZeroWindow, FieldEnd)))
  }

  function AtClockKind(at: Site, rd: RuleDoc): (Option<RuleKind>, seq<Diag>) {
    var (anchor, ds) := Anchor(at, rd);
    var mode := if rd.mode == Some(Hard) then Hard else Soft;
    var expiry := if rd.expiry.Some? then Some(ParseDuration(rd.expiry.value)) else None;
    var fails := expiry.Some? && !expiry.value.Secs?;
    (if anchor.Some? && !fails
     then Some(AtClock(rd.playlist, anchor.value, mode, if expiry.Some? then Some(expiry.value.secs) else None))
     else None,
     ds + If(fails, Problem(at, CodeBadDuration, FieldExpiry)))
  }

  function EveryKind(at: Site, rd: RuleDoc): (Option<RuleKind>, seq<Diag>) {
    match (rd.minTracks, rd.minElapsed)
    case (Some(_), Some(_)) => (None, Problem(at, Conflict, FieldMinElapsed))
    case (None, None) => (None, Problem(at, MissingField, FieldMinTracks))
    case (Some(n), None) =>
      if n < 1 then (None, Problem(at, OutOfRange, FieldMinTracks)) else (Some(Every(rd.playlist, Tracks(n))), [])
    case (None, Some(d)) =>
      match ParseDuration(d)
      case Secs(s) => (Some(Every(rd.playlist, Elapsed(s))), [])
      case _ => (None, Problem(at, CodeBadDuration, FieldMinElapsed))
  }

  function LiveKind(at: Site, rd: RuleDoc): (Option<RuleKind>, seq<Diag>) {
    var dj := if rd.dj.Some? then Trim(rd.dj.value) else "";
    var start := TimeField(rd.start);
    (if start.Some? && dj != "" then Some(Live(dj, start.value)) else None,
     If(dj == "", Problem(at, MissingField, FieldDj))
     + If(rd.start.None?, Problem(at, MissingField, FieldStart))
     + If(TimeFails(rd.start), Problem(at, BadTime, FieldStart)))
  }

  function Kind(at: Site, rd: RuleDoc): (Option<RuleKind>, seq<Diag>) {
    match rd.kind
    case TagBaseRotation => (Some(BaseRotation(rd.playlist)), [])
    case TagDayPart => DayPartKind(at, rd)
    case TagAtClock => AtClockKind(at, rd)
    case TagEvery => EveryKind(at, rd)
    case TagLive => LiveKind(at, rd)
  }

  function SiteOf(rd: RuleDoc, n: nat): Site { Site(n, Trim(rd.id)) }

  /** Every problem of a rule, in the order they are looked for. */
  function Problems(rd: RuleDoc, n: nat): seq<Diag> {
    var at := SiteOf(rd, n);
    IdProblems(at, rd) + RefProblems(at, rd) + Days(at, rd.days).1 + DateProblems(at, rd)
    + StrayProblems(at, rd, SCHEDULING) + Kind(at, rd).1
  }

  function Built(rd: RuleDoc, n: nat): Rule
    requires Kind(SiteOf(rd, n), rd).0.Some?
  {
    var at := SiteOf(rd, n);
    Rule(Trim(rd.id), rd.enabled,
         Validity(rd.utc, Days(at, rd.days).0, DateField(rd.dateStart), DateField(rd.dateEnd)), Kind(at, rd).0.value)
  }

  /** A rule without problems was built: `expect` never fires. */
  lemma NoProblemMeansBuilt(rd: RuleDoc, n: nat)
    requires Kind(SiteOf(rd, n), rd).1 == []
    ensures Kind(SiteOf(rd, n), rd).0.Some?
  {
  }

  function Judge(rd: RuleDoc, n: nat): Verdict {
    if Panics(rd) then Panicked
    else if Problems(rd, n) != [] then Rejected(Problems(rd, n))
    else
      NoProblemMeansBuilt(rd, n);
      Accepted(Built(rd, n))
  }

  // =====================================================================
  // Rules into documents
  // =====================================================================

  const BLANK :=
    RuleDoc("", true, false, TagBaseRotation, "", None, None, None, None, None, None, None, None, None, None, [], None,
    None)

  function DaysText(days: seq<Weekday>): seq<string> {
    seq(|days|, i requires 0 <= i < |days| => WeekdayText(days[i]))
  }

  function WithAnchor(d: RuleDoc, a: ClockAnchor): RuleDoc
    requires AnchorOk(a)
  {
    match a
    case EveryMinutes(n) => d.(everyMinutes := Some(n))
    case Minute(m) => d.(minute := Some(m))
    case At(w) => d.(at := Some(ClockText(w)))
  }

  function WithKind(d: RuleDoc, k: RuleKind): (r: RuleDoc)
    requires KindOk(k)
    ensures r.id == d.id && r.enabled == d.enabled && r.utc == d.utc && r.days == d.days
    ensures r.dateStart == d.dateStart && r.dateEnd == d.dateEnd
  {
    match k
    case BaseRotation(p) => d.(kind := TagBaseRotation, playlist := p)
    case DayPart(p, start, end) =>
      d.(kind := TagDayPart, playlist := p, start := Some(ClockText(start)),
         end := if end.Some? then Some(ClockText(end.value)) else None)
    case AtClock(p, anchor, mode, expiry) =>
      WithAnchor(
        d.(kind := TagAtClock, playlist := p, mode := Some(mode),
           expiry := if expiry.Some? then Some(DurationText(expiry.value)) else None),
        anchor)
    case Every(p, Tracks(n)) => d.(kind := TagEvery, playlist := p, minTracks := Some(n))
    case Every(p, Elapsed(secs)) => d.(kind := TagEvery, playlist := p, minElapsed := Some(DurationText(secs)))
    case Live(dj, opens) => d.(kind := TagLive, dj := Some(dj), start := Some(ClockText(opens)))
  }

  function WithoutKind(id: string, enabled: bool, v: Validity): RuleDoc
    requires ValidityOk(v)
  {
    BLANK.(id := id, enabled := enabled, utc := v.utc, days := DaysText(v.days),
      dateStart := if v.dateStart.Some? then Some(DateText(v.dateStart.value)) else None,
      dateEnd := if v.dateEnd.Some? then Some(DateText(v.dateEnd.value)) else None)
  }

  /** The document of a rule. */
  function RuleToDoc(r: Rule): RuleDoc
    requires Valid(r)
  {
    WithKind(WithoutKind(r.id, r.enabled, r.validity), r.kind)
  }

  // =====================================================================
  // What the grammar promises
  // =====================================================================

  lemma {:induction false} DaysAreDistinct(at: Site, days: seq<string>)
    ensures NoRepeat(Days(at, days).0)
    decreases |days|
  {
    if days != [] {
      var n := |days| - 1;
      DaysAreDistinct(at, days[..n]);
      var kept := Days(at, days[..n]).0;
      assert forall i :: 0 <= i < |kept| ==> kept[i] in kept;
    }
  }

  lemma {:induction false} DaysRoundTrip(at: Site, days: seq<Weekday>)
    requires NoRepeat(days)
    ensures Days(at, DaysText(days)).0 == days && Days(at, DaysText(days)).1 == []
    decreases |days|
  {
    if days != [] {
      var n := |days| - 1;
      assert NoRepeat(days[..n]);
      DaysRoundTrip(at, days[..n]);
      assert DaysText(days)[..n] == DaysText(days[..n]);
      WeekdayRoundTrip(days[n]);
      assert days == days[..n] + [days[n]];
    }
  }

  lemma DateFieldsAreDates(rd: RuleDoc)
    ensures DateField(rd.dateStart).Some? ==> DateOk(DateField(rd.dateStart).value)
    ensures DateField(rd.dateEnd).Some? ==> DateOk(DateField(rd.dateEnd).value)
  {
    if DateField(rd.dateStart).Some? { ParsedDatesAreDates(rd.dateStart.value); }
    if DateField(rd.dateEnd).Some? { ParsedDatesAreDates(rd.dateEnd.value); }
  }

  lemma AcceptedAtClockIsOk(at: Site, rd: RuleDoc)
    requires AtClockKind(at, rd).0.Some? && NotBlank(rd.playlist)
    ensures KindOk(AtClockKind(at, rd).0.value)
  {
    if rd.expiry.Some? { DurationsArePositive(rd.expiry.value); }
  }

  lemma AcceptedKindIsOk(at: Site, rd: RuleDoc)
    requires RefProblems(at, rd) == [] && Kind(at, rd).1 == [] && Kind(at, rd).0.Some?
    ensures KindOk(Kind(at, rd).0.value)
  {
    match rd.kind
    case TagAtClock => AcceptedAtClockIsOk(at, rd);
    case TagEvery => if rd.minElapsed.Some? && rd.minTracks.None? { DurationsArePositive(rd.minElapsed.value); }
    case TagLive => if rd.dj.Some? { TrimIsTrimmed(rd.dj.value); }
    case _ =>
  }

  lemma NoProblemAtAll(rd: RuleDoc, n: nat)
    ensures var at := SiteOf(rd, n);
            Problems(rd, n) == [] <==>
              && IdProblems(at, rd) == [] && RefProblems(at, rd) == [] && Days(at, rd.days).1 == []
              && DateProblems(at, rd) == [] && StrayProblems(at, rd, SCHEDULING) == [] && Kind(at, rd).1 == []
  {
    var at := SiteOf(rd, n);
    SixEmpty(IdProblems(at, rd), RefProblems(at, rd), Days(at, rd.days).1, DateProblems(at, rd),
      StrayProblems(at, rd, SCHEDULING), Kind(at, rd).1);
  }

  lemma SixEmpty(a: seq<Diag>, b: seq<Diag>, c: seq<Diag>, d: seq<Diag>, e: seq<Diag>, f: seq<Diag>)
    ensures a + b + c + d + e + f == [] <==> a == [] && b == [] && c == [] && d == [] && e == [] && f == []
  {
    assert |a + b + c + d + e + f| == |a| + |b| + |c| + |d| + |e| + |f|;
  }

  lemma DatesInOrder(at: Site, rd: RuleDoc)
    requires DateProblems(at, rd) == []
    ensures var (from, to) := (DateField(rd.dateStart), DateField(rd.dateEnd));
            from.Some? && to.Some? ==> !Before(to.value, from.value)
  {
  }

  lemma BuiltIsValid(rd: RuleDoc, n: nat)
    requires Kind(SiteOf(rd, n), rd).0.Some? && KindOk(Kind(SiteOf(rd, n), rd).0.value)
    requires Trim(rd.id) != "" && DateProblems(SiteOf(rd, n), rd) == []
    ensures Valid(Built(rd, n))
  {
    var at := SiteOf(rd, n);
    DaysAreDistinct(at, rd.days);
    DateFieldsAreDates(rd);
    DatesInOrder(at, rd);
    TrimIsTrimmed(rd.id);
  }

  /** The grammar accepts only into valid rules. */
  lemma AcceptsOnlyValid(rd: RuleDoc, n: nat)
    requires Judge(rd, n).Accepted?
    ensures Valid(Judge(rd, n).rule)
  {
    NoProblemAtAll(rd, n);
    NoProblemMeansBuilt(rd, n);
    AcceptedKindIsOk(SiteOf(rd, n), rd);
    BuiltIsValid(rd, n);
  }

  lemma {:induction false} NoStray(at: Site, rd: RuleDoc, fields: seq<Field>)
    ensures StrayProblems(at, rd, fields) == [] <==> forall f <- fields :: Given(rd, f) ==> Takes(rd.kind, f)
    decreases |fields|
  {
    if fields != [] {
      var n := |fields| - 1;
      assert fields == fields[..n] + [fields[n]];
      NoStray(at, rd, fields[..n]);
    }
  }

  lemma DatesRoundTrip(at: Site, rd: RuleDoc, v: Validity)
    requires ValidityOk(v)
    requires rd.dateStart == (if v.dateStart.Some? then Some(DateText(v.dateStart.value)) else None)
    requires rd.dateEnd == (if v.dateEnd.Some? then Some(DateText(v.dateEnd.value)) else None)
    ensures DateField(rd.dateStart) == v.dateStart && DateField(rd.dateEnd) == v.dateEnd
    ensures DateProblems(at, rd) == []
  {
    if v.dateStart.Some? { DateRoundTrip(v.dateStart.value); }
    if v.dateEnd.Some? { DateRoundTrip(v.dateEnd.value); }
  }

  /** No field of any kind is given. */
  predicate IsBare(d: RuleDoc) {
    && d.playlist == "" && d.dj.None? && d.start.None? && d.end.None? && d.everyMinutes.None? && d.minute.None?
    && d.at.None?
    && d.mode.None? && d.expiry.None? && d.minTracks.None? && d.minElapsed.None?
  }

  /** The document reads as exactly this kind of rule. */
  ghost predicate ReadsAsKind(at: Site, rd: RuleDoc, k: RuleKind) {
    Kind(at, rd).0 == Some(k) && Kind(at, rd).1 == [] && !Panics(rd)
  }

  function ClockCell(w: Option<WallClock>): Option<string>
    requires w.Some? ==> ClockOk(w.value)
  {
    if w.Some? then Some(ClockText(w.value)) else None
  }

  function DurationCell(secs: Option<U64>): Option<string> {
    if secs.Some? then Some(DurationText(secs.value)) else None
  }

  /** No field of another kind is given. */
  predicate OwnFields(rd: RuleDoc) {
    && (rd.start.Some? ==> rd.kind.TagDayPart? || rd.kind.TagLive?) && (rd.end.Some? ==> rd.kind.TagDayPart?)
    && (rd.everyMinutes.Some? || rd.minute.Some? || rd.at.Some? || rd.mode.Some? || rd.expiry.Some? ==>
          rd.kind.TagAtClock?)
    && (rd.minTracks.Some? || rd.minElapsed.Some? ==> rd.kind.TagEvery?)
  }

  /** The fields a kind is written in, and no other. */
  predicate Writes(rd: RuleDoc, k: RuleKind)
    requires KindOk(k)
  {
    && OwnFields(rd) && (if k.Live? then rd.playlist == "" else rd.playlist == k.playlist && rd.dj.None?)
    && match k
       case BaseRotation(_) => rd.kind == TagBaseRotation
       case DayPart(_, start, end) =>
         rd.kind == TagDayPart && rd.start == ClockCell(Some(start)) && rd.end == ClockCell(end)
       case AtClock(_, anchor, mode, expiry) =>
         && rd.kind == TagAtClock && rd.mode == Some(mode) && rd.expiry == DurationCell(expiry)
         && rd.everyMinutes == (if anchor.EveryMinutes? then Some(anchor.n) else None)
         && rd.minute == (if anchor.Minute? then Some(anchor.minute) else None)
         && rd.at == (if anchor.At? then ClockCell(Some(anchor.wall)) else None)
       case Every(_, c) =>
         && rd.kind == TagEvery && rd.minTracks == (if c.Tracks? then Some(c.count) else None)
         && rd.minElapsed == (if c.Elapsed? then DurationCell(Some(c.secs)) else None)
       case Live(dj, opens) => rd.kind == TagLive && rd.dj == Some(dj) && rd.start == ClockCell(Some(opens))
  }

  lemma DayPartWrites(d: RuleDoc, k: RuleKind)
    requires IsBare(d) && KindOk(k) && (k.BaseRotation? || k.DayPart?)
    ensures Writes(WithKind(d, k), k)
  {
  }

  lemma AtClockWrites(d: RuleDoc, k: RuleKind)
    requires IsBare(d) && KindOk(k) && k.AtClock?
    ensures Writes(WithKind(d, k), k)
  {
  }

  lemma EveryWrites(d: RuleDoc, k: RuleKind)
    requires IsBare(d) && KindOk(k) && (k.Every? || k.Live?)
    ensures Writes(WithKind(d, k), k)
  {
  }

  lemma WithKindWrites(d: RuleDoc, k: RuleKind)
    requires IsBare(d) && KindOk(k)
    ensures Writes(WithKind(d, k), k)
  {
    match k
    case BaseRotation(_) => DayPartWrites(d, k);
    case DayPart(_, _, _) => DayPartWrites(d, k);
    case AtClock(_, _, _, _) => AtClockWrites(d, k);
    case Every(_, _) => EveryWrites(d, k);
    case Live(_, _) => EveryWrites(d, k);
  }

  lemma ReadsClock(w: Option<WallClock>)
    requires w.Some? ==> ClockOk(w.value)
    ensures TimeField(ClockCell(w)) == w && !TimeFails(ClockCell(w))
  {
    if w.Some? { ClockRoundTrip(w.value); }
  }

  lemma ReadsDayPart(at: Site, rd: RuleDoc, k: RuleKind)
    requires KindOk(k) && Writes(rd, k) && k.DayPart?
    ensures ReadsAsKind(at, rd, k)
  {
    ReadsClock(Some(k.start));
    ReadsClock(k.end);
  }

  lemma ReadsAnchor(at: Site, rd: RuleDoc, k: RuleKind)
    requires KindOk(k) && Writes(rd, k) && k.AtClock?
    ensures Anchor(at, rd).0 == Some(k.anchor) && Anchor(at, rd).1 == []
  {
    if k.anchor.At? { ClockRoundTrip(k.anchor.wall); }
  }

  lemma ReadsAtClock(at: Site, rd: RuleDoc, k: RuleKind)
    requires KindOk(k) && Writes(rd, k) && k.AtClock?
    ensures ReadsAsKind(at, rd, k)
  {
    ReadsAnchor(at, rd, k);
    if k.expiry.Some? { DurationRoundTrip(k.expiry.value); }
    var built := AtClockKind(at, rd).0.value;
    assert built.expiry == k.expiry && built.anchor == k.anchor && built.playlist == k.playlist;
    assert built.mode == k.mode;
    assert built == k;
  }

  lemma ReadsEvery(at: Site, rd: RuleDoc, k: RuleKind)
    requires KindOk(k) && Writes(rd, k) && k.Every?
    ensures ReadsAsKind(at, rd, k)
  {
    if k.cadence.Elapsed? { DurationRoundTrip(k.cadence.secs); }
  }

  lemma ReadsLive(at: Site, rd: RuleDoc, k: RuleKind)
    requires KindOk(k) && Writes(rd, k) && k.Live?
    ensures ReadsAsKind(at, rd, k)
  {
    ReadsClock(Some(k.opens));
  }

  /** Written fields read back into the kind they came from. */
  lemma WrittenKindReads(at: Site, rd: RuleDoc, k: RuleKind)
    requires KindOk(k) && Writes(rd, k)
    ensures ReadsAsKind(at, rd, k)
  {
    match k
    case BaseRotation(_) =>
    case DayPart(_, _, _) => ReadsDayPart(at, rd, k);
    case AtClock(_, _, _, _) => ReadsAtClock(at, rd, k);
    case Every(_, _) => ReadsEvery(at, rd, k);
    case Live(_, _) => ReadsLive(at, rd, k);
  }

  lemma OwnIsTaken(rd: RuleDoc, f: Field)
    requires OwnFields(rd)
    ensures Given(rd, f) ==> Takes(rd.kind, f)
  {
  }

  lemma WrittenRefs(at: Site, rd: RuleDoc, k: RuleKind)
    requires KindOk(k) && Writes(rd, k)
    ensures RefProblems(at, rd) == []
  {
  }

  lemma NothingStray(at: Site, rd: RuleDoc)
    requires OwnFields(rd)
    ensures StrayProblems(at, rd, SCHEDULING) == []
  {
    forall f ensures Given(rd, f) ==> Takes(rd.kind, f) { OwnIsTaken(rd, f); }
    NoStray(at, rd, SCHEDULING);
  }

  /** Printing a rule and parsing it back gives the same rule. */
  lemma RuleRoundTrip(r: Rule, n: nat)
    requires Valid(r)
    ensures Judge(RuleToDoc(r), n) == Accepted(r)
  {
    var rd, d := RuleToDoc(r), WithoutKind(r.id, r.enabled, r.validity);
    var at := SiteOf(rd, n);
    DaysRoundTrip(at, r.validity.days);
    DatesRoundTrip(at, rd, r.validity);
    WithKindWrites(d, r.kind);
    WrittenKindReads(at, rd, r.kind);
    NothingStray(at, rd);
    WrittenRefs(at, rd, r.kind);
    NoProblemAtAll(rd, n);
  }

  /** Once accepted, a document reprinted is accepted into the same rule. */
  lemma ReprintIsStable(rd: RuleDoc, n: nat, m: nat)
    requires Judge(rd, n).Accepted?
    ensures Valid(Judge(rd, n).rule) && Judge(RuleToDoc(Judge(rd, n).rule), m) == Judge(rd, n)
  {
    AcceptsOnlyValid(rd, n);
    RuleRoundTrip(Judge(rd, n).rule, m);
  }

  lemma AnchorKeepsFields(at: Site, rd: RuleDoc)
    requires Anchor(at, rd).0.Some?
    ensures AnchorOk(Anchor(at, rd).0.value)
    ensures rd.everyMinutes.Some? <==> Anchor(at, rd).0.value.EveryMinutes?
    ensures rd.minute.Some? <==> Anchor(at, rd).0.value.Minute?
    ensures rd.at.Some? <==> Anchor(at, rd).0.value.At?
    ensures rd.everyMinutes.Some? ==> rd.everyMinutes == Some(Anchor(at, rd).0.value.n)
    ensures rd.minute.Some? ==> rd.minute == Some(Anchor(at, rd).0.value.minute)
  {
  }

  predicate SameTime(a: Option<string>, b: Option<string>) { (a.Some? <==> b.Some?) && TimeField(a) == TimeField(b) }

  predicate SameDuration(a: Option<string>, b: Option<string>) {
    (a.Some? <==> b.Some?) && (a.Some? ==> ParseDuration(a.value) == ParseDuration(b.value))
  }

  predicate SameName(a: Option<string>, b: Option<string>) {
    (a.Some? <==> b.Some?) && (a.Some? ==> Trim(a.value) == Trim(b.value))
  }

  /** The same scheduling fields are given and say the same, but for a mode
      that only `b` gives. */
  predicate SameFields(a: RuleDoc, b: RuleDoc) {
    && a.kind == b.kind && a.playlist == b.playlist && SameName(a.dj, b.dj)
    && a.everyMinutes == b.everyMinutes && a.minute == b.minute && a.minTracks == b.minTracks
    && SameTime(a.start, b.start) && SameTime(a.end, b.end) && SameTime(a.at, b.at)
    && SameDuration(a.expiry, b.expiry) && SameDuration(a.minElapsed, b.minElapsed)
    && (a.mode.Some? ==> a.mode == b.mode)
  }

  lemma GivenIsScheduling(rd: RuleDoc, f: Field)
    requires Given(rd, f)
    ensures f in SCHEDULING
  {
    match f
    case FieldStart => assert SCHEDULING[0] == f;
    case FieldEnd => assert SCHEDULING[1] == f;
    case FieldEveryMinutes => assert SCHEDULING[2] == f;
    case FieldMinute => assert SCHEDULING[3] == f;
    case FieldAt => assert SCHEDULING[4] == f;
    case FieldMode => assert SCHEDULING[5] == f;
    case FieldExpiry => assert SCHEDULING[6] == f;
    case FieldMinTracks => assert SCHEDULING[7] == f;
    case FieldMinElapsed => assert SCHEDULING[8] == f;
  }

  lemma TakesWhatIsGiven(at: Site, rd: RuleDoc, f: Field)
    requires StrayProblems(at, rd, SCHEDULING) == []
    ensures Given(rd, f) ==> Takes(rd.kind, f)
  {
    NoStray(at, rd, SCHEDULING);
    if Given(rd, f) { GivenIsScheduling(rd, f); }
  }

  lemma OnlyItsOwnFields(at: Site, rd: RuleDoc)
    requires StrayProblems(at, rd, SCHEDULING) == []
    ensures OwnFields(rd)
  {
    forall f ensures Given(rd, f) ==> Takes(rd.kind, f) { TakesWhatIsGiven(at, rd, f); }
    assert Given(rd, FieldStart) == rd.start.Some? && Given(rd, FieldEnd) == rd.end.Some?;
    assert Given(rd, FieldEveryMinutes) == rd.everyMinutes.Some? && Given(rd, FieldMinute) == rd.minute.Some?;
    assert Given(rd, FieldAt) == rd.at.Some? && Given(rd, FieldMode) == rd.mode.Some?;
    assert Given(rd, FieldExpiry) == rd.expiry.Some? && Given(rd, FieldMinTracks) == rd.minTracks.Some?;
    assert Given(rd, FieldMinElapsed) == rd.minElapsed.Some?;
  }

  lemma AtClockKeepsFields(at: Site, rd: RuleDoc, d: RuleDoc)
    requires OwnFields(rd) && rd.dj.None? && rd.kind.TagAtClock? && AtClockKind(at, rd).0.Some? &&
               KindOk(AtClockKind(at, rd).0.value)
    requires IsBare(d)
    ensures SameFields(rd, WithKind(d, AtClockKind(at, rd).0.value))
  {
    AnchorKeepsFields(at, rd);
    var k := AtClockKind(at, rd).0.value;
    assert rd.mode.Some? ==> rd.mode.value.Soft? || rd.mode.value.Hard?;
    if rd.at.Some? { ClockRoundTrip(k.anchor.wall); }
    if rd.expiry.Some? { DurationRoundTrip(k.expiry.value); }
  }

  lemma EveryKeepsFields(at: Site, rd: RuleDoc, d: RuleDoc)
    requires OwnFields(rd) && rd.dj.None? && rd.kind.TagEvery? && EveryKind(at, rd).0.Some? &&
               KindOk(EveryKind(at, rd).0.value)
    requires IsBare(d)
    ensures SameFields(rd, WithKind(d, EveryKind(at, rd).0.value))
  {
    var k := EveryKind(at, rd).0.value;
    assert k.playlist == rd.playlist;
    if k.cadence.Elapsed? { DurationRoundTrip(k.cadence.secs); }
  }

  lemma DayPartKeepsFields(at: Site, rd: RuleDoc, d: RuleDoc)
    requires OwnFields(rd) && rd.dj.None? && rd.kind.TagDayPart? && DayPartKind(at, rd).0.Some? &&
               KindOk(DayPartKind(at, rd).0.value)
    requires IsBare(d) && DayPartKind(at, rd).1 == []
    ensures SameFields(rd, WithKind(d, DayPartKind(at, rd).0.value))
  {
    var k := DayPartKind(at, rd).0.value;
    ClockRoundTrip(k.start);
    if k.end.Some? { ClockRoundTrip(k.end.value); }
  }

  lemma LiveKeepsFields(at: Site, rd: RuleDoc, d: RuleDoc)
    requires OwnFields(rd) && rd.kind.TagLive? && LiveKind(at, rd).0.Some? && KindOk(LiveKind(at, rd).0.value)
    requires IsBare(d) && rd.playlist == ""
    ensures SameFields(rd, WithKind(d, LiveKind(at, rd).0.value))
  {
    ClockRoundTrip(LiveKind(at, rd).0.value.opens);
    TrimIsTrimmed(rd.dj.value);
  }

  lemma KindKeepsFields(at: Site, rd: RuleDoc, d: RuleDoc)
    requires RefProblems(at, rd) == [] && Kind(at, rd).1 == [] && Kind(at, rd).0.Some? && KindOk(Kind(at, rd).0.value)
    requires OwnFields(rd) && IsBare(d)
    ensures SameFields(rd, WithKind(d, Kind(at, rd).0.value))
  {
    match rd.kind
    case TagBaseRotation =>
    case TagDayPart => DayPartKeepsFields(at, rd, d);
    case TagAtClock => AtClockKeepsFields(at, rd, d);
    case TagEvery => EveryKeepsFields(at, rd, d);
    case TagLive => LiveKeepsFields(at, rd, d);
  }

  lemma KindOfAccepted(rd: RuleDoc, n: nat)
    requires Judge(rd, n).Accepted?
    ensures var at := SiteOf(rd, n);
            && RefProblems(at, rd) == [] && StrayProblems(at, rd, SCHEDULING) == []
            && Kind(at, rd).1 == [] && Kind(at, rd).0.Some? && KindOk(Kind(at, rd).0.value)
            && Kind(at, rd).0.value == Judge(rd, n).rule.kind
  {
    NoProblemAtAll(rd, n);
    NoProblemMeansBuilt(rd, n);
    AcceptedKindIsOk(SiteOf(rd, n), rd);
  }

  /** Nothing in an accepted document is ignored: its rule prints into exactly
      the same scheduling fields, but for a mode left to its default. */
  lemma NothingIsIgnored(rd: RuleDoc, n: nat)
    requires Judge(rd, n).Accepted?
    ensures Valid(Judge(rd, n).rule) && SameFields(rd, RuleToDoc(Judge(rd, n).rule))
  {
    var at := SiteOf(rd, n);
    AcceptsOnlyValid(rd, n);
    var r := Judge(rd, n).rule;
    KindOfAccepted(rd, n);
    OnlyItsOwnFields(at, rd);
    KindKeepsFields(at, rd, WithoutKind(r.id, r.enabled, r.validity));
  }

  /** The grammar panics exactly on a duration it reads whose last character is
      not one byte. */
  lemma PanicsExactlyOnWideUnits(rd: RuleDoc, n: nat)
    ensures Judge(rd, n).Panicked? <==>
              ReadsDuration(rd).Some? && ReadsDuration(rd).value != ""
              && !OneByte(ReadsDuration(rd).value[|ReadsDuration(rd).value| - 1])
  {
  }

  /** Such as an expiry of `5` and an accented letter. */
  lemma WideUnitPanics(n: nat)
    ensures Judge(BLANK.(id := "a", kind := TagAtClock, playlist := "p", minute := Some(0),
              expiry := Some(['5', 0xE9 as char])), n) == Panicked
  {
    var rd :=
      BLANK.(id := "a", kind := TagAtClock, playlist := "p", minute := Some(0), expiry := Some(['5', 0xE9 as char]));
    PanicsExactlyOnWideUnits(rd, n);
  }
}
