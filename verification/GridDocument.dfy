/** Whole grid documents (src/grid_toml.rs): the step by step conversion of a
    rule, the checks of a set of rules, the strict reader, the diagnosing
    reader, and the printer. */
module GridDocument {
  import opened Base
  import opened Resolver
  import opened GridText
  import opened GridToml

  // =====================================================================
  // One rule, step by step
  // =====================================================================

  method ReadDays(at: Site, days: seq<string>) returns (kept: seq<Weekday>, errs: seq<Diag>)
    ensures (kept, errs) == Days(at, days)
  {
    kept, errs := [], [];
    for i := 0 to |days|
      invariant kept == Days(at, days[..i]).0
      invariant errs == Days(at, days[..i]).1
    {
      Step(days, i);
      match ParseWeekday(days[i]) {
        case Some(w) =>
          if w in kept {
            errs := errs + [Diag(BadWeekday, at.rule, FieldDays, at.ruleId)];
          } else {
            kept := kept + [w];
          }
        case None => errs := errs + [Diag(BadWeekday, at.rule, FieldDays, at.ruleId)];
      }
    }
    Whole(days);
  }

  method FindStray(at: Site, rd: RuleDoc) returns (errs: seq<Diag>)
    ensures errs == StrayProblems(at, rd, SCHEDULING)
  {
    errs := [];
    for i := 0 to |SCHEDULING|
      invariant errs == StrayProblems(at, rd, SCHEDULING[..i])
    {
      Step(SCHEDULING, i);
      var f := SCHEDULING[i];
      if Given(rd, f) && !Takes(rd.kind, f) {
        errs := errs + [Diag(NotAllowed, at.rule, f, at.ruleId)];
      }
    }
    Whole(SCHEDULING);
  }

  /** The checks a rule of any kind goes through. */
  method CheckCommon(at: Site, rd: RuleDoc) returns (days: seq<Weekday>, errs: seq<Diag>)
    requires at.ruleId == Trim(rd.id)
    ensures days == Days(at, rd.days).0
    ensures errs == IdProblems(at, rd) + RefProblems(at, rd) + Days(at, rd.days).1 + DateProblems(at, rd)
                    + StrayProblems(at, rd, SCHEDULING)
  {
    errs := [];
    if at.ruleId == "" { errs := errs + [Diag(MissingField, at.rule, FieldId, at.ruleId)]; }
    if rd.kind.TagLive? {
      if rd.playlist != "" { errs := errs + [Diag(NotAllowed, at.rule, FieldPlaylistRef, at.ruleId)]; }
    } else {
      if Trim(rd.playlist) == "" { errs := errs + [Diag(MissingField, at.rule, FieldPlaylistRef, at.ruleId)]; }
      if rd.dj.Some? { errs := errs + [Diag(NotAllowed, at.rule, FieldDj, at.ruleId)]; }
    }
    assert errs == IdProblems(at, rd) + RefProblems(at, rd);
    ghost var first := errs;
    var more;
    days, more := ReadDays(at, rd.days);
    errs := errs + more;
    var dates := CheckDates(at, rd);
    errs := errs + dates;
    var stray := FindStray(at, rd);
    errs := errs + stray;
  }

  method CheckDates(at: Site, rd: RuleDoc) returns (errs: seq<Diag>)
    ensures errs == DateProblems(at, rd)
  {
    errs := [];
    var from, to := DateField(rd.dateStart), DateField(rd.dateEnd);
    if DateFails(rd.dateStart) { errs := errs + [Diag(BadDate, at.rule, FieldDateStart, at.ruleId)]; }
    if DateFails(rd.dateEnd) { errs := errs + [Diag(BadDate, at.rule, FieldDateEnd, at.ruleId)]; }
    if from.Some? && to.Some? && Before(to.value, from.value) {
      errs := errs + [Diag(DatesReversed, at.rule, FieldDateEnd, at.ruleId)];
    }
  }

  method ReadTime(at: Site, field: Field, cell: Option<string>) returns (time: Option<WallClock>, errs: seq<Diag>)
    ensures time == TimeField(cell) && errs == If(TimeFails(cell), Problem(at, BadTime, field))
  {
    if cell.None? { return None, []; }
    time := ParseClock(cell.value);
    errs := if time.None? then [Diag(BadTime, at.rule, field, at.ruleId)] else [];
  }

  method ReadDayPart(at: Site, rd: RuleDoc) returns (kind: Option<RuleKind>, errs: seq<Diag>)
    ensures (kind, errs) == DayPartKind(at, rd)
  {
    errs := [];
    if rd.start.None? { errs := errs + [Diag(MissingField, at.rule, FieldStart, at.ruleId)]; }
    var start, badStart := ReadTime(at, FieldStart, rd.start);
    errs := errs + badStart;
    var end, badEnd := ReadTime(at, FieldEnd, rd.end);
    errs := errs + badEnd;
    assert errs ==
      If(rd.start.None?, Problem(at, MissingField, FieldStart)) +
      If(TimeFails(rd.start), Problem(at, BadTime, FieldStart))
                   + If(TimeFails(rd.end), Problem(at, BadTime, FieldEnd)) + [];
    if start.Some? && end.Some? && Minutes(end.value, start.value) {
      errs := errs + [Diag(ZeroWindow, at.rule, FieldEnd, at.ruleId)];
    }
    kind := if start.Some? then Some(DayPart(rd.playlist, start.value, end)) else None;
  }

  /** Each field conflicts with the one given before them. */
  function Conflicts(at: Site, fields: seq<Field>): seq<Diag> {
    if fields == [] then [] else Conflicts(at, fields[..|fields| - 1]) + Problem(at, Conflict, fields[|fields| - 1])
  }

  /** The anchors given, in the order they are checked. */
  function GivenAnchors(rd: RuleDoc): seq<Field> {
    (if rd.everyMinutes.Some? then [FieldEveryMinutes] else []) + (if rd.minute.Some? then [FieldMinute] else [])
    + (if rd.at.Some? then [FieldAt] else [])
  }

  lemma ConflictsOfGiven(at: Site, rd: RuleDoc)
    requires |GivenAnchors(rd)| > 1
    ensures Conflicts(at, GivenAnchors(rd)[1..]) == ConflictsAfter(at, rd) != []
  {
    var rest := GivenAnchors(rd)[1..];
    if |rest| == 2 {
      assert rest == [FieldMinute, FieldAt] && rest[..1] == [FieldMinute];
      assert [FieldMinute][..0] == [];
      assert Conflicts(at, [FieldMinute]) == Problem(at, Conflict, FieldMinute);
    } else {
      var f := if rd.everyMinutes.Some? && rd.minute.Some? then FieldMinute else FieldAt;
      assert rest == [f] && rest[..0] == [];
      assert Conflicts(at, rest) == Problem(at, Conflict, f);
    }
  }

  method ReadAnchor(at: Site, rd: RuleDoc) returns (anchor: Option<ClockAnchor>, errs: seq<Diag>)
    ensures (anchor, errs) == Anchor(at, rd)
  {
    var given := GivenAnchors(rd);
    if given == [] { return None, [Diag(MissingField, at.rule, FieldAt, at.ruleId)]; }
    if |given| > 1 {
      errs := [];
      var rest := given[1..];
      for i := 0 to |rest|
        invariant errs == Conflicts(at, rest[..i])
      {
        Step(rest, i);
        errs := errs + [Diag(Conflict, at.rule, rest[i], at.ruleId)];
      }
      Whole(rest);
      ConflictsOfGiven(at, rd);
      return None, errs;
    }
    if rd.everyMinutes.Some? {
      if 1 <= rd.everyMinutes.value < 1440 { return Some(EveryMinutes(rd.everyMinutes.value)), []; }
      return None, [Diag(OutOfRange, at.rule, FieldEveryMinutes, at.ruleId)];
    }
    if rd.minute.Some? {
      if rd.minute.value < 60 { return Some(Minute(rd.minute.value)), []; }
      return None, [Diag(OutOfRange, at.rule, FieldMinute, at.ruleId)];
    }
    match ParseClock(rd.at.value)
    case Some(w) => return Some(At(w)), [];
    case None => return None, [Diag(BadTime, at.rule, FieldAt, at.ruleId)];
  }

  method ReadAtClock(at: Site, rd: RuleDoc) returns (panicked: bool, kind: Option<RuleKind>, errs: seq<Diag>)
    requires rd.kind.TagAtClock?
    ensures panicked <==> Panics(rd)
    ensures !panicked ==> (kind, errs) == AtClockKind(at, rd)
  {
    panicked := false;
    var anchor;
    anchor, errs := ReadAnchor(at, rd);
    var mode := if rd.mode == Some(Hard) then Hard else Soft;
    var expiry := None;
    if rd.expiry.Some? {
      match ParseDuration(rd.expiry.value) {
        case Secs(secs) => expiry := Some(secs);
        case BadDuration => return false, None, errs + [Diag(CodeBadDuration, at.rule, FieldExpiry, at.ruleId)];
        case SplitPanics => return true, None, errs;
      }
    }
    assert errs == errs + [];
    kind := if anchor.Some? then Some(AtClock(rd.playlist, anchor.value, mode, expiry)) else None;
  }

  method ReadEvery(at: Site, rd: RuleDoc) returns (panicked: bool, kind: Option<RuleKind>, errs: seq<Diag>)
    requires rd.kind.TagEvery?
    ensures panicked <==> Panics(rd)
    ensures !panicked ==> (kind, errs) == EveryKind(at, rd)
  {
    match (rd.minTracks, rd.minElapsed)
    case (Some(_), Some(_)) => return false, None, [Diag(Conflict, at.rule, FieldMinElapsed, at.ruleId)];
    case (None, None) => return false, None, [Diag(MissingField, at.rule, FieldMinTracks, at.ruleId)];
    case (Some(n), None) =>
      if n < 1 { return false, None, [Diag(OutOfRange, at.rule, FieldMinTracks, at.ruleId)]; }
      return false, Some(Every(rd.playlist, Tracks(n))), [];
    case (None, Some(d)) =>
      match ParseDuration(d) {
        case Secs(secs) => return false, Some(Every(rd.playlist, Elapsed(secs))), [];
        case BadDuration => return false, None, [Diag(CodeBadDuration, at.rule, FieldMinElapsed, at.ruleId)];
        case SplitPanics => return true, None, [];
      }
  }

  method ReadLive(at: Site, rd: RuleDoc) returns (kind: Option<RuleKind>, errs: seq<Diag>)
    ensures (kind, errs) == LiveKind(at, rd)
  {
    var dj := if rd.dj.Some? then Trim(rd.dj.value) else "";
    errs := [];
    if dj == "" { errs := errs + [Diag(MissingField, at.rule, FieldDj, at.ruleId)]; }
    if rd.start.None? { errs := errs + [Diag(MissingField, at.rule, FieldStart, at.ruleId)]; }
    assert errs ==
      If(dj == "", Problem(at, MissingField, FieldDj)) + If(rd.start.None?, Problem(at, MissingField, FieldStart));
    var start, badStart := ReadTime(at, FieldStart, rd.start);
    errs := errs + badStart;
    kind := if start.Some? && dj != "" then Some(Live(dj, start.value)) else None;
  }

  /** The fields of the rule's own kind. */
  method ReadKind(at: Site, rd: RuleDoc) returns (panicked: bool, kind: Option<RuleKind>, errs: seq<Diag>)
    ensures panicked <==> Panics(rd)
    ensures !panicked ==> (kind, errs) == Kind(at, rd)
  {
    panicked := false;
    match rd.kind {
      case TagBaseRotation => kind, errs := Some(BaseRotation(rd.playlist)), [];
      case TagDayPart => kind, errs := ReadDayPart(at, rd);
      case TagAtClock => panicked, kind, errs := ReadAtClock(at, rd);
      case TagEvery => panicked, kind, errs := ReadEvery(at, rd);
      case TagLive => kind, errs := ReadLive(at, rd);
    }
  }

  method ToRule(rd: RuleDoc, n: nat) returns (v: Verdict)
    ensures v == Judge(rd, n)
  {
    var at := Site(n, Trim(rd.id));
    var days, errs := CheckCommon(at, rd);
    var panicked, kind, more := ReadKind(at, rd);
    if panicked { return Panicked; }
    errs := errs + more;
    if errs != [] { return Rejected(errs); }
    assert kind.Some? by { NoProblemMeansBuilt(rd, n); }
    v := Accepted(Rule(at.ruleId, rd.enabled,
      Validity(rd.utc, days, DateField(rd.dateStart), DateField(rd.dateEnd)), kind.value));
  }

  // =====================================================================
  // A set of rules
  // =====================================================================

  ghost predicate UniqueIds(rules: seq<Rule>) { forall i, j :: 0 <= i < j < |rules| ==> rules[i].id != rules[j].id }

  ghost predicate OneFloor(rules: seq<Rule>) {
    forall i, j :: 0 <= i < j < |rules| ==> !(rules[i].kind.BaseRotation? && rules[j].kind.BaseRotation?)
  }

  /** Distinct ids and at most one base rotation. */
  ghost predicate WellFormed(rules: seq<Rule>) { UniqueIds(rules) && OneFloor(rules) }

  function IdsOf(rules: seq<Rule>): set<string> { set i | 0 <= i < |rules| :: rules[i].id }

  function Duplicates(rules: seq<Rule>, positions: seq<nat>): seq<Diag>
    requires |positions| == |rules|
  {
    if rules == [] then []
    else
      var n := |rules| - 1;
      Duplicates(rules[..n], positions[..n])
      + If(rules[n].id in IdsOf(rules[..n]), [Diag(DuplicateId, positions[n], FieldId, rules[n].id)])
  }

  function Floors(rules: seq<Rule>): (r: seq<nat>)
    ensures forall k :: 0 <= k < |r| ==> r[k] < |rules| && rules[r[k]].kind.BaseRotation?
  {
    if rules == [] then []
    else
      var n := |rules| - 1;
      Floors(rules[..n]) + (if rules[n].kind.BaseRotation? then [n] else [])
  }

  function FloorProblems(rules: seq<Rule>, positions: seq<nat>): seq<Diag>
    requires |positions| == |rules|
  {
    var f := Floors(rules);
    if |f| > 1 then [Diag(SeveralFloors, positions[f[1]], FieldKind, rules[f[1]].id)] else []
  }

  function SetProblems(rules: seq<Rule>, positions: seq<nat>): seq<Diag>
    requires |positions| == |rules|
  {
    Duplicates(rules, positions) + FloorProblems(rules, positions)
  }

  method FindDuplicates(rules: seq<Rule>, positions: seq<nat>) returns (out: seq<Diag>)
    requires |positions| == |rules|
    ensures out == Duplicates(rules, positions)
  {
    out := [];
    var seen: set<string> := {};
    for i := 0 to |rules|
      invariant seen == IdsOf(rules[..i])
      invariant out == Duplicates(rules[..i], positions[..i])
    {
      Step(rules, i);
      Step(positions, i);
      IdsGrow(rules[..i], rules[i]);
      if rules[i].id in seen {
        out := out + [Diag(DuplicateId, positions[i], FieldId, rules[i].id)];
      }
      seen := seen + {rules[i].id};
    }
    Whole(rules);
    Whole(positions);
  }

  method FindFloors(rules: seq<Rule>) returns (floors: seq<nat>)
    ensures floors == Floors(rules)
  {
    floors := [];
    for i := 0 to |rules|
      invariant floors == Floors(rules[..i])
    {
      Step(rules, i);
      if rules[i].kind.BaseRotation? { floors := floors + [i]; }
    }
    Whole(rules);
  }

  method CheckSet(rules: seq<Rule>, positions: seq<nat>) returns (out: seq<Diag>)
    requires |positions| == |rules|
    ensures out == SetProblems(rules, positions)
  {
    out := FindDuplicates(rules, positions);
    var floors := FindFloors(rules);
    if |floors| > 1 {
      out := out + [Diag(SeveralFloors, positions[floors[1]], FieldKind, rules[floors[1]].id)];
    }
  }

  lemma Step<T>(s: seq<T>, i: nat)
    requires i < |s|
    ensures s[..i + 1] == s[..i] + [s[i]] && s[..i + 1][..i] == s[..i]
  {
  }

  lemma Whole<T>(s: seq<T>)
    ensures s[..|s|] == s
  {
  }

  lemma IdsGrow(rules: seq<Rule>, r: Rule)
    ensures IdsOf(rules + [r]) == IdsOf(rules) + {r.id}
  {
    var both := rules + [r];
    forall x | x in IdsOf(rules) + {r.id} ensures x in IdsOf(both) {
      if x == r.id {
        assert both[|rules|].id == x;
      } else {
        var i :| 0 <= i < |rules| && rules[i].id == x;
        assert both[i].id == x;
      }
    }
  }

  lemma {:induction false} NoDuplicates(rules: seq<Rule>, positions: seq<nat>)
    requires |positions| == |rules|
    ensures Duplicates(rules, positions) == [] <==> UniqueIds(rules)
    decreases |rules|
  {
    if rules != [] {
      var n := |rules| - 1;
      var before := rules[..n];
      NoDuplicates(before, positions[..n]);
      if UniqueIds(before) && rules[n].id !in IdsOf(before) {
        forall i, j | 0 <= i < j < |rules| ensures rules[i].id != rules[j].id {
          assert before[i].id in IdsOf(before);
        }
      }
      if UniqueIds(rules) {
        assert UniqueIds(before) by {
          forall i, j | 0 <= i < j < n ensures before[i].id != before[j].id {}
        }
      }
    }
  }

  ghost predicate NoFloor(rules: seq<Rule>) { forall i :: 0 <= i < |rules| ==> !rules[i].kind.BaseRotation? }

  lemma {:induction false} NoFloors(rules: seq<Rule>)
    ensures Floors(rules) == [] <==> NoFloor(rules)
    decreases |rules|
  {
    if rules != [] {
      var n := |rules| - 1;
      NoFloors(rules[..n]);
      assert rules == rules[..n] + [rules[n]];
    }
  }

  lemma {:induction false} FewFloors(rules: seq<Rule>)
    ensures |Floors(rules)| <= 1 <==> OneFloor(rules)
    decreases |rules|
  {
    if rules != [] {
      var n := |rules| - 1;
      var before := rules[..n];
      FewFloors(before);
      NoFloors(before);
      AddFloor(before, rules[n]);
      assert rules == before + [rules[n]];
    }
  }

  lemma AddFloor(before: seq<Rule>, r: Rule)
    ensures OneFloor(before + [r]) <==> OneFloor(before) && (r.kind.BaseRotation? ==> NoFloor(before))
  {
    var both := before + [r];
    assert both[|before|] == r;
    if OneFloor(both) {
      forall i | 0 <= i < |before| ensures !(before[i].kind.BaseRotation? && r.kind.BaseRotation?) {
        assert both[i] == before[i];
      }
      forall i, j | 0 <= i < j < |before| ensures !(before[i].kind.BaseRotation? && before[j].kind.BaseRotation?) {
        assert both[i] == before[i] && both[j] == before[j];
      }
    }
  }

  /** No problem is reported exactly when the ids are distinct and at most one
      rule is a base rotation. */
  lemma SetIsClean(rules: seq<Rule>, positions: seq<nat>)
    requires |positions| == |rules|
    ensures SetProblems(rules, positions) == [] <==> WellFormed(rules)
  {
    NoDuplicates(rules, positions);
    FewFloors(rules);
  }

  // =====================================================================
  // The strict reader: the first problem stops
  // =====================================================================

  datatype Parsed =
    | Parsed(rules: seq<Rule>)
    | WrongVersion(found: U32)
    | BadRule(id: string, first: Option<Diag>)
    | BadSet(problem: Diag)
    | Crashed

  /** The verdict of each rule, numbered from 1. */
  function Verdicts(docs: seq<RuleDoc>): (vs: seq<Verdict>)
    ensures |vs| == |docs|
  {
    Numbered(docs, Judge)
  }

  /** Each element judged with its number, from 1. */
  function Numbered<D, V>(docs: seq<D>, judge: (D, nat) -> V): (vs: seq<V>)
    ensures |vs| == |docs|
  {
    seq(|docs|, i requires 0 <= i < |docs| => judge(docs[i], i + 1))
  }

  lemma NumberedAt<D, V>(docs: seq<D>, judge: (D, nat) -> V, i: nat)
    requires i < |docs|
    ensures Numbered(docs, judge)[i] == judge(docs[i], i + 1)
  {
  }

  ghost predicate AllFine(vs: seq<Verdict>, n: nat)
    requires n <= |vs|
  {
    forall i :: 0 <= i < n ==> vs[i].Accepted?
  }

  function RulesOf(vs: seq<Verdict>, n: nat): (r: seq<Rule>)
    requires n <= |vs| && AllFine(vs, n)
    ensures |r| == n && forall i :: 0 <= i < n ==> r[i] == vs[i].rule
  {
    if n == 0 then [] else RulesOf(vs, n - 1) + [vs[n - 1].rule]
  }

  function Positions(n: nat): (p: seq<nat>)
    ensures |p| == n
  {
    seq(n, i => i + 1)
  }

  /** The first rule not accepted, from `k` on; the number of rules if none. */
  function Fault(vs: seq<Verdict>, k: nat): (f: nat)
    requires k <= |vs|
    ensures k <= f <= |vs|
    ensures f < |vs| ==> !vs[f].Accepted?
    ensures forall i :: k <= i < f ==> vs[i].Accepted?
    decreases |vs| - k
  {
    if k == |vs| || !vs[k].Accepted? then k else Fault(vs, k + 1)
  }

  function First(diags: seq<Diag>): Option<Diag> { if diags == [] then None else Some(diags[0]) }

  function Refused(id: string, v: Verdict): Parsed {
    match v
    case Rejected(diags) => BadRule(id, First(diags))
    case _ => Crashed
  }

  function OfSet(rules: seq<Rule>): Parsed {
    var ds := SetProblems(rules, Positions(|rules|));
    if ds != [] then BadSet(ds[0]) else Parsed(rules)
  }

  function Reading(doc: GridDoc): Parsed {
    if doc.version != 1 then WrongVersion(doc.version)
    else
      var vs := Verdicts(doc.rules);
      var k := Fault(vs, 0);
      if k < |vs| then Refused(doc.rules[k].id, vs[k]) else OfSet(RulesOf(vs, k))
  }

  lemma VerdictAt(docs: seq<RuleDoc>, i: nat)
    requires i < |docs|
    ensures Judge(docs[i], i + 1) == Verdicts(docs)[i]
  {
    NumberedAt(docs, Judge, i);
  }

  method JudgeRule(docs: seq<RuleDoc>, i: nat) returns (v: Verdict)
    requires i < |docs|
    ensures v == Verdicts(docs)[i]
  {
    VerdictAt(docs, i);
    v := ToRule(docs[i], i + 1);
  }

  method ParseGrid(doc: GridDoc) returns (r: Parsed)
    ensures r == Reading(doc)
  {
    if doc.version != 1 { return WrongVersion(doc.version); }
    var rules: seq<Rule> := [];
    ghost var vs := Verdicts(doc.rules);
    for i := 0 to |doc.rules|
      invariant AllFine(vs, i)
      invariant Fault(vs, 0) == Fault(vs, i)
      invariant rules == RulesOf(vs, i)
    {
      var v := JudgeRule(doc.rules, i);
      match v {
        case Accepted(rule) => rules := rules + [rule];
        case Rejected(diags) => return BadRule(doc.rules[i].id, First(diags));
        case Panicked => return Crashed;
      }
    }
    var ds := CheckSet(rules, Positions(|rules|));
    if ds != [] { return BadSet(ds[0]); }
    r := Parsed(rules);
  }

  // =====================================================================
  // The diagnosing reader: every problem, and the rules fine on their own
  // =====================================================================

  datatype Diagnosis = Diagnosis(positions: seq<nat>, rules: seq<Rule>, diags: seq<Diag>) | CrashedToo {

    /** After the verdict of rule `n`. */
    function With(v: Verdict, n: nat): (d: Diagnosis)
      ensures (Diagnosis? ==> |positions| == |rules|) && d.Diagnosis? ==> |d.positions| == |d.rules|
    {
      if CrashedToo? then this
      else
        match v
        case Accepted(r) => Diagnosis(positions + [n], rules + [r], diags)
        case Rejected(more) => Diagnosis(positions, rules, diags + more)
        case Panicked => CrashedToo
    }
  }

  /** The rules kept among the first `n`, with their numbers, and the problems
      of the others. */
  function Gathered(vs: seq<Verdict>, n: nat): (d: Diagnosis)
    requires n <= |vs|
    ensures d.Diagnosis? ==> |d.positions| == |d.rules|
  {
    if n == 0 then Diagnosis([], [], []) else Gathered(vs, n - 1).With(vs[n - 1], n)
  }

  function Diagnosed(doc: GridDoc): Diagnosis {
    if doc.version != 1 then Diagnosis([], [], [Diag(SchemaVersion, 0, FieldVersion, "")])
    else
      var d := Gathered(Verdicts(doc.rules), |doc.rules|);
      if d.CrashedToo? then d else d.(diags := d.diags + SetProblems(d.rules, d.positions))
  }

  method Gather(docs: seq<RuleDoc>) returns (d: Diagnosis)
    ensures d == Gathered(Verdicts(docs), |docs|)
  {
    d := Diagnosis([], [], []);
    ghost var vs := Verdicts(docs);
    for i := 0 to |docs|
      invariant d == Gathered(vs, i)
    {
      var v := JudgeRule(docs, i);
      d := d.With(v, i + 1);
    }
  }

  method DiagnosePartial(doc: GridDoc) returns (d: Diagnosis)
    ensures d == Diagnosed(doc)
  {
    if doc.version != 1 { return Diagnosis([], [], [Diag(SchemaVersion, 0, FieldVersion, "")]); }
    d := Gather(doc.rules);
    if d.Diagnosis? {
      var more := CheckSet(d.rules, d.positions);
      d := d.(diags := d.diags + more);
    }
  }

  lemma {:induction false} GatheredWhenFine(vs: seq<Verdict>, n: nat)
    requires n <= |vs| && forall i :: 0 <= i < |vs| && vs[i].Rejected? ==> vs[i].diags != []
    ensures AllFine(vs, n) ==> Gathered(vs, n) == Diagnosis(Positions(n), RulesOf(vs, n), [])
    ensures Gathered(vs, n).Diagnosis? && Gathered(vs, n).diags == [] ==> AllFine(vs, n)
  {
    if n > 0 {
      GatheredWhenFine(vs, n - 1);
      assert Positions(n) == Positions(n - 1) + [n];
    }
  }

  lemma RejectedForAReason(rd: RuleDoc, n: nat)
    ensures Judge(rd, n).Rejected? ==> Judge(rd, n).diags != []
  {
  }

  lemma RejectedForReasons(docs: seq<RuleDoc>)
    ensures forall i :: 0 <= i < |docs| && Verdicts(docs)[i].Rejected? ==> Verdicts(docs)[i].diags != []
  {
    forall i | 0 <= i < |docs| && Verdicts(docs)[i].Rejected? ensures Verdicts(docs)[i].diags != [] {
      RejectedForAReason(docs[i], i + 1);
    }
  }

  // =====================================================================
  // What the readers promise
  // =====================================================================

  /** The strict reader accepts exactly when every rule is accepted on its own
      and together they are well formed; it then returns them in order. */
  lemma AcceptsExactly(doc: GridDoc)
    ensures var vs := Verdicts(doc.rules);
            Reading(doc).Parsed? <==> doc.version == 1 && AllFine(vs, |vs|) && WellFormed(RulesOf(vs, |vs|))
    ensures var vs := Verdicts(doc.rules);
            Reading(doc).Parsed? ==> Reading(doc).rules == RulesOf(vs, |vs|)
  {
    var vs := Verdicts(doc.rules);
    var k := Fault(vs, 0);
    if k == |vs| { SetIsClean(RulesOf(vs, k), Positions(k)); }
  }

  lemma NothingToReport(vs: seq<Verdict>)
    requires forall i :: 0 <= i < |vs| && vs[i].Rejected? ==> vs[i].diags != []
    ensures var d := Gathered(vs, |vs|);
            (d.Diagnosis? && d.diags + SetProblems(d.rules, d.positions) == [])
            <==> AllFine(vs, |vs|) && WellFormed(RulesOf(vs, |vs|))
    ensures AllFine(vs, |vs|) ==> Gathered(vs, |vs|) == Diagnosis(Positions(|vs|), RulesOf(vs, |vs|), [])
  {
    GatheredWhenFine(vs, |vs|);
    var d := Gathered(vs, |vs|);
    if d.Diagnosis? {
      SetIsClean(d.rules, d.positions);
      BothEmpty(d.diags, SetProblems(d.rules, d.positions));
    }
  }

  lemma BothEmpty(a: seq<Diag>, b: seq<Diag>)
    ensures a + b == [] <==> a == [] && b == []
  {
    assert |a + b| == |a| + |b|;
  }

  /** The two readers agree: one accepts exactly when the other finds nothing,
      and then on the same rules, numbered in order. */
  lemma ReadersAgree(doc: GridDoc)
    ensures Reading(doc).Parsed? <==> Diagnosed(doc).Diagnosis? && Diagnosed(doc).diags == []
    ensures Reading(doc).Parsed? ==>
              Diagnosed(doc).rules == Reading(doc).rules && Diagnosed(doc).positions == Positions(|doc.rules|)
  {
    AcceptsExactly(doc);
    RejectedForReasons(doc.rules);
    NothingToReport(Verdicts(doc.rules));
  }

  ghost predicate AllValid(rules: seq<Rule>) { forall i :: 0 <= i < |rules| ==> Valid(rules[i]) }

  /** What is read is valid, with distinct ids and at most one floor. */
  lemma ReadIsValid(doc: GridDoc)
    ensures Reading(doc).Parsed? ==> AllValid(Reading(doc).rules) && WellFormed(Reading(doc).rules)
  {
    AcceptsExactly(doc);
    VerdictsAreValid(doc.rules);
  }

  lemma VerdictsAreValid(docs: seq<RuleDoc>)
    ensures forall i :: 0 <= i < |docs| && Verdicts(docs)[i].Accepted? ==> Valid(Verdicts(docs)[i].rule)
  {
    forall i | 0 <= i < |docs| && Verdicts(docs)[i].Accepted? ensures Valid(Verdicts(docs)[i].rule) {
      AcceptsOnlyValid(docs[i], i + 1);
    }
  }

  function Docs(rules: seq<Rule>): (d: seq<RuleDoc>)
    requires AllValid(rules)
    ensures |d| == |rules|
  {
    seq(|rules|, i requires 0 <= i < |rules| => RuleToDoc(rules[i]))
  }

  /** The document of a grid. */
  function ToDoc(rules: seq<Rule>): GridDoc
    requires AllValid(rules)
  {
    GridDoc(1, Docs(rules))
  }

  lemma PrintedVerdict(rules: seq<Rule>, i: nat)
    requires AllValid(rules) && i < |rules|
    ensures Verdicts(Docs(rules))[i] == Accepted(rules[i])
  {
    VerdictAt(Docs(rules), i);
    RuleRoundTrip(rules[i], i + 1);
  }

  lemma PrintedVerdicts(rules: seq<Rule>)
    requires AllValid(rules)
    ensures forall i :: 0 <= i < |rules| ==> Verdicts(Docs(rules))[i] == Accepted(rules[i])
  {
    forall i | 0 <= i < |rules| ensures Verdicts(Docs(rules))[i] == Accepted(rules[i]) { PrintedVerdict(rules, i); }
  }

  /** What a printed grid reads into, if anything, is its rules. */
  lemma PrintedRules(rules: seq<Rule>)
    requires AllValid(rules)
    ensures Reading(ToDoc(rules)).Parsed? ==> Reading(ToDoc(rules)).rules == rules
  {
    PrintedVerdicts(rules);
    AcceptsExactly(ToDoc(rules));
    var vs := Verdicts(Docs(rules));
    assert RulesOf(vs, |vs|) == rules;
  }

  /** A printed grid is read back into its rules exactly when it is well
      formed. */
  lemma GridRoundTrip(rules: seq<Rule>)
    requires AllValid(rules)
    ensures Reading(ToDoc(rules)) == Parsed(rules) <==> WellFormed(rules)
  {
    PrintedVerdicts(rules);
    AcceptsExactly(ToDoc(rules));
    var vs := Verdicts(Docs(rules));
    assert RulesOf(vs, |vs|) == rules;
  }

  /** What was read once is a fixed point of printing and reading. */
  lemma ReadPrintRead(doc: GridDoc)
    ensures Reading(doc).Parsed? ==>
              AllValid(Reading(doc).rules) && Reading(ToDoc(Reading(doc).rules)) == Reading(doc)
  {
    ReadIsValid(doc);
    if Reading(doc).Parsed? { GridRoundTrip(Reading(doc).rules); }
  }
}
