/** Grid files and the applied grid (src/grid_files.rs:51-420): which file is
    active, and when the index says what the active file says. */
module GridFiles {
  import opened Base
  import opened Resolver
  import opened GridText
  import opened GridToml
  import D = GridDocument
  import I = GridIndex

  // =====================================================================
  // Names
  // =====================================================================

  const DEFAULT: string := ['g', 'r', 'i', 'd'] + SUFFIX
  const SUFFIX: string := ['.', 't', 'o', 'm', 'l']

  predicate HasSuffix(n: string) { |n| >= 5 && n[|n| - 5..] == SUFFIX }

  predicate Plain(n: string) { n != "" && '/' !in n && '\\' !in n && (0 as char) !in n && n[0] != '.' }

  /** `ete` and `ete.toml` are `ete.toml`; no path, no hidden file. */
  function NormalName(name: string): Option<string> {
    var n := Trim(name);
    if !Plain(n) then None else Some(if HasSuffix(n) then n else n + SUFFIX)
  }

  /** A normal name stays as it is. */
  lemma NormalNamesStay(name: string)
    requires NormalName(name).Some?
    ensures NormalName(NormalName(name).value) == NormalName(name)
    ensures Plain(NormalName(name).value) && HasSuffix(NormalName(name).value)
  {
    var n := Trim(name);
    var full := NormalName(name).value;
    TrimIsTrimmed(name);
    if !HasSuffix(n) {
      assert full[|full| - 5..] == SUFFIX;
      TrimmedWithSuffix(n);
    }
  }

  lemma {:induction false} TrimmedEndsStay(s: string)
    requires s != "" && !IsSpace(s[0]) && !IsSpace(s[|s| - 1])
    ensures Trim(s) == s
  {
  }

  lemma TrimmedWithSuffix(n: string)
    requires n != "" && Trim(n) == n
    ensures Trim(n + SUFFIX) == n + SUFFIX
  {
    TrimmedEnds(n);
    var start := TrimStart(n);
    TrimmedEnds(start);
    assert (n + SUFFIX)[0] == n[0];
    assert (n + SUFFIX)[|n + SUFFIX| - 1] == 'l';
    TrimmedEndsStay(n + SUFFIX);
  }

  // =====================================================================
  // Judging a text
  // =====================================================================

  datatype Judgement = Fine(rules: seq<Rule>) | Faulty(diags: seq<Diag>) | Panics

  /** What the station says of rules: unknown playlists and DJs. */
  type Station = (seq<nat>, seq<Rule>) -> seq<Diag>

  datatype Written = AsAsked | NotWritten | WrittenThenFailed

  /** The calls that fail. `late` is a failure after the index was replaced. */
  datatype Faults = Faults(
    read: bool, judge: bool, write: Written, active: bool, replace: bool, late: bool, remember: bool)

  datatype Problem = FirstOf(diag: Diag) | Unreadable

  datatype Outcome =
    | Applied(count: nat)
    | Saved(applied: bool, created: bool)
    | Stale(revision: string)
    | Refused(diags: seq<Diag>)
    | Missing
    | BadName
    | Failed
    | Crashed

  class Grids {
    /** TOML text to document and back, and the fingerprint of a text. */
    const decode: string -> Option<GridDoc>
    const encode: GridDoc -> string
    const revision: string -> string

    const engine: I.Index
    var files: map<string, string>
    var chosen: Option<string>
    var problem: Option<Problem>

    constructor (decode: string -> Option<GridDoc>, encode: GridDoc -> string, revision: string -> string,
                 engine: I.Index, files: map<string, string>)
      ensures this.decode == decode && this.encode == encode && this.revision == revision && this.engine == engine
      ensures this.files == files && chosen == None && problem == None
    {
      this.decode, this.encode, this.revision, this.engine := decode, encode, revision, engine;
      this.files, chosen, problem := files, None, None;
    }

    function Active(): string
      reads this
    {
      if chosen.Some? then chosen.value else DEFAULT
    }

    /** The rules a text says, if it is a grid. */
    ghost function Says(text: string): Option<seq<Rule>> {
      match decode(text)
      case None => None
      case Some(doc) => if D.Reading(doc).Parsed? then Some(D.Reading(doc).rules) else None
    }

    lemma SaysValidRules(text: string)
      requires Says(text).Some?
      ensures I.Read(Says(text).value)
      ensures I.AllStorable(Says(text).value) <==> Fits(text)
    {
      D.ReadIsValid(decode(text).value);
      forall i | 0 <= i < |Says(text).value|
        ensures I.OfBytes(Says(text).value[i].kind) &&
                  (I.Storable(Says(text).value[i]) <==> I.Fits(Says(text).value[i].kind))
      {
        I.StorableExactly(Says(text).value[i]);
      }
    }

    /** A grid of this station: its playlists and DJs are known. */
    ghost predicate Clean(text: string, station: Station) {
      Says(text).Some? && station(D.Positions(|Says(text).value|), Says(text).value) == []
    }

    /** Its durations fit the index. */
    ghost predicate Fits(text: string) {
      Says(text).Some? && forall i :: 0 <= i < |Says(text).value| ==> I.Fits(Says(text).value[i].kind)
    }

    /** Two texts of the same rules, in any order. */
    ghost predicate SameGrid(text: string, other: string) {
      Says(text).Some? && Says(other).Some? && I.SameRules(Says(text).value, Says(other).value)
    }

    /** The tables hold exactly the rules of `text`. */
    ghost predicate Airs(tables: I.Tables, text: string) {
      Says(text).Some? && (SaysValidRules(text); I.Stores(tables, Says(text).value))
    }

    ghost predicate OnAir(text: string)
      reads engine
    {
      Airs(engine.tables, text)
    }

    /** While one text is on air, so are just the texts of the same rules. */
    lemma OnAirTwice(tables: I.Tables, text: string, other: string)
      requires Airs(tables, text) && Says(other).Some?
      ensures Airs(tables, other) <==> SameGrid(other, text)
    {
      SaysValidRules(text);
      SaysValidRules(other);
      I.StoredTwice(tables, Says(text).value, Says(other).value);
    }

    /** The file `active` says what the tables hold. */
    ghost predicate Agree(files: map<string, string>, active: string, tables: I.Tables) {
      active in files && Airs(tables, files[active])
    }

    /** The active file says what is applied. */
    ghost predicate InSync()
      reads this, engine
    {
      Agree(files, Active(), engine.tables)
    }

    /** A file written over leaves the tables behind exactly when it is the
        active one, does not reach them, and says other rules. */
    lemma AgreeAfterWrite(files: map<string, string>, active: string, before: I.Tables, name: string, text: string,
                          reached: bool, after: I.Tables)
      requires Agree(files, active, before) && Says(text).Some?
      requires if name == active && reached then Airs(after, text) else after == before
      ensures Agree(files[name := text], active, after) <==> name != active || reached || SameGrid(text, files[active])
    {
      if name == active && !reached { OnAirTwice(before, files[active], text); }
    }

    method Judge(text: string, station: Station) returns (j: Judgement)
      ensures j.Fine? <==> Clean(text, station)
      ensures j.Fine? ==> Says(text) == Some(j.rules)
      ensures j.Faulty? ==> j.diags != []
    {
      var doc := decode(text);
      if doc.None? { return Faulty([Diag(Syntax, 0, WholeFile, "")]); }
      var d := D.DiagnosePartial(doc.value);
      D.ReadersAgree(doc.value);
      D.AcceptsExactly(doc.value);
      if d.CrashedToo? { return Panics; }
      var diags := d.diags + station(d.positions, d.rules);
      if diags != [] { return Faulty(diags); }
      D.BothEmpty(d.diags, station(d.positions, d.rules));
      j := Fine(d.rules);
    }

    /** `replace_rules`: the index is rebuilt or left as it was; the engine may
        fail after that. */
    method Replace(text: string, rules: seq<Rule>, f: Faults) returns (ok: bool)
      requires Says(text) == Some(rules)
      modifies engine
      ensures ok <==> !f.replace && !f.late && Fits(text)
      ensures !f.replace && Fits(text) ==> OnAir(text)
      ensures f.replace || !Fits(text) ==> engine.tables == old(engine.tables)
    {
      SaysValidRules(text);
      if f.replace { return false; }
      ok := engine.ReplaceGrid(rules);
      if f.late { ok := false; }
    }

    /** Applying the file `name` gets as far as replacing the index. */
    ghost predicate Replaces(name: string, station: Station, f: Faults)
      reads this
    {
      !f.read && name in files && Clean(files[name], station) && !f.judge && !f.replace && Fits(files[name])
    }

    /** `apply_file`: read, judge, apply. */
    method ApplyFile(name: string, station: Station, f: Faults) returns (r: Outcome)
      modifies engine
      ensures r.Applied? || r.Missing? || r.Refused? || r.Failed? || r.Crashed?
      ensures r.Applied? <==> Replaces(name, station, f) && !f.late
      ensures r.Applied? ==> r.count == |Says(files[name]).value|
      ensures r.Missing? <==> !f.read && name !in files
      ensures r.Refused? ==> r.diags != [] && name in files && !Clean(files[name], station)
      ensures r.Crashed? ==> name in files && !Clean(files[name], station)
      ensures if Replaces(name, station, f) then OnAir(files[name]) else engine.tables == old(engine.tables)
    {
      if f.read { return Failed; }
      if name !in files { return Missing; }
      var j := Judge(files[name], station);
      match j {
        case Panics => return Crashed;
        case Faulty(diags) => return if f.judge then Failed else Refused(diags);
        case Fine(rules) =>
          if f.judge { return Failed; }
          var ok := Replace(files[name], rules, f);
          return if ok then Applied(|rules|) else Failed;
      }
    }

    /** What a refused or failed load leaves to report. */
    function ProblemOf(r: Outcome): Option<Problem> {
      match r
      case Refused(diags) => if diags == [] then None else Some(FirstOf(diags[0]))
      case Failed => Some(Unreadable)
      case _ => None
    }

    function RevisionOf(files: map<string, string>, name: string): string {
      if name in files then revision(files[name]) else ""
    }

    /** A save gets as far as writing the file. */
    ghost predicate Writes(name: string, text: string, expected: string, station: Station, f: Faults)
      reads this
    {
      && NormalName(name).Some? && !f.read && Trim(expected) == RevisionOf(files, NormalName(name).value)
      && Clean(text, station) && !f.judge && f.write != NotWritten
    }

    /** What a save finds before it writes: the rules, or why it stops. */
    method Examine(name: string, text: string, expected: string, station: Station, f: Faults)
      returns (r: Result<seq<Rule>, Outcome>)
      ensures r.Ok? <==> Writes(name, text, expected, station, f)
      ensures r.Ok? ==> Says(text) == Some(r.value)
      ensures r.Err? ==> r.error.Stale? || r.error.Refused? || r.error.BadName? || r.error.Failed? || r.error.Crashed?
      ensures r.Err? && r.error.Stale? ==>
                NormalName(name).Some? &&
                  r.error.revision == RevisionOf(files, NormalName(name).value) != Trim(expected)
      ensures r.Err? && r.error.Refused? ==> r.error.diags != [] && !Clean(text, station)
    {
      var normal := NormalName(name);
      if normal.None? { return Err(BadName); }
      if f.read { return Err(Failed); }
      var current := RevisionOf(files, normal.value);
      if Trim(expected) != current { return Err(Stale(current)); }
      var j := Judge(text, station);
      if j.Panics? { return Err(Crashed); }
      if f.judge { return Err(Failed); }
      if j.Faulty? { return Err(Refused(j.diags)); }
      if f.write == NotWritten { return Err(Failed); }
      r := Ok(j.rules);
    }

    /** After the write the text does not reach the index. */
    ghost predicate StopsShort(text: string, f: Faults) {
      f.write == WrittenThenFailed || f.active || f.replace || !Fits(text)
    }

    /** After the write: the active file is applied. */
    method Apply(name: string, text: string, rules: seq<Rule>, f: Faults) returns (ok: bool)
      requires Says(text) == Some(rules) && f.write != NotWritten
      modifies this`problem, engine
      ensures ok <==> f.write == AsAsked && !f.active && (name == Active() ==> !StopsShort(text, f) && !f.late)
      ensures problem == if ok && name == Active() then None else old(problem)
      ensures if name == Active() && !StopsShort(text, f) then OnAir(text) else engine.tables == old(engine.tables)
    {
      if f.write == WrittenThenFailed || f.active { return false; }
      if name != Active() { return true; }
      ok := Replace(text, rules, f);
      if ok { problem := None; }
    }

    /** The write, and what it leaves on air. */
    method Settle(name: string, text: string, rules: seq<Rule>, f: Faults) returns (ok: bool)
      requires Says(text) == Some(rules) && f.write != NotWritten
      modifies this, engine
      ensures chosen == old(chosen) && files == old(files)[name := text]
      ensures ok <==> f.write == AsAsked && !f.active && (name == Active() ==> !StopsShort(text, f) && !f.late)
      ensures problem == if ok && name == Active() then None else old(problem)
      ensures if name == Active() && !StopsShort(text, f) then OnAir(text) else engine.tables == old(engine.tables)
      ensures old(InSync()) ==>
                (InSync() <==> name != Active() || !StopsShort(text, f) || SameGrid(text, old(files[Active()])))
    {
      ghost var before, tables := files, engine.tables;
      files := files[name := text];
      ok := Apply(name, text, rules, f);
      if Agree(before, Active(), tables) {
        AgreeAfterWrite(before, Active(), tables, name, text, !StopsShort(text, f), engine.tables);
      }
    }

    /** `save`: nothing is written over a text the caller did not see, nor a
        text with problems; the active file is applied. */
    method Save(name: string, text: string, expected: string, station: Station, f: Faults) returns (r: Outcome)
      modifies this, engine
      ensures r.Saved? || r.Stale? || r.Refused? || r.BadName? || r.Failed? || r.Crashed?
      ensures chosen == old(chosen)
      ensures files == if old(Writes(name, text, expected, station, f)) then old(files)[NormalName(name).value := text]
                else old(files)
      ensures r.Saved? <==>
                && old(Writes(name, text, expected, station, f)) && f.write == AsAsked && !f.active
                && (NormalName(name).value == Active() ==> !StopsShort(text, f) && !f.late)
      ensures r.Saved? ==> (r.applied <==> NormalName(name).value == Active())
      ensures r.Saved? ==> (r.created <==> RevisionOf(old(files), NormalName(name).value) == "")
      ensures problem == if r.Saved? && r.applied then None else old(problem)
      ensures r.Stale? ==>
                NormalName(name).Some? && r.revision == RevisionOf(files, NormalName(name).value) != Trim(expected)
      ensures r.Refused? ==> r.diags != [] && !Clean(text, station)
      ensures old(Writes(name, text, expected, station, f)) ==> r.Saved? || r.Failed?
      ensures if old(Writes(name, text, expected, station, f)) && NormalName(name).value == Active() &&
                !StopsShort(text, f)
              then OnAir(text) else engine.tables == old(engine.tables)
      ensures old(InSync()) ==>
                (InSync() <==>
                 || !old(Writes(name, text, expected, station, f)) || NormalName(name).value != Active()
                 || !StopsShort(text, f)
                 || SameGrid(text, old(files[Active()])))
    {
      var rules := Examine(name, text, expected, station, f);
      if rules.Err? { return rules.error; }
      var normal := NormalName(name).value;
      var created := RevisionOf(files, normal) == "";
      var ok := Settle(normal, text, rules.value, f);
      return if ok then Saved(normal == Active(), created) else Failed;
    }

    /** `activate`: applied first, then remembered. */
    method Activate(name: string, station: Station, f: Faults) returns (r: Outcome)
      modifies this, engine
      ensures r.Applied? || r.Missing? || r.Refused? || r.BadName? || r.Failed? || r.Crashed?
      ensures files == old(files)
      ensures r.Applied? <==>
                NormalName(name).Some? && old(Replaces(NormalName(name).value, station, f)) && !f.late && !f.remember
      ensures r.Applied? ==> chosen == NormalName(name) && InSync() && problem == None
      ensures !r.Applied? ==> chosen == old(chosen) && problem == old(problem)
      ensures r.BadName? <==> NormalName(name).None?
      ensures r.Refused? ==>
                NormalName(name).value in files && r.diags != [] && !Clean(files[NormalName(name).value], station)
      ensures NormalName(name).Some? && old(Replaces(NormalName(name).value, station, f)) ==> r.Applied? || r.Failed?
      ensures if NormalName(name).Some? && old(Replaces(NormalName(name).value, station, f))
              then OnAir(files[NormalName(name).value]) else engine.tables == old(engine.tables)
      ensures old(InSync()) ==>
                (InSync() <==>
                 || NormalName(name).None? || !old(Replaces(NormalName(name).value, station, f))
                 || (!f.late && !f.remember)
                 || SameGrid(old(files[Active()]), files[NormalName(name).value]))
    {
      var normal := NormalName(name);
      if normal.None? { return BadName; }
      ghost var aired := if Active() in files then files[Active()] else "";
      r := ApplyFile(normal.value, station, f);
      if Replaces(normal.value, station, f) && Says(aired).Some? {
        OnAirTwice(engine.tables, files[normal.value], aired);
      }
      if !r.Applied? { return; }
      if f.remember { return Failed; }
      chosen, problem := normal, None;
    }

    /** `reload` and the load at start-up: the active file again, its problem
        noted; once the index was replaced the active file is on air, even when
        the engine failed after that. */
    method Reload(station: Station, f: Faults) returns (r: Outcome)
      modifies this`problem, engine
      ensures r.Applied? || r.Missing? || r.Refused? || r.Failed? || r.Crashed?
      ensures r.Applied? <==> !f.active && Replaces(Active(), station, f) && !f.late
      ensures r.Missing? <==> !f.active && !f.read && Active() !in files
      ensures r.Refused? ==> Active() in files && r.diags != [] && !Clean(files[Active()], station)
      ensures !f.active && (r.Applied? || r.Missing?) ==> problem == None
      ensures r.Refused? ==> problem == Some(FirstOf(r.diags[0]))
      ensures !f.active && r.Failed? ==> problem == Some(Unreadable)
      ensures f.active || r.Crashed? ==> problem == old(problem)
      ensures f.active || !Replaces(Active(), station, f) ==> engine.tables == old(engine.tables)
      ensures InSync() <==> old(InSync()) || (!f.active && Replaces(Active(), station, f))
    {
      if f.active { return Failed; }
      r := ApplyFile(Active(), station, f);
      if !r.Crashed? { problem := ProblemOf(r); }
    }

    /** Applying a text gets as far as writing the active file. */
    ghost predicate Takes(text: string, station: Station, f: Faults) {
      Clean(text, station) && !f.judge && !f.active && f.write != NotWritten
    }

    /** `apply`: the grid sent becomes the active file. */
    method ApplyText(text: string, station: Station, f: Faults) returns (r: Outcome)
      modifies this, engine
      ensures r.Applied? || r.Refused? || r.Failed? || r.Crashed?
      ensures chosen == old(chosen)
      ensures files == if Takes(text, station, f) then old(files)[Active() := text] else old(files)
      ensures r.Applied? <==> Takes(text, station, f) && !StopsShort(text, f) && !f.late
      ensures r.Crashed? ==> !Clean(text, station)
      ensures problem == if r.Applied? then None else old(problem)
      ensures r.Refused? ==> r.diags != [] && !Clean(text, station)
      ensures if Takes(text, station, f) && !StopsShort(text, f) then InSync() else engine.tables == old(engine.tables)
      ensures old(InSync()) ==>
                (InSync() <==> !Takes(text, station, f) || !StopsShort(text, f) || SameGrid(text, old(files[Active()])))
    {
      var j := Judge(text, station);
      if j.Panics? { return Crashed; }
      if f.judge || f.active { return Failed; }
      if j.Faulty? { return Refused(j.diags); }
      if f.write == NotWritten { return Failed; }
      var ok := Settle(Active(), text, j.rules, f);
      return if ok then Applied(|j.rules|) else Failed;
    }

    /** The rules of several files, in order. */
    ghost function Together(texts: seq<string>): Option<seq<Rule>> {
      if texts == [] then Some([])
      else
        var n := |texts| - 1;
        match (Together(texts[..n]), Says(texts[n]))
        case (Some(before), Some(last)) => Some(before + last)
        case _ => None
    }

    lemma {:induction false} TogetherIsValid(texts: seq<string>)
      requires Together(texts).Some?
      ensures D.AllValid(Together(texts).value)
      decreases |texts|
    {
      if texts != [] {
        TogetherIsValid(texts[..|texts| - 1]);
        SaysValidRules(texts[|texts| - 1]);
      }
    }

    /** The rules of several files, each fine on its own. */
    method Merge(texts: seq<string>) returns (j: Judgement)
      ensures j.Fine? ==> Together(texts) == Some(j.rules)
      ensures j.Fine? <== Together(texts).Some?
    {
      var rules: seq<Rule> := [];
      for i := 0 to |texts|
        invariant Together(texts[..i]) == Some(rules)
      {
        assert texts[..i + 1][..i] == texts[..i];
        j := Judge(texts[i], (positions, rules) => []);
        if !j.Fine? {
          NotTogether(texts, i + 1);
          return;
        }
        rules := rules + j.rules;
      }
      assert texts[..|texts|] == texts;
      j := Fine(rules);
    }

    lemma {:induction false} NotTogether(texts: seq<string>, n: nat)
      requires n <= |texts| && Together(texts[..n]).None?
      ensures Together(texts).None?
      decreases |texts|
    {
      if n < |texts| {
        assert texts[..|texts| - 1][..n] == texts[..n];
        NotTogether(texts[..|texts| - 1], n);
      } else {
        assert texts[..n] == texts;
      }
    }

    lemma TogetherOne(texts: seq<string>)
      requires |texts| == 1
      ensures Together(texts) == Says(texts[0])
    {
      assert texts[..0] == [];
      assert Together(texts[..0]) == Some([]);
      if Says(texts[0]).Some? { assert [] + Says(texts[0]).value == Says(texts[0]).value; }
    }

    /** One file is taken as it is, several are merged into one text. */
    method TextOf(texts: seq<string>) returns (text: Option<string>, r: Outcome)
      requires forall d :: decode(encode(d)) == Some(d)
      ensures text.Some? ==> Says(text.value) == None || Says(text.value) == Together(texts)
      ensures text.None? ==> |texts| != 1 && Together(texts).None? && (r.Refused? || r.Crashed?)
    {
      if |texts| == 1 {
        TogetherOne(texts);
        return Some(texts[0]), Failed;
      }
      var j := Merge(texts);
      match j {
        case Panics => return None, Crashed;
        case Faulty(diags) => return None, Refused(diags);
        case Fine(rules) =>
          TogetherIsValid(texts);
          PrintedSays(rules);
          return Some(encode(D.ToDoc(rules))), Failed;
      }
    }

    /** `schedule apply`: the files sent become the active file. */
    method ApplyExternal(texts: seq<string>, station: Station, f: Faults) returns (r: Outcome)
      requires forall d :: decode(encode(d)) == Some(d)
      modifies this, engine
      ensures r.Applied? || r.Refused? || r.Failed? || r.Crashed?
      ensures r.Applied? ==> InSync() && chosen == old(chosen) && Says(files[Active()]) == Together(texts)
      ensures r.Applied? ==> Clean(files[Active()], station)
      ensures !r.Applied? && !r.Failed? ==> files == old(files) && engine.tables == old(engine.tables)
    {
      var text, refused := TextOf(texts);
      if text.None? { return refused; }
      r := ApplyText(text.value, station, f);
    }

    lemma PrintedSays(rules: seq<Rule>)
      requires forall d :: decode(encode(d)) == Some(d)
      requires D.AllValid(rules)
      ensures Says(encode(D.ToDoc(rules))).Some? ==> Says(encode(D.ToDoc(rules))) == Some(rules)
    {
      D.PrintedRules(rules);
    }
  }

  // =====================================================================
  // When the active file and the air part
  // =====================================================================

  /** A grid of one floor. */
  function Floor(playlist: string): Rule {
    Rule("floor", true, Validity(false, [], None, None), BaseRotation(playlist))
  }

  lemma FloorIsValid(playlist: string)
    requires playlist == "music" || playlist == "night"
    ensures Valid(Floor(playlist)) && D.AllValid([Floor(playlist)])
  {
    TrimmedEndsStay("floor");
    TrimmedEndsStay(playlist);
  }

  /** Two texts, one for each playlist. */
  function FloorOf(text: string): Option<GridDoc> {
    if text == "music" || text == "night" then FloorIsValid(text); Some(D.ToDoc([Floor(text)])) else None
  }

  const NIGHT: string := ['n', 'i', 'g', 'h', 't'] + SUFFIX

  const TWO_GRIDS: map<string, string> := map[DEFAULT := "music", NIGHT := "night"]

  const KNOWN: Station := (positions, rules) => []

  const NO_FAULT := Faults(false, false, AsAsked, false, false, false, false)

  /** The active grid plays music and is on air; another plays the night. */
  ghost predicate Playing(g: Grids)
    reads g, g.engine
  {
    g.decode == FloorOf && g.revision("music") == "music" && g.files == TWO_GRIDS && g.chosen == None && g.InSync()
  }

  lemma FloorsSay(g: Grids, text: string)
    requires g.decode == FloorOf && (text == "music" || text == "night")
    ensures g.Says(text) == Some([Floor(text)]) && g.Clean(text, KNOWN) && g.Fits(text)
  {
    FloorIsValid(text);
    D.GridRoundTrip([Floor(text)]);
  }

  lemma FloorsDiffer(g: Grids)
    requires g.decode == FloorOf
    ensures !g.SameGrid("music", "night") && !g.SameGrid("night", "music")
  {
    FloorsSay(g, "music");
    FloorsSay(g, "night");
  }

  lemma NightIsAName()
    ensures NormalName("night") == Some(NIGHT)
  {
    TrimmedEndsStay("night");
    assert !HasSuffix("night") by { assert "night"[|"night"| - 1] != SUFFIX[4]; }
  }

  lemma GridIsAName()
    ensures NormalName("grid") == Some(DEFAULT)
  {
    TrimmedEndsStay("grid");
  }

  lemma TwoNames()
    ensures NIGHT != DEFAULT && TWO_GRIDS[NIGHT] == "night" && TWO_GRIDS[DEFAULT] == "music"
  {
    assert NIGHT[0] != DEFAULT[0];
  }

  method Play() returns (g: Grids)
    ensures fresh(g) && fresh(g.engine) && Playing(g)
  {
    var index := new I.Index();
    g := new Grids(FloorOf, d => "", text => text, index, TWO_GRIDS);
    FloorsSay(g, "music");
    var r := g.Reload(KNOWN, NO_FAULT);
  }

  /** An activation applied and not remembered, or failed after the index was
      replaced: the night is on air, the active file plays music. */
  method ActivationLost(g: Grids, late: bool) returns (r: Outcome)
    requires Playing(g)
    modifies g, g.engine
    ensures r.Failed? && g.files == TWO_GRIDS && g.Active() == DEFAULT && g.OnAir("night") && !g.InSync()
  {
    FloorsSay(g, "night");
    FloorsDiffer(g);
    NightIsAName();
    TwoNames();
    r := g.Activate("night", KNOWN, NO_FAULT.(late := late, remember := !late));
  }

  /** A save written and not applied: music is on air, the active file plays
      the night. */
  method SaveLost(g: Grids) returns (r: Outcome)
    requires Playing(g)
    modifies g, g.engine
    ensures r.Failed? && g.files == TWO_GRIDS[DEFAULT := "night"] && g.Active() == DEFAULT && g.OnAir("music") &&
              !g.InSync()
  {
    FloorsSay(g, "night");
    FloorsDiffer(g);
    GridIsAName();
    TrimmedEndsStay("music");
    r := g.Save("grid", "night", "music", KNOWN, NO_FAULT.(replace := true));
  }
}
