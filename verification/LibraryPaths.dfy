/** Where a media belongs (src/library_reorganize.rs:24-61): one folder per
    level of its genre, then its file name. */
module LibraryPaths {
  import opened Base
  import opened GridText

  // =====================================================================
  // Paths
  // =====================================================================

  function Join(parts: seq<string>): string
    requires parts != []
  {
    if |parts| == 1 then parts[0] else parts[0] + ['/'] + Join(parts[1..])
  }

  /** A name of one level: not empty, no separator, neither `.` nor `..`. */
  predicate IsName(p: string) { p != "" && '/' !in p && p != ['.'] && p != ['.', '.'] }

  predicate Kept(p: string) { p != "" && p != ['.'] }

  function Names(pieces: seq<string>): seq<string> {
    if pieces == [] then [] else (if Kept(pieces[0]) then [pieces[0]] else []) + Names(pieces[1..])
  }

  /** The names of a relative path; none for a path that leaves its root or
      starts at `.`. Repeated separators and inner dots are skipped. */
  function Components(s: string): Option<seq<string>> {
    var pieces := Split(s, '/');
    if (s != "" && s[0] == '/') || (pieces != [] && pieces[0] == ['.']) || ['.', '.'] in Names(pieces) then None
    else Some(Names(pieces))
  }

  lemma {:induction false} JoinSplits(parts: seq<string>)
    requires parts != [] && forall i :: 0 <= i < |parts| ==> '/' !in parts[i]
    ensures Split(Join(parts), '/') == parts
    decreases |parts|
  {
    if |parts| == 1 {
      SplitOnceShortens(parts[0], '/');
      assert parts == [parts[0]];
    } else {
      JoinSplits(parts[1..]);
      SplitOnceCuts(parts[0], '/', Join(parts[1..]));
      assert parts == [parts[0]] + parts[1..];
    }
  }

  lemma {:induction false} AllNames(parts: seq<string>)
    requires forall i :: 0 <= i < |parts| ==> IsName(parts[i])
    ensures Names(parts) == parts && ['.', '.'] !in parts
    decreases |parts|
  {
    if parts != [] {
      AllNames(parts[1..]);
      assert parts == [parts[0]] + parts[1..];
    }
  }

  lemma JoinStarts(parts: seq<string>)
    requires parts != [] && parts[0] != ""
    ensures Join(parts) != "" && Join(parts)[0] == parts[0][0]
  {
  }

  /** Names joined into a path are its components. */
  lemma JoinedNames(parts: seq<string>)
    requires parts != [] && forall i :: 0 <= i < |parts| ==> IsName(parts[i])
    ensures Components(Join(parts)) == Some(parts)
  {
    JoinSplits(parts);
    AllNames(parts);
    JoinStarts(parts);
    assert parts[0][0] in parts[0];
  }

  lemma {:induction false} NamesAreNames(pieces: seq<string>)
    requires forall i :: 0 <= i < |pieces| ==> '/' !in pieces[i]
    requires ['.', '.'] !in Names(pieces)
    ensures forall i :: 0 <= i < |Names(pieces)| ==> IsName(Names(pieces)[i]) && Names(pieces)[i] in pieces
    decreases |pieces|
  {
    if pieces != [] {
      assert forall x :: x in Names(pieces[1..]) ==> x in Names(pieces);
      assert Kept(pieces[0]) ==> Names(pieces)[0] == pieces[0];
      NamesAreNames(pieces[1..]);
      assert pieces == [pieces[0]] + pieces[1..];
    }
  }

  lemma ComponentsAreNames(s: string)
    requires Components(s).Some?
    ensures forall i :: 0 <= i < |Components(s).value| ==>
              IsName(Components(s).value[i]) && forall c <- Components(s).value[i] :: c in s
  {
    var pieces := Split(s, '/');
    SplitPieces(s, '/');
    forall i | 0 <= i < |pieces| ensures '/' !in pieces[i] { assert pieces[i] in pieces; }
    NamesAreNames(pieces);
  }

  // =====================================================================
  // Genres
  // =====================================================================

  /** The labels of a genre, cut at each `---`. */
  function Labels(genre: string): (ls: seq<string>)
    ensures ls != []
    decreases |genre|
  {
    if |genre| >= 3 && genre[0] == '-' && genre[1] == '-' && genre[2] == '-' then [""] + Labels(genre[3..])
    else if genre == "" then [""]
    else
      var rest := Labels(genre[1..]);
      [[genre[0]] + rest[0]] + rest[1..]
  }

  function Rejoined(ls: seq<string>): string
    requires ls != []
  {
    if |ls| == 1 then ls[0] else ls[0] + ['-', '-', '-'] + Rejoined(ls[1..])
  }

  /** Nothing of a genre is lost by cutting it. */
  lemma {:induction false} LabelsRejoin(genre: string)
    ensures Rejoined(Labels(genre)) == genre
    decreases |genre|
  {
    if |genre| >= 3 && genre[0] == '-' && genre[1] == '-' && genre[2] == '-' {
      var rest := Labels(genre[3..]);
      LabelsRejoin(genre[3..]);
      RejoinSeparated(rest);
      assert genre == ['-', '-', '-'] + genre[3..];
    } else if genre != "" {
      var rest := Labels(genre[1..]);
      LabelsRejoin(genre[1..]);
      RejoinLonger(genre[0], rest);
      assert genre == [genre[0]] + genre[1..];
    }
  }

  lemma RejoinSeparated(rest: seq<string>)
    requires rest != []
    ensures Rejoined([""] + rest) == ['-', '-', '-'] + Rejoined(rest)
  {
    assert ([""] + rest)[1..] == rest;
  }

  lemma Associates(a: string, b: string, c: string, d: string)
    ensures a + b + c + d == a + (b + c + d)
  {
  }

  lemma RejoinLonger(c: char, rest: seq<string>)
    requires rest != []
    ensures Rejoined([[c] + rest[0]] + rest[1..]) == [c] + Rejoined(rest)
  {
    var longer := [[c] + rest[0]] + rest[1..];
    if |rest| == 1 {
      assert longer == [[c] + rest[0]];
    } else {
      assert longer[1..] == rest[1..];
      Associates([c], rest[0], ['-', '-', '-'], Rejoined(rest[1..]));
    }
  }

  predicate IsControl(c: char) { c as int < 32 || 127 <= c as int < 160 }

  predicate Refused(c: char) {
    IsControl(c) || c == '<' || c == '>' || c == ':' || c == '"' || c == '/' || c == '\\' || c == '|' || c == '?' ||
      c == '*'
  }

  function Sanitized(s: string): (r: string)
    ensures |r| == |s| && forall i :: 0 <= i < |s| ==> r[i] == if Refused(s[i]) then '_' else s[i]
  {
    seq(|s|, i requires 0 <= i < |s| => if Refused(s[i]) then '_' else s[i])
  }

  predicate Trailing(c: char) { c == '.' || c == ' ' }

  function WithoutTail(s: string): (r: string)
    ensures r <= s && (r != "" ==> !Trailing(r[|r| - 1]))
  {
    if s != "" && Trailing(s[|s| - 1]) then WithoutTail(s[..|s| - 1]) else s
  }

  /** The folder of a level, if it has one. */
  function Folder(level: string): Option<string> {
    var l := Trim(level);
    if l == "" || l == ['.'] || l == ['.', '.'] then None
    else
      var clean := WithoutTail(Sanitized(l));
      if clean == "" then None else Some(clean)
  }

  /** A folder name any file system takes. */
  predicate SafeFolder(p: string) { p != "" && (forall c <- p :: !Refused(c)) && !Trailing(p[|p| - 1]) }

  lemma FoldersAreSafe(level: string)
    requires Folder(level).Some?
    ensures SafeFolder(Folder(level).value) && IsName(Folder(level).value)
  {
    var p := Folder(level).value;
    var clean := Sanitized(Trim(level));
    forall c | c in p ensures !Refused(c) {
      var i :| 0 <= i < |p| && p[i] == c;
      assert clean[i] == c;
    }
    assert p != ['.'] && p != ['.', '.'] by { assert !Trailing(p[|p| - 1]); }
  }

  function Folders(labels: seq<string>): Option<seq<string>> {
    if labels == [] then Some([])
    else
      var n := |labels| - 1;
      match (Folders(labels[..n]), Folder(labels[n]))
      case (Some(before), Some(last)) => Some(before + [last])
      case _ => None
  }

  lemma {:induction false} AllFoldersAreSafe(labels: seq<string>)
    requires Folders(labels).Some?
    ensures |Folders(labels).value| == |labels|
    ensures forall i :: 0 <= i < |labels| ==> SafeFolder(Folders(labels).value[i]) && IsName(Folders(labels).value[i])
    decreases |labels|
  {
    if labels != [] {
      AllFoldersAreSafe(labels[..|labels| - 1]);
      FoldersAreSafe(labels[|labels| - 1]);
    }
  }

  // =====================================================================
  // Destinations
  // =====================================================================

  /** The file name of a source path the reorganization accepts. */
  function FileName(rel: string): Option<string> {
    match Components(rel)
    case None => None
    case Some(names) => if '\\' in rel || names == [] then None else Some(names[|names| - 1])
  }

  function Destination(rel: string, genre: string): Option<string> {
    match (FileName(rel), Folders(Labels(genre)))
    case (Some(file), Some(folders)) => Some(Join(folders + [file]))
    case _ => None
  }

  method FindDestination(rel: string, genre: string) returns (to: Option<string>)
    ensures to == Destination(rel, genre)
  {
    var file := FileName(rel);
    if file.None? { return None; }
    var labels := Labels(genre);
    var folders: seq<string> := [];
    for i := 0 to |labels|
      invariant Folders(labels[..i]) == Some(folders)
    {
      assert labels[..i + 1][..i] == labels[..i];
      var clean := Folder(labels[i]);
      if clean.None? {
        NoFolder(labels, i + 1);
        return None;
      }
      folders := folders + [clean.value];
    }
    assert labels[..|labels|] == labels;
    to := Some(Join(folders + [file.value]));
  }

  lemma {:induction false} NoFolder(labels: seq<string>, n: nat)
    requires n <= |labels| && Folders(labels[..n]).None?
    ensures Folders(labels).None?
    decreases |labels|
  {
    if n < |labels| {
      assert labels[..|labels| - 1][..n] == labels[..n];
      NoFolder(labels[..|labels| - 1], n);
    } else {
      assert labels[..n] == labels;
    }
  }

  /** A destination is one safe folder a level, then the name of the source. */
  lemma DestinationIsSafe(rel: string, genre: string) returns (folders: seq<string>)
    requires Destination(rel, genre).Some?
    ensures |folders| == |Labels(genre)| && forall i :: 0 <= i < |folders| ==> SafeFolder(folders[i])
    ensures Components(Destination(rel, genre).value) == Some(folders + [FileName(rel).value])
    ensures '\\' !in Destination(rel, genre).value
  {
    folders := Folders(Labels(genre)).value;
    var file := FileName(rel).value;
    AllFoldersAreSafe(Labels(genre));
    ComponentsAreNames(rel);
    var parts := folders + [file];
    JoinedNames(parts);
    forall i | 0 <= i < |parts| ensures '\\' !in parts[i] {
      if i < |folders| {
        assert SafeFolder(folders[i]);
      } else {
        assert parts[i] == file;
      }
    }
    JoinKeepsOut(parts);
  }

  lemma {:induction false} JoinKeepsOut(parts: seq<string>)
    requires parts != [] && forall i :: 0 <= i < |parts| ==> '\\' !in parts[i]
    ensures '\\' !in Join(parts)
    decreases |parts|
  {
    if |parts| > 1 { JoinKeepsOut(parts[1..]); }
  }

  /** What was moved stays: the destination of a destination is itself. */
  lemma DestinationIsStable(rel: string, genre: string)
    requires Destination(rel, genre).Some?
    ensures Destination(Destination(rel, genre).value, genre) == Destination(rel, genre)
  {
    var folders := DestinationIsSafe(rel, genre);
  }
}
