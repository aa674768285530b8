/** Moving media to their genre's folders (src/library_reorganize.rs:86-280):
    disk and index in step, a fault possible at each step. */
module LibraryReorganize {
  import opened Base
  import opened GridText
  import opened LibraryPaths

  // =====================================================================
  // Disk and index
  // =====================================================================

  datatype File = File(inode: nat, size: int, mtime: int)

  /** Row of the media table, with the genre its analysis gave. */
  datatype Row = Row(path: string, genre: Option<string>, size: int, mtime: int, available: bool)

  type Files = map<string, File>

  /** The steps that fail: three of them are the recovery. */
  datatype Faults = Faults(
    prepare: bool, inspect: bool, mkdir: bool, link: bool, unlink: bool, commit: bool,
    cleanup: bool, relink: bool, reunlink: bool)

  predicate Recovers(f: Faults) { !f.cleanup && !f.relink && !f.reunlink }

  /** After the link was made, the steps that fail leave something of it. */
  predicate Strands(f: Faults) {
    && !f.prepare && !f.inspect && !f.mkdir && !f.link
    && if f.unlink then f.cleanup else f.commit && (f.relink || f.reunlink)
  }

  predicate Fails(f: Faults) { f.prepare || f.inspect || f.mkdir || f.link || f.unlink || f.commit }

  ghost predicate PathsDistinct(index: seq<Row>) {
    forall i, j :: 0 <= i < j < |index| ==> index[i].path != index[j].path
  }

  predicate IsIndexed(index: seq<Row>, path: string) { exists i :: 0 <= i < |index| && index[i].path == path }

  function FoldersAbove(path: string): set<string> { set i | 0 <= i < |path| && path[i] == '/' :: path[..i] }

  predicate Matches(f: File, size: int, mtime: int) { f.size == size && f.mtime == mtime }

  /** `inspect`: the source is as scanned, no file is in the way, and the
      destination is free. */
  predicate Inspected(files: Files, dirs: set<string>, from: string, to: string, size: int, mtime: int) {
    && from in files && Matches(files[from], size, mtime)
    && (forall p <- FoldersAbove(to) :: p !in files)
    && (from != to ==> to !in files && to !in dirs)
  }

  function Renamed(index: seq<Row>, from: string, to: string): (r: seq<Row>)
    ensures |r| == |index|
  {
    seq(|index|, i requires 0 <= i < |index| => if index[i].path == from then index[i].(path := to) else index[i])
  }

  // =====================================================================
  // One move
  // =====================================================================

  /** Moved: the file is at `to` only. */
  function MovedFile(was: Files, from: string, to: string): Files
    requires from in was
  {
    (was - {from})[to := was[from]]
  }

  /** The three states of a move: not begun, under both names, moved. */
  ghost predicate Midway(was: Files, now: Files, from: string, to: string) {
    || now == was
    || (from in was && to !in was && (now == was[to := was[from]] || now == MovedFile(was, from, to)))
  }

  /** In each of them the file is reachable under one of its two names, and no
      other path is altered. */
  lemma MidwayIsReachable(was: Files, now: Files, from: string, to: string)
    requires Midway(was, now, from, to)
    ensures from in was ==> (from in now && now[from] == was[from]) || (to in now && now[to] == was[from])
    ensures to in was ==> to in now && now[to] == was[to]
    ensures forall p :: p != from && p != to ==> (p in now <==> p in was) && (p in was ==> now[p] == was[p])
  {
  }

  // =====================================================================
  // Where each media should go
  // =====================================================================

  datatype Target = NoGenre | BadGenre | To(path: string)

  function TargetOf(r: Row): Target {
    if r.genre.None? || Trim(r.genre.value) == "" then NoGenre
    else
      match Destination(r.path, r.genre.value)
      case Some(to) => To(to)
      case None => BadGenre
  }

  function Count(targets: seq<Target>, to: string): nat {
    if targets == [] then 0
    else Count(targets[..|targets| - 1], to) + if targets[|targets| - 1] == To(to) then 1 else 0
  }

  /** Another media has the same destination. */
  ghost predicate Shared(targets: seq<Target>, k: nat)
    requires k < |targets|
  {
    exists j :: 0 <= j < |targets| && j != k && targets[j] == targets[k]
  }

  lemma {:induction false} CountFinds(targets: seq<Target>, to: string)
    ensures Count(targets, to) > 0 <==> exists j :: 0 <= j < |targets| && targets[j] == To(to)
    decreases |targets|
  {
    if targets != [] {
      var n := |targets| - 1;
      CountFinds(targets[..n], to);
      if targets[n] == To(to) { assert targets[n] == To(to); }
      if j :| 0 <= j < n && targets[j] == To(to) { assert targets[..n][j] == To(to); }
    }
  }

  lemma {:induction false} CountShares(targets: seq<Target>, k: nat)
    requires k < |targets| && targets[k].To?
    ensures Count(targets, targets[k].path) > 1 <==> Shared(targets, k)
    decreases |targets|
  {
    var n, to := |targets| - 1, targets[k].path;
    var before := targets[..n];
    CountFinds(before, to);
    if k == n {
      if j :| 0 <= j < n && before[j] == To(to) { assert targets[j] == targets[k]; }
      if j :| 0 <= j < |targets| && j != k && targets[j] == targets[k] { assert before[j] == To(to); }
    } else {
      CountShares(before, k);
      assert before[k] == To(to);
      if j :| 0 <= j < n && j != k && before[j] == before[k] { assert targets[j] == targets[k]; }
      if j :| 0 <= j < |targets| && j != k && targets[j] == targets[k] {
        if j < n { assert before[j] == before[k]; }
      }
      if targets[n] == To(to) { assert targets[n] == targets[k]; }
    }
  }

  method CountTargets(targets: seq<Target>) returns (counts: map<string, nat>)
    ensures forall to :: (if to in counts then counts[to] else 0) == Count(targets, to)
  {
    counts := map[];
    for i := 0 to |targets|
      invariant forall to :: (if to in counts then counts[to] else 0) == Count(targets[..i], to)
    {
      assert targets[..i + 1][..i] == targets[..i];
      if targets[i].To? {
        var to := targets[i].path;
        counts := counts[to := (if to in counts then counts[to] else 0) + 1];
      }
    }
    assert targets[..|targets|] == targets;
  }

  predicate MarksShared(marks: seq<bool>, targets: seq<Target>) {
    |marks| == |targets| && forall k :: 0 <= k < |targets| ==>
      marks[k] == (targets[k].To? && Count(targets, targets[k].path) > 1)
  }

  /** All destinations are reserved before anything moves. */
  method MarkShared(targets: seq<Target>) returns (marks: seq<bool>)
    ensures MarksShared(marks, targets)
  {
    var counts := CountTargets(targets);
    marks := seq(|targets|, k requires 0 <= k < |targets| =>
      targets[k].To? && targets[k].path in counts && counts[targets[k].path] > 1);
  }

  /** A media moved to its destination is where it belongs. */
  lemma MovedMediaStay(r: Row)
    requires TargetOf(r).To?
    ensures TargetOf(r.(path := TargetOf(r).path)) == TargetOf(r)
  {
    DestinationIsStable(r.path, r.genre.value);
  }

  // =====================================================================
  // A whole run
  // =====================================================================

  datatype Status = Skipped | Failed | Unchanged | Planned | Moved

  datatype FileResult = FileResult(from: string, to: Option<string>, status: Status)

  /** `where` gives each file of `was` a name of its own in `now`. */
  ghost predicate Placed(was: Files, now: Files, where: map<string, string>) {
    && where.Keys == was.Keys
    && (forall p :: p in was ==> where[p] in now && now[where[p]] == was[p])
    && (forall p, q :: p in was && q in was && where[p] == where[q] ==> p == q)
  }

  ghost predicate IsHome(where: map<string, string>, q: string) { exists p :: p in where && where[p] == q }

  /** And there is no other file: the set of files is conserved. */
  ghost predicate Conserved(was: Files, now: Files, where: map<string, string>) {
    Placed(was, now, where) && forall q :: q in now ==> IsHome(where, q)
  }

  /** A row names its file wherever it went, and nothing but its path changed. */
  ghost predicate RowFollows(was: Files, now: Files, where: map<string, string>, before: Row, after: Row)
    requires where.Keys == was.Keys
  {
    && after == before.(path := after.path)
    && if before.path in was then after.path == where[before.path] else after.path == before.path && after.path !in now
  }

  ghost predicate RowsFollow(was: Files, now: Files, where: map<string, string>, before: seq<Row>, after: seq<Row>)
    requires where.Keys == was.Keys
  {
    |after| == |before| && forall i :: 0 <= i < |before| ==> RowFollows(was, now, where, before[i], after[i])
  }

  function Rehomed(where: map<string, string>, from: string, place: string): (r: map<string, string>)
    ensures r.Keys == where.Keys
  {
    map p | p in where :: if where[p] == from then place else where[p]
  }

  lemma PlacedStays(
    was: Files, now: Files, next: Files, where: map<string, string>, from: string, to: string, place: string)
    requires Placed(was, now, where) && Midway(now, next, from, to)
    requires place == from || (place == to && to !in now)
    requires from in now ==> place in next && next[place] == now[from]
    ensures Placed(was, next, Rehomed(where, from, place))
  {
  }

  lemma ConservedMoves(was: Files, now: Files, where: map<string, string>, from: string, to: string)
    requires Conserved(was, now, where) && from in now && to !in now
    ensures Conserved(was, MovedFile(now, from, to), Rehomed(where, from, to))
  {
    var next, after := MovedFile(now, from, to), Rehomed(where, from, to);
    PlacedStays(was, now, next, where, from, to, to);
    forall q | q in next ensures IsHome(after, q) {
      var source := if q == to then from else q;
      assert IsHome(where, source);
      var p :| p in where && where[p] == source;
      assert after[p] == q;
    }
  }

  lemma RowsMove(
    was: Files, now: Files, where: map<string, string>, before: seq<Row>, index: seq<Row>, from: string, to: string)
    requires Conserved(was, now, where) && RowsFollow(was, now, where, before, index) && PathsDistinct(before)
    requires PathsDistinct(index) && !IsIndexed(index, to) && from in now && to !in now
    ensures RowsFollow(was, MovedFile(now, from, to), Rehomed(where, from, to), before, Renamed(index, from, to))
  {
    var next, after, rows := MovedFile(now, from, to), Rehomed(where, from, to), Renamed(index, from, to);
    forall i | 0 <= i < |before| ensures RowFollows(was, next, after, before[i], rows[i]) {
      assert RowFollows(was, now, where, before[i], index[i]);
      assert index[i].path != to;
    }
  }

  lemma RenamedIsDistinct(index: seq<Row>, from: string, to: string)
    requires PathsDistinct(index) && !IsIndexed(index, to)
    ensures PathsDistinct(Renamed(index, from, to))
  {
    forall i | 0 <= i < |index| ensures index[i].path != to {}
  }

  predicate Agrees(files: Files, r: Row) { r.path in files && Matches(files[r.path], r.size, r.mtime) }

  /** A row that agreed with the disk still does, wherever its file went. */
  lemma FollowersAgree(was: Files, now: Files, where: map<string, string>, before: seq<Row>, after: seq<Row>, i: nat)
    requires Placed(was, now, where) && RowsFollow(was, now, where, before, after) && i < |before|
    requires Agrees(was, before[i])
    ensures Agrees(now, after[i])
  {
    assert RowFollows(was, now, where, before[i], after[i]);
  }

  ghost predicate IsSomewhere(f: File, now: Files) { exists q :: q in now && now[q] == f }

  ghost predicate NothingLost(was: Files, now: Files) { forall p :: p in was ==> IsSomewhere(was[p], now) }

  lemma MidwayLosesNothing(was: Files, now: Files, next: Files, where: map<string, string>, from: string, to: string)
    requires Placed(was, now, where) && Midway(now, next, from, to)
    ensures NothingLost(was, next)
  {
    forall p | p in was ensures IsSomewhere(was[p], next) {
      var q := where[p];
      assert now[q] == was[p];
      assert (q in next && next[q] == was[p]) || (to in next && next[to] == was[p]);
    }
  }

  /** Every state of the disk since the first `n` held every file of `was`. */
  ghost predicate PastKept(was: Files, past: seq<Files>, n: nat) {
    forall x :: n <= x < |past| ==> NothingLost(was, past[x])
  }

  /** Every state since the first `n` was on the way of one move. */
  ghost predicate PastMidway(was: Files, past: seq<Files>, n: nat, from: string, target: Target) {
    forall x :: n <= x < |past| ==> target.To? && Midway(was, past[x], from, target.path)
  }

  lemma PastGrows(was: Files, now: Files, where: map<string, string>, seen: seq<Files>, past: seq<Files>, n: nat,
                  from: string, target: Target)
    requires Placed(was, now, where) && seen <= past
    requires PastKept(was, seen, n) && PastMidway(now, past, |seen|, from, target)
    ensures PastKept(was, past, n)
  {
    forall x | n <= x < |past| ensures NothingLost(was, past[x]) {
      if x < |seen| {
        assert past[x] == seen[x];
      } else {
        MidwayLosesNothing(was, now, past[x], where, from, target.path);
      }
    }
  }

  /** Each available row once, in some order. */
  ghost predicate IsOrder(order: seq<nat>, index: seq<Row>) {
    && (forall k :: 0 <= k < |order| ==> order[k] < |index| && index[order[k]].available)
    && (forall j, k :: 0 <= j < k < |order| ==> order[j] != order[k])
    && (forall i :: 0 <= i < |index| && index[i].available ==> i in order)
  }

  /** The targets of the available rows, in the order of the run. */
  function Targets(order: seq<nat>, index: seq<Row>): (ts: seq<Target>)
    requires forall k :: 0 <= k < |order| ==> order[k] < |index|
    ensures |ts| == |order|
  {
    seq(|order|, k requires 0 <= k < |order| => TargetOf(index[order[k]]))
  }

  /** What a report says of row `k`. */
  ghost predicate ReportOk(result: FileResult, targets: seq<Target>, k: nat, before: Row, after: Row)
    requires k < |targets|
  {
    && after == before.(path := after.path) && result.from == before.path
    && (result.status == Skipped <==> targets[k].NoGenre?)
    && (result.status == Unchanged ==> targets[k] == To(before.path))
    && (result.status == Moved <==> after.path != before.path)
    && (result.status == Moved ==> targets[k] == To(after.path) && result.to == Some(after.path))
    && (result.status == Moved || result.status == Planned ==> !Shared(targets, k))
  }

  lemma RenamesOne(index: seq<Row>, i: nat, to: string)
    requires PathsDistinct(index) && i < |index|
    ensures Renamed(index, index[i].path, to) == index[i := index[i].(path := to)]
  {
  }

  /** What one step of a run does to the disk and the index. */
  ghost predicate Took(now: Files, next: Files, table: seq<Row>, index: seq<Row>, r: Row, target: Target, shared: bool,
                       recovers: bool, result: FileResult, place: string) {
    && result.from == r.path && result.to == (if target.To? then Some(target.path) else None)
    && (result.status == Skipped <==> target.NoGenre?)
    && (result.status == Unchanged ==> target == To(r.path))
    && (result.status == Moved || result.status == Planned ==>
          target.To? && target.path != r.path && !shared && !IsIndexed(table, target.path))
    && (if result.status == Moved
        then r.path in now && target.path !in now && place == target.path
             && next == MovedFile(now, r.path, place) && index == Renamed(table, r.path, place)
        else index == table && (recovers ==> next == now && place == r.path))
    && (if target.To? then Midway(now, next, r.path, target.path) else next == now)
    && (place == r.path || (target == To(place) && place !in now))
    && (r.path in now ==> place in next && next[place] == now[r.path])
  }

  /** The disk after some steps: nothing lost and, when recovery works, every
      row with its file. */
  ghost predicate DiskKept(
    was: Files, now: Files, where: map<string, string>, good: bool, rows: seq<Row>, index: seq<Row>)
  {
    && Placed(was, now, where)
    && (good ==> Conserved(was, now, where) && RowsFollow(was, now, where, rows, index))
  }

  lemma RehomedInPlace(where: map<string, string>, from: string)
    ensures Rehomed(where, from, from) == where
  {
  }

  lemma StepFollows(was: Files, now: Files, next: Files, where: map<string, string>, rows: seq<Row>, table: seq<Row>,
                    index: seq<Row>, r: Row, target: Target, shared: bool, result: FileResult, place: string)
    requires Conserved(was, now, where) && RowsFollow(was, now, where, rows, table)
    requires PathsDistinct(rows) && PathsDistinct(table)
    requires Took(now, next, table, index, r, target, shared, true, result, place)
    ensures Conserved(was, next, Rehomed(where, r.path, place))
    ensures RowsFollow(was, next, Rehomed(where, r.path, place), rows, index)
  {
    if result.status == Moved {
      ConservedMoves(was, now, where, r.path, place);
      RowsMove(was, now, where, rows, table, r.path, place);
    } else {
      RehomedInPlace(where, r.path);
    }
  }

  lemma StepKeepsDisk(was: Files, now: Files, next: Files, where: map<string, string>, good: bool, rows: seq<Row>,
                      table: seq<Row>, index: seq<Row>, r: Row, target: Target, shared: bool, recovers: bool,
                      result: FileResult, place: string)
    requires DiskKept(was, now, where, good, rows, table) && PathsDistinct(rows) && PathsDistinct(table)
    requires good ==> recovers
    requires Took(now, next, table, index, r, target, shared, recovers, result, place)
    ensures DiskKept(was, next, Rehomed(where, r.path, place), good, rows, index)
  {
    if good {
      StepFollows(was, now, next, where, rows, table, index, r, target, shared, result, place);
    } else {
      PlacedStays(was, now, next, where, r.path, if target.To? then target.path else r.path, place);
    }
  }

  /** The index and the report after `k` steps. */
  ghost predicate Reported(
    rows: seq<Row>, order: seq<nat>, targets: seq<Target>, k: nat, index: seq<Row>, report: seq<FileResult>)
    requires IsOrder(order, rows) && |targets| == |order|
  {
    && PathsDistinct(index) && |index| == |rows| && |report| == k <= |order|
    && (forall j :: k <= j < |order| ==> index[order[j]] == rows[order[j]])
    && (forall i :: 0 <= i < |rows| && !rows[i].available ==> index[i] == rows[i])
    && (forall j :: 0 <= j < k ==> ReportOk(report[j], targets, j, rows[order[j]], index[order[j]]))
  }

  lemma StepReports(
    rows: seq<Row>, order: seq<nat>, targets: seq<Target>, k: nat, now: Files, next: Files, table: seq<Row>,
    index: seq<Row>, report: seq<FileResult>, shared: bool, recovers: bool, result: FileResult,
    place: string)
    requires IsOrder(order, rows) && |targets| == |order| && k < |order| &&
               Reported(rows, order, targets, k, table, report)
    requires Took(now, next, table, index, rows[order[k]], targets[k], shared, recovers, result, place)
    requires targets[k].To? ==> (shared <==> Shared(targets, k))
    ensures Reported(rows, order, targets, k + 1, index, report + [result])
  {
    var i := order[k];
    assert rows[i].available;
    if result.status == Moved {
      RenamesOne(table, i, place);
      RenamedIsDistinct(table, rows[i].path, place);
    }
    forall j | 0 <= j < k ensures ReportOk(report[j], targets, j, rows[order[j]], index[order[j]]) {
      assert order[j] != i;
    }
  }

  function InPlace(files: Files): map<string, string> { map p | p in files :: p }

  lemma RunStarts(was: Files, good: bool, rows: seq<Row>, order: seq<nat>, targets: seq<Target>)
    requires PathsDistinct(rows) && IsOrder(order, rows) && |targets| == |order|
    ensures DiskKept(was, was, InPlace(was), good, rows, rows) && Reported(rows, order, targets, 0, rows, [])
  {
    forall q | q in was ensures IsHome(InPlace(was), q) { assert InPlace(was)[q] == q; }
  }

  ghost predicate AllRecover(faults: seq<Faults>) { forall k :: 0 <= k < |faults| ==> Recovers(faults[k]) }

  /** Of two media with one destination, neither moves. */
  lemma SharedStayInPlace(
    rows: seq<Row>, order: seq<nat>, targets: seq<Target>, index: seq<Row>, report: seq<FileResult>, k: nat)
    requires IsOrder(order, rows) && |targets| == |order| && Reported(rows, order, targets, |order|, index, report)
    requires k < |order| && Shared(targets, k)
    ensures index[order[k]] == rows[order[k]] && report[k].status != Moved
  {
    assert ReportOk(report[k], targets, k, rows[order[k]], index[order[k]]);
  }

  /** A moved row is at its destination, and stays there in every later run. */
  lemma MovedRowsAreHome(rows: seq<Row>, order: seq<nat>, index: seq<Row>, report: seq<FileResult>, k: nat)
    requires IsOrder(order, rows) && Reported(rows, order, Targets(order, rows), |order|, index, report)
    requires k < |order| && report[k].status == Moved
    ensures TargetOf(index[order[k]]) == To(index[order[k]].path) == TargetOf(rows[order[k]])
  {
    assert ReportOk(report[k], Targets(order, rows), k, rows[order[k]], index[order[k]]);
    MovedMediaStay(rows[order[k]]);
  }

  class Library {
    var files: Files
    var dirs: set<string>
    var index: seq<Row>
    /** Every state the disk went through. */
    ghost var past: seq<Files>

    /** No name is both a file and a folder. */
    ghost predicate Sound()
      reads this
    {
      files.Keys !! dirs
    }

    constructor (files: Files, dirs: set<string>, index: seq<Row>)
      ensures this.files == files && this.dirs == dirs && this.index == index && past == [files]
    {
      this.files, this.dirs, this.index := files, dirs, index;
      past := [files];
    }

    /** `hard_link`: refuses an existing name. */
    method HardLink(from: string, to: string, fault: bool) returns (ok: bool)
      modifies this`files, this`past
      ensures ok <==> !fault && from in old(files) && to !in old(files) && to !in dirs
      ensures files == if ok then old(files)[to := old(files)[from]] else old(files)
      ensures past == old(past) + [files]
    {
      ok := !fault && from in files && to !in files && to !in dirs;
      if ok { files := files[to := files[from]]; }
      past := past + [files];
    }

    method Remove(path: string, fault: bool) returns (ok: bool)
      modifies this`files, this`past
      ensures ok <==> !fault && path in old(files)
      ensures files == if ok then old(files) - {path} else old(files)
      ensures past == old(past) + [files]
    {
      ok := !fault && path in files;
      if ok { files := files - {path}; }
      past := past + [files];
    }

    /** The disk part of a move. */
    method MoveFile(from: string, to: string, size: int, mtime: int, f: Faults) returns (ok: bool)
      requires Sound() && from != to
      modifies this`files, this`dirs, this`past
      ensures Sound()
      ensures ok <==>
                Inspected(old(files), old(dirs), from, to, size, mtime) && !f.inspect && !f.mkdir && !f.link &&
                !f.unlink
      ensures ok ==> files == MovedFile(old(files), from, to)
      ensures ok ==> dirs == old(dirs) + FoldersAbove(to) && to !in dirs
      ensures !ok ==>
                (files == old(files) <==>
                 !(Inspected(old(files), old(dirs), from, to, size, mtime) && !f.inspect && !f.mkdir && !f.link &&
                   f.cleanup))
      ensures !ok && from in old(files) ==> from in files && files[from] == old(files)[from]
      ensures Midway(old(files), files, from, to)
      ensures old(past) <= past
      ensures forall k :: |old(past)| <= k < |past| ==> Midway(old(files), past[k], from, to)
    {
      if f.inspect || !Inspected(files, dirs, from, to, size, mtime) { return false; }
      if f.mkdir { return false; }
      assert to !in FoldersAbove(to);
      dirs := dirs + FoldersAbove(to);
      ok := HardLink(from, to, f.link);
      if !ok { return; }
      ok := Remove(from, f.unlink);
      if !ok { var _ := Remove(to, f.cleanup); }
    }

    /** `move_one`: the index update is prepared, the file moved, the update
        committed or the file moved back. */
    method MoveOne(from: string, to: string, size: int, mtime: int, f: Faults) returns (ok: bool, ghost place: string)
      requires Sound() && from != to
      modifies this
      ensures Sound()
      ensures ok <==> && !IsIndexed(old(index), to) && !Fails(f)
                      && Inspected(old(files), old(dirs), from, to, size, mtime)
      ensures ok ==> files == MovedFile(old(files), from, to) && index == Renamed(old(index), from, to)
      ensures !ok ==> index == old(index)
      ensures !ok ==>
                (files == old(files) <==>
                 !(!IsIndexed(old(index), to) && Inspected(old(files), old(dirs), from, to, size, mtime) && Strands(f)))
      ensures IsIndexed(old(index), to) ==> files == old(files)
      ensures Midway(old(files), files, from, to)
      ensures old(past) <= past
      ensures forall k :: |old(past)| <= k < |past| ==> Midway(old(files), past[k], from, to)
      ensures place == from || place == to
      ensures place == to ==> to !in old(files)
      ensures place == to && Recovers(f) ==> ok
      ensures ok ==> place == to
      ensures from in old(files) ==> place in files && files[place] == old(files)[from]
    {
      place := from;
      if f.prepare || IsIndexed(index, to) { return false, from; }
      var next := Renamed(index, from, to);
      ok := MoveFile(from, to, size, mtime, f);
      if !ok { return; }
      place := to;
      if !f.commit {
        index := next;
        return;
      }
      ok := HardLink(to, from, f.relink);
      if ok {
        place := from;
        var _ := Remove(to, f.reunlink);
        ok := false;
      }
    }

    /** One row of the run: its status, and the move if there is one. */
    method TakeRow(r: Row, target: Target, shared: bool, dry: bool, f: Faults)
      returns (result: FileResult, ghost place: string)
      requires Sound()
      modifies this
      ensures Sound()
      ensures Took(old(files), files, old(index), index, r, target, shared, Recovers(f), result, place)
      ensures result.status == Moved ==> !dry && Inspected(old(files), old(dirs), r.path, target.path, r.size, r.mtime)
      ensures result.status == Planned ==> dry
      ensures dry ==> files == old(files) && dirs == old(dirs) && past == old(past)
      ensures old(past) <= past && PastMidway(old(files), past, |old(past)|, r.path, target)
    {
      place := r.path;
      if target.NoGenre? { return FileResult(r.path, None, Skipped), place; }
      if target.BadGenre? { return FileResult(r.path, None, Failed), place; }
      var to := target.path;
      result := FileResult(r.path, Some(to), Failed);
      if f.inspect || !Inspected(files, dirs, r.path, to, r.size, r.mtime) { return; }
      if r.path == to { return result.(status := Unchanged), place; }
      if shared || IsIndexed(index, to) { return; }
      if dry { return result.(status := Planned), place; }
      var ok;
      ok, place := MoveOne(r.path, to, r.size, r.mtime, f);
      if ok { result := result.(status := Moved); }
    }

    /** What holds after `k` steps of a run. */
    ghost predicate After(was: Files, rows: seq<Row>, order: seq<nat>, targets: seq<Target>, good: bool, n: nat, k: nat,
                          report: seq<FileResult>, where: map<string, string>)
      requires IsOrder(order, rows) && |targets| == |order|
      reads this
    {
      && Sound() && Reported(rows, order, targets, k, index, report)
      && DiskKept(was, files, where, good, rows, index) && PastKept(was, past, n)
    }

    method Step(
      ghost was: Files, rows: seq<Row>, order: seq<nat>, targets: seq<Target>, ghost good: bool, ghost n: nat, k: nat,
      ghost report: seq<FileResult>, ghost where: map<string, string>, shared: bool, dry: bool, f: Faults)
      returns (result: FileResult, ghost home: map<string, string>)
      requires IsOrder(order, rows) && |targets| == |order| && k < |order| && PathsDistinct(rows)
      requires After(was, rows, order, targets, good, n, k, report, where)
      requires shared == (targets[k].To? && Count(targets, targets[k].path) > 1)
      requires good ==> Recovers(f)
      modifies this
      ensures After(was, rows, order, targets, good, n, k + 1, report + [result], home)
      ensures dry ==> files == old(files) && dirs == old(dirs) && index == old(index)
      ensures old(past) <= past
    {
      ghost var now, table, seen := files, index, past;
      var r := rows[order[k]];
      if targets[k].To? { CountShares(targets, k); }
      ghost var place;
      result, place := TakeRow(r, targets[k], shared, dry, f);
      PastGrows(was, now, where, seen, past, n, r.path, targets[k]);
      StepKeepsDisk(was, now, files, where, good, rows, table, index, r, targets[k], shared, Recovers(f), result,
        place);
      StepReports(rows, order, targets, k, now, files, table, index, report, shared, Recovers(f), result, place);
      home := Rehomed(where, r.path, place);
    }

    /** The loop of a run over rows whose targets are known. */
    method RunOn(order: seq<nat>, targets: seq<Target>, dry: bool, faults: seq<Faults>)
      returns (report: seq<FileResult>, ghost where: map<string, string>)
      requires Sound() && PathsDistinct(index) && IsOrder(order, index) && |faults| == |order| == |targets|
      modifies this
      ensures Sound() && Reported(old(index), order, targets, |order|, index, report)
      ensures DiskKept(old(files), files, where, AllRecover(faults), old(index), index)
      ensures dry ==> files == old(files) && dirs == old(dirs) && index == old(index)
      ensures old(past) <= past && PastKept(old(files), past, |old(past)|)
    {
      ghost var good := AllRecover(faults);
      ghost var was, n := files, |past|;
      var rows := index;
      var marks := MarkShared(targets);
      report := [];
      where := InPlace(files);
      RunStarts(was, good, rows, order, targets);
      for k := 0 to |order|
        invariant After(was, rows, order, targets, good, n, k, report, where)
        invariant dry ==> files == was && dirs == old(dirs) && index == rows
        invariant old(past) <= past
      {
        var result;
        result, where := Step(was, rows, order, targets, good, n, k, report, where, marks[k], dry, faults[k]);
        report := report + [result];
      }
    }

    /** `run`, over the available rows in any order. */
    method Run(order: seq<nat>, dry: bool, faults: seq<Faults>)
      returns (report: seq<FileResult>, ghost where: map<string, string>)
      requires Sound() && PathsDistinct(index) && IsOrder(order, index) && |faults| == |order|
      modifies this
      ensures Sound() && Reported(old(index), order, Targets(order, old(index)), |order|, index, report)
      ensures DiskKept(old(files), files, where, AllRecover(faults), old(index), index)
      ensures dry ==> files == old(files) && dirs == old(dirs) && index == old(index)
      ensures old(past) <= past && PastKept(old(files), past, |old(past)|)
    {
      report, where := RunOn(order, Targets(order, index), dry, faults);
    }
  }
}
