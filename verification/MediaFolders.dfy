/** The folder inventory of the media library and its pages
    (src/media_folders.rs). */
module MediaFolders {
  import opened Base
  import opened Text

  datatype Folder = Folder(path: string, count: nat)

  datatype Page = Page(folders: seq<Folder>, next: Option<string>)

  // =====================================================================
  // Counts
  // =====================================================================

  /** `path` is somewhere below the folder `f`. */
  predicate IsBelow(path: string, f: string) { 0 < |f| < |path| && path[..|f|] == f && path[|f|] == '/' }

  function Count(paths: seq<string>, f: string): nat {
    if paths == [] then 0
    else
      var n := |paths| - 1;
      Count(paths[..n], f) + if IsBelow(paths[n], f) then 1 else 0
  }

  /** `rsplit_once('/')`: what is before the last separator. */
  function Parent(s: string): (p: Option<string>)
    ensures p.None? <==> '/' !in s
    ensures p.Some? ==>
              |p.value| < |s| && s[..|p.value|] == p.value && s[|p.value|] == '/' && '/' !in s[|p.value| + 1..]
  {
    if s == "" then None
    else
      var n := |s| - 1;
      assert s == s[..n] + [s[n]];
      if s[n] == '/' then Some(s[..n]) else Parent(s[..n])
  }

  predicate Counted(counts: map<string, nat>, f: string, n: nat) {
    if n == 0 then f !in counts else f in counts && counts[f] == n
  }

  /** How often `f` was counted when the walk up `path` has come to `parent`. */
  function Walked(path: string, parent: Option<string>, f: string): nat {
    if IsBelow(path, f) && (parent.None? || |f| > |parent.value|) then 1 else 0
  }

  lemma ParentIsNext(path: string, p: string, f: string)
    requires |p| <= |path| && path[..|p|] == p
    requires IsBelow(path, f) && |f| < |p|
    ensures Parent(p).Some? && |f| <= |Parent(p).value|
  {
    assert p[|f|] == '/';
  }

  method CountPath(before: map<string, nat>, path: string, ghost base: string -> nat) returns (counts: map<string, nat>)
    requires forall f :: f != "" ==> Counted(before, f, base(f))
    ensures forall f :: f != "" ==> Counted(counts, f, base(f) + if IsBelow(path, f) then 1 else 0)
    ensures At(counts) == At(before)
  {
    counts := before;
    var parent := Parent(path);
    ghost var above := path;
    while parent.Some?
      invariant |above| <= |path| && path[..|above|] == above && parent == Parent(above)
      invariant forall f :: f != "" ==> Counted(counts, f, base(f) + Walked(path, parent, f))
      invariant At(counts) == At(before)
      decreases if parent.Some? then |parent.value| + 1 else 0
    {
      var p := parent.value;
      ghost var was := counts;
      if p != "" { counts := counts[p := (if p in counts then counts[p] else 0) + 1]; }
      parent := Parent(p);
      forall f | f != "" ensures Counted(counts, f, base(f) + Walked(path, parent, f)) {
        assert Counted(was, f, base(f) + Walked(path, Some(p), f));
        if IsBelow(path, f) && |f| < |p| { ParentIsNext(path, p, f); }
        if f == p { assert IsBelow(path, f); }
        if IsBelow(path, f) && |f| == |p| { assert f == p; }
      }
      above := p;
    }
  }

  function At(counts: map<string, nat>): Option<nat> { if "" in counts then Some(counts[""]) else None }

  /** Each folder with the paths below it, the root with all of them. */
  ghost predicate Counts(counts: map<string, nat>, paths: seq<string>) {
    && At(counts) == Some(|paths|)
    && forall f :: f != "" ==> Counted(counts, f, Count(paths, f))
  }

  method CountFolders(paths: seq<string>) returns (counts: map<string, nat>)
    ensures Counts(counts, paths)
  {
    counts := map["" := |paths|];
    for i := 0 to |paths|
      invariant At(counts) == Some(|paths|)
      invariant forall f :: f != "" ==> Counted(counts, f, Count(paths[..i], f))
    {
      assert paths[..i + 1][..i] == paths[..i];
      counts := CountPath(counts, paths[i], f => Count(paths[..i], f));
    }
    assert paths[..|paths|] == paths;
  }

  // =====================================================================
  // The inventory
  // =====================================================================

  ghost predicate InOrder(all: seq<Folder>) {
    forall i, j {:trigger Less(all[i].path, all[j].path)} :: 0 <= i < j < |all| ==> Less(all[i].path, all[j].path)
  }

  ghost predicate Lists(all: seq<Folder>, f: string) { exists i :: 0 <= i < |all| && all[i].path == f }

  predicate IsFolder(paths: seq<string>, f: string) { f == "" || Count(paths, f) > 0 }

  /** Every folder above an indexed path, and the root, in order, each with the
      number of indexed paths below it. */
  ghost predicate IsInventory(all: seq<Folder>, paths: seq<string>) {
    && InOrder(all)
    && (forall i :: 0 <= i < |all| ==> all[i].count == if all[i].path == "" then |paths| else Count(paths, all[i].path))
    && (forall f :: Lists(all, f) <==> IsFolder(paths, f))
  }

  /** The keys of a map in order: what a `BTreeMap` iterates. */
  method SortedKeys(counts: map<string, nat>) returns (names: seq<string>)
    ensures Sorted(names) && forall f :: f in names <==> f in counts
  {
    names := [];
    var todo := counts.Keys;
    while todo != {}
      invariant todo <= counts.Keys && Sorted(names)
      invariant forall f :: f in names <==> f in counts && f !in todo
      decreases todo
    {
      var f :| f in todo;
      InsertSorts(names, f);
      names := Insert(names, f);
      todo := todo - {f};
    }
  }

  method Inventory(paths: seq<string>) returns (all: seq<Folder>)
    ensures IsInventory(all, paths)
  {
    var counts := CountFolders(paths);
    var names := SortedKeys(counts);
    assert forall i :: 0 <= i < |names| ==> names[i] in names;
    all := seq(|names|, i requires 0 <= i < |names| => Folder(names[i], counts[names[i]]));
    forall f ensures Lists(all, f) <==> IsFolder(paths, f) {
      if f in names {
        var i :| 0 <= i < |names| && names[i] == f;
        assert all[i].path == f;
      }
      if i :| 0 <= i < |all| && all[i].path == f { assert names[i] in names; }
      if f != "" { assert Counted(counts, f, Count(paths, f)); }
    }
  }

  lemma {:induction false} PathsBelow(paths: seq<string>, f: string)
    ensures Count(paths, f) > 0 <==> exists i :: 0 <= i < |paths| && IsBelow(paths[i], f)
    decreases |paths|
  {
    if paths != [] {
      var n := |paths| - 1;
      PathsBelow(paths[..n], f);
      if i :| 0 <= i < n && IsBelow(paths[..n][i], f) { assert IsBelow(paths[i], f); }
      if i :| 0 <= i < |paths| && IsBelow(paths[i], f) { assert i < n ==> IsBelow(paths[..n][i], f); }
    }
  }

  /** There is one inventory. */
  lemma {:induction false} InventoryIsUnique(a: seq<Folder>, b: seq<Folder>, paths: seq<string>)
    requires IsInventory(a, paths) && IsInventory(b, paths)
    ensures a == b
  {
    var shorter := Min(|a|, |b|);
    SamePrefix(a, b, paths, shorter);
    NotLonger(a, b, paths);
    NotLonger(b, a, paths);
  }

  /** An inventory lists the folder `f` of another. */
  lemma AlsoListed(a: seq<Folder>, b: seq<Folder>, paths: seq<string>, k: nat) returns (j: nat)
    requires IsInventory(a, paths) && IsInventory(b, paths) && k < |a|
    ensures j < |b| && b[j] == a[k]
  {
    assert Lists(a, a[k].path);
    assert IsFolder(paths, a[k].path);
    assert Lists(b, a[k].path);
    j :| 0 <= j < |b| && b[j].path == a[k].path;
  }

  lemma NotLonger(a: seq<Folder>, b: seq<Folder>, paths: seq<string>)
    requires IsInventory(a, paths) && IsInventory(b, paths)
    requires forall i :: 0 <= i < |a| && i < |b| ==> a[i] == b[i]
    ensures |a| <= |b|
  {
    if |a| > |b| {
      LessIsTotal(a[|b|].path, a[|b|].path);
      var j := AlsoListed(a, b, paths, |b|);
    }
  }

  lemma {:induction false} SamePrefix(a: seq<Folder>, b: seq<Folder>, paths: seq<string>, n: nat)
    requires IsInventory(a, paths) && IsInventory(b, paths) && n <= |a| && n <= |b|
    ensures forall i :: 0 <= i < n ==> a[i] == b[i]
  {
    if n > 0 {
      SamePrefix(a, b, paths, n - 1);
      var j, k := Place(a, b, paths, n - 1);
      LessIsTotal(b[n - 1].path, a[n - 1].path);
    }
  }

  /** Where the `k`-th folders are listed, in each other's inventory: not
      before `k`. */
  lemma Place(a: seq<Folder>, b: seq<Folder>, paths: seq<string>, k: nat) returns (j: nat, l: nat)
    requires IsInventory(a, paths) && IsInventory(b, paths) && k < |a| && k < |b|
    requires forall i :: 0 <= i < k ==> a[i] == b[i]
    ensures k <= j < |b| && b[j] == a[k] && k <= l < |a| && a[l] == b[k]
  {
    j := AlsoListed(a, b, paths, k);
    l := AlsoListed(b, a, paths, k);
    LessIsTotal(a[k].path, a[k].path);
    LessIsTotal(b[k].path, b[k].path);
  }

  // =====================================================================
  // Pages
  // =====================================================================

  const MARK := ['p', ':']

  function Clamp(limit: nat): nat { if limit < 1 then 1 else if limit > 1000 then 1000 else limit }

  function Cursor(path: string): string { MARK + path }

  /** `strip_prefix("p:")`, or the text itself. */
  function Name(after: string): string { if MARK <= after then after[2..] else after }

  function Beyond(all: seq<Folder>, after: string): seq<Folder> {
    if all == [] then []
    else (if after == "" || Less(Name(after), all[0].path) then [all[0]] else []) + Beyond(all[1..], after)
  }

  function PageOf(all: seq<Folder>, after: string, limit: nat): (p: Page)
    ensures p.next.Some? ==> p.folders != []
  {
    var n := Clamp(limit);
    var rest := Beyond(all, after);
    if |rest| > n then Page(rest[..n], Some(Cursor(rest[n - 1].path))) else Page(rest, None)
  }

  method ListFolders(paths: seq<string>, after: string, limit: nat) returns (page: Page)
    ensures exists all :: IsInventory(all, paths) && page == PageOf(all, after, limit)
  {
    var all := Inventory(paths);
    var most := Clamp(limit);
    var folders := Beyond(all, after);
    var next := None;
    if |folders| > most {
      folders := folders[..most];
      next := Some(Cursor(folders[|folders| - 1].path));
    }
    page := Page(folders, next);
    assert page == PageOf(all, after, limit);
  }

  lemma {:induction false} NoneBeyond(all: seq<Folder>, after: string, f: string)
    requires after != "" && Name(after) == f && forall i :: 0 <= i < |all| ==> Less(f, all[i].path)
    ensures Beyond(all, after) == all
    decreases |all|
  {
    if all != [] { NoneBeyond(all[1..], after, f); }
  }

  lemma {:induction false} AllBeyondStart(all: seq<Folder>)
    ensures Beyond(all, "") == all
    decreases |all|
  {
    if all != [] { AllBeyondStart(all[1..]); }
  }

  lemma NameOfCursor(path: string)
    ensures Cursor(path) != "" && Name(Cursor(path)) == path
  {
    assert Cursor(path)[2..] == path;
  }

  lemma RestInOrder(all: seq<Folder>)
    requires InOrder(all) && all != []
    ensures InOrder(all[1..])
  {
  }

  /** A cursor leaves out what is listed before its folder, and that folder. */
  lemma FirstIsSkipped(all: seq<Folder>, after: string, k: nat)
    requires InOrder(all) && k < |all| && after != "" && Name(after) == all[k].path
    ensures Beyond(all, after) == Beyond(all[1..], after)
  {
    LessIsTotal(all[k].path, all[0].path);
  }

  lemma OthersAreBeyond(all: seq<Folder>, after: string)
    requires InOrder(all) && all != [] && after != "" && Name(after) == all[0].path
    ensures Beyond(all[1..], after) == all[1..]
  {
    NoneBeyond(all[1..], after, all[0].path);
  }

  lemma {:induction false} BeyondNamed(all: seq<Folder>, after: string, k: nat)
    requires InOrder(all) && k < |all| && after != "" && Name(after) == all[k].path
    ensures Beyond(all, after) == all[k + 1..]
    decreases |all|
  {
    FirstIsSkipped(all, after, k);
    if k == 0 {
      OthersAreBeyond(all, after);
    } else {
      RestInOrder(all);
      BeyondNamed(all[1..], after, k - 1);
      assert all[1..][k..] == all[k + 1..];
    }
  }

  /** A cursor resumes right after the folder it names. */
  lemma CursorResumes(all: seq<Folder>, k: nat)
    requires InOrder(all) && k < |all|
    ensures Beyond(all, Cursor(all[k].path)) == all[k + 1..]
  {
    NameOfCursor(all[k].path);
    BeyondNamed(all, Cursor(all[k].path), k);
  }

  /** Cursors followed page after page, each with its limit: what was listed,
      and the cursor left. */
  function Follow(all: seq<Folder>, after: string, limits: seq<nat>): (seq<Folder>, Option<string>)
    decreases |limits|
  {
    if limits == [] then ([], Some(after))
    else
      var page := PageOf(all, after, limits[0]);
      if page.next.None? then (page.folders, None) else Before(page.folders, Follow(all, page.next.value, limits[1..]))
  }

  function Before(folders: seq<Folder>, rest: (seq<Folder>, Option<string>)): (seq<Folder>, Option<string>) {
    (folders + rest.0, rest.1)
  }

  lemma FollowUnfolds(all: seq<Folder>, after: string, limits: seq<nat>, page: Page)
    requires limits != [] && PageOf(all, after, limits[0]) == page && page.next.Some?
    ensures Follow(all, after, limits) == Before(page.folders, Follow(all, page.next.value, limits[1..]))
  {
  }

  /** The cursor that resumes at `k`. */
  ghost predicate ResumesAt(all: seq<Folder>, after: string, k: nat) {
    k <= |all| && if k == 0 then after == "" else after == Cursor(all[k - 1].path)
  }

  lemma BeyondFrom(all: seq<Folder>, after: string, k: nat)
    requires InOrder(all) && ResumesAt(all, after, k)
    ensures Beyond(all, after) == all[k..]
  {
    if k == 0 { AllBeyondStart(all); } else { CursorResumes(all, k - 1); }
  }

  /** What was listed from `k` on, and where the cursor left resumes. */
  ghost predicate ListedFrom(all: seq<Folder>, k: nat, done: (seq<Folder>, Option<string>), pages: nat) {
    var (listed, next) := done;
    && k + |listed| <= |all| && listed == all[k..k + |listed|]
    && (next.None? ==> k + |listed| == |all|)
    && (next.Some? ==> |listed| >= pages && ResumesAt(all, next.value, k + |listed|))
  }

  lemma ListedAfter(all: seq<Folder>, k: nat, end: nat, rest: (seq<Folder>, Option<string>), pages: nat)
    requires k < end <= |all| && ListedFrom(all, end, rest, pages)
    ensures ListedFrom(all, k, Before(all[k..end], rest), pages + 1)
  {
    assert all[k..end] + rest.0 == all[k..end + |rest.0|];
  }

  lemma LastPage(all: seq<Folder>, after: string, k: nat, limits: seq<nat>)
    requires InOrder(all) && ResumesAt(all, after, k) && limits != [] && k + Clamp(limits[0]) >= |all|
    ensures Follow(all, after, limits) == (all[k..], None)
  {
    BeyondFrom(all, after, k);
  }

  lemma PageMore(all: seq<Folder>, after: string, k: nat, limit: nat)
    requires InOrder(all) && ResumesAt(all, after, k) && k + Clamp(limit) < |all|
    ensures var end := k + Clamp(limit); PageOf(all, after, limit) == Page(all[k..end], Some(Cursor(all[end - 1].path)))
  {
    BeyondFrom(all, after, k);
  }

  lemma FirstPage(all: seq<Folder>, after: string, k: nat, end: nat, cursor: string, limits: seq<nat>)
    requires InOrder(all) && ResumesAt(all, after, k) && limits != [] && end == k + Clamp(limits[0]) < |all|
    requires cursor == Cursor(all[end - 1].path)
    ensures Follow(all, after, limits) == Before(all[k..end], Follow(all, cursor, limits[1..]))
  {
    PageMore(all, after, k, limits[0]);
    FollowUnfolds(all, after, limits, Page(all[k..end], Some(cursor)));
  }

  /** Following from `k` lists from `k`. */
  lemma {:induction false} FollowFrom(all: seq<Folder>, after: string, k: nat, limits: seq<nat>)
    requires InOrder(all) && ResumesAt(all, after, k)
    ensures ListedFrom(all, k, Follow(all, after, limits), |limits|)
    decreases |limits|
  {
    if limits == [] { return; }
    var end := k + Clamp(limits[0]);
    if end >= |all| {
      LastPage(all, after, k, limits);
    } else {
      var cursor := Cursor(all[end - 1].path);
      FollowFrom(all, cursor, end, limits[1..]);
      FirstPage(all, after, k, end, cursor, limits);
      ListedAfter(all, k, end, Follow(all, cursor, limits[1..]), |limits| - 1);
    }
  }

  /** Following the cursors, whatever the limits, lists the inventory without
      gap or repeat: always a prefix of it, all of it when no cursor is left,
      and that comes within as many pages as there are folders. */
  lemma PagesListEverything(all: seq<Folder>, limits: seq<nat>)
    requires InOrder(all)
    ensures var (listed, next) := Follow(all, "", limits);
            && listed <= all && (next.None? ==> listed == all)
            && (|limits| > |all| ==> next.None?)
  {
    FollowFrom(all, "", 0, limits);
    var listed := Follow(all, "", limits).0;
    assert all[..|listed|] == listed;
  }
}
