/** Ad-hoc live openings (src/live_opening.rs): rows of one table, never
    deleted, numbered from 1 in the order they were inserted. */
module LiveOpening {
  import opened Base

  datatype Opening = Opening(id: nat, dj: string, openedAt: int, until: int, cut: bool)

  predicate IsActive(o: Opening, dj: string, now: int) { o.dj == dj && o.until > now }

  /** The DJ's active opening, the most recent one. */
  function Active(rows: seq<Opening>, dj: string, now: int): (o: Option<Opening>)
    ensures o.Some? ==> o.value in rows && IsActive(o.value, dj, now)
    ensures o.None? ==> forall r <- rows :: !IsActive(r, dj, now)
  {
    if rows == [] then None
    else
      var n := |rows| - 1;
      assert rows == rows[..n] + [rows[n]];
      if IsActive(rows[n], dj, now) then Some(rows[n]) else Active(rows[..n], dj, now)
  }

  function EndedAt(o: Opening, dj: string, now: int): Opening {
    if IsActive(o, dj, now) then o.(until := now) else o
  }

  /** The table after `open`: the DJ's active rows end now, one more begins. */
  function Opened(rows: seq<Opening>, dj: string, now: int, until: int): seq<Opening> {
    seq(|rows|, i requires 0 <= i < |rows| => EndedAt(rows[i], dj, now)) + [Opening(|rows| + 1, dj, now, until, false)]
  }

  /** `UPDATE … SET until WHERE id`. */
  function Until(rows: seq<Opening>, id: nat, until: int): seq<Opening> {
    seq(|rows|, i requires 0 <= i < |rows| => if rows[i].id == id then rows[i].(until := until) else rows[i])
  }

  function Closed(rows: seq<Opening>, dj: string, now: int): seq<Opening> {
    match Active(rows, dj, now)
    case None => rows
    case Some(o) => Until(rows, o.id, now)
  }

  function Cut(rows: seq<Opening>, id: nat): seq<Opening> {
    seq(|rows|, i requires 0 <= i < |rows| => if rows[i].id == id then rows[i].(cut := true) else rows[i])
  }

  /** Rows are numbered in order, none begins after `at`, and a DJ's row is over
      when its next one begins. */
  ghost predicate Orderly(rows: seq<Opening>, at: int) {
    && (forall i :: 0 <= i < |rows| ==> rows[i].id == i + 1 && rows[i].openedAt <= at)
    && (forall i, j :: 0 <= i < j < |rows| && rows[i].dj == rows[j].dj ==> rows[i].until <= rows[j].openedAt)
  }

  lemma OpenKeepsOrder(rows: seq<Opening>, dj: string, now: int, until: int, at: int)
    requires Orderly(rows, at) && at <= now
    ensures Orderly(Opened(rows, dj, now, until), now)
  {
  }

  lemma CloseKeepsOrder(rows: seq<Opening>, dj: string, now: int, at: int)
    requires Orderly(rows, at) && at <= now
    ensures Orderly(Closed(rows, dj, now), now)
  {
  }

  lemma CutKeepsOrder(rows: seq<Opening>, id: nat, now: int, at: int)
    requires Orderly(rows, at) && at <= now
    ensures Orderly(Cut(rows, id), now)
  {
  }

  /** A DJ has at most one active opening, and it is the one `Active` gives. */
  lemma AtMostOneActive(rows: seq<Opening>, dj: string, now: int, i: nat)
    requires Orderly(rows, now) && i < |rows| && IsActive(rows[i], dj, now)
    ensures Active(rows, dj, now) == Some(rows[i])
    ensures forall j :: 0 <= j < |rows| && IsActive(rows[j], dj, now) ==> j == i
  {
    var o := Active(rows, dj, now);
    assert rows[i] in rows;
    var j :| 0 <= j < |rows| && rows[j] == o.value;
  }

  class OpeningTable {
    var rows: seq<Opening>

    constructor ()
      ensures rows == []
    { rows := []; }

    method Open(dj: string, now: int, until: int) returns (o: Opening)
      modifies this
      ensures rows == Opened(old(rows), dj, now, until) && o == rows[|rows| - 1]
    {
      ghost var before := rows;
      var i := 0;
      while i < |rows|
        invariant 0 <= i <= |rows| == |before|
        invariant forall k :: 0 <= k < i ==> rows[k] == EndedAt(before[k], dj, now)
        invariant forall k :: i <= k < |rows| ==> rows[k] == before[k]
      {
        if rows[i].dj == dj && rows[i].until > now { rows := rows[i := rows[i].(until := now)]; }
        i := i + 1;
      }
      o := Opening(|rows| + 1, dj, now, until, false);
      rows := rows + [o];
    }

    method Close(dj: string, now: int) returns (closed: Option<Opening>)
      modifies this
      ensures rows == Closed(old(rows), dj, now) && closed == Active(old(rows), dj, now)
    {
      closed := Active(rows, dj, now);
      if closed.Some? { rows := Until(rows, closed.value.id, now); }
    }

    method MarkCut(id: nat)
      modifies this
      ensures rows == Cut(old(rows), id)
    {
      ghost var before := rows;
      var i := 0;
      while i < |rows|
        invariant 0 <= i <= |rows| == |before|
        invariant forall k :: 0 <= k < i ==>
                    rows[k] == if before[k].id == id then before[k].(cut := true) else before[k]
        invariant forall k :: i <= k < |rows| ==> rows[k] == before[k]
      {
        if rows[i].id == id { rows := rows[i := rows[i].(cut := true)]; }
        i := i + 1;
      }
    }
  }
}
