/** The scan of queued questions: each sweep continues behind the last row of the one
    before and wraps around. Request ids stand for their rank in text order. */
module QueuedSweep {
  import opened Options

  ghost predicate Ascending(rows: seq<int>) {
    forall i, j | 0 <= i < j < |rows| :: rows[i] < rows[j]
  }

  /** WHERE id > cursor and WHERE id <= cursor, in order. */
  function Above(rows: seq<int>, cursor: int): seq<int> {
    if rows == [] then [] else if rows[0] > cursor then [rows[0]] + Above(rows[1..], cursor) else Above(rows[1..], cursor)
  }

  function UpTo(rows: seq<int>, cursor: int): seq<int> {
    if rows == [] then [] else if rows[0] <= cursor then [rows[0]] + UpTo(rows[1..], cursor) else UpTo(rows[1..], cursor)
  }

  function First(rows: seq<int>, limit: nat): seq<int> {
    if |rows| <= limit then rows else rows[..limit]
  }

  /** All rows, in the order the next sweeps reach them. */
  function Ahead(rows: seq<int>, cursor: Option<int>): seq<int> {
    match cursor
    case None => rows
    case Some(c) => Above(rows, c) + UpTo(rows, c)
  }

  function NextCursor(swept: seq<int>, cursor: Option<int>): Option<int> {
    if swept == [] then cursor else Some(swept[|swept| - 1])
  }

  /** The store with the module's cursor. */
  class SweepState {
    var cursor: Option<int>

    constructor ()
      ensures cursor == None
    {
      cursor := None;
    }

    /** Two queries when the rows behind the cursor do not fill the batch. */
    method SweepRows(queued: seq<int>, limit: nat) returns (rows: seq<int>)
      modifies this
      ensures rows == First(Ahead(queued, old(cursor)), limit)
      ensures cursor == NextCursor(rows, old(cursor))
    {
      if cursor.None? {
        rows := First(queued, limit);
      } else {
        rows := First(Above(queued, cursor.value), limit);
        if |rows| < limit {
          rows := rows + First(UpTo(queued, cursor.value), limit - |rows|);
        }
      }
      if rows != [] {
        cursor := Some(rows[|rows| - 1]);
      }
    }
  }

  // ---------------------------------------------------------------- the rotation

  /** Where a cursor splits the rows. */
  function Split(rows: seq<int>, cursor: int): nat
    ensures Split(rows, cursor) <= |rows|
  {
    if rows == [] || rows[0] > cursor then 0 else 1 + Split(rows[1..], cursor)
  }

  lemma {:induction false} NoneUpTo(rows: seq<int>, cursor: int)
    requires forall i | 0 <= i < |rows| :: rows[i] > cursor
    ensures Above(rows, cursor) == rows && UpTo(rows, cursor) == []
  {
    if rows != [] {
      NoneUpTo(rows[1..], cursor);
      assert [rows[0]] + rows[1..] == rows;
    }
  }

  lemma {:induction false} SplitsAt(rows: seq<int>, k: nat, cursor: int)
    requires k <= |rows|
    requires forall i | 0 <= i < k :: rows[i] <= cursor
    requires forall i | k <= i < |rows| :: rows[i] > cursor
    ensures Above(rows, cursor) == rows[k..] && UpTo(rows, cursor) == rows[..k]
  {
    if k == 0 {
      NoneUpTo(rows, cursor);
    } else {
      SplitsAt(rows[1..], k - 1, cursor);
      assert rows[1..][k - 1..] == rows[k..];
      assert [rows[0]] + rows[1..][..k - 1] == rows[..k];
    }
  }

  /** Any cursor, even one that names no row, splits ascending rows in two runs. */
  lemma {:induction false} SomeSplit(rows: seq<int>, cursor: int) returns (k: nat)
    requires Ascending(rows)
    ensures k <= |rows| && (forall i | 0 <= i < k :: rows[i] <= cursor) && (forall i | k <= i < |rows| :: rows[i] > cursor)
  {
    k := 0;
    while k < |rows| && rows[k] <= cursor
      invariant k <= |rows| && forall i | 0 <= i < k :: rows[i] <= cursor
    {
      k := k + 1;
    }
  }

  /** The rows ahead of a cursor are a rotation of all rows. */
  ghost predicate Rotation(rows: seq<int>, ahead: seq<int>, k: nat) {
    k <= |rows| && ahead == rows[k..] + rows[..k]
  }

  lemma AheadIsRotation(rows: seq<int>, cursor: Option<int>) returns (k: nat)
    requires Ascending(rows)
    ensures Rotation(rows, Ahead(rows, cursor), k)
  {
    if cursor.None? {
      k := 0;
      assert rows[0..] + rows[..0] == rows;
    } else {
      k := SomeSplit(rows, cursor.value);
      SplitsAt(rows, k, cursor.value);
    }
  }

  /** The line behind the k-th row, whichever row that is. */
  lemma AheadOfRow(rows: seq<int>, k: nat)
    requires Ascending(rows) && 1 <= k <= |rows|
    ensures Ahead(rows, Some(rows[k - 1])) == rows[k..] + rows[..k]
  {
    SplitsAt(rows, k, rows[k - 1]);
  }

  lemma RotateWithin(rows: seq<int>, k: nat, m: nat)
    requires 1 <= m && k + m <= |rows|
    ensures var ahead := rows[k..] + rows[..k];
            ahead[m - 1] == rows[k + m - 1] && rows[k + m..] + rows[..k + m] == ahead[m..] + ahead[..m]
  {
  }

  lemma RotateAround(rows: seq<int>, k: nat, j: nat)
    requires 1 <= j <= k <= |rows|
    ensures var ahead := rows[k..] + rows[..k]; var m := |rows| - k + j;
            ahead[m - 1] == rows[j - 1] && rows[j..] + rows[..j] == ahead[m..] + ahead[..m]
  {
  }

  /** A sweep moves the rows it returned to the end of the line. */
  lemma SweepRotates(rows: seq<int>, cursor: Option<int>, limit: nat)
    requires Ascending(rows) && limit >= 1 && rows != []
    ensures var ahead := Ahead(rows, cursor); var swept := First(ahead, limit);
            |ahead| == |rows| && 1 <= |swept| <= |ahead| && swept == ahead[..|swept|]
            && Ahead(rows, NextCursor(swept, cursor)) == ahead[|swept|..] + ahead[..|swept|]
  {
    hide Ahead, Ascending;
    var k := AheadIsRotation(rows, cursor);
    var m := |First(Ahead(rows, cursor), limit)|;
    if m <= |rows| - k {
      RotateWithin(rows, k, m);
      AheadOfRow(rows, k + m);
    } else {
      RotateAround(rows, k, m - (|rows| - k));
      AheadOfRow(rows, m - (|rows| - k));
    }
  }

  // ---------------------------------------------------------------- fairness

  /** No sweep returns a row twice, or more rows than asked for. */
  lemma SweepHasNoDuplicates(rows: seq<int>, cursor: Option<int>, limit: nat)
    requires Ascending(rows)
    ensures var swept := First(Ahead(rows, cursor), limit);
            |swept| == (if |rows| <= limit then |rows| else limit)
            && forall i, j | 0 <= i < j < |swept| :: swept[i] != swept[j]
  {
    var k := AheadIsRotation(rows, cursor);
    hide Above, UpTo, Ahead;
  }

  /** Everything `sweeps` sweeps in a row return, one after the other. */
  function Swept(rows: seq<int>, cursor: Option<int>, limit: nat, sweeps: nat): seq<int>
    decreases sweeps
  {
    if sweeps == 0 then []
    else
      var swept := First(Ahead(rows, cursor), limit);
      swept + Swept(rows, NextCursor(swept, cursor), limit, sweeps - 1)
  }

  /** The part of a line still to be served after its first `m` rows. */
  function Behind(line: seq<int>, m: nat): seq<int> {
    if |line| <= m then [] else line[m..]
  }

  lemma BehindIsPrefix(line: seq<int>, ahead: seq<int>, m: nat)
    requires line <= ahead && m <= |ahead|
    ensures Behind(line, m) <= ahead[m..] + ahead[..m]
    ensures forall x | x in line :: x in ahead[..m] || x in Behind(line, m)
  {
    forall x | x in line
      ensures x in ahead[..m] || x in Behind(line, m)
    {
      var i :| 0 <= i < |line| && line[i] == x;
      assert if i < m then ahead[..m][i] == x else Behind(line, m)[i - m] == x;
    }
  }

  /** Sweeps in a row walk down the line, as far as they go. */
  lemma {:induction false} SweptCovers(rows: seq<int>, cursor: Option<int>, limit: nat, sweeps: nat, line: seq<int>)
    requires Ascending(rows) && limit >= 1 && line <= Ahead(rows, cursor) && |line| <= sweeps * limit
    ensures forall x | x in line :: x in Swept(rows, cursor, limit, sweeps)
    decreases sweeps
  {
    hide Ahead, Ascending;
    if line != [] {
      var ahead := Ahead(rows, cursor);
      var k := AheadIsRotation(rows, cursor);
      SweepRotates(rows, cursor, limit);
      var swept := First(ahead, limit);
      var rest := Behind(line, |swept|);
      BehindIsPrefix(line, ahead, |swept|);
      assert (sweeps - 1) * limit == sweeps * limit - limit;
      SweptCovers(rows, NextCursor(swept, cursor), limit, sweeps - 1, rest);
      assert Swept(rows, cursor, limit, sweeps) == swept + Swept(rows, NextCursor(swept, cursor), limit, sweeps - 1);
    }
  }

  /** Any sweeps in a row that together could hold all queued rows do return all of them,
      wherever the cursor starts, whether or not it still names a row. */
  lemma EveryRowIsSwept(rows: seq<int>, cursor: Option<int>, limit: nat, sweeps: nat)
    requires Ascending(rows) && limit >= 1 && |rows| <= sweeps * limit
    ensures forall x | x in rows :: x in Swept(rows, cursor, limit, sweeps)
  {
    hide Ahead, Ascending, Swept;
    var k := AheadIsRotation(rows, cursor);
    var ahead := Ahead(rows, cursor);
    SweptCovers(rows, cursor, limit, sweeps, ahead);
    forall x | x in rows
      ensures x in ahead
    {
      var i :| 0 <= i < |rows| && rows[i] == x;
      assert ahead[if i >= k then i - k else |rows| - k + i] == x;
    }
  }
}
