/** Laws of season splits: conservation, independence of row order, and the row bound. */
module SplitLaws {
  import opened SeasonSplits

  // ---------------------------------------------------------------- conservation

  function TotalOf(rows: seq<Row>): Counters {
    BucketOf(rows).totals
  }

  /** The groups' totals added up, in any order of their keys. */
  ghost function GrandTotal(groups: map<string, Bucket>): Counters
    decreases |groups|
  {
    if groups == map[] then ZERO
    else
      var k :| k in groups;
      GrandTotal(groups - {k}).Plus(groups[k].totals)
  }

  lemma PlusSwaps(a: Counters, b: Counters, c: Counters)
    ensures a.Plus(b).Plus(c) == a.Plus(c).Plus(b)
  {
  }

  /** Taking the keys in another order gives the same grand total. */
  lemma {:induction false} AnyKeyFirst(groups: map<string, Bucket>, k: string)
    requires k in groups
    ensures GrandTotal(groups) == GrandTotal(groups - {k}).Plus(groups[k].totals)
    decreases |groups|
  {
    var j :| j in groups && GrandTotal(groups) == GrandTotal(groups - {j}).Plus(groups[j].totals);
    if j != k {
      hide GrandTotal;
      var rest := groups - {j} - {k};
      AnyKeyFirst(groups - {j}, k);
      AnyKeyFirst(groups - {k}, j);
      assert rest == groups - {k} - {j};
      assert (groups - {j})[k] == groups[k] && (groups - {k})[j] == groups[j];
      PlusSwaps(GrandTotal(rest), groups[k].totals, groups[j].totals);
    }
  }

  lemma GrandTotalPut(groups: map<string, Bucket>, k: string, b: Bucket, extra: Counters)
    requires b.totals == BucketAt(groups, k).totals.Plus(extra)
    ensures GrandTotal(groups[k := b]) == GrandTotal(groups).Plus(extra)
  {
    var after := groups[k := b];
    AnyKeyFirst(after, k);
    if k in groups {
      AnyKeyFirst(groups, k);
      assert after - {k} == groups - {k};
    } else {
      assert after - {k} == groups;
    }
  }

  /** Conservation: the groups add up to the selected rows, whatever the grouping. */
  lemma {:induction false} GroupsConserve(rows: seq<Row>, r: Request)
    ensures GrandTotal(Groups(rows, r)) == TotalOf(Select(rows, r))
  {
    if rows == [] {
      assert Groups(rows, r) == map[];
    } else {
      hide Groups, Matches, GroupKey, GrandTotal;
      var front, last := rows[..|rows| - 1], rows[|rows| - 1];
      assert rows == front + [last];
      GroupsConserve(front, r);
      GroupsAppend(front, last, r);
      SelectAppend(front, last, r);
      if Matches(last, r) {
        BucketAppend(Select(front, r), last);
        var k := GroupKey(last, r.groupBy);
        GrandTotalPut(Groups(front, r), k, AddRow(BucketAt(Groups(front, r), k), last), last.counters);
      }
    }
  }

  lemma {:induction false} SelectionIgnoresGrouping(rows: seq<Row>, r: Request, g: GroupBy)
    ensures Select(rows, r.(groupBy := g)) == Select(rows, r)
  {
    if rows != [] { SelectionIgnoresGrouping(rows[..|rows| - 1], r, g); }
  }

  /** Grouping by venue and by opponent gives one grand total. */
  lemma GroupingsAgree(rows: seq<Row>, r: Request)
    ensures GrandTotal(Groups(rows, r.(groupBy := ByVenue))) == GrandTotal(Groups(rows, r.(groupBy := ByOpponent)))
  {
    GroupsConserve(rows, r.(groupBy := ByVenue));
    GroupsConserve(rows, r.(groupBy := ByOpponent));
    SelectionIgnoresGrouping(rows, r, ByVenue);
    SelectionIgnoresGrouping(rows, r, ByOpponent);
  }

  // ---------------------------------------------------------------- row order

  /** Adding two rows in either order. */
  lemma AddRowsCommute(b: Bucket, x: Row, y: Row)
    ensures AddRow(AddRow(b, x), y) == AddRow(AddRow(b, y), x)
  {
  }

  /** Any row may be added last. */
  lemma {:induction false} AnyRowLast(rows: seq<Row>, i: nat)
    requires i < |rows|
    ensures BucketOf(rows) == AddRow(BucketOf(rows[..i] + rows[i + 1..]), rows[i])
  {
    var front, last := rows[..|rows| - 1], rows[|rows| - 1];
    var without := rows[..i] + rows[i + 1..];
    if i == |rows| - 1 {
      assert without == front;
    } else {
      hide AddRow;
      AnyRowLast(front, i);
      var rest := front[..i] + front[i + 1..];
      assert without == rest + [last];
      BucketAppend(rest, last);
      assert front[i] == rows[i];
      AddRowsCommute(BucketOf(rest), rows[i], last);
    }
  }

  lemma WithoutOne(rows: seq<Row>, i: nat)
    requires i < |rows|
    ensures multiset(rows[..i] + rows[i + 1..]) == multiset(rows) - multiset{rows[i]}
  {
    assert rows == rows[..i] + ([rows[i]] + rows[i + 1..]);
  }

  lemma {:induction false} BucketIgnoresOrder(a: seq<Row>, b: seq<Row>)
    requires multiset(a) == multiset(b)
    ensures BucketOf(a) == BucketOf(b)
  {
    hide AddRow;
    assert |multiset(a)| == |a| && |multiset(b)| == |b|;
    if a != [] {
      var n := |a| - 1;
      assert a[n] in multiset(b);
      var i :| 0 <= i < |b| && b[i] == a[n];
      WithoutOne(a, n);
      WithoutOne(b, i);
      AnyRowLast(a, n);
      AnyRowLast(b, i);
      BucketIgnoresOrder(a[..n] + a[n + 1..], b[..i] + b[i + 1..]);
    }
  }

  lemma {:induction false} SelectMultiset(rows: seq<Row>, r: Request, x: Row)
    ensures multiset(Select(rows, r))[x] == if Matches(x, r) then multiset(rows)[x] else 0
  {
    if rows != [] {
      hide Matches;
      SelectMultiset(rows[..|rows| - 1], r, x);
      assert rows == rows[..|rows| - 1] + [rows[|rows| - 1]];
    }
  }

  lemma {:induction false} OfGroupMultiset(rows: seq<Row>, g: GroupBy, k: string, x: Row)
    ensures multiset(OfGroup(rows, g, k))[x] == if GroupKey(x, g) == k then multiset(rows)[x] else 0
  {
    if rows != [] {
      hide GroupKey;
      OfGroupMultiset(rows[..|rows| - 1], g, k, x);
      assert rows == rows[..|rows| - 1] + [rows[|rows| - 1]];
    }
  }

  lemma KeysOfMultiset(a: seq<Row>, b: seq<Row>, g: GroupBy)
    requires multiset(a) == multiset(b)
    ensures GroupKeys(a, g) <= GroupKeys(b, g)
  {
    forall k | k in GroupKeys(a, g)
      ensures k in GroupKeys(b, g)
    {
      var i :| 0 <= i < |a| && GroupKey(a[i], g) == k;
      assert a[i] in multiset(b);
      var j :| 0 <= j < |b| && b[j] == a[i];
    }
  }

  /** Row order affects no group: not its totals, its seasons or its lineage. */
  lemma GroupsIgnoreOrder(a: seq<Row>, b: seq<Row>, r: Request)
    requires multiset(a) == multiset(b)
    ensures Groups(a, r) == Groups(b, r)
  {
    hide Matches, GroupKey, AddRow;
    var sa, sb := Select(a, r), Select(b, r);
    forall x
      ensures multiset(sa)[x] == multiset(sb)[x]
    {
      SelectMultiset(a, r, x);
      SelectMultiset(b, r, x);
    }
    assert multiset(sa) == multiset(sb);
    KeysOfMultiset(sa, sb, r.groupBy);
    KeysOfMultiset(sb, sa, r.groupBy);
    forall k
      ensures BucketOf(OfGroup(sa, r.groupBy, k)) == BucketOf(OfGroup(sb, r.groupBy, k))
    {
      forall x
        ensures multiset(OfGroup(sa, r.groupBy, k))[x] == multiset(OfGroup(sb, r.groupBy, k))[x]
      {
        OfGroupMultiset(sa, r.groupBy, k, x);
        OfGroupMultiset(sb, r.groupBy, k, x);
      }
      assert multiset(OfGroup(sa, r.groupBy, k)) == multiset(OfGroup(sb, r.groupBy, k));
      BucketIgnoresOrder(OfGroup(sa, r.groupBy, k), OfGroup(sb, r.groupBy, k));
    }
  }

  // ---------------------------------------------------------------- the row bound

  function Times(seasons: set<string>, opponents: set<string>): set<Grain> {
    set s, v: Venue, o | s in seasons && v in {Home, Away} && o in opponents :: Grain(s, v, o)
  }

  lemma {:induction false} SeasonSize(s: string, opponents: set<string>)
    ensures |Times({s}, opponents)| == 2 * |opponents|
    decreases |opponents|
  {
    if opponents == {} {
      assert Times({s}, opponents) == {};
    } else {
      var o :| o in opponents;
      SeasonSize(s, opponents - {o});
      assert Times({s}, opponents) == Times({s}, opponents - {o}) + {Grain(s, Home, o), Grain(s, Away, o)};
    }
  }

  lemma {:induction false} TimesSize(seasons: set<string>, opponents: set<string>)
    ensures |Times(seasons, opponents)| == |seasons| * (2 * |opponents|)
    decreases |seasons|
  {
    if seasons == {} {
      assert Times(seasons, opponents) == {};
    } else {
      var s :| s in seasons;
      var rest := seasons - {s};
      TimesSize(rest, opponents);
      SeasonSize(s, opponents);
      assert Times(seasons, opponents) == Times(rest, opponents) + Times({s}, opponents);
      assert Times(rest, opponents) !! Times({s}, opponents);
      assert |seasons| * (2 * |opponents|) == |rest| * (2 * |opponents|) + 2 * |opponents|;
    }
  }

  lemma {:induction false} GrainCount(rows: seq<Row>)
    requires DistinctGrains(rows)
    ensures |Grains(rows)| == |rows|
  {
    hide GrainOf;
    if rows == [] {
      assert Grains(rows) == {};
    } else {
      var front, last := rows[..|rows| - 1], rows[|rows| - 1];
      assert rows == front + [last];
      GrainCount(front);
      DimensionsAppend(front, last);
      assert GrainOf(last) !in Grains(front);
    }
  }

  /** Sixteen seasons, two venues and 128 opponents have 4096 grains: the bound on rows
      rejects no input that the other checks would accept. */
  lemma RowBoundIsImplied(m: Metadata, r: Request, rows: seq<Row>)
    requires Checked(m, r, rows)
    ensures |rows| <= MAX_ROWS
  {
    hide ValidRow, SafeGroups;
    GrainCount(rows);
    var seasons, opponents := Seasons(rows), Opponents(rows);
    forall g | g in Grains(rows)
      ensures g in Times(seasons, opponents)
    {
      var i :| 0 <= i < |rows| && GrainOf(rows[i]) == g;
      assert g.season in seasons && g.opponent in opponents;
      assert g.venue == Home || g.venue == Away;
      assert g == Grain(g.season, g.venue, g.opponent);
    }
    SubsetSize(Grains(rows), Times(seasons, opponents));
    TimesSize(seasons, opponents);
    ProductBound(|seasons|, |opponents|);
  }

  lemma ProductBound(s: nat, o: nat)
    requires s <= 16 && o <= 128
    ensures s * (2 * o) <= 4096
  {
    assert s * (2 * o) <= 16 * (2 * o);
  }
}
