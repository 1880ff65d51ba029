/** Pages, their orders and what is read from them, written out. */
module PagingAnswers {
  import opened Cursor
  import opened Numerals
  import opened Options
  import opened Paging

  // ---------------------------------------------------------------- the listing's order

  /** Text order: the first difference decides, and a beginning comes before the whole. */
  ghost predicate Differ(a: string, b: string, k: nat) {
    k <= |a| && k < |b| && a[..k] == b[..k] && (k == |a| || a[k] < b[k])
  }

  lemma DifferAtHead(a: string, b: string, k: nat)
    requires a != "" && b != "" && Differ(a, b, k)
    ensures a[0] < b[0] || (k > 0 && a[0] == b[0])
  {
    if k > 0 { assert a[..k][0] == a[0] && b[..k][0] == b[0]; }
  }

  lemma {:induction false} TextBeforeExactly(a: string, b: string)
    ensures TextBefore(a, b) <==> exists k: nat :: Differ(a, b, k)
  {
    if b == "" {
    } else if a == "" {
      assert Differ(a, b, 0);
    } else if a[0] != b[0] {
      if a[0] < b[0] { assert Differ(a, b, 0); }
      if k: nat :| Differ(a, b, k) { DifferAtHead(a, b, k); }
    } else {
      TextBeforeExactly(a[1..], b[1..]);
      if k: nat :| Differ(a[1..], b[1..], k) {
        assert a[..k + 1] == [a[0]] + a[1..][..k] && b[..k + 1] == [b[0]] + b[1..][..k];
        assert Differ(a, b, k + 1);
      }
      if k: nat :| Differ(a, b, k) {
        if k > 0 {
          assert a[1..][..k - 1] == a[..k][1..] && b[1..][..k - 1] == b[..k][1..];
          assert Differ(a[1..], b[1..], k - 1);
        }
      }
    }
  }

  /** Jobs are listed by admission time, and by job id within one. */
  lemma BeforeExactly(a: Position, b: Position)
    ensures Before(a, b) <==> if a.ms == b.ms then TextBefore(a.jobId, b.jobId) else a.ms < b.ms
  {
    hide TextBefore;
  }

  // ---------------------------------------------------------------- what is read

  /** The rows behind a position, in the order of the listing. */
  lemma {:induction false} FollowingExactly(store: seq<Job>, after: Position, x: Job)
    ensures x in Following(store, after) <==> x in store && Before(after, x.at)
  {
    hide Before;
    if store != [] {
      FollowingExactly(store[1..], after, x);
      assert store == [store[0]] + store[1..];
    }
  }

  /** A page is the next rows, as many as asked for. */
  lemma FirstExactly<T>(rows: seq<T>, limit: nat)
    ensures First(rows, limit) == rows[..if |rows| < limit then |rows| else limit]
  {
  }

  /** Whole walks yield the readable jobs: all of them, no others, in the order of the store. */
  lemma {:induction false} ReadableExactly(store: seq<Job>)
    requires Listing(store)
    ensures forall x :: x in Readable(store) <==> x in store && x.readable
    ensures Listing(Readable(store))
  {
    hide Before, Storable;
    if store != [] {
      var rest := store[1..];
      assert store == [store[0]] + rest;
      ReadableExactly(rest);
      var kept := Readable(rest);
      forall i | 0 <= i < |kept|
        ensures Before(store[0].at, kept[i].at)
      {
        assert kept[i] in rest;
        var k :| 0 <= k < |rest| && rest[k] == kept[i];
        assert store[k + 1] == kept[i];
      }
    }
  }

  /** The cursor after a row: time and id in base 36, for rows that can be spelled. */
  lemma CursorExactly(at: Position)
    ensures CursorAfter(at)
            == if at.ms >= 0 && |at.jobId| == 64 && IsNumeral(B16, at.jobId)
               then Some(Spelling(ToText(B36, at.ms), ToText(B36, ToNumber(B16, at.jobId)))) else None
  {
    hide ToText, ToNumber, IsNumeral;
  }

  // ---------------------------------------------------------------- glossary pages

  lemma {:induction false} LaterExactly(people: seq<Person>, after: int, p: Person)
    ensures p in Later(people, after) <==> p in people && after < p.id
  {
    if people != [] {
      LaterExactly(people[1..], after, p);
      assert people == [people[0]] + people[1..];
    }
  }

  /** The bytes of a page, added up from either end. */
  lemma {:induction false} BytesFromFront(people: seq<Person>)
    requires people != []
    ensures Bytes(people) == people[0].bytes + Bytes(people[1..])
  {
    if |people| > 1 {
      BytesFromFront(people[..|people| - 1]);
      assert people[..|people| - 1][1..] == people[1..][..|people[1..]| - 1];
    } else {
      assert people[..0] == [] && people[1..] == [];
    }
  }

  /** A page takes as many entries as fit, and one more would not. */
  lemma {:induction false} FittingExactly(people: seq<Person>, room: int)
    requires room >= 0
    ensures Bytes(people[..Fitting(people, room)]) <= room
    ensures Fitting(people, room) < |people| ==> room < Bytes(people[..Fitting(people, room) + 1])
  {
    if people != [] {
      var rest, head := people[1..], people[0].bytes;
      assert people[..1] == [people[0]] && [people[0]][1..] == [];
      if head <= room {
        FittingExactly(rest, room - head);
        var n := Fitting(rest, room - head);
        BytesFromFront(people[..n + 1]);
        assert people[..n + 1][1..] == rest[..n];
        if n < |rest| {
          BytesFromFront(people[..n + 2]);
          assert people[..n + 2][1..] == rest[..n + 1];
        }
      } else {
        BytesFromFront([people[0]]);
      }
    }
  }

  /** The room is 256 kilobytes but for four. */
  lemma RoomExactly()
    ensures BUDGET == 256 * 1024 - 4 * 1024
  {
  }

  // ---------------------------------------------------------------- the grammar

  /** Digits and lower-case letters without a leading zero, eleven and fifty at the most. */
  lemma GrammarExactly(c: Spelling)
    ensures InGrammar(c) <==>
              && 1 <= |c.timestamp| <= 11 && 1 <= |c.job| <= 50
              && (forall i | 0 <= i < |c.timestamp| :: '0' <= c.timestamp[i] <= '9' || 'a' <= c.timestamp[i] <= 'z')
              && (forall i | 0 <= i < |c.job| :: '0' <= c.job[i] <= '9' || 'a' <= c.job[i] <= 'z')
              && (c.timestamp[0] == '0' ==> c.timestamp == "0") && (c.job[0] == '0' ==> c.job == "0")
  {
  }

  // ---------------------------------------------------------------- a page from a cursor

  /** A cursor outside the grammar or that spells no position is refused, one whose time is
      not a whole second is an error, and only a missing one starts from the beginning. */
  lemma PageExactly(store: seq<Job>, cursor: Option<Spelling>, limit: nat)
    requires limit >= 1
    ensures var page := ReadJobs(store, cursor, limit);
            match cursor
            case None => page == Paged(store, limit)
            case Some(c) =>
              if !InGrammar(c) || DecodePosition(c) == None then page == BadCursor
              else if DecodePosition(c).value.ms % 1000 != 0 then page == StorageError
              else page == Paged(Following(store, DecodePosition(c).value), limit)
  {
    hide DecodePosition, IsNumeral, Following, Readable, CursorAfter;
    RowsOfPage(store, limit);
    if cursor.Some? && InGrammar(cursor.value) && DecodePosition(cursor.value).Some? {
      RowsOfPage(Following(store, DecodePosition(cursor.value).value), limit);
    }
  }

  lemma RowsOfPage(rows: seq<Job>, limit: nat)
    ensures var found := First(rows, limit + 1);
            && (|found| > limit <==> |rows| > limit)
            && First(found, limit) == if |rows| > limit then rows[..limit] else rows
  {
  }

  /** The readable ones of the next rows, and a cursor at the last row if more follow. */
  function Paged(rows: seq<Job>, limit: nat): JobPage
    requires limit >= 1
  {
    if |rows| > limit then JobPage(Readable(rows[..limit]), CursorAfter(rows[limit - 1].at)) else JobPage(Readable(rows), None)
  }
}
