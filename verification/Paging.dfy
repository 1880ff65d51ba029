/** Enumerations that follow a cursor: job pages with filtered rows, glossary pages cut by
    a byte budget, and the cyclic scan of queued questions. */
module Paging {
  import opened Cursor
  import opened Numerals
  import opened Options

  // ---------------------------------------------------------------- job pages

  datatype Job = Job(at: Position, readable: bool)

  /** Byte order of text columns. */
  predicate TextBefore(a: string, b: string) {
    b != "" && (a == "" || a[0] < b[0] || (a[0] == b[0] && TextBefore(a[1..], b[1..])))
  }

  /** The order of the job listing: admission time, then job id. */
  predicate Before(a: Position, b: Position) {
    a.ms < b.ms || (a.ms == b.ms && TextBefore(a.jobId, b.jobId))
  }

  /** Admission times are stored as whole seconds. */
  predicate Storable(p: Position) {
    ValidPosition(p) && p.ms % 1000 == 0
  }

  ghost predicate Listing(store: seq<Job>) {
    && (forall i | 0 <= i < |store| :: Storable(store[i].at))
    && (forall i, j | 0 <= i < j < |store| :: Before(store[i].at, store[j].at))
  }

  /** WHERE admitted_at > t OR (admitted_at = t AND job_id > id), in listing order. */
  function Following(store: seq<Job>, after: Position): seq<Job> {
    if store == [] then []
    else if Before(after, store[0].at) then [store[0]] + Following(store[1..], after)
    else Following(store[1..], after)
  }

  function First<T>(rows: seq<T>, limit: nat): seq<T> {
    if |rows| <= limit then rows else rows[..limit]
  }

  /** `None` is the error for a cursor time that is not a whole second. */
  function ListPage(store: seq<Job>, after: Option<Position>, limit: nat): Option<seq<Job>> {
    match after
    case None => Some(First(store, limit))
    case Some(p) => if p.ms % 1000 != 0 then None else Some(First(Following(store, p), limit))
  }

  function Readable(rows: seq<Job>): seq<Job> {
    if rows == [] then []
    else if rows[0].readable then [rows[0]] + Readable(rows[1..])
    else Readable(rows[1..])
  }

  datatype JobPage = JobPage(jobs: seq<Job>, next: Option<Spelling>) | BadCursor | StorageError

  /** The cursor after a row; a row that has no canonical spelling ends the enumeration. */
  function CursorAfter(at: Position): Option<Spelling> {
    if at.ms >= 0 && IsHash(at.jobId) then Some(EncodePosition(at)) else None
  }

  /** One page from a decoded position: one row more than asked for shows whether to go on. */
  function PageAfter(store: seq<Job>, after: Option<Position>, limit: nat): JobPage
    requires limit >= 1
  {
    match ListPage(store, after, limit + 1)
    case None => StorageError
    case Some(rows) =>
      var page := First(rows, limit);
      JobPage(Readable(page), if |rows| > limit then CursorAfter(page[|page| - 1].at) else None)
  }

  /** One page. The cursor's authentication tag is taken as valid: it only refuses more. */
  function ReadJobs(store: seq<Job>, cursor: Option<Spelling>, limit: nat): JobPage
    requires limit >= 1
  {
    match cursor
    case None => PageAfter(store, None, limit)
    case Some(c) =>
      if !InGrammar(c) || DecodePosition(c).None? then BadCursor else PageAfter(store, DecodePosition(c), limit)
  }

  /** Follow the cursors, each page with a limit of the reader's choice; `None` when a page
      fails or the limits run out before the pages. */
  function WalkJobs(store: seq<Job>, cursor: Option<Spelling>, limits: seq<nat>): Option<seq<Job>>
    requires forall i | 0 <= i < |limits| :: limits[i] >= 1
    decreases |limits|
  {
    if limits == [] then None
    else
      match ReadJobs(store, cursor, limits[0])
      case BadCursor => None
      case StorageError => None
      case JobPage(jobs, next) =>
        if next.None? then Some(jobs)
        else
          var rest := WalkJobs(store, next, limits[1..]);
          if rest.None? then None else Some(jobs + rest.value)
  }

  lemma {:induction false} TextOrderIsStrict(a: string, b: string)
    ensures !(TextBefore(a, b) && TextBefore(b, a)) && !TextBefore(a, a)
  {
    if a != "" { TextOrderIsStrict(a[1..], a[1..]); }
    if a != "" && b != "" { TextOrderIsStrict(a[1..], b[1..]); }
  }

  lemma {:induction false} AllFollow(store: seq<Job>, after: Position)
    requires forall i | 0 <= i < |store| :: Before(after, store[i].at)
    ensures Following(store, after) == store
  {
    if store != [] {
      AllFollow(store[1..], after);
      assert [store[0]] + store[1..] == store;
    }
  }

  /** After the k-th row come exactly the rows behind it. */
  lemma {:induction false} FollowingIsSuffix(store: seq<Job>, k: nat)
    requires Listing(store) && k < |store|
    ensures Following(store, store[k].at) == store[k + 1..]
  {
    hide Storable;
    var rest := store[1..];
    TextOrderIsStrict(store[0].at.jobId, store[k].at.jobId);
    if k == 0 {
      AllFollow(rest, store[0].at);
    } else {
      FollowingIsSuffix(rest, k - 1);
      assert rest[k - 1] == store[k] && rest[k..] == store[k + 1..];
    }
  }

  lemma {:induction false} ReadableConcat(a: seq<Job>, b: seq<Job>)
    ensures Readable(a + b) == Readable(a) + Readable(b)
  {
    var c := a + b;
    if a == [] {
      assert c == b;
    } else {
      ReadableConcat(a[1..], b);
      assert c[1..] == a[1..] + b;
      assert c[0] == a[0];
    }
  }

  lemma {:induction false} TextOrderIsTransitive(a: string, b: string, c: string)
    requires TextBefore(a, b) && TextBefore(b, c)
    ensures TextBefore(a, c)
  {
    if a != "" && a[0] == b[0] == c[0] { TextOrderIsTransitive(a[1..], b[1..], c[1..]); }
  }

  /** Going on from a later row is going on within what followed the earlier one. */
  lemma {:induction false} FollowingChain(store: seq<Job>, p: Position, q: Position)
    requires Before(p, q)
    ensures Following(store, q) == Following(Following(store, p), q)
  {
    if store != [] {
      FollowingChain(store[1..], p, q);
      var x := store[0].at;
      if Before(q, x) {
        if p.ms == q.ms == x.ms { TextOrderIsTransitive(p.jobId, q.jobId, x.jobId); }
        assert Before(p, x);
      }
      var f := Following(store[1..], p);
      assert ([store[0]] + f)[1..] == f;
    }
  }

  ghost predicate AllAfter(p: Position, left: seq<Job>) {
    forall i | 0 <= i < |left| :: Before(p, left[i].at)
  }

  /** The cursor stands before the rows left to read. */
  ghost predicate Stands(store: seq<Job>, cursor: Option<Spelling>, left: seq<Job>) {
    match cursor
    case None => left == store
    case Some(c) =>
      InGrammar(c) && DecodePosition(c).Some? && DecodePosition(c).value.ms % 1000 == 0
      && Following(store, DecodePosition(c).value) == left
      && AllAfter(DecodePosition(c).value, left)
  }

  /** Looking up one row more tells whether any remain after a page. */
  lemma OneRowMore<T>(left: seq<T>, limit: nat)
    ensures var rows := First(left, limit + 1);
            First(rows, limit) == First(left, limit) && (|rows| > limit <==> |left| > limit)
  {
  }

  /** A page read at a cursor takes the next rows, and its own cursor, through the text
      and back, stands before the ones after them. */
  lemma PageAt(store: seq<Job>, cursor: Option<Spelling>, left: seq<Job>, limit: nat)
    requires Listing(store) && Listing(left) && Stands(store, cursor, left) && limit >= 1
    ensures ReadJobs(store, cursor, limit).JobPage?
    ensures ReadJobs(store, cursor, limit).jobs == Readable(First(left, limit))
    ensures |left| <= limit ==> ReadJobs(store, cursor, limit).next == None
    ensures |left| > limit ==>
              ReadJobs(store, cursor, limit).next.Some? && Stands(store, ReadJobs(store, cursor, limit).next, left[limit..])
  {
    hide EncodePosition, DecodePosition, IsNumeral, Following, Readable, IsHash, Before, Listing;
    OneRowMore(left, limit);
    if |left| > limit {
      var last := left[limit - 1].at;
      LastIsStorable(left, limit - 1);
      EncodedDecodes(last);
      FollowingIsSuffix(left, limit - 1);
      if cursor.Some? {
        assert AllAfter(DecodePosition(cursor.value).value, left);
        FollowingChain(store, DecodePosition(cursor.value).value, last);
      }
      hide AllAfter;
      assert First(left, limit)[limit - 1] == left[limit - 1];
    }
  }

  /** What a cursor may be made of: the row can be spelled, and comes before those behind it. */
  lemma LastIsStorable(left: seq<Job>, k: nat)
    requires Listing(left) && k < |left|
    ensures Storable(left[k].at)
    ensures AllAfter(left[k].at, left[k + 1..])
  {
    hide Storable, Before;
  }

  lemma SuffixIsListing(left: seq<Job>, taken: nat)
    requires Listing(left) && taken <= |left|
    ensures Listing(left[taken..])
  {
    hide Storable, Before;
  }

  lemma {:induction false} WalkFrom(store: seq<Job>, cursor: Option<Spelling>, left: seq<Job>, limits: seq<nat>)
    requires Listing(store) && Listing(left) && Stands(store, cursor, left)
    requires |limits| >= 1 && |limits| >= |left| && forall i | 0 <= i < |limits| :: limits[i] >= 1
    ensures WalkJobs(store, cursor, limits) == Some(Readable(left))
    decreases |limits|
  {
    hide ReadJobs, Readable, Stands, Listing;
    PageAt(store, cursor, left, limits[0]);
    if |left| > limits[0] {
      var rest := left[limits[0]..];
      var next := ReadJobs(store, cursor, limits[0]).next;
      SuffixIsListing(left, limits[0]);
      WalkFrom(store, next, rest, limits[1..]);
      assert WalkJobs(store, cursor, limits) == Some(Readable(First(left, limits[0])) + Readable(rest));
      hide WalkJobs;
      ReadableConcat(First(left, limits[0]), rest);
      assert left == First(left, limits[0]) + rest;
    }
  }

  /** Every readable job exactly once and in order, in at most as many pages as there are
      jobs, even when whole pages are filtered out. */
  lemma WalkReadsEveryJob(store: seq<Job>, limits: seq<nat>)
    requires Listing(store) && forall i | 0 <= i < |limits| :: limits[i] >= 1
    requires |limits| >= 1 && |limits| >= |store|
    ensures WalkJobs(store, None, limits) == Some(Readable(store))
  {
    WalkFrom(store, None, store, limits);
  }

  // ---------------------------------------------------------------- glossary pages

  /** A person as the glossary serves it: the rank of the id in text order, and the bytes
      of the entry with its separator. */
  datatype Person = Person(id: int, bytes: nat)

  const MAX_PAGE_BYTES := 262_144
  const BUDGET: int := MAX_PAGE_BYTES - 4096

  ghost predicate Glossary(people: seq<Person>) {
    forall i, j | 0 <= i < j < |people| :: people[i].id < people[j].id
  }

  function Later(people: seq<Person>, after: int): seq<Person> {
    if people == [] then []
    else if people[0].id > after then [people[0]] + Later(people[1..], after)
    else Later(people[1..], after)
  }

  function Bytes(people: seq<Person>): nat {
    if people == [] then 0 else Bytes(people[..|people| - 1]) + people[|people| - 1].bytes
  }

  /** How many entries fit: the longest prefix within the room. */
  function Fitting(people: seq<Person>, room: int): nat
    ensures Fitting(people, room) <= |people|
  {
    if people == [] || people[0].bytes > room then 0 else 1 + Fitting(people[1..], room - people[0].bytes)
  }

  /** The loop with its early break. */
  method CutPage(ids: seq<Person>) returns (people: seq<Person>)
    ensures people == ids[..Fitting(ids, BUDGET)]
    ensures Bytes(people) <= BUDGET
  {
    people := [];
    var size := 0;
    for i := 0 to |ids|
      invariant people == ids[..i] && size == Bytes(people) <= BUDGET
      invariant Fitting(ids, BUDGET) == i + Fitting(ids[i..], BUDGET - size)
    {
      if size + ids[i].bytes > BUDGET {
        return;
      }
      people := people + [ids[i]];
      size := size + ids[i].bytes;
      assert people[..|people| - 1] == ids[..i] && ids[i..][1..] == ids[i + 1..];
    }
    assert ids[..|ids|] == ids;
  }

  datatype GlossaryPage = GlossaryPage(people: seq<Person>, next: Option<int>) | Unavailable

  function ReadGlossary(store: seq<Person>, after: Option<int>, limit: nat): GlossaryPage
    requires limit >= 1
  {
    GlossaryOf(if after.None? then store else Later(store, after.value), limit)
  }

  /** The page cut from the people behind the cursor; one more than asked for is looked up. */
  function GlossaryOf(left: seq<Person>, limit: nat): GlossaryPage
    requires limit >= 1
  {
    var found := First(left, limit + 1);
    var ids := First(found, limit);
    var people := ids[..Fitting(ids, BUDGET)];
    if ids != [] && people == [] then Unavailable
    else
      var more := |found| > |ids| || |people| < |ids|;
      GlossaryPage(people, if more && people != [] then Some(people[|people| - 1].id) else None)
  }

  datatype Walked = Walked(people: seq<Person>, complete: bool)

  /** Follow the cursors until the last page, a refusal, or `pages` pages. */
  function WalkGlossary(store: seq<Person>, after: Option<int>, limit: nat, pages: nat): Walked
    requires limit >= 1
    decreases pages
  {
    if pages == 0 then Walked([], false)
    else
      match ReadGlossary(store, after, limit)
      case Unavailable => Walked([], false)
      case GlossaryPage(people, next) =>
        if next.None? then Walked(people, true)
        else
          var rest := WalkGlossary(store, next, limit, pages - 1);
          Walked(people + rest.people, rest.complete)
  }

  lemma {:induction false} AllLater(people: seq<Person>, after: int)
    requires forall i | 0 <= i < |people| :: people[i].id > after
    ensures Later(people, after) == people
  {
    if people != [] {
      AllLater(people[1..], after);
      assert [people[0]] + people[1..] == people;
    }
  }

  lemma {:induction false} LaterIsSuffix(people: seq<Person>, k: nat)
    requires Glossary(people) && k < |people|
    ensures Later(people, people[k].id) == people[k + 1..]
  {
    var rest := people[1..];
    if k == 0 {
      AllLater(rest, people[0].id);
    } else {
      LaterIsSuffix(rest, k - 1);
      assert rest[k - 1] == people[k] && rest[k..] == people[k + 1..];
    }
  }

  lemma {:induction false} LaterChain(people: seq<Person>, p: int, q: int)
    requires p <= q
    ensures Later(people, q) == Later(Later(people, p), q)
  {
    if people != [] {
      LaterChain(people[1..], p, q);
      var f := Later(people[1..], p);
      assert ([people[0]] + f)[1..] == f;
    }
  }

  /** A page serves a prefix of the people left and names the last one if any remain. */
  lemma GlossaryOfLeft(left: seq<Person>, limit: nat)
    requires limit >= 1
    ensures var taken := Fitting(First(left, limit), BUDGET);
            && taken <= |left|
            && GlossaryOf(left, limit)
               == if left != [] && taken == 0 then Unavailable
                  else GlossaryPage(left[..taken], if taken < |left| then Some(left[taken - 1].id) else None)
  {
    OneRowMore(left, limit);
    var ids := First(left, limit);
    var taken := Fitting(ids, BUDGET);
    hide Fitting;
    assert ids[..taken] == left[..taken];
  }

  /** How far an enumeration can get: up to the first entry that fits on no page. */
  function Servable(people: seq<Person>): nat
    ensures Servable(people) <= |people|
  {
    if people == [] || people[0].bytes > BUDGET then 0 else 1 + Servable(people[1..])
  }

  lemma {:induction false} FittingIsServable(people: seq<Person>, room: int)
    requires room <= BUDGET
    ensures Fitting(people, room) <= Servable(people)
  {
    if people != [] && people[0].bytes <= room {
      FittingIsServable(people[1..], room - people[0].bytes);
    }
  }

  lemma {:induction false} ServableSplits(people: seq<Person>, k: nat)
    requires k <= Servable(people)
    ensures Servable(people) == k + Servable(people[k..])
  {
    if k > 0 {
      ServableSplits(people[1..], k - 1);
      assert people[1..][k - 1..] == people[k..];
    } else {
      assert people[0..] == people;
    }
  }

  lemma {:induction false} ServableOfPrefix(people: seq<Person>, limit: nat)
    ensures Servable(First(people, limit)) <= Servable(people)
  {
    if people != [] && limit > 0 {
      ServableOfPrefix(people[1..], limit - 1);
      assert First(people, limit)[1..] == First(people[1..], limit - 1);
    }
  }

  /** What a page takes is servable, and what is left to serve is behind it. */
  lemma PageIsServable(left: seq<Person>, limit: nat)
    requires limit >= 1
    ensures var ids := First(left, limit);
            var taken := Fitting(ids, BUDGET);
            && taken <= |left| && Servable(left) == taken + Servable(left[taken..])
            && (taken == 0 ==> Servable(left) == 0)
  {
    var ids := First(left, limit);
    FittingIsServable(ids, BUDGET);
    ServableOfPrefix(left, limit);
    ServableSplits(left, Fitting(ids, BUDGET));
  }

  /** Those left behind a cursor, and those left behind the next one. */
  lemma NextCursor(store: seq<Person>, after: Option<int>, left: seq<Person>, taken: nat)
    requires Glossary(left) && 0 < taken <= |left|
    requires if after.None? then left == store else left == Later(store, after.value) && left[0].id > after.value
    ensures Later(store, left[taken - 1].id) == left[taken..]
  {
    LaterIsSuffix(left, taken - 1);
    if after.Some? {
      LaterChain(store, after.value, left[taken - 1].id);
    }
  }

  lemma {:induction false} LaterAreLater(people: seq<Person>, after: int)
    ensures forall p | p in Later(people, after) :: p.id > after
  {
    if people != [] { LaterAreLater(people[1..], after); }
  }

  lemma SuffixIsGlossary(left: seq<Person>, taken: nat)
    requires Glossary(left) && taken <= |left|
    ensures Glossary(left[taken..])
  {
  }

  lemma {:induction false} WalkGlossaryFrom(store: seq<Person>, after: Option<int>, left: seq<Person>, limit: nat, pages: nat)
    requires Glossary(left) && limit >= 1 && pages > |left|
    requires left == if after.None? then store else Later(store, after.value)
    ensures WalkGlossary(store, after, limit, pages) == Walked(left[..Servable(left)], Servable(left) == |left|)
    decreases pages
  {
    hide GlossaryOf, Fitting, First, Servable, Later, Glossary;
    var taken := Fitting(First(left, limit), BUDGET);
    GlossaryOfLeft(left, limit);
    PageIsServable(left, limit);
    if 0 < taken < |left| {
      var rest := left[taken..];
      var next := Some(left[taken - 1].id);
      if after.Some? { LaterAreLater(store, after.value); }
      NextCursor(store, after, left, taken);
      SuffixIsGlossary(left, taken);
      WalkGlossaryFrom(store, next, rest, limit, pages - 1);
      var tail := WalkGlossary(store, next, limit, pages - 1);
      assert WalkGlossary(store, after, limit, pages) == Walked(left[..taken] + tail.people, tail.complete);
      hide WalkGlossary, ReadGlossary;
      PrefixOfRest(left, taken, Servable(rest));
    }
  }

  lemma PrefixOfRest<T>(left: seq<T>, taken: nat, more: nat)
    requires taken + more <= |left|
    ensures left[..taken] + left[taken..][..more] == left[..taken + more]
  {
  }

  /** Every person exactly once and in order, exactly when each entry alone fits a page;
      otherwise everyone before the first that does not, and then the walk is refused. */
  lemma WalkReadsGlossary(store: seq<Person>, limit: nat)
    requires Glossary(store) && limit >= 1
    ensures var walk := WalkGlossary(store, None, limit, |store| + 1);
            && walk.people == store[..Servable(store)]
            && (walk.complete <==> walk.people == store)
            && (walk.complete <==> forall p | p in store :: p.bytes <= BUDGET)
  {
    WalkGlossaryFrom(store, None, store, limit, |store| + 1);
    ServableAll(store);
  }

  lemma {:induction false} ServableAll(people: seq<Person>)
    ensures Servable(people) == |people| <==> forall p | p in people :: p.bytes <= BUDGET
  {
    if people != [] {
      ServableAll(people[1..]);
      assert people == [people[0]] + people[1..];
    }
  }
}
