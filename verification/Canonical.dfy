/** Canonical JSON text: object keys sorted at every level and no white space, so that
    equal values have one text and different values have different texts. A string is a
    sequence of Unicode scalar values, that is a well-formed string of either language. */
module Canonical {
  import opened NumberText
  import opened Options

  // ---------------------------------------------------------------- values

  datatype Json =
    | Null
    | Bool(b: bool)
    | Num(n: Number)
    | Str(s: string)
    | Arr(items: Items)
    | Obj(fields: Fields)

  datatype Items = NoItem | Item(head: Json, tail: Items)

  /** The entries of an object in the order they were added. */
  datatype Fields = NoField | Field(key: string, value: Json, rest: Fields)

  function Keys(f: Fields): set<string> {
    match f
    case NoField => {}
    case Field(k, _, rest) => {k} + Keys(rest)
  }

  function Lookup(f: Fields, key: string): Option<Json> {
    match f
    case NoField => None
    case Field(k, v, rest) => if k == key then Some(v) else Lookup(rest, key)
  }

  /** No object names a key twice: what a parsed object guarantees. */
  predicate Proper(v: Json) {
    match v
    case Arr(items) => ProperItems(items)
    case Obj(fields) => ProperFields(fields)
    case _ => true
  }

  predicate ProperItems(items: Items) {
    match items
    case NoItem => true
    case Item(v, tail) => Proper(v) && ProperItems(tail)
  }

  predicate ProperFields(f: Fields) {
    match f
    case NoField => true
    case Field(k, v, rest) => k !in Keys(rest) && Proper(v) && ProperFields(rest)
  }

  /** The same value: arrays element by element, objects as maps. */
  predicate Same(a: Json, b: Json) {
    match a
    case Arr(items) => b.Arr? && SameItems(items, b.items)
    case Obj(fields) => b.Obj? && Keys(fields) == Keys(b.fields) && SameFields(fields, b.fields)
    case _ => a == b
  }

  predicate SameItems(a: Items, b: Items) {
    match a
    case NoItem => b.NoItem?
    case Item(v, tail) => b.Item? && Same(v, b.head) && SameItems(tail, b.tail)
  }

  /** Every entry of `f` is in `g` under the same key. */
  predicate SameFields(f: Fields, g: Fields) {
    match f
    case NoField => true
    case Field(k, v, rest) => Lookup(g, k).Some? && Same(v, Lookup(g, k).value) && SameFields(rest, g)
  }

  // ---------------------------------------------------------------- key orders

  /** By code point, as Python and the intent's comparator sort; by UTF-16 code unit, as
      JavaScript sorts by default. */
  datatype Order = ByCodePoint | ByCodeUnit

  function Units(c: char): seq<int>
    ensures |Units(c)| >= 1
  {
    var n := c as int;
    if n < 0x10000 then [n] else [0xD800 + (n - 0x10000) / 0x400, 0xDC00 + (n - 0x10000) % 0x400]
  }

  function Rank(order: Order, c: char): int {
    match order
    case ByCodePoint => c as int
    // The first unit of a pair sorts among the surrogates, below U+E000; the pair itself
    // breaks ties, so that one number decides between any two characters.
    case ByCodeUnit => Units(c)[0] * 0x10000 + (if |Units(c)| == 2 then Units(c)[1] else 0)
  }

  predicate Before(order: Order, a: string, b: string) {
    b != "" && (a == "" || Rank(order, a[0]) < Rank(order, b[0])
                || (a[0] == b[0] && Before(order, a[1..], b[1..])))
  }

  lemma RankIsInjective(order: Order, c: char, d: char)
    ensures Rank(order, c) == Rank(order, d) <==> c == d
  {
  }

  lemma {:induction false} OrderIsTotal(order: Order, a: string, b: string)
    ensures Before(order, a, b) || a == b || Before(order, b, a)
    ensures !(Before(order, a, b) && Before(order, b, a)) && !Before(order, a, a)
  {
    if a != "" { OrderIsTotal(order, a[1..], a[1..]); }
    if a != "" && b != "" {
      RankIsInjective(order, a[0], b[0]);
      OrderIsTotal(order, a[1..], b[1..]);
      if a[0] == b[0] && a[1..] == b[1..] { assert a == [a[0]] + a[1..] && b == [b[0]] + b[1..]; }
    }
  }

  lemma {:induction false} OrderIsTransitive(order: Order, a: string, b: string, c: string)
    requires Before(order, a, b) && Before(order, b, c)
    ensures Before(order, a, c)
  {
    if a != "" && a[0] == b[0] == c[0] { OrderIsTransitive(order, a[1..], b[1..], c[1..]); }
  }

  function Utf16(s: string): seq<int> {
    if s == "" then [] else Units(s[0]) + Utf16(s[1..])
  }

  predicate UnitsBefore(a: seq<int>, b: seq<int>) {
    b != [] && (a == [] || a[0] < b[0] || (a[0] == b[0] && UnitsBefore(a[1..], b[1..])))
  }

  /** Comparing ranks is comparing the strings' UTF-16 code units. */
  lemma {:induction false} RanksCompareUnits(a: string, b: string)
    ensures Before(ByCodeUnit, a, b) <==> UnitsBefore(Utf16(a), Utf16(b))
  {
    if a != "" && b != "" {
      var u, v := Units(a[0]), Units(b[0]);
      RanksCompareUnits(a[1..], b[1..]);
      RankIsInjective(ByCodeUnit, a[0], b[0]);
      var x, y := Utf16(a), Utf16(b);
      assert |u| == 1 ==> x[1..] == Utf16(a[1..]);
      assert |v| == 1 ==> y[1..] == Utf16(b[1..]);
      assert |u| == 2 ==> x[1..][1..] == Utf16(a[1..]) && x[1..][0] == u[1];
      assert |v| == 2 ==> y[1..][1..] == Utf16(b[1..]) && y[1..][0] == v[1];
    }
  }

  /** The comparator's loop: negative, zero or positive. */
  method CompareByCodePoint(a: string, b: string) returns (d: int)
    ensures d < 0 <==> Before(ByCodePoint, a, b)
    ensures d == 0 <==> a == b
  {
    OrderIsTotal(ByCodePoint, a, b);
    var n := if |a| <= |b| then |a| else |b|;
    for i := 0 to n
      invariant a[..i] == b[..i]
      invariant Before(ByCodePoint, a, b) == Before(ByCodePoint, a[i..], b[i..])
    {
      d := a[i] as int - b[i] as int;
      assert a[i..][1..] == a[i + 1..] && b[i..][1..] == b[i + 1..];
      if d != 0 {
        return;
      }
    }
    d := |a| - |b|;
    if d == 0 { assert a == a[..n] && b == b[..n]; }
  }

  /** The two orders differ on characters beyond the basic plane, which is why the intent
      does not use JavaScript's default. */
  lemma OrdersDiffer()
    ensures Before(ByCodePoint, "\U{FFFD}", "\U{10000}") && Before(ByCodeUnit, "\U{10000}", "\U{FFFD}")
  {
  }

  // ---------------------------------------------------------------- normal form

  function Insert(order: Order, k: string, v: Json, f: Fields): Fields {
    match f
    case NoField => Field(k, v, NoField)
    case Field(j, w, rest) => if Before(order, k, j) then Field(k, v, f) else Field(j, w, Insert(order, k, v, rest))
  }

  function Normal(order: Order, v: Json): Json {
    match v
    case Arr(items) => Arr(NormalItems(order, items))
    case Obj(fields) => Obj(NormalFields(order, fields))
    case _ => v
  }

  function NormalItems(order: Order, items: Items): Items {
    match items
    case NoItem => NoItem
    case Item(v, tail) => Item(Normal(order, v), NormalItems(order, tail))
  }

  function NormalFields(order: Order, f: Fields): Fields {
    match f
    case NoField => NoField
    case Field(k, v, rest) => Insert(order, k, Normal(order, v), NormalFields(order, rest))
  }

  ghost predicate Sorted(order: Order, f: Fields) {
    match f
    case NoField => true
    case Field(k, _, rest) => (forall j | j in Keys(rest) :: Before(order, k, j)) && Sorted(order, rest)
  }

  lemma {:induction false} InsertKeepsSorted(order: Order, k: string, v: Json, f: Fields)
    requires Sorted(order, f) && k !in Keys(f)
    ensures Sorted(order, Insert(order, k, v, f)) && Keys(Insert(order, k, v, f)) == Keys(f) + {k}
    ensures forall x :: Lookup(Insert(order, k, v, f), x) == if x == k then Some(v) else Lookup(f, x)
  {
    match f
    case NoField =>
    case Field(j, w, rest) =>
      OrderIsTotal(order, k, j);
      if Before(order, k, j) {
        forall x | x in Keys(rest)
          ensures Before(order, k, x)
        {
          OrderIsTransitive(order, k, j, x);
        }
        AbsentKey(f, k);
      } else {
        InsertKeepsSorted(order, k, v, rest);
      }
  }

  lemma {:induction false} AbsentKey(f: Fields, k: string)
    ensures k in Keys(f) <==> Lookup(f, k).Some?
  {
    match f
    case NoField =>
    case Field(j, _, rest) => AbsentKey(rest, k);
  }

  lemma {:induction false} NormalFieldsSorted(order: Order, f: Fields)
    requires ProperFields(f)
    ensures Sorted(order, NormalFields(order, f)) && Keys(NormalFields(order, f)) == Keys(f)
    ensures forall k :: Lookup(NormalFields(order, f), k)
                        == match Lookup(f, k) case None => None case Some(v) => Some(Normal(order, v))
  {
    match f
    case NoField =>
    case Field(k, v, rest) =>
      NormalFieldsSorted(order, rest);
      InsertKeepsSorted(order, k, Normal(order, v), NormalFields(order, rest));
  }

  /** Sorted entries are determined by what they say about each key. */
  lemma {:induction false} SortedUnique(order: Order, f: Fields, g: Fields)
    requires Sorted(order, f) && Sorted(order, g) && forall k :: Lookup(f, k) == Lookup(g, k)
    ensures f == g
  {
    var first := if g.Field? then g.key else "";
    assert Lookup(f, first) == Lookup(g, first);
    match f
    case NoField =>
    case Field(k, v, rest) =>
      assert Lookup(f, k).Some?;
      AbsentKey(g, k);
      AbsentKey(f, g.key);
      OrderIsTotal(order, k, g.key);
      assert k == g.key;
      SortedHeadIsNew(order, f);
      SortedHeadIsNew(order, g);
      forall j
        ensures Lookup(rest, j) == Lookup(g.rest, j)
      {
        assert Lookup(f, j) == Lookup(g, j);
      }
      SortedUnique(order, rest, g.rest);
  }

  lemma SortedHeadIsNew(order: Order, f: Fields)
    requires Sorted(order, f) && f.Field?
    ensures Lookup(f.rest, f.key).None?
  {
    OrderIsTotal(order, f.key, f.key);
    AbsentKey(f.rest, f.key);
  }

  // ---------------------------------------------------------------- same value, same normal form

  lemma {:induction false} SameHasOneNormal(order: Order, a: Json, b: Json)
    requires Proper(a) && Proper(b)
    ensures Same(a, b) <==> Normal(order, a) == Normal(order, b)
    decreases a
  {
    match a
    case Arr(items) => if b.Arr? { SameItemsHaveOneNormal(order, items, b.items); }
    case Obj(f) =>
      if b.Obj? {
        SameFieldsLookup(order, f, b.fields);
        AlikeHasOneNormal(order, f, b.fields);
      }
    case _ =>
  }

  lemma {:induction false} SameItemsHaveOneNormal(order: Order, a: Items, b: Items)
    requires ProperItems(a) && ProperItems(b)
    ensures SameItems(a, b) <==> NormalItems(order, a) == NormalItems(order, b)
    decreases a
  {
    if a.Item? && b.Item? {
      SameHasOneNormal(order, a.head, b.head);
      SameItemsHaveOneNormal(order, a.tail, b.tail);
    }
  }

  predicate AlikeAt(order: Order, f: Fields, g: Fields, k: string) {
    Lookup(f, k).Some? && Lookup(g, k).Some? && Normal(order, Lookup(f, k).value) == Normal(order, Lookup(g, k).value)
  }

  /** Entry by entry: the values under a key are the same exactly when their normal forms are. */
  lemma {:induction false} SameFieldsLookup(order: Order, f: Fields, g: Fields)
    requires ProperFields(f) && ProperFields(g)
    ensures SameFields(f, g) <==> forall k | k in Keys(f) :: AlikeAt(order, f, g, k)
    decreases f
  {
    match f
    case NoField =>
    case Field(k, v, rest) =>
      SameFieldsLookup(order, rest, g);
      if Lookup(g, k).Some? {
        LookupIsProper(g, k);
        SameHasOneNormal(order, v, Lookup(g, k).value);
      }
      assert AlikeAt(order, f, g, k) <==> Lookup(g, k).Some? && Same(v, Lookup(g, k).value);
      assert forall j | j in Keys(rest) :: j != k && AlikeAt(order, f, g, j) == AlikeAt(order, rest, g, j);
  }

  /** Two objects have one normal form exactly when they have the same keys, alike. */
  lemma AlikeHasOneNormal(order: Order, f: Fields, g: Fields)
    requires ProperFields(f) && ProperFields(g)
    ensures NormalFields(order, f) == NormalFields(order, g) <==>
              Keys(f) == Keys(g) && forall k | k in Keys(f) :: AlikeAt(order, f, g, k)
  {
    var nf, ng := NormalFields(order, f), NormalFields(order, g);
    NormalFieldsSorted(order, f);
    NormalFieldsSorted(order, g);
    if nf == ng {
      forall k | k in Keys(f)
        ensures AlikeAt(order, f, g, k)
      {
        AbsentKey(f, k);
        AbsentKey(g, k);
        assert Lookup(nf, k) == Lookup(ng, k);
      }
    } else if Keys(f) == Keys(g) && forall k | k in Keys(f) :: AlikeAt(order, f, g, k) {
      forall k
        ensures Lookup(nf, k) == Lookup(ng, k)
      {
        AbsentKey(f, k);
        AbsentKey(g, k);
      }
      SortedUnique(order, nf, ng);
    }
  }

  lemma {:induction false} LookupIsProper(g: Fields, k: string)
    requires ProperFields(g) && Lookup(g, k).Some?
    ensures Proper(Lookup(g, k).value)
  {
    if g.key != k { LookupIsProper(g.rest, k); }
  }
}
