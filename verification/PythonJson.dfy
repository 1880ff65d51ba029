/** The pipeline's side of canonical text: its own sort, and dictionaries dumped by looking
    up sorted keys. It shares nothing with the worker's sorts but the order they go by. */
module PythonJson {
  import opened Canonical
  import opened Options
  import opened TextSort

  // ---------------------------------------------------------------- sorted()

  function Merge(a: seq<string>, b: seq<string>): seq<string>
    decreases |a| + |b|
  {
    if a == [] then b
    else if b == [] then a
    else if Before(ByCodePoint, b[0], a[0]) then [b[0]] + Merge(a, b[1..])
    else [a[0]] + Merge(a[1..], b)
  }

  function SortedList(list: seq<string>): seq<string>
    decreases |list|
  {
    if |list| <= 1 then list
    else Merge(SortedList(list[..|list| / 2]), SortedList(list[|list| / 2..]))
  }

  lemma SortedRest(list: seq<string>)
    requires SortedTexts(ByCodePoint, list) && list != []
    ensures SortedTexts(ByCodePoint, list[1..]) && forall x | x in list :: !Before(ByCodePoint, x, list[0])
  {
    SortedTail(ByCodePoint, list);
  }

  lemma {:induction false} MergeSorts(a: seq<string>, b: seq<string>)
    requires SortedTexts(ByCodePoint, a) && SortedTexts(ByCodePoint, b)
    ensures SortedTexts(ByCodePoint, Merge(a, b)) && multiset(Merge(a, b)) == multiset(a) + multiset(b)
    decreases |a| + |b|
  {
    hide Before, SortedTexts;
    if a != [] && b != [] {
      SortedRest(a);
      SortedRest(b);
      assert a == [a[0]] + a[1..] && b == [b[0]] + b[1..];
      if Before(ByCodePoint, b[0], a[0]) {
        MergeSorts(a, b[1..]);
        NoneBefore(Merge(a, b[1..]), a, b, b[0]);
        HeadBeforeAll(ByCodePoint, b[0], Merge(a, b[1..]));
      } else {
        MergeSorts(a[1..], b);
        NoneBefore(Merge(a[1..], b), a, b, a[0]);
        HeadBeforeAll(ByCodePoint, a[0], Merge(a[1..], b));
      }
    }
  }

  /** The smaller head comes before everything that is still to be merged. */
  lemma NoneBefore(list: seq<string>, a: seq<string>, b: seq<string>, s: string)
    requires a != [] && b != [] && multiset(list) <= multiset(a) + multiset(b)
    requires forall x | x in a :: !Before(ByCodePoint, x, a[0])
    requires forall x | x in b :: !Before(ByCodePoint, x, b[0])
    requires s == if Before(ByCodePoint, b[0], a[0]) then b[0] else a[0]
    ensures forall x | x in list :: !Before(ByCodePoint, x, s)
  {
    hide Before;
    forall x | x in list
      ensures !Before(ByCodePoint, x, s)
    {
      assert x in multiset(list);
      assert x in a || x in b;
      OrderIsTotal(ByCodePoint, b[0], a[0]);
      if x in a && s == b[0] {
        NotBeforeChain(ByCodePoint, x, a[0], b[0]);
      } else if x in b && s == a[0] {
        NotBeforeChain(ByCodePoint, x, b[0], a[0]);
      }
    }
  }

  lemma {:induction false} SortedListSorts(list: seq<string>)
    ensures SortedTexts(ByCodePoint, SortedList(list)) && multiset(SortedList(list)) == multiset(list)
    decreases |list|
  {
    hide Before, Merge;
    if |list| > 1 {
      var a, b := list[..|list| / 2], list[|list| / 2..];
      SortedListSorts(a);
      SortedListSorts(b);
      MergeSorts(SortedList(a), SortedList(b));
      assert list == a + b;
    }
  }

  /** Two sorts, one result. */
  lemma SortsAgree(list: seq<string>)
    ensures SortedList(list) == SortTexts(ByCodePoint, list)
  {
    SortedListSorts(list);
    SortTextsSorts(ByCodePoint, list);
    SortedTextsUnique(ByCodePoint, SortedList(list), SortTexts(ByCodePoint, list));
  }

  // ---------------------------------------------------------------- dictionaries

  function KeyList(f: Fields): seq<string> {
    match f
    case NoField => []
    case Field(k, _, rest) => [k] + KeyList(rest)
  }

  predicate DistinctKeys(f: Fields) {
    match f
    case NoField => true
    case Field(k, _, rest) => k !in Keys(rest) && DistinctKeys(rest)
  }

  lemma {:induction false} ProperIsDistinct(f: Fields)
    requires ProperFields(f)
    ensures DistinctKeys(f)
  {
    if f.Field? { ProperIsDistinct(f.rest); }
  }

  /** The entries of a dictionary in the order of a list of its keys. */
  function ItemsOf(keys: seq<string>, f: Fields): Fields {
    if keys == [] then NoField
    else if Lookup(f, keys[0]).None? then ItemsOf(keys[1..], f)
    else Field(keys[0], Lookup(f, keys[0]).value, ItemsOf(keys[1..], f))
  }

  function SortedDict(f: Fields): Fields {
    ItemsOf(SortedList(KeyList(f)), f)
  }

  lemma {:induction false} KeyListIsKeys(f: Fields)
    requires DistinctKeys(f)
    ensures forall k :: k in KeyList(f) <==> k in Keys(f)
    ensures forall k :: multiset(KeyList(f))[k] <= 1
  {
    match f
    case NoField =>
    case Field(k, v, rest) =>
      KeyListIsKeys(rest);
      assert k !in multiset(KeyList(rest));
  }

  lemma {:induction false} ItemsOfLookup(keys: seq<string>, f: Fields, k: string)
    ensures Lookup(ItemsOf(keys, f), k) == if k in keys then Lookup(f, k) else None
  {
    if keys != [] {
      ItemsOfLookup(keys[1..], f, k);
      assert keys == [keys[0]] + keys[1..];
    }
  }

  lemma {:induction false} ItemsOfSorted(keys: seq<string>, f: Fields)
    requires SortedTexts(ByCodePoint, keys) && forall k :: multiset(keys)[k] <= 1
    ensures Sorted(ByCodePoint, ItemsOf(keys, f)) && forall k | k in Keys(ItemsOf(keys, f)) :: k in keys
  {
    if keys != [] {
      var rest := keys[1..];
      assert keys == [keys[0]] + rest;
      SortedRest(keys);
      assert forall k :: multiset(rest)[k] <= multiset(keys)[k];
      assert keys[0] !in multiset(rest);
      ItemsOfSorted(rest, f);
      hide Before;
      forall k | k in Keys(ItemsOf(rest, f))
        ensures Before(ByCodePoint, keys[0], k)
      {
        assert k in rest && k in multiset(rest);
        OrderIsTotal(ByCodePoint, keys[0], k);
      }
    }
  }

  lemma SortedDictKeeps(f: Fields)
    requires DistinctKeys(f)
    ensures Sorted(ByCodePoint, SortedDict(f)) && forall k :: Lookup(SortedDict(f), k) == Lookup(f, k)
  {
    hide Sorted, ItemsOf, SortedList, SortedTexts;
    var keys := SortedList(KeyList(f));
    KeyListIsKeys(f);
    SortedListSorts(KeyList(f));
    ItemsOfSorted(keys, f);
    forall k
      ensures Lookup(SortedDict(f), k) == Lookup(f, k)
    {
      ItemsOfLookup(keys, f, k);
      AbsentKey(f, k);
      assert k in keys <==> k in multiset(keys);
      assert k in KeyList(f) <==> k in multiset(KeyList(f));
    }
  }

  // ---------------------------------------------------------------- sort_keys

  /** What json.dumps prints with sort_keys: every dictionary in the order of its keys. */
  function KeySorted(v: Json): Json {
    match v
    case Arr(items) => Arr(KeySortedItems(items))
    case Obj(f) => Obj(SortedDict(KeySortedValues(f)))
    case _ => v
  }

  function KeySortedItems(items: Items): Items {
    match items
    case NoItem => NoItem
    case Item(v, tail) => Item(KeySorted(v), KeySortedItems(tail))
  }

  function KeySortedValues(f: Fields): Fields {
    match f
    case NoField => NoField
    case Field(k, v, rest) => Field(k, KeySorted(v), KeySortedValues(rest))
  }

  /** Looking up sorted keys gives what the worker's sort of the entries gives. */
  lemma {:induction false} KeySortedIsNormal(v: Json)
    requires Proper(v)
    ensures KeySorted(v) == Normal(ByCodePoint, v)
    decreases v
  {
    match v
    case Arr(items) => ItemsAreNormal(items);
    case Obj(f) =>
      ValuesAreNormal(f);
      var values := KeySortedValues(f);
      SortedDictKeeps(values);
      NormalFieldsSorted(ByCodePoint, f);
      SortedUnique(ByCodePoint, SortedDict(values), NormalFields(ByCodePoint, f));
    case _ =>
  }

  lemma {:induction false} ItemsAreNormal(items: Items)
    requires ProperItems(items)
    ensures KeySortedItems(items) == NormalItems(ByCodePoint, items)
    decreases items
  {
    if items.Item? {
      KeySortedIsNormal(items.head);
      ItemsAreNormal(items.tail);
    }
  }

  lemma {:induction false} ValuesAreNormal(f: Fields)
    requires ProperFields(f)
    ensures DistinctKeys(KeySortedValues(f)) && Keys(KeySortedValues(f)) == Keys(f)
    ensures forall k :: Lookup(KeySortedValues(f), k)
                        == match Lookup(f, k) case None => None case Some(v) => Some(Normal(ByCodePoint, v))
    decreases f
  {
    match f
    case NoField =>
    case Field(k, v, rest) =>
      KeySortedIsNormal(v);
      ValuesAreNormal(rest);
  }
}
