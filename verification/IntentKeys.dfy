/** Query intents and their artifact keys, in both implementations. */
module IntentKeys {
  import opened Canonical
  import opened CanonicalText
  import opened NumberText
  import opened Options
  import opened PythonJson
  import opened TextSort

  datatype Intent = Intent(
    metric: string, entityType: string, entityId: string, season: string, competition: string,
    dimensions: seq<string>, filters: Fields, viz: string, limit: SafeInt)

  /** Filters map strings to strings. */
  predicate Texts(f: Fields) {
    match f
    case NoField => true
    case Field(_, v, rest) => v.Str? && Texts(rest)
  }

  predicate ValidIntent(i: Intent) {
    ProperFields(i.filters) && Texts(i.filters)
  }

  /** What an intent means: the order of dimensions and of filters says nothing. */
  ghost predicate SameIntent(a: Intent, b: Intent) {
    && a.metric == b.metric && a.entityType == b.entityType && a.entityId == b.entityId && a.season == b.season
    && a.competition == b.competition && a.viz == b.viz && a.limit == b.limit
    && multiset(a.dimensions) == multiset(b.dimensions)
    && forall k :: AgreeAt(a.filters, b.filters, k)
  }

  // ---------------------------------------------------------------- sorted dimensions

  /** Sorting forgets the order of dimensions and nothing else. */
  lemma SortedDimensionsMean(a: seq<string>, b: seq<string>)
    ensures SortTexts(ByCodePoint, a) == SortTexts(ByCodePoint, b) <==> multiset(a) == multiset(b)
  {
    SortTextsSorts(ByCodePoint, a);
    SortTextsSorts(ByCodePoint, b);
    if multiset(a) == multiset(b) { SortedTextsUnique(ByCodePoint, SortTexts(ByCodePoint, a), SortTexts(ByCodePoint, b)); }
  }

  function TextItems(list: seq<string>): Items {
    if list == [] then NoItem else Item(Str(list[0]), TextItems(list[1..]))
  }

  lemma {:induction false} TextItemsSame(a: seq<string>, b: seq<string>)
    ensures SameItems(TextItems(a), TextItems(b)) <==> a == b
    ensures ProperItems(TextItems(a))
  {
    if a != [] { TextItemsSame(a[1..], a[1..]); }
    if a != [] && b != [] {
      TextItemsSame(a[1..], b[1..]);
      if a[0] == b[0] && a[1..] == b[1..] { assert a == [a[0]] + a[1..] && b == [b[0]] + b[1..]; }
    }
  }

  // ---------------------------------------------------------------- sorted filters

  function SortFields(f: Fields): Fields {
    match f
    case NoField => NoField
    case Field(k, v, rest) => Insert(ByCodePoint, k, v, SortFields(rest))
  }

  lemma {:induction false} SortFieldsKeeps(f: Fields)
    requires ProperFields(f) && Texts(f)
    ensures Sorted(ByCodePoint, SortFields(f)) && Keys(SortFields(f)) == Keys(f)
    ensures ProperFields(SortFields(f)) && Texts(SortFields(f))
    ensures forall k :: Lookup(SortFields(f), k) == Lookup(f, k)
  {
    match f
    case NoField =>
    case Field(k, v, rest) =>
      SortFieldsKeeps(rest);
      InsertKeepsSorted(ByCodePoint, k, v, SortFields(rest));
      InsertKeepsTexts(k, v, SortFields(rest));
  }

  lemma {:induction false} InsertKeepsTexts(k: string, v: Json, f: Fields)
    requires ProperFields(f) && Texts(f) && v.Str? && k !in Keys(f)
    ensures ProperFields(Insert(ByCodePoint, k, v, f)) && Texts(Insert(ByCodePoint, k, v, f))
    ensures Keys(Insert(ByCodePoint, k, v, f)) == Keys(f) + {k}
  {
    match f
    case NoField =>
    case Field(j, w, rest) => InsertKeepsTexts(k, v, rest);
  }

  predicate AgreeAt(f: Fields, g: Fields, k: string) {
    Lookup(f, k) == Lookup(g, k)
  }

  /** String filters are the same exactly when they say the same about every key. */
  lemma TextFieldsSame(f: Fields, g: Fields)
    requires ProperFields(f) && ProperFields(g) && Texts(f) && Texts(g)
    ensures Keys(f) == Keys(g) && SameFields(f, g) <==> forall k :: AgreeAt(f, g, k)
  {
    TextFieldsWithin(f, g);
    forall k
      ensures (k in Keys(f) <==> Lookup(f, k).Some?) && (k in Keys(g) <==> Lookup(g, k).Some?)
      ensures k !in Keys(f) && k !in Keys(g) ==> AgreeAt(f, g, k)
    {
      AbsentKey(f, k);
      AbsentKey(g, k);
    }
    hide SameFields, ProperFields, Texts;
    if forall k :: AgreeAt(f, g, k) {
      forall k
        ensures k in Keys(f) <==> k in Keys(g)
      {
        assert AgreeAt(f, g, k);
      }
    }
  }

  lemma {:induction false} TextFieldsWithin(f: Fields, g: Fields)
    requires ProperFields(f) && Texts(f)
    ensures SameFields(f, g) <==> forall k | k in Keys(f) :: AgreeAt(f, g, k)
  {
    match f
    case NoField =>
    case Field(k, v, rest) =>
      TextFieldsWithin(rest, g);
      assert AgreeAt(f, g, k) <==> Lookup(g, k).Some? && Same(v, Lookup(g, k).value);
      assert forall j | j in Keys(rest) :: j != k && AgreeAt(f, g, j) == AgreeAt(rest, g, j);
  }

  // ---------------------------------------------------------------- the payload

  function NameAt(n: nat): string
    requires n < 9
  {
    match n
    case 0 => "metric" case 1 => "entity_type" case 2 => "entity_id" case 3 => "season" case 4 => "competition"
    case 5 => "dimensions" case 6 => "filters" case 7 => "viz" case _ => "limit"
  }

  /** The intent's values in the order of its fields. */
  function ValueAt(i: Intent, n: nat): Json
    requires n < 9
  {
    match n
    case 0 => Str(i.metric) case 1 => Str(i.entityType) case 2 => Str(i.entityId) case 3 => Str(i.season)
    case 4 => Str(i.competition) case 5 => Arr(TextItems(SortTexts(ByCodePoint, i.dimensions)))
    case 6 => Obj(SortFields(i.filters)) case 7 => Str(i.viz) case _ => Num(Integer(i.limit))
  }

  function FieldsFrom(i: Intent, n: nat): Fields
    requires n <= 9
    decreases 9 - n
  {
    if n == 9 then NoField else Field(NameAt(n), ValueAt(i, n), FieldsFrom(i, n + 1))
  }

  function Payload(i: Intent): Json {
    Obj(FieldsFrom(i, 0))
  }

  lemma NamesDistinct(m: nat, n: nat)
    requires m < n < 9
    ensures NameAt(m) != NameAt(n)
  {
    assert |NameAt(m)| == |NameAt(n)| ==> (m == 0 && n == 3) || (m == 1 && n == 4);
    assert NameAt(0)[0] == 'm' && NameAt(3)[0] == 's' && NameAt(1)[0] == 'e' && NameAt(4)[0] == 'c';
  }

  lemma {:induction false} FieldNames(i: Intent, n: nat)
    requires n <= 9
    ensures Keys(FieldsFrom(i, n)) == set m | n <= m < 9 :: NameAt(m)
    decreases 9 - n
  {
    hide NameAt, ValueAt;
    if n < 9 { FieldNames(i, n + 1); }
  }

  lemma NameIsNew(i: Intent, n: nat)
    requires n < 9
    ensures NameAt(n) !in Keys(FieldsFrom(i, n + 1))
  {
    hide NameAt, ValueAt, FieldsFrom;
    FieldNames(i, n + 1);
    forall m | n + 1 <= m < 9
      ensures NameAt(m) != NameAt(n)
    {
      NamesDistinct(n, m);
    }
  }

  lemma ValueProper(i: Intent, n: nat)
    requires ValidIntent(i) && n < 9
    ensures Proper(ValueAt(i, n))
  {
    TextItemsSame(SortTexts(ByCodePoint, i.dimensions), []);
    SortFieldsKeeps(i.filters);
  }

  lemma {:induction false} FieldsProper(i: Intent, n: nat)
    requires ValidIntent(i) && n <= 9
    ensures ProperFields(FieldsFrom(i, n))
    decreases 9 - n
  {
    hide NameAt, ValueAt, ValidIntent, Keys;
    if n < 9 {
      NameIsNew(i, n);
      ValueProper(i, n);
      FieldsProper(i, n + 1);
    }
  }

  lemma {:induction false} SkipHead(f: Fields, k: string, w: Json, g: Fields)
    requires k !in Keys(f)
    ensures SameFields(f, Field(k, w, g)) <==> SameFields(f, g)
  {
    if f.Field? { SkipHead(f.rest, k, w, g); }
  }

  predicate ValuesAgree(a: Intent, b: Intent, n: nat)
    requires n < 9
  {
    Same(ValueAt(a, n), ValueAt(b, n))
  }

  lemma {:induction false} FieldsSame(a: Intent, b: Intent, n: nat)
    requires n <= 9
    ensures SameFields(FieldsFrom(a, n), FieldsFrom(b, n)) <==> forall m | n <= m < 9 :: ValuesAgree(a, b, m)
    decreases 9 - n
  {
    hide NameAt, ValueAt, Same;
    if n < 9 {
      FieldsSame(a, b, n + 1);
      NameIsNew(a, n);
      SkipHead(FieldsFrom(a, n + 1), NameAt(n), ValueAt(b, n), FieldsFrom(b, n + 1));
      assert FieldsFrom(b, n) == Field(NameAt(n), ValueAt(b, n), FieldsFrom(b, n + 1));
      assert SameFields(FieldsFrom(a, n), FieldsFrom(b, n)) <==>
               ValuesAgree(a, b, n) && SameFields(FieldsFrom(a, n + 1), FieldsFrom(b, n));
    }
  }

  function TsCanonicalize(i: Intent): string {
    Text(TypeScript, ByCodePoint, Payload(i))
  }

  function PyValueAt(i: Intent, n: nat): Json
    requires n < 9
  {
    match n
    case 0 => Str(i.metric) case 1 => Str(i.entityType) case 2 => Str(i.entityId) case 3 => Str(i.season)
    case 4 => Str(i.competition) case 5 => Arr(TextItems(SortedList(i.dimensions)))
    case 6 => Obj(SortedDict(i.filters)) case 7 => Str(i.viz) case _ => Num(Integer(i.limit))
  }

  function PyFieldsFrom(i: Intent, n: nat): Fields
    requires n <= 9
    decreases 9 - n
  {
    if n == 9 then NoField else Field(NameAt(n), PyValueAt(i, n), PyFieldsFrom(i, n + 1))
  }

  /** The pipeline's form: its own explicit sorts, then `sort_keys` and its own printer. */
  function PyCanonicalize(i: Intent): string {
    Print(Python, KeySorted(Obj(PyFieldsFrom(i, 0))))
  }

  lemma ValuesAgreeAcross(i: Intent, n: nat)
    requires ValidIntent(i) && n < 9
    ensures PyValueAt(i, n) == ValueAt(i, n)
  {
    if n == 5 {
      SortsAgree(i.dimensions);
    } else if n == 6 {
      ProperIsDistinct(i.filters);
      SortedDictKeeps(i.filters);
      SortFieldsKeeps(i.filters);
      SortedUnique(ByCodePoint, SortedDict(i.filters), SortFields(i.filters));
    }
  }

  lemma {:induction false} PayloadsAgree(i: Intent, n: nat)
    requires ValidIntent(i) && n <= 9
    ensures PyFieldsFrom(i, n) == FieldsFrom(i, n)
    decreases 9 - n
  {
    hide ValidIntent, ValueAt, PyValueAt;
    if n < 9 {
      ValuesAgreeAcross(i, n);
      PayloadsAgree(i, n + 1);
    }
  }

  lemma SortedFiltersAgree(f: Fields, g: Fields)
    requires ProperFields(f) && ProperFields(g) && Texts(f) && Texts(g)
    ensures Same(Obj(SortFields(f)), Obj(SortFields(g))) <==> forall k :: AgreeAt(f, g, k)
  {
    SortFieldsKeeps(f);
    SortFieldsKeeps(g);
    TextFieldsSame(SortFields(f), SortFields(g));
    hide SortFields, ProperFields, Texts, SameFields, Sorted, Keys;
    assert forall k :: AgreeAt(SortFields(f), SortFields(g), k) == AgreeAt(f, g, k);
  }

  lemma SortedDimensionsAgree(a: seq<string>, b: seq<string>)
    ensures Same(Arr(TextItems(SortTexts(ByCodePoint, a))), Arr(TextItems(SortTexts(ByCodePoint, b)))) <==> multiset(a) == multiset(b)
  {
    SortedDimensionsMean(a, b);
    TextItemsSame(SortTexts(ByCodePoint, a), SortTexts(ByCodePoint, b));
  }

  lemma SimpleValuesAgree(a: Intent, b: Intent)
    ensures ValuesAgree(a, b, 0) <==> a.metric == b.metric
    ensures ValuesAgree(a, b, 1) <==> a.entityType == b.entityType
    ensures ValuesAgree(a, b, 2) <==> a.entityId == b.entityId
    ensures ValuesAgree(a, b, 3) <==> a.season == b.season
    ensures ValuesAgree(a, b, 4) <==> a.competition == b.competition
    ensures ValuesAgree(a, b, 7) <==> a.viz == b.viz
    ensures ValuesAgree(a, b, 8) <==> a.limit == b.limit
  {
    hide TextItems, SortTexts, SortFields, SameItems, SameFields, Integer;
    IntegersDiffer(a.limit, b.limit);
  }

  lemma SortedValuesAgree(a: Intent, b: Intent)
    requires ValidIntent(a) && ValidIntent(b)
    ensures ValuesAgree(a, b, 5) <==> multiset(a.dimensions) == multiset(b.dimensions)
    ensures ValuesAgree(a, b, 6) <==> forall k :: AgreeAt(a.filters, b.filters, k)
  {
    hide TextItems, SortTexts, SortFields, SameItems, SameFields, Same, AgreeAt, Texts, ProperFields;
    SortedDimensionsAgree(a.dimensions, b.dimensions);
    SortedFiltersAgree(a.filters, b.filters);
  }

  lemma ValuesSame(a: Intent, b: Intent)
    requires ValidIntent(a) && ValidIntent(b)
    ensures SameIntent(a, b) <==> forall n | 0 <= n < 9 :: ValuesAgree(a, b, n)
  {
    hide ValuesAgree, AgreeAt, ValidIntent;
    SimpleValuesAgree(a, b);
    SortedValuesAgree(a, b);
  }

  lemma PayloadSame(a: Intent, b: Intent)
    requires ValidIntent(a) && ValidIntent(b)
    ensures Same(Payload(a), Payload(b)) <==> SameIntent(a, b)
  {
    hide ValidIntent, SameIntent, ValuesAgree, FieldsFrom, SameFields, Keys;
    ValuesSame(a, b);
    FieldsSame(a, b, 0);
    FieldNames(a, 0);
    FieldNames(b, 0);
  }

  // ---------------------------------------------------------------- the two results

  /** Two intents have one canonical text exactly when they mean the same. */
  lemma IntentTextIsMeaning(a: Intent, b: Intent)
    requires ValidIntent(a) && ValidIntent(b)
    ensures TsCanonicalize(a) == TsCanonicalize(b) <==> SameIntent(a, b)
  {
    hide Text, SameIntent, FieldsFrom;
    FieldsProper(a, 0);
    FieldsProper(b, 0);
    assert Proper(Payload(a)) && Proper(Payload(b));
    hide Payload;
    PayloadSame(a, b);
    TextIsMeaning(TypeScript, ByCodePoint, Payload(a), Payload(b));
  }

  lemma {:induction false} TextsArePlain(list: seq<string>)
    ensures PlainItems(TextItems(list))
  {
    if list != [] { TextsArePlain(list[1..]); }
  }

  lemma {:induction false} TextFieldsArePlain(f: Fields)
    requires Texts(f)
    ensures PlainFields(f)
  {
    if f.Field? { TextFieldsArePlain(f.rest); }
  }

  lemma ValuePlain(i: Intent, n: nat)
    requires ValidIntent(i) && n < 9
    ensures PlainNumbers(ValueAt(i, n))
  {
    hide TextItems, SortTexts, SortFields, Integer;
    TextsArePlain(SortTexts(ByCodePoint, i.dimensions));
    SortFieldsKeeps(i.filters);
    TextFieldsArePlain(SortFields(i.filters));
    IntegerIsPlain(i.limit);
  }

  lemma {:induction false} FieldsPlain(i: Intent, n: nat)
    requires ValidIntent(i) && n <= 9
    ensures PlainFields(FieldsFrom(i, n))
    decreases 9 - n
  {
    hide NameAt, ValueAt, ValidIntent;
    if n < 9 {
      ValuePlain(i, n);
      FieldsPlain(i, n + 1);
    }
  }

  /** The pipeline and the worker write the same text: each with its own sort of dimensions,
      of filters and of the keys at every level, and its own escapes. */
  lemma ImplementationsAgree(i: Intent)
    requires ValidIntent(i)
    ensures TsCanonicalize(i) == PyCanonicalize(i)
  {
    hide ValidIntent, KeySorted, Normal, PlainFields;
    PayloadsAgree(i, 0);
    FieldsProper(i, 0);
    KeySortedIsNormal(Payload(i));
    FieldsPlain(i, 0);
    NormalIsPlain(ByCodePoint, Payload(i));
    DialectsAgree(Normal(ByCodePoint, Payload(i)));
  }

  const TRANSFORM_CODE_VERSION := "2026.08.1"
  const RENDERER_VERSION := "svg-v2-dot-plot"

  /** What is hashed: the four parts joined by bars. */
  function Material(i: Intent, snapshotId: string): string {
    TsCanonicalize(i) + ("|" + (snapshotId + ("|" + TRANSFORM_CODE_VERSION + "|" + RENDERER_VERSION)))
  }

  /** The joined material is injective in meaning and snapshot, for every snapshot id: the
      canonical text tells where it ends, and what follows the id has a fixed length. */
  lemma MaterialIsInjective(a: Intent, s: string, b: Intent, t: string)
    requires ValidIntent(a) && ValidIntent(b)
    ensures Material(a, s) == Material(b, t) <==> SameIntent(a, b) && s == t
  {
    hide SameIntent, Payload, Print, Normal;
    IntentTextIsMeaning(a, b);
    var tail := "|" + TRANSFORM_CODE_VERSION + "|" + RENDERER_VERSION;
    if Material(a, s) == Material(b, t) {
      var x, y := "|" + (s + tail), "|" + (t + tail);
      PrintIsPrefixFree(TypeScript, Normal(ByCodePoint, Payload(a)), Normal(ByCodePoint, Payload(b)), x, y);
      assert x[1..] == s + tail && y[1..] == t + tail;
      assert (s + tail)[..|s|] == s && (t + tail)[..|t|] == t;
    }
  }
}
