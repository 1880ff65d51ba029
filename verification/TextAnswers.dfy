/** Canonical text written out: literals, brackets and commas, the fields of an intent, the
    material of its key, and numbers at the edges of their forms. */
module TextAnswers {
  import opened Canonical
  import opened CanonicalText
  import opened IntentKeys
  import opened NumberText
  import opened Numerals
  import opened TextSort

  // ---------------------------------------------------------------- JSON

  /** The parts with commas between them. */
  function Joined(parts: seq<string>): string {
    if parts == [] then "" else if |parts| == 1 then parts[0] else parts[0] + ("," + Joined(parts[1..]))
  }

  function ItemTexts(d: Dialect, items: Items): seq<string> {
    match items
    case NoItem => []
    case Item(v, tail) => [Print(d, v)] + ItemTexts(d, tail)
  }

  function FieldTexts(d: Dialect, f: Fields): seq<string> {
    match f
    case NoField => []
    case Field(k, v, rest) => [Quote(d, k) + (":" + Print(d, v))] + FieldTexts(d, rest)
  }

  lemma {:induction false} ItemsJoined(d: Dialect, items: Items)
    ensures PrintItems(d, items) == Joined(ItemTexts(d, items)) + "]"
  {
    hide Print;
    if items.Item? {
      ItemsJoined(d, items.tail);
      var head, rest := Print(d, items.head), ItemTexts(d, items.tail);
      assert ([head] + rest)[1..] == rest;
    }
  }

  lemma {:induction false} FieldsJoined(d: Dialect, f: Fields)
    ensures PrintFields(d, f) == Joined(FieldTexts(d, f)) + "}"
  {
    hide Print, Quote, Joined;
    if f.NoField? {
      assert Joined([]) == "" by { JoinedCons("", []); }
    } else {
      FieldsJoined(d, f.rest);
      var k, v, rest := Quote(d, f.key), Print(d, f.value), FieldTexts(d, f.rest);
      JoinedCons(k + (":" + v), rest);
      if f.rest.Field? { EntryThenRest(k, v, Joined(rest)); } else { EntryThenRest(k, v, ""); }
    }
  }

  lemma JoinedCons(head: string, rest: seq<string>)
    ensures Joined([]) == ""
    ensures Joined([head] + rest) == if rest == [] then head else head + ("," + Joined(rest))
  {
    assert ([head] + rest)[1..] == rest;
  }

  lemma EntryThenRest(k: string, v: string, rest: string)
    ensures k + (":" + (v + ("," + (rest + "}")))) == ((k + (":" + v)) + ("," + rest)) + "}"
    ensures k + (":" + (v + "}")) == (k + (":" + v)) + "}"
  {
  }

  /** Every kind of value: no white space anywhere, a comma between any two parts. */
  lemma PrintAnswer(d: Dialect, v: Json)
    ensures match v
            case Null => Print(d, v) == "null"
            case Bool(b) => Print(d, v) == if b then "true" else "false"
            case Num(n) => Print(d, v) == TextOf(d, n)
            case Str(s) => Print(d, v) == "\"" + (EscapeAll(d, s) + "\"")
            case Arr(items) => Print(d, v) == "[" + (Joined(ItemTexts(d, items)) + "]")
            case Obj(fields) => Print(d, v) == "{" + (Joined(FieldTexts(d, fields)) + "}")
  {
    hide EscapeAll, TextOf;
    match v
    case Arr(items) => ItemsJoined(d, items);
    case Obj(fields) => FieldsJoined(d, fields);
    case _ =>
  }

  // ---------------------------------------------------------------- intents

  /** An intent is written with its nine fields under their names, dimensions sorted. */
  lemma IntentAnswer(i: Intent)
    ensures Payload(i)
            == Obj(Field("metric", Str(i.metric), Field("entity_type", Str(i.entityType), Field("entity_id", Str(i.entityId),
                   Field("season", Str(i.season), Field("competition", Str(i.competition),
                   Field("dimensions", Arr(TextItems(SortTexts(ByCodePoint, i.dimensions))), Field("filters", Obj(SortFields(i.filters)),
                   Field("viz", Str(i.viz), Field("limit", Num(Integer(i.limit)), NoField))))))))))
  {
    hide SortTexts, SortFields, TextItems, Integer;
    assert FieldsFrom(i, 9) == NoField;
    assert FieldsFrom(i, 8) == Field("limit", Num(Integer(i.limit)), NoField);
    assert FieldsFrom(i, 7) == Field("viz", Str(i.viz), FieldsFrom(i, 8));
    assert FieldsFrom(i, 6) == Field("filters", Obj(SortFields(i.filters)), FieldsFrom(i, 7));
    assert FieldsFrom(i, 5) == Field("dimensions", Arr(TextItems(SortTexts(ByCodePoint, i.dimensions))), FieldsFrom(i, 6));
    assert FieldsFrom(i, 4) == Field("competition", Str(i.competition), FieldsFrom(i, 5));
    assert FieldsFrom(i, 3) == Field("season", Str(i.season), FieldsFrom(i, 4));
    assert FieldsFrom(i, 2) == Field("entity_id", Str(i.entityId), FieldsFrom(i, 3));
    assert FieldsFrom(i, 1) == Field("entity_type", Str(i.entityType), FieldsFrom(i, 2));
  }

  lemma {:induction false} ItemsOfTexts(list: seq<string>)
    ensures ItemTexts(TypeScript, TextItems(list)) == seq(|list|, k requires 0 <= k < |list| => Quote(TypeScript, list[k]))
  {
    hide Quote;
    if list != [] { ItemsOfTexts(list[1..]); }
  }

  /** The material of the key: the text, the snapshot and the two versions, between bars. */
  lemma MaterialAnswer(i: Intent, snapshotId: string)
    ensures Material(i, snapshotId)
            == Print(TypeScript, Normal(ByCodePoint, Payload(i))) + ("|" + (snapshotId + "|2026.08.1|svg-v2-dot-plot"))
  {
    hide Print, Normal, Payload;
    assert "|" + TRANSFORM_CODE_VERSION + "|" + RENDERER_VERSION == "|2026.08.1|svg-v2-dot-plot";
  }

  // ---------------------------------------------------------------- numbers

  /** Which form a number takes: by how many digits it has and where its point is. */
  lemma FormsExactly(digits: string, point: int)
    ensures FormOf(TypeScript, digits, point)
            == if |digits| <= point <= 21 then Whole
               else if 1 <= point <= 21 then Pointed
               else if -5 <= point <= 0 then Small else Exponent
    ensures point >= |digits| ==> FormOf(Python, digits, point) == Whole
  {
  }

  /** The forms of a number at their edges: up to twenty-one digits before the point, and
      from six zeros behind it on an exponent. */
  lemma NumberSamples()
    ensures TextOf(TypeScript, Decimal(false, "1", 21)) == "100000000000000000000"
    ensures TextOf(TypeScript, Decimal(false, "1", 22)) == "1e+21"
    ensures TextOf(TypeScript, Decimal(true, "15", 22)) == "-1.5e+21"
    ensures TextOf(TypeScript, Decimal(false, "123456", 3)) == "123.456"
    ensures TextOf(TypeScript, Decimal(true, "15", 1)) == "-1.5"
    ensures TextOf(TypeScript, Decimal(false, "15", 0)) == "0.15"
    ensures TextOf(TypeScript, Decimal(false, "1", -5)) == "0.000001"
    ensures TextOf(TypeScript, Decimal(false, "1", -6)) == "1e-7"
    ensures TextOf(Python, Decimal(false, "1", 22)) == "1000000000000000000000"
  {
    assert ToText(B10, 21) == "21" by { assert ToText(B10, 2) == "2" && ToText(B10, 1) == "1"; }
    assert ToText(B10, 7) == "7";
    hide ToText;
    assert Zeros(20) == "00000000000000000000" && Zeros(21) == "000000000000000000000" && Zeros(5) == "00000";
  }

  // ---------------------------------------------------------------- UTF-16

  /** One unit for a character of the basic plane, and a surrogate pair that gives the
      character back for any other. */
  lemma UnitsExactly(c: char)
    ensures var n := c as int;
            if n < 0x10000 then Units(c) == [n]
            else
              && |Units(c)| == 2 && 0xD800 <= Units(c)[0] <= 0xDBFF && 0xDC00 <= Units(c)[1] <= 0xDFFF
              && n == 0x10000 + (Units(c)[0] - 0xD800) * 0x400 + (Units(c)[1] - 0xDC00)
  {
  }
}
