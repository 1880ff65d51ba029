/** The text of canonical JSON in both languages, its injectivity, and the keys made of it. */
module CanonicalText {
  import opened Canonical
  import opened NumberText
  import opened Numerals
  import opened Options

  // ---------------------------------------------------------------- strings

  const BACKSPACE: char := '\U{0008}'
  const FORM_FEED: char := '\U{000C}'

  /** QuoteJSONString of one character (ECMA-262, section 25.5.2). */
  function TsEscape(c: char): string {
    if c == BACKSPACE then "\\b"
    else if c == '\t' then "\\t"
    else if c == '\n' then "\\n"
    else if c == FORM_FEED then "\\f"
    else if c == '\r' then "\\r"
    else if c == '\"' then "\\\""
    else if c == '\\' then "\\\\"
    else if (c as nat) < 0x20 then "\\u00" + [Digit(c as nat / 16), Digit(c as nat % 16)]
    else [c]
  }

  /** Python's escape dictionary: seven named entries, then a default for control characters. */
  const PY_NAMED: map<char, string> :=
    map['\\' := "\\\\", '\"' := "\\\"", BACKSPACE := "\\b", FORM_FEED := "\\f", '\n' := "\\n", '\r' := "\\r", '\t' := "\\t"]

  function PyEscape(c: char): string {
    if c in PY_NAMED then PY_NAMED[c]
    else if (c as nat) < 0x20 then "\\u" + Hex4(c as nat)
    else [c]
  }

  function Hex4(n: nat): string
    requires n < 0x20
  {
    var s := if n < 16 then [Digit(n)] else [Digit(n / 16), Digit(n % 16)];
    if |s| == 1 then "000" + s else "00" + s
  }

  function Escape(d: Dialect, c: char): string {
    match d case TypeScript => TsEscape(c) case Python => PyEscape(c)
  }

  /** Both tables are one table. */
  lemma EscapesAgree(c: char)
    ensures TsEscape(c) == PyEscape(c)
  {
  }

  function EscapeAll(d: Dialect, s: string): string {
    if s == "" then "" else Escape(d, s[0]) + EscapeAll(d, s[1..])
  }

  function Quote(d: Dialect, s: string): string {
    "\"" + EscapeAll(d, s) + "\""
  }

  /** The character an escaped text begins with. */
  function ReadEscaped(text: string): Option<char> {
    if text == "" then None
    else if text[0] != '\\' then Some(text[0])
    else if |text| == 1 then None
    else if text[1] == 'b' then Some(BACKSPACE)
    else if text[1] == 't' then Some('\t')
    else if text[1] == 'n' then Some('\n')
    else if text[1] == 'f' then Some(FORM_FEED)
    else if text[1] == 'r' then Some('\r')
    else if text[1] != 'u' then Some(text[1])
    else if |text| < 6 || DigitValue(text[4]).None? || DigitValue(text[5]).None? || DigitValue(text[4]).value >= 16 then None
    else Some((DigitValue(text[4]).value * 16 + DigitValue(text[5]).value) as char)
  }

  lemma EscapeReadsBack(d: Dialect, c: char, rest: string)
    ensures Escape(d, c) != "" && Escape(d, c)[0] != '\"'
    ensures ReadEscaped(Escape(d, c) + rest) == Some(c)
  {
    EscapesAgree(c);
    hide PyEscape;
    var e := TsEscape(c);
    assert forall i | 0 <= i < |e| :: (e + rest)[i] == e[i];
  }

  /** Only the end of the string shows a bare quotation mark. */
  lemma EscapedStart(d: Dialect, s: string, x: string)
    ensures var text := EscapeAll(d, s) + ("\"" + x);
            text != "" && (text[0] == '\"' <==> s == "")
  {
    hide Escape, ReadEscaped;
    if s != "" { EscapeReadsBack(d, s[0], ""); }
  }

  lemma {:induction false} EscapedIsPrefixFree(d: Dialect, s: string, t: string, x: string, y: string)
    requires EscapeAll(d, s) + ("\"" + x) == EscapeAll(d, t) + ("\"" + y)
    ensures s == t && x == y
  {
    hide Escape, ReadEscaped;
    var ex, ey := "\"" + x, "\"" + y;
    EscapedStart(d, s, x);
    EscapedStart(d, t, y);
    if s == "" {
      assert "" + ex == ex && "" + ey == ey;
      assert ex[1..] == x && ey[1..] == y;
    } else {
      var a, b := EscapeAll(d, s[1..]) + ex, EscapeAll(d, t[1..]) + ey;
      assert EscapeAll(d, s) + ex == Escape(d, s[0]) + a;
      assert EscapeAll(d, t) + ey == Escape(d, t[0]) + b;
      EscapeReadsBack(d, s[0], a);
      EscapeReadsBack(d, t[0], b);
      var n := |Escape(d, s[0])|;
      assert (Escape(d, s[0]) + a)[n..] == a && (Escape(d, t[0]) + b)[n..] == b;
      EscapedIsPrefixFree(d, s[1..], t[1..], x, y);
      assert s == [s[0]] + s[1..] && t == [t[0]] + t[1..];
    }
  }

  // ---------------------------------------------------------------- numbers

  /** What may follow a value: nothing that would continue a number. */
  predicate Delimited(rest: string) {
    rest == "" || !NumberChar(rest[0])
  }

  lemma RunIsLongest(s: string, t: string, x: string, y: string)
    requires (forall c | c in t :: NumberChar(c)) && Delimited(x) && s + x == t + y
    ensures |t| <= |s|
  {
    var whole := t + y;
    assert |s| < |whole| ==> whole[|s|] == x[0];
  }

  lemma NumbersArePrefixFree(d: Dialect, m: Number, n: Number, x: string, y: string)
    requires TextOf(d, m) + x == TextOf(d, n) + y && Delimited(x) && Delimited(y)
    ensures m == n && x == y
  {
    var s, t := TextOf(d, m), TextOf(d, n);
    TextChars(d, m);
    TextChars(d, n);
    TextIsNumber(d, m, n);
    hide TextOf, NumberChar;
    RunIsLongest(s, t, x, y);
    RunIsLongest(t, s, y, x);
    var whole := s + x;
    assert whole[..|s|] == s && whole[|s|..] == x && whole[..|t|] == t && whole[|t|..] == y;
  }

  // ---------------------------------------------------------------- values

  function Print(d: Dialect, v: Json): string {
    match v
    case Null => "null"
    case Bool(b) => if b then "true" else "false"
    case Num(n) => TextOf(d, n)
    case Str(s) => Quote(d, s)
    case Arr(items) => "[" + PrintItems(d, items)
    case Obj(fields) => "{" + PrintFields(d, fields)
  }

  /** The elements, separated by commas, and the closing bracket. */
  function PrintItems(d: Dialect, items: Items): string {
    match items
    case NoItem => "]"
    case Item(v, tail) => Print(d, v) + if tail.NoItem? then "]" else "," + PrintItems(d, tail)
  }

  function PrintFields(d: Dialect, f: Fields): string {
    match f
    case NoField => "}"
    case Field(k, v, rest) => Quote(d, k) + (":" + (Print(d, v) + if rest.NoField? then "}" else "," + PrintFields(d, rest)))
  }

  /** What kind of value a text begins. */
  function Lead(v: Json): char {
    match v
    case Null => 'n'
    case Bool(b) => if b then 't' else 'f'
    case Num(n) => '0'
    case Str(s) => '\"'
    case Arr(items) => '['
    case Obj(fields) => '{'
  }

  function LeadOf(c: char): char {
    if c == '-' || '0' <= c <= '9' then '0' else c
  }

  lemma PrintLeads(d: Dialect, v: Json)
    ensures Print(d, v) != "" && LeadOf(Print(d, v)[0]) == Lead(v)
  {
    hide TextOf;
    if v.Num? { TextChars(d, v.n); }
  }

  lemma LeadsAgree(d: Dialect, v: Json, w: Json, x: string, y: string)
    requires Print(d, v) + x == Print(d, w) + y
    ensures Lead(v) == Lead(w)
  {
    PrintLeads(d, v);
    PrintLeads(d, w);
    hide Print;
    assert (Print(d, v) + x)[0] == Print(d, v)[0] && (Print(d, w) + y)[0] == Print(d, w)[0];
  }

  lemma DropFirst(c: char, s: string, t: string, x: string, y: string)
    requires ([c] + s) + x == ([c] + t) + y
    ensures s + x == t + y
  {
    var a, b := ([c] + s) + x, ([c] + t) + y;
    assert a[1..] == s + x && b[1..] == t + y;
  }

  lemma Regroup(s: string, t: string, x: string)
    ensures (s + t) + x == s + (t + x)
  {
  }

  lemma QuoteIsPrefixFree(d: Dialect, s: string, t: string, x: string, y: string)
    requires Quote(d, s) + x == Quote(d, t) + y
    ensures s == t && x == y
  {
    hide EscapeAll;
    var a, b := EscapeAll(d, s), EscapeAll(d, t);
    var left, right := Quote(d, s) + x, Quote(d, t) + y;
    assert left[1..] == a + ("\"" + x) && right[1..] == b + ("\"" + y);
    EscapedIsPrefixFree(d, s, t, x, y);
  }

  /** The text of a value tells where it ends: two texts that agree as far as they go
      begin with the same value and the same rest. */
  lemma {:induction false} PrintIsPrefixFree(d: Dialect, v: Json, w: Json, x: string, y: string)
    requires Print(d, v) + x == Print(d, w) + y && Delimited(x) && Delimited(y)
    ensures v == w && x == y
    decreases v
  {
    hide Quote, TextOf, PrintItems, PrintFields, Delimited;
    LeadsAgree(d, v, w, x, y);
    match v
    case Null => assert ("null" + x)[4..] == x && ("null" + y)[4..] == y;
    case Bool(b) => LiteralIsPrefixFree(if b then "true" else "false", x, y);
    case Num(m) => NumbersArePrefixFree(d, m, w.n, x, y);
    case Str(s) => QuoteIsPrefixFree(d, s, w.s, x, y);
    case Arr(items) =>
      DropFirst('[', PrintItems(d, items), PrintItems(d, w.items), x, y);
      ItemsArePrefixFree(d, items, w.items, x, y);
    case Obj(fields) =>
      DropFirst('{', PrintFields(d, fields), PrintFields(d, w.fields), x, y);
      FieldsArePrefixFree(d, fields, w.fields, x, y);
  }

  lemma LiteralIsPrefixFree(s: string, x: string, y: string)
    requires s + x == s + y
    ensures x == y
  {
    assert (s + x)[|s|..] == x && (s + y)[|s|..] == y;
  }

  /** What follows an element: the end, or a comma and the rest. */
  function AfterItem(d: Dialect, tail: Items): string {
    if tail.NoItem? then "]" else "," + PrintItems(d, tail)
  }

  lemma {:induction false} ItemsArePrefixFree(d: Dialect, a: Items, b: Items, x: string, y: string)
    requires PrintItems(d, a) + x == PrintItems(d, b) + y
    ensures a == b && x == y
    decreases a
  {
    hide Print;
    ItemsStart(d, a, x);
    ItemsStart(d, b, y);
    if a.NoItem? {
      LiteralIsPrefixFree("]", x, y);
    } else {
      var p, q := AfterItem(d, a.tail), AfterItem(d, b.tail);
      Regroup(Print(d, a.head), p, x);
      Regroup(Print(d, b.head), q, y);
      PrintIsPrefixFree(d, a.head, b.head, p + x, q + y);
      assert (p + x)[0] == p[0] && (q + y)[0] == q[0];
      if a.tail.NoItem? {
        LiteralIsPrefixFree("]", x, y);
      } else {
        DropFirst(',', PrintItems(d, a.tail), PrintItems(d, b.tail), x, y);
        ItemsArePrefixFree(d, a.tail, b.tail, x, y);
      }
    }
  }

  /** No value begins with a closing bracket. */
  lemma ItemsStart(d: Dialect, items: Items, x: string)
    ensures var text := PrintItems(d, items) + x;
            text != "" && (text[0] == ']' <==> items.NoItem?)
  {
    if items.Item? { PrintLeads(d, items.head); }
    hide Print;
  }

  function AfterField(d: Dialect, rest: Fields): string {
    if rest.NoField? then "}" else "," + PrintFields(d, rest)
  }

  lemma {:induction false} FieldsArePrefixFree(d: Dialect, f: Fields, g: Fields, x: string, y: string)
    requires PrintFields(d, f) + x == PrintFields(d, g) + y
    ensures f == g && x == y
    decreases f
  {
    hide Print, Quote;
    FieldsStart(d, f, x);
    FieldsStart(d, g, y);
    if f.NoField? {
      LiteralIsPrefixFree("}", x, y);
    } else {
      var p, q := AfterField(d, f.rest), AfterField(d, g.rest);
      FieldText(d, f, x);
      FieldText(d, g, y);
      QuoteIsPrefixFree(d, f.key, g.key, ":" + (Print(d, f.value) + (p + x)), ":" + (Print(d, g.value) + (q + y)));
      LiteralIsPrefixFree(":", Print(d, f.value) + (p + x), Print(d, g.value) + (q + y));
      PrintIsPrefixFree(d, f.value, g.value, p + x, q + y);
      assert (p + x)[0] == p[0] && (q + y)[0] == q[0];
      if f.rest.NoField? {
        LiteralIsPrefixFree("}", x, y);
      } else {
        DropFirst(',', PrintFields(d, f.rest), PrintFields(d, g.rest), x, y);
        FieldsArePrefixFree(d, f.rest, g.rest, x, y);
      }
    }
  }

  lemma FieldText(d: Dialect, f: Fields, x: string)
    requires f.Field?
    ensures PrintFields(d, f) + x == Quote(d, f.key) + (":" + (Print(d, f.value) + (AfterField(d, f.rest) + x)))
  {
    hide Print, Quote;
    var p := AfterField(d, f.rest);
    var k, v := Quote(d, f.key), Print(d, f.value);
    assert PrintFields(d, f) == k + (":" + (v + p));
    hide PrintFields, AfterField;
    assert (k + (":" + (v + p))) + x == k + (":" + (v + (p + x)));
  }

  lemma FieldsStart(d: Dialect, f: Fields, x: string)
    ensures var text := PrintFields(d, f) + x;
            text != "" && (text[0] == '}' <==> f.NoField?)
  {
    hide Print, EscapeAll;
  }

  // ---------------------------------------------------------------- canonical text

  function Text(d: Dialect, order: Order, v: Json): string {
    Print(d, Normal(order, v))
  }

  /** Two values have one canonical text exactly when they are the same value, whatever
      order their keys were written in: what body hashes and artifact keys rely on. */
  lemma TextIsMeaning(d: Dialect, order: Order, a: Json, b: Json)
    requires Proper(a) && Proper(b)
    ensures Text(d, order, a) == Text(d, order, b) <==> Same(a, b)
  {
    SameHasOneNormal(order, a, b);
    if Text(d, order, a) == Text(d, order, b) {
      hide Print, Normal, Same;
      PrintIsPrefixFree(d, Normal(order, a), Normal(order, b), "", "");
    }
  }

  lemma {:induction false} StringsPrintAlike(s: string)
    ensures EscapeAll(TypeScript, s) == EscapeAll(Python, s)
  {
    if s != "" {
      EscapesAgree(s[0]);
      StringsPrintAlike(s[1..]);
    }
  }

  /** Every number in the value is an integer that both languages write alike. */
  predicate PlainNumbers(v: Json) {
    match v
    case Num(n) => Plain(n)
    case Arr(items) => PlainItems(items)
    case Obj(fields) => PlainFields(fields)
    case _ => true
  }

  predicate PlainItems(items: Items) {
    match items
    case NoItem => true
    case Item(v, tail) => PlainNumbers(v) && PlainItems(tail)
  }

  predicate PlainFields(f: Fields) {
    match f
    case NoField => true
    case Field(_, v, rest) => PlainNumbers(v) && PlainFields(rest)
  }

  /** The two languages print the same text. */
  lemma {:induction false} DialectsAgree(v: Json)
    requires PlainNumbers(v)
    ensures Print(TypeScript, v) == Print(Python, v)
    decreases v
  {
    hide EscapeAll, TextOf;
    match v
    case Num(n) => PlainIsAlike(n);
    case Str(s) => StringsPrintAlike(s);
    case Arr(items) => ItemsPrintAlike(items);
    case Obj(fields) => FieldsPrintAlike(fields);
    case _ =>
  }

  lemma {:induction false} ItemsPrintAlike(items: Items)
    requires PlainItems(items)
    ensures PrintItems(TypeScript, items) == PrintItems(Python, items)
    decreases items
  {
    if items.Item? {
      DialectsAgree(items.head);
      ItemsPrintAlike(items.tail);
    }
  }

  lemma {:induction false} FieldsPrintAlike(f: Fields)
    requires PlainFields(f)
    ensures PrintFields(TypeScript, f) == PrintFields(Python, f)
    decreases f
  {
    hide EscapeAll;
    if f.Field? {
      StringsPrintAlike(f.key);
      DialectsAgree(f.value);
      FieldsPrintAlike(f.rest);
    }
  }

  /** Sorting keys keeps the numbers. */
  lemma {:induction false} NormalIsPlain(order: Order, v: Json)
    requires PlainNumbers(v)
    ensures PlainNumbers(Normal(order, v))
    decreases v
  {
    match v
    case Arr(items) => NormalItemsPlain(order, items);
    case Obj(fields) => NormalFieldsPlain(order, fields);
    case _ =>
  }

  lemma {:induction false} NormalItemsPlain(order: Order, items: Items)
    requires PlainItems(items)
    ensures PlainItems(NormalItems(order, items))
    decreases items
  {
    if items.Item? {
      NormalIsPlain(order, items.head);
      NormalItemsPlain(order, items.tail);
    }
  }

  lemma {:induction false} NormalFieldsPlain(order: Order, f: Fields)
    requires PlainFields(f)
    ensures PlainFields(NormalFields(order, f))
    decreases f
  {
    if f.Field? {
      NormalIsPlain(order, f.value);
      NormalFieldsPlain(order, f.rest);
      InsertIsPlain(order, f.key, Normal(order, f.value), NormalFields(order, f.rest));
    }
  }

  lemma {:induction false} InsertIsPlain(order: Order, k: string, v: Json, f: Fields)
    requires PlainNumbers(v) && PlainFields(f)
    ensures PlainFields(Insert(order, k, v, f))
  {
    if f.Field? { InsertIsPlain(order, k, v, f.rest); }
  }
}
