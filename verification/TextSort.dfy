/** Sorting texts by one of the key orders. */
module TextSort {
  import opened Canonical

  function InsertText(order: Order, s: string, list: seq<string>): seq<string> {
    if list == [] then [s]
    else if Before(order, list[0], s) then [list[0]] + InsertText(order, s, list[1..])
    else [s] + list
  }

  function SortTexts(order: Order, list: seq<string>): seq<string> {
    if list == [] then [] else InsertText(order, list[0], SortTexts(order, list[1..]))
  }

  ghost predicate SortedTexts(order: Order, list: seq<string>) {
    forall i, j | 0 <= i < j < |list| :: !Before(order, list[j], list[i])
  }

  lemma {:induction false} InsertTextAdds(order: Order, s: string, list: seq<string>)
    ensures multiset(InsertText(order, s, list)) == multiset(list) + multiset{s}
  {
    hide Before;
    if list != [] {
      InsertTextAdds(order, s, list[1..]);
      assert list == [list[0]] + list[1..];
    }
  }

  lemma HeadBeforeAll(order: Order, s: string, list: seq<string>)
    requires SortedTexts(order, list) && forall x | x in list :: !Before(order, x, s)
    ensures SortedTexts(order, [s] + list)
  {
    hide Before;
  }

  lemma {:induction false} InsertTextKeeps(order: Order, s: string, list: seq<string>)
    requires SortedTexts(order, list)
    ensures SortedTexts(order, InsertText(order, s, list))
    ensures multiset(InsertText(order, s, list)) == multiset(list) + multiset{s}
  {
    hide Before, SortedTexts;
    InsertTextAdds(order, s, list);
    if list == [] {
      assert [s] + list == [s];
      HeadBeforeAll(order, s, list);
    } else {
      var rest := list[1..];
      SortedTail(order, list);
      if Before(order, list[0], s) {
        InsertTextKeeps(order, s, rest);
        InsertTextAdds(order, s, rest);
        OrderIsTotal(order, list[0], s);
        forall x | x in InsertText(order, s, rest)
          ensures !Before(order, x, list[0])
        {
          assert x in multiset(InsertText(order, s, rest));
          assert x == s || x in rest;
        }
        HeadBeforeAll(order, list[0], InsertText(order, s, rest));
      } else {
        forall x | x in list
          ensures !Before(order, x, s)
        {
          NotBeforeChain(order, x, list[0], s);
        }
        HeadBeforeAll(order, s, list);
      }
    }
  }

  lemma NotBeforeChain(order: Order, x: string, y: string, s: string)
    requires x == y || !Before(order, x, y)
    requires !Before(order, y, s)
    ensures !Before(order, x, s)
  {
    if Before(order, x, s) && x != y {
      OrderIsTotal(order, x, y);
      OrderIsTransitive(order, y, x, s);
    }
  }

  lemma {:induction false} SortTextsSorts(order: Order, list: seq<string>)
    ensures SortedTexts(order, SortTexts(order, list)) && multiset(SortTexts(order, list)) == multiset(list)
  {
    if list != [] {
      SortTextsSorts(order, list[1..]);
      InsertTextKeeps(order, list[0], SortTexts(order, list[1..]));
      assert list == [list[0]] + list[1..];
    }
  }

  lemma SortedTail(order: Order, a: seq<string>)
    requires SortedTexts(order, a) && a != []
    ensures SortedTexts(order, a[1..]) && multiset(a) == multiset{a[0]} + multiset(a[1..])
    ensures forall x | x in a :: !Before(order, x, a[0])
  {
    hide Before;
    assert a == [a[0]] + a[1..];
    OrderIsTotal(order, a[0], a[0]);
  }

  lemma {:induction false} SortedTextsUnique(order: Order, a: seq<string>, b: seq<string>)
    requires SortedTexts(order, a) && SortedTexts(order, b) && multiset(a) == multiset(b)
    ensures a == b
  {
    hide Before, SortedTexts;
    assert |multiset(a)| == |a| && |multiset(b)| == |b|;
    if a != [] {
      SortedTail(order, a);
      SortedTail(order, b);
      assert a[0] in multiset(b) && b[0] in multiset(a);
      OrderIsTotal(order, a[0], b[0]);
      assert multiset(a[1..]) == multiset(a) - multiset{a[0]};
      assert multiset(b[1..]) == multiset(b) - multiset{b[0]};
      SortedTextsUnique(order, a[1..], b[1..]);
    }
  }

  /** A latest text of a list: none comes after it. */
  ghost predicate IsLatest(order: Order, s: string, list: seq<string>) {
    s in list && forall x | x in list :: !Before(order, s, x)
  }

  lemma LatestIsUnique(order: Order, s: string, t: string, list: seq<string>)
    requires IsLatest(order, s, list) && IsLatest(order, t, list)
    ensures s == t
  {
    hide Before;
    OrderIsTotal(order, s, t);
  }

  /** sort, reverse, take the first. */
  function Latest(order: Order, list: seq<string>): string
    requires list != []
    ensures Latest(order, list) in list
  {
    SortTextsSorts(order, list);
    var sorted := SortTexts(order, list);
    assert |multiset(sorted)| == |sorted| && |multiset(list)| == |list|;
    assert sorted[|sorted| - 1] in multiset(sorted);
    sorted[|sorted| - 1]
  }

  lemma LatestIsLatest(order: Order, list: seq<string>)
    requires list != []
    ensures IsLatest(order, Latest(order, list), list)
  {
    hide Before, SortTexts;
    SortTextsSorts(order, list);
    var sorted := SortTexts(order, list);
    var last := Latest(order, list);
    OrderIsTotal(order, last, last);
    forall x | x in list
      ensures !Before(order, last, x)
    {
      assert x in multiset(sorted);
      var i :| 0 <= i < |sorted| && sorted[i] == x;
    }
  }
}
