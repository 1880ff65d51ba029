/** Joined texts and where their parts end. */
module TextParts {
  /** The first separator ends the first part. */
  lemma FirstPart(sep: string, a: string, b: string, x: string, y: string)
    requires |sep| == 1 && sep[0] !in a && sep[0] !in b && a + (sep + x) == b + (sep + y)
    ensures a == b && x == y
  {
    var s, t := a + (sep + x), b + (sep + y);
    assert s[|a|] == sep[0] && t[|b|] == sep[0];
    assert s[..|a|] == a && t[..|b|] == b && s[|a| + 1..] == x && t[|b| + 1..] == y;
  }
}
