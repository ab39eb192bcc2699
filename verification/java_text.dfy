/** String rendering as Java's `+` operator performs it on a possibly-null string. */
module JavaText {
  import opened Wrappers

  /** Java renders a null reference in a string concatenation as the four letters "null". */
  function Render(s: Option<string>): string
  {
    match s
    case None => "null"
    case Some(text) => text
  }

  /** `prefix + s` for a Java string `s` that may be null. */
  function Concat(prefix: string, s: Option<string>): (r: string)
    ensures |r| == |prefix| + |Render(s)|
    ensures r[..|prefix|] == prefix
    ensures s.Some? ==> r[|prefix|..] == s.value
    ensures s.None? ==> r[|prefix|..] == "null"
  {
    prefix + Render(s)
  }

  /** Two concatenations with a common prefix agree exactly when the rendered suffixes agree;
      in particular a null string and the literal string "null" give the same text. */
  lemma ConcatInjective(prefix: string, s: Option<string>, t: Option<string>)
    ensures Concat(prefix, s) == Concat(prefix, t) <==> Render(s) == Render(t)
  {
  }
}
