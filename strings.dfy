/** The two functions of Go's `strings` package that request validation uses,
    over strings seen as sequences of runes (`seq<char>`). */
module GoStrings {

  /** Go's `unicode.IsSpace`: the ASCII white space characters, NEL, NBSP
      and the other runes with Unicode's White_Space property. */
  predicate IsSpace(c: char)
    // on ASCII it is the table of Go's TrimSpace fast path
    ensures c < '\U{0080}' ==> (IsSpace(c) <==> c in "\t\n\U{000B}\U{000C}\r ")
  {
    c == '\t' || c == '\n' || c == '\U{000B}' || c == '\U{000C}' || c == '\r' || c == ' '
    || c == '\U{0085}' || c == '\U{00A0}' || c == '\U{1680}'
    || ('\U{2000}' <= c <= '\U{200A}')
    || c == '\U{2028}' || c == '\U{2029}' || c == '\U{202F}' || c == '\U{205F}' || c == '\U{3000}'
  }

  /** True when the runes of `s` from index `lo` up to (not including) `hi`
      are all white space. */
  ghost predicate SpaceBetween(s: string, lo: int, hi: int) {
    forall k :: lo <= k < hi && 0 <= k < |s| ==> IsSpace(s[k])
  }

  /** True when every rune of `s` is white space (in particular when `s` is empty). */
  ghost predicate AllSpace(s: string) {
    SpaceBetween(s, 0, |s|)
  }

  /** Drops the leading white space: the result is a suffix of `s`, all that
      was dropped is white space, and the result does not start with white space. */
  function TrimLeft(s: string): (r: string)
    ensures |r| <= |s| && r == s[|s| - |r|..]
    ensures SpaceBetween(s, 0, |s| - |r|)
    ensures r == [] || !IsSpace(r[0])
  {
    if |s| > 0 && IsSpace(s[0]) then TrimLeft(s[1..]) else s
  }

  /** Drops the trailing white space: the result is a prefix of `s`, all that
      was dropped is white space, and the result does not end with white space. */
  function TrimRight(s: string): (r: string)
    ensures |r| <= |s| && r == s[..|r|]
    ensures SpaceBetween(s, |r|, |s|)
    ensures r == [] || !IsSpace(r[|r| - 1])
  {
    if |s| > 0 && IsSpace(s[|s| - 1]) then TrimRight(s[..|s| - 1]) else s
  }

  /** Go's `strings.TrimSpace`: `s` without its leading and trailing white space.
      It is empty exactly when `s` holds nothing but white space, and otherwise
      it begins and ends with a rune that is not white space. */
  function TrimSpace(s: string): (r: string)
    ensures r == [] <==> AllSpace(s)
    ensures r != [] ==> !IsSpace(r[0]) && !IsSpace(r[|r| - 1])
    ensures |r| <= |s|
  {
    var left := TrimLeft(s);
    var r := TrimRight(left);
    assert r != [] ==> r[0] == s[|s| - |left|];
    r
  }

  /** `TrimSpace` removes white space at both ends and nothing else: the
      result is the slice of `s` between an all-space prefix and an all-space
      suffix. */
  lemma TrimSpaceDropsOnlyEnds(s: string)
    ensures var i, r := |s| - |TrimLeft(s)|, TrimSpace(s);
      0 <= i <= |s| - |r| && (forall k :: 0 <= k < |r| ==> r[k] == s[i + k])
      && SpaceBetween(s, 0, i) && SpaceBetween(s, i + |r|, |s|)
  {
    var left := TrimLeft(s);
    var i := |s| - |left|;
    var r := TrimRight(left);
    assert r == TrimSpace(s);
    assert left == s[i..] && r == left[..|r|];
    forall k | i + |r| <= k < |s| ensures IsSpace(s[k]) {
      assert s[k] == left[k - i];
    }
  }

  /** Trimming twice is trimming once. */
  lemma TrimSpaceIdempotent(s: string)
    ensures TrimSpace(TrimSpace(s)) == TrimSpace(s)
  {
  }

  /** The lower-case image of one rune under Go's `unicode.ToLower`, for the
      ASCII capitals and for the only two other runes whose lower case is an
      ASCII letter: U+0130 (capital I with dot above) and U+212A (Kelvin sign).
      Every other rune is left as it is. */
  function LowerRune(c: char): (r: char)
    // the runes that lower-case to an ASCII small letter
    ensures 'a' <= r <= 'z' <==> 'a' <= c <= 'z' || 'A' <= c <= 'Z' || c == '\U{0130}' || c == '\U{212A}'
    // no ASCII capital survives, and only those runes change
    ensures !('A' <= r <= 'Z')
    ensures r != c ==> 'A' <= c <= 'Z' || c == '\U{0130}' || c == '\U{212A}'
    // and which runes fold to each small letter: the letter itself, its
    // capital, and U+0130 for 'i', U+212A for 'k'
    ensures 'a' <= r <= 'z' ==>
      r == c || c as int == r as int - ('a' as int - 'A' as int)
      || (r == 'i' && c == '\U{0130}') || (r == 'k' && c == '\U{212A}')
  {
    if 'A' <= c <= 'Z' then (c as int - 'A' as int + 'a' as int) as char
    else if c == '\U{0130}' then 'i'
    else if c == '\U{212A}' then 'k'
    else c
  }

  /** Go's `strings.ToLower`, rune by rune, with `LowerRune` as the rune
      mapping (so only the runes `LowerRune` names change). */
  function ToLower(s: string): (r: string)
    ensures |r| == |s|
    ensures forall k :: 0 <= k < |s| ==> r[k] == LowerRune(s[k])
    ensures forall k :: 0 <= k < |r| ==> !('A' <= r[k] <= 'Z')
  {
    seq(|s|, k requires 0 <= k < |s| => LowerRune(s[k]))
  }

  /** Lower-casing twice is lower-casing once. */
  lemma ToLowerIdempotent(s: string)
    ensures ToLower(ToLower(s)) == ToLower(s)
  {
  }
}
