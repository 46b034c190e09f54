/**
 * The string rules the validators apply: the plain length check of the
 * `validator` package used by the resolvers, and the `trim()` sanitizer of
 * the express-validator chains on the REST routes.
 */
module Text {

  /**
   * The characters `trim()` strips: those JavaScript's `\s` matches, that
   * is tab, line feed, vertical tab, form feed, carriage return, space, the
   * no-break spaces, the Unicode space separators, the line and paragraph
   * separators and the byte order mark.
   */
  predicate IsSpace(c: char) {
    || ('\t' <= c <= '\r') || c == ' ' || c == '\U{A0}' || c == '\U{1680}'
    || ('\U{2000}' <= c <= '\U{200A}') || c == '\U{2028}' || c == '\U{2029}'
    || c == '\U{202F}' || c == '\U{205F}' || c == '\U{3000}' || c == '\U{FEFF}'
  }

  /** The variation selectors U+FE0E and U+FE0F, which `isLength` does not count. */
  predicate IsPresentationSelector(c: char) {
    c == '\U{FE0E}' || c == '\U{FE0F}'
  }

  /** Occurrences of the presentation selectors in `s`. */
  function Selectors(s: string): (k: nat) {
    multiset(s)['\U{FE0E}'] + multiset(s)['\U{FE0F}']
  }

  /** No string holds more selectors than characters. */
  lemma {:induction false} SelectorsBound(s: string)
    ensures Selectors(s) <= |s|
  {
    if s != [] {
      assert s == [s[0]] + s[1..];
      assert multiset(s) == multiset{s[0]} + multiset(s[1..]);
      SelectorsBound(s[1..]);
    }
  }

  /**
   * The length `isLength` measures: code points (a surrogate pair counts
   * once), the presentation selectors left out.
   */
  function Length(s: string): (n: nat)
    ensures n <= |s|
  {
    SelectorsBound(s);
    |s| - Selectors(s)
  }

  /** The measured length adds up over a concatenation. */
  lemma LengthAppend(a: string, b: string)
    ensures Length(a + b) == Length(a) + Length(b)
  {
    assert multiset(a + b) == multiset(a) + multiset(b);
  }

  /** A prefix measures no more than the whole. */
  lemma LengthPrefix(s: string, j: nat)
    requires j <= |s|
    ensures Length(s[..j]) <= Length(s)
  {
    assert s[..j] + s[j..] == s;
    LengthAppend(s[..j], s[j..]);
  }

  /** A suffix measures no more than the whole. */
  lemma LengthSuffix(s: string, i: nat)
    requires i <= |s|
    ensures Length(s[i..]) <= Length(s)
  {
    assert s[..i] + s[i..] == s;
    LengthAppend(s[..i], s[i..]);
  }

  /** Without presentation selectors, every character counts. */
  lemma LengthWithoutSelectors(s: string)
    requires forall i :: 0 <= i < |s| ==> !IsPresentationSelector(s[i])
    ensures Length(s) == |s|
  {
    assert '\U{FE0E}' !in s && '\U{FE0F}' !in s;
  }

  /** `validator.isEmpty(s)` with its default options. */
  predicate IsEmpty(s: string) {
    |s| == 0
  }

  /** `validator.isLength(s, { min: n })`. */
  predicate IsLength(s: string, n: nat) {
    Length(s) >= n
  }

  /** Minimum length of a title, content or password. */
  const MinLength: nat := 5

  /**
   * The resolvers' rejection test `isEmpty(s) || !isLength(s, { min: 5 })`:
   * the emptiness test is subsumed, so a field is rejected exactly when it
   * measures fewer than five characters. No trimming happens.
   */
  predicate TooShort(s: string)
    ensures TooShort(s) <==> Length(s) < 5
    ensures |s| < 5 ==> TooShort(s)
  {
    IsEmpty(s) || !IsLength(s, MinLength)
  }

  /** Drops leading white space. */
  function TrimStart(s: string): (r: string)
    ensures |r| <= |s| && r == s[|s| - |r|..]
    ensures r == [] || !IsSpace(r[0])
    ensures forall i :: 0 <= i < |s| - |r| ==> IsSpace(s[i])
  {
    if s == [] || !IsSpace(s[0]) then s else TrimStart(s[1..])
  }

  /** Drops trailing white space. */
  function TrimEnd(s: string): (r: string)
    ensures |r| <= |s| && r == s[..|r|]
    ensures r == [] || !IsSpace(r[|r| - 1])
    ensures forall i :: |r| <= i < |s| ==> IsSpace(s[i])
  {
    if s == [] || !IsSpace(s[|s| - 1]) then s else TrimEnd(s[..|s| - 1])
  }

  /** Number of leading white-space characters `trim()` removes. */
  function TrimOffset(s: string): (k: nat)
    ensures k <= |s|
  {
    |s| - |TrimStart(s)|
  }

  /**
   * The `trim()` sanitizer: the infix of `s` that neither starts nor ends
   * with white space, everything around it being white space.
   */
  function Trim(s: string): (r: string)
    ensures |r| <= |s| - TrimOffset(s)
    ensures r == s[TrimOffset(s)..TrimOffset(s) + |r|]
    ensures r == [] || (!IsSpace(r[0]) && !IsSpace(r[|r| - 1]))
    ensures forall i :: 0 <= i < TrimOffset(s) ==> IsSpace(s[i])
    ensures forall i :: TrimOffset(s) + |r| <= i < |s| ==> IsSpace(s[i])
  {
    var t := TrimStart(s);
    var r := TrimEnd(t);
    assert r == t[..|r|];
    r
  }

  /** Trimming twice is trimming once. */
  lemma TrimIdempotent(s: string)
    ensures Trim(Trim(s)) == Trim(s)
  {
  }

  /**
   * The REST routes check `trim().isLength({ min: 5 })`, the resolvers the
   * untrimmed length: a field the routes accept passes the resolvers' test,
   * but not conversely.
   */
  lemma TrimmedLongEnoughIsLongEnough(s: string)
    requires IsLength(Trim(s), MinLength)
    ensures !TooShort(s)
  {
    var t := TrimStart(s);
    var r := TrimEnd(t);
    LengthPrefix(t, |r|);
    LengthSuffix(s, |s| - |t|);
    assert Length(s) >= MinLength;
  }

  /** A title of four letters and an emoji presentation selector is five characters long, yet too short. */
  lemma PresentationSelectorNotCounted()
    ensures var s := "abcd\U{FE0F}"; |s| == 5 && TooShort(s)
  {
    var s := "abcd\U{FE0F}";
    assert s[4] in multiset(s);
  }

  /** `trim()` removes a trailing space and nothing else. */
  lemma TrimTrailingSpace()
    ensures Trim("abcd ") == "abcd"
  {
    var s := "abcd ";
    assert TrimStart(s) == s;
    assert TrimEnd(s) == TrimEnd(s[..4]) == s[..4];
  }

  /** A four-letter title followed by a space passes the resolvers' test but not the routes'. */
  lemma PaddedShortFieldDiffers()
    ensures !TooShort("abcd ")
    ensures !IsLength(Trim("abcd "), MinLength)
  {
    LengthWithoutSelectors("abcd ");
    assert IsLength("abcd ", MinLength);
    TrimTrailingSpace();
    assert Length(Trim("abcd ")) <= 4;
  }
}
