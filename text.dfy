/**
 * The two string operations the script applies to user and catalog text:
 * `String.prototype.trim` on the search box contents, and the description
 * excerpt shown on a product card (the first 100 characters followed by
 * "..."), used by both product renderers.
 */
module Text {
  import opened Wrappers

  /** The characters `trim` removes: ECMAScript WhiteSpace and LineTerminator. */
  predicate IsWhitespace(c: char) {
    c == '\t' || c == '\n' || c == '\U{000B}' || c == '\U{000C}' || c == '\r' || c == ' '
    || c == '\U{00A0}' || c == '\U{1680}' || ('\U{2000}' <= c <= '\U{200A}')
    || c == '\U{2028}' || c == '\U{2029}' || c == '\U{202F}' || c == '\U{205F}'
    || c == '\U{3000}' || c == '\U{FEFF}'
  }

  predicate Blank(s: string) {
    forall i :: 0 <= i < |s| ==> IsWhitespace(s[i])
  }

  /** The first position at or after i that does not hold whitespace (|s| if none). */
  function SkipBlanks(s: string, i: nat): (k: nat)
    requires i <= |s|
    ensures i <= k <= |s|
    ensures forall j :: i <= j < k ==> IsWhitespace(s[j])
    ensures k < |s| ==> !IsWhitespace(s[k])
    decreases |s| - i
  {
    if i < |s| && IsWhitespace(s[i]) then SkipBlanks(s, i + 1) else i
  }

  /**
   * The end of s[lo..hi] without its trailing whitespace: the least k >= lo
   * such that s[k..hi] is all whitespace.
   */
  function DropTrailingBlanks(s: string, lo: nat, hi: nat): (k: nat)
    requires lo <= hi <= |s|
    ensures lo <= k <= hi
    ensures forall j :: k <= j < hi ==> IsWhitespace(s[j])
    ensures k > lo ==> !IsWhitespace(s[k - 1])
    decreases hi
  {
    if hi > lo && IsWhitespace(s[hi - 1]) then DropTrailingBlanks(s, lo, hi - 1) else hi
  }

  /** Where the text `trim` keeps starts and ends in s. */
  function TrimStart(s: string): nat {
    SkipBlanks(s, 0)
  }

  function TrimEnd(s: string): (k: nat)
    ensures TrimStart(s) <= k <= |s|
  {
    DropTrailingBlanks(s, TrimStart(s), |s|)
  }

  /** `String.prototype.trim`. */
  function Trim(s: string): string {
    s[TrimStart(s)..TrimEnd(s)]
  }

  /**
   * Trim keeps one contiguous slice of s: everything before and after it is
   * whitespace, and the slice, when not empty, neither starts nor ends with
   * whitespace.
   */
  lemma TrimKeepsCore(s: string)
    ensures forall j :: 0 <= j < TrimStart(s) ==> IsWhitespace(s[j])
    ensures forall j :: TrimEnd(s) <= j < |s| ==> IsWhitespace(s[j])
    ensures Trim(s) != [] ==> !IsWhitespace(Trim(s)[0]) && !IsWhitespace(Trim(s)[|Trim(s)| - 1])
  {
    var a, b := TrimStart(s), TrimEnd(s);
    if a < b {
      assert Trim(s)[0] == s[a];
      assert Trim(s)[|Trim(s)| - 1] == s[b - 1];
    }
  }

  /** The trimmed text is empty exactly when the input is all whitespace. */
  lemma TrimEmptyIffBlank(s: string)
    ensures Trim(s) == [] <==> Blank(s)
  {
    var a, b := TrimStart(s), TrimEnd(s);
    if Trim(s) == [] {
      assert a == b;
      forall i | 0 <= i < |s| ensures IsWhitespace(s[i]) {
        if i < a {
        } else {
          assert b <= i;
        }
      }
    } else {
      assert a < |s| && !IsWhitespace(s[a]);
    }
  }

  lemma TrimIdempotent(s: string)
    ensures Trim(Trim(s)) == Trim(s)
  {
    var r := Trim(s);
    TrimKeepsCore(s);
    if r != [] {
      assert TrimStart(r) == 0;
      assert TrimEnd(r) == |r|;
      assert r[0..|r|] == r;
    }
  }

  const ExcerptLimit := 100
  const Ellipsis := "..."

  /** JavaScript truthiness of a description: present and not the empty string. */
  predicate HasText(s: Option<string>) {
    s.Some? && s.value != ""
  }

  /**
   * The description line of a product card: nothing for a missing or empty
   * description, otherwise its first ExcerptLimit characters (all of it when
   * shorter) followed by the ellipsis, whether or not anything was cut.
   */
  function Excerpt(description: Option<string>): (r: string)
    ensures !HasText(description) ==> r == ""
    ensures HasText(description) ==>
      var d := description.value;
      |r| == (if |d| < ExcerptLimit then |d| else ExcerptLimit) + |Ellipsis|
      && r[..|r| - |Ellipsis|] <= d && r[|r| - |Ellipsis|..] == Ellipsis
  {
    if HasText(description) then
      var d := description.value;
      (if |d| <= ExcerptLimit then d else d[..ExcerptLimit]) + Ellipsis
    else ""
  }

  /** A description of at most ExcerptLimit characters is shown whole, still followed by the ellipsis. */
  lemma ExcerptOfShortDescription(d: string)
    requires d != [] && |d| <= ExcerptLimit
    ensures Excerpt(Some(d)) == d + Ellipsis
  {
  }

  /** Two descriptions that agree on their first ExcerptLimit characters give the same excerpt. */
  lemma ExcerptDependsOnPrefixOnly(d1: string, d2: string)
    requires |d1| >= ExcerptLimit && |d2| >= ExcerptLimit
    requires d1[..ExcerptLimit] == d2[..ExcerptLimit]
    ensures Excerpt(Some(d1)) == Excerpt(Some(d2))
  {
    if |d1| == ExcerptLimit { assert d1 == d1[..ExcerptLimit]; }
    if |d2| == ExcerptLimit { assert d2 == d2[..ExcerptLimit]; }
  }
}
