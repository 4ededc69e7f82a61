/**
 * The two JavaScript string operations the handlers rely on:
 * `String.prototype.trim` (ECMAScript's WhiteSpace and LineTerminator code
 * points removed from both ends) and `Number.prototype.toString` applied to
 * the non-negative integer a click counter holds (decimal digits, no sign,
 * no leading zero). A decimal reader is given beside `NatToString` as its
 * inverse.
 */
module JsString {

  /** The code points that `trim` removes: ECMAScript WhiteSpace (TAB, VT, FF,
      ZWNBSP and the Unicode "Zs" category) and LineTerminator (LF, CR, LS, PS). */
  const WhiteSpace: set<char> := {
    '\t', '\n', '\U{000B}', '\U{000C}', '\r', ' ', '\U{00A0}', '\U{1680}',
    '\U{2000}', '\U{2001}', '\U{2002}', '\U{2003}', '\U{2004}', '\U{2005}',
    '\U{2006}', '\U{2007}', '\U{2008}', '\U{2009}', '\U{200A}',
    '\U{2028}', '\U{2029}', '\U{202F}', '\U{205F}', '\U{3000}', '\U{FEFF}'
  }

  predicate IsWhiteSpace(c: char) {
    c in WhiteSpace
  }

  predicate AllWhiteSpace(s: string) {
    forall i :: 0 <= i < |s| ==> IsWhiteSpace(s[i])
  }

  /** The first index at or after `i` that does not hold white space (or the
      end of the string). */
  function SkipLeading(s: string, i: nat): (n: nat)
    requires i <= |s|
    ensures i <= n <= |s|
    ensures forall k :: i <= k < n ==> IsWhiteSpace(s[k])
    ensures n < |s| ==> !IsWhiteSpace(s[n])
    decreases |s| - i
  {
    if i < |s| && IsWhiteSpace(s[i]) then SkipLeading(s, i + 1) else i
  }

  /** The end of `s[lo..j]` once its trailing white space is cut off: every
      index from there up to `j` holds white space, and the character before
      it, if it lies in the slice, does not. */
  function SkipTrailing(s: string, lo: nat, j: nat): (m: nat)
    requires lo <= j <= |s|
    ensures lo <= m <= j
    ensures forall k :: m <= k < j ==> IsWhiteSpace(s[k])
    ensures lo < m ==> !IsWhiteSpace(s[m - 1])
  {
    if lo < j && IsWhiteSpace(s[j - 1]) then SkipTrailing(s, lo, j - 1) else j
  }

  /** `String.prototype.trim`: the slice of `s` that starts at its first
      non-white-space character and ends after its last one. Everything
      outside the slice is white space, and a non-empty result neither starts
      nor ends with white space. */
  function Trim(s: string): (r: string)
    ensures var i := SkipLeading(s, 0);
      && i + |r| <= |s| && r == s[i..i + |r|]
      && (forall k :: 0 <= k < i ==> IsWhiteSpace(s[k]))
      && (forall k :: i + |r| <= k < |s| ==> IsWhiteSpace(s[k]))
    ensures r != [] ==> !IsWhiteSpace(r[0]) && !IsWhiteSpace(r[|r| - 1])
  {
    var i := SkipLeading(s, 0);
    var j := SkipTrailing(s, i, |s|);
    assert i < j ==> s[i..j][0] == s[i] && s[i..j][j - i - 1] == s[j - 1];
    s[i..j]
  }

  /** The characterisation determines `trim`: any slice `s[i..j]` with only
      white space outside it and no white space at its ends is `trim(s)`. */
  lemma TrimUnique(s: string, i: nat, j: nat)
    requires i <= j <= |s|
    requires forall k :: 0 <= k < i ==> IsWhiteSpace(s[k])
    requires forall k :: j <= k < |s| ==> IsWhiteSpace(s[k])
    requires i < j ==> !IsWhiteSpace(s[i]) && !IsWhiteSpace(s[j - 1])
    ensures Trim(s) == s[i..j]
  {
    var n := SkipLeading(s, 0);
    if i < j {
      // The first non-white-space character is at i, the last at j - 1.
      assert n == i;
      assert SkipTrailing(s, i, |s|) == j;
    } else {
      assert n == |s|;
    }
  }

  /** `trim` gives "" exactly when the input is white space only (the empty
      string included). */
  lemma TrimEmptyIff(s: string)
    ensures Trim(s) == "" <==> AllWhiteSpace(s)
  {
  }

  /** Trimming an already trimmed string changes nothing. */
  lemma TrimIdempotent(s: string)
    ensures Trim(Trim(s)) == Trim(s)
  {
    var r := Trim(s);
    TrimUnique(r, 0, |r|);
    assert r[0..|r|] == r;
  }

  /** The ASCII digit for 0 <= d < 10. */
  function DigitChar(d: nat): (c: char)
    requires d < 10
    ensures '0' <= c <= '9'
  {
    ['0', '1', '2', '3', '4', '5', '6', '7', '8', '9'][d]
  }

  function DigitValue(c: char): (d: nat)
    requires '0' <= c <= '9'
    ensures d < 10 && DigitChar(d) == c
  {
    c as int - '0' as int
  }

  predicate IsDigits(s: string) {
    forall i :: 0 <= i < |s| ==> '0' <= s[i] <= '9'
  }

  /** `n.toString()` for a non-negative integer: a non-empty string of digits
      with no leading zero, except for "0" itself. */
  function NatToString(n: nat): (s: string)
    ensures |s| > 0 && IsDigits(s)
    ensures s[0] == '0' ==> n == 0 && s == "0"
  {
    if n < 10 then [DigitChar(n)] else NatToString(n / 10) + [DigitChar(n % 10)]
  }

  /** The value of a string of decimal digits, read most significant first. */
  function ParseDigits(s: string): nat
    requires IsDigits(s)
  {
    if s == [] then 0 else 10 * ParseDigits(s[..|s| - 1]) + DigitValue(s[|s| - 1])
  }

  /** Reading back what `NatToString` wrote gives the number: the counter text
      shows the count. */
  lemma {:induction false} ParseNatToString(n: nat)
    ensures ParseDigits(NatToString(n)) == n
  {
    var s := NatToString(n);
    if n < 10 {
      assert s[..0] == [];
    } else {
      ParseNatToString(n / 10);
      assert s[..|s| - 1] == NatToString(n / 10);
    }
  }

  /** Different counts give different texts. */
  lemma NatToStringInjective(m: nat, n: nat)
    ensures NatToString(m) == NatToString(n) ==> m == n
  {
    ParseNatToString(m);
    ParseNatToString(n);
  }
}
