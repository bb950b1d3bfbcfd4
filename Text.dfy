/**
 * String helpers used by the routes and the UI: `toUpperCase` restricted to ASCII,
 * `startsWith`, and the decimal rendering of a count inside a template string.
 */
module Text {
  import opened Wrappers

  predicate IsLower(c: char) { 'a' <= c <= 'z' }

  /** `String.prototype.toUpperCase` on one ASCII character. */
  function UpperChar(c: char): (u: char)
    ensures !IsLower(u)
    ensures IsLower(c) ==> u as int == c as int - 32
    ensures !IsLower(c) ==> u == c
  {
    if IsLower(c) then (c as int - 32) as char else c
  }

  /** `s.toUpperCase()`, ASCII letters only. */
  function ToUpper(s: string): (r: string)
    ensures |r| == |s|
    ensures forall i :: 0 <= i < |s| ==> r[i] == UpperChar(s[i])
  {
    if s == [] then [] else [UpperChar(s[0])] + ToUpper(s[1..])
  }

  predicate HasLower(s: string) { exists i :: 0 <= i < |s| && IsLower(s[i]) }

  /** Two characters are the same letter, ignoring ASCII case. */
  predicate SameLetter(a: char, b: char) {
    a == b || (IsLower(a) && b as int == a as int - 32) || (IsLower(b) && a as int == b as int - 32)
  }

  /** Case-insensitive equality, stated without reference to `ToUpper`. */
  predicate EqualsIgnoringCase(a: string, b: string) {
    |a| == |b| && forall i :: 0 <= i < |a| ==> SameLetter(a[i], b[i])
  }

  /** The upper-cased string has no lower-case letter, and upper-casing is idempotent. */
  lemma ToUpperNormalises(s: string)
    ensures !HasLower(ToUpper(s))
    ensures ToUpper(ToUpper(s)) == ToUpper(s)
    ensures !HasLower(s) <==> ToUpper(s) == s
  {
    if !HasLower(s) {
      forall i | 0 <= i < |s| ensures ToUpper(s)[i] == s[i] { assert !IsLower(s[i]); }
    }
    if ToUpper(s) == s {
      forall i | 0 <= i < |s| ensures !IsLower(s[i]) { assert s[i] == UpperChar(s[i]); }
    }
  }

  /** Upper-casing both sides identifies exactly the strings equal up to ASCII case. */
  lemma ToUpperEqualIff(a: string, b: string)
    ensures ToUpper(a) == ToUpper(b) <==> EqualsIgnoringCase(a, b)
  {
    if ToUpper(a) == ToUpper(b) {
      forall i | 0 <= i < |a| ensures SameLetter(a[i], b[i]) {
        assert UpperChar(a[i]) == ToUpper(a)[i] == ToUpper(b)[i] == UpperChar(b[i]);
      }
    }
    if EqualsIgnoringCase(a, b) {
      forall i | 0 <= i < |a| ensures ToUpper(a)[i] == ToUpper(b)[i] {
        assert SameLetter(a[i], b[i]);
      }
    }
  }

  /** `s.startsWith(prefix)`. */
  predicate StartsWith(s: string, prefix: string) {
    |prefix| <= |s| && s[..|prefix|] == prefix
  }

  predicate IsDigit(c: char) { '0' <= c <= '9' }

  function DigitChar(d: nat): (c: char)
    requires d < 10
    ensures IsDigit(c)
  {
    ('0' as int + d) as char
  }

  function DigitValue(c: char): nat
    requires IsDigit(c)
  {
    c as int - '0' as int
  }

  /** The decimal rendering of a non-negative integer, as `${n}` produces it. */
  function NatToString(n: nat): (s: string)
    ensures |s| > 0
    ensures forall i :: 0 <= i < |s| ==> IsDigit(s[i])
    ensures |s| > 1 ==> s[0] != '0'
  {
    if n < 10 then [DigitChar(n)]
    else NatToString(n / 10) + [DigitChar(n % 10)]
  }

  /** Reads a string of decimal digits back as a number. */
  function ParseDigits(s: string): nat
    requires forall i :: 0 <= i < |s| ==> IsDigit(s[i])
  {
    if s == [] then 0 else 10 * ParseDigits(s[..|s| - 1]) + DigitValue(s[|s| - 1])
  }

  /** Rendering a count and reading it back gives the count. */
  lemma {:induction false} ParseNatToString(n: nat)
    ensures ParseDigits(NatToString(n)) == n
  {
    if n >= 10 {
      var s := NatToString(n);
      assert s[..|s| - 1] == NatToString(n / 10);
      ParseNatToString(n / 10);
    }
  }

  /** The first index of `c` in `s`, or |s| when there is none. */
  function IndexOfChar(s: string, c: char): (k: nat)
    ensures k <= |s|
    ensures forall i :: 0 <= i < k ==> s[i] != c
    ensures k < |s| ==> s[k] == c
  {
    if s == [] then 0
    else if s[0] == c then 0
    else 1 + IndexOfChar(s[1..], c)
  }

  /** Splits `"<a>/<b>"` back into the two numbers, if it has that shape. */
  function ParseRatio(s: string): Option<(nat, nat)> {
    var k := IndexOfChar(s, '/');
    if k < |s| && (forall i :: 0 <= i < k ==> IsDigit(s[i])) && (forall i :: k < i < |s| ==> IsDigit(s[i]))
    then Some((ParseDigits(s[..k]), ParseDigits(s[k + 1..])))
    else None
  }

  /** `${a}/${b}`. */
  function FormatRatio(a: nat, b: nat): (s: string)
    ensures ParseRatio(s) == Some((a, b))
  {
    var x, y := NatToString(a), NatToString(b);
    var s := x + "/" + y;
    assert IndexOfChar(s, '/') == |x| by {
      assert forall i :: 0 <= i < |x| ==> s[i] == x[i];
      assert s[|x|] == '/';
    }
    assert s[..|x|] == x && s[|x| + 1..] == y;
    ParseNatToString(a);
    ParseNatToString(b);
    s
  }
}
