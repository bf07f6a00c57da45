/** Character classes, greedy runs and digit values shared by the option
    probes of the renderers. Character classes follow java.util.regex
    defaults: `\d` is ASCII `[0-9]`, `\s` is `[ \t\n\x0B\f\r]`, and `(?i)`
    without UNICODE_CASE folds ASCII letters only. */
module Strings {

  datatype Option<+T> = None | Some(value: T)

  /** `\d` */
  predicate IsDigit(c: char) {
    '0' <= c <= '9'
  }

  /** `\s` */
  predicate IsSpace(c: char) {
    c == ' ' || c == '\t' || c == '\n' || c == '\r' || c as int == 0x0B || c as int == 0x0C
  }

  /** `\S` */
  predicate IsNonSpace(c: char) {
    !IsSpace(c)
  }

  /** ASCII lower-casing, the only folding `(?i)` does by default. */
  function ToLowerAscii(c: char): char {
    if 'A' <= c <= 'Z' then (c as int + 32) as char else c
  }

  /** How `(?i)` compares one input character `c` with one pattern character
      `x`: a lower-case ASCII letter matches itself and its ASCII upper-case
      form and nothing else (no Unicode folding such as the Kelvin sign); an
      upper-case ASCII letter never matches after lower-casing; every other
      character matches only itself. */
  lemma AsciiCaseMatch(c: char, x: char)
    ensures 'a' <= x <= 'z' ==> (ToLowerAscii(c) == x <==> c == x || c as int == x as int - 32)
    ensures 'A' <= x <= 'Z' ==> ToLowerAscii(c) != x
    ensures !('a' <= x <= 'z') && !('A' <= x <= 'Z') ==> (ToLowerAscii(c) == x <==> c == x)
  {
  }

  /** A key without upper-case letters occurs at `i` exactly when each input
      character there equals the key character or is its ASCII upper-case form. */
  lemma KeyAtIgnoresAsciiCase(s: string, i: nat, key: string)
    requires forall k :: 0 <= k < |key| ==> !('A' <= key[k] <= 'Z')
    ensures KeyAt(s, i, key) <==>
              i + |key| <= |s| &&
              forall k :: 0 <= k < |key| ==>
                s[i + k] == key[k] || ('a' <= key[k] <= 'z' && s[i + k] as int == key[k] as int - 32)
  {
    if i + |key| <= |s| {
      forall k | 0 <= k < |key| {
        AsciiCaseMatch(s[i + k], key[k]);
      }
    }
  }

  /** The lower-case literal `key` occurs at position `i` of `s`, ASCII case ignored. */
  predicate KeyAt(s: string, i: nat, key: string) {
    i + |key| <= |s| && forall k :: 0 <= k < |key| ==> ToLowerAscii(s[i + k]) == key[k]
  }

  /** `run` is the longest run of `inClass` characters of `s` starting at `k`
      (what a greedy `X+` or `X*` captures there). */
  ghost predicate IsMaximalRun(s: string, k: nat, run: string, inClass: char -> bool) {
    && k + |run| <= |s|
    && s[k..k + |run|] == run
    && (forall j :: k <= j < k + |run| ==> inClass(s[j]))
    && (k + |run| == |s| || !inClass(s[k + |run|]))
  }

  /** Length of the greedy run of `inClass` characters starting at `k`. */
  function RunLength(s: string, k: nat, inClass: char -> bool): (n: nat)
    requires k <= |s|
    decreases |s| - k
    ensures k + n <= |s|
    ensures forall j :: k <= j < k + n ==> inClass(s[j])
    ensures k + n == |s| || !inClass(s[k + n])
  {
    if k == |s| || !inClass(s[k]) then 0
    else 1 + RunLength(s, k + 1, inClass)
  }

  /** A greedy run is determined by its start: it is the one RunLength
      measures. A corollary of RunLength's maximality contract. */
  lemma MaximalRunUnique(s: string, k: nat, run: string, inClass: char -> bool)
    requires IsMaximalRun(s, k, run, inClass)
    ensures k <= |s| && run == s[k..k + RunLength(s, k, inClass)]
  {
  }

  /** Appending keeps a prefix. */
  lemma PrefixExtends(p: string, a: string, b: string)
    requires p <= a
    ensures p <= a + b
  {
    assert (a + b)[..|p|] == a[..|p|];
  }

  /** The appended part is a suffix. */
  lemma SuffixOfAppend(a: string, b: string)
    ensures |b| <= |a + b| && (a + b)[|a + b| - |b|..] == b
  {
  }

  predicate AllDigits(ds: string) {
    forall j :: 0 <= j < |ds| ==> IsDigit(ds[j])
  }

  function DigitValue(c: char): (d: nat)
    requires IsDigit(c)
    ensures d < 10
  {
    c as int - '0' as int
  }

  function Pow10(e: nat): (p: nat)
    ensures p >= 1
  {
    if e == 0 then 1 else 10 * Pow10(e - 1)
  }

  /** The value of a run of decimal digits, as Integer.parseInt and
      Double.parseDouble read it (leading zeros allowed). */
  function DecimalValue(ds: string): (n: nat)
    requires AllDigits(ds)
  {
    if |ds| == 0 then 0
    else DecimalValue(ds[..|ds| - 1]) * 10 + DigitValue(ds[|ds| - 1])
  }

  lemma {:induction false} Pow10Grows(a: nat, b: nat)
    requires a <= b
    ensures Pow10(a) <= Pow10(b)
    decreases b
  {
    if a < b {
      Pow10Grows(a, b - 1);
    }
  }

  /** `k` digits spell a value below `10^k`. */
  lemma {:induction false} DecimalValueBound(ds: string)
    requires AllDigits(ds)
    ensures DecimalValue(ds) < Pow10(|ds|)
  {
    if |ds| > 0 {
      DecimalValueBound(ds[..|ds| - 1]);
    }
  }

  function DigitChar(d: nat): (c: char)
    requires d < 10
    ensures IsDigit(c) && DigitValue(c) == d
  {
    ('0' as int + d) as char
  }

  /** Shortest decimal spelling of `n`: the reference inverse of DecimalValue. */
  function DecimalString(n: nat): (ds: string)
    ensures |ds| >= 1 && AllDigits(ds)
  {
    if n < 10 then [DigitChar(n)]
    else DecimalString(n / 10) + [DigitChar(n % 10)]
  }

  lemma {:induction false} DecimalRoundTrip(n: nat)
    ensures DecimalValue(DecimalString(n)) == n
  {
    if n >= 10 {
      var ds := DecimalString(n);
      assert ds[..|ds| - 1] == DecimalString(n / 10);
      DecimalRoundTrip(n / 10);
    }
  }

  /** Leading zeros do not change the value. */
  lemma {:induction false} DecimalLeadingZero(ds: string)
    requires AllDigits(ds)
    ensures AllDigits("0" + ds) && DecimalValue("0" + ds) == DecimalValue(ds)
  {
    if |ds| > 0 {
      var zs := "0" + ds;
      assert zs[..|zs| - 1] == "0" + ds[..|ds| - 1];
      DecimalLeadingZero(ds[..|ds| - 1]);
    }
  }
}
