/** The handful of PHP string built-ins the library relies on, stated over
    `seq<char>`: ASCII case folding (`strtolower`, `strtoupper`), `trim`,
    `strpos`/`stripos`, `empty` on strings, `implode`, and the decimal
    conversions behind `intval` and string interpolation of integers. */
module PhpStrings {
  import opened Wrappers

  // ---------------------------------------------------------------------
  // ASCII case folding (PHP 8 `strtolower`/`strtoupper` are locale-free)
  // ---------------------------------------------------------------------

  function LowerChar(c: char): char {
    if 'A' <= c <= 'Z' then (c as int + 32) as char else c
  }

  function UpperChar(c: char): char {
    if 'a' <= c <= 'z' then (c as int - 32) as char else c
  }

  function Lower(s: string): (r: string)
    ensures |r| == |s|
    ensures forall i :: 0 <= i < |s| ==> r[i] == LowerChar(s[i])
  {
    seq(|s|, i requires 0 <= i < |s| => LowerChar(s[i]))
  }

  function Upper(s: string): (r: string)
    ensures |r| == |s|
    ensures forall i :: 0 <= i < |s| ==> r[i] == UpperChar(s[i])
  {
    seq(|s|, i requires 0 <= i < |s| => UpperChar(s[i]))
  }

  lemma LowerAppend(a: string, b: string)
    ensures Lower(a + b) == Lower(a) + Lower(b)
  {
  }

  lemma LowerPrefix(s: string, n: nat)
    requires n <= |s|
    ensures Lower(s)[..n] == Lower(s[..n])
  {
  }

  // ---------------------------------------------------------------------
  // trim with PHP's default character list " \t\n\r\0\x0B"
  // ---------------------------------------------------------------------

  predicate IsTrimChar(c: char) {
    c == ' ' || c == '\t' || c == '\n' || c == '\r' || c == '\0' || c == '\U{000B}'
  }

  function TrimLeft(s: string): (r: string)
    ensures |r| <= |s| && r == s[|s| - |r|..]
    ensures r == [] || !IsTrimChar(r[0])
    ensures forall i :: 0 <= i < |s| - |r| ==> IsTrimChar(s[i])
  {
    if s != [] && IsTrimChar(s[0]) then TrimLeft(s[1..]) else s
  }

  function TrimRight(s: string): (r: string)
    ensures |r| <= |s| && r == s[..|r|]
    ensures r == [] || !IsTrimChar(r[|r| - 1])
    ensures forall i :: |r| <= i < |s| ==> IsTrimChar(s[i])
  {
    if s != [] && IsTrimChar(s[|s| - 1]) then TrimRight(s[..|s| - 1]) else s
  }

  /** `trim($s)`: the longest infix of `s` that neither starts nor ends
      with a trim character. */
  function Trim(s: string): (r: string)
    ensures |r| <= |s|
    ensures r == [] || (!IsTrimChar(r[0]) && !IsTrimChar(r[|r| - 1]))
  {
    TrimRight(TrimLeft(s))
  }

  // ---------------------------------------------------------------------
  // strpos / stripos
  // ---------------------------------------------------------------------

  predicate OccursAt(s: string, p: string, i: nat) {
    i + |p| <= |s| && s[i..i + |p|] == p
  }

  /** Leftmost occurrence of `p` in `s` at an index >= `from`. */
  function FindFrom(s: string, p: string, from: nat): Option<nat>
    decreases |s| - from
  {
    if from + |p| > |s| then None
    else if OccursAt(s, p, from) then Some(from)
    else FindFrom(s, p, from + 1)
  }

  /** `FindFrom` finds the leftmost occurrence at or after `from`, and
      `None` means there is none. */
  lemma {:induction false} FindFromSpec(s: string, p: string, from: nat)
    decreases |s| - from
    ensures var r := FindFrom(s, p, from);
      && (r.Some? ==> from <= r.value && OccursAt(s, p, r.value))
      && (r.Some? ==> forall j :: from <= j < r.value ==> !OccursAt(s, p, j))
      && (r.None? ==> forall j :: from <= j ==> !OccursAt(s, p, j))
  {
    if from + |p| <= |s| && !OccursAt(s, p, from) {
      FindFromSpec(s, p, from + 1);
    }
  }

  /** `strpos($s, $p)`: `None` plays PHP's `false`. */
  function IndexOf(s: string, p: string): Option<nat> {
    FindFrom(s, p, 0)
  }

  /** `stripos($s, $p)`: the search on case-folded copies. */
  function Stripos(s: string, p: string): Option<nat> {
    IndexOf(Lower(s), Lower(p))
  }

  /** `strpos($s, $p) !== false`. */
  predicate Contains(s: string, p: string) {
    IndexOf(s, p).Some?
  }

  lemma ContainsIff(s: string, p: string)
    ensures Contains(s, p) <==> exists i: nat :: OccursAt(s, p, i)
  {
    FindFromSpec(s, p, 0);
    var r := IndexOf(s, p);
    if r.Some? {
      assert OccursAt(s, p, r.value);
    }
  }

  predicate StartsWith(s: string, p: string) {
    |p| <= |s| && s[..|p|] == p
  }

  /** Case-insensitive (ASCII) prefix test. */
  predicate StartsWithCI(s: string, p: string) {
    |p| <= |s| && Lower(s[..|p|]) == Lower(p)
  }

  /** `stripos($s, $p) === 0` holds exactly when `s` starts with `p`,
      ignoring ASCII case: the leftmost occurrence is at 0 iff there is one
      at 0. */
  lemma StriposZeroIffPrefix(s: string, p: string)
    ensures Stripos(s, p) == Some(0) <==> StartsWithCI(s, p)
  {
    var ls, lp := Lower(s), Lower(p);
    FindFromSpec(ls, lp, 0);
    if StartsWithCI(s, p) {
      LowerPrefix(s, |p|);
      assert OccursAt(ls, lp, 0);
    }
    if Stripos(s, p) == Some(0) {
      assert OccursAt(ls, lp, 0);
      LowerPrefix(s, |p|);
    }
  }

  // ---------------------------------------------------------------------
  // empty() on strings, implode
  // ---------------------------------------------------------------------

  /** PHP `empty($s)` for a string (or null, which the model writes as ""):
      true for "" and for "0". */
  predicate IsEmptyString(s: string) {
    s == "" || s == "0"
  }

  /** `implode($sep, $parts)`. */
  function Join(sep: string, parts: seq<string>): (r: string)
    ensures parts == [] ==> r == ""
    ensures |parts| == 1 ==> r == parts[0]
  {
    if parts == [] then ""
    else if |parts| == 1 then parts[0]
    else parts[0] + sep + Join(sep, parts[1..])
  }

  // ---------------------------------------------------------------------
  // Decimal digits: `is_numeric`/`intval` on digit strings, and the
  // rendering of an integer inside an interpolated string
  // ---------------------------------------------------------------------

  predicate IsDigit(c: char) {
    '0' <= c <= '9'
  }

  predicate IsDigits(s: string) {
    s != [] && forall i :: 0 <= i < |s| ==> IsDigit(s[i])
  }

  function DigitValue(c: char): nat
    requires IsDigit(c)
  {
    c as int - '0' as int
  }

  function DigitChar(d: nat): (c: char)
    requires d < 10
    ensures IsDigit(c) && DigitValue(c) == d
  {
    ('0' as int + d) as char
  }

  /** The number a digit string denotes (`intval` of a digit string). */
  function DigitsValue(s: string): nat
    requires forall i :: 0 <= i < |s| ==> IsDigit(s[i])
  {
    if s == [] then 0 else DigitsValue(s[..|s| - 1]) * 10 + DigitValue(s[|s| - 1])
  }

  /** `PHP_INT_MAX` on a 64-bit build. */
  const PhpIntMax: nat := 9223372036854775807

  /** `intval` of a digit string: its number, saturated at `PHP_INT_MAX`. */
  function IntVal(s: string): (n: nat)
    requires forall i :: 0 <= i < |s| ==> IsDigit(s[i])
    ensures n <= PhpIntMax
    ensures n <= DigitsValue(s)
    ensures n == DigitsValue(s) || n == PhpIntMax
  {
    if DigitsValue(s) > PhpIntMax then PhpIntMax else DigitsValue(s)
  }

  /** Canonical decimal rendering of a natural number. */
  function NatToString(n: nat): string {
    if n < 10 then [DigitChar(n)] else NatToString(n / 10) + [DigitChar(n % 10)]
  }

  /** The rendering is a digit string without a leading zero. */
  lemma {:induction false} NatToStringCanonical(n: nat)
    ensures IsDigits(NatToString(n))
    ensures |NatToString(n)| > 1 ==> NatToString(n)[0] != '0'
  {
    if n >= 10 {
      NatToStringCanonical(n / 10);
      var s := NatToString(n / 10);
      assert NatToString(n)[0] == s[0];
    }
  }

  /** Decimal rendering of an integer, with a leading '-' when negative. */
  function IntToString(i: int): string {
    if i < 0 then "-" + NatToString(-i) else NatToString(i)
  }

  /** Reading back a rendered number gives the number: the rendering is
      exact. */
  lemma {:induction false} NatToStringRoundTrip(n: nat)
    ensures IsDigits(NatToString(n)) && DigitsValue(NatToString(n)) == n
  {
    NatToStringCanonical(n);
    if n >= 10 {
      NatToStringRoundTrip(n / 10);
      NatToStringCanonical(n / 10);
      var s := NatToString(n);
      assert s[..|s| - 1] == NatToString(n / 10);
    }
  }
}
