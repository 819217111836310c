/**
 * The parts of PHP's and WordPress's semantics that the plugin's logic depends on:
 * `empty()` and `isset()` on decoded JSON values, `absint()`, integer-to-string and
 * string-to-integer conversion, `substr($s, 0, n)`, ordered string-keyed arrays, and the
 * WordPress library functions the plugin calls but does not define.
 */
module Php {

  /** A scalar value of a decoded JSON document: JSON numbers decode to PHP ints or floats. */
  datatype Value = Null | Bool(b: bool) | Num(n: int) | Float(x: real) | Str(s: string)

  /** An `attributes` object of a JSON:API resource. */
  type Attrs = map<string, Value>

  /** A string-keyed PHP array of strings, in insertion order (such as a filter set). */
  type Pairs = seq<(string, string)>

  /** `empty($s)` for a string: only "" and "0" are empty. */
  predicate EmptyString(s: string) {
    s == "" || s == "0"
  }

  /** `empty($v)` for a scalar. */
  predicate Falsy(v: Value) {
    match v
    case Null => true
    case Bool(b) => !b
    case Num(n) => n == 0
    case Float(x) => x == 0.0
    case Str(s) => EmptyString(s)
  }

  /** `isset($attrs[$k])`: present and not null. */
  predicate IsSet(attrs: Attrs, k: string) {
    k in attrs && attrs[k] != Null
  }

  /** `empty($attrs[$k])`: absent or falsy. */
  predicate EmptyAt(attrs: Attrs, k: string) {
    k !in attrs || Falsy(attrs[k])
  }

  /** `absint($x)` on an integer. */
  function Absint(x: int): (r: nat)
    ensures r == x || r == -x
  {
    if x < 0 then -x else x
  }

  predicate IsDigit(c: char) {
    '0' <= c <= '9'
  }

  predicate AllDigits(s: string) {
    forall i :: 0 <= i < |s| ==> IsDigit(s[i])
  }

  /** The decimal spelling of a natural number, as PHP interpolates an integer into a string. */
  function Decimal(n: nat): (s: string)
    ensures s != [] && AllDigits(s)
    decreases n
  {
    if n < 10 then [('0' as int + n) as char]
    else Decimal(n / 10) + [('0' as int + n % 10) as char]
  }

  /** The number spelled by a string of decimal digits. */
  function DigitsValue(s: string): nat
    requires AllDigits(s)
  {
    if s == [] then 0
    else DigitsValue(s[..|s| - 1]) * 10 + (s[|s| - 1] as int - '0' as int)
  }

  /** Reading back the decimal spelling of a number gives that number. */
  lemma {:induction false} DecimalRoundTrip(n: nat)
    ensures DigitsValue(Decimal(n)) == n
    decreases n
  {
    if n >= 10 {
      var s := Decimal(n);
      assert s[..|s| - 1] == Decimal(n / 10);
      DecimalRoundTrip(n / 10);
    }
  }

  /** The length of the longest prefix of `s` made of decimal digits. */
  function DigitPrefix(s: string): (k: nat)
    ensures k <= |s| && AllDigits(s[..k])
    ensures k < |s| ==> !IsDigit(s[k])
  {
    if s == [] || !IsDigit(s[0]) then 0
    else
      var k := 1 + DigitPrefix(s[1..]);
      assert s[..k] == [s[0]] + s[1..][..k - 1];
      k
  }

  /** `(int)$x` for a float: truncation toward zero. */
  function Trunc(x: real): (n: int)
    ensures x >= 0.0 ==> n as real <= x < n as real + 1.0
    ensures x < 0.0 ==> n as real - 1.0 < x <= n as real
  {
    if x >= 0.0 then x.Floor else -((-x).Floor)
  }

  function SignedDecimal(n: int): string {
    if n < 0 then "-" + Decimal(-n) else Decimal(n)
  }

  /**
   * `(string)$v`: the string a scalar is converted to by `implode` or concatenation. A float
   * that is not a whole number keeps only its sign, integer part and decimal point here.
   */
  function ToStr(v: Value): string {
    match v
    case Null => ""
    case Bool(b) => if b then "1" else ""
    case Num(n) => SignedDecimal(n)
    case Float(x) =>
      if x == Trunc(x) as real then SignedDecimal(Trunc(x))
      else (if x < 0.0 then "-" else "") + Decimal(Absint(Trunc(x))) + "."
    case Str(s) => s
  }

  /** The integer PHP uses for `(int)$v`; a float is truncated, a string counts by its leading digits. */
  function ToInt(v: Value): int {
    match v
    case Null => 0
    case Bool(b) => if b then 1 else 0
    case Num(n) => n
    case Float(x) => Trunc(x)
    case Str(s) => DigitsValue(s[..DigitPrefix(s)])
  }

  /** The number PHP uses for `$v` in `$a - $b`; a string counts by its leading digits. */
  function ToNumber(v: Value): real {
    match v
    case Float(x) => x
    case _ => ToInt(v) as real
  }

  /** `substr($s, 0, $n)`. */
  function Prefix(s: string, n: nat): (r: string)
    ensures |r| <= n && r <= s
    ensures |s| <= n ==> r == s
    ensures |s| > n ==> |r| == n
  {
    if |s| <= n then s else s[..n]
  }

  /** True when the array has an entry for `k`. */
  predicate HasKey(a: Pairs, k: string) {
    exists i :: 0 <= i < |a| && a[i].0 == k
  }

  /** `$a[$k]`, with a missing key read as "" (which `empty()` treats like PHP's null). */
  function Get(a: Pairs, k: string): string {
    if a == [] then ""
    else if a[0].0 == k then a[0].1
    else Get(a[1..], k)
  }

  /** `Get` reads the first entry under `k`, and "" when there is none. */
  lemma {:induction false} GetFinds(a: Pairs, k: string)
    ensures !HasKey(a, k) ==> Get(a, k) == ""
    ensures HasKey(a, k) ==>
      exists i :: 0 <= i < |a| && a[i].0 == k && Get(a, k) == a[i].1 && forall j :: 0 <= j < i ==> a[j].0 != k
  {
    if a != [] && a[0].0 != k {
      GetFinds(a[1..], k);
      if HasKey(a, k) {
        var i0 :| 0 <= i0 < |a| && a[i0].0 == k;
        assert a[1..][i0 - 1].0 == k;
        var i :| 0 <= i < |a[1..]| && a[1..][i].0 == k && Get(a, k) == a[1..][i].1
          && forall j :: 0 <= j < i ==> a[1..][j].0 != k;
        assert a[i + 1].0 == k && forall j :: 0 <= j < i + 1 ==> a[j].0 != k;
      }
    } else if a != [] {
      assert HasKey(a, k) && a[0].0 == k;
    }
  }

  /**
   * The WordPress library functions and site values the plugin uses but does not define
   * (`sanitize_text_field`, `esc_html`, `esc_attr`, `wp_trim_words($s, 30)`, `home_url`,
   * `get_bloginfo('name')`, `PAF_PLUGIN_URL`): the model leaves them uninterpreted.
   */
  datatype Wp = Wp(
    sanitizeTextField: string -> string,
    escHtml: string -> string,
    escAttr: string -> string,
    trimWords: string -> string,
    homeUrl: string -> string,
    blogName: string,
    pluginUrl: string)
}
