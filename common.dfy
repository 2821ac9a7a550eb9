/** Vocabulary shared by every service: optional values and settled promises,
    the two JavaScript rounding rules the app relies on (`Math.round` and
    `Number.prototype.toFixed` read back with `parseFloat`), `Array.prototype.find`
    over a fixture array, and the decimal rendering of an integer. */
module Common {

  datatype Option<+T> = None | Some(value: T)

  /** A promise that resolved with a value or was rejected with an error. */
  datatype Result<+T> = Success(value: T) | Failure(error: string)

  /** `Math.round`: the nearest integer, a tie going towards +infinity. */
  function RoundHalfUp(x: real): (r: int)
    ensures r as real - 0.5 <= x < r as real + 0.5
  {
    (x + 0.5).Floor
  }

  /** The contract of RoundHalfUp singles out one integer. */
  lemma RoundHalfUpUnique(x: real, n: int)
    requires n as real - 0.5 <= x < n as real + 0.5
    ensures RoundHalfUp(x) == n
  {
  }

  /** Rounding commutes with adding a whole number. */
  lemma RoundHalfUpShift(x: real, k: int)
    ensures RoundHalfUp(x + k as real) == RoundHalfUp(x) + k
  {
    RoundHalfUpUnique(x + k as real, RoundHalfUp(x) + k);
  }

  lemma RoundHalfUpMonotone(x: real, y: real)
    requires x <= y
    ensures RoundHalfUp(x) <= RoundHalfUp(y)
  {
  }

  function Pow10(n: nat): (p: nat)
    ensures p >= 1
  {
    if n == 0 then 1 else 10 * Pow10(n - 1)
  }

  /** How many units of 10^-digits `x.toFixed(digits)` keeps: the whole
      number nearest to x * 10^digits, a tie going away from zero (toFixed
      rounds the magnitude and puts the sign back). */
  function FixedUnits(x: real, digits: nat): (n: int)
    ensures x >= 0.0 ==> n as real - 0.5 <= x * Pow10(digits) as real < n as real + 0.5
    ensures x < 0.0 ==> n as real - 0.5 < x * Pow10(digits) as real <= n as real + 0.5
  {
    var xs := x * Pow10(digits) as real;
    assert x >= 0.0 <==> xs >= 0.0;
    if xs >= 0.0 then RoundHalfUp(xs) else -RoundHalfUp(-xs)
  }

  /** `parseFloat(x.toFixed(digits))` on exact reals: a whole number of
      units of 10^-digits, the one FixedUnits picks. */
  function ToFixed(x: real, digits: nat): (r: real)
    ensures r * Pow10(digits) as real == FixedUnits(x, digits) as real
  {
    ScaleBack(FixedUnits(x, digits), Pow10(digits) as real);
    FixedUnits(x, digits) as real / Pow10(digits) as real
  }

  lemma ScaleBack(n: int, s: real)
    requires s > 0.0
    ensures (n as real / s) * s == n as real
  {
  }

  /** `Array.prototype.find` with the predicate `e => key(e) === id`: the first
      element whose key is `id`, or nothing when no element has it. */
  function Find<T>(s: seq<T>, key: T -> string, id: string): (r: Option<T>)
    ensures r.None? <==> forall i :: 0 <= i < |s| ==> key(s[i]) != id
    ensures r.Some? ==> exists i :: 0 <= i < |s| && s[i] == r.value && key(s[i]) == id
                                     && forall j :: 0 <= j < i ==> key(s[j]) != id
  {
    if |s| == 0 then None
    else if key(s[0]) == id then Some(s[0])
    else
      var r := Find(s[1..], key, id);
      assert forall i :: 1 <= i < |s| ==> s[i] == s[1..][i - 1];
      r
  }

  /** No two elements of `s` share a key. */
  predicate DistinctKeys<T>(s: seq<T>, key: T -> string)
  {
    forall i, j :: 0 <= i < j < |s| ==> key(s[i]) != key(s[j])
  }

  /** When keys are distinct, looking an element's key up finds that element. */
  lemma FindDistinct<T>(s: seq<T>, key: T -> string, i: nat)
    requires DistinctKeys(s, key)
    requires i < |s|
    ensures Find(s, key, key(s[i])) == Some(s[i])
  {
  }

  function Digit(d: nat): (c: char)
    requires d < 10
    ensures '0' <= c <= '9'
  {
    (d + '0' as int) as char
  }

  predicate AllDigits(s: string)
  {
    forall i :: 0 <= i < |s| ==> '0' <= s[i] <= '9'
  }

  /** The number a string of decimal digits denotes, read most significant
      digit first. */
  function DecimalValue(s: string): nat
    requires AllDigits(s)
  {
    if s == [] then 0
    else DecimalValue(s[..|s| - 1]) * 10 + (s[|s| - 1] as int - '0' as int)
  }

  /** The decimal rendering of a natural number, as `String(n)` gives it:
      digits only, no leading zero, and reading it back gives `n`. */
  function DecimalString(n: nat): (s: string)
    ensures |s| >= 1 && AllDigits(s)
    ensures s[0] == '0' <==> n == 0
    ensures DecimalValue(s) == n
  {
    if n < 10 then [Digit(n)]
    else
      var s := DecimalString(n / 10) + [Digit(n % 10)];
      assert s[..|s| - 1] == DecimalString(n / 10);
      s
  }

  /** Distinct numbers render as distinct strings. */
  lemma DecimalStringInjective(a: nat, b: nat)
    requires DecimalString(a) == DecimalString(b)
    ensures a == b
  {
    assert DecimalValue(DecimalString(a)) == a;
  }
}
