/**
 * Values as the React handlers of USDT-Flow see them: the text of a numeric
 * input field, the result of `parseFloat`, and the decimal rounding that
 * `Number.prototype.toFixed` performs. Amounts are exact rationals (`real`);
 * binary floating point is not modelled.
 */
module FormValues {

  datatype Option<T> = None | Some(value: T)

  /** The contents of an `<input type="number">`: empty, or a decimal number. */
  datatype Text = Blank | Dec(value: real)

  /** A JavaScript number as far as these handlers need it: NaN or a finite value. */
  datatype JsNumber = NaN | Num(value: real)

  /** `parseFloat(text)`: the empty field parses to NaN. */
  function ParseFloat(t: Text): (n: JsNumber)
    ensures n.Num? <==> t.Dec?
    ensures t.Dec? ==> n.value == t.value
  {
    match t
    case Blank => NaN
    case Dec(v) => Num(v)
  }

  /** `n || 0`: NaN and 0 are falsy, so both give 0. */
  function OrZero(n: JsNumber): (r: real)
    ensures n.Num? ==> r == n.value
    ensures n.NaN? ==> r == 0.0
  {
    match n
    case NaN => 0.0
    case Num(v) => v
  }

  /** `a > b` where `a` may be NaN: every comparison with NaN is false. */
  predicate Exceeds(a: JsNumber, b: real) {
    a.Num? && a.value > b
  }

  /** `a + b` and `a - b` on a possibly-NaN left operand. */
  function AddTo(a: JsNumber, b: real): (r: JsNumber)
    ensures r.Num? <==> a.Num?
    ensures a.Num? ==> r.value == a.value + b
  {
    match a
    case NaN => NaN
    case Num(v) => Num(v + b)
  }

  function Abs(x: real): real { if x < 0.0 then -x else x }

  function Max(a: real, b: real): real { if a < b then b else a }

  function Min(a: real, b: real): real { if a < b then a else b }

  // ---------------------------------------------------------------------
  // Rounding: `x.toFixed(2)` and `x.toFixed(6)` read back with parseFloat.
  // toFixed rounds the magnitude half-up and restores the sign.
  // ---------------------------------------------------------------------

  /** Half-up rounding of a non-negative value to a whole number of hundredths. */
  function HalfUpCents(x: real): (r: real)
    requires x >= 0.0
    ensures r >= 0.0
    ensures x - 0.005 < r <= x + 0.005
    ensures IsCents(r)
  {
    var k := (x * 100.0 + 0.5).Floor;
    assert (k as real / 100.0) * 100.0 == k as real;
    (k as real) / 100.0
  }

  /** Half-up rounding of a non-negative value to a whole number of millionths. */
  function HalfUpMicros(x: real): (r: real)
    requires x >= 0.0
    ensures r >= 0.0
    ensures x - 0.0000005 < r <= x + 0.0000005
    ensures IsMicros(r)
  {
    var k := (x * 1000000.0 + 0.5).Floor;
    assert (k as real / 1000000.0) * 1000000.0 == k as real;
    (k as real) / 1000000.0
  }

  /** `parseFloat(x.toFixed(2))`. */
  function ToFixed2(x: real): (r: real)
    ensures Abs(r - x) <= 0.005
    ensures x >= 0.0 ==> r >= 0.0
  {
    if x < 0.0 then -HalfUpCents(-x) else HalfUpCents(x)
  }

  /** `parseFloat(x.toFixed(6))`. */
  function ToFixed6(x: real): (r: real)
    ensures Abs(r - x) <= 0.0000005
  {
    if x < 0.0 then -HalfUpMicros(-x) else HalfUpMicros(x)
  }

  /** A value with a whole number of hundredths. */
  predicate IsCents(x: real) {
    (x * 100.0).Floor as real == x * 100.0
  }

  /** A value with a whole number of millionths. */
  predicate IsMicros(x: real) {
    (x * 1000000.0).Floor as real == x * 1000000.0
  }

  /** Every result of ToFixed6 has a whole number of millionths. */
  lemma ToFixed6IsMicros(x: real)
    ensures IsMicros(ToFixed6(x))
  {
    var m := if x < 0.0 then -x else x;
    var k := (m * 1000000.0 + 0.5).Floor;
    assert HalfUpMicros(m) == k as real / 1000000.0;
    var n := if x < 0.0 then -k else k;
    assert ToFixed6(x) * 1000000.0 == n as real;
    assert (n as real).Floor == n;
  }

  /** Rounding to hundredths leaves a value that already has two decimals unchanged. */
  lemma ToFixed2OfCents(x: real)
    requires IsCents(x)
    ensures ToFixed2(x) == x
  {
    var n := (x * 100.0).Floor;
    if x < 0.0 {
      assert (-x * 100.0 + 0.5).Floor == -n;
    } else {
      assert (x * 100.0 + 0.5).Floor == n;
    }
  }

  /** Every result of ToFixed2 has a whole number of hundredths. */
  lemma ToFixed2IsCents(x: real)
    ensures IsCents(ToFixed2(x))
  {
    var m := if x < 0.0 then -x else x;
    var k := (m * 100.0 + 0.5).Floor;
    assert HalfUpCents(m) == k as real / 100.0;
    var n := if x < 0.0 then -k else k;
    assert ToFixed2(x) * 100.0 == n as real;
    assert (n as real).Floor == n;
  }

  /** The sum of two values with two decimals rounds to itself. */
  lemma ToFixed2OfCentsSum(a: real, b: real)
    requires IsCents(a) && IsCents(b)
    ensures ToFixed2(a + b) == a + b
  {
    var i, j := (a * 100.0).Floor, (b * 100.0).Floor;
    assert (a + b) * 100.0 == (i + j) as real;
    ToFixed2OfCents(a + b);
  }

  /** ToFixed2 is monotone, including across zero. */
  lemma ToFixed2Monotone(x: real, y: real)
    requires x <= y
    ensures ToFixed2(x) <= ToFixed2(y)
  {
    if 0.0 <= x {
      assert (x * 100.0 + 0.5).Floor <= (y * 100.0 + 0.5).Floor;
    } else if y < 0.0 {
      assert (-y * 100.0 + 0.5).Floor <= (-x * 100.0 + 0.5).Floor;
    }
  }
}
