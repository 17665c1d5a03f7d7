/**
JSON number literals, their bounds (internal/jsonutil/decode.go:174-186) and their
exact comparison (internal/scenario/assertions.go:149-164). The literal follows
section 6 of RFC 8259; its mathematical value is defined digit by digit, apart from
the numerator and denominator the program compares.
*/
module JsonNumber {
  import opened Common

  type Digit = d: int | 0 <= d < 10

  datatype Sign = NoSign | Plus | Minus

  /** `minus` int [ "." frac ] [ e exp ], with `frac` empty when there is no dot. */
  datatype Number = Number(minus: bool, whole: seq<Digit>, frac: seq<Digit>, exp: Option<Exponent>)

  datatype Exponent = Exponent(sign: Sign, digits: seq<Digit>)

  function Length(n: Number): nat {
    (if n.minus then 1 else 0) + |n.whole| + (if n.frac == [] then 0 else 1 + |n.frac|)
    + (if n.exp.None? then 0 else 1 + (if n.exp.value.sign == NoSign then 0 else 1) + |n.exp.value.digits|)
  }

  /** Digits read as a decimal integer, most significant first. */
  function Decimal(ds: seq<Digit>): nat {
    if ds == [] then 0 else 10 * Decimal(ds[..|ds| - 1]) + ds[|ds| - 1]
  }

  function ExponentOf(n: Number): int {
    match n.exp
    case None => 0
    case Some(e) => if e.sign == Minus then -(Decimal(e.digits) as int) else Decimal(e.digits)
  }

  /** jsonutil.ValidateNumber */
  predicate Bounded(n: Number) {
    Length(n) <= 256 && -1024 <= ExponentOf(n) <= 1024
  }

  // ---- Mathematical value ------------------------------------------------------

  /** x times ten to the e. */
  function Shift(x: real, e: int): real
    decreases if e < 0 then -e else e
  {
    if e == 0 then x else if e > 0 then Shift(10.0 * x, e - 1) else Shift(x / 10.0, e + 1)
  }

  /** Digit i of the whole part weighs 10^(|whole|-1-i). */
  function WholeValue(ds: seq<Digit>): real {
    if ds == [] then 0.0 else Shift(ds[0] as real, |ds| - 1) + WholeValue(ds[1..])
  }

  /** Digit i of the fraction weighs 10^-(i+1). */
  function FracValue(ds: seq<Digit>): real {
    if ds == [] then 0.0 else ((ds[0] as real) + FracValue(ds[1..])) / 10.0
  }

  function Value(n: Number): real {
    var magnitude := Shift(WholeValue(n.whole) + FracValue(n.frac), ExponentOf(n));
    if n.minus then -magnitude else magnitude
  }

  // ---- What the program compares -------------------------------------------------

  /** A rational whose denominator is 10^places. */
  datatype Rat = Rat(num: int, places: nat) {
    function Den(): int {
      Pow10(places)
    }
  }

  function Pow10(k: nat): (r: int)
    ensures r > 0
  {
    if k == 0 then 1 else 10 * Pow10(k - 1)
  }

  /** big.Rat.SetString: all digits as one integer, scaled by a power of ten. */
  function RatOf(n: Number): Rat {
    var e := ExponentOf(n) - |n.frac|;
    var m := Decimal(n.whole + n.frac) as int;
    var num := if e >= 0 then m * Pow10(e) else m;
    Rat(if n.minus then -num else num, if e >= 0 then 0 else -e)
  }

  /** big.Rat.Cmp: cross multiplication. */
  function Cmp(a: Rat, b: Rat): int {
    var x := a.num * b.Den();
    var y := b.num * a.Den();
    if x < y then -1 else if x == y then 0 else 1
  }

  /** compareNumbers: None is the error of ValidateNumber. */
  function CompareNumbers(a: Number, b: Number): Option<int> {
    if !Bounded(a) || !Bounded(b) then None else Some(Cmp(RatOf(a), RatOf(b)))
  }

  // ---- Exactness -------------------------------------------------------------------

  lemma {:induction false} ShiftOnce(x: real, e: int)
    ensures Shift(10.0 * x, e) == 10.0 * Shift(x, e) == Shift(x, e + 1)
    decreases if e < 0 then -e else e
  {
    if e > 0 {
      ShiftOnce(10.0 * x, e - 1);
    } else if e < 0 {
      ShiftOnce(x / 10.0, e + 1);
      assert 10.0 * (x / 10.0) == x;
    }
  }

  lemma {:induction false} ShiftSum(x: real, i: int, j: int)
    ensures Shift(Shift(x, i), j) == Shift(x, i + j)
    decreases if i < 0 then -i else i
  {
    if i > 0 {
      ShiftSum(10.0 * x, i - 1, j);
      ShiftOnce(x, i + j - 1);
    } else if i < 0 {
      ShiftSum(x / 10.0, i + 1, j);
      ShiftOnce(x / 10.0, i + j);
      assert 10.0 * (x / 10.0) == x;
    }
  }

  lemma {:induction false} ShiftAdds(x: real, y: real, e: int)
    ensures Shift(x + y, e) == Shift(x, e) + Shift(y, e)
    ensures Shift(-x, e) == -Shift(x, e)
    decreases if e < 0 then -e else e
  {
    if e > 0 {
      ShiftAdds(10.0 * x, 10.0 * y, e - 1);
    } else if e < 0 {
      ShiftAdds(x / 10.0, y / 10.0, e + 1);
    }
  }

  lemma {:induction false} ShiftKeepsOrder(x: real, y: real, e: int)
    ensures x < y <==> Shift(x, e) < Shift(y, e)
    decreases if e < 0 then -e else e
  {
    if e > 0 {
      ShiftKeepsOrder(10.0 * x, 10.0 * y, e - 1);
    } else if e < 0 {
      ShiftKeepsOrder(x / 10.0, y / 10.0, e + 1);
    }
  }

  /** Multiplying by the integer 10^k is shifting by k. */
  lemma {:induction false} TimesPow10(m: int, k: nat)
    ensures (m * Pow10(k)) as real == Shift(m as real, k)
    decreases k
  {
    if k > 0 {
      TimesPow10(10 * m, k - 1);
      assert m * Pow10(k) == (10 * m) * Pow10(k - 1);
    }
  }

  lemma {:induction false} WholeSnoc(ds: seq<Digit>, d: Digit)
    ensures WholeValue(ds + [d]) == 10.0 * WholeValue(ds) + d as real
  {
    if ds != [] {
      assert (ds + [d])[1..] == ds[1..] + [d];
      WholeSnoc(ds[1..], d);
      ShiftOnce(ds[0] as real, |ds| - 1);
    }
  }

  lemma {:induction false} DecimalAsReal(ds: seq<Digit>)
    ensures Decimal(ds) as real == WholeValue(ds)
  {
    if |ds| > 0 {
      DecimalAsReal(ds[..|ds| - 1]);
      WholeSnoc(ds[..|ds| - 1], ds[|ds| - 1]);
      assert ds[..|ds| - 1] + [ds[|ds| - 1]] == ds;
    }
  }

  /** Reading the fraction as further whole digits shifts the value by its length. */
  lemma {:induction false} WholeAndFrac(whole: seq<Digit>, frac: seq<Digit>)
    ensures WholeValue(whole + frac) == Shift(WholeValue(whole) + FracValue(frac), |frac|)
    decreases |frac|
  {
    if frac == [] {
      assert whole + frac == whole;
    } else {
      WholeAndFrac(whole + [frac[0]], frac[1..]);
      assert (whole + [frac[0]]) + frac[1..] == whole + frac;
      WholeSnoc(whole, frac[0]);
      assert WholeValue(whole + [frac[0]]) + FracValue(frac[1..]) == 10.0 * (WholeValue(whole) + FracValue(frac));
    }
  }

  /** An integer that is v shifted by k gives v shifted by any e, as a product or a quotient. */
  lemma Rescale(m: int, v: real, k: nat, e: int)
    requires m as real == Shift(v, k)
    ensures Shift(v, e) == if e >= k then (m * Pow10(e - k)) as real else Shift(m as real, e - k)
  {
    ShiftSum(v, k, e - k);
    if e >= k { TimesPow10(m, e - k); }
  }

  /** The rational the program builds is the literal's mathematical value. */
  lemma RatIsExact(n: Number)
    ensures Value(n) == Shift(RatOf(n).num as real, 0 - RatOf(n).places)
  {
    var k, e, m := |n.frac|, ExponentOf(n), Decimal(n.whole + n.frac);
    DecimalAsReal(n.whole + n.frac);
    WholeAndFrac(n.whole, n.frac);
    Rescale(m, WholeValue(n.whole) + FracValue(n.frac), k, e);
    ShiftAdds(m as real, 0.0, e - k);
  }

  /** compareNumbers orders any two bounded literals as the real numbers they denote. */
  lemma CompareIsExact(a: Number, b: Number)
    requires Bounded(a) && Bounded(b)
    ensures var c := CompareNumbers(a, b);
            && c.Some?
            && (c.value < 0 <==> Value(a) < Value(b))
            && (c.value == 0 <==> Value(a) == Value(b))
            && (c.value > 0 <==> Value(a) > Value(b))
  {
    var p, q := RatOf(a), RatOf(b);
    RatIsExact(a);
    RatIsExact(b);
    TimesPow10(p.num, q.places);
    TimesPow10(q.num, p.places);
    ShiftSum(p.num as real, 0 - p.places, p.places + q.places);
    ShiftSum(q.num as real, 0 - q.places, p.places + q.places);
    ShiftKeepsOrder(Value(a), Value(b), p.places + q.places);
    ShiftKeepsOrder(Value(b), Value(a), p.places + q.places);
  }

  /** Exactly one of lt, eq and gt holds of two bounded numbers, and each is transitive. */
  lemma OrderingLaws(a: Number, b: Number, c: Number)
    requires Bounded(a) && Bounded(b) && Bounded(c)
    ensures CompareNumbers(a, b).value == -CompareNumbers(b, a).value
    ensures CompareNumbers(a, b).value in {-1, 0, 1}
    ensures CompareNumbers(a, b).value <= 0 && CompareNumbers(b, c).value <= 0 ==> CompareNumbers(a, c).value <= 0
    ensures CompareNumbers(a, b).value < 0 && CompareNumbers(b, c).value <= 0 ==> CompareNumbers(a, c).value < 0
    ensures CompareNumbers(a, b).value == 0 && CompareNumbers(b, c).value == 0 ==> CompareNumbers(a, c).value == 0
  {
    CompareIsExact(a, b);
    CompareIsExact(b, a);
    CompareIsExact(b, c);
    CompareIsExact(a, c);
  }
}
