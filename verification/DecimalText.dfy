/**
Decimal texts without leading zeros: array indices in section 4 of RFC 6901
(internal/scenario/assertions.go:212-228) and request IDs
(internal/guestclient/client.go:108-110).
*/
module DecimalText {
  predicate IsDigit(c: char) {
    '0' <= c <= '9'
  }

  function DigitText(d: int): (c: char)
    requires 0 <= d < 10
    ensures IsDigit(c)
  {
    '0' + d as char
  }

  function DigitValue(c: char): int {
    c as int - '0' as int
  }

  function Text(i: nat): string {
    if i < 10 then [DigitText(i)] else Text(i / 10) + [DigitText(i % 10)]
  }

  /** strconv.ParseUint's value, before its range check. */
  function Value(t: string): int {
    if t == "" then 0 else 10 * Value(t[..|t| - 1]) + DigitValue(t[|t| - 1])
  }

  predicate AllDigits(t: string) {
    forall i :: 0 <= i < |t| ==> IsDigit(t[i])
  }

  predicate Canonical(t: string) {
    t != "" && (|t| > 1 ==> t[0] != '0') && AllDigits(t)
  }

  lemma {:induction false} TextIsCanonical(i: nat)
    ensures Canonical(Text(i)) && Value(Text(i)) == i
    ensures i > 0 ==> Text(i)[0] != '0'
  {
    if i >= 10 {
      TextIsCanonical(i / 10);
      var t := Text(i);
      assert t[..|t| - 1] == Text(i / 10);
    } else {
      assert Text(i)[..0] == "";
    }
  }

  lemma {:induction false} CanonicalIsText(t: string)
    requires Canonical(t)
    ensures Value(t) >= 0 && Text(Value(t)) == t
    ensures t[0] != '0' ==> Value(t) > 0
  {
    var init := t[..|t| - 1];
    assert t == init + [t[|t| - 1]];
    if |t| > 1 {
      CanonicalIsText(init);
      assert init[0] == t[0];
      assert Value(t) / 10 == Value(init) && Value(t) % 10 == DigitValue(t[|t| - 1]);
    } else {
      assert init == "";
    }
  }

  lemma TextsDiffer(i: nat, j: nat)
    ensures Text(i) == Text(j) ==> i == j
  {
    TextIsCanonical(i);
    TextIsCanonical(j);
  }
}
