/**
 * formatDistance: a distance in metres as the client displays it, whole
 * metres below one kilometre and kilometres with one decimal from there on.
 */
module Format {
  import opened Common

  const METRES_PER_KM := 1000.0

  function Digit(n: nat): (c: char)
    requires n < 10
    ensures '0' <= c <= '9'
  {
    "0123456789"[n]
  }

  function DigitValue(c: char): (n: nat)
    requires '0' <= c <= '9'
    ensures n < 10 && Digit(n) == c
  {
    (c - '0') as nat
  }

  predicate IsDigits(s: string)
  {
    forall i :: 0 <= i < |s| ==> '0' <= s[i] <= '9'
  }

  /** The decimal numeral of a natural number, as JavaScript writes it: no leading zero. */
  function NatToString(n: nat): (s: string)
    ensures |s| >= 1 && IsDigits(s)
    ensures |s| > 1 ==> s[0] != '0'
  {
    if n < 10 then [Digit(n)] else NatToString(n / 10) + [Digit(n % 10)]
  }

  /** An integer's numeral, with a leading minus for negatives. */
  function IntToString(i: int): (s: string)
    ensures |s| >= 1
    ensures i >= 0 ==> s == NatToString(i)
    ensures i < 0 ==> s == "-" + NatToString(-i)
  {
    if i < 0 then "-" + NatToString(-i) else NatToString(i)
  }

  /** The value of a string of decimal digits. */
  function ParseNat(s: string): nat
    requires IsDigits(s)
  {
    if s == [] then 0 else ParseNat(s[..|s| - 1]) * 10 + DigitValue(s[|s| - 1])
  }

  /** Reading a numeral back gives the number it was written from. */
  lemma {:induction false} ParseNatToString(n: nat)
    ensures ParseNat(NatToString(n)) == n
  {
    var s := NatToString(n);
    if n < 10 {
      assert s[..|s| - 1] == [];
    } else {
      assert s[..|s| - 1] == NatToString(n / 10);
      ParseNatToString(n / 10);
    }
  }

  /** Distinct numbers get distinct numerals. */
  lemma NatToStringInjective(m: nat, n: nat)
    requires NatToString(m) == NatToString(n)
    ensures m == n
  {
    ParseNatToString(m);
    ParseNatToString(n);
  }

  /**
   * formatDistance. Below 1000 it is Math.round(distance) followed by "m";
   * from 1000 on it is distance / 1000 with toFixed(1), whose result is the
   * integer n nearest to distance / 100 (the larger one on a tie), written
   * with one decimal, followed by "km".
   */
  function FormatDistance(distance: real): (r: string)
    ensures |r| >= 2
    ensures distance < METRES_PER_KM <==> r[|r| - 2..] != "km"
    ensures r[|r| - 1] == 'm'
  {
    if distance < METRES_PER_KM then
      var s := IntToString(Round(distance));
      var digits := NatToString(if Round(distance) < 0 then -Round(distance) else Round(distance));
      assert s[|s| - 1] == digits[|digits| - 1];
      assert (s + "m")[|s| - 1..][0] == s[|s| - 1];
      s + "m"
    else
      var tenths := Round(distance / 100.0);
      NatToString(tenths / 10) + "." + [Digit(tenths % 10)] + "km"
  }

  /**
   * Below one kilometre a (non-negative) distance reads back as whole
   * metres, at most half a metre off.
   */
  lemma FormatMetres(distance: real)
    requires 0.0 <= distance < METRES_PER_KM
    ensures var r := FormatDistance(distance);
            var metres := r[..|r| - 1];
            && r[|r| - 1] == 'm'
            && IsDigits(metres)
            && distance - 0.5 < ParseNat(metres) as real <= distance + 0.5
  {
    var r := FormatDistance(distance);
    assert r[..|r| - 1] == NatToString(Round(distance));
    ParseNatToString(Round(distance));
  }

  /**
   * From one kilometre on, the text is digits, a point, one digit and "km",
   * and reads back as a number of tenths of a kilometre at most 50 metres
   * off the distance.
   */
  lemma FormatKilometres(distance: real)
    requires distance >= METRES_PER_KM
    ensures var r := FormatDistance(distance);
            var k := |r|;
            && k >= 5
            && r[k - 2..] == "km"
            && r[k - 4] == '.'
            && IsDigits(r[..k - 4]) && '0' <= r[k - 3] <= '9'
            && var tenths := ParseNat(r[..k - 4]) * 10 + DigitValue(r[k - 3]);
               distance - 50.0 < (tenths * 100) as real <= distance + 50.0
  {
    var r := FormatDistance(distance);
    var tenths := Round(distance / 100.0);
    assert tenths >= 10;
    var whole := NatToString(tenths / 10);
    assert r == whole + "." + [Digit(tenths % 10)] + "km";
    var k := |r|;
    assert r[..k - 4] == whole;
    ParseNatToString(tenths / 10);
  }

  /** Rounding comes after the choice of unit: just under a kilometre displays as 1000 metres. */
  lemma JustUnderOneKilometre()
    ensures FormatDistance(999.6) == "1000m"
  {
    assert Round(999.6) == 1000;
    assert NatToString(1000) == "1000";
  }

  /** Exactly one kilometre, and half a tenth above it rounding up. */
  lemma KilometreExamples()
    ensures FormatDistance(1000.0) == "1.0km"
    ensures FormatDistance(1250.0) == "1.3km"
  {
    assert Round(10.0) == 10;
    assert Round(12.5) == 13;
  }
}
