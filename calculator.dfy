/**
 The resistance of a four-band resistor from its first three bands: the first
 two band digits form a two-digit significand by place value, and the third
 band's digit is the power of ten it is multiplied by. The fourth (tolerance)
 band does not enter the value. Every value is a whole number of ohms, so the
 `Double` arithmetic of `calcularResistencia` is computed here exactly on `nat`.
 */
module Calculator {
  import opened ColorTable
  import opened Formatting

  /**
   The significand `indexOf(banda1) * 10 + indexOf(banda2)`: band 1 is its tens
   digit and band 2 its units digit, so it lies in 0..99.
   */
  function Significand(banda1: BandColor, banda2: BandColor): (s: nat)
    ensures s <= 99
    ensures s / 10 == DigitValue(banda1) && s % 10 == DigitValue(banda2)
  {
    DigitValue(banda1) * 10 + DigitValue(banda2)
  }

  /** Two band pairs give the same significand only if they are the same pair. */
  lemma SignificandInjective(a1: BandColor, a2: BandColor, b1: BandColor, b2: BandColor)
    requires Significand(a1, a2) == Significand(b1, b2)
    ensures a1 == b1 && a2 == b2
  {
    DigitValueInjective(a1, b1);
    DigitValueInjective(a2, b2);
  }

  /** Every two-digit significand 0..99 is given by exactly the pair of its digits' colours. */
  lemma SignificandOnto(n: nat)
    requires n <= 99
    ensures Significand(ColorOfDigit(n / 10), ColorOfDigit(n % 10)) == n
  {
    ColorOfDigitRoundTrip(n / 10);
    ColorOfDigitRoundTrip(n % 10);
  }

  /** `10.0.pow(e)` for a whole exponent. */
  function Pow10(e: nat): (p: nat)
    ensures p >= 1
  {
    if e == 0 then 1 else 10 * Pow10(e - 1)
  }

  /** The powers of ten a multiplier band can select. */
  lemma {:induction false} Pow10UpToNine(e: nat)
    requires e <= 9
    ensures Pow10(e) == [1, 10, 100, 1000, 10000, 100000, 1000000, 10000000,
                         100000000, 1000000000][e]
  {
    if e > 0 {
      Pow10UpToNine(e - 1);
    }
  }

  /**
   `calcularResistencia`'s value: the significand times ten to the multiplier
   band's digit, a whole number of ohms.
   */
  function Resistance(banda1: BandColor, banda2: BandColor, multiplicador: BandColor): nat {
    Scale(Significand(banda1, banda2), DigitValue(multiplicador))
  }

  /** The resistance is exactly the significand times 10^multiplier digit, at most 99 * 10^9. */
  lemma ResistanceBound(banda1: BandColor, banda2: BandColor, multiplicador: BandColor)
    ensures Resistance(banda1, banda2, multiplicador)
         == Significand(banda1, banda2) * Pow10(DigitValue(multiplicador))
    ensures Resistance(banda1, banda2, multiplicador) <= 99000000000
  {
    var s, e := Significand(banda1, banda2), DigitValue(multiplicador);
    ScaleIsProduct(s, e);
    Pow10AtMostBillion(e);
    MulAtMost(s, 99, Pow10(e), 1000000000);
  }

  /** `s * 10^e`, one factor of ten at a time. */
  function Scale(s: nat, e: nat): nat {
    if e == 0 then s else 10 * Scale(s, e - 1)
  }

  lemma {:induction false} ScaleIsProduct(s: nat, e: nat)
    ensures Scale(s, e) == s * Pow10(e)
  {
    if e > 0 {
      ScaleIsProduct(s, e - 1);
      MulTimesTen(s, Pow10(e - 1));
    }
  }

  /**
   Dividing the resistance by the multiplier's power of ten leaves the
   significand and no remainder: the multiplier band scales, the digit bands
   give the value.
   */
  lemma ResistanceFactors(banda1: BandColor, banda2: BandColor, multiplicador: BandColor)
    ensures Resistance(banda1, banda2, multiplicador) % Pow10(DigitValue(multiplicador)) == 0
    ensures Resistance(banda1, banda2, multiplicador) / Pow10(DigitValue(multiplicador))
         == Significand(banda1, banda2)
  {
    var s, e := Significand(banda1, banda2), DigitValue(multiplicador);
    ScaleIsProduct(s, e);
    MultipleOfPow10(s, e);
  }

  lemma Pow10AtMostBillion(e: nat)
    requires e <= 9
    ensures Pow10(e) <= 1000000000
  {
    Pow10UpToNine(e);
  }

  lemma MulAtMost(a: nat, b: nat, x: nat, y: nat)
    requires a <= b && x <= y
    ensures a * x <= b * y
  {
  }

  /** Multiplying by a power of ten up to 10^9 can be undone by dividing. */
  lemma MultipleOfPow10(s: nat, e: nat)
    requires e <= 9
    ensures (s * Pow10(e)) % Pow10(e) == 0 && (s * Pow10(e)) / Pow10(e) == s
  {
    Pow10UpToNine(e);
    if e <= 4 {
      MultipleOfSmallPow10(s, Pow10(e));
    } else {
      MultipleOfLargePow10(s, Pow10(e));
    }
  }

  lemma MultipleOfSmallPow10(s: nat, p: nat)
    requires p in {1, 10, 100, 1000, 10000}
    ensures (s * p) % p == 0 && (s * p) / p == s
  {
  }

  lemma MultipleOfLargePow10(s: nat, p: nat)
    requires p in {100000, 1000000, 10000000, 100000000, 1000000000}
    ensures (s * p) % p == 0 && (s * p) / p == s
  {
  }

  /** The resistance is zero exactly when both digit bands are black. */
  lemma ResistanceZero(banda1: BandColor, banda2: BandColor, multiplicador: BandColor)
    ensures Resistance(banda1, banda2, multiplicador) == 0 <==> banda1 == Negro && banda2 == Negro
  {
    var s, e := Significand(banda1, banda2), DigitValue(multiplicador);
    assert s == 0 <==> banda1 == Negro && banda2 == Negro;
    ScaleZero(s, e);
  }

  /** Scaling by a power of ten keeps zero at zero and anything positive positive. */
  lemma {:induction false} ScaleZero(s: nat, e: nat)
    ensures Scale(s, e) == 0 <==> s == 0
  {
    if e > 0 {
      ScaleZero(s, e - 1);
    }
  }

  /** `n` zero digits. */
  function Zeros(n: nat): (z: string)
    ensures |z| == n && forall i :: 0 <= i < n ==> z[i] == '0'
  {
    seq(n, _ => '0')
  }

  lemma DecimalDigitsTimesTen(n: nat)
    requires n >= 1
    ensures DecimalDigits(10 * n) == DecimalDigits(n) + "0"
  {
  }

  /** Scaling a positive number by 10^e appends `e` zero digits to its numeral. */
  lemma {:induction false} DecimalDigitsOfScale(n: nat, e: nat)
    requires n >= 1
    ensures DecimalDigits(Scale(n, e)) == DecimalDigits(n) + Zeros(e)
  {
    if e > 0 {
      DecimalDigitsOfScale(n, e - 1);
      ScaleZero(n, e - 1);
      DecimalDigitsTimesTen(Scale(n, e - 1));
      assert Zeros(e) == Zeros(e - 1) + "0";
    } else {
      assert Zeros(0) == [];
    }
  }

  lemma MulTimesTen(n: nat, q: nat)
    ensures n * (10 * q) == 10 * (n * q)
  {
  }

  /**
   The colour code read as digits: unless both digit bands are black, the
   numeral of the resistance is the significand's numeral followed by as many
   zeros as the multiplier band's digit.
   */
  lemma ResistanceNumeral(banda1: BandColor, banda2: BandColor, multiplicador: BandColor)
    requires Significand(banda1, banda2) >= 1
    ensures DecimalDigits(Resistance(banda1, banda2, multiplicador))
         == DecimalDigits(Significand(banda1, banda2)) + Zeros(DigitValue(multiplicador))
  {
    DecimalDigitsOfScale(Significand(banda1, banda2), DigitValue(multiplicador));
  }

  /**
   The resistance exceeds `Int.MAX_VALUE` (and its display saturates) exactly
   for multiplier 10^8 with a significand of 22 or more, or multiplier 10^9
   with a significand of 3 or more; 1 and 2 times 10^9 still fit.
   */
  lemma ResistanceOverflowsExactly(banda1: BandColor, banda2: BandColor, multiplicador: BandColor)
    ensures Resistance(banda1, banda2, multiplicador) > IntMax <==>
      ((DigitValue(multiplicador) == 8 && Significand(banda1, banda2) >= 22) ||
       (DigitValue(multiplicador) == 9 && Significand(banda1, banda2) >= 3))
  {
    ScaleOverflowsExactly(Significand(banda1, banda2), DigitValue(multiplicador));
  }

  lemma ScaleOverflowsExactly(s: nat, e: nat)
    requires s <= 99 && e <= 9
    ensures Scale(s, e) > IntMax <==> (e == 8 && s >= 22) || (e == 9 && s >= 3)
  {
    ScaleIsProduct(s, e);
    var p := Pow10(e);
    Pow10UpToNine(e);
    if e <= 7 {
      Pow10AtMostTenMillion(e);
      MulAtMost(s, 99, p, 10000000);
    } else if e == 8 {
      assert s * p == s * 100000000;
    } else {
      assert s * p == s * 1000000000;
    }
  }

  lemma Pow10AtMostTenMillion(e: nat)
    requires e <= 7
    ensures Pow10(e) <= 10000000
  {
    Pow10UpToNine(e);
  }

  /** Yellow, violet, red: 47 times 10^2, displayed as "4,700 Ω". */
  lemma YellowVioletRed()
    ensures Significand(Amarillo, Violeta) == 47
    ensures Resistance(Amarillo, Violeta, Rojo) == 4700
    ensures Format(Resistance(Amarillo, Violeta, Rojo)) == "4,700 Ω"
  {
    FormatFourDigits();
  }

  /** Brown, black, orange: 10 times 10^3, displayed as "10,000 Ω". */
  lemma BrownBlackOrange()
    ensures Resistance(Marron, Negro, Naranja) == 10000
    ensures Format(Resistance(Marron, Negro, Naranja)) == "10,000 Ω"
  {
    assert Significand(Marron, Negro) == 10;
    Pow10UpToNine(3);
    assert Scale(10, 3) == 10000;
    FormatFiveDigits();
  }

  /** Three black bands: 0 ohms, displayed as "0 Ω". */
  lemma AllBlack()
    ensures Resistance(Negro, Negro, Negro) == 0
    ensures Format(Resistance(Negro, Negro, Negro)) == "0 Ω"
  {
    ResistanceZero(Negro, Negro, Negro);
    FormatZero();
  }

  /** Red, red, grey is 2.2 * 10^9 ohms but is displayed as "2,147,483,647 Ω". */
  lemma RedRedGray()
    ensures Resistance(Rojo, Rojo, Gris) == 2200000000
    ensures Format(Resistance(Rojo, Rojo, Gris)) == "2,147,483,647 Ω"
  {
    assert Significand(Rojo, Rojo) == 22;
    Pow10UpToNine(8);
    assert Scale(22, 8) == 2200000000;
    FormatSaturates(2200000000);
    FormatIntMax();
  }

  /** Black, brown, white is 10^9 ohms, which still fits in an `Int` and is displayed exactly. */
  lemma BlackBrownWhite()
    ensures Resistance(Negro, Marron, Blanco) == 1000000000
    ensures Format(Resistance(Negro, Marron, Blanco)) == "1,000,000,000 Ω"
  {
    assert Significand(Negro, Marron) == 1;
    Pow10UpToNine(9);
    assert Scale(1, 9) == 1000000000;
    FormatBillion();
  }
}
