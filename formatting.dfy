/**
 The display format of a resistance: the whole number of ohms, narrowed to a
 32-bit `Int` the way `Double.toInt()` narrows it, written in decimal with a
 `,` between every group of three digits counted from the right, followed by
 the suffix " Ω" (the `DecimalFormat("#,###")` pattern with a fixed `,`).
 A reading function `ParseDisplay` undoes the format and is its partner.
 */
module Formatting {

  datatype Option<T> = None | Some(value: T)

  /** The largest 32-bit `Int`, where `Double.toInt()` saturates. */
  const IntMax: nat := 2147483647

  /** The text appended after the number. */
  const OhmSuffix: string := " Ω"

  /**
   `Double.toInt()` on a non-negative whole value: the value itself when it
   fits in an `Int`, and `Int.MAX_VALUE` otherwise.
   */
  function ToInt(v: nat): (r: nat)
    ensures r <= IntMax && r <= v
    ensures v <= IntMax <==> r == v
    ensures v > IntMax ==> r == IntMax
  {
    if v <= IntMax then v else IntMax
  }

  predicate IsDigit(ch: char) {
    '0' <= ch <= '9'
  }

  predicate AllDigits(s: string) {
    forall i :: 0 <= i < |s| ==> IsDigit(s[i])
  }

  /** The character that writes the decimal digit `d`. */
  function DigitChar(d: nat): (ch: char)
    requires d <= 9
    ensures IsDigit(ch) && CharValue(ch) == d
  {
    (d + '0' as int) as char
  }

  /** The decimal digit a digit character stands for. */
  function CharValue(ch: char): (d: nat)
    requires IsDigit(ch)
    ensures d <= 9
  {
    (ch as int) - ('0' as int)
  }

  /** The plain decimal numeral of `n`: at least one digit, and digits only. */
  function DecimalDigits(n: nat): (ds: string)
    ensures |ds| >= 1 && AllDigits(ds)
  {
    if n < 10 then [DigitChar(n)]
    else DecimalDigits(n / 10) + [DigitChar(n % 10)]
  }

  /**
   The numeral is canonical: it has no leading zero except for the numeral of
   0 itself, and it is a single digit exactly for values below ten.
   */
  lemma {:induction false} DecimalDigitsCanonical(n: nat)
    ensures DecimalDigits(n)[0] == '0' <==> n == 0
    ensures |DecimalDigits(n)| == 1 <==> n < 10
  {
    if n >= 10 {
      DecimalDigitsCanonical(n / 10);
    }
  }

  /** The number a string of decimal digits denotes (its reference reading). */
  function DigitsValue(ds: string): nat
    requires AllDigits(ds)
  {
    if ds == [] then 0
    else DigitsValue(ds[..|ds| - 1]) * 10 + CharValue(ds[|ds| - 1])
  }

  /** Reading back the numeral of `n` gives `n`. */
  lemma {:induction false} DecimalDigitsRoundTrip(n: nat)
    ensures DigitsValue(DecimalDigits(n)) == n
  {
    var ds := DecimalDigits(n);
    if n >= 10 {
      DecimalDigitsRoundTrip(n / 10);
      assert ds[..|ds| - 1] == DecimalDigits(n / 10);
    } else {
      assert ds[..|ds| - 1] == [];
    }
  }

  /** Digits with no comma between them. */
  predicate NoCommas(s: string) {
    forall i :: 0 <= i < |s| ==> s[i] != ','
  }

  /**
   The `#,###` grouping: a `,` before each run of three digits counted from
   the right, so the leftmost group holds one to three digits.
   */
  function Group(ds: string): (g: string)
    ensures |ds| <= 3 ==> g == ds
  {
    if |ds| <= 3 then ds
    else Group(ds[..|ds| - 3]) + [','] + ds[|ds| - 3..]
  }

  /** Grouping adds one separator per full group of three after the first digit. */
  lemma {:induction false} GroupLength(ds: string)
    requires |ds| >= 1
    ensures |Group(ds)| == |ds| + (|ds| - 1) / 3
  {
    if |ds| > 3 {
      GroupLength(ds[..|ds| - 3]);
    }
  }

  /** Deletes every `,` from `s`. */
  function StripCommas(s: string): (r: string)
    ensures NoCommas(r) && |r| <= |s|
  {
    if s == [] then []
    else if s[|s| - 1] == ',' then StripCommas(s[..|s| - 1])
    else StripCommas(s[..|s| - 1]) + [s[|s| - 1]]
  }

  lemma {:induction false} StripCommasAppend(a: string, b: string)
    ensures StripCommas(a + b) == StripCommas(a) + StripCommas(b)
    decreases |b|
  {
    if b == [] {
      assert a + b == a;
    } else {
      assert (a + b)[..|a + b| - 1] == a + b[..|b| - 1];
      StripCommasAppend(a, b[..|b| - 1]);
    }
  }

  lemma {:induction false} StripCommasNoCommas(s: string)
    requires NoCommas(s)
    ensures StripCommas(s) == s
  {
    if s != [] {
      StripCommasNoCommas(s[..|s| - 1]);
    }
  }

  /** Deleting the separators from a grouped numeral gives back its digits. */
  lemma {:induction false} GroupRoundTrip(ds: string)
    requires NoCommas(ds)
    ensures StripCommas(Group(ds)) == ds
  {
    if |ds| <= 3 {
      StripCommasNoCommas(ds);
    } else {
      var head, tail := ds[..|ds| - 3], ds[|ds| - 3..];
      GroupRoundTrip(head);
      StripCommasAppend(Group(head) + [','], tail);
      StripCommasAppend(Group(head), [',']);
      StripCommasNoCommas(tail);
      assert StripCommas([',']) == [];
      assert head + tail == ds;
    }
  }

  /** A `,` stands exactly at the places 3, 7, 11, ... counted from the right end. */
  predicate SeparatorsEveryFourth(g: string) {
    forall i :: 0 <= i < |g| ==> (g[i] == ',' <==> (|g| - 1 - i) % 4 == 3)
  }

  /**
   The separators of a grouped numeral stand exactly at every fourth place
   counted from the right end (places 3, 7, 11, ... from the last character),
   so every group after the first has three digits.
   */
  lemma {:induction false} GroupShape(ds: string)
    requires NoCommas(ds)
    ensures SeparatorsEveryFourth(Group(ds))
  {
    var g := Group(ds);
    if |ds| > 3 {
      var head, tail := ds[..|ds| - 3], ds[|ds| - 3..];
      GroupShape(head);
      var gh := Group(head);
      assert g == gh + [','] + tail;
      forall i | 0 <= i < |g|
        ensures g[i] == ',' <==> (|g| - 1 - i) % 4 == 3
      {
        GroupShapeAt(gh, tail, i);
      }
    }
  }

  /** One place of `gh + [','] + tail`, given the shape of `gh`. */
  lemma GroupShapeAt(gh: string, tail: string, i: nat)
    requires SeparatorsEveryFourth(gh)
    requires |tail| == 3 && NoCommas(tail)
    requires i < |gh| + 4
    ensures var g := gh + [','] + tail; g[i] == ',' <==> (|g| - 1 - i) % 4 == 3
  {
    var g := gh + [','] + tail;
    if i < |gh| {
      assert g[i] == gh[i];
      assert |g| - 1 - i == (|gh| - 1 - i) + 4;
    } else if i == |gh| {
      assert |g| - 1 - i == 3;
    } else {
      assert g[i] == tail[i - |gh| - 1];
    }
  }

  /** Grouping keeps the leading digit in front: a grouped numeral starts with its first digit. */
  lemma {:induction false} GroupKeepsLeadingDigit(ds: string)
    requires |ds| >= 1
    ensures |Group(ds)| >= 1 && Group(ds)[0] == ds[0]
  {
    if |ds| > 3 {
      GroupKeepsLeadingDigit(ds[..|ds| - 3]);
    }
  }

  /**
   `formatearResistencia` on a whole number of ohms: the integer branch, which
   narrows with `toInt()` and then groups the digits, followed by " Ω".
   */
  function Format(valor: nat): (s: string)
    ensures |s| >= 3 && s[|s| - 2..] == OhmSuffix
  {
    Group(DecimalDigits(ToInt(valor))) + OhmSuffix
  }

  /**
   The display is a grouped numeral followed by " Ω": it starts with a digit
   (never with a separator) and ends with the suffix.
   */
  lemma FormatShape(valor: nat)
    ensures |Format(valor)| >= 3 && Format(valor)[|Format(valor)| - 2..] == OhmSuffix
    ensures IsDigit(Format(valor)[0]) && Format(valor)[0] != ','
  {
    var ds := DecimalDigits(ToInt(valor));
    GroupKeepsLeadingDigit(ds);
    assert IsDigit(ds[0]);
  }

  /**
   Reads a displayed resistance: drops the " Ω" suffix and the separators and
   reads the remaining digits; `None` for text that is not of that form.
   */
  function ParseDisplay(s: string): Option<nat> {
    if |s| < 2 || s[|s| - 2..] != OhmSuffix then None
    else
      var digits := StripCommas(s[..|s| - 2]);
      if digits == [] || !AllDigits(digits) then None
      else Some(DigitsValue(digits))
  }

  /**
   Round trip: the display text reads back as the narrowed value, so for every
   value up to `Int.MAX_VALUE` it reads back as the value itself.
   */
  lemma FormatRoundTrip(valor: nat)
    ensures ParseDisplay(Format(valor)) == Some(ToInt(valor))
    ensures valor <= IntMax ==> ParseDisplay(Format(valor)) == Some(valor)
  {
    var ds := DecimalDigits(ToInt(valor));
    var s := Format(valor);
    assert s[..|s| - 2] == Group(ds);
    GroupRoundTrip(ds);
    DecimalDigitsRoundTrip(ToInt(valor));
  }

  /** Distinct values that fit in an `Int` are displayed differently. */
  lemma FormatInjective(a: nat, b: nat)
    requires a <= IntMax && b <= IntMax
    ensures Format(a) == Format(b) ==> a == b
  {
    FormatRoundTrip(a);
    FormatRoundTrip(b);
  }

  /** Every value above `Int.MAX_VALUE` is displayed as that maximum. */
  lemma FormatSaturates(valor: nat)
    requires valor > IntMax
    ensures Format(valor) == Format(IntMax)
    ensures ParseDisplay(Format(valor)) == Some(IntMax)
  {
    FormatRoundTrip(valor);
  }

  /** Zero is displayed as a single digit. */
  lemma FormatZero()
    ensures Format(0) == "0 Ω"
  {
  }

  /** A four-digit value gets one separator. */
  lemma FormatFourDigits()
    ensures Format(4700) == "4,700 Ω"
  {
    assert DecimalDigits(4700) == "4700" by {
      assert DecimalDigits(47) == "47";
      assert DecimalDigits(470) == "470";
    }
  }

  /** A five-digit value keeps two digits in its first group. */
  lemma FormatFiveDigits()
    ensures Format(10000) == "10,000 Ω"
  {
    assert DecimalDigits(10000) == "10000" by {
      assert DecimalDigits(10) == "10";
      assert DecimalDigits(100) == "100";
      assert DecimalDigits(1000) == "1000";
    }
  }

  /** The saturated display. */
  lemma FormatIntMax()
    ensures Format(IntMax) == "2,147,483,647 Ω"
  {
    IntMaxDigits();
    IntMaxGrouped();
  }

  lemma IntMaxDigits()
    ensures DecimalDigits(IntMax) == "2147483647"
  {
    IntMaxLeadingDigits();
    assert DecimalDigits(214748364) == "214748364" by {
      assert DecimalDigits(21474836) == "21474836";
    }
  }

  lemma IntMaxLeadingDigits()
    ensures DecimalDigits(2147483) == "2147483"
  {
    assert DecimalDigits(2147) == "2147" by {
      assert DecimalDigits(21) == "21";
      assert DecimalDigits(214) == "214";
    }
    assert DecimalDigits(21474) == "21474";
    assert DecimalDigits(214748) == "214748";
  }

  lemma IntMaxGrouped()
    ensures Group("2147483647") == "2,147,483,647"
  {
    var ds := "2147483647";
    assert ds[..7] == "2147483" && ds[7..] == "647";
    assert ds[..7][..4] == "2147" && ds[..7][4..] == "483";
    assert ds[..4][..1] == "2" && ds[..4][1..] == "147";
    assert Group("2147") == "2,147";
    assert Group("2147483") == "2,147,483";
  }

  /** One billion, the largest power of ten a band selects, fits and is shown in full. */
  lemma FormatBillion()
    ensures Format(1000000000) == "1,000,000,000 Ω"
  {
    BillionDigits();
    BillionGrouped();
  }

  lemma BillionDigits()
    ensures DecimalDigits(1000000000) == "1000000000"
  {
    MillionDigits();
    assert DecimalDigits(10000000) == "10000000";
    assert DecimalDigits(100000000) == "100000000";
  }

  lemma MillionDigits()
    ensures DecimalDigits(1000000) == "1000000"
  {
    assert DecimalDigits(1000) == "1000" by {
      assert DecimalDigits(10) == "10";
      assert DecimalDigits(100) == "100";
    }
    assert DecimalDigits(10000) == "10000";
    assert DecimalDigits(100000) == "100000";
  }

  lemma BillionGrouped()
    ensures Group("1000000000") == "1,000,000,000"
  {
    var ds := "1000000000";
    assert ds[..7] == "1000000" && ds[7..] == "000";
    assert ds[..7][..4] == "1000" && ds[..7][4..] == "000";
    var head := "1000";
    assert head[..1] == "1" && head[1..] == "000";
    assert Group("1000") == "1,000";
    assert Group("1000000") == "1,000,000";
  }
}
