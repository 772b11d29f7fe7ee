/** Decimal rendering of integers: Python's `str(n)` and the `,` format
    specifier (`f"{n:,}"`), which groups the digits in threes from the right
    with commas, plus the parser that undoes them. */
module Thousands {
  import opened Wrappers

  predicate IsDigit(c: char) { '0' <= c <= '9' }

  predicate AllDigits(s: string) { forall i :: 0 <= i < |s| ==> IsDigit(s[i]) }

  function DigitChar(d: nat): (c: char)
    requires d < 10
    ensures IsDigit(c)
  {
    (('0' as int) + d) as char
  }

  function DigitValue(c: char): (d: nat)
    requires IsDigit(c)
    ensures d < 10
  {
    (c as int) - ('0' as int)
  }

  /** The plain decimal digits of `n`, most significant first (`str(n)` for n >= 0). */
  function NatToDecimal(n: nat): string
    decreases n
  {
    if n < 10 then [DigitChar(n)] else NatToDecimal(n / 10) + [DigitChar(n % 10)]
  }

  /** The number a string of decimal digits denotes. */
  function DecimalValue(s: string): nat
    requires AllDigits(s)
    decreases |s|
  {
    if s == [] then 0 else 10 * DecimalValue(s[..|s| - 1]) + DigitValue(s[|s| - 1])
  }

  /** Python's `str(x)` for an int. */
  function IntToString(x: int): string
  {
    if x < 0 then "-" + NatToDecimal(-x) else NatToDecimal(x)
  }

  /** Inserts a comma before every complete group of three digits counted from the right. */
  function Group(ds: string): string
    decreases |ds|
  {
    if |ds| <= 3 then ds else Group(ds[..|ds| - 3]) + "," + ds[|ds| - 3..]
  }

  /** Python's `f"{x:,}"` for an int. */
  function FormatThousands(x: int): string
  {
    if x < 0 then "-" + Group(NatToDecimal(-x)) else Group(NatToDecimal(x))
  }

  function StripCommas(s: string): (r: string)
    ensures forall i :: 0 <= i < |r| ==> r[i] != ','
    decreases |s|
  {
    if s == [] then []
    else if s[0] == ',' then StripCommas(s[1..])
    else [s[0]] + StripCommas(s[1..])
  }

  /** The strict inverse of `IntToString`: an optional leading '-' followed by
      one or more digits; anything else (a '+', spaces, '_') is rejected. */
  function ParseInt(s: string): Option<int>
  {
    if |s| > 0 && s[0] == '-' then
      if |s| > 1 && AllDigits(s[1..]) then Some(0 - DecimalValue(s[1..]) as int) else None
    else if |s| > 0 && AllDigits(s) then Some(DecimalValue(s))
    else None
  }

  /** A comma-grouped digit string: the first group has one to three digits and
      every later group, each after one comma, has exactly three. Read from the
      right: a last group of three digits preceded by a comma and a grouped
      prefix, or a single first group. */
  predicate WellGrouped(s: string)
    decreases |s|
  {
    if |s| <= 3 then 1 <= |s| && AllDigits(s)
    else s[|s| - 4] == ',' && AllDigits(s[|s| - 3..]) && WellGrouped(s[..|s| - 4])
  }

  // ---------------------------------------------------------------------------
  // Lemmas

  /** `str(n)` is a non-empty digit string without leading zeros that denotes n. */
  lemma {:induction false} NatToDecimalCorrect(n: nat)
    ensures AllDigits(NatToDecimal(n)) && |NatToDecimal(n)| >= 1
    ensures NatToDecimal(n)[0] == '0' <==> n == 0
    ensures DecimalValue(NatToDecimal(n)) == n
    decreases n
  {
    var s := NatToDecimal(n);
    if n >= 10 {
      NatToDecimalCorrect(n / 10);
      var p := NatToDecimal(n / 10);
      assert s[..|s| - 1] == p;
      assert s[0] == p[0];
    }
  }

  lemma {:induction false} StripCommasAppend(a: string, b: string)
    ensures StripCommas(a + b) == StripCommas(a) + StripCommas(b)
    decreases |a|
  {
    if a == [] {
      assert a + b == b;
    } else {
      assert (a + b)[0] == a[0] && (a + b)[1..] == a[1..] + b;
      StripCommasAppend(a[1..], b);
      if a[0] != ',' {
        assert [a[0]] + (StripCommas(a[1..]) + StripCommas(b))
            == ([a[0]] + StripCommas(a[1..])) + StripCommas(b);
      }
    }
  }

  lemma {:induction false} StripCommasNoCommas(s: string)
    requires AllDigits(s)
    ensures StripCommas(s) == s
    decreases |s|
  {
    if s != [] {
      StripCommasNoCommas(s[1..]);
    }
  }

  /** Removing the separators from a grouped digit string gives the digits back. */
  lemma {:induction false} GroupStrips(ds: string)
    requires AllDigits(ds)
    ensures StripCommas(Group(ds)) == ds
    decreases |ds|
  {
    if |ds| <= 3 {
      StripCommasNoCommas(ds);
    } else {
      var p, q := ds[..|ds| - 3], ds[|ds| - 3..];
      GroupStrips(p);
      StripCommasAppend(Group(p) + ",", q);
      StripCommasAppend(Group(p), ",");
      StripCommasNoCommas(q);
      assert p + q == ds;
    }
  }

  /** Grouping a non-empty digit string gives a well-formed grouping. */
  lemma {:induction false} GroupWellGrouped(ds: string)
    requires AllDigits(ds) && |ds| >= 1
    ensures WellGrouped(Group(ds))
    decreases |ds|
  {
    if |ds| > 3 {
      var p, q := ds[..|ds| - 3], ds[|ds| - 3..];
      GroupWellGrouped(p);
      var r := Group(ds);
      assert r == Group(p) + "," + q;
      assert r[|r| - 4] == ',';
      assert r[|r| - 3..] == q;
      assert r[..|r| - 4] == Group(p);
    }
  }

  /** The grouping is unique: a well-grouped string is the grouping of its own
      digits, so Group(ds) is the only well-grouped spelling of ds. */
  lemma {:induction false} WellGroupedIsGroup(s: string)
    requires WellGrouped(s)
    ensures |StripCommas(s)| >= 1 && AllDigits(StripCommas(s))
    ensures s == Group(StripCommas(s))
    decreases |s|
  {
    if |s| <= 3 {
      StripCommasNoCommas(s);
    } else {
      var p, q := s[..|s| - 4], s[|s| - 3..];
      WellGroupedIsGroup(p);
      assert s == p + "," + q;
      StripCommasAppend(p + ",", q);
      StripCommasAppend(p, ",");
      StripCommasNoCommas(q);
      var ds := StripCommas(s);
      assert ds == StripCommas(p) + q;
      assert ds[..|ds| - 3] == StripCommas(p);
      assert ds[|ds| - 3..] == q;
    }
  }

  /** f"{x:,}" without its commas is str(x), every group is well formed, and
      parsing it back gives x. */
  lemma FormatThousandsCorrect(x: int)
    ensures StripCommas(FormatThousands(x)) == IntToString(x)
    ensures x >= 0 ==> WellGrouped(FormatThousands(x))
    ensures x < 0 ==> FormatThousands(x)[0] == '-' && WellGrouped(FormatThousands(x)[1..])
    ensures ParseInt(StripCommas(FormatThousands(x))) == Some(x)
  {
    var n: nat := if x < 0 then -x else x;
    var ds := NatToDecimal(n);
    NatToDecimalCorrect(n);
    GroupStrips(ds);
    GroupWellGrouped(ds);
    IntToStringRoundTrip(x);
    if x < 0 {
      var f := "-" + Group(ds);
      assert FormatThousands(x) == f;
      StripCommasAppend("-", Group(ds));
      assert StripCommas("-") == "-";
      assert f[1..] == Group(ds);
    } else {
      assert FormatThousands(x) == Group(ds);
    }
  }

  /** str(x) parses back to x. */
  lemma IntToStringRoundTrip(x: int)
    ensures ParseInt(IntToString(x)) == Some(x)
  {
    var n: nat := if x < 0 then -x else x;
    NatToDecimalCorrect(n);
    if x < 0 {
      assert ("-" + NatToDecimal(n))[1..] == NatToDecimal(n);
    }
  }

  /** f"{x:,}" uses only digits, commas and a leading minus sign. */
  lemma {:induction false} FormatThousandsCharset(x: int)
    ensures forall i :: 0 <= i < |FormatThousands(x)| ==>
      IsDigit(FormatThousands(x)[i]) || FormatThousands(x)[i] in ",-"
  {
    var n: nat := if x < 0 then -x else x;
    NatToDecimalCorrect(n);
    GroupCharset(NatToDecimal(n));
  }

  lemma {:induction false} GroupCharset(ds: string)
    requires AllDigits(ds)
    ensures forall i :: 0 <= i < |Group(ds)| ==> IsDigit(Group(ds)[i]) || Group(ds)[i] == ','
    decreases |ds|
  {
    if |ds| > 3 {
      GroupCharset(ds[..|ds| - 3]);
    }
  }

  /** An example: a balance of 15000 renders as "15,000". */
  lemma FifteenThousand()
    ensures FormatThousands(15000) == "15,000"
  {
  }

  /** A negative amount keeps its sign in front of the grouped digits. */
  lemma NegativeGrouped()
    ensures FormatThousands(-1500) == "-1,500"
  {
  }
}
