/**
 * The customer-ID scheme of app.py:10: customer i is named `f'CUST_{i:05d}'`,
 * that is "CUST_" followed by the decimal digits of i, left-padded with '0'
 * to at least five characters (numbers past 99999 simply get more digits).
 */
module CustomerIds {
  import opened Wrappers
  import opened StringOrder

  function Pow10(w: nat): (p: nat)
    ensures p >= 1
  {
    if w == 0 then 1 else 10 * Pow10(w - 1)
  }

  function DigitChar(d: nat): char
    requires d < 10
  {
    (48 + d) as char
  }

  predicate IsDigit(ch: char)
  {
    '0' <= ch <= '9'
  }

  predicate AllDigits(s: string)
  {
    forall k :: 0 <= k < |s| ==> IsDigit(s[k])
  }

  /** Python's `f'{i:0{width}d}'` for a non-negative i. */
  function ZeroPadded(i: nat, width: nat): (s: string)
    ensures AllDigits(s)
    ensures |s| >= 1 && |s| >= width
    decreases i, width
  {
    if i < 10 && width <= 1 then [DigitChar(i)]
    else ZeroPadded(i / 10, if width == 0 then 0 else width - 1) + [DigitChar(i % 10)]
  }

  /** The number a string of decimal digits denotes (leading zeros allowed). */
  function DigitsValue(s: string): nat
    requires AllDigits(s)
  {
    if s == [] then 0
    else DigitsValue(s[..|s| - 1]) * 10 + (s[|s| - 1] as int - '0' as int)
  }

  function CustomerId(i: nat): string
  {
    "CUST_" + ZeroPadded(i, 5)
  }

  /** The inverse of CustomerId: the number an ID names, if it has the ID shape. */
  function IdNumber(id: string): Option<nat>
  {
    if |id| > 5 && id[..5] == "CUST_" && AllDigits(id[5..]) then Some(DigitsValue(id[5..]))
    else None
  }

  /** Zero padding does not change the number the digits denote. */
  lemma {:induction false} ZeroPaddedValue(i: nat, width: nat)
    ensures DigitsValue(ZeroPadded(i, width)) == i
    decreases i, width
  {
    var s := ZeroPadded(i, width);
    if i < 10 && width <= 1 {
      assert s[..|s| - 1] == [];
    } else {
      var w' := if width == 0 then 0 else width - 1;
      ZeroPaddedValue(i / 10, w');
      assert s[..|s| - 1] == ZeroPadded(i / 10, w');
    }
  }

  /** A number below 10^width is written with exactly width characters. */
  lemma {:induction false} ZeroPaddedLength(i: nat, width: nat)
    requires 1 <= width && i < Pow10(width)
    ensures |ZeroPadded(i, width)| == width
  {
    if width > 1 {
      assert i / 10 < Pow10(width - 1);
      ZeroPaddedLength(i / 10, width - 1);
    }
  }

  /** At a fixed width, the padded strings are in the same order as the numbers. */
  lemma {:induction false} ZeroPaddedOrder(i: nat, j: nat, width: nat)
    requires 1 <= width && i < j < Pow10(width)
    ensures StrLess(ZeroPadded(i, width), ZeroPadded(j, width))
  {
    if width > 1 {
      var w := width - 1;
      assert i / 10 < Pow10(w) && j / 10 < Pow10(w);
      ZeroPaddedLength(i / 10, w);
      ZeroPaddedLength(j / 10, w);
      var x, y := [DigitChar(i % 10)], [DigitChar(j % 10)];
      assert ZeroPadded(i, width) == ZeroPadded(i / 10, w) + x;
      assert ZeroPadded(j, width) == ZeroPadded(j / 10, w) + y;
      if i / 10 < j / 10 {
        ZeroPaddedOrder(i / 10, j / 10, w);
        StrLessExtend(ZeroPadded(i / 10, w), ZeroPadded(j / 10, w), x, y);
      } else {
        assert i % 10 < j % 10;
        StrLessCommonPrefix(ZeroPadded(i / 10, w), x, y);
      }
    }
  }

  lemma {:induction false} CustomerIdRoundTrip(i: nat)
    ensures IdNumber(CustomerId(i)) == Some(i)
  {
    var id := CustomerId(i);
    assert id[..5] == "CUST_";
    assert id[5..] == ZeroPadded(i, 5);
    ZeroPaddedValue(i, 5);
  }

  /** Different customers never share an ID, however many customers there are. */
  lemma CustomerIdInjective(i: nat, j: nat)
    requires CustomerId(i) == CustomerId(j)
    ensures i == j
  {
    CustomerIdRoundTrip(i);
    CustomerIdRoundTrip(j);
  }

  lemma CustomerIdLength(i: nat)
    requires i < 100000
    ensures |CustomerId(i)| == 10
  {
    assert Pow10(5) == 100000;
    ZeroPaddedLength(i, 5);
  }

  /** Below 100000 customers, string order of the IDs is numeric order. */
  lemma CustomerIdOrder(i: nat, j: nat)
    requires i < j < 100000
    ensures StrLess(CustomerId(i), CustomerId(j))
  {
    assert Pow10(5) == 100000;
    ZeroPaddedOrder(i, j, 5);
    StrLessCommonPrefix("CUST_", ZeroPadded(i, 5), ZeroPadded(j, 5));
  }

  /** From 100000 on the IDs outgrow the padding, and string order departs
      from numeric order: "CUST_100000" sorts before "CUST_99999". */
  lemma CustomerIdOrderPastPadding()
    ensures StrLess(CustomerId(100000), CustomerId(99999))
  {
    var big := ZeroPadded(100000, 5);
    var small := ZeroPadded(99999, 5);
    assert big[0] == '1' by {
      assert ZeroPadded(1, 0) == "1";
      assert ZeroPadded(10, 1) == ZeroPadded(1, 0) + "0";
      assert ZeroPadded(100, 2) == ZeroPadded(10, 1) + "0";
      assert ZeroPadded(1000, 3) == ZeroPadded(100, 2) + "0";
      assert ZeroPadded(10000, 4) == ZeroPadded(1000, 3) + "0";
      assert big == ZeroPadded(10000, 4) + "0";
    }
    assert small[0] == '9' by {
      assert ZeroPadded(9, 1) == "9";
      assert ZeroPadded(99, 2) == ZeroPadded(9, 1) + "9";
      assert ZeroPadded(999, 3) == ZeroPadded(99, 2) + "9";
      assert ZeroPadded(9999, 4) == ZeroPadded(999, 3) + "9";
      assert small == ZeroPadded(9999, 4) + "9";
    }
    StrLessCommonPrefix("CUST_", big, small);
  }
}
