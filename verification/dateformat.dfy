/**
  The 'YYYY-MM-DD' rendering of a day and the plain lexicographic order on
  strings that the fetcher sorts its points by.

  The main result is `FormatOrder`: for years 0 through 9999, comparing two
  rendered days as strings gives the same answer as comparing the days, so
  the rendering is injective and order-preserving.
 */
module DateFormat {
  import opened Calendar

  /** Plain lexicographic order on strings, character by character. */
  predicate StrLess(a: string, b: string) {
    if |a| == 0 then |b| > 0
    else if |b| == 0 then false
    else if a[0] != b[0] then a[0] < b[0]
    else StrLess(a[1..], b[1..])
  }

  function Pow10(k: nat): (p: nat)
    ensures p >= 1
  {
    if k == 0 then 1 else 10 * Pow10(k - 1)
  }

  function DigitChar(v: nat): (c: char)
    requires v < 10
    ensures '0' <= c <= '9'
  {
    (('0' as int) + v) as char
  }

  /**
    The decimal digits of `n`, left-padded with '0' to at least `width`
    characters (the padding dayjs applies to 'YYYY', 'MM' and 'DD').
   */
  function Decimal(n: nat, width: nat): (s: string)
    ensures |s| >= 1
    ensures forall i :: 0 <= i < |s| ==> '0' <= s[i] <= '9'
    decreases n, width
  {
    if n < 10 && width <= 1 then [DigitChar(n)]
    else Decimal(n / 10, if width == 0 then 0 else width - 1) + [DigitChar(n % 10)]
  }

  /** The 'YYYY-MM-DD' rendering of a date. */
  function Format(d: Date): string {
    Decimal(d.year, 4) + "-" + Decimal(d.month, 2) + "-" + Decimal(d.day, 2)
  }

  // ---------------------------------------------------------------------
  // Fixed-width decimals

  lemma {:induction false} DecimalLength(n: nat, width: nat)
    requires width >= 1 && n < Pow10(width)
    ensures |Decimal(n, width)| == width
    decreases width
  {
    if n < 10 && width <= 1 {
    } else {
      DecimalLength(n / 10, width - 1);
    }
  }

  lemma {:induction false} DecimalOrder(n: nat, m: nat, width: nat)
    requires width >= 1 && n < Pow10(width) && m < Pow10(width)
    ensures n < m <==> StrLess(Decimal(n, width), Decimal(m, width))
    ensures n == m <==> Decimal(n, width) == Decimal(m, width)
    decreases width
  {
    if width == 1 {
      assert Decimal(n, width) == [DigitChar(n)];
      assert Decimal(m, width) == [DigitChar(m)];
    } else {
      var hn, hm := Decimal(n / 10, width - 1), Decimal(m / 10, width - 1);
      var cn, cm := DigitChar(n % 10), DigitChar(m % 10);
      DecimalLength(n / 10, width - 1);
      DecimalLength(m / 10, width - 1);
      DecimalOrder(n / 10, m / 10, width - 1);
      assert Decimal(n, width) == hn + [cn];
      assert Decimal(m, width) == hm + [cm];
      StrLessAppend(hn, [cn], hm, [cm]);
      assert StrLess([cn], [cm]) <==> n % 10 < m % 10;
      assert n < m <==> n / 10 < m / 10 || (n / 10 == m / 10 && n % 10 < m % 10);
      if Decimal(n, width) == Decimal(m, width) {
        assert hn == Decimal(n, width)[..width - 1] == Decimal(m, width)[..width - 1] == hm;
        assert cn == Decimal(n, width)[width - 1] == Decimal(m, width)[width - 1] == cm;
      }
    }
  }

  // ---------------------------------------------------------------------
  // Lexicographic order

  lemma {:induction false} StrLessAppend(a: string, c: string, b: string, d: string)
    requires |a| == |b|
    ensures StrLess(a + c, b + d) <==> StrLess(a, b) || (a == b && StrLess(c, d))
    decreases |a|
  {
    if |a| > 0 {
      assert (a + c)[0] == a[0] && (b + d)[0] == b[0];
      assert (a + c)[1..] == a[1..] + c;
      assert (b + d)[1..] == b[1..] + d;
      StrLessAppend(a[1..], c, b[1..], d);
      if a[0] == b[0] && a[1..] == b[1..] {
        assert a == [a[0]] + a[1..] && b == [b[0]] + b[1..];
      }
    } else {
      assert a + c == c && b + d == d;
    }
  }

  lemma {:induction false} StrLessIrreflexive(a: string)
    ensures !StrLess(a, a)
    decreases |a|
  {
    if |a| > 0 {
      StrLessIrreflexive(a[1..]);
    }
  }

  lemma {:induction false} StrLessTransitive(a: string, b: string, c: string)
    requires StrLess(a, b) && StrLess(b, c)
    ensures StrLess(a, c)
    decreases |a|
  {
    if |a| > 0 && a[0] == b[0] && b[0] == c[0] {
      StrLessTransitive(a[1..], b[1..], c[1..]);
    }
  }

  lemma {:induction false} StrLessTotal(a: string, b: string)
    ensures a == b || StrLess(a, b) || StrLess(b, a)
    decreases |a|
  {
    if |a| > 0 && |b| > 0 && a[0] == b[0] {
      StrLessTotal(a[1..], b[1..]);
      if a[1..] == b[1..] {
        assert a == [a[0]] + a[1..] && b == [b[0]] + b[1..];
      }
    }
  }

  // ---------------------------------------------------------------------
  // The rendering is injective and order-preserving

  /** The years whose rendering has exactly four digits. */
  const MaxFourDigitYear := 9999

  /**
    Two strings built as `y + "-" + m + "-" + d` from segments of matching
    lengths compare segment by segment.
   */
  lemma {:induction false} SegmentsOrder(y1: string, m1: string, d1: string, y2: string, m2: string, d2: string)
    requires |y1| == |y2| && |m1| == |m2|
    ensures StrLess(y1 + "-" + m1 + "-" + d1, y2 + "-" + m2 + "-" + d2) <==>
      StrLess(y1, y2) || (y1 == y2 && StrLess(m1, m2)) || (y1 == y2 && m1 == m2 && StrLess(d1, d2))
    ensures y1 + "-" + m1 + "-" + d1 == y2 + "-" + m2 + "-" + d2 <==> y1 == y2 && m1 == m2 && d1 == d2
  {
    var s1, s2 := y1 + "-" + m1 + "-" + d1, y2 + "-" + m2 + "-" + d2;
    var r1, r2 := m1 + "-" + d1, m2 + "-" + d2;
    assert s1 == y1 + ("-" + r1);
    assert s2 == y2 + ("-" + r2);
    StrLessAppend(y1, "-" + r1, y2, "-" + r2);
    StrLessAppend("-", r1, "-", r2);
    StrLessIrreflexive("-");
    assert r1 == m1 + ("-" + d1);
    assert r2 == m2 + ("-" + d2);
    StrLessAppend(m1, "-" + d1, m2, "-" + d2);
    StrLessAppend("-", d1, "-", d2);
    if s1 == s2 {
      var k := |y1|;
      assert y1 == s1[..k] == s2[..k] == y2;
      assert r1 == s1[k + 1..] == s2[k + 1..] == r2;
      assert m1 == r1[..|m1|] == r2[..|m1|] == m2;
      assert d1 == r1[|m1| + 1..] == r2[|m1| + 1..] == d2;
    }
  }

  lemma FormatOrder(a: Day, b: Day)
    requires a.year <= MaxFourDigitYear && b.year <= MaxFourDigitYear
    ensures Before(a, b) <==> StrLess(Format(a), Format(b))
    ensures a == b <==> Format(a) == Format(b)
  {
    assert Pow10(2) == 100 && Pow10(4) == 10000;
    DecimalLength(a.year, 4);
    DecimalLength(b.year, 4);
    DecimalLength(a.month, 2);
    DecimalLength(b.month, 2);
    DecimalOrder(a.year, b.year, 4);
    DecimalOrder(a.month, b.month, 2);
    DecimalOrder(a.day, b.day, 2);
    SegmentsOrder(Decimal(a.year, 4), Decimal(a.month, 2), Decimal(a.day, 2),
                  Decimal(b.year, 4), Decimal(b.month, 2), Decimal(b.day, 2));
  }
}
