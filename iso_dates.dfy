/**
 * Calendar dates written `YYYY-MM-DD`, as the mock records store them. The pages compare
 * them through `new Date(text)`; for text of this shape that order is the order of
 * (year, month, day), which is also the plain character order of the text.
 */
module IsoDates {
  import opened Wrappers
  import opened Strings
  import opened Numbers

  predicate IsIsoDate(d: string) {
    && |d| == 10 && d[4] == '-' && d[7] == '-'
    && AllDigits(d[..4]) && AllDigits(d[5..7]) && AllDigits(d[8..])
  }

  /** The eight digits of the date, year first: read as a number they order dates in time. */
  function DateDigits(d: string): (r: string)
    requires IsIsoDate(d)
    ensures |r| == 8 && AllDigits(r)
  {
    d[..4] + d[5..7] + d[8..]
  }

  /** year * 10000 + month * 100 + day. */
  function DayKey(d: string): nat
    requires IsIsoDate(d)
  {
    DecimalValue(DateDigits(d))
  }

  /** `new Date(d).getMonth() + 1` for a date of this shape; `None` for text `Date` cannot read. */
  function MonthOf(d: string): (r: Option<nat>)
    ensures r.Some? <==> IsIsoDate(d)
  {
    if IsIsoDate(d) then Some(DecimalValue(d[5..7])) else None
  }

  /** A slice of a digit string is a digit string. */
  lemma AllDigitsSlice(s: string, i: nat, j: nat)
    requires AllDigits(s) && i <= j <= |s|
    ensures AllDigits(s[i..j])
  {
    var t := s[i..j];
    forall k | 0 <= k < |t| ensures IsDigit(t[k]) {
      assert t[k] == s[i + k];
    }
  }

  lemma AllDigitsConcat(x: string, y: string)
    requires AllDigits(x) && AllDigits(y)
    ensures AllDigits(x + y)
  {
    var xy := x + y;
    forall i | 0 <= i < |xy| ensures IsDigit(xy[i]) {
      if i < |x| { assert xy[i] == x[i]; } else { assert xy[i] == y[i - |x|]; }
    }
  }

  lemma ShiftDigit(x: nat, p: nat, y: nat, d: nat)
    ensures (x * p + y) * 10 + d == x * (p * 10) + (y * 10 + d)
  {
  }

  /** The value of digits followed by more digits. */
  lemma {:induction false} DecimalConcat(x: string, y: string)
    requires AllDigits(x) && AllDigits(y)
    ensures AllDigits(x + y)
    ensures DecimalValue(x + y) == DecimalValue(x) * Pow10(|y|) + DecimalValue(y)
    decreases |y|
  {
    AllDigitsConcat(x, y);
    var xy := x + y;
    if y == [] {
      assert xy == x;
    } else {
      var y0 := y[..|y| - 1];
      var last := DigitValue(y[|y| - 1]);
      AllDigitsSlice(y, 0, |y| - 1);
      DecimalConcat(x, y0);
      assert DecimalValue(xy) == DecimalValue(x + y0) * 10 + last by {
        assert xy[..|xy| - 1] == x + y0 && xy[|xy| - 1] == y[|y| - 1];
      }
      ShiftDigit(DecimalValue(x), Pow10(|y0|), DecimalValue(y0), last);
    }
  }

  /** `k` digits are worth less than 10^k. */
  lemma {:induction false} DecimalBound(s: string)
    requires AllDigits(s)
    ensures DecimalValue(s) < Pow10(|s|)
    decreases |s|
  {
    if s != [] {
      AllDigitsSlice(s, 0, |s| - 1);
      DecimalBound(s[..|s| - 1]);
    }
  }

  /** The value of a digit string from its first digit and the rest. */
  lemma DecimalFront(a: string)
    requires a != [] && AllDigits(a)
    ensures AllDigits(a[1..])
    ensures DecimalValue(a) == DigitValue(a[0]) * Pow10(|a| - 1) + DecimalValue(a[1..])
  {
    AllDigitsSlice(a, 1, |a|);
    AllDigitsSlice(a, 0, 1);
    assert a == a[..1] + a[1..];
    DecimalConcat(a[..1], a[1..]);
    assert DecimalValue(a[..1]) == DigitValue(a[0]) by {
      assert a[..1][..0] == [];
    }
  }

  /** A larger leading digit outweighs whatever follows it. */
  lemma LeadingDigitDecides(da: nat, db: nat, p: nat, ra: nat, rb: nat)
    requires ra < p && rb < p && da != db
    ensures da < db <==> da * p + ra <= db * p + rb
  {
    if da < db {
      assert (da + 1) * p <= db * p;
    } else {
      assert (db + 1) * p <= da * p;
    }
  }

  /** Among digit strings of one length, character order is numeric order. */
  lemma {:induction false} LexLeDigits(a: string, b: string)
    requires |a| == |b| && AllDigits(a) && AllDigits(b)
    ensures LexLe(a, b) <==> DecimalValue(a) <= DecimalValue(b)
    decreases |a|
  {
    if a != [] {
      DecimalFront(a);
      DecimalFront(b);
      LexLeDigits(a[1..], b[1..]);
      if a[0] != b[0] {
        DecimalBound(a[1..]);
        DecimalBound(b[1..]);
        LeadingDigitDecides(DigitValue(a[0]), DigitValue(b[0]), Pow10(|a| - 1), DecimalValue(a[1..]), DecimalValue(b[1..]));
      }
    }
  }

  /** Comparing `x + y` with `x' + y'` where `x` and `x'` have one length. */
  lemma {:induction false} LexLeConcat(x: string, y: string, x': string, y': string)
    requires |x| == |x'|
    ensures LexLe(x + y, x' + y') <==> if x == x' then LexLe(y, y') else LexLe(x, x')
    decreases |x|
  {
    if x != [] {
      assert (x + y)[1..] == x[1..] + y && (x' + y')[1..] == x'[1..] + y';
      LexLeConcat(x[1..], y, x'[1..], y');
      if x[0] == x'[0] && x[1..] == x'[1..] {
        assert x == [x[0]] + x[1..] && x' == [x'[0]] + x'[1..];
      }
    } else {
      assert x + y == y && x' + y' == y';
    }
  }

  /** A character both texts have at the same place drops out of the comparison. */
  lemma LexLeSkipShared(x: string, c: char, y: string, x': string, y': string)
    requires |x| == |x'|
    ensures LexLe(x + [c] + y, x' + [c] + y') <==> LexLe(x + y, x' + y')
  {
    assert x + [c] + y == x + ([c] + y) && x' + [c] + y' == x' + ([c] + y');
    LexLeConcat(x, [c] + y, x', [c] + y');
    LexLeConcat([c], y, [c], y');
    LexLeConcat(x, y, x', y');
  }

  /** Character order on a date is character order on its eight digits. */
  lemma DashesDropOut(a: string, b: string)
    requires IsIsoDate(a) && IsIsoDate(b)
    ensures LexLe(a, b) <==> LexLe(DateDigits(a), DateDigits(b))
  {
    var ya, ma, da := a[..4], a[5..7], a[8..];
    var yb, mb, db := b[..4], b[5..7], b[8..];
    assert a == ya + ['-'] + (ma + ['-'] + da) && b == yb + ['-'] + (mb + ['-'] + db);
    LexLeSkipShared(ya, '-', ma + ['-'] + da, yb, mb + ['-'] + db);
    assert ya + (ma + ['-'] + da) == (ya + ma) + ['-'] + da;
    assert yb + (mb + ['-'] + db) == (yb + mb) + ['-'] + db;
    LexLeSkipShared(ya + ma, '-', da, yb + mb, db);
  }

  /** Character order on `YYYY-MM-DD` text is the order of the dates in time. */
  lemma IsoDateOrder(a: string, b: string)
    requires IsIsoDate(a) && IsIsoDate(b)
    ensures LexLe(a, b) <==> DayKey(a) <= DayKey(b)
  {
    DashesDropOut(a, b);
    LexLeDigits(DateDigits(a), DateDigits(b));
  }
}
