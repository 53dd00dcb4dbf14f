/**
 * Number <-> text conversions as the pages use them: printing a non-negative
 * integer, `parseFloat` and `parseInt` of a leading run of digits, `toFixed(0)`,
 * and the thousands-separator regular expression applied to money figures.
 */
module Numbers {
  import opened Wrappers
  import opened Strings

  predicate IsDigit(c: char) { '0' <= c <= '9' }

  predicate AllDigits(s: string) {
    forall i :: 0 <= i < |s| ==> IsDigit(s[i])
  }

  function DigitValue(c: char): nat
    requires IsDigit(c)
  {
    c as int - '0' as int
  }

  function DigitChar(d: nat): (c: char)
    requires d < 10
    ensures IsDigit(c) && DigitValue(c) == d
  {
    ('0' as int + d) as char
  }

  /** The text JavaScript prints for a non-negative integer: decimal digits, no leading zero. */
  function NatToDecimal(n: nat): (r: string)
    ensures r != [] && AllDigits(r)
    ensures r[0] == '0' ==> n == 0
    decreases n
  {
    if n < 10 then [DigitChar(n)] else NatToDecimal(n / 10) + [DigitChar(n % 10)]
  }

  /** The value of a string of decimal digits. */
  function DecimalValue(s: string): nat
    requires AllDigits(s)
    decreases |s|
  {
    if s == [] then 0 else DecimalValue(s[..|s| - 1]) * 10 + DigitValue(s[|s| - 1])
  }

  /** Reading back the digits `NatToDecimal` prints gives the number. */
  lemma {:induction false} DecimalRoundTrip(n: nat)
    ensures DecimalValue(NatToDecimal(n)) == n
    decreases n
  {
    if n >= 10 {
      DecimalRoundTrip(n / 10);
      var d := NatToDecimal(n);
      assert d[..|d| - 1] == NatToDecimal(n / 10);
    }
  }

  /** `String(i)` for an integer. */
  function IntToString(i: int): string {
    if i < 0 then "-" + NatToDecimal(-i) else NatToDecimal(i)
  }

  /** How many characters at the front of `s` are digits. */
  function LeadingDigits(s: string): (k: nat)
    ensures k <= |s| && AllDigits(s[..k])
    ensures k < |s| ==> !IsDigit(s[k])
  {
    if s != [] && IsDigit(s[0]) then
      var k := 1 + LeadingDigits(s[1..]);
      assert s[..k] == [s[0]] + s[1..][..k - 1];
      k
    else 0
  }

  lemma {:induction false} LeadingDigitsOfDigits(d: string, rest: string)
    requires AllDigits(d)
    requires rest == [] || !IsDigit(rest[0])
    ensures LeadingDigits(d + rest) == |d|
    decreases |d|
  {
    if d != [] {
      assert (d + rest)[1..] == d[1..] + rest;
      LeadingDigitsOfDigits(d[1..], rest);
    }
  }

  function Pow10(k: nat): (r: nat)
    ensures r >= 1
  {
    if k == 0 then 1 else 10 * Pow10(k - 1)
  }

  /**
   * `parseFloat(s)` for text that starts with a digit or a point: the value of the longest
   * prefix of the form `digits [ "." digits ]`; `None` stands for `NaN`.
   */
  function ParseFloatPrefix(s: string): (r: Option<real>)
    ensures r.Some? ==> r.value >= 0.0
    ensures r.None? <==> LeadingDigits(s) == 0 && !(|s| >= 2 && s[0] == '.' && IsDigit(s[1]))
  {
    var k := LeadingDigits(s);
    var whole := DecimalValue(s[..k]) as real;
    if k < |s| && s[k] == '.' then
      var frac := s[k + 1..];
      var m := LeadingDigits(frac);
      if k == 0 && m == 0 then None
      else Some(whole + DecimalValue(frac[..m]) as real / Pow10(m) as real)
    else if k == 0 then None
    else Some(whole)
  }

  /** `parseFloat` reads back every number `NatToDecimal` prints, whatever non-digit follows it. */
  lemma ParseFloatOfDecimal(n: nat, rest: string)
    requires rest == [] || (!IsDigit(rest[0]) && rest[0] != '.')
    ensures ParseFloatPrefix(NatToDecimal(n) + rest) == Some(n as real)
  {
    var d := NatToDecimal(n);
    LeadingDigitsOfDigits(d, rest);
    assert (d + rest)[..|d|] == d;
    DecimalRoundTrip(n);
  }

  /** A printed number followed by a non-digit: the digits end where the number does. */
  lemma WholePart(whole: nat, rest: string)
    requires rest == [] || !IsDigit(rest[0])
    ensures var d := NatToDecimal(whole);
      LeadingDigits(d + rest) == |d| && (d + rest)[..|d|] == d && (d + rest)[|d|..] == rest
      && DecimalValue((d + rest)[..|d|]) == whole
  {
    var d := NatToDecimal(whole);
    LeadingDigitsOfDigits(d, rest);
    assert (d + rest)[..|d|] == d;
    DecimalRoundTrip(whole);
  }

  /** One digit followed by a non-digit reads as that digit. */
  lemma OneDigit(tenth: nat, rest: string)
    requires tenth < 10 && (rest == [] || !IsDigit(rest[0]))
    ensures LeadingDigits([DigitChar(tenth)] + rest) == 1
    ensures ([DigitChar(tenth)] + rest)[..1] == [DigitChar(tenth)] && DecimalValue([DigitChar(tenth)]) == tenth
  {
    var digit := [DigitChar(tenth)];
    LeadingDigitsOfDigits(digit, rest);
    assert (digit + rest)[..1] == digit;
    assert digit[..0] == [];
  }

  /** `parseFloat` reads a printed whole number, a point and one more digit as that many tenths. */
  lemma ParseFloatOfTenths(whole: nat, tenth: nat, rest: string)
    requires tenth < 10 && (rest == [] || (!IsDigit(rest[0]) && rest[0] != '.'))
    ensures ParseFloatPrefix(NatToDecimal(whole) + ("." + ([DigitChar(tenth)] + rest)))
              == Some(whole as real + tenth as real / 10.0)
  {
    var d, digit := NatToDecimal(whole), [DigitChar(tenth)];
    var text := d + ("." + (digit + rest));
    var k := |d|;
    WholePart(whole, "." + (digit + rest));
    assert text[k] == '.';
    var frac := text[k + 1..];
    assert frac == digit + rest;
    OneDigit(tenth, rest);
    assert ParseFloatPrefix(text) == Some(DecimalValue(text[..k]) as real + DecimalValue(frac[..1]) as real / Pow10(1) as real);
    assert Pow10(1) == 10;
  }

  /** `parseInt(s)` for text that starts with a digit; `None` stands for `NaN`. */
  function ParseIntPrefix(s: string): (r: Option<nat>)
    ensures r.None? <==> s == [] || !IsDigit(s[0])
  {
    var k := LeadingDigits(s);
    if k == 0 then None else Some(DecimalValue(s[..k]))
  }

  /** `parseInt` reads back every number `NatToDecimal` prints, whatever non-digit follows it. */
  lemma ParseIntOfDecimal(n: nat, rest: string)
    requires rest == [] || !IsDigit(rest[0])
    ensures ParseIntPrefix(NatToDecimal(n) + rest) == Some(n)
  {
    var d := NatToDecimal(n);
    LeadingDigitsOfDigits(d, rest);
    assert (d + rest)[..|d|] == d;
    DecimalRoundTrip(n);
  }

  /** `x.toFixed(0)` for a non-negative `x`: the nearest integer, halves rounded up. */
  function RoundHalfUp(x: real): (r: nat)
    requires x >= 0.0
    ensures r as real - 0.5 <= x < r as real + 0.5
  {
    (x + 0.5).Floor
  }

  /** `s.replace(/,/g, '')` and friends: `s` with every `c` removed. */
  function RemoveChar(s: string, c: char): (r: string)
    ensures c !in r
    ensures |r| <= |s|
  {
    if s == [] then [] else (if s[0] == c then [] else [s[0]]) + RemoveChar(s[1..], c)
  }

  lemma {:induction false} RemoveCharConcat(a: string, b: string, c: char)
    ensures RemoveChar(a + b, c) == RemoveChar(a, c) + RemoveChar(b, c)
    decreases |a|
  {
    if a == [] {
      assert a + b == b;
    } else {
      var front := if a[0] == c then [] else [a[0]];
      assert (a + b)[0] == a[0] && (a + b)[1..] == a[1..] + b;
      assert RemoveChar(a + b, c) == front + RemoveChar(a[1..] + b, c);
      RemoveCharConcat(a[1..], b, c);
      assert RemoveChar(a, c) == front + RemoveChar(a[1..], c);
      assert front + (RemoveChar(a[1..], c) + RemoveChar(b, c)) == (front + RemoveChar(a[1..], c)) + RemoveChar(b, c);
    }
  }

  lemma {:induction false} RemoveAbsentChar(s: string, c: char)
    requires c !in s
    ensures RemoveChar(s, c) == s
    decreases |s|
  {
    if s != [] {
      RemoveAbsentChar(s[1..], c);
      assert [s[0]] + s[1..] == s;
    }
  }

  /** Removing `c` from `a`, one `c` and a `b` without `c` keeps `b` whole. */
  lemma RemoveSeparator(a: string, b: string, c: char)
    requires c !in b
    ensures RemoveChar(a + [c] + b, c) == RemoveChar(a, c) + b
  {
    assert RemoveChar(a + [c] + b, c) == RemoveChar(a + [c], c) + RemoveChar(b, c) by {
      RemoveCharConcat(a + [c], b, c);
    }
    assert RemoveChar(a + [c], c) == RemoveChar(a, c) by {
      RemoveCharConcat(a, [c], c);
      assert RemoveChar([c], c) == [];
    }
    assert RemoveChar(b, c) == b by {
      RemoveAbsentChar(b, c);
    }
  }

  /**
   * `digits.replace(/\B(?=(\d{3})+(?!\d))/g, ',')` on a run of digits: a comma
   * in front of every third digit counted from the right, never at either end.
   */
  function GroupThousands(d: string): string
    decreases |d|
  {
    if |d| <= 3 then d else GroupThousands(d[..|d| - 3]) + "," + d[|d| - 3..]
  }

  /** Taking the commas back out of a grouped number gives the digits back. */
  lemma {:induction false} GroupThousandsUngroups(d: string)
    requires ',' !in d
    ensures RemoveChar(GroupThousands(d), ',') == d
    decreases |d|
  {
    if |d| <= 3 {
      RemoveAbsentChar(d, ',');
    } else {
      var head, tail := d[..|d| - 3], d[|d| - 3..];
      assert ',' !in head && ',' !in tail;
      var grouped := GroupThousands(head);
      assert GroupThousands(d) == grouped + "," + tail;
      GroupThousandsUngroups(head);
      RemoveSeparator(grouped, tail, ',');
      assert head + tail == d;
    }
  }

  /** The comma-separated groups of a number: the first has one to three digits, every later one three. */
  predicate WellGrouped(groups: seq<string>) {
    && |groups| > 0
    && 1 <= |groups[0]| <= 3
    && forall k :: 0 < k < |groups| ==> |groups[k]| == 3
  }

  lemma {:induction false} SplitBeforeLast(a: string, sep: char, b: string)
    requires sep !in b
    ensures Split(a + [sep] + b, sep) == Split(a, sep) + [b]
    decreases |a|
  {
    if a == [] {
      assert a + [sep] + b == [sep] + b;
      assert ([sep] + b)[1..] == b;
      SplitNoSep(b, sep);
    } else {
      assert (a + [sep] + b)[1..] == a[1..] + [sep] + b;
      SplitBeforeLast(a[1..], sep, b);
    }
  }

  /** Splitting a grouped number on its commas gives well-formed groups. */
  lemma {:induction false} GroupThousandsGroups(d: string)
    requires d != [] && ',' !in d
    ensures WellGrouped(Split(GroupThousands(d), ','))
    decreases |d|
  {
    if |d| <= 3 {
      SplitNoSep(d, ',');
    } else {
      var head, tail := d[..|d| - 3], d[|d| - 3..];
      assert ',' !in head && ',' !in tail;
      GroupThousandsGroups(head);
      SplitBeforeLast(GroupThousands(head), ',', tail);
    }
  }

  /** The text a dashboard shows for a money figure: `$` and the grouped digits. */
  function MoneyText(n: nat): string {
    "$" + GroupThousands(NatToDecimal(n))
  }

  /**
   * One live-update step of a money figure:
   * `$${(parseFloat(text.slice(1).replace(/,/g, '')) + inc).toFixed(0).replace(/\B(?=(\d{3})+(?!\d))/g, ',')}`.
   * A text that does not parse gives `NaN`, printed as `$NaN`.
   */
  function BumpMoney(text: string, inc: nat): string {
    var plain := RemoveChar(if text == [] then [] else text[1..], ',');
    match ParseFloatPrefix(plain)
    case None => "$NaN"
    case Some(x) => "$" + GroupThousands(NatToDecimal(RoundHalfUp(x + inc as real)))
  }

  /** Bumping a figure the dashboard printed gives the printed sum: the money text round-trips. */
  lemma MoneyBumpRoundTrip(n: nat, inc: nat)
    ensures BumpMoney(MoneyText(n), inc) == MoneyText(n + inc)
  {
    var d := NatToDecimal(n);
    assert MoneyText(n)[1..] == GroupThousands(d);
    GroupThousandsUngroups(d);
    ParseFloatOfDecimal(n, []);
    assert d + [] == d;
    assert RoundHalfUp(n as real + inc as real) == n + inc;
  }
}
