/**
 * What the two dashboards compute from their numbers: the Peak, Low and Avg figures under the
 * weekly chart, the capped counters of the live update, and the `%` text of a rate.
 */
module DashboardStats {
  import opened Wrappers
  import opened Strings
  import opened Numbers

  /** `Math.max(...data)`: an entry of `data` that no entry exceeds. */
  function Peak(data: seq<int>): (m: int)
    requires |data| > 0
    ensures forall i :: 0 <= i < |data| ==> data[i] <= m
    ensures exists i :: 0 <= i < |data| && data[i] == m
  {
    if |data| == 1 then data[0]
    else
      var rest := Peak(data[1..]);
      assert forall i :: 1 <= i < |data| ==> data[i] == data[1..][i - 1];
      if data[0] >= rest then data[0]
      else
        var j :| 0 <= j < |data[1..]| && data[1..][j] == rest;
        assert data[j + 1] == rest;
        rest
  }

  /** `Math.min(...data)`: an entry of `data` that no entry is below. */
  function Low(data: seq<int>): (m: int)
    requires |data| > 0
    ensures forall i :: 0 <= i < |data| ==> m <= data[i]
    ensures exists i :: 0 <= i < |data| && data[i] == m
  {
    if |data| == 1 then data[0]
    else
      var rest := Low(data[1..]);
      assert forall i :: 1 <= i < |data| ==> data[i] == data[1..][i - 1];
      if data[0] <= rest then data[0]
      else
        var j :| 0 <= j < |data[1..]| && data[1..][j] == rest;
        assert data[j + 1] == rest;
        rest
  }

  /** Peak is the largest entry: any entry that bounds all others is the Peak. */
  lemma PeakIsMaximum(data: seq<int>, i: nat)
    requires i < |data| && forall j :: 0 <= j < |data| ==> data[j] <= data[i]
    ensures Peak(data) == data[i]
  {
  }

  /** Low is the smallest entry: any entry that no other is below is the Low. */
  lemma LowIsMinimum(data: seq<int>, i: nat)
    requires i < |data| && forall j :: 0 <= j < |data| ==> data[i] <= data[j]
    ensures Low(data) == data[i]
  {
  }

  /** `data.reduce((a, b) => a + b, 0)`. */
  function Total(data: seq<nat>): nat {
    if data == [] then 0 else data[0] + Total(data[1..])
  }

  /** A week whose every entry lies between `lo` and `hi` totals between `|data| * lo` and `|data| * hi`. */
  lemma {:induction false} TotalBetween(data: seq<nat>, lo: int, hi: int)
    requires forall i :: 0 <= i < |data| ==> lo <= data[i] <= hi
    ensures |data| * lo <= Total(data) <= |data| * hi
  {
    if data != [] {
      var rest := data[1..];
      assert forall i :: 0 <= i < |rest| ==> rest[i] == data[i + 1];
      TotalBetween(rest, lo, hi);
      assert |data| * lo == |rest| * lo + lo;
      assert |data| * hi == |rest| * hi + hi;
    }
  }

  /** `Math.round(total / 7)` for the seven days of the chart: halves round up. */
  function Avg(data: seq<nat>): nat {
    RoundHalfUp(Total(data) as real / 7.0)
  }

  /** Over a seven-day week the average shown lies between the Low and the Peak shown. */
  lemma AvgBetween(data: seq<nat>)
    requires |data| == 7
    ensures Low(data) <= Avg(data) <= Peak(data)
  {
    var lo, hi := Low(data), Peak(data);
    TotalBetween(data, lo, hi);
    var x := Total(data) as real / 7.0;
    assert lo as real <= x <= hi as real;
  }

  /** Avg is the whole number nearest to a seventh of the total: `|14 * Avg - 2 * total| <= 7`. */
  lemma AvgNearest(data: seq<nat>)
    ensures 2 * Total(data) - 7 < 14 * Avg(data) <= 2 * Total(data) + 7
  {
    var r := Avg(data);
    var x := Total(data) as real / 7.0;
    assert r as real - 0.5 <= x < r as real + 0.5;
    assert 14.0 * x == 2.0 * Total(data) as real;
  }

  /** `Math.min(n + 1, cap)`: one more, but never past the cap. */
  function CappedIncrement(n: int, cap: int): (r: int)
    ensures r <= cap
    ensures n < cap ==> r == n + 1
    ensures n >= cap ==> r == cap
  {
    if n + 1 < cap then n + 1 else cap
  }

  /** The text of a rate: `${n}%`. */
  function PercentText(n: nat): string {
    NatToDecimal(n) + "%"
  }

  /**
   * `${Math.min(parseInt(text) + 1, cap)}%`: `parseInt` reads the leading digits; text without
   * them gives `NaN`, and `Math.min` of `NaN` prints as `NaN%`.
   */
  function BumpPercent(text: string, cap: nat): (r: string)
    ensures r == "NaN%" <==> text == [] || !IsDigit(text[0])
  {
    match ParseIntPrefix(text)
    case None => "NaN%"
    case Some(n) =>
      var r := PercentText(CappedIncrement(n, cap));
      assert IsDigit(r[0]);
      r
  }

  /** A rate the dashboard printed is read back and bumped: the text round-trips. */
  lemma BumpPercentRoundTrip(n: nat, cap: nat)
    ensures BumpPercent(PercentText(n), cap) == PercentText(CappedIncrement(n, cap))
  {
    ParseIntOfDecimal(n, "%");
  }

  /** A badge is green when its text has a `+`: `change.includes('+')`. */
  predicate BadgeIsGreen(change: string) {
    Includes(change, "+")
  }

  /** The badge test is a search for the one character `+`. */
  lemma BadgeIsGreenIff(change: string)
    ensures BadgeIsGreen(change) <==> '+' in change
  {
    if '+' in change {
      var i :| 0 <= i < |change| && change[i] == '+';
      assert change[i..i + 1] == "+";
      assert OccursAt(change, "+", i);
    }
    if BadgeIsGreen(change) {
      var i :| OccursAt(change, "+", i);
      assert change[i] == change[i..i + 1][0];
    }
  }
}
