/**
 * The gym owner's dashboard (src/pages/GymDashboard.jsx): six stat cards updated by a
 * live tick, and the Peak, Low and Avg figures of the weekly occupancy chart.
 */
module GymDashboard {
  import opened Numbers
  import opened DashboardStats

  /** The weekly occupancy chart, Monday to Sunday, in percent. */
  const WeeklyOccupancy: seq<nat> := [68, 72, 78, 82, 88, 94, 70]

  /** Each tick adds one sign-up and this much revenue; occupancy stops at the cap. */
  const RevenuePerTick: nat := 54
  const OccupancyCap: nat := 95

  /** Peak 94 (Saturday) and Low 68 (Monday). */
  lemma WeeklyPeakAndLow()
    ensures Peak(WeeklyOccupancy) == 94 && Low(WeeklyOccupancy) == 68
  {
    var w := WeeklyOccupancy;
    assert w[5] == 94 && w[0] == 68;
    assert forall j :: 0 <= j < |w| ==> 68 <= w[j] <= 94;
    PeakIsMaximum(w, 5);
    LowIsMinimum(w, 0);
  }

  lemma WeeklyTotal()
    ensures Total(WeeklyOccupancy) == 552
  {
    var w := WeeklyOccupancy;
    assert Total(w[6..]) == 70;
    assert Total(w[5..]) == 164;
    assert Total(w[4..]) == 252;
    assert Total(w[3..]) == 334;
    assert Total(w[2..]) == 412;
    assert Total(w[1..]) == 484;
  }

  /** Avg 79: 552 / 7 is about 78.86. */
  lemma WeeklyAvg()
    ensures Avg(WeeklyOccupancy) == 79
  {
    WeeklyTotal();
    AvgNearest(WeeklyOccupancy);
  }

  lemma Print18420()
    ensures MoneyText(18420) == "$18,420"
  {
    assert NatToDecimal(1) == "1";
    assert NatToDecimal(18) == "18";
    assert NatToDecimal(184) == "184";
    assert NatToDecimal(1842) == "1842";
    assert NatToDecimal(18420) == "18420";
    var d := "18420";
    assert d[..|d| - 3] == "18" && d[|d| - 3..] == "420";
  }

  lemma Print78()
    ensures PercentText(78) == "78%"
  {
    assert NatToDecimal(7) == "7";
    assert NatToDecimal(78) == "78";
  }

  /** The `stats` state of the page. */
  class GymStatsBoard {
    var totalMembers: int
    var monthlyRevenue: string
    var occupancyRate: string
    var newSignups: int
    var activeClasses: int
    var staffCount: int

    /** The amounts the two texts print. */
    ghost var revenue: nat
    ghost var occupancy: nat

    /** The revenue text is a printed amount and the occupancy text a printed rate within the cap. */
    ghost predicate Valid()
      reads this
    {
      && monthlyRevenue == MoneyText(revenue)
      && occupancyRate == PercentText(occupancy)
      && occupancy <= OccupancyCap
    }

    constructor ()
      ensures Valid()
      ensures totalMembers == 342 && monthlyRevenue == "$18,420" && occupancyRate == "78%"
      ensures newSignups == 28 && activeClasses == 24 && staffCount == 12
      ensures revenue == 18420 && occupancy == 78
    {
      totalMembers := 342;
      monthlyRevenue := "$18,420";
      occupancyRate := "78%";
      newSignups := 28;
      activeClasses := 24;
      staffCount := 12;
      revenue := 18420;
      occupancy := 78;
      Print18420();
      Print78();
    }

    /**
     * One tick of the live update: one more member and sign-up, the revenue text re-read and
     * printed 54 higher, the occupancy text re-read and printed one higher up to 95%; the
     * classes and staff cards stay as they are.
     */
    method Tick()
      requires Valid()
      modifies this
      ensures Valid()
      ensures totalMembers == old(totalMembers) + 1 && newSignups == old(newSignups) + 1
      ensures monthlyRevenue == BumpMoney(old(monthlyRevenue), RevenuePerTick)
      ensures occupancyRate == BumpPercent(old(occupancyRate), OccupancyCap)
      ensures revenue == old(revenue) + RevenuePerTick
      ensures occupancy == CappedIncrement(old(occupancy), OccupancyCap)
      ensures activeClasses == old(activeClasses) && staffCount == old(staffCount)
    {
      ghost var rev, occ := revenue, occupancy;
      var money := BumpMoney(monthlyRevenue, RevenuePerTick);
      var rate := BumpPercent(occupancyRate, OccupancyCap);
      ghost var capped := CappedIncrement(occ, OccupancyCap);
      assert money == MoneyText(rev + RevenuePerTick) by { MoneyBumpRoundTrip(rev, RevenuePerTick); }
      assert rate == PercentText(capped) by { BumpPercentRoundTrip(occ, OccupancyCap); }
      totalMembers, newSignups := totalMembers + 1, newSignups + 1;
      monthlyRevenue, occupancyRate := money, rate;
      revenue, occupancy := rev + RevenuePerTick, capped;
    }
  }
}
