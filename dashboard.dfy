/**
 * The trainer's dashboard (src/pages/Dashboard.jsx): four stat cards updated by a live
 * tick, their change badges, and the Peak, Low and Avg figures of the weekly chart.
 */
module Dashboard {
  import opened Numbers
  import opened DashboardStats

  /** The weekly sessions chart, Monday to Sunday. */
  const WeeklySessions: seq<nat> := [60, 80, 70, 90, 100, 120, 50]

  /** The change texts of the four cards, in the order shown. */
  const CardChanges: seq<string> := ["+12%", "+5%", "+8%", "-2 hrs"]

  const RevenuePerTick: nat := 25
  const SessionsCap: int := 30

  /** Peak 120 (Saturday) and Low 50 (Sunday). */
  lemma WeeklyPeakAndLow()
    ensures Peak(WeeklySessions) == 120 && Low(WeeklySessions) == 50
  {
    var w := WeeklySessions;
    assert w[5] == 120 && w[6] == 50;
    assert forall j :: 0 <= j < |w| ==> 50 <= w[j] <= 120;
    PeakIsMaximum(w, 5);
    LowIsMinimum(w, 6);
  }

  lemma WeeklyTotal()
    ensures Total(WeeklySessions) == 570
  {
    var w := WeeklySessions;
    assert Total(w[6..]) == 50;
    assert Total(w[5..]) == 170;
    assert Total(w[4..]) == 270;
    assert Total(w[3..]) == 360;
    assert Total(w[2..]) == 430;
    assert Total(w[1..]) == 510;
  }

  /** Avg 81: 570 / 7 is about 81.43. */
  lemma WeeklyAvg()
    ensures Avg(WeeklySessions) == 81
  {
    WeeklyTotal();
    AvgNearest(WeeklySessions);
  }

  /** The first three badges are green and the hours badge is red. */
  lemma CardBadges()
    ensures BadgeIsGreen(CardChanges[0]) && BadgeIsGreen(CardChanges[1]) && BadgeIsGreen(CardChanges[2])
    ensures !BadgeIsGreen(CardChanges[3])
  {
    BadgeIsGreenIff(CardChanges[0]);
    BadgeIsGreenIff(CardChanges[1]);
    BadgeIsGreenIff(CardChanges[2]);
    BadgeIsGreenIff(CardChanges[3]);
    assert CardChanges[0][0] == '+' && CardChanges[1][0] == '+' && CardChanges[2][0] == '+';
    var hours := CardChanges[3];
    assert forall i :: 0 <= i < |hours| ==> hours[i] != '+';
  }

  lemma Print2480()
    ensures MoneyText(2480) == "$2,480"
  {
    assert NatToDecimal(2) == "2";
    assert NatToDecimal(24) == "24";
    assert NatToDecimal(248) == "248";
    assert NatToDecimal(2480) == "2480";
    var d := "2480";
    assert d[..|d| - 3] == "2" && d[|d| - 3..] == "480";
  }

  /** The `stats` state of the page. */
  class TrainerStatsBoard {
    var totalClients: int
    var sessionsThisWeek: int
    var revenue: string
    var availability: string

    /** The amount the revenue text prints. */
    ghost var revenueAmount: nat

    /** The revenue text is a printed amount and the sessions count is within the cap. */
    ghost predicate Valid()
      reads this
    {
      revenue == MoneyText(revenueAmount) && sessionsThisWeek <= SessionsCap
    }

    constructor ()
      ensures Valid()
      ensures totalClients == 48 && sessionsThisWeek == 24 && revenue == "$2,480" && availability == "12 hrs"
      ensures revenueAmount == 2480
    {
      totalClients := 48;
      sessionsThisWeek := 24;
      revenue := "$2,480";
      availability := "12 hrs";
      revenueAmount := 2480;
      Print2480();
    }

    /**
     * One tick of the live update: one more client, one more session up to 30, the revenue
     * text re-read and printed 25 higher; the availability card stays as it is.
     */
    method Tick()
      requires Valid()
      modifies this
      ensures Valid()
      ensures totalClients == old(totalClients) + 1
      ensures sessionsThisWeek == CappedIncrement(old(sessionsThisWeek), SessionsCap)
      ensures revenue == BumpMoney(old(revenue), RevenuePerTick)
      ensures revenueAmount == old(revenueAmount) + RevenuePerTick
      ensures availability == old(availability)
    {
      MoneyBumpRoundTrip(revenueAmount, RevenuePerTick);
      totalClients := totalClients + 1;
      sessionsThisWeek := CappedIncrement(sessionsThisWeek, SessionsCap);
      revenue := BumpMoney(revenue, RevenuePerTick);
      revenueAmount := revenueAmount + RevenuePerTick;
    }
  }
}
