/**
 * The staff list (src/pages/Staff.jsx): search over name and role, role and status
 * filters, a sort by name, sessions, rating or revenue, the per-trainer count of working
 * days, and the footer counts.
 */
module Staff {
  import opened Wrappers
  import opened Strings
  import opened Numbers
  import opened ListView

  datatype StaffMember = StaffMember(
    id: nat, name: string, role: string, sessions: nat, rating: string,
    status: string, revenue: string, performance: seq<nat>)

  const MockStaff: seq<StaffMember> := [
    StaffMember(1, "Sarah Johnson", "Lead Trainer", 24, "4.9⭐", "active", "$2,480", [6, 8, 7, 9, 10, 8, 0]),
    StaffMember(2, "Mike Chen", "HIIT Coach", 18, "4.6⭐", "active", "$1,920", [4, 0, 5, 0, 6, 3, 0]),
    StaffMember(3, "Lisa Wong", "Yoga Instructor", 20, "4.8⭐", "on-leave", "$1,800", [0, 4, 0, 5, 0, 4, 0]),
    StaffMember(4, "Alex Rivera", "Strength Coach", 22, "4.7⭐", "active", "$2,100", [0, 7, 6, 8, 9, 0, 0])
  ]

  /** `matchesSearch`: the name or the role contains the term, ignoring case. */
  function SearchHit(term: string): StaffMember -> bool {
    (s: StaffMember) => MatchesTerm(s.name, term) || MatchesTerm(s.role, term)
  }

  function RoleHit(role: string): StaffMember -> bool {
    (s: StaffMember) => role == "all" || s.role == role
  }

  function StatusHit(status: string): StaffMember -> bool {
    (s: StaffMember) => status == "all" || s.status == status
  }

  /** `matchesSearch && matchesRole && matchesStatus`. */
  function Keep(term: string, role: string, status: string): StaffMember -> bool {
    (s: StaffMember) => SearchHit(term)(s) && RoleHit(role)(s) && StatusHit(status)(s)
  }

  /** The number `parseFloat` reads at the front of a text; text it cannot read ranks as 0. */
  function NumberOrZero(text: string): (x: real)
    ensures x >= 0.0
  {
    match ParseFloatPrefix(text)
    case Some(v) => v
    case None => 0.0
  }

  function NameOf(s: StaffMember): string { s.name }
  function SessionsOf(s: StaffMember): real { s.sessions as real }

  /** `parseFloat(rating)`: `'4.9⭐'` reads as 4.9. */
  function RatingKey(s: StaffMember): real { NumberOrZero(s.rating) }

  /**
   * `parseFloat(revenue.slice(1))` as written: reading stops at the thousands comma, so
   * `'$2,480'` ranks as 2.
   */
  function RevenueKeyAsWritten(s: StaffMember): real {
    NumberOrZero(if s.revenue == [] then [] else s.revenue[1..])
  }

  /** The revenue figure itself: the text after `$` with its thousands commas removed. */
  function RevenueKey(s: StaffMember): real {
    NumberOrZero(RemoveChar(if s.revenue == [] then [] else s.revenue[1..], ','))
  }

  /** The comparator of the `switch (sortBy)`: revenue ranked by `parseFloat(revenue.slice(1))`. */
  function Order(sortBy: string): Comparator<StaffMember> {
    if sortBy == "name" then ByText(NameOf)
    else if sortBy == "sessions" then ByNumberDesc(SessionsOf)
    else if sortBy == "rating" then ByNumberDesc(RatingKey)
    else if sortBy == "revenue" then ByNumberDesc(RevenueKeyAsWritten)
    else KeepOrder
  }

  /** `filteredAndSortedStaff`: exactly the staff the three tests accept, in the key's order. */
  function FilteredAndSorted(staff: seq<StaffMember>, term: string, role: string, status: string, sortBy: string): (r: seq<StaffMember>)
    ensures |r| <= |staff| && Sorted(Order(sortBy), r)
    ensures forall s :: s in r <==> s in staff && SearchHit(term)(s) && RoleHit(role)(s) && StatusHit(status)(s)
    ensures forall s :: multiset(r)[s] == if Keep(term, role, status)(s) then multiset(staff)[s] else 0
  {
    Project(staff, Keep(term, role, status), Order(sortBy))
  }

  /** The comparator the revenue sort evidently intends: the whole figure, commas removed. */
  function OrderIntended(sortBy: string): Comparator<StaffMember> {
    if sortBy == "revenue" then ByNumberDesc(RevenueKey) else Order(sortBy)
  }

  /** The staff list with the intended revenue order; every other key sorts as the page does. */
  function FilteredAndSortedIntended(staff: seq<StaffMember>, term: string, role: string, status: string, sortBy: string): (r: seq<StaffMember>)
    ensures |r| <= |staff| && Sorted(OrderIntended(sortBy), r)
    ensures forall s :: s in r <==> s in staff && SearchHit(term)(s) && RoleHit(role)(s) && StatusHit(status)(s)
    ensures forall s :: multiset(r)[s] == if Keep(term, role, status)(s) then multiset(staff)[s] else 0
    ensures sortBy != "revenue" ==> r == FilteredAndSorted(staff, term, role, status, sortBy)
  {
    Project(staff, Keep(term, role, status), OrderIntended(sortBy))
  }

  /** With the intended key, revenue sorts the listed staff by their whole figures, largest first. */
  lemma IntendedRevenueOrder(staff: seq<StaffMember>, term: string, role: string, status: string)
    ensures var r := FilteredAndSortedIntended(staff, term, role, status, "revenue");
      forall i, j :: 0 <= i < j < |r| ==> RevenueKey(r[j]) <= RevenueKey(r[i])
  {
    var r := FilteredAndSortedIntended(staff, term, role, status, "revenue");
    var c := OrderIntended("revenue");
    forall i, j | 0 <= i < j < |r| ensures RevenueKey(r[j]) <= RevenueKey(r[i]) {
      assert c == ByNumberDesc(RevenueKey) && Precedes(c, r[i], r[j]);
    }
  }

  /** What each sort key means for the shown list. */
  lemma SortedByKey(staff: seq<StaffMember>, term: string, role: string, status: string, sortBy: string)
    ensures var r := FilteredAndSorted(staff, term, role, status, sortBy);
      && (sortBy == "name" ==> forall i, j :: 0 <= i < j < |r| ==> LexLe(r[i].name, r[j].name))
      && (sortBy == "sessions" ==> forall i, j :: 0 <= i < j < |r| ==> r[j].sessions <= r[i].sessions)
      && (sortBy == "rating" ==> forall i, j :: 0 <= i < j < |r| ==> RatingKey(r[j]) <= RatingKey(r[i]))
      && (sortBy == "revenue" ==> forall i, j :: 0 <= i < j < |r| ==> RevenueKeyAsWritten(r[j]) <= RevenueKeyAsWritten(r[i]))
  {
    var r := FilteredAndSorted(staff, term, role, status, sortBy);
    var c := Order(sortBy);
    if sortBy == "name" {
      forall i, j | 0 <= i < j < |r| ensures LexLe(r[i].name, r[j].name) {
        assert c == ByText(NameOf) && Precedes(c, r[i], r[j]);
      }
    } else if sortBy == "sessions" {
      forall i, j | 0 <= i < j < |r| ensures r[j].sessions <= r[i].sessions {
        assert c == ByNumberDesc(SessionsOf) && Precedes(c, r[i], r[j]);
      }
    } else if sortBy == "rating" {
      forall i, j | 0 <= i < j < |r| ensures RatingKey(r[j]) <= RatingKey(r[i]) {
        assert c == ByNumberDesc(RatingKey) && Precedes(c, r[i], r[j]);
      }
    } else if sortBy == "revenue" {
      forall i, j | 0 <= i < j < |r| ensures RevenueKeyAsWritten(r[j]) <= RevenueKeyAsWritten(r[i]) {
        assert c == ByNumberDesc(RevenueKeyAsWritten) && Precedes(c, r[i], r[j]);
      }
    }
  }

  /** An unknown sort key keeps the filtered staff in the order of the input. */
  lemma UnknownKeyKeepsOrder(staff: seq<StaffMember>, term: string, role: string, status: string, sortBy: string)
    requires sortBy !in {"name", "sessions", "rating", "revenue"}
    ensures FilteredAndSorted(staff, term, role, status, sortBy) == Filter(staff, Keep(term, role, status))
  {
    ProjectKeepOrder(staff, Keep(term, role, status));
  }

  /** A rating written as a decimal figure followed by a star ranks by that figure. */
  lemma RatingKeyReadsFigure(s: StaffMember, whole: nat, tenth: nat)
    requires tenth < 10
    requires s.rating == NatToDecimal(whole) + "." + [DigitChar(tenth)] + "⭐"
    ensures RatingKey(s) == whole as real + tenth as real / 10.0
  {
    assert s.rating == NatToDecimal(whole) + ("." + ([DigitChar(tenth)] + "⭐"));
    ParseFloatOfTenths(whole, tenth, "⭐");
  }

  /** A revenue figure printed as `$` and grouped digits ranks by its full amount. */
  lemma RevenueKeyReadsAmount(s: StaffMember, n: nat)
    requires s.revenue == MoneyText(n)
    ensures RevenueKey(s) == n as real
  {
    var d := NatToDecimal(n);
    assert s.revenue[1..] == GroupThousands(d);
    GroupThousandsUngroups(d);
    ParseFloatOfDecimal(n, []);
    assert d + [] == d;
  }

  /** `'$900'` has no comma: both keys read it as 900. */
  lemma KeysOf900(a: StaffMember)
    requires a.revenue == "$900"
    ensures RevenueKeyAsWritten(a) == 900.0 && RevenueKey(a) == 900.0
  {
    var t := a.revenue[1..];
    Print900();
    assert t == NatToDecimal(900) + [];
    ParseFloatOfDecimal(900, []);
    RemoveAbsentChar(t, ',');
  }

  /** `parseFloat` stops at the thousands comma of `'$2,480'` and reads 2; without the comma it reads 2480. */
  lemma KeysOf2480(b: StaffMember)
    requires b.revenue == "$2,480"
    ensures RevenueKeyAsWritten(b) == 2.0 && RevenueKey(b) == 2480.0
  {
    var t := b.revenue[1..];
    assert t == NatToDecimal(2) + ",480" by { assert NatToDecimal(2) == "2"; }
    ParseFloatOfDecimal(2, ",480");
    assert b.revenue == MoneyText(2480) by { Print2480(); }
    RevenueKeyReadsAmount(b, 2480);
  }

  /**
   * The revenue sort as written ranks `'$900'` above `'$2,480'`: `parseFloat('2,480')` is 2.
   * With the comma removed the larger figure comes first.
   */
  lemma RevenueAsWrittenMisorders(a: StaffMember, b: StaffMember)
    requires a.revenue == "$900" && b.revenue == "$2,480"
    ensures RevenueKeyAsWritten(a) == 900.0 && RevenueKeyAsWritten(b) == 2.0
    ensures Precedes(ByNumberDesc(RevenueKeyAsWritten), a, b) && !Precedes(ByNumberDesc(RevenueKeyAsWritten), b, a)
    ensures RevenueKey(a) == 900.0 && RevenueKey(b) == 2480.0
    ensures Precedes(ByNumberDesc(RevenueKey), b, a) && !Precedes(ByNumberDesc(RevenueKey), a, b)
  {
    KeysOf900(a);
    KeysOf2480(b);
  }

  /**
   * On the page: with no search and no filter, the revenue sort lists `'$900'` before
   * `'$2,480'`; the intended order lists them the other way round.
   */
  lemma RevenueSortMisorders(a: StaffMember, b: StaffMember)
    requires a.revenue == "$900" && b.revenue == "$2,480"
    ensures FilteredAndSorted([b, a], "", "all", "all", "revenue") == [a, b]
    ensures FilteredAndSortedIntended([a, b], "", "all", "all", "revenue") == [b, a]
  {
    RevenueAsWrittenMisorders(a, b);
    KeepsEveryone(b, a);
    KeepsEveryone(a, b);
    SortSwapsPair(Order("revenue"), b, a);
    SortSwapsPair(OrderIntended("revenue"), a, b);
  }

  /** No search, role `'all'` and status `'all'` keep both staff members. */
  lemma KeepsEveryone(a: StaffMember, b: StaffMember)
    ensures Filter([a, b], Keep("", "all", "all")) == [a, b]
  {
    forall x | x in [a, b] ensures Keep("", "all", "all")(x) {
      EmptyTermMatches(x.name);
      assert SearchHit("")(x) && RoleHit("all")(x) && StatusHit("all")(x);
    }
    FilterAll([a, b], Keep("", "all", "all"));
  }

  lemma Print900()
    ensures NatToDecimal(900) == "900"
  {
    assert NatToDecimal(9) == "9";
    assert NatToDecimal(90) == "90";
  }

  lemma Print2480()
    ensures NatToDecimal(2480) == "2480" && MoneyText(2480) == "$2,480"
  {
    assert NatToDecimal(2) == "2";
    assert NatToDecimal(24) == "24";
    assert NatToDecimal(248) == "248";
    assert NatToDecimal(2480) == "2480";
    var d := "2480";
    assert d[..|d| - 3] == "2" && d[|d| - 3..] == "480";
  }

  /** `performance.filter(Boolean).length`: the days with at least one session. */
  function WorkingDays(performance: seq<nat>): (n: nat)
    ensures n <= |performance|
    ensures n == |performance| - multiset(performance)[0]
  {
    CountAllBut(performance, (x: nat) => x != 0, 0);
    Count(performance, (x: nat) => x != 0)
  }

  /** The days with sessions and the days without make up the whole week. */
  lemma WorkingDaysAndRestDays(performance: seq<nat>)
    ensures WorkingDays(performance) + Count(performance, (x: nat) => x == 0) == |performance|
  {
    CountComplement(performance, (x: nat) => x != 0, (x: nat) => x == 0);
  }

  predicate IsActive(s: StaffMember) { s.status == "active" }

  /** The footer's active count, over the whole list. */
  function ActiveCount(staff: seq<StaffMember>): (n: nat)
    ensures n <= |staff|
  {
    Count(staff, IsActive)
  }

  /** The footer's active count is the length of the list shown for status `'active'` with no search. */
  lemma ActiveCountIsActiveView(staff: seq<StaffMember>, sortBy: string)
    ensures ActiveCount(staff) == |FilteredAndSorted(staff, "", "all", "active", sortBy)|
  {
    forall x | x in staff ensures Keep("", "all", "active")(x) == IsActive(x) {
      EmptyTermMatches(x.name);
      assert SearchHit("")(x) && RoleHit("all")(x);
      assert StatusHit("active")(x) == IsActive(x);
    }
    FilterSame(staff, Keep("", "all", "active"), IsActive);
  }

  /** On the mock list Sarah Johnson works six days and Lisa Wong three. */
  lemma MockFigures()
    ensures WorkingDays(MockStaff[0].performance) == 6
    ensures WorkingDays(MockStaff[2].performance) == 3
  {
  }

  /** Three of the four mock staff are active; Lisa Wong is on leave. */
  lemma MockActiveCount()
    ensures ActiveCount(MockStaff) == 3
  {
    var m := MockStaff;
    assert IsActive(m[0]) && IsActive(m[1]) && !IsActive(m[2]) && IsActive(m[3]);
    assert Filter(m[4..], IsActive) == [];
    assert |Filter(m[3..], IsActive)| == 1;
    assert |Filter(m[2..], IsActive)| == 1;
    assert |Filter(m[1..], IsActive)| == 2;
  }
}
