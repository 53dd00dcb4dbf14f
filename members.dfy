/**
 * The gym's member list (src/pages/Members.jsx): one filter that needs the search,
 * the plan filter and the status filter to hold together, a sort picked by one of
 * five keys, and the footer counts.
 */
module Members {
  import opened Strings
  import opened ListView
  import opened IsoDates

  datatype Member = Member(
    id: nat, name: string, email: string, plan: string, joinDate: string,
    sessionsThisWeek: nat, attendance: nat, progress: nat, status: string)

  const MockMembers: seq<Member> := [
    Member(1, "Sarah Johnson", "sarah.j@email.com", "Premium", "2024-06-15", 3, 94, 75, "active"),
    Member(2, "Mike Chen", "mike.c@email.com", "Basic", "2024-07-01", 2, 82, 40, "active"),
    Member(3, "Lisa Wong", "lisa.w@email.com", "Elite", "2024-05-20", 4, 96, 90, "active"),
    Member(4, "Alex Rivera", "alex.r@email.com", "Premium", "2024-07-10", 1, 68, 20, "inactive"),
    Member(5, "Emma Thompson", "emma.t@email.com", "Premium", "2024-06-05", 3, 90, 65, "active"),
    Member(6, "David Kim", "david.k@email.com", "Basic", "2024-08-01", 0, 10, 10, "inactive")
  ]

  /** `matchesSearch`: the name, the e-mail or the plan contains the term, ignoring case. */
  function SearchHit(term: string): Member -> bool {
    (m: Member) => MatchesTerm(m.name, term) || MatchesTerm(m.email, term) || MatchesTerm(m.plan, term)
  }

  /** `matchesPlan`. */
  function PlanHit(plan: string): Member -> bool {
    (m: Member) => plan == "all" || m.plan == plan
  }

  /** `matchesStatus`. */
  function StatusHit(status: string): Member -> bool {
    (m: Member) => status == "all" || m.status == status
  }

  /** The page's filter callback: `matchesSearch && matchesPlan && matchesStatus`. */
  function Keep(term: string, plan: string, status: string): Member -> bool {
    (m: Member) => SearchHit(term)(m) && PlanHit(plan)(m) && StatusHit(status)(m)
  }

  function NameOf(m: Member): string { m.name }
  function PlanOf(m: Member): string { m.plan }
  function AttendanceOf(m: Member): real { m.attendance as real }
  function JoinDateOf(m: Member): string { m.joinDate }
  function SessionsOf(m: Member): real { m.sessionsThisWeek as real }

  /**
   * The comparator of the `switch (sortBy)`; `joinDate` compares the `YYYY-MM-DD` text,
   * newest first, which `IsoDates.IsoDateOrder` shows is the order of the dates in time.
   */
  function Order(sortBy: string): Comparator<Member> {
    if sortBy == "name" then ByText(NameOf)
    else if sortBy == "plan" then ByText(PlanOf)
    else if sortBy == "attendance" then ByNumberDesc(AttendanceOf)
    else if sortBy == "joinDate" then ByTextDesc(JoinDateOf)
    else if sortBy == "sessions" then ByNumberDesc(SessionsOf)
    else KeepOrder
  }

  /**
   * `filteredAndSortedMembers`: exactly the members the three tests accept, each as often
   * as in the input, in the order of the key's comparator.
   */
  function FilteredAndSorted(members: seq<Member>, term: string, plan: string, status: string, sortBy: string): (r: seq<Member>)
    ensures |r| <= |members| && Sorted(Order(sortBy), r)
    ensures forall m :: m in r <==> m in members && SearchHit(term)(m) && PlanHit(plan)(m) && StatusHit(status)(m)
    ensures forall m :: multiset(r)[m] == if Keep(term, plan, status)(m) then multiset(members)[m] else 0
  {
    Project(members, Keep(term, plan, status), Order(sortBy))
  }

  /** What each sort key means for neighbours in the shown list. */
  lemma SortedByKey(members: seq<Member>, term: string, plan: string, status: string, sortBy: string)
    ensures var r := FilteredAndSorted(members, term, plan, status, sortBy);
      && (sortBy == "name" ==> forall i, j :: 0 <= i < j < |r| ==> LexLe(r[i].name, r[j].name))
      && (sortBy == "plan" ==> forall i, j :: 0 <= i < j < |r| ==> LexLe(r[i].plan, r[j].plan))
      && (sortBy == "attendance" ==> forall i, j :: 0 <= i < j < |r| ==> r[j].attendance <= r[i].attendance)
      && (sortBy == "joinDate" ==> forall i, j :: 0 <= i < j < |r| ==> LexLe(r[j].joinDate, r[i].joinDate))
      && (sortBy == "sessions" ==> forall i, j :: 0 <= i < j < |r| ==> r[j].sessionsThisWeek <= r[i].sessionsThisWeek)
  {
    var r := FilteredAndSorted(members, term, plan, status, sortBy);
    if sortBy == "name" {
      assert Order(sortBy) == ByText(NameOf);
    } else if sortBy == "plan" {
      assert Order(sortBy) == ByText(PlanOf);
    } else if sortBy == "attendance" {
      assert Order(sortBy) == ByNumberDesc(AttendanceOf);
    } else if sortBy == "joinDate" {
      assert Order(sortBy) == ByTextDesc(JoinDateOf);
    } else if sortBy == "sessions" {
      assert Order(sortBy) == ByNumberDesc(SessionsOf);
    }
  }

  /** Sorting by join date puts every member with a well-formed date after the ones who joined later. */
  lemma JoinDateNewestFirst(members: seq<Member>, term: string, plan: string, status: string, i: nat, j: nat)
    requires var r := FilteredAndSorted(members, term, plan, status, "joinDate");
      i < j < |r| && IsIsoDate(r[i].joinDate) && IsIsoDate(r[j].joinDate)
    ensures var r := FilteredAndSorted(members, term, plan, status, "joinDate");
      DayKey(r[j].joinDate) <= DayKey(r[i].joinDate)
  {
    var r := FilteredAndSorted(members, term, plan, status, "joinDate");
    SortedByKey(members, term, plan, status, "joinDate");
    IsoDateOrder(r[j].joinDate, r[i].joinDate);
  }

  /** The three tests applied one after another, in either order, keep what the single filter keeps. */
  lemma FilterOrderIrrelevant(members: seq<Member>, term: string, plan: string, status: string)
    ensures Filter(Filter(Filter(members, SearchHit(term)), PlanHit(plan)), StatusHit(status))
         == Filter(members, Keep(term, plan, status))
    ensures Filter(Filter(Filter(members, StatusHit(status)), PlanHit(plan)), SearchHit(term))
         == Filter(members, Keep(term, plan, status))
  {
    var sp := (m: Member) => SearchHit(term)(m) && PlanHit(plan)(m);
    var ps := (m: Member) => StatusHit(status)(m) && PlanHit(plan)(m);
    FilterFilter(members, SearchHit(term), PlanHit(plan), sp);
    FilterFilter(Filter(members, sp), StatusHit(status), StatusHit(status), StatusHit(status));
    FilterFilter(members, sp, StatusHit(status), Keep(term, plan, status));
    FilterFilter(members, StatusHit(status), PlanHit(plan), ps);
    FilterFilter(members, ps, SearchHit(term), Keep(term, plan, status));
  }

  /** An unknown sort key keeps the filtered members in the order of the input. */
  lemma UnknownKeyKeepsOrder(members: seq<Member>, term: string, plan: string, status: string, sortBy: string)
    requires sortBy !in {"name", "plan", "attendance", "joinDate", "sessions"}
    ensures FilteredAndSorted(members, term, plan, status, sortBy) == Filter(members, Keep(term, plan, status))
  {
    ProjectKeepOrder(members, Keep(term, plan, status));
  }

  /** A list without repeated members shows no member twice. */
  lemma NoMemberTwice(members: seq<Member>, term: string, plan: string, status: string, sortBy: string)
    requires Distinct(members)
    ensures Distinct(FilteredAndSorted(members, term, plan, status, sortBy))
  {
    ProjectDistinct(members, Keep(term, plan, status), Order(sortBy));
  }

  predicate IsActive(m: Member) { m.status == "active" }

  /** The footer's active count, over the whole list. */
  function ActiveCount(members: seq<Member>): (n: nat)
    ensures n <= |members|
  {
    Count(members, IsActive)
  }

  /** The footer's active count is the length of the list shown for status `'active'` with no search. */
  lemma ActiveCountIsActiveView(members: seq<Member>, sortBy: string)
    ensures ActiveCount(members) == |FilteredAndSorted(members, "", "all", "active", sortBy)|
  {
    forall x | x in members ensures Keep("", "all", "active")(x) == IsActive(x) {
      EmptyTermMatches(x.name);
      assert SearchHit("")(x) && PlanHit("all")(x);
      assert StatusHit("active")(x) == IsActive(x);
    }
    FilterSame(members, Keep("", "all", "active"), IsActive);
  }

  /** The mock list has six distinct members. */
  lemma MockFooter()
    ensures |MockMembers| == 6 && Distinct(MockMembers)
  {
  }

  /** Four of the six mock members are active. */
  lemma MockActiveCount()
    ensures ActiveCount(MockMembers) == 4
  {
    var m := MockMembers;
    assert IsActive(m[0]) && IsActive(m[1]) && IsActive(m[2]) && !IsActive(m[3]) && IsActive(m[4]) && !IsActive(m[5]);
    assert Filter(m[6..], IsActive) == [];
    assert |Filter(m[4..], IsActive)| == 1;
    assert |Filter(m[3..], IsActive)| == 1;
    assert |Filter(m[2..], IsActive)| == 2;
    assert |Filter(m[1..], IsActive)| == 3;
  }
}
