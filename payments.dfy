/**
 * The payments ledger (src/pages/GymPayments.jsx): member fees and staff payouts,
 * filtered by name, status, type and a date window, sorted by name, amount or date,
 * summed into totals and written out as CSV text.
 */
module GymPayments {
  import opened Wrappers
  import opened Strings
  import opened Numbers
  import opened ListView
  import opened IsoDates

  /** A member's payment carries the plan, a staff payout the role. */
  datatype Party = MemberOf(plan: string) | StaffAs(role: string)

  datatype Payment = Payment(
    id: nat, name: string, party: Party, amount: nat, date: string, status: string, payMethod: string)

  const MockPayments: seq<Payment> := [
    Payment(1, "Sarah Johnson", MemberOf("Premium"), 120, "2024-08-20", "paid", "Card"),
    Payment(2, "Mike Chen", MemberOf("Basic"), 60, "2024-08-18", "paid", "PayPal"),
    Payment(3, "Lisa Wong", MemberOf("Premium"), 120, "2024-08-15", "paid", "Card"),
    Payment(4, "Emma Thompson", MemberOf("Premium"), 120, "2024-08-05", "paid", "Card"),
    Payment(5, "David Kim", MemberOf("Basic"), 60, "2024-07-28", "failed", "Card"),
    Payment(6, "Alex Rivera", StaffAs("Strength Coach"), 800, "2024-08-15", "paid", "Bank Transfer"),
    Payment(7, "Sarah Johnson", StaffAs("Lead Trainer"), 950, "2024-08-15", "paid", "Bank Transfer"),
    Payment(8, "Mike Chen", StaffAs("HIIT Coach"), 700, "2024-08-15", "paid", "Bank Transfer"),
    Payment(9, "Lisa Wong", StaffAs("Yoga Instructor"), 750, "2024-08-15", "pending", "Bank Transfer")
  ]

  /** `p.type`. */
  function TypeOf(p: Payment): string {
    if p.party.MemberOf? then "member" else "staff"
  }

  /**
   * What the page reads from the clock: the current month (1 to 12) and the first
   * `YYYY-MM-DD` date whose start lies no earlier than seven days before now.
   */
  datatype Clock = Clock(month: nat, weekStart: string)

  /** `matchesSearch && matchesStatus && matchesType`. */
  function Keep(term: string, status: string, kind: string): Payment -> bool {
    (p: Payment) => MatchesTerm(p.name, term) && (status == "all" || p.status == status)
                    && (kind == "all" || TypeOf(p) == kind)
  }

  /** `new Date(p.date) >= lastWeek`; a date `Date` cannot read compares false. */
  function InWeek(clock: Clock): Payment -> bool {
    (p: Payment) => IsIsoDate(p.date) && LexLe(clock.weekStart, p.date)
  }

  /** `new Date(p.date).getMonth() === now.getMonth()`: the month alone, whatever the year. */
  function InMonth(clock: Clock): Payment -> bool {
    (p: Payment) => MonthOf(p.date) == Some(clock.month)
  }

  /** The date window of the `filter` setting; any other setting restricts nothing. */
  function InWindow(window: string, clock: Clock): Payment -> bool {
    (p: Payment) =>
      if window == "this-week" then InWeek(clock)(p)
      else if window == "this-month" then InMonth(clock)(p)
      else true
  }

  /** Everything a payment must satisfy to be listed. */
  function Shown(window: string, clock: Clock, term: string, status: string, kind: string): Payment -> bool {
    (p: Payment) => Keep(term, status, kind)(p) && InWindow(window, clock)(p)
  }

  function NameOf(p: Payment): string { p.name }
  function AmountOf(p: Payment): real { p.amount as real }
  function DateOf(p: Payment): string { p.date }

  /** Name ascending, amount largest first, date newest first, otherwise the input order. */
  function Order(sortBy: string): Comparator<Payment> {
    if sortBy == "name" then ByText(NameOf)
    else if sortBy == "amount" then ByNumberDesc(AmountOf)
    else if sortBy == "date" then ByTextDesc(DateOf)
    else KeepOrder
  }

  /** The matching filter, then the date window unless it is `'all'`, before the sort. */
  function Windowed(payments: seq<Payment>, window: string, clock: Clock, term: string, status: string, kind: string): seq<Payment> {
    var result := Filter(payments, Keep(term, status, kind));
    if window == "this-week" then Filter(result, InWeek(clock))
    else if window == "this-month" then Filter(result, InMonth(clock))
    else result
  }

  /** The two filter steps keep what the one conjunction `Shown` keeps. */
  lemma WindowedIsShown(payments: seq<Payment>, window: string, clock: Clock, term: string, status: string, kind: string)
    ensures Windowed(payments, window, clock, term, status, kind) == Filter(payments, Shown(window, clock, term, status, kind))
  {
    var keep, shown := Keep(term, status, kind), Shown(window, clock, term, status, kind);
    if window == "this-week" {
      FilterFilter(payments, keep, InWeek(clock), shown);
    } else if window == "this-month" {
      FilterFilter(payments, keep, InMonth(clock), shown);
    } else {
      FilterSame(payments, keep, shown);
    }
  }

  /**
   * `filteredAndSortedPayments`: exactly the payments that match and fall in the window,
   * each as often as in the input, in the key's order.
   */
  function FilteredAndSorted(payments: seq<Payment>, window: string, clock: Clock, term: string,
                             status: string, kind: string, sortBy: string): (r: seq<Payment>)
    ensures |r| <= |payments| && Sorted(Order(sortBy), r)
    ensures forall p :: p in r <==> p in payments && Keep(term, status, kind)(p) && InWindow(window, clock)(p)
    ensures forall p :: multiset(r)[p] == if Shown(window, clock, term, status, kind)(p) then multiset(payments)[p] else 0
  {
    WindowedIsShown(payments, window, clock, term, status, kind);
    var r := SortBy(Order(sortBy), Windowed(payments, window, clock, term, status, kind));
    assert r == Project(payments, Shown(window, clock, term, status, kind), Order(sortBy));
    r
  }

  /** What each sort key means for the listed payments. */
  lemma SortedByKey(payments: seq<Payment>, window: string, clock: Clock, term: string, status: string, kind: string, sortBy: string)
    ensures var r := FilteredAndSorted(payments, window, clock, term, status, kind, sortBy);
      && (sortBy == "name" ==> forall i, j :: 0 <= i < j < |r| ==> LexLe(r[i].name, r[j].name))
      && (sortBy == "amount" ==> forall i, j :: 0 <= i < j < |r| ==> r[j].amount <= r[i].amount)
      && (sortBy == "date" ==> forall i, j :: 0 <= i < j < |r| ==> LexLe(r[j].date, r[i].date))
  {
    var r := FilteredAndSorted(payments, window, clock, term, status, kind, sortBy);
    var c := Order(sortBy);
    if sortBy == "name" {
      forall i, j | 0 <= i < j < |r| ensures LexLe(r[i].name, r[j].name) {
        assert c == ByText(NameOf) && Precedes(c, r[i], r[j]);
      }
    } else if sortBy == "amount" {
      forall i, j | 0 <= i < j < |r| ensures r[j].amount <= r[i].amount {
        assert c == ByNumberDesc(AmountOf) && Precedes(c, r[i], r[j]);
      }
    } else if sortBy == "date" {
      forall i, j | 0 <= i < j < |r| ensures LexLe(r[j].date, r[i].date) {
        assert c == ByTextDesc(DateOf) && Precedes(c, r[i], r[j]);
      }
    }
  }

  /** Sorting by date lists later well-formed dates first. */
  lemma DateNewestFirst(payments: seq<Payment>, window: string, clock: Clock, term: string, status: string, kind: string, i: nat, j: nat)
    requires var r := FilteredAndSorted(payments, window, clock, term, status, kind, "date");
      i < j < |r| && IsIsoDate(r[i].date) && IsIsoDate(r[j].date)
    ensures var r := FilteredAndSorted(payments, window, clock, term, status, kind, "date");
      DayKey(r[j].date) <= DayKey(r[i].date)
  {
    var r := FilteredAndSorted(payments, window, clock, term, status, kind, "date");
    SortedByKey(payments, window, clock, term, status, kind, "date");
    IsoDateOrder(r[j].date, r[i].date);
  }

  /** The week window keeps a well-formed date exactly when it is on or after the week's first day. */
  lemma InWeekByDay(clock: Clock, p: Payment)
    requires IsIsoDate(clock.weekStart) && IsIsoDate(p.date)
    ensures InWeek(clock)(p) <==> DayKey(clock.weekStart) <= DayKey(p.date)
  {
    IsoDateOrder(clock.weekStart, p.date);
  }

  /** An unknown sort key lists the matching payments in the order of the input. */
  lemma UnknownKeyKeepsOrder(payments: seq<Payment>, window: string, clock: Clock, term: string, status: string, kind: string, sortBy: string)
    requires sortBy !in {"name", "amount", "date"}
    ensures FilteredAndSorted(payments, window, clock, term, status, kind, sortBy)
         == Windowed(payments, window, clock, term, status, kind)
  {
    KeepOrderKeeps(Windowed(payments, window, clock, term, status, kind));
  }

  predicate IsMemberPayment(p: Payment) { p.party.MemberOf? }
  predicate IsStaffPayment(p: Payment) { p.party.StaffAs? }
  predicate IsPaidMemberPayment(p: Payment) { p.party.MemberOf? && p.status == "paid" }
  predicate IsPaid(p: Payment) { p.status == "paid" }
  function Amount(p: Payment): int { p.amount }

  datatype Totals = Totals(totalIncome: int, totalPayouts: int, netRevenue: int, paidIncome: int)

  /** `totals`: reduces over the listed payments. */
  function ComputeTotals(shown: seq<Payment>): (t: Totals)
    ensures t.netRevenue == t.totalIncome - t.totalPayouts
    ensures 0 <= t.paidIncome <= t.totalIncome && 0 <= t.totalPayouts
    ensures shown == [] ==> t == Totals(0, 0, 0, 0)
  {
    var members := Filter(shown, IsMemberPayment);
    var income := Sum(members, Amount);
    var payouts := Sum(Filter(shown, IsStaffPayment), Amount);
    var paid := Sum(Filter(shown, IsPaidMemberPayment), Amount);
    PaidIncomeBounded(shown);
    Totals(income, payouts, income - payouts, paid)
  }

  lemma {:induction false} SumNonNegative(s: seq<Payment>)
    ensures Sum(s, Amount) >= 0
    decreases |s|
  {
    if s != [] { SumNonNegative(s[1..]); }
  }

  /** Paid member income is part of member income. */
  lemma PaidIncomeBounded(shown: seq<Payment>)
    ensures 0 <= Sum(Filter(shown, IsPaidMemberPayment), Amount) <= Sum(Filter(shown, IsMemberPayment), Amount)
    ensures 0 <= Sum(Filter(shown, IsStaffPayment), Amount)
  {
    var members := Filter(shown, IsMemberPayment);
    FilterFilter(shown, IsMemberPayment, IsPaid, IsPaidMemberPayment);
    SumFilterLe(members, IsPaid, Amount);
    SumNonNegative(Filter(members, IsPaid));
    SumNonNegative(Filter(shown, IsStaffPayment));
  }

  /** The totals depend on which payments are listed, not on the sort key. */
  lemma TotalsIgnoreOrder(payments: seq<Payment>, window: string, clock: Clock, term: string, status: string, kind: string, sortBy: string)
    ensures ComputeTotals(FilteredAndSorted(payments, window, clock, term, status, kind, sortBy))
         == ComputeTotals(Windowed(payments, window, clock, term, status, kind))
  {
    var w := Windowed(payments, window, clock, term, status, kind);
    var r := FilteredAndSorted(payments, window, clock, term, status, kind, sortBy);
    assert multiset(r) == multiset(w);
    FilterPermutation(r, w, IsMemberPayment);
    SumPermutation(Filter(r, IsMemberPayment), Filter(w, IsMemberPayment), Amount);
    FilterPermutation(r, w, IsStaffPayment);
    SumPermutation(Filter(r, IsStaffPayment), Filter(w, IsStaffPayment), Amount);
    FilterPermutation(r, w, IsPaidMemberPayment);
    SumPermutation(Filter(r, IsPaidMemberPayment), Filter(w, IsPaidMemberPayment), Amount);
  }

  /** The "Paid Members" card: paid member payments in the whole ledger, whatever the filters. */
  function PaidMembers(payments: seq<Payment>): (n: nat)
    ensures n == Count(Filter(payments, IsMemberPayment), IsPaid)
    ensures n <= Count(payments, IsMemberPayment)
  {
    FilterFilter(payments, IsMemberPayment, IsPaid, IsPaidMemberPayment);
    Count(payments, IsPaidMemberPayment)
  }

  predicate IsUnpaid(p: Payment) { p.status != "paid" }

  /** Every member payment is counted on the card or is one that is not paid. */
  lemma PaidMembersAndUnpaid(payments: seq<Payment>)
    ensures PaidMembers(payments) + Count(Filter(payments, IsMemberPayment), IsUnpaid)
         == Count(payments, IsMemberPayment)
  {
    CountComplement(Filter(payments, IsMemberPayment), IsPaid, IsUnpaid);
  }

  const CsvColumns: seq<string> := ["Type", "Name", "Plan/Role", "Amount", "Date", "Status", "Method"]

  /** `headers.join(',')`. */
  const CsvHeader: string := Join(CsvColumns, ",")

  /** The first line of the file splits on its commas into the seven column names. */
  lemma CsvHeaderColumns()
    ensures Split(CsvHeader, ',') == ["Type", "Name", "Plan/Role", "Amount", "Date", "Status", "Method"]
  {
    var c := CsvColumns;
    forall k | 0 <= k < |c| ensures ',' !in c[k] {
      assert c[k] in {"Type", "Name", "Plan/Role", "Amount", "Date", "Status", "Method"};
    }
    SplitJoin(c, ',');
  }

  /** The seven fields of a payment's CSV line; `formatDate` is the page's `toLocaleDateString`. */
  function CsvFields(p: Payment, formatDate: string -> string): (f: seq<string>)
    ensures |f| == 7
    ensures f[0] == (if p.party.MemberOf? then "Member" else "Staff")
    ensures f[1] == p.name && f[3] == "$" + NatToDecimal(p.amount) && f[4] == formatDate(p.date)
    ensures f[2] == (match p.party case MemberOf(plan) => plan case StaffAs(role) => role)
    ensures f[5] == p.status && f[6] == p.payMethod
  {
    [ if p.party.MemberOf? then "Member" else "Staff",
      p.name,
      match p.party case MemberOf(plan) => plan case StaffAs(role) => role,
      "$" + NatToDecimal(p.amount),
      formatDate(p.date),
      p.status,
      p.payMethod ]
  }

  /** `"${field}"`: the field between double quotes, inner quotes left as they are. */
  function Quote(field: string): string {
    "\"" + field + "\""
  }

  function QuoteAll(fields: seq<string>): (q: seq<string>)
    ensures |q| == |fields| && forall k :: 0 <= k < |fields| ==> q[k] == Quote(fields[k])
  {
    seq(|fields|, k requires 0 <= k < |fields| => Quote(fields[k]))
  }

  /** One data line: the quoted fields joined by commas. */
  function CsvRow(p: Payment, formatDate: string -> string): string {
    Join(QuoteAll(CsvFields(p, formatDate)), ",")
  }

  function CsvRows(shown: seq<Payment>, formatDate: string -> string): (rows: seq<string>)
    ensures |rows| == |shown| && forall k :: 0 <= k < |shown| ==> rows[k] == CsvRow(shown[k], formatDate)
  {
    seq(|shown|, k requires 0 <= k < |shown| => CsvRow(shown[k], formatDate))
  }

  /** The text of `exportToCSV` after its `data:` prefix: the header and one line per listed payment, joined by LF. */
  function CsvText(shown: seq<Payment>, formatDate: string -> string): string {
    Join([CsvHeader] + CsvRows(shown, formatDate), "\n")
  }

  lemma HeaderFree()
    ensures '\n' !in CsvHeader
  {
    var columns := CsvColumns;
    assert forall k :: 0 <= k < |columns| ==> '\n' !in columns[k];
    JoinFree(columns, ",", '\n');
  }

  /** No field of the payment's CSV line holds the character `c`. */
  predicate FieldsFree(p: Payment, formatDate: string -> string, c: char) {
    forall k :: 0 <= k < 7 ==> c !in CsvFields(p, formatDate)[k]
  }

  lemma {:induction false} JoinFree(parts: seq<string>, sep: string, c: char)
    requires c !in sep && forall k :: 0 <= k < |parts| ==> c !in parts[k]
    ensures c !in Join(parts, sep)
    decreases |parts|
  {
    if |parts| > 1 { JoinFree(parts[1..], sep, c); }
  }

  /**
   * When no field holds a line break, the CSV text splits into exactly the header and
   * one line per listed payment, in list order, with no trailing empty line.
   */
  lemma CsvLines(shown: seq<Payment>, formatDate: string -> string)
    requires forall p :: p in shown ==> FieldsFree(p, formatDate, '\n')
    ensures Split(CsvText(shown, formatDate), '\n') == [CsvHeader] + CsvRows(shown, formatDate)
  {
    var lines := [CsvHeader] + CsvRows(shown, formatDate);
    LinesFree(shown, formatDate);
    SplitJoin(lines, '\n');
  }

  /** No line of the CSV text holds a line break. */
  lemma LinesFree(shown: seq<Payment>, formatDate: string -> string)
    requires forall p :: p in shown ==> FieldsFree(p, formatDate, '\n')
    ensures forall k :: 0 <= k < |shown| + 1 ==> '\n' !in ([CsvHeader] + CsvRows(shown, formatDate))[k]
  {
    var lines := [CsvHeader] + CsvRows(shown, formatDate);
    forall k | 0 <= k < |lines| ensures '\n' !in lines[k] {
      if k > 0 {
        var p := shown[k - 1];
        assert p in shown;
        assert lines[k] == CsvRow(p, formatDate);
        RowFree(p, formatDate, '\n');
      } else {
        HeaderFree();
      }
    }
  }

  /** Quoting adds only double quotes. */
  lemma QuotedFree(fields: seq<string>, c: char)
    requires c != '"' && forall k :: 0 <= k < |fields| ==> c !in fields[k]
    ensures forall k :: 0 <= k < |fields| ==> c !in QuoteAll(fields)[k]
  {
    forall k | 0 <= k < |fields| ensures c !in QuoteAll(fields)[k] {
      assert QuoteAll(fields)[k] == "\"" + fields[k] + "\"";
    }
  }

  /** A character in no field, other than a quote or a comma, is in no data line. */
  lemma RowFree(p: Payment, formatDate: string -> string, c: char)
    requires FieldsFree(p, formatDate, c) && c != '"' && c != ','
    ensures c !in CsvRow(p, formatDate)
  {
    var fields := CsvFields(p, formatDate);
    QuotedFree(fields, c);
    JoinFree(QuoteAll(fields), ",", c);
  }

  /**
   * When no field holds a comma, a data line splits on commas into the seven fields, each in
   * double quotes: the type label, the name, the plan or role, `$` and the amount, the date,
   * the status and the method.
   */
  lemma CsvRowFields(p: Payment, formatDate: string -> string)
    requires FieldsFree(p, formatDate, ',')
    ensures Split(CsvRow(p, formatDate), ',') == QuoteAll(CsvFields(p, formatDate))
  {
    var q := QuoteAll(CsvFields(p, formatDate));
    forall k | 0 <= k < 7 ensures ',' !in q[k] {
      assert q[k] == "\"" + CsvFields(p, formatDate)[k] + "\"";
    }
    SplitJoin(q, ',');
  }
}
