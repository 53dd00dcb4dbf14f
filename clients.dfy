/**
 * The trainer's client list (src/pages/Clients.jsx): a search over name and e-mail,
 * an optional plan filter, a sort picked by key, and the footer counts.
 */
module Clients {
  import opened Strings
  import opened ListView

  datatype Client = Client(
    id: nat, name: string, email: string, plan: string, joinDate: string,
    sessionsThisWeek: nat, progress: nat, status: string)

  const MockClients: seq<Client> := [
    Client(1, "Sarah Johnson", "sarah.j@email.com", "Premium", "2024-06-15", 3, 75, "active"),
    Client(2, "Mike Chen", "mike.c@email.com", "Basic", "2024-07-01", 2, 40, "active"),
    Client(3, "Lisa Wong", "lisa.w@email.com", "Premium", "2024-05-20", 4, 90, "active"),
    Client(4, "Alex Rivera", "alex.r@email.com", "Elite", "2024-07-10", 1, 20, "inactive"),
    Client(5, "Emma Thompson", "emma.t@email.com", "Premium", "2024-06-05", 3, 65, "active"),
    Client(6, "David Kim", "david.k@email.com", "Basic", "2024-08-01", 0, 10, "inactive")
  ]

  /** The search step: the name or the e-mail contains the term, ignoring case. */
  function SearchHit(term: string): Client -> bool {
    (c: Client) => MatchesTerm(c.name, term) || MatchesTerm(c.email, term)
  }

  /** The plan step, applied only when the plan filter is not `'all'`. */
  function PlanIs(plan: string): Client -> bool {
    (c: Client) => c.plan == plan
  }

  /** Both filters together: what a client must satisfy to be shown. */
  function Visible(term: string, plan: string): Client -> bool {
    (c: Client) => SearchHit(term)(c) && (plan == "all" || c.plan == plan)
  }

  function NameOf(c: Client): string { c.name }
  function ProgressOf(c: Client): real { c.progress as real }
  function SessionsOf(c: Client): real { c.sessionsThisWeek as real }

  /** The comparator for a sort key; any other key returns 0 for every pair. */
  function Order(sortBy: string): Comparator<Client> {
    if sortBy == "name" then ByText(NameOf)
    else if sortBy == "progress" then ByNumberDesc(ProgressOf)
    else if sortBy == "sessions" then ByNumberDesc(SessionsOf)
    else KeepOrder
  }

  /**
   * `filteredAndSortedClients`: the search filter, then the plan filter unless it is
   * `'all'`, then the sort. The result is exactly the clients both filters accept, each
   * as often as in the input, in the order the key asks for.
   */
  function FilteredAndSorted(clients: seq<Client>, term: string, plan: string, sortBy: string): (r: seq<Client>)
    ensures |r| <= |clients|
    ensures forall c :: c in r <==> c in clients && SearchHit(term)(c) && (plan == "all" || c.plan == plan)
    ensures forall c :: multiset(r)[c] == if Visible(term, plan)(c) then multiset(clients)[c] else 0
    ensures sortBy == "name" ==> forall i, j :: 0 <= i < j < |r| ==> LexLe(r[i].name, r[j].name)
    ensures sortBy == "progress" ==> forall i, j :: 0 <= i < j < |r| ==> r[j].progress <= r[i].progress
    ensures sortBy == "sessions" ==> forall i, j :: 0 <= i < j < |r| ==> r[j].sessionsThisWeek <= r[i].sessionsThisWeek
  {
    var searched := Filter(clients, SearchHit(term));
    var planned := if plan != "all" then Filter(searched, PlanIs(plan)) else searched;
    var r := SortBy(Order(sortBy), planned);
    assert r == Project(clients, Visible(term, plan), Order(sortBy)) by { FilteredIsVisible(clients, term, plan); }
    KeyOrder(r, sortBy);
    r
  }

  /** A list sorted by the comparator of a key is ordered by that key. */
  lemma KeyOrder(r: seq<Client>, sortBy: string)
    requires Sorted(Order(sortBy), r)
    ensures sortBy == "name" ==> forall i, j :: 0 <= i < j < |r| ==> LexLe(r[i].name, r[j].name)
    ensures sortBy == "progress" ==> forall i, j :: 0 <= i < j < |r| ==> r[j].progress <= r[i].progress
    ensures sortBy == "sessions" ==> forall i, j :: 0 <= i < j < |r| ==> r[j].sessionsThisWeek <= r[i].sessionsThisWeek
  {
    var c := Order(sortBy);
    if sortBy == "progress" {
      assert c == ByNumberDesc(ProgressOf);
    } else if sortBy == "sessions" {
      assert c == ByNumberDesc(SessionsOf);
    }
  }

  /** The two filter steps in a row keep the same clients as the one conjunction `Visible`. */
  lemma FilteredIsVisible(clients: seq<Client>, term: string, plan: string)
    ensures (if plan != "all" then Filter(Filter(clients, SearchHit(term)), PlanIs(plan))
             else Filter(clients, SearchHit(term))) == Filter(clients, Visible(term, plan))
  {
    if plan != "all" {
      FilterFilter(clients, SearchHit(term), PlanIs(plan), Visible(term, plan));
    } else {
      FilterSame(clients, SearchHit(term), Visible(term, plan));
    }
  }

  /** The page's list is the generic projection with `Visible` and the key's comparator. */
  lemma FilteredAndSortedIsProject(clients: seq<Client>, term: string, plan: string, sortBy: string)
    ensures FilteredAndSorted(clients, term, plan, sortBy) == Project(clients, Visible(term, plan), Order(sortBy))
  {
    FilteredIsVisible(clients, term, plan);
  }

  /** An unknown sort key keeps the filtered clients in the order of the input. */
  lemma UnknownKeyKeepsOrder(clients: seq<Client>, term: string, plan: string, sortBy: string)
    requires sortBy != "name" && sortBy != "progress" && sortBy != "sessions"
    ensures FilteredAndSorted(clients, term, plan, sortBy) == Filter(clients, Visible(term, plan))
  {
    FilteredAndSortedIsProject(clients, term, plan, sortBy);
    ProjectKeepOrder(clients, Visible(term, plan));
  }

  /** An empty search with plan `'all'` shows every client. */
  lemma EmptySearchShowsAll(clients: seq<Client>, sortBy: string)
    ensures multiset(FilteredAndSorted(clients, "", "all", sortBy)) == multiset(clients)
  {
    forall c ensures Visible("", "all")(c) {
      EmptyTermMatches(c.name);
      assert SearchHit("")(c);
    }
    var r := FilteredAndSorted(clients, "", "all", sortBy);
    assert forall c :: multiset(r)[c] == multiset(clients)[c];
  }

  /** The footer's active count, taken over the whole list whatever the filters are. */
  function ActiveCount(clients: seq<Client>): (n: nat)
    ensures n <= |clients|
  {
    Count(clients, IsActive)
  }

  predicate IsActive(c: Client) { c.status == "active" }

  /** Every client is counted either as active or as not active. */
  lemma ActiveAndOthers(clients: seq<Client>)
    ensures ActiveCount(clients) + Count(clients, (c: Client) => c.status != "active") == |clients|
  {
    CountComplement(clients, IsActive, (c: Client) => c.status != "active");
  }

  /** An empty search keeps the whole mock list. */
  lemma MockSearchAll()
    ensures Filter(MockClients, SearchHit("")) == MockClients
  {
    forall x | x in MockClients ensures SearchHit("")(x) { EmptyTermMatches(x.name); }
    FilterAll(MockClients, SearchHit(""));
  }

  /** The Premium clients of the mock list: Sarah Johnson, Lisa Wong and Emma Thompson. */
  lemma MockPremium()
    ensures Filter(MockClients, PlanIs("Premium")) == [MockClients[0], MockClients[2], MockClients[4]]
  {
    var m, p := MockClients, PlanIs("Premium");
    assert p(m[0]) && !p(m[1]) && p(m[2]) && !p(m[3]) && p(m[4]) && !p(m[5]);
    assert Filter(m[6..], p) == [];
    assert Filter(m[4..], p) == [m[4]];
    assert Filter(m[3..], p) == [m[4]];
    assert Filter(m[2..], p) == [m[2], m[4]];
    assert Filter(m[1..], p) == [m[2], m[4]];
  }

  /** Three clients whose progress is all different come out largest progress first. */
  lemma SortThreeByProgress(a: Client, b: Client, d: Client)
    requires d.progress <= a.progress < b.progress
    ensures SortBy(ByNumberDesc(ProgressOf), [a, b, d]) == [b, a, d]
  {
    var c := ByNumberDesc(ProgressOf);
    SortCons(c, d, []);
    InsertFront(c, d, []);
    assert [d] + [] == [d];
    SortCons(c, b, [d]);
    InsertFront(c, b, [d]);
    assert [b] + [d] == [b, d];
    SortCons(c, a, [b, d]);
    assert [a] + [b, d] == [a, b, d];
    InsertPast(c, a, b, [d]);
    InsertFront(c, a, [d]);
  }

  /** No search, plan `'Premium'`, sort by progress: Lisa Wong (90), Sarah Johnson (75), Emma Thompson (65). */
  lemma MockPremiumByProgress()
    ensures FilteredAndSorted(MockClients, "", "Premium", "progress") == [MockClients[2], MockClients[0], MockClients[4]]
  {
    var m := MockClients;
    MockSearchAll();
    MockPremium();
    assert Order("progress") == ByNumberDesc(ProgressOf);
    SortThreeByProgress(m[0], m[2], m[4]);
  }
}
