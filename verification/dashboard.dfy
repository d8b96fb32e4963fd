/**
 * The lead list of `src/components/CRMDashboard.tsx`: the incremental
 * merge that an auto-refresh performs against the previous snapshot, the
 * summary cards, the search / status filter and column sort, and the
 * pagination controls. The component's state is the `Dashboard` class; its
 * React effect that re-filters whenever the leads, the search term, the
 * status filter or the sort change is run by every method that changes one
 * of those.
 */
module Dashboard {
  import opened Common
  import opened Text
  import opened Leads
  import opened Sorting

  // ---------------------------------------------------------------------
  // Content fingerprint

  /** `String(lead.value || '')`: zero is falsy and prints as the empty string. */
  function ValueText(v: int): (r: string)
    ensures r == "" <==> v == 0
  {
    if v == 0 then "" else IntText(v)
  }

  /** The eight compared fields, in the order `getLeadContentHash` lists them. */
  function FingerprintFields(l: Lead): seq<string>
  {
    [l.name, l.email, l.phone, l.company, l.status, ValueText(l.value), l.assignedTo, l.lastActivity]
  }

  /** `parts.join('|')` */
  function JoinBar(parts: seq<string>): string
  {
    if parts == [] then ""
    else if |parts| == 1 then parts[0]
    else parts[0] + "|" + JoinBar(parts[1..])
  }

  /** `getLeadContentHash` */
  function Fingerprint(l: Lead): string
  {
    JoinBar(FingerprintFields(l))
  }

  predicate NoBar(s: string)
  {
    forall i :: 0 <= i < |s| ==> s[i] != '|'
  }

  /** Position of the first separator in `s`, or `|s|` when there is none. */
  function BarIndex(s: string): (r: nat)
    ensures r <= |s|
  {
    if s == [] || s[0] == '|' then 0 else 1 + BarIndex(s[1..])
  }

  lemma {:induction false} BarIndexAfter(x: string, rest: string)
    requires NoBar(x)
    ensures BarIndex(x + "|" + rest) == |x|
  {
    if x != [] {
      assert (x + "|" + rest)[1..] == x[1..] + "|" + rest;
      BarIndexAfter(x[1..], rest);
    }
  }

  /** Two strings free of the separator that start two equal joined strings are equal. */
  lemma SplitAtBar(x: string, y: string, rest1: string, rest2: string)
    requires NoBar(x) && NoBar(y)
    requires x + "|" + rest1 == y + "|" + rest2
    ensures x == y && rest1 == rest2
  {
    var s := x + "|" + rest1;
    BarIndexAfter(x, rest1);
    BarIndexAfter(y, rest2);
    assert x == s[..|x|] == y;
    assert rest1 == s[|x| + 1..] == rest2;
  }

  /** Joining is one-to-one on lists of the same length whose parts do not contain the separator. */
  lemma {:induction false} JoinBarInjective(a: seq<string>, b: seq<string>)
    requires |a| == |b|
    requires forall i :: 0 <= i < |a| ==> NoBar(a[i]) && NoBar(b[i])
    requires JoinBar(a) == JoinBar(b)
    ensures a == b
  {
    if |a| >= 2 {
      SplitAtBar(a[0], b[0], JoinBar(a[1..]), JoinBar(b[1..]));
      JoinBarInjective(a[1..], b[1..]);
      assert a == [a[0]] + a[1..] && b == [b[0]] + b[1..];
    }
  }

  /**
   * Leads whose text fields contain no '|' have the same fingerprint
   * exactly when the eight compared fields are equal.
   */
  lemma FingerprintExact(a: Lead, b: Lead)
    requires forall i :: 0 <= i < 8 ==> NoBar(FingerprintFields(a)[i]) && NoBar(FingerprintFields(b)[i])
    ensures Fingerprint(a) == Fingerprint(b) <==>
      && a.name == b.name && a.email == b.email && a.phone == b.phone && a.company == b.company
      && a.status == b.status && a.value == b.value && a.assignedTo == b.assignedTo
      && a.lastActivity == b.lastActivity
  {
    if Fingerprint(a) == Fingerprint(b) {
      JoinBarInjective(FingerprintFields(a), FingerprintFields(b));
      assert ValueText(a.value) == ValueText(b.value);
      if a.value != 0 && b.value != 0 {
        IntTextInjective(a.value, b.value);
      }
    }
  }

  /** With a '|' inside a field, two leads with different names and emails share a fingerprint. */
  lemma FingerprintCollision(a: Lead)
    requires a.name == "a|b" && a.email == "c"
    ensures Fingerprint(a) == Fingerprint(a.(name := "a", email := "b|c"))
    ensures a != a.(name := "a", email := "b|c")
  {
    var b := a.(name := "a", email := "b|c");
    assert FingerprintFields(a)[2..] == FingerprintFields(b)[2..];
    var tail := JoinBar(FingerprintFields(a)[2..]);
    assert JoinBar(FingerprintFields(a)) == "a|b" + "|" + ("c" + "|" + tail) by {
      assert FingerprintFields(a)[1..][1..] == FingerprintFields(a)[2..];
    }
    assert JoinBar(FingerprintFields(b)) == "a" + "|" + ("b|c" + "|" + tail) by {
      assert FingerprintFields(b)[1..][1..] == FingerprintFields(b)[2..];
    }
  }

  // ---------------------------------------------------------------------
  // Incremental merge

  /** `(a, b) => timeB - timeA`: the newest lead first. */
  function NewestFirst(a: Lead, b: Lead): int
  {
    b.createdAt - a.createdAt
  }

  /** A list ordered by `NewestFirst` has non-increasing creation times. */
  lemma NewestFirstSorted(s: seq<Lead>)
    ensures Total(NewestFirst)
    ensures SortedBy(Sort(s, NewestFirst), NewestFirst)
    ensures var r := Sort(s, NewestFirst);
      forall i :: 0 <= i < |r| - 1 ==> r[i].createdAt >= r[i + 1].createdAt
  {
    SortSorted(s, NewestFirst);
  }

  /** Sorting newest first keeps a list free of highlight flags. */
  lemma SortKeepsUnflagged(s: seq<Lead>)
    requires AllUnflagged(s)
    ensures AllUnflagged(Sort(s, NewestFirst))
  {
    SortMembers(s, NewestFirst);
    var r := Sort(s, NewestFirst);
    forall i | 0 <= i < |r| ensures Unflagged(r[i]) {
      assert r[i] in s;
    }
  }

  /** An incoming lead is new when no lead of the previous snapshot has its id. */
  predicate IsNewTo(previous: seq<Lead>, l: Lead)
  {
    l.id !in IndexById(previous)
  }

  function NewTo(previous: seq<Lead>): Lead -> bool
  {
    (l: Lead) => IsNewTo(previous, l)
  }

  /**
   * An incoming lead is modified when its id is known and the fingerprint
   * recorded for that id in the snapshot differs from the one recorded for
   * it in the incoming list (both maps keep the last lead of each id).
   */
  predicate IsModifiedIn(previous: seq<Lead>, incoming: seq<Lead>, l: Lead)
  {
    var prevById, nextById := IndexById(previous), IndexById(incoming);
    l.id in prevById && l.id in nextById && Fingerprint(prevById[l.id]) != Fingerprint(nextById[l.id])
  }

  function ModifiedIn(previous: seq<Lead>, incoming: seq<Lead>): Lead -> bool
  {
    (l: Lead) => IsModifiedIn(previous, incoming, l)
  }

  predicate IsNewFlag(l: Lead) { l.isNew }

  predicate IsModifiedFlag(l: Lead) { l.isModified }

  /** What the loop pushes for one incoming lead. */
  function Classify(previous: seq<Lead>, incoming: seq<Lead>, l: Lead): Lead
  {
    if IsNewTo(previous, l) then l.(isNew := true)
    else if IsModifiedIn(previous, incoming, l) then l.(isModified := true)
    else Cleared(IndexById(previous)[l.id])
  }

  /** What one turn of the merge loop adds, stated on the id maps the loop consults. */
  lemma MergeStep(previous: seq<Lead>, incoming: seq<Lead>, i: int)
    requires 0 <= i < |incoming|
    ensures incoming[i].id in IndexById(incoming)
    ensures var l, prevById, nextById := incoming[i], IndexById(previous), IndexById(incoming);
      var isNew := l.id !in prevById;
      var isModified := l.id in prevById && Fingerprint(prevById[l.id]) != Fingerprint(nextById[l.id]);
      && Count(incoming[..i + 1], NewTo(previous)) == Count(incoming[..i], NewTo(previous)) + (if isNew then 1 else 0)
      && Count(incoming[..i + 1], ModifiedIn(previous, incoming)) ==
           Count(incoming[..i], ModifiedIn(previous, incoming)) + (if isModified then 1 else 0)
      && Classify(previous, incoming, l) ==
           (if isNew then l.(isNew := true) else if isModified then l.(isModified := true) else Cleared(prevById[l.id]))
  {
    assert incoming[i] in incoming;
    CountSnoc(incoming, i, NewTo(previous));
    CountSnoc(incoming, i, ModifiedIn(previous, incoming));
  }

  /** `updatedLeads` after the first `n` turns of the loop. */
  function ClassifiedUpTo(previous: seq<Lead>, incoming: seq<Lead>, n: nat): (r: seq<Lead>)
    requires n <= |incoming|
    ensures |r| == n
  {
    if n == 0 then [] else ClassifiedUpTo(previous, incoming, n - 1) + [Classify(previous, incoming, incoming[n - 1])]
  }

  /** The loop emits one entry per incoming lead, in incoming order. */
  lemma {:induction false} ClassifiedUpToAt(previous: seq<Lead>, incoming: seq<Lead>, n: nat)
    requires n <= |incoming|
    ensures forall j :: 0 <= j < n ==> ClassifiedUpTo(previous, incoming, n)[j] == Classify(previous, incoming, incoming[j])
  {
    if n > 0 {
      ClassifiedUpToAt(previous, incoming, n - 1);
    }
  }

  /** `updatedLeads` before the sort. */
  function Classified(previous: seq<Lead>, incoming: seq<Lead>): (r: seq<Lead>)
    ensures |r| == |incoming|
  {
    ClassifiedUpTo(previous, incoming, |incoming|)
  }

  /** Each incoming lead is classified on its own, at its own position. */
  lemma ClassifiedAt(previous: seq<Lead>, incoming: seq<Lead>)
    ensures forall j :: 0 <= j < |incoming| ==> Classified(previous, incoming)[j] == Classify(previous, incoming, incoming[j])
  {
    ClassifiedUpToAt(previous, incoming, |incoming|);
  }

  /**
   * The merge loop of `fetchAllLeads` (auto-refresh with a non-empty
   * snapshot), followed by the newest-first sort.
   */
  method MergeIncremental(previous: seq<Lead>, incoming: seq<Lead>) returns (merged: seq<Lead>, newCount: nat, modifiedCount: nat)
    ensures merged == Sort(Classified(previous, incoming), NewestFirst)
    ensures |merged| == |incoming|
    ensures newCount == Count(incoming, NewTo(previous))
    ensures modifiedCount == Count(incoming, ModifiedIn(previous, incoming))
    ensures newCount + modifiedCount <= |incoming|
  {
    var currentDataById := IndexById(previous);
    var newDataById := IndexById(incoming);
    var updatedLeads: seq<Lead> := [];
    newCount, modifiedCount := 0, 0;
    for i := 0 to |incoming|
      invariant updatedLeads == ClassifiedUpTo(previous, incoming, i)
      invariant newCount == Count(incoming[..i], NewTo(previous))
      invariant modifiedCount == Count(incoming[..i], ModifiedIn(previous, incoming))
    {
      var newLead := incoming[i];
      MergeStep(previous, incoming, i);
      if newLead.id !in currentDataById {
        updatedLeads := updatedLeads + [newLead.(isNew := true)];
        newCount := newCount + 1;
      } else if Fingerprint(currentDataById[newLead.id]) != Fingerprint(newDataById[newLead.id]) {
        updatedLeads := updatedLeads + [newLead.(isModified := true)];
        modifiedCount := modifiedCount + 1;
      } else {
        updatedLeads := updatedLeads + [Cleared(currentDataById[newLead.id])];
      }
    }
    assert incoming[..|incoming|] == incoming;
    CountDisjoint(incoming, NewTo(previous), ModifiedIn(previous, incoming));
    merged := Sort(updatedLeads, NewestFirst);
  }

  /**
   * How each merged entry is flagged, for an incoming list without flags
   * (as `mapApiLeadToLead` produces it): new exactly when its id is absent
   * from the snapshot, modified exactly when the fingerprints differ, never
   * both; an unchanged lead is the snapshot's record, not the incoming one.
   */
  lemma ClassifiedFlags(previous: seq<Lead>, incoming: seq<Lead>, i: int)
    requires AllUnflagged(incoming)
    requires 0 <= i < |incoming|
    ensures var c, l := Classified(previous, incoming)[i], incoming[i];
      && (c.isNew <==> NewTo(previous)(l))
      && (c.isModified <==> ModifiedIn(previous, incoming)(l))
      && !(c.isNew && c.isModified)
      && c.id == l.id
      && (!NewTo(previous)(l) && !ModifiedIn(previous, incoming)(l) ==>
            c == Cleared(IndexById(previous)[l.id]))
  {
    ClassifiedAt(previous, incoming);
    assert incoming[i] in incoming;
    assert Unflagged(incoming[i]);
  }

  /** Classification never changes a lead's id. */
  lemma ClassifyKeepsId(previous: seq<Lead>, incoming: seq<Lead>, l: Lead)
    ensures Classify(previous, incoming, l).id == l.id
  {
  }

  /** The merged list holds exactly the incoming ids: leads only the snapshot had are dropped. */
  lemma {:induction false} MergedIds(previous: seq<Lead>, incoming: seq<Lead>)
    ensures Ids(Sort(Classified(previous, incoming), NewestFirst)) == Ids(incoming)
  {
    var c := Classified(previous, incoming);
    var merged := Sort(c, NewestFirst);
    SortMembers(c, NewestFirst);
    ClassifiedAt(previous, incoming);
    forall k | k in Ids(merged) ensures k in Ids(incoming) {
      var l :| l in merged && l.id == k;
      var i :| 0 <= i < |c| && c[i] == l;
      ClassifyKeepsId(previous, incoming, incoming[i]);
      assert incoming[i] in incoming;
    }
    forall k | k in Ids(incoming) ensures k in Ids(merged) {
      var l :| l in incoming && l.id == k;
      var i :| 0 <= i < |incoming| && incoming[i] == l;
      ClassifyKeepsId(previous, incoming, incoming[i]);
      assert c[i] in c;
    }
  }

  /** For an unflagged incoming list, the two counters equal the numbers of flagged entries of the merged list. */
  lemma {:induction false} MergedCounts(previous: seq<Lead>, incoming: seq<Lead>)
    requires AllUnflagged(incoming)
    ensures Count(Sort(Classified(previous, incoming), NewestFirst), IsNewFlag) == Count(incoming, NewTo(previous))
    ensures Count(Sort(Classified(previous, incoming), NewestFirst), IsModifiedFlag) == Count(incoming, ModifiedIn(previous, incoming))
  {
    var c := Classified(previous, incoming);
    forall i | 0 <= i < |incoming|
      ensures IsNewFlag(c[i]) == NewTo(previous)(incoming[i])
      ensures IsModifiedFlag(c[i]) == ModifiedIn(previous, incoming)(incoming[i])
    {
      ClassifiedFlags(previous, incoming, i);
    }
    CountPointwise(c, incoming, IsNewFlag, NewTo(previous));
    CountPointwise(c, incoming, IsModifiedFlag, ModifiedIn(previous, incoming));
    SortCount(c, NewestFirst, IsNewFlag);
    SortCount(c, NewestFirst, IsModifiedFlag);
  }

  // ---------------------------------------------------------------------
  // Summary cards

  datatype SummaryData = SummaryData(
    totalLeads: nat,
    newLeads: nat,
    contactedLeads: nat,
    qualifiedLeads: nat,
    totalValue: int,
    conversionRate: nat)

  function StatusIs(status: string): Lead -> bool
  {
    (l: Lead) => l.status == status
  }

  /** `['qualified', 'proposal', 'negotiation', 'won'].includes(lead.status)` */
  predicate Converted(l: Lead)
  {
    l.status in ["qualified", "proposal", "negotiation", "won"]
  }

  /** `leads.reduce((sum, lead) => sum + lead.value, 0)` */
  function TotalValue(leads: seq<Lead>): int
  {
    if leads == [] then 0 else TotalValue(leads[..|leads| - 1]) + leads[|leads| - 1].value
  }

  /** `summaryData`: all zero while the first load has produced nothing. */
  function Summary(leads: seq<Lead>, isInitialLoading: bool): (r: SummaryData)
    ensures r.totalLeads == |leads|
    ensures r.conversionRate <= 100
    ensures leads == [] ==> r == SummaryData(0, 0, 0, 0, 0, 0)
  {
    if isInitialLoading && |leads| == 0 then SummaryData(0, 0, 0, 0, 0, 0)
    else SummaryData(
      |leads|,
      Count(leads, StatusIs("new")),
      Count(leads, StatusIs("contacted")),
      Count(leads, StatusIs("qualified")),
      TotalValue(leads),
      RoundedPercent(Count(leads, Converted), |leads|))
  }

  /** The loading guard changes nothing: an empty list already summarises to zeros. */
  lemma SummaryIgnoresLoading(leads: seq<Lead>)
    ensures Summary(leads, true) == Summary(leads, false)
  {
  }

  /** The three status cards count disjoint groups, so they add up to at most the total. */
  lemma SummaryCardsBounded(leads: seq<Lead>, isInitialLoading: bool)
    ensures var r := Summary(leads, isInitialLoading);
      r.newLeads + r.contactedLeads + r.qualifiedLeads <= r.totalLeads
    ensures var r := Summary(leads, isInitialLoading);
      r.qualifiedLeads <= Count(leads, Converted)
  {
    if !(isInitialLoading && |leads| == 0) {
      var r := Summary(leads, isInitialLoading);
      assert r.newLeads == Count(leads, StatusIs("new"));
      assert r.contactedLeads == Count(leads, StatusIs("contacted"));
      assert r.qualifiedLeads == Count(leads, StatusIs("qualified"));
      CardsDisjoint(leads);
      CountImplies(leads, StatusIs("qualified"), Converted);
    }
  }

  lemma {:induction false} CardsDisjoint(s: seq<Lead>)
    ensures Count(s, StatusIs("new")) + Count(s, StatusIs("contacted")) + Count(s, StatusIs("qualified")) <= |s|
  {
    if s != [] {
      CardsDisjoint(s[1..]);
    }
  }

  lemma {:induction false} CountImplies(s: seq<Lead>, p: Lead -> bool, q: Lead -> bool)
    requires forall x :: p(x) ==> q(x)
    ensures Count(s, p) <= Count(s, q)
  {
    if s != [] {
      CountImplies(s[1..], p, q);
    }
  }

  // ---------------------------------------------------------------------
  // Search, status filter and sort

  datatype SortKey = ByName | ByStatus | ByValue | ByCreatedAt
  datatype Direction = Asc | Desc
  datatype SortConfig = SortConfig(key: SortKey, direction: Direction)

  /** The comparator's three outcomes for a pair that is below, above or level. */
  function Ordered(below: bool, above: bool, direction: Direction): int
  {
    if below then (if direction == Asc then -1 else 1)
    else if above then (if direction == Asc then 1 else -1)
    else 0
  }

  /** The column comparator of the filter effect, for the four sortable columns. */
  function LeadComparator(config: SortConfig): (Lead, Lead) -> int
  {
    (a: Lead, b: Lead) =>
      match config.key
      case ByName => Ordered(StrLess(a.name, b.name), StrLess(b.name, a.name), config.direction)
      case ByStatus => Ordered(StrLess(a.status, b.status), StrLess(b.status, a.status), config.direction)
      case ByValue => Ordered(a.value < b.value, a.value > b.value, config.direction)
      case ByCreatedAt => Ordered(a.createdAt < b.createdAt, a.createdAt > b.createdAt, config.direction)
  }

  lemma LeadComparatorTotal(config: SortConfig)
    ensures Total(LeadComparator(config))
  {
    forall a: Lead, b: Lead
      ensures LeadComparator(config)(a, b) <= 0 || LeadComparator(config)(b, a) <= 0
    {
      StrLessAsymmetric(a.name, b.name);
      StrLessAsymmetric(a.status, b.status);
    }
  }

  /** The six fields the search box looks in; city and source only when present. */
  predicate MatchesSearch(l: Lead, term: string)
  {
    || IncludesIgnoringCase(l.name, term)
    || IncludesIgnoringCase(l.company, term)
    || IncludesIgnoringCase(l.email, term)
    || IncludesIgnoringCase(l.phone, term)
    || (l.extras.city.Some? && l.extras.city.value != "" && IncludesIgnoringCase(l.extras.city.value, term))
    || (l.source != "" && IncludesIgnoringCase(l.source, term))
  }

  function SearchFor(term: string): Lead -> bool
  {
    (l: Lead) => MatchesSearch(l, term)
  }

  /** Whether the filter effect keeps a lead. */
  predicate Kept(l: Lead, searchTerm: string, statusFilter: string)
  {
    (searchTerm == "" || MatchesSearch(l, searchTerm)) && (statusFilter == "all" || l.status == statusFilter)
  }

  /** The two filters, before the sort. */
  function Filtered(leads: seq<Lead>, searchTerm: string, statusFilter: string): (r: seq<Lead>)
    ensures |r| <= |leads|
  {
    var searched := if searchTerm != "" then Filter(leads, SearchFor(searchTerm)) else leads;
    if statusFilter != "all" then Filter(searched, StatusIs(statusFilter)) else searched
  }

  /** A lead survives the two filters exactly when it matches the search and the status. */
  lemma FilteredMembers(leads: seq<Lead>, searchTerm: string, statusFilter: string)
    ensures forall l :: l in Filtered(leads, searchTerm, statusFilter) <==> l in leads && Kept(l, searchTerm, statusFilter)
  {
    var searched := if searchTerm != "" then Filter(leads, SearchFor(searchTerm)) else leads;
    FilterMembers(leads, SearchFor(searchTerm));
    assert forall l :: l in searched <==> l in leads && (searchTerm == "" || MatchesSearch(l, searchTerm));
    FilterMembers(searched, StatusIs(statusFilter));
  }

  /** The filter effect: search when a term is typed, status unless 'all', then the column sort. */
  function FilterAndSort(leads: seq<Lead>, searchTerm: string, statusFilter: string, config: SortConfig): seq<Lead>
  {
    Sort(Filtered(leads, searchTerm, statusFilter), LeadComparator(config))
  }

  /** The effect keeps exactly the leads that pass both filters, and nothing else. */
  lemma FilterAndSortMembers(leads: seq<Lead>, searchTerm: string, statusFilter: string, config: SortConfig)
    ensures var r := FilterAndSort(leads, searchTerm, statusFilter, config);
      && (forall l :: l in r <==> l in leads && Kept(l, searchTerm, statusFilter))
      && |r| <= |leads|
  {
    var kept := Filtered(leads, searchTerm, statusFilter);
    FilteredMembers(leads, searchTerm, statusFilter);
    SortMembers(kept, LeadComparator(config));
  }

  /** The filtered list is ordered by the selected column and direction. */
  lemma FilterAndSortOrdered(leads: seq<Lead>, searchTerm: string, statusFilter: string, config: SortConfig)
    ensures SortedBy(FilterAndSort(leads, searchTerm, statusFilter, config), LeadComparator(config))
  {
    LeadComparatorTotal(config);
    SortSorted(Filtered(leads, searchTerm, statusFilter), LeadComparator(config));
  }

  /** With no search term and status 'all', filtering keeps every lead: only the order changes. */
  lemma NoFilterKeepsAll(leads: seq<Lead>, config: SortConfig)
    ensures multiset(FilterAndSort(leads, "", "all", config)) == multiset(leads)
  {
    SortPermutes(leads, LeadComparator(config));
  }

  // ---------------------------------------------------------------------
  // Pagination

  /** The number of pages: one per started run of `itemsPerPage` leads. */
  function TotalPages(count: nat, itemsPerPage: nat): nat
    requires itemsPerPage >= 1
    decreases count
  {
    if count == 0 then 0
    else if count <= itemsPerPage then 1
    else 1 + TotalPages(count - itemsPerPage, itemsPerPage)
  }

  /** The page count is `Math.ceil(count / itemsPerPage)`, written on integers. */
  lemma {:induction false} TotalPagesIsCeiling(count: nat, itemsPerPage: nat)
    requires itemsPerPage >= 1
    ensures TotalPages(count, itemsPerPage) == (count + itemsPerPage - 1) / itemsPerPage
    decreases count
  {
    var d := itemsPerPage;
    if count == 0 {
      FloorOfRange(d - 1, d, 0);
    } else if count <= d {
      FloorOfRange(count + d - 1, d, 1);
    } else {
      TotalPagesIsCeiling(count - d, d);
      var x := count - 1;
      var q := x / d;
      FloorAtLeast(x, d, q);
      FloorAtLeast(x, d, q + 1);
      assert (q + 1) * d == q * d + d && (q + 2) * d == (q + 1) * d + d;
      FloorOfRange(x + d, d, q + 1);
    }
  }

  /** The pages hold the whole list and no page is empty. */
  lemma {:induction false} TotalPagesBounds(count: nat, itemsPerPage: nat)
    requires itemsPerPage >= 1
    ensures var r := TotalPages(count, itemsPerPage);
      count <= r * itemsPerPage && (r == 0 || (r - 1) * itemsPerPage < count)
    ensures count == 0 <==> TotalPages(count, itemsPerPage) == 0
    decreases count
  {
    if count > itemsPerPage {
      TotalPagesBounds(count - itemsPerPage, itemsPerPage);
      var r := TotalPages(count - itemsPerPage, itemsPerPage);
      assert (r + 1) * itemsPerPage == r * itemsPerPage + itemsPerPage;
    }
  }

  /** `(currentPage - 1) * itemsPerPage`: the position of a page's first row. */
  function PageStart(page: int, itemsPerPage: nat): (r: nat)
    requires page >= 1
  {
    MulNonNegative(page - 1, itemsPerPage);
    (page - 1) * itemsPerPage
  }

  lemma MulNonNegative(a: int, b: int)
    requires a >= 0 && b >= 0
    ensures a * b >= 0
  {
  }

  /** `filteredLeads.slice(startIndex, endIndex)` for a page counted from 1. */
  function PageSlice(s: seq<Lead>, page: int, itemsPerPage: nat): (r: seq<Lead>)
    requires page >= 1 && itemsPerPage >= 1
    ensures |r| <= itemsPerPage
    ensures forall j :: 0 <= j < |r| ==> PageStart(page, itemsPerPage) + j < |s| && r[j] == s[PageStart(page, itemsPerPage) + j]
  {
    var start := PageStart(page, itemsPerPage);
    s[Min(start, |s|)..Min(start + itemsPerPage, |s|)]
  }

  /** Every lead of the filtered list is shown on exactly the page its position falls in, and that page exists. */
  lemma PageOfIndex(s: seq<Lead>, itemsPerPage: nat, i: int)
    requires itemsPerPage >= 1 && 0 <= i < |s|
    ensures var page := i / itemsPerPage + 1;
      && 1 <= page <= TotalPages(|s|, itemsPerPage)
      && i % itemsPerPage < |PageSlice(s, page, itemsPerPage)|
      && PageSlice(s, page, itemsPerPage)[i % itemsPerPage] == s[i]
  {
    var q, m := i / itemsPerPage, i % itemsPerPage;
    assert i == q * itemsPerPage + m;
    assert (q + 1 - 1) * itemsPerPage == q * itemsPerPage;
    assert (q + 1) * itemsPerPage == q * itemsPerPage + itemsPerPage;
    FloorAtLeast(|s| + itemsPerPage - 1, itemsPerPage, q + 1);
    TotalPagesIsCeiling(|s|, itemsPerPage);
  }

  /** `goToPage`: `Math.max(1, Math.min(page, totalPages))` */
  function ClampPage(page: int, totalPages: nat): (r: int)
    ensures 1 <= r <= Max(1, totalPages)
    ensures 1 <= page <= totalPages ==> r == page
    ensures page > totalPages ==> r == Max(1, totalPages)
  {
    Max(1, Min(page, totalPages))
  }

  /** The numbered buttons: at most five consecutive pages around the current one. */
  function PageWindow(currentPage: int, totalPages: nat): (r: seq<int>)
    ensures |r| == Min(5, totalPages)
    ensures forall i :: 0 <= i < |r| - 1 ==> r[i + 1] == r[i] + 1
    ensures forall i :: 0 <= i < |r| ==> 1 <= r[i] <= totalPages
    ensures 1 <= currentPage <= totalPages ==> currentPage in r
  {
    var n := Min(5, totalPages);
    if totalPages <= 5 || currentPage <= 3 then
      var r := seq(n, i => i + 1);
      assert 1 <= currentPage <= n ==> r[currentPage - 1] == currentPage;
      r
    else if currentPage >= totalPages - 2 then
      var r := seq(n, i => totalPages - 4 + i);
      assert currentPage <= totalPages ==> r[currentPage - (totalPages - 4)] == currentPage;
      r
    else
      var r := seq(n, i => currentPage - 2 + i);
      assert r[2] == currentPage;
      r
  }

  // ---------------------------------------------------------------------
  // Component state

  datatype ConnectionStatus = Connected | Disconnected | Syncing

  class Dashboard {
    var leads: seq<Lead>
    var filteredLeads: seq<Lead>
    var searchTerm: string
    var statusFilter: string
    var sortConfig: SortConfig
    var isInitialLoading: bool
    var isAutoRefreshing: bool
    var error: Option<string>
    var connectionStatus: ConnectionStatus
    var newRecordsCount: nat
    var modifiedRecordsCount: nat
    var currentPage: int
    var itemsPerPage: nat
    /** The `lastFetchedData` ref: the snapshot the next auto-refresh compares against. */
    var lastFetchedData: seq<Lead>

    /** The filtered list is always the effect's result, and the current page is one the controls can reach. */
    ghost predicate Valid()
      reads this`leads, this`filteredLeads, this`searchTerm, this`statusFilter, this`sortConfig
      reads this`currentPage, this`itemsPerPage
    {
      && filteredLeads == FilterAndSort(leads, searchTerm, statusFilter, sortConfig)
      && itemsPerPage >= 1
      && 1 <= currentPage <= Max(1, TotalPages(|filteredLeads|, itemsPerPage))
    }

    constructor ()
      ensures Valid()
      ensures leads == [] && lastFetchedData == [] && isInitialLoading
      ensures sortConfig == SortConfig(ByCreatedAt, Desc) && statusFilter == "all" && searchTerm == ""
      ensures currentPage == 1 && itemsPerPage == 25
    {
      leads := [];
      filteredLeads := [];
      searchTerm := "";
      statusFilter := "all";
      sortConfig := SortConfig(ByCreatedAt, Desc);
      isInitialLoading := true;
      isAutoRefreshing := false;
      error := None;
      connectionStatus := Connected;
      newRecordsCount := 0;
      modifiedRecordsCount := 0;
      currentPage := 1;
      itemsPerPage := 25;
      lastFetchedData := [];
    }

    /** The filter effect: recompute the filtered list and go back to the first page. */
    method ApplyFilters()
      modifies this`filteredLeads, this`currentPage
      requires itemsPerPage >= 1
      ensures Valid()
      ensures filteredLeads == FilterAndSort(leads, searchTerm, statusFilter, sortConfig)
      ensures currentPage == 1
    {
      filteredLeads := FilterAndSort(leads, searchTerm, statusFilter, sortConfig);
      currentPage := 1;
    }

    /**
     * `fetchAllLeads(isAutoRefresh)` once `fetchLeads` has settled with
     * `fetched`: an auto-refresh over a non-empty snapshot merges, anything
     * else replaces the list; a failure keeps the list and reports the error.
     */
    method FetchAllLeads(isAutoRefresh: bool, fetched: Result<seq<Lead>>)
      modifies this`leads, this`filteredLeads, this`lastFetchedData, this`currentPage
      modifies this`newRecordsCount, this`modifiedRecordsCount
      modifies this`isInitialLoading, this`isAutoRefreshing, this`error, this`connectionStatus
      requires Valid()
      ensures Valid()
      ensures !isInitialLoading && !isAutoRefreshing
      ensures fetched.Ok? ==> error == None && connectionStatus == Connected && currentPage == 1
      ensures fetched.Ok? && isAutoRefresh && |old(lastFetchedData)| > 0 ==>
        && leads == Sort(Classified(old(lastFetchedData), fetched.value), NewestFirst)
        && lastFetchedData == ClearAll(leads)
        && newRecordsCount == Count(fetched.value, NewTo(old(lastFetchedData)))
        && modifiedRecordsCount == Count(fetched.value, ModifiedIn(old(lastFetchedData), fetched.value))
      ensures fetched.Ok? && !(isAutoRefresh && |old(lastFetchedData)| > 0) ==>
        && leads == Sort(fetched.value, NewestFirst)
        && lastFetchedData == leads
        && newRecordsCount == 0 && modifiedRecordsCount == 0
      ensures fetched.Err? ==>
        && leads == old(leads) && lastFetchedData == old(lastFetchedData)
        && filteredLeads == old(filteredLeads) && currentPage == old(currentPage)
        && newRecordsCount == old(newRecordsCount) && modifiedRecordsCount == old(modifiedRecordsCount)
        && error == Some("Failed to fetch leads: " + fetched.message)
        && connectionStatus == Disconnected
    {
      if isAutoRefresh {
        isAutoRefreshing := true;
        connectionStatus := Syncing;
      } else {
        isInitialLoading := true;
      }
      error := None;
      // The request settles: the `finally` block clears both loading flags in
      // the same render as the outcome below.
      isInitialLoading := false;
      isAutoRefreshing := false;
      if fetched.Err? {
        error := Some("Failed to fetch leads: " + fetched.message);
        connectionStatus := Disconnected;
      } else if isAutoRefresh && |lastFetchedData| > 0 {
        var merged, newCount, modifiedCount := MergeIncremental(lastFetchedData, fetched.value);
        ShowMerged(merged, newCount, modifiedCount);
      } else {
        ReplaceWithFetched(fetched.value);
      }
    }

    /** The auto-refresh branch, once merged: the merged list and a flag-free copy of it as the next snapshot. */
    method ShowMerged(merged: seq<Lead>, newCount: nat, modifiedCount: nat)
      modifies this`leads, this`filteredLeads, this`lastFetchedData, this`currentPage
      modifies this`newRecordsCount, this`modifiedRecordsCount, this`connectionStatus
      requires itemsPerPage >= 1
      ensures Valid()
      ensures leads == merged && lastFetchedData == ClearAll(merged)
      ensures newRecordsCount == newCount && modifiedRecordsCount == modifiedCount
      ensures connectionStatus == Connected && currentPage == 1
    {
      leads, lastFetchedData := merged, ClearAll(merged);
      newRecordsCount, modifiedRecordsCount := newCount, modifiedCount;
      connectionStatus := Connected;
      ApplyFilters();
    }

    /** The full-refresh branch: the fetched list, newest first, becomes both the list and the snapshot. */
    method ReplaceWithFetched(apiLeads: seq<Lead>)
      modifies this`leads, this`filteredLeads, this`lastFetchedData, this`currentPage
      modifies this`newRecordsCount, this`modifiedRecordsCount, this`connectionStatus
      requires itemsPerPage >= 1
      ensures Valid()
      ensures leads == Sort(apiLeads, NewestFirst) && lastFetchedData == leads
      ensures newRecordsCount == 0 && modifiedRecordsCount == 0
      ensures connectionStatus == Connected && currentPage == 1
    {
      var sortedLeads := Sort(apiLeads, NewestFirst);
      leads := sortedLeads;
      lastFetchedData := sortedLeads;
      newRecordsCount := 0;
      modifiedRecordsCount := 0;
      connectionStatus := Connected;
      ApplyFilters();
    }

    /** `handleRefresh`: a full reload, unless the user's credentials are missing. */
    method HandleRefresh(employeeId: string, email: string, fetched: Result<seq<Lead>>)
      modifies this`leads, this`filteredLeads, this`lastFetchedData, this`currentPage
      modifies this`newRecordsCount, this`modifiedRecordsCount
      modifies this`isInitialLoading, this`isAutoRefreshing, this`error, this`connectionStatus
      requires Valid()
      ensures Valid()
      ensures (employeeId == "" || email == "") ==> unchanged(this)
      ensures employeeId != "" && email != "" ==> !isInitialLoading && !isAutoRefreshing
      ensures employeeId != "" && email != "" && fetched.Ok? ==>
        && leads == Sort(fetched.value, NewestFirst) && lastFetchedData == leads
        && newRecordsCount == 0 && modifiedRecordsCount == 0
        && error == None && connectionStatus == Connected && currentPage == 1
      ensures employeeId != "" && email != "" && fetched.Ok? && AllUnflagged(fetched.value) ==>
        AllUnflagged(leads)
      ensures employeeId != "" && email != "" && fetched.Err? ==>
        && leads == old(leads) && lastFetchedData == old(lastFetchedData)
        && filteredLeads == old(filteredLeads) && currentPage == old(currentPage)
        && newRecordsCount == old(newRecordsCount) && modifiedRecordsCount == old(modifiedRecordsCount)
        && error == Some("Failed to fetch leads: " + fetched.message)
        && connectionStatus == Disconnected
    {
      if employeeId == "" || email == "" {
        return;
      }
      FetchAllLeads(false, fetched);
      if fetched.Ok? && AllUnflagged(fetched.value) {
        SortKeepsUnflagged(fetched.value);
      }
    }

    /** The five-second timeout after a merge: every highlight is cleared. */
    method ClearHighlights()
      modifies this`leads, this`filteredLeads, this`currentPage
      requires Valid()
      ensures Valid()
      ensures leads == ClearAll(old(leads)) && currentPage == 1
    {
      leads := ClearAll(leads);
      ApplyFilters();
    }

    /** Typing in the search box; the effect runs only when the term actually changes. */
    method SetSearchTerm(term: string)
      modifies this`searchTerm, this`filteredLeads, this`currentPage
      requires Valid()
      ensures Valid()
      ensures searchTerm == term
      ensures term != old(searchTerm) ==> currentPage == 1
      ensures term == old(searchTerm) ==> currentPage == old(currentPage) && filteredLeads == old(filteredLeads)
    {
      if term != searchTerm {
        searchTerm := term;
        ApplyFilters();
      }
    }

    /** The status dropdown; the effect runs only when the choice actually changes. */
    method SetStatusFilter(status: string)
      modifies this`statusFilter, this`filteredLeads, this`currentPage
      requires Valid()
      ensures Valid()
      ensures statusFilter == status
      ensures status != old(statusFilter) ==> currentPage == 1
      ensures status == old(statusFilter) ==> currentPage == old(currentPage) && filteredLeads == old(filteredLeads)
    {
      if status != statusFilter {
        statusFilter := status;
        ApplyFilters();
      }
    }

    /** `handleSort`: the same column flips its direction, another column starts ascending. */
    method HandleSort(key: SortKey)
      modifies this`sortConfig, this`filteredLeads, this`currentPage
      requires Valid()
      ensures Valid()
      ensures sortConfig.key == key
      ensures old(sortConfig).key == key ==> sortConfig.direction != old(sortConfig).direction
      ensures old(sortConfig).key != key ==> sortConfig.direction == Asc
      ensures currentPage == 1
    {
      var direction := Asc;
      if sortConfig.key == key {
        direction := if sortConfig.direction == Asc then Desc else Asc;
      }
      sortConfig := SortConfig(key, direction);
      ApplyFilters();
    }

    /** `goToPage` */
    method GoToPage(page: int)
      modifies this`currentPage
      requires Valid()
      ensures Valid()
      ensures currentPage == ClampPage(page, TotalPages(|filteredLeads|, itemsPerPage))
    {
      currentPage := ClampPage(page, TotalPages(|filteredLeads|, itemsPerPage));
    }

    /** The page-size selector: a new size and back to the first page. */
    method SetItemsPerPage(n: nat)
      modifies this`itemsPerPage, this`currentPage
      requires Valid()
      requires n >= 1
      ensures Valid()
      ensures itemsPerPage == n && currentPage == 1
    {
      itemsPerPage := n;
      currentPage := 1;
    }

    /** `currentLeads`: the rows of the current page. */
    function CurrentLeads(): (r: seq<Lead>)
      reads this
      requires Valid()
      ensures |r| <= itemsPerPage
      ensures forall l :: l in r ==> l in filteredLeads
    {
      PageSlice(filteredLeads, currentPage, itemsPerPage)
    }
  }
}
