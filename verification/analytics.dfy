/**
 * The analytics page (`CRMAnalyticsDashboard`): the status and source
 * distributions that feed its pie charts, the summary counters, the
 * per-status performance bars, and its own `fetchAllLeads`, which sorts the
 * fetched list newest first and empties the list when the fetch fails.
 */
module Analytics {
  import opened Common
  import opened Text
  import opened Leads
  import opened Sorting
  import Crm
  import opened Dashboard

  /** The keys of `statusCounts`, in declaration order: the chart's nine slices. */
  const StatusKeys: seq<string> :=
    ["new", "Contacted", "qualified", "followup", "won", "Not Interested", "Call Back", "Switch off", "RNR"]

  /** `{ name, value, count }`: one slice of a pie chart (`value` and `count` carry the same number). */
  datatype ChartEntry = ChartEntry(name: string, count: nat)

  /** Which lead field a distribution groups by. */
  datatype Field = StatusField | SourceField

  function FieldOf(l: Lead, f: Field): string
  {
    match f
    case StatusField => l.status
    case SourceField => l.source
  }

  function SourceIs(source: string): Lead -> bool
  {
    (l: Lead) => l.source == source
  }

  /** Leads whose field equals `key`. */
  function Has(f: Field, key: string): Lead -> bool
  {
    match f
    case StatusField => StatusIs(key)
    case SourceField => SourceIs(key)
  }

  /** Leads whose field is one of `keys`. */
  function HasAny(f: Field, keys: seq<string>): Lead -> bool
  {
    (l: Lead) => FieldOf(l, f) in keys
  }

  predicate Distinct(keys: seq<string>)
  {
    forall i, j :: 0 <= i < j < |keys| ==> keys[i] != keys[j]
  }

  lemma DistinctCons(key: string, rest: seq<string>)
    requires Distinct(rest) && key !in rest
    ensures Distinct([key] + rest)
  {
    forall i, j | 0 <= i < j < |rest| + 1
      ensures ([key] + rest)[i] != ([key] + rest)[j]
    {
      if i == 0 {
        assert ([key] + rest)[j] == rest[j - 1];
      }
    }
  }

  /** The nine keys of `statusCounts` are different strings. */
  lemma StatusKeysDistinct()
    ensures Distinct(StatusKeys)
  {
    var keys := StatusKeys;
    var i := |keys|;
    assert Distinct(keys[i..]);
    while i > 0
      invariant 0 <= i <= |keys|
      invariant Distinct(keys[i..])
    {
      i := i - 1;
      assert keys[i..] == [keys[i]] + keys[i + 1..];
      DistinctCons(keys[i], keys[i + 1..]);
    }
  }

  /** The number of leads under each key, key by key. */
  function Tally(leads: seq<Lead>, f: Field, keys: seq<string>): (r: seq<nat>)
    ensures |r| == |keys|
    ensures forall j :: 0 <= j < |keys| ==> r[j] == Count(leads, Has(f, keys[j]))
  {
    if keys == [] then [] else [Count(leads, Has(f, keys[0]))] + Tally(leads, f, keys[1..])
  }

  /** Over distinct keys, the per-key counts add up to the leads that fall under some key. */
  lemma {:induction false} TallySum(leads: seq<Lead>, f: Field, keys: seq<string>)
    requires Distinct(keys)
    ensures Sum(Tally(leads, f, keys)) == Count(leads, HasAny(f, keys))
    ensures Sum(Tally(leads, f, keys)) <= |leads|
  {
    if keys == [] {
      CountNone(leads, HasAny(f, keys));
    } else {
      var rest := keys[1..];
      TallySum(leads, f, rest);
      forall i | 0 <= i < |leads|
        ensures !(Has(f, keys[0])(leads[i]) && HasAny(f, rest)(leads[i]))
        ensures HasAny(f, keys)(leads[i]) == (Has(f, keys[0])(leads[i]) || HasAny(f, rest)(leads[i]))
      {
        assert keys == [keys[0]] + rest;
      }
      CountUnion(leads, Has(f, keys[0]), HasAny(f, rest), HasAny(f, keys));
    }
  }

  // ---------------------------------------------------------------------
  // Status distribution

  /**
   * `statusDistribution`: count each lead under its status when the status
   * is one of the nine keys (`hasOwnProperty`), then list the keys in
   * declaration order with their first letter upper-cased.
   */
  method StatusDistribution(leads: seq<Lead>) returns (r: seq<ChartEntry>)
    ensures |r| == |StatusKeys|
    ensures forall j :: 0 <= j < |r| ==>
      r[j] == ChartEntry(UpperFirst(StatusKeys[j]), Count(leads, Has(StatusField, StatusKeys[j])))
  {
    var statusCounts: map<string, nat> := map k | k in StatusKeys :: 0;
    for i := 0 to |leads|
      invariant statusCounts.Keys == set k | k in StatusKeys
      invariant forall k :: k in statusCounts ==> statusCounts[k] == Count(leads[..i], Has(StatusField, k))
    {
      var status := leads[i].status;
      forall k | k in statusCounts
        ensures Count(leads[..i + 1], Has(StatusField, k)) ==
                Count(leads[..i], Has(StatusField, k)) + (if status == k then 1 else 0)
      {
        CountSnoc(leads, i, Has(StatusField, k));
      }
      if status != "" && status in statusCounts {
        statusCounts := statusCounts[status := statusCounts[status] + 1];
      }
    }
    assert leads[..|leads|] == leads;
    r := seq(|StatusKeys|, j requires 0 <= j < |StatusKeys| => ChartEntry(UpperFirst(StatusKeys[j]), statusCounts[StatusKeys[j]]));
  }

  /** The nine slices never count a lead twice: together they hold at most every lead. */
  lemma StatusSlicesTotal(leads: seq<Lead>)
    ensures Sum(Tally(leads, StatusField, StatusKeys)) == Count(leads, HasAny(StatusField, StatusKeys))
    ensures Sum(Tally(leads, StatusField, StatusKeys)) <= |leads|
  {
    StatusKeysDistinct();
    TallySum(leads, StatusField, StatusKeys);
  }

  /** A lead whose status is not one of the nine keys is missing from the chart. */
  lemma UnlistedStatusUncounted(leads: seq<Lead>, i: int)
    requires 0 <= i < |leads| && leads[i].status !in StatusKeys
    ensures Sum(Tally(leads, StatusField, StatusKeys)) < |leads|
  {
    StatusSlicesTotal(leads);
    CountMissesOne(leads, HasAny(StatusField, StatusKeys), i);
  }

  /**
   * Of the statuses `mapApiStatus` produces, only 'new', 'qualified' and
   * 'won' are keys of the chart: a lead the API reports as 'Contacted'
   * becomes 'contacted' and no slice counts it.
   */
  lemma MappedStatusesCharted(apiStatus: string)
    ensures Crm.MapApiStatus(apiStatus) in StatusKeys <==> Crm.MapApiStatus(apiStatus) in ["new", "qualified", "won"]
    ensures apiStatus == "Contacted" ==> Crm.MapApiStatus(apiStatus) !in StatusKeys
  {
  }

  // ---------------------------------------------------------------------
  // Source distribution

  /** The distinct non-empty sources in order of first appearance: the key order of `sourceCounts`. */
  function Sources(leads: seq<Lead>): seq<string>
    decreases |leads|
  {
    if leads == [] then []
    else
      var prior, source := Sources(leads[..|leads| - 1]), leads[|leads| - 1].source;
      if source != "" && source !in prior then prior + [source] else prior
  }

  /** A source is listed exactly when it is non-empty and some lead carries it. */
  lemma {:induction false} SourcesMembers(leads: seq<Lead>)
    ensures forall k :: k in Sources(leads) <==> k != "" && exists i :: 0 <= i < |leads| && leads[i].source == k
    decreases |leads|
  {
    if leads != [] {
      var init, last := leads[..|leads| - 1], leads[|leads| - 1];
      SourcesMembers(init);
      forall k | k in Sources(leads)
        ensures k != "" && exists i :: 0 <= i < |leads| && leads[i].source == k
      {
        if k in Sources(init) {
          var i :| 0 <= i < |init| && init[i].source == k;
          assert leads[i].source == k;
        } else {
          assert leads[|leads| - 1].source == k;
        }
      }
      forall k, i | 0 <= i < |leads| && leads[i].source == k && k != ""
        ensures k in Sources(leads)
      {
        if i < |init| {
          assert init[i].source == k;
        }
      }
    }
  }

  /** No source is listed twice. */
  lemma {:induction false} SourcesDistinct(leads: seq<Lead>)
    ensures Distinct(Sources(leads))
    decreases |leads|
  {
    if leads != [] {
      SourcesDistinct(leads[..|leads| - 1]);
    }
  }

  /**
   * `sourceDistribution`: count each lead with a non-empty source under that
   * source, adding a key the first time a source appears; one slice per key,
   * in key order.
   */
  method SourceDistribution(leads: seq<Lead>) returns (r: seq<ChartEntry>)
    ensures |r| == |Sources(leads)|
    ensures forall j :: 0 <= j < |r| ==>
      r[j] == ChartEntry(Sources(leads)[j], Count(leads, Has(SourceField, Sources(leads)[j])))
  {
    var sourceCounts: map<string, nat> := map[];
    var keys: seq<string> := [];
    for i := 0 to |leads|
      invariant keys == Sources(leads[..i])
      invariant sourceCounts.Keys == set k | k in keys
      invariant "" !in sourceCounts
      invariant forall k :: k in sourceCounts ==> sourceCounts[k] == Count(leads[..i], Has(SourceField, k))
    {
      var source := leads[i].source;
      assert leads[..i + 1][..i] == leads[..i];
      forall k | k in sourceCounts
        ensures Count(leads[..i + 1], Has(SourceField, k)) ==
                Count(leads[..i], Has(SourceField, k)) + (if source == k then 1 else 0)
      {
        CountSnoc(leads, i, Has(SourceField, k));
      }
      if source != "" {
        if source !in sourceCounts {
          SourcesMembers(leads[..i]);
          CountNone(leads[..i], Has(SourceField, source));
          CountSnoc(leads, i, Has(SourceField, source));
          sourceCounts := sourceCounts[source := 1];
          keys := keys + [source];
        } else {
          sourceCounts := sourceCounts[source := sourceCounts[source] + 1];
        }
      }
    }
    assert leads[..|leads|] == leads;
    r := seq(|keys|, j requires 0 <= j < |keys| => ChartEntry(keys[j], sourceCounts[keys[j]]));
  }

  /** The source slices together count exactly the leads that have a source. */
  lemma SourceSlicesTotal(leads: seq<Lead>)
    ensures Sum(Tally(leads, SourceField, Sources(leads))) == Count(leads, (l: Lead) => l.source != "")
  {
    var keys := Sources(leads);
    SourcesDistinct(leads);
    TallySum(leads, SourceField, keys);
    SourcesMembers(leads);
    forall i | 0 <= i < |leads|
      ensures HasAny(SourceField, keys)(leads[i]) == (leads[i].source != "")
    {
      if leads[i].source != "" {
        assert leads[i].source in keys;
      }
    }
    CountSame(leads, HasAny(SourceField, keys), (l: Lead) => l.source != "");
  }

  // ---------------------------------------------------------------------
  // Summary counters and performance bars

  /** `summaryData` of the analytics page. */
  datatype Totals = Totals(
    totalLeads: nat,
    newLeads: nat,
    contactedLeads: nat,
    followup: nat,
    qualifiedLeads: nat,
    wonLeads: nat,
    notInterested: nat,
    callBack: nat,
    switchOff: nat,
    rnr: nat,
    conversionRate: nat)

  /** A lead counts as converted when it is qualified or won. */
  const ConvertedKeys: seq<string> := ["qualified", "won"]

  /**
   * `summaryData`: one counter per status key, and the conversion rate as
   * the rounded percentage of qualified and won leads.
   */
  function Summarize(leads: seq<Lead>): (r: Totals)
    ensures r.totalLeads == |leads|
    ensures Max(|leads|, 1) * (2 * r.conversionRate - 1) <= 200 * (r.qualifiedLeads + r.wonLeads)
              < Max(|leads|, 1) * (2 * r.conversionRate + 1)
    ensures r.conversionRate <= 100
    ensures leads == [] ==> r.conversionRate == 0
  {
    var converted := Count(leads, HasAny(StatusField, ConvertedKeys));
    CountUnion(leads, StatusIs("qualified"), StatusIs("won"), HasAny(StatusField, ConvertedKeys));
    Totals(
      |leads|,
      Count(leads, StatusIs("new")),
      Count(leads, StatusIs("Contacted")),
      Count(leads, StatusIs("followup")),
      Count(leads, StatusIs("qualified")),
      Count(leads, StatusIs("won")),
      Count(leads, StatusIs("Not Interested")),
      Count(leads, StatusIs("Call Back")),
      Count(leads, StatusIs("Switch off")),
      Count(leads, StatusIs("RNR")),
      RoundedPercent(converted, |leads|))
  }

  /** The nine counters are the nine slices of the status chart, in the same order. */
  lemma SummaryMatchesChart(leads: seq<Lead>)
    ensures var r, t := Summarize(leads), Tally(leads, StatusField, StatusKeys);
      [r.newLeads, r.contactedLeads, r.qualifiedLeads, r.followup, r.wonLeads,
       r.notInterested, r.callBack, r.switchOff, r.rnr] == t
    ensures var r := Summarize(leads);
      Sum([r.newLeads, r.contactedLeads, r.qualifiedLeads, r.followup, r.wonLeads,
           r.notInterested, r.callBack, r.switchOff, r.rnr]) <= r.totalLeads
  {
    StatusSlicesTotal(leads);
  }

  /** `{ name, leads, percentage }`: one bar of the performance chart. */
  datatype PerformanceBar = PerformanceBar(name: string, leads: nat, percentage: nat)

  /** `performanceChartData`: each slice with its share of all leads as a rounded percentage. */
  function PerformanceChart(distribution: seq<ChartEntry>, totalLeads: nat): (r: seq<PerformanceBar>)
    ensures |r| == |distribution|
    ensures forall j :: 0 <= j < |r| ==>
      && r[j].name == distribution[j].name && r[j].leads == distribution[j].count
      && Max(totalLeads, 1) * (2 * r[j].percentage - 1) <= 200 * r[j].leads < Max(totalLeads, 1) * (2 * r[j].percentage + 1)
    ensures forall j :: 0 <= j < |r| && distribution[j].count <= totalLeads ==> r[j].percentage <= 100
  {
    seq(|distribution|, j requires 0 <= j < |distribution| =>
      PerformanceBar(distribution[j].name, distribution[j].count, RoundedPercent(distribution[j].count, totalLeads)))
  }

  /** On the status chart of a list, every bar's percentage lies between 0 and 100. */
  lemma StatusBarsBounded(leads: seq<Lead>, distribution: seq<ChartEntry>)
    requires |distribution| == |StatusKeys|
    requires forall j :: 0 <= j < |distribution| ==> distribution[j].count == Count(leads, Has(StatusField, StatusKeys[j]))
    ensures forall b :: b in PerformanceChart(distribution, |leads|) ==> b.percentage <= 100
  {
    var bars := PerformanceChart(distribution, |leads|);
    forall b | b in bars ensures b.percentage <= 100 {
      var j :| 0 <= j < |bars| && bars[j] == b;
      assert distribution[j].count <= |leads|;
    }
  }

  // ---------------------------------------------------------------------
  // Component state

  class AnalyticsPage {
    var leads: seq<Lead>
    var isInitialLoading: bool
    var isAutoRefreshing: bool
    var error: Option<string>
    var connectionStatus: ConnectionStatus

    constructor ()
      ensures leads == [] && isInitialLoading && !isAutoRefreshing
      ensures error == None && connectionStatus == Connected
    {
      leads := [];
      isInitialLoading := true;
      isAutoRefreshing := false;
      error := None;
      connectionStatus := Connected;
    }

    /**
     * `fetchAllLeads(isAutoRefresh)` once `fetchLeads` has settled with
     * `fetched`: the list, newest first, or an empty list and the error.
     */
    method FetchAllLeads(isAutoRefresh: bool, fetched: Result<seq<Lead>>)
      modifies this
      ensures !isInitialLoading && !isAutoRefreshing
      ensures fetched.Ok? ==>
        leads == Sort(fetched.value, NewestFirst) && error == None && connectionStatus == Connected
      ensures fetched.Err? ==>
        && leads == []
        && error == Some("Failed to fetch leads: " + fetched.message)
        && connectionStatus == Disconnected
    {
      if isAutoRefresh {
        isAutoRefreshing := true;
        connectionStatus := Syncing;
      } else {
        isInitialLoading := true;
      }
      error := None;
      match fetched {
        case Ok(apiLeads) =>
          leads := Sort(apiLeads, NewestFirst);
          connectionStatus := Connected;
        case Err(message) =>
          error := Some("Failed to fetch leads: " + message);
          connectionStatus := Disconnected;
          leads := [];
      }
      isInitialLoading := false;
      isAutoRefreshing := false;
    }

    /** The mount effect: fetch when the user has credentials, otherwise show the empty state. */
    method Mount(employeeId: string, email: string, fetched: Result<seq<Lead>>)
      modifies this
      ensures !isInitialLoading
      ensures (employeeId == "" || email == "") ==>
        && leads == [] && error == old(error)
        && isAutoRefreshing == old(isAutoRefreshing) && connectionStatus == old(connectionStatus)
      ensures employeeId != "" && email != "" ==> !isAutoRefreshing
      ensures employeeId != "" && email != "" && fetched.Ok? ==>
        leads == Sort(fetched.value, NewestFirst) && error == None && connectionStatus == Connected
      ensures employeeId != "" && email != "" && fetched.Err? ==>
        && leads == []
        && error == Some("Failed to fetch leads: " + fetched.message)
        && connectionStatus == Disconnected
    {
      if employeeId != "" && email != "" {
        FetchAllLeads(false, fetched);
      } else {
        isInitialLoading := false;
        leads := [];
      }
    }
  }
}
