/**
 * The lead service of `src/utils/crm.ts`: normalisation of the webhook's
 * records into `Lead`s, and a five-minute list cache in browser storage,
 * scoped to the employee id and email that fetched it.
 *
 * The clock is a parameter (`now`, `fetchedAt`); the network call is a
 * parameter too: `response` is what the POST to the webhook would yield
 * (the parsed body, or the message of the error it throws).
 */
module Crm {
  import opened Common
  import opened Text
  import opened Leads
  import opened Storage

  const CacheKey := "crm_leads_cache"
  /** Five minutes, in milliseconds. */
  const CacheDuration := 5 * 60 * 1000

  const MinuteMs := 60 * 1000
  const HourMs := 60 * 60 * 1000
  const DayMs := 24 * 60 * 60 * 1000

  /** The status table: the seven stage labels and 'Client'; anything else is 'new'. */
  function MapApiStatus(apiStatus: string): (r: string)
    ensures r in LeadStatuses
    ensures apiStatus == "New" ==> r == "new"
    ensures apiStatus == "Contacted" ==> r == "contacted"
    ensures apiStatus == "Qualified" ==> r == "qualified"
    ensures apiStatus == "Proposal" ==> r == "proposal"
    ensures apiStatus == "Negotiation" ==> r == "negotiation"
    ensures apiStatus == "Won" ==> r == "won"
    ensures apiStatus == "Lost" ==> r == "lost"
    ensures apiStatus == "Client" ==> r == "won"
    ensures apiStatus !in ["New", "Contacted", "Qualified", "Proposal", "Negotiation", "Won", "Lost", "Client"] ==> r == "new"
  {
    if apiStatus == "New" then "new"
    else if apiStatus == "Contacted" then "contacted"
    else if apiStatus == "Qualified" then "qualified"
    else if apiStatus == "Proposal" then "proposal"
    else if apiStatus == "Negotiation" then "negotiation"
    else if apiStatus == "Won" then "won"
    else if apiStatus == "Lost" then "lost"
    else if apiStatus == "Client" then "won"
    else "new"
  }

  /**
   * `getTimeAgo` on the elapsed milliseconds `now - modified`, with the
   * source's floor divisions into minutes, hours and days.
   */
  function TimeAgo(elapsed: int): (r: string)
  {
    var diffMins := elapsed / MinuteMs;
    var diffHours := elapsed / HourMs;
    var diffDays := elapsed / DayMs;
    if diffMins < 1 then "Just now"
    else if diffMins < 60 then Decimal(diffMins) + " minutes ago"
    else if diffHours < 24 then Decimal(diffHours) + " hours ago"
    else if diffDays == 1 then "Yesterday"
    else Decimal(diffDays) + " days ago"
  }

  /** Which text each range of elapsed time gets; the count shown is the whole number of units elapsed. */
  lemma TimeAgoRanges(elapsed: int)
    ensures elapsed < MinuteMs ==> TimeAgo(elapsed) == "Just now"
    ensures MinuteMs <= elapsed < HourMs ==>
      1 <= elapsed / MinuteMs < 60 && TimeAgo(elapsed) == Decimal(elapsed / MinuteMs) + " minutes ago"
    ensures HourMs <= elapsed < DayMs ==>
      1 <= elapsed / HourMs < 24 && TimeAgo(elapsed) == Decimal(elapsed / HourMs) + " hours ago"
    ensures DayMs <= elapsed < 2 * DayMs ==> TimeAgo(elapsed) == "Yesterday"
    ensures 2 * DayMs <= elapsed ==>
      elapsed / DayMs >= 2 && TimeAgo(elapsed) == Decimal(elapsed / DayMs) + " days ago"
  {
    FloorAtLeast(elapsed, MinuteMs, 1);
    FloorAtLeast(elapsed, MinuteMs, 60);
    FloorAtLeast(elapsed, HourMs, 1);
    FloorAtLeast(elapsed, HourMs, 24);
    FloorAtLeast(elapsed, DayMs, 1);
    FloorAtLeast(elapsed, DayMs, 2);
  }

  /** 'Just now' is given exactly below one minute, future dates included. */
  lemma TimeAgoJustNow(elapsed: int)
    ensures TimeAgo(elapsed) == "Just now" <==> elapsed < MinuteMs
  {
    TimeAgoRanges(elapsed);
    var r := TimeAgo(elapsed);
    if MinuteMs <= elapsed && !(DayMs <= elapsed < 2 * DayMs) {
      assert IsDigit(r[0]);
      assert !IsDigit("Just now"[0]);
    }
  }

  /** 'Yesterday' is given exactly from one full day up to (not including) two days. */
  lemma TimeAgoYesterday(elapsed: int)
    ensures TimeAgo(elapsed) == "Yesterday" <==> DayMs <= elapsed < 2 * DayMs
  {
    TimeAgoRanges(elapsed);
    var r := TimeAgo(elapsed);
    if MinuteMs <= elapsed && !(DayMs <= elapsed < 2 * DayMs) {
      assert IsDigit(r[0]);
      assert !IsDigit("Yesterday"[0]);
    }
  }

  /** `a || b` on strings: the empty string is falsy. */
  function Or(a: string, b: string): string
  {
    if a != "" then a else b
  }

  /** An optional string as a `||` operand: absent is falsy, like the empty string. */
  function OrEmpty(o: Option<string>): string
  {
    if o.Some? then o.value else ""
  }

  /** `mapApiLeadToLead`, with `getTimeAgo` evaluated at `now`. */
  function MapApiLeadToLead(api: ApiLead, now: int): (l: Lead)
    ensures l.id == api.name
    ensures l.value == (if api.annualRevenue.Some? then api.annualRevenue.value else 0)
    ensures l.createdAt == api.creation
    ensures l.status == MapApiStatus(api.status)
    ensures l.lastActivity == TimeAgo(now - api.modified)
    ensures l.extras == api.extras
    ensures Unflagged(l)
    // every text field has a value: the fallback chains end in a non-empty literal
    ensures l.name != "" && l.email != "" && l.phone != "" && l.company != ""
    ensures l.source != "" && l.assignedTo != "" && l.industry != "" && l.notes != ""
    // the first non-empty candidate of each chain wins
    ensures l.name == (if api.leadName != "" then api.leadName else if api.firstName != "" then api.firstName else "Unknown")
    ensures l.email == (if api.email != "" then api.email else "No email")
    ensures l.phone == (if api.mobileNo != "" then api.mobileNo else "No phone")
    ensures l.company == (if OrEmpty(api.extras.city) != "" then api.extras.city.value
                          else if api.leadSource != "" then api.leadSource else "Unknown Company")
    ensures l.source == (if api.leadSource != "" then api.leadSource else "Unknown")
    ensures l.assignedTo == (if OrEmpty(api.assignee) != "" then api.assignee.value
                             else if api.leadOwner != "" then api.leadOwner else "Unassigned")
    ensures l.industry == (if api.leadSource != "" then api.leadSource else "General")
    ensures l.notes == (if api.issue != "" then api.issue else "No notes available")
  {
    Lead(
      id := api.name,
      name := Or(Or(api.leadName, api.firstName), "Unknown"),
      email := Or(api.email, "No email"),
      phone := Or(api.mobileNo, "No phone"),
      company := Or(Or(OrEmpty(api.extras.city), api.leadSource), "Unknown Company"),
      status := MapApiStatus(api.status),
      source := Or(api.leadSource, "Unknown"),
      value := if api.annualRevenue.Some? then api.annualRevenue.value else 0,
      createdAt := api.creation,
      assignedTo := Or(Or(OrEmpty(api.assignee), api.leadOwner), "Unassigned"),
      lastActivity := TimeAgo(now - api.modified),
      industry := Or(api.leadSource, "General"),
      notes := Or(api.issue, "No notes available"),
      extras := api.extras,
      isNew := false,
      isModified := false)
  }

  /** `apiLeads.map(mapApiLeadToLead)` */
  function MapAll(apiLeads: seq<ApiLead>, now: int): (r: seq<Lead>)
    ensures |r| == |apiLeads|
    ensures forall i :: 0 <= i < |r| ==> r[i] == MapApiLeadToLead(apiLeads[i], now)
    ensures AllUnflagged(r)
  {
    seq(|apiLeads|, i requires 0 <= i < |apiLeads| => MapApiLeadToLead(apiLeads[i], now))
  }

  /** The storage after `saveLeadsToCache(leads, employeeId, email)` at time `now`. */
  function Saved(items: map<string, Blob>, leads: seq<Lead>, employeeId: string, email: string, now: int): map<string, Blob>
  {
    items[CacheKey := LeadList(LeadsEntry(Some(leads), None, now, employeeId, email))]
  }

  /** What this module's `getCachedLeads` returns. */
  function Cached(items: map<string, Blob>, employeeId: string, email: string, now: int): Option<seq<Lead>>
  {
    CachedList(items, CacheKey, DataField, CacheDuration, employeeId, email, now)
  }

  /** The storage after this module's `getCachedLeads`. */
  function AfterRead(items: map<string, Blob>, employeeId: string, email: string, now: int): map<string, Blob>
  {
    AfterListRead(items, CacheKey, CacheDuration, employeeId, email, now)
  }

  method GetCachedLeads(store: Store, employeeId: string, email: string, now: int) returns (r: Option<seq<Lead>>)
    modifies store
    ensures r == Cached(old(store.items), employeeId, email, now)
    ensures store.items == AfterRead(old(store.items), employeeId, email, now)
  {
    var cached := store.GetItem(CacheKey);
    if cached.None? {
      return None;
    }
    match cached.value
    case LeadList(cachedData) =>
      var isExpired := now - cachedData.timestamp > CacheDuration;
      var isSameUser := cachedData.employeeId == employeeId && cachedData.email == email;
      if isExpired || !isSameUser {
        store.RemoveItem(CacheKey);
        return None;
      }
      return cachedData.data;
    case _ =>
      // JSON.parse failed (or the blob is not a list entry): the catch returns null
      return None;
  }

  method SaveLeadsToCache(store: Store, leads: seq<Lead>, employeeId: string, email: string, now: int)
    modifies store
    ensures store.items == Saved(old(store.items), leads, employeeId, email, now)
  {
    store.SetItem(CacheKey, LeadList(LeadsEntry(Some(leads), None, now, employeeId, email)));
  }

  /**
   * Cache-first `fetchLeads`: a hit is returned without calling the webhook;
   * on a miss the mapped response is stored under the caller's identity.
   */
  method FetchLeads(store: Store, employeeId: string, email: string, now: int,
                    response: Result<seq<ApiLead>>, fetchedAt: int) returns (r: Result<seq<Lead>>)
    modifies store
    ensures var hit := Cached(old(store.items), employeeId, email, now);
      hit.Some? ==> r == Ok(hit.value) && store.items == old(store.items)
    ensures var hit := Cached(old(store.items), employeeId, email, now);
      hit.None? && response.Ok? ==>
        && r == Ok(MapAll(response.value, fetchedAt))
        && store.items == Saved(old(store.items), MapAll(response.value, fetchedAt), employeeId, email, fetchedAt)
    ensures var hit := Cached(old(store.items), employeeId, email, now);
      hit.None? && response.Err? ==>
        && r == Err(response.message)
        && store.items == AfterRead(old(store.items), employeeId, email, now)
  {
    var cachedLeads := GetCachedLeads(store, employeeId, email, now);
    if cachedLeads.Some? {
      return Ok(cachedLeads.value);
    }
    match response
    case Err(message) =>
      return Err(message);
    case Ok(apiLeads) =>
      var mappedLeads := MapAll(apiLeads, fetchedAt);
      SaveLeadsToCache(store, mappedLeads, employeeId, email, fetchedAt);
      return Ok(mappedLeads);
  }

  /** `leads.find(lead => lead.id === leadId) || null` */
  function FindById(leads: seq<Lead>, leadId: string): (r: Option<Lead>)
    ensures r.Some? <==> leadId in Ids(leads)
    ensures r.Some? ==> exists i :: 0 <= i < |leads| && leads[i] == r.value && r.value.id == leadId &&
                                    forall j :: 0 <= j < i ==> leads[j].id != leadId
  {
    if leads == [] then None
    else if leads[0].id == leadId then Some(leads[0])
    else
      var r := FindById(leads[1..], leadId);
      assert Ids(leads) == {leads[0].id} + Ids(leads[1..]) by {
        assert leads == [leads[0]] + leads[1..];
      }
      if r.Some? then
        var i :| 0 <= i < |leads[1..]| && leads[1..][i] == r.value && r.value.id == leadId &&
                 forall j :: 0 <= j < i ==> leads[1..][j].id != leadId;
        assert leads[i + 1] == r.value;
        assert forall j :: 0 <= j < i + 1 ==> leads[j].id != leadId by {
          forall j | 0 <= j < i + 1 ensures leads[j].id != leadId {
            if j > 0 { assert leads[j] == leads[1..][j - 1]; }
          }
        }
        r
      else r
  }

  /** `getLeadById`: the lead with that id from `fetchLeads`, or null when it is missing or the fetch throws. */
  method GetLeadById(store: Store, leadId: string, employeeId: string, email: string, now: int,
                     response: Result<seq<ApiLead>>, fetchedAt: int) returns (r: Option<Lead>)
    modifies store
    ensures var hit := Cached(old(store.items), employeeId, email, now);
      hit.Some? ==> r == FindById(hit.value, leadId)
    ensures var hit := Cached(old(store.items), employeeId, email, now);
      hit.None? ==> r == (if response.Ok? then FindById(MapAll(response.value, fetchedAt), leadId) else None)
    ensures var hit := Cached(old(store.items), employeeId, email, now);
      hit.Some? ==> store.items == old(store.items)
    ensures var hit := Cached(old(store.items), employeeId, email, now);
      hit.None? && response.Ok? ==>
        store.items == Saved(old(store.items), MapAll(response.value, fetchedAt), employeeId, email, fetchedAt)
    ensures var hit := Cached(old(store.items), employeeId, email, now);
      hit.None? && response.Err? ==> store.items == AfterRead(old(store.items), employeeId, email, now)
  {
    var leads := FetchLeads(store, employeeId, email, now, response, fetchedAt);
    if leads.Err? {
      return None;
    }
    return FindById(leads.value, leadId);
  }

  /** `refreshLeads`: the entry is removed first, so the webhook is always asked. */
  method RefreshLeads(store: Store, employeeId: string, email: string, now: int,
                      response: Result<seq<ApiLead>>, fetchedAt: int) returns (r: Result<seq<Lead>>)
    modifies store
    ensures response.Ok? ==>
      && r == Ok(MapAll(response.value, fetchedAt))
      && store.items == Saved(old(store.items), MapAll(response.value, fetchedAt), employeeId, email, fetchedAt)
    ensures response.Err? ==> r == Err(response.message) && store.items == old(store.items) - {CacheKey}
  {
    store.RemoveItem(CacheKey);
    r := FetchLeads(store, employeeId, email, now, response, fetchedAt);
  }

  /** The list with every lead of id `leadId` moved to `newStatus` and marked active 'Just now'. */
  function WithStatus(leads: seq<Lead>, leadId: string, newStatus: string): (r: seq<Lead>)
    ensures |r| == |leads|
    ensures forall i :: 0 <= i < |leads| && leads[i].id == leadId ==>
      r[i] == leads[i].(status := newStatus, lastActivity := "Just now")
    ensures forall i :: 0 <= i < |leads| && leads[i].id != leadId ==> r[i] == leads[i]
  {
    seq(|leads|, i requires 0 <= i < |leads| =>
      if leads[i].id == leadId then leads[i].(status := newStatus, lastActivity := "Just now") else leads[i])
  }

  /** The storage after `updateLeadStatus(leadId, newStatus)` at time `now`. */
  function StatusUpdated(items: map<string, Blob>, leadId: string, newStatus: string, now: int): map<string, Blob>
  {
    if CacheKey in items && items[CacheKey].LeadList? && items[CacheKey].entry.data.Some? then
      var e := items[CacheKey].entry;
      Saved(items, WithStatus(e.data.value, leadId, newStatus), e.employeeId, e.email, now)
    else items
  }

  /**
   * `updateLeadStatus`: rewrites the cached list through `saveLeadsToCache`,
   * keeping the stored identity; without a list under `data` nothing changes
   * (reading `.map` of a missing `data` throws, and the catch swallows it).
   */
  method UpdateLeadStatus(store: Store, leadId: string, newStatus: string, now: int)
    modifies store
    ensures store.items == StatusUpdated(old(store.items), leadId, newStatus, now)
  {
    var cached := store.GetItem(CacheKey);
    if cached.Some? && cached.value.LeadList? && cached.value.entry.data.Some? {
      var cachedData := cached.value.entry;
      var updatedLeads := WithStatus(cachedData.data.value, leadId, newStatus);
      SaveLeadsToCache(store, updatedLeads, cachedData.employeeId, cachedData.email, now);
    }
  }

  method ClearCache(store: Store)
    modifies store
    ensures store.items == old(store.items) - {CacheKey}
  {
    store.RemoveItem(CacheKey);
  }

  /** The result of `getCacheInfo`. */
  datatype CacheInfo = CacheInfo(hasCache: bool, isExpired: bool, timestamp: Option<int>)

  /** `getCacheInfo`: whether a list entry exists and whether it has outlived the five minutes. */
  function GetCacheInfo(items: map<string, Blob>, now: int): (r: CacheInfo)
    ensures !r.hasCache ==> r.isExpired && r.timestamp.None?
    ensures r.hasCache <==> CacheKey in items && items[CacheKey].LeadList?
    ensures r.hasCache ==>
      r.timestamp == Some(items[CacheKey].entry.timestamp) &&
      (r.isExpired <==> now - items[CacheKey].entry.timestamp > CacheDuration)
  {
    if CacheKey !in items then CacheInfo(false, true, None)
    else match items[CacheKey]
      case LeadList(e) => CacheInfo(true, Expired(e.timestamp, now, CacheDuration), Some(e.timestamp))
      case _ => CacheInfo(false, true, None)
  }

  /**
   * A saved list is what the next read returns, for the same employee id and
   * email and until exactly five minutes have passed; any other caller, or a
   * later read, misses.
   */
  lemma SavedThenCached(items: map<string, Blob>, leads: seq<Lead>, employeeId: string, email: string,
                        savedAt: int, reader: string, readerEmail: string, now: int)
    ensures Cached(Saved(items, leads, employeeId, email, savedAt), reader, readerEmail, now) ==
      (if reader == employeeId && readerEmail == email && now - savedAt <= CacheDuration then Some(leads) else None)
  {
  }

  /** A miss caused by another identity or by age also evicts the entry. */
  lemma MissEvicts(items: map<string, Blob>, employeeId: string, email: string, now: int)
    requires CacheKey in items && items[CacheKey].LeadList?
    requires Cached(items, employeeId, email, now).None?
    requires items[CacheKey].entry.data.Some?
    ensures CacheKey !in AfterRead(items, employeeId, email, now)
  {
  }

  /** Whatever a read returns was stored for exactly that employee id and email, less than five minutes before. */
  lemma CachedIsScoped(items: map<string, Blob>, employeeId: string, email: string, now: int)
    requires Cached(items, employeeId, email, now).Some?
    ensures CacheKey in items && items[CacheKey].LeadList?
    ensures items[CacheKey].entry.employeeId == employeeId && items[CacheKey].entry.email == email
    ensures now - items[CacheKey].entry.timestamp <= CacheDuration
  {
  }

  /** The ids of the mapped list are the record names of the response. */
  lemma {:induction false} MapAllIds(apiLeads: seq<ApiLead>, now: int)
    ensures Ids(MapAll(apiLeads, now)) == set a | a in apiLeads :: a.name
  {
    var r := MapAll(apiLeads, now);
    forall k | k in Ids(r) ensures k in set a | a in apiLeads :: a.name {
      var l :| l in r && l.id == k;
      var i :| 0 <= i < |r| && r[i] == l;
      assert apiLeads[i].name == k;
    }
    forall k | k in set a | a in apiLeads :: a.name ensures k in Ids(r) {
      var a :| a in apiLeads && a.name == k;
      var i :| 0 <= i < |apiLeads| && apiLeads[i] == a;
      assert r[i].id == k;
    }
  }

  /**
   * A status update rewrites the entry with a fresh timestamp under the
   * stored identity, so that identity reads the updated list even if the
   * entry had expired.
   */
  lemma StatusUpdateRevives(items: map<string, Blob>, leadId: string, newStatus: string, now: int)
    requires CacheKey in items && items[CacheKey].LeadList? && items[CacheKey].entry.data.Some?
    ensures var e := items[CacheKey].entry;
      Cached(StatusUpdated(items, leadId, newStatus, now), e.employeeId, e.email, now) ==
        Some(WithStatus(e.data.value, leadId, newStatus))
  {
  }

  /** The update keeps the ids and order of the list, and a second identical update changes nothing. */
  lemma {:induction false} WithStatusIdempotent(leads: seq<Lead>, leadId: string, newStatus: string)
    ensures Ids(WithStatus(leads, leadId, newStatus)) == Ids(leads)
    ensures WithStatus(WithStatus(leads, leadId, newStatus), leadId, newStatus) == WithStatus(leads, leadId, newStatus)
  {
    var r := WithStatus(leads, leadId, newStatus);
    forall k | k in Ids(r) ensures k in Ids(leads) {
      var i :| 0 <= i < |r| && r[i].id == k;
      assert leads[i].id == k;
    }
    forall k | k in Ids(leads) ensures k in Ids(r) {
      var i :| 0 <= i < |leads| && leads[i].id == k;
      assert r[i].id == k;
    }
  }

  /** `getCacheInfo` reports a fresh entry exactly when a read by its own identity would hit (given it holds a `data` list). */
  lemma CacheInfoAgreesWithRead(items: map<string, Blob>, now: int)
    requires CacheKey in items && items[CacheKey].LeadList? && items[CacheKey].entry.data.Some?
    ensures var info := GetCacheInfo(items, now);
      var e := items[CacheKey].entry;
      info.hasCache && !info.isExpired <==> Cached(items, e.employeeId, e.email, now).Some?
  {
  }
}
