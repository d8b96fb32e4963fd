/**
 * The lead cache of `src/utils/crmCache.ts`: the same storage key as the
 * lead service, but a thirty-minute lifetime and the list stored under
 * `leads`, plus a second entry, `'crm_lead_details_cache'`, that maps each
 * lead id to that lead and the time it was cached.
 */
module CrmCache {
  import opened Common
  import opened Leads
  import opened Storage
  import Crm

  const LeadsCacheKey := "crm_leads_cache"
  const DetailsCacheKey := "crm_lead_details_cache"
  /** Thirty minutes, in milliseconds. */
  const CacheDuration := 30 * 60 * 1000

  /** What this module's `getCachedLeads` returns. */
  function CachedLeads(items: map<string, Blob>, employeeId: string, email: string, now: int): Option<seq<Lead>>
  {
    CachedList(items, LeadsCacheKey, LeadsField, CacheDuration, employeeId, email, now)
  }

  /** The storage after this module's `getCachedLeads`. */
  function AfterLeadsRead(items: map<string, Blob>, employeeId: string, email: string, now: int): map<string, Blob>
  {
    AfterListRead(items, LeadsCacheKey, CacheDuration, employeeId, email, now)
  }

  /**
   * The details map as a writer starts from it: `{}` when nothing is
   * stored, `None` when the stored text does not parse (the writer's
   * `JSON.parse` throws).
   */
  function DetailsOf(items: map<string, Blob>): (r: Option<map<string, DetailEntry>>)
    ensures DetailsCacheKey !in items ==> r == Some(map[])
  {
    if DetailsCacheKey !in items then Some(map[])
    else match items[DetailsCacheKey]
      case DetailMap(d) => Some(d)
      case _ => None
  }

  /**
   * `leads.forEach(lead => { detailsCache[lead.id] = { lead, timestamp: now } })`:
   * each id is bound to the last lead that carries it, stamped `now`; ids
   * not in the list keep their entries.
   */
  function Upserted(details: map<string, DetailEntry>, leads: seq<Lead>, now: int): (r: map<string, DetailEntry>)
    ensures r.Keys == details.Keys + Ids(leads)
    ensures forall k :: k in Ids(leads) ==> k in IndexById(leads) && r[k] == DetailEntry(IndexById(leads)[k], now)
    ensures forall k :: k in details && k !in Ids(leads) ==> r[k] == details[k]
    decreases |leads|
  {
    if leads == [] then details
    else
      var init, last := leads[..|leads| - 1], leads[|leads| - 1];
      assert leads == init + [last];
      assert Ids(leads) == Ids(init) + {last.id};
      Upserted(details, init, now)[last.id := DetailEntry(last, now)]
  }

  /** The fan-out loop of `saveLeadsToCache`, over a copy of the details map. */
  method FanOut(details: map<string, DetailEntry>, leads: seq<Lead>, now: int) returns (r: map<string, DetailEntry>)
    ensures r == Upserted(details, leads, now)
  {
    r := details;
    for i := 0 to |leads|
      invariant r == Upserted(details, leads[..i], now)
    {
      assert leads[..i + 1][..i] == leads[..i];
      r := r[leads[i].id := DetailEntry(leads[i], now)];
    }
    assert leads[..|leads|] == leads;
  }

  /**
   * The storage after `saveLeadsToCache(leads, employeeId, email)` at time
   * `now`: the list entry is written first; the details map is then
   * updated, unless the stored details do not parse, in which case the
   * catch leaves the list entry written and the details as they were.
   */
  function SavedLeads(items: map<string, Blob>, leads: seq<Lead>, employeeId: string, email: string, now: int): map<string, Blob>
  {
    var written := items[LeadsCacheKey := LeadList(LeadsEntry(None, Some(leads), now, employeeId, email))];
    match DetailsOf(items)
    case Some(d) => written[DetailsCacheKey := DetailMap(Upserted(d, leads, now))]
    case None => written
  }

  /** What `getCachedLeadDetails(leadId)` returns: the cached lead while its own entry is at most thirty minutes old. */
  function CachedDetail(items: map<string, Blob>, leadId: string, now: int): Option<Lead>
  {
    if DetailsCacheKey in items && items[DetailsCacheKey].DetailMap? then
      var d := items[DetailsCacheKey].entries;
      if leadId in d && !Expired(d[leadId].timestamp, now, CacheDuration) then Some(d[leadId].lead) else None
    else None
  }

  /** The storage after `getCachedLeadDetails(leadId)`: an expired entry for that id is deleted and the map written back. */
  function AfterDetailRead(items: map<string, Blob>, leadId: string, now: int): map<string, Blob>
  {
    if DetailsCacheKey in items && items[DetailsCacheKey].DetailMap? then
      var d := items[DetailsCacheKey].entries;
      if leadId in d && Expired(d[leadId].timestamp, now, CacheDuration) then
        items[DetailsCacheKey := DetailMap(d - {leadId})]
      else items
    else items
  }

  /** The storage after `saveLeadDetailsToCache(leadId, lead)` at time `now`. */
  function DetailSaved(items: map<string, Blob>, leadId: string, lead: Lead, now: int): map<string, Blob>
  {
    match DetailsOf(items)
    case Some(d) => items[DetailsCacheKey := DetailMap(d[leadId := DetailEntry(lead, now)])]
    case None => items
  }

  method GetCachedLeads(store: Store, employeeId: string, email: string, now: int) returns (r: Option<seq<Lead>>)
    modifies store
    ensures r == CachedLeads(old(store.items), employeeId, email, now)
    ensures store.items == AfterLeadsRead(old(store.items), employeeId, email, now)
  {
    var cached := store.GetItem(LeadsCacheKey);
    if cached.None? {
      return None;
    }
    match cached.value
    case LeadList(cachedData) =>
      var isExpired := now - cachedData.timestamp > CacheDuration;
      var isSameUser := cachedData.employeeId == employeeId && cachedData.email == email;
      if isExpired || !isSameUser {
        store.RemoveItem(LeadsCacheKey);
        return None;
      }
      return cachedData.leads;
    case _ =>
      return None;
  }

  method SaveLeadsToCache(store: Store, leads: seq<Lead>, employeeId: string, email: string, now: int)
    modifies store
    ensures store.items == SavedLeads(old(store.items), leads, employeeId, email, now)
  {
    store.SetItem(LeadsCacheKey, LeadList(LeadsEntry(None, Some(leads), now, employeeId, email)));
    var cachedDetails := store.GetItem(DetailsCacheKey);
    var detailsCache: map<string, DetailEntry>;
    if cachedDetails.None? {
      detailsCache := map[];
    } else if cachedDetails.value.DetailMap? {
      detailsCache := cachedDetails.value.entries;
    } else {
      // JSON.parse throws: the catch keeps the list entry already written
      return;
    }
    detailsCache := FanOut(detailsCache, leads, now);
    store.SetItem(DetailsCacheKey, DetailMap(detailsCache));
  }

  method GetCachedLeadDetails(store: Store, leadId: string, now: int) returns (r: Option<Lead>)
    modifies store
    ensures r == CachedDetail(old(store.items), leadId, now)
    ensures store.items == AfterDetailRead(old(store.items), leadId, now)
  {
    var cached := store.GetItem(DetailsCacheKey);
    if cached.None? || !cached.value.DetailMap? {
      return None;
    }
    var cachedData := cached.value.entries;
    if leadId !in cachedData {
      return None;
    }
    var leadCache := cachedData[leadId];
    var isExpired := now - leadCache.timestamp > CacheDuration;
    if isExpired {
      cachedData := cachedData - {leadId};
      store.SetItem(DetailsCacheKey, DetailMap(cachedData));
      return None;
    }
    return Some(leadCache.lead);
  }

  method SaveLeadDetailsToCache(store: Store, leadId: string, lead: Lead, now: int)
    modifies store
    ensures store.items == DetailSaved(old(store.items), leadId, lead, now)
  {
    var cached := store.GetItem(DetailsCacheKey);
    var cachedData: map<string, DetailEntry>;
    if cached.None? {
      cachedData := map[];
    } else if cached.value.DetailMap? {
      cachedData := cached.value.entries;
    } else {
      return;
    }
    cachedData := cachedData[leadId := DetailEntry(lead, now)];
    store.SetItem(DetailsCacheKey, DetailMap(cachedData));
  }

  method ClearAllCache(store: Store)
    modifies store
    ensures store.items == old(store.items) - {LeadsCacheKey, DetailsCacheKey}
  {
    store.RemoveItem(LeadsCacheKey);
    store.RemoveItem(DetailsCacheKey);
  }

  method ClearLeadDetailsCache(store: Store)
    modifies store
    ensures store.items == old(store.items) - {DetailsCacheKey}
  {
    store.RemoveItem(DetailsCacheKey);
  }

  /** The result of `getCacheInfo` (without `detailsTimestamp`). */
  datatype CacheSummary = CacheSummary(
    hasLeadsCache: bool,
    hasDetailsCache: bool,
    leadsCount: nat,
    detailsCount: nat,
    leadsTimestamp: Option<int>)

  const NoCache := CacheSummary(false, false, 0, 0, None)

  /** The list entry can be summarised: absent, or a list entry that carries `leads`. */
  predicate LeadsReadable(items: map<string, Blob>)
  {
    LeadsCacheKey !in items || (items[LeadsCacheKey].LeadList? && items[LeadsCacheKey].entry.leads.Some?)
  }

  /**
   * `getCacheInfo`: presence, sizes and the list's timestamp; any stored
   * value it cannot parse or read (including a list entry without `leads`)
   * sends it to the catch, which reports no cache at all.
   */
  function GetCacheInfo(items: map<string, Blob>): (r: CacheSummary)
    ensures !LeadsReadable(items) || DetailsOf(items).None? ==> r == NoCache
    ensures LeadsReadable(items) && DetailsOf(items).Some? ==>
      && (r.hasLeadsCache <==> LeadsCacheKey in items)
      && (r.hasDetailsCache <==> DetailsCacheKey in items)
      && r.leadsCount == (if LeadsCacheKey in items then |items[LeadsCacheKey].entry.leads.value| else 0)
      && r.detailsCount == |DetailsOf(items).value.Keys|
      && r.leadsTimestamp == (if LeadsCacheKey in items then Some(items[LeadsCacheKey].entry.timestamp) else None)
  {
    if !LeadsReadable(items) || DetailsOf(items).None? then NoCache
    else
      var leadsPresent := LeadsCacheKey in items;
      CacheSummary(
        leadsPresent,
        DetailsCacheKey in items,
        if leadsPresent then |items[LeadsCacheKey].entry.leads.value| else 0,
        |DetailsOf(items).value.Keys|,
        if leadsPresent then Some(items[LeadsCacheKey].entry.timestamp) else None)
  }

  // ---------------------------------------------------------------------
  // Properties

  /** A saved list is read back by the same identity for thirty minutes, boundary included, and by no one else. */
  lemma SavedLeadsThenCached(items: map<string, Blob>, leads: seq<Lead>, employeeId: string, email: string,
                             savedAt: int, reader: string, readerEmail: string, now: int)
    ensures CachedLeads(SavedLeads(items, leads, employeeId, email, savedAt), reader, readerEmail, now) ==
      (if reader == employeeId && readerEmail == email && now - savedAt <= CacheDuration then Some(leads) else None)
  {
  }

  /**
   * After a save, each lead of the list can be looked up by id on its own
   * for thirty minutes; with repeated ids the last lead of the list wins.
   */
  lemma SavedLeadsThenDetail(items: map<string, Blob>, leads: seq<Lead>, employeeId: string, email: string,
                             savedAt: int, i: int, now: int)
    requires DetailsOf(items).Some?
    requires 0 <= i < |leads|
    requires forall j :: i < j < |leads| ==> leads[j].id != leads[i].id
    ensures CachedDetail(SavedLeads(items, leads, employeeId, email, savedAt), leads[i].id, now) ==
      (if now - savedAt <= CacheDuration then Some(leads[i]) else None)
  {
    assert leads[i].id in Ids(leads);
    IndexByIdLast(leads, i);
  }

  /** A save leaves the cached details of every other lead as they were. */
  lemma SavedLeadsKeepsOtherDetails(items: map<string, Blob>, leads: seq<Lead>, employeeId: string, email: string,
                                    savedAt: int, leadId: string, now: int)
    requires DetailsOf(items).Some?
    requires leadId !in Ids(leads)
    ensures CachedDetail(SavedLeads(items, leads, employeeId, email, savedAt), leadId, now) == CachedDetail(items, leadId, now)
  {
  }

  /** When the stored details do not parse, a save still writes the list but leaves the details untouched. */
  lemma SavedLeadsWithBrokenDetails(items: map<string, Blob>, leads: seq<Lead>, employeeId: string, email: string, savedAt: int)
    requires DetailsOf(items).None?
    ensures var r := SavedLeads(items, leads, employeeId, email, savedAt);
      r[DetailsCacheKey] == items[DetailsCacheKey] &&
      CachedLeads(r, employeeId, email, savedAt) == Some(leads)
  {
  }

  /** One lead saved on its own is read back for thirty minutes, boundary included. */
  lemma DetailSavedThenCached(items: map<string, Blob>, leadId: string, lead: Lead, savedAt: int, now: int)
    requires DetailsOf(items).Some?
    ensures CachedDetail(DetailSaved(items, leadId, lead, savedAt), leadId, now) ==
      (if now - savedAt <= CacheDuration then Some(lead) else None)
  {
  }

  /** Reading an expired detail deletes that one entry and no other. */
  lemma ExpiredDetailEvictsOnlyItself(items: map<string, Blob>, leadId: string, other: string, now: int)
    requires other != leadId
    ensures forall later :: CachedDetail(AfterDetailRead(items, leadId, now), other, later) == CachedDetail(items, other, later)
    ensures AfterDetailRead(items, leadId, now) - {DetailsCacheKey} == items - {DetailsCacheKey}
    ensures DetailsOf(items).Some? ==>
      && DetailsOf(AfterDetailRead(items, leadId, now)).Some?
      && DetailsOf(AfterDetailRead(items, leadId, now)).value - {leadId} == DetailsOf(items).value - {leadId}
    ensures CachedDetail(AfterDetailRead(items, leadId, now), leadId, now) == CachedDetail(items, leadId, now)
  {
  }

  /** After a save, the summary counts the saved list and the union of old and new detail ids. */
  lemma InfoAfterSave(items: map<string, Blob>, leads: seq<Lead>, employeeId: string, email: string, savedAt: int)
    requires DetailsOf(items).Some?
    ensures var info := GetCacheInfo(SavedLeads(items, leads, employeeId, email, savedAt));
      && info.hasLeadsCache && info.hasDetailsCache
      && info.leadsCount == |leads|
      && info.detailsCount == |DetailsOf(items).value.Keys + Ids(leads)|
      && info.leadsTimestamp == Some(savedAt)
  {
  }

  /**
   * The two services share the list key but not the field name: a list the
   * lead service saved is never returned here, and this module's summary of
   * it is "no cache".
   */
  lemma ServiceListMissesHere(items: map<string, Blob>, leads: seq<Lead>, employeeId: string, email: string,
                              savedAt: int, reader: string, readerEmail: string, now: int)
    ensures CachedLeads(Crm.Saved(items, leads, employeeId, email, savedAt), reader, readerEmail, now).None?
    ensures GetCacheInfo(Crm.Saved(items, leads, employeeId, email, savedAt)) == NoCache
  {
  }

  /** Conversely, a list saved here is a miss for the lead service, which then fetches and overwrites it. */
  lemma ListMissesInService(items: map<string, Blob>, leads: seq<Lead>, employeeId: string, email: string,
                            savedAt: int, reader: string, readerEmail: string, now: int)
    ensures Crm.Cached(SavedLeads(items, leads, employeeId, email, savedAt), reader, readerEmail, now).None?
  {
  }
}
