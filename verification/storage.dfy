/**
 * The browser's `localStorage` as both lead caches use it: a map from string
 * keys to stored blobs. A blob is the parsed form of the JSON text stored
 * under a key; text that `JSON.parse` rejects is `Unparsable`. The two cache
 * modules share the key `'crm_leads_cache'` but name the stored list
 * differently (`data` in one, `leads` in the other), so a list entry records
 * which of the two fields it carries.
 */
module Storage {
  import opened Common
  import opened Leads

  /** `{ data?, leads?, timestamp, employeeId, email }` under the list key. */
  datatype LeadsEntry = LeadsEntry(
    data: Option<seq<Lead>>,
    leads: Option<seq<Lead>>,
    timestamp: int,
    employeeId: string,
    email: string)

  /** One value of the per-lead details map: `{ lead, timestamp }`. */
  datatype DetailEntry = DetailEntry(lead: Lead, timestamp: int)

  datatype Blob =
    | LeadList(entry: LeadsEntry)
    | DetailMap(entries: map<string, DetailEntry>)
    | Unparsable

  /** Which field of a list entry a module reads: `cachedData.data` or `cachedData.leads`. */
  datatype ListField = DataField | LeadsField

  function ListIn(e: LeadsEntry, field: ListField): Option<seq<Lead>>
  {
    match field
    case DataField => e.data
    case LeadsField => e.leads
  }

  /** `Date.now() - timestamp > ttl`: an entry exactly `ttl` old is still fresh. */
  predicate Expired(timestamp: int, now: int, ttl: int)
  {
    now - timestamp > ttl
  }

  predicate SameUser(e: LeadsEntry, employeeId: string, email: string)
  {
    e.employeeId == employeeId && e.email == email
  }

  /**
   * The list a `getCachedLeads` returns: the list stored in `field` of the
   * entry under `key`, but only while the entry is fresh and was written for
   * the same employee id and email.
   */
  function CachedList(items: map<string, Blob>, key: string, field: ListField, ttl: int,
                      employeeId: string, email: string, now: int): (r: Option<seq<Lead>>)
    ensures r.Some? <==>
      && key in items && items[key].LeadList?
      && !Expired(items[key].entry.timestamp, now, ttl)
      && SameUser(items[key].entry, employeeId, email)
      && ListIn(items[key].entry, field).Some?
    ensures r.Some? ==> r == ListIn(items[key].entry, field)
  {
    if key !in items then None
    else match items[key]
      case LeadList(e) =>
        if Expired(e.timestamp, now, ttl) || !SameUser(e, employeeId, email) then None
        else ListIn(e, field)
      case _ => None
  }

  /**
   * The storage after a `getCachedLeads`: an expired entry, or one written
   * for another user, is removed; anything else stays as it was.
   */
  function AfterListRead(items: map<string, Blob>, key: string, ttl: int,
                         employeeId: string, email: string, now: int): (r: map<string, Blob>)
    ensures r == items || r == items - {key}
    ensures key !in r <==>
      key !in items ||
      (items[key].LeadList? &&
       (Expired(items[key].entry.timestamp, now, ttl) || !SameUser(items[key].entry, employeeId, email)))
  {
    if key in items && items[key].LeadList? &&
       (Expired(items[key].entry.timestamp, now, ttl) || !SameUser(items[key].entry, employeeId, email))
    then items - {key}
    else items
  }

  /** The browser storage: one mutable map from key to blob. */
  class Store {
    var items: map<string, Blob>

    constructor (initial: map<string, Blob>)
      ensures items == initial
    {
      items := initial;
    }

    /** `localStorage.getItem(key)`, already parsed. */
    function GetItem(key: string): (r: Option<Blob>)
      reads this
      ensures r.Some? <==> key in items
      ensures r.Some? ==> r.value == items[key]
    {
      if key in items then Some(items[key]) else None
    }

    /** `localStorage.setItem(key, JSON.stringify(value))` */
    method SetItem(key: string, value: Blob)
      modifies this
      ensures items == old(items)[key := value]
    {
      items := items[key := value];
    }

    /** `localStorage.removeItem(key)`: nothing happens when the key is absent. */
    method RemoveItem(key: string)
      modifies this
      ensures items == old(items) - {key}
    {
      items := items - {key};
    }
  }
}
