/**
 * The record types of the lead pipeline: the loosely typed record the
 * webhook returns (`APILead`), the normalised `Lead` the views work on, and
 * the id-keyed index that `new Map(leads.map(l => [l.id, ...]))` builds.
 *
 * Dates are epoch milliseconds. A string field the backend may leave out or
 * send as null is an `Option<string>` when the source declares it optional,
 * and the empty string otherwise; both are falsy in the source's `||` chains.
 */
module Leads {
  import opened Common

  /** The pass-through fields that `mapApiLeadToLead` copies without a fallback. */
  datatype Extras = Extras(
    ucc: Option<string>,
    referredBy: Option<string>,
    city: Option<string>,
    state: Option<string>,
    panNumber: Option<string>,
    branchCode: Option<string>,
    tradeDone: Option<string>,
    nseCm: Option<string>,
    nseCd: Option<string>,
    bseFo: Option<string>,
    mcxCo: Option<string>,
    nseFo: Option<string>,
    bseCm: Option<string>,
    noOfEmployees: Option<string>,
    communicationStatus: Option<string>,
    firstResponseTime: Option<int>,
    firstRespondedOn: Option<string>)

  /** The webhook's lead record (the fields the mapping reads). */
  datatype ApiLead = ApiLead(
    name: string,
    creation: int,
    modified: int,
    leadOwner: string,
    firstName: string,
    email: string,
    mobileNo: string,
    leadName: string,
    issue: string,
    status: string,
    annualRevenue: Option<int>,
    leadSource: string,
    assignee: Option<string>,   // the `assigned` field
    extras: Extras)

  /** A lead as the views hold it; `isNew` and `isModified` are the display-only `_isNew` / `_isModified` flags (absent reads as false). */
  datatype Lead = Lead(
    id: string,
    name: string,
    email: string,
    phone: string,
    company: string,
    status: string,
    source: string,
    value: int,
    createdAt: int,
    assignedTo: string,
    lastActivity: string,
    industry: string,
    notes: string,
    extras: Extras,
    isNew: bool,
    isModified: bool)

  /** The seven pipeline stages the `Lead['status']` type admits. */
  const LeadStatuses: seq<string> := ["new", "contacted", "qualified", "proposal", "negotiation", "won", "lost"]

  predicate Unflagged(l: Lead) { !l.isNew && !l.isModified }

  predicate AllUnflagged(leads: seq<Lead>)
  {
    forall i :: 0 <= i < |leads| ==> Unflagged(leads[i])
  }

  /** `{ ...lead, _isNew: false, _isModified: false }` */
  function Cleared(l: Lead): Lead
  {
    l.(isNew := false, isModified := false)
  }

  /** `leads.map(lead => ({ ...lead, _isNew: false, _isModified: false }))` */
  function ClearAll(leads: seq<Lead>): (r: seq<Lead>)
    ensures |r| == |leads|
    ensures AllUnflagged(r)
    ensures forall i :: 0 <= i < |leads| ==> r[i] == Cleared(leads[i])
  {
    seq(|leads|, i requires 0 <= i < |leads| => Cleared(leads[i]))
  }

  function Ids(leads: seq<Lead>): set<string>
  {
    set l | l in leads :: l.id
  }

  /**
   * `new Map(leads.map(l => [l.id, l]))`: every id of the list, bound to the
   * LAST lead that carries it (a later entry overwrites an earlier one).
   */
  function IndexById(leads: seq<Lead>): (r: map<string, Lead>)
    ensures r.Keys == Ids(leads)
    ensures forall k :: k in r ==> r[k].id == k && r[k] in leads
    decreases |leads|
  {
    if leads == [] then map[]
    else
      var init, last := leads[..|leads| - 1], leads[|leads| - 1];
      assert leads == init + [last];
      assert Ids(leads) == Ids(init) + {last.id};
      IndexById(init)[last.id := last]
  }

  /** The index holds, for each id, the last lead with that id. */
  lemma {:induction false} IndexByIdLast(leads: seq<Lead>, i: int)
    requires 0 <= i < |leads|
    requires forall j :: i < j < |leads| ==> leads[j].id != leads[i].id
    ensures IndexById(leads)[leads[i].id] == leads[i]
    decreases |leads|
  {
    if i < |leads| - 1 {
      var init := leads[..|leads| - 1];
      IndexByIdLast(init, i);
    }
  }

  /** With distinct ids, every lead is the one its id indexes. */
  lemma IndexByIdDistinct(leads: seq<Lead>, i: int)
    requires 0 <= i < |leads|
    requires forall j, k :: 0 <= j < k < |leads| ==> leads[j].id != leads[k].id
    ensures IndexById(leads)[leads[i].id] == leads[i]
  {
    IndexByIdLast(leads, i);
  }
}
