/**
 * The deal handlers (src/controller/deal_Controller.js) over the deal
 * collection, modelled as a store object holding the collection as a map
 * from identifier to document. The store reads the contact collection
 * through the contact store it is given; it never changes it, and the
 * contact handlers never change deals, so a deal may name a contact that
 * has since been deleted.
 */
module DealController {
  import opened Common
  import opened Schema
  import opened DealModel
  import opened DealQueries
  import opened Query
  import ContactModel
  import opened ContactController

  /** What holds of every stored deal: it satisfies the schema, is in the
      setters' normal form, and its timestamps are ordered and not in the
      future. */
  ghost predicate StoredDeal(d: Deal, clock: nat) {
    && ValidDeal(d)
    && NormalizedDeal(d)
    && d.createdAt <= d.updatedAt <= clock
  }

  ghost predicate AllStoredDeals(m: map<Id, Deal>, clock: nat) {
    forall k :: k in m ==> StoredDeal(m[k], clock)
  }

  /** Writing a stored-form deal keeps the collection in stored form at any
      later instant. */
  lemma StoreDealWrite(m: map<Id, Deal>, clock: nat, now: nat, id: Id, doc: Deal)
    requires AllStoredDeals(m, clock) && clock <= now && StoredDeal(doc, now)
    ensures AllStoredDeals(m[id := doc], now)
  {
    var m' := m[id := doc];
    forall k | k in m' ensures StoredDeal(m'[k], now) {
      if k != id {
        assert StoredDeal(m[k], clock);
      }
    }
  }

  /** Creation instants of the documents of `m` that satisfy `q`. */
  function SelectedTimes(m: map<Id, Deal>, q: seq<Condition>): (t: map<Id, nat>)
    ensures forall k :: k in t <==> k in m && Satisfies(q, m[k])
    ensures forall k :: k in t ==> t[k] == m[k].createdAt
  {
    map k | k in m && Satisfies(q, m[k]) :: m[k].createdAt
  }

  /** The `dealIds` field of a bulk-delete request body. */
  datatype DealIdsArg = Missing | NotAnArray | Listed(items: seq<RawId>)

  predicate AllWellformed(items: seq<RawId>) {
    forall i :: 0 <= i < |items| ==> items[i].Wellformed?
  }

  /** The identifiers `{ _id: { $in: dealIds } }` matches. */
  function ListedIds(items: seq<RawId>): set<Id>
    requires AllWellformed(items)
  {
    set i | 0 <= i < |items| :: items[i].id
  }

  /** A list names at most as many documents as it has entries. */
  lemma {:induction false} ListedIdsBound(items: seq<RawId>)
    requires AllWellformed(items)
    ensures |ListedIds(items)| <= |items|
  {
    if items != [] {
      var init := items[..|items| - 1];
      assert AllWellformed(init);
      ListedIdsBound(init);
      assert ListedIds(items) == ListedIds(init) + {items[|items| - 1].id} by {
        forall x | x in ListedIds(items) ensures x in ListedIds(init) + {items[|items| - 1].id} {
          var i :| 0 <= i < |items| && items[i].id == x;
          if i < |items| - 1 {
            assert init[i] == items[i];
          }
        }
        forall x | x in ListedIds(init) ensures x in ListedIds(items) {
          var i :| 0 <= i < |init| && init[i].id == x;
          assert items[i] == init[i];
        }
      }
    }
  }

  /** Removing the keys `gone` removes exactly the stored ones among them. */
  lemma RemovalCount(m: map<Id, Deal>, gone: set<Id>)
    ensures |m - gone| == |m| - |m.Keys * gone|
  {
    assert (m - gone).Keys == m.Keys - gone;
    assert m.Keys == (m.Keys - gone) + (m.Keys * gone);
    assert (m.Keys - gone) * (m.Keys * gone) == {};
  }

  /** The update `moveDeal` sends once `probability` is truthy. */
  function MovePatch(stage: Option<string>, probability: Option<int>): DealInput {
    NoDealFields.(stage := stage, probability := probability)
  }

  /** The update `assignDeal` builds: each field only when truthy. */
  function AssignPatch(executive: Option<string>, manager: Option<string>): DealInput {
    NoDealFields.(executive := if Truthy(executive) then executive else None,
                  manager := if Truthy(manager) then manager else None)
  }

  /** The request names, by a well-formed identifier, a contact that is not
      stored. */
  predicate UnknownContact(input: DealInput, contacts: map<Id, ContactModel.Contact>) {
    input.contactId.Some? && input.contactId.value.Wellformed?
    && input.contactId.value.id !in contacts
  }

  class DealStore {
    /** The contact collection the create and update handlers look up. */
    const directory: ContactStore
    var deals: map<Id, Deal>
    var clock: nat

    ghost predicate Valid()
      reads this
    {
      AllStoredDeals(deals, clock)
    }

    /** A store over deals already in the database: every one satisfies the
        schema, since the only way in is a validated save. */
    constructor (directory: ContactStore, seed: map<Id, Deal>, clock: nat)
      requires AllStoredDeals(seed, clock)
      ensures Valid()
      ensures this.directory == directory && deals == seed && this.clock == clock
    {
      this.directory := directory;
      deals := seed;
      this.clock := clock;
    }

    /** `createDeal`: the contact is looked up first (an absent or unknown
        `contactId` is "not found", a malformed one a server error); the
        document built from the request is then saved, and the save always
        fails validation because the handler never passes the required
        `associatedCompany`. The store is never changed. */
    method CreateDeal(input: DealInput, now: nat) returns (r: Result<Id>)
      ensures input.contactId.None? ==> r == Err(ContactNotFound)
      ensures input.contactId.Some? && input.contactId.value.Malformed? ==> r == Err(ServerError)
      ensures input.contactId.Some? && input.contactId.value.Wellformed?
              && input.contactId.value.id !in directory.contacts
              ==> r == Err(ContactNotFound)
      ensures input.contactId.Some? && input.contactId.value.Wellformed?
              && input.contactId.value.id in directory.contacts
              ==> (&& r.Err? && r.failure.Validation?
                   && AssociatedCompanyRequired in r.failure.messages)
      ensures r.Err?
    {
      if input.contactId.None? {
        return Err(ContactNotFound);
      }
      match input.contactId.value
      case Malformed(_) =>
        r := Err(ServerError);
      case Wellformed(contact) =>
        if contact !in directory.contacts {
          return Err(ContactNotFound);
        }
        var doc := NewDeal(input, contact, now);
        NewDealNeverValid(input, contact, now);
        r := Err(Validation(DealErrors(doc)));
    }

    /** `getDeals`: every deal once, newest first, and their count. */
    method GetDeals() returns (ids: seq<Id>, data: seq<Deal>, count: nat)
      ensures Distinct(ids)
      ensures forall k :: k in ids <==> k in deals
      ensures data == Records(deals, ids)
      ensures forall i, j :: 0 <= i < j < |data| ==> data[i].createdAt >= data[j].createdAt
      ensures count == |data| == |deals|
    {
      ids := NewestFirst(SelectedTimes(deals, []));
      EnumerationLength(ids, deals);
      data := Records(deals, ids);
      count := |data|;
    }

    /** `getDeal`. */
    method GetDeal(raw: RawId) returns (r: Result<Deal>)
      ensures raw.Malformed? ==> r == Err(InvalidId)
      ensures raw.Wellformed? && raw.id !in deals ==> r == Err(DealNotFound)
      ensures raw.Wellformed? && raw.id in deals ==> r == Ok(deals[raw.id])
    {
      if raw.Malformed? {
        return Err(InvalidId);
      }
      if raw.id !in deals {
        return Err(DealNotFound);
      }
      r := Ok(deals[raw.id]);
    }

    /** `filterDeals`: exactly the deals the criteria select, each once,
        newest first, and their count. */
    method FilterDeals(criteria: Criteria) returns (ids: seq<Id>, data: seq<Deal>, count: nat)
      ensures Distinct(ids)
      ensures forall k :: k in ids <==> k in deals && Wanted(criteria, deals[k])
      ensures data == Records(deals, ids)
      ensures forall i, j :: 0 <= i < j < |data| ==> data[i].createdAt >= data[j].createdAt
      ensures count == |data| == |ids|
      ensures Unfiltered(criteria) ==> count == |deals|
    {
      var q := BuildFilter(criteria);
      var selected := SelectedTimes(deals, q);
      ids := NewestFirst(selected);
      forall k | k in deals ensures k in selected <==> Wanted(criteria, deals[k]) {
        FilterMeaning(criteria, deals[k]);
      }
      if Unfiltered(criteria) {
        forall k | k in deals ensures Wanted(criteria, deals[k]) {
          NoCriteriaSelectsAll(criteria, deals[k]);
        }
        EnumerationLength(ids, deals);
      }
      data := Records(deals, ids);
      count := |data|;
    }

    /** `getDealAnalytics`: the three group-bys and the summary over the
        whole collection, scanned once in some order. */
    method DealAnalytics() returns (a: Analytics, ghost scan: seq<Id>)
      ensures Distinct(scan) && forall k :: k in scan <==> k in deals
      ensures a == AnalyticsOf(Records(deals, scan))
      ensures a.summary.totalDeals == |deals|
      ensures && SumCounts(a.byStage) == |deals| && SumCounts(a.byPriority) == |deals|
              && SumCounts(a.byStatus) == |deals|
      ensures && SumAmounts(a.byStage) == a.summary.totalValue
              && SumAmounts(a.byPriority) == a.summary.totalValue
              && SumAmounts(a.byStatus) == a.summary.totalValue
      ensures deals == map[] ==> (&& a.summary == Summary(0, 0, Mean(0, 0), Mean(0, 0))
                                  && a.byStage == [] && a.byPriority == [] && a.byStatus == [])
    {
      var ids := NewestFirst(SelectedTimes(deals, []));
      EnumerationLength(ids, deals);
      scan := ids;
      a := AnalyticsOf(Records(deals, ids));
      AnalyticsConsistent(Records(deals, ids));
    }

    /** Stores `doc` under `id`, keeping the store's invariant. */
    method Write(id: Id, doc: Deal, now: nat)
      requires Valid() && clock <= now && StoredDeal(doc, now)
      modifies this
      ensures Valid()
      ensures deals == old(deals)[id := doc] && clock == now
    {
      StoreDealWrite(deals, clock, now, id, doc);
      deals := deals[id := doc];
      clock := now;
    }

    /** `Deal.findByIdAndUpdate(id, patch, { new: true, runValidators: true })`:
        the identifier is cast, the provided fields are validated, then the
        document is looked up; only an accepted update changes the store. */
    method FindByIdAndUpdate(raw: RawId, patch: DealInput, now: nat) returns (r: Result<Deal>)
      requires Valid() && clock <= now && CastIds(patch)
      modifies this
      ensures Valid()
      ensures raw.Malformed? ==> r == Err(InvalidId)
      ensures raw.Wellformed? && DealInputErrors(patch) != [] ==> r == Err(Validation(DealInputErrors(patch)))
      ensures raw.Wellformed? && DealInputErrors(patch) == [] ==>
              r == if raw.id in old(deals) then Ok(ApplyDealInput(old(deals)[raw.id], patch, now))
                   else Err(DealNotFound)
      ensures r.Ok? ==> deals == old(deals)[raw.id := r.value] && clock == now
      ensures r.Err? ==> deals == old(deals) && clock == old(clock)
    {
      if raw.Malformed? {
        return Err(InvalidId);
      }
      var errors := DealInputErrors(patch);
      if errors != [] {
        return Err(Validation(errors));
      }
      if raw.id !in deals {
        return Err(DealNotFound);
      }
      var current := deals[raw.id];
      assert StoredDeal(current, clock);
      ApplyDealValidIff(current, patch, now);
      var updated := ApplyDealInput(current, patch, now);
      Write(raw.id, updated, now);
      r := Ok(updated);
    }

    /** `moveDeal`: the update object reads `deal` inside its own
        initializer, so a falsy `probability` raises a reference error
        before any query and nothing changes. A truthy one sets `stage` (when
        given) and `probability`; a malformed identifier is not caught by
        name and is a server error. */
    method MoveDeal(raw: RawId, stage: Option<string>, probability: Option<int>, now: nat)
      returns (r: Result<Deal>)
      requires Valid() && clock <= now
      modifies this
      ensures Valid()
      ensures !TruthyNumber(probability) ==> r == Err(ServerError)
      ensures raw.Malformed? ==> r == Err(ServerError)
      ensures TruthyNumber(probability) && raw.Wellformed?
              && DealInputErrors(MovePatch(stage, probability)) != []
              ==> r == Err(Validation(DealInputErrors(MovePatch(stage, probability))))
      ensures TruthyNumber(probability) && raw.Wellformed? && raw.id !in old(deals)
              && DealInputErrors(MovePatch(stage, probability)) == []
              ==> r == Err(DealNotFound)
      ensures r.Ok? <==> TruthyNumber(probability) && raw.Wellformed? && raw.id in old(deals)
                         && (stage.Some? ==> stage.value in Stages)
                         && 0 <= probability.value <= 100
      ensures r.Ok? ==> var d := old(deals)[raw.id];
                       && r.value == d.(stage := stage.GetOr(d.stage), probability := probability.value,
                                        updatedAt := now)
                       && deals == old(deals)[raw.id := r.value]
      ensures r.Err? ==> deals == old(deals)
    {
      if !TruthyNumber(probability) {
        return Err(ServerError);
      }
      var patch := MovePatch(stage, probability);
      r := FindByIdAndUpdate(raw, patch, now);
      if r == Err(InvalidId) {
        r := Err(ServerError);
      }
    }

    /** `updateDeal`: a truthy `contactId` must name a stored contact (a
        malformed one fails its cast and is answered as an invalid
        identifier); the request's fields are then applied. */
    method UpdateDeal(raw: RawId, input: DealInput, now: nat) returns (r: Result<Deal>)
      requires Valid() && clock <= now
      modifies this
      ensures Valid()
      ensures raw.Malformed? && !UnknownContact(input, directory.contacts) ==> r == Err(InvalidId)
      ensures input.contactId.Some? && input.contactId.value.Malformed? ==> r == Err(InvalidId)
      ensures UnknownContact(input, directory.contacts) ==> r == Err(ContactNotFound)
      ensures r.Ok? ==> (&& raw.Wellformed? && raw.id in old(deals)
                         && CastIds(input) && DealInputErrors(input) == []
                         && (input.contactId.Some? ==> input.contactId.value.id in directory.contacts)
                         && r.value == ApplyDealInput(old(deals)[raw.id], input, now)
                         && deals == old(deals)[raw.id := r.value])
      ensures raw.Wellformed? && CastIds(input)
              && (input.contactId.Some? ==> input.contactId.value.id in directory.contacts)
              ==> (&& (DealInputErrors(input) != [] ==> r == Err(Validation(DealInputErrors(input))))
                   && (DealInputErrors(input) == [] ==>
                         r == if raw.id in old(deals) then Ok(ApplyDealInput(old(deals)[raw.id], input, now))
                              else Err(DealNotFound)))
      ensures r.Err? ==> deals == old(deals)
    {
      if TruthyId(input.contactId) {
        match input.contactId.value
        case Malformed(_) =>
          return Err(InvalidId);
        case Wellformed(contact) =>
          if contact !in directory.contacts {
            return Err(ContactNotFound);
          }
      }
      if !CastIds(input) {
        return Err(InvalidId);
      }
      r := FindByIdAndUpdate(raw, input, now);
    }

    /** `updateDealStage`: sets `stage` when given; every failure other than
        a missing deal is a server error. */
    method UpdateDealStage(raw: RawId, stage: Option<string>, now: nat) returns (r: Result<Deal>)
      requires Valid() && clock <= now
      modifies this
      ensures Valid()
      ensures raw.Malformed? ==> r == Err(ServerError)
      ensures raw.Wellformed? && stage.Some? && stage.value !in Stages ==> r == Err(ServerError)
      ensures raw.Wellformed? && (stage.Some? ==> stage.value in Stages) && raw.id !in old(deals)
              ==> r == Err(DealNotFound)
      ensures r.Ok? <==> raw.Wellformed? && raw.id in old(deals) && (stage.Some? ==> stage.value in Stages)
      ensures r.Ok? ==> var d := old(deals)[raw.id];
                       && r.value == d.(stage := stage.GetOr(d.stage), updatedAt := now)
                       && deals == old(deals)[raw.id := r.value]
      ensures r.Err? ==> r.failure == ServerError || r.failure == DealNotFound
      ensures r.Err? ==> deals == old(deals)
    {
      r := FindByIdAndUpdate(raw, NoDealFields.(stage := stage), now);
      if r.Err? && r.failure != DealNotFound {
        r := Err(ServerError);
      }
    }

    /** `updateDealPriority`: sets `priority` when given; every failure other
        than a missing deal is a server error. */
    method UpdateDealPriority(raw: RawId, priority: Option<string>, now: nat) returns (r: Result<Deal>)
      requires Valid() && clock <= now
      modifies this
      ensures Valid()
      ensures raw.Malformed? ==> r == Err(ServerError)
      ensures raw.Wellformed? && priority.Some? && priority.value !in Priorities ==> r == Err(ServerError)
      ensures raw.Wellformed? && (priority.Some? ==> priority.value in Priorities) && raw.id !in old(deals)
              ==> r == Err(DealNotFound)
      ensures r.Ok? <==> raw.Wellformed? && raw.id in old(deals)
                         && (priority.Some? ==> priority.value in Priorities)
      ensures r.Ok? ==> var d := old(deals)[raw.id];
                       && r.value == d.(priority := priority.GetOr(d.priority), updatedAt := now)
                       && deals == old(deals)[raw.id := r.value]
      ensures r.Err? ==> r.failure == ServerError || r.failure == DealNotFound
      ensures r.Err? ==> deals == old(deals)
    {
      r := FindByIdAndUpdate(raw, NoDealFields.(priority := priority), now);
      if r.Err? && r.failure != DealNotFound {
        r := Err(ServerError);
      }
    }

    /** `assignDeal`: writes `executive` and `manager` only when truthy, so
        an empty string leaves the stored value in place. */
    method AssignDeal(raw: RawId, executive: Option<string>, manager: Option<string>, now: nat)
      returns (r: Result<Deal>)
      requires Valid() && clock <= now
      modifies this
      ensures Valid()
      ensures raw.Malformed? ==> r == Err(ServerError)
      ensures raw.Wellformed? && DealInputErrors(AssignPatch(executive, manager)) != []
              ==> r == Err(ServerError)
      ensures raw.Wellformed? && DealInputErrors(AssignPatch(executive, manager)) == []
              && raw.id !in old(deals)
              ==> r == Err(DealNotFound)
      ensures r.Ok? <==> raw.Wellformed? && raw.id in old(deals)
                         && DealInputErrors(AssignPatch(executive, manager)) == []
      ensures r.Ok? ==> var d := old(deals)[raw.id];
                       && r.value == d.(executive := if Truthy(executive) then TrimOpt(executive) else d.executive,
                                        manager := if Truthy(manager) then TrimOpt(manager) else d.manager,
                                        updatedAt := now)
                       && deals == old(deals)[raw.id := r.value]
      ensures r.Err? ==> r.failure == ServerError || r.failure == DealNotFound
      ensures r.Err? ==> deals == old(deals)
    {
      var update := NoDealFields;
      if Truthy(executive) { update := update.(executive := executive); }
      if Truthy(manager) { update := update.(manager := manager); }
      assert update == AssignPatch(executive, manager);
      r := FindByIdAndUpdate(raw, update, now);
      if r.Err? && r.failure != DealNotFound {
        r := Err(ServerError);
      }
    }

    /** `deleteDeal`. */
    method DeleteDeal(raw: RawId) returns (r: Result<()>)
      requires Valid()
      modifies this
      ensures Valid()
      ensures raw.Malformed? ==> r == Err(InvalidId)
      ensures raw.Wellformed? && raw.id !in old(deals) ==> r == Err(DealNotFound)
      ensures r.Ok? <==> raw.Wellformed? && raw.id in old(deals)
      ensures r.Ok? ==> deals == old(deals) - {raw.id}
      ensures r.Err? ==> deals == old(deals)
      ensures clock == old(clock)
    {
      if raw.Malformed? {
        return Err(InvalidId);
      }
      if raw.id !in deals {
        return Err(DealNotFound);
      }
      deals := deals - {raw.id};
      r := Ok(());
    }

    /** `bulkDeleteDeals`: a missing, non-array or empty `dealIds` is a bad
        request; a malformed entry fails the cast and is a server error with
        nothing removed; otherwise every listed deal that exists is removed
        and their number reported, unknown identifiers being ignored. */
    method BulkDeleteDeals(arg: DealIdsArg) returns (r: Result<nat>)
      requires Valid()
      modifies this
      ensures Valid()
      ensures arg.Missing? || arg.NotAnArray? || arg == Listed([]) ==> r == Err(BadRequest)
      ensures arg.Listed? && arg.items != [] && !AllWellformed(arg.items) ==> r == Err(ServerError)
      ensures r.Ok? <==> arg.Listed? && arg.items != [] && AllWellformed(arg.items)
      ensures r.Ok? ==> (&& deals == old(deals) - ListedIds(arg.items)
                         && r.value == |old(deals).Keys * ListedIds(arg.items)|
                         && r.value <= |arg.items|
                         && |deals| == |old(deals)| - r.value)
      ensures r.Err? ==> deals == old(deals)
      ensures clock == old(clock)
    {
      if arg.Missing? || arg.NotAnArray? || arg.items == [] {
        return Err(BadRequest);
      }
      if !AllWellformed(arg.items) {
        return Err(ServerError);
      }
      var gone := ListedIds(arg.items);
      var removed := deals.Keys * gone;
      ListedIdsBound(arg.items);
      RemovalCount(deals, gone);
      assert |removed| <= |gone| by {
        assert removed <= gone;
      }
      deals := deals - gone;
      r := Ok(|removed|);
    }
  }
}
