/**
 * Request sequences over the two stores, each checked against the
 * contracts of the handlers it calls.
 */
module Scenarios {
  import opened Common
  import opened ContactModel
  import opened ContactController
  import DealModel
  import opened DealController

  /** A contact that was just created is found under its new identifier,
      exactly as built from the request, and no other contact changed. */
  method CreateThenGet(store: ContactStore, input: ContactInput, now: nat)
    returns (created: Result<Id>, fetched: Result<Contact>)
    requires store.Valid() && store.clock <= now
    modifies store
    ensures store.Valid()
    ensures created.Ok? ==> fetched == Ok(NewContact(input, now))
    ensures created.Ok? ==> (&& created.value !in old(store.contacts)
                             && store.contacts == old(store.contacts)[created.value := NewContact(input, now)])
    ensures created.Err? ==> store.contacts == old(store.contacts)
  {
    created := store.CreateContact(input, now);
    fetched := Err(ContactNotFound);
    if created.Ok? {
      fetched := store.GetSingleContact(Wellformed(created.value));
    }
  }

  /** Deleting a contact that deals refer to succeeds and touches no deal. */
  method DeleteReferencedContact(deals: DealStore, raw: RawId) returns (r: Result<()>)
    requires deals.directory.Valid() && deals.Valid()
    modifies deals.directory
    ensures raw.Wellformed? && raw.id in old(deals.directory.contacts) ==> r.Ok?
    ensures deals.deals == old(deals.deals)
    ensures deals.Valid()
  {
    r := deals.directory.DeleteContact(raw);
  }

  /** Listing two stored identifiers and an unknown one removes the two and
      reports two. */
  method BulkDeleteWithUnknownId(store: DealStore, a: Id, b: Id, unknown: Id) returns (r: Result<nat>)
    requires store.Valid()
    requires a in store.deals && b in store.deals && unknown !in store.deals && a != b
    modifies store
    ensures r == Ok(2)
    ensures store.deals == old(store.deals) - {a, b}
  {
    var items := [Wellformed(a), Wellformed(b), Wellformed(unknown)];
    ListedThree(items, a, b, unknown);
    TwoOfThree(store.deals.Keys, a, b, unknown);
    r := store.BulkDeleteDeals(Listed(items));
  }

  lemma ListedThree(items: seq<RawId>, a: Id, b: Id, c: Id)
    requires items == [Wellformed(a), Wellformed(b), Wellformed(c)]
    ensures AllWellformed(items) && ListedIds(items) == {a, b, c}
  {
    assert items[0].id == a && items[1].id == b && items[2].id == c;
  }

  lemma TwoOfThree(keys: set<Id>, a: Id, b: Id, unknown: Id)
    requires a in keys && b in keys && unknown !in keys && a != b
    ensures keys * {a, b, unknown} == {a, b} && |keys * {a, b, unknown}| == 2
  {
    assert keys * {a, b, unknown} == {a, b};
  }

  /** A move without a probability fails before reaching the store. */
  method MoveWithoutProbability(store: DealStore, raw: RawId, now: nat) returns (r: Result<DealModel.Deal>)
    requires store.Valid() && store.clock <= now
    modifies store
    ensures r == Err(ServerError) && store.deals == old(store.deals)
  {
    r := store.MoveDeal(raw, Some("Proposal"), None, now);
  }
}
