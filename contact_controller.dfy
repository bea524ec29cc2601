/**
 * The contact handlers (src/controller/contact_Controller.js) over the
 * contact collection, modelled as a store object holding the collection as
 * a map from identifier to document. The store's clock stands for
 * `Date.now`; each write is given the current instant `now`, which never
 * runs backwards.
 */
module ContactController {
  import opened Common
  import opened Schema
  import opened ContactModel
  import opened Query

  /** What holds of every stored contact: it satisfies the schema, is in
      the setters' normal form, and its timestamps are ordered and not in
      the future. */
  ghost predicate StoredContact(c: Contact, clock: nat) {
    && ValidContact(c)
    && Normalized(c)
    && c.createdAt <= c.lastActivity <= c.updatedAt <= clock
  }

  /** The unique index on `email`: no two stored contacts share one. */
  ghost predicate EmailsUnique(m: map<Id, Contact>) {
    forall a, b :: a in m && b in m && a != b ==> m[a].email != m[b].email
  }

  /** `Contact.findOne({ email })` finds a document. */
  predicate EmailInUse(m: map<Id, Contact>, email: string) {
    exists k :: k in m && m[k].email == Some(email)
  }

  /** The duplicate check of `createContact`: an email is given and its
      normalised form is already stored. */
  predicate EmailTaken(m: map<Id, Contact>, input: ContactInput) {
    input.email.Some? && EmailInUse(m, NormalizeEmail(input.email.value))
  }

  /** A document other than `id` already holds `email`. */
  predicate EmailHeldByOther(m: map<Id, Contact>, id: Id, email: Option<string>) {
    exists k :: k in m && k != id && m[k].email == email
  }

  ghost predicate AllStored(m: map<Id, Contact>, clock: nat) {
    forall k :: k in m ==> StoredContact(m[k], clock)
  }

  /** Writing a stored-form document whose email no other document holds
      keeps the collection in stored form and the unique index intact, at
      any later instant. */
  lemma StoreWrite(m: map<Id, Contact>, clock: nat, now: nat, id: Id, doc: Contact)
    requires AllStored(m, clock) && EmailsUnique(m) && clock <= now
    requires StoredContact(doc, now) && !EmailHeldByOther(m, id, doc.email)
    ensures AllStored(m[id := doc], now) && EmailsUnique(m[id := doc])
  {
    var m' := m[id := doc];
    forall k | k in m' ensures StoredContact(m'[k], now) {
      if k != id {
        assert StoredContact(m[k], clock);
      }
    }
    forall a, b | a in m' && b in m' && a != b ensures m'[a].email != m'[b].email {
      if a == id {
        assert b in m && b != id;
      } else if b == id {
        assert a in m && a != id;
      }
    }
  }

  /** A new document that passes validation is in stored form, the
      pre-save hook leaves it as built, and when its email is not taken no
      document holds that email. */
  lemma NewContactStorable(m: map<Id, Contact>, now: nat, input: ContactInput, id: Id)
    requires !EmailTaken(m, input) && ContactErrors(NewContact(input, now)) == []
    ensures PreSave(NewContact(input, now), true, true, now) == NewContact(input, now)
    ensures StoredContact(NewContact(input, now), now)
    ensures !EmailHeldByOther(m, id, NewContact(input, now).email)
  {
    var doc := NewContact(input, now);
    if EmailHeldByOther(m, id, doc.email) {
      assert EmailInUse(m, NormalizeEmail(input.email.value));
    }
  }

  function CreationTimes(m: map<Id, Contact>): (t: map<Id, nat>)
    ensures t.Keys == m.Keys
    ensures forall k :: k in t ==> t[k] == m[k].createdAt
  {
    map k | k in m :: m[k].createdAt
  }

  class ContactStore {
    var contacts: map<Id, Contact>
    var clock: nat
    /** Source of fresh identifiers: every stored identifier is below it. */
    var nextId: nat

    ghost predicate Valid()
      reads this
    {
      && (forall k :: k in contacts ==> k.n < nextId)
      && AllStored(contacts, clock)
      && EmailsUnique(contacts)
    }

    constructor ()
      ensures Valid() && contacts == map[] && clock == 0
    {
      contacts := map[];
      clock := 0;
      nextId := 0;
    }

    /** `createContact`: a contact whose normalised email is already stored
        is refused as a duplicate; otherwise the new document is validated
        and, when valid, stored under a fresh identifier. */
    method CreateContact(input: ContactInput, now: nat) returns (r: Result<Id>)
      requires Valid() && clock <= now
      modifies this
      ensures Valid()
      ensures EmailTaken(old(contacts), input) ==> r == Err(Duplicate)
      ensures !EmailTaken(old(contacts), input) && ContactErrors(NewContact(input, now)) != []
              ==> r == Err(Validation(ContactErrors(NewContact(input, now))))
      ensures r.Ok? <==> !EmailTaken(old(contacts), input) && ContactErrors(NewContact(input, now)) == []
      ensures r.Ok? ==> (&& r.value !in old(contacts)
                         && contacts == old(contacts)[r.value := NewContact(input, now)]
                         && clock == now)
      ensures r.Err? ==> contacts == old(contacts) && clock == old(clock)
    {
      if EmailTaken(contacts, input) {
        return Err(Duplicate);
      }
      var doc := NewContact(input, now);
      var errors := ContactErrors(doc);
      if errors != [] {
        return Err(Validation(errors));
      }
      NewContactStorable(contacts, now, input, ObjectId(nextId));
      doc := PreSave(doc, true, true, now);
      var id := ObjectId(nextId);
      Write(id, doc, now);
      r := Ok(id);
    }

    /** Stores `doc` under `id` (a stored identifier or the next fresh one),
        keeping the store's invariant. */
    method Write(id: Id, doc: Contact, now: nat)
      requires Valid() && clock <= now
      requires id in contacts || id.n == nextId
      requires StoredContact(doc, now) && !EmailHeldByOther(contacts, id, doc.email)
      modifies this
      ensures Valid()
      ensures contacts == old(contacts)[id := doc] && clock == now
    {
      StoreWrite(contacts, clock, now, id, doc);
      if id.n == nextId {
        nextId := nextId + 1;
      }
      contacts := contacts[id := doc];
      clock := now;
    }

    /** `getContacts`: every contact once, newest first, and their count. */
    method GetContacts() returns (ids: seq<Id>, data: seq<Contact>, count: nat)
      ensures Distinct(ids)
      ensures forall k :: k in ids <==> k in contacts
      ensures data == Records(contacts, ids)
      ensures forall i, j :: 0 <= i < j < |data| ==> data[i].createdAt >= data[j].createdAt
      ensures count == |data| == |contacts|
    {
      ids := NewestFirst(CreationTimes(contacts));
      data := Records(contacts, ids);
      count := |data|;
    }

    /** `getSingleContact`. */
    method GetSingleContact(raw: RawId) returns (r: Result<Contact>)
      ensures raw.Malformed? ==> r == Err(InvalidId)
      ensures raw.Wellformed? && raw.id !in contacts ==> r == Err(ContactNotFound)
      ensures raw.Wellformed? && raw.id in contacts ==> r == Ok(contacts[raw.id])
    {
      if raw.Malformed? {
        return Err(InvalidId);
      }
      if raw.id !in contacts {
        return Err(ContactNotFound);
      }
      r := Ok(contacts[raw.id]);
    }

    /** `Contact.findByIdAndUpdate(id, fields, { new: true, runValidators: true })`:
        the identifier is cast, the provided fields are validated, the
        document is looked up, and the unique index refuses an email held by
        another document. Only a fully accepted update changes the store. */
    method FindByIdAndUpdate(raw: RawId, input: ContactInput, now: nat) returns (r: Result<Contact>)
      requires Valid() && clock <= now
      modifies this
      ensures Valid()
      ensures raw.Malformed? ==> r == Err(InvalidId)
      ensures raw.Wellformed? && InputErrors(input) != [] ==> r == Err(Validation(InputErrors(input)))
      ensures raw.Wellformed? && InputErrors(input) == [] && raw.id !in old(contacts)
              ==> r == Err(ContactNotFound)
      ensures raw.Wellformed? && InputErrors(input) == [] && raw.id in old(contacts)
              ==> var updated := ApplyContactInput(old(contacts)[raw.id], input, now);
                  r == if EmailHeldByOther(old(contacts), raw.id, updated.email)
                       then Err(Duplicate) else Ok(updated)
      ensures r.Ok? ==> contacts == old(contacts)[raw.id := r.value] && clock == now
      ensures r.Err? ==> contacts == old(contacts) && clock == old(clock)
    {
      if raw.Malformed? {
        return Err(InvalidId);
      }
      var errors := InputErrors(input);
      if errors != [] {
        return Err(Validation(errors));
      }
      if raw.id !in contacts {
        return Err(ContactNotFound);
      }
      var updated := ApplyContactInput(contacts[raw.id], input, now);
      if EmailHeldByOther(contacts, raw.id, updated.email) {
        return Err(Duplicate);
      }
      ApplyValidIff(contacts[raw.id], input, now);
      assert StoredContact(contacts[raw.id], clock);
      Write(raw.id, updated, now);
      r := Ok(updated);
    }

    /** `updateContact`: every store failure is reported by name. */
    method UpdateContact(raw: RawId, input: ContactInput, now: nat) returns (r: Result<Contact>)
      requires Valid() && clock <= now
      modifies this
      ensures Valid()
      ensures raw.Malformed? ==> r == Err(InvalidId)
      ensures raw.Wellformed? && InputErrors(input) != [] ==> r == Err(Validation(InputErrors(input)))
      ensures raw.Wellformed? && InputErrors(input) == [] && raw.id !in old(contacts)
              ==> r == Err(ContactNotFound)
      ensures raw.Wellformed? && InputErrors(input) == [] && raw.id in old(contacts)
              ==> var updated := ApplyContactInput(old(contacts)[raw.id], input, now);
                  r == if EmailHeldByOther(old(contacts), raw.id, updated.email)
                       then Err(Duplicate) else Ok(updated)
      ensures r.Ok? ==> contacts == old(contacts)[raw.id := r.value]
      ensures r.Err? ==> contacts == old(contacts)
    {
      r := FindByIdAndUpdate(raw, input, now);
    }

    /** `deleteContact`: removes the document; deals that name it are not
        touched. */
    method DeleteContact(raw: RawId) returns (r: Result<()>)
      requires Valid()
      modifies this
      ensures Valid()
      ensures raw.Malformed? ==> r == Err(InvalidId)
      ensures raw.Wellformed? && raw.id !in old(contacts) ==> r == Err(ContactNotFound)
      ensures r.Ok? <==> raw.Wellformed? && raw.id in old(contacts)
      ensures r.Ok? ==> contacts == old(contacts) - {raw.id}
      ensures r.Err? ==> contacts == old(contacts)
      ensures clock == old(clock)
    {
      if raw.Malformed? {
        return Err(InvalidId);
      }
      if raw.id !in contacts {
        return Err(ContactNotFound);
      }
      contacts := contacts - {raw.id};
      r := Ok(());
    }

    /** `assignContact`: writes each of the two fields exactly when the
        request defines it (an empty string included) and refreshes
        `updatedAt`. A validation failure is not caught by name and is
        answered as a server error. */
    method AssignContact(raw: RawId, employee: Option<string>, manager: Option<string>, now: nat)
      returns (r: Result<Contact>)
      requires Valid() && clock <= now
      modifies this
      ensures Valid()
      ensures raw.Malformed? ==> r == Err(InvalidId)
      ensures r == Err(ServerError) <==>
              raw.Wellformed? && !(Within(TrimOpt(employee), 100) && Within(TrimOpt(manager), 100))
      ensures raw.Wellformed? && Within(TrimOpt(employee), 100) && Within(TrimOpt(manager), 100)
              ==> r.Ok? == (raw.id in old(contacts))
      ensures raw.Wellformed? && Within(TrimOpt(employee), 100) && Within(TrimOpt(manager), 100)
              && raw.id !in old(contacts)
              ==> r == Err(ContactNotFound)
      ensures r.Ok? ==> var c := old(contacts)[raw.id];
                       && r.value == c.(assignEmployee := Override(c.assignEmployee, TrimOpt(employee)),
                                        assignManager := Override(c.assignManager, TrimOpt(manager)),
                                        updatedAt := now)
                       && contacts == old(contacts)[raw.id := r.value]
      ensures r.Err? ==> contacts == old(contacts)
    {
      var update := NoContactFields;
      if employee.Some? { update := update.(assignEmployee := employee); }
      if manager.Some? { update := update.(assignManager := manager); }
      assert InputErrors(update) == [] <==> Within(TrimOpt(employee), 100) && Within(TrimOpt(manager), 100);
      if raw.Wellformed? && raw.id in contacts {
        assert !EmailHeldByOther(contacts, raw.id, contacts[raw.id].email);
      }
      r := FindByIdAndUpdate(raw, update, now);
      if r.Err? && r.failure.Validation? {
        r := Err(ServerError);
      }
    }
  }
}
