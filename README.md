# CRM contact and deal store: a Dafny model

This project models the core of a small CRM backend built on Express and
Mongoose. The backend keeps two collections:

- **Contacts.** Each contact is checked against a schema: required fields,
  maximum lengths, the email and phone regular expressions, enumerations
  with defaults, and a unique email. Setters trim text and lower-case the
  email.
- **Deals.** Each deal is checked against its own schema and refers to a
  contact through `contactId`.

The request handlers create, list, read, update, partially update
("assign") and delete records in both collections. On deals there are
also three more handlers:

- a filter that builds a query object from optional criteria;
- an analytics handler that groups deals by stage, priority and status and
  computes a summary;
- a bulk delete that reports how many deals it removed.

## How the model is built

The model has three layers.

The **schemas** (`contact_model.dfy`, `deal_model.dfy`) are pure
functions and predicates. The string operations behind the setters
(`trim`, `lowercase`) are in `text.dfy`, and the validators and the update
rule that both schemas share are in `schema.dfy`.

- Each collection has a validity predicate (`ValidContact`, `ValidDeal`).
- One function lists the validator messages, with one message per
  offending path. It is proved to be empty exactly when the document is
  valid.
- The setters produce a normal form.
- The pre-save hook is modelled as a function.
- For a partial update, the update validators check only the fields the
  request provides. A lemma shows that they accept the request exactly
  when the patched document is still valid.

The **queries** (`query.dfy`, `deal_queries.dfy`) are pure:

- the newest-first scan that listing uses;
- the filter object and its meaning;
- the group-by aggregation and its partition properties.

The **handlers** (`contact_controller.dfy`, `deal_controller.dfy`) are
methods on two store classes:

- Each store holds its collection as a `map` from identifier to document,
  plus a clock that stands in for `Date.now`.
- Every handler keeps the store invariant: every stored record is valid,
  in normal form, and has ordered timestamps. Contact emails are unique.
- On every failure path the collection is unchanged.
- On success the contract states the new collection exactly.

`Date.now` becomes a `now` parameter that never runs backwards. The
database becomes the two maps. A request identifier is a `RawId`: either
well-formed, or a malformed string that fails Mongoose's `ObjectId` cast
with a `CastError`.

`Contact.findByIdAndUpdate` and `Deal.findByIdAndUpdate` are modelled once
each, as the `FindByIdAndUpdate` method of each store. The model fixes
the order of their checks:

1. cast the identifier;
2. run the update validators on the provided fields only;
3. look the document up;
4. for contacts, check the unique email index.

A field the request leaves `undefined` is removed from the update, so
that field is not changed. This is what Mongoose 7 and later do (its
`omitUndefined` behaviour became the default); the source does not pin a
Mongoose version, and the model assumes one of these. `pre('save')` does not run on these updates.
`timestamps` sets `updatedAt`.

Each handler then maps the store's failure to its own answer, as the
source does. Some examples:

- `updateDealStage`, `updateDealPriority` and `assignDeal` catch nothing
  by name. A validation error or a malformed identifier is a server error
  there.
- `assignContact` catches only `CastError`. A validation error is a
  server error.
- `updateDeal` answers every `CastError` as an invalid identifier,
  including a malformed `contactId`.

### Behaviour of the code that differs from its description

The model follows the code in each of these cases.

- **`createDeal` never stores a deal.** The handler never passes
  `associatedCompany`, and the schema requires it.
  - `NewDealNeverValid` proves that every document the handler builds is
    invalid, with "Associated company is required" among the messages.
  - `DealStore.CreateDeal` therefore always fails: contact not found,
    server error, or validation error.
  - The deal collection can hold only deals that are already in the
    database. `DealStore`'s constructor takes them as a seed.
- **`moveDeal` with a falsy `probability` always fails.** A falsy
  `probability` is `undefined` or `0`. The update object reads `deal` in
  its own initializer, which is a temporal-dead-zone `ReferenceError`.
  - The request is therefore answered as a server error before any query
    runs, and nothing changes.
  - With a truthy `probability`, the handler sets `stage` (when given) and
    `probability`.
- **`updateContact` and `updateDeal` are partial updates.** A field the
  body omits keeps its stored value; the handlers do not replace the whole
  document. This relies on Mongoose 7 or later stripping `undefined` keys
  from an update.
- **`assignDeal` never answers "invalid identifier".** A malformed
  identifier is a server error.

## Model

| member | source | states |
|---|---|---|
| Text.Trim | src/model/contact_Model.js:8 | `trim` removes white space, and only white space, from the two ends: the result is trimmed, it occurs in the input with nothing but white space before and after it, and a trimmed string is left unchanged |
| Text.TrimUnique | src/model/contact_Model.js:8 | those properties determine `trim`: any trimmed string that the input holds with only white space around it is the result |
| Text.TrimStart | src/model/contact_Model.js:8 | removes exactly the leading white space, and the result is a suffix of the input |
| Text.TrimEnd | src/model/contact_Model.js:8 | removes exactly the trailing white space, and the result is a prefix of the input |
| Text.Lower | src/model/contact_Model.js:16 | `lowercase` maps each character by itself and keeps the length: an upper-case letter becomes the same letter in lower case, every other character is kept; the result is lower-case, a lower-case string is unchanged, and trimmedness is kept |
| Text.ContainsAt | src/controller/deal_Controller.js:158-159 | the containment test used by the case-insensitive match holds exactly when the needle occurs at some offset |
| ContactModel.NormalizeEmail | src/model/contact_Model.js:12-17 | the stored email is the lower-cased input with white space, and only white space, removed from its two ends; it is lower-case and trimmed, and an already normal email is unchanged |
| ContactModel.CastContactInput | src/model/contact_Model.js:5-112 | each text field with `trim` becomes the trimmed input value, the email its normalised value, every tag its trimmed value with the tag count kept; absent fields stay absent, and `notes`, `leadSource` and `status` are kept as given |
| ContactModel.TagErrors | src/model/contact_Model.js:108-112 | no message exactly when every tag is at most 30 characters; at most one message per tag |
| ContactModel.NameErrors | src/model/contact_Model.js:5-10 | no message exactly when the name is present, non-empty and at most 100 characters |
| ContactModel.EmailErrors | src/model/contact_Model.js:12-22 | no message exactly when the email is present and matches the email pattern |
| ContactModel.PhoneErrors | src/model/contact_Model.js:24-32 | no message exactly when the phone is present and matches `^[\+]?[1-9][\d]{0,15}$` |
| ContactModel.EmailPatternAccepts | src/model/contact_Model.js:18-21 | `ann.lee@acme.co` matches the email pattern |
| ContactModel.EmailPatternRejects | src/model/contact_Model.js:18-21 | `ann@acme` does not match the email pattern: it has no dotted suffix of two or three word characters |
| ContactModel.ContactErrors | src/model/contact_Model.js:5-112 | the validators report no message exactly when the document satisfies every constraint: required name, email and phone, the length limits, the patterns, the two enumerations and the tag limit |
| ContactModel.ContactErrorsNameField | src/model/contact_Model.js:5-10 | "Name is required" is listed exactly when the name is missing or empty, and "Name cannot exceed 100 characters" exactly when it is present, non-empty and longer than 100 |
| ContactModel.ContactErrorsEmailField | src/model/contact_Model.js:12-22 | "Email is required" is listed exactly when the email is missing or empty, and "Please enter a valid email address" exactly when it is present, non-empty and does not match the pattern |
| ContactModel.ContactErrorsPhoneField | src/model/contact_Model.js:24-32 | "Phone number is required" is listed exactly when the phone is missing or empty, and "Please enter a valid phone number" exactly when it is present, non-empty and does not match the pattern |
| ContactModel.ContactErrorsTagField | src/model/contact_Model.js:108-112 | "Each tag cannot exceed 30 characters" is listed exactly when some tag is longer than 30 |
| ContactModel.NewContact | src/model/contact_Model.js:60-100 | a new document stores every provided field as cast (name, email, phone, company, role, assignments, notes, tags), a provided `leadSource` and `status` as given and `Other` and `New` when omitted, no tags when omitted, is in normal form, and has all three timestamps at `now` |
| ContactModel.ApplyContactInput | src/controller/contact_Controller.js:165-184 | every provided field takes its cast value and every omitted field keeps its stored value; the normal form, `createdAt` and `lastActivity` are kept and `updatedAt` becomes `now` |
| ContactModel.ApplyContactTwice | src/controller/contact_Controller.js:165-184 | applying the same update twice gives the same document as applying it once at the later instant |
| ContactModel.ApplyNoContactFields | src/controller/contact_Controller.js:165-184 | an update that provides no field changes only `updatedAt` |
| ContactModel.ApplyValidIff | src/controller/contact_Controller.js:165-184 | on a valid contact, the update validators accept the provided fields exactly when the updated document is valid |
| ContactModel.PreSave | src/model/contact_Model.js:161-167 | the hook always refreshes `updatedAt`, refreshes `lastActivity` only for a modified document that is not new, and changes nothing else |
| ContactModel.PreSaveKeepsValid | src/model/contact_Model.js:161-167 | the hook keeps validity and normal form |
| DealModel.TitleErrors | src/model/deal_Model.js:5-10 | no message exactly when the title is present, non-empty and at most 200 characters |
| DealModel.AmountErrors | src/model/deal_Model.js:12-16 | no message exactly when the amount is present and not negative |
| DealModel.StageErrors | src/model/deal_Model.js:18-31 | no message exactly when the stage is one of the seven stages |
| DealModel.ExecutiveErrors | src/model/deal_Model.js:40-45 | no message exactly when the executive is present, non-empty and at most 100 characters |
| DealModel.ManagerErrors | src/model/deal_Model.js:47-52 | no message exactly when the manager is present, non-empty and at most 100 characters |
| DealModel.ProbabilityErrors | src/model/deal_Model.js:87-92 | no message exactly when the probability is in [0, 100] |
| DealModel.DealErrors | src/model/deal_Model.js:5-105 | the validators report no message exactly when the deal satisfies every constraint: required title, amount, stage, executive, manager, associated company, contact and close date, the bounds, the enumerations and the length limits |
| DealModel.NewDeal | src/controller/deal_Controller.js:34-47 | the document the create handler builds stores the trimmed title, executive, manager, description and notes, the given amount and close date, a given stage, priority, status and probability or else the schema defaults `Lead`, `Medium`, `Active` and 50; it names the resolved contact, has no associated company and no associated contacts, is in normal form, and has both timestamps at `now` |
| DealModel.NewDealNeverValid | src/model/deal_Model.js:55-60 | whatever the request holds, that document is invalid, and "Associated company is required" is among its messages |
| DealModel.ApplyDealInput | src/controller/deal_Controller.js:342-359 | every provided field, `contactId` included, takes its cast value and every omitted field keeps its stored value; the normal form, `createdAt`, the associated company and contacts are kept and `updatedAt` becomes `now` |
| DealModel.ApplyDealTwice | src/controller/deal_Controller.js:342-359 | applying the same update twice gives the same document as applying it once at the later instant |
| DealModel.ApplyNoDealFields | src/controller/deal_Controller.js:342-359 | an update that provides no field changes only `updatedAt` |
| DealModel.ApplyDealValidIff | src/controller/deal_Controller.js:342-359 | on a valid deal, the update validators accept the provided fields exactly when the updated document is valid |
| DealModel.PreSave | src/model/deal_Model.js:134-138 | the hook refreshes `updatedAt` and changes nothing else |
| DealModel.PreSaveKeepsValid | src/model/deal_Model.js:134-138 | the hook keeps validity and normal form |
| Query.DistinctCardinality | src/controller/deal_Controller.js:93 | a list without repetitions has as many entries as its set of elements |
| Query.InsertNewest | src/controller/contact_Controller.js:92 | inserting one document keeps the list free of repetitions and newest first, and adds exactly that document |
| Query.NewestFirst | src/controller/contact_Controller.js:92 | `find().sort({ createdAt: -1 })` lists every document exactly once, newest first, and has as many entries as the collection |
| DealQueries.BuildFilter | src/controller/deal_Controller.js:153-159 | the filter object has at most five entries, and is empty when no criterion is truthy |
| DealQueries.FilterMeaning | src/controller/deal_Controller.js:153-161 | a deal satisfies the filter object exactly when it matches every truthy criterion: exact `stage`, `priority` and `status`, and case-insensitive containment in `executive` and `manager` |
| DealQueries.NoCriteriaSelectsAll | src/controller/deal_Controller.js:153-161 | without a truthy criterion every deal is selected |
| DealQueries.ExecutiveMatchIgnoresCase | src/controller/deal_Controller.js:158 | `executive=ann` selects a deal whose executive is "Anna Smith" |
| DealQueries.AddToGroups | src/controller/deal_Controller.js:188-219 | folding one deal into the groups keeps one group per key |
| DealQueries.GroupBy | src/controller/deal_Controller.js:188-219 | `$group` yields one group per distinct key |
| DealQueries.GroupByCorrect | src/controller/deal_Controller.js:188-219 | each group counts and sums exactly the deals with its key and is non-empty, and every deal's key has a group |
| DealQueries.GroupProbabilities | src/controller/deal_Controller.js:188-219 | each group's probability sum, which `$avg` divides by the count, is the sum of the probabilities of exactly the deals with its key |
| DealQueries.GroupsPartition | src/controller/deal_Controller.js:188-232 | the group counts add up to the number of deals, the group totals to the total amount, and the group probability sums to the sum of all probabilities |
| DealQueries.SummaryOf | src/controller/deal_Controller.js:222-247 | on an empty collection the summary is all zeros |
| DealQueries.AnalyticsOf | src/controller/deal_Controller.js:185-249 | the summary counts every scanned deal, and an empty collection has no groups |
| DealQueries.AnalyticsConsistent | src/controller/deal_Controller.js:185-249 | the stage, priority and status groupings each add up to the summary's deal count and total value; the mean amount divides the total value, and the mean probability the stage groups' probability sums, by the deal count |
| ContactController.StoreWrite | src/controller/contact_Controller.js:48 | writing a valid, normalised document whose email no other document holds keeps every stored contact valid and the emails unique |
| ContactController.NewContactStorable | src/controller/contact_Controller.js:24-48 | a new contact that passes validation and whose email is not taken can be stored, and the pre-save hook leaves it as built |
| ContactController.ContactStore.CreateContact | src/controller/contact_Controller.js:5-86 | a normalised email already stored is a duplicate and the table is unchanged; otherwise an invalid document reports the validators' messages; otherwise exactly one new contact, equal to the built document, is added under a fresh identifier |
| ContactController.ContactStore.GetContacts | src/controller/contact_Controller.js:90-110 | every contact exactly once, by non-increasing `createdAt`, with `count` equal to the number of contacts |
| ContactController.ContactStore.GetSingleContact | src/controller/contact_Controller.js:112-145 | a malformed identifier is invalid, an unknown one is not found, and a stored one yields its document |
| ContactController.ContactStore.FindByIdAndUpdate | src/controller/contact_Controller.js:165-184 | the order cast, validate, look up, unique index; only a fully accepted update changes the table, and then only the named contact, which becomes the patched document |
| ContactController.ContactStore.UpdateContact | src/controller/contact_Controller.js:149-234 | invalid identifier, validation messages, not found and duplicate email each leave the table unchanged; an update that passes cast, validation and look-up succeeds with the patched document unless another contact holds its email, and success replaces only the named contact |
| ContactController.ContactStore.DeleteContact | src/controller/contact_Controller.js:238-271 | removes exactly the named contact, or reports an invalid identifier or not found and changes nothing |
| ContactController.ContactStore.AssignContact | src/controller/contact_Controller.js:276-320 | writes `assignEmployee` and `assignManager` exactly when they are defined, an empty string included, refreshes `updatedAt`, and changes nothing else; an over-long value is a server error, and an unknown identifier with acceptable values is not found |
| DealController.StoreDealWrite | src/controller/deal_Controller.js:342-359 | writing a valid, normalised deal keeps every stored deal valid |
| DealController.ListedIdsBound | src/controller/deal_Controller.js:565-567 | a list of identifiers names at most as many deals as it has entries |
| DealController.RemovalCount | src/controller/deal_Controller.js:565-572 | removing a set of identifiers shrinks the collection by the number of stored deals among them |
| DealController.DealStore.CreateDeal | src/controller/deal_Controller.js:7-80 | an absent or unknown `contactId` is contact-not-found, a malformed one a server error, and a known one a validation error that includes "Associated company is required"; the call always fails and writes nothing |
| DealController.DealStore.GetDeals | src/controller/deal_Controller.js:85-105 | every deal exactly once, by non-increasing `createdAt`, with `count` equal to the number of deals |
| DealController.DealStore.GetDeal | src/controller/deal_Controller.js:110-143 | a malformed identifier is invalid, an unknown one is not found, and a stored one yields its document |
| DealController.DealStore.FilterDeals | src/controller/deal_Controller.js:148-180 | exactly the deals matching every truthy criterion, each once, newest first, with `count` equal to their number; without criteria, every deal |
| DealController.DealStore.DealAnalytics | src/controller/deal_Controller.js:185-259 | the analytics of a scan of the whole collection: the deal count, group counts and group totals that agree with the summary, and zeros with no groups on an empty collection |
| DealController.DealStore.FindByIdAndUpdate | src/controller/deal_Controller.js:342-359 | the order cast, validate, look up; only an accepted update changes the collection, and then only the named deal, which becomes the patched document |
| DealController.DealStore.MoveDeal | src/controller/deal_Controller.js:264-309 | a falsy `probability` or a malformed identifier is a server error; otherwise the validation messages or not found; success sets `stage` (when given), `probability` and `updatedAt` and nothing else; on failure nothing changes |
| DealController.DealStore.UpdateDeal | src/controller/deal_Controller.js:314-399 | an unknown truthy `contactId` is contact-not-found; malformed identifiers are invalid; an accepted update of a stored deal replaces only that deal with the patched document, and of an unknown deal is deal-not-found |
| DealController.DealStore.UpdateDealStage | src/controller/deal_Controller.js:404-435 | sets `stage` (when given) and `updatedAt` and nothing else; a stage outside the enumeration or a malformed identifier is a server error, and an unknown identifier with an acceptable stage is not found |
| DealController.DealStore.UpdateDealPriority | src/controller/deal_Controller.js:440-471 | sets `priority` (when given) and `updatedAt` and nothing else; a priority outside the enumeration or a malformed identifier is a server error, and an unknown identifier with an acceptable priority is not found |
| DealController.DealStore.AssignDeal | src/controller/deal_Controller.js:476-512 | writes only the non-empty `executive` and `manager` values, refreshes `updatedAt`, and changes nothing else; a malformed identifier or a value the validators reject is a server error, and an unknown identifier with acceptable values is not found |
| DealController.DealStore.DeleteDeal | src/controller/deal_Controller.js:517-549 | removes exactly the named deal, or reports an invalid identifier or not found and changes nothing |
| DealController.DealStore.BulkDeleteDeals | src/controller/deal_Controller.js:554-583 | a missing, non-array or empty list is a bad request, and a malformed entry a server error, each changing nothing; otherwise exactly the listed stored deals are removed, and `deletedCount` is their number and at most the list's length |
| Scenarios.CreateThenGet | src/controller/contact_Controller.js:33-53 | a contact read back right after its creation is the document built from the request, stored under an identifier that was free, and no other contact changed |
| Scenarios.DeleteReferencedContact | src/controller/contact_Controller.js:238-252 | deleting a stored contact succeeds and leaves every deal unchanged; there is no cascade |
| Scenarios.BulkDeleteWithUnknownId | src/controller/deal_Controller.js:558-572 | listing two stored deals and an unknown identifier removes the two and reports 2 |
| Scenarios.MoveWithoutProbability | src/controller/deal_Controller.js:266-276 | a move without `probability` is a server error and changes nothing |

## Left out

- HTTP plumbing is not modelled: status codes, the response envelopes and their messages, `console` logging, the server bootstrap, and route registration. Each failure becomes one value of `Failure`.
- `populate` is not modelled. It is a read-time join that changes nothing, so responses carry the stored deal, not the joined contact fields.
- ObjectId strings are abstract. An identifier is either well-formed (`ObjectId(n)`) or malformed, and new contact identifiers come from a counter.
- Contacts' `attachments` and the schema indexes are not modelled. No handler in the core writes attachments, and the indexes other than the unique email index only affect performance.
- Text.Lower lower-cases ASCII letters only. JavaScript's `toLowerCase` also folds other Unicode letters.
- DealQueries.Holds treats an `executive` or `manager` filter term as literal text matched case-insensitively. The source passes it as a regular expression.
- Request values are modelled as absent (`undefined`), a string or a number only; `ContactModel.ContactInput`, `DealModel.DealInput` and `DealQueries.Criteria` cannot hold JSON `null`, an array or an object. The model therefore does not capture: `assignContact` writing `null` (it tests `!== undefined`), which clears an assignment; `{"company": null}` on an update clearing that field, and `{"name": null}` failing "required"; `new Contact({ leadSource: null })` keeping `null` instead of the default and failing the enumeration; and a repeated query parameter (`?stage=Lead&stage=Won`) reaching the filter as an array, which Mongoose turns into `$in`.
- Schema.RequiredWithin, Schema.Within and ContactModel.TagsWithin count the characters of a string as code points. JavaScript's `.length`, which `maxlength` uses, counts UTF-16 code units, so a string with characters outside the Basic Multilingual Plane (an emoji, say) is shorter in the model than in the source and can pass a limit the source rejects.
- DealModel.ProbabilityErrors and the `probability` field take an integer. The source accepts any Number in [0, 100], such as 33.5; fractional probabilities are not modelled.
- DealQueries.GroupBy lists the groups in order of first occurrence of their key. MongoDB promises no order for `$group` output, so this order is one the model picks; the lemmas about groups do not depend on it.
- DealQueries.SummaryOf and DealQueries.GroupBy carry each average as a (sum, count) pair, because the source's averages are floating point. `amount` is an unbounded integer.
- The race between the contact lookup and the deal write is not modelled, because it is a concurrency concern. Each handler is modelled as one atomic step.
- Failures of the database itself (a lost connection, a timeout) are not modelled. They would all be server errors.
- Deals reach the deal collection only through the seed given to `DealStore`'s constructor, because the create handler cannot store one.
