/**
 * The deal schema (src/model/deal_Model.js): the shape of a deal document,
 * the `trim` setters, the field constraints as a validity predicate together
 * with the messages the validators report, and the pre-save hook.
 */
module DealModel {
  import opened Common
  import opened Text
  import opened Schema

  const Stages: seq<string> := [
    "Lead", "Prospect", "Proposal", "Negotiation", "Closed Won", "Closed Lost", "On Hold"
  ]
  const DefaultStage: string := "Lead"

  const Priorities: seq<string> := ["Low", "Medium", "High", "Critical"]
  const DefaultPriority: string := "Medium"

  const DealStatuses: seq<string> := ["Active", "Won", "Lost", "Pending", "Cancelled"]
  const DefaultDealStatus: string := "Active"

  const DefaultProbability: int := 50

  /** A deal document. Required fields without a default may be absent
      (`None`) in a document that has not passed validation; `closeDate`
      and the timestamps are instants of the store's clock. */
  datatype Deal = Deal(
    title: Option<string>,
    amount: Option<int>,
    stage: string,
    priority: string,
    executive: Option<string>,
    manager: Option<string>,
    associatedCompany: Option<string>,
    associatedContacts: seq<Id>,
    contactId: Option<Id>,
    closeDate: Option<nat>,
    status: string,
    probability: int,
    description: Option<string>,
    notes: Option<string>,
    createdAt: nat,
    updatedAt: nat)

  /** The fields a request body may carry for a deal (those the handlers
      destructure); `None` is a field the body leaves `undefined`. */
  datatype DealInput = DealInput(
    title: Option<string>,
    amount: Option<int>,
    stage: Option<string>,
    priority: Option<string>,
    executive: Option<string>,
    manager: Option<string>,
    contactId: Option<RawId>,
    closeDate: Option<nat>,
    status: Option<string>,
    probability: Option<int>,
    description: Option<string>,
    notes: Option<string>)

  const NoDealFields: DealInput :=
    DealInput(None, None, None, None, None, None, None, None, None, None, None, None)

  // ---------------------------------------------------------------------
  // Setters and normal form

  /** Every text field of a stored deal carries the schema's `trim` setter. */
  predicate NormalizedDeal(d: Deal) {
    && TrimmedOpt(d.title) && TrimmedOpt(d.executive) && TrimmedOpt(d.manager)
    && TrimmedOpt(d.associatedCompany) && TrimmedOpt(d.description) && TrimmedOpt(d.notes)
  }

  // ---------------------------------------------------------------------
  // Validity

  /** The schema's constraints on a deal document. */
  predicate ValidDeal(d: Deal) {
    && RequiredWithin(d.title, 200)
    && d.amount.Some? && d.amount.value >= 0
    && d.stage in Stages
    && d.priority in Priorities
    && RequiredWithin(d.executive, 100)
    && RequiredWithin(d.manager, 100)
    && RequiredWithin(d.associatedCompany, 200)
    && d.contactId.Some?
    && d.closeDate.Some?
    && d.status in DealStatuses
    && 0 <= d.probability <= 100
    && Within(d.description, 1000)
    && Within(d.notes, 2000)
  }

  function TitleErrors(v: Option<string>): (errs: seq<string>)
    ensures errs == [] <==> RequiredWithin(v, 200)
  {
    RequiredMaxErrors(v, 200, "Deal title is required", "Title cannot exceed 200 characters")
  }

  function AmountErrors(v: Option<int>): (errs: seq<string>)
    ensures errs == [] <==> v.Some? && v.value >= 0
  {
    if v.None? then ["Deal amount is required"]
    else if v.value < 0 then ["Amount cannot be negative"]
    else []
  }

  /** `stage` is both required (so the empty string fails) and enumerated. */
  function StageErrors(v: string): (errs: seq<string>)
    ensures errs == [] <==> v in Stages
  {
    if v == "" then ["Deal stage is required"] else EnumErrors(v, Stages, "stage")
  }

  function ExecutiveErrors(v: Option<string>): (errs: seq<string>)
    ensures errs == [] <==> RequiredWithin(v, 100)
  {
    RequiredMaxErrors(v, 100, "Executive is required", "Executive name cannot exceed 100 characters")
  }

  function ManagerErrors(v: Option<string>): (errs: seq<string>)
    ensures errs == [] <==> RequiredWithin(v, 100)
  {
    RequiredMaxErrors(v, 100, "Manager is required", "Manager name cannot exceed 100 characters")
  }

  function ProbabilityErrors(p: int): (errs: seq<string>)
    ensures errs == [] <==> 0 <= p <= 100
  {
    if p < 0 then ["Probability cannot be less than 0"]
    else if p > 100 then ["Probability cannot exceed 100"]
    else []
  }

  const AssociatedCompanyRequired: string := "Associated company is required"

  /** The messages the validators report for a deal document, one per
      offending field, in schema order; none exactly when the document is
      valid. */
  function DealErrors(d: Deal): (errs: seq<string>)
    ensures errs == [] <==> ValidDeal(d)
  {
    TitleErrors(d.title)
    + AmountErrors(d.amount)
    + StageErrors(d.stage)
    + EnumErrors(d.priority, Priorities, "priority")
    + ExecutiveErrors(d.executive)
    + ManagerErrors(d.manager)
    + RequiredMaxErrors(d.associatedCompany, 200, AssociatedCompanyRequired, "Company name cannot exceed 200 characters")
    + (if d.contactId.None? then ["Primary contact ID is required"] else [])
    + (if d.closeDate.None? then ["Expected close date is required"] else [])
    + EnumErrors(d.status, DealStatuses, "status")
    + ProbabilityErrors(d.probability)
    + MaxErrors(d.description, 1000, "Description cannot exceed 1000 characters")
    + MaxErrors(d.notes, 2000, "Notes cannot exceed 2000 characters")
  }

  // ---------------------------------------------------------------------
  // Building and updating documents

  /** `new Deal({...})` as the create handler writes it, for a request whose
      `contactId` resolved to `contact`: the provided fields (cast), the
      schema defaults for `stage`, `priority`, `status` and `probability`,
      and both timestamps at `now`. The handler does not pass
      `associatedCompany`, so the document never has one. */
  function NewDeal(i: DealInput, contact: Id, now: nat): (d: Deal)
    ensures NormalizedDeal(d)
    ensures && d.title == TrimOpt(i.title) && d.executive == TrimOpt(i.executive)
            && d.manager == TrimOpt(i.manager) && d.description == TrimOpt(i.description)
            && d.notes == TrimOpt(i.notes)
    ensures d.amount == i.amount && d.closeDate == i.closeDate
    ensures i.stage.Some? ==> d.stage == i.stage.value
    ensures i.stage.None? ==> d.stage == DefaultStage
    ensures i.priority.Some? ==> d.priority == i.priority.value
    ensures i.priority.None? ==> d.priority == DefaultPriority
    ensures i.status.Some? ==> d.status == i.status.value
    ensures i.status.None? ==> d.status == DefaultDealStatus
    ensures i.probability.Some? ==> d.probability == i.probability.value
    ensures i.probability.None? ==> d.probability == DefaultProbability
    ensures d.associatedCompany.None? && d.associatedContacts == []
    ensures d.contactId == Some(contact)
    ensures d.createdAt == now && d.updatedAt == now
  {
    Deal(
      TrimOpt(i.title),
      i.amount,
      i.stage.GetOr(DefaultStage),
      i.priority.GetOr(DefaultPriority),
      TrimOpt(i.executive),
      TrimOpt(i.manager),
      None,
      [],
      Some(contact),
      i.closeDate,
      i.status.GetOr(DefaultDealStatus),
      i.probability.GetOr(DefaultProbability),
      TrimOpt(i.description),
      TrimOpt(i.notes),
      now, now)
  }

  /** Whatever else the request holds, the document the create handler
      builds fails validation, with the missing company among the
      messages. */
  lemma NewDealNeverValid(i: DealInput, contact: Id, now: nat)
    ensures !ValidDeal(NewDeal(i, contact, now))
    ensures AssociatedCompanyRequired in DealErrors(NewDeal(i, contact, now))
  {
    var d := NewDeal(i, contact, now);
    var before := TitleErrors(d.title) + AmountErrors(d.amount) + StageErrors(d.stage)
      + EnumErrors(d.priority, Priorities, "priority")
      + ExecutiveErrors(d.executive) + ManagerErrors(d.manager);
    assert DealErrors(d)[|before|] == AssociatedCompanyRequired;
  }

  /** An update request after its identifiers were cast: a `contactId`, if
      present, is well-formed. */
  predicate CastIds(i: DealInput) {
    i.contactId.Some? ==> i.contactId.value.Wellformed?
  }

  /** `findByIdAndUpdate` with the fields a request provides: each provided
      field is replaced by its cast value, the others are kept, and
      `updatedAt` is set to `now`. */
  function ApplyDealInput(d: Deal, i: DealInput, now: nat): (r: Deal)
    requires CastIds(i)
    ensures && Updated(r.title, d.title, TrimOpt(i.title))
            && Updated(r.amount, d.amount, i.amount)
            && Updated(Some(r.stage), Some(d.stage), i.stage)
            && Updated(Some(r.priority), Some(d.priority), i.priority)
            && Updated(r.executive, d.executive, TrimOpt(i.executive))
            && Updated(r.manager, d.manager, TrimOpt(i.manager))
            && Updated(r.contactId, d.contactId, if i.contactId.Some? then Some(i.contactId.value.id) else None)
            && Updated(r.closeDate, d.closeDate, i.closeDate)
            && Updated(Some(r.status), Some(d.status), i.status)
            && Updated(Some(r.probability), Some(d.probability), i.probability)
            && Updated(r.description, d.description, TrimOpt(i.description))
            && Updated(r.notes, d.notes, TrimOpt(i.notes))
    ensures NormalizedDeal(d) ==> NormalizedDeal(r)
    ensures r.createdAt == d.createdAt && r.updatedAt == now
    ensures r.associatedCompany == d.associatedCompany && r.associatedContacts == d.associatedContacts
  {
    d.(
      title := Override(d.title, TrimOpt(i.title)),
      amount := Override(d.amount, i.amount),
      stage := i.stage.GetOr(d.stage),
      priority := i.priority.GetOr(d.priority),
      executive := Override(d.executive, TrimOpt(i.executive)),
      manager := Override(d.manager, TrimOpt(i.manager)),
      contactId := if i.contactId.Some? then Some(i.contactId.value.id) else d.contactId,
      closeDate := Override(d.closeDate, i.closeDate),
      status := i.status.GetOr(d.status),
      probability := i.probability.GetOr(d.probability),
      description := Override(d.description, TrimOpt(i.description)),
      notes := Override(d.notes, TrimOpt(i.notes)),
      updatedAt := now)
  }

  /** Sending the same update twice leaves the deal as one update at the
      later instant does. */
  lemma ApplyDealTwice(d: Deal, i: DealInput, first: nat, second: nat)
    requires CastIds(i)
    ensures ApplyDealInput(ApplyDealInput(d, i, first), i, second) == ApplyDealInput(d, i, second)
  {
  }

  /** An update that provides no field only refreshes `updatedAt`. */
  lemma ApplyNoDealFields(d: Deal, now: nat)
    ensures ApplyDealInput(d, NoDealFields, now) == d.(updatedAt := now)
  {
  }

  /** The update validators: they check the cast value of every provided
      field and nothing else. */
  function DealInputErrors(i: DealInput): (errs: seq<string>)
  {
    (if i.title.Some? then TitleErrors(TrimOpt(i.title)) else [])
    + (if i.amount.Some? then AmountErrors(i.amount) else [])
    + (if i.stage.Some? then StageErrors(i.stage.value) else [])
    + (if i.priority.Some? then EnumErrors(i.priority.value, Priorities, "priority") else [])
    + (if i.executive.Some? then ExecutiveErrors(TrimOpt(i.executive)) else [])
    + (if i.manager.Some? then ManagerErrors(TrimOpt(i.manager)) else [])
    + (if i.status.Some? then EnumErrors(i.status.value, DealStatuses, "status") else [])
    + (if i.probability.Some? then ProbabilityErrors(i.probability.value) else [])
    + MaxErrors(TrimOpt(i.description), 1000, "Description cannot exceed 1000 characters")
    + MaxErrors(TrimOpt(i.notes), 2000, "Notes cannot exceed 2000 characters")
  }

  /** The update validators accept a request exactly when applying it to a
      valid deal yields a valid deal. */
  lemma ApplyDealValidIff(d: Deal, i: DealInput, now: nat)
    requires ValidDeal(d) && CastIds(i)
    ensures ValidDeal(ApplyDealInput(d, i, now)) <==> DealInputErrors(i) == []
  {
    DealInputErrorsIff(i);
    ApplyValidDealFields(d, i, now);
  }

  /** The constraints of the schema on the fields an update provides, after
      the `trim` setters. */
  predicate ValidDealFields(i: DealInput) {
    && (i.title.Some? ==> RequiredWithin(TrimOpt(i.title), 200))
    && (i.amount.Some? ==> i.amount.value >= 0)
    && (i.stage.Some? ==> i.stage.value in Stages)
    && (i.priority.Some? ==> i.priority.value in Priorities)
    && (i.executive.Some? ==> RequiredWithin(TrimOpt(i.executive), 100))
    && (i.manager.Some? ==> RequiredWithin(TrimOpt(i.manager), 100))
    && (i.status.Some? ==> i.status.value in DealStatuses)
    && (i.probability.Some? ==> 0 <= i.probability.value <= 100)
    && Within(TrimOpt(i.description), 1000)
    && Within(TrimOpt(i.notes), 2000)
  }

  lemma DealInputErrorsIff(i: DealInput)
    ensures DealInputErrors(i) == [] <==> ValidDealFields(i)
  {
  }

  lemma ApplyValidDealFields(d: Deal, i: DealInput, now: nat)
    requires ValidDeal(d) && CastIds(i)
    ensures ValidDeal(ApplyDealInput(d, i, now)) <==> ValidDealFields(i)
  {
  }

  /** The pre-save hook: `updatedAt` is refreshed on every save, nothing
      else changes. */
  function PreSave(doc: Deal, now: nat): (r: Deal)
    ensures r.updatedAt == now
    ensures r.(updatedAt := doc.updatedAt) == doc
  {
    doc.(updatedAt := now)
  }

  lemma PreSaveKeepsValid(doc: Deal, now: nat)
    ensures ValidDeal(PreSave(doc, now)) <==> ValidDeal(doc)
    ensures NormalizedDeal(PreSave(doc, now)) <==> NormalizedDeal(doc)
  {
  }
}
