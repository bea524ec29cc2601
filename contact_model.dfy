/**
 * The contact schema (src/model/contact_Model.js): the shape of a contact
 * document, the setters that normalise its text fields, the field
 * constraints as a validity predicate together with the messages the
 * validators report, and the pre-save hook.
 */
module ContactModel {
  import opened Common
  import opened Text
  import opened Schema

  const LeadSources: seq<string> := [
    "Website", "Social Media", "Email Campaign", "Campaign", "Cold Call",
    "Referral", "Event", "Advertisement", "Direct Mail", "LinkedIn",
    "Google Ads", "Facebook Ads", "Trade Show", "Webinar", "Other"
  ]
  const DefaultLeadSource: string := "Other"

  const ContactStatuses: seq<string> := [
    "New", "Contacted", "Qualified", "Proposal", "Negotiation",
    "Closed Won", "Lost", "On Hold"
  ]
  const DefaultContactStatus: string := "New"

  /** A contact document. Fields the schema does not default may be absent
      (`None`); timestamps are instants of the store's clock. */
  datatype Contact = Contact(
    name: Option<string>,
    email: Option<string>,
    phone: Option<string>,
    company: Option<string>,
    role: Option<string>,
    assignEmployee: Option<string>,
    assignManager: Option<string>,
    leadSource: string,
    status: string,
    notes: Option<string>,
    tags: seq<string>,
    lastActivity: nat,
    createdAt: nat,
    updatedAt: nat)

  /** The fields a request body may carry for a contact; `None` is a field
      the body leaves `undefined`. */
  datatype ContactInput = ContactInput(
    name: Option<string>,
    email: Option<string>,
    phone: Option<string>,
    company: Option<string>,
    role: Option<string>,
    assignEmployee: Option<string>,
    assignManager: Option<string>,
    leadSource: Option<string>,
    status: Option<string>,
    notes: Option<string>,
    tags: Option<seq<string>>)

  const NoContactFields: ContactInput :=
    ContactInput(None, None, None, None, None, None, None, None, None, None, None)

  // ---------------------------------------------------------------------
  // The regular expressions of the schema

  predicate IsSeparator(c: char) {
    c == '.' || c == '-'
  }

  /** `\w+([.-]?\w+)*`: word characters, where a single `.` or `-` may
      stand between two of them. */
  predicate DottedWords(s: string) {
    |s| > 0 && IsWordChar(s[0]) && DottedWordsTail(s[1..])
  }

  /** `([.-]?\w+)*` after a first word character: a sequence of items, each
      a word character or a separator followed by a word character. */
  predicate DottedWordsTail(t: string)
    decreases |t|
  {
    || t == []
    || (IsWordChar(t[0]) && DottedWordsTail(t[1..]))
    || (|t| >= 2 && IsSeparator(t[0]) && IsWordChar(t[1]) && DottedWordsTail(t[2..]))
  }

  /** `(\.\w{2,3})+`: one or more dot-labels of two or three word
      characters. */
  predicate DomainSuffixes(t: string)
    decreases |t|
  {
    && |t| >= 3 && t[0] == '.' && IsWordChar(t[1]) && IsWordChar(t[2])
    && (|t| == 3 || DomainSuffixes(t[3..])
        || (IsWordChar(t[3]) && (|t| == 4 || DomainSuffixes(t[4..]))))
  }

  /** The domain `\w+([.-]?\w+)*(\.\w{2,3})+` splits at `j` into its two
      parts. */
  predicate DomainSplitsAt(d: string, j: int) {
    0 < j < |d| && DottedWords(d[..j]) && DomainSuffixes(d[j..])
  }

  /** `\w+([.-]?\w+)*(\.\w{2,3})+`. */
  predicate DomainPattern(d: string) {
    exists j :: 0 < j < |d| && DomainSplitsAt(d, j)
  }

  predicate EmailSplitsAt(s: string, at: int) {
    && 0 <= at < |s| && s[at] == '@'
    && DottedWords(s[..at])
    && DomainPattern(s[at + 1..])
  }

  /** `^\w+([.-]?\w+)*@\w+([.-]?\w+)*(\.\w{2,3})+$`. */
  predicate EmailPattern(s: string) {
    exists at :: 0 <= at < |s| && EmailSplitsAt(s, at)
  }

  /** `^[\+]?[1-9][\d]{0,15}$`. */
  predicate PhonePattern(s: string) {
    var digits := if |s| > 0 && s[0] == '+' then s[1..] else s;
    && 1 <= |digits| <= 16
    && '1' <= digits[0] <= '9'
    && forall i :: 0 <= i < |digits| ==> IsDigit(digits[i])
  }

  /** A dotted local part and a two-letter top-level label pass the email
      pattern. */
  lemma EmailPatternAccepts()
    ensures EmailPattern("ann.lee@acme.co")
  {
    var good := "ann.lee@acme.co";
    assert DottedWordsTail("e" + "") && DottedWordsTail("ee") && DottedWordsTail(".lee");
    assert DottedWordsTail("n.lee") && DottedWordsTail("nn.lee");
    assert good[..7] == "a" + "nn.lee";
    assert DottedWordsTail("me") && DottedWordsTail("cme");
    assert good[8..][..4] == "a" + "cme";
    assert DomainSuffixes(".co");
    assert DomainSplitsAt(good[8..], 4);
    assert EmailSplitsAt(good, 7);
  }

  /** An address without a dot-label after the `@` fails the email
      pattern. */
  lemma EmailPatternRejects()
    ensures !EmailPattern("ann@acme")
  {
  }

  // ---------------------------------------------------------------------
  // Setters

  /** The `lowercase` and `trim` setters of `email`, in the order the schema
      declares them: the lower-cased address with only white space removed
      from its two ends. A normalised address is its own normal form. */
  function NormalizeEmail(s: string): (r: string)
    ensures IsLowerCase(r) && Trimmed(r)
    ensures exists i :: StripsAt(Lower(s), r, i)
    ensures IsLowerCase(s) && Trimmed(s) ==> r == s
  {
    var l := Lower(s);
    var r := Trim(l);
    LowerPart(l, r);
    r
  }

  /** A part of a lower-case string is lower-case. */
  lemma LowerPart(l: string, r: string)
    requires IsLowerCase(l) && exists i :: OccursAt(l, r, i)
    ensures IsLowerCase(r)
  {
    var i :| OccursAt(l, r, i);
    assert forall k :: 0 <= k < |r| ==> r[k] == l[i + k];
  }

  /** What the setters make of the fields a request provides: `trim` on the
      text fields that declare it, `lowercase` then `trim` on `email`, `trim`
      on every tag. `notes` and the enumerated fields have no setter. */
  function CastContactInput(i: ContactInput): (r: ContactInput)
    ensures && r.name == TrimOpt(i.name) && r.phone == TrimOpt(i.phone)
            && r.company == TrimOpt(i.company) && r.role == TrimOpt(i.role)
            && r.assignEmployee == TrimOpt(i.assignEmployee)
            && r.assignManager == TrimOpt(i.assignManager)
    ensures i.email.Some? ==> r.email == Some(NormalizeEmail(i.email.value))
    ensures i.email.None? ==> r.email.None?
    ensures r.leadSource == i.leadSource && r.status == i.status && r.notes == i.notes
    ensures i.tags.None? ==> r.tags.None?
    ensures i.tags.Some? ==> (&& r.tags.Some? && |r.tags.value| == |i.tags.value|
                              && forall k :: 0 <= k < |i.tags.value| ==> r.tags.value[k] == Trim(i.tags.value[k]))
    ensures NormalizedInput(r)
  {
    ContactInput(
      TrimOpt(i.name),
      if i.email.Some? then Some(NormalizeEmail(i.email.value)) else None,
      TrimOpt(i.phone),
      TrimOpt(i.company),
      TrimOpt(i.role),
      TrimOpt(i.assignEmployee),
      TrimOpt(i.assignManager),
      i.leadSource,
      i.status,
      i.notes,
      if i.tags.Some? then Some(TrimAll(i.tags.value)) else None)
  }

  function TrimAll(ts: seq<string>): (r: seq<string>)
    ensures |r| == |ts|
    ensures forall k :: 0 <= k < |r| ==> r[k] == Trim(ts[k]) && Trimmed(r[k])
  {
    seq(|ts|, k requires 0 <= k < |ts| => Trim(ts[k]))
  }

  predicate NormalizedInput(i: ContactInput) {
    && TrimmedOpt(i.name)
    && (i.email.Some? ==> IsLowerCase(i.email.value) && Trimmed(i.email.value))
    && TrimmedOpt(i.phone) && TrimmedOpt(i.company) && TrimmedOpt(i.role)
    && TrimmedOpt(i.assignEmployee) && TrimmedOpt(i.assignManager)
    && (i.tags.Some? ==> forall k :: 0 <= k < |i.tags.value| ==> Trimmed(i.tags.value[k]))
  }

  /** A stored contact is in the normal form its setters produce. */
  predicate Normalized(c: Contact) {
    && TrimmedOpt(c.name)
    && (c.email.Some? ==> IsLowerCase(c.email.value) && Trimmed(c.email.value))
    && TrimmedOpt(c.phone) && TrimmedOpt(c.company) && TrimmedOpt(c.role)
    && TrimmedOpt(c.assignEmployee) && TrimmedOpt(c.assignManager)
    && forall k :: 0 <= k < |c.tags| ==> Trimmed(c.tags[k])
  }

  // ---------------------------------------------------------------------
  // Validity

  predicate TagsWithin(tags: seq<string>) {
    forall k :: 0 <= k < |tags| ==> |tags[k]| <= 30
  }

  /** The schema's constraints on a contact document. */
  predicate ValidContact(c: Contact) {
    && RequiredWithin(c.name, 100)
    && c.email.Some? && EmailPattern(c.email.value)
    && c.phone.Some? && PhonePattern(c.phone.value)
    && Within(c.company, 100)
    && Within(c.role, 50)
    && Within(c.assignEmployee, 100)
    && Within(c.assignManager, 100)
    && c.leadSource in LeadSources
    && c.status in ContactStatuses
    && Within(c.notes, 1000)
    && TagsWithin(c.tags)
  }

  const NameRequired: string := "Name is required"
  const NameTooLong: string := "Name cannot exceed 100 characters"
  const EmailRequired: string := "Email is required"
  const EmailInvalid: string := "Please enter a valid email address"
  const PhoneRequired: string := "Phone number is required"
  const PhoneInvalid: string := "Please enter a valid phone number"
  const TagTooLong: string := "Each tag cannot exceed 30 characters"
  const CompanyTooLong: string := "Company name cannot exceed 100 characters"
  const RoleTooLong: string := "Role cannot exceed 50 characters"
  const EmployeeTooLong: string := "Employee name cannot exceed 100 characters"
  const ManagerTooLong: string := "Manager name cannot exceed 100 characters"
  const NotesTooLong: string := "Notes cannot exceed 1000 characters"

  function NameErrors(v: Option<string>): (errs: seq<string>)
    ensures errs == [] <==> RequiredWithin(v, 100)
  {
    RequiredMaxErrors(v, 100, NameRequired, NameTooLong)
  }

  function EmailErrors(v: Option<string>): (errs: seq<string>)
    ensures errs == [] <==> v.Some? && EmailPattern(v.value)
  {
    if v.None? || v.value == "" then [EmailRequired]
    else if !EmailPattern(v.value) then [EmailInvalid]
    else []
  }

  function PhoneErrors(v: Option<string>): (errs: seq<string>)
    ensures errs == [] <==> v.Some? && PhonePattern(v.value)
  {
    if v.None? || v.value == "" then [PhoneRequired]
    else if !PhonePattern(v.value) then [PhoneInvalid]
    else []
  }

  /** One message per tag longer than 30 characters. */
  function TagErrors(tags: seq<string>): (errs: seq<string>)
    ensures errs == [] <==> TagsWithin(tags)
    ensures forall m :: m in errs ==> m == TagTooLong
    ensures |errs| <= |tags|
    decreases |tags|
  {
    if tags == [] then []
    else
      (if |tags[0]| > 30 then [TagTooLong] else [])
      + TagErrors(tags[1..])
  }

  /** The messages the validators report for a contact document, one per
      offending field (one per offending tag), in schema order; none
      exactly when the document is valid. */
  function ContactErrors(c: Contact): (errs: seq<string>)
    ensures errs == [] <==> ValidContact(c)
  {
    NameErrors(c.name)
    + EmailErrors(c.email)
    + PhoneErrors(c.phone)
    + MaxErrors(c.company, 100, CompanyTooLong)
    + MaxErrors(c.role, 50, RoleTooLong)
    + MaxErrors(c.assignEmployee, 100, EmployeeTooLong)
    + MaxErrors(c.assignManager, 100, ManagerTooLong)
    + EnumErrors(c.leadSource, LeadSources, "leadSource")
    + EnumErrors(c.status, ContactStatuses, "status")
    + MaxErrors(c.notes, 1000, NotesTooLong)
    + TagErrors(c.tags)
  }

  /** A document fails validation with the message of each offending
      field: the name, email and phone messages are listed exactly when that
      field is missing or malformed, and the tag message exactly when some
      tag is too long. */
  lemma ContactErrorsNameField(c: Contact)
    ensures NameRequired in ContactErrors(c) <==> c.name.None? || c.name.value == ""
    ensures NameTooLong in ContactErrors(c) <==> c.name.Some? && c.name.value != "" && |c.name.value| > 100
  {
    MessagesApart(c, NameRequired);
    MessagesApart(c, NameTooLong);
  }

  lemma ContactErrorsEmailField(c: Contact)
    ensures EmailRequired in ContactErrors(c) <==> c.email.None? || c.email.value == ""
    ensures EmailInvalid in ContactErrors(c)
            <==> c.email.Some? && c.email.value != "" && !EmailPattern(c.email.value)
  {
    MessagesApart(c, EmailRequired);
    MessagesApart(c, EmailInvalid);
  }

  lemma ContactErrorsPhoneField(c: Contact)
    ensures PhoneRequired in ContactErrors(c) <==> c.phone.None? || c.phone.value == ""
    ensures PhoneInvalid in ContactErrors(c)
            <==> c.phone.Some? && c.phone.value != "" && !PhonePattern(c.phone.value)
  {
    MessagesApart(c, PhoneRequired);
    MessagesApart(c, PhoneInvalid);
  }

  lemma ContactErrorsTagField(c: Contact)
    ensures TagTooLong in ContactErrors(c) <==> !TagsWithin(c.tags)
  {
    MessagesApart(c, TagTooLong);
    if !TagsWithin(c.tags) {
      assert TagErrors(c.tags)[0] in TagErrors(c.tags);
    }
  }

  /** A field's own message appears in `ContactErrors` exactly when that
      field's validator reports it: no other validator uses it. */
  lemma MessagesApart(c: Contact, m: string)
    requires |m| > 0 && m[0] != '`'
    requires && m != CompanyTooLong && m != RoleTooLong && m != EmployeeTooLong
             && m != ManagerTooLong && m != NotesTooLong
    ensures m in ContactErrors(c) <==>
            m in NameErrors(c.name) || m in EmailErrors(c.email) || m in PhoneErrors(c.phone)
            || m in TagErrors(c.tags)
  {
  }

  // ---------------------------------------------------------------------
  // Building and updating documents

  /** `new Contact({...})` at instant `now`: the cast fields of the request,
      the schema defaults for the fields it leaves out, and every timestamp
      at `now`. */
  function NewContact(i: ContactInput, now: nat): (c: Contact)
    ensures Normalized(c)
    ensures c.createdAt == now && c.updatedAt == now && c.lastActivity == now
    ensures var ci := CastContactInput(i);
            && c.name == ci.name && c.email == ci.email && c.phone == ci.phone
            && c.company == ci.company && c.role == ci.role
            && c.assignEmployee == ci.assignEmployee && c.assignManager == ci.assignManager
            && c.notes == ci.notes
            && (ci.tags.Some? ==> c.tags == ci.tags.value)
    ensures i.tags.None? ==> c.tags == []
    ensures i.leadSource.Some? ==> c.leadSource == i.leadSource.value
    ensures i.leadSource.None? ==> c.leadSource == DefaultLeadSource
    ensures i.status.Some? ==> c.status == i.status.value
    ensures i.status.None? ==> c.status == DefaultContactStatus
  {
    var ci := CastContactInput(i);
    Contact(
      ci.name, ci.email, ci.phone, ci.company, ci.role,
      ci.assignEmployee, ci.assignManager,
      ci.leadSource.GetOr(DefaultLeadSource),
      ci.status.GetOr(DefaultContactStatus),
      ci.notes,
      ci.tags.GetOr([]),
      now, now, now)
  }

  /** `findByIdAndUpdate` with the fields a request provides: each provided
      field is replaced by its cast value, the others are kept, and the
      `timestamps` option sets `updatedAt`. The pre-save hook does not run,
      so `lastActivity` is kept. */
  function ApplyContactInput(c: Contact, i: ContactInput, now: nat): (r: Contact)
    ensures var ci := CastContactInput(i);
            && Updated(r.name, c.name, ci.name) && Updated(r.email, c.email, ci.email)
            && Updated(r.phone, c.phone, ci.phone) && Updated(r.company, c.company, ci.company)
            && Updated(r.role, c.role, ci.role)
            && Updated(r.assignEmployee, c.assignEmployee, ci.assignEmployee)
            && Updated(r.assignManager, c.assignManager, ci.assignManager)
            && Updated(Some(r.leadSource), Some(c.leadSource), ci.leadSource)
            && Updated(Some(r.status), Some(c.status), ci.status)
            && Updated(r.notes, c.notes, ci.notes)
            && Updated(Some(r.tags), Some(c.tags), ci.tags)
    ensures Normalized(c) ==> Normalized(r)
    ensures r.createdAt == c.createdAt && r.lastActivity == c.lastActivity && r.updatedAt == now
  {
    Patch(c, CastContactInput(i), now)
  }

  /** Writes the provided fields of an already cast update. */
  function Patch(c: Contact, ci: ContactInput, now: nat): Contact {
    c.(
      name := Override(c.name, ci.name),
      email := Override(c.email, ci.email),
      phone := Override(c.phone, ci.phone),
      company := Override(c.company, ci.company),
      role := Override(c.role, ci.role),
      assignEmployee := Override(c.assignEmployee, ci.assignEmployee),
      assignManager := Override(c.assignManager, ci.assignManager),
      leadSource := ci.leadSource.GetOr(c.leadSource),
      status := ci.status.GetOr(c.status),
      notes := Override(c.notes, ci.notes),
      tags := ci.tags.GetOr(c.tags),
      updatedAt := now)
  }

  /** Sending the same update twice leaves the document as one update at the
      later instant does. */
  lemma ApplyContactTwice(c: Contact, i: ContactInput, first: nat, second: nat)
    ensures ApplyContactInput(ApplyContactInput(c, i, first), i, second) == ApplyContactInput(c, i, second)
  {
  }

  /** An update that provides no field only refreshes `updatedAt`. */
  lemma ApplyNoContactFields(c: Contact, now: nat)
    ensures ApplyContactInput(c, NoContactFields, now) == c.(updatedAt := now)
  {
  }

  /** The update validators: they check the cast value of every provided
      field and nothing else. */
  function InputErrors(i: ContactInput): (errs: seq<string>)
  {
    FieldErrors(CastContactInput(i))
  }

  function FieldErrors(ci: ContactInput): (errs: seq<string>)
  {
    (if ci.name.Some? then NameErrors(ci.name) else [])
    + (if ci.email.Some? then EmailErrors(ci.email) else [])
    + (if ci.phone.Some? then PhoneErrors(ci.phone) else [])
    + MaxErrors(ci.company, 100, CompanyTooLong)
    + MaxErrors(ci.role, 50, RoleTooLong)
    + MaxErrors(ci.assignEmployee, 100, EmployeeTooLong)
    + MaxErrors(ci.assignManager, 100, ManagerTooLong)
    + (if ci.leadSource.Some? then EnumErrors(ci.leadSource.value, LeadSources, "leadSource") else [])
    + (if ci.status.Some? then EnumErrors(ci.status.value, ContactStatuses, "status") else [])
    + MaxErrors(ci.notes, 1000, NotesTooLong)
    + (if ci.tags.Some? then TagErrors(ci.tags.value) else [])
  }

  /** The constraints of the schema on the fields an update provides. */
  predicate ValidFields(ci: ContactInput) {
    && (ci.name.Some? ==> RequiredWithin(ci.name, 100))
    && (ci.email.Some? ==> EmailPattern(ci.email.value))
    && (ci.phone.Some? ==> PhonePattern(ci.phone.value))
    && Within(ci.company, 100) && Within(ci.role, 50)
    && Within(ci.assignEmployee, 100) && Within(ci.assignManager, 100)
    && (ci.leadSource.Some? ==> ci.leadSource.value in LeadSources)
    && (ci.status.Some? ==> ci.status.value in ContactStatuses)
    && Within(ci.notes, 1000)
    && (ci.tags.Some? ==> TagsWithin(ci.tags.value))
  }

  lemma FieldErrorsIff(ci: ContactInput)
    ensures FieldErrors(ci) == [] <==> ValidFields(ci)
  {
  }

  lemma PatchValidIff(c: Contact, ci: ContactInput, now: nat)
    requires ValidContact(c)
    ensures ValidContact(Patch(c, ci, now)) <==> ValidFields(ci)
  {
  }

  /** The update validators accept a request exactly when applying it to a
      valid contact yields a valid contact. */
  lemma ApplyValidIff(c: Contact, i: ContactInput, now: nat)
    requires ValidContact(c)
    ensures ValidContact(ApplyContactInput(c, i, now)) <==> InputErrors(i) == []
  {
    FieldErrorsIff(CastContactInput(i));
    PatchValidIff(c, CastContactInput(i), now);
  }

  /** The pre-save hook: `updatedAt` is refreshed on every save,
      `lastActivity` only when an existing document was modified. */
  function PreSave(doc: Contact, isNew: bool, isModified: bool, now: nat): (r: Contact)
    ensures r.updatedAt == now
    ensures r.lastActivity == (if isModified && !isNew then now else doc.lastActivity)
    ensures r.(updatedAt := doc.updatedAt, lastActivity := doc.lastActivity) == doc
  {
    var d := doc.(updatedAt := now);
    if isModified && !isNew then d.(lastActivity := now) else d
  }

  /** The hook changes no constrained field, so it keeps a document valid
      and normalised. */
  lemma PreSaveKeepsValid(doc: Contact, isNew: bool, isModified: bool, now: nat)
    ensures ValidContact(PreSave(doc, isNew, isModified, now)) <==> ValidContact(doc)
    ensures Normalized(PreSave(doc, isNew, isModified, now)) <==> Normalized(doc)
  {
  }
}
