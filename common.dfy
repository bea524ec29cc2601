/**
 * Shared vocabulary of the CRM store: optional values, document
 * identifiers as they arrive in a request, and the failure kinds every
 * handler maps its errors to.
 */
module Common {

  datatype Option<+T> = None | Some(value: T) {
    function GetOr(default: T): T {
      if Some? then value else default
    }
  }

  /** A stored document's identifier (a MongoDB ObjectId); `n` stands for
      the counter part that makes generated identifiers distinct. */
  datatype Id = ObjectId(n: nat)

  /** An identifier as it arrives in a request: either text that cannot be
      cast to an ObjectId (the store raises a CastError for it) or a
      well-formed identifier, which may or may not name a stored record. */
  datatype RawId = Malformed(text: string) | Wellformed(id: Id)

  /** The failure kinds a handler answers with. `ContactNotFound` and
      `DealNotFound` are the two 404 answers ("Contact not found" and
      "Deal not found"); `Validation` carries one message per offending
      field; `ServerError` is the 500 answer for anything a handler does
      not catch by name. */
  datatype Failure =
    | InvalidId
    | ContactNotFound
    | DealNotFound
    | Validation(messages: seq<string>)
    | Duplicate
    | BadRequest
    | ServerError

  datatype Result<+T> = Ok(value: T) | Err(failure: Failure)

  /** JavaScript truthiness of an optional string: `undefined` and `""`
      are falsy. */
  predicate Truthy(s: Option<string>) {
    s.Some? && s.value != ""
  }

  /** JavaScript truthiness of an optional number: `undefined` and `0`
      are falsy. */
  predicate TruthyNumber(x: Option<int>) {
    x.Some? && x.value != 0
  }

  /** JavaScript truthiness of an identifier taken from a request body. */
  predicate TruthyId(x: Option<RawId>) {
    x.Some? && !(x.value.Malformed? && x.value.text == "")
  }
}
