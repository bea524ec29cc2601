/**
 * What the contact and deal schemas share: the `trim` setter on an optional
 * text field, the `required`, `maxlength` and `enum` validators with their
 * messages, and how an update replaces the fields it provides.
 */
module Schema {
  import opened Common
  import opened Text

  /** The `trim` setter on a field that may be absent. */
  function TrimOpt(v: Option<string>): (r: Option<string>)
    ensures r.Some? <==> v.Some?
    ensures r.Some? ==> Trimmed(r.value)
  {
    if v.Some? then Some(Trim(v.value)) else None
  }

  predicate TrimmedOpt(v: Option<string>) {
    v.Some? ==> Trimmed(v.value)
  }

  /** `required` together with `maxlength`: the empty string is missing. */
  predicate RequiredWithin(v: Option<string>, max: nat) {
    v.Some? && v.value != "" && |v.value| <= max
  }

  /** `maxlength` on a field that may be absent. */
  predicate Within(v: Option<string>, max: nat) {
    v.Some? ==> |v.value| <= max
  }

  /** Mongoose's default message for a value outside an `enum`. */
  function EnumMessage(value: string, path: string): (m: string)
    ensures |m| > 0 && m[0] == '`'
  {
    "`" + value + "` is not a valid enum value for path `" + path + "`."
  }

  function RequiredMaxErrors(v: Option<string>, max: nat, required: string, tooLong: string): (errs: seq<string>)
    ensures errs == [] <==> RequiredWithin(v, max)
    ensures required != tooLong ==> (required in errs <==> v.None? || v.value == "")
    ensures required != tooLong ==> (tooLong in errs <==> v.Some? && v.value != "" && |v.value| > max)
    ensures |errs| <= 1
  {
    if v.None? || v.value == "" then [required]
    else if |v.value| > max then [tooLong]
    else []
  }

  function MaxErrors(v: Option<string>, max: nat, tooLong: string): (errs: seq<string>)
    ensures errs == [] <==> Within(v, max)
    ensures tooLong in errs <==> !Within(v, max)
    ensures |errs| <= 1
  {
    if v.Some? && |v.value| > max then [tooLong] else []
  }

  function EnumErrors(v: string, values: seq<string>, path: string): (errs: seq<string>)
    ensures errs == [] <==> v in values
    ensures forall m :: m in errs ==> m == EnumMessage(v, path)
  {
    if v in values then [] else [EnumMessage(v, path)]
  }

  /** A field after an update holds the provided value when the request
      gives one, and its stored value otherwise. */
  predicate Updated<T(==)>(after: Option<T>, stored: Option<T>, provided: Option<T>) {
    && (provided.Some? ==> after == provided)
    && (provided.None? ==> after == stored)
  }

  /** The value `findByIdAndUpdate` writes for a field that may be absent
      from the update. */
  function Override<T(==)>(current: Option<T>, provided: Option<T>): (r: Option<T>)
    ensures Updated(r, current, provided)
  {
    if provided.Some? then provided else current
  }
}
