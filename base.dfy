/** Shared vocabulary: optional values, backend outcomes and user-facing notices. */
module Base {

  /** An optional value, for JavaScript's `undefined`/`null` fields. */
  datatype Option<+T> = None | Some(value: T)

  /** The abstract result of one backend round-trip: it either succeeds or fails with a message. */
  datatype Outcome = Ok | Err(message: string)

  /** The `variant` of a notice as the components pass it to `toast(...)`. */
  datatype Variant = Plain | Destructive | Positive

  /** The payload of one `toast({ title, description, variant })` call. */
  datatype Notice = Notice(title: string, description: string, variant: Variant)

  /** JavaScript truthiness of an optional string: absent and "" are both falsy. */
  predicate Truthy(s: Option<string>)
  {
    s.Some? && s.value != ""
  }

  /** `a || b` for optional strings. */
  function OrElse(a: Option<string>, b: Option<string>): (r: Option<string>)
    ensures Truthy(a) ==> r == a
    ensures !Truthy(a) ==> r == b
    ensures Truthy(r) <==> Truthy(a) || Truthy(b)
    ensures r == a || r == b
  {
    if Truthy(a) then a else b
  }

  /** `a || d` for an optional string and a fallback text. */
  function OrText(a: Option<string>, d: string): (r: string)
    ensures Truthy(a) ==> r == a.value
    ensures !Truthy(a) ==> r == d
    ensures r != "" <==> Truthy(a) || d != ""
    ensures Some(r) == a || r == d
  {
    if Truthy(a) then a.value else d
  }
}
