/** Optional values and backend replies shared by every module of the model. */
module Wrappers {

  /** A JavaScript value that may be `undefined`/`null` (None) or present. */
  datatype Option<+T> = None | Some(value: T)

  /**
   * The outcome of one backend call whose failure the caller reads: either the
   * response payload, or a rejection carrying the text field (`description`
   * or `detail`) that the backend put into the error response, if any.
   */
  datatype Reply<+T> = Ok(data: T) | Rejected(detail: Option<string>)

  /** JavaScript truthiness of an optional string: present and not "". */
  predicate Truthy(s: Option<string>) {
    s.Some? && s.value != ""
  }

  /** JavaScript truthiness of an optional boolean: present and true. */
  predicate IsTrue(b: Option<bool>) {
    b == Some(true)
  }

  /** `a || fallback` for an optional string. */
  function OrElse(a: Option<string>, fallback: string): (r: string)
    ensures Truthy(a) ==> r == a.value
    ensures !Truthy(a) ==> r == fallback
  {
    if Truthy(a) then a.value else fallback
  }

  /** Concatenation regroups freely; used where a log grows by one request. */
  lemma AppendAssoc<T>(a: seq<T>, b: seq<T>, c: seq<T>)
    ensures a + b + c == a + (b + c)
  {
  }
}
