/** Values shared by the storefront's pages and its registration endpoint. */
module Common {

  /** A value that JavaScript may leave `null` or `undefined`. */
  datatype Option<+T> = None | Some(value: T)

  /** A parsed JSON object body, restricted to its string-valued fields. */
  type Json = map<string, string>

  /** What an `await fetch(...)` followed by `await response.json()` yields: either
      a response (its `ok` flag and its JSON body), or an exception thrown by the
      network layer or by the JSON parser. */
  datatype FetchOutcome = Answered(ok: bool, body: Json) | Threw

  /** JavaScript truthiness of an optional string field: present and non-empty. */
  predicate Truthy(body: Json, field: string)
  {
    field in body && body[field] != ""
  }

  /** The expression `data.message || fallback`. */
  function MessageOr(body: Json, fallback: string): (m: string)
    ensures Truthy(body, "message") ==> m == body["message"]
    ensures !Truthy(body, "message") ==> m == fallback
    ensures fallback != "" ==> m != ""
  {
    if Truthy(body, "message") then body["message"] else fallback
  }
}
