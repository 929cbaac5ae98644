/**
 * What the components get back from the hosted database service. Every call
 * is awaited as `{ data, error }`: either an error object, or data that may
 * still be `null`. The components read the data as `data || []`.
 */
module Backend {

  type Id = seq<char>

  datatype Option<+T> = None | Some(value: T) {
    function GetOr(default: T): T {
      match this
      case Some(v) => v
      case None => default
    }
  }

  /** The service's error object: a PostgREST code such as "PGRST116" and a message ("" when absent). */
  datatype Error = Error(code: seq<char>, message: seq<char>)

  /** The awaited `{ data, error }` pair of one call. */
  datatype Reply<+T> = Failure(error: Error) | Success(data: Option<T>)

  /** `data || []` for a successful list query. */
  function Rows<T>(r: Reply<seq<T>>): (rows: seq<T>)
    requires r.Success?
    ensures r.data.None? ==> rows == []
    ensures r.data.Some? ==> rows == r.data.value
  {
    r.data.GetOr([])
  }

  /** JavaScript truthiness of an optional string: present and non-empty. */
  predicate Present(s: Option<seq<char>>) {
    s.Some? && s.value != []
  }

  /** `a || b` on two optional strings, falling back to `fallback` when both are falsy. */
  function FirstPresent(a: Option<seq<char>>, b: Option<seq<char>>, fallback: seq<char>): (r: seq<char>)
    ensures Present(a) ==> r == a.value
    ensures !Present(a) && Present(b) ==> r == b.value
    ensures !Present(a) && !Present(b) ==> r == fallback
    ensures fallback != [] ==> r != []
  {
    if Present(a) then a.value else if Present(b) then b.value else fallback
  }
}
