/** The shapes the services exchange with the backend: the `ApiResponse` envelope and the
    values of query parameters and request bodies. Rendering those values to text
    (`toString`, `toISOString`) and the HTTP transport are not modelled: a parameter keeps
    the typed value the service put into it. */
module Api {
  import opened Wrappers

  /** `{ status, data? }` as the backend answers. */
  datatype ApiResponse<T> = ApiResponse(status: string, data: Option<T>)

  /** The envelope is usable: status 'success' and a payload. */
  predicate Succeeded<T>(r: ApiResponse<T>) {
    r.status == "success" && r.data.Some?
  }

  /** A query-parameter value: a string, a number, or a date sent as its ISO text
      (`ms` is the instant in milliseconds since the epoch). */
  datatype ParamValue = Text(s: string) | Number(n: real) | IsoDate(ms: int)

  /** JavaScript truthiness of an optional string: present and non-empty. */
  predicate Truthy(s: Option<string>) {
    s.Some? && s.value != ""
  }

  /** The names every plain object inherits from `Object.prototype`; looking one of them
      up on an object literal yields a truthy value even when the literal does not define
      it. */
  const ObjectPrototypeMembers: set<string> := {
    "constructor", "hasOwnProperty", "isPrototypeOf", "propertyIsEnumerable",
    "toLocaleString", "toString", "valueOf", "__proto__",
    "__defineGetter__", "__defineSetter__", "__lookupGetter__", "__lookupSetter__"}

  /** `a || b` on optional strings. */
  function OrElse(a: Option<string>, b: string): (r: string)
    ensures Truthy(a) ==> r == a.value
    ensures !Truthy(a) ==> r == b
  {
    if Truthy(a) then a.value else b
  }
}
