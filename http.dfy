/** The outcome of one REST call as the console's code sees it. The call itself is made by
    axios and is not modelled: its outcome is passed in. */
module Http {
  import opened Wrappers

  /** What a rejected call carries: `error.response?.status`, `error.response?.data?.message`,
      `error.response?.data?.error` and `error.message`. */
  datatype HttpError = HttpError(
    status: Option<int>,
    dataMessage: Option<string>,
    dataError: Option<string>,
    message: string)

  datatype Response<+T> = Ok(data: T) | Err(error: HttpError)

  /** A JSON value. `undefined` is not distinguished from `null`. Numbers are integers. */
  datatype Json =
    | JNull
    | JBool(b: bool)
    | JNum(n: int)
    | JStr(s: string)
    | JArr(items: seq<Json>)
    | JObj(fields: map<string, Json>)

  /** `value.key`: the property, or `null` when there is none. */
  function Member(value: Json, key: string): Json {
    if value.JObj? && key in value.fields then value.fields[key] else JNull
  }

  /** JavaScript truthiness of an optional string: present and not empty. */
  predicate Truthy(s: Option<string>) {
    s.Some? && s.value != ""
  }

  /** `a || b` where `a` is an optional string. */
  function OrElse(a: Option<string>, b: string): (r: string)
    ensures Truthy(a) ==> r == a.value
    ensures !Truthy(a) ==> r == b
  {
    if a.Some? && a.value != "" then a.value else b
  }

  /** `error.response?.data?.message || fallback`. */
  function ServerMessageOr(e: HttpError, fallback: string): string {
    OrElse(e.dataMessage, fallback)
  }

  /** `error.message || fallback`. */
  function MessageOr(e: HttpError, fallback: string): string {
    OrElse(Some(e.message), fallback)
  }

  /** `error.response?.data?.error || fallback`. */
  function DataErrorOr(e: HttpError, fallback: string): string {
    OrElse(e.dataError, fallback)
  }

  /** `error.response?.data?.error || error.message || fallback`. */
  function ServerErrorOr(e: HttpError, fallback: string): string {
    OrElse(e.dataError, MessageOr(e, fallback))
  }

  /** The notice a page shows through `message.success` or `message.error`. */
  datatype Toast = SuccessToast(text: string) | ErrorToast(text: string)
}
