/** What a remote call can come back with. The HTTP requests themselves are
    not modelled: a handler receives the outcome of its call as a parameter. */
module Http {
  import opened Wrappers

  /** `error.response.data` of a failed request. */
  datatype ResponseData =
    | NoData
    | JsonBody(message: Option<string>)   // an object; `message` is its `message` field
    | TextBody(text: string)               // a plain string body

  /** What a `catch` block receives. */
  datatype Failure =
    | AxiosFailure(status: Option<int>, data: ResponseData, message: string)
    | ErrorFailure(message: string)        // an `Error` that is not from axios
    | OtherFailure                         // anything thrown that is not an `Error`

  datatype Outcome = Succeeded | Failed(failure: Failure)

  /** JavaScript truthiness of an optional string: present and non-empty. */
  predicate Truthy(s: Option<string>) {
    s.Some? && s.value != ""
  }

  /** `a || b` on optional strings. */
  function OrElse(a: Option<string>, b: Option<string>): (r: Option<string>)
    ensures Truthy(a) ==> r == a
    ensures !Truthy(a) ==> r == b
  {
    if Truthy(a) then a else b
  }

  /** `error.response?.data?.message`: only an object body has one. */
  function BodyMessage(d: ResponseData): Option<string> {
    match d
    case JsonBody(m) => m
    case _ => None
  }
}
