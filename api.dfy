/** The transport: requests, responses, and the errors the client raises.
    The HTTP client itself is an abstract oracle, a function from a request to
    its response. */
module Api {
  import opened Json

  /** The endpoints the core talks to, relative to the base URL:
      "maintenance-cases", "maintenance-impacts",
      "maintenance-cases/{case_num}/notifications",
      "maintenance-cases/notifications/{name}", and the service-inventory route
      (whose path constant is not part of this model). */
  datatype Route =
    | MaintenanceCases
    | MaintenanceImpacts
    | NotificationsByCase(caseNum: string)
    | NotificationByName(name: Value)
    | Services

  /** A request body: the keyword arguments of a call, as a JSON object. */
  type Params = map<string, Value>

  datatype Request = Post(route: Route, body: Params) | Get(route: Route)

  /** `isError` is httpx's `is_error` (a 4xx or 5xx status); `body` is `json()`. */
  datatype Response = Response(isError: bool, body: Value)

  type Transport = Request -> Response

  /** The exceptions the modelled code can raise. */
  datatype Error =
    | HttpError        // raise_for_status() on an error response
    | Malformed        // KeyError / IndexError / TypeError reading a response
    | PagingNotObject  // `paging.setdefault` on a value that is not a dict
    | NotANumber       // `total / page_sz` on a value that is not a number
    | ZeroDivision     // `total / page_sz` with a zero page size
    | DuplicateArgument  // TypeError: a keyword given twice in one call

  datatype Result<+T> = Ok(value: T) | Err(error: Error)

  /** What an operation returns, and every request it sent, in order. */
  datatype Run<+T> = Run(result: Result<T>, sent: seq<Request>)
}
