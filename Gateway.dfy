/** The boundary between the client and the FOLIO Okapi gateway: the requests the
    client issues, the outcomes the HTTP transport hands back, and the uniform
    `{payload, code, error}` record every public operation returns. */
module Gateway {
  import opened Wrappers
  import opened JsonValue

  /** The two login endpoints: `/authn/login-with-expiry` (refresh token rotation)
      and the legacy `/authn/login`. */
  datatype LoginPath = LoginWithExpiry | Login

  /** One HTTP request, named by its endpoint and by the values interpolated into
      its URL or encoded into its JSON body. The gateway URL, the tenant and the
      header set are the same for every call and are not part of the model. */
  datatype Request =
    | PostLogin(path: LoginPath, username: string, password: string)
    | GetUsers(username: string)
    | GetAccount(folioId: Json)
    | PostRenew(userId: Json, itemId: string)
    | GetRequestPolicyRule(itemTypeId: string, loanTypeId: string, patronTypeId: string, locationId: string)
    | GetRequestPolicy(policyId: Json)
    | GetInstance(instanceId: string)
    | PostCirculationRequest(body: Object)
    | GetCirculationRequest(requestId: string)
    | PutCirculationRequest(requestId: string, body: Object)
    | GetServicePoint(servicePointId: string)

  /** The response headers the client reads: `set_cookie` (nil when the header
      is absent) and `x_okapi_token`. */
  datatype Headers = Headers(setCookie: Option<seq<string>>, okapiToken: Option<string>)

  /** What one call to the transport produces: a normal response (decoded body),
      a `RestClient::ExceptionWithResponse` carrying a status and a raw body, or a
      network failure outside that class (a `SocketError`), which only the login
      rescues by name; `hasResponse` follows that rescue clause's own test. */
  datatype Outcome =
    | Ok(code: int, body: Object, headers: Headers)
    | HttpErr(code: int, raw: string)
    | NetErr(hasResponse: bool, code: int, className: string, message: string)

  /** The gateway as the client sees it: every request has an outcome. */
  type Transport = Request -> Outcome

  /** Exceptions that cross the public boundary instead of being folded into a
      result: the missing-token precondition, a network failure an operation does
      not rescue, a method called on nil, and a decoded value of a JSON kind other
      than the one the code indexes into. */
  datatype Exception =
    | AuthenticationError(message: string)
    | Uncaught(className: string, message: string)
    | NoMethodError
    | UnexpectedShape

  /** An operation either returns a value or raises. */
  datatype Reply<+T> = Returned(value: T) | Raised(exception: Exception)

  /** The reply of one operation together with the requests it issued, in order. */
  datatype Run<+T> = Run(reply: Reply<T>, sent: seq<Request>)

  /** The `:error` entry: a raw response body or fixed message, or (for renewals
      only) the raw body run through `JSON.parse`. */
  datatype ErrorValue = Text(text: string) | ParsedBody(raw: string)

  /** The uniform result hash: the operation's payload (nil is `JNull`), the HTTP
      code and the error, if any. */
  datatype Result<+P> = Result(payload: P, code: int, error: Option<ErrorValue>)

  /** The exception an unrescued network failure propagates as. */
  function Rethrown(o: Outcome): Exception
    requires o.NetErr?
  {
    Uncaught(o.className, o.message)
  }

  /** True when an operation raised the missing-token error. */
  predicate RaisedAuthError<T>(r: Run<T>)
  {
    r.reply.Raised? && r.reply.exception.AuthenticationError?
  }

  /** `value[key]` on a decoded value: a hash lookup on an object, NoMethodError
      on nil; any other JSON kind is outside what the code expects. */
  function Index(v: Json, key: string): (r: Reply<Json>)
    ensures r.Returned? <==> v.JObj?
    ensures v.JObj? ==> r.value == Get(v.fields, key)
    ensures v == JNull ==> r == Raised(NoMethodError)
  {
    match v
    case JObj(fields) => Returned(Get(fields, key))
    case JNull => Raised(NoMethodError)
    case _ => Raised(UnexpectedShape)
  }

  /** The base normalise-outcome pattern shared by the single-call lookups: the
      decoded body and the response code on success, the status and raw body of
      an HTTP error, and a network failure propagated unchanged. */
  function Normalize(o: Outcome): (r: Reply<Result<Json>>)
    ensures r.Raised? <==> o.NetErr?
    ensures o.NetErr? ==> r.exception == Rethrown(o)
    ensures r.Returned? ==> r.value.code == o.code
    ensures r.Returned? ==> (r.value.error.None? <==> o.Ok?)
    ensures o.Ok? ==> r.value.payload == JObj(o.body)
    ensures o.HttpErr? ==> r.value.payload == JNull && r.value.error == Some(Text(o.raw))
  {
    match o
    case Ok(code, body, _) => Returned(Result(JObj(body), code, None))
    case HttpErr(code, raw) => Returned(Result(JNull, code, Some(Text(raw))))
    case NetErr(_, _, _, _) => Raised(Rethrown(o))
  }

  /** The same pattern for calls whose result carries no payload. */
  function StatusOnly(o: Outcome): (r: Reply<Result<()>>)
    ensures r.Raised? <==> o.NetErr?
    ensures o.NetErr? ==> r.exception == Rethrown(o)
    ensures r.Returned? ==> r.value.code == o.code
    ensures o.Ok? ==> r.Returned? && r.value.error == None
    ensures o.HttpErr? ==> r.Returned? && r.value.error == Some(Text(o.raw))
  {
    match o
    case Ok(code, _, _) => Returned(Result((), code, None))
    case HttpErr(code, raw) => Returned(Result((), code, Some(Text(raw))))
    case NetErr(_, _, _, _) => Raised(Rethrown(o))
  }
}
