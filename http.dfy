/**
 * What the handlers see of a request and what they answer: configuration
 * values, the request's method, query, headers and JSON body, and the response
 * as a status code and a body (or the exception a handler lets escape).
 */
module Http {
  import opened Wrappers
  import opened Js
  import opened Db
  import opened Signing

  /** The environment variables the handlers read; `None` is an unset variable. */
  datatype Env = Env(
    supabaseUrl: Option<string>,
    serviceRoleKey: Option<string>,
    storageBucket: Option<string>,
    adminKey: Option<string>,
    publicResultsUrlBase: Option<string>,
    fromEmail: Option<string>)

  /** `verb` is `req.method`; header names are lower-case, as Node delivers them. */
  datatype Request = Request(
    verb: string,
    query: map<string, string>,
    headers: map<string, string>,
    body: JsValue)

  /** `(req.query[name] as string) || ""`. */
  function Param(req: Request, name: string): string {
    if name in req.query then req.query[name] else ""
  }

  function Header(req: Request, name: string): Option<string> {
    if name in req.headers then Some(req.headers[name]) else None
  }

  /** An environment variable that is set to a non-empty value. */
  predicate IsSet(v: Option<string>) {
    v.Some? && v.value != ""
  }

  /** `${v}` in a template literal. */
  function Interpolate(v: Option<string>): string {
    match v
    case None => "undefined"
    case Some(s) => s
  }

  /** The shared-secret gate: `!ADMIN_KEY || key !== ADMIN_KEY` is refused. */
  predicate AdminAuthorized(env: Env, req: Request) {
    IsSet(env.adminKey) && Header(req, "x-admin-key") == env.adminKey
  }

  /** With `ADMIN_KEY` unset or empty no request passes the gate; otherwise exactly those carrying it. */
  lemma AdminGate(env: Env, req: Request)
    ensures !IsSet(env.adminKey) ==> !AdminAuthorized(env, req)
    ensures IsSet(env.adminKey) ==>
      (AdminAuthorized(env, req) <==> "x-admin-key" in req.headers && req.headers["x-admin-key"] == env.adminKey.value)
  {
  }

  /**
   * Exceptions a handler can let escape; the platform turns them into a 500.
   * `NetworkError` is a `fetch` that rejects because no response arrived.
   */
  datatype Exception = ProviderError(text: string) | TypeError | SyntaxError | NetworkError

  /** The `details` member of an error body. */
  datatype Details = DbError(message: string) | Raised(e: Exception)

  datatype QueueItem = QueueItem(
    id: string,
    clientEmail: Option<string>,
    status: Status,
    mottoLatin: Option<string>,
    createdAt: int)

  /** The fields of an insigne the token holder may see. */
  datatype PublicInsigne = PublicInsigne(
    id: string,
    status: Status,
    mottoLatin: Option<string>,
    reportText: Option<string>)

  datatype Body =
    | NoBody                                          // `res.end()`
    | Ok                                              // `{ ok: true }`
    | Refused                                         // `{ ok: false }`
    | Error(error: string)                            // `{ ok: false, error }`
    | Failed(error: string, details: Details)         // `{ ok: false, error, details }`
    | Created(insigneId: string)                      // `{ ok: true, insigne_id }`
    | Found(insigneId: string)                        // `{ ok: true, insigne_id }` from a lookup
    | InsigneView(insigneId: string, status: Status, mottoLatin: Option<string>, assets: seq<SignedAsset>)
    | TokenView(insigne: PublicInsigne, assets: seq<SignedAsset>)
    | Queue(items: seq<QueueItem>)
    | LatestView(insigneId: string, status: Status, mottoLatin: Option<string>, reportText: Option<string>)

  datatype Response = Reply(code: int, body: Body) | Thrown(e: Exception)
}
