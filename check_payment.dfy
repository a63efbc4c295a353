/** The server-side payment check (`POST /api/bakong/check-payment`).
 *
 *  The route takes the MD5 fingerprint of a KHQR payment request, asks the
 *  Bakong network whether a transaction with that fingerprint exists, and runs
 *  the reply through a chain of early-return guards: success shape, recipient,
 *  freshness. The token lookup and the upstream call are inputs here: `auth` is
 *  what `getBakongAuth` produced and `upstream` is what the HTTP call produced.
 */
module CheckPayment {
  import opened Common

  const DefaultBaseUrl := "https://api-bakong.nbc.gov.kh/v1"
  const DefaultAccountId := "sokchan_yan@aclb"
  const CheckPath := "/check_transaction_by_md5"
  /** Allowance for clock drift between this server and the client that generated the QR. */
  const ClockSkewMs := 5000

  /** Environment settings the route reads; an empty string counts as unset. */
  datatype Config = Config(baseUrl: Option<string>, accountId: Option<string>)

  /** The transaction record in a reply's `data` field; an empty `hash` is falsy. */
  datatype Transaction = Transaction(
    hash: string, toAccountId: string, createdDateMs: int, amount: int, currency: string)

  /** The JSON body of a reply; `responseCode` is `None` when it is absent or not a number. */
  datatype CheckReply = CheckReply(
    responseCode: Option<int>, responseMessage: string, data: Option<Transaction>)

  /** What an HTTP error carried as its body. */
  datatype ErrorBody = NoBody | TextBody(text: string) | JsonBody

  /** The outcome of the upstream call: a parsed reply, or a thrown error with
   *  the HTTP status of its response (if any), the body and the error message. */
  datatype Upstream =
    | Replied(reply: CheckReply)
    | Threw(status: Option<int>, body: ErrorBody, message: string)

  /** The fields the route reads from the JSON request body. */
  datatype CheckBody = CheckBody(md5: string, expectedAmount: Option<int>, generationTime: Option<int>)

  /** Token and cookies as `getBakongAuth` returns them. */
  datatype AuthData = AuthData(token: string, cookies: Option<seq<string>>)

  /** The request the route sends upstream. */
  datatype CheckRequest = CheckRequest(url: string, md5: string, authorization: string, cookie: string)

  /** Every response the route can give. */
  datatype Response =
    | MissingMd5
    | AuthFailed(details: string)
    | Confirmed(hash: string, tx: Transaction)
    | RecipientMismatch
    | StaleTransaction
    | NotConfirmed(message: string, data: Option<Transaction>, responseCode: Option<int>)
    | TransactionNotFound
    | UpstreamHtml(details: string)
    | InternalError(message: string)
  {
    /** The HTTP status of the response. */
    function Status(): int
    {
      match this
      case MissingMd5 => 400
      case AuthFailed(_) => 500
      case UpstreamHtml(_) => 502
      case InternalError(_) => 500
      case _ => 200
    }

    /** The `success` field of the JSON body (absent bodies read as false). */
    predicate Success() { Confirmed? }

    /** The `message` field, for the responses that have one. */
    function Message(): Option<string>
    {
      match this
      case Confirmed(_, _) => Some("Payment confirmed")
      case RecipientMismatch => Some("Transaction found but recipient does not match.")
      case StaleTransaction => Some("Transaction found but it's old/stale.")
      case NotConfirmed(m, _, _) => Some(m)
      case TransactionNotFound => Some("Transaction not found")
      case InternalError(m) => Some(m)
      case _ => None
    }
  }

  /** `raw.replace(/\/$/, "")`: at most one trailing slash is removed. */
  function StripTrailingSlash(raw: string): (url: string)
    ensures url == raw || url + "/" == raw
    ensures url != raw <==> raw != [] && raw[|raw| - 1] == '/'
  {
    if raw != [] && raw[|raw| - 1] == '/' then raw[..|raw| - 1] else raw
  }

  function OrDefault(v: Option<string>, default: string): string
  {
    if v.Some? && v.value != "" then v.value else default
  }

  function BaseUrl(config: Config): string
  {
    StripTrailingSlash(OrDefault(config.baseUrl, DefaultBaseUrl))
  }

  /** The account every accepted payment must be addressed to. */
  function ExpectedAccount(config: Config): string
  {
    OrDefault(config.accountId, DefaultAccountId)
  }

  /** The request sent upstream: the check path after the base URL, the bearer
   *  token, and the cached cookies joined with "; " (empty when there are none). */
  function UpstreamRequest(md5: string, config: Config, auth: AuthData): (req: CheckRequest)
    ensures req.url == BaseUrl(config) + CheckPath
    ensures req.authorization == "Bearer " + auth.token
  {
    CheckRequest(BaseUrl(config) + CheckPath, md5, "Bearer " + auth.token,
                 if auth.cookies.Some? then JoinCookies(auth.cookies.value) else "")
  }

  function JoinCookies(cookies: seq<string>): string
  {
    if cookies == [] then "" else if |cookies| == 1 then cookies[0]
    else cookies[0] + "; " + JoinCookies(cookies[1..])
  }

  /** JavaScript truthiness of `generationTime`: present and not zero. */
  predicate Truthy(t: Option<int>) { t.Some? && t.value != 0 }

  /** The only success shape: response code 0 and a transaction with a non-empty hash. */
  predicate SuccessShape(reply: CheckReply)
  {
    reply.responseCode == Some(0) && reply.data.Some? && reply.data.value.hash != ""
  }

  /** The freshness guard: the transaction predates the QR by more than the allowance. */
  predicate IsStale(tx: Transaction, generationTime: Option<int>)
  {
    Truthy(generationTime) && tx.createdDateMs < generationTime.value - ClockSkewMs
  }

  /** The guards applied to a reply that arrived. */
  function Decide(reply: CheckReply, generationTime: Option<int>, account: string): (r: Response)
    ensures r.Status() == 200
    ensures r.Success() ==> SuccessShape(reply) && r.tx == reply.data.value && r.hash == r.tx.hash
  {
    if SuccessShape(reply) then
      var tx := reply.data.value;
      if tx.toAccountId != account then RecipientMismatch
      else if IsStale(tx, generationTime) then StaleTransaction
      else Confirmed(tx.hash, tx)
    else
      NotConfirmed(if reply.responseMessage != "" then reply.responseMessage
                   else "Payment not found or not completed",
                   reply.data, reply.responseCode)
  }

  /** The error handler: upstream 404, an HTML block page, or anything else. */
  function Classify(status: Option<int>, body: ErrorBody, message: string): (r: Response)
    ensures r.TransactionNotFound? || r.UpstreamHtml? || r.InternalError?
  {
    if status == Some(404) then TransactionNotFound
    else if body.TextBody? && (Contains(body.text, "<HTML>") || Contains(body.text, "<!DOCTYPE")) then
      UpstreamHtml("HTML Response: " + body.text[..Min(|body.text|, 500)] + "...")
    else InternalError(message)
  }

  /** The whole route. `body` is the parsed request body, or the message of the
   *  error `request.json()` threw; that error reaches the same handler as a failed
   *  upstream call, with no response attached. `expectedAmount` is read but, as in
   *  the route, only logged. */
  function Check(body: Result<CheckBody, string>, config: Config,
                 auth: Result<AuthData, string>, upstream: Upstream): (r: Response)
    ensures r.Status() in {200, 400, 500, 502}
    ensures body.Err? ==> r == InternalError(body.error)
    ensures r.Success() ==> body.Ok? && body.value.md5 != "" && auth.Ok? && upstream.Replied?
                            && r.tx.toAccountId == ExpectedAccount(config)
                            && !IsStale(r.tx, body.value.generationTime) && r.hash != ""
  {
    if body.Err? then Classify(None, NoBody, body.error)
    else if body.value.md5 == "" then MissingMd5
    else if auth.Err? then AuthFailed(auth.error)
    else match upstream
      case Threw(status, errBody, message) => Classify(status, errBody, message)
      case Replied(reply) => Decide(reply, body.value.generationTime, ExpectedAccount(config))
  }

  // ---------------------------------------------------------------------------
  // Properties of the route

  /** A missing fingerprint is answered with 400 whatever the token lookup and the
   *  upstream call would have produced: neither is consulted. */
  lemma MissingMd5BeforeAnyCall(amount: Option<int>, gen: Option<int>, config: Config,
                                a1: Result<AuthData, string>, a2: Result<AuthData, string>,
                                u1: Upstream, u2: Upstream)
    ensures var body := Ok(CheckBody("", amount, gen));
      Check(body, config, a1, u1) == Check(body, config, a2, u2) && Check(body, config, a1, u1).Status() == 400
  {
  }

  /** A token failure is a 500 "Bakong Auth Failed" and the upstream result is not used. */
  lemma AuthFailureStopsCheck(md5: string, amount: Option<int>, gen: Option<int>, config: Config,
                              reason: string, u1: Upstream, u2: Upstream)
    requires md5 != ""
    ensures Check(Ok(CheckBody(md5, amount, gen)), config, Err(reason), u1) == AuthFailed(reason)
    ensures Check(Ok(CheckBody(md5, amount, gen)), config, Err(reason), u1)
         == Check(Ok(CheckBody(md5, amount, gen)), config, Err(reason), u2)
    ensures AuthFailed(reason).Status() == 500
  {
  }

  /** `success: true` exactly when the reply has the success shape, the recipient
   *  matches and the transaction is not stale. */
  lemma SuccessIff(body: Result<CheckBody, string>, config: Config,
                   auth: Result<AuthData, string>, upstream: Upstream)
    ensures Check(body, config, auth, upstream).Success() <==>
      body.Ok? && body.value.md5 != "" && auth.Ok? && upstream.Replied? && SuccessShape(upstream.reply)
      && upstream.reply.data.value.toAccountId == ExpectedAccount(config)
      && !IsStale(upstream.reply.data.value, body.value.generationTime)
  {
  }

  /** Any reply without the success shape is a 200 with `success: false` and the
   *  upstream message, or the default message when that is empty. */
  lemma NonSuccessShapeMessage(reply: CheckReply, gen: Option<int>, account: string)
    requires !SuccessShape(reply)
    ensures var r := Decide(reply, gen, account);
      !r.Success() && r.Status() == 200 &&
      r.Message() == Some(if reply.responseMessage != "" then reply.responseMessage
                          else "Payment not found or not completed")
  {
  }

  /** A transaction addressed to another account is refused whatever its time and amount. */
  lemma RecipientCheckedFirst(reply: CheckReply, g1: Option<int>, g2: Option<int>, account: string)
    requires SuccessShape(reply) && reply.data.value.toAccountId != account
    ensures Decide(reply, g1, account) == RecipientMismatch == Decide(reply, g2, account)
  {
  }

  /** The stale guard fires exactly when a non-zero generation time is known and the
   *  transaction is older than it by more than five seconds. */
  lemma StaleIff(reply: CheckReply, gen: Option<int>, account: string)
    requires SuccessShape(reply) && reply.data.value.toAccountId == account
    ensures Decide(reply, gen, account) == StaleTransaction <==>
      gen.Some? && gen.value != 0 && reply.data.value.createdDateMs < gen.value - 5000
    ensures Decide(reply, gen, account) != StaleTransaction ==> Decide(reply, gen, account).Success()
  {
  }

  /** Worked cases around the allowance: exactly five seconds early is accepted,
   *  one millisecond more is stale, ten seconds early is stale, two seconds early
   *  is accepted, and a missing or zero generation time skips the guard. */
  lemma StaleBoundary(tx: Transaction, account: string, t: int)
    requires tx.hash != "" && tx.toAccountId == account && t != 0
    ensures var reply := CheckReply(Some(0), "", Some(tx));
      && (tx.createdDateMs == t - 5000 ==> Decide(reply, Some(t), account).Success())
      && (tx.createdDateMs == t - 5001 ==> Decide(reply, Some(t), account) == StaleTransaction)
      && (tx.createdDateMs == t - 10000 ==> Decide(reply, Some(t), account) == StaleTransaction)
      && (tx.createdDateMs == t - 2000 ==> Decide(reply, Some(t), account).Success())
      && Decide(reply, None, account).Success()
      && Decide(reply, Some(0), account).Success()
  {
  }

  /** The expected amount never changes the outcome: it is only logged. */
  lemma AmountNeverRejects(md5: string, a1: Option<int>, a2: Option<int>, gen: Option<int>,
                           config: Config, auth: Result<AuthData, string>, upstream: Upstream)
    ensures Check(Ok(CheckBody(md5, a1, gen)), config, auth, upstream)
         == Check(Ok(CheckBody(md5, a2, gen)), config, auth, upstream)
  {
  }

  /** A thrown upstream call: 404 is a normal "not found" answer, an HTML page is a
   *  502, and every other failure is a 500. */
  lemma ErrorClassification(status: Option<int>, body: ErrorBody, message: string)
    ensures var r := Classify(status, body, message);
      && (status == Some(404) ==> r == TransactionNotFound && r.Status() == 200 && !r.Success())
      && (status != Some(404) && body.TextBody? && Contains(body.text, "<!DOCTYPE") ==> r.Status() == 502)
      && (status != Some(404) && body.TextBody? && Contains(body.text, "<HTML>") ==> r.Status() == 502)
      && (status != Some(404) && !body.TextBody? ==> r == InternalError(message) && r.Status() == 500)
  {
  }

  /** An HTML block page is recognised by the marker anywhere in the body. */
  lemma HtmlMarkerAnywhere(prefix: string, suffix: string, message: string)
    ensures Classify(None, TextBody(prefix + "<!DOCTYPE" + suffix), message).Status() == 502
  {
    var text := prefix + "<!DOCTYPE" + suffix;
    assert text[|prefix|..|prefix| + |"<!DOCTYPE"|] == "<!DOCTYPE";
    assert OccursAt(text, "<!DOCTYPE", |prefix|);
    ContainsIff(text, "<!DOCTYPE");
  }

  /** Exactly one trailing slash of the configured base URL is dropped before the path is appended. */
  lemma CheckUrlOneSlash(base: string)
    requires base != ""
    ensures UpstreamRequest("m", Config(Some(base + "/"), None), AuthData("t", None)).url
            == base + CheckPath
    ensures UpstreamRequest("m", Config(Some(base + "//"), None), AuthData("t", None)).url
            == base + "/" + CheckPath
  {
    assert (base + "/")[..|base + "/"| - 1] == base;
    assert (base + "//")[..|base + "//"| - 1] == base + "/";
  }
}
