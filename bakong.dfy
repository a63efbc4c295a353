/** The Bakong client helpers: the process-wide access-token cache
 *  (`getBakongToken`, `getBakongAuth`) and the argument defaults of
 *  `generateKHQR`.
 *
 *  The environment, the clock (milliseconds) and the outcome of the credential
 *  exchange are inputs. The clock is read twice: `now` when the call starts,
 *  which decides a cache hit, and `after` once the awaited exchange has
 *  returned, from which the new expiry is counted. The exchange outcome is only looked at when the cache
 *  decides to call the network; the `requested` result says whether it did.
 */
module Bakong {
  import opened Common

  const DefaultExpiresIn := 3600
  /** Seconds taken off the provider's lifetime before the token is considered stale. */
  const SafetyMarginSeconds := 60

  /** The settings the helpers read; `None` and the empty string are both unset. */
  datatype BakongEnv = BakongEnv(
    staticToken: Option<string>, merchantId: Option<string>, secret: Option<string>,
    accountId: Option<string>, merchantName: Option<string>)

  predicate Set(v: Option<string>) { v.Some? && v.value != "" }

  /** The body of the credential-exchange reply and its `set-cookie` header. */
  datatype TokenReply = TokenReply(
    responseCode: Option<int>, responseMessage: string, accessToken: string,
    expiresIn: Option<int>, setCookie: Option<seq<string>>)

  /** The exchange either replied, or threw (an HTTP error with the
   *  `responseMessage` of its body, possibly empty, and the error message). */
  datatype Exchange =
    | Replied(reply: TokenReply)
    | Threw(responseMessage: string, message: string)

  /** The three fields of the module-level `tokenCache`. */
  datatype CacheState = CacheState(accessToken: Option<string>, cookies: Option<seq<string>>, expiresAt: int)

  const InitialCache := CacheState(None, None, 0)

  /** One call of `getBakongToken`: the token or the error message thrown, the
   *  cache afterwards, and whether the exchange endpoint was called. */
  datatype TokenStep = TokenStep(result: Result<string, string>, cache: CacheState, requested: bool)

  /** A cache hit: a token is held and the clock is strictly before its expiry. */
  predicate CacheHit(c: CacheState, now: int)
  {
    Set(c.accessToken) && now < c.expiresAt
  }

  /** The message thrown when credentials are missing; it names each missing setting. */
  function ConfigMissingMessage(env: BakongEnv): string
  {
    "Bakong Config Missing: " + (if !Set(env.merchantId) then "BAKONG_MERCHANT_ID " else "")
                             + (if !Set(env.secret) then "BAKONG_SECRET" else "")
  }

  /** The lifetime the provider granted, with 3600 s for a missing or zero `expires_in`. */
  function ExpiresIn(reply: TokenReply): int
  {
    if reply.expiresIn.Some? && reply.expiresIn.value != 0 then reply.expiresIn.value else DefaultExpiresIn
  }

  predicate ExchangeSucceeded(ex: Exchange)
  {
    ex.Replied? && ex.reply.responseCode == Some(0) && ex.reply.accessToken != ""
  }

  /** `getBakongToken` as a function of the cache before the call. */
  function TokenCall(c: CacheState, env: BakongEnv, now: int, ex: Exchange, after: int): (s: TokenStep)
    ensures s.result.Err? ==> s.cache == c
    ensures s.cache != c ==> s.requested && ExchangeSucceeded(ex)
    ensures s.result.Ok? ==> s.result.value != ""
    ensures s.cache != c ==> s.cache.expiresAt == after + (ExpiresIn(ex.reply) - SafetyMarginSeconds) * 1000
    ensures CacheHit(c, now) ==> !s.requested
  {
    if Set(env.staticToken) then TokenStep(Ok(env.staticToken.value), c, false)
    else if CacheHit(c, now) then TokenStep(Ok(c.accessToken.value), c, false)
    else if !Set(env.merchantId) || !Set(env.secret) then TokenStep(Err(ConfigMissingMessage(env)), c, false)
    else match ex
      case Replied(reply) =>
        if ExchangeSucceeded(ex) then
          var cache' := CacheState(Some(reply.accessToken), reply.setCookie,
                                   after + (ExpiresIn(reply) - SafetyMarginSeconds) * 1000);
          TokenStep(Ok(reply.accessToken), cache', true)
        else
          var msg := if reply.responseMessage != "" then reply.responseMessage else "Auth failed";
          TokenStep(Err("Bakong: " + msg), c, true)
      case Threw(responseMessage, message) =>
        TokenStep(Err(if responseMessage != "" then responseMessage else message), c, true)
  }

  /** The process-wide token cache. */
  class TokenCache {
    var accessToken: Option<string>
    var cookies: Option<seq<string>>
    var expiresAt: int

    function State(): CacheState
      reads this
    {
      CacheState(accessToken, cookies, expiresAt)
    }

    constructor ()
      ensures State() == InitialCache
    {
      accessToken, cookies, expiresAt := None, None, 0;
    }

    /** `getBakongToken`: returns the token, or the message of the error it throws. */
    method GetToken(env: BakongEnv, now: int, ex: Exchange, after: int) returns (r: Result<string, string>, requested: bool)
      modifies this
      ensures TokenStep(r, State(), requested) == TokenCall(old(State()), env, now, ex, after)
    {
      if Set(env.staticToken) {
        return Ok(env.staticToken.value), false;
      }
      if Set(accessToken) && now < expiresAt {
        return Ok(accessToken.value), false;
      }
      if !Set(env.merchantId) || !Set(env.secret) {
        return Err(ConfigMissingMessage(env)), false;
      }
      requested := true;
      match ex {
        case Replied(reply) =>
          if reply.responseCode == Some(0) && reply.accessToken != "" {
            accessToken := Some(reply.accessToken);
            cookies := reply.setCookie;
            expiresAt := after + (ExpiresIn(reply) - SafetyMarginSeconds) * 1000;
            r := Ok(reply.accessToken);
          } else {
            r := Err("Bakong: " + (if reply.responseMessage != "" then reply.responseMessage else "Auth failed"));
          }
        case Threw(responseMessage, message) =>
          r := Err(if responseMessage != "" then responseMessage else message);
      }
    }

    /** `getBakongAuth`: the token together with whatever cookies the cache holds after the call. */
    method GetAuth(env: BakongEnv, now: int, ex: Exchange, after: int) returns (r: Result<(string, Option<seq<string>>), string>)
      modifies this
      ensures var s := TokenCall(old(State()), env, now, ex, after);
        State() == s.cache &&
        r == (if s.result.Ok? then Ok((s.result.value, s.cache.cookies)) else Err(s.result.error))
    {
      var token, _ := GetToken(env, now, ex, after);
      if token.Err? {
        return Err(token.error);
      }
      r := Ok((token.value, cookies));
    }
  }

  // ---------------------------------------------------------------------------
  // Properties of the cache

  /** A static token is returned as is; the cache is neither read nor written and
   *  nothing is requested. */
  lemma StaticTokenBypassesCache(c: CacheState, env: BakongEnv, now: int, ex: Exchange, after: int)
    requires Set(env.staticToken)
    ensures TokenCall(c, env, now, ex, after) == TokenStep(Ok(env.staticToken.value), c, false)
  {
  }

  /** Without a static token the cached token is served, without a request, exactly
   *  when a token is held and `now < expiresAt`. */
  lemma CacheHitIff(c: CacheState, env: BakongEnv, now: int, ex: Exchange, after: int)
    requires !Set(env.staticToken)
    ensures var s := TokenCall(c, env, now, ex, after);
      (Set(c.accessToken) && now < c.expiresAt) <==>
      (c.accessToken.Some? && !s.requested && s.result == Ok(c.accessToken.value) && s.cache == c)
    ensures now >= c.expiresAt && Set(env.merchantId) && Set(env.secret) ==> TokenCall(c, env, now, ex, after).requested
  {
  }

  /** On a miss with a setting missing, the error names each missing setting and
   *  neither the network nor the cache is touched. */
  lemma MissingConfigThrows(c: CacheState, env: BakongEnv, now: int, ex: Exchange, after: int)
    requires !Set(env.staticToken) && !CacheHit(c, now)
    requires !Set(env.merchantId) || !Set(env.secret)
    ensures var s := TokenCall(c, env, now, ex, after);
      !s.requested && s.cache == c &&
      s.result == Err(if !Set(env.merchantId) && !Set(env.secret)
                      then "Bakong Config Missing: BAKONG_MERCHANT_ID BAKONG_SECRET"
                      else if !Set(env.merchantId) then "Bakong Config Missing: BAKONG_MERCHANT_ID "
                      else "Bakong Config Missing: BAKONG_SECRET")
  {
    ConfigMissingText(env);
  }

  lemma ConfigMissingText(env: BakongEnv)
    ensures ConfigMissingMessage(env)
         == if !Set(env.merchantId) && !Set(env.secret)
            then "Bakong Config Missing: BAKONG_MERCHANT_ID BAKONG_SECRET"
            else if !Set(env.merchantId) then "Bakong Config Missing: BAKONG_MERCHANT_ID "
            else if !Set(env.secret) then "Bakong Config Missing: BAKONG_SECRET"
            else "Bakong Config Missing: "
  {
    var head := "Bakong Config Missing: ";
    if !Set(env.merchantId) && !Set(env.secret) {
      BothMissingText();
    } else if !Set(env.merchantId) {
      assert head + "BAKONG_MERCHANT_ID " + "" == head + "BAKONG_MERCHANT_ID ";
      MerchantIdMissingText();
    } else if !Set(env.secret) {
      assert head + "" + "BAKONG_SECRET" == head + "BAKONG_SECRET";
      SecretMissingText();
    } else {
      assert head + "" + "" == head;
    }
  }

  lemma BothMissingText()
    ensures "Bakong Config Missing: " + "BAKONG_MERCHANT_ID " + "BAKONG_SECRET"
         == "Bakong Config Missing: BAKONG_MERCHANT_ID BAKONG_SECRET"
  {
  }

  lemma MerchantIdMissingText()
    ensures "Bakong Config Missing: " + "BAKONG_MERCHANT_ID " == "Bakong Config Missing: BAKONG_MERCHANT_ID "
  {
  }

  lemma SecretMissingText()
    ensures "Bakong Config Missing: " + "BAKONG_SECRET" == "Bakong Config Missing: BAKONG_SECRET"
  {
  }

  /** A successful exchange stores the token and cookies and sets the expiry to
   *  `(expires_in - 60) * 1000` after the clock reading taken once the exchange
   *  has returned, with `expires_in` defaulting to 3600. */
  lemma SuccessfulExchangeStores(c: CacheState, env: BakongEnv, now: int, reply: TokenReply, after: int)
    requires !Set(env.staticToken) && !CacheHit(c, now) && Set(env.merchantId) && Set(env.secret)
    requires reply.responseCode == Some(0) && reply.accessToken != ""
    ensures var s := TokenCall(c, env, now, Replied(reply), after);
      s.requested && s.result == Ok(reply.accessToken) &&
      s.cache == CacheState(Some(reply.accessToken), reply.setCookie,
                            after + ((if reply.expiresIn.Some? && reply.expiresIn.value != 0
                                    then reply.expiresIn.value else 3600) - 60) * 1000)
  {
  }

  /** A failed exchange throws and leaves all three cache fields as they were. */
  lemma FailedExchangeKeepsCache(c: CacheState, env: BakongEnv, now: int, ex: Exchange, after: int)
    requires !Set(env.staticToken) && !CacheHit(c, now) && Set(env.merchantId) && Set(env.secret)
    requires !ExchangeSucceeded(ex)
    ensures var s := TokenCall(c, env, now, ex, after);
      s.requested && s.result.Err? && s.cache == c
  {
  }

  /** A provider lifetime of at most 60 s yields a token that is already expired:
   *  any later call (without a static token) misses and asks the network again. */
  lemma {:induction false} ShortLifetimeAlwaysRefetches(
    c: CacheState, env: BakongEnv, now: int, reply: TokenReply, after: int, later: int, ex: Exchange, laterAfter: int)
    requires !Set(env.staticToken) && !CacheHit(c, now) && Set(env.merchantId) && Set(env.secret)
    requires reply.responseCode == Some(0) && reply.accessToken != ""
    requires reply.expiresIn.Some? && reply.expiresIn.value != 0 && reply.expiresIn.value <= 60
    requires later >= after
    ensures var first := TokenCall(c, env, now, Replied(reply), after);
      first.cache.expiresAt <= after && TokenCall(first.cache, env, later, ex, laterAfter).requested
  {
    var first := TokenCall(c, env, now, Replied(reply), after);
    assert (reply.expiresIn.value - 60) * 1000 <= 0;
    assert !CacheHit(first.cache, later);
  }

  /** A successful exchange is reused until its expiry, counted from the clock
   *  reading after the exchange: a call strictly before it is
   *  served from the cache without a request. */
  lemma {:induction false} TokenReusedUntilExpiry(
    c: CacheState, env: BakongEnv, now: int, reply: TokenReply, after: int, later: int, ex: Exchange, laterAfter: int)
    requires !Set(env.staticToken) && !CacheHit(c, now) && Set(env.merchantId) && Set(env.secret)
    requires reply.responseCode == Some(0) && reply.accessToken != ""
    requires later < after + (ExpiresIn(reply) - 60) * 1000
    ensures var first := TokenCall(c, env, now, Replied(reply), after);
      TokenCall(first.cache, env, later, ex, laterAfter) == TokenStep(Ok(reply.accessToken), first.cache, false)
  {
  }

  /** With the static token the cookies are whatever the cache holds: `null` in a
   *  fresh process. */
  method StaticTokenCookies(env: BakongEnv, now: int, ex: Exchange, after: int) returns (r: Result<(string, Option<seq<string>>), string>)
    requires Set(env.staticToken)
    ensures r == Ok((env.staticToken.value, None))
  {
    var cache := new TokenCache();
    r := cache.GetAuth(env, now, ex, after);
  }

  // ---------------------------------------------------------------------------
  // generateKHQR: the arguments handed to the KHQR library

  datatype Currency = KHR | USD

  /** The arguments a caller may give; `None` means the default applies. */
  datatype KhqrCall = KhqrCall(
    bakongId: Option<string>, merchantName: Option<string>, merchantCity: Option<string>,
    amount: Option<int>, currency: Option<string>, billNumber: Option<string>,
    storeLabel: Option<string>, expirationTimestamp: Option<int>)

  /** What the library receives: the individual's identity and the optional data. */
  datatype IndividualInfo = IndividualInfo(
    bakongId: string, merchantName: string, merchantCity: string, currency: Currency,
    amount: int, billNumber: string, storeLabel: string, terminalLabel: string,
    expirationTimestamp: int, merchantCategoryCode: string)

  /** The library's result, taken as opaque: the encoded QR string and its MD5. */
  datatype QrData = QrData(qr: string, md5: string)

  /** Only the exact string "KHR" selects riel; anything else selects dollars. */
  function CurrencyOf(currency: string): (c: Currency)
    ensures c == KHR <==> currency == "KHR"
  {
    if currency == "KHR" then KHR else USD
  }

  function Default<T>(v: Option<T>, d: T): T { if v.Some? then v.value else d }

  /** `generateKHQR`'s destructuring defaults (they apply only to absent arguments;
   *  the environment fallbacks treat the empty string as unset). */
  function KhqrArguments(call: KhqrCall, env: BakongEnv, now: int): (info: IndividualInfo)
    ensures call.billNumber.Some? ==> info.billNumber == call.billNumber.value
    ensures call.billNumber.None? ==> info.billNumber == ""
    ensures call.expirationTimestamp.None? ==> info.expirationTimestamp == now + 300000
    ensures call.currency.None? ==> info.currency == KHR
    ensures call.amount.None? ==> info.amount == 0
    ensures info.terminalLabel == "Online Payment" && info.merchantCategoryCode == "5999"
  {
    IndividualInfo(
      Default(call.bakongId, if Set(env.accountId) then env.accountId.value else "sokchan_yan@aclb"),
      Default(call.merchantName, if Set(env.merchantName) then env.merchantName.value else "Sokchan Yan"),
      Default(call.merchantCity, "PHNOM PENH"),
      CurrencyOf(Default(call.currency, "KHR")),
      Default(call.amount, 0),
      Default(call.billNumber, ""),
      Default(call.storeLabel, "Socheath Store"),
      "Online Payment",
      Default(call.expirationTimestamp, now + 5 * 60 * 1000),
      "5999")
  }
}
