/**
 * The Ecobici API client (lib/ecobici.js): its options record, the access-token validity test,
 * the endpoint request builder, the classification of HTTP responses into promise outcomes,
 * the token-update transition and `getStations`.
 *
 * HTTP exchanges are not performed: each response is an input value. Clocks are inputs too
 * (integer seconds). A promise is modelled by the sequence of `resolve`/`reject` calls made on it;
 * the first call settles it and the later ones have no effect.
 */
module Ecobici {
  import opened Wrappers
  import opened Json
  import Decimal

  // ---------------------------------------------------------------------------------------------
  // Options (lib/ecobici.js:7-20)

  const DefaultOAuthBase: string := "https://pubsbapi.smartbike.com/oauth/v2/token"
  const DefaultInfoBase: string := "https://pubsbapi.smartbike.com/api/v1/stations.json"
  const DefaultStatusBase: string := "https://pubsbapi.smartbike.com/api/v1/stations/status.json"

  /**
   * The client's `options`. `expireTimestamp` is None while it holds no usable instant (the
   * default `''`); otherwise the expiry instant in seconds.
   */
  datatype Options = Options(
    clientId: string,
    clientSecret: string,
    accessToken: string,
    refreshToken: string,
    expireTimestamp: Option<int>,
    oauthBase: string,
    infoBase: string,
    statusBase: string)

  /**
   * The options a caller passes to the constructor: None for a key it leaves out. For
   * `expireTimestamp` only its presence is recorded: the `moment` object a caller supplies loses
   * its methods in the merge, so the instant it holds is never read.
   */
  datatype Overrides = Overrides(
    clientId: Option<string>,
    clientSecret: Option<string>,
    accessToken: Option<string>,
    refreshToken: Option<string>,
    expireTimestamp: Option<()>,
    oauthBase: Option<string>,
    infoBase: Option<string>,
    statusBase: Option<string>)

  const NoOverrides: Overrides := Overrides(None, None, None, None, None, None, None, None)

  /** Empty credentials, no expiry, and the provider's three URLs. */
  const Defaults: Options :=
    Options("", "", "", "", None, DefaultOAuthBase, DefaultInfoBase, DefaultStatusBase)

  /**
   * `extend(defaults, options)`: every key the caller supplies replaces that field. deep-extend
   * copies an object supplied over a non-object default into a fresh plain object, so a supplied
   * `moment` arrives without `isAfter`: the stored expiry is unusable.
   */
  function Merge(base: Options, given: Overrides): (o: Options)
    requires base.expireTimestamp.None?
    ensures o.expireTimestamp.None?
    ensures given == NoOverrides ==> o == base
  {
    Options(
      given.clientId.GetOr(base.clientId),
      given.clientSecret.GetOr(base.clientSecret),
      given.accessToken.GetOr(base.accessToken),
      given.refreshToken.GetOr(base.refreshToken),
      None,
      given.oauthBase.GetOr(base.oauthBase),
      given.infoBase.GetOr(base.infoBase),
      given.statusBase.GetOr(base.statusBase))
  }

  /** A client built without options holds the provider URLs and nothing else. */
  lemma DefaultOptions()
    ensures var o := Merge(Defaults, NoOverrides);
      && o.oauthBase == "https://pubsbapi.smartbike.com/oauth/v2/token"
      && o.infoBase == "https://pubsbapi.smartbike.com/api/v1/stations.json"
      && o.statusBase == "https://pubsbapi.smartbike.com/api/v1/stations/status.json"
      && o.clientId == "" && o.clientSecret == "" && o.accessToken == "" && o.refreshToken == ""
      && o.expireTimestamp.None?
  {
  }

  /** A supplied key wins; a key left out keeps the field's previous value. */
  lemma SuppliedOptionsWin(base: Options, given: Overrides)
    requires base.expireTimestamp.None?
    ensures var o := Merge(base, given);
      && (given.clientId.Some? ==> o.clientId == given.clientId.value)
      && (given.clientId.None? ==> o.clientId == base.clientId)
      && (given.clientSecret.Some? ==> o.clientSecret == given.clientSecret.value)
      && (given.clientSecret.None? ==> o.clientSecret == base.clientSecret)
      && (given.accessToken.Some? ==> o.accessToken == given.accessToken.value)
      && (given.accessToken.None? ==> o.accessToken == base.accessToken)
      && (given.refreshToken.Some? ==> o.refreshToken == given.refreshToken.value)
      && (given.refreshToken.None? ==> o.refreshToken == base.refreshToken)
      && o.expireTimestamp.None?
      && (given.oauthBase.Some? ==> o.oauthBase == given.oauthBase.value)
      && (given.oauthBase.None? ==> o.oauthBase == base.oauthBase)
      && (given.infoBase.Some? ==> o.infoBase == given.infoBase.value)
      && (given.infoBase.None? ==> o.infoBase == base.infoBase)
      && (given.statusBase.Some? ==> o.statusBase == given.statusBase.value)
      && (given.statusBase.None? ==> o.statusBase == base.statusBase)
  {
  }

  // ---------------------------------------------------------------------------------------------
  // Access-token validity (lib/ecobici.js:22-29)

  /**
   * `__isAccessTokenValid`: a token is held and it expires strictly after `now`. A missing
   * expiry makes `isAfter` throw, and the catch answers false.
   */
  function IsAccessTokenValid(o: Options, now: int): (valid: bool)
    ensures valid <==> o.accessToken != "" && o.expireTimestamp.Some? && now < o.expireTimestamp.value
  {
    if o.accessToken == "" then false
    else match o.expireTimestamp
      case None => false
      case Some(expiry) => expiry > now
  }

  /** A token valid at some instant was valid at every earlier instant. */
  lemma ValidityIsMonotone(o: Options, earlier: int, later: int)
    requires earlier <= later && IsAccessTokenValid(o, later)
    ensures IsAccessTokenValid(o, earlier)
  {
  }

  /** A freshly constructed client never holds a valid token, whatever expiry it was given. */
  lemma ConstructedTokenNeverValid(given: Overrides, now: int)
    ensures !IsAccessTokenValid(Merge(Defaults, given), now)
  {
  }

  /** At its expiry instant and afterwards a token is no longer valid. */
  lemma TokenExpiresAtExpiry(o: Options, now: int)
    requires o.expireTimestamp.Some? && o.expireTimestamp.value <= now
    ensures !IsAccessTokenValid(o, now)
  {
  }

  // ---------------------------------------------------------------------------------------------
  // Errors

  /** What the client throws or rejects with. */
  datatype Error =
    | EndpointTypeNotValid(endpointType: Option<string>)  // lines 32 and 49
    | StationsTypeNotValid                                  // line 113
    | Transport(message: string)                            // line 78
    | ParseFailure(statusCode: nat, statusMessage: string)  // line 83
    | ProviderError(body: Json)                             // line 87, a body with an `error` key
    | HttpError(statusCode: nat, statusMessage: string)     // line 87, any other non-200 response
    | NullTokenResponse                                     // line 102 reads `expires_in` of null
    | UnreadableGrant(body: Json)                           // a token body without the three fields

  /**
   * The `message` of the Error objects the client builds itself. A provider body and an
   * unreadable grant carry none. The TypeError the engine raises on a null token body has an
   * engine-specific message, which is not modelled: None.
   */
  function Message(e: Error): (m: Option<string>)
    ensures m.None? <==> e.ProviderError? || e.NullTokenResponse? || e.UnreadableGrant?
    ensures e.Transport? ==> m == Some(e.message)
  {
    match e
    case EndpointTypeNotValid(None) => Some("Endpoint Type Not Valid")
    case EndpointTypeNotValid(Some(t)) => Some("Endpoint Type Not Valid: " + t)
    case StationsTypeNotValid => Some("Sations Type Sholud be 'info' or 'status'")
    case Transport(m) => Some(m)
    case ParseFailure(code, text) =>
      Some("JSON parseError with HTTP Status: " + Decimal.NatToString(code) + " " + text)
    case HttpError(code, text) => Some("HTTP Error: " + Decimal.NatToString(code) + " " + text)
    case _ => None
  }

  /** Every endpoint-type error message starts with "Endpoint Type Not Valid". */
  lemma EndpointErrorMessage(t: Option<string>)
    ensures Message(EndpointTypeNotValid(t)).Some?
    ensures var m := Message(EndpointTypeNotValid(t)).value;
      |m| >= 23 && m[..23] == "Endpoint Type Not Valid"
  {
  }

  /** Two digit strings each followed by a space split a string at the same place. */
  lemma DigitsBeforeSpace(d1: string, r1: string, d2: string, r2: string)
    requires Decimal.IsDigits(d1) && Decimal.IsDigits(d2)
    requires d1 + " " + r1 == d2 + " " + r2
    ensures d1 == d2 && r1 == r2
  {
    var s := d1 + " " + r1;
    assert s[|d1|] == ' ' && s == d2 + " " + r2 && s[|d2|] == ' ';
    assert forall i :: 0 <= i < |d2| ==> s[i] == d2[i];
    assert forall i :: 0 <= i < |d1| ==> s[i] == d1[i];
    assert |d1| == |d2|;
    assert d1 == s[..|d1|] == d2;
    assert r1 == s[|d1| + 1..] == r2;
  }

  /** The "HTTP Error" message determines the status code and the status text it carries. */
  lemma HttpErrorMessageCarriesStatus(c1: nat, t1: string, c2: nat, t2: string)
    requires Message(HttpError(c1, t1)) == Message(HttpError(c2, t2))
    ensures c1 == c2 && t1 == t2
  {
    var p := "HTTP Error: ";
    var d1, d2 := Decimal.NatToString(c1), Decimal.NatToString(c2);
    assert Message(HttpError(c1, t1)).value == p + (d1 + " " + t1);
    assert Message(HttpError(c2, t2)).value == p + (d2 + " " + t2);
    assert d1 + " " + t1 == (p + (d1 + " " + t1))[|p|..];
    assert d2 + " " + t2 == (p + (d2 + " " + t2))[|p|..];
    DigitsBeforeSpace(d1, t1, d2, t2);
    Decimal.NatToStringInjective(c1, c2);
  }

  // ---------------------------------------------------------------------------------------------
  // Endpoint request builder (lib/ecobici.js:31-71)

  /** The four keys of the `endpointTypes` table. */
  datatype EndpointType = Info | Status | OAuth | Refresh

  /** The key under which each endpoint type appears in the table. */
  function EndpointName(t: EndpointType): string {
    match t
    case Info => "info"
    case Status => "status"
    case OAuth => "oauth"
    case Refresh => "refresh"
  }

  /** `endpointTypes.hasOwnProperty(type)`, and the entry found. */
  function EndpointTypeOf(name: string): (t: Option<EndpointType>)
    ensures t.Some? <==> name in {"info", "status", "oauth", "refresh"}
    ensures t.Some? ==> EndpointName(t.value) == name
  {
    if name == "info" then Some(Info)
    else if name == "status" then Some(Status)
    else if name == "oauth" then Some(OAuth)
    else if name == "refresh" then Some(Refresh)
    else None
  }

  /** The table is a bijection between its four keys and the endpoint types. */
  lemma EndpointNamesRoundTrip(t: EndpointType, name: string)
    ensures EndpointTypeOf(EndpointName(t)) == Some(t)
    ensures EndpointTypeOf(name) == Some(t) <==> name == EndpointName(t)
  {
  }

  /** Query-string parameters and headers, in the order the source's object literals list them. */
  type Pairs = seq<(string, string)>

  /** The options object handed to the HTTP client. */
  datatype RequestOptions = RequestOptions(verb: string, url: string, qs: Option<Pairs>, headers: Option<Pairs>)

  /** The base URL the table assigns to an endpoint type: both token types share one. */
  function BaseUrl(o: Options, t: EndpointType): (url: string)
    ensures url == o.oauthBase <== t == OAuth || t == Refresh
    ensures t == Info ==> url == o.infoBase
    ensures t == Status ==> url == o.statusBase
  {
    match t
    case Info => o.infoBase
    case Status => o.statusBase
    case OAuth => o.oauthBase
    case Refresh => o.oauthBase
  }

  /** The request for a known endpoint type: a token query or a Bearer header, never both. */
  function EndpointRequest(o: Options, t: EndpointType): (r: RequestOptions)
    ensures r.verb == "get" && r.url == BaseUrl(o, t)
    ensures r.qs.Some? <==> t == OAuth || t == Refresh
    ensures r.headers.Some? <==> !r.qs.Some?
  {
    var qs :=
      if t == OAuth then
        Some([("client_id", o.clientId), ("client_secret", o.clientSecret), ("grant_type", "client_credentials")])
      else if t == Refresh then
        Some([("client_id", o.clientId), ("client_secret", o.clientSecret), ("grant_type", "refresh_token"),
              ("refresh_token", o.refreshToken)])
      else None;
    var headers := if qs.None? then Some([("Authorization", "Bearer " + o.accessToken)]) else None;
    RequestOptions("get", BaseUrl(o, t), qs, headers)
  }

  /**
   * `__buildEndpointOptions(type)`: `type` is None when the caller passes nothing. An absent or
   * unknown type throws and yields no request.
   */
  function BuildEndpointOptions(o: Options, endpointType: Option<string>): (r: Result<RequestOptions, Error>)
    ensures r.Err? <==> endpointType.None? || endpointType.value !in {"info", "status", "oauth", "refresh"}
    ensures r.Err? ==> r.error == EndpointTypeNotValid(endpointType)
    ensures r.Ok? ==> r.value.url == BaseUrl(o, EndpointTypeOf(endpointType.value).value)
  {
    match endpointType
    case None => Err(EndpointTypeNotValid(None))
    case Some(name) =>
      match EndpointTypeOf(name)
      case None => Err(EndpointTypeNotValid(endpointType))
      case Some(t) => Ok(EndpointRequest(o, t))
  }

  /** `info` and `status`: a GET of their own URL with a Bearer header and no query. */
  lemma DataEndpointRequest(o: Options, name: string)
    requires name == "info" || name == "status"
    ensures var r := BuildEndpointOptions(o, Some(name));
      && r.Ok?
      && r.value.verb == "get"
      && r.value.url == (if name == "info" then o.infoBase else o.statusBase)
      && r.value.headers == Some([("Authorization", "Bearer " + o.accessToken)])
      && r.value.qs.None?
  {
  }

  /**
   * `oauth` asks for the client-credentials grant (section 4.4.2 of RFC 6749) and `refresh` for
   * the refresh-token grant (section 6 of RFC 6749), both by GET on the token URL with no header.
   */
  lemma TokenEndpointRequest(o: Options, name: string)
    requires name == "oauth" || name == "refresh"
    ensures var r := BuildEndpointOptions(o, Some(name));
      && r.Ok?
      && r.value.verb == "get"
      && r.value.url == o.oauthBase
      && r.value.headers.None?
      && r.value.qs == Some(
        if name == "oauth" then
          [("client_id", o.clientId), ("client_secret", o.clientSecret), ("grant_type", "client_credentials")]
        else
          [("client_id", o.clientId), ("client_secret", o.clientSecret), ("grant_type", "refresh_token"),
           ("refresh_token", o.refreshToken)])
  {
  }

  // ---------------------------------------------------------------------------------------------
  // Responses and promise outcomes (lib/ecobici.js:73-94)

  /**
   * What the HTTP client hands to the callback: a transport error, or a response. `parsed` is
   * what `JSON.parse(body)` returns, None when it throws.
   */
  datatype Response =
    | TransportFailure(message: string)
    | HttpResponse(statusCode: nat, statusMessage: string, body: string, parsed: Option<Json>)

  /** A call of a promise's `resolve` or `reject`. */
  datatype Settle<T> = Resolve(value: T) | Reject(error: Error)

  /** How a promise ends up: with its first settlement, or never settled. */
  datatype Outcome<T> = Resolved(value: T) | Rejected(error: Error) | Unsettled

  /** The first call settles the promise; later calls are ignored. */
  function FirstSettlement<T>(calls: seq<Settle<T>>): (out: Outcome<T>)
    ensures out.Unsettled? <==> calls == []
    ensures calls != [] && calls[0].Resolve? ==> out == Resolved(calls[0].value)
    ensures calls != [] && calls[0].Reject? ==> out == Rejected(calls[0].error)
  {
    if calls == [] then Unsettled
    else match calls[0]
      case Resolve(v) => Resolved(v)
      case Reject(e) => Rejected(e)
  }

  /** Calls made before a settlement hide every call made after it. */
  lemma FirstSettlementOfConcat<T>(first: seq<Settle<T>>, rest: seq<Settle<T>>)
    ensures FirstSettlement(first + rest) == if first == [] then FirstSettlement(rest) else FirstSettlement(first)
  {
  }

  /** The body as the callback reads it: `''` is `{}`, anything else goes through `JSON.parse`. */
  function ParseBody(r: Response): (data: Option<Json>)
    requires r.HttpResponse?
    ensures r.body == "" ==> data == Some(EmptyObject)
    ensures r.body != "" ==> data == r.parsed
  {
    if r.body == "" then Some(EmptyObject) else r.parsed
  }

  /**
   * The `resolve`/`reject` calls the callback of `__request` makes, in order. A non-200 response
   * whose body parses is rejected and then resolved as well. When that body is `null`, or an
   * object with its own `hasOwnProperty` key, the call of `hasOwnProperty` throws inside the
   * callback and no call is made.
   */
  function ResponseCallback(r: Response): (calls: seq<Settle<Json>>)
    ensures calls == [] <==>
      r.HttpResponse? && r.statusCode != 200 && ParseBody(r).Some? && HasOwnError(ParseBody(r).value).None?
    ensures |calls| <= 2
  {
    match r
    case TransportFailure(m) => [Reject(Transport(m))]
    case HttpResponse(code, text, _, _) =>
      match ParseBody(r)
      case None => [Reject(ParseFailure(code, text))]
      case Some(data) =>
        if code != 200 then
          (match HasOwnError(data)
           case None => []
           case Some(hasError) => [Reject(if hasError then ProviderError(data) else HttpError(code, text)), Resolve(data)])
        else [Resolve(data)]
  }

  /**
   * How the promise of `__request` ends, given the response to its request. Only a 200 response
   * with a usable body resolves, and with that body.
   */
  function RequestOutcome(r: Response): (out: Outcome<Json>)
    ensures out.Resolved? <==> r.HttpResponse? && r.statusCode == 200 && ParseBody(r).Some?
    ensures out.Resolved? ==> out.value == ParseBody(r).value
    ensures r.TransportFailure? ==> out == Rejected(Transport(r.message))
    ensures r.HttpResponse? && ParseBody(r).None? ==> out == Rejected(ParseFailure(r.statusCode, r.statusMessage))
    ensures r.HttpResponse? && r.statusCode != 200 && ParseBody(r).Some? ==>
      out == match ParseBody(r).value
        case JNull => Unsettled
        case JObject(fields) =>
          if "hasOwnProperty" in fields then Unsettled
          else if "error" in fields then Rejected(ProviderError(ParseBody(r).value))
          else Rejected(HttpError(r.statusCode, r.statusMessage))
        case _ => Rejected(HttpError(r.statusCode, r.statusMessage))
  {
    FirstSettlement(ResponseCallback(r))
  }

  /** A non-200 response is rejected even though the callback resolves the promise afterwards. */
  lemma RejectionWinsOverLaterResolve(r: Response)
    requires r.HttpResponse? && r.statusCode != 200 && ParseBody(r).Some? && HasOwnError(ParseBody(r).value).Some?
    ensures var calls := ResponseCallback(r);
      |calls| == 2 && calls[1] == Resolve(ParseBody(r).value) && RequestOutcome(r).Rejected?
  {
  }

  /** `__request(type)`: the builder throws before any request for an unknown type. */
  function Request(o: Options, endpointType: Option<string>, r: Response): (res: Result<Outcome<Json>, Error>)
    ensures res.Err? <==> BuildEndpointOptions(o, endpointType).Err?
    ensures res.Err? ==> res.error == EndpointTypeNotValid(endpointType)
    ensures res.Ok? ==> res.value == RequestOutcome(r)
  {
    match BuildEndpointOptions(o, endpointType)
    case Err(e) => Err(e)
    case Ok(_) => Ok(RequestOutcome(r))
  }

  // ---------------------------------------------------------------------------------------------
  // Token update (lib/ecobici.js:96-110)

  /** The fields of a token response the client stores (section 5.1 of RFC 6749). */
  datatype Grant = Grant(accessToken: string, refreshToken: string, expiresIn: int)

  /** An object with a string `access_token`, a string `refresh_token` and a number `expires_in`. */
  predicate HasGrantFields(j: Json) {
    && j.JObject?
    && "access_token" in j.fields && j.fields["access_token"].JString?
    && "refresh_token" in j.fields && j.fields["refresh_token"].JString?
    && "expires_in" in j.fields && j.fields["expires_in"].JNumber?
  }

  /**
   * Reads `expires_in`, `access_token` and `refresh_token` from a token response body. Reading
   * a property of `null` throws.
   */
  function ReadGrant(j: Json): (g: Result<Grant, Error>)
    ensures j.JNull? ==> g == Err(NullTokenResponse)
    ensures g.Ok? <==> HasGrantFields(j)
    ensures g.Ok? ==>
      && j.fields["access_token"] == JString(g.value.accessToken)
      && j.fields["refresh_token"] == JString(g.value.refreshToken)
      && j.fields["expires_in"] == JNumber(g.value.expiresIn)
  {
    match j
    case JNull => Err(NullTokenResponse)
    case JObject(f) =>
      if HasGrantFields(j)
      then Ok(Grant(f["access_token"].s, f["refresh_token"].s, f["expires_in"].n))
      else Err(UnreadableGrant(j))
    case _ => Err(UnreadableGrant(j))
  }

  /** Which token request the update issues: a first grant without a token, else a refresh. */
  function TokenMode(o: Options): (t: EndpointType)
    ensures t == OAuth <==> o.accessToken == ""
    ensures t == Refresh <==> o.accessToken != ""
  {
    if o.accessToken == "" then OAuth else Refresh
  }

  /** Lines 102-104: the three credential fields a received grant overwrites. */
  function ApplyGrant(o: Options, g: Grant, receivedAt: int): (o': Options)
    ensures SameConfiguration(o, o')
    ensures o'.accessToken == g.accessToken && o'.refreshToken == g.refreshToken
    ensures o'.expireTimestamp == Some(receivedAt + g.expiresIn)
  {
    o.(expireTimestamp := Some(receivedAt + g.expiresIn), accessToken := g.accessToken, refreshToken := g.refreshToken)
  }

  /** The configuration part of the options: credentials of the client and the three URLs. */
  predicate SameConfiguration(a: Options, b: Options) {
    a.clientId == b.clientId && a.clientSecret == b.clientSecret
    && a.oauthBase == b.oauthBase && a.infoBase == b.infoBase && a.statusBase == b.statusBase
  }

  /** A stored grant is valid exactly while its lifetime, counted from its receipt, lasts. */
  lemma GrantValidity(o: Options, g: Grant, receivedAt: int, now: int)
    ensures var o' := ApplyGrant(o, g, receivedAt);
      && SameConfiguration(o, o')
      && (IsAccessTokenValid(o', now) <==> g.accessToken != "" && now < receivedAt + g.expiresIn)
  {
  }

  /** The handlers attached to the token request: what they call, and the options they leave. */
  datatype Handled = Handled(calls: seq<Settle<()>>, options: Options)

  /** Lines 101-108: store a grant and resolve; reject with any error from the request or the read. */
  function TokenHandler(o: Options, tokenOutcome: Outcome<Json>, receivedAt: int): (h: Handled)
    ensures |h.calls| <= 1 && (h.calls == [] <==> tokenOutcome.Unsettled?)
    ensures h.options != o ==> tokenOutcome.Resolved? && ReadGrant(tokenOutcome.value).Ok?
  {
    match tokenOutcome
    case Resolved(j) =>
      (match ReadGrant(j)
       case Ok(g) => Handled([Resolve(())], ApplyGrant(o, g, receivedAt))
       case Err(e) => Handled([Reject(e)], o))
    case Rejected(e) => Handled([Reject(e)], o)
    case Unsettled => Handled([], o)
  }

  /** What `__updateAccessTokenData` settles with, the request it sends, and the options after. */
  datatype UpdateStep = UpdateStep(outcome: Outcome<()>, request: RequestOptions, options: Options)

  /**
   * `__updateAccessTokenData`: a valid token resolves at once, but the token request is issued
   * all the same (line 99 does not return), and its grant is stored when it arrives.
   */
  function TokenUpdate(o: Options, now: int, tokenResponse: Response, receivedAt: int): (step: UpdateStep)
    ensures SameConfiguration(o, step.options)
    ensures step.outcome.Rejected? ==> !IsAccessTokenValid(o, now)
    ensures step.outcome.Unsettled? ==> !IsAccessTokenValid(o, now) && RequestOutcome(tokenResponse).Unsettled?
    ensures step.options != o ==> RequestOutcome(tokenResponse).Resolved?
    ensures step.request.url == o.oauthBase && step.request.headers.None?
  {
    var early: seq<Settle<()>> := if IsAccessTokenValid(o, now) then [Resolve(())] else [];
    var handled := TokenHandler(o, RequestOutcome(tokenResponse), receivedAt);
    UpdateStep(FirstSettlement(early + handled.calls), EndpointRequest(o, TokenMode(o)), handled.options)
  }

  /** The update asks for a first grant exactly when no token is held, and refreshes otherwise. */
  lemma UpdateGrantType(o: Options, now: int, tokenResponse: Response, receivedAt: int)
    ensures var step := TokenUpdate(o, now, tokenResponse, receivedAt);
      && step.request.url == o.oauthBase
      && step.request.qs.Some? && |step.request.qs.value| >= 3
      && (step.request.qs.value[2] == ("grant_type", "client_credentials") <==> o.accessToken == "")
      && (step.request.qs.value[2] == ("grant_type", "refresh_token") <==> o.accessToken != "")
  {
  }

  /** A readable grant is stored, overwriting only the three credential fields. */
  lemma UpdateStoresGrant(o: Options, now: int, tokenResponse: Response, receivedAt: int, g: Grant)
    requires RequestOutcome(tokenResponse).Resolved? && ReadGrant(RequestOutcome(tokenResponse).value) == Ok(g)
    ensures var step := TokenUpdate(o, now, tokenResponse, receivedAt);
      && step.outcome == Resolved(())
      && step.options.accessToken == g.accessToken
      && step.options.refreshToken == g.refreshToken
      && step.options.expireTimestamp == Some(receivedAt + g.expiresIn)
      && SameConfiguration(o, step.options)
  {
  }

  /**
   * A failed token request leaves the options as they were. Without a valid token its error
   * is the outcome; with one the update has already resolved.
   */
  lemma UpdateFailureKeepsOptions(o: Options, now: int, tokenResponse: Response, receivedAt: int)
    requires !RequestOutcome(tokenResponse).Resolved? || ReadGrant(RequestOutcome(tokenResponse).value).Err?
    ensures var step := TokenUpdate(o, now, tokenResponse, receivedAt);
      && step.options == o
      && (IsAccessTokenValid(o, now) ==> step.outcome == Resolved(()))
      && (!IsAccessTokenValid(o, now) && RequestOutcome(tokenResponse).Rejected? ==>
            step.outcome == Rejected(RequestOutcome(tokenResponse).error))
      && (!IsAccessTokenValid(o, now) && RequestOutcome(tokenResponse).Unsettled? ==> step.outcome == Unsettled)
  {
  }

  /** With a valid token the update resolves whatever the refresh request returns. */
  lemma ValidTokenStillRefreshes(o: Options, now: int, tokenResponse: Response, receivedAt: int)
    requires IsAccessTokenValid(o, now)
    ensures var step := TokenUpdate(o, now, tokenResponse, receivedAt);
      && step.outcome == Resolved(())
      && step.request == EndpointRequest(o, Refresh)
      && step.options == TokenHandler(o, RequestOutcome(tokenResponse), receivedAt).options
  {
  }

  /** Without a valid token the update settles exactly as the token handlers do. */
  lemma InvalidTokenWaitsForGrant(o: Options, now: int, tokenResponse: Response, receivedAt: int)
    requires !IsAccessTokenValid(o, now)
    ensures var step := TokenUpdate(o, now, tokenResponse, receivedAt);
      step.outcome == FirstSettlement(TokenHandler(o, RequestOutcome(tokenResponse), receivedAt).calls)
  {
  }

  // ---------------------------------------------------------------------------------------------
  // getStations (lib/ecobici.js:112-125)

  /** What `getStations` throws or settles with, the requests it sends in order, and the options after. */
  datatype StationsStep = StationsStep(result: Result<Outcome<Json>, Error>, sent: seq<RequestOptions>, options: Options)

  /** The endpoint of an accepted stations type. */
  function StationsEndpoint(kind: Option<string>): EndpointType {
    if kind == Some("info") then Info else Status
  }

  /**
   * `getStations(type)`. The data request is built from the options as they stand when the
   * update settles: with a valid token that is before the refresh response is handled, without
   * one it is after the grant is stored.
   */
  function GetStationsSpec(o: Options, kind: Option<string>, now: int, tokenResponse: Response,
                           receivedAt: int, dataResponse: Response): (step: StationsStep)
    ensures step.result.Err? <==> step.sent == []
    ensures |step.sent| <= 2 && (step.sent != [] ==> step.sent[0].qs.Some?)
    ensures |step.sent| == 2 ==> step.sent[1].headers.Some? && step.result == Ok(RequestOutcome(dataResponse))
  {
    if kind != Some("info") && kind != Some("status") then StationsStep(Err(StationsTypeNotValid), [], o)
    else
      var update := TokenUpdate(o, now, tokenResponse, receivedAt);
      var atSettlement := if IsAccessTokenValid(o, now) then o else update.options;
      match update.outcome
      case Resolved(_) =>
        StationsStep(Ok(RequestOutcome(dataResponse)),
                     [update.request, EndpointRequest(atSettlement, StationsEndpoint(kind))], update.options)
      case Rejected(e) => StationsStep(Ok(Rejected(e)), [update.request], update.options)
      case Unsettled => StationsStep(Ok(Unsettled), [update.request], update.options)
  }

  /** Any type but `info` and `status` throws before a request is sent or an option changes. */
  lemma StationsTypeChecked(o: Options, kind: Option<string>, now: int, tokenResponse: Response,
                            receivedAt: int, dataResponse: Response)
    ensures var step := GetStationsSpec(o, kind, now, tokenResponse, receivedAt, dataResponse);
      && (step.result == Err(StationsTypeNotValid) <==> kind != Some("info") && kind != Some("status"))
      && (step.result.Err? ==> step.sent == [] && step.options == o)
  {
  }

  /** A first grant is fetched, stored, and its token carries the data request. */
  lemma StationsUseNewGrant(o: Options, kind: Option<string>, now: int, tokenResponse: Response,
                            receivedAt: int, dataResponse: Response, g: Grant)
    requires kind == Some("info") || kind == Some("status")
    requires !IsAccessTokenValid(o, now)
    requires RequestOutcome(tokenResponse).Resolved? && ReadGrant(RequestOutcome(tokenResponse).value) == Ok(g)
    ensures var step := GetStationsSpec(o, kind, now, tokenResponse, receivedAt, dataResponse);
      && step.result == Ok(RequestOutcome(dataResponse))
      && |step.sent| == 2
      && step.sent[1].url == (if kind == Some("info") then o.infoBase else o.statusBase)
      && step.sent[1].headers == Some([("Authorization", "Bearer " + g.accessToken)])
      && step.options == ApplyGrant(o, g, receivedAt)
  {
  }

  /** A failed token request is the caller's error, unchanged, and no data request is sent. */
  lemma StationsPassTokenErrors(o: Options, kind: Option<string>, now: int, tokenResponse: Response,
                                receivedAt: int, dataResponse: Response)
    requires kind == Some("info") || kind == Some("status")
    requires !IsAccessTokenValid(o, now)
    requires RequestOutcome(tokenResponse).Rejected?
    ensures var step := GetStationsSpec(o, kind, now, tokenResponse, receivedAt, dataResponse);
      && step.result == Ok(Rejected(RequestOutcome(tokenResponse).error))
      && step.sent == [EndpointRequest(o, TokenMode(o))]
      && step.options == o
  {
  }

  /**
   * With a valid token the data request carries the current token and decides the outcome,
   * while a refresh request is sent first and its grant, if readable, is stored.
   */
  lemma StationsWithValidToken(o: Options, kind: Option<string>, now: int, tokenResponse: Response,
                               receivedAt: int, dataResponse: Response)
    requires kind == Some("info") || kind == Some("status")
    requires IsAccessTokenValid(o, now)
    ensures var step := GetStationsSpec(o, kind, now, tokenResponse, receivedAt, dataResponse);
      && step.result == Ok(RequestOutcome(dataResponse))
      && step.sent == [EndpointRequest(o, Refresh), EndpointRequest(o, StationsEndpoint(kind))]
      && step.sent[1].headers == Some([("Authorization", "Bearer " + o.accessToken)])
      && step.options == TokenHandler(o, RequestOutcome(tokenResponse), receivedAt).options
  {
  }

  /** A call of `getStations` never changes the client's configuration. */
  lemma StationsKeepConfiguration(o: Options, kind: Option<string>, now: int, tokenResponse: Response,
                                  receivedAt: int, dataResponse: Response)
    ensures SameConfiguration(o, GetStationsSpec(o, kind, now, tokenResponse, receivedAt, dataResponse).options)
  {
  }

  /** The inputs of one `getStations` call. */
  datatype StationsCall = StationsCall(kind: Option<string>, now: int, tokenResponse: Response,
                                       receivedAt: int, dataResponse: Response)

  /** The options after a sequence of `getStations` calls on one client. */
  function Run(o: Options, calls: seq<StationsCall>): Options
    decreases |calls|
  {
    if calls == [] then o
    else
      var c := calls[0];
      Run(GetStationsSpec(o, c.kind, c.now, c.tokenResponse, c.receivedAt, c.dataResponse).options, calls[1..])
  }

  /** However many calls a client serves, its credentials and URLs stay those it was built with. */
  lemma {:induction false} RunKeepsConfiguration(o: Options, calls: seq<StationsCall>)
    ensures SameConfiguration(o, Run(o, calls))
    decreases |calls|
  {
    if calls != [] {
      var c := calls[0];
      var o' := GetStationsSpec(o, c.kind, c.now, c.tokenResponse, c.receivedAt, c.dataResponse).options;
      StationsKeepConfiguration(o, c.kind, c.now, c.tokenResponse, c.receivedAt, c.dataResponse);
      RunKeepsConfiguration(o', calls[1..]);
    }
  }

  // ---------------------------------------------------------------------------------------------
  // The client object (lib/ecobici.js:7-20, 96-125)

  /** An `Ecobici` instance: its options are the only state, and only the token update writes them. */
  class Client {
    var options: Options

    /** `new Ecobici(options)`. */
    constructor (given: Overrides)
      ensures options == Merge(Defaults, given)
    {
      options := Merge(Defaults, given);
    }

    /** The handlers attached to the token request (lines 101-108). */
    method HandleTokenResponse(tokenResponse: Response, receivedAt: int) returns (calls: seq<Settle<()>>)
      modifies this
      ensures Handled(calls, options) == TokenHandler(old(options), RequestOutcome(tokenResponse), receivedAt)
    {
      calls := [];
      match RequestOutcome(tokenResponse) {
        case Resolved(response) =>
          match ReadGrant(response) {
            case Ok(g) =>
              options := options.(expireTimestamp := Some(receivedAt + g.expiresIn));
              options := options.(accessToken := g.accessToken);
              options := options.(refreshToken := g.refreshToken);
              calls := [Resolve(())];
            case Err(e) =>
              calls := [Reject(e)];
          }
        case Rejected(e) =>
          calls := [Reject(e)];
        case Unsettled =>
      }
    }

    /** `__updateAccessTokenData` (lines 96-110): the outcome, the token request sent, the new options. */
    method UpdateAccessTokenData(now: int, tokenResponse: Response, receivedAt: int)
      returns (outcome: Outcome<()>, sent: RequestOptions)
      modifies this
      ensures var step := TokenUpdate(old(options), now, tokenResponse, receivedAt);
        outcome == step.outcome && sent == step.request && options == step.options
    {
      var calls: seq<Settle<()>> := [];
      if IsAccessTokenValid(options, now) {
        calls := calls + [Resolve(())];
      }
      var mode := TokenMode(options);
      sent := EndpointRequest(options, mode);
      var handled := HandleTokenResponse(tokenResponse, receivedAt);
      calls := calls + handled;
      outcome := FirstSettlement(calls);
    }

    /** `getStations(type)` (lines 112-125): what it throws or settles with, and the requests sent. */
    method GetStations(kind: Option<string>, now: int, tokenResponse: Response, receivedAt: int, dataResponse: Response)
      returns (result: Result<Outcome<Json>, Error>, sent: seq<RequestOptions>)
      modifies this
      ensures var step := GetStationsSpec(old(options), kind, now, tokenResponse, receivedAt, dataResponse);
        result == step.result && sent == step.sent && options == step.options
    {
      if kind != Some("info") && kind != Some("status") {
        return Err(StationsTypeNotValid), [];
      }
      // A valid token resolves the update before the token response is handled, so the data
      // request is built from the options as they are now.
      var before := options;
      var settledEarly := IsAccessTokenValid(options, now);
      var update, tokenRequest := UpdateAccessTokenData(now, tokenResponse, receivedAt);
      sent := [tokenRequest];
      match update {
        case Resolved(_) =>
          var current := if settledEarly then before else options;
          sent := sent + [EndpointRequest(current, StationsEndpoint(kind))];
          result := Ok(RequestOutcome(dataResponse));
        case Rejected(e) =>
          result := Ok(Rejected(e));
        case Unsettled =>
          result := Ok(Unsettled);
      }
    }
  }

  // ---------------------------------------------------------------------------------------------
  // The repository's own examples (test/ecobici.js)

  /** The options of the endpoint-builder tests. */
  const TestOptions: Options :=
    Merge(Defaults, NoOverrides.(clientId := Some("clientId"), clientSecret := Some("clientSecret"),
                                 accessToken := Some("accessToken"), refreshToken := Some("refreshToken")))

  /** The builder's test cases: a missing or unknown type throws, and each known type builds. */
  lemma BuilderExamples()
    ensures BuildEndpointOptions(TestOptions, None) == Err(EndpointTypeNotValid(None))
    ensures BuildEndpointOptions(TestOptions, Some("xxxxx")) == Err(EndpointTypeNotValid(Some("xxxxx")))
    ensures BuildEndpointOptions(TestOptions, Some("status")) == Ok(RequestOptions(
      "get", "https://pubsbapi.smartbike.com/api/v1/stations/status.json",
      None, Some([("Authorization", "Bearer accessToken")])))
    ensures BuildEndpointOptions(TestOptions, Some("info")) == Ok(RequestOptions(
      "get", "https://pubsbapi.smartbike.com/api/v1/stations.json",
      None, Some([("Authorization", "Bearer accessToken")])))
    ensures BuildEndpointOptions(TestOptions, Some("oauth")) == Ok(RequestOptions(
      "get", "https://pubsbapi.smartbike.com/oauth/v2/token",
      Some([("client_id", "clientId"), ("client_secret", "clientSecret"),
            ("grant_type", "client_credentials")]), None))
    ensures BuildEndpointOptions(TestOptions, Some("refresh")) == Ok(RequestOptions(
      "get", "https://pubsbapi.smartbike.com/oauth/v2/token",
      Some([("client_id", "clientId"), ("client_secret", "clientSecret"),
            ("grant_type", "refresh_token"), ("refresh_token", "refreshToken")]), None))
  {
    assert "Bearer " + "accessToken" == "Bearer accessToken";
  }

  /** The response tests: 200 resolves, 400 with `error` passes the body, 500 fails, and so on. */
  lemma ResponseExamples()
    ensures var stations := JObject(map["stations" := JArray([])]);
      RequestOutcome(HttpResponse(200, "OK", "{\"stations\":[]}", Some(stations))) == Resolved(stations)
    ensures var algo := JObject(map["error" := JString("algo")]);
      RequestOutcome(HttpResponse(400, "Bad Request", "{\"error\":\"algo\"}", Some(algo))) == Rejected(ProviderError(algo))
    ensures RequestOutcome(HttpResponse(500, "Internal Server Error", "{}", Some(EmptyObject)))
      == Rejected(HttpError(500, "Internal Server Error"))
    ensures RequestOutcome(HttpResponse(200, "OK", "fail whale", None)) == Rejected(ParseFailure(200, "OK"))
    ensures RequestOutcome(HttpResponse(200, "OK", "", None)) == Resolved(EmptyObject)
    ensures RequestOutcome(TransportFailure("something bad happened")) == Rejected(Transport("something bad happened"))
  {
  }
}
