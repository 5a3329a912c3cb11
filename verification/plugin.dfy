/**
 The access phase of the Kong Turnstile plugin (`Config.Access`) as a pure
 function. The Kong PDK's request accessors become a `Request` snapshot of
 what the host would answer, the outbound siteverify call becomes a
 function from the request the plugin builds to the outcome of the call,
 and `kong.Response.Exit` versus a normal return becomes a `Decision`.
 */
module Plugin {
  import opened Wrappers
  import opened Strings
  import opened Time
  import opened SiteVerify

  const DefaultTurnstileVerifyUrl := "https://challenges.cloudflare.com/turnstile/v0/siteverify"
  const DefaultTimeoutMs: int64 := 5000
  const DefaultTokenHeader := "Cf-Turnstile-Response"
  const DefaultRemoteIpHeader := "X-Forwarded-For"

  const StatusOK := 200
  const StatusBadRequest := 400
  const StatusForbidden := 403
  const StatusInternalServerError := 500
  const StatusBadGateway := 502

  /** Response bodies handed to `kong.Response.Exit`. */
  const ConfigErrorBody := "Plugin Configuration Error"
  const HeaderTokenErrorBody := "Turnstile token missing or invalid"
  const FormReadErrorBody := "Could not read form data"
  const TokenMissingBody := "Turnstile token missing"
  const RequestCreationBody := "Turnstile verification failed (request creation)"
  const ConnectionErrorBody := "Turnstile verification failed (connection error)"
  const ReadErrorBody := "Turnstile verification failed (read error)"
  const ApiErrorBody := "Turnstile verification failed (API error)"
  const ParseErrorBody := "Turnstile verification failed (parse error)"
  const VerificationFailedBody := "Verification failed"

  /** The plugin configuration, every field as Kong delivers it (unset strings are ""). */
  datatype Config = Config(
    turnstileSecretKey: string,
    turnstileVerifyUrl: string,
    tokenLocation: string,
    tokenName: string,
    remoteIpLocation: string,
    remoteIpName: string,
    requestTimeoutMs: int64)

  /** A Go `(value, error)` pair from a PDK call. The value is kept even when
      the error is set, because the plugin reads it in some of those cases. */
  datatype Reply<T> = Reply(value: T, err: Option<string>) {
    predicate Failed() { err.Some? }
  }

  /** What the host answers for this request: GetHeader for any name,
      GetForm, GetForwardedIp and GetClientIp. */
  datatype Request = Request(
    header: string -> Reply<string>,
    form: Reply<map<string, seq<string>>>,
    forwardedIp: Reply<string>,
    clientIp: Reply<string>)

  /** Pass the request on, or end it with a status and body. */
  datatype Decision = Allow | Reject(status: int, body: string)

  /** The stage the access phase reaches before the outbound call: either it
      already ended the request, or it has the call to make. */
  datatype Stage = Halted(decision: Decision) | Verify(call: Outbound)

  function OrDefault(s: string, default: string): (r: string)
    ensures s == "" ==> r == default
    ensures s != "" ==> r == s
  {
    if s == "" then default else s
  }

  /** The lower-cased location; "" defaults to "header" after lower-casing. */
  function TokenLocation(conf: Config): (loc: string)
    ensures IsLower(loc) && loc != ""
    ensures conf.tokenLocation == "" ==> loc == "header"
    ensures conf.tokenLocation != "" ==> EqualsIgnoreCase(loc, conf.tokenLocation)
  {
    OrDefault(ToLower(conf.tokenLocation), "header")
  }

  function TokenName(conf: Config): (name: string)
    ensures conf.tokenName == "" ==> name == DefaultTokenHeader
    ensures conf.tokenName != "" ==> name == conf.tokenName
  {
    OrDefault(conf.tokenName, DefaultTokenHeader)
  }

  /** The lower-cased client-IP location; "" defaults to "pdk". */
  function RemoteIpLocation(conf: Config): (loc: string)
    ensures IsLower(loc) && loc != ""
    ensures conf.remoteIpLocation == "" ==> loc == "pdk"
    ensures conf.remoteIpLocation != "" ==> EqualsIgnoreCase(loc, conf.remoteIpLocation)
  {
    OrDefault(ToLower(conf.remoteIpLocation), "pdk")
  }

  function RemoteIpName(conf: Config): (name: string)
    ensures conf.remoteIpName == "" ==> name == DefaultRemoteIpHeader
    ensures conf.remoteIpName != "" ==> name == conf.remoteIpName
  {
    OrDefault(conf.remoteIpName, DefaultRemoteIpHeader)
  }

  function VerifyUrl(conf: Config): (url: string)
    ensures conf.turnstileVerifyUrl == "" ==> url == DefaultTurnstileVerifyUrl
    ensures conf.turnstileVerifyUrl != "" ==> url == conf.turnstileVerifyUrl
  {
    OrDefault(conf.turnstileVerifyUrl, DefaultTurnstileVerifyUrl)
  }

  /** The http.Client timeout: the configured milliseconds when positive,
      5000 ms otherwise, converted to a Duration in Go's int64 arithmetic. */
  function Timeout(conf: Config): (d: Duration)
    ensures conf.requestTimeoutMs <= 0 ==> d as int == 5000 * 1_000_000
    ensures 0 < conf.requestTimeoutMs as int <= MaxExactMillis ==> d as int == conf.requestTimeoutMs as int * 1_000_000
  {
    if conf.requestTimeoutMs > 0 then Millis(conf.requestTimeoutMs) else Millis(DefaultTimeoutMs)
  }

  /** A huge configured timeout can wrap to a client timeout under a millisecond. */
  lemma TimeoutWrapsToTinyPositive(conf: Config)
    requires conf.requestTimeoutMs == 18446744073710
    ensures 0 < Timeout(conf) < Millisecond
  {
    MillisWrapsToTinyPositive();
  }

  /** Pulls the Turnstile token from the configured header or form field.
      A bad location is a configuration error (500); every way of not
      finding a non-empty token is a 400. */
  function ResolveToken(conf: Config, req: Request): (r: Result<string, Decision>)
    ensures r.Ok? ==> r.value != ""
    ensures TokenLocation(conf) != "header" && TokenLocation(conf) != "form" ==>
      r == Err(Reject(StatusInternalServerError, ConfigErrorBody))
    ensures TokenLocation(conf) == "header" ==>
      var h := req.header(TokenName(conf));
      && (r.Ok? <==> !h.Failed() && h.value != "")
      && (r.Ok? ==> r.value == h.value)
      && (r.Err? ==> r.error.Reject? && r.error.status == StatusBadRequest)
    ensures TokenLocation(conf) == "form" ==>
      var f := req.form;
      var name := TokenName(conf);
      && (r.Ok? <==> !f.Failed() && name in f.value && |f.value[name]| > 0 && f.value[name][0] != "")
      && (r.Ok? ==> r.value == f.value[name][0])
      && (r.Err? ==> r.error.Reject? && r.error.status == StatusBadRequest)
  {
    var name := TokenName(conf);
    var extracted :=
      match TokenLocation(conf)
      case "header" =>
        var h := req.header(name);
        if h.Failed() then Err(Reject(StatusBadRequest, HeaderTokenErrorBody)) else Ok(h.value)
      case "form" =>
        var f := req.form;
        if f.Failed() then Err(Reject(StatusBadRequest, FormReadErrorBody))
        else if name !in f.value || |f.value[name]| == 0 then Err(Reject(StatusBadRequest, TokenMissingBody))
        else Ok(f.value[name][0])
      case _ => Err(Reject(StatusInternalServerError, ConfigErrorBody));
    if extracted.Ok? && extracted.value == "" then Err(Reject(StatusBadRequest, TokenMissingBody))
    else extracted
  }

  /** The address from a forwarded-for style header: with a comma, the first
      entry trimmed of white space; without one, the value untouched. */
  function HeaderIp(v: string): (ip: string)
    ensures ',' !in v ==> ip == v
    ensures ',' in v ==> ',' !in ip && IsTrimOf(ip, FirstField(v, ','))
  {
    if ',' in v then TrimSpace(FirstField(v, ',')) else v
  }

  /** The client address, best effort: it never ends the request. */
  function ResolveClientIp(conf: Config, req: Request): (ip: string)
    ensures RemoteIpLocation(conf) == "pdk" ==>
      if !req.forwardedIp.Failed() && req.forwardedIp.value != "" then ip == req.forwardedIp.value
      else ip == req.clientIp.value
    ensures RemoteIpLocation(conf) == "header" ==>
      var v := req.header(RemoteIpName(conf)).value;
      && (',' !in v ==> ip == v)
      && (',' in v ==> ',' !in ip && IsTrimOf(ip, FirstField(v, ',')))
    ensures RemoteIpLocation(conf) != "pdk" && RemoteIpLocation(conf) != "header" ==> ip == ""
  {
    match RemoteIpLocation(conf)
    case "pdk" =>
      var fwd := req.forwardedIp;
      if fwd.Failed() || fwd.value == "" then req.clientIp.value else fwd.value
    case "header" =>
      HeaderIp(req.header(RemoteIpName(conf)).value)
    case _ => ""
  }

  /** The POST to siteverify: the form carries exactly the secret, the token
      and, when known, the client address. */
  function OutboundCall(conf: Config, token: string, ip: string): (o: Outbound)
    ensures o.url == VerifyUrl(conf) && o.timeout == Timeout(conf)
    ensures WellFormedForm(o.form)
    ensures DecodeForm(o.form) == Some(VerificationRequest(conf.turnstileSecretKey, token, ip))
    ensures RemoteIpField in o.form <==> ip != ""
  {
    Outbound(VerifyUrl(conf), Timeout(conf), EncodeForm(VerificationRequest(conf.turnstileSecretKey, token, ip)))
  }

  /** Maps the end of the outbound call to the decision, testing in the
      order of the code: creation, transport, body read, status, JSON, verdict. */
  function MapOutcome(o: CallOutcome): (d: Decision)
    ensures d == Allow <==> o.Received? && o.status == StatusOK && o.parsed.Some? && o.parsed.value.success
    ensures d.Reject? ==> d.status in {StatusInternalServerError, StatusBadGateway, StatusForbidden}
    ensures d.Reject? && d.status == StatusForbidden <==>
      o.Received? && o.status == StatusOK && o.parsed.Some? && !o.parsed.value.success
    ensures d.Reject? && d.status == StatusForbidden ==> d.body == VerificationFailedBody
    ensures o.BodyReadFailed? ==> d == Reject(StatusInternalServerError, ReadErrorBody)
    ensures o.RequestCreationFailed? ==> d == Reject(StatusInternalServerError, RequestCreationBody)
    ensures o.TransportFailed? ==> d == Reject(StatusBadGateway, ConnectionErrorBody)
    ensures o.Received? && o.status != StatusOK ==> d == Reject(StatusBadGateway, ApiErrorBody)
    ensures o.Received? && o.status == StatusOK && o.parsed.None? ==> d == Reject(StatusInternalServerError, ParseErrorBody)
  {
    match o
    case RequestCreationFailed => Reject(StatusInternalServerError, RequestCreationBody)
    case TransportFailed(_) => Reject(StatusBadGateway, ConnectionErrorBody)
    case BodyReadFailed(_, _) => Reject(StatusInternalServerError, ReadErrorBody)
    case Received(status, parsed) =>
      if status != StatusOK then Reject(StatusBadGateway, ApiErrorBody)
      else if parsed.None? then Reject(StatusInternalServerError, ParseErrorBody)
      else if parsed.value.success then Allow
      else Reject(StatusForbidden, VerificationFailedBody)
  }

  /** Everything before the outbound call: secret check, token, client IP,
      request construction. */
  function Prepare(conf: Config, req: Request): (s: Stage)
    ensures conf.turnstileSecretKey == "" ==> s == Halted(Reject(StatusInternalServerError, ConfigErrorBody))
    ensures s.Halted? <==> conf.turnstileSecretKey == "" || ResolveToken(conf, req).Err?
    ensures s.Halted? ==> s.decision.Reject? && s.decision.status in {StatusBadRequest, StatusInternalServerError}
    ensures s.Verify? ==>
      WellFormedForm(s.call.form) && s.call.url == VerifyUrl(conf) && s.call.timeout == Timeout(conf)
    ensures s.Verify? ==> (RemoteIpField in s.call.form <==> ResolveClientIp(conf, req) != "")
    ensures s.Verify? ==>
      DecodeForm(s.call.form) == Some(VerificationRequest(conf.turnstileSecretKey, ResolveToken(conf, req).value, ResolveClientIp(conf, req)))
  {
    if conf.turnstileSecretKey == "" then Halted(Reject(StatusInternalServerError, ConfigErrorBody))
    else
      match ResolveToken(conf, req)
      case Err(d) => Halted(d)
      case Ok(token) => Verify(OutboundCall(conf, token, ResolveClientIp(conf, req)))
  }

  /** The access phase: the decision for one request, given what the host
      answers and what the siteverify call returns for the call it is given. */
  function Gate(conf: Config, req: Request, siteVerify: Outbound -> CallOutcome): (d: Decision)
    ensures conf.turnstileSecretKey == "" ==> d == Reject(StatusInternalServerError, ConfigErrorBody)
    ensures d == Allow <==>
      && Prepare(conf, req).Verify?
      && var o := siteVerify(Prepare(conf, req).call);
      && o.Received? && o.status == StatusOK && o.parsed.Some? && o.parsed.value.success
    ensures d.Reject? ==> d.status in {StatusBadRequest, StatusForbidden, StatusInternalServerError, StatusBadGateway}
  {
    match Prepare(conf, req)
    case Halted(d) => d
    case Verify(call) => MapOutcome(siteVerify(call))
  }
}
