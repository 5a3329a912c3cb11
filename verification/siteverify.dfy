/**
 The Cloudflare Turnstile siteverify exchange: the form fields the plugin
 submits, the JSON object it expects back, and the possible outcomes of
 the one outbound call.
 */
module SiteVerify {
  import opened Wrappers
  import opened Time

  /** Field names of the application/x-www-form-urlencoded request body. */
  const SecretField := "secret"
  const ResponseField := "response"
  const RemoteIpField := "remoteip"

  /** The decoded JSON reply. Only `success` decides anything. */
  datatype SiteVerifyResponse = SiteVerifyResponse(
    success: bool,
    challengeTs: string,
    hostname: string,
    errorCodes: seq<string>,
    action: string,
    cdata: string)

  /** What is submitted for verification; a `remoteIp` of "" means the
      client address is unknown. */
  datatype VerificationRequest = VerificationRequest(secret: string, token: string, remoteIp: string)

  /** The body's field set, as url.Values after Set on each key (one value
      per key). Percent-encoding and key order are not modelled. */
  type Form = map<string, string>

  /** The outbound POST: endpoint, client timeout and form fields. */
  datatype Outbound = Outbound(url: string, timeout: Duration, form: Form)

  /** How the outbound call can end, in the order the plugin tests them.
      `TransportFailed` is an error from `Client.Do`, and `timedOut` marks
      one caused by the client timeout. `BodyReadFailed` is an error from
      reading the body, which the client timeout can also cause (`timedOut`);
      it keeps the status line that had already arrived. `parsed` is
      json.Unmarshal's verdict on the body. */
  datatype CallOutcome =
    | RequestCreationFailed
    | TransportFailed(timedOut: bool)
    | BodyReadFailed(status: int, timedOut: bool)
    | Received(status: int, parsed: Option<SiteVerifyResponse>)

  /** The fields of a well-formed request body: secret and response always,
      remoteip only with a non-empty value, nothing else. */
  predicate WellFormedForm(form: Form) {
    && form.Keys <= {SecretField, ResponseField, RemoteIpField}
    && SecretField in form
    && ResponseField in form
    && (RemoteIpField in form ==> form[RemoteIpField] != "")
  }

  /** Sets `secret` and `response`, and `remoteip` only when the address is known. */
  function EncodeForm(v: VerificationRequest): (form: Form)
    ensures WellFormedForm(form)
    ensures form[SecretField] == v.secret && form[ResponseField] == v.token
    ensures RemoteIpField in form <==> v.remoteIp != ""
    ensures RemoteIpField in form ==> form[RemoteIpField] == v.remoteIp
  {
    var base := map[SecretField := v.secret, ResponseField := v.token];
    if v.remoteIp == "" then base else base[RemoteIpField := v.remoteIp]
  }

  /** Reads a request back out of a field set; absent remoteip reads as "". */
  function DecodeForm(form: Form): (v: Option<VerificationRequest>)
    ensures v.Some? <==> SecretField in form && ResponseField in form
    ensures v.Some? ==> v.value.secret == form[SecretField] && v.value.token == form[ResponseField]
    ensures v.Some? ==> (v.value.remoteIp != "" ==> RemoteIpField in form && form[RemoteIpField] == v.value.remoteIp)
  {
    if SecretField in form && ResponseField in form then
      Some(VerificationRequest(
        form[SecretField],
        form[ResponseField],
        if RemoteIpField in form then form[RemoteIpField] else ""))
    else
      None
  }

  /** Decoding an encoded request gives back all three fields. */
  lemma DecodeEncode(v: VerificationRequest)
    ensures DecodeForm(EncodeForm(v)) == Some(v)
  {
  }

  /** Every well-formed field set is the encoding of exactly the request it decodes to. */
  lemma EncodeDecode(form: Form)
    requires WellFormedForm(form)
    ensures DecodeForm(form).Some?
    ensures EncodeForm(DecodeForm(form).value) == form
  {
  }
}
