/** Properties of the access phase that relate several calls or name
    concrete inputs. */
module GateProperties {
  import opened Wrappers
  import opened Strings
  import opened SiteVerify
  import opened Plugin

  /** `t` occurs in `s` as a contiguous run. */
  predicate ContainsSubstring(s: string, t: string) {
    exists i :: 0 <= i <= |s| && t <= s[i..]
  }

  /** The token location is matched case-insensitively, "" meaning header. */
  lemma TokenLocationCaseInsensitive(conf: Config)
    ensures TokenLocation(conf) == "header" <==>
      conf.tokenLocation == "" || EqualsIgnoreCase(conf.tokenLocation, "header")
    ensures TokenLocation(conf) == "form" <==> EqualsIgnoreCase(conf.tokenLocation, "form")
  {
  }

  /** With a secret set, an unrecognised token location is a configuration
      error, whatever the request holds and whatever siteverify would say. */
  lemma BadTokenLocationRejects(conf: Config, req: Request, siteVerify: Outbound -> CallOutcome)
    requires conf.turnstileSecretKey != ""
    requires TokenLocation(conf) != "header" && TokenLocation(conf) != "form"
    ensures Gate(conf, req, siteVerify) == Reject(StatusInternalServerError, ConfigErrorBody)
  {
  }

  /** A failed header fetch for the token is a 400. */
  lemma HeaderErrorRejects(conf: Config, req: Request, siteVerify: Outbound -> CallOutcome)
    requires conf.turnstileSecretKey != "" && TokenLocation(conf) == "header"
    requires req.header(TokenName(conf)).Failed()
    ensures Gate(conf, req, siteVerify) == Reject(StatusBadRequest, HeaderTokenErrorBody)
  {
  }

  /** A form that cannot be read is a 400. */
  lemma FormErrorRejects(conf: Config, req: Request, siteVerify: Outbound -> CallOutcome)
    requires conf.turnstileSecretKey != "" && TokenLocation(conf) == "form"
    requires req.form.Failed()
    ensures Gate(conf, req, siteVerify) == Reject(StatusBadRequest, FormReadErrorBody)
  {
  }

  /** A token field that is absent from the form, or present with no value, is a 400. */
  lemma FormFieldMissingRejects(conf: Config, req: Request, siteVerify: Outbound -> CallOutcome)
    requires conf.turnstileSecretKey != "" && TokenLocation(conf) == "form"
    requires !req.form.Failed()
    requires TokenName(conf) !in req.form.value || req.form.value[TokenName(conf)] == []
    ensures Gate(conf, req, siteVerify) == Reject(StatusBadRequest, TokenMissingBody)
  {
  }

  /** An empty token, from either location, is a 400. */
  lemma EmptyTokenRejects(conf: Config, req: Request, siteVerify: Outbound -> CallOutcome)
    requires conf.turnstileSecretKey != ""
    requires
      || (TokenLocation(conf) == "header" && req.header(TokenName(conf)) == Reply("", None))
      || (TokenLocation(conf) == "form" && !req.form.Failed() && TokenName(conf) in req.form.value
          && |req.form.value[TokenName(conf)]| > 0 && req.form.value[TokenName(conf)][0] == "")
    ensures Gate(conf, req, siteVerify) == Reject(StatusBadRequest, TokenMissingBody)
  {
  }

  /** Of several form values, the first is the token that is submitted. */
  lemma FormUsesFirstValue(conf: Config, req: Request)
    requires conf.turnstileSecretKey != "" && TokenLocation(conf) == "form"
    requires !req.form.Failed() && TokenName(conf) in req.form.value
    requires |req.form.value[TokenName(conf)]| > 0 && req.form.value[TokenName(conf)][0] != ""
    ensures Prepare(conf, req).Verify?
    ensures Prepare(conf, req).call.form[ResponseField] == req.form.value[TokenName(conf)][0]
  {
  }

  /** Client-IP resolution never ends a request: any two requests that agree
      on the form and on the token header halt alike before the call, with
      the same decision, whatever their IP answers (forwarded IP, client IP
      or any other header) are. */
  lemma ClientIpNeverRejects(conf: Config, req: Request, req2: Request)
    requires req2.form == req.form
    requires req2.header(TokenName(conf)) == req.header(TokenName(conf))
    ensures Prepare(conf, req).Halted? == Prepare(conf, req2).Halted?
    ensures Prepare(conf, req).Halted? ==> Prepare(conf, req) == Prepare(conf, req2)
  {
  }

  /** Once the access phase has ended the request, siteverify is not consulted. */
  lemma HaltIgnoresSiteVerify(conf: Config, req: Request, v1: Outbound -> CallOutcome, v2: Outbound -> CallOutcome)
    requires Prepare(conf, req).Halted?
    ensures Gate(conf, req, v1) == Gate(conf, req, v2)
  {
  }

  /** A forwarded-for list resolves to its first entry, trimmed, whatever
      follows the first comma; an entry without surrounding white space
      comes back as it is. */
  lemma HeaderIpFirstEntry(v: string, first: string, rest: string)
    requires v == first + [','] + rest
    requires ',' !in first
    ensures HeaderIp(v) == TrimSpace(first)
    ensures first == [] || (!IsSpace(first[0]) && !IsSpace(first[|first| - 1])) ==> HeaderIp(v) == first
  {
    assert v[..|first|] == first && v[|first|] == ',';
    FirstFieldUnique(v, ',', first);
    if first == [] || (!IsSpace(first[0]) && !IsSpace(first[|first| - 1])) {
      TrimSpaceOfTrimmed(first);
    }
  }

  /** The first entry of a forwarded-for list, trimmed. */
  lemma HeaderIpExample(v: string)
    requires v == "1.2.3.4, 5.6.7.8"
    ensures HeaderIp(v) == "1.2.3.4"
  {
    var first := "1.2.3.4";
    assert v == first + [','] + " 5.6.7.8";
    assert ',' !in first;
    assert !IsSpace(first[0]) && !IsSpace(first[|first| - 1]);
    HeaderIpFirstEntry(v, first, " 5.6.7.8");
  }

  /** With the IP taken from an X-Forwarded-For list, the form submits its first entry. */
  lemma HeaderIpSubmitted(conf: Config, req: Request)
    requires RemoteIpLocation(conf) == "header"
    requires req.header(RemoteIpName(conf)).value == "1.2.3.4, 5.6.7.8"
    ensures ResolveClientIp(conf, req) == "1.2.3.4"
    ensures Prepare(conf, req).Verify? ==> Prepare(conf, req).call.form[RemoteIpField] == "1.2.3.4"
  {
    HeaderIpExample(req.header(RemoteIpName(conf)).value);
    var ip := ResolveClientIp(conf, req);
    assert ip == HeaderIp("1.2.3.4, 5.6.7.8");
    var s := Prepare(conf, req);
    if s.Verify? {
      assert s.call == OutboundCall(conf, ResolveToken(conf, req).value, ip);
    }
  }

  /** A present non-empty token and a successful verdict let the request through. */
  lemma ValidTokenAllows(conf: Config, req: Request, siteVerify: Outbound -> CallOutcome)
    requires conf.turnstileSecretKey != ""
    requires
      || (TokenLocation(conf) == "header" && !req.header(TokenName(conf)).Failed()
          && req.header(TokenName(conf)).value != "")
      || (TokenLocation(conf) == "form" && !req.form.Failed() && TokenName(conf) in req.form.value
          && |req.form.value[TokenName(conf)]| > 0 && req.form.value[TokenName(conf)][0] != "")
    requires forall o :: (siteVerify(o).Received? && siteVerify(o).status == StatusOK
                          && siteVerify(o).parsed.Some? && siteVerify(o).parsed.value.success)
    ensures Gate(conf, req, siteVerify) == Allow
  {
  }

  /** A client timeout reported by `Client.Do` (before any response
      arrived) is a 502. */
  lemma TimeoutRejects(conf: Config, req: Request, siteVerify: Outbound -> CallOutcome)
    requires Prepare(conf, req).Verify?
    requires siteVerify(Prepare(conf, req).call) == TransportFailed(true)
    ensures Gate(conf, req, siteVerify) == Reject(StatusBadGateway, ConnectionErrorBody)
  {
  }

  /** A non-200 status is a 502 even when the body would parse with
      `success = true`, because the status is checked before the JSON. */
  lemma NonOkStatusRejects(conf: Config, req: Request, siteVerify: Outbound -> CallOutcome, status: int, r: SiteVerifyResponse)
    requires Prepare(conf, req).Verify?
    requires status != StatusOK && r.success
    requires siteVerify(Prepare(conf, req).call) == Received(status, Some(r))
    ensures Gate(conf, req, siteVerify) == Reject(StatusBadGateway, ApiErrorBody)
  {
  }

  /** A body that cannot be read is a 500 whatever the status was, since the
      read comes before the status check. */
  lemma BodyReadPrecedesStatus(status: int, timedOut: bool)
    ensures MapOutcome(BodyReadFailed(status, timedOut)) == Reject(StatusInternalServerError, ReadErrorBody)
  {
  }

  /** A client timeout that expires while the body is being read is a 500
      read error, not the 502 of a timeout in `Client.Do`. */
  lemma BodyReadTimeoutRejects(conf: Config, req: Request, siteVerify: Outbound -> CallOutcome, status: int)
    requires Prepare(conf, req).Verify?
    requires siteVerify(Prepare(conf, req).call) == BodyReadFailed(status, true)
    ensures Gate(conf, req, siteVerify) == Reject(StatusInternalServerError, ReadErrorBody)
  {
  }

  /** The 403 does not depend on the error codes siteverify returned. */
  lemma DenialIgnoresErrorCodes(r: SiteVerifyResponse, codes: seq<string>)
    ensures MapOutcome(Received(StatusOK, Some(r))) == MapOutcome(Received(StatusOK, Some(r.(errorCodes := codes))))
  {
  }

  /** A denial reporting "invalid-input-response" does not repeat it to the caller. */
  lemma DenialHidesErrorCode(conf: Config, req: Request, siteVerify: Outbound -> CallOutcome)
    requires Prepare(conf, req).Verify?
    requires siteVerify(Prepare(conf, req).call) ==
      Received(StatusOK, Some(SiteVerifyResponse(false, "", "", ["invalid-input-response"], "", "")))
    ensures Gate(conf, req, siteVerify).Reject? && Gate(conf, req, siteVerify).status == StatusForbidden
    ensures !ContainsSubstring(Gate(conf, req, siteVerify).body, "invalid-input-response")
  {
  }
}
