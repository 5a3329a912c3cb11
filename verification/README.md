# Kong Turnstile plugin: a verified model of the access phase

The plugin is a Kong gateway plugin written in Go. In the access phase it
takes a Cloudflare Turnstile token from a request header or form field. It
also finds the client address. It posts both, with the secret key, to the
Turnstile `siteverify` endpoint, and it either lets the request through or
ends it with a status and a short body.

This project models `Config.Access` in `main.go` as one pure, total Dafny
function, `Plugin.Gate(conf, req, siteVerify)`:

- `conf` is the plugin `Config`. Unset fields are `""` or `0`, as Kong delivers them.
- `req` is a snapshot of what the Kong PDK answers: `GetHeader` for any
  name, `GetForm`, `GetForwardedIp` and `GetClientIp`. Each answer is a Go
  `(value, error)` pair (`Reply`). The value is kept beside the error
  because the code reads it even when the error is set. The client-IP
  fallback and the IP header both do this.
- `siteVerify` maps the outbound request the plugin builds (URL, timeout,
  form fields) to how that call ends. It can fail at request creation, fail
  in `Client.Do` (a client timeout there included), fail while reading the
  body (a client timeout that expires during the read included), or deliver
  a status together with the result of decoding the JSON.
- The result is a `Decision`: `Allow`, or `Reject(status, body)` for
  `kong.Response.Exit`.

Modules:

- `Wrappers`: `Option` and `Result`.
- `Strings`: ASCII models of `strings.ToLower`, `strings.TrimSpace` and
  `strings.Split(s, ",")[0]`. Each has a declarative partner: a
  case-insensitive equality, a "trim of" relation proved to have exactly
  one solution, and a uniqueness lemma for the first field.
- `Time`: Go's `int64` and `time.Duration`, with the two's-complement wrap
  of `time.Duration(ms) * time.Millisecond`.
- `SiteVerify`: the siteverify response record, the outcomes of the call,
  and the `application/x-www-form-urlencoded` body as a field map (WHATWG
  URL Standard, section 5). Encoding and decoding are proved inverse in
  both directions.
- `Plugin`: configuration defaults, token extraction, client-IP
  resolution, building the outbound call, mapping the outcome, and `Gate`.
- `GateProperties`: lemmas for each branch of the decision table, and the
  concrete cases such as `1.2.3.4, 5.6.7.8`.

Because `Gate` is a function, two calls with the same configuration, the
same host answers and the same siteverify behaviour give the same decision.
No state carries over between requests.

Three behaviours of the code are worth spelling out:

- Only an empty secret is rejected; a whitespace-only one passes (main.go:60).
- The token location is checked only at the switch (main.go:101), after the
  secret check; an unknown IP location is never rejected (main.go:145-146).
- A failed `GetClientIp` or `GetHeader` still supplies its returned value as
  the IP (main.go:129, main.go:136).

Past 9223372036854 ms (about 292 years) the Duration wraps modulo 2^64.
The first values past the range are negative, which means no deadline.
Some larger ones wrap to a tiny positive timeout. For example,
18446744073710 ms becomes 448384 ns, under which every call would time
out. `Time.Millis` models this wrap exactly.

## Model

| member | source | states |
|---|---|---|
| Strings.ToLower | main.go:67 | The result has the input's length, lower-cases each ASCII letter in place, keeps every other character, and has no upper-case ASCII letter. |
| Strings.ToLowerMatches | main.go:79-105 | Comparing the lower-cased value with a lower-case literal (as the `switch` does) holds exactly when the value equals the literal ignoring ASCII case. |
| Strings.ToLowerIdempotent | main.go:67 | Lower-casing twice is the same as lower-casing once. |
| Strings.TrimSpace | main.go:143 | The result is a contiguous slice of the input. Only white space lies on either side of it, and it neither starts nor ends with white space. |
| Strings.TrimOfUnique | main.go:143 | That description of a trim has exactly one solution, so it fully specifies TrimSpace. |
| Strings.TrimSpaceOfTrimmed | main.go:143 | TrimSpace leaves a string that neither starts nor ends with white space unchanged. |
| Strings.FirstField | main.go:143 | `Split(s, ",")[0]` is a prefix of `s` that holds no separator and is followed by a separator or by the end of `s`. |
| Strings.FirstFieldUnique | main.go:143 | Any prefix with those three properties is the first field. |
| Time.Millis | main.go:156-159 | Converting milliseconds to a Duration multiplies by 1,000,000 exactly while the product fits in int64. |
| Time.MillisWrapsPastRange | main.go:158 | One millisecond past that range, the Duration wraps to a negative value. |
| Time.MillisWrapsToTinyPositive | main.go:158 | 18446744073710 ms wraps to 448384 ns, a positive Duration under one millisecond. |
| Plugin.TimeoutWrapsToTinyPositive | main.go:156-161 | A configured `request_timeout_ms` of 18446744073710 gives the client a timeout that is positive but under one millisecond. |
| SiteVerify.EncodeForm | main.go:163-169 | The body fields are `secret` = the secret and `response` = the token. `remoteip` is present exactly when the IP is non-empty, and nothing else is present. |
| SiteVerify.DecodeForm | main.go:163-169 | Reading a field set succeeds exactly when `secret` and `response` are present, and returns their values. A missing `remoteip` reads as the empty IP. |
| SiteVerify.DecodeEncode | main.go:163-171 | Decoding an encoded request returns the same secret, token and IP. |
| SiteVerify.EncodeDecode | main.go:163-171 | Every well-formed field set is the encoding of the request it decodes to. |
| Plugin.TokenLocation | main.go:67-70 | The location is lower-case and non-empty. An empty setting gives `header`. Otherwise it is the setting up to ASCII case. |
| Plugin.TokenName | main.go:71-74 | The token name is the configured one, or `Cf-Turnstile-Response` when that is empty. |
| Plugin.RemoteIpLocation | main.go:114-117 | The IP location is lower-case and non-empty. An empty setting gives `pdk`. Otherwise it is the setting up to ASCII case. |
| Plugin.RemoteIpName | main.go:118-121 | The IP header name is the configured one, or `X-Forwarded-For` when that is empty. |
| Plugin.VerifyUrl | main.go:152-155 | The verify URL is the configured one, or the Cloudflare siteverify URL when that is empty. |
| Plugin.Timeout | main.go:156-159 | The client timeout is `RequestTimeoutMs` milliseconds when that is positive (and in range), and 5000 ms otherwise. |
| Plugin.ResolveToken | main.go:76-111 | An unknown location gives 500 "Plugin Configuration Error". For `header`, a token is found exactly when the fetch succeeds with a non-empty value. For `form`, a token is found exactly when the form reads, the field is present, and its first value is non-empty; that first value is the token. Every other outcome at a known location is a 400. |
| Plugin.HeaderIp | main.go:141-144 | A value without a comma passes through unchanged. With a comma, the result is the trimmed first comma-separated entry and holds no comma. |
| Plugin.ResolveClientIp | main.go:113-147 | For `pdk`, the forwarded IP is used when it came back without error and non-empty; otherwise the client-IP value is used. For `header`, the header value goes through HeaderIp. Any other location gives `""`. |
| Plugin.OutboundCall | main.go:151-171 | The call uses VerifyUrl and Timeout. Its form is well formed, `remoteip` is present exactly when the IP is non-empty, and the form decodes to (secret, token, IP). |
| Plugin.MapOutcome | main.go:173-222 | Each row of the outcome table, in the code's order: request-creation failure is 500, transport failure 502, body-read failure 500 whatever the status, a non-200 status 502, a parse failure 500, `success = false` 403 with the fixed body "Verification failed", and `success = true` exactly when `Allow`. |
| Plugin.Prepare | main.go:59-171 | An empty secret halts with 500 "Plugin Configuration Error". Preparation halts exactly when the secret is empty or token extraction fails, so client-IP resolution never halts. Every halt is a 400 or 500. A call that is made goes to VerifyUrl with Timeout, and its well-formed form carries the secret, the token and the resolved IP. `remoteip` is present exactly when that IP is non-empty. |
| Plugin.Gate | main.go:56-223 | An empty secret always gives 500 "Plugin Configuration Error". `Allow` holds exactly when preparation reaches the call and siteverify reports status 200 with `success = true`. Every rejection is 400, 403, 500 or 502. |
| GateProperties.TokenLocationCaseInsensitive | main.go:67-79 | The token location is `header` exactly when the setting is empty or equals "header" ignoring case, and `form` exactly when it equals "form" ignoring case. |
| GateProperties.BadTokenLocationRejects | main.go:101-104 | With a secret set, any other token location gives 500 "Plugin Configuration Error", whatever the request and siteverify behaviour. |
| GateProperties.HeaderErrorRejects | main.go:80-86 | A failed token header fetch gives 400 "Turnstile token missing or invalid". |
| GateProperties.FormErrorRejects | main.go:88-93 | A form that cannot be read gives 400 "Could not read form data". |
| GateProperties.FormFieldMissingRejects | main.go:94-99 | A token field that is absent or has no values gives 400 "Turnstile token missing". |
| GateProperties.EmptyTokenRejects | main.go:107-111 | An empty token from either location gives 400 "Turnstile token missing". |
| GateProperties.FormUsesFirstValue | main.go:100 | With several form values, the first one is submitted as `response`. |
| GateProperties.ClientIpNeverRejects | main.go:113-147 | Two requests that agree on the form and on the token header halt alike before the call, with the same decision, whatever their forwarded-IP, client-IP and other header answers are. |
| GateProperties.HaltIgnoresSiteVerify | main.go:59-111 | When preparation halts, the decision is the same for every siteverify behaviour. |
| GateProperties.HeaderIpFirstEntry | main.go:141-144 | For any value `first + "," + rest` where `first` holds no comma, the header IP is `first` trimmed, and `first` itself when it has no surrounding white space. |
| GateProperties.HeaderIpExample | main.go:141-144 | The header value "1.2.3.4, 5.6.7.8" resolves to "1.2.3.4". |
| GateProperties.HeaderIpSubmitted | main.go:135-169 | With IP location `header` and that header value, the resolved IP is exactly "1.2.3.4", and so is the submitted `remoteip` whenever the call is made. |
| GateProperties.ValidTokenAllows | main.go:79-213 | With a secret set, a present non-empty token at either location, and siteverify answering 200 with `success = true`, the request is allowed. |
| GateProperties.TimeoutRejects | main.go:181-186 | A client timeout reported by `httpClient.Do` gives 502 "connection error". |
| GateProperties.BodyReadTimeoutRejects | main.go:189-193 | A client timeout that expires while the body is read gives 500 "read error", not 502. |
| GateProperties.NonOkStatusRejects | main.go:196-212 | A non-200 status gives 502 "API error" even when the body would parse with `success = true`. |
| GateProperties.BodyReadPrecedesStatus | main.go:189-200 | A body-read failure gives 500 whatever the HTTP status was. |
| GateProperties.DenialIgnoresErrorCodes | main.go:211-222 | The decision for a parsed 200 reply does not depend on its error codes. |
| GateProperties.DenialHidesErrorCode | main.go:217-222 | A denial reporting "invalid-input-response" is a 403 whose body does not contain that code. |

## Left out

- Kong PDK calls (`kong.Request.*`, `kong.Response.Exit`, `kong.Log.*`). Host answers are inputs and `Exit` is the `Decision`. Logging has no effect on the decision.
- The `net/http` client, the wall-clock timeout and `defer resp.Body.Close()`. These are I/O. The call is the `siteVerify` parameter, and the timeout is only a field of the request passed to it. So the model does not tie a timed-out call to the configured Duration. Go's client applies no deadline when the Duration is not positive; that is not modelled either.
- `encoding/json` decoding is an abstract `Option<SiteVerifyResponse>`.
- `url.Values.Encode` percent-escaping and key order are library behaviour. The body is modelled as its field map.
- Strings.ToLower: handles only ASCII letters, not the full Unicode case mapping of `strings.ToLower`.
- Strings.TrimSpace: treats only the six ASCII white-space characters as space, not all of `unicode.IsSpace`.
- Plugin.Timeout: its contract gives the exact Duration only for timeouts up to 9223372036854 ms. Beyond that, the wrapped value is what Time.Millis computes. Time.MillisWrapsPastRange and Plugin.TimeoutWrapsToTinyPositive exhibit a negative and a tiny positive wrap.
- `New`, `main`, `server.StartServer`, `PluginVersion` and `PluginPriority` are plugin-host plumbing.
- The commented-out success-path headers (main.go:214-216) are not active code.
