# Email-sender server: request decisions

This project models the request-decision logic of the two handlers of
`server.js`, a small Express server that takes an email address and a
tracking number from a browser and forwards them to a webhook (a Cloudflare
endpoint that sends a templated email):

- `POST /api/login` is a credential presence gate. It answers 400
  `{error: 'username and password are required'}` unless `username` and
  `password` are both strings that are non-empty after `trim`, and otherwise
  200 `{success: true}`.
- `POST /api/send-email` checks `email` and `trackingNumber` by the same rule.
  It POSTs `{email, trackingNumber}`, both trimmed, as JSON to the configured
  endpoint. It then turns the webhook's outcome into exactly one reply:
  - 400 when validation fails;
  - the webhook's own status for a non-ok status;
  - 200 `{success: true, data}` for an ok status;
  - 500 `{error: 'Server error', details}` when the call throws.

Each handler is a total, pure function. `Server.Login` maps the request
body to a tagged `Reply`. `Server.SendEmail` maps the configured endpoint,
the request body and the webhook (a function from the outbound request to
its `Outcome`) to an `Exchange`: the requests it sent and its reply.
`Reply.Status()` and `Reply.Body()` give the status code the handler
passes to `res.status` and the object it gives to `res.json`.

Helpers without a row of their own: `Server.Present` is the presence rule
of server.js:35-36 and 50-51 as written; `Server.IsOkStatus` is `cfResp.ok`
(server.js:63); `JsValues.Truthy` is the truthiness behind the `||` of
server.js:33 and 48; `Reply.Status` and `Reply.Body` are the status codes and
object literals of server.js:37-42, 52-54, 65-67, 72 and 75.

Files:
- `Wrappers.dfy`: `Option`.
- `JsValues.dfy`: JavaScript values as a parsed JSON body holds them. This
  covers truthiness (`req.body || {}`) and property reads (object
  destructuring). For a duplicated key the last occurrence wins, as in
  `JSON.parse`.
- `JsStrings.dfy`: `String.prototype.trim`, which is TrimString in section
  22.1.3 of ECMA-262. It strips the WhiteSpace code points of section 12.2
  and the LineTerminator code points of section 12.3. The module proves
  that `Trim` keeps exactly the slice left once leading and trailing white
  space are removed. It also proves that the result is unique, that
  trimming is idempotent, and that the result is empty iff the string is
  all white space.
- `Server.dfy`: the two handlers, the outbound request, the outcome
  translation, and the properties that tie them together.

"Ok" means the ok status of section 2.2.3 of the Fetch Standard: 200 to
299 inclusive. A status is an integer from 0 to 999 (the same section).

## Model

| member | source | states |
|---|---|---|
| `JsStrings.TrimStart` | server.js:35-36 | the result is a suffix of the input; everything removed is white space; the result does not start with white space |
| `JsStrings.TrimEnd` | server.js:35-36 | the result is a prefix of the input; everything removed is white space; the result does not end with white space |
| `JsStrings.Trim` | server.js:35-36 | the result is a contiguous slice `s[i..j]`; everything before `i` and from `j` on is white space; the slice neither starts nor ends with white space |
| `JsStrings.StripsToUnique` | server.js:35-36 | any two cuts that remove exactly the leading and trailing white space keep the same slice |
| `JsStrings.TrimCharacterized` | server.js:35-36 | `t == Trim(s)` iff `t` is the slice left after removing the leading and trailing white space of `s` (both directions) |
| `JsStrings.TrimNoEdgeWs` | server.js:50-51 | the trimmed string has no white space at either end |
| `JsStrings.TrimIdempotent` | server.js:50-51 | `Trim(Trim(s)) == Trim(s)` |
| `JsStrings.TrimEmptyIffAllWs` | server.js:35-36 | the trim is empty iff every code point of the string is white space |
| `JsStrings.TrimNonEmptyIffHasNonWs` | server.js:50-51 | the trim is non-empty iff the string has a code point that is not white space |
| `JsValues.LookupLast` | server.js:33 | an absent key reads as undefined; a present key reads as the value of its last occurrence |
| `JsValues.Get` | server.js:48 | a property read of a non-object, or of an absent key, gives undefined; a present key of an object reads as the value of its last occurrence; reading a property of null or undefined is excluded, because it throws |
| `JsValues.OrEmptyObject` | server.js:33 | the defaulted body (a logical-or with `{}`) is the body itself when it is present and truthy, and `{}` otherwise; so it is never null or undefined and can be destructured |
| `Server.Field` | server.js:48 | a missing body, or one that is not an object, yields undefined for every field; an object body yields the property read of that key |
| `Server.PresentIff` | server.js:35-36 | `typeof v === 'string' && v.trim()` holds iff `v` is a string with a code point that is not white space |
| `Server.Login` | server.js:32-43 | 400 with `{error: 'username and password are required'}` exactly when either credential is not a string with a non-white-space code point; otherwise 200 `{success: true}`, whatever the values |
| `Server.DispatchRequest` | server.js:57-61 | the outbound request goes to the configured endpoint as a POST with the JSON content type; its payload is an object with exactly two properties, `email` and `trackingNumber`, holding the given (already trimmed) values |
| `Server.Translate` | server.js:63-75 | a thrown error gives 500 `{error: 'Server error', details}`; a non-ok status gives that same status with `{error: 'Cloudflare request failed', status, body}`, where `body` is the text or `''`; an ok status gives 200 `{success: true, data}`, where `data` is the parsed JSON or `{}` |
| `Server.SendEmail` | server.js:46-77 | no request is sent iff `email` or `trackingNumber` fails the presence rule, and then the reply is 400 `{error: 'email and trackingNumber are required'}`; otherwise exactly one request is sent, whose payload holds `Trim(email)` and `Trim(trackingNumber)`, and the reply is the translation of its outcome |
| `Server.ReplyShapedByStatus` | server.js:63-75 | each reply has an `error` string iff its status is not ok, and `success: true` iff it is ok (given the pass-through status is not ok) |
| `Server.LoginShapedByStatus` | server.js:32-43 | for every body, the login reply carries `error` exactly on a non-ok status and `success: true` exactly on an ok one |
| `Server.SendEmailShapedByStatus` | server.js:46-77 | for every body and every webhook behaviour, the send-email reply carries `error` exactly on a non-ok status and `success: true` exactly on an ok one |
| `Server.NonObjectBodyLikeEmpty` | server.js:33-55 | a missing or non-object body behaves like `{}`: login answers 400 and send-email answers 400 without sending anything |
| `Server.UnsetEndpointIsServerError` | server.js:57-61 | when the webhook rejects every request with no URL, a valid request with no endpoint configured is answered 500 `{error: 'Server error', details}` after one request |
| `Server.BadGatewayRelayed` | server.js:63-67 | for any valid request, a webhook answer of 502 "bad gateway" is relayed as 502 `{error: 'Cloudflare request failed', status: 502, body: 'bad gateway'}` after one request |

## Left out

- Environment loading, the missing-endpoint warning, the Express app, CORS,
  JSON middleware, static files, and the port and `app.listen`. These are
  configuration and framework wiring. The endpoint is a parameter
  (`Option<string>`). An unset endpoint makes `fetch` throw. The model
  states this only under the assumption that the webhook function answers
  `Threw` for a request without a URL (`Server.UnsetEndpointIsServerError`).
- The network call, `async`/`await`, body reading and JSON parsing. The
  webhook is the function parameter `upstream`. Its `Outcome` carries
  `text` and `json` as `Option`s, with `None` when reading or parsing
  failed. `JSON.stringify` of the payload is not modelled: the payload is
  given as the JS object that is serialised.
- `String(err)` and `console.error`: the rendering of the error is the
  opaque string in `Threw`, and logging is not modelled.
- Errors raised while writing the reply are not modelled. One example is
  Node rejecting a status code outside 100-999 when it is passed through.
- JavaScript strings are UTF-16. Here they are sequences of Unicode scalar
  values, so lone surrogates cannot be represented. Every white-space code
  point is in the Basic Multilingual Plane, so `trim` is unaffected.
- Numbers are integers here: NaN, -0 and fractions are not represented.
  The handlers only look at whether a field is a string, and status codes
  are integers.
- `JsValues.Get` sees only an object's own properties. For primitives it
  gives undefined, so it ignores built-in prototype properties such as a
  string's `length`. None of the four keys the handlers read is such a
  property.
- The repository's second service, a client-lookup proxy
  (`GET /api/client/:clientId` with exact-match selection), is not part of
  this model. `server.js` does not contain it.
- Repeating a valid send-email request forwards it again. The model has no
  state, so each call of `Server.SendEmail` sends its own single request.
  No separate lemma is stated.
- Server.Translate: the reply body is the object given to `res.json`, not
  what reaches the caller. A passed-through 304, or a 1xx status, is sent
  by Express and Node with no body, so the caller does not see the `error`
  property that `Server.ShapedByStatus` describes. Response writing is not
  modelled.
