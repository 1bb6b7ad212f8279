/**
 * The request decisions of the two handlers of the email-sender server:
 * `POST /api/login` (a credential presence gate) and `POST /api/send-email`
 * (validate, forward the trimmed fields to the configured webhook, translate
 * the webhook's outcome). Each handler is a total function from its inputs to
 * one tagged reply; the reply's status code and body are the arguments the
 * handler passes to `res.status(...)` and `res.json(...)`.
 */
module Server {
  import opened Wrappers
  import opened JsValues
  import opened JsStrings

  const LoginRequired := "username and password are required"
  const DispatchRequired := "email and trackingNumber are required"
  const UpstreamFailedMessage := "Cloudflare request failed"
  const ServerErrorMessage := "Server error"

  /** An HTTP status as the Fetch Standard defines it: an integer from 0 to 999. */
  type StatusCode = s: int | 0 <= s <= 999

  /** The ok status of section 2.2.3 of the Fetch Standard: 200 to 299 inclusive. */
  predicate IsOkStatus(s: int) {
    200 <= s <= 299
  }

  /** The one response a handler sends. */
  datatype Reply =
    | ValidationError(message: string)              // 400 {error}
    | LoginAccepted                                 // 200 {success: true}
    | UpstreamFailed(status: StatusCode, text: string) // <status> {error, status, body}
    | Dispatched(data: JsValue)                     // 200 {success: true, data}
    | ServerError(details: string)                  // 500 {error, details}
  {
    /** The status code the reply is sent with (`res.json` alone sends 200). */
    function Status(): StatusCode {
      match this
      case ValidationError(_) => 400
      case LoginAccepted => 200
      case UpstreamFailed(status, _) => status
      case Dispatched(_) => 200
      case ServerError(_) => 500
    }

    /** The object given to `res.json`, properties in the order they are written. */
    function Body(): JsValue {
      match this
      case ValidationError(message) => Obj([("error", Str(message))])
      case LoginAccepted => Obj([("success", Bool(true))])
      case UpstreamFailed(status, text) =>
        Obj([("error", Str(UpstreamFailedMessage)), ("status", Num(status)), ("body", Str(text))])
      case Dispatched(data) => Obj([("success", Bool(true)), ("data", data)])
      case ServerError(details) => Obj([("error", Str(ServerErrorMessage)), ("details", Str(details))])
    }
  }

  /** The request property `key`, read as `const { key } = req.body || {}` reads it. */
  function Field(body: Option<JsValue>, key: string): (v: JsValue)
    ensures (body.None? || !body.value.Obj?) ==> v == Undefined
    ensures body.Some? && body.value.Obj? ==> v == Get(body.value, key)
  {
    Get(OrEmptyObject(body), key)
  }

  /** The presence rule as written: `typeof v === 'string' && v.trim()` is truthy. */
  predicate Present(v: JsValue) {
    v.Str? && Truthy(Str(Trim(v.s)))
  }

  /** A value passes the presence rule iff it is a string with a code point that is not white space. */
  lemma PresentIff(v: JsValue)
    ensures Present(v) <==> v.Str? && HasNonWs(v.s)
  {
    if v.Str? {
      TrimNonEmptyIffHasNonWs(v.s);
    }
  }

  /** The independent statement of the presence rule used in the handlers' contracts. */
  ghost predicate Filled(v: JsValue) {
    v.Str? && HasNonWs(v.s)
  }

  /**
   * POST /api/login. The gate answers 400 exactly when a credential is missing,
   * not a string, or only white space, and 200 {success: true} for every other
   * pair, whatever the strings are.
   */
  function Login(body: Option<JsValue>): (r: Reply)
    ensures r.Status() == 400 <==> !(Filled(Field(body, "username")) && Filled(Field(body, "password")))
    ensures r.Status() == 400 ==> r.Body() == Obj([("error", Str(LoginRequired))])
    ensures r.Status() != 400 ==> r.Status() == 200 && r.Body() == Obj([("success", Bool(true))])
  {
    var username, password := Field(body, "username"), Field(body, "password");
    PresentIff(username);
    PresentIff(password);
    if !Present(username) || !Present(password) then ValidationError(LoginRequired)
    else LoginAccepted
  }

  /** The outbound request the dispatch handler makes with `fetch`. */
  datatype Outbound = Outbound(url: Option<string>, verb: string, headers: seq<(string, string)>, payload: JsValue)

  /**
   * How the outbound request ended: `fetch` rejected with an error whose
   * `String(err)` rendering is `details`, or it resolved with a status, the
   * result of reading the body as text, and the result of parsing it as JSON
   * (None where reading or parsing failed).
   */
  datatype Outcome =
    | Threw(details: string)
    | Responded(status: StatusCode, text: Option<string>, json: Option<JsValue>)

  /** One run of a handler that may call out: the requests it made, and its reply. */
  datatype Exchange = Exchange(sent: seq<Outbound>, reply: Reply)

  /** The webhook request carrying an email and a tracking number, both already trimmed. */
  function DispatchRequest(endpoint: Option<string>, email: string, trackingNumber: string): (o: Outbound)
    ensures o.url == endpoint && o.verb == "POST"
    ensures o.headers == [("Content-Type", "application/json")]
    ensures o.payload.Obj? && |o.payload.props| == 2
    ensures Get(o.payload, "email") == Str(email)
    ensures Get(o.payload, "trackingNumber") == Str(trackingNumber)
  {
    var e, t := Str(email), Str(trackingNumber);
    LookupPair("email", e, "trackingNumber", t);
    Outbound(endpoint, "POST", [("Content-Type", "application/json")], Obj([("email", e), ("trackingNumber", t)]))
  }

  /**
   * The translation of the webhook's outcome into the handler's reply: a
   * rejection is a 500 carrying the error's rendering; a non-ok status is
   * passed through with the body text ("" when it could not be read); an ok
   * status is 200 with the parsed JSON ({} when it could not be parsed).
   */
  function Translate(o: Outcome): (r: Reply)
    ensures o.Threw? ==>
      r.Status() == 500 && r.Body() == Obj([("error", Str(ServerErrorMessage)), ("details", Str(o.details))])
    ensures o.Responded? && !IsOkStatus(o.status) ==>
      && r.Status() == o.status
      && r.Body() == Obj([("error", Str(UpstreamFailedMessage)), ("status", Num(o.status)), ("body", Str(o.text.GetOr("")))])
    ensures o.Responded? && IsOkStatus(o.status) ==>
      r.Status() == 200 && r.Body() == Obj([("success", Bool(true)), ("data", o.json.GetOr(Obj([])))])
  {
    match o
    case Threw(details) => ServerError(details)
    case Responded(status, text, json) =>
      if !IsOkStatus(status) then UpstreamFailed(status, text.GetOr(""))
      else Dispatched(json.GetOr(Obj([])))
  }

  /**
   * POST /api/send-email, with the webhook URL from the configuration and the
   * webhook itself as `upstream`. An invalid request is answered 400 with no
   * request sent; a valid one sends exactly one request, carrying the trimmed
   * fields, and its reply is the translation of that request's outcome.
   */
  function SendEmail(endpoint: Option<string>, body: Option<JsValue>, upstream: Outbound -> Outcome): (x: Exchange)
    ensures x.sent == [] <==> !(Filled(Field(body, "email")) && Filled(Field(body, "trackingNumber")))
    ensures x.sent == [] ==> x.reply.Status() == 400 && x.reply.Body() == Obj([("error", Str(DispatchRequired))])
    ensures x.sent != [] ==>
      && |x.sent| == 1
      && x.sent[0] == DispatchRequest(endpoint, Trim(Field(body, "email").s), Trim(Field(body, "trackingNumber").s))
      && x.reply == Translate(upstream(x.sent[0]))
  {
    var email, trackingNumber := Field(body, "email"), Field(body, "trackingNumber");
    PresentIff(email);
    PresentIff(trackingNumber);
    if !Present(email) || !Present(trackingNumber) then Exchange([], ValidationError(DispatchRequired))
    else
      var request := DispatchRequest(endpoint, Trim(email.s), Trim(trackingNumber.s));
      Exchange([request], Translate(upstream(request)))
  }

  /**
   * The object given to `res.json` carries an `error` property on a failure
   * status and `success: true` on an ok one.
   */
  predicate ShapedByStatus(r: Reply) {
    if IsOkStatus(r.Status()) then
      Get(r.Body(), "error") == Undefined && Get(r.Body(), "success") == Bool(true)
    else
      Get(r.Body(), "error").Str? && Get(r.Body(), "success") == Undefined
  }

  /**
   * Every reply other than an upstream failure relayed with an ok status
   * (which the handlers never produce) is shaped by its status.
   */
  lemma ReplyShapedByStatus(r: Reply)
    requires r.UpstreamFailed? ==> !IsOkStatus(r.status)
    ensures ShapedByStatus(r)
  {
    var props := r.Body().props;
    match r
    case ValidationError(_) =>
      LookupSingle(props, "error", 0);
    case LoginAccepted =>
      LookupSingle(props, "success", 0);
    case UpstreamFailed(_, _) =>
      LookupSingle(props, "error", 0);
      assert !HasKey(props, "success");
    case Dispatched(_) =>
      LookupSingle(props, "success", 0);
      assert !HasKey(props, "error");
    case ServerError(_) =>
      LookupSingle(props, "error", 0);
      assert !HasKey(props, "success");
  }

  /** Whatever the request, the login reply is shaped by its status. */
  lemma LoginShapedByStatus(body: Option<JsValue>)
    ensures ShapedByStatus(Login(body))
  {
    var r := Login(body);
    assert r.ValidationError? || r.LoginAccepted?;
    ReplyShapedByStatus(r);
  }

  /**
   * Whatever the request and whatever the webhook does, the object the
   * send-email handler gives to `res.json` carries an `error` property
   * exactly on a non-ok status and `success: true` exactly on an ok one.
   */
  lemma SendEmailShapedByStatus(endpoint: Option<string>, body: Option<JsValue>, upstream: Outbound -> Outcome)
    ensures ShapedByStatus(SendEmail(endpoint, body, upstream).reply)
  {
    var x := SendEmail(endpoint, body, upstream);
    if x.sent != [] {
      var o := upstream(x.sent[0]);
      assert x.reply == Translate(o);
    }
    ReplyShapedByStatus(x.reply);
  }

  /**
   * With no endpoint configured, `fetch` rejects (its URL is undefined), so a
   * valid request sends one request and is answered 500 with the error's
   * rendering.
   */
  lemma UnsetEndpointIsServerError(body: Option<JsValue>, upstream: Outbound -> Outcome)
    requires Filled(Field(body, "email")) && Filled(Field(body, "trackingNumber"))
    requires forall o: Outbound :: o.url.None? ==> upstream(o).Threw?
    ensures
      var x := SendEmail(None, body, upstream);
      && |x.sent| == 1
      && x.reply.Status() == 500
      && x.reply.Body() == Obj([("error", Str(ServerErrorMessage)), ("details", Str(upstream(x.sent[0]).details))])
  {
    var x := SendEmail(None, body, upstream);
    assert x.sent[0].url.None?;
    assert x.reply == Translate(upstream(x.sent[0]));
  }

  /** A missing body, a body that is not an object, and an empty object are all treated alike. */
  lemma NonObjectBodyLikeEmpty(endpoint: Option<string>, body: Option<JsValue>, upstream: Outbound -> Outcome)
    requires body.None? || !body.value.Obj?
    ensures Login(body) == Login(Some(Obj([]))) == ValidationError(LoginRequired)
    ensures SendEmail(endpoint, body, upstream) == SendEmail(endpoint, Some(Obj([])), upstream)
    ensures SendEmail(endpoint, body, upstream) == Exchange([], ValidationError(DispatchRequired))
  {
    PresentIff(Undefined);
  }

  /**
   * For any valid request, a webhook answering 502 with the body text
   * "bad gateway" is relayed as 502 with that text in the failure body.
   */
  lemma BadGatewayRelayed(endpoint: Option<string>, body: Option<JsValue>)
    requires Filled(Field(body, "email")) && Filled(Field(body, "trackingNumber"))
    ensures
      var x := SendEmail(endpoint, body, (_: Outbound) => Responded(502, Some("bad gateway"), None));
      && |x.sent| == 1
      && x.reply.Status() == 502
      && x.reply.Body() == Obj([("error", Str("Cloudflare request failed")), ("status", Num(502)), ("body", Str("bad gateway"))])
  {
    var x := SendEmail(endpoint, body, (_: Outbound) => Responded(502, Some("bad gateway"), None));
    assert x.reply == Translate(Responded(502, Some("bad gateway"), None));
  }
}
