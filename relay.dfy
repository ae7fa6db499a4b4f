/** The relay's per-request decision: which route a request takes, whether the
    upstream is contacted, and which status and body the caller gets. Network I/O
    is replaced by two results handed in as values: the parse of the inbound body
    and what the upstream call produced. */
module Relay {
  import opened Values
  import opened Formats
  import opened Translator

  /** The routes the relay knows; NotFound covers every other method/path pair. */
  datatype Endpoint = Health | Status | Models | Messages | NotFound

  /** The table of handled routes, keyed by exact (verb, pathname). */
  const RouteTable: map<(string, string), Endpoint> := map[
    ("GET", "/health") := Health,
    ("GET", "/status") := Status,
    ("GET", "/v1/models") := Models,
    ("POST", "/v1/messages") := Messages]

  /** The if-chain of the request handler, agreeing with RouteTable. */
  function RouteOf(verb: string, path: string): (e: Endpoint)
    ensures (verb, path) in RouteTable ==> e == RouteTable[(verb, path)]
    ensures (verb, path) !in RouteTable ==> e == NotFound
  {
    if verb == "GET" && path == "/health" then Health
    else if verb == "GET" && path == "/status" then Status
    else if verb == "GET" && path == "/v1/models" then Models
    else if verb != "POST" || path != "/v1/messages" then NotFound
    else Messages
  }

  /** Outcome of reading and parsing the inbound body. Malformed also stands for
      every other throw the source catches in the same place: a body whose shape
      makes the handler or the forward translation throw (JSON null, a truthy
      `messages` that is not an array), and a server-held key that the HTTP client
      refuses as a header value (a control character or a character above U+00FF),
      which makes the outbound request throw before the upstream is contacted. */
  datatype ParsedBody = Malformed(message: string) | Parsed(body: AnthropicRequest)

  /** Outcome of the upstream call. Unparseable also stands for a body whose shape
      makes the reverse translation throw (JSON null): the source catches both in
      one place. */
  datatype UpstreamResult =
    | ConnectionError(message: string)
    | Unparseable(message: string)
    | Delivered(response: OpenAIResponse)

  /** The reply body; the static payloads of the three GET routes are not modelled. */
  datatype ReplyBody =
    | HealthPayload
    | StatusPayload
    | ModelListPayload
    | NotFoundPayload
    | ErrorPayload(errorType: string, message: string)
    | MessagePayload(reply: AnthropicResponse)

  /** One inbound request's effect: the OpenAI request sent upstream, if any,
      and the status and body written back. */
  datatype Exchange = Exchange(forwarded: Option<OpenAIRequest>, status: int, reply: ReplyBody)

  /** The request handler as a function of its inputs. */
  function HandleRequest(verb: string, path: string, inbound: ParsedBody, upstream: UpstreamResult): (x: Exchange)
    ensures x.status == 200 || x.status == 400 || x.status == 404 || x.status == 500
    ensures x.status == 404 <==> (verb, path) !in RouteTable
    ensures x.status == 404 ==> x.reply == NotFoundPayload
    ensures RouteOf(verb, path) == Health ==> x.reply == HealthPayload
    ensures RouteOf(verb, path) == Status ==> x.reply == StatusPayload
    ensures RouteOf(verb, path) == Models ==> x.reply == ModelListPayload
    ensures x.forwarded.Some? <==> verb == "POST" && path == "/v1/messages" && inbound.Parsed?
    ensures x.forwarded.Some? ==> x.forwarded.value == ToOpenAI(inbound.body)
    ensures x.status == 400 <==> verb == "POST" && path == "/v1/messages" && inbound.Malformed?
    ensures x.status == 400 ==> x.reply == ErrorPayload("invalid_request_error", inbound.message)
    ensures x.status == 500 <==> x.forwarded.Some? && !upstream.Delivered?
    ensures x.status == 500 ==> x.reply == ErrorPayload("api_error", upstream.message)
    ensures x.forwarded.Some? && upstream.Delivered? ==>
      x.status == 200 && x.reply == MessagePayload(ToAnthropic(upstream.response, inbound.body.model))
  {
    match RouteOf(verb, path)
    case Health => Exchange(None, 200, HealthPayload)
    case Status => Exchange(None, 200, StatusPayload)
    case Models => Exchange(None, 200, ModelListPayload)
    case NotFound => Exchange(None, 404, NotFoundPayload)
    case Messages =>
      match inbound
      case Malformed(message) => Exchange(None, 400, ErrorPayload("invalid_request_error", message))
      case Parsed(body) =>
        var forwarded := Some(ToOpenAI(body));
        match upstream
        case ConnectionError(message) => Exchange(forwarded, 500, ErrorPayload("api_error", message))
        case Unparseable(message) => Exchange(forwarded, 500, ErrorPayload("api_error", message))
        case Delivered(response) =>
          Exchange(forwarded, 200, MessagePayload(ToAnthropic(response, body.model)))
  }

  /** The three GET routes answer 200 without contacting the upstream, whatever
      the body and the upstream would have been. */
  lemma GetRoutesStayLocal(path: string, inbound: ParsedBody, upstream: UpstreamResult)
    requires path == "/health" || path == "/status" || path == "/v1/models"
    ensures var x := HandleRequest("GET", path, inbound, upstream);
      x.status == 200 && x.forwarded.None?
  {
  }

  /** The model reported back to the caller is the one the caller asked for and
      the one sent upstream, whatever the upstream answered. */
  lemma ModelEchoed(verb: string, path: string, inbound: ParsedBody, upstream: UpstreamResult)
    requires HandleRequest(verb, path, inbound, upstream).reply.MessagePayload?
    ensures var x := HandleRequest(verb, path, inbound, upstream);
      && inbound.Parsed?
      && x.forwarded.Some?
      && x.reply.reply.model == inbound.body.model
      && x.reply.reply.model == x.forwarded.value.model
  {
  }

  /** The reply never depends on the caller's `stream` flag: it is forwarded
      upstream but the response path does not branch on it. */
  lemma StreamFlagDoesNotShapeReply(verb: string, path: string, body: AnthropicRequest,
                                    stream: Option<bool>, upstream: UpstreamResult)
    ensures HandleRequest(verb, path, Parsed(body), upstream) ==
            var x := HandleRequest(verb, path, Parsed(body.(stream := stream)), upstream);
            x.(forwarded := if x.forwarded.Some? then Some(ToOpenAI(body)) else None)
  {
  }

  /** The upstream's HTTP status is never consulted: any parsed answer without a
      first choice, an upstream error body among them, reaches the caller as 200
      with the "no response" message and stop reason "error". */
  lemma UpstreamErrorStatusReplies200(body: AnthropicRequest, response: OpenAIResponse)
    requires FirstChoice(response).None?
    ensures var x := HandleRequest("POST", "/v1/messages", Parsed(body), Delivered(response));
      && x.status == 200
      && x.reply.MessagePayload?
      && x.reply.reply.stopReason == Some("error")
      && x.reply.reply.content == [Text(NoResponseText)]
      && x.reply.reply.usage.None?
  {
  }

  /** The request/response scenario: one user turn, upstream answers "hello". */
  lemma SuccessfulExchange()
    ensures var body := AnthropicRequest(Some("m1"), None, Some([Message("user", "hi")]), None, None, None);
      var resp := OpenAIResponse(Some("x"), Some([Some(Choice(Some(ChoiceMessage(Some("hello"))), Some("stop")))]),
                                 Some(OpenAIUsage(Some(5), Some(2))));
      var x := HandleRequest("POST", "/v1/messages", Parsed(body), Delivered(resp));
      && x.forwarded == Some(OpenAIRequest(Some("m1"), [Message("user", "hi")], 4096, 1.0, false))
      && x.status == 200
      && x.reply == MessagePayload(AnthropicResponse(Some("x"), "message", "assistant", [Text("hello")],
                                                     Some("m1"), Some("end_turn"), Some(AnthropicUsage(5, 2))))
  {
    var body := AnthropicRequest(Some("m1"), None, Some([Message("user", "hi")]), None, None, None);
    var choice := Choice(Some(ChoiceMessage(Some("hello"))), Some("stop"));
    var resp := OpenAIResponse(Some("x"), Some([Some(choice)]), Some(OpenAIUsage(Some(5), Some(2))));
    assert RouteOf("POST", "/v1/messages") == Messages;
    assert ToOpenAI(body) == OpenAIRequest(Some("m1"), [Message("user", "hi")], 4096, 1.0, false);
    assert FirstChoice(resp) == Some(choice);
    assert ChoiceText(choice) == "hello";
    assert MapStopReason(choice.finishReason) == Some("end_turn");
    assert TokenCount(resp.usage, true) == 5 && TokenCount(resp.usage, false) == 2;
  }

  // ---------------------------------------------------------------------------
  // Caller credential
  // ---------------------------------------------------------------------------

  /** ASCII lower-casing, the only case folding a non-unicode `i` regex applies
      to the letters of "Bearer". */
  function LowerAscii(c: char): char {
    if 'A' <= c <= 'Z' then (c as int + 32) as char else c
  }

  /** `s` starts with "Bearer " in any letter case. */
  predicate HasBearerPrefix(s: string) {
    |s| >= 7 && forall i :: 0 <= i < 7 ==> LowerAscii(s[i]) == "bearer "[i]
  }

  /** `s.replace(/^Bearer /i, '')`. */
  function StripBearer(s: string): string {
    if HasBearerPrefix(s) then s[7..] else s
  }

  /** The caller credential: `x-api-key` if truthy, otherwise the `authorization`
      header without a leading "Bearer ", otherwise nothing. It is extracted but
      decides nothing: HandleRequest does not take it. */
  function CallerKey(xApiKey: Option<string>, authorization: Option<string>): Option<string> {
    if Truthy(xApiKey, "") then xApiKey
    else if authorization.None? then None
    else Some(StripBearer(authorization.value))
  }

  /** A "Bearer " prefix in any case is removed exactly once; the rest is kept verbatim. */
  lemma StripBearerRemovesOnePrefix(prefix: string, token: string)
    requires |prefix| == 7
    requires forall i :: 0 <= i < 7 ==> LowerAscii(prefix[i]) == "bearer "[i]
    ensures StripBearer(prefix + token) == token
  {
  }

  /** Without the prefix the header value is kept whole. */
  lemma StripBearerKeepsOtherValues(s: string)
    requires !HasBearerPrefix(s)
    ensures StripBearer(s) == s
  {
  }

  /** Which header wins, and what is taken from a header that is not Bearer-prefixed. */
  lemma CallerKeyRule(xApiKey: Option<string>, authorization: Option<string>)
    ensures Truthy(xApiKey, "") ==> CallerKey(xApiKey, authorization) == xApiKey
    ensures !Truthy(xApiKey, "") && authorization.Some? && !HasBearerPrefix(authorization.value) ==>
            CallerKey(xApiKey, authorization) == authorization
    ensures !Truthy(xApiKey, "") && authorization.None? ==> CallerKey(xApiKey, authorization) == None
  {
  }

  /** Without a truthy `x-api-key`, a Bearer-prefixed `authorization` in any letter
      case yields the token after the prefix. */
  lemma CallerKeyFromBearer(xApiKey: Option<string>, prefix: string, token: string)
    requires !Truthy(xApiKey, "")
    requires |prefix| == 7
    requires forall i :: 0 <= i < 7 ==> LowerAscii(prefix[i]) == "bearer "[i]
    ensures CallerKey(xApiKey, Some(prefix + token)) == Some(token)
  {
  }
}
