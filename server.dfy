/** The `/api/chat` route of server/index.js as a pure function from the
    parsed request body and the outcome of the one upstream completion call to
    the HTTP response it sends, together with the upstream request it builds
    (if any). Express wiring, static files and the catch-all route are not
    modelled. */
module Server {
  import opened Js
  import LlmService

  type Config = LlmService.Config

  /** `req.body` after JSON parsing: `messages` is passed on untouched, so it
      stays an arbitrary value; `config` is absent or a config object. Any
      other field of the body (the client also sends `contentfulQuery`) is
      never read. */
  datatype ChatRequest = ChatRequest(messages: Value, config: Option<Config>)

  const OPENAI_ENDPOINT := "https://api.openai.com/v1/chat/completions"
  const DEFAULT_MODEL := "gpt-3.5-turbo"
  const TEMPERATURE: real := 0.7
  const MAX_TOKENS := 500

  /** The JSON body of the upstream completion request. */
  datatype CompletionBody = CompletionBody(model: string, messages: Value, temperature: real, maxTokens: int)

  /** The upstream `fetch`: always a POST with a JSON body. */
  datatype UpstreamCall = UpstreamCall(url: string, headers: map<string, string>, body: CompletionBody)

  datatype HttpResponse = HttpResponse(status: int, body: Value)

  /** What one request causes: the upstream call made (`None`: none) and the
      response sent to the client. */
  datatype Handled = Handled(call: Option<UpstreamCall>, response: HttpResponse)

  /** `{ error: { message } }`. */
  function ErrorBody(message: string): Value {
    Obj(map["error" := Obj(map["message" := Str(message)])])
  }

  const MissingKey := HttpResponse(400, ErrorBody("API key is required"))
  const ServerError := HttpResponse(500, ErrorBody("Server error processing your request"))

  /** `!config || !config.apiKey`. */
  predicate HasKey(config: Option<Config>) {
    config.Some? && Present(config.value.apiKey)
  }

  /** The request sent upstream once a key is known to be present. */
  function BuildCall(config: Config, messages: Value): (call: UpstreamCall)
    requires Present(config.apiKey)
    ensures call.url == OrDefault(config.apiEndpoint, OPENAI_ENDPOINT)
    ensures call.headers == map["Content-Type" := "application/json",
                                "Authorization" := "Bearer " + config.apiKey.value]
    ensures call.body == CompletionBody(OrDefault(config.model, DEFAULT_MODEL), messages, 0.7, 500)
  {
    UpstreamCall(
      OrDefault(config.apiEndpoint, OPENAI_ENDPOINT),
      map["Content-Type" := "application/json", "Authorization" := "Bearer " + config.apiKey.value],
      CompletionBody(OrDefault(config.model, DEFAULT_MODEL), messages, TEMPERATURE, MAX_TOKENS))
  }

  /** `data.choices[0].message` is an object: the path the handler reads
      leads to an object holding the message's fields. */
  predicate HasChoiceMessage(data: Value) {
    && data.Obj? && "choices" in data.fields
    && data.fields["choices"].Arr? && |data.fields["choices"].items| > 0
    && data.fields["choices"].items[0].Obj? && "message" in data.fields["choices"].items[0].fields
    && data.fields["choices"].items[0].fields["message"].Obj?
  }

  /** The fields of `data.choices[0].message`. */
  function ChoiceMessage(data: Value): map<string, Value>
    requires HasChoiceMessage(data)
  {
    data.fields["choices"].items[0].fields["message"].fields
  }

  /** `data.choices[0].message.content`; `None` is the TypeError thrown when a
      step of the path is `null` or `undefined`. Other keys of the answer at
      any level are ignored. */
  function ReplyContent(data: Value): (r: Option<Value>)
    ensures data.Undefined? || data.Null? ==> r.None?
    ensures data.Obj? && ("choices" !in data.fields || data.fields["choices"] in {Null, Undefined, Arr([])}) ==> r.None?
    ensures data.Obj? && "choices" in data.fields && data.fields["choices"].Arr?
            && |data.fields["choices"].items| > 0 ==>
      var choice := data.fields["choices"].items[0];
      (choice.Null? || choice.Undefined? ||
       (choice.Obj? && ("message" !in choice.fields || choice.fields["message"] in {Null, Undefined}))) ==> r.None?
    ensures HasChoiceMessage(data) ==>
      r == Some(if "content" in ChoiceMessage(data) then ChoiceMessage(data)["content"] else Undefined)
  {
    var choices :- Get(data, "choices");
    var first :- First(choices);
    var message :- Get(first, "message");
    Get(message, "content")
  }

  /** The response built from the upstream outcome (everything after the
      `await fetch`). */
  function Relay(upstream: FetchOutcome): (r: HttpResponse)
    ensures upstream.NetworkError? ==> r == ServerError
    ensures upstream.Response? && upstream.body.Malformed? ==> r == ServerError
    ensures upstream.Response? && !IsOk(upstream.status) && upstream.body.Json? ==>
      r == HttpResponse(upstream.status, upstream.body.value)
    ensures upstream.Response? && IsOk(upstream.status) && upstream.body.Json? ==>
      var content := ReplyContent(upstream.body.value);
      && (content.Some? ==> r == HttpResponse(200, Obj(map["reply" := content.value])))
      && (content.None? ==> r == ServerError)
    ensures r.status == 200 ==> r.body.Obj? && r.body.fields.Keys == {"reply"}
  {
    match upstream
    case NetworkError => ServerError
    case Response(status, body) =>
      match body
      case Malformed => ServerError
      case Json(data) =>
        if !IsOk(status) then HttpResponse(status, data)
        else match ReplyContent(data)
          case None => ServerError
          case Some(content) => HttpResponse(200, Obj(map["reply" := content]))
  }

  /** The `/api/chat` handler. */
  function HandleChat(request: ChatRequest, upstream: FetchOutcome): (h: Handled)
    ensures h.call.None? <==> !HasKey(request.config)
    ensures h.call.None? ==> h.response == MissingKey
    ensures h.call.Some? ==> h.call.value == BuildCall(request.config.value, request.messages)
                             && h.response == Relay(upstream)
  {
    if !HasKey(request.config) then Handled(None, MissingKey)
    else Handled(Some(BuildCall(request.config.value, request.messages)), Relay(upstream))
  }

  // ---------------------------------------------------------------------
  // Properties of the handler

  /** Without a config, or with one whose key is missing or empty, the answer
      is 400 and nothing is sent upstream, whatever the upstream would have
      done. */
  lemma MissingKeyRejected(request: ChatRequest, upstream: FetchOutcome)
    requires request.config.None? || !Present(request.config.value.apiKey)
    ensures HandleChat(request, upstream) == Handled(None, HttpResponse(400, ErrorBody("API key is required")))
  {
  }

  /** The outgoing request: the configured endpoint and model or their
      defaults, the bearer token, the messages exactly as received, and the
      fixed sampling parameters. */
  lemma OutgoingRequest(request: ChatRequest, upstream: FetchOutcome)
    requires HasKey(request.config)
    ensures var c := request.config.value;
      var call := HandleChat(request, upstream).call.value;
      && call.url == (if Present(c.apiEndpoint) then c.apiEndpoint.value else "https://api.openai.com/v1/chat/completions")
      && call.body.model == (if Present(c.model) then c.model.value else "gpt-3.5-turbo")
      && call.headers["Authorization"] == "Bearer " + c.apiKey.value
      && call.body.messages == request.messages
      && call.body.temperature == 0.7 && call.body.maxTokens == 500
  {
  }

  /** An upstream error status and its body are passed through verbatim. */
  lemma UpstreamErrorPassedThrough(request: ChatRequest, status: int, errorData: Value)
    requires HasKey(request.config)
    requires !IsOk(status)
    ensures HandleChat(request, Response(status, Json(errorData))).response == HttpResponse(status, errorData)
  {
  }

  /** An OK upstream answer whose first choice has a message answers 200
      with that message's content and no other field, whatever other keys
      the answer, the choice or the message hold. */
  lemma SuccessExtractsContent(request: ChatRequest, status: int, data: Value)
    requires HasKey(request.config)
    requires IsOk(status)
    requires HasChoiceMessage(data)
    ensures var m := ChoiceMessage(data);
      HandleChat(request, Response(status, Json(data))).response
      == HttpResponse(200, Obj(map["reply" := if "content" in m then m["content"] else Undefined]))
  {
  }

  /** An OK upstream answer with no first choice (a `null` body, no
      `choices`, `choices` null or empty, a first choice that is null or has
      no message) throws inside the handler and ends in the fixed 500. */
  lemma NoChoiceIsServerError(request: ChatRequest, status: int, data: Value)
    requires HasKey(request.config)
    requires IsOk(status)
    requires || data.Null? || data.Undefined?
             || (data.Obj? && ("choices" !in data.fields || data.fields["choices"] in {Null, Undefined, Arr([])}))
             || (data.Obj? && "choices" in data.fields && data.fields["choices"].Arr?
                 && |data.fields["choices"].items| > 0
                 && (data.fields["choices"].items[0] in {Null, Undefined}
                     || (data.fields["choices"].items[0].Obj? && "message" !in data.fields["choices"].items[0].fields)))
    ensures HandleChat(request, Response(status, Json(data))).response
            == HttpResponse(500, ErrorBody("Server error processing your request"))
  {
  }

  /** Every response the handler sends is one of four kinds: 400 for the
      missing key, 500 for an exception, the upstream error status with its
      body, or 200 with the reply only. */
  lemma ResponseKinds(request: ChatRequest, upstream: FetchOutcome)
    ensures var r := HandleChat(request, upstream).response;
      || r == MissingKey
      || r == ServerError
      || (upstream.Response? && !IsOk(upstream.status) && upstream.body.Json?
          && r == HttpResponse(upstream.status, upstream.body.value))
      || (r.status == 200 && r.body.Obj? && r.body.fields.Keys == {"reply"})
  {
  }
}
