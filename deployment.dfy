/** The client service and the proxy put together: the body the service
    posts to `/api/chat` is what the handler reads, and the handler's
    response is what the service's `fetch` resolves to. */
module Deployment {
  import opened Js
  import opened ChatTypes
  import opened LlmService
  import Server
  import ChatWidget

  function EncodeRole(role: Role): Value {
    match role
    case UserRole => Str("user")
    case AssistantRole => Str("assistant")
  }

  /** `JSON.stringify` of one `{ role, content }` entry, as parsed again by the
      proxy. */
  function EncodeMessage(m: WireMessage): Value {
    Obj(map["role" := EncodeRole(m.role), "content" := m.content])
  }

  function EncodeMessages(ms: seq<WireMessage>): (v: Value)
    ensures v.Arr? && |v.items| == |ms|
    ensures forall i :: 0 <= i < |ms| ==> v.items[i] == EncodeMessage(ms[i])
  {
    Arr(seq(|ms|, i requires 0 <= i < |ms| => EncodeMessage(ms[i])))
  }

  /** The body of the service's POST, as the proxy receives it. */
  function ToRequest(body: ProxyBody): Server.ChatRequest {
    Server.ChatRequest(EncodeMessages(body.messages), Some(body.config))
  }

  /** The proxy's response, as the service's `fetch` sees it. */
  function ToOutcome(r: Server.HttpResponse): FetchOutcome {
    Response(r.status, Json(r.body))
  }

  /** One exchange through the proxy, with a key. The model sees the formatted
      conversation, the configured or default model is used, and the client
      gets either the apology or the first choice's content; in both cases
      the data fields are `undefined`, so the widget keeps its previous
      values. */
  lemma ThroughProxy(config: Config, message: string, history: seq<Message>,
                     upstream: FetchOutcome, random: real)
    requires 0.0 <= random < 1.0
    requires Present(config.apiKey)
    ensures var body := SendMessageResult(config, message, history, NetworkError, random).sent.value;
      var h := Server.HandleChat(ToRequest(body), upstream);
      var reply := SendMessageResult(config, message, history, ToOutcome(h.response), random).reply;
      && h.call.Some?
      && h.call.value.body.messages == EncodeMessages(FormatHistory(history, message))
      && h.call.value.body.model == OrDefault(config.model, DEFAULT_MODEL)
      && h.call.value.headers["Authorization"] == "Bearer " + config.apiKey.value
      && reply.zalandoData == Undefined && reply.contentfulData == Undefined
      && (h.response.status == 200 ==> reply == ServiceReply(h.response.body.fields["reply"], Undefined, Undefined))
      && (h.response.status != 200 ==> reply == Apology)
  {
  }

  /** With this proxy the service never returns `zalandoData` or
      `contentfulData`, with or without a key. */
  lemma DataFieldsNeverSet(config: Config, message: string, history: seq<Message>,
                           upstream: FetchOutcome, random: real)
    requires 0.0 <= random < 1.0
    ensures var x := SendMessageResult(config, message, history, NetworkError, random);
      var outcome := if x.sent.Some? then ToOutcome(Server.HandleChat(ToRequest(x.sent.value), upstream).response)
                     else NetworkError;
      var reply := SendMessageResult(config, message, history, outcome, random).reply;
      reply.zalandoData == Undefined && reply.contentfulData == Undefined
  {
  }

  /** The outcome the service's `fetch` sees when it talks to this proxy. */
  function ProxyOutcome(config: Config, message: string, history: seq<Message>,
                        upstream: FetchOutcome, random: real): (o: FetchOutcome)
    requires 0.0 <= random < 1.0
    ensures !Present(config.apiKey) ==> o == NetworkError
  {
    var x := SendMessageResult(config, message, history, NetworkError, random);
    if x.sent.Some? then ToOutcome(Server.HandleChat(ToRequest(x.sent.value), upstream).response)
    else NetworkError
  }

  /** So the widget's `if (response.zalandoData)` and
      `if (response.contentfulData)` never fire: whatever the widget held
      before, it still holds after a reply through this proxy. */
  lemma WidgetDataKept(config: Config, message: string, history: seq<Message>,
                       upstream: FetchOutcome, random: real, zalando: Value, contentful: Value)
    requires 0.0 <= random < 1.0
    ensures var reply := SendMessageResult(config, message, history,
                                           ProxyOutcome(config, message, history, upstream, random), random).reply;
      && ChatWidget.KeepUnlessTruthy(zalando, reply.zalandoData) == zalando
      && ChatWidget.KeepUnlessTruthy(contentful, reply.contentfulData) == contentful
  {
    DataFieldsNeverSet(config, message, history, upstream, random);
  }

  /** A whole send of a widget whose service talks to this proxy: the data
      fields keep their values, so a widget that starts with `null` keeps
      `null` for ever. */
  method SendThroughProxy(w: ChatWidget.ChatWidget, text: string, userId: string, botId: string,
                          sentAt: int, repliedAt: int, upstream: FetchOutcome, random: real)
    requires w.Valid()
    requires 0.0 <= random < 1.0
    modifies w`messages, w`isLoading, w`zalandoData, w`contentfulData
    ensures w.Valid()
    ensures w.zalandoData == old(w.zalandoData) && w.contentfulData == old(w.contentfulData)
  {
    var outcome := ProxyOutcome(w.service.config, text, w.messages, upstream, random);
    WidgetDataKept(w.service.config, text, w.messages, upstream, random, w.zalandoData, w.contentfulData);
    w.HandleSendMessage(text, userId, botId, sentAt, repliedAt, outcome, random);
  }
}
