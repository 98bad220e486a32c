/** The client-side service of src/lib/llmService.ts: the default
    configuration and the constructor's merge, the `gqlmin` whitespace
    minifier, the formatting of the conversation for the proxy, and the three
    outcomes of `sendMessage` (offline replies without an API key, a fixed
    apology on any failure, the proxy's fields on success). The `fetch` to
    `/api/chat` is an input outcome, not I/O. */
module LlmService {
  import opened Js
  import opened Text
  import opened ChatTypes
  import MockApi

  // ---------------------------------------------------------------------
  // Configuration

  /** `LLMServiceConfig`: every field is optional (`None` = key absent). */
  datatype Config = Config(apiKey: Option<string>, model: Option<string>, apiEndpoint: Option<string>)

  const DEFAULT_MODEL := "gpt-3.5-turbo"
  const OPENAI_ENDPOINT := "https://api.openai.com/v1/chat/completions"

  /** `defaultConfig`: a model and an endpoint, no API key. */
  const DefaultConfig := Config(None, Some(DEFAULT_MODEL), Some(OPENAI_ENDPOINT))

  /** `{}`, the constructor's default argument. */
  const EmptyConfig := Config(None, None, None)

  /** One field of an object spread: a key the later object has wins. */
  function Override(base: Option<string>, over: Option<string>): (r: Option<string>)
    ensures over.Some? ==> r == over
    ensures over.None? ==> r == base
  {
    if over.Some? then over else base
  }

  /** `{ ...base, ...over }`. */
  function Merge(base: Config, over: Config): (r: Config)
    ensures r.apiKey == Override(base.apiKey, over.apiKey)
    ensures r.model == Override(base.model, over.model)
    ensures r.apiEndpoint == Override(base.apiEndpoint, over.apiEndpoint)
  {
    Config(Override(base.apiKey, over.apiKey),
           Override(base.model, over.model),
           Override(base.apiEndpoint, over.apiEndpoint))
  }

  /** What the constructor stores: supplied fields override the defaults,
      the others keep them, and the service never has an API key it was not
      given. */
  lemma ConstructorConfig(supplied: Config)
    ensures var c := Merge(DefaultConfig, supplied);
      && c.apiKey == supplied.apiKey
      && c.model == (if supplied.model.Some? then supplied.model else Some(DEFAULT_MODEL))
      && c.apiEndpoint == (if supplied.apiEndpoint.Some? then supplied.apiEndpoint else Some(OPENAI_ENDPOINT))
      && c.model.Some? && c.apiEndpoint.Some?
  {
  }

  /** Spreading `{}` changes nothing, and spreading twice is spreading once. */
  lemma MergeLaws(a: Config, b: Config, c: Config)
    ensures Merge(a, EmptyConfig) == a && Merge(EmptyConfig, a) == a
    ensures Merge(Merge(a, b), b) == Merge(a, b)
    ensures Merge(Merge(a, b), c) == Merge(a, Merge(b, c))
  {
  }

  // ---------------------------------------------------------------------
  // gqlmin: `query.replace(/\s+/g, ' ').trim()`

  /** The non-whitespace characters of `s`, in order. */
  function NonWs(s: string): string {
    if s == [] then [] else (if IsWs(s[0]) then [] else [s[0]]) + NonWs(s[1..])
  }

  /** Every whitespace character of `s` is a plain space. */
  predicate SpacesOnly(s: string) {
    forall i :: 0 <= i < |s| && IsWs(s[i]) ==> s[i] == ' '
  }

  /** No two neighbouring characters of `s` are both whitespace. */
  predicate NoAdjacentWs(s: string) {
    forall i :: 0 < i < |s| && IsWs(s[i]) ==> !IsWs(s[i - 1])
  }

  /** The shape of a minified query: single spaces between non-whitespace
      characters and nothing at either end. */
  predicate Minified(s: string) {
    SpacesOnly(s) && NoAdjacentWs(s) && (s == [] || (!IsWs(s[0]) && !IsWs(s[|s| - 1])))
  }

  /** `s.replace(/\s+/g, ' ')`: every maximal run of whitespace becomes one
      space (emitted for the last character of the run). */
  function CollapseWs(s: string): (r: string)
    ensures SpacesOnly(r) && NoAdjacentWs(r)
    ensures (r != [] && IsWs(r[0])) <==> (s != [] && IsWs(s[0]))
    ensures NonWs(r) == NonWs(s)
  {
    if s == [] then []
    else if IsWs(s[0]) then
      if |s| > 1 && IsWs(s[1]) then CollapseWs(s[1..]) else [' '] + CollapseWs(s[1..])
    else [s[0]] + CollapseWs(s[1..])
  }

  /** `gqlmin`: the result is minified and keeps every non-whitespace
      character of the query, in order. */
  function Gqlmin(query: string): (g: string)
    ensures Minified(g)
    ensures NonWs(g) == NonWs(query)
  {
    var c := CollapseWs(query);
    TrimMinifies(c);
    TrimKeepsNonWs(c);
    Trim(c)
  }

  lemma {:induction false} NonWsAppend(a: string, b: string)
    ensures NonWs(a + b) == NonWs(a) + NonWs(b)
  {
    if a != [] {
      assert (a + b)[1..] == a[1..] + b;
      NonWsAppend(a[1..], b);
    } else {
      assert a + b == b;
    }
  }

  lemma {:induction false} NonWsOfBlank(s: string)
    requires AllWs(s)
    ensures NonWs(s) == []
  {
    if s != [] {
      NonWsOfBlank(s[1..]);
    }
  }

  lemma DropBlankPrefix(a: string, b: string)
    requires AllWs(a)
    ensures NonWs(a + b) == NonWs(b)
  {
    NonWsAppend(a, b);
    NonWsOfBlank(a);
  }

  lemma DropBlankSuffix(a: string, b: string)
    requires AllWs(b)
    ensures NonWs(a + b) == NonWs(a)
  {
    NonWsAppend(a, b);
    NonWsOfBlank(b);
  }

  lemma TrimStartKeepsNonWs(s: string)
    ensures NonWs(TrimStart(s)) == NonWs(s)
  {
  }

  lemma TrimEndKeepsNonWs(t: string)
    ensures NonWs(TrimEnd(t)) == NonWs(t)
  {
    var u := TrimEnd(t);
    assert u + t[|u|..] == t;
    DropBlankSuffix(u, t[|u|..]);
  }

  /** Trimming drops whitespace only. */
  lemma TrimKeepsNonWs(s: string)
    ensures NonWs(Trim(s)) == NonWs(s)
  {
    TrimStartKeepsNonWs(s);
    TrimEndKeepsNonWs(TrimStart(s));
  }

  /** A slice of a string with single spaces only has single spaces only. */
  lemma SliceKeepsSpacing(s: string, i: int, j: int)
    requires 0 <= i <= j <= |s|
    requires SpacesOnly(s) && NoAdjacentWs(s)
    ensures SpacesOnly(s[i..j]) && NoAdjacentWs(s[i..j])
  {
  }

  /** Trimming a string whose whitespace is single spaces minifies it. */
  lemma TrimMinifies(c: string)
    requires SpacesOnly(c) && NoAdjacentWs(c)
    ensures Minified(Trim(c))
  {
    var t := TrimStart(c);
    SliceKeepsSpacing(c, |c| - |t|, |c|);
    var u := TrimEnd(t);
    SliceKeepsSpacing(t, 0, |u|);
  }

  lemma {:induction false} CollapseFixesMinified(s: string)
    requires SpacesOnly(s) && NoAdjacentWs(s)
    ensures CollapseWs(s) == s
  {
    if s != [] {
      var t := s[1..];
      assert SpacesOnly(t) && NoAdjacentWs(t) by {
        assert forall i :: 0 <= i < |t| ==> t[i] == s[i + 1];
      }
      CollapseFixesMinified(t);
      if IsWs(s[0]) && |s| > 1 {
        assert !IsWs(s[1]);
      }
    }
  }

  /** `gqlmin` leaves a string alone exactly when it is already minified. */
  lemma GqlminFixedPoints(s: string)
    ensures Gqlmin(s) == s <==> Minified(s)
  {
    if Minified(s) {
      CollapseFixesMinified(s);
    }
  }

  /** Minifying twice is minifying once. */
  lemma GqlminIdempotent(query: string)
    ensures Gqlmin(Gqlmin(query)) == Gqlmin(query)
  {
    GqlminFixedPoints(Gqlmin(query));
  }

  /** Collapsing works piece by piece once a piece ends in a character
      that is not whitespace. */
  lemma {:induction false} CollapseSplits(a: string, t: string)
    requires a == [] || !IsWs(a[|a| - 1])
    ensures CollapseWs(a + t) == CollapseWs(a) + CollapseWs(t)
  {
    if a == [] {
      assert a + t == t;
    } else {
      assert (a + t)[1..] == a[1..] + t;
      if |a| > 1 {
        CollapseSplits(a[1..], t);
        assert (a + t)[1] == a[1];
      }
    }
  }

  /** A whitespace run followed by a non-whitespace character (or by the
      end) collapses to one space. */
  lemma {:induction false} CollapseRun(w: string, b: string)
    requires AllWs(w) && w != []
    requires b == [] || !IsWs(b[0])
    ensures CollapseWs(w + b) == [' '] + CollapseWs(b)
  {
    assert (w + b)[1..] == w[1..] + b;
    if |w| > 1 {
      assert (w + b)[1] == w[1];
      CollapseRun(w[1..], b);
    } else {
      assert w[1..] + b == b;
    }
  }

  /** Whatever whitespace separates two tokens, `replace(/\s+/g, ' ')` leaves
      exactly one space between them: characters are never merged across a
      run, and the run is never kept whole. */
  lemma CollapseSeparates(a: string, w: string, b: string)
    requires AllWs(w) && w != []
    requires a == [] || !IsWs(a[|a| - 1])
    requires b == [] || !IsWs(b[0])
    ensures CollapseWs(a + w + b) == CollapseWs(a) + [' '] + CollapseWs(b)
  {
    assert a + w + b == a + (w + b);
    CollapseSplits(a, w + b);
    CollapseRun(w, b);
  }

  /** Two minified pieces separated by any non-empty whitespace run minify
      to the pieces joined by a single space. */
  lemma GqlminJoinsWithOneSpace(a: string, w: string, b: string)
    requires Minified(a) && Minified(b) && a != [] && b != []
    requires AllWs(w) && w != []
    ensures Gqlmin(a + w + b) == a + " " + b
  {
    CollapseSeparates(a, w, b);
    CollapseFixesMinified(a);
    CollapseFixesMinified(b);
    var j := a + " " + b;
    assert j[0] == a[0] && j[|j| - 1] == b[|b| - 1];
  }

  // ---------------------------------------------------------------------
  // The conversation sent to the proxy

  datatype Role = UserRole | AssistantRole

  /** `{ role, content }` as posted to the proxy. */
  datatype WireMessage = WireMessage(role: Role, content: Value)

  /** `msg.sender === 'user' ? 'user' : 'assistant'`. */
  function RoleOf(sender: Sender): (r: Role)
    ensures r == UserRole <==> sender == User
  {
    if sender == User then UserRole else AssistantRole
  }

  function ToWire(m: Message): WireMessage {
    WireMessage(RoleOf(m.sender), m.text)
  }

  /** `conversationHistory.map(...)`. */
  function HistoryToWire(history: seq<Message>): (ms: seq<WireMessage>)
    ensures |ms| == |history|
    ensures forall i :: 0 <= i < |history| ==> ms[i] == ToWire(history[i])
  {
    seq(|history|, i requires 0 <= i < |history| => ToWire(history[i]))
  }

  /** `[...history.map(...), { role: 'user', content: message }]`. */
  function FormatHistory(history: seq<Message>, message: string): (ms: seq<WireMessage>)
    ensures |ms| == |history| + 1
    ensures ms[..|history|] == HistoryToWire(history)
    ensures ms[|history|] == WireMessage(UserRole, Str(message))
  {
    HistoryToWire(history) + [WireMessage(UserRole, Str(message))]
  }

  /** The mapping is element-wise, so it follows the history as it grows:
      the turns of a longer history are formatted as before, in order, and
      the new turns after them. */
  lemma HistoryToWireAppend(a: seq<Message>, b: seq<Message>)
    ensures HistoryToWire(a + b) == HistoryToWire(a) + HistoryToWire(b)
  {
  }

  // ---------------------------------------------------------------------
  // sendMessage

  /** The promised result `{ reply, zalandoData?, contentfulData? }`; an
      absent field is `undefined`. */
  datatype ServiceReply = ServiceReply(reply: Value, zalandoData: Value, contentfulData: Value)

  const APOLOGY := "I'm having trouble connecting to my brain right now. Please try again later."

  /** The reply of the `catch` block. */
  const Apology := ServiceReply(Str(APOLOGY), Undefined, Undefined)

  /** The JSON body posted to `/api/chat`: the formatted conversation and the
      merged configuration. */
  datatype ProxyBody = ProxyBody(messages: seq<WireMessage>, config: Config)

  /** What one call of `sendMessage` does: the body it posts (`None`: no
      fetch at all) and the reply it resolves to. */
  datatype Exchange = Exchange(sent: Option<ProxyBody>, reply: ServiceReply)

  /** The offline path: `mockChatResponse(message)` resolves to `{ reply }`,
      a string reply with no data fields. */
  function MockReply(message: string, random: real): (r: ServiceReply)
    requires 0.0 <= random < 1.0
    ensures r.reply.Str?
    ensures r.zalandoData == Undefined && r.contentfulData == Undefined
  {
    ServiceReply(Str(MockApi.MockChatResponse(message, random)), Undefined, Undefined)
  }

  /** The offline reply is one of the canned replies of the message's
      category. */
  lemma MockReplyIsCanned(message: string, random: real)
    requires 0.0 <= random < 1.0
    ensures MockReply(message, random).reply.s in MockApi.MockResponses[MockApi.ResponseCategory(message)]
  {
  }

  /** The part of the `try` block after the fetch: any non-OK status, any body
      that does not parse, and a body `null` all end in the `catch`. */
  function ReplyFromProxy(outcome: FetchOutcome): (r: ServiceReply)
    ensures outcome.NetworkError? ==> r == Apology
    ensures outcome.Response? && !IsOk(outcome.status) ==> r == Apology
    ensures outcome.Response? && outcome.body.Malformed? ==> r == Apology
    ensures outcome.Response? && outcome.body.Json? && IsOk(outcome.status) && outcome.body.value.Obj? ==>
      var fields := outcome.body.value.fields;
      && (r.reply == if "reply" in fields then fields["reply"] else Undefined)
      && (r.zalandoData == if "zalandoData" in fields then fields["zalandoData"] else Undefined)
      && (r.contentfulData == if "contentfulData" in fields then fields["contentfulData"] else Undefined)
  {
    match outcome
    case NetworkError => Apology
    case Response(status, body) =>
      if !IsOk(status) then Apology
      else match body
        case Malformed => Apology
        case Json(data) =>
          match Get(data, "reply")
          case None => Apology
          case Some(reply) =>
            ServiceReply(reply, Get(data, "zalandoData").value, Get(data, "contentfulData").value)
  }

  /** `sendMessage(message, conversationHistory)` as a function of the stored
      configuration, the proxy's outcome and the random number used by the
      offline path. */
  function SendMessageResult(config: Config, message: string, history: seq<Message>,
                             transport: FetchOutcome, random: real): (x: Exchange)
    requires 0.0 <= random < 1.0
    ensures !Present(config.apiKey) ==> x.sent == None && x.reply == MockReply(message, random)
    ensures Present(config.apiKey) ==>
      x.sent == Some(ProxyBody(FormatHistory(history, message), config)) && x.reply == ReplyFromProxy(transport)
  {
    if !Present(config.apiKey) then Exchange(None, MockReply(message, random))
    else Exchange(Some(ProxyBody(FormatHistory(history, message), config)), ReplyFromProxy(transport))
  }

  /** Without an API key nothing is fetched and whatever the proxy would have
      answered is irrelevant. */
  lemma NoKeyNoFetch(config: Config, message: string, history: seq<Message>,
                     t1: FetchOutcome, t2: FetchOutcome, random: real)
    requires 0.0 <= random < 1.0
    requires !Present(config.apiKey)
    ensures SendMessageResult(config, message, history, t1, random).sent.None?
    ensures SendMessageResult(config, message, history, t1, random) == SendMessageResult(config, message, history, t2, random)
  {
  }

  /** The posted conversation is the history, in order, with the new user turn
      last. */
  lemma PostedConversation(config: Config, message: string, history: seq<Message>,
                           transport: FetchOutcome, random: real, i: int)
    requires 0.0 <= random < 1.0
    requires Present(config.apiKey)
    requires 0 <= i < |history|
    ensures var ms := SendMessageResult(config, message, history, transport, random).sent.value.messages;
      && |ms| == |history| + 1
      && ms[i].content == history[i].text
      && (ms[i].role == UserRole <==> history[i].sender == User)
      && ms[|history|] == WireMessage(UserRole, Str(message))
  {
  }

  /** Every failure reads the same to the caller: the apology and no data. */
  lemma FailuresGiveApology(config: Config, message: string, history: seq<Message>,
                            transport: FetchOutcome, random: real)
    requires 0.0 <= random < 1.0
    requires Present(config.apiKey)
    requires transport.NetworkError? || !IsOk(transport.status) || transport.body.Malformed?
             || transport.body.value.Null? || transport.body.value.Undefined?
    ensures SendMessageResult(config, message, history, transport, random).reply == Apology
  {
  }

  /** The stateful service: the constructor stores the merged configuration,
      which `sendMessage` reads. */
  class LLMService {
    const config: Config

    constructor(supplied: Config)
      ensures config == Merge(DefaultConfig, supplied)
    {
      config := Merge(DefaultConfig, supplied);
    }

    method SendMessage(message: string, history: seq<Message>, transport: FetchOutcome, random: real)
      returns (sent: Option<ProxyBody>, reply: ServiceReply)
      requires 0.0 <= random < 1.0
      ensures Exchange(sent, reply) == SendMessageResult(config, message, history, transport, random)
    {
      if !Present(config.apiKey) {
        var text := MockApi.MockChatResponse(message, random);
        return None, ServiceReply(Str(text), Undefined, Undefined);
      }
      var messages := HistoryToWire(history) + [WireMessage(UserRole, Str(message))];
      sent := Some(ProxyBody(messages, config));
      reply := Apology;
      if transport.NetworkError? || !IsOk(transport.status) || transport.body.Malformed? {
        return;
      }
      var data := transport.body.value;
      if data.Undefined? || data.Null? {
        return;
      }
      reply := ServiceReply(Get(data, "reply").value, Get(data, "zalandoData").value,
                            Get(data, "contentfulData").value);
    }
  }
}
