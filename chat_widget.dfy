/** The state of the chat widget of src/components/ChatWidget/ChatWidget.tsx
    and the transitions its handlers make: toggling and closing the panel, the
    welcome-message effect, and sending a message, which is split at its
    `await` into the part before the service call and the part after it.
    Rendering is not modelled. */
module ChatWidget {
  import opened Js
  import opened Text
  import opened ChatTypes
  import LlmService

  /** The default of the `welcomeMessage` prop. The source file spells the
      waving-hand emoji as the four characters U+00F0 U+0178 U+2018 U+2039
      (its UTF-8 bytes decoded as Windows-1252), so that is what the default
      string holds. */
  const DEFAULT_WELCOME := "Hi there! \U{00F0}\U{0178}\U{2018}\U{2039} How can I help you today?"

  const EMPTY_REPLY_TEXT := "Sorry, I couldn't process that request."
  const ERROR_TEXT := "Sorry, there was an error processing your request."

  /** How `await chatService.sendMessage(...)` ends: with a value or by
      throwing. */
  datatype ServiceOutcome = Returned(data: LlmService.ServiceReply) | Threw

  /** The text of the bot message appended once the service call is over:
      the reply if it is truthy, a fixed apology if it is not, another fixed
      apology if the call threw. */
  function BotText(outcome: ServiceOutcome): (text: Value)
    ensures Truthy(text)
    ensures outcome.Returned? && Truthy(outcome.data.reply) ==> text == outcome.data.reply
    ensures outcome.Returned? && !Truthy(outcome.data.reply) ==> text == Str(EMPTY_REPLY_TEXT)
    ensures outcome.Threw? ==> text == Str(ERROR_TEXT)
  {
    match outcome
    case Returned(data) => OrElse(data.reply, Str(EMPTY_REPLY_TEXT))
    case Threw => Str(ERROR_TEXT)
  }

  /** `if (x) setX(x)`: a truthy new value replaces the old one. */
  function KeepUnlessTruthy(previous: Value, incoming: Value): (r: Value)
    ensures Truthy(incoming) ==> r == incoming
    ensures !Truthy(incoming) ==> r == previous
  {
    if Truthy(incoming) then incoming else previous
  }

  class ChatWidget {
    const welcomeMessage: string
    /** `llmService || defaultLLMService`. */
    const service: LlmService.LLMService

    var isOpen: bool
    var messages: seq<Message>
    var isLoading: bool
    var zalandoData: Value
    var contentfulData: Value

    /** While a reply is pending the transcript ends with the user's turn. */
    ghost predicate Valid()
      reads this
    {
      isLoading ==> |messages| > 0 && messages[|messages| - 1].sender == User
    }

    /** The initial state of the `useState` hooks. An omitted welcome
        message takes the default; without a service the widget uses one
        built from the default configuration. */
    constructor(welcomeMessage: Option<string>, llmService: LlmService.LLMService?)
      ensures Valid()
      ensures welcomeMessage.Some? ==> this.welcomeMessage == welcomeMessage.value
      ensures welcomeMessage.None? ==> this.welcomeMessage == DEFAULT_WELCOME
      ensures llmService != null ==> service == llmService
      ensures llmService == null ==> service.config == LlmService.DefaultConfig
      ensures !isOpen && messages == [] && !isLoading
      ensures zalandoData == Null && contentfulData == Null
    {
      this.welcomeMessage := if welcomeMessage.Some? then welcomeMessage.value else DEFAULT_WELCOME;
      if llmService != null {
        service := llmService;
      } else {
        service := new LlmService.LLMService(LlmService.EmptyConfig);
      }
      isOpen := false;
      messages := [];
      isLoading := false;
      zalandoData := Null;
      contentfulData := Null;
    }

    /** `toggleChat`: flips the panel and nothing else. */
    method ToggleChat()
      requires Valid()
      modifies this`isOpen
      ensures Valid()
      ensures isOpen == !old(isOpen)
    {
      isOpen := !isOpen;
    }

    /** The header's close button: `setIsOpen(false)`. */
    method Close()
      requires Valid()
      modifies this`isOpen
      ensures Valid()
      ensures !isOpen
    {
      isOpen := false;
    }

    /** The welcome effect: an open widget with an empty transcript shows the
        welcome message as its only message; otherwise nothing changes. */
    method WelcomeEffect(now: int)
      requires Valid()
      modifies this`messages
      ensures Valid()
      ensures old(isOpen) && old(messages) == [] ==>
        messages == [Message("1", Str(welcomeMessage), Bot, now)]
      ensures !(old(isOpen) && old(messages) == []) ==> messages == old(messages)
    {
      if isOpen && |messages| == 0 {
        messages := [Message("1", Str(welcomeMessage), Bot, now)];
      }
    }

    /** `handleSendMessage` up to its `await`: blank text is ignored;
        otherwise the user's message is appended and loading starts. The
        returned history, which goes to the service, is the transcript as it
        was before the new message. */
    method BeginSend(text: string, id: string, now: int) returns (started: bool, history: seq<Message>)
      requires Valid()
      modifies this`messages, this`isLoading
      ensures Valid()
      ensures started <==> !AllWs(text)
      ensures !started ==> messages == old(messages) && isLoading == old(isLoading)
      ensures started ==> history == old(messages)
                          && messages == old(messages) + [Message(id, Str(text), User, now)]
                          && isLoading
    {
      BlankIffAllWhitespace(text);
      if IsBlank(text) {
        return false, [];
      }
      history := messages;
      messages := messages + [Message(id, Str(text), User, now)];
      isLoading := true;
      started := true;
    }

    /** `handleSendMessage` after its `await`: whatever the outcome, one bot
        message is appended to the transcript as it now is and loading ends;
        the data fields are replaced only by truthy values. */
    method FinishSend(outcome: ServiceOutcome, id: string, now: int)
      requires Valid()
      modifies this`messages, this`isLoading, this`zalandoData, this`contentfulData
      ensures Valid()
      ensures messages == old(messages) + [Message(id, BotText(outcome), Bot, now)]
      ensures old(isLoading) ==> messages[|messages| - 2].sender == User
      ensures !isLoading
      ensures outcome.Returned? ==>
        && zalandoData == KeepUnlessTruthy(old(zalandoData), outcome.data.zalandoData)
        && contentfulData == KeepUnlessTruthy(old(contentfulData), outcome.data.contentfulData)
      ensures outcome.Threw? ==> zalandoData == old(zalandoData) && contentfulData == old(contentfulData)
    {
      if outcome.Returned? {
        if Truthy(outcome.data.zalandoData) {
          zalandoData := outcome.data.zalandoData;
        }
        if Truthy(outcome.data.contentfulData) {
          contentfulData := outcome.data.contentfulData;
        }
      }
      messages := messages + [Message(id, BotText(outcome), Bot, now)];
      isLoading := false;
    }

    /** A whole send with the widget's own service: a non-blank text adds
        exactly two messages, the user's and then the bot's, the service sees
        the transcript from before the send, and loading is over at the end. */
    method HandleSendMessage(text: string, userId: string, botId: string, sentAt: int, repliedAt: int,
                             transport: FetchOutcome, random: real)
      requires Valid()
      requires 0.0 <= random < 1.0
      modifies this`messages, this`isLoading, this`zalandoData, this`contentfulData
      ensures Valid()
      ensures AllWs(text) ==>
        && messages == old(messages) && isLoading == old(isLoading)
        && zalandoData == old(zalandoData) && contentfulData == old(contentfulData)
      ensures !AllWs(text) ==>
        var data := LlmService.SendMessageResult(service.config, text, old(messages), transport, random).reply;
        && messages == old(messages) + [Message(userId, Str(text), User, sentAt)]
                                     + [Message(botId, BotText(Returned(data)), Bot, repliedAt)]
        && !isLoading
        && zalandoData == KeepUnlessTruthy(old(zalandoData), data.zalandoData)
        && contentfulData == KeepUnlessTruthy(old(contentfulData), data.contentfulData)
    {
      var started, history := BeginSend(text, userId, sentAt);
      if started {
        var sent, reply := service.SendMessage(text, history, transport, random);
        FinishSend(Returned(reply), botId, repliedAt);
      }
    }
  }
}
