/** OpenAIConversationHandler as an object: the transcript and its cursor are
    fields that the methods update in place, the generation settings and the
    system context are fixed at construction.  Each method is proved to move
    the object exactly as the matching function of module Conversation moves
    a State value, and to keep the class invariant. */
module Handler {
  import opened Conversation

  /** The settings passed unchanged to every completion call. */
  datatype GenerationConfig = GenerationConfig(
    model: string,
    temperature: real,
    maxTokens: int,
    topP: real,
    frequencyPenalty: real,
    presencePenalty: real)

  /** What one completion call is given: the settings and the whole current
      transcript, in order. */
  datatype ChatRequest = ChatRequest(config: GenerationConfig, messages: seq<Message>)

  class OpenAIConversationHandler {
    const config: GenerationConfig
    const systemContext: Value
    var messages: seq<Message>
    var messageIndex: int

    /** The object's state as a value. */
    function Snapshot(): State
      reads this
    {
      State(systemContext, messages, messageIndex)
    }

    ghost predicate Valid()
      reads this
    {
      Inv(Snapshot())
    }

    constructor (
      modelName: string,
      systemContext: Value,
      temperature: real := 1.0,
      maxTokens: int := 1024,
      topP: real := 1.0,
      frequencyPenalty: real := 0.0,
      presencePenalty: real := 0.0)
      ensures Valid()
      ensures Snapshot() == Initial(systemContext)
      ensures config == GenerationConfig(modelName, temperature, maxTokens, topP, frequencyPenalty, presencePenalty)
    {
      config := GenerationConfig(modelName, temperature, maxTokens, topP, frequencyPenalty, presencePenalty);
      this.systemContext := systemContext;
      messages := [];
      messageIndex := -1;
      new;
      AddMessage(SystemRole, systemContext);
    }

    /** Discards every turn and reseeds the system message; works from any state. */
    method ClearHistory()
      modifies this
      ensures Valid()
      ensures Snapshot() == Conversation.ClearHistory(old(Snapshot()))
      ensures messages == [Message(SystemRole, systemContext)] && messageIndex == 0
    {
      messages := [];
      messageIndex := -1;
      AddMessage(SystemRole, systemContext);
    }

    /** Appends `{role, content}` without checking either, and advances the cursor. */
    method AddMessage(role: Value, content: Value)
      modifies this
      ensures Snapshot() == Conversation.AddMessage(old(Snapshot()), role, content)
      ensures messages == old(messages) + [Message(role, content)]
      ensures messageIndex == old(messageIndex) + 1
      ensures old(Valid()) ==> Valid()
    {
      messages := messages + [Message(role, content)];
      messageIndex := messageIndex + 1;
    }

    /** Appends a user turn if `userMsg` is exactly a `str`; raises ValueError
        and changes nothing otherwise. */
    method AddMessageFromUser(userMsg: Value) returns (outcome: Outcome)
      requires Valid()
      modifies this
      ensures Valid()
      ensures outcome.Pass? <==> userMsg.Str?
      ensures match Conversation.AddMessageFromUser(old(Snapshot()), userMsg)
              case Ok(next) => outcome == Pass && Snapshot() == next
              case Err(e) => outcome == Raise(e) && Snapshot() == old(Snapshot())
    {
      if !userMsg.Str? {
        outcome := Raise(ValueError("Incorrect message type - expecting string, user_msg is " + TypeRepr(userMsg)));
        return;
      }
      AddMessage(UserRole, userMsg);
      outcome := Pass;
    }

    /** Appends the first candidate's content as an assistant turn; raises
        IndexError and changes nothing when there is no candidate. */
    method AddMessageFromGptResponse(gptResponse: ChatResponse) returns (outcome: Outcome)
      requires Valid()
      modifies this
      ensures Valid()
      ensures outcome.Pass? <==> |gptResponse.choices| > 0
      ensures match Conversation.AddMessageFromGptResponse(old(Snapshot()), gptResponse)
              case Ok(next) => outcome == Pass && Snapshot() == next
              case Err(e) => outcome == Raise(e) && Snapshot() == old(Snapshot())
    {
      if |gptResponse.choices| == 0 {
        outcome := Raise(IndexError(ListIndexOutOfRange));
        return;
      }
      var reply := gptResponse.choices[0];
      AddMessage(AssistantRole, reply);
      outcome := Pass;
    }

    /** Sends the settings and the current transcript to `service`; on a
        response with a candidate appends its reply, otherwise returns the
        line printed for the caught exception and changes nothing.  Never
        raises. */
    method GetChatGptResponse(service: ChatRequest -> ApiOutcome) returns (printed: Option<string>)
      requires Valid()
      modifies this
      ensures Valid()
      ensures var outcome := service(ChatRequest(config, old(messages)));
              var r := Conversation.GetChatGptResponse(old(Snapshot()), outcome);
              Snapshot() == r.state && printed == r.printed
      ensures |messages| == old(|messages|) || messages == old(messages) + [messages[|messages| - 1]]
    {
      var outcome := service(ChatRequest(config, messages));
      match outcome {
        case ApiError(d) =>
          printed := Some(ApiErrorLine(d));
        case OtherError(d) =>
          printed := Some(UnexpectedErrorLine(d));
        case Responded(response) =>
          var raised := AddMessageFromGptResponse(response);
          if raised.Raise? {
            printed := Some(UnexpectedErrorLine(raised.error.msg));
          } else {
            printed := None;
          }
      }
    }

    /** The content of the record at `index` (Python list indexing), by
        default the latest one; IndexError outside the list or outside the
        machine integers.  The lookup
        returns the content as documented: the source reads it as an
        attribute of a dict record (see GetResponseAsWritten). */
    function GetResponse(index: Option<int> := None): (r: Result<Value>)
      reads this
      requires Valid()
      ensures index.None? && FitsIndex(messageIndex) ==> r == Ok(messages[messageIndex].content)
      ensures index == Some(0) ==> r == Ok(systemContext)
      ensures r.Ok? <==> FitsIndex(Resolved(Snapshot(), index)) && (index.None? || -|messages| <= index.value < |messages|)
      ensures r.Ok? && index.Some? && index.value >= 0 ==> r.value == messages[index.value].content
      ensures r.Ok? && index.Some? && index.value < 0 ==> r.value == messages[|messages| + index.value].content
      ensures r.Err? ==> r.error == IndexError(if FitsIndex(Resolved(Snapshot(), index)) then ListIndexOutOfRange else CannotFitIndex)
    {
      Conversation.GetResponse(Snapshot(), index)
    }
  }

  /** A client: what a caller can conclude from the contracts alone. */
  method UserTurnThenReply(ctx: Value, service: ChatRequest -> ApiOutcome)
  {
    var h := new OpenAIConversationHandler("gpt-3.5-turbo", ctx);
    assert h.config.maxTokens == 1024;
    var bad := h.AddMessageFromUser(NonStr("<class 'int'>"));
    assert bad.Raise? && h.messages == [Message(SystemRole, ctx)];
    var ok := h.AddMessageFromUser(Str("Hi"));
    assert h.messages == [Message(SystemRole, ctx), Message(UserRole, Str("Hi"))];
    var before := h.messages;
    var printed := h.GetChatGptResponse(service);
    var outcome := service(ChatRequest(h.config, before));
    if Succeeded(outcome) {
      assert h.messages == before + [Message(AssistantRole, outcome.response.choices[0])];
      assert h.GetResponse() == Ok(outcome.response.choices[0]);
      assert h.messageIndex == 2;
    } else {
      assert h.messages == before && printed.Some?;
    }
    h.ClearHistory();
    assert h.GetResponse() == Ok(ctx) && h.GetResponse(Some(99)).Err?;
  }
}
