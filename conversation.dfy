/** The conversation transcript kept by OpenAIConversationHandler, as values.

    Every operation of the handler is a function from the handler's state (its
    system context, its list of `{role, content}` records and its cursor
    `message_index`) to the new state, or to the exception it raises.  The class
    in module Handler updates its fields in place and is proved to follow these
    functions; the lemmas here state what the operations promise, alone and in
    any sequence.
 */
module Conversation {

  datatype Option<+T> = None | Some(value: T)

  /** A Python value as the handler sees it: an object whose type is exactly
      `str`, an instance of a subclass of `str`, or an object of another type.
      `typeRepr` is how Python prints the object's type: `<class 'int'>` for
      most types, `<enum 'Color'>` for an enumeration. */
  datatype Value =
    | Str(text: string)
    | StrSubclass(typeRepr: string, text: string)
    | NonStr(typeRepr: string)

  /** One transcript record, the dict `{"role": role, "content": content}`.
      Neither field is checked when a record is built, so either may hold a
      value of any type. */
  datatype Message = Message(role: Value, content: Value)

  /** The Python exceptions that leave the core, with their message text. */
  datatype PyError =
    | ValueError(msg: string)
    | IndexError(msg: string)
    | AttributeError(msg: string)

  /** The result of an operation that returns a value or raises. */
  datatype Result<+T> = Ok(value: T) | Err(error: PyError)

  /** The result of an operation that returns None or raises. */
  datatype Outcome = Pass | Raise(error: PyError)

  const SystemRole: Value := Str("system")
  const UserRole: Value := Str("user")
  const AssistantRole: Value := Str("assistant")

  /** What `list[i]` raises for an index outside the list. */
  const ListIndexOutOfRange: string := "list index out of range"

  /** What `list[i]` raises for an index outside the machine-size integers. */
  const CannotFitIndex: string := "cannot fit 'int' into an index-sized integer"

  /** What reading `.content` off a dict record raises. */
  const DictHasNoContent: string := "'dict' object has no attribute 'content'"

  /** The response object of a chat completion: the content of each candidate
      reply (`choices[k].message.content`), in order. */
  datatype ChatResponse = ChatResponse(choices: seq<Value>)

  /** What the completion call does: it returns a response, raises
      `openai.error.APIError`, or raises any other exception.  `description`
      is the exception's `str`. */
  datatype ApiOutcome =
    | Responded(response: ChatResponse)
    | ApiError(description: string)
    | OtherError(description: string)

  /** The handler's mutable state. */
  datatype State = State(systemContext: Value, messages: seq<Message>, messageIndex: int)

  /** The class invariant: the transcript starts with the system message built
      from the stored system context, and the cursor names its last record. */
  predicate Inv(s: State)
  {
    && |s.messages| >= 1
    && s.messages[0] == Message(SystemRole, s.systemContext)
    && s.messageIndex == |s.messages| - 1
  }

  /** `add_message`: appends one record, whatever the role and content, and
      advances the cursor. */
  function AddMessage(s: State, role: Value, content: Value): (r: State)
    ensures r.systemContext == s.systemContext
    ensures |r.messages| == |s.messages| + 1
    ensures r.messages[..|s.messages|] == s.messages
    ensures r.messages[|s.messages|] == Message(role, content)
    ensures r.messageIndex == s.messageIndex + 1
    ensures s.messageIndex == |s.messages| - 1 ==> r.messageIndex == |r.messages| - 1
  {
    State(s.systemContext, s.messages + [Message(role, content)], s.messageIndex + 1)
  }

  /** `__init__`: an empty transcript with cursor -1, then the system message. */
  function Initial(systemContext: Value): (s: State)
    ensures Inv(s)
    ensures s.systemContext == systemContext
    ensures s.messages == [Message(SystemRole, systemContext)]
    ensures s.messageIndex == 0
  {
    AddMessage(State(systemContext, [], -1), SystemRole, systemContext)
  }

  /** `clear_history`: discards every record and reseeds the system message
      from the stored system context. */
  function ClearHistory(s: State): (r: State)
    ensures Inv(r)
    ensures r == Initial(s.systemContext)
    ensures r.messages == [Message(SystemRole, s.systemContext)] && r.messageIndex == 0
  {
    AddMessage(s.(messages := [], messageIndex := -1), SystemRole, s.systemContext)
  }

  /** How Python prints `type(v)`. */
  function TypeRepr(v: Value): string
  {
    match v
    case Str(_) => "<class 'str'>"
    case StrSubclass(printed, _) => printed
    case NonStr(printed) => printed
  }

  /** `add_message_from_user`: only a value whose type is exactly `str` is
      appended, with role 'user'; anything else raises ValueError before the
      transcript is touched. */
  function AddMessageFromUser(s: State, userMsg: Value): (r: Result<State>)
    ensures r.Ok? <==> userMsg.Str?
    ensures r.Ok? ==> r.value == AddMessage(s, UserRole, userMsg)
    ensures r.Err? ==> r.error.ValueError?
  {
    if !userMsg.Str? then
      Err(ValueError("Incorrect message type - expecting string, user_msg is " + TypeRepr(userMsg)))
    else
      Ok(AddMessage(s, UserRole, userMsg))
  }

  /** `add_message_from_gpt_response`: appends the first candidate's content
      with role 'assistant', unchecked; with no candidate, `choices[0]` raises
      IndexError before the transcript is touched. */
  function AddMessageFromGptResponse(s: State, response: ChatResponse): (r: Result<State>)
    ensures r.Ok? <==> |response.choices| > 0
    ensures r.Ok? ==> r.value == AddMessage(s, AssistantRole, response.choices[0])
    ensures r.Err? ==> r.error == IndexError(ListIndexOutOfRange)
  {
    if |response.choices| == 0 then Err(IndexError(ListIndexOutOfRange))
    else Ok(AddMessage(s, AssistantRole, response.choices[0]))
  }

  /** The line `get_chatgpt_response` prints for a caught `openai.error.APIError`. */
  function ApiErrorLine(description: string): string
  {
    "An OpenAI error occurred: " + description
  }

  /** The line `get_chatgpt_response` prints for any other caught exception. */
  function UnexpectedErrorLine(description: string): string
  {
    "An unexpected error occurred: " + description
  }

  /** The state after `get_chatgpt_response` and the line it printed, if any. */
  datatype Logged = Logged(state: State, printed: Option<string>)

  /** `get_chatgpt_response`, given what the completion call did: a usable
      response appends one assistant message; an API error, any other error,
      and a response without candidates are caught, printed and leave the
      state as it was.  Nothing is raised. */
  function GetChatGptResponse(s: State, outcome: ApiOutcome): (r: Logged)
    ensures Succeeded(outcome) ==> r.state == AddMessage(s, AssistantRole, outcome.response.choices[0])
    ensures Succeeded(outcome) <==> r.printed == None
    ensures !Succeeded(outcome) ==> r.state == s
    ensures outcome.ApiError? ==> r.printed == Some(ApiErrorLine(outcome.description))
    ensures outcome.OtherError? ==> r.printed == Some(UnexpectedErrorLine(outcome.description))
    ensures outcome.Responded? && !Succeeded(outcome) ==> r.printed == Some(UnexpectedErrorLine(ListIndexOutOfRange))
  {
    match outcome
    case ApiError(d) => Logged(s, Some(ApiErrorLine(d)))
    case OtherError(d) => Logged(s, Some(UnexpectedErrorLine(d)))
    case Responded(response) =>
      match AddMessageFromGptResponse(s, response)
      case Ok(next) => Logged(next, None)
      case Err(e) => Logged(s, Some(UnexpectedErrorLine(e.msg)))
  }

  /** The completion call returned a response with at least one candidate. */
  predicate Succeeded(outcome: ApiOutcome)
  {
    outcome.Responded? && |outcome.response.choices| > 0
  }

  /** Python's `list[i]`: a negative index counts from the end. */
  predicate InList<T>(xs: seq<T>, i: int)
  {
    -|xs| <= i < |xs|
  }

  /** `list[i]` first converts `i` to a signed 64-bit machine integer. */
  predicate FitsIndex(i: int)
  {
    -0x8000_0000_0000_0000 <= i < 0x8000_0000_0000_0000
  }

  /** Python's `list[i]`: the position it reads in `xs`, or the IndexError it
      raises; the conversion to a machine integer comes before the range
      check. */
  function Subscript<T>(xs: seq<T>, i: int): (r: Result<nat>)
    ensures r.Ok? <==> FitsIndex(i) && InList(xs, i)
    ensures r.Ok? && i >= 0 ==> r.value == i
    ensures r.Ok? && i < 0 ==> r.value == |xs| + i
    ensures r.Ok? ==> r.value < |xs|
    ensures !FitsIndex(i) ==> r == Err(IndexError(CannotFitIndex))
    ensures FitsIndex(i) && !InList(xs, i) ==> r == Err(IndexError(ListIndexOutOfRange))
  {
    if !FitsIndex(i) then Err(IndexError(CannotFitIndex))
    else if !InList(xs, i) then Err(IndexError(ListIndexOutOfRange))
    else if i < 0 then Ok(|xs| + i)
    else Ok(i)
  }

  /** The index `get_response` looks up: the given one, or `message_index`. */
  function Resolved(s: State, index: Option<int>): int
  {
    if index.None? then s.messageIndex else index.value
  }

  /** `get_response` as its documentation intends it: the content of the
      record at `index`, by default at `message_index`; an index outside the
      list, or outside the machine integers, raises IndexError. */
  function GetResponse(s: State, index: Option<int>): (r: Result<Value>)
    ensures Inv(s) && index.None? && FitsIndex(s.messageIndex) ==> r == Ok(s.messages[|s.messages| - 1].content)
    ensures Inv(s) && index == Some(0) ==> r == Ok(s.systemContext)
    ensures index.Some? && FitsIndex(index.value) && 0 <= index.value < |s.messages| ==>
              r == Ok(s.messages[index.value].content)
    ensures index.Some? && FitsIndex(index.value) && -|s.messages| <= index.value < 0 ==>
              r == Ok(s.messages[|s.messages| + index.value].content)
    ensures FitsIndex(Resolved(s, index)) && !InList(s.messages, Resolved(s, index)) ==>
              r == Err(IndexError(ListIndexOutOfRange))
    ensures !FitsIndex(Resolved(s, index)) ==> r == Err(IndexError(CannotFitIndex))
  {
    match Subscript(s.messages, Resolved(s, index))
    case Ok(k) => Ok(s.messages[k].content)
    case Err(e) => Err(e)
  }

  /** `get_response` as written: the records are dicts, and reading the
      attribute `.content` off a dict raises AttributeError, so no lookup
      returns a value. */
  function GetResponseAsWritten(s: State, index: Option<int>): (r: Result<Value>)
    ensures FitsIndex(Resolved(s, index)) && InList(s.messages, Resolved(s, index)) ==>
              r == Err(AttributeError(DictHasNoContent))
    ensures FitsIndex(Resolved(s, index)) && !InList(s.messages, Resolved(s, index)) ==>
              r == Err(IndexError(ListIndexOutOfRange))
    ensures !FitsIndex(Resolved(s, index)) ==> r == Err(IndexError(CannotFitIndex))
  {
    match Subscript(s.messages, Resolved(s, index))
    case Ok(_) => Err(AttributeError(DictHasNoContent))
    case Err(e) => Err(e)
  }

  /** The source's `get_response` never returns a record's content, while the
      documented behaviour returns the latest one on every valid state. */
  lemma GetResponseAsWrittenFails(s: State, index: Option<int>)
    requires Inv(s)
    ensures GetResponseAsWritten(s, index).Err?
    ensures index.None? && FitsIndex(s.messageIndex) ==>
              GetResponseAsWritten(s, index) == Err(AttributeError(DictHasNoContent))
    ensures index.None? && FitsIndex(s.messageIndex) ==>
              GetResponse(s, index) == Ok(s.messages[s.messageIndex].content)
  {
  }

  // ---------------------------------------------------------------------
  // Sequences of calls on one handler

  /** One call on the handler's public interface; a completion call carries
      what the service did. */
  datatype Call =
    | AddMessageCall(role: Value, content: Value)
    | AddFromUserCall(userMsg: Value)
    | AddFromGptCall(response: ChatResponse)
    | ChatGptCall(outcome: ApiOutcome)
    | ClearHistoryCall

  /** The state after one call; a call that raises leaves the state as it was. */
  function Step(s: State, c: Call): State
  {
    match c
    case AddMessageCall(role, content) => AddMessage(s, role, content)
    case AddFromUserCall(v) =>
      (match AddMessageFromUser(s, v) case Ok(t) => t case Err(_) => s)
    case AddFromGptCall(response) =>
      (match AddMessageFromGptResponse(s, response) case Ok(t) => t case Err(_) => s)
    case ChatGptCall(outcome) => GetChatGptResponse(s, outcome).state
    case ClearHistoryCall => ClearHistory(s)
  }

  /** The state after a sequence of calls, first to last. */
  function Run(s: State, calls: seq<Call>): State
    decreases |calls|
  {
    if calls == [] then s else Run(Step(s, calls[0]), calls[1..])
  }

  /** The records a call other than `clear_history` appends, independent of
      the state it is applied to. */
  function Appends(c: Call): seq<Message>
  {
    match c
    case AddMessageCall(role, content) => [Message(role, content)]
    case AddFromUserCall(v) => if v.Str? then [Message(UserRole, v)] else []
    case AddFromGptCall(response) =>
      if |response.choices| > 0 then [Message(AssistantRole, response.choices[0])] else []
    case ChatGptCall(outcome) =>
      if Succeeded(outcome) then [Message(AssistantRole, outcome.response.choices[0])] else []
    case ClearHistoryCall => []
  }

  function AppendsAll(calls: seq<Call>): seq<Message>
    decreases |calls|
  {
    if calls == [] then [] else Appends(calls[0]) + AppendsAll(calls[1..])
  }

  predicate NoClear(calls: seq<Call>)
  {
    forall i :: 0 <= i < |calls| ==> !calls[i].ClearHistoryCall?
  }

  /** A call other than `clear_history` appends its records at the end, moves
      the cursor by as many, and leaves every earlier record in place. */
  lemma StepAppends(s: State, c: Call)
    requires !c.ClearHistoryCall?
    ensures Step(s, c).systemContext == s.systemContext
    ensures Step(s, c).messages == s.messages + Appends(c)
    ensures Step(s, c).messageIndex == s.messageIndex + |Appends(c)|
  {
  }

  /** Every call keeps the class invariant. */
  lemma StepKeepsInv(s: State, c: Call)
    requires Inv(s)
    ensures Inv(Step(s, c))
    ensures Step(s, c).systemContext == s.systemContext
  {
  }

  /** The class invariant holds after any sequence of calls. */
  lemma {:induction false} RunKeepsInv(s: State, calls: seq<Call>)
    requires Inv(s)
    ensures Inv(Run(s, calls))
    decreases |calls|
  {
    if calls != [] {
      StepKeepsInv(s, calls[0]);
      RunKeepsInv(Step(s, calls[0]), calls[1..]);
    }
  }

  /** Without `clear_history` the transcript only grows at the end: the old
      records stay where they were, the new ones are exactly those the calls
      append, and the cursor moves by their number. */
  lemma {:induction false} RunWithoutClearAppends(s: State, calls: seq<Call>)
    requires NoClear(calls)
    ensures Run(s, calls).systemContext == s.systemContext
    ensures Run(s, calls).messages == s.messages + AppendsAll(calls)
    ensures Run(s, calls).messageIndex == s.messageIndex + |AppendsAll(calls)|
    decreases |calls|
  {
    if calls != [] {
      var first, rest := calls[0], calls[1..];
      NoClearTail(calls);
      var t := Step(s, first);
      StepAppends(s, first);
      RunWithoutClearAppends(t, rest);
      var added, later := Appends(first), AppendsAll(rest);
      assert AppendsAll(calls) == added + later;
      assert (s.messages + added) + later == s.messages + (added + later);
    }
  }

  /** The calls after the first one of a clear-free sequence are clear-free. */
  lemma NoClearTail(calls: seq<Call>)
    requires calls != [] && NoClear(calls)
    ensures !calls[0].ClearHistoryCall? && NoClear(calls[1..])
  {
  }

  /** Running two sequences one after the other is running their concatenation. */
  lemma {:induction false} RunConcat(s: State, xs: seq<Call>, ys: seq<Call>)
    ensures Run(s, xs + ys) == Run(Run(s, xs), ys)
    decreases |xs|
  {
    if xs != [] {
      assert (xs + ys)[0] == xs[0];
      assert (xs + ys)[1..] == xs[1..] + ys;
      RunConcat(Step(s, xs[0]), xs[1..], ys);
    } else {
      assert xs + ys == ys;
    }
  }

  /** After the last `clear_history` of a sequence, the transcript is the
      system message followed by exactly what the later calls append: every
      earlier turn is gone. */
  lemma RunAfterLastClear(s: State, calls: seq<Call>, k: nat)
    requires k < |calls| && calls[k].ClearHistoryCall?
    requires NoClear(calls[k + 1..])
    ensures Run(s, calls).messages == [Message(SystemRole, s.systemContext)] + AppendsAll(calls[k + 1..])
    ensures Run(s, calls).messageIndex == |AppendsAll(calls[k + 1..])|
  {
    var before := Run(s, calls[..k]);
    assert calls == calls[..k] + [calls[k]] + calls[k + 1..];
    RunConcat(s, calls[..k] + [calls[k]], calls[k + 1..]);
    RunConcat(s, calls[..k], [calls[k]]);
    RunSameContext(s, calls[..k]);
    assert Run(before, [calls[k]]) == ClearHistory(before);
    RunWithoutClearAppends(ClearHistory(before), calls[k + 1..]);
  }

  /** No call changes the stored system context. */
  lemma {:induction false} RunSameContext(s: State, calls: seq<Call>)
    ensures Run(s, calls).systemContext == s.systemContext
    decreases |calls|
  {
    if calls != [] {
      assert Step(s, calls[0]).systemContext == s.systemContext by {
        if !calls[0].ClearHistoryCall? {
          StepAppends(s, calls[0]);
        }
      }
      RunSameContext(Step(s, calls[0]), calls[1..]);
    }
  }

  /** `clear_history` twice is `clear_history` once, and from any state it
      gives the state of a freshly constructed handler. */
  lemma ClearHistoryIdempotent(s: State)
    ensures ClearHistory(ClearHistory(s)) == ClearHistory(s)
    ensures ClearHistory(s) == Initial(s.systemContext)
  {
  }

  /** The default lookup after any append returns the appended content, and
      index 0 still returns the system context. */
  lemma LookupAfterAppend(s: State, role: Value, content: Value)
    requires Inv(s)
    ensures Inv(AddMessage(s, role, content))
    ensures FitsIndex(|s.messages|) ==> GetResponse(AddMessage(s, role, content), None) == Ok(content)
    ensures GetResponse(AddMessage(s, role, content), Some(0)) == Ok(s.systemContext)
  {
  }

  /** A user turn followed by a successful completion: the transcript is the
      system message, the user message and the first candidate reply. */
  lemma UserThenCompletion(ctx: Value, text: string, reply: Value, rest: seq<Value>)
    ensures var s := Run(Initial(ctx), [AddFromUserCall(Str(text)), ChatGptCall(Responded(ChatResponse([reply] + rest)))]);
      && s.messages == [Message(SystemRole, ctx), Message(UserRole, Str(text)), Message(AssistantRole, reply)]
      && s.messageIndex == 2
      && GetResponse(s, None) == Ok(reply)
  {
    var calls := [AddFromUserCall(Str(text)), ChatGptCall(Responded(ChatResponse([reply] + rest)))];
    var s0 := Initial(ctx);
    var s1 := AddMessage(s0, UserRole, Str(text));
    var s2 := AddMessage(s1, AssistantRole, reply);
    assert Step(s0, calls[0]) == s1;
    assert Step(s1, calls[1]) == s2;
    assert calls[1..] == [calls[1]];
    assert Run(s1, calls[1..]) == Run(s2, []);
  }
}
