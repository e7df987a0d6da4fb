# OpenAIConversationHandler, modelled in Dafny

`OpenAIConversationHandler` keeps the transcript of one chat conversation. The transcript is a list of `{role, content}` records that starts with the system message. A cursor `message_index` names the last record. The handler appends user and assistant turns and resets the history. It sends the transcript to the chat-completion service and records the first reply. It also reads back a record's content by position.

The model has two modules:

- `Conversation` (conversation.dfy) describes the handler's state as a value, `State(systemContext, messages, messageIndex)`. It has one function per operation, the class invariant `Inv`, and lemmas about single calls and whole sequences of calls (`Call`, `Step`, `Run`).
- `Handler` (handler.dfy) holds the class `OpenAIConversationHandler`. Its fields are the source's attributes: `messages` and `messageIndex` are reassigned by the methods, and the generation settings and system context are `const`. Every method ensures `Snapshot() == <the Conversation function>(old(Snapshot()))` and keeps `Valid()`. The class invariant is `messageIndex == |messages| - 1`, the transcript is non-empty, and its first record is the system message.

Python values are modelled as `Value`: an exact `str`, an instance of a `str` subclass, or some other type. A non-`str` value carries the text Python prints for its type: `<class 'int'>` for most types, `<enum 'Color'>` for an enumeration (a `StrEnum` member is a `str` subclass with that form). The ValueError of `add_message_from_user` quotes this text. This makes two things visible. `add_message_from_user` tests `type(x) is str` exactly, so it also rejects `str` subclasses. `add_message` and `add_message_from_gpt_response` check nothing. Because `add_message` checks neither field, a record's role is a `Value` like its content: `add_message(None, "x")` appends a record whose role is not a string. The three roles the handler itself uses are the strings 'system', 'user' and 'assistant'. Exceptions leave the core as `Result`/`Outcome` values carrying the Python exception and its message. A raising call changes nothing, because every check happens before the append.

The completion call is a parameter `service: ChatRequest -> ApiOutcome`. The request carries the generation settings and the whole current transcript. The service returns a response with its list of candidate contents, raises `openai.error.APIError`, or raises any other exception. `get_chatgpt_response` swallows every failure: an API error, any other error, and a response with no candidate (the `IndexError` from `choices[0]`). In each of those cases the state is unchanged and the method returns the line the source prints. On success it appends exactly one assistant record.

Three behaviours of the source worth knowing:
- Roles are not checked; any value is stored as a record's role.
- `get_response` accepts negative indices, as Python list indexing does, so the valid range is `[-len, len)`. An integer outside the signed 64-bit range raises `IndexError: cannot fit 'int' into an index-sized integer` before the range is checked; any other index outside the list raises `IndexError: list index out of range`.
- `add_message_from_gpt_response`, when called directly, raises `IndexError` on a response with no candidates.

## Model

| member | source | states |
|---|---|---|
| Conversation.AddMessage | openai_conversation.py:74-86 | appends exactly one record `{role, content}` for any role and content. Earlier records stay in place, the cursor moves by one, and `messageIndex == len - 1` is preserved |
| Conversation.Initial | openai_conversation.py:36-40 | a new handler holds exactly `[{system, system_context}]` with cursor 0 and satisfies the class invariant |
| Conversation.ClearHistory | openai_conversation.py:42-48 | the result is the state of a freshly constructed handler with the same system context: a single system message and cursor 0 |
| Conversation.AddMessageFromUser | openai_conversation.py:60-72 | succeeds if and only if the value's type is exactly `str`. Success appends `{user, msg}`; otherwise it raises ValueError |
| Conversation.AddMessageFromGptResponse | openai_conversation.py:50-58 | succeeds if and only if the response has a candidate. Success appends `{assistant, choices[0]}` without a type check; otherwise it raises IndexError |
| Conversation.GetChatGptResponse | openai_conversation.py:88-110 | never raises. It appends one assistant record if and only if the service returned at least one candidate, and prints nothing in exactly that case. On an API error, another error or an empty choice list the state is unchanged and the matching line is printed |
| Conversation.Subscript | openai_conversation.py:125 | Python's `list[i]`: reads position `i` (or `len + i` for a negative `i`) exactly when `i` fits a signed 64-bit integer and lies in `[-len, len)`. Otherwise it raises IndexError with 'cannot fit' for an oversized integer and 'list index out of range' for the rest |
| Conversation.GetResponse | openai_conversation.py:112-125 | by default returns the latest record's content, and index 0 gives the system context. In-range indices (negative ones counted from the end) give that record's content. An index outside the 64-bit range raises IndexError 'cannot fit 'int' into an index-sized integer'; any other index outside the list raises IndexError 'list index out of range' |
| Conversation.GetResponseAsWritten | openai_conversation.py:122-125 | `get_response` as written: every index inside `[-len, len)` (the default resolving to the cursor) raises AttributeError, because `.content` is read off a dict record. Any other index raises IndexError, with the 'cannot fit' message outside the 64-bit range and 'list index out of range' otherwise |
| Conversation.GetResponseAsWrittenFails | openai_conversation.py:122-125 | as written, `get_response` never returns content. The default lookup raises AttributeError on every valid state whose cursor fits a 64-bit integer, where the documented lookup returns the latest content |
| Conversation.StepAppends | openai_conversation.py:50-110 | each call other than `clear_history` appends exactly the records it is defined to append, at the end. The cursor moves by as many and the system context is kept |
| Conversation.StepKeepsInv | openai_conversation.py:38-110 | every public call keeps the class invariant and the system context |
| Conversation.RunKeepsInv | openai_conversation.py:38-110 | after any sequence of calls the invariant holds: non-empty, system message first, `messageIndex == len - 1` |
| Conversation.RunWithoutClearAppends | openai_conversation.py:82-86 | with no `clear_history`, the transcript only grows at the end: the result is the old records followed by what the calls append, and the cursor moves by that number |
| Conversation.RunSameContext | openai_conversation.py:36 | no call changes the stored system context |
| Conversation.RunAfterLastClear | openai_conversation.py:42-48 | after the last `clear_history`, the transcript is the system message followed only by what later calls appended. Every earlier turn is discarded |
| Conversation.ClearHistoryIdempotent | openai_conversation.py:42-48 | clearing twice equals clearing once, and either equals the initial state |
| Conversation.LookupAfterAppend | openai_conversation.py:112-125 | after any append, the default lookup returns the appended content (when the new cursor fits a 64-bit integer) and index 0 still returns the system context |
| Conversation.UserThenCompletion | openai_conversation.py:60-110 | a user turn "text" followed by a completion whose first candidate is `reply` gives `[system, user text, assistant reply]` with cursor 2, and the default lookup returns `reply` |
| Handler.OpenAIConversationHandler.constructor | openai_conversation.py:18-40 | stores the six generation settings (with the source's defaults) and starts in the initial state: a single system message and cursor 0 |
| Handler.OpenAIConversationHandler.ClearHistory | openai_conversation.py:42-48 | from any state, resets the fields to `[{system, system_context}]` and 0 and establishes the invariant. The settings and system context cannot change |
| Handler.OpenAIConversationHandler.AddMessage | openai_conversation.py:74-86 | `messages` becomes old `messages` plus one record and `messageIndex` grows by one. It keeps the invariant |
| Handler.OpenAIConversationHandler.AddMessageFromUser | openai_conversation.py:60-72 | appends a user turn on an exact `str`. Otherwise it returns the ValueError and leaves both fields unchanged |
| Handler.OpenAIConversationHandler.AddMessageFromGptResponse | openai_conversation.py:50-58 | appends the first candidate as an assistant turn. With no candidate it returns the IndexError and leaves both fields unchanged |
| Handler.OpenAIConversationHandler.GetChatGptResponse | openai_conversation.py:88-110 | sends the settings and the current transcript. The transcript is unchanged or grows by exactly one record, as `Conversation.GetChatGptResponse` says for the service's answer. Nothing is raised |
| Handler.OpenAIConversationHandler.GetResponse | openai_conversation.py:112-125 | by default, the content of the record at `messageIndex`. An index is valid if and only if it fits a signed 64-bit integer and lies in `[-len, len)`. Otherwise IndexError is raised, 'cannot fit' for an oversized integer and 'list index out of range' for the rest |

## Findings

| source | as written | input that shows it | evidently intended | confidence | as-written member | corrected member |
|---|---|---|---|---|---|---|
| openai_conversation.py:125 | `self.messages[index].content` reads an attribute from records that are dicts (built at lines 82-85) | any handler, `get_response()`: `AttributeError: 'dict' object has no attribute 'content'` | return the record's `content`, as the docstring at lines 119-120 says | high; not executed | Conversation.GetResponseAsWritten | Conversation.GetResponse |

## Left out

- The `openai.ChatCompletion.create` network call is not modelled. It is the `service` parameter, whose answer is given; timeouts and retries belong to the client library.
- The process-wide `openai.api_key = api_key` assignment is not modelled. It is library-global state, and the handler never reads it back. The constructor has no `api_key` parameter.
- The `print` calls in the two exception handlers are not performed. The printed line is returned as `printed` instead.
- The float settings are never computed with, so they are `real` values that are only stored and passed along; IEEE behaviour does not arise.
- Exceptions outside `Exception` (such as `KeyboardInterrupt`) propagate through `get_chatgpt_response` in Python. They are not modelled.
- Response objects of other shapes are not modelled: a response is given as the list of its candidates' contents. A candidate without `.message.content`, or a response without a `.choices` attribute (such as the plain `dict` named by the type hint of `add_message_from_gpt_response`), makes line 57 raise AttributeError. Called directly, `add_message_from_gpt_response` then raises it with the state unchanged; inside `get_chatgpt_response` it is swallowed by the generic handler.
- A non-integer `index` passed to `get_response` is not modelled; the index is an `Option<int>`. In Python most such values make the subscript raise TypeError, while a `slice` returns a list, on which `.content` raises `AttributeError: 'list' object has no attribute 'content'`.
- The request holds a copy of the transcript. In Python it is the same list object, which is only read during the call.
- Handler.OpenAIConversationHandler.GetResponse: returns the record's content as documented, rather than raising AttributeError as the source does (see Findings).
- The length of the transcript is not bounded in the model. A Python list holds at most `PY_SSIZE_T_MAX` items, so there the default index always fits a 64-bit integer. The lines below state which clauses assume this.
- Conversation.GetResponse: the default-lookup clause is stated for a cursor that fits a 64-bit integer, which a Python list guarantees.
- Conversation.GetResponseAsWrittenFails: the default-lookup clauses are stated for a cursor that fits a 64-bit integer, which a Python list guarantees.
- Conversation.LookupAfterAppend: the default-lookup clause is stated for a new cursor that fits a 64-bit integer, which a Python list guarantees.
- Handler.OpenAIConversationHandler.GetResponse: the default-lookup clause is stated for a cursor that fits a 64-bit integer, which a Python list guarantees.
- Concurrent use of one handler is not modelled; the source does not guard it.
