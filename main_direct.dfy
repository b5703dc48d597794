/** The request rules of the `/chat` endpoint in src/main_direct.py: the
    client check, the extraction of the user's message, the choice between
    supplied and generated ids, and one fresh translator per request.

    The request body is a parsed `RunAgentInput`; message content is
    whatever JSON the client sent, of which the model keeps only what the
    extraction looks at. */
module MainDirect {
  import opened Wrappers
  import opened ProtocolTranslator
  import Metadata

  /** One item of a list-valued content: a dictionary, of which only the
      `type` (when it is a string) and `text` entries matter, or anything else. */
  datatype ContentPart =
    | NonDict
    | DictPart(typ: Option<string>, text: Option<string>)

  /** A message's content: a string, a list of parts, or anything else
      (including a missing content). */
  datatype Content =
    | StrContent(s: string)
    | ListContent(parts: seq<ContentPart>)
    | OtherContent

  datatype Message = Message(role: string, content: Content)

  datatype RunAgentInput = RunAgentInput(
    threadId: Option<string>,
    runId: Option<string>,
    messages: seq<Message>)

  const UserRole: string := "user"
  const NotInitializedMessage: string := "Agent client not initialized"
  const NotInitialized: string := "NOT_INITIALIZED"
  const NoUserMessage: string := "No user message found"
  const InvalidInput: string := "INVALID_INPUT"

  /** Whether a content part is the multimodal text part. */
  predicate IsTextPart(part: ContentPart) {
    part.DictPart? && part.typ == Some("text")
  }

  /** The text of the first text part, `""` when there is none or it has no text. */
  function FirstTextPart(parts: seq<ContentPart>): string
    decreases |parts|
  {
    if parts == [] then ""
    else if IsTextPart(parts[0]) then parts[0].text.GetOr("")
    else FirstTextPart(parts[1..])
  }

  /** What a user message's content contributes. */
  function ContentText(c: Content): string {
    match c
    case StrContent(s) => s
    case ListContent(parts) => FirstTextPart(parts)
    case OtherContent => ""
  }

  /** The user message of a request: the content of the first message whose
      role is `user`, `""` when there is none. */
  function UserMessage(messages: seq<Message>): string
    decreases |messages|
  {
    if messages == [] then ""
    else if messages[0].role == UserRole then ContentText(messages[0].content)
    else UserMessage(messages[1..])
  }

  /** The user message is decided by the first user message alone. */
  lemma {:induction false} FirstUserMessageDecides(messages: seq<Message>, i: nat)
    requires i < |messages| && messages[i].role == UserRole
    requires forall j :: 0 <= j < i ==> messages[j].role != UserRole
    ensures UserMessage(messages) == ContentText(messages[i].content)
    decreases i
  {
    if i > 0 {
      FirstUserMessageDecides(messages[1..], i - 1);
    }
  }

  /** A request without a user message has an empty user message. */
  lemma {:induction false} NoUserRoleMeansEmpty(messages: seq<Message>)
    requires forall j :: 0 <= j < |messages| ==> messages[j].role != UserRole
    ensures UserMessage(messages) == ""
    decreases |messages|
  {
    if messages != [] {
      NoUserRoleMeansEmpty(messages[1..]);
    }
  }

  /** Messages after the first user message are never consulted, even when
      the first one yields nothing. */
  lemma {:induction false} LaterMessagesIgnored(messages: seq<Message>, later: seq<Message>, i: nat)
    requires i < |messages| && messages[i].role == UserRole
    ensures UserMessage(messages + later) == UserMessage(messages)
    decreases |messages|
  {
    if messages[0].role != UserRole {
      assert (messages + later)[1..] == messages[1..] + later;
      LaterMessagesIgnored(messages[1..], later, i - 1);
    }
  }

  /** A text part decides the list content it appears in when no text part
      precedes it; a missing `text` entry counts as `""`. */
  lemma {:induction false} FirstTextPartDecides(parts: seq<ContentPart>, k: nat)
    requires k < |parts| && IsTextPart(parts[k])
    requires forall j :: 0 <= j < k ==> !IsTextPart(parts[j])
    ensures FirstTextPart(parts) == parts[k].text.GetOr("")
    decreases k
  {
    if k > 0 {
      FirstTextPartDecides(parts[1..], k - 1);
    }
  }

  /** The loop of `chat` that reads the user message: it stops at the first
      user message, and within list content at the first text part. */
  method ExtractUserMessage(messages: seq<Message>) returns (userMessage: string)
    ensures userMessage == UserMessage(messages)
  {
    userMessage := "";
    var i := 0;
    while i < |messages|
      invariant 0 <= i <= |messages|
      invariant userMessage == ""
      invariant UserMessage(messages) == UserMessage(messages[i..])
    {
      var msg := messages[i];
      if msg.role == UserRole {
        match msg.content {
          case StrContent(s) =>
            userMessage := s;
          case ListContent(parts) =>
            var k := 0;
            while k < |parts|
              invariant 0 <= k <= |parts|
              invariant userMessage == ""
              invariant FirstTextPart(parts) == FirstTextPart(parts[k..])
            {
              var part := parts[k];
              if part.DictPart? && part.typ == Some("text") {
                userMessage := part.text.GetOr("");
                break;
              }
              assert parts[k..][1..] == parts[k + 1..];
              k := k + 1;
            }
          case OtherContent =>
        }
        break;
      }
      assert messages[i..][1..] == messages[i + 1..];
      i := i + 1;
    }
  }

  /** `supplied or generated`: a supplied id is kept as it is; the generated one
      is used only when the field is missing or empty. */
  function ChooseId(supplied: Option<string>, generated: string): (id: string)
    ensures supplied.Some? && supplied.value != "" ==> id == supplied.value
    ensures supplied.None? || supplied.value == "" ==> id == generated
    ensures generated != "" ==> id != ""
  {
    if supplied.Some? && supplied.value != "" then supplied.value else generated
  }

  /** The `/chat` endpoint. `initialised` is whether the agent client was
      created at startup; `upstream` and `failure` are what the agent's
      stream yields for the prompt (see `Translate`); `freshThreadId` and
      `freshRunId` are the uuids generated when the request lacks an id.
      `prompt` is the message sent to the agent, `None` when the request is
      refused before any call. */
  method Chat(initialised: bool, input: RunAgentInput,
              store: Metadata.MetadataStore<ThinkingArgs, SessionStats>,
              upstream: seq<Envelope>, failure: Option<string>,
              freshThreadId: string, freshRunId: string, env: Env)
    returns (events: seq<Event>, prompt: Option<string>)
    modifies store
    ensures !initialised ==>
              && events == [RunError(NotInitializedMessage, NotInitialized)]
              && prompt == None && store.threads == old(store.threads)
    ensures initialised && UserMessage(input.messages) == "" ==>
              && events == [RunError(NoUserMessage, InvalidInput)]
              && prompt == None && store.threads == old(store.threads)
    ensures initialised && UserMessage(input.messages) != "" ==>
              var threadId := ChooseId(input.threadId, freshThreadId);
              var o := Translate(Initial, old(store.threads), upstream, failure,
                                 threadId, ChooseId(input.runId, freshRunId), threadId != "", env);
              && prompt == Some(UserMessage(input.messages))
              && events == o.events
              && store.threads == o.store
  {
    if !initialised {
      return [RunError(NotInitializedMessage, NotInitialized)], None;
    }
    var userMessage := ExtractUserMessage(input.messages);
    if userMessage == "" {
      return [RunError(NoUserMessage, InvalidInput)], None;
    }
    var threadId := ChooseId(input.threadId, freshThreadId);
    var runId := ChooseId(input.runId, freshRunId);
    var translator := new Translator(store);
    events := translator.TranslateStream(upstream, failure, threadId, runId, env);
    prompt := Some(userMessage);
  }
}
