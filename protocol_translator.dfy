/** The stream translator of src/protocol_translator.py: it reads the
    envelopes an Agent Engine run streams back and emits AG-UI events.

    The pure functions below say what one part, one envelope and one whole
    run produce; the class `Translator` keeps the source's instance fields
    and its methods are proved to produce exactly that.

    Randomness and time are an oracle `Env`: the k-th `uuid.uuid4()` of a run
    is `uuid(k)` and the k-th clock reading (integer milliseconds) is
    `clockMs(k)`; the state counts how many of each the run has used. JSON
    payloads are opaque: an upstream payload is kept as its serialised text,
    and events are values rather than SSE text. */
module ProtocolTranslator {
  import opened Wrappers
  import Metadata

  /** The serialised JSON text of an opaque upstream payload. */
  type Json = string

  /** `usage_metadata` of an envelope; an absent key is `None`. */
  datatype Usage = Usage(
    thoughtsTokenCount: Option<int>,
    totalTokenCount: Option<int>,
    candidatesTokenCount: Option<int>,
    promptTokenCount: Option<int>)

  datatype FunctionCall = FunctionCall(id: Option<string>, name: Option<string>, args: Option<Json>)

  datatype FunctionResponse = FunctionResponse(id: Option<string>, name: Option<string>, response: Option<Json>)

  /** One entry of `content.parts`: which keys it holds, and their values.
      `thoughtSignature` says whether the key `thought_signature` is present. */
  datatype Part = Part(
    text: Option<string>,
    thoughtSignature: bool,
    functionCall: Option<FunctionCall>,
    functionResponse: Option<FunctionResponse>)

  /** One upstream envelope; missing `content` or `parts` is an empty `parts`. */
  datatype Envelope = Envelope(parts: seq<Part>, usage: Usage, modelVersion: Option<string>)

  /** The arguments of a synthetic `thinking_step` tool call. */
  datatype ThinkingArgs = ThinkingArgs(
    status: string,
    thoughtsTokenCount: int,
    totalTokenCount: int,
    candidatesTokenCount: int,
    promptTokenCount: int,
    model: string)

  /** The content of the session-statistics snapshot. */
  datatype SessionStats = SessionStats(
    totalThinkingTokens: int,
    totalToolCalls: nat,
    durationMs: int,
    threadId: string,
    runId: string)

  /** A tool-call payload: an upstream value, the thinking arguments, or the
      fixed `{"status": "complete"}` result of a thinking step. */
  datatype Payload = Raw(json: Json) | Thinking(args: ThinkingArgs) | StatusComplete

  /** The AG-UI events this translator emits. */
  datatype Event =
    | RunStarted(threadId: string, runId: string)
    | TextMessageStart(messageId: string, role: string)
    | TextMessageContent(messageId: string, delta: string)
    | TextMessageEnd(messageId: string)
    | ToolCallStart(toolCallId: string, toolCallName: string)
    | ToolCallArgs(toolCallId: string, argsDelta: Payload)
    | ToolCallEnd(toolCallId: string)
    | ToolCallResult(messageId: string, toolCallId: string, result: Payload, role: string)
    | ActivitySnapshot(messageId: string, activityType: string, stats: SessionStats, replace: bool)
    | RunFinished(threadId: string, runId: string)
    | RunError(message: string, code: string)

  /** Sources of fresh ids and of time. */
  datatype Env = Env(uuid: nat -> string, clockMs: nat -> nat)

  /** The fields a run updates: the open text message (`message_started`
      with `current_text_message_id`), the two counters, and the oracle
      cursors. */
  datatype RunState = RunState(
    open: Option<string>,
    thinkingTokens: int,
    toolCalls: nat,
    uuidDraws: nat,
    clockReads: nat)

  /** The state of a newly constructed translator. */
  const Initial: RunState := RunState(None, 0, 0, 0, 0)

  type Threads = Metadata.Threads<ThinkingArgs, SessionStats>

  /** What translating some input produced: the new state, the events in
      order, and the metadata store's table afterwards. */
  datatype Out = Out(state: RunState, events: seq<Event>, store: Threads)

  /** Per-run constants: the thread id, whether the metadata store is
      written (a store is attached and the thread id is non-empty), the oracle. */
  datatype Ctx = Ctx(threadId: string, recording: bool, env: Env)

  const ThinkingToolName: string := "thinking_step"
  const UnknownName: string := "unknown"
  const EmptyObject: Json := "{}"
  const TranslationError: string := "TRANSLATION_ERROR"

  function DigitChar(d: nat): char
    requires d < 10
  {
    "0123456789"[d]
  }

  function NatToString(n: nat): string
    decreases n
  {
    if n < 10 then [DigitChar(n)] else NatToString(n / 10) + [DigitChar(n % 10)]
  }

  function ThinkingId(threadId: string, ms: nat): string {
    "thinking-" + threadId + "-" + NatToString(ms)
  }

  function SessionStatsId(threadId: string, runId: string): string {
    "session-stats-" + threadId + "-" + runId
  }

  /** Emits `TEXT_MESSAGE_END` for the open message, if any, and closes it. */
  function CloseOpen(o: Out): Out {
    match o.state.open
    case None => o
    case Some(id) => o.(state := o.state.(open := None), events := o.events + [TextMessageEnd(id)])
  }

  /** Opens a new assistant message under a fresh id. */
  function OpenMessage(o: Out, ctx: Ctx): Out {
    var id := ctx.env.uuid(o.state.uuidDraws);
    o.(state := o.state.(open := Some(id), uuidDraws := o.state.uuidDraws + 1),
       events := o.events + [TextMessageStart(id, "assistant")])
  }

  function ThinkingArgsOf(e: Envelope): ThinkingArgs {
    ThinkingArgs("in_progress",
                 e.usage.thoughtsTokenCount.GetOr(0),
                 e.usage.totalTokenCount.GetOr(0),
                 e.usage.candidatesTokenCount.GetOr(0),
                 e.usage.promptTokenCount.GetOr(0),
                 e.modelVersion.GetOr(UnknownName))
  }

  /** The `thinking_step` quadruple for a thought part of `e`, the token
      count added, and the thinking entry recorded in the store. The id is
      built from one clock reading; the store's stamp is a later reading of
      its own, taken only when the store is written. */
  function EmitThinking(o: Out, e: Envelope, ctx: Ctx): Out {
    var args := ThinkingArgsOf(e);
    var ms := ctx.env.clockMs(o.state.clockReads);
    var id := ThinkingId(ctx.threadId, ms);
    var stamp := ctx.env.clockMs(o.state.clockReads + 1);
    Out(o.state.(thinkingTokens := o.state.thinkingTokens + args.thoughtsTokenCount,
                 clockReads := o.state.clockReads + (if ctx.recording then 2 else 1)),
        o.events + [ToolCallStart(id, ThinkingToolName),
                    ToolCallArgs(id, Thinking(args)),
                    ToolCallEnd(id),
                    ToolCallResult("result-" + id, id, StatusComplete, "tool")],
        if ctx.recording then Metadata.WithThinking(o.store, ctx.threadId, args, stamp) else o.store)
  }

  /** `EmitThinking` only appends to the events it is given. */
  lemma EmitThinkingAppends(o: Out, e: Envelope, ctx: Ctx)
    ensures var alone := EmitThinking(Out(o.state, [], o.store), e, ctx);
            EmitThinking(o, e, ctx) == alone.(events := o.events + alone.events)
  {
  }

  /** `_handle_text_message` on a part whose text is `text`. */
  function TextStep(o: Out, e: Envelope, text: string, thought: bool, ctx: Ctx): Out {
    if text == "" then o
    else
      var o1 := if thought then EmitThinking(CloseOpen(o), e, ctx) else o;
      var o2 := if o1.state.open.None? then OpenMessage(o1, ctx) else o1;
      o2.(events := o2.events + [TextMessageContent(o2.state.open.value, text)])
  }

  /** `_handle_function_call`. The fallback id is drawn whether or not the
      call carries an id, as Python evaluates `get`'s default eagerly. */
  function CallStep(o: Out, fc: FunctionCall, ctx: Ctx): Out {
    var o1 := CloseOpen(o);
    var id := fc.id.GetOr(ctx.env.uuid(o1.state.uuidDraws));
    var name := fc.name.GetOr(UnknownName);
    var args := fc.args.GetOr(EmptyObject);
    Out(o1.state.(toolCalls := o1.state.toolCalls + 1, uuidDraws := o1.state.uuidDraws + 1),
        o1.events + [ToolCallStart(id, name), ToolCallArgs(id, Raw(args)), ToolCallEnd(id)],
        o1.store)
  }

  /** `_handle_function_response`: two ids are drawn, the fallback tool-call
      id and the result's message id. */
  function ResponseStep(o: Out, fr: FunctionResponse, ctx: Ctx): Out {
    var k := o.state.uuidDraws;
    var id := fr.id.GetOr(ctx.env.uuid(k));
    var messageId := ctx.env.uuid(k + 1);
    o.(state := o.state.(uuidDraws := k + 2),
       events := o.events + [ToolCallResult(messageId, id, Raw(fr.response.GetOr(EmptyObject)), "tool")])
  }

  /** How `_translate_event` dispatches a part: text first, then a function
      call, then a function response; anything else is skipped. */
  datatype PartKind = TextPart | CallPart | ResponsePart | SkippedPart

  function KindOf(p: Part): PartKind {
    if p.text.Some? then TextPart
    else if p.functionCall.Some? then CallPart
    else if p.functionResponse.Some? then ResponsePart
    else SkippedPart
  }

  /** A part rendered as a thinking step: a text part with a signature and
      non-empty text (an empty one emits nothing). */
  predicate IsThought(p: Part) {
    KindOf(p) == TextPart && p.thoughtSignature && p.text.value != ""
  }

  /** The events and effects of one part, starting from `s` and table `m`. */
  function TranslatePart(s: RunState, m: Threads, e: Envelope, p: Part, ctx: Ctx): Out {
    var o := Out(s, [], m);
    match KindOf(p)
    case TextPart => TextStep(o, e, p.text.value, p.thoughtSignature, ctx)
    case CallPart => CallStep(o, p.functionCall.value, ctx)
    case ResponsePart => ResponseStep(o, p.functionResponse.value, ctx)
    case SkippedPart => o
  }

  /** The parts `ps` of envelope `e`, in order. */
  function TranslateParts(s: RunState, m: Threads, e: Envelope, ps: seq<Part>, ctx: Ctx): Out
    decreases |ps|
  {
    if ps == [] then Out(s, [], m)
    else
      var o := TranslateParts(s, m, e, ps[..|ps| - 1], ctx);
      var r := TranslatePart(o.state, o.store, e, ps[|ps| - 1], ctx);
      Out(r.state, o.events + r.events, r.store)
  }

  /** `_translate_event` on each of `es`, in order. */
  function TranslateEnvelopes(s: RunState, m: Threads, es: seq<Envelope>, ctx: Ctx): Out
    decreases |es|
  {
    if es == [] then Out(s, [], m)
    else
      var o := TranslateEnvelopes(s, m, es[..|es| - 1], ctx);
      var e := es[|es| - 1];
      var r := TranslateParts(o.state, o.store, e, e.parts, ctx);
      Out(r.state, o.events + r.events, r.store)
  }

  /** The reading that stamps the stored statistics: the one after the end
      reading, which is taken only when the start reading is non-zero. */
  function StatsStampRead(clockReads: nat, start: nat): nat {
    if start == 0 then clockReads else clockReads + 1
  }

  /** The tail of a run that completes: the statistics snapshot (also stored),
      the end of a still-open message with a non-empty id, `RUN_FINISHED`.
      The end reading is taken only for a non-zero start, the store's stamp
      only when the store is written. */
  function Finish(o: Out, start: nat, threadId: string, runId: string, ctx: Ctx): Out {
    var end := ctx.env.clockMs(o.state.clockReads);
    var k := StatsStampRead(o.state.clockReads, start);
    var stats := SessionStats(o.state.thinkingTokens, o.state.toolCalls,
                              if start == 0 then 0 else end - start, threadId, runId);
    var o1 := Out(o.state.(clockReads := k + (if ctx.recording then 1 else 0)),
                  o.events + [ActivitySnapshot(SessionStatsId(threadId, runId), "SESSION_STATS", stats, true)],
                  if ctx.recording then Metadata.WithSessionStats(o.store, threadId, stats, ctx.env.clockMs(k)) else o.store);
    var o2 := if o1.state.open.Some? && o1.state.open.value != "" then CloseOpen(o1) else o1;
    o2.(events := o2.events + [RunFinished(threadId, runId)])
  }

  /** `translate_stream`: the whole output of a run over the envelopes `es`,
      after which the upstream either ends (`failure == None`) or raises
      with the message `failure.value`. */
  function Translate(s: RunState, m: Threads, es: seq<Envelope>, failure: Option<string>,
                     threadId: string, runId: string, recording: bool, env: Env): Out
  {
    var ctx := Ctx(threadId, recording, env);
    var start := env.clockMs(s.clockReads);
    var body := TranslateEnvelopes(s.(clockReads := s.clockReads + 1), m, es, ctx);
    var o := body.(events := [RunStarted(threadId, runId)] + body.events);
    match failure
    case Some(msg) => o.(events := o.events + [RunError(msg, TranslationError)])
    case None => Finish(o, start, threadId, runId, ctx)
  }

  /** `Translate` is the run's opening event, the envelopes' events, and the
      tail built from the state and table the envelopes leave. */
  lemma TranslateSplits(s: RunState, m: Threads, es: seq<Envelope>, failure: Option<string>,
                        threadId: string, runId: string, recording: bool, env: Env)
    ensures var ctx := Ctx(threadId, recording, env);
            var body := TranslateEnvelopes(s.(clockReads := s.clockReads + 1), m, es, ctx);
            var o := Translate(s, m, es, failure, threadId, runId, recording, env);
            var tail := if failure.Some? then Out(body.state, [RunError(failure.value, TranslationError)], body.store)
                        else Finish(Out(body.state, [], body.store), env.clockMs(s.clockReads), threadId, runId, ctx);
            o == Out(tail.state, [RunStarted(threadId, runId)] + body.events + tail.events, tail.store)
  {
  }

  /** The translator object. Its fields are the source's; `uuidDraws` and
      `clockReads` are the oracle cursors of this model. */
  class Translator {
    const store: Metadata.MetadataStore?<ThinkingArgs, SessionStats>
    var threadId: Option<string>
    var runId: Option<string>
    var totalThinkingTokens: int
    var totalToolCalls: nat
    var sessionStartTime: Option<nat>
    var messageStarted: bool
    var currentTextMessageId: Option<string>
    var uuidDraws: nat
    var clockReads: nat

    /** A message is started exactly when it has an id. */
    ghost predicate Valid()
      reads this
    {
      messageStarted == currentTextMessageId.Some?
    }

    ghost function State(): RunState
      reads this
    {
      RunState(currentTextMessageId, totalThinkingTokens, totalToolCalls, uuidDraws, clockReads)
    }

    /** The table of the attached store, or an empty one when there is none. */
    ghost function StoreTable(): Threads
      reads this, store
    {
      if store != null then store.threads else map[]
    }

    /** Whether the metadata store is written (`self.metadata_store and self.thread_id`). */
    ghost predicate Recording()
      reads this
    {
      store != null && threadId.Some? && threadId.value != ""
    }

    constructor (store: Metadata.MetadataStore?<ThinkingArgs, SessionStats>)
      ensures Valid() && State() == Initial
      ensures this.store == store && threadId == None && runId == None
    {
      this.store := store;
      threadId, runId := None, None;
      totalThinkingTokens, totalToolCalls := 0, 0;
      sessionStartTime := None;
      messageStarted, currentTextMessageId := false, None;
      uuidDraws, clockReads := 0, 0;
    }

    method CloseMessage() returns (out: seq<Event>)
      requires Valid()
      modifies this
      ensures Valid() && threadId == old(threadId) && runId == old(runId) && sessionStartTime == old(sessionStartTime)
      ensures var o := CloseOpen(Out(old(State()), [], map[]));
              out == o.events && State() == o.state
    {
      out := [];
      if messageStarted {
        out := [TextMessageEnd(currentTextMessageId.value)];
        messageStarted := false;
        currentTextMessageId := None;
      }
    }

    /** The thought branch of `_handle_text_message` once the open message
        is closed: count the tokens, emit the `thinking_step` tool call and
        its result, and record the step in the store. */
    method ThinkingStep(e: Envelope, env: Env) returns (out: seq<Event>)
      requires Valid() && threadId.Some?
      modifies this, store
      ensures Valid() && threadId == old(threadId) && runId == old(runId) && sessionStartTime == old(sessionStartTime)
      ensures var o := EmitThinking(Out(old(State()), [], old(StoreTable())), e, Ctx(threadId.value, Recording(), env));
              out == o.events && State() == o.state && StoreTable() == o.store
    {
      var args := ThinkingArgsOf(e);
      totalThinkingTokens := totalThinkingTokens + args.thoughtsTokenCount;
      var ms := env.clockMs(clockReads);
      clockReads := clockReads + 1;
      var id := ThinkingId(threadId.value, ms);
      out := [ToolCallStart(id, ThinkingToolName),
              ToolCallArgs(id, Thinking(args)),
              ToolCallEnd(id),
              ToolCallResult("result-" + id, id, StatusComplete, "tool")];
      RecordThinking(args, env);
    }

    /** `add_thinking_step` when recording, with a clock reading of its own as `now`. */
    method RecordThinking(args: ThinkingArgs, env: Env)
      requires threadId.Some?
      modifies this, store
      ensures threadId == old(threadId) && runId == old(runId) && sessionStartTime == old(sessionStartTime)
      ensures State() == old(State()).(clockReads := old(clockReads) + (if Recording() then 1 else 0))
      ensures messageStarted == old(messageStarted)
      ensures StoreTable() == if Recording() then Metadata.WithThinking(old(StoreTable()), threadId.value, args, env.clockMs(old(clockReads)))
                              else old(StoreTable())
    {
      if store != null && threadId.value != "" {
        var stamp := env.clockMs(clockReads);
        clockReads := clockReads + 1;
        store.AddThinking(threadId.value, args, stamp);
      }
    }

    method HandleTextMessage(text: string, thought: bool, e: Envelope, env: Env) returns (out: seq<Event>)
      requires Valid() && threadId.Some?
      modifies this, store
      ensures Valid() && threadId == old(threadId) && runId == old(runId) && sessionStartTime == old(sessionStartTime)
      ensures var o := TextStep(Out(old(State()), [], old(StoreTable())), e, text, thought,
                                  Ctx(threadId.value, Recording(), env));
              out == o.events && State() == o.state && StoreTable() == o.store
    {
      out := [];
      if text == "" {
        return;
      }
      if thought {
        ghost var closed := CloseOpen(Out(State(), [], StoreTable()));
        out := CloseMessage();
        var step := ThinkingStep(e, env);
        EmitThinkingAppends(closed, e, Ctx(threadId.value, Recording(), env));
        out := out + step;
      }
      if !messageStarted {
        currentTextMessageId := Some(env.uuid(uuidDraws));
        uuidDraws := uuidDraws + 1;
        messageStarted := true;
        out := out + [TextMessageStart(currentTextMessageId.value, "assistant")];
      }
      out := out + [TextMessageContent(currentTextMessageId.value, text)];
    }

    method HandleFunctionCall(fc: FunctionCall, env: Env) returns (out: seq<Event>)
      requires Valid()
      modifies this
      ensures Valid() && threadId == old(threadId) && runId == old(runId) && sessionStartTime == old(sessionStartTime)
      ensures var o := CallStep(Out(old(State()), [], map[]), fc, Ctx("", false, env));
              out == o.events && State() == o.state
    {
      out := CloseMessage();
      var fallback := env.uuid(uuidDraws);
      uuidDraws := uuidDraws + 1;
      var id := fc.id.GetOr(fallback);
      var name := fc.name.GetOr(UnknownName);
      var args := fc.args.GetOr(EmptyObject);
      totalToolCalls := totalToolCalls + 1;
      out := out + [ToolCallStart(id, name), ToolCallArgs(id, Raw(args)), ToolCallEnd(id)];
    }

    method HandleFunctionResponse(fr: FunctionResponse, env: Env) returns (out: seq<Event>)
      requires Valid()
      modifies this
      ensures Valid() && threadId == old(threadId) && runId == old(runId) && sessionStartTime == old(sessionStartTime)
      ensures var o := ResponseStep(Out(old(State()), [], map[]), fr, Ctx("", false, env));
              out == o.events && State() == o.state
    {
      var id := fr.id.GetOr(env.uuid(uuidDraws));
      uuidDraws := uuidDraws + 1;
      var messageId := env.uuid(uuidDraws);
      uuidDraws := uuidDraws + 1;
      out := [ToolCallResult(messageId, id, Raw(fr.response.GetOr(EmptyObject)), "tool")];
    }

    /** The body of `_translate_event`'s loop: one part, dispatched by kind. */
    method TranslatePartStep(p: Part, e: Envelope, env: Env) returns (out: seq<Event>)
      requires Valid() && threadId.Some?
      modifies this, store
      ensures Valid() && threadId == old(threadId) && runId == old(runId) && sessionStartTime == old(sessionStartTime)
      ensures var o := TranslatePart(old(State()), old(StoreTable()), e, p, Ctx(threadId.value, Recording(), env));
              out == o.events && State() == o.state && StoreTable() == o.store
    {
      if p.text.Some? {
        out := HandleTextMessage(p.text.value, p.thoughtSignature, e, env);
      } else if p.functionCall.Some? {
        out := HandleFunctionCall(p.functionCall.value, env);
      } else if p.functionResponse.Some? {
        out := HandleFunctionResponse(p.functionResponse.value, env);
      } else {
        out := [];
      }
    }

    /** `_translate_event`: every part of `e`, dispatched by kind. */
    method TranslateEvent(e: Envelope, env: Env) returns (out: seq<Event>)
      requires Valid() && threadId.Some?
      modifies this, store
      ensures Valid() && threadId == old(threadId) && runId == old(runId) && sessionStartTime == old(sessionStartTime)
      ensures var o := TranslateParts(old(State()), old(StoreTable()), e, e.parts,
                                      Ctx(threadId.value, Recording(), env));
              out == o.events && State() == o.state && StoreTable() == o.store
    {
      ghost var s0, m0 := State(), StoreTable();
      ghost var ctx := Ctx(threadId.value, Recording(), env);
      out := [];
      var i := 0;
      while i < |e.parts|
        invariant 0 <= i <= |e.parts|
        invariant Valid() && threadId == old(threadId) && runId == old(runId) && sessionStartTime == old(sessionStartTime)
        invariant ctx == Ctx(threadId.value, Recording(), env)
        invariant var o := TranslateParts(s0, m0, e, e.parts[..i], ctx);
                  out == o.events && State() == o.state && StoreTable() == o.store
      {
        assert e.parts[..i + 1][..i] == e.parts[..i];
        var more := TranslatePartStep(e.parts[i], e, env);
        out := out + more;
        i := i + 1;
      }
      assert e.parts[..i] == e.parts;
    }

    /** The end of a run that completed: the session-statistics snapshot
        (also handed to the store), the end of a still-open message, and
        `RUN_FINISHED`. */
    method FinishRun(thread: string, run: string, env: Env) returns (out: seq<Event>)
      requires Valid() && sessionStartTime.Some?
      modifies this, store
      ensures Valid() && threadId == old(threadId) && runId == old(runId)
      ensures var f := Finish(Out(old(State()), [], old(StoreTable())), old(sessionStartTime).value, thread, run,
                              Ctx(thread, store != null && thread != "", env));
              out == f.events && State() == f.state && StoreTable() == f.store
    {
      var duration := 0;
      if sessionStartTime.value != 0 {
        var end := env.clockMs(clockReads);
        clockReads := clockReads + 1;
        duration := end - sessionStartTime.value;
      }
      var stats := SessionStats(totalThinkingTokens, totalToolCalls, duration, thread, run);
      out := [ActivitySnapshot(SessionStatsId(thread, run), "SESSION_STATS", stats, true)];
      RecordStats(thread, stats, env);
      if messageStarted && currentTextMessageId.value != "" {
        out := out + [TextMessageEnd(currentTextMessageId.value)];
        messageStarted := false;
        currentTextMessageId := None;
      }
      out := out + [RunFinished(thread, run)];
    }

    /** `set_session_stats` when a store is attached and the thread id is
        non-empty, with a clock reading of its own as `now`. */
    method RecordStats(thread: string, stats: SessionStats, env: Env)
      modifies this, store
      ensures threadId == old(threadId) && runId == old(runId) && sessionStartTime == old(sessionStartTime)
      ensures State() == old(State()).(clockReads := old(clockReads) + (if store != null && thread != "" then 1 else 0))
      ensures messageStarted == old(messageStarted)
      ensures StoreTable() == if store != null && thread != ""
                              then Metadata.WithSessionStats(old(StoreTable()), thread, stats, env.clockMs(old(clockReads)))
                              else old(StoreTable())
    {
      if store != null && thread != "" {
        var stamp := env.clockMs(clockReads);
        clockReads := clockReads + 1;
        store.SetSessionStats(thread, stats, stamp);
      }
    }

    /** The `async for` loop of `translate_stream`: each envelope in turn. */
    method TranslateEvents(es: seq<Envelope>, env: Env) returns (out: seq<Event>)
      requires Valid() && threadId.Some?
      modifies this, store
      ensures Valid() && threadId == old(threadId) && runId == old(runId) && sessionStartTime == old(sessionStartTime)
      ensures var o := TranslateEnvelopes(old(State()), old(StoreTable()), es, Ctx(threadId.value, Recording(), env));
              out == o.events && State() == o.state && StoreTable() == o.store
    {
      ghost var s0, m0 := State(), StoreTable();
      ghost var ctx := Ctx(threadId.value, Recording(), env);
      out := [];
      var i := 0;
      while i < |es|
        invariant 0 <= i <= |es|
        invariant Valid() && threadId == old(threadId) && runId == old(runId) && sessionStartTime == old(sessionStartTime)
        invariant ctx == Ctx(threadId.value, Recording(), env)
        invariant var o := TranslateEnvelopes(s0, m0, es[..i], ctx);
                  out == o.events && State() == o.state && StoreTable() == o.store
      {
        assert es[..i + 1][..i] == es[..i];
        var more := TranslateEvent(es[i], env);
        out := out + more;
        i := i + 1;
      }
      assert es[..i] == es;
    }

    /** `translate_stream` over the envelopes `es`; `failure` is the message of
        the exception the upstream raises after them, if it raises. */
    method TranslateStream(es: seq<Envelope>, failure: Option<string>, thread: string, run: string, env: Env)
      returns (out: seq<Event>)
      requires Valid()
      modifies this, store
      ensures Valid()
      ensures threadId == Some(thread) && runId == Some(run)
      ensures var o := Translate(old(State()), old(StoreTable()), es, failure, thread, run,
                                 store != null && thread != "", env);
              out == o.events && State() == o.state && StoreTable() == o.store
    {
      threadId := Some(thread);
      runId := Some(run);
      var start := env.clockMs(clockReads);
      clockReads := clockReads + 1;
      sessionStartTime := Some(start);
      var body := TranslateEvents(es, env);
      TranslateSplits(old(State()), old(StoreTable()), es, failure, thread, run, store != null && thread != "", env);
      out := [RunStarted(thread, run)] + body;
      if failure.Some? {
        out := out + [RunError(failure.value, TranslationError)];
        return;
      }
      var tail := FinishRun(thread, run, env);
      out := out + tail;
    }
  }
}
