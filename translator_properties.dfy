/** What the translator of src/protocol_translator.py promises about its
    output, proved of the functions the `Translator` methods are verified
    against: the text-message bracket discipline, the shape of a run's
    beginning and end, the counters in the session statistics, what each
    kind of part emits, and what the metadata store receives. */
module TranslatorProperties {
  import opened Wrappers
  import opened ProtocolTranslator
  import Metadata

  // ---------------------------------------------------------------------
  // The bracket discipline of text messages
  // ---------------------------------------------------------------------

  /** One event against the id of the open message: a start needs no open
      message, a content or an end needs its own id to be the open one.
      `None` is a violation; otherwise the id open afterwards. */
  function BracketStep(open: Option<string>, e: Event): Option<Option<string>> {
    match e
    case TextMessageStart(id, _) => if open.None? then Some(Some(id)) else None
    case TextMessageContent(id, _) => if open == Some(id) then Some(open) else None
    case TextMessageEnd(id) => if open == Some(id) then Some(None) else None
    case _ => Some(open)
  }

  /** Checks `evs` event by event from the open message `open`: `None` if some
      event breaks the discipline, otherwise the message still open at the end. */
  function Brackets(open: Option<string>, evs: seq<Event>): Option<Option<string>>
    decreases |evs|
  {
    if evs == [] then Some(open)
    else match BracketStep(open, evs[0])
      case None => None
      case Some(next) => Brackets(next, evs[1..])
  }

  lemma {:induction false} BracketsAppend(open: Option<string>, a: seq<Event>, b: seq<Event>)
    ensures Brackets(open, a + b)
         == match Brackets(open, a) case None => None case Some(mid) => Brackets(mid, b)
    decreases |a|
  {
    if a == [] {
      assert a + b == b;
    } else {
      assert (a + b)[0] == a[0];
      assert (a + b)[1..] == a[1..] + b;
      match BracketStep(open, a[0])
      case None =>
      case Some(next) => BracketsAppend(next, a[1..], b);
    }
  }

  /** An event that is not about text messages leaves the discipline as it was. */
  predicate IsTextEvent(e: Event) {
    e.TextMessageStart? || e.TextMessageContent? || e.TextMessageEnd?
  }

  lemma {:induction false} BracketsSkipOthers(open: Option<string>, evs: seq<Event>)
    requires forall i :: 0 <= i < |evs| ==> !IsTextEvent(evs[i])
    ensures Brackets(open, evs) == Some(open)
    decreases |evs|
  {
    if evs != [] {
      BracketsSkipOthers(open, evs[1..]);
    }
  }

  lemma BracketsSnoc(open: Option<string>, evs: seq<Event>, e: Event)
    ensures Brackets(open, evs + [e])
         == match Brackets(open, evs) case None => None case Some(mid) => BracketStep(mid, e)
  {
    BracketsAppend(open, evs, [e]);
    match Brackets(open, evs)
    case None =>
    case Some(mid) =>
      assert [e][1..] == [];
      match BracketStep(mid, e)
      case None =>
      case Some(next) => assert Brackets(next, []) == Some(next);
  }

  /** The events of `o` are well bracketed from the message `open` and leave
      open the message `o`'s state records. */
  predicate Tracks(open: Option<string>, o: Out) {
    Brackets(open, o.events) == Some(o.state.open)
  }

  lemma CloseOpenTracks(open: Option<string>, o: Out)
    requires Tracks(open, o)
    ensures Tracks(open, CloseOpen(o)) && CloseOpen(o).state.open == None
  {
    if o.state.open.Some? {
      BracketsSnoc(open, o.events, TextMessageEnd(o.state.open.value));
    }
  }

  lemma OpenMessageTracks(open: Option<string>, o: Out, ctx: Ctx)
    requires Tracks(open, o) && o.state.open.None?
    ensures Tracks(open, OpenMessage(o, ctx))
  {
    BracketsSnoc(open, o.events, TextMessageStart(ctx.env.uuid(o.state.uuidDraws), "assistant"));
  }

  lemma EmitThinkingTracks(open: Option<string>, o: Out, e: Envelope, ctx: Ctx)
    requires Tracks(open, o)
    ensures Tracks(open, EmitThinking(o, e, ctx))
  {
    var t := EmitThinking(o, e, ctx);
    var added := t.events[|o.events|..];
    assert t.events == o.events + added;
    BracketsSkipOthers(o.state.open, added);
    BracketsAppend(open, o.events, added);
  }

  lemma TextStepTracks(open: Option<string>, o: Out, e: Envelope, text: string, thought: bool, ctx: Ctx)
    requires Tracks(open, o)
    ensures Tracks(open, TextStep(o, e, text, thought, ctx))
  {
    if text != "" {
      var o1 := if thought then EmitThinking(CloseOpen(o), e, ctx) else o;
      if thought {
        CloseOpenTracks(open, o);
        EmitThinkingTracks(open, CloseOpen(o), e, ctx);
      }
      var o2 := if o1.state.open.None? then OpenMessage(o1, ctx) else o1;
      if o1.state.open.None? {
        OpenMessageTracks(open, o1, ctx);
      }
      BracketsSnoc(open, o2.events, TextMessageContent(o2.state.open.value, text));
    }
  }

  lemma CallStepTracks(open: Option<string>, o: Out, fc: FunctionCall, ctx: Ctx)
    requires Tracks(open, o)
    ensures Tracks(open, CallStep(o, fc, ctx))
  {
    var o1 := CloseOpen(o);
    CloseOpenTracks(open, o);
    var c := CallStep(o, fc, ctx);
    var added := c.events[|o1.events|..];
    assert c.events == o1.events + added;
    BracketsSkipOthers(o1.state.open, added);
    BracketsAppend(open, o1.events, added);
  }

  /** A message id is never the empty string (the final
      `TEXT_MESSAGE_END` needs a truthy id). */
  predicate OpenIdNonEmpty(s: RunState) {
    s.open.None? || s.open.value != ""
  }

  /** The uuid oracle never yields an empty id, as `str(uuid.uuid4())` never does. */
  ghost predicate UuidsNonEmpty(env: Env) {
    forall k :: env.uuid(k) != ""
  }

  /** Every part keeps the discipline: its events are well bracketed from the
      message open before it and leave open the message its state records. */
  lemma PartKeepsBrackets(s: RunState, m: Threads, e: Envelope, p: Part, ctx: Ctx)
    ensures Tracks(s.open, TranslatePart(s, m, e, p, ctx))
    ensures OpenIdNonEmpty(s) && UuidsNonEmpty(ctx.env) ==> OpenIdNonEmpty(TranslatePart(s, m, e, p, ctx).state)
  {
    var o := Out(s, [], m);
    assert Tracks(s.open, o);
    match KindOf(p)
    case TextPart => TextStepTracks(s.open, o, e, p.text.value, p.thoughtSignature, ctx);
    case CallPart => CallStepTracks(s.open, o, p.functionCall.value, ctx);
    case ResponsePart =>
      var r := ResponseStep(o, p.functionResponse.value, ctx);
      BracketsSnoc(s.open, [], r.events[0]);
      assert r.events == [] + [r.events[0]];
    case SkippedPart =>
  }

  lemma {:induction false} PartsKeepBrackets(s: RunState, m: Threads, e: Envelope, ps: seq<Part>, ctx: Ctx)
    ensures Tracks(s.open, TranslateParts(s, m, e, ps, ctx))
    ensures OpenIdNonEmpty(s) && UuidsNonEmpty(ctx.env) ==> OpenIdNonEmpty(TranslateParts(s, m, e, ps, ctx).state)
    decreases |ps|
  {
    if ps != [] {
      var o := TranslateParts(s, m, e, ps[..|ps| - 1], ctx);
      PartsKeepBrackets(s, m, e, ps[..|ps| - 1], ctx);
      var r := TranslatePart(o.state, o.store, e, ps[|ps| - 1], ctx);
      PartKeepsBrackets(o.state, o.store, e, ps[|ps| - 1], ctx);
      BracketsAppend(s.open, o.events, r.events);
    }
  }

  lemma {:induction false} EnvelopesKeepBrackets(s: RunState, m: Threads, es: seq<Envelope>, ctx: Ctx)
    ensures Tracks(s.open, TranslateEnvelopes(s, m, es, ctx))
    ensures OpenIdNonEmpty(s) && UuidsNonEmpty(ctx.env) ==> OpenIdNonEmpty(TranslateEnvelopes(s, m, es, ctx).state)
    decreases |es|
  {
    if es != [] {
      var o := TranslateEnvelopes(s, m, es[..|es| - 1], ctx);
      EnvelopesKeepBrackets(s, m, es[..|es| - 1], ctx);
      var e := es[|es| - 1];
      var r := TranslateParts(o.state, o.store, e, e.parts, ctx);
      PartsKeepBrackets(o.state, o.store, e, e.parts, ctx);
      BracketsAppend(s.open, o.events, r.events);
    }
  }

  /** The state and table the envelopes of a run leave, with the run's
      opening event in front of their events: what the tail is built on. */
  function Body(s: RunState, m: Threads, es: seq<Envelope>, threadId: string, runId: string,
                recording: bool, env: Env): Out
  {
    var body := TranslateEnvelopes(s.(clockReads := s.clockReads + 1), m, es, Ctx(threadId, recording, env));
    body.(events := [RunStarted(threadId, runId)] + body.events)
  }

  lemma BodyTracks(s: RunState, m: Threads, es: seq<Envelope>, threadId: string, runId: string,
                   recording: bool, env: Env)
    ensures Tracks(s.open, Body(s, m, es, threadId, runId, recording, env))
    ensures OpenIdNonEmpty(s) && UuidsNonEmpty(env) ==> OpenIdNonEmpty(Body(s, m, es, threadId, runId, recording, env).state)
  {
    var body := TranslateEnvelopes(s.(clockReads := s.clockReads + 1), m, es, Ctx(threadId, recording, env));
    EnvelopesKeepBrackets(s.(clockReads := s.clockReads + 1), m, es, Ctx(threadId, recording, env));
    BracketsAppend(s.open, [RunStarted(threadId, runId)], body.events);
    assert Brackets(s.open, [RunStarted(threadId, runId)]) == Some(s.open) by {
      assert Brackets(s.open, []) == Some(s.open);
    }
  }

  /** The tail of a completed run, spelled out: the snapshot of the counters,
      the end of a message still open under a non-empty id, `RUN_FINISHED`. */
  lemma FinishShape(o: Out, start: nat, threadId: string, runId: string, ctx: Ctx)
    ensures var f := Finish(o, start, threadId, runId, ctx);
            var k := |o.events|;
            var closes := o.state.open.Some? && o.state.open.value != "";
            && |f.events| == k + (if closes then 3 else 2)
            && f.events[..k] == o.events
            && f.events[k].ActivitySnapshot?
            && f.events[k].messageId == SessionStatsId(threadId, runId)
            && f.events[k].activityType == "SESSION_STATS"
            && f.events[k].replace
            && f.events[k].stats.totalToolCalls == o.state.toolCalls
            && f.events[k].stats.totalThinkingTokens == o.state.thinkingTokens
            && f.events[k].stats.threadId == threadId
            && f.events[k].stats.runId == runId
            && (closes ==> f.events[k + 1] == TextMessageEnd(o.state.open.value))
            && f.events[|f.events| - 1] == RunFinished(threadId, runId)
            && f.state.open == (if closes then None else o.state.open)
            && f.state.toolCalls == o.state.toolCalls
            && f.state.thinkingTokens == o.state.thinkingTokens
            && f.store == (if ctx.recording
                           then Metadata.WithSessionStats(o.store, threadId, f.events[k].stats,
                                                     ctx.env.clockMs(StatsStampRead(o.state.clockReads, start)))
                           else o.store)
  {
  }

  /** The events `Finish` adds: the snapshot, the closing end when a
      non-empty message is open, and `RUN_FINISHED`. */
  lemma FinishAdded(o: Out, start: nat, threadId: string, runId: string, ctx: Ctx)
    ensures var f := Finish(o, start, threadId, runId, ctx);
            var closes := o.state.open.Some? && o.state.open.value != "";
            var closing := if closes then [TextMessageEnd(o.state.open.value)] else [];
            && |f.events| > |o.events|
            && f.events == o.events + ([f.events[|o.events|]] + closing + [RunFinished(threadId, runId)])
            && f.events[|o.events|].ActivitySnapshot?
            && f.state.open == (if closes then None else o.state.open)
  {
  }

  lemma FinishTracks(open: Option<string>, o: Out, start: nat, threadId: string, runId: string, ctx: Ctx)
    requires Tracks(open, o) && OpenIdNonEmpty(o.state)
    ensures Tracks(open, Finish(o, start, threadId, runId, ctx))
    ensures Finish(o, start, threadId, runId, ctx).state.open == None
  {
    var f := Finish(o, start, threadId, runId, ctx);
    FinishAdded(o, start, threadId, runId, ctx);
    var k := |o.events|;
    var closing := if o.state.open.Some? then [TextMessageEnd(o.state.open.value)] else [];
    var added := [f.events[k]] + closing + [RunFinished(threadId, runId)];
    assert f.events == o.events + added;
    var none: Option<string> := None;
    assert Brackets(o.state.open, added) == Some(none) by {
      assert added[1..] == closing + [RunFinished(threadId, runId)];
      BracketsSnoc(o.state.open, closing, RunFinished(threadId, runId));
      if o.state.open.Some? {
        assert Brackets(none, []) == Some(none);
      }
    }
    BracketsAppend(open, o.events, added);
  }

  /** A run that completes is well bracketed and closes every message it
      opened, as well as one open before it: every `TEXT_MESSAGE_START` is
      matched by exactly one later `TEXT_MESSAGE_END`, no message is started
      while another is open, and every `TEXT_MESSAGE_CONTENT` carries the id
      of the open message. */
  lemma CompletedRunIsWellBracketed(s: RunState, m: Threads, es: seq<Envelope>,
                                    threadId: string, runId: string, recording: bool, env: Env)
    requires OpenIdNonEmpty(s) && UuidsNonEmpty(env)
    ensures var o := Translate(s, m, es, None, threadId, runId, recording, env);
            Brackets(s.open, o.events) == Some(None) && o.state.open == None
  {
    BodyTracks(s, m, es, threadId, runId, recording, env);
    FinishTracks(s.open, Body(s, m, es, threadId, runId, recording, env), env.clockMs(s.clockReads),
                 threadId, runId, Ctx(threadId, recording, env));
  }

  /** When the upstream raises, the output stays well bracketed up to the
      `RUN_ERROR`, but a message open at that point is left open: no
      `TEXT_MESSAGE_END` is emitted for it. */
  lemma FailedRunLeavesMessageOpen(s: RunState, m: Threads, es: seq<Envelope>, msg: string,
                                   threadId: string, runId: string, recording: bool, env: Env)
    ensures var o := Translate(s, m, es, Some(msg), threadId, runId, recording, env);
            var body := Body(s, m, es, threadId, runId, recording, env);
            Brackets(s.open, o.events) == Some(body.state.open) && o.state.open == body.state.open
  {
    var body := Body(s, m, es, threadId, runId, recording, env);
    BodyTracks(s, m, es, threadId, runId, recording, env);
    BracketsSnoc(s.open, body.events, RunError(msg, TranslationError));
  }

  // ---------------------------------------------------------------------
  // Counting starts and ends
  // ---------------------------------------------------------------------

  function CountStarts(evs: seq<Event>): nat
    decreases |evs|
  {
    if evs == [] then 0 else (if evs[0].TextMessageStart? then 1 else 0) + CountStarts(evs[1..])
  }

  function CountEnds(evs: seq<Event>): nat
    decreases |evs|
  {
    if evs == [] then 0 else (if evs[0].TextMessageEnd? then 1 else 0) + CountEnds(evs[1..])
  }

  /** Well-bracketed events start as many messages as they end, up to the
      message open before them and the one open after them. */
  lemma {:induction false} BracketsBalance(open: Option<string>, evs: seq<Event>)
    requires Brackets(open, evs).Some?
    ensures CountStarts(evs) + (if open.Some? then 1 else 0)
         == CountEnds(evs) + (if Brackets(open, evs).value.Some? then 1 else 0)
    decreases |evs|
  {
    if evs != [] {
      var next := BracketStep(open, evs[0]).value;
      BracketsBalance(next, evs[1..]);
    }
  }

  /** In a completed run of a fresh translator, every started text message is
      ended: the output holds as many `TEXT_MESSAGE_END` as `TEXT_MESSAGE_START`. */
  lemma CompletedRunEndsEveryMessage(m: Threads, es: seq<Envelope>,
                                     threadId: string, runId: string, recording: bool, env: Env)
    requires UuidsNonEmpty(env)
    ensures var o := Translate(Initial, m, es, None, threadId, runId, recording, env);
            CountStarts(o.events) == CountEnds(o.events)
  {
    CompletedRunIsWellBracketed(Initial, m, es, threadId, runId, recording, env);
    BracketsBalance(None, Translate(Initial, m, es, None, threadId, runId, recording, env).events);
  }

  // ---------------------------------------------------------------------
  // The shape of a run
  // ---------------------------------------------------------------------

  /** The events a part can produce: text-message and tool-call events. */
  predicate IsPartEvent(e: Event) {
    IsTextEvent(e) || e.ToolCallStart? || e.ToolCallArgs? || e.ToolCallEnd? || e.ToolCallResult?
  }

  predicate AllPartEvents(evs: seq<Event>) {
    forall i :: 0 <= i < |evs| ==> IsPartEvent(evs[i])
  }

  lemma AllPartEventsAppend(a: seq<Event>, b: seq<Event>)
    requires AllPartEvents(a) && AllPartEvents(b)
    ensures AllPartEvents(a + b)
  {
  }

  lemma PartEmitsPartEventsOnly(s: RunState, m: Threads, e: Envelope, p: Part, ctx: Ctx)
    ensures AllPartEvents(TranslatePart(s, m, e, p, ctx).events)
  {
  }

  lemma {:induction false} PartsEmitPartEventsOnly(s: RunState, m: Threads, e: Envelope, ps: seq<Part>, ctx: Ctx)
    ensures AllPartEvents(TranslateParts(s, m, e, ps, ctx).events)
    decreases |ps|
  {
    if ps != [] {
      PartsEmitPartEventsOnly(s, m, e, ps[..|ps| - 1], ctx);
      var o := TranslateParts(s, m, e, ps[..|ps| - 1], ctx);
      PartEmitsPartEventsOnly(o.state, o.store, e, ps[|ps| - 1], ctx);
      AllPartEventsAppend(o.events, TranslatePart(o.state, o.store, e, ps[|ps| - 1], ctx).events);
    }
  }

  lemma {:induction false} EnvelopesEmitPartEventsOnly(s: RunState, m: Threads, es: seq<Envelope>, ctx: Ctx)
    ensures AllPartEvents(TranslateEnvelopes(s, m, es, ctx).events)
    decreases |es|
  {
    if es != [] {
      EnvelopesEmitPartEventsOnly(s, m, es[..|es| - 1], ctx);
      var o := TranslateEnvelopes(s, m, es[..|es| - 1], ctx);
      var e := es[|es| - 1];
      PartsEmitPartEventsOnly(o.state, o.store, e, e.parts, ctx);
      AllPartEventsAppend(o.events, TranslateParts(o.state, o.store, e, e.parts, ctx).events);
    }
  }

  /** `RUN_STARTED` with the run's ids opens the run, followed by the parts'
      events only. */
  lemma BodyShape(s: RunState, m: Threads, es: seq<Envelope>, threadId: string, runId: string,
                  recording: bool, env: Env)
    ensures var body := Body(s, m, es, threadId, runId, recording, env);
            && |body.events| >= 1
            && body.events[0] == RunStarted(threadId, runId)
            && forall i :: 0 < i < |body.events| ==> IsPartEvent(body.events[i])
  {
    var ctx := Ctx(threadId, recording, env);
    var inner := TranslateEnvelopes(s.(clockReads := s.clockReads + 1), m, es, ctx);
    EnvelopesEmitPartEventsOnly(s.(clockReads := s.clockReads + 1), m, es, ctx);
    var body := Body(s, m, es, threadId, runId, recording, env);
    assert forall i :: 0 < i < |body.events| ==> body.events[i] == inner.events[i - 1];
  }

  /** A completed run: `RUN_STARTED` first and never again, the parts'
      events, the `ACTIVITY_SNAPSHOT` of the session statistics, a
      `TEXT_MESSAGE_END` exactly when a message with a non-empty id is still
      open, and `RUN_FINISHED` last. */
  lemma CompletedRunShape(s: RunState, m: Threads, es: seq<Envelope>,
                          threadId: string, runId: string, recording: bool, env: Env)
    ensures var o := Translate(s, m, es, None, threadId, runId, recording, env);
            var body := Body(s, m, es, threadId, runId, recording, env);
            var n := |o.events|;
            var k := |body.events|;
            var closes := body.state.open.Some? && body.state.open.value != "";
            && 1 <= k
            && n == k + (if closes then 3 else 2)
            && o.events[0] == RunStarted(threadId, runId)
            && (forall i :: 0 < i < k ==> IsPartEvent(o.events[i]))
            && (forall i :: 0 < i < n ==> !o.events[i].RunStarted?)
            && o.events[k].ActivitySnapshot?
            && o.events[k].messageId == SessionStatsId(threadId, runId)
            && o.events[k].stats.totalToolCalls == body.state.toolCalls
            && o.events[k].stats.totalThinkingTokens == body.state.thinkingTokens
            && (closes ==> o.events[k + 1] == TextMessageEnd(body.state.open.value))
            && o.events[n - 1] == RunFinished(threadId, runId)
  {
    var body := Body(s, m, es, threadId, runId, recording, env);
    BodyShape(s, m, es, threadId, runId, recording, env);
    FinishShape(body, env.clockMs(s.clockReads), threadId, runId, Ctx(threadId, recording, env));
    var o := Translate(s, m, es, None, threadId, runId, recording, env);
    assert forall i :: 0 <= i < |body.events| ==> o.events[i] == o.events[..|body.events|][i];
  }

  /** A failed run: `RUN_STARTED` first, the parts' events, then a single
      `RUN_ERROR` of code `TRANSLATION_ERROR` carrying the upstream's
      message; it holds neither a snapshot nor `RUN_FINISHED`. */
  lemma FailedRunShape(s: RunState, m: Threads, es: seq<Envelope>, msg: string,
                       threadId: string, runId: string, recording: bool, env: Env)
    ensures var o := Translate(s, m, es, Some(msg), threadId, runId, recording, env);
            var n := |o.events|;
            && n >= 2
            && o.events[0] == RunStarted(threadId, runId)
            && (forall i :: 0 < i < n - 1 ==> IsPartEvent(o.events[i]))
            && o.events[n - 1] == RunError(msg, TranslationError)
            && (forall i :: 0 <= i < n ==> !o.events[i].RunFinished? && !o.events[i].ActivitySnapshot?)
  {
    var body := Body(s, m, es, threadId, runId, recording, env);
    BodyShape(s, m, es, threadId, runId, recording, env);
    var o := Translate(s, m, es, Some(msg), threadId, runId, recording, env);
    assert o.events == body.events + [RunError(msg, TranslationError)];
  }

  // ---------------------------------------------------------------------
  // The session-statistics counters
  // ---------------------------------------------------------------------

  /** Function-call parts among `ps`, as dispatch sees them (a part that also
      has text is a text part). */
  function CallsIn(ps: seq<Part>): nat
    decreases |ps|
  {
    if ps == [] then 0 else (if KindOf(ps[0]) == CallPart then 1 else 0) + CallsIn(ps[1..])
  }

  function CallParts(es: seq<Envelope>): nat
    decreases |es|
  {
    if es == [] then 0 else CallsIn(es[0].parts) + CallParts(es[1..])
  }

  /** Thought parts among `ps` (signature and non-empty text). */
  function ThoughtsIn(ps: seq<Part>): nat
    decreases |ps|
  {
    if ps == [] then 0 else (if IsThought(ps[0]) then 1 else 0) + ThoughtsIn(ps[1..])
  }

  function ThoughtParts(es: seq<Envelope>): nat
    decreases |es|
  {
    if es == [] then 0 else ThoughtsIn(es[0].parts) + ThoughtParts(es[1..])
  }

  /** The envelope's `thoughts_token_count` (default 0), once per thought part. */
  function TokensIn(e: Envelope, ps: seq<Part>): int
    decreases |ps|
  {
    if ps == [] then 0
    else (if IsThought(ps[0]) then e.usage.thoughtsTokenCount.GetOr(0) else 0) + TokensIn(e, ps[1..])
  }

  function ThoughtTokens(es: seq<Envelope>): int
    decreases |es|
  {
    if es == [] then 0 else TokensIn(es[0], es[0].parts) + ThoughtTokens(es[1..])
  }

  /** The thinking arguments of the thought parts among `ps`, in order. */
  function ThoughtArgsIn(e: Envelope, ps: seq<Part>): seq<ThinkingArgs>
    decreases |ps|
  {
    if ps == [] then []
    else (if IsThought(ps[0]) then [ThinkingArgsOf(e)] else []) + ThoughtArgsIn(e, ps[1..])
  }

  function ThoughtArgs(es: seq<Envelope>): seq<ThinkingArgs>
    decreases |es|
  {
    if es == [] then [] else ThoughtArgsIn(es[0], es[0].parts) + ThoughtArgs(es[1..])
  }

  lemma {:induction false} PartCountsSnoc(e: Envelope, ps: seq<Part>, p: Part)
    ensures CallsIn(ps + [p]) == CallsIn(ps) + (if KindOf(p) == CallPart then 1 else 0)
    ensures ThoughtsIn(ps + [p]) == ThoughtsIn(ps) + (if IsThought(p) then 1 else 0)
    ensures TokensIn(e, ps + [p]) == TokensIn(e, ps) + (if IsThought(p) then e.usage.thoughtsTokenCount.GetOr(0) else 0)
    decreases |ps|
  {
    if ps == [] {
      assert [] + [p] == [p];
    } else {
      assert (ps + [p])[1..] == ps[1..] + [p];
      PartCountsSnoc(e, ps[1..], p);
    }
  }

  lemma {:induction false} EnvelopeCountsSnoc(es: seq<Envelope>, e: Envelope)
    ensures CallParts(es + [e]) == CallParts(es) + CallsIn(e.parts)
    ensures ThoughtParts(es + [e]) == ThoughtParts(es) + ThoughtsIn(e.parts)
    ensures ThoughtTokens(es + [e]) == ThoughtTokens(es) + TokensIn(e, e.parts)
    decreases |es|
  {
    if es == [] {
      assert [] + [e] == [e];
    } else {
      assert (es + [e])[1..] == es[1..] + [e];
      EnvelopeCountsSnoc(es[1..], e);
    }
  }

  lemma {:induction false} PartArgsSnoc(e: Envelope, ps: seq<Part>, p: Part)
    ensures ThoughtArgsIn(e, ps + [p]) == ThoughtArgsIn(e, ps) + (if IsThought(p) then [ThinkingArgsOf(e)] else [])
    decreases |ps|
  {
    if ps == [] {
      assert [] + [p] == [p];
    } else {
      assert (ps + [p])[1..] == ps[1..] + [p];
      PartArgsSnoc(e, ps[1..], p);
    }
  }

  lemma {:induction false} EnvelopeArgsSnoc(es: seq<Envelope>, e: Envelope)
    ensures ThoughtArgs(es + [e]) == ThoughtArgs(es) + ThoughtArgsIn(e, e.parts)
    decreases |es|
  {
    if es == [] {
      assert [] + [e] == [e];
    } else {
      assert (es + [e])[1..] == es[1..] + [e];
      EnvelopeArgsSnoc(es[1..], e);
    }
  }

  /** One part moves the counters by exactly its own contribution: a function
      call adds one tool call, a thought part adds its envelope's token count. */
  lemma PartCounts(s: RunState, m: Threads, e: Envelope, p: Part, ctx: Ctx)
    ensures var o := TranslatePart(s, m, e, p, ctx);
            && o.state.toolCalls == s.toolCalls + (if KindOf(p) == CallPart then 1 else 0)
            && o.state.thinkingTokens == s.thinkingTokens + (if IsThought(p) then e.usage.thoughtsTokenCount.GetOr(0) else 0)
  {
  }

  lemma {:induction false} PartsCount(s: RunState, m: Threads, e: Envelope, ps: seq<Part>, ctx: Ctx)
    ensures var o := TranslateParts(s, m, e, ps, ctx);
            && o.state.toolCalls == s.toolCalls + CallsIn(ps)
            && o.state.thinkingTokens == s.thinkingTokens + TokensIn(e, ps)
    decreases |ps|
  {
    if ps != [] {
      var init := ps[..|ps| - 1];
      PartsCount(s, m, e, init, ctx);
      var o := TranslateParts(s, m, e, init, ctx);
      PartCounts(o.state, o.store, e, ps[|ps| - 1], ctx);
      PartCountsSnoc(e, init, ps[|ps| - 1]);
      assert init + [ps[|ps| - 1]] == ps;
    }
  }

  /** After the envelopes, the tool-call counter has grown by the number of
      function-call parts and the token counter by the thought tokens. */
  lemma {:induction false} EnvelopesCount(s: RunState, m: Threads, es: seq<Envelope>, ctx: Ctx)
    ensures var o := TranslateEnvelopes(s, m, es, ctx);
            && o.state.toolCalls == s.toolCalls + CallParts(es)
            && o.state.thinkingTokens == s.thinkingTokens + ThoughtTokens(es)
    decreases |es|
  {
    if es != [] {
      var init := es[..|es| - 1];
      var e := es[|es| - 1];
      EnvelopesCount(s, m, init, ctx);
      var o := TranslateEnvelopes(s, m, init, ctx);
      PartsCount(o.state, o.store, e, e.parts, ctx);
      EnvelopeCountsSnoc(init, e);
      assert init + [e] == es;
    }
  }

  /** The snapshot of a completed run of a fresh translator reports the number
      of function-call parts and the thought tokens of this run exactly. */
  lemma SnapshotReportsRunTotals(m: Threads, es: seq<Envelope>, threadId: string, runId: string,
                                 recording: bool, env: Env)
    ensures var o := Translate(Initial, m, es, None, threadId, runId, recording, env);
            var n := |o.events|;
            var k := if o.events[n - 2].ActivitySnapshot? then n - 2 else n - 3;
            && 1 <= k
            && o.events[k].ActivitySnapshot?
            && o.events[k].stats.totalToolCalls == CallParts(es)
            && o.events[k].stats.totalThinkingTokens == ThoughtTokens(es)
  {
    CompletedRunShape(Initial, m, es, threadId, runId, recording, env);
    EnvelopesCount(Initial.(clockReads := 1), m, es, Ctx(threadId, recording, env));
  }

  /** The counters are not reset by `translate_stream`: a translator that
      already ran reports its earlier totals plus this run's. */
  lemma ReusedTranslatorCarriesCounters(s: RunState, m: Threads, es: seq<Envelope>,
                                        threadId: string, runId: string, recording: bool, env: Env)
    ensures var o := Translate(s, m, es, None, threadId, runId, recording, env);
            && o.state.toolCalls == s.toolCalls + CallParts(es)
            && o.state.thinkingTokens == s.thinkingTokens + ThoughtTokens(es)
    ensures var o := Translate(s, m, es, None, threadId, runId, recording, env);
            var n := |o.events|;
            var k := if o.events[n - 2].ActivitySnapshot? then n - 2 else n - 3;
            && 1 <= k
            && o.events[k].ActivitySnapshot?
            && o.events[k].stats.totalToolCalls == s.toolCalls + CallParts(es)
            && o.events[k].stats.totalThinkingTokens == s.thinkingTokens + ThoughtTokens(es)
  {
    CompletedRunShape(s, m, es, threadId, runId, recording, env);
    EnvelopesCount(s.(clockReads := s.clockReads + 1), m, es, Ctx(threadId, recording, env));
    TranslateSplits(s, m, es, None, threadId, runId, recording, env);
  }

  // ---------------------------------------------------------------------
  // What each kind of part emits
  // ---------------------------------------------------------------------

  /** An empty text part emits nothing and changes nothing, even with a
      thought signature. */
  lemma EmptyTextIsSilent(s: RunState, m: Threads, e: Envelope, p: Part, ctx: Ctx)
    requires p.text == Some("")
    ensures TranslatePart(s, m, e, p, ctx) == Out(s, [], m)
  {
  }

  /** Plain text streams into the open message, opening one first only when
      none is open. */
  lemma PlainTextStreams(s: RunState, m: Threads, e: Envelope, p: Part, ctx: Ctx)
    requires p.text.Some? && p.text.value != "" && !p.thoughtSignature
    ensures var o := TranslatePart(s, m, e, p, ctx);
            && o.state.open.Some?
            && o.events[|o.events| - 1] == TextMessageContent(o.state.open.value, p.text.value)
            && (s.open.Some? ==> o.events == [TextMessageContent(s.open.value, p.text.value)] && o.state == s)
            && (s.open.None? ==> o.events == [TextMessageStart(o.state.open.value, "assistant"),
                                              TextMessageContent(o.state.open.value, p.text.value)])
            && o.state.toolCalls == s.toolCalls && o.state.thinkingTokens == s.thinkingTokens
            && o.store == m
  {
  }

  /** A thought part closes the open message, emits the `thinking_step`
      START, ARGS, END and RESULT under one id, then opens a new message and
      streams its text there; it adds no tool call. */
  lemma ThoughtPartShape(s: RunState, m: Threads, e: Envelope, p: Part, ctx: Ctx)
    requires IsThought(p)
    ensures var o := TranslatePart(s, m, e, p, ctx);
            var c := if s.open.Some? then 1 else 0;
            var id := o.events[c].toolCallId;
            && |o.events| == c + 6
            && (s.open.Some? ==> o.events[0] == TextMessageEnd(s.open.value))
            && o.events[c] == ToolCallStart(id, ThinkingToolName)
            && o.events[c + 1] == ToolCallArgs(id, Thinking(ThinkingArgsOf(e)))
            && o.events[c + 2] == ToolCallEnd(id)
            && o.events[c + 3] == ToolCallResult("result-" + id, id, StatusComplete, "tool")
            && o.state.open.Some?
            && o.events[c + 4] == TextMessageStart(o.state.open.value, "assistant")
            && o.events[c + 5] == TextMessageContent(o.state.open.value, p.text.value)
            && o.state.toolCalls == s.toolCalls
            && o.state.thinkingTokens == s.thinkingTokens + e.usage.thoughtsTokenCount.GetOr(0)
  {
  }

  /** A function call closes the open message and emits START, ARGS, END
      with one id (the upstream one when present), and counts one tool call. */
  lemma FunctionCallShape(s: RunState, m: Threads, e: Envelope, p: Part, ctx: Ctx)
    requires KindOf(p) == CallPart
    ensures var o := TranslatePart(s, m, e, p, ctx);
            var fc := p.functionCall.value;
            var c := if s.open.Some? then 1 else 0;
            var id := o.events[c].toolCallId;
            && |o.events| == c + 3
            && (s.open.Some? ==> o.events[0] == TextMessageEnd(s.open.value))
            && o.events[c] == ToolCallStart(id, fc.name.GetOr(UnknownName))
            && o.events[c + 1] == ToolCallArgs(id, Raw(fc.args.GetOr(EmptyObject)))
            && o.events[c + 2] == ToolCallEnd(id)
            && (fc.id.Some? ==> id == fc.id.value)
            && o.state.open == None
            && o.state.toolCalls == s.toolCalls + 1
            && o.state.thinkingTokens == s.thinkingTokens
            && o.store == m
  {
  }

  /** A function response emits one `TOOL_CALL_RESULT` and touches neither the
      open message nor the counters: it is mirrored, not matched to a call. */
  lemma FunctionResponseShape(s: RunState, m: Threads, e: Envelope, p: Part, ctx: Ctx)
    requires KindOf(p) == ResponsePart
    ensures var o := TranslatePart(s, m, e, p, ctx);
            var fr := p.functionResponse.value;
            && |o.events| == 1
            && o.events[0].ToolCallResult?
            && o.events[0].result == Raw(fr.response.GetOr(EmptyObject))
            && o.events[0].role == "tool"
            && (fr.id.Some? ==> o.events[0].toolCallId == fr.id.value)
            && o.state.open == s.open
            && o.state.toolCalls == s.toolCalls
            && o.state.thinkingTokens == s.thinkingTokens
            && o.store == m
  {
  }

  /** A part with none of the three keys is skipped. */
  lemma OtherPartIsSkipped(s: RunState, m: Threads, e: Envelope, p: Part, ctx: Ctx)
    requires KindOf(p) == SkippedPart
    ensures TranslatePart(s, m, e, p, ctx) == Out(s, [], m)
  {
  }

  // ---------------------------------------------------------------------
  // What the metadata store receives
  // ---------------------------------------------------------------------

  /** The entries of a thinking list without their timestamps. */
  function Unstamped<T>(xs: seq<Metadata.Stamped<T>>): seq<T>
    decreases |xs|
  {
    if xs == [] then [] else [xs[0].event] + Unstamped(xs[1..])
  }

  lemma {:induction false} UnstampedAppend<T>(a: seq<Metadata.Stamped<T>>, b: seq<Metadata.Stamped<T>>)
    ensures Unstamped(a + b) == Unstamped(a) + Unstamped(b)
    decreases |a|
  {
    if a == [] {
      assert a + b == b;
    } else {
      assert (a + b)[1..] == a[1..] + b;
      UnstampedAppend(a[1..], b);
    }
  }

  /** What a list grown from `before` to `after` gained, as entries. */
  function Gained<T>(before: seq<Metadata.Stamped<T>>, after: seq<Metadata.Stamped<T>>): seq<T>
    requires before <= after
  {
    Unstamped(after[|before|..])
  }

  lemma GainedChains<T>(b0: seq<Metadata.Stamped<T>>, b1: seq<Metadata.Stamped<T>>, b2: seq<Metadata.Stamped<T>>)
    requires b0 <= b1 <= b2
    ensures Gained(b0, b2) == Gained(b0, b1) + Gained(b1, b2)
  {
    assert b2[|b0|..] == b1[|b0|..] + b2[|b1|..];
    UnstampedAppend(b1[|b0|..], b2[|b1|..]);
  }

  /** One thinking write adds exactly its entry to the thread's list. */
  lemma ThinkingGain<T, S>(m: Metadata.Threads<T, S>, tid: string, x: T, now: int)
    ensures var before := Metadata.MetadataOf(m, tid).thinking;
            var after := Metadata.MetadataOf(Metadata.WithThinking(m, tid, x, now), tid).thinking;
            before <= after && Gained(before, after) == [x]
  {
    var before := Metadata.MetadataOf(m, tid).thinking;
    var after := Metadata.MetadataOf(Metadata.WithThinking(m, tid, x, now), tid).thinking;
    assert after == before + [Metadata.Stamped(x, now)];
    assert after[|before|..] == [Metadata.Stamped(x, now)];
    assert Unstamped([Metadata.Stamped(x, now)]) == [x] by {
      assert [Metadata.Stamped(x, now)][1..] == [];
    }
  }

  /** A part records one thinking entry exactly when it is a thought part
      and the run is recording; otherwise the store is untouched. */
  lemma PartRecords(s: RunState, m: Threads, e: Envelope, p: Part, ctx: Ctx)
    ensures var o := TranslatePart(s, m, e, p, ctx);
            && (ctx.recording && IsThought(p) ==>
                  o.store == Metadata.WithThinking(m, ctx.threadId, ThinkingArgsOf(e), ctx.env.clockMs(s.clockReads + 1)))
            && (!(ctx.recording && IsThought(p)) ==> o.store == m)
  {
  }

  lemma {:induction false} PartsRecord(s: RunState, m: Threads, e: Envelope, ps: seq<Part>, ctx: Ctx)
    requires ctx.recording
    ensures var o := TranslateParts(s, m, e, ps, ctx);
            var before := Metadata.MetadataOf(m, ctx.threadId).thinking;
            var after := Metadata.MetadataOf(o.store, ctx.threadId).thinking;
            && |after| == |before| + ThoughtsIn(ps)
            && before <= after
            && Gained(before, after) == ThoughtArgsIn(e, ps)
            && (forall t :: t in m && t != ctx.threadId ==> t in o.store && o.store[t] == m[t])
    decreases |ps|
  {
    if ps != [] {
      var init := ps[..|ps| - 1];
      var p := ps[|ps| - 1];
      PartsRecord(s, m, e, init, ctx);
      var o := TranslateParts(s, m, e, init, ctx);
      PartRecords(o.state, o.store, e, p, ctx);
      PartCountsSnoc(e, init, p);
      PartArgsSnoc(e, init, p);
      assert init + [p] == ps;
      var o' := TranslatePart(o.state, o.store, e, p, ctx);
      assert TranslateParts(s, m, e, ps, ctx).store == o'.store;
      var mid := Metadata.MetadataOf(o.store, ctx.threadId).thinking;
      var after := Metadata.MetadataOf(o'.store, ctx.threadId).thinking;
      if IsThought(p) {
        ThinkingGain(o.store, ctx.threadId, ThinkingArgsOf(e), ctx.env.clockMs(o.state.clockReads + 1));
      } else {
        assert after[|mid|..] == [];
      }
      GainedChains(Metadata.MetadataOf(m, ctx.threadId).thinking, mid, after);
    }
  }

  /** Over a recording run's envelopes the thread's thinking list only grows,
      by exactly one entry per thought part carrying that part's arguments,
      in order, and no other thread changes. */
  lemma {:induction false} EnvelopesRecord(s: RunState, m: Threads, es: seq<Envelope>, ctx: Ctx)
    requires ctx.recording
    ensures var o := TranslateEnvelopes(s, m, es, ctx);
            var before := Metadata.MetadataOf(m, ctx.threadId).thinking;
            var after := Metadata.MetadataOf(o.store, ctx.threadId).thinking;
            && |after| == |before| + ThoughtParts(es)
            && before <= after
            && Gained(before, after) == ThoughtArgs(es)
            && (forall t :: t in m && t != ctx.threadId ==> t in o.store && o.store[t] == m[t])
    decreases |es|
  {
    if es != [] {
      var init := es[..|es| - 1];
      var e := es[|es| - 1];
      EnvelopesRecord(s, m, init, ctx);
      var o := TranslateEnvelopes(s, m, init, ctx);
      PartsRecord(o.state, o.store, e, e.parts, ctx);
      EnvelopeCountsSnoc(init, e);
      EnvelopeArgsSnoc(init, e);
      assert init + [e] == es;
      GainedChains(Metadata.MetadataOf(m, ctx.threadId).thinking,
                   Metadata.MetadataOf(o.store, ctx.threadId).thinking,
                   Metadata.MetadataOf(TranslateEnvelopes(s, m, es, ctx).store, ctx.threadId).thinking);
    }
  }

  lemma {:induction false} EnvelopesDoNotRecord(s: RunState, m: Threads, es: seq<Envelope>, ctx: Ctx)
    requires !ctx.recording
    ensures TranslateEnvelopes(s, m, es, ctx).store == m
    decreases |es|
  {
    if es != [] {
      EnvelopesDoNotRecord(s, m, es[..|es| - 1], ctx);
      var o := TranslateEnvelopes(s, m, es[..|es| - 1], ctx);
      PartsDoNotRecord(o.state, o.store, es[|es| - 1], es[|es| - 1].parts, ctx);
    }
  }

  lemma {:induction false} PartsDoNotRecord(s: RunState, m: Threads, e: Envelope, ps: seq<Part>, ctx: Ctx)
    requires !ctx.recording
    ensures TranslateParts(s, m, e, ps, ctx).store == m
    decreases |ps|
  {
    if ps != [] {
      PartsDoNotRecord(s, m, e, ps[..|ps| - 1], ctx);
    }
  }

  /** A completed recording run stores the statistics it reported in the
      snapshot under its thread, after one thinking entry per thought part
      carrying that part's arguments, in order. */
  lemma CompletedRunStoresStats(s: RunState, m: Threads, es: seq<Envelope>, threadId: string, runId: string, env: Env)
    ensures var o := Translate(s, m, es, None, threadId, runId, true, env);
            var n := |o.events|;
            var k := if o.events[n - 2].ActivitySnapshot? then n - 2 else n - 3;
            var md := Metadata.MetadataOf(o.store, threadId);
            && 1 <= k && o.events[k].ActivitySnapshot?
            && md.sessionStats == Some(o.events[k].stats)
            && |md.thinking| == |Metadata.MetadataOf(m, threadId).thinking| + ThoughtParts(es)
            && Metadata.MetadataOf(m, threadId).thinking <= md.thinking
            && Gained(Metadata.MetadataOf(m, threadId).thinking, md.thinking) == ThoughtArgs(es)
  {
    CompletedRunShape(s, m, es, threadId, runId, true, env);
    EnvelopesRecord(s.(clockReads := s.clockReads + 1), m, es, Ctx(threadId, true, env));
    TranslateSplits(s, m, es, None, threadId, runId, true, env);
  }

  /** A run that is not recording leaves the store as it was. */
  lemma SilentRunLeavesStore(s: RunState, m: Threads, es: seq<Envelope>, failure: Option<string>,
                             threadId: string, runId: string, env: Env)
    ensures Translate(s, m, es, failure, threadId, runId, false, env).store == m
  {
    EnvelopesDoNotRecord(s.(clockReads := s.clockReads + 1), m, es, Ctx(threadId, false, env));
    TranslateSplits(s, m, es, failure, threadId, runId, false, env);
  }
}
