/**
 Anthropic events to Chat Completions chunks (converters/to_chat.py), and the round trip from chunks
 to events and back.
 */
module AnthropicToChat {
  import opened Wrappers
  import opened ChatStream
  import opened AnthropicStream
  import A = ChatToAnthropic

  datatype State = State(
    id: string,
    model: string,
    nextTool: nat,
    toolOf: map<int, nat>,
    finishSent: bool,
    inputTokens: int,
    outputTokens: int)

  const INIT: State := State("chatcmpl", "", 0, map[], false, 0, 0)

  /** The call a json delta belongs to: that of its block, or failing that the latest one. */
  function ToolFor(s: State, index: int): nat {
    if index in s.toolOf then s.toolOf[index] else if s.nextTool == 0 then 0 else s.nextTool - 1
  }

  /** `_anthropic_stream_chunk_to_chat` */
  function Render(s: State, e: Event, includeUsage: bool): (State, seq<Chunk>) {
    match e
    case MessageStart(id, model, input) =>
      var s' := s.(id := id, model := model, nextTool := 0, inputTokens := input, outputTokens := 0);
      (s', [WrittenChunk(s'.id, s'.model, EMPTY_DELTA.(assistant := true, content := Some("")), None)])
    case BlockStart(i, ToolBlock(id, name)) =>
      var s' := s.(nextTool := s.nextTool + 1, toolOf := s.toolOf[i := s.nextTool]);
      var fragment := Fragment(Some(s.nextTool), id, name, Some(""));
      (s', [WrittenChunk(s'.id, s'.model, EMPTY_DELTA.(calls := [fragment]), None)])
    case BlockStart(_, ThinkingBlock) => (s, [])
    case BlockStart(_, TextBlock) => (s, [WrittenChunk(s.id, s.model, EMPTY_DELTA, None)])
    case DeltaEvent(_, TextDelta(t)) => (s, [WrittenChunk(s.id, s.model, EMPTY_DELTA.(content := Some(t)), None)])
    case DeltaEvent(_, ThinkingDelta(t)) => (s, [WrittenChunk(s.id, s.model, EMPTY_DELTA.(reasoning := Some(t)), None)])
    case DeltaEvent(i, JsonDelta(t)) =>
      (s, [WrittenChunk(s.id, s.model, EMPTY_DELTA.(calls := [Fragment(Some(ToolFor(s, i)), "", "", Some(t))]), None)])
    case DeltaEvent(_, SignatureDelta) => (s, [])
    case BlockStop(_) => (s, [])
    case MessageDelta(stop, output) =>
      var s' := s.(outputTokens := output);
      if stop.None? || s.finishSent then (s', [])
      else (s'.(finishSent := true), [WrittenChunk(s.id, s.model, EMPTY_DELTA, Some(ParseStop(stop.value)))])
    case MessageStop =>
      var total := s.inputTokens + s.outputTokens;
      var usage := Usage(Some(s.inputTokens), Some(s.outputTokens), Some(total), Some(0), None);
      (s, if includeUsage then [Chunk(s.id, s.model, Some(usage), [])] else [])
  }

  function RenderAll(s: State, es: seq<Event>, includeUsage: bool): (State, seq<Chunk>) {
    if es == [] then (s, [])
    else
      var (s1, out) := RenderAll(s, es[..|es| - 1], includeUsage);
      var (s2, more) := Render(s1, es[|es| - 1], includeUsage);
      (s2, out + more)
  }

  // ----- the chunks mean what the events mean -----

  /** Each json delta names a tool block that was opened, and message_start precedes every tool block. */
  predicate Addressed(m: Meaning, e: Event) {
    && (e.DeltaEvent? && e.delta.JsonDelta? ==> IndexOf(m.entries, e.index) != -1)
    && (e.MessageStart? ==> m.entries == [])
  }

  predicate AllAddressed(m: Meaning, es: seq<Event>) {
    es == [] || (AllAddressed(m, es[..|es| - 1]) && Addressed(MeanEvents(m, es[..|es| - 1]), es[|es| - 1]))
  }

  /** The events so far mean `me`, the chunks so far `mo`; call `p` carries wire number `p`. */
  ghost predicate Follows(s: State, me: Meaning, mo: Meaning) {
    && SameContent(me, mo) && me.finish == mo.finish && (s.finishSent <==> me.finish.Some?)
    && s.nextTool == |me.entries|
    && (forall p | 0 <= p < |mo.entries| :: mo.entries[p].key == p)
    && (forall i | IndexOf(me.entries, i) != -1 :: i in s.toolOf && s.toolOf[i] == IndexOf(me.entries, i))
  }

  lemma RenderFollows(s: State, e: Event, includeUsage: bool, me: Meaning, mo: Meaning)
    requires Follows(s, me, mo) && Addressed(me, e)
    ensures var (s', out) := Render(s, e, includeUsage);
            Follows(s', MeanEvent(me, e), MeanChunks(mo, out))
  {
    hide IndexOf, AddArgs, MeanChunks, MeanAll, ToolFor;
    var (s', out) := Render(s, e, includeUsage);
    MeanNothing(mo);
    match e
    case MessageStart(id, model, input) => MeanWritten(mo, s'.id, s'.model, out[0].choices[0].value.delta, None);
    case BlockStart(i, ToolBlock(id, name)) =>
      MeanWritten(mo, s'.id, s'.model, out[0].choices[0].value.delta, None);
      FollowsNew(s, i, id, name, me, mo);
    case BlockStart(_, TextBlock) => MeanWritten(mo, s.id, s.model, EMPTY_DELTA, None);
    case DeltaEvent(_, TextDelta(t)) => MeanWritten(mo, s.id, s.model, out[0].choices[0].value.delta, None);
    case DeltaEvent(_, ThinkingDelta(t)) => MeanWritten(mo, s.id, s.model, out[0].choices[0].value.delta, None);
    case DeltaEvent(i, JsonDelta(t)) =>
      MeanWritten(mo, s.id, s.model, out[0].choices[0].value.delta, None);
      FollowsArgs(s, i, t, me, mo);
    case MessageDelta(stop, output) =>
      if out != [] { MeanWritten(mo, s.id, s.model, EMPTY_DELTA, out[0].choices[0].value.finish); }
    case MessageStop =>
      if out != [] {
        MeanChunk(mo, out[0]);
        MeanItem(mo, Item(out[0], UsageOnly));
      }
    case _ =>
  }

  lemma FollowsNew(s: State, i: int, id: string, name: string, me: Meaning, mo: Meaning)
    requires Follows(s, me, mo)
    ensures var me' := me.(entries := me.entries + [Entry(i, ToolCall(id, name, ""))]);
            var mo' := Mean(mo, Call(s.nextTool, id, name, ""));
            Follows(s.(nextTool := s.nextTool + 1, toolOf := s.toolOf[i := s.nextTool]), me', mo')
  {
    IndexOfKeys(mo.entries, s.nextTool);
    var e := Entry(i, ToolCall(id, name, ""));
    forall k ensures IndexOf(me.entries + [e], k) == if i == k then |me.entries| else IndexOf(me.entries, k) {
      IndexOfPush(me.entries, e, k);
    }
  }

  lemma FollowsArgs(s: State, i: int, args: string, me: Meaning, mo: Meaning)
    requires Follows(s, me, mo) && IndexOf(me.entries, i) != -1
    ensures var me' := me.(entries := AddArgs(me.entries, IndexOf(me.entries, i), args));
            Follows(s, me', Mean(mo, Call(ToolFor(s, i), "", "", args)))
  {
    var p := IndexOf(me.entries, i);
    IndexOfKeys(mo.entries, p);
    forall k ensures IndexOf(AddArgs(me.entries, p, args), k) == IndexOf(me.entries, k) {
      IndexOfExtend(me.entries, p, args, k);
    }
  }

  lemma {:induction false} RenderAllFollows(es: seq<Event>, includeUsage: bool)
    requires AllAddressed(NOTHING, es)
    ensures var (s, out) := RenderAll(INIT, es, includeUsage);
            Follows(s, MeanEvents(NOTHING, es), MeanChunks(NOTHING, out))
  {
    if es != [] {
      hide Render, MeanEvent, Addressed, Follows, MeanChunks;
      var init, last := es[..|es| - 1], es[|es| - 1];
      RenderAllFollows(init, includeUsage);
      var (s, out) := RenderAll(INIT, init, includeUsage);
      RenderFollows(s, last, includeUsage, MeanEvents(NOTHING, init), MeanChunks(NOTHING, out));
      MeanChunksConcat(NOTHING, out, Render(s, last, includeUsage).1);
    } else {
      FollowsInit();
    }
  }

  lemma FollowsInit()
    ensures Follows(INIT, NOTHING, NOTHING)
  {
  }

  /** Text, reasoning, tool calls and the finish of an Anthropic stream all reach the Chat client. */
  lemma MeaningKept(es: seq<Event>, includeUsage: bool)
    requires AllAddressed(NOTHING, es)
    ensures var m := MeanChunks(NOTHING, RenderAll(INIT, es, includeUsage).1);
            SameContent(MeanEvents(NOTHING, es), m) && MeanEvents(NOTHING, es).finish == m.finish
  {
    RenderAllFollows(es, includeUsage);
  }

  /** A tool block the stream is in is a known call, and nothing is known before the message starts. */
  ghost predicate Placed(p: Phase, m: Meaning) {
    && (p.Fresh? ==> m.entries == [])
    && (p.InBlock? && p.kind == ToolUse ==> IndexOf(m.entries, p.index) != -1)
  }

  lemma StepPlaced(p: Phase, m: Meaning, e: Event)
    requires Placed(p, m) && Watch(p, e) != Bad
    ensures Addressed(m, e) && Placed(Watch(p, e), MeanEvent(m, e))
  {
    hide IndexOf, AddArgs;
    match e
    case BlockStart(i, ToolBlock(id, name)) => IndexOfPush(m.entries, Entry(i, ToolCall(id, name, "")), i);
    case DeltaEvent(i, JsonDelta(t)) => IndexOfExtend(m.entries, IndexOf(m.entries, i), t, i);
    case _ =>
  }

  lemma {:induction false} WellFormedPlaced(es: seq<Event>)
    requires WatchAll(Fresh, es) != Bad
    ensures AllAddressed(NOTHING, es) && Placed(WatchAll(Fresh, es), MeanEvents(NOTHING, es))
  {
    if es != [] {
      hide Watch, MeanEvent, Addressed, Placed;
      var init := es[..|es| - 1];
      if WatchAll(Fresh, init) == Bad { BadThen(es); }
      WellFormedPlaced(init);
      StepPlaced(WatchAll(Fresh, init), MeanEvents(NOTHING, init), es[|es| - 1]);
    }
  }

  lemma BadThen(es: seq<Event>)
    requires es != [] && WatchAll(Fresh, es[..|es| - 1]) == Bad
    ensures WatchAll(Fresh, es) == Bad
  {
  }

  /** So it is for every well-formed Anthropic stream, wherever it is cut. */
  lemma WellFormedMeaningKept(es: seq<Event>, includeUsage: bool)
    requires WatchAll(Fresh, es) != Bad
    ensures var m := MeanChunks(NOTHING, RenderAll(INIT, es, includeUsage).1);
            SameContent(MeanEvents(NOTHING, es), m) && MeanEvents(NOTHING, es).finish == m.finish
  {
    WellFormedPlaced(es);
    MeaningKept(es, includeUsage);
  }

  // ----- what the chunks carry besides -----

  /** The chunk has the id and the model of the message that was announced. */
  predicate From(chunk: Chunk, start: Event)
    requires start.MessageStart?
  {
    chunk.id == start.id && chunk.model == start.model
  }

  ghost predicate AllFrom(chunks: seq<Chunk>, start: Event)
    requires start.MessageStart?
  {
    forall j | 0 <= j < |chunks| :: From(chunks[j], start)
  }

  ghost predicate NoUsage(chunks: seq<Chunk>) {
    forall j | 0 <= j < |chunks| :: chunks[j].usage.None?
  }

  /** What the session has of the message it is in. */
  ghost predicate Carries(s: State, es: seq<Event>, p: Phase)
    requires es != [] && es[0].MessageStart?
  {
    && s.id == es[0].id && s.model == es[0].model && s.inputTokens == es[0].inputTokens
    && (p == Closing ==> es[|es| - 1].MessageDelta? && s.outputTokens == es[|es| - 1].outputTokens)
  }

  lemma RenderCarries(s: State, es: seq<Event>, p: Phase, e: Event, includeUsage: bool)
    requires es != [] && es[0].MessageStart? && Carries(s, es, p) && p != Fresh && Watch(p, e) != Bad
    ensures Carries(Render(s, e, includeUsage).0, es + [e], Watch(p, e))
    ensures AllFrom(Render(s, e, includeUsage).1, es[0])
    ensures !e.MessageStop? ==> NoUsage(Render(s, e, includeUsage).1)
  {
    hide ToolFor;
  }

  lemma FirstIsStart(e: Event)
    requires Watch(Fresh, e) != Bad
    ensures e.MessageStart? && Watch(Fresh, e) == Between(0)
  {
  }

  /** Inside a well-formed stream every chunk has the id and the model of its message_start, and none has usage
      before message_stop. */
  lemma {:induction false} StreamCarries(es: seq<Event>, includeUsage: bool)
    requires es != [] && WatchAll(Fresh, es) != Bad
    ensures es[0].MessageStart? && WatchAll(Fresh, es) != Fresh
    ensures var (s, out) := RenderAll(INIT, es, includeUsage);
            && Carries(s, es, WatchAll(Fresh, es)) && AllFrom(out, es[0])
            && (WatchAll(Fresh, es) != Done ==> NoUsage(out))
  {
    hide Render, Watch, Carries, From;
    var n := |es| - 1;
    var init, e := es[..n], es[n];
    assert es == init + [e];
    if init == [] {
      FirstIsStart(e);
      StartCarries(e, includeUsage);
      assert es == [e];
    } else {
      if WatchAll(Fresh, init) == Bad { BadThen(es); }
      StreamCarries(init, includeUsage);
      NotDoneYet(WatchAll(Fresh, init), e);
      RenderCarries(RenderAll(INIT, init, includeUsage).0, init, WatchAll(Fresh, init), e, includeUsage);
    }
  }

  lemma StartCarries(e: Event, includeUsage: bool)
    requires e.MessageStart?
    ensures var (s, out) := Render(INIT, e, includeUsage);
            && Carries(s, [e], Between(0)) && AllFrom(out, e) && NoUsage(out)
  {
  }

  /** Nothing comes after message_stop, and what comes before is not it. */
  lemma NotDoneYet(p: Phase, e: Event)
    requires Watch(p, e) != Bad && p != Fresh
    ensures p != Done && Watch(p, e) != Fresh && (Watch(p, e) == Done <==> e.MessageStop?)
    ensures Watch(p, e) == Done ==> p == Closing
  {
  }

  /** Of a complete stream the last chunk, and only it, reports the usage: the input tokens of its message_start, the
      output tokens of its message_delta, and their sum. */
  lemma UsageReported(es: seq<Event>)
    requires WatchAll(Fresh, es) == Done
    ensures |es| >= 3 && es[0].MessageStart? && es[|es| - 2].MessageDelta?
    ensures var out := RenderAll(INIT, es, true).1;
            && out != [] && NoUsage(out[..|out| - 1]) && out[|out| - 1].choices == []
            && out[|out| - 1].usage.Some?
            && var u := out[|out| - 1].usage.value;
               && u.prompt == Some(es[0].inputTokens) && u.completion == Some(es[|es| - 2].outputTokens)
               && u.total == Some(es[0].inputTokens + es[|es| - 2].outputTokens)
               && u.cached == Some(0) && u.reasoned == None
  {
    var n := |es| - 1;
    var init, e := es[..n], es[n];
    if WatchAll(Fresh, init) == Bad { BadThen(es); }
    hide RenderAll, Watch;
    if init == [] { FirstIsStart(e); }
    StreamCarries(init, true);
    NotDoneYet(WatchAll(Fresh, init), e);
    var (s, before) := RenderAll(INIT, init, true);
    LastRendered(es, true);
    UsageRendered(s);
  }

  lemma LastRendered(es: seq<Event>, includeUsage: bool)
    requires es != []
    ensures var (s, before) := RenderAll(INIT, es[..|es| - 1], includeUsage);
            RenderAll(INIT, es, includeUsage).1 == before + Render(s, es[|es| - 1], includeUsage).1
  {
  }

  lemma UsageRendered(s: State)
    ensures Render(s, MessageStop, true).1 ==
            [Chunk(s.id, s.model, Some(Usage(Some(s.inputTokens), Some(s.outputTokens),
                                             Some(s.inputTokens + s.outputTokens), Some(0), None)), [])]
  {
  }

  /** The finishes of the chunks, in order. */
  function Finishes(chunks: seq<Chunk>): seq<Finish> {
    if chunks == [] then []
    else
      var c := chunks[|chunks| - 1];
      Finishes(chunks[..|chunks| - 1])
      + if HasChoice(c) && c.choices[0].value.finish.Some? then [c.choices[0].value.finish.value] else []
  }

  lemma {:induction false} FinishesConcat(a: seq<Chunk>, b: seq<Chunk>)
    ensures Finishes(a + b) == Finishes(a) + Finishes(b)
  {
    hide HasChoice;
    if b == [] {
      assert a + b == a;
    } else {
      assert (a + b)[..|a + b| - 1] == a + b[..|b| - 1];
      FinishesConcat(a, b[..|b| - 1]);
    }
  }

  /** The first stop reason of a stream. */
  function FirstStop(es: seq<Event>): Option<StopReason> {
    if es == [] then None
    else
      var before, e := FirstStop(es[..|es| - 1]), es[|es| - 1];
      if before.Some? then before else if e.MessageDelta? then e.stop else None
  }

  lemma RenderFinishes(s: State, e: Event, includeUsage: bool)
    ensures var (s', out) := Render(s, e, includeUsage);
            if e.MessageDelta? && e.stop.Some? && !s.finishSent
            then s'.finishSent && Finishes(out) == [match e.stop.value
                                                    case MaxTokens => Length
                                                    case ToolUseStop => ToolCalls
                                                    case Refusal => ContentFilter
                                                    case _ => Stop]
            else Finishes(out) == [] && s'.finishSent == s.finishSent
  {
    hide ToolFor;
    var (s', out) := Render(s, e, includeUsage);
    if out != [] { assert out[..0] == []; }
  }

  lemma NothingFinished()
    ensures Finishes([]) == []
  {
  }

  /** Whatever the stream, one chunk has a finish if any event has a stop reason, that of the first, and else none. */
  lemma {:induction false} FinishOnce(es: seq<Event>, includeUsage: bool)
    ensures var (s, out) := RenderAll(INIT, es, includeUsage);
            && (s.finishSent <==> FirstStop(es).Some?)
            && Finishes(out) == match FirstStop(es)
                                case None => []
                                case Some(MaxTokens) => [Length]
                                case Some(ToolUseStop) => [ToolCalls]
                                case Some(Refusal) => [ContentFilter]
                                case _ => [Stop]
  {
    hide Render, Finishes;
    if es == [] {
      NothingFinished();
    } else {
      var (s, out) := RenderAll(INIT, es[..|es| - 1], includeUsage);
      var e := es[|es| - 1];
      FinishOnce(es[..|es| - 1], includeUsage);
      RenderFinishes(s, e, includeUsage);
      FinishesConcat(out, Render(s, e, includeUsage).1);
    }
  }

  /** How many tool blocks were opened since the message started. */
  function ToolCount(es: seq<Event>): nat {
    if es == [] then 0
    else
      var e := es[|es| - 1];
      if e.MessageStart? then 0
      else ToolCount(es[..|es| - 1]) + if e.BlockStart? && e.block.ToolBlock? then 1 else 0
  }

  lemma {:induction false} ToolsCounted(es: seq<Event>, includeUsage: bool, index: int)
    ensures var s := RenderAll(INIT, es, includeUsage).0;
            && s.nextTool == ToolCount(es)
            && ((forall i | 0 <= i < |es| :: !(es[i].BlockStart? && es[i].block.ToolBlock? && es[i].index == index)) ==>
                  index !in s.toolOf)
  {
    if es != [] {
      var n := |es| - 1;
      ToolsCounted(es[..n], includeUsage, index);
      assert forall i | 0 <= i < n :: es[..n][i] == es[i];
      hide ToolFor;
    }
  }

  /** Arguments for a block that was never opened as a tool go to the latest call, or to the first if there is none. */
  lemma StrayGoesToLatest(es: seq<Event>, index: int, args: string, includeUsage: bool)
    requires forall i | 0 <= i < |es| :: !(es[i].BlockStart? && es[i].block.ToolBlock? && es[i].index == index)
    ensures var (s, out) := RenderAll(INIT, es, includeUsage);
            var number := if ToolCount(es) == 0 then 0 else ToolCount(es) - 1;
            Render(s, DeltaEvent(index, JsonDelta(args)), includeUsage).1 ==
            [WrittenChunk(s.id, s.model, EMPTY_DELTA.(calls := [Fragment(Some(number), "", "", Some(args))]), None)]
  {
    ToolsCounted(es, includeUsage, index);
    hide RenderAll;
  }

  /** Usage that was not asked for is never reported, whatever the stream. */
  lemma {:induction false} UsageOnlyIfAsked(es: seq<Event>)
    ensures NoUsage(RenderAll(INIT, es, false).1)
  {
    if es != [] {
      UsageOnlyIfAsked(es[..|es| - 1]);
      RenderNoUsage(RenderAll(INIT, es[..|es| - 1], false).0, es[|es| - 1]);
      hide Render;
    }
  }

  lemma RenderNoUsage(s: State, e: Event)
    ensures NoUsage(Render(s, e, false).1)
  {
    hide ToolFor;
  }

  // ----- Chat to Anthropic and back -----

  lemma {:induction false} AddressedConcat(m: Meaning, a: seq<Event>, b: seq<Event>)
    requires AllAddressed(m, a) && AllAddressed(MeanEvents(m, a), b)
    ensures AllAddressed(m, a + b)
  {
    hide Addressed, MeanEvents;
    if b == [] {
      assert a + b == a;
    } else {
      var init := b[..|b| - 1];
      assert (a + b)[..|a + b| - 1] == a + init;
      AddressedConcat(m, a, init);
      MeanEventsConcat(m, a, init);
    }
  }

  lemma AddressedOne(m: Meaning, e: Event)
    requires Addressed(m, e)
    ensures AllAddressed(m, [e])
  {
    hide Addressed;
    assert AllAddressed(m, []) && MeanEvents(m, []) == m;
    assert [e][..0] == [];
  }

  /** Every call of the session has its block among the events. */
  ghost predicate BlocksKnown(s: A.State, me: Meaning) {
    && (forall key | key in s.toolIndex :: s.toolIndex[key] in A.KeysOf(me.entries))
    && (!s.started ==> me.entries == [])
  }

  lemma StartedAddressed(s: A.State, chunk: Chunk, me: Meaning)
    requires BlocksKnown(s, me)
    ensures AllAddressed(me, A.Started(s, chunk).events) && BlocksKnown(A.Started(s, chunk).state, me)
    ensures MeanEvents(me, A.Started(s, chunk).events) == me
  {
    A.MeanStarted(me, s, chunk);
    if !s.started { AddressedOne(me, A.Started(s, chunk).events[0]); }
  }

  predicate PlainEvent(e: Event) {
    !e.MessageStart? && (e.DeltaEvent? ==> !e.delta.JsonDelta?)
  }

  ghost predicate Plain(es: seq<Event>) {
    forall i | 0 <= i < |es| :: PlainEvent(es[i])
  }

  lemma {:induction false} PlainAddressed(m: Meaning, es: seq<Event>)
    requires Plain(es)
    ensures AllAddressed(m, es)
  {
    if es != [] {
      PlainAddressed(m, es[..|es| - 1]);
    }
  }

  lemma PlainClose(s: A.State, advance: bool)
    ensures Plain(A.Close(s, advance).events)
  {
  }

  lemma SpeakAddressed(s: A.State, chunk: Chunk, b: Block, text: string, me: Meaning)
    requires A.LiveState(s) && BlocksKnown(s, me) && !b.ToolBlock?
    ensures var r := A.Speak(s, chunk, b, text);
            AllAddressed(me, r.events) && BlocksKnown(r.state, MeanEvents(me, r.events))
  {
    hide AllAddressed, MeanEvents, A.Started, A.Open, A.Append, A.LiveState, Plain, A.KeysOf;
    A.MeanSpeak(me, s, chunk, b, text);
    StartedAddressed(s, chunk, me);
    A.BegunStarted(s, chunk);
    var begun := A.Started(s, chunk);
    SpeakPlain(begun.state, b, text);
    A.MeanOpen(me, begun.state, b);
    var open := A.Open(begun.state, b);
    var said := A.Append(open.state, text, None);
    PlainAddressed(me, open.events + said);
    AddressedConcat(me, begun.events, open.events + said);
    assert begun.events + open.events + said == begun.events + (open.events + said);
  }

  lemma SpeakPlain(s: A.State, b: Block, text: string)
    requires !b.ToolBlock? && s.started
    ensures var open := A.Open(s, b);
            Plain(open.events + A.Append(open.state, text, None)) && open.state.started
  {
    PlainClose(s, true);
  }

  lemma ToolAddressed(s: A.State, key: int, id: string, name: string, me: Meaning)
    requires A.LiveState(s) && s.started && BlocksKnown(s, me)
    ensures var r := A.EnsureTool(s, key, id, name);
            AllAddressed(me, r.events) && BlocksKnown(r.state, MeanEvents(me, r.events)) && r.state.started
            && key in r.state.toolIndex && r.state.kind.Some?
  {
    A.MeanTool(me, s, key, id, name);
    A.MeanNone(me);
    if key !in s.toolIndex {
      ToolPlain(s, key, id, name);
      hide Plain, MeanEvents, AllAddressed, A.KeysOf, A.EnsureTool;
      var r := A.EnsureTool(s, key, id, name);
      PlainAddressed(me, r.events);
      KeysPush(me.entries, Entry(r.state.index, ToolCall(id, name, "")));
      assert r.state.index in A.KeysOf(MeanEvents(me, r.events).entries);
    }
  }

  lemma KeysPush(entries: seq<Entry>, e: Entry)
    ensures A.KeysOf(entries + [e]) == A.KeysOf(entries) + [e.key]
    ensures e.key in A.KeysOf(entries) + [e.key]
  {
    assert (A.KeysOf(entries) + [e.key])[|entries|] == e.key;
  }

  lemma KeysExtend(entries: seq<Entry>, p: nat, args: string)
    requires p < |entries|
    ensures A.KeysOf(AddArgs(entries, p, args)) == A.KeysOf(entries)
  {
  }

  lemma KeysFound(entries: seq<Entry>, key: int)
    requires key in A.KeysOf(entries)
    ensures IndexOf(entries, key) != -1
  {
    var q :| 0 <= q < |entries| && A.KeysOf(entries)[q] == key;
    if IndexOf(entries, key) < q { IndexOfIsLast(entries, key, q); }
  }

  lemma ToolPlain(s: A.State, key: int, id: string, name: string)
    requires key !in s.toolIndex
    ensures var r := A.EnsureTool(s, key, id, name);
            Plain(r.events) && (s.started ==> r.state.started) && key in r.state.toolIndex && r.state.kind.Some?
  {
    PlainClose(s, true);
  }

  lemma AppendAddressed(s: A.State, text: string, key: int, me: Meaning)
    requires BlocksKnown(s, me) && key in s.toolIndex && s.kind.Some? && s.started
    ensures var es := A.Append(s, text, Some(key));
            AllAddressed(me, es) && BlocksKnown(s, MeanEvents(me, es))
  {
    KeysFound(me.entries, s.toolIndex[key]);
    A.MeanAppend(me, s, text, Some(key));
    var es := A.Append(s, text, Some(key));
    if es != [] {
      AddressedOne(me, es[0]);
      KeysExtend(me.entries, IndexOf(me.entries, s.toolIndex[key]), text);
    }
  }

  lemma ReactAddressed(s: A.State, item: Item, me: Meaning)
    requires A.LiveState(s) && A.LiveStep(s, item) && BlocksKnown(s, me)
    ensures var r := A.React(s, item);
            AllAddressed(me, r.events) && BlocksKnown(r.state, MeanEvents(me, r.events))
  {
    StartedAddressed(s, item.chunk, me);
    match item.step
    case Begin =>
    case Reason(t) => SpeakAddressed(s, item.chunk, ThinkingBlock, t, me);
    case Say(t) => SpeakAddressed(s, item.chunk, TextBlock, t, me);
    case Call(_, _, _, _) => CallAddressed(s, item, me);
    case UsageOnly =>
  }

  lemma CallAddressed(s: A.State, item: Item, me: Meaning)
    requires A.LiveState(s) && BlocksKnown(s, me) && item.step.Call?
    ensures var r := A.React(s, item);
            AllAddressed(me, r.events) && BlocksKnown(r.state, MeanEvents(me, r.events))
  {
    hide AllAddressed, MeanEvents, A.EnsureTool, A.Append, A.Started, IndexOf;
    var Call(key, id, name, args) := item.step;
    StartedAddressed(s, item.chunk, me);
    A.WatchStarted(s, item.chunk);
    A.BegunStarted(s, item.chunk);
    A.MeanCallEvents(me, s, item);
    var begun := A.Started(s, item.chunk);
    ToolAddressed(begun.state, key, id, name, me);
    var tool := A.EnsureTool(begun.state, key, id, name);
    var me' := MeanEvents(me, tool.events);
    AppendAddressed(tool.state, args, key, me');
    AddressedConcat(me, begun.events, tool.events);
    MeanEventsConcat(me, begun.events, tool.events);
    AddressedConcat(me, begun.events + tool.events, A.Append(tool.state, args, Some(key)));
  }

  lemma {:induction false} LiveAddressed(items: seq<Item>)
    requires A.Live(items)
    ensures var r := A.ReactAll(A.INIT, items);
            AllAddressed(NOTHING, r.events) && BlocksKnown(r.state, MeanEvents(NOTHING, r.events))
  {
    if items != [] {
      hide A.React, A.LiveStep, A.Live, A.LiveState, AllAddressed, BlocksKnown, MeanEvents;
      var init, last := items[..|items| - 1], items[|items| - 1];
      A.Unsnoc(items);
      A.WatchLive(init);
      LiveAddressed(init);
      var before := A.ReactAll(A.INIT, init);
      var me := MeanEvents(NOTHING, before.events);
      ReactAddressed(before.state, last, me);
      AddressedConcat(NOTHING, before.events, A.React(before.state, last).events);
      MeanEventsConcat(NOTHING, before.events, A.React(before.state, last).events);
    }
  }

  lemma ConvertedAddressed(st: Stream)
    requires A.Proper(st)
    ensures AllAddressed(NOTHING, A.Converted(Flat(st)))
  {
    LiveAddressed(st.live);
    var live, open := A.ReactAll(A.INIT, st.live), A.ToClose(st);
    var me := MeanEvents(NOTHING, live.events);
    if st.end.Some? {
      StartedAddressed(live.state, st.end.value.chunk, me);
      AddressedConcat(NOTHING, live.events, A.Started(live.state, st.end.value.chunk).events);
    }
    A.ConvertedShape(st);
    var outputTokens := A.ReportedTokens(st);
    hide A.ToClose, A.Converted, A.Proper, AllAddressed, MeanEvents, BlocksKnown, A.ReactAll;
    if open.state.started {
      var last := A.Close(open.state, false).events + A.LastEvents(A.FinishOf(st), outputTokens);
      LastPlain(open.state, A.FinishOf(st), outputTokens);
      PlainAddressed(MeanEvents(NOTHING, open.events), last);
      AddressedConcat(NOTHING, open.events, last);
    } else {
      assert A.Converted(Flat(st)) == open.events;
    }
  }

  lemma LastPlain(s: A.State, f: Finish, outputTokens: int)
    ensures Plain(A.Close(s, false).events + A.LastEvents(f, outputTokens))
  {
    PlainClose(s, false);
  }

  /** What a Chat client receives when a Chat stream is converted to Anthropic events and back. */
  function ThereAndBack(st: Stream, includeUsage: bool): seq<Chunk> {
    RenderAll(INIT, A.Converted(Flat(st)), includeUsage).1
  }

  /** The round trip keeps text, reasoning and tool calls, wherever the stream is cut, exactly when every
      fragment of a known call arrives while a tool block is the current one. */
  lemma RoundTripIffRouted(st: Stream, includeUsage: bool)
    requires A.Proper(st)
    ensures SameContent(MeanAll(NOTHING, Flat(st)), MeanChunks(NOTHING, ThereAndBack(st, includeUsage)))
            <==> A.Routed(st.live)
  {
    ConvertedAddressed(st);
    MeaningKept(A.Converted(Flat(st)), includeUsage);
    A.MeaningKeptIffRouted(st);
  }

  /** The round trip keeps all four finish reasons and no other, and ends a cut stream with a plain stop. */
  lemma RoundTripFinish(st: Stream, includeUsage: bool)
    requires A.Proper(st) && A.Converted(Flat(st)) != []
    ensures var f := A.FinishOf(st);
            MeanChunks(NOTHING, ThereAndBack(st, includeUsage)).finish == Some(f)
            <==> f == Stop || f == Length || f == ToolCalls || f == ContentFilter
  {
    ConvertedAddressed(st);
    MeaningKept(A.Converted(Flat(st)), includeUsage);
    A.FinishSurvives(st);
  }

  // ----- the session object -----

  class Session {
    var msgId: string
    var model: string
    var toolCallIndex: nat
    var contentBlockToTcIndex: map<int, nat>
    var finishSent: bool
    var inputTokens: int
    var outputTokens: int
    const includeUsage: bool

    ghost function View(): State
      reads this
    {
      State(msgId, model, toolCallIndex, contentBlockToTcIndex, finishSent, inputTokens, outputTokens)
    }

    constructor (includeUsage: bool)
      ensures View() == INIT && this.includeUsage == includeUsage
    {
      msgId, model, toolCallIndex, contentBlockToTcIndex := "chatcmpl", "", 0, map[];
      finishSent, inputTokens, outputTokens, this.includeUsage := false, 0, 0, includeUsage;
    }

    function Build(delta: Delta, finish: Option<Finish>): Chunk
      reads this
    {
      WrittenChunk(msgId, model, delta, finish)
    }

    method ConvertEvent(e: Event) returns (chunks: seq<Chunk>)
      modifies this
      ensures (View(), chunks) == Render(old(View()), e, includeUsage)
    {
      chunks := [];
      match e {
        case MessageStart(id, name, input) =>
          msgId, model, toolCallIndex := id, name, 0;
          inputTokens, outputTokens := input, 0;
          chunks := [Build(EMPTY_DELTA.(assistant := true, content := Some("")), None)];
        case BlockStart(i, ToolBlock(id, name)) =>
          var tcIdx := toolCallIndex;
          toolCallIndex := tcIdx + 1;
          contentBlockToTcIndex := contentBlockToTcIndex[i := tcIdx];
          chunks := [Build(EMPTY_DELTA.(calls := [Fragment(Some(tcIdx), id, name, Some(""))]), None)];
        case BlockStart(_, ThinkingBlock) =>
        case BlockStart(_, TextBlock) => chunks := [Build(EMPTY_DELTA, None)];
        case DeltaEvent(_, TextDelta(t)) => chunks := [Build(EMPTY_DELTA.(content := Some(t)), None)];
        case DeltaEvent(_, ThinkingDelta(t)) => chunks := [Build(EMPTY_DELTA.(reasoning := Some(t)), None)];
        case DeltaEvent(i, JsonDelta(t)) =>
          var tcIdx := if toolCallIndex == 0 then 0 else toolCallIndex - 1;
          if i in contentBlockToTcIndex {
            tcIdx := contentBlockToTcIndex[i];
          }
          chunks := [Build(EMPTY_DELTA.(calls := [Fragment(Some(tcIdx), "", "", Some(t))]), None)];
        case DeltaEvent(_, SignatureDelta) =>
        case BlockStop(_) =>
        case MessageDelta(stop, output) =>
          outputTokens := output;
          if stop.None? || finishSent {
            return;
          }
          finishSent := true;
          chunks := [Build(EMPTY_DELTA, Some(ParseStop(stop.value)))];
        case MessageStop =>
          if includeUsage {
            var total := inputTokens + outputTokens;
            var usage := Usage(Some(inputTokens), Some(outputTokens), Some(total), Some(0), None);
            chunks := [Chunk(msgId, model, Some(usage), [])];
          }
      }
    }
  }
}
