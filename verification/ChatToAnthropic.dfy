/**
 Chat Completions chunks to Anthropic events (converters/to_anthropic.py and
 converters/anthropic_stream_state.py).

 `React` is what one step of a chunk does to the session and the events it emits; `Session` is the
 object whose methods are the source's, each proved against it. The theorems are about `React`
 folded over whole streams.
 */
module ChatToAnthropic {
  import opened Wrappers
  import opened ChatStream
  import opened AnthropicStream

  datatype State = State(
    started: bool,
    open: bool,
    index: nat,
    kind: Option<Kind>,
    toolIndex: map<int, nat>,
    prevCompletion: int,
    stopped: bool,
    pending: Option<Finish>)

  const INIT: State := State(false, false, 0, None, map[], 0, false, None)

  datatype Reaction = Reaction(state: State, events: seq<Event>)

  /** First `r`, then whatever `f` does to the state it leaves. */
  function Then(r: Reaction, next: Reaction): Reaction {
    Reaction(next.state, r.events + next.events)
  }

  // ----- the moves of the session -----

  /** `ensure_started` */
  function Started(s: State, chunk: Chunk): Reaction {
    if s.started then Reaction(s, [])
    else
      var input := if chunk.usage.Some? then Or(chunk.usage.value.prompt, 0) else 0;
      Reaction(s.(started := true), [MessageStart(chunk.id, chunk.model, input)])
  }

  /** `close_block` */
  function Close(s: State, advance: bool): Reaction {
    if !s.open then Reaction(s, [])
    else
      var signature := if s.kind == Some(Thinking) then [DeltaEvent(s.index, SignatureDelta)] else [];
      Reaction(s.(open := false, index := if advance then s.index + 1 else s.index), signature + [BlockStop(s.index)])
  }

  function StartBlock(s: State, b: Block): Reaction {
    Reaction(s.(open := true, kind := Some(KindOf(b))), [BlockStart(s.index, b)])
  }

  /** `open_block` for thinking and text */
  function Open(s: State, b: Block): Reaction {
    if s.open && s.kind == Some(KindOf(b)) then Reaction(s, [])
    else
      var closed := Close(s, true);
      Then(closed, StartBlock(closed.state, b))
  }

  /** `ensure_tool_block` */
  function EnsureTool(s: State, key: int, id: string, name: string): Reaction {
    if key in s.toolIndex then Reaction(s, [])
    else
      var closed := Close(s, true);
      var at := closed.state.(toolIndex := closed.state.toolIndex[key := closed.state.index]);
      Then(closed, StartBlock(at, ToolBlock(id, name)))
  }

  /** `append_delta`: the kind of the current block decides what the text becomes. */
  function Append(s: State, text: string, key: Option<int>): seq<Event> {
    if text == "" then []
    else match s.kind
      case Some(Thinking) => [DeltaEvent(s.index, ThinkingDelta(text))]
      case Some(Text) => [DeltaEvent(s.index, TextDelta(text))]
      case Some(ToolUse) =>
        var index := if key.Some? && key.value in s.toolIndex then s.toolIndex[key.value] else s.index;
        [DeltaEvent(index, JsonDelta(text))]
      case None => [DeltaEvent(s.index, JsonDelta(text))]
  }

  /** `_build_message_stop_events` */
  function StopMessage(s: State, usage: Option<Usage>, finish: Option<Finish>): Reaction {
    if s.stopped then Reaction(s, [])
    else
      var f := if finish.Some? then finish.value else Or(s.pending, Stop);
      var cumulative := if usage.Some? then Or(usage.value.completion, 0) else s.prevCompletion;
      Reaction(s.(prevCompletion := cumulative, stopped := true, pending := None),
               [MessageDelta(Some(RenderFinish(ParseFinish(f))), cumulative - s.prevCompletion), MessageStop])
  }

  /** `queue_stop` */
  function Queued(s: State, usage: Option<Usage>, finish: Finish): Reaction {
    if s.stopped then Reaction(s, [])
    else if usage.Some? then
      var closed := Close(s, false);
      Then(closed, StopMessage(closed.state, usage, Some(finish)))
    else Reaction(s.(pending := Some(finish)), [])
  }

  /** `handle_usage_chunk` */
  function HandleUsage(s: State, usage: Option<Usage>): Reaction {
    if Or(usage, NO_USAGE) == NO_USAGE || !s.started || s.stopped then Reaction(s, [])
    else if s.pending.Some? then StopMessage(s, usage, None)
    else
      var closed := Close(s, false);
      Then(closed, StopMessage(closed.state, usage, None))
  }

  /** `finalize_stream` */
  function Finalize(s: State): Reaction {
    if s.stopped || !s.started then Reaction(s, [])
    else
      var closed := Close(s, false);
      Then(closed, StopMessage(closed.state, None, None))
  }

  /** What one step of a chunk does. */
  function React(s: State, item: Item): Reaction {
    var chunk := item.chunk;
    match item.step
    case Begin => Started(s, chunk)
    case Reason(t) => Speak(s, chunk, ThinkingBlock, t)
    case Say(t) => Speak(s, chunk, TextBlock, t)
    case Call(key, id, name, args) =>
      var begun := Started(s, chunk);
      var ready := Then(begun, EnsureTool(begun.state, key, id, name));
      ready.(events := ready.events + Append(ready.state, args, Some(key)))
    case End(f) =>
      if s.stopped then Reaction(s, [])
      else
        var begun := Started(s, chunk);
        var closed := Then(begun, Close(begun.state, false));
        Then(closed, Queued(closed.state, chunk.usage, f))
    case UsageOnly => HandleUsage(s, chunk.usage)
  }

  function Speak(s: State, chunk: Chunk, b: Block, text: string): Reaction {
    var begun := Started(s, chunk);
    var ready := Then(begun, Open(begun.state, b));
    ready.(events := ready.events + Append(ready.state, text, None))
  }

  function ReactAll(s: State, items: seq<Item>): Reaction {
    if items == [] then Reaction(s, [])
    else
      var before := ReactAll(s, items[..|items| - 1]);
      Then(before, React(before.state, items[|items| - 1]))
  }

  /** All events a client receives when the upstream ends after these steps. */
  function Converted(items: seq<Item>): seq<Event> {
    ReactAll(INIT, items).events + Finalize(ReactAll(INIT, items).state).events
  }

  /** Converting chunk after chunk is converting the whole sequence of steps. */
  lemma {:induction false} ReactConcat(s: State, a: seq<Item>, b: seq<Item>)
    ensures ReactAll(s, a + b) == Then(ReactAll(s, a), ReactAll(ReactAll(s, a).state, b))
  {
    hide React;
    if b == [] {
      assert a + b == a;
    } else {
      assert (a + b)[..|a + b| - 1] == a + b[..|b| - 1];
      ReactConcat(s, a, b[..|b| - 1]);
    }
  }

  // ----- what holds of every chunk sequence whatsoever -----

  function TallyOf(s: State): Tally {
    Tally(s.started, if s.open then Some(s.index) else None, if s.stopped then 1 else 0, true)
  }

  ghost predicate Sane(s: State) {
    && (s.open || s.stopped || s.kind.Some? ==> s.started)
    && (s.open || s.toolIndex != map[] ==> s.kind.Some?)
  }

  lemma CountOne(t: Tally, e: Event)
    ensures CountAll(t, [e]) == Count(t, e)
  {
    assert CountAll(t, [e][..0]) == t;
  }

  lemma CountThen(t: Tally, a: Reaction, b: Reaction)
    ensures CountAll(t, Then(a, b).events) == CountAll(CountAll(t, a.events), b.events)
  {
    CountConcat(t, a.events, b.events);
  }

  lemma CountTwo(t: Tally, a: Event, b: Event)
    ensures CountAll(t, [a, b]) == Count(Count(t, a), b)
  {
    assert [a, b] == [a] + [b];
    CountConcat(t, [a], [b]);
    CountOne(t, a);
    CountOne(Count(t, a), b);
  }

  /** `r` is one lawful move from `s`. */
  ghost predicate Lawful(s: State, r: Reaction) {
    Sane(r.state) && CountAll(TallyOf(s), r.events) == TallyOf(r.state)
  }

  lemma LawfulThen(s: State, a: Reaction, b: Reaction)
    requires Lawful(s, a) && Lawful(a.state, b)
    ensures Lawful(s, Then(a, b))
  {
    CountThen(TallyOf(s), a, b);
  }

  lemma StartedLawful(s: State, chunk: Chunk)
    requires Sane(s)
    ensures Lawful(s, Started(s, chunk)) && Started(s, chunk).state.started
  {
  }

  lemma CloseLawful(s: State, advance: bool)
    requires Sane(s)
    ensures Lawful(s, Close(s, advance))
  {
    hide CountAll;
    CloseEvents(s, advance);
    if !s.open {
      CountNone(TallyOf(s));
    } else if s.kind == Some(Thinking) {
      CountTwo(TallyOf(s), DeltaEvent(s.index, SignatureDelta), BlockStop(s.index));
    } else {
      CountOne(TallyOf(s), BlockStop(s.index));
    }
  }

  lemma CountNone(t: Tally)
    ensures CountAll(t, []) == t
  {
  }

  lemma CloseEvents(s: State, advance: bool)
    ensures Close(s, advance).events ==
            if !s.open then []
            else if s.kind == Some(Thinking) then [DeltaEvent(s.index, SignatureDelta), BlockStop(s.index)]
            else [BlockStop(s.index)]
  {
    var stop := BlockStop(s.index);
    assert [] + [stop] == [stop];
  }

  lemma StartBlockLawful(s: State, b: Block)
    requires Sane(s) && s.started && !s.open
    ensures Lawful(s, StartBlock(s, b))
  {
  }

  lemma StopLawful(s: State, usage: Option<Usage>, finish: Option<Finish>)
    requires Sane(s) && s.started
    ensures Lawful(s, StopMessage(s, usage, finish)) && StopMessage(s, usage, finish).state.stopped
  {
    var r := StopMessage(s, usage, finish);
    if !s.stopped { CountTwo(TallyOf(s), r.events[0], r.events[1]); }
  }

  lemma AppendLawful(s: State, r: Reaction, text: string, key: Option<int>)
    requires Lawful(s, r) && r.state.started
    ensures Lawful(s, r.(events := r.events + Append(r.state, text, key)))
  {
    var more := Append(r.state, text, key);
    CountConcat(TallyOf(s), r.events, more);
    if text != "" { CountOne(TallyOf(r.state), more[0]); }
  }

  lemma ReactLawful(s: State, item: Item)
    requires Sane(s)
    ensures Lawful(s, React(s, item))
  {
    var chunk := item.chunk;
    var begun := Started(s, chunk);
    StartedLawful(s, chunk);
    match item.step
    case Begin =>
    case Reason(t) => SpeakLawful(s, chunk, ThinkingBlock, t);
    case Say(t) => SpeakLawful(s, chunk, TextBlock, t);
    case Call(key, id, name, args) =>
      var ready := EnsureTool(begun.state, key, id, name);
      EnsureToolLawful(begun.state, key, id, name);
      LawfulThen(s, begun, ready);
      AppendLawful(s, Then(begun, ready), args, Some(key));
    case End(f) =>
      if !s.stopped {
        var shut := Close(begun.state, false);
        CloseLawful(begun.state, false);
        LawfulThen(s, begun, shut);
        CloseLawful(shut.state, false);
        StopLawful(shut.state, chunk.usage, Some(f));
        LawfulThen(shut.state, Close(shut.state, false), StopMessage(shut.state, chunk.usage, Some(f)));
        LawfulThen(s, Then(begun, shut), Queued(shut.state, chunk.usage, f));
      }
    case UsageOnly =>
      var shut := Close(s, false);
      CloseLawful(s, false);
      if s.started {
        StopLawful(s, chunk.usage, None);
        StopLawful(shut.state, chunk.usage, None);
        LawfulThen(s, shut, StopMessage(shut.state, chunk.usage, None));
      }
  }

  lemma EnsureToolLawful(s: State, key: int, id: string, name: string)
    requires Sane(s) && s.started
    ensures Lawful(s, EnsureTool(s, key, id, name)) && EnsureTool(s, key, id, name).state.started
  {
    if key !in s.toolIndex {
      var closed := Close(s, true);
      CloseLawful(s, true);
      var at := closed.state.(toolIndex := closed.state.toolIndex[key := closed.state.index]);
      var r := StartBlock(at, ToolBlock(id, name));
      CountOne(TallyOf(closed.state), r.events[0]);
      LawfulThen(s, closed, r);
    }
  }

  lemma SpeakLawful(s: State, chunk: Chunk, b: Block, text: string)
    requires Sane(s)
    ensures Lawful(s, Speak(s, chunk, b, text))
  {
    var begun := Started(s, chunk);
    StartedLawful(s, chunk);
    var closed := Close(begun.state, true);
    CloseLawful(begun.state, true);
    if !(begun.state.open && begun.state.kind == Some(KindOf(b))) {
      StartBlockLawful(closed.state, b);
      LawfulThen(begun.state, closed, StartBlock(closed.state, b));
    }
    LawfulThen(s, begun, Open(begun.state, b));
    AppendLawful(s, Then(begun, Open(begun.state, b)), text, None);
  }

  lemma {:induction false} ReactAllLawful(s: State, items: seq<Item>)
    requires Sane(s)
    ensures Lawful(s, ReactAll(s, items))
  {
    if items != [] {
      var before := ReactAll(s, items[..|items| - 1]);
      ReactAllLawful(s, items[..|items| - 1]);
      ReactLawful(before.state, items[|items| - 1]);
      LawfulThen(s, before, React(before.state, items[|items| - 1]));
    }
  }

  /** Whatever arrives, and wherever it ends: message_start first and once, blocks opened and closed in
      turn with matching indices, and after finalize exactly one message_stop if anything was sent at all. */
  lemma EveryStreamIsLawful(items: seq<Item>)
    ensures var t := CountAll(NO_EVENTS, Converted(items));
            t.ok && t.stops == (if t.started then 1 else 0) && (t.started <==> Converted(items) != [])
    ensures var t := CountAll(NO_EVENTS, ReactAll(INIT, items).events); t.ok && t.stops <= 1
  {
    var r := ReactAll(INIT, items);
    ReactAllLawful(INIT, items);
    FinalizeLawful(r.state);
    LawfulThen(INIT, r, Finalize(r.state));
    NothingUnstarted(Converted(items));
  }

  lemma FinalizeLawful(s: State)
    requires Sane(s)
    ensures Lawful(s, Finalize(s)) && (s.started ==> Finalize(s).state.stopped)
  {
    if s.started {
      CloseLawful(s, false);
      StopLawful(Close(s, false).state, None, None);
      LawfulThen(s, Close(s, false), StopMessage(Close(s, false).state, None, None));
    }
  }

  /** With `ok`, an unstarted tally has seen nothing. */
  lemma {:induction false} NothingUnstarted(es: seq<Event>)
    ensures var t := CountAll(NO_EVENTS, es); t.ok && !t.started ==> es == []
  {
  }

  // ----- streams as the protocol sends them -----

  /** Nothing in this step ends the message. */
  predicate LiveStep(s: State, item: Item) {
    !item.step.End? && (item.step.UsageOnly? ==> Or(item.chunk.usage, NO_USAGE) == NO_USAGE || !s.started)
  }

  ghost predicate Live(items: seq<Item>) {
    forall i | 0 <= i < |items| :: LiveStep(ReactAll(INIT, items[..i]).state, items[i])
  }

  /** The message is open until the finish. */
  ghost predicate Proper(st: Stream) {
    Live(st.live) && InParts(st)
  }

  /** Is this a fragment, with something in it, of a call that is already known? */
  predicate Continues(s: State, step: Step) {
    step.Call? && step.key in s.toolIndex && step.args != ""
  }

  /** Such a fragment arrives while a tool block, not necessarily its own, is the current one. */
  predicate RoutedStep(s: State, step: Step) {
    Continues(s, step) ==> s.kind == Some(ToolUse)
  }

  /** Such a fragment does not arrive while the tool block of another call is the current one. */
  predicate OrderedStep(s: State, step: Step) {
    Continues(s, step) && s.kind == Some(ToolUse) ==> s.toolIndex[step.key] == s.index
  }

  ghost predicate Routed(items: seq<Item>) {
    forall i | 0 <= i < |items| :: RoutedStep(ReactAll(INIT, items[..i]).state, items[i].step)
  }

  ghost predicate InOrder(items: seq<Item>) {
    forall i | 0 <= i < |items| :: OrderedStep(ReactAll(INIT, items[..i]).state, items[i].step)
  }

  lemma Unsnoc(items: seq<Item>)
    requires items != []
    ensures var init, last := items[..|items| - 1], items[|items| - 1];
            var s := ReactAll(INIT, init).state;
            && (Live(items) <==> Live(init) && LiveStep(s, last))
            && (Routed(items) <==> Routed(init) && RoutedStep(s, last.step))
            && (InOrder(items) <==> InOrder(init) && OrderedStep(s, last.step))
  {
    hide ReactAll, LiveStep, RoutedStep, OrderedStep;
    var n := |items| - 1;
    assert forall i | 0 <= i < n :: items[..n][..i] == items[..i] && items[..n][i] == items[i];
  }

  /** The session while the message is open. */
  ghost predicate LiveState(s: State) {
    && !s.stopped && s.pending == None && s.prevCompletion == 0
    && (s.kind.Some? <==> s.open) && (s.open ==> s.started) && (!s.open ==> s.index == 0)
    && (s.toolIndex != map[] ==> s.kind.Some?)
    && (forall k | k in s.toolIndex :: s.toolIndex[k] <= s.index)
    && (s.kind != Some(ToolUse) ==> forall k | k in s.toolIndex :: s.toolIndex[k] < s.index)
  }

  // ----- well-formedness at every cut -----

  function PhaseOf(s: State): Phase {
    if !s.started then Fresh else if s.open then InBlock(s.index, Or(s.kind, Text)) else Between(s.index)
  }

  lemma WatchOne(p: Phase, e: Event)
    ensures WatchAll(p, [e]) == Watch(p, e)
  {
    assert WatchAll(p, [e][..0]) == p;
  }

  lemma WatchTwo(p: Phase, a: Event, b: Event)
    ensures WatchAll(p, [a, b]) == Watch(Watch(p, a), b)
  {
    assert [a, b] == [a] + [b];
    WatchConcat(p, [a], [b]);
    WatchOne(p, a);
    WatchOne(Watch(p, a), b);
  }

  lemma WatchClose(s: State, advance: bool)
    requires s.open ==> s.kind.Some? && s.started
    ensures WatchAll(PhaseOf(s), Close(s, advance).events) == if s.open then Between(s.index + 1) else PhaseOf(s)
  {
    hide WatchAll, Close;
    var p, signature, stop := PhaseOf(s), DeltaEvent(s.index, SignatureDelta), BlockStop(s.index);
    CloseEvents(s, advance);
    if !s.open {
      WatchNone(p);
    } else if s.kind == Some(Thinking) {
      WatchTwo(p, signature, stop);
    } else {
      WatchOne(p, stop);
    }
  }

  lemma WatchNone(p: Phase)
    ensures WatchAll(p, []) == p
  {
  }

  lemma WatchStarted(s: State, chunk: Chunk)
    requires LiveState(s)
    ensures LiveState(Started(s, chunk).state)
    ensures WatchAll(PhaseOf(s), Started(s, chunk).events) == PhaseOf(Started(s, chunk).state)
  {
  }

  lemma WatchSwitch(s: State, r: Reaction, b: Block)
    requires LiveState(s) && s.started
    requires r == StartBlock(Close(s, true).state.(toolIndex := r.state.toolIndex), b)
    ensures WatchAll(PhaseOf(s), Then(Close(s, true), r).events) == PhaseOf(r.state)
  {
    var closed := Close(s, true);
    WatchClose(s, true);
    WatchConcat(PhaseOf(s), closed.events, r.events);
    WatchOne(Between(closed.state.index), BlockStart(closed.state.index, b));
  }

  lemma WatchAppend(p: Phase, r: Reaction, text: string, key: Option<int>)
    requires r.state.open && r.state.started && r.state.kind.Some? && WatchAll(p, r.events) == PhaseOf(r.state)
    ensures var owned := r.state.kind == Some(ToolUse) && text != "" && key.Some? && key.value in r.state.toolIndex ==>
                           r.state.toolIndex[key.value] == r.state.index;
            WatchAll(p, r.events + Append(r.state, text, key)) == if owned then PhaseOf(r.state) else Bad
  {
    hide WatchAll;
    var more := Append(r.state, text, key);
    if text == "" {
      assert r.events + more == r.events;
    } else {
      WatchConcat(p, r.events, more);
      WatchOne(PhaseOf(r.state), more[0]);
      assert more == [more[0]];
    }
  }

  /** A live step leads the monitor from the phase of one state to the phase of the next, unless the
      fragment belongs to another tool block. */
  lemma WatchReact(s: State, item: Item)
    requires LiveState(s) && LiveStep(s, item)
    ensures var r := React(s, item);
            && LiveState(r.state)
            && WatchAll(PhaseOf(s), r.events) ==
               if OrderedStep(s, item.step) then PhaseOf(r.state) else Bad
  {
    var begun := Started(s, item.chunk);
    WatchStarted(s, item.chunk);
    match item.step
    case Begin =>
    case Reason(t) => WatchSpeak(s, item.chunk, ThinkingBlock, t);
    case Say(t) => WatchSpeak(s, item.chunk, TextBlock, t);
    case Call(key, id, name, args) =>
      var ready := EnsureTool(begun.state, key, id, name);
      WatchTool(begun.state, key, id, name);
      hide WatchAll, EnsureTool;
      WatchConcat(PhaseOf(s), begun.events, ready.events);
      WatchAppend(PhaseOf(s), Then(begun, ready), args, Some(key));
    case UsageOnly =>
  }

  lemma WatchTool(s: State, key: int, id: string, name: string)
    requires LiveState(s) && s.started
    ensures var r := EnsureTool(s, key, id, name);
            && LiveState(r.state) && r.state.open && r.state.started
            && WatchAll(PhaseOf(s), r.events) == PhaseOf(r.state)
            && key in r.state.toolIndex
            && (if key in s.toolIndex then r.state == s
                else r.state.kind == Some(ToolUse) && r.state.toolIndex[key] == r.state.index)
  {
    if key !in s.toolIndex {
      var closed := Close(s, true).state;
      var at := closed.(toolIndex := closed.toolIndex[key := closed.index]);
      WatchSwitch(s, StartBlock(at, ToolBlock(id, name)), ToolBlock(id, name));
    }
  }

  lemma WatchSpeak(s: State, chunk: Chunk, b: Block, text: string)
    requires LiveState(s) && !b.ToolBlock?
    ensures LiveState(Speak(s, chunk, b, text).state)
    ensures WatchAll(PhaseOf(s), Speak(s, chunk, b, text).events) == PhaseOf(Speak(s, chunk, b, text).state)
  {
    var begun := Started(s, chunk);
    WatchStarted(s, chunk);
    var ready := Open(begun.state, b);
    if !(begun.state.open && begun.state.kind == Some(KindOf(b))) {
      WatchSwitch(begun.state, StartBlock(Close(begun.state, true).state, b), b);
    }
    WatchConcat(PhaseOf(s), begun.events, ready.events);
    WatchAppend(PhaseOf(s), Then(begun, ready), text, None);
  }

  lemma {:induction false} WatchLive(items: seq<Item>)
    requires Live(items)
    ensures var r := ReactAll(INIT, items);
            LiveState(r.state) && WatchAll(Fresh, r.events) == if InOrder(items) then PhaseOf(r.state) else Bad
  {
    if items != [] {
      hide React, WatchAll, LiveStep, LiveState, OrderedStep, Live, InOrder, PhaseOf;
      var init, last := items[..|items| - 1], items[|items| - 1];
      Unsnoc(items);
      WatchLive(init);
      var before := ReactAll(INIT, init);
      var r := React(before.state, last);
      WatchReact(before.state, last);
      WatchConcat(Fresh, before.events, r.events);
      BadStays(r.events);
    }
  }

  // ----- how a proper stream ends -----

  function LastEvents(f: Finish, outputTokens: int): seq<Event> {
    [MessageDelta(Some(RenderFinish(ParseFinish(f))), outputTokens), MessageStop]
  }

  /** The output tokens of the first chunk of the tail that has usage, and whether there is one. */
  function TailTokens(items: seq<Item>): (int, bool) {
    if items == [] then (0, false)
    else
      var (tokens, found) := TailTokens(items[..|items| - 1]);
      var usage := Or(items[|items| - 1].chunk.usage, NO_USAGE);
      if found then (tokens, true)
      else if usage == NO_USAGE then (0, false)
      else (Or(usage.completion, 0), true)
  }

  /** The output tokens of the chunk that finishes the message, or else of the first usage after it. */
  function ReportedTokens(st: Stream): int {
    if st.end.None? then 0
    else if st.end.value.chunk.usage.Some? then Or(st.end.value.chunk.usage.value.completion, 0)
    else TailTokens(st.tail).0
  }

  lemma {:induction false} TailShape(s: State, items: seq<Item>, f: Finish)
    requires s.started && !s.open && (s.stopped || (s.pending == Some(f) && s.prevCompletion == 0))
    requires forall i | 0 <= i < |items| :: items[i].step.UsageOnly?
    ensures var r, (tokens, found) := ReactAll(s, items), TailTokens(items);
            && r.state.started && !r.state.open && r.state.stopped == (s.stopped || found)
            && (!r.state.stopped ==> r.state.pending == Some(f) && r.state.prevCompletion == 0 && r.events == [])
            && r.events + Finalize(r.state).events == if s.stopped then [] else LastEvents(f, tokens)
  {
    if items != [] {
      var n := |items| - 1;
      TailShape(s, items[..n], f);
      TailStep(ReactAll(s, items[..n]).state, items[n], f);
      hide React, Finalize, LastEvents;
      var none: seq<Event> := [];
      assert forall es: seq<Event> :: es + none == es && none + es == es;
      assert LastEvents(f, TailTokens(items).0) + none == LastEvents(f, TailTokens(items).0);
    }
  }

  lemma TailStep(s: State, item: Item, f: Finish)
    requires s.started && !s.open && item.step.UsageOnly?
    requires s.stopped || (s.pending == Some(f) && s.prevCompletion == 0)
    ensures var r, usage := React(s, item), Or(item.chunk.usage, NO_USAGE);
            if s.stopped then r == Reaction(s, []) && Finalize(s).events == []
            else if usage == NO_USAGE then r == Reaction(s, [])
            else r.events == LastEvents(f, Or(usage.completion, 0)) && Finalize(r.state).events == []
                 && r.state.started && !r.state.open && r.state.stopped
  {
  }

  /** The finish itself: it closes the block, and stops the message if its chunk has the usage. */
  lemma EndShape(s: State, item: Item)
    requires LiveState(s) && item.step.End?
    ensures var f, usage := item.step.finish, item.chunk.usage;
            var begun := Started(s, item.chunk);
            var r := React(s, item);
            && r.state.started && !r.state.open && r.state.stopped == usage.Some?
            && (usage.None? ==> r.state.pending == Some(f) && r.state.prevCompletion == 0)
            && r.events == begun.events + Close(begun.state, false).events
                           + (if usage.Some? then LastEvents(f, Or(usage.value.completion, 0)) else [])
  {
  }

  /** The message as it stands when it is closed: begun by the finish itself if nothing came before. */
  function ToClose(st: Stream): Reaction {
    var live := ReactAll(INIT, st.live);
    if st.end.Some? then Then(live, Started(live.state, st.end.value.chunk)) else live
  }

  function FinishOf(st: Stream): Finish {
    if st.end.Some? && st.end.value.step.End? then st.end.value.step.finish else Stop
  }

  /** Everything a client receives for a proper stream, wherever it is cut: what the open message sent,
      the last block closed, and one message_delta and one message_stop with the output tokens first reported by
      the finish or after it. */
  lemma ConvertedShape(st: Stream)
    requires Proper(st)
    ensures var open := ToClose(st);
            var last := Close(open.state, false).events + LastEvents(FinishOf(st), ReportedTokens(st));
            Converted(Flat(st)) == open.events + if open.state.started then last else []
    ensures st.end.Some? ==> ToClose(st).state.started
  {
    hide React, ReactAll, LiveState, Started, Close, LastEvents, Converted, Live;
    WatchLive(st.live);
    if st.end.Some? {
      FinishedShape(st.live, st.end.value, st.tail);
    } else {
      CutShape(st.live);
    }
  }

  lemma CutShape(items: seq<Item>)
    requires LiveState(ReactAll(INIT, items).state)
    ensures var live := ReactAll(INIT, items);
            var last := Close(live.state, false).events + LastEvents(Stop, 0);
            Converted(items) == live.events + if live.state.started then last else []
  {
    hide ReactAll;
  }

  lemma FinishedShape(before: seq<Item>, end: Item, tail: seq<Item>)
    requires LiveState(ReactAll(INIT, before).state) && end.step.End?
    requires forall i | 0 <= i < |tail| :: tail[i].step.UsageOnly?
    ensures var live := ReactAll(INIT, before);
            var begun := Started(live.state, end.chunk);
            var tokens := ReportedTokens(Stream(before, Some(end), tail));
            var last := Close(begun.state, false).events + LastEvents(end.step.finish, tokens);
            Converted(before + [end] + tail) == live.events + begun.events + last && begun.state.started
  {
    hide LiveState, Close, React, Finalize, LastEvents, Started;
    var live := ReactAll(INIT, before);
    var begun := Started(live.state, end.chunk);
    var r := React(live.state, end);
    assert (before + [end])[..|before|] == before;
    ReactConcat(INIT, before + [end], tail);
    EndShape(live.state, end);
    TailShape(r.state, tail, end.step.finish);
    var tokens := ReportedTokens(Stream(before, Some(end), tail));
    var rest := ReactAll(r.state, tail);
    BegunStarted(live.state, end.chunk);
    Joined(live.events, begun.events, Close(begun.state, false).events, LastEvents(end.step.finish, tokens),
           r.events, rest.events, Finalize(rest.state).events);
  }

  lemma BegunStarted(s: State, chunk: Chunk)
    ensures Started(s, chunk).state.started
  {
  }

  lemma Joined<T>(live: seq<T>, begun: seq<T>, closed: seq<T>, last: seq<T>, r: seq<T>, rest: seq<T>, final: seq<T>)
    requires (r == begun + closed + last && rest + final == []) || (r == begun + closed + [] && rest + final == last)
    ensures live + r + rest + final == live + begun + (closed + last)
  {
  }

  lemma WatchLast(s: State, f: Finish, outputTokens: int)
    requires s.started && (s.open ==> s.kind.Some?)
    ensures WatchAll(PhaseOf(s), Close(s, false).events + LastEvents(f, outputTokens)) == Done
  {
    WatchClose(s, false);
    hide Close;
    var last := LastEvents(f, outputTokens);
    WatchConcat(PhaseOf(s), Close(s, false).events, last);
    WatchTwo(Between(if s.open then s.index + 1 else s.index), last[0], last[1]);
  }

  /** Wherever a proper stream is cut, the client receives one message_start, blocks numbered 0, 1, 2, ...
      each opened, filled with deltas of its own kind and closed, one message_delta and one message_stop,
      or nothing at all: exactly when no fragment arrives while the tool block of another call is open. */
  lemma WellFormedIffInOrder(st: Stream)
    requires Proper(st)
    ensures var es := Converted(Flat(st));
            WatchAll(Fresh, es) == (if es == [] then Fresh else Done) <==> InOrder(st.live)
  {
    WatchToClose(st);
    var open := ToClose(st);
    ConvertedShape(st);
    var outputTokens := ReportedTokens(st);
    hide *;
    if open.state.started {
      var rest := Close(open.state, false).events + LastEvents(FinishOf(st), outputTokens);
      WatchLast(open.state, FinishOf(st), outputTokens);
      WatchConcat(Fresh, open.events, rest);
      BadStays(rest);
      assert Converted(Flat(st)) != [];
    } else {
      assert Converted(Flat(st)) == open.events;
    }
  }

  lemma WatchToClose(st: Stream)
    requires Proper(st)
    ensures var open := ToClose(st);
            && (open.state.open ==> open.state.kind.Some?)
            && WatchAll(Fresh, open.events) == (if InOrder(st.live) then PhaseOf(open.state) else Bad)
            && (open.state.started <==> open.events != [])
            && (!open.state.started ==> InOrder(st.live))
  {
    hide React, ReactAll, Live, InOrder, WatchAll;
    WatchLive(st.live);
    LiveEventsStarted(st.live);
    if st.end.Some? {
      var live := ReactAll(INIT, st.live);
      var begun := Started(live.state, st.end.value.chunk);
      WatchStarted(live.state, st.end.value.chunk);
      WatchConcat(Fresh, live.events, begun.events);
      BadStays(begun.events);
    }
  }

  lemma {:induction false} LiveEventsStarted(items: seq<Item>)
    requires Live(items)
    ensures var r := ReactAll(INIT, items);
            && (r.state.started <==> r.events != [])
            && (!r.state.started ==> InOrder(items) && WatchAll(Fresh, r.events) == Fresh)
  {
    WatchLive(items);
    ReactAllLawful(INIT, items);
    NothingUnstarted(ReactAll(INIT, items).events);
    if items != [] { Unsnoc(items); LiveEventsStarted(items[..|items| - 1]); }
  }

  // ----- meaning -----

  function KeysOf(entries: seq<Entry>): (keys: seq<int>)
    ensures |keys| == |entries|
  {
    seq(|entries|, i requires 0 <= i < |entries| => entries[i].key)
  }

  /** The wire numbers of the calls, the blocks they were given, and the map between them. */
  ghost predicate Paired(blockOf: map<int, nat>, keys: seq<int>, blocks: seq<int>) {
    && |keys| == |blocks|
    && (forall p | 0 <= p < |keys| :: keys[p] in blockOf && blockOf[keys[p]] == blocks[p])
    && (forall key | key in blockOf :: key in keys)
    && (forall p, q | 0 <= p < q < |keys| :: keys[p] != keys[q])
    && (forall p, q | 0 <= p < q < |blocks| :: blocks[p] < blocks[q])
  }

  /** The meaning of the chunks and the meaning of the events sent for them, call by call. */
  ghost predicate Linked(blockOf: map<int, nat>, mi: Meaning, me: Meaning) {
    SameContent(mi, me) && Paired(blockOf, KeysOf(mi.entries), KeysOf(me.entries))
  }

  lemma MeanOne(m: Meaning, e: Event)
    ensures MeanEvents(m, [e]) == MeanEvent(m, e)
  {
    assert MeanEvents(m, [e][..0]) == m;
  }

  /** Opening and closing blocks means nothing, except that a tool block is a new call. */
  lemma MeanClose(m: Meaning, s: State, advance: bool)
    ensures MeanEvents(m, Close(s, advance).events) == m
  {
    hide MeanEvents;
    var signature, stop := DeltaEvent(s.index, SignatureDelta), BlockStop(s.index);
    MeanNone(m);
    MeanOne(m, signature);
    MeanOne(m, stop);
    MeanEventsConcat(m, [signature], [stop]);
    assert Close(s, advance).events ==
           if !s.open then [] else if s.kind == Some(Thinking) then [signature] + [stop] else [stop];
  }

  lemma MeanNone(m: Meaning)
    ensures MeanEvents(m, []) == m
  {
  }

  lemma MeanStarted(m: Meaning, s: State, chunk: Chunk)
    ensures MeanEvents(m, Started(s, chunk).events) == m
  {
  }

  lemma MeanAppend(m: Meaning, s: State, text: string, key: Option<int>)
    requires s.kind.Some?
    ensures MeanEvents(m, Append(s, text, key)) ==
            match s.kind.value
            case Thinking => m.(reasoning := m.reasoning + text)
            case Text => m.(text := m.text + text)
            case ToolUse =>
              var i := if key.Some? && key.value in s.toolIndex then s.toolIndex[key.value] else s.index;
              var p := IndexOf(m.entries, i);
              if text == "" || p == -1 then m else m.(entries := AddArgs(m.entries, p, text))
  {
    var es := Append(s, text, key);
    if text == "" {
      assert m.reasoning + "" == m.reasoning && m.text + "" == m.text;
    } else {
      MeanOne(m, es[0]);
    }
  }

  lemma MeanSpeak(m: Meaning, s: State, chunk: Chunk, b: Block, text: string)
    requires LiveState(s) && !b.ToolBlock?
    ensures MeanEvents(m, Speak(s, chunk, b, text).events) ==
            if b == ThinkingBlock then m.(reasoning := m.reasoning + text) else m.(text := m.text + text)
    ensures Speak(s, chunk, b, text).state.toolIndex == s.toolIndex
  {
    hide MeanEvents, LiveState, Open, Append;
    var begun := Started(s, chunk);
    MeanStarted(m, s, chunk);
    var open := Open(begun.state, b);
    MeanOpen(m, begun.state, b);
    MeanEventsConcat(m, begun.events, open.events);
    MeanEventsConcat(m, begun.events + open.events, Append(open.state, text, None));
    MeanAppend(m, open.state, text, None);
  }

  lemma MeanOpen(m: Meaning, s: State, b: Block)
    requires !b.ToolBlock?
    ensures MeanEvents(m, Open(s, b).events) == m && Open(s, b).state.kind == Some(KindOf(b))
    ensures Open(s, b).state.toolIndex == s.toolIndex
  {
    if !(s.open && s.kind == Some(KindOf(b))) {
      var closed := Close(s, true);
      MeanClose(m, s, true);
      MeanEventsConcat(m, closed.events, StartBlock(closed.state, b).events);
      MeanOne(m, BlockStart(closed.state.index, b));
    }
  }

  lemma MeanTool(m: Meaning, s: State, key: int, id: string, name: string)
    requires LiveState(s)
    ensures var r := EnsureTool(s, key, id, name);
            if key in s.toolIndex then r == Reaction(s, [])
            else
              && r.state.kind == Some(ToolUse) && r.state.toolIndex == s.toolIndex[key := r.state.index]
              && (forall k | k in s.toolIndex :: s.toolIndex[k] < r.state.index)
              && MeanEvents(m, r.events) == m.(entries := m.entries + [Entry(r.state.index, ToolCall(id, name, ""))])
  {
    if key !in s.toolIndex {
      var closed := Close(s, true);
      MeanClose(m, s, true);
      var start := BlockStart(closed.state.index, ToolBlock(id, name));
      MeanEventsConcat(m, closed.events, [start]);
      MeanOne(m, start);
    }
  }

  lemma MeanCallEvents(m: Meaning, s: State, item: Item)
    requires LiveState(s) && item.step.Call?
    ensures var begun := Started(s, item.chunk);
            var tool := EnsureTool(begun.state, item.step.key, item.step.id, item.step.name);
            && React(s, item).state == tool.state
            && MeanEvents(m, React(s, item).events) ==
               MeanEvents(MeanEvents(m, tool.events), Append(tool.state, item.step.args, Some(item.step.key)))
  {
    hide MeanEvents, LiveState, EnsureTool, Append;
    var begun := Started(s, item.chunk);
    MeanStarted(m, s, item.chunk);
    var tool := EnsureTool(begun.state, item.step.key, item.step.id, item.step.name);
    MeanEventsConcat(m, begun.events, tool.events);
    MeanEventsConcat(m, begun.events + tool.events, Append(tool.state, item.step.args, Some(item.step.key)));
  }

  /** A routed live step means the same on both sides. */
  lemma LinkedReact(s: State, item: Item, mi: Meaning, me: Meaning)
    requires LiveState(s) && LiveStep(s, item) && Linked(s.toolIndex, mi, me) && RoutedStep(s, item.step)
    ensures Linked(React(s, item).state.toolIndex, Mean(mi, item.step), MeanEvents(me, React(s, item).events))
  {
    match item.step
    case Begin => MeanStarted(me, s, item.chunk);
    case Reason(t) => MeanSpeak(me, s, item.chunk, ThinkingBlock, t);
    case Say(t) => MeanSpeak(me, s, item.chunk, TextBlock, t);
    case Call(key, id, name, args) =>
      if key in s.toolIndex { LinkedContinue(s, item, mi, me); } else { LinkedNew(s, item, mi, me); }
    case UsageOnly => MeanNone(me);
  }

  lemma LinkedContinue(s: State, item: Item, mi: Meaning, me: Meaning)
    requires LiveState(s) && Linked(s.toolIndex, mi, me) && RoutedStep(s, item.step)
    requires item.step.Call? && item.step.key in s.toolIndex
    ensures Linked(React(s, item).state.toolIndex, Mean(mi, item.step), MeanEvents(me, React(s, item).events))
  {
    hide Paired, KeysOf, MeanEvents, AddArgs, IndexOf, LiveState, React, SameContent;
    var key, args := item.step.key, item.step.args;
    FoundBoth(s.toolIndex, mi, me, key);
    ContinueMeans(s, item, me);
    var p := IndexOf(mi.entries, key);
    ExtendBoth(s.toolIndex, mi, me, p, args);
    SameArgs(me.entries, p);
    assert me.(entries := me.entries) == me;
  }

  lemma ContinueMeans(s: State, item: Item, m: Meaning)
    requires LiveState(s) && item.step.Call? && item.step.key in s.toolIndex && RoutedStep(s, item.step)
    ensures var p := IndexOf(m.entries, s.toolIndex[item.step.key]);
            && React(s, item).state.toolIndex == s.toolIndex
            && MeanEvents(m, React(s, item).events) ==
               if item.step.args == "" || p == -1 then m else m.(entries := AddArgs(m.entries, p, item.step.args))
  {
    MeanCallEvents(m, s, item);
    MeanNone(m);
    var begun := Started(s, item.chunk).state;
    assert EnsureTool(begun, item.step.key, item.step.id, item.step.name) == Reaction(begun, []);
    hide MeanEvents, AddArgs, IndexOf, EnsureTool;
    if item.step.args == "" {
      assert Append(begun, item.step.args, Some(item.step.key)) == [];
    } else {
      MeanAppend(m, begun, item.step.args, Some(item.step.key));
    }
  }

  /** A known call sits at one and the same position on both sides. */
  lemma FoundBoth(blockOf: map<int, nat>, mi: Meaning, me: Meaning, key: int)
    requires Linked(blockOf, mi, me) && key in blockOf
    ensures IndexOf(mi.entries, key) != -1 && IndexOf(me.entries, blockOf[key]) == IndexOf(mi.entries, key)
  {
    hide IndexOf;
    var keys, blocks := KeysOf(mi.entries), KeysOf(me.entries);
    var q :| 0 <= q < |keys| && keys[q] == key;
    assert forall j | q < j < |mi.entries| :: mi.entries[j].key == keys[j];
    IndexOfUnique(mi.entries, q);
    assert forall j | q < j < |me.entries| :: me.entries[j].key == blocks[j];
    assert me.entries[q].key == blocks[q];
    IndexOfUnique(me.entries, q);
  }

  lemma ExtendBoth(blockOf: map<int, nat>, mi: Meaning, me: Meaning, p: nat, args: string)
    requires Linked(blockOf, mi, me) && p < |mi.entries|
    ensures Linked(blockOf, mi.(entries := AddArgs(mi.entries, p, args)), me.(entries := AddArgs(me.entries, p, args)))
  {
    hide Paired;
    assert KeysOf(AddArgs(mi.entries, p, args)) == KeysOf(mi.entries);
    assert KeysOf(AddArgs(me.entries, p, args)) == KeysOf(me.entries);
  }

  lemma SameArgs(entries: seq<Entry>, p: nat)
    requires p < |entries|
    ensures AddArgs(entries, p, "") == entries
  {
    assert entries[p].call.args + "" == entries[p].call.args;
  }

  lemma LinkedNew(s: State, item: Item, mi: Meaning, me: Meaning)
    requires LiveState(s) && Linked(s.toolIndex, mi, me)
    requires item.step.Call? && item.step.key !in s.toolIndex
    ensures Linked(React(s, item).state.toolIndex, Mean(mi, item.step), MeanEvents(me, React(s, item).events))
  {
    hide Paired, KeysOf, MeanEvents, AddArgs, IndexOf, React, EnsureTool;
    var Call(key, id, name, args) := item.step;
    var begun := Started(s, item.chunk).state;
    MeanCallEvents(me, s, item);
    MeanTool(me, begun, key, id, name);
    hide LiveState;
    var r := EnsureTool(begun, key, id, name).state;
    var call := ToolCall(id, name, args);
    var me' := me.(entries := me.entries + [Entry(r.index, ToolCall(id, name, ""))]);
    MeanAppend(me', r, args, Some(key));
    PushThenExtend(me.entries, r.index, id, name, args);
    PushBoth(s.toolIndex, mi, me, key, r.index, call);
    if args == "" {
      SameArgs(me'.entries, |me.entries|);
    }
  }

  /** A call opened without arguments and then given some is the call with them. */
  lemma PushThenExtend(entries: seq<Entry>, block: int, id: string, name: string, args: string)
    ensures var es := entries + [Entry(block, ToolCall(id, name, ""))];
            && IndexOf(es, block) == |entries|
            && AddArgs(es, |entries|, args) == entries + [Entry(block, ToolCall(id, name, args))]
  {
    IndexOfUnique(entries + [Entry(block, ToolCall(id, name, ""))], |entries|);
    assert "" + args == args;
  }

  lemma PushBoth(blockOf: map<int, nat>, mi: Meaning, me: Meaning, key: int, block: nat, call: ToolCall)
    requires Linked(blockOf, mi, me) && key !in blockOf && forall k | k in blockOf :: blockOf[k] < block
    ensures IndexOf(mi.entries, key) == -1
    ensures Linked(blockOf[key := block],
                   mi.(entries := mi.entries + [Entry(key, call)]), me.(entries := me.entries + [Entry(block, call)]))
  {
    var keys, blocks := KeysOf(mi.entries), KeysOf(me.entries);
    forall p | 0 <= p < |keys| ensures mi.entries[p].key != key {
      assert keys[p] in blockOf;
    }
    assert KeysOf(mi.entries + [Entry(key, call)]) == keys + [key];
    assert KeysOf(me.entries + [Entry(block, call)]) == blocks + [block];
    PairedPush(blockOf, keys, blocks, key, block);
  }

  lemma PairedPush(blockOf: map<int, nat>, keys: seq<int>, blocks: seq<int>, key: int, block: nat)
    requires Paired(blockOf, keys, blocks) && key !in blockOf && forall k | k in blockOf :: blockOf[k] < block
    ensures Paired(blockOf[key := block], keys + [key], blocks + [block])
  {
    var keys', blocks', blockOf' := keys + [key], blocks + [block], blockOf[key := block];
    forall p | 0 <= p < |keys'| ensures keys'[p] in blockOf' && blockOf'[keys'[p]] == blocks'[p] {
      assert p < |keys| ==> keys'[p] == keys[p] && blocks'[p] == blocks[p];
    }
    forall k | k in blockOf' ensures k in keys' {
      assert k == key ==> keys'[|keys|] == k;
    }
    forall p, q | 0 <= p < q < |blocks'| ensures blocks'[p] < blocks'[q] && keys'[p] != keys'[q] {
      assert keys'[p] == keys[p] && blocks'[p] == blocks[p];
    }
  }

  // ----- a misrouted fragment is never made good -----

  function Weight(m: Meaning): nat {
    |m.text| + |m.reasoning|
  }

  function StepWeight(step: Step): nat {
    match step
    case Reason(t) => |t|
    case Say(t) => |t|
    case _ => 0
  }

  lemma MeanWeight(m: Meaning, step: Step)
    ensures Weight(Mean(m, step)) == Weight(m) + StepWeight(step)
  {
  }

  lemma CallWeight(s: State, item: Item, m: Meaning)
    requires LiveState(s) && item.step.Call?
    ensures Weight(MeanEvents(m, React(s, item).events)) ==
            Weight(m) + (if RoutedStep(s, item.step) then 0 else |item.step.args|)
    ensures MeanEvents(m, React(s, item).events).finish == m.finish
  {
    hide MeanEvents, IndexOf, AddArgs, React, EnsureTool, Append;
    var key, begun := item.step.key, Started(s, item.chunk).state;
    MeanCallEvents(m, s, item);
    MeanNone(m);
    MeanTool(m, begun, key, item.step.id, item.step.name);
    var tool := EnsureTool(begun, key, item.step.id, item.step.name);
    MeanAppend(MeanEvents(m, tool.events), tool.state, item.step.args, Some(key));
  }

  /** What a live step adds to text and reasoning; a misrouted fragment adds its arguments to them. */
  lemma ReactWeight(s: State, item: Item, m: Meaning)
    requires LiveState(s) && LiveStep(s, item)
    ensures Weight(MeanEvents(m, React(s, item).events)) ==
            Weight(m) + StepWeight(item.step) + (if RoutedStep(s, item.step) then 0 else |item.step.args|)
    ensures MeanEvents(m, React(s, item).events).finish == m.finish
    ensures !RoutedStep(s, item.step) ==> item.step.args != ""
  {
    hide MeanEvents, LiveState, Started, Speak, EnsureTool, Append;
    match item.step
    case Begin => MeanStarted(m, s, item.chunk);
    case Reason(t) => MeanSpeak(m, s, item.chunk, ThinkingBlock, t);
    case Say(t) => MeanSpeak(m, s, item.chunk, TextBlock, t);
    case Call(key, id, name, args) => CallWeight(s, item, m);
    case UsageOnly => MeanNone(m);
  }

  /** While the message is open: the same meaning on both sides, or too much text on one. */
  lemma {:induction false} MeanLive(items: seq<Item>)
    requires Live(items)
    ensures var r := ReactAll(INIT, items);
            var mi, me := MeanAll(NOTHING, items), MeanEvents(NOTHING, r.events);
            && LiveState(r.state)
            && (Routed(items) ==> Linked(r.state.toolIndex, mi, me))
            && (!Routed(items) ==> Weight(mi) < Weight(me))
            && Weight(mi) <= Weight(me)
            && mi.finish == None && me.finish == None
  {
    if items != [] {
      hide React, MeanEvents, LiveStep, LiveState, RoutedStep, Live, Routed, Linked, Mean;
      var init, last := items[..|items| - 1], items[|items| - 1];
      Unsnoc(items);
      MeanLive(init);
      WatchLive(items);
      var before := ReactAll(INIT, init);
      var mi, me := MeanAll(NOTHING, init), MeanEvents(NOTHING, before.events);
      var r := React(before.state, last);
      MeanEventsConcat(NOTHING, before.events, r.events);
      MeanWeight(mi, last.step);
      ReactWeight(before.state, last, me);
      NoFinish(before.state, last, mi);
      if Routed(items) {
        LinkedReact(before.state, last, mi, me);
      }
    }
  }

  lemma NoFinish(s: State, item: Item, m: Meaning)
    requires LiveStep(s, item) && m.finish == None
    ensures Mean(m, item.step).finish == None
  {
    hide MeanCall;
  }

  /** The message as converted means what the open message meant, with the finish that ended it. */
  lemma MeanClosed(st: Stream)
    requires Proper(st)
    ensures var live := MeanEvents(NOTHING, ReactAll(INIT, st.live).events);
            MeanEvents(NOTHING, Converted(Flat(st))) ==
            if Converted(Flat(st)) == [] then live
            else live.(finish := Some(ParseStop(RenderFinish(ParseFinish(FinishOf(st))))))
  {
    var m := MeanEvents(NOTHING, ReactAll(INIT, st.live).events);
    var open := ToClose(st);
    MeanLive(st.live);
    MeanToClose(st);
    WatchToClose(st);
    ConvertedShape(st);
    var outputTokens := ReportedTokens(st);
    hide *;
    if open.state.started {
      var closed, last := Close(open.state, false).events, LastEvents(FinishOf(st), outputTokens);
      MeanClose(m, open.state, false);
      MeanLast(m, FinishOf(st), outputTokens);
      MeanEventsConcat(m, closed, last);
      MeanEventsConcat(NOTHING, open.events, closed + last);
      assert Converted(Flat(st)) == open.events + (closed + last);
    } else {
      assert Converted(Flat(st)) == open.events == [];
    }
  }

  lemma MeanToClose(st: Stream)
    ensures MeanEvents(NOTHING, ToClose(st).events) == MeanEvents(NOTHING, ReactAll(INIT, st.live).events)
  {
    hide MeanEvents, ReactAll, Started;
    if st.end.Some? {
      var live := ReactAll(INIT, st.live);
      var begun := Started(live.state, st.end.value.chunk);
      MeanStarted(MeanEvents(NOTHING, live.events), live.state, st.end.value.chunk);
      MeanEventsConcat(NOTHING, live.events, begun.events);
    }
  }

  lemma MeanLast(m: Meaning, f: Finish, outputTokens: int)
    requires m.finish == None
    ensures MeanEvents(m, LastEvents(f, outputTokens)) == m.(finish := Some(ParseStop(RenderFinish(ParseFinish(f)))))
  {
    var last := LastEvents(f, outputTokens);
    MeanEventsConcat(m, [last[0]], [last[1]]);
    MeanOne(m, last[0]);
    MeanOne(MeanEvents(m, [last[0]]), last[1]);
    assert last == [last[0]] + [last[1]];
  }

  /** For every proper stream, cut anywhere: the events mean the same text, reasoning and tool calls as the
      chunks exactly when every fragment of a known call arrives while a tool block is the current one. */
  lemma MeaningKeptIffRouted(st: Stream)
    requires Proper(st)
    ensures SameContent(MeanAll(NOTHING, Flat(st)), MeanEvents(NOTHING, Converted(Flat(st)))) <==> Routed(st.live)
  {
    MeanClosed(st);
    MeanLive(st.live);
    MeanFlat(st);
    var mi, me := MeanAll(NOTHING, st.live), MeanEvents(NOTHING, ReactAll(INIT, st.live).events);
    hide MeanAll, MeanEvents, ReactAll, Converted, ToClose, Proper, Routed, Paired, KeysOf, InParts, Flat;
    assert SameContent(mi, me) ==> Weight(mi) == Weight(me);
  }

  /** All four finish reasons survive, and no other; the old name of tool_calls reads as that, anything else and a
      stream cut before its finish as a plain stop. */
  lemma FinishSurvives(st: Stream)
    requires Proper(st) && Converted(Flat(st)) != []
    ensures MeanAll(NOTHING, Flat(st)).finish == (if st.end.Some? then Some(FinishOf(st)) else None)
    ensures var f := FinishOf(st);
            MeanEvents(NOTHING, Converted(Flat(st))).finish == Some(f)
            <==> f == Stop || f == Length || f == ToolCalls || f == ContentFilter
    ensures MeanEvents(NOTHING, Converted(Flat(st))).finish ==
            Some(match FinishOf(st)
                 case Length => Length
                 case ToolCalls => ToolCalls
                 case Function => ToolCalls
                 case ContentFilter => ContentFilter
                 case _ => Stop)
  {
    hide MeanAll, MeanEvents, ReactAll, Converted, ToClose, Live, Routed, Linked, LiveState, Flat, Weight;
    MeanClosed(st);
    MeanLive(st.live);
    MeanFlat(st);
  }

  // ----- what is reported besides -----

  /** Before the message is started, a chunk that starts none does nothing. */
  lemma {:induction false} NothingStarted(items: seq<Item>)
    requires forall i | 0 <= i < |items| :: items[i].step.UsageOnly?
    ensures ReactAll(INIT, items) == Reaction(INIT, [])
  {
    if items != [] { NothingStarted(items[..|items| - 1]); }
  }

  /** The step starts the message with the id, the model and the prompt tokens of its chunk. */
  ghost predicate StartsWith(es: seq<Event>, chunk: Chunk) {
    && es != [] && es[0].MessageStart? && es[0].id == chunk.id && es[0].model == chunk.model
    && es[0].inputTokens == if chunk.usage.Some? && chunk.usage.value.prompt.Some? then chunk.usage.value.prompt.value
                            else 0
  }

  lemma FirstStarts(item: Item)
    requires !item.step.UsageOnly?
    ensures StartsWith(React(INIT, item).events, item.chunk)
  {
    hide Open, EnsureTool, Append, Close, Queued;
  }

  lemma {:induction false} StartStays(items: seq<Item>, k: nat)
    requires k < |items| && !items[k].step.UsageOnly? && forall i | 0 <= i < k :: items[i].step.UsageOnly?
    ensures StartsWith(ReactAll(INIT, items).events, items[k].chunk)
  {
    hide React, StartsWith;
    var n := |items| - 1;
    if k < n {
      StartStays(items[..n], k);
    } else {
      NothingStarted(items[..n]);
      FirstStarts(items[n]);
    }
    hide ReactAll;
    var before := ReactAll(INIT, items[..n]);
    StartKept(before.events, React(before.state, items[n]).events, items[k].chunk);
    ReactSnoc(items);
  }

  lemma ReactSnoc(items: seq<Item>)
    requires items != []
    ensures var before := ReactAll(INIT, items[..|items| - 1]);
            ReactAll(INIT, items) == Then(before, React(before.state, items[|items| - 1]))
  {
  }

  lemma StartKept(a: seq<Event>, b: seq<Event>, chunk: Chunk)
    requires StartsWith(a, chunk) || (a == [] && StartsWith(b, chunk))
    ensures StartsWith(a + b, chunk)
  {
  }

  /** The first event of any stream is a message_start with the id, the model and the prompt tokens of the first chunk
      that is more than usage; without one nothing is sent. */
  lemma StartReported(items: seq<Item>)
    ensures (forall i | 0 <= i < |items| :: items[i].step.UsageOnly?) ==> Converted(items) == []
    ensures forall k | 0 <= k < |items| && !items[k].step.UsageOnly?
                       && forall i | 0 <= i < k :: items[i].step.UsageOnly? ::
              StartsWith(Converted(items), items[k].chunk)
  {
    hide ReactAll, StartsWith;
    if forall i | 0 <= i < |items| :: items[i].step.UsageOnly? { NothingStarted(items); }
    forall k | 0 <= k < |items| && !items[k].step.UsageOnly? && forall i | 0 <= i < k :: items[i].step.UsageOnly?
      ensures StartsWith(Converted(items), items[k].chunk)
    {
      StartStays(items, k);
      StartKept(ReactAll(INIT, items).events, Finalize(ReactAll(INIT, items).state).events, items[k].chunk);
    }
  }

  /** The chunk at `i`, counted from the finish on, is the first to report usage. An empty usage object counts with the
      finish only. */
  ghost predicate FirstUsage(st: Stream, i: nat)
    requires st.end.Some?
  {
    && i <= |st.tail|
    && (if i == 0 then st.end.value.chunk.usage.Some?
        else st.tail[i - 1].chunk.usage.Some? && st.tail[i - 1].chunk.usage != Some(NO_USAGE))
    && (i > 0 ==> st.end.value.chunk.usage.None?)
    && forall j | 0 <= j < i - 1 :: st.tail[j].chunk.usage.None? || st.tail[j].chunk.usage == Some(NO_USAGE)
  }

  lemma {:induction false} TailFirst(tail: seq<Item>, i: nat)
    requires i < |tail| && tail[i].chunk.usage.Some? && tail[i].chunk.usage != Some(NO_USAGE)
    requires forall j | 0 <= j < i :: tail[j].chunk.usage.None? || tail[j].chunk.usage == Some(NO_USAGE)
    ensures TailTokens(tail) == (Or(tail[i].chunk.usage.value.completion, 0), true)
  {
    var n := |tail| - 1;
    if i < n { TailFirst(tail[..n], i); } else { TailNone(tail[..n]); }
  }

  lemma {:induction false} TailNone(tail: seq<Item>)
    requires forall j | 0 <= j < |tail| :: tail[j].chunk.usage.None? || tail[j].chunk.usage == Some(NO_USAGE)
    ensures TailTokens(tail) == (0, false)
  {
    if tail != [] { TailNone(tail[..|tail| - 1]); }
  }

  ghost predicate NoneFromFinish(st: Stream)
    requires st.end.Some?
  {
    && st.end.value.chunk.usage.None?
    && forall j | 0 <= j < |st.tail| :: st.tail[j].chunk.usage.None? || st.tail[j].chunk.usage == Some(NO_USAGE)
  }

  /** A proper stream that finishes ends on message_delta and message_stop, with the completion tokens of the first
      chunk from the finish on that reports usage, or 0 if none does, and with the stop reason of the finish. */
  lemma OutputReported(st: Stream)
    requires Proper(st) && st.end.Some?
    ensures var es := Converted(Flat(st));
            && |es| >= 2 && es[|es| - 2].MessageDelta? && es[|es| - 1] == MessageStop
            && es[|es| - 2].stop == Some(match FinishOf(st)
                                         case Length => MaxTokens
                                         case ToolCalls => ToolUseStop
                                         case Function => ToolUseStop
                                         case ContentFilter => Refusal
                                         case _ => EndTurn)
            && (forall i: nat | FirstUsage(st, i) ::
                  var u := (if i == 0 then st.end.value.chunk else st.tail[i - 1].chunk).usage.value;
                  es[|es| - 2].outputTokens == if u.completion.Some? then u.completion.value else 0)
            && (NoneFromFinish(st) ==> es[|es| - 2].outputTokens == 0)
  {
    hide ReactAll, Converted, Close, Started;
    ConvertedShape(st);
    forall i: nat | FirstUsage(st, i) && i > 0
      ensures TailTokens(st.tail).0 == Or(st.tail[i - 1].chunk.usage.value.completion, 0)
    {
      TailFirst(st.tail, i - 1);
    }
    if NoneFromFinish(st) { TailNone(st.tail); }
  }

  // ----- streams that fail -----

  /** A chunk with one fragment, and one with some content. */
  function FragmentChunk(key: int, id: string, name: string, args: string): Chunk {
    WrittenChunk("c", "model", EMPTY_DELTA.(calls := [Fragment(Some(key), id, name, Some(args))]), None)
  }

  function ContentChunk(text: string): Chunk {
    WrittenChunk("c", "model", EMPTY_DELTA.(content := Some(text)), None)
  }

  lemma FragmentItems(key: int, id: string, name: string, args: string)
    ensures var c := FragmentChunk(key, id, name, args); Items(c) == [Item(c, Call(key, id, name, args))]
  {
  }

  lemma ContentItems(text: string)
    requires text != ""
    ensures Items(ContentChunk(text)) == [Item(ContentChunk(text), Say(text))]
  {
  }

  lemma MeanAllItems(chunks: seq<Chunk>)
    ensures MeanChunks(NOTHING, chunks) == MeanAll(NOTHING, AllItems(chunks))
  {
  }

  /** A stream of three chunks of one step each. */
  lemma ThreeSteps(a: Chunk, b: Chunk, c: Chunk, i: Item, j: Item, k: Item)
    requires Items(a) == [i] && Items(b) == [j] && Items(c) == [k]
    ensures AllItems([a, b, c]) == [i, j, k]
    ensures [i, j, k][..0] == [] && [i, j, k][..1] == [i] && [i, j, k][..2] == [i, j]
    ensures ReactAll(INIT, [i]).state == React(INIT, i).state
    ensures ReactAll(INIT, [i, j]).state == React(React(INIT, i).state, j).state
  {
    hide Items, React;
    assert [a, b, c] == [a] + [b] + [c];
    AllItemsConcat([a], [b]);
    AllItemsConcat([a] + [b], [c]);
    OneItem(a, i);
    OneItem(b, j);
    OneItem(c, k);
    ReactOne(INIT, i);
    ReactNext(INIT, [i], [j]);
    assert [i] + [j] == [i, j];
  }

  lemma OneItem(a: Chunk, i: Item)
    requires Items(a) == [i]
    ensures AllItems([a]) == [i]
  {
    assert AllItems([a][..0]) == [];
  }

  /** What such a stream is, step by step. */
  lemma ThreeOnly(i: Item, j: Item, k: Item)
    requires !i.step.End? && !j.step.End? && !k.step.End?
    requires !i.step.UsageOnly? && !j.step.UsageOnly? && !k.step.UsageOnly?
    requires ReactAll(INIT, [i]).state == React(INIT, i).state
    requires ReactAll(INIT, [i, j]).state == React(React(INIT, i).state, j).state
    ensures var items, s1, s2 := [i, j, k], React(INIT, i).state, React(React(INIT, i).state, j).state;
            && (InOrder(items) <==> OrderedStep(INIT, i.step) && OrderedStep(s1, j.step) && OrderedStep(s2, k.step))
            && (Routed(items) <==> RoutedStep(INIT, i.step) && RoutedStep(s1, j.step) && RoutedStep(s2, k.step))
            && Proper(Stream(items, None, [])) && Flat(Stream(items, None, [])) == items
  {
    hide ReactAll, React, InOrder, Routed, OrderedStep, RoutedStep, Live;
    var items := [i, j, k];
    assert items[..2] == [i, j] && [i, j][..1] == [i] && [i][..0] == [];
    Unsnoc(items);
    Unsnoc([i, j]);
    Unsnoc([i]);
    NoSteps();
  }

  lemma NoSteps()
    ensures Live([]) && InOrder([]) && Routed([]) && ReactAll(INIT, []).state == INIT
  {
  }

  lemma FirstCall(i: Item)
    requires i.step == Call(0, "a", "f", "")
    ensures React(INIT, i).state ==
            INIT.(started := true, open := true, kind := Some(ToolUse), toolIndex := map[0 := 0])
  {
  }

  lemma SecondCall(s: State, j: Item)
    requires s.started && s.open && j.step == Call(1, "b", "g", "") && 1 !in s.toolIndex
    ensures React(s, j).state ==
            s.(index := s.index + 1, kind := Some(ToolUse), toolIndex := s.toolIndex[1 := s.index + 1])
  {
  }

  lemma TextAfter(s: State, j: Item)
    requires s.started && s.open && s.kind == Some(ToolUse) && j.step == Say("t")
    ensures React(s, j).state == s.(index := s.index + 1, kind := Some(Text))
  {
  }

  const INTERLEAVED: seq<Chunk> :=
    [FragmentChunk(0, "a", "f", ""), FragmentChunk(1, "b", "g", ""), FragmentChunk(0, "", "", "x")]

  /** Two calls opened, then arguments for the first: a proper stream whose events are not well formed, although
      they mean what the chunks mean. */
  lemma InterleavedIsOutOfOrder()
    ensures var st := Stream(AllItems(INTERLEAVED), None, []);
            && Proper(st) && !InOrder(st.live) && Routed(st.live)
            && WatchAll(Fresh, Converted(Flat(st))) != Done && Converted(Flat(st)) != []
  {
    hide React, ReactAll, AllItems, WatchAll, Converted, InOrder, Routed, Proper, Flat, Items;
    FragmentItems(0, "a", "f", "");
    FragmentItems(1, "b", "g", "");
    FragmentItems(0, "", "", "x");
    var c, i := INTERLEAVED, Item(INTERLEAVED[0], Call(0, "a", "f", ""));
    var j, k := Item(c[1], Call(1, "b", "g", "")), Item(c[2], Call(0, "", "", "x"));
    ThreeSteps(c[0], c[1], c[2], i, j, k);
    assert c == [c[0], c[1], c[2]];
    var st := Stream(AllItems(c), None, []);
    var s1, s2 := React(INIT, i).state, React(React(INIT, i).state, j).state;
    ThreeOnly(i, j, k);
    FirstCall(i);
    SecondCall(s1, j);
    WellFormedIffInOrder(st);
    StartedSends(st);
  }

  /** What was announced was sent. */
  lemma StartedSends(st: Stream)
    requires Proper(st) && !InOrder(st.live)
    ensures Converted(Flat(st)) != []
  {
    hide *;
    WatchToClose(st);
    ConvertedShape(st);
  }

  const INTERRUPTED: seq<Chunk> := [FragmentChunk(0, "a", "f", ""), ContentChunk("t"), FragmentChunk(0, "", "", "x")]

  /** A call opened, then text, then arguments for the call: a proper stream in order whose arguments come out as
      text. */
  lemma InterruptedIsMisrouted()
    ensures var st := Stream(AllItems(INTERRUPTED), None, []);
            && Proper(st) && InOrder(st.live) && !Routed(st.live)
            && !SameContent(MeanChunks(NOTHING, INTERRUPTED), MeanEvents(NOTHING, Converted(Flat(st))))
  {
    hide React, ReactAll, AllItems, MeanChunks, MeanEvents, Converted, InOrder, Routed, Proper, Flat, Items;
    FragmentItems(0, "a", "f", "");
    ContentItems("t");
    FragmentItems(0, "", "", "x");
    var c, i := INTERRUPTED, Item(INTERRUPTED[0], Call(0, "a", "f", ""));
    var j, k := Item(c[1], Say("t")), Item(c[2], Call(0, "", "", "x"));
    ThreeSteps(c[0], c[1], c[2], i, j, k);
    assert c == [c[0], c[1], c[2]];
    var st := Stream(AllItems(c), None, []);
    var s1, s2 := React(INIT, i).state, React(React(INIT, i).state, j).state;
    ThreeOnly(i, j, k);
    FirstCall(i);
    TextAfter(s1, j);
    MeaningKeptIffRouted(st);
    MeanAllItems(c);
  }

  // ----- the session object -----

  /** `AnthropicStreamState` together with the converter method that drives it. */
  class Session {
    var started: bool
    var contentBlockStarted: bool
    var contentBlockIndex: nat
    var currentContentType: Option<Kind>
    var toolCallIndices: map<int, nat>
    var prevCompletionTokens: int
    var messageStopSent: bool
    var pendingFinishReason: Option<Finish>

    ghost function View(): State
      reads this
    {
      State(started, contentBlockStarted, contentBlockIndex, currentContentType, toolCallIndices,
            prevCompletionTokens, messageStopSent, pendingFinishReason)
    }

    constructor ()
      ensures View() == INIT
    {
      started, contentBlockStarted, contentBlockIndex, currentContentType := false, false, 0, None;
      toolCallIndices, prevCompletionTokens, messageStopSent, pendingFinishReason := map[], 0, false, None;
    }

    method EnsureStarted(chunk: Chunk) returns (events: seq<Event>)
      modifies this
      ensures Reaction(View(), events) == Started(old(View()), chunk)
    {
      if started {
        return [];
      }
      started := true;
      var input := if chunk.usage.Some? then Or(chunk.usage.value.prompt, 0) else 0;
      events := [MessageStart(chunk.id, chunk.model, input)];
    }

    method CloseBlock(advanceIndex: bool) returns (events: seq<Event>)
      modifies this
      ensures Reaction(View(), events) == Close(old(View()), advanceIndex)
    {
      if !contentBlockStarted {
        return [];
      }
      var index := contentBlockIndex;
      events := [];
      if currentContentType == Some(Thinking) {
        events := events + [DeltaEvent(index, SignatureDelta)];
      }
      events := events + [BlockStop(index)];
      contentBlockStarted := false;
      if advanceIndex {
        contentBlockIndex := index + 1;
      }
    }

    method OpenBlock(block: Block) returns (events: seq<Event>)
      modifies this
      ensures Reaction(View(), events) == Open(old(View()), block)
    {
      events := [];
      if contentBlockStarted && currentContentType == Some(KindOf(block)) {
        return;
      }
      if contentBlockStarted {
        events := CloseBlock(true);
      }
      contentBlockStarted, currentContentType := true, Some(KindOf(block));
      events := events + [BlockStart(contentBlockIndex, block)];
    }

    method EnsureToolBlock(tcIndex: int, toolId: string, toolName: string) returns (events: seq<Event>)
      modifies this
      ensures Reaction(View(), events) == EnsureTool(old(View()), tcIndex, toolId, toolName)
    {
      events := [];
      if tcIndex in toolCallIndices {
        return;
      }
      if contentBlockStarted {
        events := CloseBlock(true);
      }
      toolCallIndices := toolCallIndices[tcIndex := contentBlockIndex];
      contentBlockStarted, currentContentType := true, Some(ToolUse);
      events := events + [BlockStart(contentBlockIndex, ToolBlock(toolId, toolName))];
    }

    method AppendDelta(text: string, toolIndex: Option<int>) returns (events: seq<Event>)
      ensures events == Append(View(), text, toolIndex)
    {
      if text == "" {
        return [];
      }
      match currentContentType {
        case Some(Thinking) => events := [DeltaEvent(contentBlockIndex, ThinkingDelta(text))];
        case Some(Text) => events := [DeltaEvent(contentBlockIndex, TextDelta(text))];
        case Some(ToolUse) =>
          var index := contentBlockIndex;
          if toolIndex.Some? && toolIndex.value in toolCallIndices {
            index := toolCallIndices[toolIndex.value];
          }
          events := [DeltaEvent(index, JsonDelta(text))];
        case None => events := [DeltaEvent(contentBlockIndex, JsonDelta(text))];
      }
    }

    method BuildMessageStopEvents(usage: Option<Usage>, finishReason: Option<Finish>) returns (events: seq<Event>)
      modifies this
      ensures Reaction(View(), events) == StopMessage(old(View()), usage, finishReason)
    {
      if messageStopSent {
        return [];
      }
      var finish := if finishReason.Some? then finishReason.value else Or(pendingFinishReason, Stop);
      var usageOutput := 0;
      if usage.Some? {
        var cumulative := Or(usage.value.completion, 0);
        usageOutput, prevCompletionTokens := cumulative - prevCompletionTokens, cumulative;
      }
      events := [MessageDelta(Some(RenderFinish(ParseFinish(finish))), usageOutput), MessageStop];
      messageStopSent, pendingFinishReason := true, None;
    }

    method QueueStop(usage: Option<Usage>, finishReason: Finish) returns (events: seq<Event>)
      modifies this
      ensures Reaction(View(), events) == Queued(old(View()), usage, finishReason)
    {
      events := [];
      if messageStopSent {
        return;
      }
      if usage.Some? {
        if contentBlockStarted {
          events := CloseBlock(false);
        }
        var stop := BuildMessageStopEvents(usage, Some(finishReason));
        return events + stop;
      }
      pendingFinishReason := Some(finishReason);
    }

    method HandleUsageChunk(usage: Option<Usage>) returns (events: seq<Event>)
      modifies this
      ensures Reaction(View(), events) == HandleUsage(old(View()), usage)
    {
      events := [];
      if usage == None || usage == Some(NO_USAGE) || !started || messageStopSent {
        return;
      }
      if pendingFinishReason == None && contentBlockStarted {
        events := CloseBlock(false);
      }
      var stop := BuildMessageStopEvents(usage, None);
      events := events + stop;
    }

    method FinalizeStream() returns (events: seq<Event>)
      modifies this
      ensures Reaction(View(), events) == Finalize(old(View()))
    {
      events := [];
      if messageStopSent || !started {
        return;
      }
      if contentBlockStarted {
        events := CloseBlock(false);
      }
      var stop := BuildMessageStopEvents(None, None);
      events := events + stop;
    }

    /** `_chat_stream_chunk_to_anthropic` */
    method ConvertChunk(chunk: Chunk) returns (events: seq<Event>)
      modifies this
      ensures Reaction(View(), events) == ReactAll(old(View()), Items(chunk))
    {
      hide React, ReactAll, HandleUsage, SpokenItems;
      ghost var s := View();
      if !HasChoice(chunk) {
        events := HandleUsageChunk(chunk.usage);
        ReactUsage(s, chunk);
        return;
      }
      var choice := chunk.choices[0].value;
      events := SayDelta(chunk, choice.delta);
      var called := ContinueCalls(chunk, choice.delta.calls);
      events := events + called;
      ghost var done := SpokenItems(chunk, choice.delta) + CallItems(chunk, choice.delta.calls);
      ReactConcat(s, SpokenItems(chunk, choice.delta), CallItems(chunk, choice.delta.calls));
      ghost var next := if choice.finish.Some? then [Item(chunk, End(choice.finish.value))] else [];
      ReactNext(s, done, next);
      ItemsAre(chunk);
      if choice.finish.Some? {
        var said := ReceiveFinish(chunk, choice.finish.value);
        events := events + said;
      }
    }

    /** The role, the reasoning and the content of a chunk. */
    method SayDelta(chunk: Chunk, delta: Delta) returns (events: seq<Event>)
      modifies this
      ensures Reaction(View(), events) == ReactAll(old(View()), SpokenItems(chunk, delta))
    {
      hide React, ReactAll, Started, Speak;
      ghost var s := View();
      ReactIs(chunk);
      events := [];
      ghost var done: seq<Item> := if delta.assistant then [Item(chunk, Begin)] else [];
      if delta.assistant {
        events := EnsureStarted(chunk);
        ReactOne(s, Item(chunk, Begin));
      }
      ghost var next := if Or(delta.reasoning, "") != "" then [Item(chunk, Reason(delta.reasoning.value))] else [];
      ReactNext(s, done, next);
      if Or(delta.reasoning, "") != "" {
        var said := Utter(chunk, ThinkingBlock, delta.reasoning.value);
        events := events + said;
      }
      done := done + next;
      next := if Or(delta.content, "") != "" then [Item(chunk, Say(delta.content.value))] else [];
      ReactNext(s, done, next);
      if Or(delta.content, "") != "" {
        var said := Utter(chunk, TextBlock, delta.content.value);
        events := events + said;
      }
    }

    method ContinueCalls(chunk: Chunk, calls: seq<Fragment>) returns (events: seq<Event>)
      modifies this
      ensures Reaction(View(), events) == ReactAll(old(View()), CallItems(chunk, calls))
    {
      hide React, ReactAll;
      ghost var s := View();
      ReactIs(chunk);
      events := [];
      for i := 0 to |calls|
        invariant Reaction(View(), events) == ReactAll(s, CallItems(chunk, calls[..i]))
      {
        var step := CallStep(calls[i]);
        ReactNext(s, CallItems(chunk, calls[..i]), [Item(chunk, step)]);
        NextCall(chunk, calls, i);
        var said := ContinueCall(chunk, step);
        events := events + said;
      }
      assert calls[..|calls|] == calls;
    }

    method Utter(chunk: Chunk, block: Block, text: string) returns (events: seq<Event>)
      modifies this
      ensures Reaction(View(), events) == Speak(old(View()), chunk, block, text)
    {
      var start := EnsureStarted(chunk);
      var open := OpenBlock(block);
      var said := AppendDelta(text, None);
      events := start + open + said;
    }

    method ContinueCall(chunk: Chunk, step: Step) returns (events: seq<Event>)
      requires step.Call?
      modifies this
      ensures Reaction(View(), events) == React(old(View()), Item(chunk, step))
    {
      var start := EnsureStarted(chunk);
      var open := EnsureToolBlock(step.key, step.id, step.name);
      var said := AppendDelta(step.args, Some(step.key));
      events := start + open + said;
    }

    method ReceiveFinish(chunk: Chunk, finishReason: Finish) returns (events: seq<Event>)
      modifies this
      ensures Reaction(View(), events) == React(old(View()), Item(chunk, End(finishReason)))
    {
      if messageStopSent {
        return [];
      }
      var start := EnsureStarted(chunk);
      var closed := [];
      if contentBlockStarted {
        closed := CloseBlock(false);
      }
      var stop := QueueStop(chunk.usage, finishReason);
      events := start + closed + stop;
    }
  }

  lemma ReactIs(chunk: Chunk)
    ensures forall s :: React(s, Item(chunk, Begin)) == Started(s, chunk)
    ensures forall s, t :: React(s, Item(chunk, Reason(t))) == Speak(s, chunk, ThinkingBlock, t)
    ensures forall s, t :: React(s, Item(chunk, Say(t))) == Speak(s, chunk, TextBlock, t)
    ensures forall s :: ReactAll(s, []) == Reaction(s, [])
  {
  }

  lemma ReactOne(s: State, item: Item)
    ensures ReactAll(s, [item]) == React(s, item)
  {
    assert [item][..0] == [];
  }

  /** One more step, or none. */
  lemma ReactNext(s: State, done: seq<Item>, next: seq<Item>)
    requires |next| <= 1
    ensures var before := ReactAll(s, done);
            ReactAll(s, done + next) == if next == [] then before else Then(before, React(before.state, next[0]))
  {
    if next == [] {
      assert done + next == done;
    } else {
      assert (done + next)[..|done|] == done;
    }
  }

  lemma NextCall(chunk: Chunk, calls: seq<Fragment>, i: nat)
    requires i < |calls|
    ensures CallItems(chunk, calls[..i + 1]) == CallItems(chunk, calls[..i]) + [Item(chunk, CallStep(calls[i]))]
  {
  }

  /** The part of a chunk before its tool calls. */
  function SpokenItems(chunk: Chunk, d: Delta): seq<Item> {
    (if d.assistant then [Item(chunk, Begin)] else [])
    + (if Or(d.reasoning, "") != "" then [Item(chunk, Reason(d.reasoning.value))] else [])
    + (if Or(d.content, "") != "" then [Item(chunk, Say(d.content.value))] else [])
  }

  lemma ItemsAre(chunk: Chunk)
    requires HasChoice(chunk)
    ensures var choice := chunk.choices[0].value;
            Items(chunk) == SpokenItems(chunk, choice.delta) + CallItems(chunk, choice.delta.calls)
              + if choice.finish.Some? then [Item(chunk, End(choice.finish.value))] else []
  {
  }

  lemma ReactUsage(s: State, chunk: Chunk)
    ensures ReactAll(s, [Item(chunk, UsageOnly)]) == HandleUsage(s, chunk.usage)
  {
    ReactOne(s, Item(chunk, UsageOnly));
    hide HandleUsage, ReactAll;
  }
}
