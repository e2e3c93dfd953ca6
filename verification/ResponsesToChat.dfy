/**
 Responses events to Chat Completions chunks (converters/to_chat.py), and the round trip from chunks
 to events and back.
 */
module ResponsesToChat {
  import opened Wrappers
  import opened ChatStream
  import opened ResponsesStream
  import R = ChatToResponses

  /** `toolOf` maps an output index to the number the Chat side gives its call. */
  datatype State = State(nextTool: nat, toolOf: map<int, nat>)

  const INIT: State := State(0, map[])

  /** The identity every chunk of the stream carries. */
  datatype Envelope = Envelope(id: string, model: string)

  /** The call an argument delta belongs to: that of its item, or failing that the latest one. */
  function ToolFor(s: State, out: int): nat {
    if out in s.toolOf then s.toolOf[out] else if s.nextTool == 0 then 0 else s.nextTool - 1
  }

  function Write(env: Envelope, delta: Delta): seq<Chunk> {
    [WrittenChunk(env.id, env.model, delta, None)]
  }

  function UsageChunk(env: Envelope, t: Tokens): Chunk {
    Chunk(env.id, env.model, Some(Usage(Some(t.input), Some(t.output), Some(t.total), t.cached, t.reasoned)), [])
  }

  /** `_response_stream_chunk_to_chat` */
  function Render(s: State, e: Event, env: Envelope, includeUsage: bool): (State, seq<Chunk>) {
    match e
    case Created => (s.(nextTool := 0), Write(env, EMPTY_DELTA.(assistant := true, content := Some(""))))
    case ItemAdded(out, CallHead(callId, name)) =>
      (State(s.nextTool + 1, s.toolOf[out := s.nextTool]),
       Write(env, EMPTY_DELTA.(calls := [Fragment(Some(s.nextTool), callId, name, Some(""))])))
    case TextDelta(_, t) => (s, Write(env, EMPTY_DELTA.(content := Some(t))))
    case ReasoningDelta(_, t) => (s, Write(env, EMPTY_DELTA.(reasoning := Some(t))))
    case ArgsDelta(target, t) =>
      (s, Write(env, EMPTY_DELTA.(calls := [Fragment(Some(ToolFor(s, Or(target, 0))), "", "", Some(t))])))
    case Completed(r) =>
      (s, [WrittenChunk(env.id, env.model, EMPTY_DELTA, Some(ParseFinal(r)))]
          + if includeUsage then [UsageChunk(env, r.tokens)] else [])
    case _ => (s, [])
  }

  function RenderAll(s: State, es: seq<Event>, env: Envelope, includeUsage: bool): (State, seq<Chunk>) {
    if es == [] then (s, [])
    else
      var (s1, out) := RenderAll(s, es[..|es| - 1], env, includeUsage);
      var (s2, more) := Render(s1, es[|es| - 1], env, includeUsage);
      (s2, out + more)
  }

  // ----- the chunks mean what the events mean -----

  /** Each argument delta names an item that was added as a call, and response.created precedes every call. */
  predicate Addressed(m: Meaning, e: Event) {
    && (e.ArgsDelta? ==> e.target.Some? && IndexOf(m.entries, e.target.value) != -1)
    && (e.Created? ==> m.entries == [])
  }

  predicate AllAddressed(m: Meaning, es: seq<Event>) {
    es == [] || (AllAddressed(m, es[..|es| - 1]) && Addressed(MeanEvents(m, es[..|es| - 1]), es[|es| - 1]))
  }

  /** The events so far mean `me`, the chunks so far `mo`; call `p` carries wire number `p`. */
  ghost predicate Follows(s: State, me: Meaning, mo: Meaning) {
    && SameContent(me, mo) && me.finish == mo.finish && s.nextTool == |me.entries|
    && (forall p | 0 <= p < |mo.entries| :: mo.entries[p].key == p)
    && (forall i | IndexOf(me.entries, i) != -1 :: i in s.toolOf && s.toolOf[i] == IndexOf(me.entries, i))
  }

  lemma RenderFollows(s: State, e: Event, env: Envelope, includeUsage: bool, me: Meaning, mo: Meaning)
    requires Follows(s, me, mo) && Addressed(me, e)
    ensures var (s', out) := Render(s, e, env, includeUsage);
            Follows(s', MeanEvent(me, e), MeanChunks(mo, out))
  {
    hide IndexOf, AddArgs, MeanChunks, MeanAll, ToolFor, ParseFinal;
    MeanNothing(mo);
    match e
    case Created => MeanWritten(mo, env.id, env.model, EMPTY_DELTA.(assistant := true, content := Some("")), None);
    case ItemAdded(out, CallHead(callId, name)) =>
      var fragment := Fragment(Some(s.nextTool), callId, name, Some(""));
      MeanWritten(mo, env.id, env.model, EMPTY_DELTA.(calls := [fragment]), None);
      FollowsNew(s, out, callId, name, me, mo);
    case TextDelta(_, t) => MeanWritten(mo, env.id, env.model, EMPTY_DELTA.(content := Some(t)), None);
    case ReasoningDelta(_, t) => MeanWritten(mo, env.id, env.model, EMPTY_DELTA.(reasoning := Some(t)), None);
    case ArgsDelta(target, t) =>
      var fragment := Fragment(Some(ToolFor(s, target.value)), "", "", Some(t));
      MeanWritten(mo, env.id, env.model, EMPTY_DELTA.(calls := [fragment]), None);
      FollowsArgs(s, target.value, t, me, mo);
    case Completed(r) => MeanLast(mo, env, r, includeUsage);
    case _ =>
  }

  lemma MeanLast(m: Meaning, env: Envelope, r: Response, includeUsage: bool)
    ensures MeanChunks(m, Render(INIT, Completed(r), env, includeUsage).1) == Mean(m, End(ParseFinal(r)))
  {
    hide MeanChunks, MeanAll, ParseFinal;
    var end := WrittenChunk(env.id, env.model, EMPTY_DELTA, Some(ParseFinal(r)));
    MeanWritten(m, env.id, env.model, EMPTY_DELTA, Some(ParseFinal(r)));
    assert [end] + [] == [end];
    if includeUsage {
      var usage := UsageChunk(env, r.tokens);
      var m' := Mean(m, End(ParseFinal(r)));
      MeanChunk(m', usage);
      MeanItem(m', Item(usage, UsageOnly));
      MeanChunksConcat(m, [end], [usage]);
    }
  }

  lemma FollowsNew(s: State, out: int, id: string, name: string, me: Meaning, mo: Meaning)
    requires Follows(s, me, mo)
    ensures var me' := me.(entries := me.entries + [Entry(out, ToolCall(id, name, ""))]);
            var mo' := Mean(mo, Call(s.nextTool, id, name, ""));
            Follows(State(s.nextTool + 1, s.toolOf[out := s.nextTool]), me', mo')
  {
    IndexOfKeys(mo.entries, s.nextTool);
    var e := Entry(out, ToolCall(id, name, ""));
    forall k ensures IndexOf(me.entries + [e], k) == if out == k then |me.entries| else IndexOf(me.entries, k) {
      IndexOfPush(me.entries, e, k);
    }
  }

  lemma FollowsArgs(s: State, out: int, args: string, me: Meaning, mo: Meaning)
    requires Follows(s, me, mo) && IndexOf(me.entries, out) != -1
    ensures var me' := me.(entries := AddArgs(me.entries, IndexOf(me.entries, out), args));
            Follows(s, me', Mean(mo, Call(ToolFor(s, out), "", "", args)))
  {
    var p := IndexOf(me.entries, out);
    IndexOfKeys(mo.entries, p);
    forall k ensures IndexOf(AddArgs(me.entries, p, args), k) == IndexOf(me.entries, k) {
      IndexOfExtend(me.entries, p, args, k);
    }
  }

  lemma {:induction false} RenderAllFollows(es: seq<Event>, env: Envelope, includeUsage: bool)
    requires AllAddressed(NOTHING, es)
    ensures var (s, out) := RenderAll(INIT, es, env, includeUsage);
            Follows(s, MeanEvents(NOTHING, es), MeanChunks(NOTHING, out))
  {
    if es != [] {
      hide Render, MeanEvent, Addressed, Follows, MeanChunks;
      var init, last := es[..|es| - 1], es[|es| - 1];
      RenderAllFollows(init, env, includeUsage);
      var (s, out) := RenderAll(INIT, init, env, includeUsage);
      RenderFollows(s, last, env, includeUsage, MeanEvents(NOTHING, init), MeanChunks(NOTHING, out));
      MeanChunksConcat(NOTHING, out, Render(s, last, env, includeUsage).1);
    }
  }

  /** Text, reasoning, tool calls and the finish of a Responses stream all reach the Chat client. */
  lemma MeaningKept(es: seq<Event>, env: Envelope, includeUsage: bool)
    requires AllAddressed(NOTHING, es)
    ensures var m := MeanChunks(NOTHING, RenderAll(INIT, es, env, includeUsage).1);
            SameContent(MeanEvents(NOTHING, es), m) && MeanEvents(NOTHING, es).finish == m.finish
  {
    RenderAllFollows(es, env, includeUsage);
  }

  /** Every call the client has assembled is known under its output index, and nothing before the start. */
  ghost predicate Placed(p: Phase, m: Meaning) {
    && (p.Fresh? ==> m.entries == [])
    && (p.Running? ==> forall i | 0 <= i < |p.slots| && p.slots[i].item.FunctionCall? :: IndexOf(m.entries, i) != -1)
  }

  lemma StepPlaced(p: Phase, m: Meaning, e: Event)
    requires Placed(p, m) && Watch(p, e) != Bad
    ensures Addressed(m, e) && Placed(Watch(p, e), MeanEvent(m, e))
  {
    hide IndexOf, AddArgs, OutputOf, Take, Final, DoneFits, ParseFinal;
    match e
    case ItemAdded(out, CallHead(id, name)) =>
      forall i
        ensures IndexOf(m.entries + [Entry(out, ToolCall(id, name, ""))], i) ==
                if i == out then |m.entries| else IndexOf(m.entries, i)
      {
        IndexOfPush(m.entries, Entry(out, ToolCall(id, name, "")), i);
      }
    case ArgsDelta(Some(out), t) =>
      forall i ensures IndexOf(m.entries, out) != -1 ==>
                         IndexOf(AddArgs(m.entries, IndexOf(m.entries, out), t), i) == IndexOf(m.entries, i) {
        if IndexOf(m.entries, out) != -1 { IndexOfExtend(m.entries, IndexOf(m.entries, out), t, i); }
      }
    case _ =>
  }

  lemma {:induction false} WellFormedPlaced(es: seq<Event>)
    requires WatchAll(Fresh, es) != Bad
    ensures AllAddressed(NOTHING, es) && Placed(WatchAll(Fresh, es), MeanEvents(NOTHING, es))
  {
    if es != [] {
      hide WatchRunning, MeanEvent, Addressed, Placed;
      var init := es[..|es| - 1];
      WellFormedPlaced(init);
      StepPlaced(WatchAll(Fresh, init), MeanEvents(NOTHING, init), es[|es| - 1]);
    }
  }

  /** So it is for every Responses stream a strict client accepts, wherever it is cut. */
  lemma WellFormedMeaningKept(es: seq<Event>, env: Envelope, includeUsage: bool)
    requires WatchAll(Fresh, es) != Bad
    ensures var m := MeanChunks(NOTHING, RenderAll(INIT, es, env, includeUsage).1);
            SameContent(MeanEvents(NOTHING, es), m) && MeanEvents(NOTHING, es).finish == m.finish
  {
    WellFormedPlaced(es);
    MeaningKept(es, env, includeUsage);
  }

  // ----- arguments that name no call -----

  /** How many calls were added since the response was created. */
  function CallCount(es: seq<Event>): nat {
    if es == [] then 0
    else
      var e := es[|es| - 1];
      if e.Created? then 0 else CallCount(es[..|es| - 1]) + if e.ItemAdded? && e.head.CallHead? then 1 else 0
  }

  lemma {:induction false} CallsCounted(es: seq<Event>, env: Envelope, includeUsage: bool, out: int)
    ensures var s := RenderAll(INIT, es, env, includeUsage).0;
            && s.nextTool == CallCount(es)
            && ((forall i | 0 <= i < |es| :: !(es[i].ItemAdded? && es[i].head.CallHead? && es[i].out == out)) ==>
                  out !in s.toolOf)
  {
    if es != [] {
      var n := |es| - 1;
      CallsCounted(es[..n], env, includeUsage, out);
      assert forall i | 0 <= i < n :: es[..n][i] == es[i];
      hide ToolFor, ParseFinal;
    }
  }

  /** They go to the latest call, or to the first if there is none. */
  lemma StrayGoesToLatest(es: seq<Event>, out: int, args: string, env: Envelope, includeUsage: bool)
    requires forall i | 0 <= i < |es| :: !(es[i].ItemAdded? && es[i].head.CallHead? && es[i].out == out)
    ensures var s := RenderAll(INIT, es, env, includeUsage).0;
            var number := if CallCount(es) == 0 then 0 else CallCount(es) - 1;
            Render(s, ArgsDelta(Some(out), args), env, includeUsage).1 ==
            [WrittenChunk(env.id, env.model, EMPTY_DELTA.(calls := [Fragment(Some(number), "", "", Some(args))]), None)]
  {
    CallsCounted(es, env, includeUsage, out);
    hide RenderAll;
  }

  // ----- usage -----

  ghost predicate NoUsage(chunks: seq<Chunk>) {
    forall j | 0 <= j < |chunks| :: chunks[j].usage.None?
  }

  /** A stream that ends on response.completed gives, if usage is asked for, a last chunk without a choice whose usage
      is that of the response. */
  lemma UsageReported(es: seq<Event>, env: Envelope)
    requires es != [] && es[|es| - 1].Completed?
    ensures var out, t := RenderAll(INIT, es, env, true).1, es[|es| - 1].response.tokens;
            && out != [] && out[|out| - 1].choices == [] && out[|out| - 1].usage.Some?
            && out[|out| - 1].id == env.id && out[|out| - 1].model == env.model
            && var u := out[|out| - 1].usage.value;
               && u.prompt == Some(t.input) && u.completion == Some(t.output) && u.total == Some(t.total)
               && u.cached == t.cached && u.reasoned == t.reasoned
  {
    var before := RenderAll(INIT, es[..|es| - 1], env, true);
    assert RenderAll(INIT, es, env, true).1 == before.1 + Render(before.0, es[|es| - 1], env, true).1;
    hide RenderAll;
  }

  /** Usage that was not asked for is never reported. */
  lemma {:induction false} UsageOnlyIfAsked(es: seq<Event>, env: Envelope)
    ensures NoUsage(RenderAll(INIT, es, env, false).1)
  {
    if es != [] {
      UsageOnlyIfAsked(es[..|es| - 1], env);
      RenderNoUsage(RenderAll(INIT, es[..|es| - 1], env, false).0, es[|es| - 1], env);
      hide Render;
    }
  }

  lemma RenderNoUsage(s: State, e: Event, env: Envelope)
    ensures NoUsage(Render(s, e, env, false).1)
  {
    hide ToolFor, ParseFinal;
  }

  // ----- Chat to Responses and back -----

  lemma {:induction false} AddressedConcat(m: Meaning, a: seq<Event>, b: seq<Event>)
    requires AllAddressed(m, a) && AllAddressed(MeanEvents(m, a), b)
    ensures AllAddressed(m, a + b)
  {
    hide Addressed, MeanEvents;
    if b == [] {
      assert a + b == a;
    } else {
      var init := b[..|b| - 1];
      assert (a + b)[..|a + b| - 1] == a + init;
      AddressedConcat(m, a, init);
      MeanEventsConcat(m, a, init);
    }
  }

  lemma AddressedOne(m: Meaning, e: Event)
    requires Addressed(m, e)
    ensures AllAddressed(m, [e])
  {
    hide Addressed;
    assert AllAddressed(m, []) && MeanEvents(m, []) == m;
    assert [e][..0] == [];
  }

  ghost predicate Plain(es: seq<Event>) {
    forall i | 0 <= i < |es| :: !es[i].Created? && !es[i].ArgsDelta?
  }

  lemma {:induction false} PlainAddressed(m: Meaning, es: seq<Event>)
    requires Plain(es)
    ensures AllAddressed(m, es)
  {
    if es != [] {
      PlainAddressed(m, es[..|es| - 1]);
    }
  }

  lemma TextIsPlain(s: R.State, text: string)
    ensures Plain(R.SayText(s, text).events) && Plain(R.CloseText(s).events) && Plain(R.SayReasoning(s, text).events)
  {
    hide R.WithText, R.ItemText, R.ReasoningAt;
  }

  lemma DoneOfIsPlain(s: R.State, e: R.OutEntry)
    ensures Plain(R.DoneOf(s, e))
  {
    hide R.BuildItem, R.ItemText;
  }

  lemma {:induction false} DoneIsPlain(s: R.State, entries: seq<R.OutEntry>)
    ensures Plain(R.DoneAll(s, entries))
  {
    if entries != [] {
      hide R.DoneOf;
      DoneIsPlain(s, entries[..|entries| - 1]);
      DoneOfIsPlain(s, entries[|entries| - 1]);
    }
  }

  lemma FragmentAddressed(s: R.State, mi: Meaning, me: Meaning, f: Fragment)
    requires R.Routed(s, mi, me, f)
    ensures AllAddressed(me, R.CallFragment(s, f).events)
  {
    hide IndexOf, R.CallIdOf, Grow, R.GivenId;
    if f.name == "" {
      if Or(f.args, "") != "" {
        var delta := ArgsDelta(Some(R.Target(s, f, R.CallIdOf(s, f))), f.args.value);
        assert R.CallFragment(s, f).events == [delta];
        AddressedOne(me, delta);
      }
    } else {
      hide R.Routed;
      NewAddressed(s, f, me);
    }
  }

  lemma NewAddressed(s: R.State, f: Fragment, me: Meaning)
    requires f.name != "" && (Or(f.args, "") == "" || f.index.Some?)
    ensures AllAddressed(me, R.CallFragment(s, f).events)
  {
    hide R.GivenId, Grow, IndexOf, AllAddressed;
    var id, args := R.GivenId(s, f), Or(f.args, "");
    var added, entry := ItemAdded(s.outputIndex, CallHead(id, f.name)), Entry(s.outputIndex, ToolCall(id, f.name, ""));
    AddressedOne(me, added);
    if args == "" {
      assert R.CallFragment(s, f).events == [added];
    } else {
      var delta := ArgsDelta(Some(s.outputIndex), args);
      assert R.CallFragment(s, f).events == [added] + [delta];
      R.MeanOne(me, added);
      IndexOfPush(me.entries, entry, s.outputIndex);
      AddressedOne(me.(entries := me.entries + [entry]), delta);
      AddressedConcat(me, [added], [delta]);
    }
  }

  lemma ActAddressed(s: R.State, mi: Meaning, me: Meaning, step: R.RStep)
    requires R.RoutedStep(s, mi, me, step) && !step.FinishStep? && (step.NoChoiceStep? ==> s.pending.None?)
    ensures AllAddressed(me, R.Act(s, step).events)
  {
    hide R.SayText, R.CloseText, R.SayReasoning, R.CallFragment, R.Routed, AllAddressed, R.Accumulate;
    match step
    case TextStep(t) =>
      TextIsPlain(s, t);
      PlainAddressed(me, R.SayText(s, t).events);
    case ReasonStep(t) =>
      TextIsPlain(s, t);
      PlainAddressed(me, R.SayReasoning(s, t).events);
    case SwitchStep =>
      TextIsPlain(s, "");
      PlainAddressed(me, R.CloseText(s).events);
    case FragmentStep(f) => FragmentAddressed(s, mi, me, f);
    case _ => PlainAddressed(me, []);
  }

  lemma ReactAddressed(s: R.State, mi: Meaning, me: Meaning, step: R.RStep)
    requires R.RoutedStep(s, mi, me, step) && !step.FinishStep? && s.pending.None?
    requires !s.createdSent ==> me.entries == []
    ensures AllAddressed(me, R.React(s, step).events)
  {
    hide R.Act, R.RoutedStep, AllAddressed, MeanEvents;
    ActAddressed(s, mi, me, step);
    var r := R.Act(s, step);
    if !step.NoChoiceStep? {
      R.ActIsPlain(s, step);
      if !s.createdSent { AnnouncedAddressed(r, me); }
    }
  }

  lemma AnnouncedAddressed(r: R.Reaction, me: Meaning)
    requires me.entries == [] && AllAddressed(me, r.events)
    ensures AllAddressed(me, R.Announce(r).events)
  {
    hide AllAddressed, MeanEvents;
    AddressedOne(me, Created);
    AddressedOne(me, InProgress);
    R.MeanOne(me, Created);
    R.MeanTwo(me, Created, InProgress);
    AddressedConcat(me, [Created], [InProgress]);
    assert [Created] + [InProgress] == [Created, InProgress];
    AddressedConcat(me, [Created, InProgress], r.events);
  }

  lemma {:induction false} LiveAddressed(steps: seq<R.RStep>)
    requires R.Live(steps) && R.AllRouted(steps)
    ensures AllAddressed(NOTHING, R.ReactAll(R.INIT, steps).events)
  {
    hide R.React, R.Unfinished, R.Live, R.RoutedStep, R.AllRouted, AllAddressed, R.Spoken, R.DoneAll, R.MeanSteps;
    if steps != [] {
      var init, last := steps[..|steps| - 1], steps[|steps| - 1];
      R.UnsnocLive(steps);
      R.UnsnocRouted(steps);
      LiveAddressed(init);
      var before := R.ReactAll(R.INIT, init);
      R.CreatedFlag(init);
      R.NotWithheld(before.state);
      if !before.state.createdSent { R.NothingYet(init); }
      ReactAddressed(before.state, R.MeanSteps(NOTHING, init), MeanEvents(NOTHING, before.events), last);
      AddressedConcat(NOTHING, before.events, R.React(before.state, last).events);
    } else {
      AddressedNone();
    }
  }

  lemma AddressedNone()
    ensures AllAddressed(NOTHING, [])
  {
  }

  lemma ConvertedAddressed(st: R.RStream)
    requires R.Proper(st) && R.AllRouted(st.live)
    ensures AllAddressed(NOTHING, R.Converted(R.Flat(st)))
  {
    if R.Flat(st) == [] {
      NoneAddressed();
    } else {
      AllAreAddressed(st);
    }
    hide *;
  }

  lemma NoneAddressed()
    ensures AllAddressed(NOTHING, R.Converted([]))
  {
  }

  lemma AllAreAddressed(st: R.RStream)
    requires R.Proper(st) && R.AllRouted(st.live) && R.Flat(st) != []
    ensures AllAddressed(NOTHING, R.Converted(R.Flat(st)))
  {
    hide R.AllRouted, R.Live, R.Converted, R.ReactAll, AllAddressed, R.DoneAll, MeanEvents, R.Flat;
    LiveAddressed(st.live);
    R.ConvertedShape(st);
    var live := R.ReactAll(R.INIT, st.live);
    var done := R.DoneAll(live.state, live.state.entries);
    var last := [Completed(R.FinalResponse(live.state, Or(st.end, Stop)).(tokens := R.FinalTokens(st)))];
    DoneIsPlain(live.state, live.state.entries);
    PlainAddressed(MeanEvents(NOTHING, live.events), done + last);
    AddressedConcat(NOTHING, live.events, done + last);
    assert live.events + (done + last) == live.events + done + last;
  }

  /** What a Chat client receives when a Chat stream is converted to Responses events and back. */
  function ThereAndBack(st: R.RStream, env: Envelope, includeUsage: bool): seq<Chunk> {
    RenderAll(INIT, R.Converted(R.Flat(st)), env, includeUsage).1
  }

  /** The round trip is the identity on text, reasoning and tool calls, wherever the stream is cut; the finish
      reason survives exactly when it is `length`, `tool_calls` with a call, or `stop` without one, and when
      nothing arrived at all. */
  lemma RoundTrip(st: R.RStream, env: Envelope, includeUsage: bool)
    requires R.Proper(st) && R.AllRouted(st.live)
    ensures var mi, mo := R.MeanSteps(NOTHING, R.Flat(st)), MeanChunks(NOTHING, ThereAndBack(st, env, includeUsage));
            && SameContent(mi, mo)
            && (mo.finish == mi.finish <==>
                R.Flat(st) == [] || st.end == Some(Length)
                || st.end == Some(if mi.entries != [] then ToolCalls else Stop))
  {
    hide R.AllRouted, R.Proper, R.Converted, R.Flat, MeanEvents, MeanChunks, R.MeanSteps, RenderAll, AllAddressed;
    ConvertedAddressed(st);
    MeaningKept(R.Converted(R.Flat(st)), env, includeUsage);
    R.MeaningKept(st);
    R.FinishSurvives(st);
  }

  /** And if usage is asked for, the last chunk reports of each field what the last chunk of the stream said that had
      it, up to the first one without a choice after the finish. */
  lemma UsageRoundTrip(st: R.RStream, n: nat, env: Envelope)
    returns (prompt: Option<int>, completion: Option<int>, total: Option<int>)
    requires R.Proper(st) && R.Flat(st) != [] && R.EndsAt(st.tail, n)
    ensures var out, steps := ThereAndBack(st, env, true), st.live + st.tail[..n];
            && R.LastReported(steps, (u: Usage) => u.prompt, prompt)
            && R.LastReported(steps, (u: Usage) => u.completion, completion)
            && R.LastReported(steps, (u: Usage) => u.total, total)
            && out != [] && out[|out| - 1].usage.Some?
            && var u := out[|out| - 1].usage.value;
               && u.prompt == Some(Or(prompt, 0)) && u.completion == Some(Or(completion, 0))
               && u.total == Some(Or(total, 0))
               && R.LastReported(steps, (u: Usage) => u.cached, u.cached)
               && R.LastReported(steps, (u: Usage) => u.reasoned, u.reasoned)
  {
    hide R.Converted, R.Flat, R.LastReported, RenderAll;
    prompt, completion, total := R.UsageReported(st, n);
    UsageReported(R.Converted(R.Flat(st)), env);
  }

  /** The same for the chunks themselves: each with one choice at most, and with nothing beside a role. */
  lemma ChunksRoundTrip(chunks: seq<Chunk>, st: R.RStream, env: Envelope, includeUsage: bool)
    requires forall i | 0 <= i < |chunks| :: R.Readable(chunks[i])
    requires R.AllSteps(chunks) == R.Flat(st) && R.Proper(st) && R.AllRouted(st.live)
    ensures SameContent(MeanChunks(NOTHING, chunks), MeanChunks(NOTHING, ThereAndBack(st, env, includeUsage)))
  {
    hide R.Readable, R.AllSteps, R.Flat, R.AllRouted, ThereAndBack, MeanChunks, R.MeanSteps;
    R.StepsMeanChunks(chunks);
    RoundTrip(st, env, includeUsage);
  }

  // ----- the session object -----

  class Session {
    var toolCallIndex: nat
    var outputIndexToTcIndex: map<int, nat>
    const env: Envelope
    const includeUsage: bool

    ghost function View(): State
      reads this
    {
      State(toolCallIndex, outputIndexToTcIndex)
    }

    constructor (env: Envelope, includeUsage: bool)
      ensures View() == INIT && this.env == env && this.includeUsage == includeUsage
    {
      toolCallIndex, outputIndexToTcIndex := 0, map[];
      this.env, this.includeUsage := env, includeUsage;
    }

    method ConvertEvent(e: Event) returns (chunks: seq<Chunk>)
      modifies this
      ensures (View(), chunks) == Render(old(View()), e, env, includeUsage)
    {
      chunks := [];
      match e {
        case Created =>
          toolCallIndex := 0;
          chunks := Write(env, EMPTY_DELTA.(assistant := true, content := Some("")));
        case ItemAdded(out, CallHead(callId, name)) =>
          var tcIdx := toolCallIndex;
          toolCallIndex := tcIdx + 1;
          outputIndexToTcIndex := outputIndexToTcIndex[out := tcIdx];
          chunks := Write(env, EMPTY_DELTA.(calls := [Fragment(Some(tcIdx), callId, name, Some(""))]));
        case TextDelta(_, t) => chunks := Write(env, EMPTY_DELTA.(content := Some(t)));
        case ReasoningDelta(_, t) => chunks := Write(env, EMPTY_DELTA.(reasoning := Some(t)));
        case ArgsDelta(target, t) =>
          var tcIdx := if toolCallIndex == 0 then 0 else toolCallIndex - 1;
          if Or(target, 0) in outputIndexToTcIndex {
            tcIdx := outputIndexToTcIndex[Or(target, 0)];
          }
          chunks := Write(env, EMPTY_DELTA.(calls := [Fragment(Some(tcIdx), "", "", Some(t))]));
        case Completed(r) =>
          chunks := [WrittenChunk(env.id, env.model, EMPTY_DELTA, Some(ParseFinal(r)))];
          var usage := if includeUsage then [UsageChunk(env, r.tokens)] else [];
          chunks := chunks + usage;
        case _ =>
      }
    }

    method ConvertAll(es: seq<Event>) returns (chunks: seq<Chunk>)
      modifies this
      ensures (View(), chunks) == RenderAll(old(View()), es, env, includeUsage)
    {
      hide Render;
      ghost var s := View();
      chunks := [];
      for i := 0 to |es|
        invariant (View(), chunks) == RenderAll(s, es[..i], env, includeUsage)
      {
        assert es[..i + 1][..i] == es[..i];
        var more := ConvertEvent(es[i]);
        chunks := chunks + more;
      }
      assert es[..|es|] == es;
    }
  }
}
