/**
 The session object of the Chat to Responses direction (converters/response_stream_state.py,
 converters/stream_chat_to_response.py, converters/to_response.py): its fields, and its methods
 proved against the step functions of ChatToResponses.
 */
module ChatToResponsesSession {
  import opened Wrappers
  import opened ChatStream
  import opened ResponsesStream
  import opened ChatToResponses

  // ----- announcing a whole chunk at once -----

  /** The steps of a chunk without the announcement. */
  function ActAll(s: State, steps: seq<RStep>): Reaction {
    if steps == [] then Reaction(s, [])
    else
      var before := ActAll(s, steps[..|steps| - 1]);
      var last := Act(before.state, steps[|steps| - 1]);
      Reaction(last.state, before.events + last.events)
  }

  function Marked(r: Reaction, created: bool): Reaction {
    Reaction(r.state.(createdSent := created), r.events)
  }

  lemma TextApart(s: State, text: string, created: bool)
    ensures SayText(s.(createdSent := created), text) == Marked(SayText(s, text), created)
  {
    hide AddText, WithText;
    if s.activeText.Some? {
      WithTextApart(s, text, created);
    } else {
      AddTextApart(s, created);
      WithTextApart(AddText(s).state, text, created);
    }
  }

  lemma AddTextApart(s: State, created: bool)
    ensures AddText(s.(createdSent := created)) == Marked(AddText(s), created) && AddText(s).state.activeText.Some?
  {
  }

  lemma WithTextApart(s: State, text: string, created: bool)
    requires s.activeText.Some?
    ensures WithText(s.(createdSent := created), text) == WithText(s, text).(createdSent := created)
  {
  }

  lemma CloseApart(s: State, created: bool)
    ensures CloseText(s.(createdSent := created)) == Marked(CloseText(s), created)
  {
    hide MessageDone;
  }

  lemma FragmentApart(s: State, f: Fragment, created: bool)
    ensures CallFragment(s.(createdSent := created), f) == Marked(CallFragment(s, f), created)
  {
    var s', id := s.(createdSent := created), GivenId(s, f);
    assert GivenId(s', f) == id && CallIdOf(s', f) == CallIdOf(s, f);
    hide CallIdOf, GivenId, OpenCall, AddCallArgs;
    OpenApart(s, f, id, created);
    ArgsApart(s, f, CallIdOf(s, f), created);
    ArgsApart(OpenCall(s, f, id).state, f, id, created);
  }

  lemma OpenApart(s: State, f: Fragment, callId: string, created: bool)
    ensures OpenCall(s.(createdSent := created), f, callId) == Marked(OpenCall(s, f, callId), created)
  {
  }

  lemma ArgsApart(s: State, f: Fragment, callId: string, created: bool)
    ensures AddCallArgs(s.(createdSent := created), f, callId) == Marked(AddCallArgs(s, f, callId), created)
  {
    var args, s' := Or(f.args, ""), s.(createdSent := created);
    if args == "" {
      assert AddCallArgs(s', f, callId) == Reaction(s', []);
    } else {
      var target := if f.index.None? then None
                    else Some(if callId in s.calls then s.calls[callId].out else f.index.value);
      var grown := if callId in s.calls then GrownCalls(s.calls, callId, args) else s.calls;
      assert AddCallArgs(s, f, callId) == Reaction(s.(calls := grown), [ArgsDelta(target, args)]);
      assert AddCallArgs(s', f, callId) == Reaction(s'.(calls := grown), [ArgsDelta(target, args)]);
    }
    hide *;
  }

  function GrownCalls(calls: map<string, CallData>, callId: string, args: string): map<string, CallData>
    requires callId in calls
  {
    calls[callId := calls[callId].(args := Grow(calls[callId].args, args))]
  }

  lemma ReasonApart(s: State, text: string, created: bool)
    ensures SayReasoning(s.(createdSent := created), text) == Marked(SayReasoning(s, text), created)
  {
  }

  lemma {:induction false} DoneApart(s: State, entries: seq<OutEntry>, created: bool)
    ensures DoneAll(s.(createdSent := created), entries) == DoneAll(s, entries)
    ensures BuildItems(s.(createdSent := created), entries) == BuildItems(s, entries)
  {
    hide DoneOf, BuildItem;
    if entries != [] {
      DoneApart(s, entries[..|entries| - 1], created);
      ItemApart(s, entries[|entries| - 1], created);
    }
  }

  lemma ItemApart(s: State, e: OutEntry, created: bool)
    ensures DoneOf(s.(createdSent := created), e) == DoneOf(s, e)
    ensures BuildItem(s.(createdSent := created), e) == BuildItem(s, e)
  {
  }

  lemma QueueApart(s: State, f: Finish, created: bool)
    ensures QueueFinal(s.(createdSent := created), f) == Marked(QueueFinal(s, f), created)
  {
    DoneApart(s, s.entries, created);
    hide DoneAll, BuildItems;
  }

  /** No step looks at whether the response was announced. */
  lemma ActApart(s: State, step: RStep, created: bool)
    requires !step.NoChoiceStep?
    ensures Act(s.(createdSent := created), step) == Marked(Act(s, step), created)
  {
    hide SayText, CloseText, CallFragment, SayReasoning, QueueFinal, Accumulate;
    match step
    case TextStep(t) => TextApart(s, t, created);
    case SwitchStep => CloseApart(s, created);
    case FragmentStep(f) => FragmentApart(s, f, created);
    case ReasonStep(t) => ReasonApart(s, t, created);
    case FinishStep(f) => QueueApart(s, f, created);
    case _ =>
  }

  function AnnounceAny(r: Reaction): Reaction {
    if r.events == [] then r else Announce(r)
  }

  lemma AnnounceLater(s: State, before: Reaction, last: RStep)
    requires !last.NoChoiceStep? && !last.RoleStep?
    ensures var a := AnnounceAny(before);
            var r := React(a.state, last);
            var act := Act(before.state, last);
            Reaction(r.state, a.events + r.events) == AnnounceAny(Reaction(act.state, before.events + act.events))
  {
    ActApart(before.state, last, true);
    ActIsPlain(before.state, last);
    ActIsPlain(before.state.(createdSent := true), last);
    var act := Act(before.state, last);
    hide Act;
    assert [] + act.events == act.events && before.events + [] == before.events;
    assert [Created, InProgress] + before.events + act.events == [Created, InProgress] + (before.events + act.events);
    assert [] + ([Created, InProgress] + act.events) == [Created, InProgress] + act.events;
    if before.state.createdSent {
      assert before.state.(createdSent := true) == before.state;
    }
  }

  /** Announcing each step is announcing the chunk. */
  lemma {:induction false} AnnounceOnce(s: State, steps: seq<RStep>)
    requires forall i | 0 <= i < |steps| :: !steps[i].NoChoiceStep? && !steps[i].RoleStep?
    ensures ReactAll(s, steps) == AnnounceAny(ActAll(s, steps))
  {
    if steps != [] {
      var n := |steps| - 1;
      AnnounceOnce(s, steps[..n]);
      hide React, Act, AnnounceAny;
      AnnounceLater(s, ActAll(s, steps[..n]), steps[n]);
    }
  }

  /** One more step, or none. */
  lemma ActNext(s: State, done: seq<RStep>, next: seq<RStep>)
    requires |next| <= 1
    ensures var before := ActAll(s, done);
            ActAll(s, done + next) ==
            if next == [] then before
            else var last := Act(before.state, next[0]); Reaction(last.state, before.events + last.events)
  {
    if next == [] {
      assert done + next == done;
    } else {
      assert (done + next)[..|done|] == done;
    }
  }

  lemma {:induction false} ActConcat(s: State, a: seq<RStep>, b: seq<RStep>)
    ensures var first := ActAll(s, a);
            var then' := ActAll(first.state, b);
            ActAll(s, a + b) == Reaction(then'.state, first.events + then'.events)
  {
    hide Act;
    if b == [] {
      assert a + b == a;
    } else {
      assert (a + b)[..|a + b| - 1] == a + b[..|b| - 1];
      ActConcat(s, a, b[..|b| - 1]);
    }
  }

  lemma DeltaAnnounced(s: State, d: Delta, finish: Option<Finish>)
    ensures ReactAll(s, DeltaSteps(d, finish)) == AnnounceAny(ActAll(s, DeltaSteps(d, finish)))
  {
    hide ReactAll, ActAll, AnnounceAny;
    AnnounceOnce(s, DeltaSteps(d, finish));
  }

  lemma DoneAllNext(s: State, i: nat)
    requires i < |s.entries|
    ensures DoneAll(s, s.entries[..i + 1]) == DoneAll(s, s.entries[..i]) + DoneOf(s, s.entries[i])
  {
    assert s.entries[..i + 1][..i] == s.entries[..i];
  }

  lemma BuildNext(s: State, i: nat)
    requires i < |s.entries|
    ensures BuildItems(s, s.entries[..i + 1]) ==
            BuildItems(s, s.entries[..i])
            + if BuildItem(s, s.entries[i]).Some? then [BuildItem(s, s.entries[i]).value] else []
  {
    assert s.entries[..i + 1][..i] == s.entries[..i];
  }

  lemma ReactOne(s: State, step: RStep)
    ensures ReactAll(s, [step]) == React(s, step)
  {
    assert [step][..0] == [];
  }

  lemma ReactUsage(s: State, usage: Option<Usage>, rest: seq<RStep>)
    ensures ReactAll(s, [UsageStep(usage)] + rest) == ReactAll(s.(tokens := Accumulate(s.tokens, usage)), rest)
  {
    ReactOne(s, UsageStep(usage));
    ReactConcat(s, [UsageStep(usage)], rest);
  }

  /** `ResponseStreamState` together with the converter methods that drive it. */
  class Session {
    var outputIndex: nat
    var responseCreatedSent: bool
    var completedSent: bool
    var accumulatedText: string
    var toolCalls: map<string, CallData>
    var toolCallIndexToId: map<int, string>
    var reasoningStarted: bool
    var reasoningContent: string
    var tokens: Tokens
    var sequenceNumber: nat
    var outputItems: seq<OutEntry>
    var activeTextOutputIndex: Option<nat>
    var contentPartAddedSent: bool
    var itemTexts: map<nat, string>
    var pendingFinalEvents: seq<Event>
    var waitingForUsageAfterFinish: bool

    /** A withheld list ends with the terminal event. */
    ghost predicate Valid()
      reads this
    {
      pendingFinalEvents != [] ==> pendingFinalEvents[|pendingFinalEvents| - 1].Completed?
    }

    ghost function View(): State
      requires Valid()
      reads this
    {
      State(responseCreatedSent, completedSent, outputIndex, activeTextOutputIndex, contentPartAddedSent,
            accumulatedText, reasoningContent, reasoningStarted, itemTexts, toolCalls, toolCallIndexToId, outputItems,
            tokens,
            if pendingFinalEvents == [] then None else Some(pendingFinalEvents[|pendingFinalEvents| - 1].response),
            waitingForUsageAfterFinish)
    }

    constructor ()
      ensures Valid() && View() == INIT && sequenceNumber == 0
    {
      outputIndex, responseCreatedSent, completedSent, accumulatedText := 0, false, false, "";
      toolCalls, toolCallIndexToId, reasoningStarted, reasoningContent := map[], map[], false, "";
      tokens, sequenceNumber, outputItems := Tokens(0, 0, 0, None, None), 0, [];
      activeTextOutputIndex, contentPartAddedSent, itemTexts := None, false, map[];
      pendingFinalEvents, waitingForUsageAfterFinish := [], false;
    }

    method EmitCreated() returns (events: seq<Event>)
      requires Valid()
      modifies this`responseCreatedSent
      ensures Valid() && View() == old(View()).(createdSent := true)
      ensures events == if old(responseCreatedSent) then [] else [Created, InProgress]
    {
      if responseCreatedSent {
        return [];
      }
      responseCreatedSent := true;
      events := [Created, InProgress];
    }

    function TextOf(out: nat): string
      reads this
    {
      if out in itemTexts then itemTexts[out] else accumulatedText
    }

    method EmitTextDone() returns (events: seq<Event>)
      requires Valid()
      modifies this`activeTextOutputIndex, this`contentPartAddedSent
      ensures Valid() && Reaction(View(), events) == CloseText(old(View()))
    {
      if activeTextOutputIndex.None? {
        return [];
      }
      var text := TextOf(activeTextOutputIndex.value);
      events := MessageDone(activeTextOutputIndex.value, text, Some(Message(text)));
      activeTextOutputIndex, contentPartAddedSent := None, false;
    }

    method BuildCompletedOutputItem(entry: OutEntry) returns (item: Option<OutItem>)
      requires Valid()
      ensures item == BuildItem(View(), entry)
    {
      match entry {
        case ReasoningEntry(_) => item := if reasoningContent == "" then None else Some(Reasoning(reasoningContent));
        case MessageEntry(out) => item := Some(Message(TextOf(out)));
        case CallEntry(_, callId) =>
          item := if callId !in toolCalls then None
                  else Some(FunctionCall(callId, toolCalls[callId].name, toolCalls[callId].args));
      }
    }

    method BuildOutputItems() returns (output: seq<OutItem>)
      requires Valid()
      ensures output == BuildOutput(View())
    {
      output := [];
      if outputItems != [] {
        for i := 0 to |outputItems|
          invariant output == BuildItems(View(), outputItems[..i])
        {
          var item := BuildCompletedOutputItem(outputItems[i]);
          BuildNext(View(), i);
          if item.Some? {
            output := output + [item.value];
          }
        }
        assert outputItems[..|outputItems|] == outputItems;
      } else if reasoningContent != "" {
        output := [Reasoning(reasoningContent)];
      }
      if output == [] {
        output := [Message("")];
      }
    }

    method BuildItemDone(entry: OutEntry) returns (events: seq<Event>)
      requires Valid()
      ensures events == DoneOf(View(), entry)
    {
      hide BuildItem, MessageDone, ReasoningDoneAll, CallDone;
      var item := BuildCompletedOutputItem(entry);
      match entry {
        case MessageEntry(out) =>
          events := if activeTextOutputIndex == Some(out) then MessageDone(out, TextOf(out), item) else [];
        case ReasoningEntry(out) =>
          events := ReasoningDoneAll(out, reasoningContent, item);
        case CallEntry(out, callId) =>
          var name := if callId in toolCalls then toolCalls[callId].name else "";
          var args := if callId in toolCalls then toolCalls[callId].args else "";
          events := CallDone(out, name, args, item);
      }
    }

    method BuildFinalEvents(finishReason: Finish, markCompleted: bool) returns (events: seq<Event>)
      requires Valid()
      modifies this`completedSent
      ensures Valid() && View() == old(View()).(completedSent := old(completedSent) || markCompleted)
      ensures var s := old(View());
              events == if s.completedSent then []
                        else DoneAll(s, s.entries) + [Completed(FinalResponse(s, finishReason))]
    {
      if completedSent {
        return [];
      }
      hide DoneAll, BuildOutput;
      var output := BuildOutputItems();
      events := BuildDoneEvents();
      events := events + [Completed(Response(finishReason == Length, output, accumulatedText, tokens))];
      if markCompleted {
        completedSent := true;
      }
    }

    /** The *.done events of all items, in order. */
    method BuildDoneEvents() returns (events: seq<Event>)
      requires Valid()
      ensures events == DoneAll(View(), outputItems)
    {
      hide DoneAll, DoneOf;
      ghost var s := View();
      events := [];
      DoneNone(s);
      for i := 0 to |outputItems|
        invariant events == DoneAll(s, outputItems[..i])
      {
        var done := BuildItemDone(outputItems[i]);
        DoneAllNext(s, i);
        events := events + done;
      }
      assert outputItems[..|outputItems|] == outputItems;
    }

    method QueueFinalEvents(finishReason: Finish) returns (events: seq<Event>)
      requires Valid()
      modifies this`completedSent, this`pendingFinalEvents, this`waitingForUsageAfterFinish
      ensures Valid() && Reaction(View(), events) == QueueFinal(old(View()), finishReason)
    {
      hide DoneAll, FinalResponse;
      var finalEvents := BuildFinalEvents(finishReason, false);
      pendingFinalEvents, waitingForUsageAfterFinish := finalEvents, true;
      if finalEvents == [] {
        return [];
      }
      events := finalEvents[..|finalEvents| - 1];
    }

    method Release() returns (events: seq<Event>)
      requires Valid()
      modifies this`completedSent, this`pendingFinalEvents, this`waitingForUsageAfterFinish
      ensures Valid() && Reaction(View(), events) == ReleasePending(old(View()))
    {
      if pendingFinalEvents == [] {
        return [];
      }
      var completed := pendingFinalEvents[|pendingFinalEvents| - 1];
      pendingFinalEvents, waitingForUsageAfterFinish, completedSent := [], false, true;
      events := [Completed(completed.response.(tokens := tokens))];
    }

    method FinalizeState() returns (events: seq<Event>)
      requires Valid()
      modifies this`completedSent, this`pendingFinalEvents, this`waitingForUsageAfterFinish
      ensures Valid() && Reaction(View(), events) == Finalize(old(View()))
    {
      if pendingFinalEvents != [] {
        events := Release();
      } else if completedSent {
        events := [];
      } else {
        events := BuildFinalEvents(Stop, true);
      }
    }

    method EnsureTextItem() returns (events: seq<Event>)
      requires Valid()
      modifies this
      ensures Valid() && sequenceNumber == old(sequenceNumber)
      ensures Reaction(View(), events) ==
              if old(activeTextOutputIndex).Some? then Reaction(old(View()), []) else AddText(old(View()))
    {
      if activeTextOutputIndex.Some? {
        return [];
      }
      var out := outputIndex;
      outputIndex, activeTextOutputIndex := out + 1, Some(out);
      itemTexts := itemTexts[out := ""];
      outputItems := outputItems + [MessageEntry(out)];
      events := [ItemAdded(out, MessageHead)];
    }

    method SayContent(text: string) returns (events: seq<Event>)
      requires Valid()
      modifies this
      ensures Valid() && sequenceNumber == old(sequenceNumber)
      ensures Reaction(View(), events) == SayText(old(View()), text)
    {
      hide Grow, AppendItemText;
      ghost var s := View();
      var added := EnsureTextItem();
      ghost var mid := View();
      accumulatedText := Grow(accumulatedText, text);
      var out := activeTextOutputIndex.value;
      var part := [];
      if !contentPartAddedSent {
        contentPartAddedSent := true;
        part := [PartAdded(out)];
      }
      itemTexts := AppendItemText(itemTexts, out, text);
      events := added + part + [TextDelta(out, text)];
      assert View() == WithText(mid, text);
      TextSaid(s, Reaction(mid, added), text);
    }

    /** The call a fragment is for: its own id, that of its index, or for a new call one made up. */
    method FindCallId(f: Fragment) returns (callId: string)
      requires Valid()
      ensures callId == if f.name == "" then CallIdOf(View(), f) else GivenId(View(), f)
    {
      hide Numeral;
      callId := f.id;
      if callId == "" && f.index.Some? {
        callId := if f.index.value in toolCallIndexToId then toolCallIndexToId[f.index.value] else "";
      }
      if f.name != "" && callId == "" {
        callId := "call_" + Numeral(if f.index.Some? then f.index.value else |toolCalls|);
      }
    }

    method OpenToolCall(f: Fragment, callId: string) returns (events: seq<Event>)
      requires Valid()
      modifies this
      ensures Valid() && sequenceNumber == old(sequenceNumber)
      ensures Reaction(View(), events) == OpenCall(old(View()), f, callId)
    {
      if f.index.Some? {
        toolCallIndexToId := toolCallIndexToId[f.index.value := callId];
      }
      var out := outputIndex;
      outputIndex := out + 1;
      toolCalls := toolCalls[callId := CallData(f.name, "", out)];
      outputItems := outputItems + [CallEntry(out, callId)];
      events := [ItemAdded(out, CallHead(callId, f.name))];
    }

    method AppendToolArguments(f: Fragment, callId: string) returns (events: seq<Event>)
      requires Valid()
      modifies this`toolCalls
      ensures Valid() && Reaction(View(), events) == AddCallArgs(old(View()), f, callId)
    {
      hide Grow;
      if f.args.None? || f.args.value == "" {
        return [];
      }
      var target := if f.index.None? then None
                    else Some(if callId in toolCalls then toolCalls[callId].out else f.index.value);
      if callId in toolCalls {
        toolCalls := toolCalls[callId := toolCalls[callId].(args := Grow(toolCalls[callId].args, f.args.value))];
      }
      events := [ArgsDelta(target, f.args.value)];
    }

    method TakeFragment(f: Fragment) returns (events: seq<Event>)
      requires Valid()
      modifies this
      ensures Valid() && sequenceNumber == old(sequenceNumber)
      ensures Reaction(View(), events) == CallFragment(old(View()), f)
    {
      hide CallIdOf, OpenCall, GivenId, AddCallArgs;
      var callId := FindCallId(f);
      events := [];
      if f.name != "" {
        events := OpenToolCall(f, callId);
      }
      var more := AppendToolArguments(f, callId);
      events := events + more;
    }

    method SayThought(text: string) returns (events: seq<Event>)
      requires Valid()
      modifies this
      ensures Valid() && sequenceNumber == old(sequenceNumber)
      ensures Reaction(View(), events) == SayReasoning(old(View()), text)
    {
      hide Grow;
      events := [];
      reasoningContent := Grow(reasoningContent, text);
      if !reasoningStarted {
        reasoningStarted := true;
        var out := outputIndex;
        outputIndex := out + 1;
        outputItems := outputItems + [ReasoningEntry(out)];
        events := [ItemAdded(out, ReasoningHead), PartAdded(out)];
      }
      events := events + [ReasoningDelta(ReasoningAt(outputItems), text)];
    }

    /** `chat_stream_chunk_to_response`; None where it raises ValueError. */
    method TakeChunk(chunk: Chunk) returns (events: Option<seq<Event>>)
      requires Valid()
      modifies this
      ensures Valid() && sequenceNumber == old(sequenceNumber)
      ensures events.None? <==> TooManyChoices(chunk)
      ensures events.None? ==> View() == ReactAll(old(View()), Steps(chunk)).state
      ensures events.Some? ==> Reaction(View(), events.value) == ReactAll(old(View()), Steps(chunk))
    {
      hide Accumulate, Act, DeltaSteps, ReactAll;
      ReactUsage(View(), chunk.usage, ChoiceSteps(chunk));
      tokens := Accumulate(tokens, chunk.usage);
      if !HasChoice(chunk) {
        NoChoiceReacts(View());
        if waitingForUsageAfterFinish {
          var released := Release();
          return Some(released);
        }
        return Some([]);
      }
      if |chunk.choices| > 1 {
        ReactAllNone(View());
        return None;
      }
      var said := TakeChoice(chunk.choices[0].value);
      events := Some(said);
    }

    method TakeChoice(choice: Choice) returns (events: seq<Event>)
      requires Valid()
      modifies this
      ensures Valid() && sequenceNumber == old(sequenceNumber)
      ensures Reaction(View(), events) ==
              ReactAll(old(View()),
                       if choice.delta.assistant then [RoleStep] else DeltaSteps(choice.delta, choice.finish))
    {
      hide DeltaSteps, ReactAll;
      if choice.delta.assistant {
        RoleReacts(View());
        events := EmitCreated();
        return;
      }
      var said := TakeDelta(choice.delta, choice.finish);
      if said == [] {
        return [];
      }
      var created := EmitCreated();
      assert [] + said == said;
      events := created + said;
    }

    method TakeCalls(calls: seq<Fragment>) returns (events: seq<Event>)
      requires Valid()
      modifies this
      ensures Valid() && sequenceNumber == old(sequenceNumber)
      ensures Reaction(View(), events) == ActAll(old(View()), CallSteps(calls))
    {
      ghost var s := View();
      ActNone(s);
      ActIs();
      hide Act, ActAll, CallFragment;
      events := [];
      assert CallSteps(calls[..0]) == [];
      for i := 0 to |calls|
        invariant Valid() && sequenceNumber == old(sequenceNumber)
        invariant Reaction(View(), events) == ActAll(s, CallSteps(calls[..i]))
      {
        ActNext(s, CallSteps(calls[..i]), [FragmentStep(calls[i])]);
        assert CallSteps(calls[..i + 1]) == CallSteps(calls[..i]) + [FragmentStep(calls[i])];
        var said := TakeFragment(calls[i]);
        events := events + said;
      }
      assert calls[..|calls|] == calls;
    }

    method SayAndCall(content: Option<string>, calls: seq<Fragment>) returns (events: seq<Event>)
      requires Valid()
      modifies this
      ensures Valid() && sequenceNumber == old(sequenceNumber)
      ensures Reaction(View(), events) ==
              ActAll(old(View()), (if content.Some? then [TextStep(content.value)] else [])
                                  + (if calls != [] then [SwitchStep] else []) + CallSteps(calls))
    {
      hide *;
      ghost var s := View();
      ActNone(s);
      ActIs();
      events := [];
      ghost var done := if content.Some? then [TextStep(content.value)] else [];
      ActNext(s, [], done);
      assert [] + done == done;
      if content.Some? {
        events := SayContent(content.value);
        assert [] + events == events;
      }
      ghost var next := if calls != [] then [SwitchStep] else [];
      ActNext(s, done, next);
      if calls != [] {
        var closed := EmitTextDone();
        events := events + closed;
      }
      ActConcat(s, done + next, CallSteps(calls));
      var called := TakeCalls(calls);
      events := events + called;
    }

    /** The payload of a chunk, before it is announced. */
    method TakeDelta(delta: Delta, finish: Option<Finish>) returns (events: seq<Event>)
      requires Valid()
      modifies this
      ensures Valid() && sequenceNumber == old(sequenceNumber)
      ensures ReactAll(old(View()), DeltaSteps(delta, finish)) == AnnounceAny(Reaction(View(), events))
    {
      hide ActAll, ReactAll, AnnounceAny, CallSteps;
      ghost var s := View();
      DeltaAnnounced(s, delta, finish);
      var said := SayAndCall(delta.content, delta.calls);
      ghost var done := (if delta.content.Some? then [TextStep(delta.content.value)] else [])
                        + (if delta.calls != [] then [SwitchStep] else []) + CallSteps(delta.calls);
      events := ThinkAndFinish(s, done, said, delta.reasoning, finish);
    }

    method ThinkAndFinish(ghost s: State, ghost done: seq<RStep>, before: seq<Event>, reasoning: Option<string>,
                          finish: Option<Finish>)
      returns (events: seq<Event>)
      requires Valid() && Reaction(View(), before) == ActAll(s, done)
      modifies this
      ensures Valid() && sequenceNumber == old(sequenceNumber)
      ensures Reaction(View(), events) ==
              ActAll(s, done + (if reasoning.Some? then [ReasonStep(reasoning.value)] else [])
                        + (if finish.Some? then [FinishStep(finish.value)] else []))
    {
      hide *;
      ActIs();
      events := before;
      ghost var next := if reasoning.Some? then [ReasonStep(reasoning.value)] else [];
      ActNext(s, done, next);
      if reasoning.Some? {
        var said := SayThought(reasoning.value);
        events := events + said;
      }
      ActNext(s, done + next, if finish.Some? then [FinishStep(finish.value)] else []);
      if finish.Some? {
        var said := QueueFinalEvents(finish.value);
        events := events + said;
      }
    }

    /** `convert_stream_chunk` */
    method ConvertStreamChunk(chunk: Chunk) returns (events: Option<seq<Numbered>>)
      requires Valid()
      modifies this
      ensures Valid() && View() == ReactAll(old(View()), Steps(chunk)).state
      ensures events.None? <==> TooManyChoices(chunk)
      ensures events.None? ==> sequenceNumber == old(sequenceNumber)
      ensures events.Some? ==>
                var sent := ReactAll(old(View()), Steps(chunk)).events;
                events.value == Number(sent, old(sequenceNumber)) && sequenceNumber == old(sequenceNumber) + |sent|
    {
      hide ReactAll, Steps;
      var taken := TakeChunk(chunk);
      if taken.None? {
        return None;
      }
      var numbered, sent := AssignSequenceNumbers(taken.value, sequenceNumber);
      sequenceNumber := sent;
      events := Some(numbered);
    }

    /** `finalize_stream` of a session that has seen a chunk */
    method FinalizeStream() returns (events: seq<Numbered>)
      requires Valid()
      modifies this
      ensures Valid() && View() == Finalize(old(View())).state
      ensures events == Number(Finalize(old(View())).events, old(sequenceNumber))
    {
      hide Finalize;
      var last := FinalizeState();
      events, sequenceNumber := AssignSequenceNumbers(last, sequenceNumber);
    }
  }

  lemma DoneNone(s: State)
    ensures DoneAll(s, s.entries[..0]) == []
  {
  }

  lemma TextSaid(s: State, added: Reaction, text: string)
    requires added == if s.activeText.Some? then Reaction(s, []) else AddText(s)
    ensures added.state.activeText.Some?
    ensures var out := added.state.activeText.value;
            var part := if added.state.partSent then [] else [PartAdded(out)];
            SayText(s, text) == Reaction(WithText(added.state, text), added.events + part + [TextDelta(out, text)])
  {
  }

  lemma NoChoiceReacts(s: State)
    ensures ReactAll(s, [NoChoiceStep]) == if s.waiting then ReleasePending(s) else Reaction(s, [])
  {
    ReactOne(s, NoChoiceStep);
  }

  lemma RoleReacts(s: State)
    ensures ReactAll(s, [RoleStep]) == Announce(Reaction(s, []))
  {
    ReactOne(s, RoleStep);
  }

  lemma ActNone(s: State)
    ensures ActAll(s, []) == Reaction(s, [])
  {
  }

  lemma ActIs()
    ensures forall s, t :: Act(s, TextStep(t)) == SayText(s, t)
    ensures forall s :: Act(s, SwitchStep) == CloseText(s)
    ensures forall s, f :: Act(s, FragmentStep(f)) == CallFragment(s, f)
    ensures forall s, t :: Act(s, ReasonStep(t)) == SayReasoning(s, t)
    ensures forall s, f :: Act(s, FinishStep(f)) == QueueFinal(s, f)
  {
  }

  /** All events a client receives for these chunks. */
  function ConvertedChunks(chunks: seq<Chunk>): seq<Event> {
    Converted(AllSteps(chunks))
  }

  lemma StepsSome(chunks: seq<Chunk>)
    ensures chunks == [] ==> ConvertedChunks(chunks) == []
    ensures chunks != [] ==>
              var r := ReactAll(INIT, AllSteps(chunks));
              ConvertedChunks(chunks) == r.events + Finalize(r.state).events
  {
    hide ReactAll, Finalize, ChoiceSteps;
  }

  /** A whole upstream: its chunks, then the end of the stream. Every event the client receives, in order, is
      what the steps of the chunks make it, and the sequence numbers are 1, 2, 3, and so on. */
  method ConvertStream(chunks: seq<Chunk>) returns (events: seq<Numbered>)
    requires forall i | 0 <= i < |chunks| :: !TooManyChoices(chunks[i])
    ensures events == Number(ConvertedChunks(chunks), 0)
  {
    hide Steps, Finalize, ReactAll, ConvertedChunks;
    StepsSome(chunks);
    events := [];
    if chunks == [] {
      return;
    }
    var session := new Session();
    ReactAllNone(INIT);
    for i := 0 to |chunks|
      invariant session.Valid() && fresh(session)
      invariant var r := ReactAll(INIT, AllSteps(chunks[..i]));
                session.View() == r.state && session.sequenceNumber == |r.events| && events == Number(r.events, 0)
    {
      ghost var r := ReactAll(INIT, AllSteps(chunks[..i]));
      var more := session.ConvertStreamChunk(chunks[i]);
      ReactConcat(INIT, AllSteps(chunks[..i]), Steps(chunks[i]));
      assert chunks[..i + 1][..i] == chunks[..i];
      NumberConcat(r.events, ReactAll(r.state, Steps(chunks[i])).events, 0);
      events := events + more.value;
    }
    assert chunks[..|chunks|] == chunks;
    ghost var r := ReactAll(INIT, AllSteps(chunks));
    var last := session.FinalizeStream();
    NumberConcat(r.events, Finalize(r.state).events, 0);
    events := events + last;
  }

  lemma ReactAllNone(s: State)
    ensures ReactAll(s, []) == Reaction(s, [])
  {
  }
}
