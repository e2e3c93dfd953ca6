/**
 Chat Completions chunks to Responses events (converters/stream_chat_to_response.py and
 converters/response_stream_state.py).

 `React` is what one step of a chunk does to the session and the events it emits; `Session` is the
 object whose methods are the source's. The theorems fold `React` over whole streams.
 */
module ChatToResponses {
  import opened Wrappers
  import opened ChatStream
  import opened ResponsesStream

  /** An entry of `output_items`. */
  datatype OutEntry = MessageEntry(out: nat) | CallEntry(out: nat, callId: string) | ReasoningEntry(out: nat)

  datatype CallData = CallData(name: string, args: string, out: nat)

  datatype State = State(
    createdSent: bool,
    completedSent: bool,
    outputIndex: nat,
    activeText: Option<nat>,
    partSent: bool,
    text: string,
    reasoning: string,
    reasoningStarted: bool,
    itemTexts: map<nat, string>,
    calls: map<string, CallData>,
    callIdOf: map<int, string>,
    entries: seq<OutEntry>,
    tokens: Tokens,
    pending: Option<Response>,
    waiting: bool)

  const INIT: State := State(
    false, false, 0, None, false, "", "", false, map[], map[], map[], [], Tokens(0, 0, 0, None, None), None, false)

  datatype Reaction = Reaction(state: State, events: seq<Event>)

  // ----- one chunk as a sequence of steps -----

  datatype RStep =
    | UsageStep(usage: Option<Usage>)
    | NoChoiceStep
    | RoleStep
    | TextStep(text: string)
    | SwitchStep
    | FragmentStep(fragment: Fragment)
    | ReasonStep(text: string)
    | FinishStep(finish: Finish)

  predicate TooManyChoices(chunk: Chunk) {
    HasChoice(chunk) && |chunk.choices| > 1
  }

  function CallSteps(fs: seq<Fragment>): (r: seq<RStep>)
    ensures |r| == |fs|
  {
    seq(|fs|, i requires 0 <= i < |fs| => FragmentStep(fs[i]))
  }

  /** Usage first; a role chunk ends there; then content, tool calls, reasoning, finish. */
  function Steps(chunk: Chunk): seq<RStep> {
    [UsageStep(chunk.usage)] + ChoiceSteps(chunk)
  }

  function ChoiceSteps(chunk: Chunk): seq<RStep> {
    if !HasChoice(chunk) then [NoChoiceStep]
    else if |chunk.choices| > 1 then []
    else
      var choice := chunk.choices[0].value;
      if choice.delta.assistant then [RoleStep] else DeltaSteps(choice.delta, choice.finish)
  }

  function DeltaSteps(d: Delta, finish: Option<Finish>): seq<RStep> {
    (if d.content.Some? then [TextStep(d.content.value)] else [])
    + (if d.calls != [] then [SwitchStep] else [])
    + CallSteps(d.calls)
    + (if d.reasoning.Some? then [ReasonStep(d.reasoning.value)] else [])
    + (if finish.Some? then [FinishStep(finish.value)] else [])
  }

  // ----- the moves of the session -----

  /** `_chat_usage_to_response_acc` */
  function Accumulate(t: Tokens, usage: Option<Usage>): Tokens {
    if Or(usage, NO_USAGE) == NO_USAGE then t
    else
      var u := usage.value;
      Tokens(Or(u.prompt, t.input), Or(u.completion, t.output), Or(u.total, t.total),
             if u.cached.Some? then u.cached else t.cached, if u.reasoned.Some? then u.reasoned else t.reasoned)
  }

  /** `item_text` */
  function ItemText(s: State, out: nat): string {
    if out in s.itemTexts then s.itemTexts[out] else s.text
  }

  /** `emit_text_done` */
  function CloseText(s: State): Reaction {
    if s.activeText.None? then Reaction(s, [])
    else
      var out := s.activeText.value;
      var text := ItemText(s, out);
      Reaction(s.(activeText := None, partSent := false), MessageDone(out, text, Some(Message(text))))
  }

  function AddText(s: State): Reaction {
    var out := s.outputIndex;
    Reaction(s.(outputIndex := out + 1, activeText := Some(out), itemTexts := s.itemTexts[out := ""],
                entries := s.entries + [MessageEntry(out)]),
             [ItemAdded(out, MessageHead)])
  }

  function SayText(s: State, text: string): Reaction {
    var added := if s.activeText.Some? then Reaction(s, []) else AddText(s);
    var out := added.state.activeText.value;
    var part := if s.partSent then [] else [PartAdded(out)];
    Reaction(WithText(added.state, text), added.events + part + [TextDelta(out, text)])
  }

  /** The session after some text was added to its active message. */
  function WithText(s: State, text: string): State
    requires s.activeText.Some?
  {
    var out := s.activeText.value;
    s.(text := Grow(s.text, text), partSent := true, itemTexts := AppendItemText(s.itemTexts, out, text))
  }

  /** `append_item_text` */
  function AppendItemText(texts: map<nat, string>, out: nat, text: string): map<nat, string> {
    if text == "" then texts else texts[out := (if out in texts then texts[out] else "") + text]
  }

  /** The call a fragment belongs to: its own id, or the one its index was given. */
  function CallIdOf(s: State, f: Fragment): string {
    if f.id == "" && f.index.Some? && f.index.value in s.callIdOf then s.callIdOf[f.index.value] else f.id
  }

  /** A fragment with a name opens an item for the call with this id. */
  function OpenCall(s: State, f: Fragment, callId: string): Reaction {
    var out := s.outputIndex;
    Reaction(s.(outputIndex := out + 1,
                callIdOf := if f.index.Some? then s.callIdOf[f.index.value := callId] else s.callIdOf,
                calls := s.calls[callId := CallData(f.name, "", out)],
                entries := s.entries + [CallEntry(out, callId)]),
             [ItemAdded(out, CallHead(callId, f.name))])
  }

  function AddCallArgs(s: State, f: Fragment, callId: string): Reaction {
    var args := Or(f.args, "");
    if args == "" then Reaction(s, [])
    else
      var target := if f.index.None? then None
                    else Some(if callId in s.calls then s.calls[callId].out else f.index.value);
      var s' := if callId !in s.calls then s
                else s.(calls := s.calls[callId := s.calls[callId].(args := Grow(s.calls[callId].args, args))]);
      Reaction(s', [ArgsDelta(target, args)])
  }

  /** The id made up for a call without one depends on its index, or on how many calls there are. */
  function Fallback(s: State, f: Fragment): string {
    "call_" + Numeral(if f.index.Some? then f.index.value else |s.calls|)
  }

  function Numeral(n: int): string
    decreases if n < 0 then 1 - n else n
  {
    if n < 0 then "-" + Numeral(-n)
    else (if n < 10 then "" else Numeral(n / 10)) + [['0', '1', '2', '3', '4', '5', '6', '7', '8', '9'][n % 10]]
  }

  /** The id a call is given when its item is opened. */
  function GivenId(s: State, f: Fragment): string {
    if CallIdOf(s, f) == "" then Fallback(s, f) else CallIdOf(s, f)
  }

  function CallFragment(s: State, f: Fragment): Reaction {
    if f.name == "" then AddCallArgs(s, f, CallIdOf(s, f))
    else
      var open := OpenCall(s, f, GivenId(s, f));
      var more := AddCallArgs(open.state, f, GivenId(s, f));
      Reaction(more.state, open.events + more.events)
  }

  function ReasoningAt(entries: seq<OutEntry>): nat {
    if entries == [] then 0
    else if entries[0].ReasoningEntry? then entries[0].out
    else ReasoningAt(entries[1..])
  }

  function AddReasoning(s: State): Reaction {
    var out := s.outputIndex;
    Reaction(s.(reasoningStarted := true, outputIndex := out + 1, entries := s.entries + [ReasoningEntry(out)]),
             [ItemAdded(out, ReasoningHead), PartAdded(out)])
  }

  function SayReasoning(s: State, text: string): Reaction {
    var grown := s.(reasoning := Grow(s.reasoning, text));
    var added := if s.reasoningStarted then Reaction(grown, []) else AddReasoning(grown);
    Reaction(added.state, added.events + [ReasoningDelta(ReasoningAt(added.state.entries), text)])
  }

  /** `build_completed_output_item` */
  function BuildItem(s: State, e: OutEntry): Option<OutItem> {
    match e
    case ReasoningEntry(_) => if s.reasoning == "" then None else Some(Reasoning(s.reasoning))
    case MessageEntry(out) => Some(Message(ItemText(s, out)))
    case CallEntry(_, c) => if c in s.calls then Some(FunctionCall(c, s.calls[c].name, s.calls[c].args)) else None
  }

  function BuildItems(s: State, entries: seq<OutEntry>): seq<OutItem> {
    if entries == [] then []
    else
      var last := BuildItem(s, entries[|entries| - 1]);
      BuildItems(s, entries[..|entries| - 1]) + if last.Some? then [last.value] else []
  }

  /** `build_output_items`; the entries are in output-index order. */
  function BuildOutput(s: State): seq<OutItem> {
    var output := if s.entries == [] && s.reasoning != "" then [Reasoning(s.reasoning)] else BuildItems(s, s.entries);
    if output == [] then [Message("")] else output
  }

  function DoneOf(s: State, e: OutEntry): seq<Event> {
    match e
    case MessageEntry(out) =>
      if s.activeText == Some(out) then MessageDone(out, ItemText(s, out), BuildItem(s, e)) else []
    case ReasoningEntry(out) => ReasoningDoneAll(out, s.reasoning, BuildItem(s, e))
    case CallEntry(out, c) =>
      CallDone(out, if c in s.calls then s.calls[c].name else "", if c in s.calls then s.calls[c].args else "",
               BuildItem(s, e))
  }

  function DoneAll(s: State, entries: seq<OutEntry>): seq<Event> {
    if entries == [] then [] else DoneAll(s, entries[..|entries| - 1]) + DoneOf(s, entries[|entries| - 1])
  }

  /** The terminal object of `build_final_events`. */
  function FinalResponse(s: State, f: Finish): Response {
    Response(f == Length, BuildOutput(s), s.text, s.tokens)
  }

  /** `queue_final` */
  function QueueFinal(s: State, f: Finish): Reaction {
    if s.completedSent then Reaction(s.(pending := None, waiting := true), [])
    else Reaction(s.(pending := Some(FinalResponse(s, f)), waiting := true), DoneAll(s, s.entries))
  }

  /** `release_pending` */
  function ReleasePending(s: State): Reaction {
    if s.pending.None? then Reaction(s, [])
    else
      Reaction(s.(pending := None, waiting := false, completedSent := true),
               [Completed(s.pending.value.(tokens := s.tokens))])
  }

  /** `finalize` */
  function Finalize(s: State): Reaction {
    if s.pending.Some? then ReleasePending(s)
    else if s.completedSent then Reaction(s, [])
    else Reaction(s.(completedSent := true), DoneAll(s, s.entries) + [Completed(FinalResponse(s, Stop))])
  }

  /** `emit_created`: the first events of a stream come after these two. */
  function Announce(r: Reaction): Reaction {
    if r.state.createdSent then r
    else Reaction(r.state.(createdSent := true), [Created, InProgress] + r.events)
  }

  function Act(s: State, step: RStep): Reaction {
    match step
    case UsageStep(u) => Reaction(s.(tokens := Accumulate(s.tokens, u)), [])
    case NoChoiceStep => if s.waiting then ReleasePending(s) else Reaction(s, [])
    case RoleStep => Reaction(s, [])
    case TextStep(t) => SayText(s, t)
    case SwitchStep => CloseText(s)
    case FragmentStep(f) => CallFragment(s, f)
    case ReasonStep(t) => SayReasoning(s, t)
    case FinishStep(f) => QueueFinal(s, f)
  }

  /** One step, announced if it is the first to say something; the terminal event is never announced. */
  function React(s: State, step: RStep): Reaction {
    var r := Act(s, step);
    if step.RoleStep? || (!step.NoChoiceStep? && r.events != []) then Announce(r) else r
  }

  function ReactAll(s: State, steps: seq<RStep>): Reaction {
    if steps == [] then Reaction(s, [])
    else
      var before := ReactAll(s, steps[..|steps| - 1]);
      var last := React(before.state, steps[|steps| - 1]);
      Reaction(last.state, before.events + last.events)
  }

  /** All events a client receives when the upstream ends after these steps; an empty upstream gets none. */
  function Converted(steps: seq<RStep>): seq<Event> {
    if steps == [] then [] else ReactAll(INIT, steps).events + Finalize(ReactAll(INIT, steps).state).events
  }

  lemma {:induction false} ReactConcat(s: State, a: seq<RStep>, b: seq<RStep>)
    ensures var first := ReactAll(s, a);
            var then' := ReactAll(first.state, b);
            ReactAll(s, a + b) == Reaction(then'.state, first.events + then'.events)
  {
    hide React;
    if b == [] {
      assert a + b == a;
    } else {
      assert (a + b)[..|a + b| - 1] == a + b[..|b| - 1];
      ReactConcat(s, a, b[..|b| - 1]);
    }
  }

  // ----- what holds of every chunk sequence whatsoever -----

  lemma {:induction false} NoneCompleted(s: State, entries: seq<OutEntry>)
    ensures CompletedCount(DoneAll(s, entries)) == 0
  {
    if entries != [] {
      var n := |entries| - 1;
      NoneCompleted(s, entries[..n]);
      NoneDone(s, entries[n]);
      CompletedCountConcat(DoneAll(s, entries[..n]), DoneOf(s, entries[n]));
    }
  }

  lemma NoneDone(s: State, e: OutEntry)
    ensures CompletedCount(DoneOf(s, e)) == 0
  {
    NotCompleted(DoneOf(s, e));
  }

  /** `response.completed` is out exactly when the session says so; a withheld one is not out yet. */
  ghost predicate Sane(s: State) {
    s.pending.Some? ==> !s.completedSent
  }

  /** Neither the first nor the last event of a response. */
  predicate Inner(e: Event) {
    !e.Created? && !e.Completed?
  }

  /** `r` emits no first or terminal event and leaves the once-only flags of `s` alone. */
  ghost predicate Quiet(s: State, r: Reaction) {
    && (forall i | 0 <= i < |r.events| :: Inner(r.events[i]))
    && r.state.completedSent == s.completedSent && r.state.createdSent == s.createdSent && r.state.pending == s.pending
    && r.state.tokens == s.tokens
  }

  lemma TextIsQuiet(s: State, text: string)
    ensures Quiet(s, SayText(s, text)) && Quiet(s, CloseText(s))
  {
    hide Grow, AppendItemText, ItemText;
  }

  lemma FragmentIsQuiet(s: State, f: Fragment)
    ensures Quiet(s, CallFragment(s, f))
  {
    OpenIsQuiet(s, f, GivenId(s, f));
    ArgsIsQuiet(s, f, CallIdOf(s, f));
    ArgsIsQuiet(OpenCall(s, f, GivenId(s, f)).state, f, GivenId(s, f));
    hide OpenCall, AddCallArgs, GivenId, CallIdOf;
  }

  lemma OpenIsQuiet(s: State, f: Fragment, callId: string)
    ensures Quiet(s, OpenCall(s, f, callId))
  {
  }

  lemma ArgsIsQuiet(s: State, f: Fragment, callId: string)
    ensures Quiet(s, AddCallArgs(s, f, callId))
  {
    hide Grow;
  }

  lemma ReasonIsQuiet(s: State, text: string)
    ensures Quiet(s, SayReasoning(s, text))
  {
  }

  function UsageOf(t: Tokens, step: RStep): Tokens {
    if step.UsageStep? then Accumulate(t, step.usage) else t
  }

  lemma ActIsPlain(s: State, step: RStep)
    requires !step.NoChoiceStep?
    ensures var r := Act(s, step);
            && (forall i | 0 <= i < |r.events| :: Inner(r.events[i]))
            && r.state.completedSent == s.completedSent && r.state.createdSent == s.createdSent
            && (Sane(s) ==> Sane(r.state)) && (!step.FinishStep? ==> r.state.pending == s.pending)
            && r.state.tokens == UsageOf(s.tokens, step)
  {
    hide SayText, CloseText, CallFragment, SayReasoning, DoneAll, FinalResponse, Accumulate;
    match step
    case TextStep(t) => TextIsQuiet(s, t);
    case SwitchStep => TextIsQuiet(s, "");
    case FragmentStep(f) => FragmentIsQuiet(s, f);
    case ReasonStep(t) => ReasonIsQuiet(s, t);
    case FinishStep(f) => DoneAllNone(s, s.entries);
    case _ =>
  }

  lemma ReactCounts(s: State, step: RStep)
    requires Sane(s)
    ensures var r := React(s, step);
            && Sane(r.state)
            && CompletedCount(r.events) + (if s.completedSent then 1 else 0) == (if r.state.completedSent then 1 else 0)
            && (forall i | 0 <= i < |r.events| && r.events[i].Completed? ::
                  r.events[i].response.tokens == r.state.tokens)
  {
    var r := React(s, step);
    if step.NoChoiceStep? {
      if r.events != [] {
        assert r.events[..0] == [];
        assert CompletedCount(r.events) == 1;
      }
    } else {
      ActIsPlain(s, step);
      hide Act;
      NotCompleted(r.events);
    }
  }

  lemma {:induction false} DoneAllNone(s: State, entries: seq<OutEntry>)
    ensures forall i | 0 <= i < |DoneAll(s, entries)| :: Inner(DoneAll(s, entries)[i])
  {
    hide DoneOf;
    if entries != [] {
      DoneAllNone(s, entries[..|entries| - 1]);
      DoneOfInner(s, entries[|entries| - 1]);
    }
  }

  lemma DoneOfInner(s: State, e: OutEntry)
    ensures forall i | 0 <= i < |DoneOf(s, e)| :: Inner(DoneOf(s, e)[i])
  {
    hide BuildItem, ItemText;
  }

  lemma {:induction false} ReactAllCounts(steps: seq<RStep>)
    ensures var r := ReactAll(INIT, steps);
            Sane(r.state) && CompletedCount(r.events) == if r.state.completedSent then 1 else 0
  {
    if steps != [] {
      hide React;
      var before := ReactAll(INIT, steps[..|steps| - 1]);
      ReactAllCounts(steps[..|steps| - 1]);
      ReactCounts(before.state, steps[|steps| - 1]);
      CompletedCountConcat(before.events, React(before.state, steps[|steps| - 1]).events);
    }
  }

  /** Whatever arrives, and wherever it ends: exactly one response.completed, unless nothing arrives at all. */
  lemma ExactlyOneCompleted(steps: seq<RStep>)
    ensures CompletedCount(Converted(steps)) == if steps == [] then 0 else 1
  {
    ReactAllCounts(steps);
    var r := ReactAll(INIT, steps);
    var last := Finalize(r.state);
    NoneCompleted(r.state, r.state.entries);
    CompletedCountConcat(r.events, last.events);
    hide ReactAll, DoneAll;
    if !r.state.completedSent {
      var end := last.events[|last.events| - 1];
      assert [end][..0] == [];
      assert CompletedCount([end]) == 1;
      CompletedCountConcat(DoneAll(r.state, r.state.entries), [end]);
      CompletedCountConcat([], [end]);
    }
  }

  // ----- the items of a stream -----

  function Longer(item: OutItem, t: string): OutItem {
    match item
    case Message(u) => Message(u + t)
    case FunctionCall(id, name, args) => FunctionCall(id, name, args + t)
    case Reasoning(u) => Reasoning(u + t)
  }

  function Grown(items: seq<OutItem>, out: int, t: string): seq<OutItem> {
    if 0 <= out < |items| then items[out := Longer(items[out], t)] else items
  }

  /** The item the arguments of a fragment are sent to: that of its call, or failing that the one at its index. */
  function Target(s: State, f: Fragment, callId: string): int {
    if callId in s.calls then s.calls[callId].out else Or(f.index, -1)
  }

  /** The items of a stream, folded from its steps; the session says which step goes where. */
  function Gather(items: seq<OutItem>, s: State, step: RStep): seq<OutItem> {
    match step
    case TextStep(t) => if s.activeText.Some? then Grown(items, s.activeText.value, t) else items + [Message(t)]
    case ReasonStep(t) =>
      if s.reasoningStarted then Grown(items, ReasoningAt(s.entries), t) else items + [Reasoning(t)]
    case FragmentStep(f) =>
      if f.name != "" then items + [FunctionCall(GivenId(s, f), f.name, Or(f.args, ""))]
      else if Or(f.args, "") == "" then items
      else Grown(items, Target(s, f, CallIdOf(s, f)), f.args.value)
    case _ => items
  }

  function GatherAll(steps: seq<RStep>): seq<OutItem> {
    if steps == [] then []
    else
      var init := steps[..|steps| - 1];
      Gather(GatherAll(init), ReactAll(INIT, init).state, steps[|steps| - 1])
  }

  /** Arguments of an unknown call: they are sent to the item at their index, and no call keeps them. */
  predicate Strays(s: State, step: RStep) {
    && step.FragmentStep? && step.fragment.name == "" && Or(step.fragment.args, "") != ""
    && CallIdOf(s, step.fragment) !in s.calls
  }

  function Keep(kept: seq<OutItem>, s: State, step: RStep): seq<OutItem> {
    if Strays(s, step) then kept else Gather(kept, s, step)
  }

  /** The items of a stream without such arguments. */
  function KeptAll(steps: seq<RStep>): seq<OutItem> {
    if steps == [] then []
    else
      var init := steps[..|steps| - 1];
      Keep(KeptAll(init), ReactAll(INIT, init).state, steps[|steps| - 1])
  }

  function HeadOf(item: OutItem): ItemHead {
    match item
    case Message(_) => MessageHead
    case FunctionCall(id, name, _) => CallHead(id, name)
    case Reasoning(_) => ReasoningHead
  }

  /** The same items as they were added. */
  ghost predicate Alike(a: seq<OutItem>, b: seq<OutItem>) {
    |a| == |b| && forall j | 0 <= j < |a| :: HeadOf(a[j]) == HeadOf(b[j])
  }

  // ----- the session mirrors the assembling client -----

  function EntryOf(item: OutItem, j: nat): OutEntry {
    match item
    case Message(_) => MessageEntry(j)
    case FunctionCall(id, _, _) => CallEntry(j, id)
    case Reasoning(_) => ReasoningEntry(j)
  }

  /** What the session keeps of item `j`. */
  ghost predicate EntryFits(s: State, items: seq<OutItem>, j: nat)
    requires j < |items| == |s.entries|
  {
    && s.entries[j] == EntryOf(items[j], j)
    && match items[j]
       case Message(t) => j in s.itemTexts && s.itemTexts[j] == t
       case FunctionCall(id, _, _) => id in s.calls
       case Reasoning(t) => s.reasoningStarted && s.reasoning == Take(t)
  }

  ghost predicate Mirrors(s: State, items: seq<OutItem>) {
    && |items| == |s.entries| == s.outputIndex
    && (forall j | 0 <= j < |items| :: EntryFits(s, items, j))
    && (s.activeText.Some? ==> s.activeText.value < |items| && items[s.activeText.value].Message?)
    && s.partSent == s.activeText.Some?
    && (forall c | c in s.calls :: IsCall(items, s.calls[c].out, c))
    && (forall j, k | 0 <= j < |items| && 0 <= k < |items| && items[j].Reasoning? && items[k].Reasoning? :: j == k)
    && (if s.reasoningStarted then exists j :: 0 <= j < |items| && items[j].Reasoning? else s.reasoning == "")
  }

  predicate IsCall(items: seq<OutItem>, out: nat, id: string) {
    out < |items| && items[out].FunctionCall? && items[out].callId == id
  }

  /** What the client has assembled: every message but the active one is done, all else is open. */
  function SlotsOf(active: Option<nat>, items: seq<OutItem>): (r: seq<Slot>)
    ensures |r| == |items|
    ensures forall j | 0 <= j < |r| ::
              r[j] == if items[j].Message? && active != Some(j) then DoneSlot(items[j]) else OpenSlot(items[j])
  {
    seq(|items|, j requires 0 <= j < |items| =>
      if items[j].Message? && active != Some(j) then DoneSlot(items[j]) else OpenSlot(items[j]))
  }

  function ClientOf(s: State, items: seq<OutItem>): Phase {
    Running(SlotsOf(s.activeText, items))
  }

  /** The client takes the events of `r` as the session means them. */
  ghost predicate Onto(s: State, items: seq<OutItem>, r: Reaction, items': seq<OutItem>) {
    Mirrors(r.state, items') && WatchAll(ClientOf(s, items), r.events) == ClientOf(r.state, items')
  }

  /** A message or reasoning item is added together with its part. */
  lemma NewItemWatched(slots: seq<Slot>, head: ItemHead)
    requires !head.CallHead?
    ensures WatchAll(Running(slots), [ItemAdded(|slots|, head), PartAdded(|slots|)]) ==
            Running(slots + [OpenSlot(EmptyItem(head))])
  {
    var bare := slots + [Slot(EmptyItem(head), Bare)];
    WatchTwo(Running(slots), ItemAdded(|slots|, head), PartAdded(|slots|));
    assert bare[|slots| := Slot(EmptyItem(head), Filling)] == slots + [OpenSlot(EmptyItem(head))];
    hide WatchAll;
  }

  lemma Deltas(slots: seq<Slot>, out: nat, t: string)
    requires out < |slots| && slots[out] == OpenSlot(slots[out].item)
    ensures var item := slots[out].item;
            var e := match item
              case Message(_) => TextDelta(out, t)
              case FunctionCall(_, _, _) => ArgsDelta(Some(out), t)
              case Reasoning(_) => ReasoningDelta(out, t);
            WatchAll(Running(slots), [e]) == Running(slots[out := OpenSlot(Longer(item, t))])
  {
    var item := slots[out].item;
    var e := match item
      case Message(_) => TextDelta(out, t)
      case FunctionCall(_, _, _) => ArgsDelta(Some(out), t)
      case Reasoning(_) => ReasoningDelta(out, t);
    WatchOne(Running(slots), e);
    hide WatchAll;
  }

  lemma SlotsPush(active: Option<nat>, items: seq<OutItem>, x: OutItem)
    requires active.Some? ==> active.value < |items|
    ensures SlotsOf(if x.Message? then Some(|items|) else active, items + [x]) ==
            SlotsOf(if x.Message? then None else active, items) + [OpenSlot(x)]
  {
  }

  lemma SlotsGrown(active: Option<nat>, items: seq<OutItem>, out: nat, t: string)
    requires out < |items| && (items[out].Message? ==> active == Some(out))
    ensures SlotsOf(active, Grown(items, out, t)) == SlotsOf(active, items)[out := OpenSlot(Longer(items[out], t))]
    ensures SlotsOf(active, items)[out] == OpenSlot(items[out])
  {
  }

  /** A text is added to the active message, or to a new one. */
  lemma TextMirrors(s: State, items: seq<OutItem>, text: string)
    requires Mirrors(s, items)
    ensures Onto(s, items, SayText(s, text), Gather(items, s, TextStep(text)))
  {
    hide *;
    if s.activeText.Some? {
      MoreText(s, items, text);
    } else {
      NewText(s, items, text);
    }
  }

  lemma MoreText(s: State, items: seq<OutItem>, text: string)
    requires Mirrors(s, items) && s.activeText.Some?
    ensures Onto(s, items, SayText(s, text), Gather(items, s, TextStep(text)))
  {
    hide WatchAll, Grow, EntryFits;
    var out, items' := s.activeText.value, Grown(items, s.activeText.value, text);
    var s' := SayText(s, text).state;
    forall j | 0 <= j < |items'| ensures EntryFits(s', items', j) {
      GrownFits(s, items, text, j);
    }
    SlotsGrown(s.activeText, items, out, text);
    Deltas(SlotsOf(s.activeText, items), out, text);
    assert SayText(s, text).events == [TextDelta(out, text)];
    if s.reasoningStarted {
      var j :| 0 <= j < |items| && items[j].Reasoning?;
      assert items'[j].Reasoning?;
    }
  }

  lemma GrownFits(s: State, items: seq<OutItem>, text: string, j: nat)
    requires Mirrors(s, items) && s.activeText.Some? && j < |items|
    ensures |WithText(s, text).entries| == |items| == |Grown(items, s.activeText.value, text)|
    ensures EntryFits(WithText(s, text), Grown(items, s.activeText.value, text), j)
  {
    hide Grow;
    assert EntryFits(s, items, j);
    assert EntryFits(s, items, s.activeText.value);
    var item := items[s.activeText.value];
    if text == "" { assert item.text + text == item.text; }
  }

  lemma NewText(s: State, items: seq<OutItem>, text: string)
    requires Mirrors(s, items) && s.activeText.None?
    ensures Onto(s, items, SayText(s, text), Gather(items, s, TextStep(text)))
  {
    hide WatchAll, Watch, EntryFits, WithText, AddText;
    NewTextMirrors(s, items, text);
    NewTextSaid(s, text);
    var out, slots, more := |items|, SlotsOf(None, items), SlotsOf(Some(|items|), items + [Message("")]);
    SlotsPush(None, items, Message(""));
    SlotsGrown(Some(out), items + [Message("")], out, text);
    NewItemWatched(slots, MessageHead);
    Deltas(more, out, text);
    WatchConcat(Running(slots), [ItemAdded(out, MessageHead), PartAdded(out)], [TextDelta(out, text)]);
    assert "" + text == text;
    assert Grown(items + [Message("")], out, text) == items + [Message(text)];
  }

  lemma NewTextMirrors(s: State, items: seq<OutItem>, text: string)
    requires Mirrors(s, items) && s.activeText.None?
    ensures s.outputIndex == |items| && !s.partSent
    ensures AddText(s).state.activeText.Some?
    ensures var s' := WithText(AddText(s).state, text);
            Mirrors(s', items + [Message(text)]) && s'.activeText == Some(|items|)
  {
    hide Grow;
    var s', items' := WithText(AddText(s).state, text), items + [Message(text)];
    assert "" + text == text;
    forall j | 0 <= j < |items'| ensures EntryFits(s', items', j) {
      if j < |items| { assert EntryFits(s, items, j); }
    }
    KeepsReasoning(s, items, items');
  }

  /** A stream that has reasoning still has it when items are added. */
  lemma KeepsReasoning(s: State, items: seq<OutItem>, items': seq<OutItem>)
    requires Mirrors(s, items) && items <= items'
    ensures s.reasoningStarted ==> exists j :: 0 <= j < |items'| && items'[j].Reasoning?
    ensures !s.reasoningStarted ==> forall j | 0 <= j < |items| :: !items[j].Reasoning?
  {
    hide Take;
    if s.reasoningStarted {
      var j :| 0 <= j < |items| && items[j].Reasoning?;
      assert items'[j].Reasoning?;
    }
    forall j | 0 <= j < |items| && !s.reasoningStarted ensures !items[j].Reasoning? {
      assert EntryFits(s, items, j);
    }
  }

  lemma NewTextSaid(s: State, text: string)
    requires s.activeText.None? && !s.partSent
    ensures AddText(s).state.activeText.Some?
    ensures var out := s.outputIndex;
            SayText(s, text) ==
            Reaction(WithText(AddText(s).state, text),
                     [ItemAdded(out, MessageHead), PartAdded(out)] + [TextDelta(out, text)])
  {
    hide WithText;
  }

  lemma CloseMirrors(s: State, items: seq<OutItem>)
    requires Mirrors(s, items)
    ensures Onto(s, items, CloseText(s), items)
  {
    hide WatchAll, MessageDone;
    WatchNone(ClientOf(s, items));
    if s.activeText.Some? {
      var out, slots := s.activeText.value, SlotsOf(s.activeText, items);
      assert EntryFits(s, items, out);
      MessageCloses(slots, out);
      assert slots[out := DoneSlot(items[out])] == SlotsOf(None, items);
      var s' := CloseText(s).state;
      forall j | 0 <= j < |items| ensures EntryFits(s', items, j) {
        assert EntryFits(s, items, j);
      }
    }
  }

  lemma {:induction false} ReasoningAtFirst(entries: seq<OutEntry>, j: nat)
    requires j < |entries| && entries[j].ReasoningEntry?
    requires forall k | 0 <= k < |entries| && entries[k].ReasoningEntry? :: k == j
    ensures ReasoningAt(entries) == entries[j].out
  {
    if j != 0 {
      assert forall k | 0 <= k < |entries[1..]| :: entries[1..][k] == entries[k + 1];
      ReasoningAtFirst(entries[1..], j - 1);
    }
  }

  /** The only reasoning item is the one that is found. */
  lemma ReasoningFound(s: State, items: seq<OutItem>, j: nat)
    requires Mirrors(s, items) && j < |items| && items[j].Reasoning?
    ensures ReasoningAt(s.entries) == j
  {
    hide Take;
    assert EntryFits(s, items, j);
    forall k | 0 <= k < |s.entries| && s.entries[k].ReasoningEntry? ensures k == j {
      assert EntryFits(s, items, k);
    }
    ReasoningAtFirst(s.entries, j);
  }

  lemma ReasonMirrors(s: State, items: seq<OutItem>, text: string)
    requires Mirrors(s, items)
    ensures Onto(s, items, SayReasoning(s, text), Gather(items, s, ReasonStep(text)))
  {
    if s.reasoningStarted {
      var j :| 0 <= j < |items| && items[j].Reasoning?;
      hide *;
      MoreReasoning(s, items, text, j);
    } else {
      NewReasoning(s, items, text);
    }
    hide *;
  }

  lemma MoreReasoning(s: State, items: seq<OutItem>, text: string, j: nat)
    requires Mirrors(s, items) && s.reasoningStarted && j < |items| && items[j].Reasoning?
    ensures Onto(s, items, SayReasoning(s, text), Gather(items, s, ReasonStep(text)))
  {
    hide WatchAll, Take, Grow, ReasoningAt;
    ReasoningFound(s, items, j);
    assert EntryFits(s, items, j);
    GrowTakes(items[j].text, text);
    var s', items' := SayReasoning(s, text).state, Grown(items, j, text);
    forall k | 0 <= k < |items'| ensures EntryFits(s', items', k) {
      assert EntryFits(s, items, k);
    }
    assert items'[j].Reasoning?;
    SlotsGrown(s.activeText, items, j, text);
    Deltas(SlotsOf(s.activeText, items), j, text);
    assert SayReasoning(s, text).events == [ReasoningDelta(j, text)];
  }

  lemma NewReasoning(s: State, items: seq<OutItem>, text: string)
    requires Mirrors(s, items) && !s.reasoningStarted
    ensures Onto(s, items, SayReasoning(s, text), Gather(items, s, ReasonStep(text)))
  {
    hide WatchAll, Watch, EntryFits, Grow, ReasoningAt;
    NewReasoningMirrors(s, items, text);
    var out, slots, more := |items|, SlotsOf(s.activeText, items), SlotsOf(s.activeText, items + [Reasoning("")]);
    SlotsPush(s.activeText, items, Reasoning(""));
    SlotsGrown(s.activeText, items + [Reasoning("")], out, text);
    NewItemWatched(slots, ReasoningHead);
    Deltas(more, out, text);
    WatchConcat(Running(slots), [ItemAdded(out, ReasoningHead), PartAdded(out)], [ReasoningDelta(out, text)]);
    assert SayReasoning(s, text).events ==
           [ItemAdded(out, ReasoningHead), PartAdded(out)] + [ReasoningDelta(out, text)];
    assert "" + text == text;
    assert Grown(items + [Reasoning("")], out, text) == items + [Reasoning(text)];
  }

  lemma NewReasoningMirrors(s: State, items: seq<OutItem>, text: string)
    requires Mirrors(s, items) && !s.reasoningStarted
    ensures s.outputIndex == |items| && ReasoningAt(s.entries + [ReasoningEntry(|items|)]) == |items|
    ensures Mirrors(SayReasoning(s, text).state, items + [Reasoning(text)])
  {
    var s', items' := SayReasoning(s, text).state, items + [Reasoning(text)];
    TakeNothing();
    GrowTakes("", text);
    assert "" + text == text;
    hide Take, Grow;
    KeepsReasoning(s, items, items);
    forall j | 0 <= j < |items'| ensures EntryFits(s', items', j) {
      if j < |items| { assert EntryFits(s, items, j); }
    }
    assert items'[|items|].Reasoning?;
    hide ReasoningAt;
    ReasoningFound(s', items', |items|);
  }

  // ----- fragments -----

  /** Arguments come with an index, and with the name of a new call, for a known call, or at least with the index
      of an item that is one. */
  predicate Aimed(s: State, f: Fragment) {
    || Or(f.args, "") == ""
    || (f.index.Some? && (f.name != "" || CallIdOf(s, f) in s.calls
                          || (0 <= f.index.value < |s.entries| && s.entries[f.index.value].CallEntry?)))
  }

  lemma OpenCallMirrors(s: State, items: seq<OutItem>, f: Fragment, id: string)
    requires Mirrors(s, items)
    ensures var r, items' := OpenCall(s, f, id), items + [FunctionCall(id, f.name, "")];
            && Onto(s, items, r, items') && id in r.state.calls && r.state.calls[id].out == |items|
            && r.events == [ItemAdded(|items|, CallHead(id, f.name))] && r.state.activeText == s.activeText
  {
    var s', items' := OpenCall(s, f, id).state, items + [FunctionCall(id, f.name, "")];
    forall j | 0 <= j < |items'| ensures EntryFits(s', items', j) {
      if j < |items| { assert EntryFits(s, items, j); }
    }
    KeepsReasoning(s, items, items');
    SlotsPush(s.activeText, items, FunctionCall(id, f.name, ""));
    WatchOne(ClientOf(s, items), ItemAdded(|items|, CallHead(id, f.name)));
    hide WatchAll;
  }

  /** Arguments reach the client exactly if they come with an index and go to a call. */
  lemma ArgsMirrors(s: State, items: seq<OutItem>, f: Fragment, id: string)
    requires Mirrors(s, items) && Or(f.args, "") != ""
    ensures var r, out := AddCallArgs(s, f, id), Target(s, f, id);
            if f.index.Some? && 0 <= out < |items| && items[out].FunctionCall?
            then Onto(s, items, r, Grown(items, out, f.args.value))
            else WatchAll(ClientOf(s, items), r.events) == Bad
  {
    hide *;
    var out := Target(s, f, id);
    if f.index.Some? && 0 <= out < |items| && items[out].FunctionCall? {
      ArgsArrive(s, items, f, id);
    } else {
      ArgsStray(s, items, f, id);
    }
  }

  lemma ArgsStray(s: State, items: seq<OutItem>, f: Fragment, id: string)
    requires Mirrors(s, items) && Or(f.args, "") != ""
    requires !(f.index.Some? && 0 <= Target(s, f, id) < |items| && items[Target(s, f, id)].FunctionCall?)
    ensures WatchAll(ClientOf(s, items), AddCallArgs(s, f, id).events) == Bad
  {
    hide WatchAll, Grow, EntryFits;
    var delta := AddCallArgs(s, f, id).events[0];
    assert AddCallArgs(s, f, id).events == [delta];
    WatchOne(ClientOf(s, items), delta);
  }

  lemma ArgsArrive(s: State, items: seq<OutItem>, f: Fragment, id: string)
    requires Mirrors(s, items) && Or(f.args, "") != "" && f.index.Some?
    requires 0 <= Target(s, f, id) < |items| && items[Target(s, f, id)].FunctionCall?
    ensures Onto(s, items, AddCallArgs(s, f, id), Grown(items, Target(s, f, id), f.args.value))
  {
    hide WatchAll, Mirrors, Grow;
    ArgsKeepMirrors(s, items, f, id);
    var out, args := Target(s, f, id), f.args.value;
    SlotsGrown(s.activeText, items, out, args);
    Deltas(SlotsOf(s.activeText, items), out, args);
    hide SlotsOf, Grown;
  }

  lemma ArgsKeepMirrors(s: State, items: seq<OutItem>, f: Fragment, id: string)
    requires Mirrors(s, items) && Or(f.args, "") != "" && f.index.Some?
    requires 0 <= Target(s, f, id) < |items| && items[Target(s, f, id)].FunctionCall?
    ensures Mirrors(AddCallArgs(s, f, id).state, Grown(items, Target(s, f, id), f.args.value))
  {
    hide Mirrors, Grow;
    CallMirrors(s, items, AddCallArgs(s, f, id).state, Target(s, f, id), f.args.value);
  }

  /** More arguments on record, and more of a call assembled. */
  lemma CallMirrors(s: State, items: seq<OutItem>, s': State, out: nat, t: string)
    requires Mirrors(s, items) && out < |items| && items[out].FunctionCall?
    requires s' == s.(calls := s'.calls) && s'.calls.Keys == s.calls.Keys
    requires forall c | c in s.calls :: s'.calls[c].out == s.calls[c].out
    ensures Mirrors(s', Grown(items, out, t))
  {
    hide Take;
    var items' := Grown(items, out, t);
    forall j | 0 <= j < |items'| ensures EntryFits(s', items', j) {
      assert EntryFits(s, items, j);
    }
    hide EntryFits;
    if s.reasoningStarted {
      var j :| 0 <= j < |items| && items[j].Reasoning?;
      assert items'[j].Reasoning?;
    }
  }

  lemma FragmentMirrors(s: State, items: seq<OutItem>, f: Fragment)
    requires Mirrors(s, items)
    ensures if Aimed(s, f) then Onto(s, items, CallFragment(s, f), Gather(items, s, FragmentStep(f)))
            else WatchAll(ClientOf(s, items), CallFragment(s, f).events) == Bad
  {
    hide *;
    if f.name == "" {
      ContinuedMirrors(s, items, f);
    } else {
      OpenedMirrors(s, items, f);
    }
  }

  lemma ContinuedMirrors(s: State, items: seq<OutItem>, f: Fragment)
    requires Mirrors(s, items) && f.name == ""
    ensures if Aimed(s, f) then Onto(s, items, CallFragment(s, f), Gather(items, s, FragmentStep(f)))
            else WatchAll(ClientOf(s, items), CallFragment(s, f).events) == Bad
  {
    hide WatchAll, CallIdOf, Onto, Grown;
    if Or(f.args, "") == "" {
      OntoItself(s, items);
    } else {
      ArgsMirrors(s, items, f, CallIdOf(s, f));
      hide AddCallArgs;
      CallsAre(s, items, f);
      hide Mirrors;
    }
  }

  lemma OntoItself(s: State, items: seq<OutItem>)
    requires Mirrors(s, items)
    ensures Onto(s, items, Reaction(s, []), items)
  {
    hide Mirrors;
  }

  lemma CallsAre(s: State, items: seq<OutItem>, f: Fragment)
    requires Mirrors(s, items) && f.name == "" && Or(f.args, "") != ""
    ensures var out := Target(s, f, CallIdOf(s, f));
            Aimed(s, f) <==> f.index.Some? && 0 <= out < |items| && items[out].FunctionCall?
  {
    hide CallIdOf, Take;
    if f.index.Some? && 0 <= f.index.value < |items| { assert EntryFits(s, items, f.index.value); }
  }

  lemma OpenedMirrors(s: State, items: seq<OutItem>, f: Fragment)
    requires Mirrors(s, items) && f.name != ""
    ensures if Aimed(s, f) then Onto(s, items, CallFragment(s, f), Gather(items, s, FragmentStep(f)))
            else WatchAll(ClientOf(s, items), CallFragment(s, f).events) == Bad
  {
    hide WatchAll, GivenId, CallIdOf, Mirrors, OpenCall;
    var id, args := GivenId(s, f), Or(f.args, "");
    OpenCallMirrors(s, items, f, id);
    var open, items' := OpenCall(s, f, id), items + [FunctionCall(id, f.name, "")];
    if args == "" {
      assert open.events + [] == open.events;
    } else {
      ArgsMirrors(open.state, items', f, id);
      assert "" + args == args;
      assert Grown(items', |items|, args) == items + [FunctionCall(id, f.name, args)];
      hide AddCallArgs;
      WatchConcat(ClientOf(s, items), open.events, AddCallArgs(open.state, f, id).events);
    }
  }

  // ----- live streams -----

  ghost predicate LiveState(s: State, items: seq<OutItem>) {
    Mirrors(s, items) && (!s.createdSent ==> items == [] && s.activeText.None?) && s.pending.None? && !s.completedSent
  }

  function PhaseAt(s: State, items: seq<OutItem>): Phase {
    if s.createdSent then ClientOf(s, items) else Fresh
  }

  predicate AimedStep(s: State, step: RStep) {
    step.FragmentStep? ==> Aimed(s, step.fragment)
  }

  lemma ActMirrors(s: State, items: seq<OutItem>, step: RStep)
    requires LiveState(s, items) && !step.FinishStep?
    ensures if AimedStep(s, step) then Onto(s, items, Act(s, step), Gather(items, s, step))
            else WatchAll(ClientOf(s, items), Act(s, step).events) == Bad
  {
    hide SayText, CloseText, CallFragment, SayReasoning, Accumulate, WatchAll, Onto, Aimed, Mirrors, Grown, ReasoningAt;
    match step
    case TextStep(t) => TextMirrors(s, items, t);
    case SwitchStep => CloseMirrors(s, items);
    case FragmentStep(f) => FragmentMirrors(s, items, f);
    case ReasonStep(t) => ReasonMirrors(s, items, t);
    case UsageStep(u) => TokensMirror(s, items, Accumulate(s.tokens, u));
    case _ => OntoItself(s, items);
  }

  lemma TokensMirror(s: State, items: seq<OutItem>, tokens: Tokens)
    requires Mirrors(s, items)
    ensures Onto(s, items, Reaction(s.(tokens := tokens), []), items) && Mirrors(s.(createdSent := true), items)
  {
    hide Take;
    forall j | 0 <= j < |items|
      ensures EntryFits(s.(tokens := tokens), items, j) && EntryFits(s.(createdSent := true), items, j)
    {
      assert EntryFits(s, items, j);
    }
  }

  lemma AnnouncedWatched(r: Reaction)
    requires !r.state.createdSent
    ensures WatchAll(Fresh, Announce(r).events) == WatchAll(Running([]), r.events)
  {
    hide WatchAll;
    WatchTwo(Fresh, Created, InProgress);
    WatchConcat(Fresh, [Created, InProgress], r.events);
  }

  lemma NothingSlotted()
    ensures SlotsOf(None, []) == []
  {
  }

  /** What an announced reaction comes to. */
  lemma AnnouncedMirrors(s: State, items: seq<OutItem>, r: Reaction, items': seq<OutItem>)
    requires LiveState(s, items) && r.state.createdSent == s.createdSent
    requires r.state.pending.None? && !r.state.completedSent
    ensures Onto(s, items, r, items') ==>
              && LiveState(Announce(r).state, items')
              && WatchAll(PhaseAt(s, items), Announce(r).events) == PhaseAt(Announce(r).state, items')
    ensures WatchAll(ClientOf(s, items), r.events) == Bad ==> WatchAll(PhaseAt(s, items), Announce(r).events) == Bad
  {
    hide WatchAll, Mirrors;
    NothingSlotted();
    if !s.createdSent { AnnouncedWatched(r); }
    if Mirrors(r.state, items') { TokensMirror(r.state, items', r.state.tokens); }
  }

  /** Every live step is taken by the strict client as the session means it, unless arguments go astray. */
  lemma ReactMirrors(s: State, items: seq<OutItem>, step: RStep)
    requires LiveState(s, items) && !step.FinishStep?
    ensures var r, items' := React(s, step), Gather(items, s, step);
            if AimedStep(s, step)
            then LiveState(r.state, items') && WatchAll(PhaseAt(s, items), r.events) == PhaseAt(r.state, items')
            else WatchAll(PhaseAt(s, items), r.events) == Bad
  {
    ActMirrors(s, items, step);
    var r, items' := Act(s, step), Gather(items, s, step);
    if !step.NoChoiceStep? { ActIsPlain(s, step); }
    ActFlags(s, items, step);
    hide Act, Mirrors, Gather, AimedStep;
    AnnouncedMirrors(s, items, r, items');
    if r.events == [] { SilentMirrors(s, items, r, items', step); }
    hide WatchAll;
  }

  lemma ActFlags(s: State, items: seq<OutItem>, step: RStep)
    requires LiveState(s, items) && !step.FinishStep?
    ensures Act(s, step).state.pending.None? && !Act(s, step).state.completedSent
    ensures Act(s, step).state.createdSent == s.createdSent
    ensures step.NoChoiceStep? ==> Act(s, step).events == []
    ensures Act(s, step).events == [] ==>
              Act(s, step).state.activeText == s.activeText && Act(s, step).state.entries == s.entries
  {
    if !step.NoChoiceStep? { ActIsPlain(s, step); }
    hide Mirrors, Grow, ReasoningAt, AppendItemText, ItemText, CallIdOf, GivenId, Accumulate;
    match step
    case FragmentStep(f) => FragmentSpeaks(s, f);
    case _ =>
  }

  lemma SilentMirrors(s: State, items: seq<OutItem>, r: Reaction, items': seq<OutItem>, step: RStep)
    requires LiveState(s, items) && r.events == [] && r.state.activeText == s.activeText
    requires r.state.entries == s.entries && r.state.createdSent == s.createdSent
    requires r.state.pending.None? && !r.state.completedSent
    ensures Onto(s, items, r, items') ==>
              LiveState(r.state, items') && WatchAll(PhaseAt(s, items), []) == PhaseAt(r.state, items')
    ensures WatchAll(ClientOf(s, items), []) != Bad
  {
    hide EntryFits;
  }

  ghost predicate Live(steps: seq<RStep>) {
    forall i | 0 <= i < |steps| :: !steps[i].FinishStep?
  }

  /** No arguments go astray. */
  ghost predicate AllAimed(steps: seq<RStep>) {
    forall i | 0 <= i < |steps| :: AimedStep(ReactAll(INIT, steps[..i]).state, steps[i])
  }

  lemma UnsnocAimed(steps: seq<RStep>)
    requires steps != []
    ensures AllAimed(steps) <==>
            AllAimed(steps[..|steps| - 1]) && AimedStep(ReactAll(INIT, steps[..|steps| - 1]).state, steps[|steps| - 1])
  {
    hide ReactAll, AimedStep;
    var n := |steps| - 1;
    assert forall i | 0 <= i < n :: steps[..n][..i] == steps[..i] && steps[..n][i] == steps[i];
  }

  /** At every point of a live stream the client has taken every event and assembled the items of the stream, which
      the session mirrors; or arguments went astray and it has refused them. */
  lemma {:induction false} LiveMirrors(steps: seq<RStep>)
    requires Live(steps)
    ensures var r, items := ReactAll(INIT, steps), GatherAll(steps);
            if AllAimed(steps) then LiveState(r.state, items) && WatchAll(Fresh, r.events) == PhaseAt(r.state, items)
            else WatchAll(Fresh, r.events) == Bad
  {
    if steps != [] {
      hide React, WatchAll, LiveState, AimedStep, Live, AllAimed, PhaseAt, Gather;
      var init, last := steps[..|steps| - 1], steps[|steps| - 1];
      UnsnocAimed(steps);
      UnsnocLive(steps);
      LiveMirrors(init);
      var before := ReactAll(INIT, init);
      var r := React(before.state, last);
      if AllAimed(init) { ReactMirrors(before.state, GatherAll(init), last); }
      WatchConcat(Fresh, before.events, r.events);
      BadStays(r.events);
    }
  }

  // ----- the final object -----

  /** The session has a call on record with the name and the arguments its item has. */
  predicate RecordFits(s: State, item: OutItem) {
    item.FunctionCall? ==>
      && item.callId in s.calls && s.calls[item.callId].name == item.name
      && s.calls[item.callId].args == Take(item.args)
  }

  ghost predicate Recorded(s: State, items: seq<OutItem>) {
    forall j | 0 <= j < |items| :: RecordFits(s, items[j])
  }

  function ClosedTo(active: Option<nat>, items: seq<OutItem>, n: nat): (r: seq<Slot>)
    ensures |r| == |items|
    ensures forall j | 0 <= j < |r| :: r[j] == if j < n then DoneSlot(items[j]) else SlotsOf(active, items)[j]
  {
    seq(|items|, j requires 0 <= j < |items| => if j < n then DoneSlot(items[j]) else SlotsOf(active, items)[j])
  }

  lemma ItemFits(s: State, items: seq<OutItem>, j: nat)
    requires Mirrors(s, items) && j < |items| && RecordFits(s, items[j])
    ensures BuildItem(s, s.entries[j]) == Final(items[j])
  {
    assert EntryFits(s, items, j);
    if items[j].Reasoning? { NothingTaken(items[j].text); }
    hide Take;
  }

  /** An item is done with what the session has on record, and a client that assembled something else refuses. */
  lemma DoneWatched(s: State, items: seq<OutItem>, j: nat)
    requires Mirrors(s, items) && j < |items|
    ensures WatchAll(Running(ClosedTo(s.activeText, items, j)), DoneOf(s, s.entries[j])) ==
            if RecordFits(s, items[j]) then Running(ClosedTo(s.activeText, items, j + 1)) else Bad
  {
    assert EntryFits(s, items, j);
    if RecordFits(s, items[j]) { ItemFits(s, items, j); }
    var now := ClosedTo(s.activeText, items, j);
    assert now[j := DoneSlot(items[j])] == ClosedTo(s.activeText, items, j + 1);
    match items[j] {
      case Message(t) =>
        if s.activeText == Some(j) {
          MessageCloses(now, j);
        } else {
          assert now[j := now[j]] == now;
          WatchNone(Running(now));
        }
      case FunctionCall(id, name, args) =>
        if RecordFits(s, items[j]) {
          CallCloses(now, j);
        } else {
          CallRefused(now, j, s.calls[id].name, s.calls[id].args, BuildItem(s, s.entries[j]));
        }
      case Reasoning(_) => ReasoningCloses(now, j, Final(items[j]));
    }
    hide WatchAll, Mirrors, BuildItem, ClosedTo, Take, MessageDone, CallDone, ReasoningDoneAll;
  }

  lemma {:induction false} DoneAllWatched(s: State, items: seq<OutItem>, n: nat)
    requires Mirrors(s, items) && n <= |items| == |s.entries|
    ensures WatchAll(ClientOf(s, items), DoneAll(s, s.entries[..n])) ==
            if Recorded(s, items[..n]) then Running(ClosedTo(s.activeText, items, n)) else Bad
  {
    hide WatchAll, Mirrors, DoneOf, RecordFits;
    if n == 0 {
      assert ClosedTo(s.activeText, items, 0) == SlotsOf(s.activeText, items);
      WatchNone(ClientOf(s, items));
    } else {
      DoneAllWatched(s, items, n - 1);
      DoneWatched(s, items, n - 1);
      assert s.entries[..n][..n - 1] == s.entries[..n - 1];
      assert forall j | 0 <= j < n - 1 :: items[..n][j] == items[..n - 1][j];
      WatchConcat(ClientOf(s, items), DoneAll(s, s.entries[..n - 1]), DoneOf(s, s.entries[n - 1]));
      BadStays(DoneOf(s, s.entries[n - 1]));
    }
  }

  lemma MirrorsLength(s: State, items: seq<OutItem>)
    requires Mirrors(s, items)
    ensures |s.entries| == |items| && (s.entries == [] ==> s.reasoning == "")
  {
  }

  lemma {:induction false} OutputFits(s: State, items: seq<OutItem>, n: nat)
    requires Mirrors(s, items) && Recorded(s, items) && n <= |items| == |s.entries|
    ensures BuildItems(s, s.entries[..n]) == Finals(Closed(items)[..n])
  {
    if n != 0 {
      hide BuildItem, Final, Mirrors, RecordFits;
      OutputFits(s, items, n - 1);
      ItemFits(s, items, n - 1);
      assert s.entries[..n][..n - 1] == s.entries[..n - 1];
      assert Closed(items)[..n][..n - 1] == Closed(items)[..n - 1];
    }
  }

  /** From a live session all items are done, and the final object is what the client assembled: if and only if
      every call is on record with what was sent of it. */
  lemma FinalWatched(s: State, items: seq<OutItem>)
    requires Mirrors(s, items)
    ensures WatchAll(ClientOf(s, items), DoneAll(s, s.entries)) ==
            if Recorded(s, items) then Running(Closed(items)) else Bad
    ensures Recorded(s, items) ==> BuildOutput(s) == OutputOf(Closed(items))
  {
    hide WatchAll, DoneAll, BuildItems, Finals, Mirrors, RecordFits;
    MirrorsLength(s, items);
    DoneAllWatched(s, items, |items|);
    assert s.entries[..|items|] == s.entries && items[..|items|] == items;
    assert ClosedTo(s.activeText, items, |items|) == Closed(items);
    assert Closed(items)[..|items|] == Closed(items);
    if Recorded(s, items) { OutputFits(s, items, |items|); }
  }

  // ----- whole streams -----

  /** Steps before the finish, at most one finish, and chunks without a choice. */
  datatype RStream = RStream(live: seq<RStep>, end: Option<Finish>, tail: seq<RStep>)

  ghost predicate Proper(st: RStream) {
    && Live(st.live) && (st.end.None? ==> st.tail == [])
    && (forall i | 0 <= i < |st.tail| :: st.tail[i].UsageStep? || st.tail[i].NoChoiceStep?)
  }

  function Flat(st: RStream): seq<RStep> {
    if st.end.Some? then st.live + [FinishStep(st.end.value)] + st.tail else st.live
  }

  /** The usage reported by these steps, later values over earlier ones. */
  function Usages(t: Tokens, steps: seq<RStep>): Tokens {
    if steps == [] then t else UsageOf(Usages(t, steps[..|steps| - 1]), steps[|steps| - 1])
  }

  /** The usage a withheld response.completed goes out with, and whether the tail let it go. */
  function Released(t: Tokens, tail: seq<RStep>): (Tokens, bool) {
    if tail == [] then (t, false)
    else
      var (known, gone) := Released(t, tail[..|tail| - 1]);
      if gone then (known, true)
      else (UsageOf(known, tail[|tail| - 1]), tail[|tail| - 1].NoChoiceStep?)
  }

  /** All usage of the live stream, and of the tail up to its first chunk without a choice. */
  function FinalTokens(st: RStream): Tokens {
    Released(Usages(INIT.tokens, st.live), st.tail).0
  }

  lemma {:induction false} TokensReported(steps: seq<RStep>)
    ensures ReactAll(INIT, steps).state.tokens == Usages(INIT.tokens, steps)
  {
    hide Act, UsageOf;
    if steps != [] {
      var n := |steps| - 1;
      TokensReported(steps[..n]);
      ReactTokens(ReactAll(INIT, steps[..n]).state, steps[n]);
    }
  }

  lemma ReactTokens(s: State, step: RStep)
    ensures React(s, step).state.tokens == UsageOf(s.tokens, step)
  {
    if !step.NoChoiceStep? {
      ActIsPlain(s, step);
      hide Act;
    }
  }

  lemma {:induction false} TailShape(s: State, tail: seq<RStep>)
    requires forall i | 0 <= i < |tail| :: tail[i].UsageStep? || tail[i].NoChoiceStep?
    requires !s.completedSent && s.pending.Some? && s.waiting
    ensures var r, rel := ReactAll(s, tail), Released(s.tokens, tail);
            && r.state.completedSent == rel.1
            && (if rel.1 then r.state.pending.None?
                else r.state.pending == s.pending && r.state.waiting && r.events == [] && r.state.tokens == rel.0)
            && r.events + Finalize(r.state).events == [Completed(s.pending.value.(tokens := rel.0))]
  {
    if tail != [] {
      var n := |tail| - 1;
      TailShape(s, tail[..n]);
      hide Accumulate;
    }
  }

  /** Everything a client receives for a proper stream, wherever it is cut: what the live steps sent, the
      done sequences of what is still open, and the final object with the usage known by then. */
  lemma ConvertedShape(st: RStream)
    requires Proper(st) && Flat(st) != []
    ensures var live := ReactAll(INIT, st.live);
            Converted(Flat(st)) == live.events + DoneAll(live.state, live.state.entries)
              + [Completed(FinalResponse(live.state, Or(st.end, Stop)).(tokens := FinalTokens(st)))]
  {
    var live := ReactAll(INIT, st.live);
    TokensReported(st.live);
    CreatedFlag(st.live);
    if st.end.None? {
      CutShape(live);
    } else {
      FinishedShape(st.live, st.end.value, st.tail);
    }
  }

  lemma CutShape(live: Reaction)
    requires Unfinished(live.state)
    ensures var done := DoneAll(live.state, live.state.entries);
            live.events + Finalize(live.state).events ==
            live.events + done + [Completed(FinalResponse(live.state, Stop).(tokens := live.state.tokens))]
  {
    hide DoneAll;
    var done := DoneAll(live.state, live.state.entries);
    var last := [Completed(FinalResponse(live.state, Stop))];
    assert live.events + (done + last) == live.events + done + last;
  }

  lemma FinishedShape(before: seq<RStep>, f: Finish, tail: seq<RStep>)
    requires Unfinished(ReactAll(INIT, before).state)
    requires forall i | 0 <= i < |tail| :: tail[i].UsageStep? || tail[i].NoChoiceStep?
    ensures var live := ReactAll(INIT, before);
            Converted(before + [FinishStep(f)] + tail) == live.events + DoneAll(live.state, live.state.entries)
              + [Completed(FinalResponse(live.state, f).(tokens := Released(live.state.tokens, tail).0))]
  {
    var live := ReactAll(INIT, before);
    FinishQueues(live.state, f);
    hide Unfinished, React, Finalize, DoneAll, FinalResponse;
    var r := React(live.state, FinishStep(f));
    assert (before + [FinishStep(f)])[..|before|] == before;
    ReactConcat(INIT, before + [FinishStep(f)], tail);
    TailShape(r.state, tail);
    var rest := ReactAll(r.state, tail);
    Joined(live.events, r.events, rest.events, Finalize(rest.state).events);
  }

  lemma Joined<T>(a: seq<T>, b: seq<T>, c: seq<T>, d: seq<T>)
    ensures a + b + c + d == a + b + (c + d)
  {
  }

  lemma FinishQueues(s: State, f: Finish)
    requires Unfinished(s)
    ensures React(s, FinishStep(f)) ==
            Reaction(s.(pending := Some(FinalResponse(s, f)), waiting := true), DoneAll(s, s.entries))
  {
  }

  /** The step says something, or is the role. */
  predicate Speaks(step: RStep) {
    match step
    case RoleStep => true
    case TextStep(_) => true
    case ReasonStep(_) => true
    case FragmentStep(f) => f.name != "" || Or(f.args, "") != ""
    case _ => false
  }

  /** Nothing is withheld or completed, and there is nothing before the announcement. */
  ghost predicate Unfinished(s: State) {
    && s.pending.None? && !s.completedSent
    && (!s.createdSent ==> s.activeText.None? && s.entries == [] && s.calls == map[])
  }

  lemma SpeakingAnnounces(s: State, step: RStep)
    requires Unfinished(s) && !step.FinishStep?
    ensures React(s, step).state.createdSent <==> s.createdSent || Speaks(step)
    ensures Unfinished(React(s, step).state)
  {
    if !step.NoChoiceStep? { ActIsPlain(s, step); }
    hide Grow, ReasoningAt, AppendItemText, ItemText, CallFragment, Accumulate;
    match step
    case FragmentStep(f) => FragmentSpeaks(s, f);
    case _ =>
  }

  lemma FragmentSpeaks(s: State, f: Fragment)
    ensures CallFragment(s, f).events != [] <==> f.name != "" || Or(f.args, "") != ""
    ensures CallFragment(s, f).state.activeText == s.activeText && CallFragment(s, f).state.text == s.text
    ensures f.name == "" && Or(f.args, "") == "" ==> CallFragment(s, f) == Reaction(s, [])
  {
    hide GivenId, CallIdOf, AddCallArgs;
    if f.name == "" {
      ArgsSpeak(s, f, CallIdOf(s, f));
    } else {
      ArgsSpeak(OpenCall(s, f, GivenId(s, f)).state, f, GivenId(s, f));
    }
  }

  lemma ArgsSpeak(s: State, f: Fragment, id: string)
    ensures var r := AddCallArgs(s, f, id);
            && (r.events != [] <==> Or(f.args, "") != "") && r.state.activeText == s.activeText
            && r.state.text == s.text && (Or(f.args, "") == "" ==> r == Reaction(s, []))
  {
    hide Grow;
  }

  lemma LastCreated(steps: seq<RStep>)
    requires steps != []
    ensures ReactAll(INIT, steps).state ==
            React(ReactAll(INIT, steps[..|steps| - 1]).state, steps[|steps| - 1]).state
  {
  }

  /** Some step says something, or is the role. */
  ghost predicate Spoken(steps: seq<RStep>) {
    exists i :: 0 <= i < |steps| && Speaks(steps[i])
  }

  lemma UnsnocSpoken(steps: seq<RStep>)
    requires steps != []
    ensures Spoken(steps) <==> Spoken(steps[..|steps| - 1]) || Speaks(steps[|steps| - 1])
  {
    hide Speaks;
    var init := steps[..|steps| - 1];
    assert forall i | 0 <= i < |init| :: init[i] == steps[i];
  }

  lemma {:induction false} CreatedFlag(steps: seq<RStep>)
    requires Live(steps)
    ensures ReactAll(INIT, steps).state.createdSent <==> Spoken(steps)
    ensures Unfinished(ReactAll(INIT, steps).state)
  {
    if steps != [] {
      hide *;
      var init, last := steps[..|steps| - 1], steps[|steps| - 1];
      UnsnocLive(steps);
      CreatedFlag(init);
      SpeakingAnnounces(ReactAll(INIT, init).state, last);
      UnsnocSpoken(steps);
      LastCreated(steps);
    }
  }

  /** `Created` is the first event or none. */
  ghost predicate CreatedFirst(events: seq<Event>, created: bool) {
    && (if created then events != [] && events[0] == Created else events == [])
    && forall i | 0 < i < |events| :: !events[i].Created?
  }

  /** The client is told of a response that was created exactly if the stream said something: then it is the first
      event, and no other says so. */
  lemma CreatedIffSpoken(st: RStream)
    requires Proper(st)
    ensures Created in Converted(Flat(st)) <==> Spoken(st.live)
    ensures Spoken(st.live) ==> Converted(Flat(st))[0] == Created
    ensures forall i | 0 < i < |Converted(Flat(st))| :: Converted(Flat(st))[i] != Created
  {
    hide ReactAll, Spoken, DoneAll, Flat, FinalResponse, FinalTokens, Converted;
    if Flat(st) == [] {
      SilentIsEmpty(st);
    } else {
      var live := ReactAll(INIT, st.live);
      CreatedFlag(st.live);
      CreatedAtFirst(st.live);
      DoneAllNone(live.state, live.state.entries);
      ConvertedShape(st);
    }
  }

  lemma {:induction false} CreatedAtFirst(steps: seq<RStep>)
    requires Live(steps)
    ensures CreatedFirst(ReactAll(INIT, steps).events, ReactAll(INIT, steps).state.createdSent)
  {
    hide React, Live, Unfinished;
    if steps != [] {
      var init, last := steps[..|steps| - 1], steps[|steps| - 1];
      var before := ReactAll(INIT, init);
      UnsnocLive(steps);
      CreatedAtFirst(init);
      CreatedFlag(init);
      CreatedOnce(before.state, last);
    }
  }

  lemma CreatedOnce(s: State, step: RStep)
    requires Unfinished(s) && !step.FinishStep?
    ensures var r := React(s, step);
            if s.createdSent then r.state.createdSent && forall i | 0 <= i < |r.events| :: !r.events[i].Created?
            else CreatedFirst(r.events, r.state.createdSent)
  {
    if !step.NoChoiceStep? {
      ActIsPlain(s, step);
      hide Act;
    }
    assert forall e: Event | Inner(e) :: !e.Created?;
  }

  lemma UnsnocLive(steps: seq<RStep>)
    requires steps != [] && Live(steps)
    ensures Live(steps[..|steps| - 1]) && !steps[|steps| - 1].FinishStep?
  {
  }

  lemma ActText(s: State, step: RStep)
    requires !step.NoChoiceStep?
    ensures Act(s, step).state.text == if step.TextStep? then Grow(s.text, step.text) else s.text
  {
    hide SayText, CloseText, CallFragment, SayReasoning, Grow, DoneAll, FinalResponse, Accumulate;
    match step
    case TextStep(t) => TextTouches(s, t);
    case ReasonStep(t) => ReasonTouches(s, t);
    case FragmentStep(f) => FragmentSpeaks(s, f);
    case SwitchStep => CloseTouches(s);
    case _ =>
  }

  lemma CloseTouches(s: State)
    ensures CloseText(s).state.text == s.text && CloseText(s).state.calls == s.calls
  {
    hide ItemText, MessageDone;
  }

  /** The whole text is kept up to the truncation bound. */
  lemma {:induction false} TextKept(steps: seq<RStep>)
    ensures ReactAll(INIT, steps).state.text == Take(MeanSteps(NOTHING, steps).text)
  {
    if steps == [] {
      TakeNothing();
    } else {
      var init, last := steps[..|steps| - 1], steps[|steps| - 1];
      TextKept(init);
      if last.TextStep? { GrowTakes(MeanSteps(NOTHING, init).text, last.text); }
      if !last.NoChoiceStep? { ActText(ReactAll(INIT, init).state, last); }
      hide Grow, Take, MeanCall;
      if !last.NoChoiceStep? { hide Act; }
    }
  }

  /** Wherever a proper stream is cut, a strict client accepts every event, finds the part of each item added before
      its first delta, each item done exactly once with the content it assembled from the deltas, its part closed
      before exactly if the item has text, and ends on the only response.completed, whose output lists the items in
      order: if and only if the stream said anything, no arguments went astray, and every call is on record with
      what was sent of it. */
  lemma WellFormedIffRecorded(st: RStream) returns (response: Response)
    requires Proper(st)
    ensures response == FinalOf(st)
    ensures WatchAll(Fresh, Converted(Flat(st))) ==
            if Flat(st) == [] then Fresh
            else if Spoken(st.live) && AllAimed(st.live)
                    && Recorded(ReactAll(INIT, st.live).state, GatherAll(st.live)) then Ended(response)
            else Bad
  {
    response := FinalOf(st);
    if Flat(st) == [] {
      SilentIsEmpty(st);
      WatchNone(Fresh);
    } else if !Spoken(st.live) {
      SilentRefused(st);
    } else if !AllAimed(st.live) {
      AstrayRefused(st);
    } else {
      SpokenWatched(st);
    }
    hide *;
  }

  /** The final object of a stream. */
  function FinalOf(st: RStream): Response {
    FinalResponse(ReactAll(INIT, st.live).state, Or(st.end, Stop)).(tokens := FinalTokens(st))
  }

  lemma SilentIsEmpty(st: RStream)
    requires Flat(st) == []
    ensures !Spoken(st.live) && Converted(Flat(st)) == []
  {
  }

  lemma SilentRefused(st: RStream)
    requires Proper(st) && Flat(st) != [] && !Spoken(st.live)
    ensures WatchAll(Fresh, Converted(Flat(st))) == Bad
  {
    hide *;
    var live := ReactAll(INIT, st.live);
    ProperIsLive(st);
    CreatedFlag(st.live);
    ConvertedShape(st);
    NothingYet(st.live);
    assert [] + [] + [Completed(FinalOf(st))] == [Completed(FinalOf(st))];
    FinalIs(st);
    CompletedFirst(FinalOf(st));
  }

  lemma ProperIsLive(st: RStream)
    requires Proper(st)
    ensures Live(st.live)
  {
  }

  lemma FinalIs(st: RStream)
    ensures FinalOf(st) == FinalResponse(ReactAll(INIT, st.live).state, Or(st.end, Stop)).(tokens := FinalTokens(st))
    ensures FinalOf(st).output == BuildOutput(ReactAll(INIT, st.live).state)
  {
    hide ReactAll, BuildOutput;
  }

  lemma CompletedFirst(r: Response)
    ensures WatchAll(Fresh, [Completed(r)]) == Bad
  {
    WatchOne(Fresh, Completed(r));
  }

  /** Before the announcement nothing was sent, and there is nothing to close. */
  lemma {:induction false} NothingYet(steps: seq<RStep>)
    requires Live(steps) && !ReactAll(INIT, steps).state.createdSent
    ensures ReactAll(INIT, steps).events == []
    ensures DoneAll(ReactAll(INIT, steps).state, ReactAll(INIT, steps).state.entries) == []
  {
    CreatedFlag(steps);
    if steps != [] {
      var init, last := steps[..|steps| - 1], steps[|steps| - 1];
      var s := ReactAll(INIT, init).state;
      UnsnocLive(steps);
      CreatedFlag(init);
      UnsnocSpoken(steps);
      LastCreated(steps);
      NothingYet(init);
      SilentReacts(s, last);
      hide React, DoneAll, Spoken;
    }
  }

  lemma SilentReacts(s: State, step: RStep)
    requires Unfinished(s) && !step.FinishStep? && !React(s, step).state.createdSent
    ensures React(s, step).events == []
  {
    if !step.NoChoiceStep? { ActIsPlain(s, step); }
    hide SayText, CloseText, CallFragment, SayReasoning, Accumulate;
  }

  lemma AstrayRefused(st: RStream)
    requires Proper(st) && Flat(st) != [] && !AllAimed(st.live)
    ensures WatchAll(Fresh, Converted(Flat(st))) == Bad
  {
    hide *;
    var live := ReactAll(INIT, st.live);
    ProperIsLive(st);
    LiveMirrors(st.live);
    ConvertedShape(st);
    var done, last := DoneAll(live.state, live.state.entries), [Completed(FinalOf(st))];
    FinalIs(st);
    WatchConcat(Fresh, live.events, done);
    WatchConcat(Fresh, live.events + done, last);
    BadStays(done);
    BadStays(last);
  }

  lemma SpokenWatched(st: RStream)
    requires Proper(st) && Flat(st) != [] && Spoken(st.live) && AllAimed(st.live)
    ensures WatchAll(Fresh, Converted(Flat(st))) ==
            if Recorded(ReactAll(INIT, st.live).state, GatherAll(st.live)) then Ended(FinalOf(st)) else Bad
  {
    hide *;
    var live, items := ReactAll(INIT, st.live), GatherAll(st.live);
    ProperIsLive(st);
    LiveMirrors(st.live);
    CreatedFlag(st.live);
    LiveFacts(live.state, items);
    FinalWatched(live.state, items);
    ConvertedShape(st);
    var done, last := DoneAll(live.state, live.state.entries), [Completed(FinalOf(st))];
    FinalIs(st);
    WatchConcat(Fresh, live.events, done);
    WatchConcat(Fresh, live.events + done, last);
    BadStays(last);
    if Recorded(live.state, items) { CompletedLast(items, FinalOf(st)); }
  }

  lemma LiveFacts(s: State, items: seq<OutItem>)
    requires LiveState(s, items)
    ensures Mirrors(s, items) && (s.createdSent ==> PhaseAt(s, items) == ClientOf(s, items))
  {
  }

  lemma CompletedLast(items: seq<OutItem>, r: Response)
    requires r.output == OutputOf(Closed(items))
    ensures WatchAll(Running(Closed(items)), [Completed(r)]) == Ended(r)
  {
    WatchOne(Running(Closed(items)), Completed(r));
    hide OutputOf, WatchAll;
  }

  /** What the final object says of the stream. */
  lemma FinalSays(st: RStream)
    ensures FinalOf(st).incomplete == (st.end == Some(Length)) && FinalOf(st).tokens == FinalTokens(st)
    ensures FinalOf(st).outputText == Take(MeanSteps(NOTHING, st.live).text)
  {
    TextKept(st.live);
    hide ReactAll, BuildOutput, MeanSteps, FinalTokens, Take;
  }

  // ----- the usage of the final object -----

  /** What the last of these chunks that reports the field says of it. */
  ghost predicate LastReported(steps: seq<RStep>, field: Usage -> Option<int>, v: Option<int>) {
    if v.None? then forall i | 0 <= i < |steps| :: !Reports(steps[i], field)
    else exists i | 0 <= i < |steps| ::
           && Reports(steps[i], field) && field(steps[i].usage.value) == v
           && forall j | i < j < |steps| :: !Reports(steps[j], field)
  }

  predicate Reports(step: RStep, field: Usage -> Option<int>) {
    step.UsageStep? && step.usage.Some? && field(step.usage.value).Some?
  }

  function LastOf(steps: seq<RStep>, field: Usage -> Option<int>): Option<int> {
    if steps == [] then None
    else
      var last := steps[|steps| - 1];
      if Reports(last, field) then field(last.usage.value) else LastOf(steps[..|steps| - 1], field)
  }

  lemma {:induction false} LastOfIs(steps: seq<RStep>, field: Usage -> Option<int>)
    ensures LastReported(steps, field, LastOf(steps, field))
  {
    if steps != [] {
      var n := |steps| - 1;
      LastOfIs(steps[..n], field);
      hide Reports;
      assert forall i | 0 <= i < n :: steps[..n][i] == steps[i];
      if Reports(steps[n], field) { assert Reports(steps[n], field); }
    }
  }

  lemma {:induction false} UsagesFold(steps: seq<RStep>)
    ensures var t := Usages(Tokens(0, 0, 0, None, None), steps);
            && t.input == Or(LastOf(steps, (u: Usage) => u.prompt), 0)
            && t.output == Or(LastOf(steps, (u: Usage) => u.completion), 0)
            && t.total == Or(LastOf(steps, (u: Usage) => u.total), 0)
            && t.cached == LastOf(steps, (u: Usage) => u.cached)
            && t.reasoned == LastOf(steps, (u: Usage) => u.reasoned)
  {
    if steps != [] { UsagesFold(steps[..|steps| - 1]); }
  }

  lemma UsagesAre(steps: seq<RStep>) returns (prompt: Option<int>, completion: Option<int>, total: Option<int>)
    ensures var t := Usages(INIT.tokens, steps);
            && LastReported(steps, (u: Usage) => u.prompt, prompt) && t.input == Or(prompt, 0)
            && LastReported(steps, (u: Usage) => u.completion, completion) && t.output == Or(completion, 0)
            && LastReported(steps, (u: Usage) => u.total, total) && t.total == Or(total, 0)
            && LastReported(steps, (u: Usage) => u.cached, t.cached)
            && LastReported(steps, (u: Usage) => u.reasoned, t.reasoned)
  {
    hide LastReported, LastOf, Usages;
    UsagesFold(steps);
    LastOfIs(steps, (u: Usage) => u.prompt);
    LastOfIs(steps, (u: Usage) => u.completion);
    LastOfIs(steps, (u: Usage) => u.total);
    LastOfIs(steps, (u: Usage) => u.cached);
    LastOfIs(steps, (u: Usage) => u.reasoned);
    prompt := LastOf(steps, (u: Usage) => u.prompt);
    completion := LastOf(steps, (u: Usage) => u.completion);
    total := LastOf(steps, (u: Usage) => u.total);
  }

  lemma {:induction false} UsagesConcat(t: Tokens, a: seq<RStep>, b: seq<RStep>)
    ensures Usages(t, a + b) == Usages(Usages(t, a), b)
  {
    hide UsageOf;
    if b == [] {
      assert a + b == a;
    } else {
      assert (a + b)[..|a + b| - 1] == a + b[..|b| - 1];
      UsagesConcat(t, a, b[..|b| - 1]);
    }
  }

  /** The first chunk without a choice is at `n`, or there is none. */
  ghost predicate EndsAt(tail: seq<RStep>, n: nat) {
    && n <= |tail| && (n < |tail| ==> tail[n].NoChoiceStep?)
    && forall i | 0 <= i < n :: !tail[i].NoChoiceStep?
  }

  lemma {:induction false} ReleasedAt(t: Tokens, tail: seq<RStep>, n: nat)
    requires EndsAt(tail, n)
    ensures Released(t, tail) == (Usages(t, tail[..n]), n < |tail|)
  {
    if tail != [] {
      var m := |tail| - 1;
      hide UsageOf;
      if n <= m {
        ReleasedAt(t, tail[..m], n);
        assert tail[..m][..n] == tail[..n];
        if n == m { NoUsageThere(t, tail, n); }
      } else {
        ReleasedAt(t, tail[..m], m);
        assert tail[..m][..m] == tail[..n][..m] && tail[..n] == tail;
      }
    }
  }

  lemma NoUsageThere(t: Tokens, tail: seq<RStep>, n: nat)
    requires n < |tail| && tail[n].NoChoiceStep?
    ensures UsageOf(Usages(t, tail[..n]), tail[n]) == Usages(t, tail[..n])
  {
    hide Usages, Accumulate;
  }

  /** The only response.completed of a stream reports of each field what the last chunk that had it said, among those up
      to the finish and those after it up to the first without a choice; 0 or nothing if none had it. It has all text of
      the stream, up to a million characters. */
  lemma UsageReported(st: RStream, n: nat)
    returns (prompt: Option<int>, completion: Option<int>, total: Option<int>)
    requires Proper(st) && Flat(st) != [] && EndsAt(st.tail, n)
    ensures var es, steps := Converted(Flat(st)), st.live + st.tail[..n];
            && LastReported(steps, (u: Usage) => u.prompt, prompt)
            && LastReported(steps, (u: Usage) => u.completion, completion)
            && LastReported(steps, (u: Usage) => u.total, total)
            && es != [] && es[|es| - 1].Completed?
            && var t, text := es[|es| - 1].response.tokens, MeanSteps(NOTHING, st.live).text;
               && t.input == Or(prompt, 0) && t.output == Or(completion, 0) && t.total == Or(total, 0)
               && LastReported(steps, (u: Usage) => u.cached, t.cached)
               && LastReported(steps, (u: Usage) => u.reasoned, t.reasoned)
               && es[|es| - 1].response.outputText == if |text| <= 1_000_000 then text else text[..1_000_000]
  {
    hide ReactAll, Converted, DoneAll, BuildOutput, Flat, Usages, Released, LastReported, LastOf, MeanSteps;
    FinalSays(st);
    var steps := st.live + st.tail[..n];
    ConvertedShape(st);
    ReleasedAt(Usages(INIT.tokens, st.live), st.tail, n);
    UsagesConcat(INIT.tokens, st.live, st.tail[..n]);
    prompt, completion, total := UsagesAre(steps);
  }

  // ----- when every call is on record -----

  /** Arguments come with an index, for a new call or a known one. */
  predicate Known(s: State, f: Fragment) {
    Or(f.args, "") == "" || (f.index.Some? && (f.name != "" || CallIdOf(s, f) in s.calls))
  }

  predicate KnownStep(s: State, step: RStep) {
    step.FragmentStep? ==> Known(s, step.fragment)
  }

  ghost predicate AllKnown(steps: seq<RStep>) {
    forall i | 0 <= i < |steps| :: KnownStep(ReactAll(INIT, steps[..i]).state, steps[i])
  }

  lemma KnownIsAimed(steps: seq<RStep>)
    requires AllKnown(steps)
    ensures AllAimed(steps)
  {
    hide ReactAll, CallIdOf;
    forall i | 0 <= i < |steps| ensures AimedStep(ReactAll(INIT, steps[..i]).state, steps[i]) {
      assert KnownStep(ReactAll(INIT, steps[..i]).state, steps[i]);
    }
  }

  lemma UnsnocKnown(steps: seq<RStep>)
    requires steps != [] && AllKnown(steps)
    ensures AllKnown(steps[..|steps| - 1]) && KnownStep(ReactAll(INIT, steps[..|steps| - 1]).state, steps[|steps| - 1])
  {
    hide ReactAll, KnownStep;
    var n := |steps| - 1;
    assert forall i | 0 <= i < n :: steps[..n][..i] == steps[..i] && steps[..n][i] == steps[i];
  }

  /** What is on record under an id is the latest call that has it. */
  ghost predicate Latest(s: State, items: seq<OutItem>, id: string) {
    var p := LastCall(items, id);
    && (id in s.calls <==> p != -1)
    && (id in s.calls ==> s.calls[id].out == p && RecordFits(s, items[p]))
  }

  ghost predicate Books(s: State, items: seq<OutItem>) {
    forall id :: Latest(s, items, id)
  }

  lemma {:induction false} LastCallGrown(items: seq<OutItem>, out: int, t: string, id: string)
    ensures LastCall(Grown(items, out, t), id) == LastCall(items, id)
  {
    if 0 <= out < |items| {
      var n := |items| - 1;
      var init, grown := items[..n], Grown(items, out, t);
      assert items == init + [items[n]];
      LastCallPush(init, items[n], id);
      if out < n {
        assert grown == Grown(init, out, t) + [items[n]];
        LastCallGrown(init, out, t, id);
        LastCallPush(Grown(init, out, t), items[n], id);
      } else {
        assert grown == init + [Longer(items[n], t)];
        LastCallPush(init, Longer(items[n], t), id);
      }
      hide LastCall;
    }
  }

  /** Items that are no calls leave the books alone. */
  lemma BooksSame(s: State, items: seq<OutItem>, s': State, items': seq<OutItem>)
    requires Books(s, items) && s'.calls == s.calls
    requires forall id :: LastCall(items', id) == LastCall(items, id)
    requires forall j | 0 <= j < |items| && items[j].FunctionCall? :: j < |items'| && items'[j] == items[j]
    ensures Books(s', items')
  {
    hide LastCall, Take;
    forall id ensures Latest(s', items', id) {
      assert Latest(s, items, id);
    }
  }

  lemma GrownBooks(s: State, items: seq<OutItem>, s': State, out: int, t: string)
    requires Books(s, items) && s'.calls == s.calls && (0 <= out < |items| ==> !items[out].FunctionCall?)
    ensures Books(s', Grown(items, out, t))
  {
    forall id ensures LastCall(Grown(items, out, t), id) == LastCall(items, id) { LastCallGrown(items, out, t, id); }
    hide Books, LastCall;
    BooksSame(s, items, s', Grown(items, out, t));
  }

  lemma PushedBooks(s: State, items: seq<OutItem>, s': State, x: OutItem)
    requires Books(s, items) && s'.calls == s.calls && !x.FunctionCall?
    ensures Books(s', items + [x])
  {
    forall id ensures LastCall(items + [x], id) == LastCall(items, id) { LastCallPush(items, x, id); }
    hide Books, LastCall;
    BooksSame(s, items, s', items + [x]);
  }

  lemma OpenedBooks(s: State, items: seq<OutItem>, f: Fragment, id: string)
    requires Books(s, items) && s.outputIndex == |items|
    ensures Books(OpenCall(s, f, id).state, items + [FunctionCall(id, f.name, "")])
  {
    var s', x := OpenCall(s, f, id).state, FunctionCall(id, f.name, "");
    TakeNothing();
    hide LastCall, Take;
    forall c ensures Latest(s', items + [x], c) {
      LastCallPush(items, x, c);
      assert Latest(s, items, c);
    }
  }

  lemma ArgsBooks(s: State, items: seq<OutItem>, f: Fragment, id: string)
    requires Books(s, items) && id in s.calls && Or(f.args, "") != ""
    ensures 0 <= Target(s, f, id) < |items|
    ensures Books(AddCallArgs(s, f, id).state, Grown(items, Target(s, f, id), f.args.value))
  {
    assert Latest(s, items, id);
    var out := s.calls[id].out;
    GrowTakes(items[out].args, f.args.value);
    hide LastCall, Take, Grow;
    var s', items' := AddCallArgs(s, f, id).state, Grown(items, out, f.args.value);
    forall c ensures Latest(s', items', c) {
      LastCallGrown(items, out, f.args.value, c);
      assert Latest(s, items, c);
    }
  }

  lemma FragmentBooks(s: State, items: seq<OutItem>, f: Fragment)
    requires Books(s, items) && s.outputIndex == |items| && Known(s, f)
    ensures Books(CallFragment(s, f).state, Gather(items, s, FragmentStep(f)))
  {
    hide Books, CallIdOf, GivenId, OpenCall, AddCallArgs, Grown;
    var args := Or(f.args, "");
    if f.name == "" {
      FragmentSpeaks(s, f);
      if args != "" { ArgsBooks(s, items, f, CallIdOf(s, f)); }
    } else {
      OpenedGathers(s, items, f);
      var id, open := GivenId(s, f), OpenCall(s, f, GivenId(s, f)).state;
      OpenedBooks(s, items, f, id);
      if args == "" {
        NoArgsAdded(open, f, id);
      } else {
        ArgsBooks(open, items + [FunctionCall(id, f.name, "")], f, id);
      }
    }
  }

  lemma NoArgsAdded(s: State, f: Fragment, id: string)
    requires Or(f.args, "") == ""
    ensures AddCallArgs(s, f, id) == Reaction(s, [])
  {
  }

  lemma OpenedGathers(s: State, items: seq<OutItem>, f: Fragment)
    requires f.name != "" && s.outputIndex == |items|
    ensures var id, open := GivenId(s, f), OpenCall(s, f, GivenId(s, f)).state;
            var added := items + [FunctionCall(id, f.name, "")];
            && id in open.calls && Target(open, f, id) == |items|
            && Gather(items, s, FragmentStep(f)) == Grown(added, |items|, Or(f.args, ""))
            && (Or(f.args, "") == "" ==> Grown(added, |items|, "") == added)
  {
    hide GivenId;
    var id, args := GivenId(s, f), Or(f.args, "");
    var added := items + [FunctionCall(id, f.name, "")];
    assert "" + args == args;
    assert Grown(added, |items|, args) == items + [FunctionCall(id, f.name, args)];
  }

  lemma ActBooks(s: State, items: seq<OutItem>, step: RStep)
    requires Placed(s, items) && Books(s, items) && !step.FinishStep? && s.pending.None? && AimedStep(s, step)
    ensures Books(Act(s, step).state, Keep(items, s, step))
  {
    if Strays(s, step) {
      StraysLeave(s, step.fragment);
      SameBooks(s, Act(s, step).state, items);
    } else {
      NotStrayIsKnown(s, step);
      KnownBooks(s, items, step);
    }
    hide *;
  }

  lemma StraysLeave(s: State, f: Fragment)
    requires Strays(s, FragmentStep(f))
    ensures CallFragment(s, f).state == s
  {
    hide CallIdOf;
  }

  lemma NotStrayIsKnown(s: State, step: RStep)
    requires AimedStep(s, step) && !Strays(s, step)
    ensures KnownStep(s, step)
  {
    hide CallIdOf;
  }

  lemma KnownBooks(s: State, items: seq<OutItem>, step: RStep)
    requires Placed(s, items) && Books(s, items) && KnownStep(s, step) && !step.FinishStep? && s.pending.None?
    ensures Books(Act(s, step).state, Gather(items, s, step))
  {
    hide Books, Grown, Known, CallFragment, SayText, SayReasoning, CloseText, Accumulate, ReasoningAt;
    match step
    case TextStep(t) =>
      TextTouches(s, t);
      if s.activeText.Some? {
        GrownBooks(s, items, SayText(s, t).state, s.activeText.value, t);
      } else {
        PushedBooks(s, items, SayText(s, t).state, Message(t));
      }
    case ReasonStep(t) =>
      ReasonTouches(s, t);
      if s.reasoningStarted {
        GrownBooks(s, items, SayReasoning(s, t).state, ReasoningAt(s.entries), t);
      } else {
        PushedBooks(s, items, SayReasoning(s, t).state, Reasoning(t));
      }
    case FragmentStep(f) => FragmentBooks(s, items, f);
    case SwitchStep =>
      CloseTouches(s);
      SameBooks(s, CloseText(s).state, items);
    case UsageStep(u) => SameBooks(s, s.(tokens := Accumulate(s.tokens, u)), items);
    case _ =>
  }

  lemma SameBooks(s: State, s': State, items: seq<OutItem>)
    requires Books(s, items) && s'.calls == s.calls
    ensures Books(s', items)
  {
    hide LastCall;
    BooksSame(s, items, s', items);
  }

  /** Text and reasoning do not go to calls. */
  ghost predicate Placed(s: State, items: seq<OutItem>) {
    && s.outputIndex == |items|
    && (s.activeText.Some? ==> s.activeText.value < |items| && !items[s.activeText.value].FunctionCall?)
    && (s.reasoningStarted && ReasoningAt(s.entries) < |items| ==> !items[ReasoningAt(s.entries)].FunctionCall?)
  }

  lemma MirrorsPlaced(s: State, items: seq<OutItem>)
    requires Mirrors(s, items)
    ensures Placed(s, items)
  {
    if s.reasoningStarted {
      var j :| 0 <= j < |items| && items[j].Reasoning?;
      ReasoningFound(s, items, j);
    }
    hide EntryFits, ReasoningAt;
  }

  /** The session has on record what was kept of each call. */
  lemma {:induction false} LiveBooks(steps: seq<RStep>)
    requires Live(steps) && AllAimed(steps)
    ensures Books(ReactAll(INIT, steps).state, KeptAll(steps)) && Alike(GatherAll(steps), KeptAll(steps))
  {
    hide React, LiveState, AimedStep, Live, AllAimed, Gather, Keep, Books, Alike, Placed, Mirrors;
    if steps == [] {
      NoBooks();
    } else {
      var init, last := steps[..|steps| - 1], steps[|steps| - 1];
      var s, items, kept := ReactAll(INIT, init).state, GatherAll(init), KeptAll(init);
      UnsnocAimed(steps);
      UnsnocLive(steps);
      LiveBooks(init);
      LiveMirrors(init);
      LiveFacts(s, items);
      CreatedFlag(init);
      MirrorsPlaced(s, items);
      AlikePlaced(s, items, kept);
      AlikeGrows(items, kept, s, last);
      ActBooks(s, kept, last);
      ReactCalls(s, last);
      SameBooks(Act(s, last).state, React(s, last).state, Keep(kept, s, last));
      LastCreated(steps);
    }
  }

  lemma AlikePlaced(s: State, items: seq<OutItem>, kept: seq<OutItem>)
    requires Placed(s, items) && Alike(items, kept)
    ensures Placed(s, kept)
  {
    hide ReasoningAt;
  }

  lemma AlikeGrown(items: seq<OutItem>, kept: seq<OutItem>, out: int, t: string)
    requires Alike(items, kept)
    ensures Alike(Grown(items, out, t), Grown(kept, out, t)) && Alike(Grown(items, out, t), kept)
  {
  }

  lemma AlikeGrows(items: seq<OutItem>, kept: seq<OutItem>, s: State, step: RStep)
    requires Alike(items, kept)
    ensures Alike(Gather(items, s, step), Keep(kept, s, step))
  {
    hide ReasoningAt, Target, CallIdOf, GivenId, Grown;
    match step
    case TextStep(t) => if s.activeText.Some? { AlikeGrown(items, kept, s.activeText.value, t); }
    case ReasonStep(t) => if s.reasoningStarted { AlikeGrown(items, kept, ReasoningAt(s.entries), t); }
    case FragmentStep(f) =>
      if f.name == "" && Or(f.args, "") != "" { AlikeGrown(items, kept, Target(s, f, CallIdOf(s, f)), f.args.value); }
    case _ =>
  }

  lemma NoBooks()
    ensures Books(INIT, []) && Alike([], [])
  {
  }

  lemma ReactCalls(s: State, step: RStep)
    ensures React(s, step).state.calls == Act(s, step).state.calls
  {
    hide Act;
  }

  /** Every call was sent with the name and the arguments that were kept of the latest call with its id, up to the
      truncation bound. */
  ghost predicate KeptAgree(items: seq<OutItem>, kept: seq<OutItem>) {
    forall j | 0 <= j < |items| && items[j].FunctionCall? ::
      var p := LastCall(kept, items[j].callId);
      p != -1 && kept[p].name == items[j].name && Take(kept[p].args) == Take(items[j].args)
  }

  /** With such books every call is on record as sent exactly if it agrees with what was kept. */
  lemma RecordedIffKept(s: State, items: seq<OutItem>, kept: seq<OutItem>)
    requires Books(s, kept) && Alike(items, kept)
    ensures Recorded(s, items) <==> KeptAgree(items, kept)
  {
    hide LastCall, Take;
    forall j | 0 <= j < |items| && items[j].FunctionCall?
      ensures Latest(s, kept, items[j].callId) && LastCall(kept, items[j].callId) >= j
    {
      assert HeadOf(items[j]) == HeadOf(kept[j]);
      LastCallIs(kept, j);
    }
    if Recorded(s, items) {
      forall j | 0 <= j < |items| ensures RecordFits(s, items[j]) {}
    }
    if KeptAgree(items, kept) {
      forall j | 0 <= j < |items| ensures RecordFits(s, items[j]) {
        if items[j].FunctionCall? { assert Latest(s, kept, items[j].callId); }
      }
    }
  }

  /** Nothing else to know of the session: for every proper stream, the client accepts it if and only if it said
      anything, no arguments went astray, and every call was sent with what was kept of the latest call with its id;
      arguments for an unknown call that reach the call at their index are sent but not kept. */
  lemma WellFormedIffKept(st: RStream)
    requires Proper(st)
    ensures WatchAll(Fresh, Converted(Flat(st))) ==
            if Flat(st) == [] then Fresh
            else if Spoken(st.live) && AllAimed(st.live) && KeptAgree(GatherAll(st.live), KeptAll(st.live))
            then Ended(FinalOf(st)) else Bad
  {
    hide *;
    ProperIsLive(st);
    var response := WellFormedIffRecorded(st);
    if AllAimed(st.live) {
      LiveBooks(st.live);
      RecordedIffKept(ReactAll(INIT, st.live).state, GatherAll(st.live), KeptAll(st.live));
    }
  }

  /** If everything that was sent was kept, it agrees exactly if calls of one id agree. */
  lemma KeptIffAgree(items: seq<OutItem>)
    ensures KeptAgree(items, items) <==> CallsAgree(items)
  {
    hide LastCall, Take;
    forall j | 0 <= j < |items| && items[j].FunctionCall? ensures LastCall(items, items[j].callId) >= j {
      LastCallIs(items, j);
    }
  }

  lemma {:induction false} AllKept(steps: seq<RStep>)
    requires AllKnown(steps)
    ensures KeptAll(steps) == GatherAll(steps)
  {
    hide ReactAll, Gather, KnownStep, AllKnown;
    if steps != [] {
      var init, last := steps[..|steps| - 1], steps[|steps| - 1];
      UnsnocKnown(steps);
      AllKept(init);
      KnownNotStray(ReactAll(INIT, init).state, last);
    }
  }

  lemma KnownNotStray(s: State, step: RStep)
    requires KnownStep(s, step)
    ensures !Strays(s, step)
  {
    hide CallIdOf;
  }

  /** If all arguments are for new or known calls, the client accepts the stream if and only if it said anything
      and calls of one id have one name and the same arguments, up to the truncation bound. */
  lemma WellFormedIffAgree(st: RStream)
    requires Proper(st) && AllKnown(st.live)
    ensures WatchAll(Fresh, Converted(Flat(st))) ==
            if Flat(st) == [] then Fresh
            else if Spoken(st.live) && CallsAgree(GatherAll(st.live)) then Ended(FinalOf(st)) else Bad
  {
    hide *;
    KnownIsAimed(st.live);
    AllKept(st.live);
    KeptIffAgree(GatherAll(st.live));
    WellFormedIffKept(st);
  }

  // ----- streams whose fragments can all be attributed -----

  /** A fragment a client can attribute: a name opens a call whose id, its own or the one made up for it, is
      new; arguments come with an index and belong to a known call. */
  predicate Fits(s: State, f: Fragment) {
    (f.name != "" ==> GivenId(s, f) !in s.calls) && Known(s, f)
  }

  predicate FitsStep(s: State, step: RStep) {
    step.FragmentStep? ==> Fits(s, step.fragment)
  }

  /** Every fragment can be attributed to a call. */
  ghost predicate FitsAll(steps: seq<RStep>) {
    forall i | 0 <= i < |steps| :: FitsStep(ReactAll(INIT, steps[..i]).state, steps[i])
  }

  lemma Unsnoc(steps: seq<RStep>)
    requires steps != []
    ensures var init, last := steps[..|steps| - 1], steps[|steps| - 1];
            && (Live(steps) <==> Live(init) && !last.FinishStep?)
            && (FitsAll(steps) <==> FitsAll(init) && FitsStep(ReactAll(INIT, init).state, last))
  {
    hide ReactAll, FitsStep;
    var n := |steps| - 1;
    assert forall i | 0 <= i < n :: steps[..n][..i] == steps[..i] && steps[..n][i] == steps[i];
  }

  lemma FitsIsKnown(steps: seq<RStep>)
    requires FitsAll(steps)
    ensures AllKnown(steps)
  {
    hide ReactAll, Known, GivenId;
    forall i | 0 <= i < |steps| ensures KnownStep(ReactAll(INIT, steps[..i]).state, steps[i]) {
      assert FitsStep(ReactAll(INIT, steps[..i]).state, steps[i]);
    }
  }

  /** No two calls have one id. */
  ghost predicate OwnIds(items: seq<OutItem>) {
    forall j, k | 0 <= j < k < |items| && items[j].FunctionCall? && items[k].FunctionCall? ::
      items[j].callId != items[k].callId
  }

  lemma GatherOwns(items: seq<OutItem>, s: State, step: RStep)
    requires OwnIds(items) && Books(s, items) && FitsStep(s, step)
    ensures OwnIds(Gather(items, s, step))
  {
    hide ReasoningAt, Target, Take, CallIdOf, GivenId, Known;
    if step.FragmentStep? && step.fragment.name != "" {
      var id := GivenId(s, step.fragment);
      assert Latest(s, items, id);
      forall j | 0 <= j < |items| && items[j].FunctionCall? ensures items[j].callId != id {
        LastCallIs(items, j);
      }
    }
    hide Books, LastCall;
  }

  lemma {:induction false} LiveOwns(steps: seq<RStep>)
    requires Live(steps) && FitsAll(steps)
    ensures OwnIds(GatherAll(steps))
  {
    hide React, FitsStep, Live, FitsAll, Gather, Books, ReactAll, OwnIds, AllKnown, AllAimed, KeptAll, Alike;
    if steps == [] {
      NoneOwned();
    } else {
      var init, last := steps[..|steps| - 1], steps[|steps| - 1];
      Unsnoc(steps);
      LiveOwns(init);
      FitsIsKnown(init);
      KnownIsAimed(init);
      AllKept(init);
      LiveBooks(init);
      GatherOwns(GatherAll(init), ReactAll(INIT, init).state, last);
    }
  }

  lemma NoneOwned()
    ensures OwnIds([])
  {
  }

  lemma OwnIdsAgree(items: seq<OutItem>)
    requires OwnIds(items)
    ensures CallsAgree(items)
  {
  }

  /** Such a stream is accepted exactly if it said anything at all before it was cut. */
  lemma WellFormedIffSpoken(st: RStream) returns (response: Response)
    requires Proper(st) && FitsAll(st.live)
    ensures response.incomplete == (st.end == Some(Length)) && response.tokens == FinalTokens(st)
    ensures response.outputText == Take(MeanSteps(NOTHING, st.live).text)
    ensures WatchAll(Fresh, Converted(Flat(st))) ==
            if Flat(st) == [] then Fresh else if Spoken(st.live) then Ended(response) else Bad
  {
    hide *;
    response := FinalOf(st);
    FinalSays(st);
    ProperIsLive(st);
    LiveOwns(st.live);
    OwnIdsAgree(GatherAll(st.live));
    FitsIsKnown(st.live);
    WellFormedIffAgree(st);
  }

  // ----- streams that fail -----

  /** Arguments that come without an index are refused, whatever else the stream says. */
  lemma IndexlessRefused(st: RStream, i: nat)
    requires Proper(st) && i < |st.live| && st.live[i].FragmentStep?
    requires st.live[i].fragment.index.None? && Or(st.live[i].fragment.args, "") != ""
    ensures WatchAll(Fresh, Converted(Flat(st))) == Bad
  {
    assert !AimedStep(ReactAll(INIT, st.live[..i]).state, st.live[i]);
    hide *;
    NotEmpty(st);
    AstrayRefused(st);
  }

  lemma NotEmpty(st: RStream)
    requires st.live != []
    ensures Flat(st) != []
  {
  }

  const FIRST: Fragment := Fragment(Some(0), "c", "f", Some("1"))
  const SECOND: Fragment := Fragment(Some(1), "c", "f", Some("2"))

  /** Two calls with one id: the first is done with the arguments of the second, and the client refuses that. */
  lemma OneIdRefused()
    ensures WatchAll(Fresh, Converted([FragmentStep(FIRST), FragmentStep(SECOND)])) == Bad
  {
    var steps := [FragmentStep(FIRST), FragmentStep(SECOND)];
    var st := RStream(steps, None, []);
    assert steps[..1] == [FragmentStep(FIRST)] && steps[..0] == [] && steps[..1][..0] == [];
    hide *;
    OneIdGathered();
    OneIdKnown(st);
    WellFormedIffAgree(st);
  }

  lemma OneIdGathered()
    ensures var steps := [FragmentStep(FIRST), FragmentStep(SECOND)];
            && GatherAll(steps) == [FunctionCall("c", "f", "1"), FunctionCall("c", "f", "2")]
            && !CallsAgree(GatherAll(steps))
  {
    var steps := [FragmentStep(FIRST), FragmentStep(SECOND)];
    assert steps[..1] == [FragmentStep(FIRST)] && steps[..1][..0] == [];
    hide ReactAll, Fallback;
    assert GatherAll(steps[..1]) == [] + [FunctionCall("c", "f", "1")];
    var items := GatherAll(steps);
    assert Take(items[0].args) == "1" && Take(items[1].args) == "2";
  }

  lemma OneIdKnown(st: RStream)
    requires st == RStream([FragmentStep(FIRST), FragmentStep(SECOND)], None, [])
    ensures Proper(st) && AllKnown(st.live) && Flat(st) == st.live && st.live != []
  {
    hide ReactAll;
  }

  // ----- meaning -----

  function MeanStep(m: Meaning, step: RStep): Meaning {
    match step
    case TextStep(t) => m.(text := m.text + t)
    case ReasonStep(t) => m.(reasoning := m.reasoning + t)
    case FragmentStep(f) => m.(entries := MeanCall(m.entries, Or(f.index, 0), f.id, f.name, Or(f.args, "")))
    case FinishStep(f) => if m.finish.Some? then m else m.(finish := Some(f))
    case _ => m
  }

  function MeanSteps(m: Meaning, steps: seq<RStep>): Meaning {
    if steps == [] then m else MeanStep(MeanSteps(m, steps[..|steps| - 1]), steps[|steps| - 1])
  }

  /** The fragments of a Chat stream as the protocol sends them: the first of a call has an index, a name and
      an id no other call has; a later one has the index, no name, and the same id or none. */
  predicate Sound(m: Meaning, step: RStep) {
    step.FragmentStep? ==>
      var f := step.fragment;
      && f.index.Some?
      && var p := IndexOf(m.entries, f.index.value);
         if p == -1 then f.name != "" && f.id != "" && forall i | 0 <= i < |m.entries| :: m.entries[i].call.id != f.id
         else f.name == "" && (f.id == "" || f.id == m.entries[p].call.id)
  }

  ghost predicate AllSound(steps: seq<RStep>) {
    forall i | 0 <= i < |steps| :: Sound(MeanSteps(NOTHING, steps[..i]), steps[i])
  }

  lemma UnsnocSound(steps: seq<RStep>)
    requires steps != []
    ensures AllSound(steps) <==>
            AllSound(steps[..|steps| - 1]) && Sound(MeanSteps(NOTHING, steps[..|steps| - 1]), steps[|steps| - 1])
  {
    hide MeanSteps, Sound;
    var n := |steps| - 1;
    assert forall i | 0 <= i < n :: steps[..n][..i] == steps[..i] && steps[..n][i] == steps[i];
  }

  function Keys(entries: seq<ChatStream.Entry>): (r: seq<int>)
    ensures |r| == |entries| && forall p | 0 <= p < |r| :: r[p] == entries[p].key
  {
    seq(|entries|, i requires 0 <= i < |entries| => entries[i].key)
  }

  function Ids(entries: seq<ChatStream.Entry>): (r: seq<string>)
    ensures |r| == |entries| && forall p | 0 <= p < |r| :: r[p] == entries[p].call.id
  {
    seq(|entries|, i requires 0 <= i < |entries| => entries[i].call.id)
  }

  /** The session knows that the call with this input number and id is the item at `out`. */
  ghost predicate Booked(s: State, key: int, id: string, out: int) {
    && id != "" && key in s.callIdOf && s.callIdOf[key] == id
    && id in s.calls && s.calls[id].out == out < s.outputIndex
  }

  /** The session knows these calls, in this order, and no others. */
  ghost predicate Book(s: State, keys: seq<int>, ids: seq<string>, outs: seq<int>) {
    && |keys| == |ids| == |outs|
    && (forall p | 0 <= p < |ids| :: Booked(s, keys[p], ids[p], outs[p]))
    && (forall p, q | 0 <= p < q < |outs| :: outs[p] < outs[q])
    && (forall key | key in s.callIdOf :: key in keys)
    && (forall id | id in s.calls :: id in ids)
  }

  /** A call of the input, the same call of the output, and the session's record of it. */
  ghost predicate CallKept(s: State, a: ToolCall, b: ToolCall) {
    a == b && a.id in s.calls && s.calls[a.id].name == a.name && s.calls[a.id].args == Take(a.args)
  }

  ghost predicate CallsKept(s: State, a: seq<ChatStream.Entry>, b: seq<ChatStream.Entry>) {
    && |a| == |b| && Book(s, Keys(a), Ids(a), Keys(b))
    && (forall p | 0 <= p < |a| :: CallKept(s, a[p].call, b[p].call))
  }

  ghost predicate Keeps(s: State, mi: Meaning, me: Meaning) {
    && mi.text == me.text && mi.reasoning == me.reasoning && me.finish == None
    && s.text == Take(mi.text) && s.reasoning == Take(mi.reasoning)
    && CallsKept(s, mi.entries, me.entries)
  }

  lemma MeanOne(m: Meaning, e: Event)
    ensures MeanEvents(m, [e]) == MeanEvent(m, e)
  {
    assert MeanEvents(m, [e][..0]) == m;
  }

  lemma MeanTwo(m: Meaning, a: Event, b: Event)
    ensures MeanEvents(m, [a, b]) == MeanEvent(MeanEvent(m, a), b)
  {
    assert [a, b] == [a] + [b];
    MeanEventsConcat(m, [a], [b]);
    MeanOne(m, a);
    MeanOne(MeanEvent(m, a), b);
  }

  lemma MeanThree(m: Meaning, a: Event, b: Event, c: Event)
    ensures MeanEvents(m, [a, b, c]) == MeanEvent(MeanEvent(MeanEvent(m, a), b), c)
  {
    assert [a, b, c] == [a, b] + [c];
    MeanEventsConcat(m, [a, b], [c]);
    MeanTwo(m, a, b);
    MeanOne(MeanEvents(m, [a, b]), c);
  }

  lemma MeanNone(m: Meaning)
    ensures MeanEvents(m, []) == m
  {
  }

  lemma MeanText(m: Meaning, s: State, text: string)
    ensures MeanEvents(m, SayText(s, text).events) == m.(text := m.text + text)
  {
    hide MeanEvents, Grow;
    var es := SayText(s, text).events;
    match |es|
    case 1 => MeanOne(m, es[0]); assert es == [es[0]];
    case 2 => MeanTwo(m, es[0], es[1]); assert es == [es[0], es[1]];
    case _ => MeanThree(m, es[0], es[1], es[2]); assert es == [es[0], es[1], es[2]];
  }

  lemma MeanReason(m: Meaning, s: State, text: string)
    ensures MeanEvents(m, SayReasoning(s, text).events) == m.(reasoning := m.reasoning + text)
  {
    hide MeanEvents, Grow, ReasoningAt;
    var es := SayReasoning(s, text).events;
    if s.reasoningStarted {
      MeanOne(m, es[0]);
      assert es == [es[0]];
    } else {
      MeanThree(m, es[0], es[1], es[2]);
      assert es == [es[0], es[1], es[2]];
    }
  }

  lemma MeanClose(m: Meaning, s: State)
    ensures MeanEvents(m, CloseText(s).events) == m
  {
    hide MeanEvents;
    var es := CloseText(s).events;
    match |es|
    case 0 => MeanNone(m);
    case 1 => MeanOne(m, es[0]); assert es == [es[0]];
    case _ => MeanThree(m, es[0], es[1], es[2]); assert es == [es[0], es[1], es[2]];
  }

  lemma MeanAnnounced(m: Meaning, r: Reaction)
    ensures MeanEvents(m, Announce(r).events) == MeanEvents(m, r.events)
  {
    hide MeanEvents;
    MeanTwo(m, Created, InProgress);
    MeanEventsConcat(m, [Created, InProgress], r.events);
  }

  lemma AddArgsKeeps(entries: seq<ChatStream.Entry>, p: nat, args: string)
    requires p < |entries|
    ensures Keys(AddArgs(entries, p, args)) == Keys(entries) && Ids(AddArgs(entries, p, args)) == Ids(entries)
  {
    var after := AddArgs(entries, p, args);
    assert forall q | 0 <= q < |entries| :: after[q].key == entries[q].key && after[q].call.id == entries[q].call.id;
  }

  /** The session after the arguments of the call with this id grew. */
  function WithArgs(s: State, id: string, args: string): State
    requires id in s.calls
  {
    s.(calls := s.calls[id := s.calls[id].(args := Grow(s.calls[id].args, args))])
  }

  lemma KeepsExtend(s: State, a: seq<ChatStream.Entry>, b: seq<ChatStream.Entry>, p: nat, args: string)
    requires CallsKept(s, a, b) && p < |a|
    ensures a[p].call.id in s.calls
    ensures CallsKept(WithArgs(s, a[p].call.id, args), AddArgs(a, p, args), AddArgs(b, p, args))
  {
    var id := a[p].call.id;
    assert CallKept(s, a[p].call, b[p].call);
    BookArgs(s, Keys(a), Ids(a), Keys(b), id, args);
    AddArgsKeeps(a, p, args);
    AddArgsKeeps(b, p, args);
    var s', a', b' := WithArgs(s, id, args), AddArgs(a, p, args), AddArgs(b, p, args);
    forall q | 0 <= q < |a'| ensures CallKept(s', a'[q].call, b'[q].call) {
      assert CallKept(s, a[q].call, b[q].call);
      if q == p { GrowTakes(a[p].call.args, args); } else { OtherId(s, Keys(a), Ids(a), Keys(b), p, q); }
      hide Book, Take, Grow;
    }
    hide *;
    hide Keys, Ids;
  }

  lemma OtherId(s: State, keys: seq<int>, ids: seq<string>, outs: seq<int>, p: nat, q: nat)
    requires Book(s, keys, ids, outs) && p < |ids| && q < |ids| && p != q
    ensures ids[p] != ids[q]
  {
  }

  lemma BookArgs(s: State, keys: seq<int>, ids: seq<string>, outs: seq<int>, id: string, args: string)
    requires Book(s, keys, ids, outs) && id in s.calls
    ensures Book(WithArgs(s, id, args), keys, ids, outs)
  {
    hide Grow;
    forall p | 0 <= p < |ids| ensures Booked(WithArgs(s, id, args), keys[p], ids[p], outs[p]) {
      assert Booked(s, keys[p], ids[p], outs[p]);
    }
  }

  /** The session after a call was opened. */
  ghost predicate Opens(s: State, s': State, key: int, call: ToolCall) {
    && s'.text == s.text && s'.reasoning == s.reasoning && s'.outputIndex == s.outputIndex + 1
    && s'.callIdOf == s.callIdOf[key := call.id]
    && s'.calls == s.calls[call.id := CallData(call.name, "", s.outputIndex)]
  }

  lemma KeepsPush(s: State, a: seq<ChatStream.Entry>, b: seq<ChatStream.Entry>, key: int, call: ToolCall, s': State)
    requires CallsKept(s, a, b) && call.id != "" && call.id !in s.calls && key !in s.callIdOf && call.args == ""
    requires Opens(s, s', key, call)
    ensures CallsKept(s', a + [Entry(key, call)], b + [Entry(s.outputIndex, call)])
  {
    hide Book, Take, Keys, Ids;
    var a', b' := a + [Entry(key, call)], b + [Entry(s.outputIndex, call)];
    BookPush(s, Keys(a), Ids(a), Keys(b), key, call, s');
    KeysPush(a, Entry(key, call));
    KeysPush(b, Entry(s.outputIndex, call));
    forall q | 0 <= q < |a'| ensures CallKept(s', a'[q].call, b'[q].call) {
      if q < |a| { assert CallKept(s, a[q].call, b[q].call); } else { TakeNothing(); }
    }
    hide CallKept;
  }

  lemma KeysPush(entries: seq<ChatStream.Entry>, e: ChatStream.Entry)
    ensures Keys(entries + [e]) == Keys(entries) + [e.key] && Ids(entries + [e]) == Ids(entries) + [e.call.id]
  {
  }

  lemma BookPush(s: State, keys: seq<int>, ids: seq<string>, outs: seq<int>, key: int, call: ToolCall, s': State)
    requires Book(s, keys, ids, outs) && call.id != "" && call.id !in s.calls && key !in s.callIdOf
    requires Opens(s, s', key, call)
    ensures Book(s', keys + [key], ids + [call.id], outs + [s.outputIndex])
  {
    var keys', ids', outs' := keys + [key], ids + [call.id], outs + [s.outputIndex];
    forall p | 0 <= p < |ids'| ensures Booked(s', keys'[p], ids'[p], outs'[p]) {
      if p < |ids| { assert Booked(s, keys[p], ids[p], outs[p]); }
    }
    forall p, q | 0 <= p < q < |outs'| ensures outs'[p] < outs'[q] {
      if p < |ids| { assert Booked(s, keys[p], ids[p], outs[p]); }
    }
  }

  lemma TakeNothing()
    ensures Take("") == ""
  {
  }

  lemma SoundKnown(s: State, mi: Meaning, me: Meaning, f: Fragment)
    requires Keeps(s, mi, me) && Sound(mi, FragmentStep(f)) && IndexOf(mi.entries, f.index.value) != -1
    ensures var p := IndexOf(mi.entries, f.index.value);
            && |mi.entries| == |me.entries| && f.name == "" && CallIdOf(s, f) == mi.entries[p].call.id && Fits(s, f)
            && s.calls[CallIdOf(s, f)].out == me.entries[p].key && IndexOf(me.entries, me.entries[p].key) == p
  {
    var p := IndexOf(mi.entries, f.index.value);
    assert Booked(s, Keys(mi.entries)[p], Ids(mi.entries)[p], Keys(me.entries)[p]);
    hide CallKept;
    forall j | p < j < |me.entries| ensures me.entries[j].key != me.entries[p].key {
      assert Keys(me.entries)[p] < Keys(me.entries)[j];
    }
    IndexOfUnique(me.entries, p);
  }

  lemma SoundNew(s: State, mi: Meaning, me: Meaning, f: Fragment)
    requires Keeps(s, mi, me) && Sound(mi, FragmentStep(f)) && IndexOf(mi.entries, f.index.value) == -1
    ensures f.name != "" && f.id != "" && f.id !in s.calls && f.index.value !in s.callIdOf && Fits(s, f)
    ensures GivenId(s, f) == f.id
  {
    forall p | 0 <= p < |mi.entries| ensures mi.entries[p].key != f.index.value {
      IndexOfIsLast(mi.entries, f.index.value, p);
    }
    hide CallKept, IndexOf, Booked;
    assert f.id !in Ids(mi.entries);
    assert f.index.value !in Keys(mi.entries);
  }

  lemma ArgsKeep(s: State, mi: Meaning, me: Meaning, f: Fragment, p: nat)
    requires Keeps(s, mi, me) && p < |mi.entries| == |me.entries| && f.index.Some?
    requires IndexOf(me.entries, me.entries[p].key) == p
    ensures var r := AddCallArgs(s, f, mi.entries[p].call.id);
            Keeps(r.state, mi.(entries := AddArgs(mi.entries, p, Or(f.args, ""))), MeanEvents(me, r.events))
  {
    hide CallsKept, IndexOf, MeanEvents, AddArgs, Take, Grow, AddCallArgs;
    var id, args := mi.entries[p].call.id, Or(f.args, "");
    KeepsExtend(s, mi.entries, me.entries, p, args);
    OutKept(s, mi.entries, me.entries, p);
    ArgsAdded(s, f, id);
    if args == "" {
      MeanNone(me);
      SameArgs(mi.entries, p);
    } else {
      MeanOne(me, ArgsDelta(Some(s.calls[id].out), args));
    }
  }

  lemma ArgsAdded(s: State, f: Fragment, id: string)
    requires f.index.Some? && id in s.calls
    ensures var args := Or(f.args, "");
            AddCallArgs(s, f, id) ==
            if args == "" then Reaction(s, [])
            else Reaction(WithArgs(s, id, args), [ArgsDelta(Some(s.calls[id].out), args)])
  {
    hide Grow;
  }

  lemma OutKept(s: State, a: seq<ChatStream.Entry>, b: seq<ChatStream.Entry>, p: nat)
    requires CallsKept(s, a, b) && p < |a|
    ensures a[p].call.id in s.calls && s.calls[a[p].call.id].out == b[p].key
  {
    hide CallKept;
    assert Booked(s, Keys(a)[p], Ids(a)[p], Keys(b)[p]);
  }

  lemma SameArgs(entries: seq<ChatStream.Entry>, p: nat)
    requires p < |entries|
    ensures AddArgs(entries, p, "") == entries
  {
    assert entries[p].call.args + "" == entries[p].call.args;
  }

  lemma PushThenExtend(entries: seq<ChatStream.Entry>, e: ChatStream.Entry, args: string)
    ensures IndexOf(entries + [e], e.key) == |entries|
    ensures e.call.args == "" ==>
              AddArgs(entries + [e], |entries|, args) ==
              entries + [Entry(e.key, ToolCall(e.call.id, e.call.name, args))]
  {
    IndexOfPush(entries, e, e.key);
    hide IndexOf;
    if e.call.args == "" {
      assert "" + args == args;
      var pushed := entries + [e];
      assert pushed[|entries| := Entry(e.key, ToolCall(e.call.id, e.call.name, args))] ==
             entries + [Entry(e.key, ToolCall(e.call.id, e.call.name, args))];
    }
  }

  lemma KnownReacts(s: State, m: Meaning, f: Fragment)
    requires f.name == "" && f.index.Some? && IndexOf(m.entries, f.index.value) != -1
    ensures CallFragment(s, f) == AddCallArgs(s, f, CallIdOf(s, f))
    ensures MeanStep(m, FragmentStep(f)) ==
            m.(entries := AddArgs(m.entries, IndexOf(m.entries, f.index.value), Or(f.args, "")))
  {
    hide AddCallArgs, CallIdOf, IndexOf, AddArgs;
  }

  lemma FragmentKeeps(s: State, mi: Meaning, me: Meaning, f: Fragment)
    requires Keeps(s, mi, me) && Sound(mi, FragmentStep(f))
    ensures Fits(s, f)
    ensures var r := CallFragment(s, f);
            Keeps(r.state, MeanStep(mi, FragmentStep(f)), MeanEvents(me, r.events))
  {
    var p := IndexOf(mi.entries, f.index.value);
    if p != -1 {
      SoundKnown(s, mi, me, f);
      SameLength(s, mi, me);
      KnownReacts(s, mi, f);
      ArgsKeep(s, mi, me, f, p);
      hide *;
    } else {
      SoundNew(s, mi, me, f);
      NewKeeps(s, mi, me, f);
      hide *;
    }
  }

  lemma NewKeeps(s: State, mi: Meaning, me: Meaning, f: Fragment)
    requires Keeps(s, mi, me) && f.index.Some? && IndexOf(mi.entries, f.index.value) == -1
    requires f.name != "" && f.id != "" && f.id !in s.calls && f.index.value !in s.callIdOf
    ensures var r := CallFragment(s, f);
            Keeps(r.state, MeanStep(mi, FragmentStep(f)), MeanEvents(me, r.events))
  {
    hide CallsKept, IndexOf, MeanEvents, AddArgs, Fallback, Take;
    var open := OpenCall(s, f, f.id);
    assert GivenId(s, f) == f.id;
    var call := ToolCall(f.id, f.name, "");
    KeepsPush(s, mi.entries, me.entries, f.index.value, call, open.state);
    MeanOne(me, open.events[0]);
    var mi' := mi.(entries := mi.entries + [Entry(f.index.value, call)]);
    var me' := me.(entries := me.entries + [Entry(s.outputIndex, call)]);
    SameLength(s, mi, me);
    PushThenExtend(mi.entries, Entry(f.index.value, call), Or(f.args, ""));
    PushThenExtend(me.entries, Entry(s.outputIndex, call), Or(f.args, ""));
    assert Keeps(open.state, mi', me');
    ArgsKeep(open.state, mi', me', f, |mi.entries|);
    var more := AddCallArgs(open.state, f, f.id);
    hide OpenCall, AddCallArgs, Keeps;
    MeanEventsConcat(me, open.events, more.events);
    assert open.events == [open.events[0]];
  }

  lemma SameLength(s: State, mi: Meaning, me: Meaning)
    requires Keeps(s, mi, me)
    ensures |mi.entries| == |me.entries|
  {
  }

  lemma ActKeeps(s: State, mi: Meaning, me: Meaning, step: RStep)
    requires Keeps(s, mi, me) && Sound(mi, step) && !step.FinishStep? && (step.NoChoiceStep? ==> s.pending.None?)
    ensures FitsStep(s, step)
    ensures Keeps(Act(s, step).state, MeanStep(mi, step), MeanEvents(me, Act(s, step).events))
  {
    MeanNone(me);
    hide MeanEvents, Keeps, CallFragment, SayText, CloseText, SayReasoning, Sound, Fits, MeanCall;
    match step
    case TextStep(t) => TextKeeps(s, mi, me, t);
    case ReasonStep(t) => ReasonKeeps(s, mi, me, t);
    case SwitchStep => CloseKeeps(s, mi, me);
    case FragmentStep(f) => FragmentKeeps(s, mi, me, f);
    case UsageStep(u) => UsageKeeps(s, mi, me, u);
    case _ =>
  }

  lemma TextKeeps(s: State, mi: Meaning, me: Meaning, text: string)
    requires Keeps(s, mi, me)
    ensures Keeps(SayText(s, text).state, mi.(text := mi.text + text), MeanEvents(me, SayText(s, text).events))
  {
    MeanText(me, s, text);
    GrowTakes(mi.text, text);
    TextTouches(s, text);
    hide SayText, MeanEvents, Take, Grow, CallsKept;
    KeepsSame(s, SayText(s, text).state, mi, me, mi.text + text, mi.reasoning);
  }

  lemma ReasonKeeps(s: State, mi: Meaning, me: Meaning, text: string)
    requires Keeps(s, mi, me)
    ensures Keeps(SayReasoning(s, text).state, mi.(reasoning := mi.reasoning + text),
                  MeanEvents(me, SayReasoning(s, text).events))
  {
    MeanReason(me, s, text);
    GrowTakes(mi.reasoning, text);
    ReasonTouches(s, text);
    hide SayReasoning, MeanEvents, Take, Grow, CallsKept;
    KeepsSame(s, SayReasoning(s, text).state, mi, me, mi.text, mi.reasoning + text);
  }

  lemma CloseKeeps(s: State, mi: Meaning, me: Meaning)
    requires Keeps(s, mi, me)
    ensures Keeps(CloseText(s).state, mi, MeanEvents(me, CloseText(s).events))
  {
    MeanClose(me, s);
    hide MeanEvents, Take, Grow, CallsKept;
    KeepsSame(s, CloseText(s).state, mi, me, mi.text, mi.reasoning);
  }

  lemma UsageKeeps(s: State, mi: Meaning, me: Meaning, usage: Option<Usage>)
    requires Keeps(s, mi, me)
    ensures Keeps(s.(tokens := Accumulate(s.tokens, usage)), mi, me)
  {
    hide Take, CallsKept, Accumulate;
    KeepsSame(s, s.(tokens := Accumulate(s.tokens, usage)), mi, me, mi.text, mi.reasoning);
  }

  lemma TextTouches(s: State, text: string)
    ensures var s' := SayText(s, text).state;
            s'.text == Grow(s.text, text) && s'.reasoning == s.reasoning && s'.calls == s.calls
            && s'.callIdOf == s.callIdOf && s'.outputIndex >= s.outputIndex
  {
    AddTouches(s);
    WithTouches(if s.activeText.Some? then s else AddText(s).state, text);
    hide Grow, AddText, WithText;
  }

  lemma AddTouches(s: State)
    ensures AddText(s).state.activeText.Some? && AddText(s).state.text == s.text
    ensures var s' := AddText(s).state;
            s'.reasoning == s.reasoning && s'.calls == s.calls && s'.callIdOf == s.callIdOf
            && s'.outputIndex >= s.outputIndex
  {
  }

  lemma WithTouches(s: State, text: string)
    requires s.activeText.Some?
    ensures var s' := WithText(s, text);
            s'.text == Grow(s.text, text) && s'.reasoning == s.reasoning && s'.calls == s.calls
            && s'.callIdOf == s.callIdOf && s'.outputIndex == s.outputIndex
  {
    hide Grow, AppendItemText;
  }

  lemma ReasonTouches(s: State, text: string)
    ensures var s' := SayReasoning(s, text).state;
            s'.reasoning == Grow(s.reasoning, text) && s'.text == s.text && s'.calls == s.calls
            && s'.callIdOf == s.callIdOf && s'.outputIndex >= s.outputIndex
  {
    hide Grow, ReasoningAt;
  }

  lemma KeepsSame(s: State, s': State, mi: Meaning, me: Meaning, text: string, reasoning: string)
    requires Keeps(s, mi, me)
    requires s'.calls == s.calls && s'.callIdOf == s.callIdOf && s'.outputIndex >= s.outputIndex
    requires s'.text == Take(text) && s'.reasoning == Take(reasoning)
    ensures Keeps(s', mi.(text := text, reasoning := reasoning), me.(text := text, reasoning := reasoning))
  {
    hide Take;
    var keys, ids, outs := Keys(mi.entries), Ids(mi.entries), Keys(me.entries);
    forall p | 0 <= p < |ids| ensures Booked(s', keys[p], ids[p], outs[p]) {
      assert Booked(s, keys[p], ids[p], outs[p]);
    }
    forall p | 0 <= p < |mi.entries| ensures CallKept(s', mi.entries[p].call, me.entries[p].call) {
      assert CallKept(s, mi.entries[p].call, me.entries[p].call);
    }
  }

  lemma ReactKeeps(s: State, mi: Meaning, me: Meaning, step: RStep)
    requires s.pending.None? && Keeps(s, mi, me) && Sound(mi, step) && !step.FinishStep?
    ensures FitsStep(s, step)
    ensures Keeps(React(s, step).state, MeanStep(mi, step), MeanEvents(me, React(s, step).events))
  {
    ActKeeps(s, mi, me, step);
    var r := Act(s, step);
    MeanAnnounced(me, r);
    hide Act, MeanEvents, Sound;
    var m, m' := MeanStep(mi, step), MeanEvents(me, r.events);
    TakeFields(r.state, m, m');
    KeepsSame(r.state, r.state.(createdSent := true), m, m', m.text, m.reasoning);
    assert m.(text := m.text, reasoning := m.reasoning) == m && m'.(text := m.text, reasoning := m.reasoning) == m';
  }

  lemma TakeFields(s: State, mi: Meaning, me: Meaning)
    requires Keeps(s, mi, me)
    ensures s.text == Take(mi.text) && s.reasoning == Take(mi.reasoning)
    ensures mi.text == me.text && mi.reasoning == me.reasoning
  {
  }

  /** Sound fragments can all be attributed, and the open stream means the same on both sides. */
  lemma {:induction false} LiveKeeps(steps: seq<RStep>)
    requires Live(steps) && AllSound(steps)
    ensures FitsAll(steps)
    ensures var r := ReactAll(INIT, steps);
            Keeps(r.state, MeanSteps(NOTHING, steps), MeanEvents(NOTHING, r.events))
  {
    if steps == [] {
      TakeNothing();
    } else {
      hide React, MeanEvents, FitsStep, Live, FitsAll, Sound, AllSound, Keeps, MeanStep, Spoken;
      var init, last := steps[..|steps| - 1], steps[|steps| - 1];
      Unsnoc(steps);
      UnsnocSound(steps);
      LiveKeeps(init);
      var before := ReactAll(INIT, init);
      CreatedFlag(init);
      ReactKeeps(before.state, MeanSteps(NOTHING, init), MeanEvents(NOTHING, before.events), last);
      MeanEventsConcat(NOTHING, before.events, React(before.state, last).events);
    }
  }

  /** An event that adds nothing to the meaning. */
  predicate Neutral(e: Event) {
    !e.ItemAdded? && !e.TextDelta? && !e.ReasoningDelta? && !e.ArgsDelta? && !e.Completed?
  }

  lemma {:induction false} MeanNeutral(m: Meaning, es: seq<Event>)
    requires forall i | 0 <= i < |es| :: Neutral(es[i])
    ensures MeanEvents(m, es) == m
  {
    if es != [] { MeanNeutral(m, es[..|es| - 1]); }
  }

  lemma DoneIsNeutral(s: State, e: OutEntry)
    ensures forall i | 0 <= i < |DoneOf(s, e)| :: Neutral(DoneOf(s, e)[i])
  {
    hide BuildItem;
  }

  lemma {:induction false} MeanDone(m: Meaning, s: State, entries: seq<OutEntry>)
    ensures MeanEvents(m, DoneAll(s, entries)) == m
  {
    if entries != [] {
      var n := |entries| - 1;
      MeanDone(m, s, entries[..n]);
      DoneIsNeutral(s, entries[n]);
      MeanNeutral(m, DoneOf(s, entries[n]));
      hide MeanEvents, DoneOf;
      MeanEventsConcat(m, DoneAll(s, entries[..n]), DoneOf(s, entries[n]));
    }
  }

  lemma {:induction false} MeanLive(steps: seq<RStep>)
    requires Live(steps)
    ensures MeanSteps(NOTHING, steps).finish == None
  {
    if steps != [] { MeanLive(steps[..|steps| - 1]); }
  }

  lemma {:induction false} MeanRest(m: Meaning, tail: seq<RStep>)
    requires forall i | 0 <= i < |tail| :: tail[i].UsageStep? || tail[i].NoChoiceStep?
    ensures MeanSteps(m, tail) == m
  {
    if tail != [] { MeanRest(m, tail[..|tail| - 1]); }
  }

  lemma {:induction false} MeanStepsConcat(m: Meaning, a: seq<RStep>, b: seq<RStep>)
    ensures MeanSteps(m, a + b) == MeanSteps(MeanSteps(m, a), b)
  {
    if b == [] {
      assert a + b == a;
    } else {
      assert (a + b)[..|a + b| - 1] == a + b[..|b| - 1];
      MeanStepsConcat(m, a, b[..|b| - 1]);
    }
  }

  lemma MeanFlat(st: RStream)
    requires Proper(st)
    ensures MeanSteps(NOTHING, Flat(st)) == MeanSteps(NOTHING, st.live).(finish := st.end)
  {
    MeanLive(st.live);
    if st.end.Some? {
      var m, end := MeanSteps(NOTHING, st.live), [FinishStep(st.end.value)];
      MeanFinish(m, st.end.value);
      MeanRest(m.(finish := st.end), st.tail);
      hide MeanSteps, Live;
      MeanStepsConcat(NOTHING, st.live, end);
      MeanStepsConcat(NOTHING, st.live + end, st.tail);
    }
  }

  lemma MeanFinish(m: Meaning, f: Finish)
    requires m.finish == None
    ensures MeanSteps(m, [FinishStep(f)]) == m.(finish := Some(f))
  {
    assert MeanSteps(m, [FinishStep(f)][..0]) == m;
  }

  lemma {:induction false} OutputCalls(s: State, entries: seq<OutEntry>)
    ensures HasCall(BuildItems(s, entries)) <==>
            exists i :: 0 <= i < |entries| && entries[i].CallEntry? && entries[i].callId in s.calls
  {
    if entries != [] {
      var n := |entries| - 1;
      OutputCalls(s, entries[..n]);
      var init, last := BuildItems(s, entries[..n]), BuildItem(s, entries[n]);
      assert last.Some? && last.value.FunctionCall? <==> entries[n].CallEntry? && entries[n].callId in s.calls;
      hide BuildItem;
      var out := BuildItems(s, entries);
      assert forall i | 0 <= i < |init| :: out[i] == init[i];
      if last.Some? { assert out[|init|] == last.value; }
      assert forall i | 0 <= i < n :: entries[..n][i] == entries[i];
    }
  }

  // ----- the id that is made up for a call -----

  /** The number that decimal digits stand for. */
  function ValueOf(digits: string): int {
    if digits == "" then 0 else 10 * ValueOf(digits[..|digits| - 1]) + (digits[|digits| - 1] as int - '0' as int)
  }

  predicate Decimal(s: string) {
    s != "" && (|s| > 1 ==> s[0] != '0') && forall i | 0 <= i < |s| :: '0' <= s[i] <= '9'
  }

  lemma {:induction false} NumeralIs(n: nat)
    ensures Decimal(Numeral(n)) && ValueOf(Numeral(n)) == n && (n > 0 ==> Numeral(n)[0] != '0')
  {
    hide Numeral, ValueOf;
    var d := DigitOf(n);
    if n < 10 {
      OneDigit(d);
      assert [] + [d] == [d];
    } else {
      NumeralIs(n / 10);
      MoreDigits(Numeral(n / 10), d);
    }
  }

  lemma DigitOf(n: nat) returns (d: char)
    ensures '0' <= d <= '9' && d as int - '0' as int == n % 10
    ensures Numeral(n) == (if n < 10 then "" else Numeral(n / 10)) + [d]
  {
    d := ['0', '1', '2', '3', '4', '5', '6', '7', '8', '9'][n % 10];
  }

  lemma OneDigit(d: char)
    ensures ValueOf([d]) == d as int - '0' as int
  {
    assert [d][..0] == "";
  }

  lemma MoreDigits(init: string, d: char)
    ensures ValueOf(init + [d]) == 10 * ValueOf(init) + (d as int - '0' as int)
  {
    assert (init + [d])[..|init|] == init;
  }

  /** A call with neither an id of its own nor one for its index gets `call_` and its index, or failing that the number
      of calls so far, in decimal. */
  lemma MadeUpId(s: State, f: Fragment) returns (number: string)
    requires f.id == "" && (f.index.Some? ==> f.index.value !in s.callIdOf && f.index.value >= 0)
    ensures GivenId(s, f) == "call_" + number && Decimal(number)
    ensures ValueOf(number) == if f.index.Some? then f.index.value else |s.calls|
  {
    var n := if f.index.Some? then f.index.value else |s.calls|;
    NumeralIs(n);
    number := Numeral(n);
    hide Numeral;
  }

  // ----- the order within a chunk -----

  /** Of a chunk that has everything the usage comes first, then the content, which is closed before the calls, these in
      their order, the reasoning, and the finish. */
  lemma FullChunkInOrder(chunk: Chunk, content: string, reasoning: string, calls: seq<Fragment>, finish: Finish)
    requires calls != []
    requires chunk.choices == [Some(Choice(Delta(false, Some(content), Some(reasoning), calls), Some(finish)))]
    ensures Steps(chunk) ==
            [UsageStep(chunk.usage), TextStep(content), SwitchStep]
            + CallSteps(calls) + [ReasonStep(reasoning), FinishStep(finish)]
  {
    hide CallSteps;
    FullDelta(content, reasoning, calls, finish);
    hide DeltaSteps;
    var first := [TextStep(content), SwitchStep];
    assert [UsageStep(chunk.usage)] + first == [UsageStep(chunk.usage), TextStep(content), SwitchStep];
    Around([UsageStep(chunk.usage)], first, CallSteps(calls), [ReasonStep(reasoning), FinishStep(finish)]);
  }

  lemma Around<T>(a: seq<T>, b: seq<T>, c: seq<T>, d: seq<T>)
    ensures a + (b + c + d) == a + b + c + d
  {
  }

  lemma FullDelta(content: string, reasoning: string, calls: seq<Fragment>, finish: Finish)
    requires calls != []
    ensures DeltaSteps(Delta(false, Some(content), Some(reasoning), calls), Some(finish)) ==
            [TextStep(content), SwitchStep] + CallSteps(calls) + [ReasonStep(reasoning), FinishStep(finish)]
  {
    hide CallSteps;
    assert [TextStep(content)] + [SwitchStep] == [TextStep(content), SwitchStep];
  }

  /** A chunk without a choice lets a withheld response.completed go, with the usage it brings; a role chunk announces
      the response and does nothing else. */
  lemma SpecialChunks(s: State, chunk: Chunk)
    ensures chunk.choices == [] || chunk.choices[0].None? ==>
              var r := ReactAll(s, Steps(chunk));
              if s.waiting && s.pending.Some?
              then r.state.completedSent && |r.events| == 1 && r.events[0].Completed?
                   && r.events[0].response == s.pending.value.(tokens := Accumulate(s.tokens, chunk.usage))
              else r.events == []
    ensures |chunk.choices| == 1 && chunk.choices[0].Some? && chunk.choices[0].value.delta.assistant ==>
              var r := ReactAll(s, Steps(chunk));
              && r.events == (if s.createdSent then [] else [Created, InProgress])
              && r.state == s.(createdSent := true, tokens := Accumulate(s.tokens, chunk.usage))
  {
    hide Accumulate, ReactAll, React, Steps;
    var used := s.(tokens := Accumulate(s.tokens, chunk.usage));
    UsageStepReacts(s, chunk.usage);
    if chunk.choices == [] || chunk.choices[0].None? {
      SpecialSteps(chunk, NoChoiceStep);
      ReactTwo(s, UsageStep(chunk.usage), NoChoiceStep);
      NoChoiceStepReacts(used);
    } else if |chunk.choices| == 1 && chunk.choices[0].value.delta.assistant {
      SpecialSteps(chunk, RoleStep);
      ReactTwo(s, UsageStep(chunk.usage), RoleStep);
      RoleStepReacts(used);
    }
  }

  lemma SpecialSteps(chunk: Chunk, step: RStep)
    requires step == if chunk.choices == [] || chunk.choices[0].None? then NoChoiceStep else RoleStep
    requires step.RoleStep? ==> |chunk.choices| == 1 && chunk.choices[0].value.delta.assistant
    ensures Steps(chunk) == [UsageStep(chunk.usage), step]
  {
    assert [UsageStep(chunk.usage)] + [step] == [UsageStep(chunk.usage), step];
  }

  lemma ReactTwo(s: State, a: RStep, b: RStep)
    ensures var first := React(s, a);
            var second := React(first.state, b);
            ReactAll(s, [a, b]) == Reaction(second.state, first.events + second.events)
  {
    hide React;
    assert [a, b][..1] == [a] && [a][..0] == [];
    assert ReactAll(s, [a]) == React(s, a) by { assert [] + React(s, a).events == React(s, a).events; }
  }

  lemma UsageStepReacts(s: State, usage: Option<Usage>)
    ensures React(s, UsageStep(usage)) == Reaction(s.(tokens := Accumulate(s.tokens, usage)), [])
  {
    hide Accumulate;
  }

  lemma NoChoiceStepReacts(s: State)
    ensures React(s, NoChoiceStep) ==
            if s.waiting && s.pending.Some?
            then Reaction(s.(pending := None, waiting := false, completedSent := true),
                          [Completed(s.pending.value.(tokens := s.tokens))])
            else Reaction(s, [])
  {
  }

  lemma RoleStepReacts(s: State)
    ensures React(s, RoleStep) == Reaction(s.(createdSent := true), if s.createdSent then [] else [Created, InProgress])
  {
  }

  // ----- exactly when the meaning is kept -----

  /** A fragment reaches the call it is meant for: a new call has a name and an id, and its first arguments an index;
      a known one has no name, and its arguments go to the item of the client's call at the same position. */
  predicate Routed(s: State, mi: Meaning, me: Meaning, f: Fragment) {
    var p, args := IndexOf(mi.entries, Or(f.index, 0)), Or(f.args, "");
    if p == -1 then f.name != "" && f.id != "" && (args == "" || f.index.Some?)
    else f.name == "" && (args == "" || (f.index.Some? && IndexOf(me.entries, Target(s, f, CallIdOf(s, f))) == p))
  }

  predicate RoutedStep(s: State, mi: Meaning, me: Meaning, step: RStep) {
    step.FragmentStep? ==> Routed(s, mi, me, step.fragment)
  }

  ghost predicate AllRouted(steps: seq<RStep>) {
    forall i | 0 <= i < |steps| ::
      var before := ReactAll(INIT, steps[..i]);
      RoutedStep(before.state, MeanSteps(NOTHING, steps[..i]), MeanEvents(NOTHING, before.events), steps[i])
  }

  lemma UnsnocRouted(steps: seq<RStep>)
    requires steps != []
    ensures var init, last := steps[..|steps| - 1], steps[|steps| - 1];
            var before := ReactAll(INIT, init);
            AllRouted(steps) <==>
            && AllRouted(init)
            && RoutedStep(before.state, MeanSteps(NOTHING, init), MeanEvents(NOTHING, before.events), last)
  {
    hide ReactAll, MeanSteps, MeanEvents, RoutedStep;
    var n := |steps| - 1;
    assert forall i | 0 <= i < n :: steps[..n][..i] == steps[..i] && steps[..n][i] == steps[i];
  }

  /** Texts and calls of the live events so far are those of the steps. */
  ghost predicate ReadSame(steps: seq<RStep>) {
    SameContent(MeanSteps(NOTHING, steps), MeanEvents(NOTHING, ReactAll(INIT, steps).events))
  }

  /** Arguments added to one list at `p`, to the other at `q` or nowhere. */
  lemma ExtendSame(a: seq<ChatStream.Entry>, b: seq<ChatStream.Entry>, p: nat, q: int, args: string)
    requires p < |a| == |b| && (forall j | 0 <= j < |a| :: a[j].call == b[j].call) && -1 <= q < |b| && args != ""
    ensures var a', b' := AddArgs(a, p, args), if q == -1 then b else AddArgs(b, q, args);
            (forall j | 0 <= j < |a| :: a'[j].call == b'[j].call) <==> q == p
  {
    var a', b' := AddArgs(a, p, args), if q == -1 then b else AddArgs(b, q, args);
    assert |a'[p].call.args| > |a[p].call.args|;
    if q != p { assert b'[p] == b[p]; }
  }

  /** A known call, or a new one without a name: the arguments arrive, go elsewhere, or get lost. */
  lemma ContinuedSame(s: State, mi: Meaning, me: Meaning, f: Fragment)
    requires SameContent(mi, me) && f.name == ""
    ensures SameContent(MeanStep(mi, FragmentStep(f)), MeanEvents(me, CallFragment(s, f).events)) <==>
            Routed(s, mi, me, f)
  {
    hide MeanEvents, IndexOf, CallIdOf, AddArgs, Grow;
    var p, args, events := IndexOf(mi.entries, Or(f.index, 0)), Or(f.args, ""), CallFragment(s, f).events;
    if args == "" {
      MeanNone(me);
      if p != -1 { SameArgs(mi.entries, p); }
    } else {
      var target := if f.index.None? then None else Some(Target(s, f, CallIdOf(s, f)));
      assert events == [ArgsDelta(target, args)];
      MeanOne(me, events[0]);
      var q := if target.None? then -1 else IndexOf(me.entries, target.value);
      if q != -1 { AddArgsLength(me.entries, q, args); }
      if p != -1 {
        AddArgsLength(mi.entries, p, args);
        ExtendSame(mi.entries, me.entries, p, q, args);
      }
    }
  }

  lemma AddArgsLength(entries: seq<ChatStream.Entry>, p: nat, args: string)
    requires p < |entries|
    ensures |AddArgs(entries, p, args)| == |entries|
  {
  }

  /** What a client reads of a fragment with a name. */
  lemma OpenedMeans(s: State, me: Meaning, f: Fragment)
    requires f.name != ""
    ensures var args := if f.index.Some? then Or(f.args, "") else "";
            MeanEvents(me, CallFragment(s, f).events) ==
            me.(entries := me.entries + [Entry(s.outputIndex, ToolCall(GivenId(s, f), f.name, args))])
  {
    hide MeanEvents, IndexOf, CallIdOf, AddArgs, Grow, GivenId;
    var id, args := GivenId(s, f), Or(f.args, "");
    var open, e := OpenCall(s, f, id), Entry(s.outputIndex, ToolCall(id, f.name, ""));
    var added := ItemAdded(s.outputIndex, CallHead(id, f.name));
    MeanOne(me, added);
    if args == "" {
      assert CallFragment(s, f).events == [added];
    } else {
      var delta := ArgsDelta(if f.index.None? then None else Some(s.outputIndex), args);
      assert CallFragment(s, f).events == [added, delta];
      MeanTwo(me, added, delta);
      PushThenExtend(me.entries, e, args);
    }
  }

  lemma IdsAreGiven(s: State, f: Fragment)
    ensures GivenId(s, f) == f.id <==> f.id != ""
  {
    assert |Fallback(s, f)| > 0;
    hide Fallback;
  }

  lemma OpenedSame(s: State, mi: Meaning, me: Meaning, f: Fragment)
    requires SameContent(mi, me) && f.name != ""
    ensures SameContent(MeanStep(mi, FragmentStep(f)), MeanEvents(me, CallFragment(s, f).events)) <==>
            Routed(s, mi, me, f)
  {
    hide MeanEvents, IndexOf, CallIdOf, AddArgs, CallFragment, GivenId;
    OpenedMeans(s, me, f);
    IdsAreGiven(s, f);
    var p, args := IndexOf(mi.entries, Or(f.index, 0)), Or(f.args, "");
    if p != -1 {
      AddArgsLength(mi.entries, p, args);
    } else {
      var mi', me' := MeanStep(mi, FragmentStep(f)), MeanEvents(me, CallFragment(s, f).events);
      var n := |mi.entries|;
      assert mi'.entries[n].call == ToolCall(f.id, f.name, args);
      assert me'.entries[n].call == ToolCall(GivenId(s, f), f.name, if f.index.Some? then args else "");
    }
  }

  lemma ActSame(s: State, mi: Meaning, me: Meaning, step: RStep)
    requires SameContent(mi, me) && !step.FinishStep? && s.pending.None?
    ensures SameContent(MeanStep(mi, step), MeanEvents(me, Act(s, step).events)) <==> RoutedStep(s, mi, me, step)
  {
    hide MeanEvents, CallFragment, SayText, CloseText, SayReasoning, MeanCall, Routed, Accumulate;
    MeanNone(me);
    match step
    case TextStep(t) => MeanText(me, s, t);
    case ReasonStep(t) => MeanReason(me, s, t);
    case SwitchStep => MeanClose(me, s);
    case FragmentStep(f) =>
      if f.name == "" { ContinuedSame(s, mi, me, f); } else { OpenedSame(s, mi, me, f); }
    case _ =>
  }

  lemma ReactSame(s: State, mi: Meaning, me: Meaning, step: RStep)
    requires SameContent(mi, me) && !step.FinishStep? && s.pending.None?
    ensures SameContent(MeanStep(mi, step), MeanEvents(me, React(s, step).events)) <==> RoutedStep(s, mi, me, step)
  {
    ActSame(s, mi, me, step);
    MeanAnnounced(me, Act(s, step));
    hide Act, MeanEvents, MeanStep, SameContent, RoutedStep;
  }

  /** Read right at every cut of the live steps, exactly if every fragment is routed. */
  lemma {:induction false} LiveSame(steps: seq<RStep>)
    requires Live(steps)
    ensures (forall i | 0 <= i <= |steps| :: ReadSame(steps[..i])) <==> AllRouted(steps)
  {
    hide React, Live, MeanSteps, MeanEvents, RoutedStep, AllRouted, SameContent, ReactAll, ReadSame, Unfinished;
    if steps == [] {
      NothingRead();
      assert steps[..0] == [];
    } else {
      var n := |steps| - 1;
      var init, last := steps[..n], steps[n];
      UnsnocLive(steps);
      UnsnocRouted(steps);
      LiveSame(init);
      assert forall i | 0 <= i <= n :: init[..i] == steps[..i];
      assert steps[..n + 1] == steps;
      if ReadSame(init) { SameNext(steps); }
    }
  }

  lemma NothingRead()
    ensures ReadSame([]) && AllRouted([])
  {
  }

  lemma SameNext(steps: seq<RStep>)
    requires steps != [] && Live(steps) && ReadSame(steps[..|steps| - 1])
    ensures var init, last := steps[..|steps| - 1], steps[|steps| - 1];
            var before := ReactAll(INIT, init);
            ReadSame(steps) <==>
            RoutedStep(before.state, MeanSteps(NOTHING, init), MeanEvents(NOTHING, before.events), last)
  {
    hide React, Live, MeanEvents, RoutedStep, SameContent;
    var init, last := steps[..|steps| - 1], steps[|steps| - 1];
    var before := ReactAll(INIT, init);
    UnsnocLive(steps);
    CreatedFlag(init);
    ReactSame(before.state, MeanSteps(NOTHING, init), MeanEvents(NOTHING, before.events), last);
    MeanEventsConcat(NOTHING, before.events, React(before.state, last).events);
  }

  /** What ends a stream says nothing but the finish. */
  lemma FlatSame(st: RStream)
    requires Proper(st)
    ensures SameContent(MeanSteps(NOTHING, Flat(st)), MeanEvents(NOTHING, Converted(Flat(st)))) <==>
            ReadSame(st.live)
  {
    hide MeanSteps, MeanEvents, ReactAll, Converted, DoneAll, FinalTokens, BuildOutput, Flat;
    if Flat(st) == [] {
      MeanNothingSent();
      NothingRead();
      FlatIsLive(st);
    } else {
      var live := ReactAll(INIT, st.live);
      var me, done := MeanEvents(NOTHING, live.events), DoneAll(live.state, live.state.entries);
      MeanFlat(st);
      ConvertedShape(st);
      var last := Completed(FinalResponse(live.state, Or(st.end, Stop)).(tokens := FinalTokens(st)));
      MeanDone(me, live.state, live.state.entries);
      MeanEventsConcat(NOTHING, live.events, done);
      MeanEventsConcat(NOTHING, live.events + done, [last]);
      MeanOne(me, last);
    }
  }

  lemma FlatIsLive(st: RStream)
    requires Flat(st) == []
    ensures st.live == []
  {
  }

  /** The stream up to its first `i` steps. */
  function Cut(st: RStream, i: nat): RStream
    requires i <= |Flat(st)|
  {
    if i <= |st.live| then RStream(st.live[..i], None, []) else st.(tail := st.tail[..i - |st.live| - 1])
  }

  lemma CutIs(st: RStream, i: nat)
    requires Proper(st) && i <= |Flat(st)|
    ensures Proper(Cut(st, i)) && Flat(Cut(st, i)) == Flat(st)[..i]
    ensures Cut(st, i).live == st.live[..if i <= |st.live| then i else |st.live|]
  {
  }

  /** Cut after these steps, a client reads their text, reasoning and tool calls. */
  ghost predicate SaysSame(steps: seq<RStep>) {
    SameContent(MeanSteps(NOTHING, steps), MeanEvents(NOTHING, Converted(steps)))
  }

  /** Wherever a proper stream is cut, its events say the text, the reasoning and the tool calls of its chunks: if
      and only if every fragment is routed. */
  lemma MeaningKeptIffRouted(st: RStream)
    requires Proper(st)
    ensures (forall i | 0 <= i <= |Flat(st)| :: SaysSame(Flat(st)[..i])) <==> AllRouted(st.live)
  {
    hide *;
    ProperIsLive(st);
    LiveSame(st.live);
    var flat, n := Flat(st), |st.live|;
    FlatIsLonger(st);
    if forall i | 0 <= i <= |flat| :: SaysSame(flat[..i]) {
      forall i | 0 <= i <= n ensures ReadSame(st.live[..i]) {
        assert SaysSame(flat[..i]);
        CutSame(st, i);
      }
    }
    if forall i | 0 <= i <= n :: ReadSame(st.live[..i]) {
      forall i | 0 <= i <= |flat| ensures SaysSame(flat[..i]) {
        assert ReadSame(st.live[..if i <= n then i else n]);
        CutSame(st, i);
      }
    }
  }

  lemma FlatIsLonger(st: RStream)
    ensures |st.live| <= |Flat(st)|
  {
  }

  lemma CutSame(st: RStream, i: nat)
    requires Proper(st) && i <= |Flat(st)|
    ensures SaysSame(Flat(st)[..i]) <==> ReadSame(st.live[..if i <= |st.live| then i else |st.live|])
  {
    hide MeanSteps, MeanEvents, Converted, SameContent, ReadSame, Cut, Proper, Flat;
    CutIs(st, i);
    FlatSame(Cut(st, i));
  }

  lemma MeanNothingSent()
    ensures MeanSteps(NOTHING, []) == NOTHING && MeanEvents(NOTHING, Converted([])) == NOTHING
    ensures SameContent(NOTHING, NOTHING) && NOTHING.finish == None
  {
  }

  lemma KeptIsSame(s: State, mi: Meaning, me: Meaning)
    requires Keeps(s, mi, me)
    ensures SameContent(mi, me) && me.finish == None
  {
    hide Take, Book;
    forall p | 0 <= p < |mi.entries| ensures mi.entries[p].call == me.entries[p].call {
      assert CallKept(s, mi.entries[p].call, me.entries[p].call);
    }
  }

  /** Sound fragments are routed. */
  lemma SoundIsRouted(steps: seq<RStep>)
    requires Live(steps) && AllSound(steps)
    ensures AllRouted(steps)
  {
    hide *;
    forall i | 0 <= i <= |steps| ensures ReadSame(steps[..i]) {
      SoundPrefix(steps, i);
      LiveKeeps(steps[..i]);
      KeptReads(steps[..i]);
    }
    LiveSame(steps);
  }

  lemma SoundPrefix(steps: seq<RStep>, i: nat)
    requires Live(steps) && AllSound(steps) && i <= |steps|
    ensures Live(steps[..i]) && AllSound(steps[..i])
  {
    hide MeanSteps, Sound;
    assert forall j | 0 <= j < i :: steps[..i][..j] == steps[..j] && steps[..i][j] == steps[j];
  }

  lemma KeptReads(steps: seq<RStep>)
    requires var r := ReactAll(INIT, steps);
             Keeps(r.state, MeanSteps(NOTHING, steps), MeanEvents(NOTHING, r.events))
    ensures ReadSame(steps)
  {
    hide Keeps, ReactAll, MeanSteps, MeanEvents, SameContent;
    var r := ReactAll(INIT, steps);
    KeptIsSame(r.state, MeanSteps(NOTHING, steps), MeanEvents(NOTHING, r.events));
  }

  // ----- the finish -----

  function FinishRead(f: Finish, calls: bool): Finish {
    if f == Length then Length else if calls then ToolCalls else Stop
  }

  /** The session lists a call exactly if the client has seen one, and no finish is out. */
  ghost predicate CallsShown(s: State, me: Meaning) {
    && me.finish == None
    && (me.entries != [] <==> exists i :: 0 <= i < |s.entries| && s.entries[i].CallEntry?)
    && (forall i | 0 <= i < |s.entries| && s.entries[i].CallEntry? :: s.entries[i].callId in s.calls)
  }

  lemma ShownSame(s: State, me: Meaning, s': State, me': Meaning)
    requires CallsShown(s, me) && s'.entries == s.entries && s.calls.Keys <= s'.calls.Keys
    requires me'.finish == me.finish && |me'.entries| == |me.entries|
    ensures CallsShown(s', me')
  {
  }

  lemma ShownPush(s: State, me: Meaning, s': State, me': Meaning, e: OutEntry)
    requires CallsShown(s, me) && s'.entries == s.entries + [e] && s.calls.Keys <= s'.calls.Keys
    requires me'.finish == me.finish && |me'.entries| == |me.entries| + if e.CallEntry? then 1 else 0
    requires e.CallEntry? ==> e.callId in s'.calls
    ensures CallsShown(s', me')
  {
    if i :| 0 <= i < |s.entries| && s.entries[i].CallEntry? { assert s'.entries[i].CallEntry?; }
    if e.CallEntry? { assert s'.entries[|s.entries|].CallEntry?; }
  }

  lemma TextShows(s: State, me: Meaning, text: string)
    requires CallsShown(s, me)
    ensures CallsShown(SayText(s, text).state, MeanEvents(me, SayText(s, text).events))
  {
    hide CallsShown, MeanEvents, Grow, AppendItemText;
    MeanText(me, s, text);
    var s', me' := SayText(s, text).state, me.(text := me.text + text);
    if s.activeText.Some? {
      ShownSame(s, me, s', me');
    } else {
      ShownPush(s, me, s', me', MessageEntry(s.outputIndex));
    }
  }

  lemma ReasonShows(s: State, me: Meaning, text: string)
    requires CallsShown(s, me)
    ensures CallsShown(SayReasoning(s, text).state, MeanEvents(me, SayReasoning(s, text).events))
  {
    hide CallsShown, MeanEvents, Grow, ReasoningAt;
    MeanReason(me, s, text);
    var s', me' := SayReasoning(s, text).state, me.(reasoning := me.reasoning + text);
    if s.reasoningStarted {
      ShownSame(s, me, s', me');
    } else {
      ShownPush(s, me, s', me', ReasoningEntry(s.outputIndex));
    }
  }

  lemma CloseShows(s: State, me: Meaning)
    requires CallsShown(s, me)
    ensures CallsShown(CloseText(s).state, MeanEvents(me, CloseText(s).events))
  {
    MeanClose(me, s);
    hide CallsShown, MeanEvents, ItemText, MessageDone;
    ShownSame(s, me, CloseText(s).state, me);
  }

  lemma ContinuedShows(s: State, me: Meaning, f: Fragment)
    requires CallsShown(s, me) && f.name == ""
    ensures CallsShown(CallFragment(s, f).state, MeanEvents(me, CallFragment(s, f).events))
  {
    hide CallsShown, MeanEvents, Grow, CallIdOf, IndexOf, AddArgs;
    var r := CallFragment(s, f);
    if Or(f.args, "") == "" {
      MeanNone(me);
    } else {
      assert r.events == [r.events[0]] && r.events[0].ArgsDelta?;
      MeanOne(me, r.events[0]);
      var target := r.events[0].target;
      if target.Some? && IndexOf(me.entries, target.value) != -1 {
        AddArgsLength(me.entries, IndexOf(me.entries, target.value), Or(f.args, ""));
      }
    }
    ShownSame(s, me, r.state, MeanEvents(me, r.events));
  }

  lemma OpenedShows(s: State, me: Meaning, f: Fragment)
    requires CallsShown(s, me) && f.name != ""
    ensures CallsShown(CallFragment(s, f).state, MeanEvents(me, CallFragment(s, f).events))
  {
    hide CallsShown, MeanEvents, Grow, GivenId;
    OpenedMeans(s, me, f);
    var id, r := GivenId(s, f), CallFragment(s, f);
    ShownPush(s, me, r.state, MeanEvents(me, r.events), CallEntry(s.outputIndex, id));
  }

  lemma ActShows(s: State, me: Meaning, step: RStep)
    requires CallsShown(s, me) && !step.FinishStep? && s.pending.None?
    ensures CallsShown(Act(s, step).state, MeanEvents(me, Act(s, step).events))
  {
    hide CallsShown, MeanEvents, CallFragment, SayText, CloseText, SayReasoning, Accumulate;
    MeanNone(me);
    match step
    case TextStep(t) => TextShows(s, me, t);
    case ReasonStep(t) => ReasonShows(s, me, t);
    case SwitchStep => CloseShows(s, me);
    case FragmentStep(f) => if f.name == "" { ContinuedShows(s, me, f); } else { OpenedShows(s, me, f); }
    case UsageStep(u) => ShownSame(s, me, s.(tokens := Accumulate(s.tokens, u)), me);
    case _ =>
  }

  lemma {:induction false} LiveShows(steps: seq<RStep>)
    requires Live(steps)
    ensures CallsShown(ReactAll(INIT, steps).state, MeanEvents(NOTHING, ReactAll(INIT, steps).events))
  {
    hide Act, Live, CallsShown, MeanEvents, Unfinished;
    if steps == [] {
      NothingShown();
    } else {
      var init, last := steps[..|steps| - 1], steps[|steps| - 1];
      var before := ReactAll(INIT, init);
      var me, r := MeanEvents(NOTHING, before.events), Act(before.state, last);
      UnsnocLive(steps);
      LiveShows(init);
      CreatedFlag(init);
      NotWithheld(before.state);
      ActShows(before.state, me, last);
      MeanAnnounced(me, r);
      ShownSame(r.state, MeanEvents(me, r.events), React(before.state, last).state, MeanEvents(me, r.events));
      MeanEventsConcat(NOTHING, before.events, React(before.state, last).events);
    }
  }

  lemma NotWithheld(s: State)
    requires Unfinished(s)
    ensures s.pending.None?
  {
  }

  lemma NothingShown()
    ensures CallsShown(INIT, MeanEvents(NOTHING, []))
  {
  }

  lemma ShownListed(s: State, me: Meaning)
    requires CallsShown(s, me)
    ensures HasCall(BuildOutput(s)) <==> me.entries != []
  {
    OutputCalls(s, s.entries);
    hide BuildItems;
  }

  /** The finish a client reads depends only on the truncation mark and on whether it has seen a call. */
  lemma FinishIs(st: RStream)
    requires Proper(st)
    ensures var me := MeanEvents(NOTHING, Converted(Flat(st)));
            me.finish == if Flat(st) == [] then None else Some(FinishRead(Or(st.end, Stop), me.entries != []))
  {
    hide MeanEvents, ReactAll, Converted, DoneAll, FinalTokens, BuildOutput, Flat, HasCall, CallsShown;
    if Flat(st) == [] {
      MeanNothingSent();
    } else {
      var live := ReactAll(INIT, st.live);
      var me, done := MeanEvents(NOTHING, live.events), DoneAll(live.state, live.state.entries);
      ProperIsLive(st);
      LiveShows(st.live);
      ShownListed(live.state, me);
      NoFinishShown(live.state, me);
      ConvertedShape(st);
      var last := Completed(FinalResponse(live.state, Or(st.end, Stop)).(tokens := FinalTokens(st)));
      MeanDone(me, live.state, live.state.entries);
      MeanEventsConcat(NOTHING, live.events, done);
      MeanEventsConcat(NOTHING, live.events + done, [last]);
      MeanOne(me, last);
    }
  }

  lemma NoFinishShown(s: State, me: Meaning)
    requires CallsShown(s, me)
    ensures me.finish == None
  {
  }

  /** For every proper and routed stream, cut anywhere: the client reads the same text, reasoning and tool calls,
      and, if anything arrived, a finish that depends only on the truncation mark and on whether there were calls. */
  lemma MeaningKept(st: RStream)
    requires Proper(st) && AllRouted(st.live)
    ensures var mi, me := MeanSteps(NOTHING, Flat(st)), MeanEvents(NOTHING, Converted(Flat(st)));
            && SameContent(mi, me)
            && me.finish == if Flat(st) == [] then None else Some(FinishRead(Or(st.end, Stop), mi.entries != []))
  {
    hide MeanEvents, MeanSteps, Converted, Flat, AllRouted;
    MeaningKeptIffRouted(st);
    var n := |Flat(st)|;
    assert Flat(st)[..n] == Flat(st) && SaysSame(Flat(st)[..n]);
    FinishIs(st);
  }

  /** The finish reason survives when it is `length`, when it is `tool_calls` and there is a call, and when it is
      `stop` and there is none; in no other case, except that an empty stream has none on either side. */
  lemma FinishSurvives(st: RStream)
    requires Proper(st) && AllRouted(st.live)
    ensures var mi, me := MeanSteps(NOTHING, Flat(st)), MeanEvents(NOTHING, Converted(Flat(st)));
            me.finish == mi.finish <==>
            Flat(st) == [] || st.end == Some(Length) || st.end == Some(if mi.entries != [] then ToolCalls else Stop)
  {
    MeaningKept(st);
    MeanFlat(st);
    hide AllRouted, MeanSteps, MeanEvents, Converted;
  }

  // ----- streams that are misread -----

  lemma OneStep(step: RStep)
    requires !step.FinishStep?
    ensures SaysSame([step]) <==> RoutedStep(INIT, NOTHING, NOTHING, step)
  {
    hide React, SameContent, RoutedStep, MeanStep, Converted;
    var st := RStream([step], None, []);
    assert [step][..0] == [];
    NothingRead();
    SameNext([step]);
    FlatSame(st);
  }

  /** A name that is sent again for a call opens another one. */
  lemma NameTwiceMisread()
    ensures var steps := [FragmentStep(FIRST), FragmentStep(FIRST)];
            SaysSame(steps[..1]) && !SaysSame(steps)
  {
    hide ReactAll, React, Converted, SameContent, MeanEvents;
    var first := FragmentStep(FIRST);
    var steps := [first, first];
    assert steps[..1] == [first] && [first][..0] == [];
    OneStep(first);
    assert MeanSteps(NOTHING, [first]) == MeanStep(NOTHING, first);
    assert NOTHING.entries + [Entry(0, ToolCall("c", "f", "1"))] == [Entry(0, ToolCall("c", "f", "1"))];
    FlatSame(RStream([first], None, []));
    FlatSame(RStream(steps, None, []));
    SameNext(steps);
  }

  /** A call without an id is given one. */
  lemma IdlessMisread(f: Fragment)
    requires f.name != "" && f.id == ""
    ensures !SaysSame([FragmentStep(f)])
  {
    OneStep(FragmentStep(f));
    hide SaysSame;
  }

  // ----- chunks -----

  function FoldCalls(entries: seq<ChatStream.Entry>, fs: seq<Fragment>): seq<ChatStream.Entry> {
    if fs == [] then entries
    else
      var f := fs[|fs| - 1];
      MeanCall(FoldCalls(entries, fs[..|fs| - 1]), Or(f.index, 0), f.id, f.name, Or(f.args, ""))
  }

  lemma {:induction false} MeanCallSteps(m: Meaning, chunk: Chunk, fs: seq<Fragment>)
    ensures MeanSteps(m, CallSteps(fs)) == m.(entries := FoldCalls(m.entries, fs))
    ensures MeanAll(m, CallItems(chunk, fs)) == m.(entries := FoldCalls(m.entries, fs))
  {
    hide MeanCall;
    if fs != [] {
      var n := |fs| - 1;
      MeanCallSteps(m, chunk, fs[..n]);
      assert CallSteps(fs)[..n] == CallSteps(fs[..n]);
      assert CallItems(chunk, fs)[..n] == CallItems(chunk, fs[..n]);
    }
  }

  predicate RoleChunk(chunk: Chunk) {
    HasChoice(chunk) && chunk.choices[0].value.delta.assistant
  }

  lemma MeanStepMaybe(m: Meaning, before: seq<RStep>, c: bool, step: RStep)
    ensures MeanSteps(m, before + if c then [step] else []) ==
            if c then MeanStep(MeanSteps(m, before), step) else MeanSteps(m, before)
  {
    if c {
      assert (before + [step])[..|before|] == before;
    } else {
      assert before + [] == before;
    }
  }

  lemma MeanItemMaybe(m: Meaning, before: seq<Item>, c: bool, item: Item)
    ensures MeanAll(m, before + if c then [item] else []) ==
            if c then Mean(MeanAll(m, before), item.step) else MeanAll(m, before)
  {
    if c {
      assert (before + [item])[..|before|] == before;
    } else {
      assert before + [] == before;
    }
  }

  /** What a chunk with one choice means, read in the order of the Chat protocol. */
  function ChunkMeaning(m: Meaning, d: Delta, finish: Option<Finish>): Meaning {
    var said := m.(reasoning := m.reasoning + Or(d.reasoning, ""), text := m.text + Or(d.content, ""),
                   entries := FoldCalls(m.entries, d.calls));
    if finish.Some? && m.finish.None? then said.(finish := finish) else said
  }

  lemma ItemsMean(m: Meaning, chunk: Chunk)
    requires HasChoice(chunk)
    ensures var c := chunk.choices[0].value; MeanAll(m, Items(chunk)) == ChunkMeaning(m, c.delta, c.finish)
  {
    hide MeanAll, FoldCalls;
    var choice := chunk.choices[0].value;
    var d := choice.delta;
    var none: seq<Item> := [];
    var a := none + if d.assistant then [Item(chunk, Begin)] else [];
    var b := a + if Or(d.reasoning, "") != "" then [Item(chunk, Reason(d.reasoning.value))] else [];
    var c := b + if Or(d.content, "") != "" then [Item(chunk, Say(d.content.value))] else [];
    var e := c + CallItems(chunk, d.calls);
    assert MeanAll(m, none) == m by { MeanTail(m, none); }
    MeanItemMaybe(m, none, d.assistant, Item(chunk, Begin));
    MeanItemMaybe(m, a, Or(d.reasoning, "") != "", Item(chunk, Reason(Or(d.reasoning, ""))));
    MeanItemMaybe(m, b, Or(d.content, "") != "", Item(chunk, Say(Or(d.content, ""))));
    MeanAllConcat(m, c, CallItems(chunk, d.calls));
    MeanCallSteps(MeanAll(m, c), chunk, d.calls);
    MeanItemMaybe(m, e, choice.finish.Some?, Item(chunk, End(Or(choice.finish, Stop))));
    assert m.reasoning + "" == m.reasoning && m.text + "" == m.text;
    assert none + (if d.assistant then [Item(chunk, Begin)] else []) ==
           if d.assistant then [Item(chunk, Begin)] else [];
  }

  lemma StepsMean(m: Meaning, chunk: Chunk)
    requires HasChoice(chunk) && |chunk.choices| == 1
    ensures var c := chunk.choices[0].value;
            MeanSteps(m, Steps(chunk)) == if c.delta.assistant then m else ChunkMeaning(m, c.delta, c.finish)
  {
    hide MeanSteps, FoldCalls;
    var choice := chunk.choices[0].value;
    var d := choice.delta;
    var usage := [UsageStep(chunk.usage)];
    MeanRest(m, usage);
    MeanStepsConcat(m, usage, ChoiceSteps(chunk));
    var none: seq<RStep> := [];
    var a := none + if d.content.Some? then [TextStep(d.content.value)] else [];
    var b := a + if d.calls != [] then [SwitchStep] else [];
    var c := b + CallSteps(d.calls);
    var e := c + if d.reasoning.Some? then [ReasonStep(d.reasoning.value)] else [];
    MeanRest(m, none);
    MeanStepMaybe(m, none, d.content.Some?, TextStep(Or(d.content, "")));
    MeanStepMaybe(m, a, d.calls != [], SwitchStep);
    MeanStepsConcat(m, b, CallSteps(d.calls));
    MeanCallSteps(MeanSteps(m, b), chunk, d.calls);
    MeanStepMaybe(m, c, d.reasoning.Some?, ReasonStep(Or(d.reasoning, "")));
    MeanStepMaybe(m, e, choice.finish.Some?, FinishStep(Or(choice.finish, Stop)));
    assert m.reasoning + "" == m.reasoning && m.text + "" == m.text;
    if d.assistant {
      assert [RoleStep] == none + [RoleStep];
      MeanStepMaybe(m, none, true, RoleStep);
    } else {
      assert none + (if d.content.Some? then [TextStep(d.content.value)] else []) ==
             if d.content.Some? then [TextStep(d.content.value)] else [];
    }
  }

  /** Nothing that a client with this meaning would notice. */
  ghost predicate Unheard(m: Meaning, c: Choice) {
    && Or(c.delta.content, "") == "" && Or(c.delta.reasoning, "") == "" && (c.finish.None? || m.finish.Some?)
    && Idle(m.entries, c.delta.calls)
  }

  /** Fragments of known calls without arguments. */
  ghost predicate Idle(entries: seq<ChatStream.Entry>, fs: seq<Fragment>) {
    forall i | 0 <= i < |fs| :: IndexOf(entries, Or(fs[i].index, 0)) != -1 && Or(fs[i].args, "") == ""
  }

  /** Whatever else a role chunk carries is lost: after any stream it is read as meant exactly when it carries nothing
      that would be noticed. */
  lemma RoleChunkMeansNothing(m: Meaning, chunk: Chunk)
    requires RoleChunk(chunk) && |chunk.choices| == 1
    ensures MeanSteps(m, Steps(chunk)) == m
    ensures MeanSteps(m, Steps(chunk)) == MeanAll(m, Items(chunk)) <==> Unheard(m, chunk.choices[0].value)
  {
    StepsMean(m, chunk);
    ItemsMean(m, chunk);
    hide MeanSteps, MeanAll, Steps, Items, FoldCalls, Idle;
    var c := chunk.choices[0].value;
    FoldSame(m.entries, c.delta.calls);
    Unsaid(m.reasoning, Or(c.delta.reasoning, ""));
    Unsaid(m.text, Or(c.delta.content, ""));
  }

  lemma Unsaid(s: string, t: string)
    ensures s + t == s <==> t == ""
  {
    if t != "" { assert |s + t| > |s|; }
  }

  /** Calls are never lost, and their arguments only grow. */
  ghost predicate GrowsTo(a: seq<ChatStream.Entry>, b: seq<ChatStream.Entry>) {
    && |a| <= |b|
    && forall j | 0 <= j < |a| ::
         && a[j].key == b[j].key && a[j].call.id == b[j].call.id && a[j].call.name == b[j].call.name
         && |a[j].call.args| <= |b[j].call.args| && (|a[j].call.args| == |b[j].call.args| ==> a[j] == b[j])
  }

  lemma CallGrows(entries: seq<ChatStream.Entry>, key: int, id: string, name: string, args: string)
    ensures GrowsTo(entries, MeanCall(entries, key, id, name, args))
    ensures MeanCall(entries, key, id, name, args) == entries <==> IndexOf(entries, key) != -1 && args == ""
  {
    var p := IndexOf(entries, key);
    hide IndexOf;
    if p != -1 {
      Unsaid(entries[p].call.args, args);
      assert AddArgs(entries, p, args)[p].call.args == entries[p].call.args + args;
      if args == "" { SameArgs(entries, p); }
    }
  }

  lemma GrowsOn(a: seq<ChatStream.Entry>, b: seq<ChatStream.Entry>, c: seq<ChatStream.Entry>)
    requires GrowsTo(a, b) && GrowsTo(b, c)
    ensures GrowsTo(a, c) && (a == c ==> a == b)
  {
    assert forall j | 0 <= j < |a| :: b[j].key == a[j].key && |a[j].call.args| <= |b[j].call.args|;
  }

  lemma IdleSnoc(entries: seq<ChatStream.Entry>, fs: seq<Fragment>)
    requires fs != []
    ensures var n := |fs| - 1;
            Idle(entries, fs) <==>
            Idle(entries, fs[..n]) && IndexOf(entries, Or(fs[n].index, 0)) != -1 && Or(fs[n].args, "") == ""
  {
    hide IndexOf;
    var n := |fs| - 1;
    assert forall i | 0 <= i < n :: fs[..n][i] == fs[i];
  }

  lemma {:induction false} FoldSame(entries: seq<ChatStream.Entry>, fs: seq<Fragment>)
    ensures GrowsTo(entries, FoldCalls(entries, fs))
    ensures FoldCalls(entries, fs) == entries <==> Idle(entries, fs)
  {
    hide MeanCall, IndexOf, Idle, GrowsTo;
    if fs == [] {
      NoneFolded(entries);
    } else {
      var n := |fs| - 1;
      var f, before := fs[n], FoldCalls(entries, fs[..n]);
      FoldSame(entries, fs[..n]);
      CallGrows(before, Or(f.index, 0), f.id, f.name, Or(f.args, ""));
      GrowsOn(entries, before, FoldCalls(entries, fs));
      IdleSnoc(entries, fs);
    }
  }

  lemma NoneFolded(entries: seq<ChatStream.Entry>)
    ensures Idle(entries, []) && GrowsTo(entries, entries)
  {
  }

  function AllSteps(chunks: seq<Chunk>): seq<RStep> {
    if chunks == [] then [] else AllSteps(chunks[..|chunks| - 1]) + Steps(chunks[|chunks| - 1])
  }

  /** Nothing but perhaps a role. */
  predicate RoleOnly(c: Choice) {
    Or(c.delta.content, "") == "" && Or(c.delta.reasoning, "") == "" && c.delta.calls == [] && c.finish.None?
  }

  /** One choice at most, and nothing beside a role. */
  predicate Readable(chunk: Chunk) {
    HasChoice(chunk) ==>
      && |chunk.choices| == 1
      && var c := chunk.choices[0].value;
         c.delta.assistant ==> RoleOnly(c)
  }

  lemma ReadableMeans(m: Meaning, chunk: Chunk)
    requires Readable(chunk)
    ensures MeanSteps(m, Steps(chunk)) == MeanAll(m, Items(chunk))
  {
    if HasChoice(chunk) {
      StepsMean(m, chunk);
      ItemsMean(m, chunk);
      assert FoldCalls(m.entries, []) == m.entries;
      assert m.reasoning + "" == m.reasoning && m.text + "" == m.text;
    } else {
      MeanRest(m, Steps(chunk));
      MeanTail(m, Items(chunk));
    }
    hide MeanSteps, MeanAll, Steps, Items;
  }

  /** The steps of readable chunks mean what the chunks mean. */
  lemma {:induction false} StepsMeanChunks(chunks: seq<Chunk>)
    requires forall i | 0 <= i < |chunks| :: Readable(chunks[i])
    ensures MeanSteps(NOTHING, AllSteps(chunks)) == MeanChunks(NOTHING, chunks)
  {
    hide Readable, Steps, Items, MeanSteps, MeanAll;
    if chunks == [] {
      MeanRest(NOTHING, []);
      MeanTail(NOTHING, []);
    } else {
      var n := |chunks| - 1;
      StepsMeanChunks(chunks[..n]);
      MeanStepsConcat(NOTHING, AllSteps(chunks[..n]), Steps(chunks[n]));
      MeanAllConcat(NOTHING, AllItems(chunks[..n]), Items(chunks[n]));
      ReadableMeans(MeanChunks(NOTHING, chunks[..n]), chunks[n]);
    }
  }
}
