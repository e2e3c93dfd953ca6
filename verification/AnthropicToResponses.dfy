/**
 Anthropic events to Responses events (converters/stream_anthropic_to_response.py): every block is an
 output item, closed by its own stop or by the end of the stream.
 */
module AnthropicToResponses {
  import opened Wrappers
  import opened ChatStream
  import opened ResponsesStream
  import A = AnthropicStream
  import R = ChatToResponses

  /** An entry of `anthropic_content_blocks`; `callId` is "" for a block that is not a call. */
  datatype BlockData = BlockData(index: int, kind: A.Kind, out: nat, callId: string, closed: bool)

  /** `core` is the part of the session that both Responses directions share. `blocks` is a dictionary in
      insertion order; `input` and `output` are the usage known so far. */
  datatype State = State(core: R.State, blocks: seq<BlockData>, input: int, output: int)

  const INIT: State := State(R.INIT, [], 0, 0)

  datatype Reaction = Reaction(state: State, events: seq<Event>)

  // ----- the block table -----

  function Find(blocks: seq<BlockData>, index: int): (p: int)
    ensures -1 <= p < |blocks|
    ensures p != -1 ==> blocks[p].index == index
  {
    if blocks == [] then -1
    else if blocks[|blocks| - 1].index == index then |blocks| - 1
    else Find(blocks[..|blocks| - 1], index)
  }

  /** A key that is there keeps its place. */
  function Put(blocks: seq<BlockData>, b: BlockData): seq<BlockData> {
    var p := Find(blocks, b.index);
    if p == -1 then blocks + [b] else blocks[p := b]
  }

  // ----- the moves of the session -----

  function HeadOf(b: A.Block): ItemHead {
    match b
    case TextBlock => MessageHead
    case ThinkingBlock => ReasoningHead
    case ToolBlock(id, name) => CallHead(id, name)
  }

  /** content_block_start */
  function OpenBlock(s: State, index: int, b: A.Block): Reaction {
    var c, out := s.core, s.core.outputIndex;
    var data := BlockData(index, A.KindOf(b), out, if b.ToolBlock? then b.id else "", false);
    var c' := match b
      case TextBlock => c.(itemTexts := c.itemTexts[out := ""], entries := c.entries + [R.MessageEntry(out)])
      case ThinkingBlock => c.(reasoningStarted := true, entries := c.entries + [R.ReasoningEntry(out)])
      case ToolBlock(id, name) =>
        c.(calls := c.calls[id := R.CallData(name, "", out)], entries := c.entries + [R.CallEntry(out, id)]);
    Reaction(s.(core := c'.(outputIndex := out + 1), blocks := Put(s.blocks, data)),
             [ItemAdded(out, HeadOf(b))] + if b.ToolBlock? then [] else [PartAdded(out)])
  }

  /** text_delta; a delta without a block is only counted to the whole text. */
  function SayText(s: State, index: int, text: string): Reaction {
    var p, c := Find(s.blocks, index), s.core;
    var texts := if p == -1 then c.itemTexts else R.AppendItemText(c.itemTexts, s.blocks[p].out, text);
    Reaction(s.(core := c.(text := Grow(c.text, text), itemTexts := texts)),
             [TextDelta(if p == -1 then index else s.blocks[p].out, text)])
  }

  /** input_json_delta */
  function SayArgs(s: State, index: int, args: string): Reaction {
    var p, c := Find(s.blocks, index), s.core;
    var id := if p == -1 then "" else s.blocks[p].callId;
    var calls := if id in c.calls then c.calls[id := c.calls[id].(args := Grow(c.calls[id].args, args))] else c.calls;
    Reaction(s.(core := c.(calls := calls)), [ArgsDelta(Some(if p == -1 then index else s.blocks[p].out), args)])
  }

  /** thinking_delta; the first of a stream that has no thinking block makes one up. */
  function SayThinking(s: State, index: int, text: string): Reaction {
    var c := s.core.(reasoning := Grow(s.core.reasoning, text));
    if c.reasoningStarted then
      var p := Find(s.blocks, index);
      Reaction(s.(core := c), [ReasoningDelta(if p == -1 then 0 else s.blocks[p].out, text)])
    else
      var out := c.outputIndex;
      Reaction(s.(core := c.(reasoningStarted := true, outputIndex := out + 1),
                  blocks := Put(s.blocks, BlockData(index, A.Thinking, out, "", false))),
               [ItemAdded(out, ReasoningHead), PartAdded(out), ReasoningDelta(out, text)])
  }

  /** `build_block_done_events` */
  function BlockDone(s: State, b: BlockData): seq<Event> {
    match b.kind
    case Text => MessageDone(b.out, R.ItemText(s.core, b.out), Some(Message(R.ItemText(s.core, b.out))))
    case Thinking => ReasoningDoneAll(b.out, s.core.reasoning, Some(Reasoning(s.core.reasoning)))
    case ToolUse =>
      var data := if b.callId in s.core.calls then s.core.calls[b.callId] else R.CallData("", "", 0);
      CallDone(b.out, data.name, data.args, Some(FunctionCall(b.callId, data.name, data.args)))
  }

  /** content_block_stop */
  function CloseBlock(s: State, index: int): Reaction {
    var p := Find(s.blocks, index);
    if p == -1 || s.blocks[p].closed then Reaction(s, [])
    else Reaction(s.(blocks := s.blocks[p := s.blocks[p].(closed := true)]), BlockDone(s, s.blocks[p]))
  }

  function FinalResponse(s: State, f: Finish): Response {
    Response(f == Length, R.BuildOutput(s.core), s.core.text,
             Tokens(s.input, s.output, s.input + s.output, Some(0), None))
  }

  function Complete(s: State, f: Finish): Reaction {
    Reaction(s.(core := s.core.(completedSent := true)), [Completed(FinalResponse(s, f))])
  }

  /** The finish a message_delta reports. */
  function StopOf(e: A.Event): Finish
    requires e.MessageDelta?
  {
    if e.stop.None? then Stop else A.ParseStop(e.stop.value)
  }

  /** `anthropic_stream_chunk_to_response` */
  function React(s: State, e: A.Event): Reaction {
    match e
    case MessageStart(_, _, input) =>
      Reaction(s.(input := s.input + input, core := s.core.(createdSent := true)),
               if s.core.createdSent then [] else [Created, InProgress])
    case BlockStart(i, b) => OpenBlock(s, i, b)
    case DeltaEvent(i, TextDelta(t)) => SayText(s, i, t)
    case DeltaEvent(i, JsonDelta(t)) => SayArgs(s, i, t)
    case DeltaEvent(i, ThinkingDelta(t)) => SayThinking(s, i, t)
    case DeltaEvent(_, SignatureDelta) => Reaction(s, [])
    case BlockStop(i) => CloseBlock(s, i)
    case MessageDelta(stop, output) =>
      var s' := s.(output := output);
      if s.core.completedSent then Reaction(s', [])
      else Complete(s', StopOf(e))
    case MessageStop => Reaction(s, [])
  }

  function ReactAll(s: State, es: seq<A.Event>): Reaction {
    if es == [] then Reaction(s, [])
    else
      var before := ReactAll(s, es[..|es| - 1]);
      var last := React(before.state, es[|es| - 1]);
      Reaction(last.state, before.events + last.events)
  }

  function OpenDone(s: State, blocks: seq<BlockData>): seq<Event> {
    if blocks == [] then []
    else
      var last := blocks[|blocks| - 1];
      OpenDone(s, blocks[..|blocks| - 1]) + if last.closed then [] else BlockDone(s, last)
  }

  /** `finalize_anthropic_stream` */
  function Finalize(s: State): Reaction {
    if s.core.completedSent then Reaction(s, [])
    else
      var done := OpenDone(s, s.blocks);
      var closed := seq(|s.blocks|, i requires 0 <= i < |s.blocks| => s.blocks[i].(closed := true));
      var last := Complete(s.(blocks := closed), Stop);
      Reaction(last.state, done + last.events)
  }

  /** All events a client receives when the upstream ends after these events; an empty upstream gets none. */
  function Converted(es: seq<A.Event>): seq<Event> {
    if es == [] then [] else ReactAll(INIT, es).events + Finalize(ReactAll(INIT, es).state).events
  }

  // ----- what holds of every event sequence whatsoever -----

  lemma OneCompleted(s: State, f: Finish)
    ensures CompletedCount(Complete(s, f).events) == 1
  {
    assert Complete(s, f).events[..0] == [];
  }

  /** `r` sends no terminal event. */
  ghost predicate Quiet(s: State, r: Reaction) {
    && (forall i | 0 <= i < |r.events| :: !r.events[i].Completed?)
    && r.state.core.completedSent == s.core.completedSent
  }

  lemma OpenIsQuiet(s: State, i: int, b: A.Block)
    ensures Quiet(s, OpenBlock(s, i, b))
  {
    hide Put;
  }

  lemma SaysAreQuiet(s: State, i: int, t: string)
    ensures Quiet(s, SayText(s, i, t)) && Quiet(s, SayArgs(s, i, t)) && Quiet(s, SayThinking(s, i, t))
  {
    hide Find, Put, Grow, R.AppendItemText;
  }

  lemma CloseIsQuiet(s: State, i: int)
    ensures Quiet(s, CloseBlock(s, i))
  {
    hide Find, R.ItemText;
  }

  lemma ReactIsQuiet(s: State, e: A.Event)
    requires e.MessageDelta? ==> s.core.completedSent
    ensures Quiet(s, React(s, e))
  {
    hide OpenBlock, SayText, SayArgs, SayThinking, CloseBlock, Complete;
    match e
    case BlockStart(i, b) => OpenIsQuiet(s, i, b);
    case DeltaEvent(i, TextDelta(t)) => SaysAreQuiet(s, i, t);
    case DeltaEvent(i, JsonDelta(t)) => SaysAreQuiet(s, i, t);
    case DeltaEvent(i, ThinkingDelta(t)) => SaysAreQuiet(s, i, t);
    case BlockStop(i) => CloseIsQuiet(s, i);
    case _ =>
  }

  lemma ReactCounts(s: State, e: A.Event)
    ensures var r := React(s, e);
            CompletedCount(r.events) + (if s.core.completedSent then 1 else 0) ==
            if r.state.core.completedSent then 1 else 0
  {
    if e.MessageDelta? && !s.core.completedSent {
      OneCompleted(s.(output := e.outputTokens), StopOf(e));
      hide FinalResponse, CompletedCount;
    } else {
      ReactIsQuiet(s, e);
      hide React;
      NotCompleted(React(s, e).events);
    }
  }

  lemma {:induction false} ReactAllCounts(es: seq<A.Event>)
    ensures var r := ReactAll(INIT, es); CompletedCount(r.events) == if r.state.core.completedSent then 1 else 0
  {
    if es != [] {
      hide React, CompletedCount;
      var before := ReactAll(INIT, es[..|es| - 1]);
      ReactAllCounts(es[..|es| - 1]);
      ReactCounts(before.state, es[|es| - 1]);
      CompletedCountConcat(before.events, React(before.state, es[|es| - 1]).events);
    }
  }

  lemma BlockDoneCounts(s: State, b: BlockData)
    ensures CompletedCount(BlockDone(s, b)) == 0
  {
    hide R.ItemText, CompletedCount;
    NotCompleted(BlockDone(s, b));
  }

  lemma {:induction false} OpenDoneCounts(s: State, blocks: seq<BlockData>)
    ensures CompletedCount(OpenDone(s, blocks)) == 0
  {
    if blocks == [] {
      NotCompleted([]);
    } else {
      hide CompletedCount, BlockDone;
      var n := |blocks| - 1;
      OpenDoneCounts(s, blocks[..n]);
      BlockDoneCounts(s, blocks[n]);
      NotCompleted([]);
      CompletedCountConcat(OpenDone(s, blocks[..n]), if blocks[n].closed then [] else BlockDone(s, blocks[n]));
    }
  }

  /** Whatever arrives, and wherever it ends: exactly one response.completed, unless nothing arrives at all. */
  lemma ExactlyOneCompleted(es: seq<A.Event>)
    ensures CompletedCount(Converted(es)) == if es == [] then 0 else 1
  {
    if es == [] {
      NotCompleted([]);
      return;
    }
    hide ReactAll, CompletedCount, Finalize;
    ReactAllCounts(es);
    var r := ReactAll(INIT, es);
    FinalizeCounts(r.state);
    CompletedCountConcat(r.events, Finalize(r.state).events);
  }

  lemma FinalizeCounts(s: State)
    ensures CompletedCount(Finalize(s).events) == if s.core.completedSent then 0 else 1
  {
    hide CompletedCount, OpenDone, FinalResponse;
    if s.core.completedSent {
      NotCompleted([]);
    } else {
      OpenDoneCounts(s, s.blocks);
      var closed := seq(|s.blocks|, i requires 0 <= i < |s.blocks| => s.blocks[i].(closed := true));
      OneCompleted(s.(blocks := closed), Stop);
      CompletedCountConcat(OpenDone(s, s.blocks), Complete(s.(blocks := closed), Stop).events);
    }
  }

  // ----- the session mirrors the assembling client -----

  function Extend(item: OutItem, d: A.BlockDelta): OutItem {
    match (item, d)
    case (Message(t), TextDelta(u)) => Message(t + u)
    case (Reasoning(t), ThinkingDelta(u)) => Reasoning(t + u)
    case (FunctionCall(id, name, args), JsonDelta(u)) => FunctionCall(id, name, args + u)
    case _ => item
  }

  /** The blocks of the upstream as items, folded from their own deltas. */
  function Gather(items: seq<OutItem>, e: A.Event): seq<OutItem> {
    match e
    case BlockStart(_, b) => items + [EmptyItem(HeadOf(b))]
    case DeltaEvent(i, d) => if 0 <= i < |items| then items[i := Extend(items[i], d)] else items
    case _ => items
  }

  function GatherAll(es: seq<A.Event>): seq<OutItem> {
    if es == [] then [] else Gather(GatherAll(es[..|es| - 1]), es[|es| - 1])
  }

  /** All thinking of these blocks, in order. */
  function Thought(items: seq<OutItem>): string {
    if items == [] then ""
    else
      var last := items[|items| - 1];
      Thought(items[..|items| - 1]) + if last.Reasoning? then last.text else ""
  }

  function BlockOf(item: OutItem, j: nat, closed: bool): BlockData {
    match item
    case Message(_) => BlockData(j, A.Text, j, "", closed)
    case FunctionCall(id, _, _) => BlockData(j, A.ToolUse, j, id, closed)
    case Reasoning(_) => BlockData(j, A.Thinking, j, "", closed)
  }

  /** What the session keeps of block `j`. */
  ghost predicate BlockFits(s: State, items: seq<OutItem>, j: nat)
    requires j < |items| == |s.blocks| == |s.core.entries|
  {
    && s.core.entries[j] == R.EntryOf(items[j], j)
    && s.blocks[j] == BlockOf(items[j], j, s.blocks[j].closed)
    && (items[j].Message? ==> j in s.core.itemTexts && s.core.itemTexts[j] == items[j].text)
    && (items[j].Reasoning? ==> s.core.reasoningStarted)
  }

  /** What the session keeps of an id is the latest call that has it. */
  ghost predicate CallFits(c: R.State, items: seq<OutItem>, id: string) {
    && (id in c.calls <==> LastCall(items, id) != -1)
    && (id in c.calls ==>
          var last := items[LastCall(items, id)];
          c.calls[id].name == last.name && c.calls[id].args == Take(last.args))
  }

  /** The session against the items its blocks add up to. */
  ghost predicate Holds(s: State, items: seq<OutItem>) {
    && |items| == |s.blocks| == |s.core.entries| == s.core.outputIndex
    && (forall j | 0 <= j < |items| :: BlockFits(s, items, j))
    && (forall id :: CallFits(s.core, items, id))
    && s.core.reasoning == Take(Thought(items))
    && s.core.createdSent && !s.core.completedSent
  }

  /** How many blocks are closed. */
  function ClosedCount(p: A.Phase): int {
    match p
    case Between(n) => n
    case InBlock(n, _) => n
    case _ => 0
  }

  /** Only the block the upstream is in is open, and it is the last one. */
  ghost predicate PhaseFits(s: State, p: A.Phase) {
    var n := ClosedCount(p);
    && Inside(p) && 0 <= n && |s.blocks| == n + (if p.Between? then 0 else 1)
    && (forall j | 0 <= j < |s.blocks| :: s.blocks[j].closed == (j < n))
    && (p.InBlock? ==> s.blocks[n].kind == p.kind)
  }

  ghost predicate Inside(p: A.Phase) {
    p.Between? || p.InBlock?
  }

  function Slots(items: seq<OutItem>, n: int): (r: seq<Slot>)
    ensures |r| == |items|
    ensures forall i | 0 <= i < |r| :: r[i] == if i < n then DoneSlot(items[i]) else OpenSlot(items[i])
  {
    seq(|items|, i requires 0 <= i < |items| => if i < n then DoneSlot(items[i]) else OpenSlot(items[i]))
  }

  /** A thinking block is closed with the thinking of all blocks so far: right only if that is its own. */
  ghost predicate ClosesRight(items: seq<OutItem>, j: nat)
    requires j < |items|
  {
    items[j].Reasoning? ==> Take(Thought(items[..j + 1])) == Take(items[j].text)
  }

  ghost predicate AllCloseRight(items: seq<OutItem>, n: int)
    requires n <= |items|
  {
    forall j | 0 <= j < n :: ClosesRight(items, j)
  }

  /** Where the strict client stands when the first `n` of these blocks are closed. */
  ghost function Client(items: seq<OutItem>, n: int): Phase
    requires n <= |items|
  {
    if AllCloseRight(items, n) then Running(Slots(items, n)) else Bad
  }

  lemma {:induction false} FindAt(blocks: seq<BlockData>, n: int)
    requires forall j | 0 <= j < |blocks| :: blocks[j].index == j
    ensures Find(blocks, n) == if 0 <= n < |blocks| then n else -1
  {
    if blocks != [] { FindAt(blocks[..|blocks| - 1], n); }
  }

  lemma Indices(s: State, items: seq<OutItem>, n: int)
    requires Holds(s, items)
    ensures |s.blocks| == |items| == |s.core.entries| == s.core.outputIndex
    ensures Find(s.blocks, n) == if 0 <= n < |s.blocks| then n else -1
    ensures forall j | 0 <= j < |items| :: s.blocks[j] == BlockOf(items[j], j, s.blocks[j].closed)
  {
    forall j | 0 <= j < |s.blocks| ensures s.blocks[j] == BlockOf(items[j], j, s.blocks[j].closed) {
      assert BlockFits(s, items, j);
    }
    FindAt(s.blocks, n);
  }

  lemma LastPush(items: seq<OutItem>, x: OutItem, id: string)
    ensures LastCall(items + [x], id) ==
            if x.FunctionCall? && x.callId == id then |items| else LastCall(items, id)
    ensures Thought(items + [x]) == Thought(items) + if x.Reasoning? then x.text else ""
  {
    assert (items + [x])[..|items|] == items;
  }

  /** What opening a block does to the session. */
  lemma OpenIs(s: State, items: seq<OutItem>, b: A.Block)
    requires Holds(s, items)
    ensures var s', x, n := OpenBlock(s, |items|, b).state, EmptyItem(HeadOf(b)), |items|;
            && n == |s.blocks| == |s.core.entries| && s'.core.outputIndex == n + 1
            && s'.blocks == s.blocks + [BlockOf(x, n, false)] && s'.core.entries == s.core.entries + [R.EntryOf(x, n)]
            && s'.core.itemTexts == (if b.TextBlock? then s.core.itemTexts[n := ""] else s.core.itemTexts)
            && s'.core.reasoningStarted == (s.core.reasoningStarted || b.ThinkingBlock?)
            && s'.core.calls == (if b.ToolBlock? then s.core.calls[b.id := R.CallData(b.name, "", n)] else s.core.calls)
            && s'.core.reasoning == s.core.reasoning && s'.core.createdSent && !s'.core.completedSent
            && s.core.reasoning == Take(Thought(items))
  {
    Indices(s, items, |items|);
    hide Find, LastCall, Thought, Take, BlockFits, CallFits;
  }

  lemma OpenedFits(s: State, items: seq<OutItem>, b: A.Block, j: nat)
    requires Holds(s, items) && j <= |items|
    ensures var s', items' := OpenBlock(s, |items|, b).state, items + [EmptyItem(HeadOf(b))];
            |s'.blocks| == |s'.core.entries| == |items'| && BlockFits(s', items', j)
  {
    hide OpenBlock, LastCall, Thought, Take, CallFits;
    OpenIs(s, items, b);
    if j < |items| { assert BlockFits(s, items, j); }
  }

  lemma OpenedCall(s: State, items: seq<OutItem>, b: A.Block, id: string)
    requires Holds(s, items)
    ensures CallFits(OpenBlock(s, |items|, b).state.core, items + [EmptyItem(HeadOf(b))], id)
  {
    hide OpenBlock, LastCall, Thought, Take, BlockFits;
    OpenIs(s, items, b);
    LastPush(items, EmptyItem(HeadOf(b)), id);
    R.TakeNothing();
    assert CallFits(s.core, items, id);
  }

  lemma OpenHolds(s: State, items: seq<OutItem>, b: A.Block)
    requires Holds(s, items)
    ensures Holds(OpenBlock(s, |items|, b).state, items + [EmptyItem(HeadOf(b))])
    ensures OpenBlock(s, |items|, b).state.blocks == s.blocks + [BlockOf(EmptyItem(HeadOf(b)), |items|, false)]
  {
    hide OpenBlock, LastCall, Thought, Take, BlockFits, CallFits;
    OpenIs(s, items, b);
    var s', items' := OpenBlock(s, |items|, b).state, items + [EmptyItem(HeadOf(b))];
    forall j | 0 <= j < |items'| ensures BlockFits(s', items', j) { OpenedFits(s, items, b, j); }
    forall id ensures CallFits(s'.core, items', id) { OpenedCall(s, items, b, id); }
    LastPush(items, EmptyItem(HeadOf(b)), "");
    assert Thought(items) + "" == Thought(items);
  }

  /** A lone change of the last block, and the text, arguments or thinking that goes with it. */
  lemma LastReplaced(items: seq<OutItem>, x: OutItem, id: string)
    requires items != [] && (x.FunctionCall? <==> items[|items| - 1].FunctionCall?)
    requires x.FunctionCall? ==> x.callId == items[|items| - 1].callId
    ensures var n := |items| - 1;
            && LastCall(items[n := x], id) == LastCall(items, id)
            && Thought(items) == Thought(items[..n]) + (if items[n].Reasoning? then items[n].text else "")
            && Thought(items[n := x]) == Thought(items[..n]) + (if x.Reasoning? then x.text else "")
  {
    assert items[|items| - 1 := x][..|items| - 1] == items[..|items| - 1];
  }

  lemma TextHolds(s: State, items: seq<OutItem>, text: string)
    requires Holds(s, items) && items != [] && items[|items| - 1].Message?
    ensures var n := |items| - 1;
            var r := SayText(s, n, text);
            && Holds(r.state, items[n := Message(items[n].text + text)])
            && r.state.blocks == s.blocks && r.events == [TextDelta(n, text)]
  {
    var n := |items| - 1;
    Indices(s, items, n);
    assert BlockFits(s, items, n);
    hide Find, Grow, Take, LastCall, Thought;
    var s', items' := SayText(s, n, text).state, items[n := Message(items[n].text + text)];
    LastReplaced(items, items'[n], "");
    forall j | 0 <= j < |items'| ensures BlockFits(s', items', j) {
      assert BlockFits(s, items, j);
      if text == "" { assert items[n].text + "" == items[n].text; }
    }
    hide BlockFits;
    forall id ensures CallFits(s'.core, items', id) {
      LastReplaced(items, items'[n], id);
      assert CallFits(s.core, items, id);
    }
    hide CallFits;
  }

  lemma ArgsHold(s: State, items: seq<OutItem>, args: string)
    requires Holds(s, items) && items != [] && items[|items| - 1].FunctionCall?
    ensures var n := |items| - 1;
            var r, c := SayArgs(s, n, args), items[n];
            && Holds(r.state, items[n := FunctionCall(c.callId, c.name, c.args + args)])
            && r.state.blocks == s.blocks && r.events == [ArgsDelta(Some(n), args)]
  {
    var n := |items| - 1;
    Indices(s, items, n);
    var c := items[n];
    assert LastCall(items, c.callId) == n;
    assert CallFits(s.core, items, c.callId);
    GrowTakes(c.args, args);
    hide Find, Grow, Take, LastCall, Thought;
    var s', items' := SayArgs(s, n, args).state, items[n := FunctionCall(c.callId, c.name, c.args + args)];
    LastReplaced(items, items'[n], "");
    forall id ensures CallFits(s'.core, items', id) {
      LastReplaced(items, items'[n], id);
      assert CallFits(s.core, items, id);
    }
    hide CallFits;
    forall j | 0 <= j < |items'| ensures BlockFits(s', items', j) {
      assert BlockFits(s, items, j);
    }
  }

  lemma ThinkingHolds(s: State, items: seq<OutItem>, text: string)
    requires Holds(s, items) && items != [] && items[|items| - 1].Reasoning?
    ensures var n := |items| - 1;
            var r := SayThinking(s, n, text);
            && Holds(r.state, items[n := Reasoning(items[n].text + text)])
            && r.state.blocks == s.blocks && r.events == [ReasoningDelta(n, text)]
  {
    var n := |items| - 1;
    Indices(s, items, n);
    assert BlockFits(s, items, n);
    GrowTakes(Thought(items), text);
    hide Find, Put, Grow, Take, LastCall, Thought;
    var s', items' := SayThinking(s, n, text).state, items[n := Reasoning(items[n].text + text)];
    LastReplaced(items, items'[n], "");
    assert Thought(items[..n]) + items[n].text + text == Thought(items[..n]) + (items[n].text + text);
    forall j | 0 <= j < |items'| ensures BlockFits(s', items', j) {
      assert BlockFits(s, items, j);
    }
    hide BlockFits;
    forall id ensures CallFits(s'.core, items', id) {
      LastReplaced(items, items'[n], id);
      assert CallFits(s.core, items, id);
    }
    hide CallFits;
  }

  lemma CloseHolds(s: State, items: seq<OutItem>)
    requires Holds(s, items) && items != [] && !s.blocks[|items| - 1].closed
    ensures var n := |items| - 1;
            var r := CloseBlock(s, n);
            && Holds(r.state, items) && r.state.blocks == s.blocks[n := s.blocks[n].(closed := true)]
            && r.events == BlockDone(s, s.blocks[n])
  {
    var n := |items| - 1;
    Indices(s, items, n);
    var s' := CloseBlock(s, n).state;
    hide Find, BlockDone, CallFits, Take, Thought;
    forall j | 0 <= j < |items| ensures BlockFits(s', items, j) {
      assert BlockFits(s, items, j);
    }
  }

  // ----- what the client makes of it -----

  lemma SamePrefix(items: seq<OutItem>, items': seq<OutItem>, n: nat)
    requires n <= |items| && n <= |items'| && items[..n] == items'[..n]
    ensures AllCloseRight(items, n) == AllCloseRight(items', n)
  {
    hide Thought, Take;
    forall j | 0 <= j < n ensures ClosesRight(items, j) == ClosesRight(items', j) {
      assert items[j] == items[..n][j] == items'[..n][j] == items'[j];
      assert items[..j + 1] == items[..n][..j + 1] == items'[..n][..j + 1] == items'[..j + 1];
    }
  }

  /** What a client that has not refused the stream does, it does of the stream. */
  lemma Onward(items: seq<OutItem>, n: nat, es: seq<Event>, items': seq<OutItem>, n': nat)
    requires n <= |items| && n' <= |items'| && (AllCloseRight(items', n') ==> AllCloseRight(items, n))
    requires AllCloseRight(items, n) ==> WatchAll(Running(Slots(items, n)), es) == Client(items', n')
    ensures WatchAll(Client(items, n), es) == Client(items', n')
  {
    BadStays(es);
    hide AllCloseRight, WatchAll, Slots;
  }

  lemma OpenWatched(s: State, items: seq<OutItem>, b: A.Block)
    requires s.core.outputIndex == |items|
    ensures WatchAll(Client(items, |items|), OpenBlock(s, |items|, b).events) ==
            Client(items + [EmptyItem(HeadOf(b))], |items|)
  {
    hide WatchAll, Put, AllCloseRight;
    var n, head := |items|, HeadOf(b);
    var items', slots := items + [EmptyItem(head)], Slots(items, n);
    assert Slots(items', n) == slots + [OpenSlot(EmptyItem(head))];
    if b.ToolBlock? {
      WatchOne(Running(slots), ItemAdded(n, head));
      assert OpenBlock(s, n, b).events == [ItemAdded(n, head)];
    } else {
      R.NewItemWatched(slots, head);
      assert OpenBlock(s, n, b).events == [ItemAdded(n, head), PartAdded(n)];
    }
    SamePrefix(items, items', n);
    Onward(items, n, OpenBlock(s, n, b).events, items', n);
  }

  /** A delta of a block as a delta of its item. */
  function Said(n: nat, d: A.BlockDelta): seq<Event> {
    match d
    case TextDelta(t) => [TextDelta(n, t)]
    case JsonDelta(t) => [ArgsDelta(Some(n), t)]
    case ThinkingDelta(t) => [ReasoningDelta(n, t)]
    case SignatureDelta => []
  }

  lemma SaidWatched(slots: seq<Slot>, n: nat, item: OutItem, d: A.BlockDelta)
    requires n < |slots| && slots[n] == OpenSlot(item) && BlockOf(item, n, false).kind == A.DeltaKind(d)
    ensures WatchAll(Running(slots), Said(n, d)) == Running(slots[n := OpenSlot(Extend(item, d))])
  {
    if d.SignatureDelta? {
      assert slots[n := slots[n]] == slots;
      WatchNone(Running(slots));
    } else {
      WatchOne(Running(slots), Said(n, d)[0]);
      assert Said(n, d) == [Said(n, d)[0]];
    }
    hide WatchAll;
  }

  lemma DeltaTaken(s: State, items: seq<OutItem>, d: A.BlockDelta)
    requires Holds(s, items) && items != [] && s.blocks[|items| - 1].kind == A.DeltaKind(d)
    ensures var n := |items| - 1;
            var r, items' := React(s, A.DeltaEvent(n, d)), items[n := Extend(items[n], d)];
            && Holds(r.state, items') && r.state.blocks == s.blocks
            && WatchAll(Client(items, n), r.events) == Client(items', n)
  {
    hide Holds, WatchAll, React, AllCloseRight, Extend, Said;
    var n := |items| - 1;
    Indices(s, items, n);
    var items' := items[n := Extend(items[n], d)];
    var r := React(s, A.DeltaEvent(n, d));
    DeltaHolds(s, items, d);
    assert items'[..n] == items[..n];
    SamePrefix(items, items', n);
    SaidWatched(Slots(items, n), n, items[n], d);
    assert Slots(items, n)[n := OpenSlot(Extend(items[n], d))] == Slots(items', n);
    Onward(items, n, r.events, items', n);
  }

  lemma DeltaHolds(s: State, items: seq<OutItem>, d: A.BlockDelta)
    requires Holds(s, items) && items != [] && s.blocks[|items| - 1].kind == A.DeltaKind(d)
    ensures var n := |items| - 1;
            var r := React(s, A.DeltaEvent(n, d));
            Holds(r.state, items[n := Extend(items[n], d)]) && r.state.blocks == s.blocks && r.events == Said(n, d)
  {
    var n := |items| - 1;
    Indices(s, items, n);
    hide Holds, SayText, SayArgs, SayThinking, Find;
    match d
    case TextDelta(t) => TextHolds(s, items, t);
    case JsonDelta(t) => ArgsHold(s, items, t);
    case ThinkingDelta(t) => ThinkingHolds(s, items, t);
    case SignatureDelta => assert items[n := items[n]] == items;
  }

  /** The done sequence of the last block says what its deltas added up to, except that a thinking block is done
      with the thinking of all blocks. */
  lemma DoneWatched(s: State, items: seq<OutItem>, slots: seq<Slot>)
    requires Holds(s, items) && items != [] && |slots| == |items|
    requires slots[|items| - 1] == OpenSlot(items[|items| - 1])
    ensures var n := |items| - 1;
            WatchAll(Running(slots), BlockDone(s, s.blocks[n])) ==
            if ClosesRight(items, n) then Running(slots[n := DoneSlot(items[n])]) else Bad
  {
    var n := |items| - 1;
    Indices(s, items, n);
    assert BlockFits(s, items, n);
    match items[n] {
      case Message(t) => MessageCloses(slots, n);
      case FunctionCall(id, _, _) =>
        assert LastCall(items, id) == n;
        assert CallFits(s.core, items, id);
        CallCloses(slots, n);
      case Reasoning(t) => ThinkingDone(s, items, slots, t);
    }
    hide WatchAll, Holds, Take, MessageDone, CallDone, ReasoningDoneAll, Thought, LastCall;
  }

  lemma ThinkingDone(s: State, items: seq<OutItem>, slots: seq<Slot>, own: string)
    requires Holds(s, items) && items != [] && |slots| == |items|
    requires slots[|items| - 1] == OpenSlot(items[|items| - 1]) && items[|items| - 1] == Reasoning(own)
    ensures var n := |items| - 1;
            WatchAll(Running(slots), BlockDone(s, s.blocks[n])) ==
            if ClosesRight(items, n) then Running(slots[n := DoneSlot(items[n])]) else Bad
  {
    hide WatchAll, Take, Holds, Thought, ReasoningDoneAll, ClosesRight, BlockDone;
    var n, all := |items| - 1, s.core.reasoning;
    ThinkingKept(s, items, own);
    if all == Take(own) {
      ReasoningCloses(slots, n, Some(Reasoning(all)));
    } else {
      ReasoningRefused(slots, n, all, Some(Reasoning(all)));
    }
  }

  /** What the last block, a thinking block, is done with. */
  lemma ThinkingKept(s: State, items: seq<OutItem>, own: string)
    requires Holds(s, items) && items != [] && items[|items| - 1] == Reasoning(own)
    ensures |s.blocks| == |items|
    ensures var n, all := |items| - 1, s.core.reasoning;
            && BlockDone(s, s.blocks[n]) == ReasoningDoneAll(n, all, Some(Reasoning(all)))
            && (ClosesRight(items, n) <==> all == Take(own))
            && (all == Take(own) ==> DoneFits(Some(Reasoning(all)), Reasoning(own)))
            && (all != Take(own) ==> all != "")
  {
    hide Holds, ReasoningDoneAll;
    Indices(s, items, 0);
    AllThought(s, items);
    assert items[..|items|] == items && |own| <= |Thought(items)|;
    NothingTaken(own);
    NothingTaken(Thought(items));
    TakeNothingIs(own, Thought(items));
  }

  lemma TakeNothingIs(own: string, all: string)
    requires |own| <= |all|
    ensures Take(all) == "" ==> Take(own) == ""
  {
  }

  lemma AllThought(s: State, items: seq<OutItem>)
    requires Holds(s, items)
    ensures s.core.reasoning == Take(Thought(items))
  {
    hide Take, Thought;
  }

  lemma CloseTaken(s: State, items: seq<OutItem>)
    requires Holds(s, items) && items != [] && !s.blocks[|items| - 1].closed
    ensures var n := |items| - 1;
            WatchAll(Client(items, n), BlockDone(s, s.blocks[n])) == Client(items, n + 1)
  {
    hide Holds, WatchAll, BlockDone, ClosesRight, BlockOf, Find;
    var n := |items| - 1;
    Indices(s, items, n);
    DoneWatched(s, items, Slots(items, n));
    assert Slots(items, n)[n := DoneSlot(items[n])] == Slots(items, n + 1);
    assert AllCloseRight(items, n + 1) <==> AllCloseRight(items, n) && ClosesRight(items, n);
    Onward(items, n, BlockDone(s, s.blocks[n]), items, n + 1);
  }

  /** The client takes the events of `r` as the session means them, or refuses a shared thought. */
  ghost predicate Taken(items: seq<OutItem>, n: int, r: Reaction, items': seq<OutItem>, n': int) {
    && n <= |items| && n' <= |items'| && Holds(r.state, items')
    && WatchAll(Client(items, n), r.events) == Client(items', n')
  }

  function BlocksAfter(blocks: seq<BlockData>, e: A.Event): seq<BlockData> {
    match e
    case BlockStart(i, b) => blocks + [BlockOf(EmptyItem(HeadOf(b)), |blocks|, false)]
    case BlockStop(i) => if 0 <= i < |blocks| then blocks[i := blocks[i].(closed := true)] else blocks
    case _ => blocks
  }

  lemma StepTaken(s: State, items: seq<OutItem>, p: A.Phase, e: A.Event)
    requires Holds(s, items) && PhaseFits(s, p) && A.Watch(p, e) != A.Bad && !e.MessageDelta?
    ensures Taken(items, ClosedCount(p), React(s, e), Gather(items, e), ClosedCount(A.Watch(p, e)))
    ensures React(s, e).state.blocks == BlocksAfter(s.blocks, e)
  {
    hide Holds, WatchAll, Client, OpenBlock, BlockDone, SayText, SayArgs, SayThinking;
    Indices(s, items, 0);
    match e
    case BlockStart(i, b) =>
      OpenHolds(s, items, b);
      OpenWatched(s, items, b);
    case DeltaEvent(i, d) => DeltaTaken(s, items, d);
    case BlockStop(i) =>
      CloseHolds(s, items);
      CloseTaken(s, items);
    case _ =>
  }

  lemma StepPhase(s: State, s': State, p: A.Phase, e: A.Event)
    requires PhaseFits(s, p) && A.Watch(p, e) != A.Bad && !e.MessageDelta?
    requires s'.blocks == BlocksAfter(s.blocks, e)
    ensures PhaseFits(s', A.Watch(p, e))
  {
  }

  // ----- meaning -----

  lemma MeanPair(m: Meaning, e: Event, b: bool, f: Event)
    requires R.Neutral(f)
    ensures MeanEvents(m, [e] + if b then [] else [f]) == MeanEvent(m, e)
  {
    R.MeanOne(m, e);
    R.MeanTwo(m, e, f);
    assert [e] + [] == [e] && [e] + [f] == [e, f];
  }

  lemma SaidMeans(m: Meaning, n: nat, d: A.BlockDelta)
    ensures MeanEvents(m, Said(n, d)) == A.MeanEvent(m, A.DeltaEvent(n, d))
  {
    hide MeanEvents, IndexOf, AddArgs;
    if d.SignatureDelta? {
      R.MeanNone(m);
    } else {
      R.MeanOne(m, Said(n, d)[0]);
      assert Said(n, d) == [Said(n, d)[0]];
    }
  }

  lemma OpenMeans(s: State, n: nat, b: A.Block, m: Meaning)
    requires s.core.outputIndex == n
    ensures MeanEvents(m, OpenBlock(s, n, b).events) == A.MeanEvent(m, A.BlockStart(n, b))
  {
    hide MeanEvents, Put;
    MeanPair(m, ItemAdded(n, HeadOf(b)), b.ToolBlock?, PartAdded(n));
  }

  /** A step inside the message means the same on both sides. */
  lemma StepMeans(s: State, items: seq<OutItem>, p: A.Phase, e: A.Event, m: Meaning)
    requires Holds(s, items) && PhaseFits(s, p) && A.Watch(p, e) != A.Bad && !e.MessageDelta?
    ensures MeanEvents(m, React(s, e).events) == A.MeanEvent(m, e)
  {
    hide Holds, MeanEvents, OpenBlock, SayText, SayArgs, SayThinking, CloseBlock, IndexOf, AddArgs;
    Indices(s, items, 0);
    match e
    case BlockStart(i, b) => OpenMeans(s, i, b, m);
    case DeltaEvent(i, d) =>
      DeltaHolds(s, items, d);
      SaidMeans(m, i, d);
    case BlockStop(i) => MeanClosed(m, s, i);
    case _ =>
  }

  lemma MeanClosed(m: Meaning, s: State, index: int)
    ensures MeanEvents(m, CloseBlock(s, index).events) == m
  {
    hide MeanEvents, BlockDone;
    var p := Find(s.blocks, index);
    if p == -1 || s.blocks[p].closed { R.MeanNone(m); } else { DoneMeansNothing(m, s, s.blocks[p]); }
  }

  lemma DoneMeansNothing(m: Meaning, s: State, b: BlockData)
    ensures MeanEvents(m, BlockDone(s, b)) == m
  {
    hide MeanEvents, R.ItemText;
    R.MeanNeutral(m, BlockDone(s, b));
  }

  lemma StepThought(s: State, items: seq<OutItem>, p: A.Phase, e: A.Event, m: Meaning)
    requires Holds(s, items) && PhaseFits(s, p) && A.Watch(p, e) != A.Bad && m.reasoning == Thought(items)
    ensures A.MeanEvent(m, e).reasoning == Thought(Gather(items, e))
  {
    hide Holds, PhaseFits, Thought, IndexOf, AddArgs, Extend, A.Watch, BlockOf;
    match e
    case BlockStart(_, b) =>
      LastPush(items, EmptyItem(HeadOf(b)), "");
      assert Thought(items) + "" == Thought(items);
    case DeltaEvent(n, d) =>
      DeltaAt(s, items, p, n, d);
      DeltaThought(items, d);
      assert m.reasoning + "" == m.reasoning;
    case _ =>
  }

  /** A delta is for the last block, and of its kind. */
  lemma DeltaAt(s: State, items: seq<OutItem>, p: A.Phase, n: int, d: A.BlockDelta)
    requires Holds(s, items) && PhaseFits(s, p) && A.Watch(p, A.DeltaEvent(n, d)) != A.Bad
    ensures items != [] && n == |items| - 1 && BlockOf(items[|items| - 1], 0, false).kind == A.DeltaKind(d)
  {
    hide Holds;
    Indices(s, items, 0);
  }

  lemma DeltaThought(items: seq<OutItem>, d: A.BlockDelta)
    requires items != [] && BlockOf(items[|items| - 1], 0, false).kind == A.DeltaKind(d)
    ensures var n := |items| - 1;
            Thought(items[n := Extend(items[n], d)]) == Thought(items) + if d.ThinkingDelta? then d.text else ""
  {
    var n := |items| - 1;
    LastReplaced(items, Extend(items[n], d), "");
    hide Thought;
    if d.ThinkingDelta? {
      assert Thought(items[..n]) + items[n].text + d.text == Thought(items[..n]) + (items[n].text + d.text);
    } else {
      assert Thought(items) + "" == Thought(items);
    }
  }

  // ----- live streams -----

  /** The session `r` has come to inside a message, what its client has, and what both mean. */
  ghost predicate Tracks(r: Reaction, items: seq<OutItem>, p: A.Phase, m: Meaning) {
    && Holds(r.state, items) && PhaseFits(r.state, p) && ClosedCount(p) <= |items|
    && WatchAll(Fresh, r.events) == Client(items, ClosedCount(p))
    && MeanEvents(NOTHING, r.events) == m && m.finish == None && m.reasoning == Thought(items)
  }

  function Then(r: Reaction, e: A.Event): Reaction {
    var last := React(r.state, e);
    Reaction(last.state, r.events + last.events)
  }

  lemma StepTracks(r: Reaction, items: seq<OutItem>, p: A.Phase, m: Meaning, e: A.Event)
    requires Tracks(r, items, p, m) && A.Watch(p, e) != A.Bad && !e.MessageDelta?
    ensures Tracks(Then(r, e), Gather(items, e), A.Watch(p, e), A.MeanEvent(m, e))
  {
    hide React, Holds, PhaseFits, WatchAll, MeanEvents, Client, Gather, Thought, A.Watch, BlocksAfter;
    var last := React(r.state, e);
    StepTaken(r.state, items, p, e);
    StepPhase(r.state, last.state, p, e);
    StepMeans(r.state, items, p, e, m);
    StepThought(r.state, items, p, e, m);
    WatchConcat(Fresh, r.events, last.events);
    MeanEventsConcat(NOTHING, r.events, last.events);
    hide IndexOf, AddArgs;
  }

  lemma InsideBefore(es: seq<A.Event>)
    requires |es| > 1 && Inside(A.WatchAll(A.Fresh, es))
    ensures var p, e := A.WatchAll(A.Fresh, es[..|es| - 1]), es[|es| - 1];
            Inside(p) && !e.MessageDelta? && A.WatchAll(A.Fresh, es) == A.Watch(p, e) != A.Bad
  {
  }

  lemma FirstIs(es: seq<A.Event>)
    requires |es| == 1 && Inside(A.WatchAll(A.Fresh, es))
    ensures es[0].MessageStart? && A.WatchAll(A.Fresh, es) == A.Between(0)
    ensures ReactAll(INIT, es) == Then(Reaction(INIT, []), es[0])
    ensures GatherAll(es) == [] && A.MeanEvents(NOTHING, es) == NOTHING
  {
    ReactLast(es);
    FoldsOne([], es[0]);
    assert [] + [es[0]] == es && es[..0] == [];
    assert ReactAll(INIT, []) == Reaction(INIT, []);
    hide Then, ReactAll;
  }

  lemma FirstTracks(es: seq<A.Event>)
    requires |es| == 1 && Inside(A.WatchAll(A.Fresh, es))
    ensures Tracks(ReactAll(INIT, es), GatherAll(es), A.WatchAll(A.Fresh, es), A.MeanEvents(NOTHING, es))
  {
    hide ReactAll, A.WatchAll, GatherAll, A.MeanEvents, WatchAll, MeanEvents, Take;
    FirstIs(es);
    var r := ReactAll(INIT, es);
    assert r.events == [Created, InProgress];
    WatchTwo(Fresh, Created, InProgress);
    R.MeanNeutral(NOTHING, [Created, InProgress]);
    R.TakeNothing();
    assert Slots([], 0) == [];
  }

  /** While the upstream is inside its message, the session holds, block by block, what the deltas add up to, the
      client has taken every event or refused a thinking block closed with more than its own thinking, and both
      sides mean the same. */
  lemma {:induction false} LiveTracks(es: seq<A.Event>)
    requires es != [] && Inside(A.WatchAll(A.Fresh, es))
    ensures Tracks(ReactAll(INIT, es), GatherAll(es), A.WatchAll(A.Fresh, es), A.MeanEvents(NOTHING, es))
  {
    if |es| == 1 {
      FirstTracks(es);
    } else {
      hide React, Tracks, Gather, A.MeanEvent, A.Watch, Inside;
      InsideBefore(es);
      var init, last := es[..|es| - 1], es[|es| - 1];
      LiveTracks(init);
      StepTracks(ReactAll(INIT, init), GatherAll(init), A.WatchAll(A.Fresh, init), A.MeanEvents(NOTHING, init), last);
    }
  }

  lemma ReactLast(es: seq<A.Event>)
    requires es != []
    ensures ReactAll(INIT, es) == Then(ReactAll(INIT, es[..|es| - 1]), es[|es| - 1])
  {
  }

  // ----- the final object -----

  /** What the final object lists for block `j`: all thinking for a thinking block, the latest call of its id for
      a call. */
  function Listed(items: seq<OutItem>, j: nat): Option<OutItem>
    requires j < |items|
  {
    match items[j]
    case Message(t) => Some(Message(t))
    case FunctionCall(id, _, _) =>
      var p := LastCall(items, id);
      if p == -1 then None else Some(FunctionCall(id, items[p].name, Take(items[p].args)))
    case Reasoning(_) => if Thought(items) == "" then None else Some(Reasoning(Take(Thought(items))))
  }

  function Lists(items: seq<OutItem>, n: nat): seq<OutItem>
    requires n <= |items|
  {
    if n == 0 then []
    else Lists(items, n - 1) + if Listed(items, n - 1).Some? then [Listed(items, n - 1).value] else []
  }

  function Built(items: seq<OutItem>): seq<OutItem> {
    if Lists(items, |items|) == [] then [Message("")] else Lists(items, |items|)
  }

  lemma ItemBuilt(s: State, items: seq<OutItem>, j: nat)
    requires Holds(s, items) && j < |items|
    ensures R.BuildItem(s.core, s.core.entries[j]) == Listed(items, j)
  {
    assert BlockFits(s, items, j);
    NothingTaken(Thought(items));
    if items[j].FunctionCall? { assert CallFits(s.core, items, items[j].callId); }
    hide Take, LastCall, Thought;
  }

  lemma {:induction false} AllBuilt(s: State, items: seq<OutItem>, n: nat)
    requires Holds(s, items) && n <= |items| == |s.core.entries|
    ensures R.BuildItems(s.core, s.core.entries[..n]) == Lists(items, n)
  {
    if n != 0 {
      AllBuilt(s, items, n - 1);
      ItemBuilt(s, items, n - 1);
      hide R.BuildItem, Listed, Holds;
      assert s.core.entries[..n][..n - 1] == s.core.entries[..n - 1];
    }
  }

  lemma OutputBuilt(s: State, items: seq<OutItem>)
    requires Holds(s, items)
    ensures R.BuildOutput(s.core) == Built(items)
  {
    Indices(s, items, 0);
    AllBuilt(s, items, |items|);
    assert s.core.entries[..|items|] == s.core.entries;
    hide R.BuildItems, Lists;
    if items == [] { SilentThought(s); }
    hide Holds;
  }

  lemma SilentThought(s: State)
    requires Holds(s, [])
    ensures s.core.reasoning == ""
  {
  }

  lemma {:induction false} ClosedNone(s: State, blocks: seq<BlockData>)
    requires forall j | 0 <= j < |blocks| :: blocks[j].closed
    ensures OpenDone(s, blocks) == []
  {
    if blocks != [] { ClosedNone(s, blocks[..|blocks| - 1]); }
  }

  /** What is still open when the stream ends is closed once. */
  lemma EndCloses(s: State, items: seq<OutItem>, p: A.Phase)
    requires Holds(s, items) && PhaseFits(s, p) && ClosedCount(p) <= |items|
    ensures WatchAll(Client(items, ClosedCount(p)), OpenDone(s, s.blocks)) == Client(items, |items|)
  {
    hide Holds, WatchAll, BlockDone, Client, BlockOf, Find;
    Indices(s, items, 0);
    if p.Between? {
      ClosedNone(s, s.blocks);
      WatchNone(Client(items, |items|));
    } else {
      var n := p.index;
      ClosedNone(s, s.blocks[..n]);
      CloseTaken(s, items);
      assert [] + BlockDone(s, s.blocks[n]) == BlockDone(s, s.blocks[n]);
    }
  }

  // ----- when the final object is the assembled one -----

  /** Every thinking block has all the thinking there is, and calls of one id have one name and the same
      arguments, both up to the truncation bound. */
  ghost predicate Agree(items: seq<OutItem>, reasoning: string) {
    && (forall j | 0 <= j < |items| && items[j].Reasoning? :: Take(items[j].text) == Take(reasoning))
    && CallsAgree(items)
  }

  lemma {:induction false} ThoughtHas(items: seq<OutItem>, j: nat)
    requires j < |items| && items[j].Reasoning?
    ensures |items[j].text| <= |Thought(items)|
  {
    if j < |items| - 1 { ThoughtHas(items[..|items| - 1], j); }
  }

  lemma {:induction false} ThoughtGrows(items: seq<OutItem>, n: nat)
    requires n <= |items|
    ensures Thought(items[..n]) <= Thought(items)
  {
    if n == |items| {
      assert items[..n] == items;
    } else {
      assert items[..|items| - 1][..n] == items[..n];
      ThoughtGrows(items[..|items| - 1], n);
    }
  }

  /** Agreement is that each block is listed with what it was assembled to. */
  lemma AgreeIsListed(items: seq<OutItem>)
    ensures Agree(items, Thought(items)) <==>
            forall j | 0 <= j < |items| :: Listed(items, j) == Final(items[j])
  {
    var all := Thought(items);
    if Agree(items, all) {
      forall j | 0 <= j < |items| ensures Listed(items, j) == Final(items[j]) { AgreedListed(items, j); }
    }
    if forall j | 0 <= j < |items| :: Listed(items, j) == Final(items[j]) {
      forall j | 0 <= j < |items| && items[j].Reasoning? ensures Take(items[j].text) == Take(all) {
        ListedThought(items, j);
      }
      forall j, k | 0 <= j < |items| && 0 <= k < |items| && items[j].FunctionCall? && items[k].FunctionCall?
                    && items[j].callId == items[k].callId
        ensures items[j].name == items[k].name && Take(items[j].args) == Take(items[k].args)
      {
        ListedCall(items, j);
        ListedCall(items, k);
      }
    }
    hide Listed, Final, Take, Thought;
  }

  lemma AgreedListed(items: seq<OutItem>, j: nat)
    requires Agree(items, Thought(items)) && j < |items|
    ensures Listed(items, j) == Final(items[j])
  {
    NothingTaken(Thought(items));
    if items[j].Reasoning? { NothingTaken(items[j].text); }
    if items[j].FunctionCall? { LastCallIs(items, j); }
    hide Take, Thought, LastCall;
  }

  lemma ListedThought(items: seq<OutItem>, j: nat)
    requires j < |items| && items[j].Reasoning? && Listed(items, j) == Final(items[j])
    ensures Take(items[j].text) == Take(Thought(items))
  {
    hide Take, Thought, LastCall;
  }

  lemma ListedCall(items: seq<OutItem>, j: nat)
    requires j < |items| && items[j].FunctionCall? && Listed(items, j) == Final(items[j])
    ensures var p := LastCall(items, items[j].callId);
            p != -1 && items[j].name == items[p].name && Take(items[j].args) == Take(items[p].args)
  {
    hide Take, LastCall;
  }

  /** What was not listed was not assembled, so the lists are equal only element by element. */
  lemma {:induction false} ListsAreFinals(items: seq<OutItem>, n: nat)
    requires n <= |items|
    ensures |Finals(Closed(items)[..n])| <= |Lists(items, n)|
    ensures Lists(items, n) == Finals(Closed(items)[..n]) <==>
            forall j | 0 <= j < n :: Listed(items, j) == Final(items[j])
  {
    if n != 0 {
      ListsAreFinals(items, n - 1);
      if Listed(items, n - 1).None? { NoneIsNone(items, n - 1); }
      var closed := Closed(items);
      assert closed[..n][..n - 1] == closed[..n - 1] && closed[..n][n - 1].item == items[n - 1];
      var a, x := Lists(items, n - 1), Listed(items, n - 1);
      var b, y := Finals(closed[..n - 1]), Final(items[n - 1]);
      hide Listed, Final, Lists, Finals;
      assert Lists(items, n) == Snoc(a, x) by { ListsSnoc(items, n); }
      assert Finals(closed[..n]) == Snoc(b, y) by { FinalsSnoc(closed[..n]); }
      SnocEqual(a, x, b, y);
    } else {
      assert Closed(items)[..0] == [];
    }
  }

  function Snoc<T>(s: seq<T>, x: Option<T>): seq<T> {
    s + if x.Some? then [x.value] else []
  }

  lemma ListsSnoc(items: seq<OutItem>, n: nat)
    requires 0 < n <= |items|
    ensures Lists(items, n) == Snoc(Lists(items, n - 1), Listed(items, n - 1))
  {
    hide Listed;
  }

  lemma FinalsSnoc(slots: seq<Slot>)
    requires slots != []
    ensures Finals(slots) == Snoc(Finals(slots[..|slots| - 1]), Final(slots[|slots| - 1].item))
  {
    hide Final;
  }

  lemma SnocEqual<T>(a: seq<T>, x: Option<T>, b: seq<T>, y: Option<T>)
    requires |b| <= |a| && (x.None? ==> y.None?)
    ensures |Snoc(b, y)| <= |Snoc(a, x)|
    ensures Snoc(a, x) == Snoc(b, y) <==> a == b && x == y
  {
    if Snoc(a, x) == Snoc(b, y) {
      assert |a| == |b|;
      assert a == Snoc(a, x)[..|a|] && b == Snoc(b, y)[..|b|];
      if x.Some? { assert x.value == Snoc(a, x)[|a|] == Snoc(b, y)[|b|] == y.value; }
    }
  }

  lemma NoneIsNone(items: seq<OutItem>, j: nat)
    requires j < |items| && Listed(items, j).None?
    ensures Final(items[j]).None?
  {
    if items[j].Reasoning? { ThoughtHas(items, j); } else { LastCallIs(items, j); }
    hide Take, Thought, LastCall;
  }

  /** Nothing assembled at all means nothing listed. */
  lemma {:induction false} NothingFinal(items: seq<OutItem>)
    requires Finals(Closed(items)) == []
    ensures Thought(items) == "" && forall j | 0 <= j < |items| :: items[j] == Reasoning("")
  {
    hide Finals, Final, Closed, Thought;
    if items == [] {
      NothingThought();
    } else {
      var n := |items| - 1;
      ClosedSnoc(items);
      FinalsSnoc(Closed(items));
      NothingFinal(items[..n]);
      EmptyFinal(items[n]);
      ThoughtSnoc(items);
      assert forall j | 0 <= j < n :: items[j] == items[..n][j];
    }
  }

  lemma NothingThought()
    ensures Thought([]) == ""
  {
  }

  lemma ClosedSnoc(items: seq<OutItem>)
    requires items != []
    ensures var n := |items| - 1;
            Closed(items)[..n] == Closed(items[..n]) && Closed(items) != [] && Closed(items)[n].item == items[n]
  {
  }

  lemma EmptyFinal(item: OutItem)
    ensures Final(item).None? <==> item == Reasoning("")
  {
  }

  lemma ThoughtSnoc(items: seq<OutItem>)
    requires items != [] && items[|items| - 1] == Reasoning("")
    ensures Thought(items) == Thought(items[..|items| - 1])
  {
  }

  lemma {:induction false} NothingListed(items: seq<OutItem>, n: nat)
    requires n <= |items| && Thought(items) == "" && forall j | 0 <= j < |items| :: items[j] == Reasoning("")
    ensures Lists(items, n) == []
  {
    if n != 0 { NothingListed(items, n - 1); }
  }

  /** The final object lists what was assembled exactly if the blocks agree. */
  lemma BuiltIfAgree(items: seq<OutItem>)
    ensures Built(items) == OutputOf(Closed(items)) <==> Agree(items, Thought(items))
  {
    hide Agree, Listed, Final, Thought;
    AgreeIsListed(items);
    ListsAreFinals(items, |items|);
    assert Closed(items)[..|items|] == Closed(items);
    if Finals(Closed(items)) == [] {
      NothingFinal(items);
      NothingListed(items, |items|);
    }
    hide Finals, Lists;
  }

  /** A block that has all the thinking of the stream has all there was when it was closed. */
  lemma AgreeClosesRight(items: seq<OutItem>)
    requires Agree(items, Thought(items))
    ensures AllCloseRight(items, |items|)
  {
    hide Thought;
    forall j | 0 <= j < |items| ensures ClosesRight(items, j) {
      if items[j].Reasoning? {
        assert items[..j + 1][j] == items[j];
        ThoughtHas(items[..j + 1], j);
        ThoughtGrows(items, j + 1);
        AsMuch(items[j].text, Thought(items[..j + 1]), Thought(items));
      }
    }
  }

  lemma AsMuch(own: string, before: string, all: string)
    requires |own| <= |before| && before <= all && Take(own) == Take(all)
    ensures Take(before) == Take(own)
  {
  }

  /** With one thinking block at most and an id for each call of its own, all blocks agree. */
  ghost predicate Apart(items: seq<OutItem>) {
    && (forall j, k | 0 <= j < k < |items| :: !(items[j].Reasoning? && items[k].Reasoning?))
    && (forall j, k | 0 <= j < k < |items| && items[j].FunctionCall? && items[k].FunctionCall? ::
          items[j].callId != items[k].callId)
  }

  lemma {:induction false} OnlyThought(items: seq<OutItem>, j: nat)
    requires j < |items| && items[j].Reasoning?
    requires forall k | 0 <= k < |items| && items[k].Reasoning? :: k == j
    ensures Thought(items) == items[j].text
  {
    var n := |items| - 1;
    if j == n {
      NoThought(items[..n]);
      assert "" + items[j].text == items[j].text;
    } else {
      OnlyThought(items[..n], j);
      assert items[j].text + "" == items[j].text;
    }
  }

  lemma {:induction false} NoThought(items: seq<OutItem>)
    requires forall k | 0 <= k < |items| :: !items[k].Reasoning?
    ensures Thought(items) == ""
  {
    if items != [] { NoThought(items[..|items| - 1]); }
  }

  lemma ApartAgree(items: seq<OutItem>)
    requires Apart(items)
    ensures Agree(items, Thought(items))
  {
    hide Thought, Take;
    forall j | 0 <= j < |items| && items[j].Reasoning? ensures Take(items[j].text) == Take(Thought(items)) {
      OnlyThought(items, j);
    }
  }

  // ----- whole runs -----

  lemma OpensSilent(s: State, index: int, b: A.Block, thought: string)
    ensures OpenBlock(s, index, b).state.core.text == s.core.text
    ensures SayThinking(s, index, thought).state.core.text == s.core.text
  {
    hide Find, Put, Grow;
  }

  lemma SaysSilent(s: State, index: int, args: string)
    ensures SayArgs(s, index, args).state.core.text == s.core.text
    ensures CloseBlock(s, index).state.core.text == s.core.text
  {
    hide Find, Grow, BlockDone;
  }

  lemma StepText(s: State, e: A.Event, m: Meaning)
    requires s.core.text == Take(m.text)
    ensures React(s, e).state.core.text == Take(A.MeanEvent(m, e).text)
  {
    hide Find, R.AppendItemText, OpenBlock, SayArgs, SayThinking, CloseBlock, FinalResponse, Take, Grow, IndexOf,
         AddArgs;
    match e
    case DeltaEvent(_, TextDelta(t)) => GrowTakes(m.text, t);
    case DeltaEvent(i, JsonDelta(t)) => SaysSilent(s, i, t);
    case DeltaEvent(i, ThinkingDelta(t)) => OpensSilent(s, i, A.TextBlock, t);
    case BlockStart(i, b) => OpensSilent(s, i, b, "");
    case BlockStop(i) => SaysSilent(s, i, "");
    case _ =>
  }

  lemma {:induction false} TextKept(es: seq<A.Event>)
    ensures ReactAll(INIT, es).state.core.text == Take(A.MeanEvents(NOTHING, es).text)
  {
    if es == [] {
      R.TakeNothing();
    } else {
      hide React, Take, A.MeanEvent;
      var init, last := es[..|es| - 1], es[|es| - 1];
      TextKept(init);
      StepText(ReactAll(INIT, init).state, last, A.MeanEvents(NOTHING, init));
    }
  }

  function SeenNext(seen: (int, int), e: A.Event): (int, int) {
    match e
    case MessageStart(_, _, input) => (seen.0 + input, seen.1)
    case MessageDelta(_, output) => (seen.0, output)
    case _ => seen
  }

  /** Input and output tokens: the first add up, of the second the last counts. */
  function Seen(es: seq<A.Event>): (int, int) {
    if es == [] then (0, 0) else SeenNext(Seen(es[..|es| - 1]), es[|es| - 1])
  }

  lemma StepSeen(s: State, e: A.Event)
    ensures var s' := React(s, e).state; (s'.input, s'.output) == SeenNext((s.input, s.output), e)
  {
    hide OpenBlock, SayText, SayArgs, SayThinking, CloseBlock, FinalResponse;
    match e
    case BlockStart(i, b) => BlocksCostNothing(s, i, b, "");
    case DeltaEvent(i, TextDelta(t)) => BlocksCostNothing(s, i, A.TextBlock, t);
    case DeltaEvent(i, JsonDelta(t)) => BlocksCostNothing(s, i, A.TextBlock, t);
    case DeltaEvent(i, ThinkingDelta(t)) => BlocksCostNothing(s, i, A.TextBlock, t);
    case BlockStop(i) => BlocksCostNothing(s, i, A.TextBlock, "");
    case _ =>
  }

  ghost predicate SameCost(s: State, s': State) {
    s'.input == s.input && s'.output == s.output
  }

  lemma BlocksCostNothing(s: State, i: int, b: A.Block, t: string)
    ensures SameCost(s, OpenBlock(s, i, b).state) && SameCost(s, SayText(s, i, t).state)
    ensures SameCost(s, SayArgs(s, i, t).state) && SameCost(s, SayThinking(s, i, t).state)
    ensures SameCost(s, CloseBlock(s, i).state)
  {
    hide Find, Put, Grow, R.AppendItemText, BlockDone;
  }

  lemma {:induction false} UsageSeen(es: seq<A.Event>)
    ensures var s := ReactAll(INIT, es).state; Seen(es) == (s.input, s.output)
  {
    if es != [] {
      UsageSeen(es[..|es| - 1]);
      StepSeen(ReactAll(INIT, es[..|es| - 1]).state, es[|es| - 1]);
      ReactLast(es);
      hide React, ReactAll, SeenNext;
    }
  }

  /** The final object a client that assembled the stream expects, in terms of the stream. */
  function Summary(es: seq<A.Event>): Response {
    var m, (i, o) := A.MeanEvents(NOTHING, es), Seen(es);
    Response(m.finish == Some(Length), OutputOf(Closed(GatherAll(es))), Take(m.text),
             Tokens(i, o, i + o, Some(0), None))
  }

  /** The final object it gets. */
  function Sent(es: seq<A.Event>): Response {
    Summary(es).(output := Built(GatherAll(es)))
  }

  lemma FinalIs(es: seq<A.Event>, f: Finish)
    requires es != [] && Inside(A.WatchAll(A.Fresh, es))
    ensures FinalResponse(ReactAll(INIT, es).state, f) == Sent(es).(incomplete := f == Length)
  {
    LiveTracks(es);
    TracksHolds(ReactAll(INIT, es), GatherAll(es), A.WatchAll(A.Fresh, es), A.MeanEvents(NOTHING, es));
    OutputBuilt(ReactAll(INIT, es).state, GatherAll(es));
    TextKept(es);
    UsageSeen(es);
    hide R.BuildOutput, OutputOf, A.MeanEvents, GatherAll, Take, Tracks, Holds, PhaseFits, ReactAll, A.WatchAll, Seen,
         Built, Closed;
  }

  lemma TracksHolds(r: Reaction, items: seq<OutItem>, p: A.Phase, m: Meaning)
    requires Tracks(r, items, p, m)
    ensures Holds(r.state, items) && PhaseFits(r.state, p) && ClosedCount(p) <= |items|
    ensures !r.state.core.completedSent
    ensures WatchAll(Fresh, r.events) == Client(items, ClosedCount(p))
    ensures MeanEvents(NOTHING, r.events) == m && m.finish == None && m.reasoning == Thought(items)
  {
    hide BlockFits, CallFits;
  }

  lemma SentIs(es: seq<A.Event>)
    ensures Sent(es).output == Built(GatherAll(es)) && Summary(es).output == OutputOf(Closed(GatherAll(es)))
    ensures Sent(es).incomplete == (A.MeanEvents(NOTHING, es).finish == Some(Length))
    ensures Sent(es).output == Summary(es).output ==> Sent(es) == Summary(es)
  {
  }

  lemma FinalizeIs(s: State)
    requires !s.core.completedSent
    ensures Finalize(s).events == OpenDone(s, s.blocks) + [Completed(FinalResponse(s, Stop))]
  {
    hide OpenDone, R.BuildOutput;
  }

  /** The phase before message_delta or message_stop. */
  lemma PhaseBefore(es: seq<A.Event>)
    requires es != [] && A.WatchAll(A.Fresh, es) != A.Bad
    ensures var p := A.WatchAll(A.Fresh, es[..|es| - 1]);
            && p != A.Bad
            && (A.WatchAll(A.Fresh, es).Closing? ==> |es| > 1 && p.Between? && es[|es| - 1].MessageDelta?)
            && (A.WatchAll(A.Fresh, es).Done? ==> |es| > 1 && p.Closing? && es[|es| - 1].MessageStop?)
            && (Inside(A.WatchAll(A.Fresh, es)) || A.WatchAll(A.Fresh, es).Closing? || A.WatchAll(A.Fresh, es).Done?)
  {
  }

  /** Everything a client receives: what the blocks sent, the done sequences of what is still open, and the
      final object. */
  ghost predicate Shaped(es: seq<A.Event>, live: seq<A.Event>) {
    && live != [] && live <= es && Inside(A.WatchAll(A.Fresh, live)) && GatherAll(live) == GatherAll(es)
    && A.MeanEvents(NOTHING, es) == A.MeanEvents(NOTHING, live).(finish := A.MeanEvents(NOTHING, es).finish)
    && var r := ReactAll(INIT, live);
       Converted(es) == r.events + OpenDone(r.state, r.state.blocks) + [Completed(Sent(es))]
  }

  lemma ConvertedIs(es: seq<A.Event>)
    requires es != []
    ensures Converted(es) == ReactAll(INIT, es).events + Finalize(ReactAll(INIT, es).state).events
  {
    hide ReactAll, Finalize;
  }

  lemma InsideShaped(es: seq<A.Event>)
    requires es != [] && Inside(A.WatchAll(A.Fresh, es))
    ensures Shaped(es, es)
  {
    hide *;
    var r, items, m := ReactAll(INIT, es), GatherAll(es), A.MeanEvents(NOTHING, es);
    ConvertedIs(es);
    LiveTracks(es);
    TracksHolds(r, items, A.WatchAll(A.Fresh, es), m);
    FinalIs(es, Stop);
    SentIs(es);
    FinalizeIs(r.state);
    var done := OpenDone(r.state, r.state.blocks);
    assert r.events + (done + [Completed(Sent(es))]) == r.events + done + [Completed(Sent(es))];
    ShapedIs(es, es);
  }

  lemma ShapedIs(es: seq<A.Event>, live: seq<A.Event>)
    requires live != [] && live <= es && Inside(A.WatchAll(A.Fresh, live)) && GatherAll(live) == GatherAll(es)
    requires A.MeanEvents(NOTHING, es) == A.MeanEvents(NOTHING, live).(finish := A.MeanEvents(NOTHING, es).finish)
    requires var r := ReactAll(INIT, live);
             Converted(es) == r.events + OpenDone(r.state, r.state.blocks) + [Completed(Sent(es))]
    ensures Shaped(es, live)
  {
    hide GatherAll, A.MeanEvents, A.WatchAll, ReactAll, OpenDone, Converted, Sent, Inside;
  }

  lemma ClosingShaped(es: seq<A.Event>)
    requires es != [] && A.WatchAll(A.Fresh, es).Closing?
    ensures Shaped(es, es[..|es| - 1]) && ReactAll(INIT, es).state.core.completedSent
  {
    hide *;
    PhaseBefore(es);
    var init := es[..|es| - 1];
    var r, items, p, m := ReactAll(INIT, init), GatherAll(init), A.WatchAll(A.Fresh, init), A.MeanEvents(NOTHING, init);
    InsideIs(p);
    LiveTracks(init);
    TracksHolds(r, items, p, m);
    ClosingConverted(es);
    SentEnds(es);
    ShapedIs(es, init);
  }

  lemma InsideIs(p: A.Phase)
    ensures Inside(p) <==> p.Between? || p.InBlock?
  {
  }

  lemma ClosingConverted(es: seq<A.Event>)
    requires es != [] && A.WatchAll(A.Fresh, es).Closing?
    ensures var r := ReactAll(INIT, es[..|es| - 1]);
            Converted(es) == r.events + OpenDone(r.state, r.state.blocks) + [Completed(Sent(es))]
    ensures ReactAll(INIT, es).state.core.completedSent
  {
    hide *;
    PhaseBefore(es);
    var init, e := es[..|es| - 1], es[|es| - 1];
    var r, items, p, m := ReactAll(INIT, init), GatherAll(init), A.WatchAll(A.Fresh, init), A.MeanEvents(NOTHING, init);
    InsideIs(p);
    LiveTracks(init);
    TracksHolds(r, items, p, m);
    FinalIs(init, StopOf(e));
    BetweenClosed(r.state, p);
    ClosedNone(r.state, r.state.blocks);
    SentEnds(es);
    MessageEnds(r, e);
    ReactLast(es);
    ConvertedIs(es);
    NothingMore(ReactAll(INIT, es).state);
    AroundNothing(r.events, [Completed(Sent(es))]);
  }

  lemma AroundNothing<T>(a: seq<T>, b: seq<T>)
    ensures a + b + [] == a + [] + b
  {
  }

  lemma NothingMore(s: State)
    requires s.core.completedSent
    ensures Finalize(s).events == []
  {
  }

  lemma BetweenClosed(s: State, p: A.Phase)
    requires PhaseFits(s, p) && p.Between?
    ensures forall j | 0 <= j < |s.blocks| :: s.blocks[j].closed
  {
  }

  lemma MessageEnds(r: Reaction, e: A.Event)
    requires e.MessageDelta? && !r.state.core.completedSent
    ensures var s, f := r.state, StopOf(e);
            && FinalResponse(s, f).tokens.input == s.input
            && Then(r, e).events == r.events + [Completed(FinalResponse(s, f).(
                 tokens := Tokens(s.input, e.outputTokens, s.input + e.outputTokens, Some(0), None)))]
            && Then(r, e).state.core.completedSent
  {
    hide R.BuildOutput;
  }

  lemma SentEnds(es: seq<A.Event>)
    requires es != [] && es[|es| - 1].MessageDelta? && A.MeanEvents(NOTHING, es[..|es| - 1]).finish == None
    ensures var init, e := es[..|es| - 1], es[|es| - 1];
            var i := Sent(init).tokens.input;
            && Sent(es) == Sent(init).(incomplete := StopOf(e) == Length,
                                       tokens := Tokens(i, e.outputTokens, i + e.outputTokens, Some(0), None))
            && GatherAll(es) == GatherAll(init)
            && A.MeanEvents(NOTHING, es) == A.MeanEvents(NOTHING, init).(finish := A.MeanEvents(NOTHING, es).finish)
  {
    hide Closed, OutputOf, Take, Built;
  }

  lemma DoneShaped(es: seq<A.Event>)
    requires es != [] && A.WatchAll(A.Fresh, es).Done?
    ensures |es| > 1 && Shaped(es, es[..|es| - 2])
  {
    hide *;
    PhaseBefore(es);
    var init, live := es[..|es| - 1], es[..|es| - 2];
    assert init[..|init| - 1] == live;
    ClosingShaped(init);
    StopAdds(es);
    SameShape(es, init, live);
  }

  lemma StopAdds(es: seq<A.Event>)
    requires |es| > 1 && es[|es| - 1].MessageStop? && ReactAll(INIT, es[..|es| - 1]).state.core.completedSent
    ensures var init := es[..|es| - 1];
            && Converted(es) == Converted(init) && GatherAll(es) == GatherAll(init)
            && A.MeanEvents(NOTHING, es) == A.MeanEvents(NOTHING, init) && Seen(es) == Seen(init)
  {
    var init := es[..|es| - 1];
    var r := ReactAll(INIT, init);
    ReactLast(es);
    ConvertedIs(es);
    ConvertedIs(init);
    assert React(r.state, es[|es| - 1]) == Reaction(r.state, []);
    assert r.events + [] == r.events;
    hide React, ReactAll, Finalize, Converted;
  }

  lemma SameShape(es: seq<A.Event>, init: seq<A.Event>, live: seq<A.Event>)
    requires Shaped(init, live) && live <= es && Converted(es) == Converted(init) && GatherAll(es) == GatherAll(init)
    requires A.MeanEvents(NOTHING, es) == A.MeanEvents(NOTHING, init) && Seen(es) == Seen(init)
    ensures Shaped(es, live)
  {
    hide Converted, GatherAll, A.MeanEvents, Seen, OpenDone, ReactAll, A.WatchAll, Built, OutputOf, Closed, Take;
  }

  lemma ConvertedShape(es: seq<A.Event>) returns (live: seq<A.Event>)
    requires es != [] && A.WatchAll(A.Fresh, es) != A.Bad
    ensures Shaped(es, live)
  {
    hide *;
    PhaseBefore(es);
    var p := A.WatchAll(A.Fresh, es);
    if p.Closing? {
      ClosingShaped(es);
      live := es[..|es| - 1];
    } else if p.Done? {
      DoneShaped(es);
      live := es[..|es| - 2];
    } else {
      InsideShaped(es);
      live := es;
    }
  }

  lemma ShapedLive(es: seq<A.Event>, live: seq<A.Event>)
    requires Shaped(es, live)
    ensures live != [] && live <= es && Inside(A.WatchAll(A.Fresh, live)) && GatherAll(live) == GatherAll(es)
    ensures A.MeanEvents(NOTHING, es) == A.MeanEvents(NOTHING, live).(finish := A.MeanEvents(NOTHING, es).finish)
    ensures A.MeanEvents(NOTHING, es).reasoning == A.MeanEvents(NOTHING, live).reasoning
    ensures var r := ReactAll(INIT, live);
            Converted(es) == r.events + OpenDone(r.state, r.state.blocks) + [Completed(Sent(es))]
  {
    hide GatherAll, A.MeanEvents, A.WatchAll, ReactAll, OpenDone, Converted, Sent, Inside;
  }

  lemma CompletedEnds(items: seq<OutItem>, r: Response)
    ensures WatchAll(Client(items, |items|), [Completed(r)]) ==
            if AllCloseRight(items, |items|) && r.output == OutputOf(Closed(items)) then Ended(r) else Bad
  {
    assert Slots(items, |items|) == Closed(items);
    WatchOne(Running(Closed(items)), Completed(r));
    BadStays([Completed(r)]);
    hide OutputOf, WatchAll, AllCloseRight;
  }

  /** Cut anywhere, a well-formed stream gives a stream that a strict client accepts to the end, every block closed
      exactly once, by its stop or at the end, with the content of its deltas, and the only response.completed last,
      listing the fold of all block deltas: if and only if every thinking block has all the thinking of the stream
      and calls of one id agree. */
  lemma WellFormedIffAgree(es: seq<A.Event>)
    requires es != [] && A.WatchAll(A.Fresh, es) != A.Bad
    ensures WatchAll(Fresh, Converted(es)) ==
            if Agree(GatherAll(es), A.MeanEvents(NOTHING, es).reasoning) then Ended(Summary(es)) else Bad
  {
    hide *;
    var live := ConvertedShape(es);
    ShapedLive(es, live);
    var r, items, p, m := ReactAll(INIT, live), GatherAll(live), A.WatchAll(A.Fresh, live), A.MeanEvents(NOTHING, live);
    LiveTracks(live);
    TracksHolds(r, items, p, m);
    EndCloses(r.state, items, p);
    var done := OpenDone(r.state, r.state.blocks);
    WatchConcat(Fresh, r.events, done);
    WatchConcat(Fresh, r.events + done, [Completed(Sent(es))]);
    CompletedEnds(items, Sent(es));
    SentIs(es);
    BuiltIfAgree(items);
    if Agree(items, m.reasoning) { AgreeClosesRight(items); }
  }

  /** In particular if there is one thinking block at most and no id is used twice. */
  lemma WellFormed(es: seq<A.Event>)
    requires es != [] && A.WatchAll(A.Fresh, es) != A.Bad && Apart(GatherAll(es))
    ensures WatchAll(Fresh, Converted(es)) == Ended(Summary(es))
  {
    hide *;
    WellFormedIffAgree(es);
    var live := ConvertedShape(es);
    ShapedLive(es, live);
    LiveTracks(live);
    TracksHolds(ReactAll(INIT, live), GatherAll(live), A.WatchAll(A.Fresh, live), A.MeanEvents(NOTHING, live));
    ApartAgree(GatherAll(es));
  }

  /** What a well-formed stream has said of its usage so far. */
  ghost predicate SeenFits(es: seq<A.Event>, p: A.Phase) {
    && es != [] && es[0].MessageStart? && Seen(es).0 == es[0].inputTokens
    && (Inside(p) ==> Seen(es).1 == 0 && forall j | 0 <= j < |es| :: !es[j].MessageDelta?)
    && (forall j | 0 <= j < |es| && es[j].MessageDelta? :: Seen(es).1 == es[j].outputTokens)
  }

  lemma SeenStep(es: seq<A.Event>, p: A.Phase)
    requires es != [] && A.Watch(p, es[|es| - 1]) != A.Bad
    requires if |es| == 1 then p == A.Fresh else p != A.Fresh && SeenFits(es[..|es| - 1], p)
    ensures SeenFits(es, A.Watch(p, es[|es| - 1])) && A.Watch(p, es[|es| - 1]) != A.Fresh
  {
    var n := |es| - 1;
    assert forall j | 0 <= j < n :: es[..n][j] == es[j];
    assert Seen(es) == SeenNext(Seen(es[..n]), es[n]);
    if n == 0 { assert Seen(es[..0]) == (0, 0); }
    hide Seen;
  }

  lemma {:induction false} SeenIs(es: seq<A.Event>)
    requires es != [] && A.WatchAll(A.Fresh, es) != A.Bad
    ensures SeenFits(es, A.WatchAll(A.Fresh, es)) && A.WatchAll(A.Fresh, es) != A.Fresh
  {
    hide A.Watch, SeenFits;
    var init := es[..|es| - 1];
    if init != [] {
      NotBadBefore(es);
      SeenIs(init);
    }
    SeenStep(es, A.WatchAll(A.Fresh, init));
  }

  lemma NotBadBefore(es: seq<A.Event>)
    requires es != [] && A.WatchAll(A.Fresh, es) != A.Bad
    ensures A.WatchAll(A.Fresh, es[..|es| - 1]) != A.Bad
  {
  }

  /** Cut anywhere, a well-formed stream gives as its last event a response.completed with the input tokens of its
      message_start, the output tokens of its message_delta, 0 if it has none yet, and their sum. It has all text of the
      stream, up to a million characters. */
  lemma UsageReported(es: seq<A.Event>)
    requires es != [] && A.WatchAll(A.Fresh, es) != A.Bad
    ensures es[0].MessageStart?
    ensures var out := Converted(es);
            && out != [] && out[|out| - 1].Completed?
            && var r := out[|out| - 1].response;
               && r.tokens.input == es[0].inputTokens && r.tokens.total == r.tokens.input + r.tokens.output
               && r.tokens.cached == Some(0) && r.tokens.reasoned == None
               && (r.incomplete <==>
                     exists j | 0 <= j < |es| :: es[j].MessageDelta? && es[j].stop == Some(A.MaxTokens))
               && (forall j | 0 <= j < |es| && es[j].MessageDelta? :: r.tokens.output == es[j].outputTokens)
               && ((forall j | 0 <= j < |es| :: !es[j].MessageDelta?) ==> r.tokens.output == 0)
               && var text := A.MeanEvents(NOTHING, es).text;
                  r.outputText == if |text| <= 1_000_000 then text else text[..1_000_000]
  {
    hide Converted, Shaped, GatherAll, ReactAll, OpenDone, A.WatchAll, A.MeanEvents, Built, OutputOf, Closed;
    var live := ConvertedShape(es);
    ShapedLive(es, live);
    SeenIs(es);
    NoneSeen(es);
    IncompleteIs(es);
  }

  /** A well-formed stream has one message_delta at most, and its finish is that of it. */
  lemma {:induction false} IncompleteIs(es: seq<A.Event>)
    requires es != [] && A.WatchAll(A.Fresh, es) != A.Bad
    ensures A.MeanEvents(NOTHING, es).finish == Some(Length) <==>
            exists j | 0 <= j < |es| :: es[j].MessageDelta? && es[j].stop == Some(A.MaxTokens)
    ensures Inside(A.WatchAll(A.Fresh, es)) ==>
              A.MeanEvents(NOTHING, es).finish == None && forall j | 0 <= j < |es| :: !es[j].MessageDelta?
  {
    hide A.MeanEvents, A.Watch;
    var n := |es| - 1;
    var init := es[..n];
    MeanLast(es);
    assert forall j | 0 <= j < n :: init[j] == es[j];
    if init != [] {
      NotBadBefore(es);
      IncompleteIs(init);
      SeenIs(init);
    }
    StepFinish(A.WatchAll(A.Fresh, init), A.MeanEvents(NOTHING, init), es[n]);
  }

  lemma MeanLast(es: seq<A.Event>)
    requires es != []
    ensures A.MeanEvents(NOTHING, es) == A.MeanEvent(A.MeanEvents(NOTHING, es[..|es| - 1]), es[|es| - 1])
    ensures A.MeanEvents(NOTHING, []) == NOTHING
  {
  }

  lemma StepFinish(p: A.Phase, m: Meaning, e: A.Event)
    requires A.Watch(p, e) != A.Bad
    ensures e.MessageDelta? ==> p.Between? && !Inside(A.Watch(p, e))
    ensures !e.MessageDelta? ==> A.MeanEvent(m, e).finish == m.finish
    ensures !e.MessageDelta? && Inside(A.Watch(p, e)) ==> p == A.Fresh || Inside(p)
    ensures e.MessageDelta? && m.finish == None ==>
              (A.MeanEvent(m, e).finish == Some(Length) <==> e.stop == Some(A.MaxTokens))
  {
    hide IndexOf, AddArgs;
  }

  /** Text and arguments go to the output item their block was given, whatever its number. */
  lemma DeltaToItsBlock(s: State, i: int, b: A.Block, t: string)
    ensures var begun := React(s, A.BlockStart(i, b));
            && begun.events != [] && begun.events[0].ItemAdded?
            && var out := begun.events[0].out;
               && (b.TextBlock? ==>
                     React(begun.state, A.DeltaEvent(i, A.TextDelta(t))).events == [TextDelta(out, t)])
               && (b.ToolBlock? ==>
                     React(begun.state, A.DeltaEvent(i, A.JsonDelta(t))).events == [ArgsDelta(Some(out), t)])
               && (b.ThinkingBlock? ==>
                     React(begun.state, A.DeltaEvent(i, A.ThinkingDelta(t))).events == [ReasoningDelta(out, t)])
  {
    hide Grow, R.AppendItemText;
    PutFinds(s.blocks, BlockData(i, A.KindOf(b), s.core.outputIndex, if b.ToolBlock? then b.id else "", false));
    hide Find, Put;
  }

  lemma PutFinds(blocks: seq<BlockData>, b: BlockData)
    ensures var after := Put(blocks, b);
            Find(after, b.index) != -1 && after[Find(after, b.index)] == b
  {
    var p := Find(blocks, b.index);
    if p == -1 {
      assert (blocks + [b])[|blocks|] == b;
    } else {
      FindReplaced(blocks, p, b);
    }
  }

  lemma {:induction false} FindReplaced(blocks: seq<BlockData>, p: nat, b: BlockData)
    requires p < |blocks| && Find(blocks, b.index) == p
    ensures Find(blocks[p := b], b.index) == p
  {
    var n := |blocks| - 1;
    if p < n {
      assert blocks[p := b][..n] == blocks[..n][p := b];
      FindReplaced(blocks[..n], p, b);
    }
  }

  lemma {:induction false} NoneSeen(es: seq<A.Event>)
    ensures (forall j | 0 <= j < |es| :: !es[j].MessageDelta?) ==> Seen(es).1 == 0
  {
    if es != [] { NoneSeen(es[..|es| - 1]); }
  }

  lemma {:induction false} MeanDone(m: Meaning, s: State, blocks: seq<BlockData>)
    ensures MeanEvents(m, OpenDone(s, blocks)) == m
  {
    hide MeanEvents, BlockDone;
    R.MeanNone(m);
    if blocks != [] {
      var n := |blocks| - 1;
      MeanDone(m, s, blocks[..n]);
      DoneMeansNothing(m, s, blocks[n]);
      MeanEventsConcat(m, OpenDone(s, blocks[..n]), if blocks[n].closed then [] else BlockDone(s, blocks[n]));
    }
  }

  /** The client reads the same text, reasoning and tool calls, numbered alike, and a finish that depends only on
      the truncation mark and on whether there were calls. */
  lemma MeaningKept(es: seq<A.Event>)
    requires es != [] && A.WatchAll(A.Fresh, es) != A.Bad
    ensures var m := A.MeanEvents(NOTHING, es);
            MeanEvents(NOTHING, Converted(es)) == m.(finish := Some(R.FinishRead(Or(m.finish, Stop), m.entries != [])))
  {
    hide *;
    var live := ConvertedShape(es);
    ShapedLive(es, live);
    LiveTracks(live);
    var r, m := ReactAll(INIT, live), A.MeanEvents(NOTHING, live);
    TracksHolds(r, GatherAll(live), A.WatchAll(A.Fresh, live), m);
    var done := OpenDone(r.state, r.state.blocks);
    MeanDone(m, r.state, r.state.blocks);
    MeanEventsConcat(NOTHING, r.events, done);
    MeanEventsConcat(NOTHING, r.events + done, [Completed(Sent(es))]);
    R.MeanOne(m, Completed(Sent(es)));
    SentFinish(es, m);
  }

  lemma SentFinish(es: seq<A.Event>, m: Meaning)
    requires m.finish == None && A.MeanEvents(NOTHING, es) == m.(finish := A.MeanEvents(NOTHING, es).finish)
    ensures var f := A.MeanEvents(NOTHING, es).finish;
            MeanEvent(m, Completed(Sent(es))) == m.(finish := Some(R.FinishRead(Or(f, Stop), m.entries != [])))
  {
    SentCalls(es);
    SentIs(es);
    hide HasCall, A.MeanEvents, Sent, Built;
  }

  ghost predicate AnyCall(items: seq<OutItem>) {
    exists j :: 0 <= j < |items| && items[j].FunctionCall?
  }

  lemma GatherCalls(items: seq<OutItem>, e: A.Event)
    ensures AnyCall(Gather(items, e)) <==> AnyCall(items) || (e.BlockStart? && e.block.ToolBlock?)
  {
    var items' := Gather(items, e);
    assert forall j | 0 <= j < |items| :: items'[j].FunctionCall? == items[j].FunctionCall?;
    if e.BlockStart? { assert items'[|items|] == EmptyItem(HeadOf(e.block)); }
    if AnyCall(items) {
      var j :| 0 <= j < |items| && items[j].FunctionCall?;
      assert items'[j].FunctionCall?;
    }
  }

  lemma MeanCalls(m: Meaning, e: A.Event)
    ensures A.MeanEvent(m, e).entries != [] <==> m.entries != [] || (e.BlockStart? && e.block.ToolBlock?)
  {
    hide IndexOf;
  }

  lemma {:induction false} CallsGathered(es: seq<A.Event>)
    ensures A.MeanEvents(NOTHING, es).entries != [] <==> AnyCall(GatherAll(es))
  {
    hide AnyCall;
    if es == [] {
      NoCall();
    } else {
      hide Gather, A.MeanEvent;
      CallsGathered(es[..|es| - 1]);
      GatherCalls(GatherAll(es[..|es| - 1]), es[|es| - 1]);
      MeanCalls(A.MeanEvents(NOTHING, es[..|es| - 1]), es[|es| - 1]);
    }
  }

  lemma NoCall()
    ensures !AnyCall([])
  {
  }

  lemma ListedIsCall(items: seq<OutItem>, j: nat)
    requires j < |items|
    ensures Listed(items, j).Some? && Listed(items, j).value.FunctionCall? <==> items[j].FunctionCall?
  {
    if items[j].FunctionCall? { LastCallIs(items, j); }
    hide Take, Thought, LastCall;
  }

  lemma {:induction false} ListsCalls(items: seq<OutItem>, n: nat)
    requires n <= |items|
    ensures HasCall(Lists(items, n)) <==> exists j :: 0 <= j < n && items[j].FunctionCall?
  {
    if n != 0 {
      ListsCalls(items, n - 1);
      ListedIsCall(items, n - 1);
      ListsSnoc(items, n);
      hide Listed, Lists;
      SnocCalls(Lists(items, n - 1), Listed(items, n - 1));
      if HasCall(Lists(items, n - 1)) {
        var j :| 0 <= j < n - 1 && items[j].FunctionCall?;
        assert 0 <= j < n && items[j].FunctionCall?;
      }
    }
  }

  lemma SnocCalls(s: seq<OutItem>, x: Option<OutItem>)
    ensures HasCall(Snoc(s, x)) <==> HasCall(s) || (x.Some? && x.value.FunctionCall?)
  {
    var r := Snoc(s, x);
    assert forall i | 0 <= i < |s| :: r[i] == s[i];
    if x.Some? { assert r[|s|] == x.value; }
    if HasCall(s) {
      var i :| 0 <= i < |s| && s[i].FunctionCall?;
      assert r[i].FunctionCall?;
    }
  }

  lemma SentCalls(es: seq<A.Event>)
    ensures HasCall(Sent(es).output) <==> A.MeanEvents(NOTHING, es).entries != []
  {
    SentIs(es);
    CallsGathered(es);
    ListsCalls(GatherAll(es), |GatherAll(es)|);
    NoCalls();
    hide A.MeanEvents, GatherAll, Lists, Sent, HasCall;
  }

  lemma NoCalls()
    ensures !HasCall([]) && !HasCall([Message("")])
  {
  }

  // ----- what the condition is for -----

  const START: seq<A.Event> := [A.MessageStart("m", "model", 0)]

  /** A block of one delta. */
  function OneBlock(i: int, b: A.Block, d: A.BlockDelta): seq<A.Event> {
    [A.BlockStart(i, b), A.DeltaEvent(i, d), A.BlockStop(i)]
  }

  /** The folds of one more event. */
  lemma FoldsOne(es: seq<A.Event>, e: A.Event)
    ensures GatherAll(es + [e]) == Gather(GatherAll(es), e)
    ensures A.MeanEvents(NOTHING, es + [e]) == A.MeanEvent(A.MeanEvents(NOTHING, es), e)
    ensures A.WatchAll(A.Fresh, es + [e]) == A.Watch(A.WatchAll(A.Fresh, es), e)
  {
    assert (es + [e])[..|es|] == es;
  }

  lemma FoldsStart()
    ensures GatherAll(START) == [] && A.MeanEvents(NOTHING, START) == NOTHING
    ensures A.WatchAll(A.Fresh, START) == A.Between(0)
  {
    FoldsOne([], START[0]);
    assert [] + [START[0]] == START;
  }

  lemma FoldsBlock(es: seq<A.Event>, i: int, b: A.Block, d: A.BlockDelta)
    requires A.WatchAll(A.Fresh, es) == A.Between(i) && |GatherAll(es)| == i && A.KindOf(b) == A.DeltaKind(d)
    ensures var es' := es + OneBlock(i, b, d);
            && A.WatchAll(A.Fresh, es') == A.Between(i + 1)
            && GatherAll(es') == GatherAll(es) + [Extend(EmptyItem(HeadOf(b)), d)]
            && A.MeanEvents(NOTHING, es').reasoning ==
               A.MeanEvents(NOTHING, es).reasoning + if d.ThinkingDelta? then d.text else ""
  {
    var start, delta, stop := A.BlockStart(i, b), A.DeltaEvent(i, d), A.BlockStop(i);
    var m := A.MeanEvents(NOTHING, es);
    FoldsOne(es, start);
    FoldsOne(es + [start], delta);
    FoldsOne(es + [start] + [delta], stop);
    assert es + [start] + [delta] + [stop] == es + OneBlock(i, b, d);
    assert m.reasoning + "" == m.reasoning;
    hide GatherAll, A.MeanEvents, A.WatchAll, IndexOf, AddArgs;
  }

  const TWO_THOUGHTS: seq<A.Event> :=
    START + OneBlock(0, A.ThinkingBlock, A.ThinkingDelta("a")) + OneBlock(1, A.ThinkingBlock, A.ThinkingDelta("b"))

  lemma TwoThoughtsFold()
    ensures TWO_THOUGHTS != []
    ensures A.WatchAll(A.Fresh, TWO_THOUGHTS) == A.Between(2)
    ensures GatherAll(TWO_THOUGHTS) == [Reasoning("a"), Reasoning("b")]
    ensures A.MeanEvents(NOTHING, TWO_THOUGHTS).reasoning == "ab"
  {
    hide GatherAll, A.MeanEvents, A.WatchAll;
    var one := START + OneBlock(0, A.ThinkingBlock, A.ThinkingDelta("a"));
    FoldsStart();
    FoldsBlock(START, 0, A.ThinkingBlock, A.ThinkingDelta("a"));
    FoldsBlock(one, 1, A.ThinkingBlock, A.ThinkingDelta("b"));
    assert "" + "a" == "a" && "" + "b" == "b" && "a" + "b" == "ab";
  }

  lemma Disagree(items: seq<OutItem>, reasoning: string)
    requires items == [Reasoning("a"), Reasoning("b")] && reasoning == "ab"
    ensures !Agree(items, reasoning)
  {
    assert Take(items[0].text) == "a" && Take("ab") == "ab";
  }

  /** Two thinking blocks: the second is closed with the thinking of both, and the client refuses the stream. */
  lemma TwoThoughtsRefused()
    ensures A.WatchAll(A.Fresh, TWO_THOUGHTS) == A.Between(2)
    ensures GatherAll(TWO_THOUGHTS) == [Reasoning("a"), Reasoning("b")]
    ensures WatchAll(Fresh, Converted(TWO_THOUGHTS)) == Bad
  {
    hide *;
    TwoThoughtsFold();
    Disagree(GatherAll(TWO_THOUGHTS), A.MeanEvents(NOTHING, TWO_THOUGHTS).reasoning);
    WellFormedIffAgree(TWO_THOUGHTS);
  }

  const ONE_ID: seq<A.Event> :=
    START + OneBlock(0, A.ToolBlock("c", "f"), A.JsonDelta("1")) + OneBlock(1, A.ToolBlock("c", "f"), A.JsonDelta("2"))

  lemma OneIdFolds()
    ensures ONE_ID != []
    ensures A.WatchAll(A.Fresh, ONE_ID) == A.Between(2)
    ensures GatherAll(ONE_ID) == [FunctionCall("c", "f", "1"), FunctionCall("c", "f", "2")]
  {
    hide GatherAll, A.MeanEvents, A.WatchAll;
    var one := START + OneBlock(0, A.ToolBlock("c", "f"), A.JsonDelta("1"));
    FoldsStart();
    FoldsBlock(START, 0, A.ToolBlock("c", "f"), A.JsonDelta("1"));
    FoldsBlock(one, 1, A.ToolBlock("c", "f"), A.JsonDelta("2"));
    assert "" + "1" == "1" && "" + "2" == "2";
  }

  lemma CallsDisagree(items: seq<OutItem>, reasoning: string)
    requires items == [FunctionCall("c", "f", "1"), FunctionCall("c", "f", "2")]
    ensures !Agree(items, reasoning)
  {
    assert Take(items[0].args) == "1" && Take(items[1].args) == "2";
  }

  /** Two calls with one id: the final object lists the arguments of the second for both. */
  lemma OneIdRefused()
    ensures A.WatchAll(A.Fresh, ONE_ID) == A.Between(2)
    ensures GatherAll(ONE_ID) == [FunctionCall("c", "f", "1"), FunctionCall("c", "f", "2")]
    ensures WatchAll(Fresh, Converted(ONE_ID)) == Bad
  {
    hide *;
    OneIdFolds();
    CallsDisagree(GatherAll(ONE_ID), A.MeanEvents(NOTHING, ONE_ID).reasoning);
    WellFormedIffAgree(ONE_ID);
  }

  // ----- the session object -----

  lemma OpenDoneNext(s: State, i: nat)
    requires i < |s.blocks|
    ensures OpenDone(s, s.blocks[..i + 1]) ==
            OpenDone(s, s.blocks[..i]) + if s.blocks[i].closed then [] else BlockDone(s, s.blocks[i])
  {
    assert s.blocks[..i + 1][..i] == s.blocks[..i];
  }

  lemma BlockDoneSame(s: State, s': State, b: BlockData)
    requires s'.core == s.core
    ensures BlockDone(s', b) == BlockDone(s, b)
  {
  }

  /** The fields of `ResponseStreamState` this direction reads. */
  class Session {
    var outputIndex: nat
    var responseCreatedSent: bool
    var completedSent: bool
    var accumulatedText: string
    var toolCalls: map<string, R.CallData>
    var reasoningStarted: bool
    var reasoningContent: string
    var itemTexts: map<nat, string>
    var outputItems: seq<R.OutEntry>
    var contentBlocks: seq<BlockData>
    var inputTokens: int
    var outputTokens: int
    var sequenceNumber: nat

    function Core(): R.State
      reads this
    {
      R.INIT.(createdSent := responseCreatedSent, completedSent := completedSent, outputIndex := outputIndex,
              text := accumulatedText, reasoning := reasoningContent, reasoningStarted := reasoningStarted,
              itemTexts := itemTexts, calls := toolCalls, entries := outputItems)
    }

    ghost function View(): State
      reads this
    {
      State(Core(), contentBlocks, inputTokens, outputTokens)
    }

    constructor ()
      ensures View() == INIT && sequenceNumber == 0
    {
      outputIndex, responseCreatedSent, completedSent, accumulatedText := 0, false, false, "";
      toolCalls, reasoningStarted, reasoningContent, itemTexts, outputItems := map[], false, "", map[], [];
      contentBlocks, inputTokens, outputTokens, sequenceNumber := [], 0, 0, 0;
    }

    method StartText(index: int) returns (events: seq<Event>)
      modifies this
      ensures Reaction(View(), events) == OpenBlock(old(View()), index, A.TextBlock)
      ensures sequenceNumber == old(sequenceNumber)
    {
      hide Put;
      var out := outputIndex;
      outputIndex := out + 1;
      contentBlocks := Put(contentBlocks, BlockData(index, A.Text, out, "", false));
      itemTexts := itemTexts[out := ""];
      outputItems := outputItems + [R.MessageEntry(out)];
      events := [ItemAdded(out, MessageHead), PartAdded(out)];
    }

    method StartToolUse(index: int, id: string, name: string) returns (events: seq<Event>)
      modifies this
      ensures Reaction(View(), events) == OpenBlock(old(View()), index, A.ToolBlock(id, name))
      ensures sequenceNumber == old(sequenceNumber)
    {
      hide Put;
      var out := outputIndex;
      outputIndex := out + 1;
      contentBlocks := Put(contentBlocks, BlockData(index, A.ToolUse, out, id, false));
      toolCalls := toolCalls[id := R.CallData(name, "", out)];
      outputItems := outputItems + [R.CallEntry(out, id)];
      events := [ItemAdded(out, CallHead(id, name))];
    }

    method StartThinking(index: int) returns (events: seq<Event>)
      modifies this
      ensures Reaction(View(), events) == OpenBlock(old(View()), index, A.ThinkingBlock)
      ensures sequenceNumber == old(sequenceNumber)
    {
      hide Put;
      var out := outputIndex;
      outputIndex, reasoningStarted := out + 1, true;
      contentBlocks := Put(contentBlocks, BlockData(index, A.Thinking, out, "", false));
      outputItems := outputItems + [R.ReasoningEntry(out)];
      events := [ItemAdded(out, ReasoningHead), PartAdded(out)];
    }

    method StartBlock(index: int, block: A.Block) returns (events: seq<Event>)
      modifies this
      ensures Reaction(View(), events) == OpenBlock(old(View()), index, block) && sequenceNumber == old(sequenceNumber)
    {
      hide OpenBlock;
      match block {
        case TextBlock => events := StartText(index);
        case ToolBlock(id, name) => events := StartToolUse(index, id, name);
        case ThinkingBlock => events := StartThinking(index);
      }
    }

    method AppendText(index: int, text: string) returns (events: seq<Event>)
      modifies this`accumulatedText, this`itemTexts
      ensures Reaction(View(), events) == SayText(old(View()), index, text)
    {
      hide Find, Grow, R.AppendItemText;
      var p := Find(contentBlocks, index);
      accumulatedText := Grow(accumulatedText, text);
      if p != -1 {
        itemTexts := R.AppendItemText(itemTexts, contentBlocks[p].out, text);
      }
      events := [TextDelta(if p == -1 then index else contentBlocks[p].out, text)];
    }

    method AppendArguments(index: int, partialJson: string) returns (events: seq<Event>)
      modifies this`toolCalls
      ensures Reaction(View(), events) == SayArgs(old(View()), index, partialJson)
    {
      hide Find, Grow;
      var p := Find(contentBlocks, index);
      var callId := if p == -1 then "" else contentBlocks[p].callId;
      if callId in toolCalls {
        toolCalls := toolCalls[callId := toolCalls[callId].(args := Grow(toolCalls[callId].args, partialJson))];
      }
      events := [ArgsDelta(Some(if p == -1 then index else contentBlocks[p].out), partialJson)];
    }

    method AppendThinking(index: int, thinking: string) returns (events: seq<Event>)
      modifies this
      ensures Reaction(View(), events) == SayThinking(old(View()), index, thinking)
      ensures sequenceNumber == old(sequenceNumber)
    {
      hide Find, Put, Grow;
      reasoningContent := Grow(reasoningContent, thinking);
      if !reasoningStarted {
        var out := outputIndex;
        reasoningStarted, outputIndex := true, out + 1;
        contentBlocks := Put(contentBlocks, BlockData(index, A.Thinking, out, "", false));
        return [ItemAdded(out, ReasoningHead), PartAdded(out), ReasoningDelta(out, thinking)];
      }
      var p := Find(contentBlocks, index);
      events := [ReasoningDelta(if p == -1 then 0 else contentBlocks[p].out, thinking)];
    }

    method BuildBlockDoneEvents(block: BlockData) returns (events: seq<Event>)
      ensures events == BlockDone(View(), block)
    {
      hide MessageDone, CallDone, ReasoningDoneAll;
      match block.kind {
        case Text =>
          var text := if block.out in itemTexts then itemTexts[block.out] else accumulatedText;
          events := MessageDone(block.out, text, Some(Message(text)));
        case ToolUse =>
          var data := if block.callId in toolCalls then toolCalls[block.callId] else R.CallData("", "", 0);
          events := CallDone(block.out, data.name, data.args, Some(FunctionCall(block.callId, data.name, data.args)));
        case Thinking =>
          events := ReasoningDoneAll(block.out, reasoningContent, Some(Reasoning(reasoningContent)));
      }
    }

    method StopBlock(index: int) returns (events: seq<Event>)
      modifies this`contentBlocks
      ensures Reaction(View(), events) == CloseBlock(old(View()), index)
    {
      hide Find, BlockDone;
      var p := Find(contentBlocks, index);
      if p == -1 || contentBlocks[p].closed {
        return [];
      }
      events := BuildBlockDoneEvents(contentBlocks[p]);
      contentBlocks := contentBlocks[p := contentBlocks[p].(closed := true)];
    }

    method EndMessage(stop: Option<A.StopReason>, output: int) returns (events: seq<Event>)
      modifies this`outputTokens, this`completedSent
      ensures Reaction(View(), events) == React(old(View()), A.MessageDelta(stop, output))
    {
      hide R.BuildOutput;
      outputTokens := output;
      if completedSent {
        return [];
      }
      var finish := if stop.None? then Stop else A.ParseStop(stop.value);
      var usage := Tokens(inputTokens, outputTokens, inputTokens + outputTokens, Some(0), None);
      events := [Completed(Response(finish == Length, R.BuildOutput(Core()), accumulatedText, usage))];
      completedSent := true;
    }

    /** `anthropic_stream_chunk_to_response` */
    method TakeEvent(e: A.Event) returns (events: seq<Event>)
      modifies this
      ensures Reaction(View(), events) == React(old(View()), e) && sequenceNumber == old(sequenceNumber)
    {
      hide OpenBlock, SayText, SayArgs, SayThinking, CloseBlock, Complete;
      match e {
        case MessageStart(_, _, input) =>
          inputTokens := inputTokens + input;
          if responseCreatedSent {
            return [];
          }
          responseCreatedSent := true;
          events := [Created, InProgress];
        case BlockStart(i, b) => events := StartBlock(i, b);
        case DeltaEvent(i, TextDelta(t)) => events := AppendText(i, t);
        case DeltaEvent(i, JsonDelta(t)) => events := AppendArguments(i, t);
        case DeltaEvent(i, ThinkingDelta(t)) => events := AppendThinking(i, t);
        case DeltaEvent(_, SignatureDelta) => events := [];
        case BlockStop(i) => events := StopBlock(i);
        case MessageDelta(stop, output) => events := EndMessage(stop, output);
        case MessageStop => events := [];
      }
    }

    /** `finalize_anthropic_stream` */
    method FinalizeState() returns (events: seq<Event>)
      modifies this`contentBlocks, this`completedSent
      ensures Reaction(View(), events) == Finalize(old(View()))
    {
      hide BlockDone, OpenDone, R.BuildOutput;
      events := [];
      if completedSent {
        return;
      }
      ghost var s := View();
      NoneOpen(s);
      for i := 0 to |contentBlocks|
        invariant |contentBlocks| == |s.blocks| && Core() == s.core
        invariant inputTokens == s.input && outputTokens == s.output
        invariant forall j | 0 <= j < |s.blocks| ::
                    contentBlocks[j] == if j < i then s.blocks[j].(closed := true) else s.blocks[j]
        invariant events == OpenDone(s, s.blocks[..i])
      {
        OpenDoneNext(s, i);
        if !contentBlocks[i].closed {
          BlockDoneSame(s, View(), contentBlocks[i]);
          var done := BuildBlockDoneEvents(contentBlocks[i]);
          events := events + done;
          contentBlocks := contentBlocks[i := contentBlocks[i].(closed := true)];
        } else {
          assert events + [] == events;
        }
      }
      assert s.blocks[..|s.blocks|] == s.blocks;
      assert contentBlocks == seq(|s.blocks|, i requires 0 <= i < |s.blocks| => s.blocks[i].(closed := true));
      var usage := Tokens(inputTokens, outputTokens, inputTokens + outputTokens, Some(0), None);
      events := events + [Completed(Response(false, R.BuildOutput(Core()), accumulatedText, usage))];
      completedSent := true;
    }

    /** `convert_stream_chunk` */
    method ConvertStreamChunk(e: A.Event) returns (events: seq<Numbered>)
      modifies this
      ensures var r := React(old(View()), e);
              && View() == r.state && events == Number(r.events, old(sequenceNumber))
              && sequenceNumber == old(sequenceNumber) + |r.events|
    {
      hide React;
      var taken := TakeEvent(e);
      events, sequenceNumber := AssignSequenceNumbers(taken, sequenceNumber);
    }

    /** `finalize_stream` */
    method FinalizeStream() returns (events: seq<Numbered>)
      modifies this
      ensures events == Number(Finalize(old(View())).events, old(sequenceNumber))
    {
      hide Finalize;
      var last := FinalizeState();
      events, sequenceNumber := AssignSequenceNumbers(last, sequenceNumber);
    }
  }

  lemma NoneOpen(s: State)
    ensures OpenDone(s, s.blocks[..0]) == []
  {
  }

  lemma NothingConverted()
    ensures Converted([]) == [] && ReactAll(INIT, []) == Reaction(INIT, [])
  {
  }

  lemma ReactNext(es: seq<A.Event>, i: nat)
    requires i < |es|
    ensures var before := ReactAll(INIT, es[..i]);
            var last := React(before.state, es[i]);
            ReactAll(INIT, es[..i + 1]) == Reaction(last.state, before.events + last.events)
  {
    assert es[..i + 1][..i] == es[..i];
  }

  /** A whole upstream: its events, then the end of the stream. The client receives exactly `Converted`, with the
      sequence numbers 1, 2, 3, and so on. */
  method ConvertStream(es: seq<A.Event>) returns (events: seq<Numbered>)
    ensures events == Number(Converted(es), 0)
  {
    hide React, ReactAll, Finalize, Converted;
    events := [];
    NothingConverted();
    if es == [] {
      return;
    }
    ConvertedIs(es);
    var session := new Session();
    for i := 0 to |es|
      invariant fresh(session)
      invariant var r := ReactAll(INIT, es[..i]);
                session.View() == r.state && session.sequenceNumber == |r.events| && events == Number(r.events, 0)
    {
      ghost var r := ReactAll(INIT, es[..i]);
      ReactNext(es, i);
      NumberConcat(r.events, React(r.state, es[i]).events, 0);
      var more := session.ConvertStreamChunk(es[i]);
      events := events + more;
    }
    assert es[..|es|] == es;
    ghost var r := ReactAll(INIT, es);
    NumberConcat(r.events, Finalize(r.state).events, 0);
    var last := session.FinalizeStream();
    events := events + last;
  }
}
