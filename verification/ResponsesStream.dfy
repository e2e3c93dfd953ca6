/**
 The Responses stream: its events, what they mean, and the client that assembles the output items
 from the deltas and checks every event against what it has assembled.
 */
module ResponsesStream {
  import opened Wrappers
  import opened ChatStream

  const MAX_STREAM_AGGREGATE_TEXT_CHARS: nat := 1_000_000

  datatype ItemHead = MessageHead | CallHead(callId: string, name: string) | ReasoningHead

  datatype OutItem =
    | Message(text: string)
    | FunctionCall(callId: string, name: string, args: string)
    | Reasoning(text: string)

  datatype Tokens = Tokens(input: int, output: int, total: int, cached: Option<int>, reasoned: Option<int>)

  datatype Response = Response(incomplete: bool, output: seq<OutItem>, outputText: string, tokens: Tokens)

  /** An `ItemDone` without an item stands for the empty object the source sends. */
  datatype Event =
    | Created
    | InProgress
    | ItemAdded(out: int, head: ItemHead)
    | PartAdded(out: int)
    | TextDelta(out: int, text: string)
    | ArgsDelta(target: Option<int>, text: string)
    | ReasoningDelta(out: int, text: string)
    | TextDone(out: int, text: string)
    | ArgsDone(out: int, name: string, args: string)
    | ReasoningDone(out: int, text: string)
    | PartDone(out: int, text: string)
    | ItemDone(out: int, item: Option<OutItem>)
    | Completed(response: Response)

  // ----- truncated aggregates -----

  /** The first million characters. */
  function Take(s: string): string {
    if |s| <= MAX_STREAM_AGGREGATE_TEXT_CHARS then s else s[..MAX_STREAM_AGGREGATE_TEXT_CHARS]
  }

  /** `append_aggregate_text` and `append_tool_arguments` */
  function Grow(current: string, text: string): string {
    var remaining := MAX_STREAM_AGGREGATE_TEXT_CHARS - |current|;
    if text == "" || remaining <= 0 then current
    else current + if |text| <= remaining then text else text[..remaining]
  }

  /** Appending piece by piece keeps the first million characters of the whole. */
  lemma GrowTakes(whole: string, text: string)
    ensures Grow(Take(whole), text) == Take(whole + text)
  {
  }

  // ----- meaning -----

  /** `parse_responses_finish` */
  function ParseFinal(r: Response): Finish {
    if r.incomplete then Length else if HasCall(r.output) then ToolCalls else Stop
  }

  predicate HasCall(output: seq<OutItem>) {
    exists i | 0 <= i < |output| :: output[i].FunctionCall?
  }

  function MeanEvent(m: Meaning, e: Event): Meaning {
    match e
    case ItemAdded(out, CallHead(callId, name)) => m.(entries := m.entries + [Entry(out, ToolCall(callId, name, ""))])
    case TextDelta(_, t) => m.(text := m.text + t)
    case ReasoningDelta(_, t) => m.(reasoning := m.reasoning + t)
    case ArgsDelta(Some(out), t) =>
      if IndexOf(m.entries, out) == -1 then m else m.(entries := AddArgs(m.entries, IndexOf(m.entries, out), t))
    case Completed(r) => if m.finish.Some? then m else m.(finish := Some(ParseFinal(r)))
    case _ => m
  }

  function MeanEvents(m: Meaning, es: seq<Event>): Meaning {
    if es == [] then m else MeanEvent(MeanEvents(m, es[..|es| - 1]), es[|es| - 1])
  }

  lemma {:induction false} MeanEventsConcat(m: Meaning, a: seq<Event>, b: seq<Event>)
    ensures MeanEvents(m, a + b) == MeanEvents(MeanEvents(m, a), b)
  {
    if b == [] {
      assert a + b == a;
    } else {
      assert (a + b)[..|a + b| - 1] == a + b[..|b| - 1];
      MeanEventsConcat(m, a, b[..|b| - 1]);
    }
  }

  // ----- the assembling client -----

  /** How far an item has come: just added, its content part added, its text or arguments declared final with
      the part still open, nothing left but output_item.done, and done. */
  datatype Stage = Bare | Filling | Settled | Sealed | Gone

  /** An item as assembled from its deltas, and how far it has come. */
  datatype Slot = Slot(item: OutItem, stage: Stage)

  /** An item that takes deltas: a message or reasoning once its part was added, a call from the start. */
  function OpenSlot(item: OutItem): Slot {
    Slot(item, if item.FunctionCall? then Bare else Filling)
  }

  function DoneSlot(item: OutItem): Slot {
    Slot(item, Gone)
  }

  datatype Phase = Fresh | Begun | Running(slots: seq<Slot>) | Ended(response: Response) | Bad

  function EmptyItem(h: ItemHead): OutItem {
    match h
    case MessageHead => Message("")
    case CallHead(callId, name) => FunctionCall(callId, name, "")
    case ReasoningHead => Reasoning("")
  }

  /** The finished form of an assembled item: aggregates truncated, empty reasoning left out. */
  function Final(item: OutItem): Option<OutItem> {
    match item
    case Message(_) => Some(item)
    case FunctionCall(callId, name, args) => Some(FunctionCall(callId, name, Take(args)))
    case Reasoning(text) => if text == "" then None else Some(Reasoning(Take(text)))
  }

  /** What output_item.done may carry; empty reasoning may also be sent as such. */
  predicate DoneFits(item: Option<OutItem>, assembled: OutItem) {
    item == Final(assembled) || (assembled == Reasoning("") && item == Some(assembled))
  }

  function Finals(slots: seq<Slot>): seq<OutItem> {
    if slots == [] then []
    else
      var last := Final(slots[|slots| - 1].item);
      Finals(slots[..|slots| - 1]) + if last.Some? then [last.value] else []
  }

  /** What the final object must list: the items in order, or one empty message. */
  function OutputOf(slots: seq<Slot>): seq<OutItem> {
    if Finals(slots) == [] then [Message("")] else Finals(slots)
  }

  predicate At(slots: seq<Slot>, out: int, stage: Stage) {
    0 <= out < |slots| && slots[out].stage == stage
  }

  /** The stage output_item.done may come at: the part of a message or of reasoning was added and, exactly if
      there is any text, closed; the arguments of a call were declared final. */
  function LastStage(item: OutItem): Stage {
    if !item.FunctionCall? && item.text == "" then Filling else Sealed
  }

  /** The text that a closing event must repeat. */
  function FinalText(item: OutItem): string {
    match item
    case Message(t) => t
    case Reasoning(t) => Take(t)
    case FunctionCall(_, _, args) => Take(args)
  }

  /** One event as a strict client takes it. */
  function Watch(p: Phase, e: Event): Phase {
    match p
    case Fresh => if e.Created? then Begun else Bad
    case Begun => if e.InProgress? then Running([]) else Bad
    case Running(slots) => WatchRunning(slots, e)
    case _ => Bad
  }

  /** Each item is added at the next index; its part is added once, before the first delta; its *.done events
      come once, after the last delta, with the assembled content; then output_item.done, once. */
  function WatchRunning(slots: seq<Slot>, e: Event): Phase {
    match e
    case ItemAdded(out, h) => if out == |slots| then Running(slots + [Slot(EmptyItem(h), Bare)]) else Bad
    case PartAdded(out) =>
      if At(slots, out, Bare) && !slots[out].item.FunctionCall?
      then Running(slots[out := Slot(slots[out].item, Filling)]) else Bad
    case TextDelta(out, t) =>
      if At(slots, out, Filling) && slots[out].item.Message?
      then Running(slots[out := Slot(Message(slots[out].item.text + t), Filling)]) else Bad
    case ArgsDelta(Some(out), t) =>
      if At(slots, out, Bare) && slots[out].item.FunctionCall?
      then
        var c := slots[out].item;
        Running(slots[out := Slot(FunctionCall(c.callId, c.name, c.args + t), Bare)])
      else Bad
    case ReasoningDelta(out, t) =>
      if At(slots, out, Filling) && slots[out].item.Reasoning?
      then Running(slots[out := Slot(Reasoning(slots[out].item.text + t), Filling)]) else Bad
    case TextDone(out, t) =>
      if At(slots, out, Filling) && slots[out].item.Message? && FinalText(slots[out].item) == t
      then Running(slots[out := Slot(slots[out].item, Settled)]) else Bad
    case ArgsDone(out, name, args) =>
      if At(slots, out, Bare) && slots[out].item.FunctionCall? && slots[out].item.name == name
         && FinalText(slots[out].item) == args
      then Running(slots[out := Slot(slots[out].item, Sealed)]) else Bad
    case ReasoningDone(out, t) =>
      if At(slots, out, Filling) && slots[out].item.Reasoning? && FinalText(slots[out].item) == t
      then Running(slots[out := Slot(slots[out].item, Settled)]) else Bad
    case PartDone(out, t) =>
      if At(slots, out, Settled) && !slots[out].item.FunctionCall? && FinalText(slots[out].item) == t
      then Running(slots[out := Slot(slots[out].item, Sealed)]) else Bad
    case ItemDone(out, item) =>
      if 0 <= out < |slots| && slots[out].stage == LastStage(slots[out].item) && DoneFits(item, slots[out].item)
      then Running(slots[out := DoneSlot(slots[out].item)]) else Bad
    case Completed(r) =>
      if (forall i | 0 <= i < |slots| :: slots[i].stage == Gone) && r.output == OutputOf(slots) then Ended(r) else Bad
    case _ => Bad
  }

  function WatchAll(p: Phase, es: seq<Event>): Phase {
    if es == [] then p else Watch(WatchAll(p, es[..|es| - 1]), es[|es| - 1])
  }

  lemma {:induction false} WatchConcat(p: Phase, a: seq<Event>, b: seq<Event>)
    ensures WatchAll(p, a + b) == WatchAll(WatchAll(p, a), b)
  {
    if b == [] {
      assert a + b == a;
    } else {
      assert (a + b)[..|a + b| - 1] == a + b[..|b| - 1];
      WatchConcat(p, a, b[..|b| - 1]);
    }
  }

  lemma WatchOne(p: Phase, e: Event)
    ensures WatchAll(p, [e]) == Watch(p, e)
  {
    assert WatchAll(p, [e][..0]) == p;
  }

  lemma WatchNone(p: Phase)
    ensures WatchAll(p, []) == p
  {
  }

  // ----- the done sequences (`build_response_item_done_events`) -----

  function MessageDone(out: int, text: string, item: Option<OutItem>): seq<Event> {
    (if text != "" then [TextDone(out, text), PartDone(out, text)] else []) + [ItemDone(out, item)]
  }

  function CallDone(out: int, name: string, args: string, item: Option<OutItem>): seq<Event> {
    [ArgsDone(out, name, args), ItemDone(out, item)]
  }

  function ReasoningDoneAll(out: int, text: string, item: Option<OutItem>): seq<Event> {
    (if text != "" then [ReasoningDone(out, text), PartDone(out, text)] else []) + [ItemDone(out, item)]
  }

  lemma WatchTwo(p: Phase, a: Event, b: Event)
    ensures WatchAll(p, [a, b]) == Watch(Watch(p, a), b)
  {
    hide Watch;
    WatchOne(p, a);
    WatchOne(Watch(p, a), b);
    WatchConcat(p, [a], [b]);
    assert [a] + [b] == [a, b];
  }

  lemma WatchThree(p: Phase, a: Event, b: Event, c: Event)
    ensures WatchAll(p, [a, b, c]) == Watch(Watch(Watch(p, a), b), c)
  {
    hide Watch;
    WatchTwo(p, a, b);
    WatchOne(Watch(Watch(p, a), b), c);
    WatchConcat(p, [a, b], [c]);
    assert [a, b] + [c] == [a, b, c];
  }

  lemma Overwritten(slots: seq<Slot>, out: nat, a: Slot, b: Slot)
    requires out < |slots|
    ensures slots[out := a][out := b] == slots[out := b]
  {
  }

  /** The three closing events of a text, one by one. */
  lemma PartCloses(slots: seq<Slot>, out: nat, done: Event, item: Option<OutItem>)
    requires out < |slots| && slots[out] == OpenSlot(slots[out].item) && DoneFits(item, slots[out].item)
    requires !slots[out].item.FunctionCall? && slots[out].item.text != ""
    requires done == (if slots[out].item.Message? then TextDone(out, FinalText(slots[out].item))
                      else ReasoningDone(out, FinalText(slots[out].item)))
    ensures WatchAll(Running(slots), [done, PartDone(out, FinalText(slots[out].item)), ItemDone(out, item)]) ==
            Running(slots[out := DoneSlot(slots[out].item)])
  {
    hide WatchAll, FinalText, DoneFits;
    var i := slots[out].item;
    var settled, sealed := slots[out := Slot(i, Settled)], slots[out := Slot(i, Sealed)];
    assert Watch(Running(slots), done) == Running(settled);
    Overwritten(slots, out, Slot(i, Settled), Slot(i, Sealed));
    assert Watch(Running(settled), PartDone(out, FinalText(i))) == Running(sealed);
    Overwritten(slots, out, Slot(i, Sealed), DoneSlot(i));
    assert Watch(Running(sealed), ItemDone(out, item)) == Running(slots[out := DoneSlot(i)]);
    hide Watch;
    WatchThree(Running(slots), done, PartDone(out, FinalText(i)), ItemDone(out, item));
  }

  /** A done sequence that agrees with the assembled item closes it and changes nothing else. */
  lemma MessageCloses(slots: seq<Slot>, out: nat)
    requires out < |slots| && slots[out] == OpenSlot(slots[out].item) && slots[out].item.Message?
    ensures WatchAll(Running(slots), MessageDone(out, slots[out].item.text, Some(slots[out].item))) ==
            Running(slots[out := DoneSlot(slots[out].item)])
  {
    var t, last := slots[out].item.text, ItemDone(out, Some(slots[out].item));
    hide WatchAll, WatchRunning;
    if t == "" {
      assert MessageDone(out, t, Some(slots[out].item)) == [last];
      EmptyCloses(slots, out, Some(slots[out].item));
    } else {
      assert MessageDone(out, t, Some(slots[out].item)) == [TextDone(out, t), PartDone(out, t), last];
      PartCloses(slots, out, TextDone(out, t), Some(slots[out].item));
    }
  }

  lemma EmptyCloses(slots: seq<Slot>, out: nat, item: Option<OutItem>)
    requires out < |slots| && slots[out] == OpenSlot(slots[out].item) && DoneFits(item, slots[out].item)
    requires !slots[out].item.FunctionCall? && slots[out].item.text == ""
    ensures WatchAll(Running(slots), [ItemDone(out, item)]) == Running(slots[out := DoneSlot(slots[out].item)])
  {
    WatchOne(Running(slots), ItemDone(out, item));
    hide WatchAll, DoneFits;
  }

  lemma CallCloses(slots: seq<Slot>, out: nat)
    requires out < |slots| && slots[out] == OpenSlot(slots[out].item) && slots[out].item.FunctionCall?
    ensures var c := slots[out].item;
            WatchAll(Running(slots), CallDone(out, c.name, Take(c.args), Final(c))) ==
            Running(slots[out := DoneSlot(c)])
  {
    var c := slots[out].item;
    hide WatchAll, Take;
    Overwritten(slots, out, Slot(c, Sealed), DoneSlot(c));
    WatchTwo(Running(slots), ArgsDone(out, c.name, Take(c.args)), ItemDone(out, Final(c)));
  }

  /** A done sequence with another name or other arguments is refused. */
  lemma CallRefused(slots: seq<Slot>, out: nat, name: string, args: string, item: Option<OutItem>)
    requires out < |slots| && slots[out].item.FunctionCall?
    requires name != slots[out].item.name || args != Take(slots[out].item.args)
    ensures WatchAll(Running(slots), CallDone(out, name, args, item)) == Bad
  {
    hide Take;
    WatchTwo(Running(slots), ArgsDone(out, name, args), ItemDone(out, item));
    hide WatchAll;
  }

  lemma ReasoningCloses(slots: seq<Slot>, out: nat, item: Option<OutItem>)
    requires out < |slots| && slots[out] == OpenSlot(slots[out].item) && slots[out].item.Reasoning?
    requires DoneFits(item, slots[out].item)
    ensures var r := slots[out].item;
            WatchAll(Running(slots), ReasoningDoneAll(out, Take(r.text), item)) == Running(slots[out := DoneSlot(r)])
  {
    var t, last := Take(slots[out].item.text), ItemDone(out, item);
    NothingTaken(slots[out].item.text);
    hide WatchAll, WatchRunning, Take, DoneFits;
    if t == "" {
      assert ReasoningDoneAll(out, t, item) == [last];
      EmptyCloses(slots, out, item);
    } else {
      assert ReasoningDoneAll(out, t, item) == [ReasoningDone(out, t), PartDone(out, t), last];
      PartCloses(slots, out, ReasoningDone(out, t), item);
    }
  }

  lemma NothingTaken(t: string)
    ensures Take(t) == "" <==> t == ""
  {
  }

  /** A refused stream stays refused. */
  lemma {:induction false} BadStays(es: seq<Event>)
    ensures WatchAll(Bad, es) == Bad
  {
    if es != [] { BadStays(es[..|es| - 1]); }
  }

  /** A done sequence with another text is refused. */
  lemma ReasoningRefused(slots: seq<Slot>, out: nat, text: string, item: Option<OutItem>)
    requires out < |slots| && slots[out].item.Reasoning? && text != "" && text != Take(slots[out].item.text)
    ensures WatchAll(Running(slots), ReasoningDoneAll(out, text, item)) == Bad
  {
    hide Take;
    var done, rest := ReasoningDone(out, text), [PartDone(out, text), ItemDone(out, item)];
    WatchOne(Running(slots), done);
    hide WatchAll;
    WatchConcat(Running(slots), [done], rest);
    assert ReasoningDoneAll(out, text, item) == [done] + rest;
    BadStays(rest);
  }

  // ----- calls that share an id -----

  /** The items of a response that is over. */
  function Closed(items: seq<OutItem>): (r: seq<Slot>)
    ensures |r| == |items| && forall j | 0 <= j < |r| :: r[j] == DoneSlot(items[j])
  {
    seq(|items|, i requires 0 <= i < |items| => DoneSlot(items[i]))
  }

  /** Calls of one id have one name and the same arguments, up to the truncation bound. */
  ghost predicate CallsAgree(items: seq<OutItem>) {
    forall j, k | 0 <= j < |items| && 0 <= k < |items| && items[j].FunctionCall? && items[k].FunctionCall?
                  && items[j].callId == items[k].callId ::
      items[j].name == items[k].name && Take(items[j].args) == Take(items[k].args)
  }

  /** The latest call with this id, or -1. */
  function LastCall(items: seq<OutItem>, id: string): (p: int)
    ensures -1 <= p < |items|
    ensures p != -1 ==> items[p].FunctionCall? && items[p].callId == id
  {
    if items == [] then -1
    else
      var last := items[|items| - 1];
      if last.FunctionCall? && last.callId == id then |items| - 1 else LastCall(items[..|items| - 1], id)
  }

  lemma {:induction false} LastCallIs(items: seq<OutItem>, j: nat)
    requires j < |items| && items[j].FunctionCall?
    ensures LastCall(items, items[j].callId) >= j
  {
    if j < |items| - 1 { LastCallIs(items[..|items| - 1], j); }
  }

  lemma LastCallPush(items: seq<OutItem>, x: OutItem, id: string)
    ensures LastCall(items + [x], id) ==
            if x.FunctionCall? && x.callId == id then |items| else LastCall(items, id)
  {
    assert (items + [x])[..|items|] == items;
  }

  // ----- content parts -----

  /** How often the part of an item was added, and how often closed. */
  function Parts(es: seq<Event>, out: int): (nat, nat) {
    if es == [] then (0, 0)
    else
      var (added, closed) := Parts(es[..|es| - 1], out);
      match es[|es| - 1]
      case PartAdded(o) => (if o == out then added + 1 else added, closed)
      case PartDone(o, _) => (added, if o == out then closed + 1 else closed)
      case _ => (added, closed)
  }

  /** What the stage of an item says about its part. */
  function PartsAt(slot: Slot): (nat, nat) {
    if slot.item.FunctionCall? || slot.stage == Bare then (0, 0)
    else if slot.stage == Sealed || (slot.stage == Gone && slot.item.text != "") then (1, 1)
    else (1, 0)
  }

  ghost predicate PartsFit(slots: seq<Slot>, es: seq<Event>) {
    && (forall j | 0 <= j < |slots| :: Parts(es, j) == PartsAt(slots[j]))
    && (forall j | j >= |slots| :: Parts(es, j) == (0, 0))
  }

  lemma StepParts(slots: seq<Slot>, es: seq<Event>, e: Event)
    requires PartsFit(slots, es) && WatchRunning(slots, e).Running?
    ensures PartsFit(WatchRunning(slots, e).slots, es + [e])
  {
    hide Take, OutputOf;
    var slots' := WatchRunning(slots, e).slots;
    assert (es + [e])[..|es|] == es;
    forall j | 0 <= j ensures Parts(es + [e], j) == if j < |slots'| then PartsAt(slots'[j]) else (0, 0) {
      assert Parts(es, j) == if j < |slots| then PartsAt(slots[j]) else (0, 0);
    }
  }

  /** In every stream a strict client takes, the part of a message or of reasoning is added once, and once the item
      is done it was closed once if there is any text, and never if there is none. */
  lemma {:induction false} PartsCounted(es: seq<Event>)
    requires WatchAll(Fresh, es).Running?
    ensures PartsFit(WatchAll(Fresh, es).slots, es)
  {
    hide WatchRunning, PartsFit;
    var init, e := es[..|es| - 1], es[|es| - 1];
    assert init + [e] == es;
    if WatchAll(Fresh, init).Running? {
      PartsCounted(init);
      StepParts(WatchAll(Fresh, init).slots, init, e);
    } else {
      TwoEvents(es);
    }
  }

  /** The items of a stream that was taken to its end: all done, and those that the final object lists. */
  ghost predicate DoneWith(slots: seq<Slot>, es: seq<Event>, response: Response) {
    && es != [] && es[|es| - 1] == Completed(response) && WatchAll(Fresh, es[..|es| - 1]) == Running(slots)
    && response.output == OutputOf(slots) && forall j | 0 <= j < |slots| :: slots[j].stage == Gone
  }

  /** In a stream that is taken to its end each message and each reasoning item had its part added once, and closed
      once exactly if it has any text; nothing else had one. */
  lemma PartsCountedAtEnd(es: seq<Event>) returns (slots: seq<Slot>)
    requires WatchAll(Fresh, es).Ended?
    ensures DoneWith(slots, es, WatchAll(Fresh, es).response)
    ensures forall j: int ::
              Parts(es, j) ==
              if 0 <= j < |slots| && !slots[j].item.FunctionCall? then (1, if slots[j].item.text != "" then 1 else 0)
              else (0, 0)
  {
    var init, e := es[..|es| - 1], es[|es| - 1];
    EndsRunning(WatchAll(Fresh, init), e);
    slots := WatchAll(Fresh, init).slots;
    hide OutputOf, Watch;
    PartsCounted(init);
    forall j: int
      ensures Parts(es, j) ==
              if 0 <= j < |slots| && !slots[j].item.FunctionCall? then (1, if slots[j].item.text != "" then 1 else 0)
              else (0, 0)
    {
      assert Parts(es, j) == Parts(init, j);
      if 0 <= j < |slots| {
        assert Parts(init, j) == PartsAt(slots[j]);
      } else if j < 0 {
        NoneBelow(init, j);
      }
    }
  }

  lemma EndsRunning(p: Phase, e: Event)
    requires Watch(p, e).Ended?
    ensures p.Running? && e == Completed(Watch(p, e).response) && e.response.output == OutputOf(p.slots)
    ensures forall j | 0 <= j < |p.slots| :: p.slots[j].stage == Gone
  {
    hide OutputOf, Take;
  }

  /** No part is added below zero. */
  lemma {:induction false} NoneBelow(es: seq<Event>, j: int)
    requires WatchAll(Fresh, es) != Bad && j < 0
    ensures Parts(es, j) == (0, 0)
  {
    hide OutputOf, FinalText, DoneFits, LastStage;
    if es != [] {
      var init, e := es[..|es| - 1], es[|es| - 1];
      NoneBelow(init, j);
      NotBelow(WatchAll(Fresh, init), e);
    }
  }

  lemma NotBelow(p: Phase, e: Event)
    requires Watch(p, e) != Bad
    ensures e.PartAdded? || e.PartDone? ==> e.out >= 0
  {
    hide OutputOf, FinalText, DoneFits, LastStage;
  }

  lemma GoesOn(slots: seq<Slot>, e: Event)
    ensures !WatchRunning(slots, e).Fresh? && !WatchRunning(slots, e).Begun?
  {
    hide OutputOf, Take;
  }

  lemma {:induction false} OnlyFresh(es: seq<Event>)
    requires WatchAll(Fresh, es) == Fresh
    ensures es == []
  {
    if es != [] {
      var p, e := WatchAll(Fresh, es[..|es| - 1]), es[|es| - 1];
      if p.Running? { GoesOn(p.slots, e); }
      hide WatchRunning;
    }
  }

  lemma OneEvent(es: seq<Event>)
    requires WatchAll(Fresh, es) == Begun
    ensures es == [Created]
  {
    var init, e := es[..|es| - 1], es[|es| - 1];
    if WatchAll(Fresh, init).Running? { GoesOn(WatchAll(Fresh, init).slots, e); }
    hide WatchRunning;
    OnlyFresh(init);
    assert es == init + [e];
  }

  lemma TwoEvents(es: seq<Event>)
    requires es != [] && WatchAll(Fresh, es).Running? && !WatchAll(Fresh, es[..|es| - 1]).Running?
    ensures WatchAll(Fresh, es).slots == [] && PartsFit([], es)
  {
    var init := es[..|es| - 1];
    assert WatchAll(Fresh, init) == Begun;
    OneEvent(init);
    assert init[..0] == [] && Parts([], 0) == (0, 0);
    forall j ensures Parts(es, j) == (0, 0) {
      assert Parts(init, j) == (0, 0);
    }
    hide WatchRunning;
  }

  // ----- counting the terminal event -----

  function CompletedCount(es: seq<Event>): nat {
    if es == [] then 0 else CompletedCount(es[..|es| - 1]) + if es[|es| - 1].Completed? then 1 else 0
  }

  lemma {:induction false} CompletedCountConcat(a: seq<Event>, b: seq<Event>)
    ensures CompletedCount(a + b) == CompletedCount(a) + CompletedCount(b)
  {
    if b == [] {
      assert a + b == a;
    } else {
      assert (a + b)[..|a + b| - 1] == a + b[..|b| - 1];
      CompletedCountConcat(a, b[..|b| - 1]);
    }
  }

  lemma {:induction false} NotCompleted(es: seq<Event>)
    requires forall i | 0 <= i < |es| :: !es[i].Completed?
    ensures CompletedCount(es) == 0
  {
    if es != [] { NotCompleted(es[..|es| - 1]); }
  }

  // ----- sequence numbers -----

  /** An event with the `sequence_number` it is sent with. */
  datatype Numbered = Numbered(sequenceNumber: nat, event: Event)

  /** The events in order, numbered from `sent + 1`. */
  function Number(es: seq<Event>, sent: nat): (r: seq<Numbered>)
    ensures |r| == |es|
    ensures forall i | 0 <= i < |es| :: r[i] == Numbered(sent + i + 1, es[i])
  {
    seq(|es|, i requires 0 <= i < |es| => Numbered(sent + i + 1, es[i]))
  }

  lemma NumberConcat(a: seq<Event>, b: seq<Event>, sent: nat)
    ensures Number(a + b, sent) == Number(a, sent) + Number(b, sent + |a|)
  {
  }

  /** `_assign_sequence_numbers`, with the number of events already sent before and after. */
  method AssignSequenceNumbers(events: seq<Event>, sent: nat) returns (numbered: seq<Numbered>, total: nat)
    ensures numbered == Number(events, sent) && total == sent + |events|
  {
    numbered, total := [], sent;
    for i := 0 to |events|
      invariant total == sent + i && numbered == Number(events[..i], sent)
    {
      total := total + 1;
      numbered := numbered + [Numbered(total, events[i])];
    }
    assert events[..|events|] == events;
  }
}
