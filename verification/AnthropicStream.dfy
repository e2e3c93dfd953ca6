/**
 The Anthropic Messages stream: its events, what they mean, and the two monitors that say which
 event sequences are well formed.
 */
module AnthropicStream {
  import opened Wrappers
  import opened ChatStream

  datatype StopReason = EndTurn | MaxTokens | StopSequence | ToolUseStop | PauseTurn | Refusal | UnknownStop

  /** `_STOP_REASONS_BY_FINISH` with its default. */
  function RenderFinish(f: Finish): StopReason {
    match f
    case Stop => EndTurn
    case Length => MaxTokens
    case ToolCalls => ToolUseStop
    case ContentFilter => Refusal
    case _ => EndTurn
  }

  /** `ANTHROPIC_STOP_REASONS_TO_FINISH` with its default. */
  function ParseStop(r: StopReason): Finish {
    match r
    case MaxTokens => Length
    case ToolUseStop => ToolCalls
    case Refusal => ContentFilter
    case _ => Stop
  }

  datatype Kind = Thinking | Text | ToolUse

  datatype Block = ThinkingBlock | TextBlock | ToolBlock(id: string, name: string)

  datatype BlockDelta = ThinkingDelta(text: string) | TextDelta(text: string) | JsonDelta(text: string) | SignatureDelta

  datatype Event =
    | MessageStart(id: string, model: string, inputTokens: int)
    | BlockStart(index: int, block: Block)
    | DeltaEvent(index: int, delta: BlockDelta)
    | BlockStop(index: int)
    | MessageDelta(stop: Option<StopReason>, outputTokens: int)
    | MessageStop

  function KindOf(b: Block): Kind {
    match b
    case ThinkingBlock => Thinking
    case TextBlock => Text
    case ToolBlock(_, _) => ToolUse
  }

  function DeltaKind(d: BlockDelta): Kind {
    match d
    case ThinkingDelta(_) => Thinking
    case SignatureDelta => Thinking
    case TextDelta(_) => Text
    case JsonDelta(_) => ToolUse
  }

  // ----- meaning -----

  /** A tool block is a call numbered by its block; a json delta extends the latest block of that number. */
  function MeanEvent(m: Meaning, e: Event): Meaning {
    match e
    case BlockStart(i, ToolBlock(id, name)) => m.(entries := m.entries + [Entry(i, ToolCall(id, name, ""))])
    case DeltaEvent(_, ThinkingDelta(t)) => m.(reasoning := m.reasoning + t)
    case DeltaEvent(_, TextDelta(t)) => m.(text := m.text + t)
    case DeltaEvent(i, JsonDelta(t)) =>
      if IndexOf(m.entries, i) == -1 then m else m.(entries := AddArgs(m.entries, IndexOf(m.entries, i), t))
    case MessageDelta(r, _) => if m.finish.Some? || r.None? then m else m.(finish := Some(ParseStop(r.value)))
    case _ => m
  }

  function MeanEvents(m: Meaning, es: seq<Event>): Meaning {
    if es == [] then m else MeanEvent(MeanEvents(m, es[..|es| - 1]), es[|es| - 1])
  }

  lemma {:induction false} MeanEventsConcat(m: Meaning, a: seq<Event>, b: seq<Event>)
    ensures MeanEvents(m, a + b) == MeanEvents(MeanEvents(m, a), b)
  {
    if b == [] {
      assert a + b == a;
    } else {
      assert (a + b)[..|a + b| - 1] == a + b[..|b| - 1];
      MeanEventsConcat(m, a, b[..|b| - 1]);
    }
  }

  // ----- the strict monitor: one message, blocks 0, 1, 2, ... -----

  datatype Phase = Fresh | Between(next: int) | InBlock(index: int, kind: Kind) | Closing | Done | Bad

  function Watch(p: Phase, e: Event): Phase {
    match (p, e)
    case (Fresh, MessageStart(_, _, _)) => Between(0)
    case (Between(n), BlockStart(i, b)) => if i == n then InBlock(n, KindOf(b)) else Bad
    case (InBlock(n, k), DeltaEvent(i, d)) => if i == n && DeltaKind(d) == k then p else Bad
    case (InBlock(n, _), BlockStop(i)) => if i == n then Between(n + 1) else Bad
    case (Between(_), MessageDelta(_, _)) => Closing
    case (Closing, MessageStop) => Done
    case _ => Bad
  }

  function WatchAll(p: Phase, es: seq<Event>): Phase {
    if es == [] then p else Watch(WatchAll(p, es[..|es| - 1]), es[|es| - 1])
  }

  lemma {:induction false} WatchConcat(p: Phase, a: seq<Event>, b: seq<Event>)
    ensures WatchAll(p, a + b) == WatchAll(WatchAll(p, a), b)
  {
    if b == [] {
      assert a + b == a;
    } else {
      assert (a + b)[..|a + b| - 1] == a + b[..|b| - 1];
      WatchConcat(p, a, b[..|b| - 1]);
    }
  }

  lemma {:induction false} BadStays(es: seq<Event>)
    ensures WatchAll(Bad, es) == Bad
  {
    if es != [] {
      BadStays(es[..|es| - 1]);
    }
  }

  // ----- the lax monitor: what holds of every stream whatsoever -----

  datatype Tally = Tally(started: bool, open: Option<int>, stops: nat, ok: bool)

  const NO_EVENTS: Tally := Tally(false, None, 0, true)

  /** `ok` stays true while message_start comes first and once, and block starts and stops alternate
      with matching indices; `stops` counts message_stop. */
  function Count(t: Tally, e: Event): Tally {
    match e
    case MessageStart(_, _, _) => t.(started := true, ok := t.ok && !t.started)
    case BlockStart(i, _) => t.(open := Some(i), ok := t.ok && t.started && t.open == None)
    case BlockStop(i) => t.(open := None, ok := t.ok && t.started && t.open == Some(i))
    case MessageStop => t.(stops := t.stops + 1, ok := t.ok && t.started)
    case _ => t.(ok := t.ok && t.started)
  }

  function CountAll(t: Tally, es: seq<Event>): Tally {
    if es == [] then t else Count(CountAll(t, es[..|es| - 1]), es[|es| - 1])
  }

  lemma {:induction false} CountConcat(t: Tally, a: seq<Event>, b: seq<Event>)
    ensures CountAll(t, a + b) == CountAll(CountAll(t, a), b)
  {
    if b == [] {
      assert a + b == a;
    } else {
      assert (a + b)[..|a + b| - 1] == a + b[..|b| - 1];
      CountConcat(t, a, b[..|b| - 1]);
    }
  }
}
