/**
 The Chat Completions stream: its chunks, the order in which a converter reads one chunk, and what
 a stream means to a client that assembles it.
 */
module ChatStream {
  import opened Wrappers

  /** `Function` is the deprecated alias `function_call`. */
  datatype Finish = Stop | Length | ToolCalls | ContentFilter | Function | Other(reason: string)

  /** `parse_chat_finish_reason` (converters/parsing_chat.py) */
  function ParseFinish(f: Finish): Finish {
    if f == Function then ToolCalls else f
  }

  /** The keys of a usage object that the stream converters read; an object with none of them is empty. */
  datatype Usage = Usage(
    prompt: Option<int>, completion: Option<int>, total: Option<int>, cached: Option<int>, reasoned: Option<int>)

  const NO_USAGE: Usage := Usage(None, None, None, None, None)

  /** `index`, `id`, `name` and `args` of one element of `delta.tool_calls`; "" stands for a missing id or name. */
  datatype Fragment = Fragment(index: Option<int>, id: string, name: string, args: Option<string>)

  datatype Delta = Delta(assistant: bool, content: Option<string>, reasoning: Option<string>, calls: seq<Fragment>)

  const EMPTY_DELTA: Delta := Delta(false, None, None, [])

  datatype Choice = Choice(delta: Delta, finish: Option<Finish>)

  /** `choices[i]` is None where the wire has a null. */
  datatype Chunk = Chunk(id: string, model: string, usage: Option<Usage>, choices: seq<Option<Choice>>)

  /** Whether the chunk carries a choice; if not, only its usage is looked at. */
  predicate HasChoice(chunk: Chunk) {
    chunk.choices != [] && chunk.choices[0].Some?
  }

  // ----- one chunk as a sequence of steps -----

  datatype Step =
    | Begin
    | Reason(text: string)
    | Say(text: string)
    | Call(key: int, id: string, name: string, args: string)
    | End(finish: Finish)
    | UsageOnly

  /** A step and the chunk it is part of. */
  datatype Item = Item(chunk: Chunk, step: Step)

  function CallStep(f: Fragment): Step {
    Call(Or(f.index, 0), f.id, f.name, Or(f.args, ""))
  }

  function CallItems(chunk: Chunk, fs: seq<Fragment>): (r: seq<Item>)
    ensures |r| == |fs|
  {
    seq(|fs|, i requires 0 <= i < |fs| => Item(chunk, CallStep(fs[i])))
  }

  /** The order in which a chunk is read: role, reasoning, content, tool calls, finish. Empty text says nothing. */
  function Items(chunk: Chunk): seq<Item> {
    if !HasChoice(chunk) then [Item(chunk, UsageOnly)]
    else
      var choice := chunk.choices[0].value;
      var d := choice.delta;
      (if d.assistant then [Item(chunk, Begin)] else [])
      + (if Or(d.reasoning, "") != "" then [Item(chunk, Reason(d.reasoning.value))] else [])
      + (if Or(d.content, "") != "" then [Item(chunk, Say(d.content.value))] else [])
      + CallItems(chunk, d.calls)
      + (if choice.finish.Some? then [Item(chunk, End(choice.finish.value))] else [])
  }

  /** Of a chunk that has everything the role comes first, then the reasoning, the content, the calls in their order,
      and the finish. */
  lemma FullChunkInOrder(chunk: Chunk, reasoning: string, content: string, calls: seq<Fragment>, finish: Finish)
    requires reasoning != "" && content != ""
    requires chunk.choices == [Some(Choice(Delta(true, Some(content), Some(reasoning), calls), Some(finish)))]
    ensures Items(chunk) ==
            [Item(chunk, Begin), Item(chunk, Reason(reasoning)), Item(chunk, Say(content))]
            + CallItems(chunk, calls) + [Item(chunk, End(finish))]
  {
    var role, thought := Item(chunk, Begin), Item(chunk, Reason(reasoning));
    assert [role] + [thought] + [Item(chunk, Say(content))] == [role, thought, Item(chunk, Say(content))];
  }

  /** A whole stream, step by step. */
  function AllItems(chunks: seq<Chunk>): seq<Item> {
    if chunks == [] then [] else AllItems(chunks[..|chunks| - 1]) + Items(chunks[|chunks| - 1])
  }

  /** A stream in three parts: steps before the finish, at most one finish, and chunks without a choice. */
  datatype Stream = Stream(live: seq<Item>, end: Option<Item>, tail: seq<Item>)

  ghost predicate InParts(st: Stream) {
    && (st.end.Some? ==> st.end.value.step.End?) && (st.end.None? ==> st.tail == [])
    && (forall i | 0 <= i < |st.tail| :: st.tail[i].step.UsageOnly?)
  }

  function Flat(st: Stream): seq<Item> {
    if st.end.Some? then st.live + [st.end.value] + st.tail else st.live
  }

  // ----- what a stream means -----

  datatype ToolCall = ToolCall(id: string, name: string, args: string)

  /** A tool call and the number its fragments carry on the wire. */
  datatype Entry = Entry(key: int, call: ToolCall)

  datatype Meaning = Meaning(text: string, reasoning: string, entries: seq<Entry>, finish: Option<Finish>)

  const NOTHING: Meaning := Meaning("", "", [], None)

  /** The latest entry with this key, or -1. */
  function IndexOf(entries: seq<Entry>, key: int): (p: int)
    ensures -1 <= p < |entries|
    ensures p != -1 ==> entries[p].key == key
  {
    if entries == [] then -1
    else if entries[|entries| - 1].key == key then |entries| - 1
    else IndexOf(entries[..|entries| - 1], key)
  }

  function AddArgs(entries: seq<Entry>, p: nat, args: string): seq<Entry>
    requires p < |entries|
  {
    var e := entries[p];
    entries[p := Entry(e.key, ToolCall(e.call.id, e.call.name, e.call.args + args))]
  }

  /** A fragment with a new number opens a call; a later one extends its arguments. */
  function MeanCall(entries: seq<Entry>, key: int, id: string, name: string, args: string): seq<Entry> {
    var p := IndexOf(entries, key);
    if p == -1 then entries + [Entry(key, ToolCall(id, name, args))] else AddArgs(entries, p, args)
  }

  function Mean(m: Meaning, step: Step): Meaning {
    match step
    case Reason(t) => m.(reasoning := m.reasoning + t)
    case Say(t) => m.(text := m.text + t)
    case Call(key, id, name, args) => m.(entries := MeanCall(m.entries, key, id, name, args))
    case End(f) => if m.finish.Some? then m else m.(finish := Some(f))
    case _ => m
  }

  function MeanAll(m: Meaning, items: seq<Item>): Meaning {
    if items == [] then m else Mean(MeanAll(m, items[..|items| - 1]), items[|items| - 1].step)
  }

  /** Same text, same reasoning, same tool calls in the same order; the wire numbers may differ. */
  predicate SameContent(a: Meaning, b: Meaning) {
    && a.text == b.text && a.reasoning == b.reasoning && |a.entries| == |b.entries|
    && forall i | 0 <= i < |a.entries| :: a.entries[i].call == b.entries[i].call
  }

  lemma {:induction false} MeanAllConcat(m: Meaning, a: seq<Item>, b: seq<Item>)
    ensures MeanAll(m, a + b) == MeanAll(MeanAll(m, a), b)
  {
    if b == [] {
      assert a + b == a;
    } else {
      assert (a + b)[..|a + b| - 1] == a + b[..|b| - 1];
      MeanAllConcat(m, a, b[..|b| - 1]);
    }
  }

  lemma {:induction false} AllItemsConcat(a: seq<Chunk>, b: seq<Chunk>)
    ensures AllItems(a + b) == AllItems(a) + AllItems(b)
  {
    hide Items;
    if b == [] {
      assert a + b == a;
    } else {
      assert (a + b)[..|a + b| - 1] == a + b[..|b| - 1];
      AllItemsConcat(a, b[..|b| - 1]);
    }
  }

  function MeanChunks(m: Meaning, chunks: seq<Chunk>): Meaning {
    MeanAll(m, AllItems(chunks))
  }

  lemma MeanChunksConcat(m: Meaning, a: seq<Chunk>, b: seq<Chunk>)
    ensures MeanChunks(m, a + b) == MeanChunks(MeanChunks(m, a), b)
  {
    AllItemsConcat(a, b);
    MeanAllConcat(m, AllItems(a), AllItems(b));
  }

  lemma MeanSnoc(m: Meaning, before: seq<Item>, item: Item)
    ensures MeanAll(m, before + [item]) == Mean(MeanAll(m, before), item.step)
  {
    assert (before + [item])[..|before|] == before;
  }

  lemma {:induction false} MeanTail(m: Meaning, items: seq<Item>)
    requires forall i | 0 <= i < |items| :: items[i].step.UsageOnly?
    ensures MeanAll(m, items) == m
  {
    if items != [] {
      MeanTail(m, items[..|items| - 1]);
    }
  }

  /** The finish adds the finish, the chunks after it nothing. */
  lemma MeanFlat(st: Stream)
    requires InParts(st) && MeanAll(NOTHING, st.live).finish == None
    ensures MeanAll(NOTHING, Flat(st)) ==
            MeanAll(NOTHING, st.live).(finish := if st.end.Some? then Some(st.end.value.step.finish) else None)
  {
    hide MeanAll;
    if st.end.Some? {
      MeanSnoc(NOTHING, st.live, st.end.value);
      MeanAllConcat(NOTHING, st.live + [st.end.value], st.tail);
      MeanTail(MeanAll(NOTHING, st.live + [st.end.value]), st.tail);
    }
  }

  lemma {:induction false} IndexOfIsLast(entries: seq<Entry>, key: int, j: nat)
    requires j < |entries| && IndexOf(entries, key) < j
    ensures entries[j].key != key
  {
    if j < |entries| - 1 {
      IndexOfIsLast(entries[..|entries| - 1], key, j);
    }
  }

  /** The only entry with its key is the one found. */
  lemma IndexOfUnique(entries: seq<Entry>, p: nat)
    requires p < |entries|
    requires forall j | p < j < |entries| :: entries[j].key != entries[p].key
    ensures IndexOf(entries, entries[p].key) == p
  {
    if IndexOf(entries, entries[p].key) < p {
      IndexOfIsLast(entries, entries[p].key, p);
    }
  }

  // ----- chunks as the converters write them -----

  /** `build_chat_completion_chunk` with one choice */
  function WrittenChunk(id: string, model: string, delta: Delta, finish: Option<Finish>): Chunk {
    Chunk(id, model, None, [Some(Choice(delta, finish))])
  }

  lemma MeanItem(m: Meaning, item: Item)
    ensures MeanAll(m, [item]) == Mean(m, item.step)
  {
    assert MeanAll(m, [item][..0]) == m;
  }

  lemma MeanChunk(m: Meaning, chunk: Chunk)
    ensures MeanChunks(m, [chunk]) == MeanAll(m, Items(chunk))
  {
    assert AllItems([chunk][..0]) == [];
    assert AllItems([chunk]) == Items(chunk);
  }

  /** What the chunks this converter writes mean. */
  lemma MeanWritten(m: Meaning, id: string, model: string, delta: Delta, finish: Option<Finish>)
    requires |delta.calls| <= 1
    requires delta == EMPTY_DELTA || (finish == None &&
               (delta == EMPTY_DELTA.(assistant := true, content := Some(""))
                || delta == EMPTY_DELTA.(content := delta.content)
                || delta == EMPTY_DELTA.(reasoning := delta.reasoning)
                || delta == EMPTY_DELTA.(calls := delta.calls)))
    ensures MeanChunks(m, [WrittenChunk(id, model, delta, finish)]) ==
            if finish.Some? then Mean(m, End(finish.value))
            else if delta.calls != [] then Mean(m, CallStep(delta.calls[0]))
            else m.(text := m.text + Or(delta.content, ""), reasoning := m.reasoning + Or(delta.reasoning, ""))
  {
    hide MeanChunks, MeanAll;
    var chunk := WrittenChunk(id, model, delta, finish);
    MeanChunk(m, chunk);
    assert m.text + "" == m.text && m.reasoning + "" == m.reasoning;
    var items := Items(chunk);
    if items == [] {
      MeanNoItems(m);
    } else {
      assert items == [items[0]];
      MeanItem(m, items[0]);
    }
  }

  lemma MeanNoItems(m: Meaning)
    ensures MeanAll(m, []) == m
  {
  }

  lemma {:induction false} IndexOfKeys(entries: seq<Entry>, key: int)
    requires forall p | 0 <= p < |entries| :: entries[p].key == p
    ensures IndexOf(entries, key) == if 0 <= key < |entries| then key else -1
  {
    if entries != [] {
      IndexOfKeys(entries[..|entries| - 1], key);
    }
  }

  lemma IndexOfPush(entries: seq<Entry>, e: Entry, key: int)
    ensures IndexOf(entries + [e], key) == if e.key == key then |entries| else IndexOf(entries, key)
  {
    assert (entries + [e])[..|entries|] == entries;
  }

  lemma {:induction false} IndexOfExtend(entries: seq<Entry>, p: nat, args: string, key: int)
    requires p < |entries|
    ensures IndexOf(AddArgs(entries, p, args), key) == IndexOf(entries, key)
  {
    var n := |entries| - 1;
    if p == n {
      assert AddArgs(entries, p, args)[..n] == entries[..n];
    } else {
      assert AddArgs(entries, p, args)[..n] == AddArgs(entries[..n], p, args);
      IndexOfExtend(entries[..n], p, args, key);
    }
  }

  lemma MeanNothing(m: Meaning)
    ensures MeanChunks(m, []) == m && m.text + "" == m.text && m.reasoning + "" == m.reasoning
  {
  }
}
