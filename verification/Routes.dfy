/**
 Two ways from an Anthropic stream to a Chat client: directly (converters/to_chat.py), or through the
 Responses protocol (converters/stream_anthropic_to_response.py, then converters/to_chat.py).
 */
module Routes {
  import opened Wrappers
  import opened ChatStream
  import A = AnthropicStream
  import Direct = AnthropicToChat
  import First = AnthropicToResponses
  import Second = ResponsesToChat
  import R = ChatToResponses
  import RS = ResponsesStream

  function Directly(es: seq<A.Event>, includeUsage: bool): seq<Chunk> {
    Direct.RenderAll(Direct.INIT, es, includeUsage).1
  }

  function ThroughResponses(es: seq<A.Event>, env: Second.Envelope, includeUsage: bool): seq<Chunk> {
    Second.RenderAll(Second.INIT, First.Converted(es), env, includeUsage).1
  }

  // ----- the events in between are addressed -----

  /** Every argument delta names a block the stream opened as a call. */
  lemma StepAddressed(s: First.State, items: seq<RS.OutItem>, p: A.Phase, e: A.Event, m: Meaning)
    requires First.Holds(s, items) && First.PhaseFits(s, p) && A.Watch(p, e) != A.Bad && !e.MessageDelta?
    requires Direct.Addressed(m, e)
    ensures Second.AllAddressed(m, First.React(s, e).events)
  {
    var r := First.React(s, e);
    First.Indices(s, items, if e.DeltaEvent? then e.index else 0);
    hide First.Holds, First.Find, First.Put, RS.Grow, R.AppendItemText, IndexOf, First.BlockDone, RS.MeanEvents;
    if e.DeltaEvent? && e.delta.JsonDelta? {
      Second.AddressedOne(m, RS.ArgsDelta(Some(e.index), e.delta.text));
    } else {
      if e.BlockStop? { CloseIsPlain(s, e.index); }
      Second.PlainAddressed(m, r.events);
    }
  }

  lemma CloseIsPlain(s: First.State, index: int)
    ensures Second.Plain(First.CloseBlock(s, index).events)
  {
    hide First.Find, R.ItemText;
  }

  lemma {:induction false} OpenIsPlain(s: First.State, blocks: seq<First.BlockData>)
    ensures Second.Plain(First.OpenDone(s, blocks))
  {
    if blocks != [] {
      var n := |blocks| - 1;
      OpenIsPlain(s, blocks[..n]);
      DoneIsPlain(s, blocks[n]);
      hide First.BlockDone;
    }
  }

  lemma DoneIsPlain(s: First.State, b: First.BlockData)
    ensures Second.Plain(First.BlockDone(s, b))
  {
    hide R.ItemText;
  }

  lemma Unsnoc(es: seq<A.Event>)
    requires es != [] && Direct.AllAddressed(NOTHING, es)
    ensures Direct.AllAddressed(NOTHING, es[..|es| - 1])
    ensures Direct.Addressed(A.MeanEvents(NOTHING, es[..|es| - 1]), es[|es| - 1])
  {
    hide Direct.Addressed, A.MeanEvents;
  }

  lemma FirstAddressed(es: seq<A.Event>)
    requires |es| == 1 && First.Inside(A.WatchAll(A.Fresh, es))
    ensures Second.AllAddressed(NOTHING, First.ReactAll(First.INIT, es).events)
  {
    First.ReactLast(es);
    assert First.ReactAll(First.INIT, es[..0]) == First.Reaction(First.INIT, []);
    assert A.WatchAll(A.Fresh, es[..0]) == A.Fresh;
    assert First.ReactAll(First.INIT, es).events == [RS.Created] + [RS.InProgress];
    Second.AddressedOne(NOTHING, RS.Created);
    R.MeanOne(NOTHING, RS.Created);
    Second.AddressedOne(NOTHING, RS.InProgress);
    Second.AddressedConcat(NOTHING, [RS.Created], [RS.InProgress]);
  }

  lemma {:induction false} LiveAddressed(es: seq<A.Event>)
    requires es != [] && First.Inside(A.WatchAll(A.Fresh, es)) && Direct.AllAddressed(NOTHING, es)
    ensures Second.AllAddressed(NOTHING, First.ReactAll(First.INIT, es).events)
  {
    hide *;
    if |es| == 1 {
      FirstAddressed(es);
    } else {
      var init, e := es[..|es| - 1], es[|es| - 1];
      First.InsideBefore(es);
      Unsnoc(es);
      LiveAddressed(init);
      First.LiveTracks(init);
      var r, items, p, m := First.ReactAll(First.INIT, init), First.GatherAll(init), A.WatchAll(A.Fresh, init),
                            A.MeanEvents(NOTHING, init);
      First.TracksHolds(r, items, p, m);
      StepAddressed(r.state, items, p, e, m);
      Second.AddressedConcat(NOTHING, r.events, First.React(r.state, e).events);
      First.ReactLast(es);
      ThenEvents(r, e);
    }
  }

  lemma ThenEvents(r: First.Reaction, e: A.Event)
    ensures First.Then(r, e).events == r.events + First.React(r.state, e).events
  {
    hide First.React;
  }

  lemma {:induction false} AddressedBefore(es: seq<A.Event>, n: nat)
    requires n <= |es| && Direct.AllAddressed(NOTHING, es)
    ensures Direct.AllAddressed(NOTHING, es[..n])
  {
    hide Direct.Addressed, A.MeanEvents;
    if n == |es| {
      assert es[..n] == es;
    } else {
      assert es[..|es| - 1][..n] == es[..n];
      AddressedBefore(es[..|es| - 1], n);
    }
  }

  /** Every argument delta of the Responses stream in between names an item that was added as a call. */
  lemma ConvertedAddressed(es: seq<A.Event>)
    requires es != [] && A.WatchAll(A.Fresh, es) != A.Bad
    ensures Second.AllAddressed(NOTHING, First.Converted(es))
  {
    hide *;
    var live := First.ConvertedShape(es);
    First.ShapedLive(es, live);
    Direct.WellFormedPlaced(es);
    AddressedBefore(es, |live|);
    assert live == es[..|live|];
    LiveAddressed(live);
    var r := First.ReactAll(First.INIT, live);
    var done, last := First.OpenDone(r.state, r.state.blocks), [RS.Completed(First.Sent(es))];
    OpenIsPlain(r.state, r.state.blocks);
    Second.PlainAddressed(RS.MeanEvents(NOTHING, r.events), done);
    Second.AddressedConcat(NOTHING, r.events, done);
    EndIsPlain(First.Sent(es));
    Second.PlainAddressed(RS.MeanEvents(NOTHING, r.events + done), last);
    Second.AddressedConcat(NOTHING, r.events + done, last);
  }

  lemma EndIsPlain(r: RS.Response)
    ensures Second.Plain([RS.Completed(r)])
  {
  }

  // ----- both ways -----

  /** Cut anywhere, both ways give the client the same text, reasoning and tool calls. The finish agrees as well
      exactly when the stream had one and it is `length`, `tool_calls` with a call, or `stop` without one. */
  lemma RoutesAgree(es: seq<A.Event>, env: Second.Envelope, includeUsage: bool)
    requires es != [] && A.WatchAll(A.Fresh, es) != A.Bad
    ensures var a := MeanChunks(NOTHING, Directly(es, includeUsage));
            var b := MeanChunks(NOTHING, ThroughResponses(es, env, includeUsage));
            && SameContent(a, b)
            && (a.finish == b.finish <==>
                a.finish == Some(Length) || a.finish == Some(if a.entries != [] then ToolCalls else Stop))
  {
    hide A.MeanEvents, A.WatchAll, First.Converted, RS.MeanEvents, MeanChunks, Direct.RenderAll, Second.RenderAll,
         Second.AllAddressed;
    ConvertedAddressed(es);
    First.MeaningKept(es);
    Direct.WellFormedMeaningKept(es, includeUsage);
    Second.MeaningKept(First.Converted(es), env, includeUsage);
  }
}
