/**
 Server-sent event blocks (converters/stream_events.py): the parser that groups lines into blocks, the
 printer that writes a block back, and what they keep. The framing is that of sections 9.2.5 and 9.2.6
 of the WHATWG HTML Living Standard, except that all leading spaces of a data line are dropped.
 */
module Sse {
  import opened Wrappers

  datatype Block = Block(event: Option<string>, data: seq<string>, passthrough: seq<string>)

  const EMPTY: Block := Block(None, [], [])

  // ----- lines -----

  /** The characters `str.strip` removes. */
  predicate IsSpace(c: char) {
    || '\t' <= c <= '\r' || '\U{1C}' <= c <= ' ' || c == '\U{85}' || c == '\U{A0}' || c == '\U{1680}'
    || '\U{2000}' <= c <= '\U{200A}' || c == '\U{2028}' || c == '\U{2029}' || c == '\U{202F}' || c == '\U{205F}'
    || c == '\U{3000}'
  }

  function Lstrip(s: string): string {
    if s != "" && s[0] == ' ' then Lstrip(s[1..]) else s
  }

  function StripLeft(s: string): string {
    if s != "" && IsSpace(s[0]) then StripLeft(s[1..]) else s
  }

  function StripRight(s: string): string {
    if s != "" && IsSpace(s[|s| - 1]) then StripRight(s[..|s| - 1]) else s
  }

  function Strip(s: string): string {
    StripRight(StripLeft(s))
  }

  predicate Blank(line: string) {
    Strip(line) == ""
  }

  const EVENT := "event:"
  const DATA := "data:"

  predicate StartsWith(line: string, prefix: string) {
    |prefix| <= |line| && line[..|prefix|] == prefix
  }

  /** Whether Python takes the name for true. */
  predicate Named(event: Option<string>) {
    Or(event, "") != ""
  }

  predicate HasContent(b: Block) {
    Named(b.event) || b.data != [] || b.passthrough != []
  }

  // ----- the parser -----

  function Emit(b: Block): seq<Block> {
    if HasContent(b) then [b] else []
  }

  /** A line that is not blank, added to its block. */
  function AddLine(b: Block, line: string): Block {
    if StartsWith(line, EVENT) then b.(event := Some(Strip(line[6..])))
    else if StartsWith(line, DATA) then b.(data := b.data + [Lstrip(line[5..])])
    else b.(passthrough := b.passthrough + [line])
  }

  /** One line: the block it leaves open, and the blocks it completes. */
  function Step(b: Block, line: string): (Block, seq<Block>) {
    if Blank(line) then (EMPTY, Emit(b))
    else if StartsWith(line, EVENT) && (Named(b.event) || b.data != []) then (AddLine(EMPTY, line), [b])
    else (AddLine(b, line), [])
  }

  function Feed(b: Block, lines: seq<string>): (Block, seq<Block>) {
    if lines == [] then (b, [])
    else
      var (open, out) := Feed(b, lines[..|lines| - 1]);
      var (open', more) := Step(open, lines[|lines| - 1]);
      (open', out + more)
  }

  /** `iter_sse_blocks` */
  function Parse(lines: seq<string>): seq<Block> {
    Feed(EMPTY, lines).1 + Emit(Feed(EMPTY, lines).0)
  }

  // ----- the printer -----

  function DataLines(data: seq<string>): (r: seq<string>)
    ensures |r| == |data|
  {
    seq(|data|, i requires 0 <= i < |data| => "data: " + data[i])
  }

  /** The lines of `format_passthrough_sse_block`, the blank one included. */
  function Print(b: Block): seq<string> {
    b.passthrough + (if Named(b.event) then ["event: " + b.event.value] else []) + DataLines(b.data) + [""]
  }

  function PrintAll(bs: seq<Block>): seq<string> {
    if bs == [] then [] else PrintAll(bs[..|bs| - 1]) + Print(bs[|bs| - 1])
  }

  // ----- round trips -----

  lemma {:induction false} FeedConcat(b: Block, x: seq<string>, y: seq<string>)
    ensures var (open, out) := Feed(b, x);
            var (open', more) := Feed(open, y);
            Feed(b, x + y) == (open', out + more)
  {
    hide Step;
    if y == [] {
      assert x + y == x && Feed(b, x).1 + [] == Feed(b, x).1;
    } else {
      var n := |y| - 1;
      assert (x + y)[..|x + y| - 1] == x + y[..n];
      FeedConcat(b, x, y[..n]);
      var mid := Feed(Feed(b, x).0, y[..n]);
      var last := Step(mid.0, y[n]);
      assert Feed(b, x).1 + mid.1 + last.1 == Feed(b, x).1 + (mid.1 + last.1);
    }
  }

  lemma FeedOne(b: Block, line: string)
    ensures Feed(b, [line]) == Step(b, line)
  {
    hide Step;
    assert [line][..0] == [];
    assert [] + Step(b, line).1 == Step(b, line).1;
  }

  /** A line the parser keeps as it is. */
  predicate Kept(line: string) {
    !Blank(line) && !StartsWith(line, EVENT) && !StartsWith(line, DATA)
  }

  /** A block that comes back from its printed form as it went: it has content, a name without spaces around it,
      data that begins with no space, and other lines that are neither blank nor fields. */
  ghost predicate Normal(b: Block) {
    && HasContent(b)
    && (b.event.Some? ==> b.event.value != "" && Strip(b.event.value) == b.event.value)
    && (forall i | 0 <= i < |b.data| :: Lstrip(b.data[i]) == b.data[i])
    && (forall i | 0 <= i < |b.passthrough| :: Kept(b.passthrough[i]))
  }

  lemma {:induction false} FeedKept(b: Block, lines: seq<string>)
    requires forall i | 0 <= i < |lines| :: Kept(lines[i])
    ensures Feed(b, lines) == (b.(passthrough := b.passthrough + lines), [])
  {
    hide Blank, StartsWith;
    if lines == [] {
      assert b.passthrough + lines == b.passthrough;
    } else {
      var n := |lines| - 1;
      FeedKept(b, lines[..n]);
      var none: seq<Block> := [];
      assert none + none == none;
      assert Step(b.(passthrough := b.passthrough + lines[..n]), lines[n]).1 == none;
      assert b.passthrough + lines == b.passthrough + lines[..n] + [lines[n]];
    }
  }

  lemma StripLeftSolid(s: string, i: nat)
    requires i < |s| && !IsSpace(s[i])
    ensures StripLeft(s) != "" && exists k :: 0 <= k < |StripLeft(s)| && !IsSpace(StripLeft(s)[k])
    decreases |s|
  {
    if IsSpace(s[0]) { StripLeftSolid(s[1..], i - 1); } else { assert !IsSpace(s[0]); }
  }

  lemma StripRightSolid(s: string, i: nat)
    requires i < |s| && !IsSpace(s[i])
    ensures StripRight(s) != ""
    decreases |s|
  {
  }

  /** A line with a visible character is not blank. */
  lemma NotBlank(line: string, i: nat)
    requires i < |line| && !IsSpace(line[i])
    ensures !Blank(line)
  {
    StripLeftSolid(line, i);
    var k :| 0 <= k < |StripLeft(line)| && !IsSpace(StripLeft(line)[k]);
    StripRightSolid(StripLeft(line), k);
  }

  lemma DataLineStep(b: Block, d: string)
    requires Lstrip(d) == d
    ensures Step(b, "data: " + d) == (b.(data := b.data + [d]), [])
  {
    var line := "data: " + d;
    NotBlank(line, 0);
    hide Blank;
    assert line[..5] == DATA && line[0] == 'd' && line[5..] == [' '] + d;
    assert !StartsWith(line, EVENT);
    assert ([' '] + d)[1..] == d;
  }

  lemma {:induction false} FeedData(b: Block, data: seq<string>)
    requires forall i | 0 <= i < |data| :: Lstrip(data[i]) == data[i]
    ensures Feed(b, DataLines(data)) == (b.(data := b.data + data), [])
  {
    hide Lstrip, Step;
    if data == [] {
      assert b.data + data == b.data;
    } else {
      var n := |data| - 1;
      FeedData(b, data[..n]);
      assert DataLines(data)[..n] == DataLines(data[..n]);
      DataLineStep(b.(data := b.data + data[..n]), data[n]);
      var none: seq<Block> := [];
      assert none + none == none && DataLines(data)[n] == "data: " + data[n];
      assert b.data + data == b.data + data[..n] + [data[n]];
    }
  }

  lemma EventLineStep(b: Block, name: string)
    requires b.event.None? && b.data == [] && name != "" && Strip(name) == name
    ensures Step(b, "event: " + name) == (b.(event := Some(name)), [])
  {
    var line := "event: " + name;
    NotBlank(line, 0);
    assert line[..6] == EVENT && line[6..] == [' '] + name;
    assert ([' '] + name)[1..] == name;
    assert Strip(line[6..]) == name;
    hide Strip, Blank;
    assert StartsWith(line, EVENT);
  }

  lemma BlankStep(b: Block)
    ensures Step(b, "") == (EMPTY, Emit(b))
  {
  }

  /** The lines of a normal block give exactly that block. */
  lemma PrintedComesBack(b: Block)
    requires Normal(b)
    ensures Feed(EMPTY, Print(b)) == (EMPTY, [b])
  {
    hide Feed, Step, Strip, Lstrip, Kept;
    var name := if Named(b.event) then ["event: " + b.event.value] else [];
    var one := EMPTY.(passthrough := b.passthrough);
    var two := one.(event := b.event);
    FeedKept(EMPTY, b.passthrough);
    assert [] + b.passthrough == b.passthrough;
    if Named(b.event) {
      EventLineStep(one, b.event.value);
      FeedOne(one, name[0]);
      assert name == [name[0]];
    } else {
      FeedNone(one);
    }
    FeedData(two, b.data);
    assert [] + b.data == b.data;
    BlankStep(b);
    FeedOne(b, "");
    var none: seq<Block> := [];
    assert none + none == none && none + [b] == [b];
    assert two.(data := b.data) == b;
    FeedConcat(EMPTY, b.passthrough, name);
    FeedConcat(EMPTY, b.passthrough + name, DataLines(b.data));
    FeedConcat(EMPTY, b.passthrough + name + DataLines(b.data), [""]);
  }

  lemma FeedNone(b: Block)
    ensures Feed(b, []) == (b, [])
  {
  }

  lemma {:induction false} AllComeBack(bs: seq<Block>)
    requires forall i | 0 <= i < |bs| :: Normal(bs[i])
    ensures Feed(EMPTY, PrintAll(bs)) == (EMPTY, bs)
  {
    hide Feed, Print, Normal;
    if bs == [] {
      FeedNone(EMPTY);
    } else {
      var n := |bs| - 1;
      AllComeBack(bs[..n]);
      PrintedComesBack(bs[n]);
      FeedConcat(EMPTY, PrintAll(bs[..n]), Print(bs[n]));
      assert bs == bs[..n] + [bs[n]];
    }
  }

  /** Parsing what was printed for normal blocks returns the same blocks. */
  lemma ParseOfPrint(bs: seq<Block>)
    requires forall i | 0 <= i < |bs| :: Normal(bs[i])
    ensures Parse(PrintAll(bs)) == bs
  {
    hide Feed, PrintAll, Normal;
    AllComeBack(bs);
    assert bs + [] == bs;
  }

  // ----- where blocks end -----

  /** A blank line ends a block, and so does the end of the input. */
  lemma BlankSplits(lines: seq<string>, more: seq<string>)
    ensures Parse(lines + [""] + more) == Parse(lines) + Parse(more)
    ensures Parse(lines) == Parse(lines + [""])
  {
    hide Feed, Emit, HasContent;
    var (open, out) := Feed(EMPTY, lines);
    BlankStep(open);
    FeedOne(open, "");
    FeedConcat(EMPTY, lines, [""]);
    FeedConcat(EMPTY, lines + [""], more);
    NothingOpen();
    var rest := Feed(EMPTY, more);
    assert out + Emit(open) + rest.1 + Emit(rest.0) == out + Emit(open) + (rest.1 + Emit(rest.0));
    assert out + Emit(open) + [] == out + Emit(open);
  }

  lemma NothingOpen()
    ensures Emit(EMPTY) == []
  {
  }

  /** A data line, or an event line with a name. */
  predicate Begins(line: string) {
    || (|line| >= 5 && line[..5] == "data:")
    || (|line| >= 6 && line[..6] == "event:" && Strip(line[6..]) != "")
  }

  lemma BeginsBlock(open: Block, line: string)
    requires Begins(line)
    ensures var (one, done) := Step(open, line); (Named(one.event) || one.data != []) && Emit(one) == [one]
  {
    hide Strip;
    if |line| >= 5 && line[..5] == "data:" { assert line[0] == line[..5][0]; } else { assert line[0] == line[..6][0]; }
    NotBlank(line, 0);
    hide Blank;
  }

  /** An event line after such a line begins a new block. */
  lemma EventSplits(lines: seq<string>, line: string, event: string, more: seq<string>)
    requires Begins(line) && |event| >= 6 && event[..6] == "event:"
    ensures Parse(lines + [line] + [event] + more) == Parse(lines + [line]) + Parse([event] + more)
  {
    hide Feed, Blank, Begins;
    var (open, out) := Feed(EMPTY, lines);
    assert event[0] == event[..6][0];
    NotBlank(event, 0);
    BeginsBlock(open, line);
    FeedOne(open, line);
    FeedConcat(EMPTY, lines, [line]);
    var (one, done) := Step(open, line);
    FeedOne(one, event);
    FeedOne(EMPTY, event);
    FeedConcat(EMPTY, lines + [line], [event]);
    FeedConcat(EMPTY, lines + [line] + [event], more);
    FeedConcat(EMPTY, [event], more);
    hide AddLine, HasContent, Step;
    var rest := Feed(AddLine(EMPTY, event), more);
    assert out + done + [one] + rest.1 + Emit(rest.0) == out + done + [one] + (rest.1 + Emit(rest.0));
    assert [] + rest.1 == rest.1;
  }

  // ----- nothing is lost -----

  predicate IsEvent(line: string) {
    |line| >= 6 && line[..6] == "event:"
  }

  predicate IsData(line: string) {
    |line| >= 5 && line[..5] == "data:"
  }

  /** What the data lines carry, in order. */
  function Payloads(lines: seq<string>): seq<string> {
    if lines == [] then []
    else
      var last := lines[|lines| - 1];
      Payloads(lines[..|lines| - 1]) + if IsData(last) && !Blank(last) then [Lstrip(last[5..])] else []
  }

  /** The lines that are neither blank nor fields, in order. */
  function Others(lines: seq<string>): seq<string> {
    if lines == [] then []
    else
      var last := lines[|lines| - 1];
      Others(lines[..|lines| - 1]) + if !Blank(last) && !IsEvent(last) && !IsData(last) then [last] else []
  }

  function AllData(bs: seq<Block>): seq<string> {
    if bs == [] then [] else AllData(bs[..|bs| - 1]) + bs[|bs| - 1].data
  }

  function AllOthers(bs: seq<Block>): seq<string> {
    if bs == [] then [] else AllOthers(bs[..|bs| - 1]) + bs[|bs| - 1].passthrough
  }

  lemma {:induction false} AllConcat(a: seq<Block>, b: seq<Block>)
    ensures AllData(a + b) == AllData(a) + AllData(b) && AllOthers(a + b) == AllOthers(a) + AllOthers(b)
  {
    if b == [] {
      assert a + b == a;
    } else {
      assert (a + b)[..|a + b| - 1] == a + b[..|b| - 1];
      AllConcat(a, b[..|b| - 1]);
    }
  }

  lemma AllOne(b: Block)
    ensures AllData([b]) == b.data && AllOthers([b]) == b.passthrough && AllData([]) == [] && AllOthers([]) == []
  {
    assert [b][..0] == [];
    assert [] + b.data == b.data && [] + b.passthrough == b.passthrough;
  }

  lemma StepKeepsLines(b: Block, line: string)
    ensures var (open, more) := Step(b, line);
            && AllData(more) + open.data == b.data + (if IsData(line) && !Blank(line) then [Lstrip(line[5..])] else [])
            && AllOthers(more) + open.passthrough ==
               b.passthrough + (if !Blank(line) && !IsEvent(line) && !IsData(line) then [line] else [])
  {
    hide Blank, Lstrip, Strip, AllData, AllOthers;
    AllOne(b);
    assert IsEvent(line) ==> line[0] == line[..6][0];
    assert IsData(line) ==> line[0] == line[..5][0];
    assert StartsWith(line, EVENT) == IsEvent(line) && StartsWith(line, DATA) == IsData(line);
  }

  lemma {:induction false} FeedKeepsLines(lines: seq<string>)
    ensures var (open, out) := Feed(EMPTY, lines);
            AllData(out) + open.data == Payloads(lines) && AllOthers(out) + open.passthrough == Others(lines)
  {
    hide Step, Blank, IsData, IsEvent, Lstrip, Feed, AllData, AllOthers;
    if lines == [] {
      FeedNone(EMPTY);
      AllOne(EMPTY);
    } else {
      var n := |lines| - 1;
      FeedKeepsLines(lines[..n]);
      var (open, out) := Feed(EMPTY, lines[..n]);
      var (open', more) := Step(open, lines[n]);
      FeedOne(open, lines[n]);
      FeedConcat(EMPTY, lines[..n], [lines[n]]);
      assert lines == lines[..n] + [lines[n]];
      StepKeepsLines(open, lines[n]);
      AllConcat(out, more);
      Onward(AllData(out), AllData(more), open'.data, open.data);
      Onward(AllOthers(out), AllOthers(more), open'.passthrough, open.passthrough);
    }
  }

  lemma Onward(a: seq<string>, b: seq<string>, c: seq<string>, d: seq<string>)
    ensures forall x: seq<string> | b + c == d + x :: a + b + c == a + d + x
  {
    forall x: seq<string> | b + c == d + x ensures a + b + c == a + d + x {
      assert a + b + c == a + (b + c) == a + (d + x) == a + d + x;
    }
  }

  /** Whatever the lines, the blocks have all data and all other lines, in order and none twice. */
  lemma NothingIsLost(lines: seq<string>)
    ensures AllData(Parse(lines)) == Payloads(lines) && AllOthers(Parse(lines)) == Others(lines)
  {
    hide Feed, Payloads, Others, AllData, AllOthers;
    FeedKeepsLines(lines);
    var (open, out) := Feed(EMPTY, lines);
    AllConcat(out, Emit(open));
    AllOne(open);
  }

  /** Empty names become no name. */
  function Tidy(b: Block): Block {
    if Named(b.event) then b else b.(event := None)
  }

  function TidyAll(bs: seq<Block>): (r: seq<Block>)
    ensures |r| == |bs|
  {
    seq(|bs|, i requires 0 <= i < |bs| => Tidy(bs[i]))
  }

  /** What every block under construction keeps. */
  ghost predicate Tame(b: Block) {
    && (b.event.Some? ==> Strip(b.event.value) == b.event.value)
    && (forall i | 0 <= i < |b.data| :: Lstrip(b.data[i]) == b.data[i])
    && (forall i | 0 <= i < |b.passthrough| :: Kept(b.passthrough[i]))
  }

  lemma LstripTwice(s: string)
    ensures Lstrip(Lstrip(s)) == Lstrip(s)
  {
  }

  lemma {:induction false} StripRightTwice(s: string)
    ensures StripRight(StripRight(s)) == StripRight(s)
    ensures StripRight(s) <= s
    decreases |s|
  {
    hide IsSpace;
    if s != "" && IsSpace(s[|s| - 1]) { StripRightTwice(s[..|s| - 1]); }
  }

  lemma {:induction false} StripLeftFirst(s: string)
    ensures StripLeft(s) != "" ==> !IsSpace(StripLeft(s)[0])
    decreases |s|
  {
    hide IsSpace;
    if s != "" && IsSpace(s[0]) { StripLeftFirst(s[1..]); }
  }

  lemma StripTwice(s: string)
    ensures Strip(Strip(s)) == Strip(s)
  {
    var left := StripLeft(s);
    StripLeftFirst(s);
    StripRightTwice(left);
    if Strip(s) != "" { assert Strip(s)[0] == left[0]; }
    hide StripRight, IsSpace;
  }

  lemma AddIsTame(b: Block, line: string)
    requires Tame(b) && !Blank(line)
    ensures Tame(AddLine(b, line))
  {
    if StartsWith(line, EVENT) { StripTwice(line[6..]); }
    if StartsWith(line, DATA) { LstripTwice(line[5..]); }
    hide Strip, Lstrip, StartsWith, Blank;
  }

  lemma {:induction false} FeedIsTame(lines: seq<string>)
    ensures var (open, out) := Feed(EMPTY, lines);
            Tame(open) && forall i | 0 <= i < |out| :: Tame(out[i]) && HasContent(out[i])
  {
    hide Tame, Blank, StartsWith, AddLine;
    EmptyIsTame();
    if lines != [] {
      var n := |lines| - 1;
      FeedIsTame(lines[..n]);
      if !Blank(lines[n]) {
        AddIsTame(Feed(EMPTY, lines[..n]).0, lines[n]);
        AddIsTame(EMPTY, lines[n]);
      }
    }
  }

  lemma EmptyIsTame()
    ensures Tame(EMPTY)
  {
  }

  lemma ParsedIsTame(lines: seq<string>, i: nat)
    requires i < |Parse(lines)|
    ensures Normal(Tidy(Parse(lines)[i]))
  {
    FeedIsTame(lines);
    hide Feed, Strip, Lstrip, Kept;
  }

  lemma PrintTidy(b: Block)
    ensures Print(Tidy(b)) == Print(b)
  {
  }

  lemma {:induction false} PrintTidyAll(bs: seq<Block>)
    ensures PrintAll(TidyAll(bs)) == PrintAll(bs)
  {
    if bs != [] {
      hide Print, Tidy;
      var n := |bs| - 1;
      PrintTidyAll(bs[..n]);
      PrintTidy(bs[n]);
      assert TidyAll(bs)[..n] == TidyAll(bs[..n]);
    }
  }

  /** Whatever the lines, parsing, printing and parsing again gives the blocks of the first parse, up to empty
      event names. */
  lemma ParsePrintParse(lines: seq<string>)
    ensures Parse(PrintAll(Parse(lines))) == TidyAll(Parse(lines))
  {
    var bs := Parse(lines);
    forall i | 0 <= i < |bs| ensures Normal(TidyAll(bs)[i]) {
      ParsedIsTame(lines, i);
    }
    hide Parse, PrintAll, Normal, Tidy;
    PrintTidyAll(bs);
    ParseOfPrint(TidyAll(bs));
  }

  // ----- the loops -----

  method IterSseBlocks(lines: seq<string>) returns (blocks: seq<Block>)
    ensures blocks == Parse(lines)
  {
    hide Blank, Strip, Lstrip;
    blocks := [];
    var eventType: Option<string>, dataLines: seq<string>, passthroughLines: seq<string> := None, [], [];
    for i := 0 to |lines|
      invariant Feed(EMPTY, lines[..i]) == (Block(eventType, dataLines, passthroughLines), blocks)
    {
      var line := lines[i];
      assert lines[..i + 1][..i] == lines[..i];
      assert blocks + [] == blocks;
      if Blank(line) {
        if Named(eventType) || dataLines != [] || passthroughLines != [] {
          blocks := blocks + [Block(eventType, dataLines, passthroughLines)];
        }
        eventType, dataLines, passthroughLines := None, [], [];
        continue;
      }
      if StartsWith(line, EVENT) && (Named(eventType) || dataLines != []) {
        blocks := blocks + [Block(eventType, dataLines, passthroughLines)];
        eventType, dataLines, passthroughLines := None, [], [];
      }
      if StartsWith(line, EVENT) {
        eventType := Some(Strip(line[6..]));
      } else if StartsWith(line, DATA) {
        dataLines := dataLines + [Lstrip(line[5..])];
      } else {
        passthroughLines := passthroughLines + [line];
      }
    }
    assert lines[..|lines|] == lines;
    blocks := blocks + Emit(Block(eventType, dataLines, passthroughLines));
  }

  method FormatPassthroughSseBlock(block: Block) returns (lines: seq<string>)
    ensures lines == Print(block)
  {
    lines := block.passthrough;
    if Named(block.event) {
      lines := lines + ["event: " + block.event.value];
    } else {
      assert lines + [] == lines;
    }
    ghost var head := lines;
    for i := 0 to |block.data|
      invariant lines == head + DataLines(block.data[..i])
    {
      lines := lines + ["data: " + block.data[i]];
      assert DataLines(block.data[..i + 1]) == DataLines(block.data[..i]) + ["data: " + block.data[i]];
    }
    assert block.data[..|block.data|] == block.data;
    lines := lines + [""];
  }
}
