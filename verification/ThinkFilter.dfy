/**
 The streaming think-tag filter (think_filter.py).

 `Filter` is the one-pass reference: it looks at the whole text at once. `Scan` is the same pass
 stopped at the last point from which it can be resumed. `FilterStep` is what one `feed` call does
 to the session state, including the branch at lines 96-98 that keeps the whole buffer. The class
 at the end is the imperative filter, proved against `FilterStep`.
 */
module ThinkFilter {

  const MAX_UNCLOSED_THINK_BUFFER: nat := 1024 * 1024
  const THINK_OPEN: string := "<think>"
  const THINK_CLOSE: string := "</think>"
  const BUBBLE: string := "\U{1F4AD}"

  datatype Tag = Think | Bubble

  datatype Mode = Outside | Inside(tag: Tag)

  function OpenText(tag: Tag): (s: string)
    ensures s != ""
  {
    if tag == Think then THINK_OPEN else BUBBLE
  }

  function CloseText(tag: Tag): string {
    if tag == Think then THINK_CLOSE else BUBBLE
  }

  /** Does `pat` occur in `text` at position `i`? */
  predicate At(text: string, pat: string, i: int) {
    0 <= i && i + |pat| <= |text| && forall k | 0 <= k < |pat| :: text[i + k] == pat[k]
  }

  /** Python's `text.find(pat, start)`. */
  function Find(text: string, pat: string, start: nat): (r: int)
    ensures r == -1 || (start <= r && At(text, pat, r))
    decreases |text| - start
  {
    if start + |pat| > |text| then -1
    else if At(text, pat, start) then start
    else Find(text, pat, start + 1)
  }

  lemma {:induction false} FindIsFirst(text: string, pat: string, start: nat, j: int)
    requires start <= j && (Find(text, pat, start) == -1 || j < Find(text, pat, start))
    ensures !At(text, pat, j)
    decreases |text| - start
  {
    if start + |pat| <= |text| && start < j {
      FindIsFirst(text, pat, start + 1, j);
    }
  }

  predicate StartsTag(text: string, i: int) {
    At(text, THINK_OPEN, i) || At(text, BUBBLE, i)
  }

  /** `_find_start_tag`: the first start tag of either kind. */
  function FindStartTag(text: string, start: nat): (r: int)
    ensures r == -1 || (start <= r && StartsTag(text, r))
  {
    var think := Find(text, THINK_OPEN, start);
    var bubble := Find(text, BUBBLE, start);
    if think == -1 then bubble
    else if bubble == -1 then think
    else if think <= bubble then think else bubble
  }

  lemma StartTagIsFirst(text: string, start: nat, j: int)
    requires start <= j && (FindStartTag(text, start) == -1 || j < FindStartTag(text, start))
    ensures !StartsTag(text, j)
  {
    FindIsFirst(text, THINK_OPEN, start, j);
    FindIsFirst(text, BUBBLE, start, j);
  }

  /** `_get_start_tag` */
  function TagAt(text: string, i: int): (tag: Tag)
    requires StartsTag(text, i)
    ensures At(text, OpenText(tag), i)
    ensures 0 <= i && i + |OpenText(tag)| <= |text|
  {
    if At(text, THINK_OPEN, i) then Think else Bubble
  }

  /** `_find_end_tag`: the position after the end tag, or -1. */
  function FindEndTag(text: string, tag: Tag, start: nat): (r: int)
    ensures r == -1 || start < r <= |text|
    ensures r == -1 || (start <= r - |CloseText(tag)| && At(text, CloseText(tag), r - |CloseText(tag)|))
  {
    var i := Find(text, CloseText(tag), start);
    if i == -1 then -1 else i + |CloseText(tag)|
  }

  /** Does `text` end with the first `n` characters of `<think>`? */
  predicate EndsWithHint(text: string, n: nat)
    requires n <= 7
  {
    n <= |text| && forall k | 0 <= k < n :: text[|text| - n + k] == THINK_OPEN[k]
  }

  /** `_partial_start_tag_len`: the longest tail that may still grow into `<think>`. */
  function PartialLen(text: string): (n: nat)
    ensures n <= 6 && n <= |text| && EndsWithHint(text, n)
    ensures forall k :: n < k <= 6 ==> !EndsWithHint(text, k)
  {
    PartialLenUpTo(text, 6)
  }

  function PartialLenUpTo(text: string, most: nat): (n: nat)
    requires most <= 6
    ensures n <= most && n <= |text| && EndsWithHint(text, n)
    ensures forall k :: n < k <= most ==> !EndsWithHint(text, k)
  {
    if most == 0 then 0
    else if EndsWithHint(text, most) then most
    else PartialLenUpTo(text, most - 1)
  }

  // ----- the one-pass reference -----

  /** Everything outside think blocks; a block left open swallows the rest. */
  function Filter(mode: Mode, text: string): string
    decreases |text|
  {
    match mode
    case Outside =>
      var p := FindStartTag(text, 0);
      if p == -1 then text
      else
        var tag := TagAt(text, p);
        text[..p] + Filter(Inside(tag), text[p + |OpenText(tag)|..])
    case Inside(tag) =>
      var p := FindEndTag(text, tag, 0);
      if p == -1 then "" else Filter(Outside, text[p..])
  }

  datatype Scanned = Scanned(out: string, mode: Mode, rest: string)

  /** The same pass, holding back what the next characters may still change. */
  function Scan(mode: Mode, text: string): (r: Scanned)
    decreases |text|
  {
    match mode
    case Outside =>
      var p := FindStartTag(text, 0);
      if p == -1 then
        var safe := |text| - PartialLen(text);
        Scanned(text[..safe], Outside, text[safe..])
      else
        var tag := TagAt(text, p);
        var r := Scan(Inside(tag), text[p + |OpenText(tag)|..]);
        r.(out := text[..p] + r.out)
    case Inside(tag) =>
      var p := FindEndTag(text, tag, 0);
      if p == -1 then Scanned("", mode, text) else Scan(Outside, text[p..])
  }

  lemma {:induction false} FilterIsScan(mode: Mode, text: string)
    ensures var r := Scan(mode, text);
            Filter(mode, text) == r.out + if r.mode == Outside then r.rest else ""
    decreases |text|
  {
    hide Find, FindStartTag, FindEndTag, At, StartsTag, TagAt, PartialLen, OpenText, CloseText;
    match mode
    case Outside =>
      var p := FindStartTag(text, 0);
      if p != -1 {
        FilterIsScan(Inside(TagAt(text, p)), text[p + |OpenText(TagAt(text, p))|..]);
      }
    case Inside(tag) =>
      var p := FindEndTag(text, tag, 0);
      if p != -1 {
        FilterIsScan(Outside, text[p..]);
      }
  }

  // ----- occurrences under appending and slicing -----

  lemma AtAppend(text: string, more: string, pat: string, i: int)
    requires i + |pat| <= |text|
    ensures At(text + more, pat, i) == At(text, pat, i)
  {
  }

  lemma AtSlice(text: string, pat: string, from: nat, i: int)
    requires from <= |text| && 0 <= i
    ensures At(text[from..], pat, i) == At(text, pat, from + i)
  {
  }

  /** An occurrence that only appending completes starts inside the held-back tail. */
  lemma NewStartIsInTail(text: string, more: string, i: int)
    requires StartsTag(text + more, i) && !StartsTag(text, i)
    ensures |text| - PartialLen(text) <= i
  {
    if i < |text| {
      if i + 7 <= |text| { AtAppend(text, more, THINK_OPEN, i); }
      AtAppend(text, more, BUBBLE, i);
      assert EndsWithHint(text, |text| - i);
    }
  }

  /** Looking from an index is looking in the slice from that index. */
  lemma FindSlice(text: string, pat: string, from: nat)
    requires from <= |text|
    ensures var a, b := Find(text, pat, from), Find(text[from..], pat, 0);
            a == if b == -1 then -1 else from + b
  {
    var a, b := Find(text, pat, from), Find(text[from..], pat, 0);
    if a != -1 && (b == -1 || a - from < b) {
      AtSlice(text, pat, from, a - from);
      FindIsFirst(text[from..], pat, 0, a - from);
    }
    if b != -1 && (a == -1 || from + b < a) {
      AtSlice(text, pat, from, b);
      FindIsFirst(text, pat, from, from + b);
    }
  }

  /** Text before the first start tag does not matter. */
  lemma FindStartDrop(text: string, from: nat)
    requires from <= |text|
    requires FindStartTag(text, 0) == -1 || from <= FindStartTag(text, 0)
    ensures var a, b := FindStartTag(text, 0), FindStartTag(text[from..], 0);
            a == if b == -1 then -1 else from + b
  {
    hide At;
    FindDrop(text, THINK_OPEN, from);
    FindDrop(text, BUBBLE, from);
  }

  lemma FindStartAppend(text: string, more: string)
    requires FindStartTag(text, 0) != -1
    ensures FindStartTag(text + more, 0) == FindStartTag(text, 0)
    ensures TagAt(text + more, FindStartTag(text, 0)) == TagAt(text, FindStartTag(text, 0))
  {
    var p := FindStartTag(text, 0);
    var q := FindStartTag(text + more, 0);
    AtAppend(text, more, OpenText(TagAt(text, p)), p);
    if q == -1 || p < q {
      StartTagIsFirst(text + more, 0, p);
    } else if q < p {
      StartTagIsFirst(text, 0, q);
      NewStartIsInTail(text, more, q);
      TailHasNoTag(text, p);
    }
    TagsDiffer(text, p);
    TagsDiffer(text + more, p);
  }

  /** The two start tags never start at the same place. */
  lemma TagsDiffer(text: string, i: int)
    ensures !(At(text, THINK_OPEN, i) && At(text, BUBBLE, i))
  {
    assert THINK_OPEN[0] != BUBBLE[0];
  }

  /** No start tag begins inside a held-back tail. */
  lemma TailHasNoTag(text: string, p: int)
    requires |text| - PartialLen(text) <= p
    ensures !StartsTag(text, p)
  {
    var n := PartialLen(text);
    if p < |text| {
      assert THINK_OPEN[p - (|text| - n)] != BUBBLE[0];
    }
  }

  lemma FindEndAppend(text: string, more: string, tag: Tag)
    requires FindEndTag(text, tag, 0) != -1
    ensures FindEndTag(text + more, tag, 0) == FindEndTag(text, tag, 0)
  {
    var close := CloseText(tag);
    var p, q := Find(text, close, 0), Find(text + more, close, 0);
    AtAppend(text, more, close, p);
    if q == -1 || p < q {
      FindIsFirst(text + more, close, 0, p);
    } else if q < p {
      AtAppend(text, more, close, q);
      FindIsFirst(text, close, 0, q);
    }
  }

  lemma HintSlice(text: string, from: nat, n: nat)
    requires from <= |text| && n <= 7 && n <= |text| - from
    ensures EndsWithHint(text[from..], n) == EndsWithHint(text, n)
  {
  }

  lemma PartialLenSlice(text: string, from: nat)
    requires from <= |text| && PartialLen(text) <= |text| - from
    ensures PartialLen(text[from..]) == PartialLen(text)
  {
    HintSlice(text, from, PartialLen(text));
    HintSlice(text, from, PartialLen(text[from..]));
  }

  lemma PartialLenAppend(text: string, more: string)
    ensures PartialLen(text + more) <= PartialLen(text) + |more|
  {
    var n := PartialLen(text + more);
    if |more| < n {
      assert EndsWithHint(text, n - |more|);
    }
  }

  // ----- the pass can be resumed anywhere -----

  /** One step of `Scan` from outside: a start tag at `p` is opened. */
  lemma ScanOpens(text: string, p: nat)
    requires FindStartTag(text, 0) == p
    ensures p + |OpenText(TagAt(text, p))| <= |text|
    ensures var r := Scan(Inside(TagAt(text, p)), text[p + |OpenText(TagAt(text, p))|..]);
            Scan(Outside, text) == Scanned(text[..p] + r.out, r.mode, r.rest)
  {
    hide Find, FindStartTag, FindEndTag, At, StartsTag, TagAt, PartialLen, OpenText, CloseText;
  }

  lemma ScanPlainNoTag(text: string, more: string)
    requires FindStartTag(text, 0) == -1 && FindStartTag(text + more, 0) == -1
    requires var safe := |text| - PartialLen(text); FindStartTag(text[safe..] + more, 0) == -1
    ensures var safe := |text| - PartialLen(text);
            var b := Scan(Outside, text[safe..] + more);
            Scan(Outside, text + more) == Scanned(text[..safe] + b.out, b.mode, b.rest)
  {
    hide Find, FindStartTag, FindEndTag, At, StartsTag, TagAt, PartialLen, OpenText, CloseText, EndsWithHint;
    var safe := |text| - PartialLen(text);
    var whole, tail := text + more, text[safe..] + more;
    assert whole == text[..safe] + tail;
    assert whole[safe..] == tail;
    PartialLenAppend(text, more);
    PartialLenSlice(whole, safe);
    var cut := |whole| - PartialLen(whole);
    assert whole[..cut] == text[..safe] + tail[..cut - safe];
    assert whole[cut..] == tail[cut - safe..];
  }

  lemma TagSlice(text: string, from: nat, i: nat)
    requires from <= |text| && StartsTag(text[from..], i) && StartsTag(text, from + i)
    ensures TagAt(text, from + i) == TagAt(text[from..], i)
  {
  }

  lemma ScanPlainTag(text: string, more: string, p: nat)
    requires var safe := |text| - PartialLen(text);
             FindStartTag(text + more, 0) == safe + p && FindStartTag(text[safe..] + more, 0) == p
    ensures var safe := |text| - PartialLen(text);
            var b := Scan(Outside, text[safe..] + more);
            Scan(Outside, text + more) == Scanned(text[..safe] + b.out, b.mode, b.rest)
  {
    hide Find, FindStartTag, FindEndTag, At, StartsTag, TagAt, PartialLen, OpenText, CloseText, Scan, EndsWithHint;
    var safe := |text| - PartialLen(text);
    var whole, tail := text + more, text[safe..] + more;
    assert whole[safe..] == tail;
    TagSlice(whole, safe, p);
    ScanOpens(whole, safe + p);
    ScanOpens(tail, p);
    var n := p + |OpenText(TagAt(tail, p))|;
    assert whole[safe + n..] == tail[n..];
    var r := Scan(Inside(TagAt(tail, p)), tail[n..]);
    assert whole == text[..safe] + tail;
    assert whole[..safe + p] == text[..safe] + tail[..p];
    assert text[..safe] + tail[..p] + r.out == text[..safe] + (tail[..p] + r.out);
  }

  lemma ScanPlain(text: string, more: string)
    requires FindStartTag(text, 0) == -1
    ensures var safe := |text| - PartialLen(text);
            var b := Scan(Outside, text[safe..] + more);
            Scan(Outside, text + more) == Scanned(text[..safe] + b.out, b.mode, b.rest)
  {
    var safe := |text| - PartialLen(text);
    var whole := text + more;
    assert whole[safe..] == text[safe..] + more;
    var p := FindStartTag(whole, 0);
    if p != -1 {
      StartTagIsFirst(text, 0, p);
      NewStartIsInTail(text, more, p);
    }
    FindStartDrop(whole, safe);
    if p == -1 {
      ScanPlainNoTag(text, more);
    } else {
      ScanPlainTag(text, more, p - safe);
    }
  }

  /** Scanning `text + more` is scanning `text` and then what it held back plus `more`. */
  lemma {:induction false} ScanAppend(mode: Mode, text: string, more: string)
    ensures var a := Scan(mode, text);
            var b := Scan(a.mode, a.rest + more);
            Scan(mode, text + more) == Scanned(a.out + b.out, b.mode, b.rest)
    decreases |text|
  {
    hide Find, FindStartTag, FindEndTag, At, StartsTag, TagAt, PartialLen, OpenText, CloseText;
    match mode
    case Outside =>
      var p := FindStartTag(text, 0);
      if p == -1 {
        ScanPlain(text, more);
      } else {
        ScanAppendOpens(text, more, p);
      }
    case Inside(tag) =>
      var p := FindEndTag(text, tag, 0);
      if p != -1 {
        FindEndAppend(text, more, tag);
        assert (text + more)[p..] == text[p..] + more;
        ScanAppend(Outside, text[p..], more);
      }
  }

  lemma {:induction false} ScanAppendOpens(text: string, more: string, p: nat)
    requires FindStartTag(text, 0) == p
    ensures var a := Scan(Outside, text);
            var b := Scan(a.mode, a.rest + more);
            Scan(Outside, text + more) == Scanned(a.out + b.out, b.mode, b.rest)
    decreases |text|, 0
  {
    hide Find, FindStartTag, FindEndTag, At, StartsTag, TagAt, PartialLen, OpenText, CloseText;
    var tag := TagAt(text, p);
    var n := p + |OpenText(tag)|;
    FindStartAppend(text, more);
    ScanOpens(text, p);
    ScanOpens(text + more, p);
    assert (text + more)[n..] == text[n..] + more;
    assert (text + more)[..p] == text[..p];
    ScanAppend(Inside(tag), text[n..], more);
    var a := Scan(Inside(tag), text[n..]);
    var b := Scan(a.mode, a.rest + more);
    assert text[..p] + (a.out + b.out) == (text[..p] + a.out) + b.out;
  }

  // ----- the session -----

  datatype State = State(mode: Mode, buffer: string)

  const INIT: State := State(Outside, "")

  /** What an unclosed block keeps: all of it, or past the limit only what may complete its end tag. */
  function Trim(tag: Tag, rest: string): (kept: string)
  {
    if |rest| <= MAX_UNCLOSED_THINK_BUFFER then rest
    else
      var n := if tag == Think then |THINK_CLOSE| - 1 else 0;
      rest[|rest| - n..]
  }

  /** The guard of the branch that keeps the buffer as it is after a block was closed in it:
      all that follows the last end tag is a hint of the next start tag. `mid` says that part of
      the buffer was already consumed by this call. */
  predicate Stale(mode: Mode, text: string, mid: bool)
    decreases |text|
  {
    match mode
    case Outside =>
      var p := FindStartTag(text, 0);
      if p == -1 then mid && text != "" && PartialLen(text) == |text|
      else Stale(Inside(TagAt(text, p)), text[p + |OpenText(TagAt(text, p))|..], true)
    case Inside(tag) =>
      var p := FindEndTag(text, tag, 0);
      p != -1 && Stale(Outside, text[p..], true)
  }

  predicate TakesStaleBranch(s: State, chunk: string) {
    chunk != "" && Stale(s.mode, s.buffer + chunk, false)
  }

  /** One `feed` call: the text it returns and the session it leaves. */
  function FilterStep(s: State, chunk: string): (string, State) {
    if chunk == "" then ("", s)
    else
      var text := s.buffer + chunk;
      var r := Scan(s.mode, text);
      var buffer := match r.mode
        case Inside(tag) => Trim(tag, r.rest)
        case Outside => if Stale(s.mode, text, false) then text else r.rest;
      (r.out, State(r.mode, buffer))
  }

  function FlushText(s: State): string {
    if s.mode == Outside then s.buffer else ""
  }

  function Concat(chunks: seq<string>): string {
    if chunks == [] then "" else Concat(chunks[..|chunks| - 1]) + chunks[|chunks| - 1]
  }

  /** Feeding the chunks one by one from a new session. */
  function Run(chunks: seq<string>): (string, State) {
    if chunks == [] then ("", INIT)
    else
      var (out, s) := Run(chunks[..|chunks| - 1]);
      var (more, s') := FilterStep(s, chunks[|chunks| - 1]);
      (out + more, s')
  }

  /** All a client has received if the stream ends after these chunks. */
  function Output(chunks: seq<string>): string {
    Run(chunks).0 + FlushText(Run(chunks).1)
  }

  // ----- a kept suffix is as good as the whole unclosed block -----

  ghost predicate Kept(tag: Tag, kept: string, rest: string) {
    && |kept| <= |rest| && (forall k | 0 <= k < |kept| :: rest[|rest| - |kept| + k] == kept[k])
    && (|kept| == |rest| || |CloseText(tag)| - 1 <= |kept|)
  }

  lemma {:induction false} ScanPending(mode: Mode, text: string)
    ensures var r := Scan(mode, text); r.mode.Inside? ==> FindEndTag(r.rest, r.mode.tag, 0) == -1
    decreases |text|
  {
    hide Find, FindStartTag, FindEndTag, At, StartsTag, TagAt, PartialLen, OpenText, CloseText;
    match mode
    case Outside =>
      var p := FindStartTag(text, 0);
      if p != -1 {
        ScanPending(Inside(TagAt(text, p)), text[p + |OpenText(TagAt(text, p))|..]);
      }
    case Inside(tag) =>
      var p := FindEndTag(text, tag, 0);
      if p != -1 {
        ScanPending(Outside, text[p..]);
      }
  }

  /** An end tag that only appending completes lies in any kept suffix. */
  lemma FindEndKept(tag: Tag, kept: string, rest: string, more: string)
    requires Kept(tag, kept, rest) && FindEndTag(rest, tag, 0) == -1
    ensures var a, b := FindEndTag(rest + more, tag, 0), FindEndTag(kept + more, tag, 0);
            a == if b == -1 then -1 else |rest| - |kept| + b
  {
    hide Find, At;
    var close, d := CloseText(tag), |rest| - |kept|;
    assert (rest + more)[d..] == kept + more;
    var a := Find(rest + more, close, 0);
    if a != -1 && a < d {
      AtAppend(rest, more, close, a);
      FindIsFirst(rest, close, 0, a);
    }
    FindDrop(rest + more, close, d);
  }

  /** Text before the first occurrence does not matter. */
  lemma FindDrop(text: string, pat: string, from: nat)
    requires from <= |text|
    requires Find(text, pat, 0) == -1 || from <= Find(text, pat, 0)
    ensures var a, b := Find(text, pat, 0), Find(text[from..], pat, 0);
            a == if b == -1 then -1 else from + b
  {
    hide At;
    FindSlice(text, pat, from);
    var a, c := Find(text, pat, 0), Find(text, pat, from);
    if a != -1 && (c == -1 || a < c) { FindIsFirst(text, pat, from, a); }
    if c != -1 && (a == -1 || c < a) { FindIsFirst(text, pat, 0, c); }
  }

  /** `s` stands for the scan `r` of everything fed so far. */
  ghost predicate Tracks(s: State, r: Scanned) {
    && s.mode == r.mode
    && (s.mode == Outside ==> s.buffer == r.rest)
    && (s.mode.Inside? ==> Kept(s.mode.tag, s.buffer, r.rest) && FindEndTag(r.rest, s.mode.tag, 0) == -1)
  }

  lemma ScanKept(s: State, r: Scanned, more: string)
    requires Tracks(s, r)
    ensures var a, b := Scan(r.mode, r.rest + more), Scan(s.mode, s.buffer + more);
            && a.out == b.out && a.mode == b.mode
            && (a.mode == Outside ==> a.rest == b.rest)
            && (a.mode.Inside? ==> Kept(a.mode.tag, b.rest, a.rest))
  {
    hide Find, FindStartTag, FindEndTag, At, StartsTag, TagAt, PartialLen, OpenText, CloseText;
    if s.mode.Inside? {
      var tag := s.mode.tag;
      FindEndKept(tag, s.buffer, r.rest, more);
      var d := |r.rest| - |s.buffer|;
      var p := FindEndTag(s.buffer + more, tag, 0);
      assert (r.rest + more)[d..] == s.buffer + more;
      if p != -1 {
        assert (r.rest + more)[d + p..] == (s.buffer + more)[p..];
      }
    }
  }

  lemma TrimKeeps(tag: Tag, kept: string, rest: string)
    requires Kept(tag, kept, rest)
    ensures Kept(tag, Trim(tag, kept), rest)
  {
  }

  lemma {:induction false} StaleIsOutside(mode: Mode, text: string, mid: bool)
    requires Stale(mode, text, mid)
    ensures var r := Scan(mode, text); r.mode == Outside && (mid || |r.rest| < |text|)
    decreases |text|
  {
    hide Find, FindStartTag, FindEndTag, At, StartsTag, TagAt, PartialLen, OpenText, CloseText;
    match mode
    case Outside =>
      var p := FindStartTag(text, 0);
      if p != -1 {
        var rest := text[p + |OpenText(TagAt(text, p))|..];
        StaleIsOutside(Inside(TagAt(text, p)), rest, true);
        ScanRest(Inside(TagAt(text, p)), rest);
      }
    case Inside(tag) =>
      var p := FindEndTag(text, tag, 0);
      StaleIsOutside(Outside, text[p..], true);
      ScanRest(Outside, text[p..]);
  }

  lemma {:induction false} ScanRest(mode: Mode, text: string)
    ensures |Scan(mode, text).rest| <= |text|
    decreases |text|
  {
    hide Find, FindStartTag, FindEndTag, At, StartsTag, TagAt, PartialLen, OpenText, CloseText;
    match mode
    case Outside =>
      var p := FindStartTag(text, 0);
      if p != -1 {
        ScanRest(Inside(TagAt(text, p)), text[p + |OpenText(TagAt(text, p))|..]);
      }
    case Inside(tag) =>
      var p := FindEndTag(text, tag, 0);
      if p != -1 {
        ScanRest(Outside, text[p..]);
      }
  }

  /** One call emits exactly what scanning the longer text adds; the session stays faithful
      unless the stale branch is taken. */
  lemma StepTracks(s: State, fed: string, chunk: string)
    requires Tracks(s, Scan(Outside, fed))
    ensures var (out, s') := FilterStep(s, chunk);
            var r := Scan(Outside, fed + chunk);
            && r.out == Scan(Outside, fed).out + out
            && s'.mode == r.mode
            && (!TakesStaleBranch(s, chunk) ==> Tracks(s', r))
            && (TakesStaleBranch(s, chunk) ==> s'.mode == Outside && |r.rest| < |s'.buffer|)
  {
    var r0 := Scan(Outside, fed);
    if chunk == "" {
      assert fed + chunk == fed;
    } else {
      ScanAppend(Outside, fed, chunk);
      ScanKept(s, r0, chunk);
      ScanPending(Outside, fed + chunk);
      hide Find, FindStartTag, FindEndTag, At, StartsTag, TagAt, PartialLen, OpenText, CloseText, Stale, Scan;
      var b := Scan(s.mode, s.buffer + chunk);
      var r := Scan(Outside, fed + chunk);
      if r.mode.Inside? {
        TrimKeeps(r.mode.tag, b.rest, r.rest);
      }
      if TakesStaleBranch(s, chunk) {
        StaleIsOutside(s.mode, s.buffer + chunk, false);
      }
    }
  }

  /** No call takes the stale branch. */
  ghost predicate NeverStale(chunks: seq<string>) {
    forall k | 0 <= k < |chunks| :: !TakesStaleBranch(Run(chunks[..k]).1, chunks[k])
  }

  /** Wherever the stream ends, the client has received the one-pass filter of what arrived. */
  ghost predicate CorrectAtEveryCut(chunks: seq<string>) {
    forall k | 0 <= k <= |chunks| :: Output(chunks[..k]) == Filter(Outside, Concat(chunks[..k]))
  }

  lemma {:induction false} RunTracks(chunks: seq<string>)
    requires NeverStale(chunks)
    ensures Tracks(Run(chunks).1, Scan(Outside, Concat(chunks)))
    ensures Run(chunks).0 == Scan(Outside, Concat(chunks)).out
  {
    if chunks != [] {
      var n := |chunks| - 1;
      var before := chunks[..n];
      forall k | 0 <= k < n ensures !TakesStaleBranch(Run(before[..k]).1, before[k]) {
        assert before[..k] == chunks[..k];
      }
      RunTracks(before);
      StepTracks(Run(before).1, Concat(before), chunks[n]);
    }
  }

  lemma ChunkingDoesNotMatter(chunks: seq<string>)
    requires NeverStale(chunks)
    ensures Output(chunks) == Filter(Outside, Concat(chunks))
  {
    RunTracks(chunks);
    FilterIsScan(Outside, Concat(chunks));
  }

  /** The call that takes the stale branch leaves the client, if the stream ends there, with
      text that was already consumed. */
  lemma StaleCallIsWrong(chunks: seq<string>, chunk: string)
    requires NeverStale(chunks) && TakesStaleBranch(Run(chunks).1, chunk)
    ensures Output(chunks + [chunk]) != Filter(Outside, Concat(chunks + [chunk]))
  {
    RunTracks(chunks);
    var fed := Concat(chunks);
    StepTracks(Run(chunks).1, fed, chunk);
    FilterIsScan(Outside, fed + chunk);
    assert (chunks + [chunk])[..|chunks|] == chunks;
    assert Output(chunks + [chunk]) == Scan(Outside, fed + chunk).out + Run(chunks + [chunk]).1.buffer;
  }

  /** Feeding is independent of the chunking, at every cut, exactly when no call takes that branch. */
  lemma CorrectIffNeverStale(chunks: seq<string>)
    ensures CorrectAtEveryCut(chunks) <==> NeverStale(chunks)
  {
    hide Run, TakesStaleBranch, Concat, Output, Filter;
    if NeverStale(chunks) {
      forall k | 0 <= k <= |chunks| ensures Output(chunks[..k]) == Filter(Outside, Concat(chunks[..k])) {
        NeverStalePrefix(chunks, k);
        ChunkingDoesNotMatter(chunks[..k]);
      }
    } else {
      var k := FirstStale(chunks);
      StaleCallIsWrong(chunks[..k], chunks[k]);
      assert chunks[..k] + [chunks[k]] == chunks[..k + 1];
    }
  }

  lemma NeverStalePrefix(chunks: seq<string>, n: nat)
    requires NeverStale(chunks) && n <= |chunks|
    ensures NeverStale(chunks[..n])
  {
    forall k | 0 <= k < n ensures !TakesStaleBranch(Run(chunks[..n][..k]).1, chunks[..n][k]) {
      assert chunks[..n][..k] == chunks[..k];
    }
  }

  lemma {:induction false} FirstStale(chunks: seq<string>) returns (k: nat)
    requires !NeverStale(chunks)
    ensures k < |chunks| && NeverStale(chunks[..k]) && TakesStaleBranch(Run(chunks[..k]).1, chunks[k])
  {
    hide Run, TakesStaleBranch;
    var n := |chunks| - 1;
    if NeverStale(chunks[..n]) {
      k := n;
      forall j | 0 <= j < n ensures !TakesStaleBranch(Run(chunks[..j]).1, chunks[j]) {
        assert chunks[..n][..j] == chunks[..j];
      }
    } else {
      k := FirstStale(chunks[..n]);
      assert chunks[..n][..k] == chunks[..k];
    }
  }

  /** The failing family has members: here text comes out twice, and the closed block with it. */
  lemma StaleExample()
    ensures var chunk := "a" + BUBBLE + "x" + BUBBLE + "<";
            Output([chunk]) == "a" + chunk && Filter(Outside, chunk) == "a<"
  {
    hide Find, FindStartTag, FindEndTag, At, StartsTag, TagAt, PartialLen, Scan, Stale, FilterStep;
    var chunk := "a" + BUBBLE + "x" + BUBBLE + "<";
    ExampleScan();
    StepOn(INIT, chunk);
    assert "" + chunk == chunk && "" + "a" == "a" && [chunk][..0] == [];
    assert FilterStep(INIT, chunk) == ("a", State(Outside, chunk));
    assert Run([chunk][..0]) == ("", INIT);
    assert Run([chunk]) == ("" + "a", State(Outside, chunk));
    FilterIsScan(Outside, chunk);
  }

  lemma ExampleScan()
    ensures var text := "a" + BUBBLE + "x" + BUBBLE + "<";
            Scan(Outside, text) == Scanned("a", Outside, "<") && Stale(Outside, text, false)
  {
    hide Find, FindStartTag, FindEndTag, At, StartsTag, TagAt, PartialLen, Scan, Stale;
    var text := "a" + BUBBLE + "x" + BUBBLE + "<";
    ExampleTags("<");
    StepOpens(text, 0, false);
    StepCloses(text, Bubble, 2, true);
    ExampleTail(text);
    StepPlain(text, 4);
    assert text[0..] == text && text[0..1] == "a" && text[4..4] == "" && text[4..] == "<";
  }

  lemma ExampleTail(text: string)
    requires text == "a" + BUBBLE + "x" + BUBBLE + "<"
    ensures FindStartTag(text, 4) == -1 && PartialLen(text) == 1
  {
    assert THINK_OPEN[0] == text[4] == '<' != BUBBLE[0];
    HintAfterTag(text, 4);
    assert EndsWithHint(text, 1);
  }

  lemma ExampleTags(tail: string)
    ensures var text := "a" + BUBBLE + "x" + BUBBLE + tail;
            && FindStartTag(text, 0) == 1 && TagAt(text, 1) == Bubble
            && FindEndTag(text, Bubble, 2) == 4
  {
    var text := "a" + BUBBLE + "x" + BUBBLE + tail;
    assert text[0] == 'a' && text[1] == BUBBLE[0] && text[2] == 'x' && text[3] == BUBBLE[0];
    assert At(text, BUBBLE, 1) && At(text, BUBBLE, 3) && !At(text, BUBBLE, 0) && !At(text, BUBBLE, 2);
    assert THINK_OPEN[0] == '<';
    TagsDiffer(text, 1);
    assert !At(text, THINK_OPEN, 0);
    assert Find(text, BUBBLE, 0) == Find(text, BUBBLE, 1) == 1;
    assert Find(text, BUBBLE, 2) == Find(text, BUBBLE, 3) == 3;
  }

  // ----- what is filtered, in so many words -----

  predicate HasAt(text: string, word: string, i: nat) {
    i + |word| <= |text| && text[i..i + |word|] == word
  }

  predicate Contains(text: string, word: string) {
    exists i | 0 <= i <= |text| :: HasAt(text, word, i)
  }

  /** Neither `<think>` nor the thought bubble. */
  predicate Plain(text: string) {
    !Contains(text, "<think>") && !Contains(text, "\U{1F4AD}")
  }

  lemma AtIsSlice(text: string, word: string, i: nat)
    ensures At(text, word, i) <==> HasAt(text, word, i)
  {
    if i + |word| <= |text| {
      var slice := text[i..i + |word|];
      assert forall k | 0 <= k < |word| :: slice[k] == text[i + k];
    }
  }

  lemma NotContained(text: string, word: string, i: int)
    requires !Contains(text, word)
    ensures !At(text, word, i)
  {
    if At(text, word, i) { AtIsSlice(text, word, i); }
  }

  /** Behind a text without it, a word that starts with a letter of its own is found where it was put. */
  lemma FoundBehind(before: string, word: string, after: string)
    requires word != "" && !Contains(before, word) && forall k | 0 < k < |word| :: word[k] != word[0]
    ensures Find(before + word + after, word, 0) == |before|
  {
    var text := before + word + after;
    AtIsSlice(text, word, |before|);
    assert text[|before|..|before| + |word|] == word;
    assert At(text, word, |before|);
    hide At, Contains;
    var q := Find(text, word, 0);
    if q == -1 || |before| < q {
      FindIsFirst(text, word, 0, |before|);
    } else if q < |before| {
      OnlyInside(before, word, word, after, q);
    }
  }

  /** No word reaches from the text over the beginning of another whose first letter it has at its own beginning at
      most. */
  lemma OnlyInside(before: string, word: string, other: string, after: string, q: nat)
    requires other != "" && !Contains(before, word) && forall k | 0 < k < |word| :: word[k] != other[0]
    requires q < |before|
    ensures !At(before + other + after, word, q)
  {
    hide At, Contains;
    var text := before + other + after;
    if q + |word| <= |before| {
      SameBefore(before, other + after, word, q);
      assert before + (other + after) == text;
    } else if At(text, word, q) {
      Across(text, word, q, |before|);
    }
  }

  lemma Across(text: string, word: string, q: nat, n: nat)
    requires At(text, word, q) && q <= n < q + |word|
    ensures text[n] == word[n - q]
  {
    assert text[q + (n - q)] == word[n - q];
  }

  lemma SameBefore(before: string, after: string, word: string, q: nat)
    requires !Contains(before, word) && q + |word| <= |before|
    ensures !At(before + after, word, q)
  {
    AtAppend(before, after, word, q);
    NotContained(before, word, q);
  }

  lemma NotFound(text: string, word: string)
    requires !Contains(text, word)
    ensures Find(text, word, 0) == -1
  {
    if Find(text, word, 0) != -1 { NotContained(text, word, Find(text, word, 0)); }
  }

  /** A text without a word has none before another word that follows it. */
  lemma NotBefore(before: string, word: string, other: string, after: string)
    requires other != "" && !Contains(before, word) && forall k | 0 < k < |word| :: word[k] != other[0]
    ensures var q := Find(before + other + after, word, 0); q == -1 || q >= |before|
  {
    hide At, Contains;
    var q := Find(before + other + after, word, 0);
    if 0 <= q < |before| { OnlyInside(before, word, other, after, q); }
  }

  lemma OpensBehind(a: string, tag: Tag, rest: string)
    requires Plain(a)
    ensures var open := if tag == Think then "<think>" else "\U{1F4AD}";
            Filter(Outside, a + open + rest) == a + Filter(Inside(tag), rest)
  {
    hide Contains, Find, Filter;
    var open := if tag == Think then "<think>" else "\U{1F4AD}";
    var text := a + open + rest;
    FoundBehind(a, open, rest);
    NotBefore(a, if tag == Think then "\U{1F4AD}" else "<think>", open, rest);
    assert FindStartTag(text, 0) == |a|;
    FilterOpens(text, |a|);
    TagsDiffer(text, |a|);
    assert text[..|a|] == a && text[|a| + |open|..] == rest;
  }

  lemma FilterOpens(text: string, p: nat)
    requires FindStartTag(text, 0) == p
    ensures var tag := TagAt(text, p);
            p + |OpenText(tag)| <= |text|
            && Filter(Outside, text) == text[..p] + Filter(Inside(tag), text[p + |OpenText(tag)|..])
  {
    hide Find, FindStartTag, FindEndTag, At, StartsTag, TagAt, OpenText, CloseText;
  }

  lemma ClosesBehind(b: string, tag: Tag, c: string)
    requires !Contains(b, if tag == Think then "</think>" else "\U{1F4AD}")
    ensures Filter(Inside(tag), b + (if tag == Think then "</think>" else "\U{1F4AD}") + c) == Filter(Outside, c)
  {
    hide Contains, Find;
    var close := if tag == Think then "</think>" else "\U{1F4AD}";
    FoundBehind(b, close, c);
    assert (b + close + c)[|b| + |close|..] == c;
  }

  /** Text without a tag is passed on; of text with one, what comes before the block and the filter of what comes after
      it. A block begins with `<think>` and ends with the next `</think>`. */
  lemma ThinkBlockIsDropped(a: string, b: string, c: string)
    requires Plain(a) && !Contains(b, "</think>")
    ensures Filter(Outside, a + "<think>" + b + "</think>" + c) == a + Filter(Outside, c)
    ensures Filter(Outside, a + "<think>" + b) == a
    ensures Filter(Outside, a) == a
  {
    hide Filter, Find;
    OpensBehind(a, Think, b + "</think>" + c);
    ClosesBehind(b, Think, c);
    assert a + "<think>" + b + "</think>" + c == a + "<think>" + (b + "</think>" + c);
    OpensBehind(a, Think, b);
    NeverCloses(b, Think);
    NeverOpens(a);
  }

  /** Or it begins with a thought bubble and ends with the next one. */
  lemma BubbleBlockIsDropped(a: string, b: string, c: string)
    requires Plain(a) && !Contains(b, "\U{1F4AD}")
    ensures Filter(Outside, a + "\U{1F4AD}" + b + "\U{1F4AD}" + c) == a + Filter(Outside, c)
    ensures Filter(Outside, a + "\U{1F4AD}" + b) == a
  {
    hide Filter, Find;
    OpensBehind(a, Bubble, b + "\U{1F4AD}" + c);
    ClosesBehind(b, Bubble, c);
    assert a + "\U{1F4AD}" + b + "\U{1F4AD}" + c == a + "\U{1F4AD}" + (b + "\U{1F4AD}" + c);
    OpensBehind(a, Bubble, b);
    NeverCloses(b, Bubble);
  }

  lemma NeverCloses(b: string, tag: Tag)
    requires !Contains(b, if tag == Think then "</think>" else "\U{1F4AD}")
    ensures Filter(Inside(tag), b) == ""
  {
    hide Contains, Find;
    NotFound(b, if tag == Think then "</think>" else "\U{1F4AD}");
  }

  lemma NeverOpens(a: string)
    requires Plain(a)
    ensures Filter(Outside, a) == a
  {
    hide Contains, Find;
    NotFound(a, "<think>");
    NotFound(a, "\U{1F4AD}");
  }

  /** What a session holds back is little: outside a block a proper beginning of `<think>`, so that all else is out;
      inside one no more than 1024 * 1024 characters. */
  lemma HoldsLittle(chunks: seq<string>)
    requires NeverStale(chunks)
    ensures var (out, s) := Run(chunks);
            match s.mode
            case Outside =>
              && |s.buffer| < 7 && s.buffer == "<think>"[..|s.buffer|]
              && Filter(Outside, Concat(chunks)) == out + s.buffer
            case Inside(_) => |s.buffer| <= 1024 * 1024 && Filter(Outside, Concat(chunks)) == out
  {
    RunTracks(chunks);
    FilterIsScan(Outside, Concat(chunks));
    RunHolds(chunks);
    ScanHolds(Outside, Concat(chunks));
    hide Run, Filter, Scan, FindEndTag, NeverStale;
  }

  lemma HintIs(text: string)
    ensures var n := PartialLen(text); text[|text| - n..] == "<think>"[..n]
  {
    var n := PartialLen(text);
    var tail, hint := text[|text| - n..], "<think>"[..n];
    assert EndsWithHint(text, n);
    forall k | 0 <= k < n ensures tail[k] == hint[k] {
      assert text[|text| - n + k] == THINK_OPEN[k];
    }
  }

  /** An unclosed block is kept whole up to 1024 * 1024 characters; beyond that only what may be the beginning of its
      end tag is. */
  lemma KeepsUnclosed(s: State, chunk: string)
    requires chunk != ""
    ensures var r, kept := Scan(s.mode, s.buffer + chunk), FilterStep(s, chunk).1.buffer;
            match r.mode
            case Outside => true
            case Inside(tag) =>
              if |r.rest| <= 1024 * 1024 then kept == r.rest
              else if tag == Think then kept == r.rest[|r.rest| - 7..]
              else kept == ""
  {
    hide Scan, Stale;
  }

  /** The scan holds back a hint outside a block. */
  lemma {:induction false} ScanHolds(mode: Mode, text: string)
    ensures var r := Scan(mode, text);
            r.mode == Outside ==> |r.rest| < 7 && r.rest == "<think>"[..|r.rest|]
    decreases |text|
  {
    hide FindStartTag, FindEndTag, TagAt, PartialLen, StartsTag, OpenText, CloseText, At, EndsWithHint;
    match mode
    case Outside =>
      var p := FindStartTag(text, 0);
      if p == -1 {
        HintIs(text);
      } else {
        ScanHolds(Inside(TagAt(text, p)), text[p + |OpenText(TagAt(text, p))|..]);
      }
    case Inside(tag) =>
      var p := FindEndTag(text, tag, 0);
      if p != -1 { ScanHolds(Outside, text[p..]); }
  }

  lemma {:induction false} RunHolds(chunks: seq<string>)
    ensures var s := Run(chunks).1; s.mode.Inside? ==> |s.buffer| <= 1024 * 1024
  {
    hide Scan, Stale;
    if chunks != [] { RunHolds(chunks[..|chunks| - 1]); }
  }

  // ----- the filter object -----

  /** `in_think` and `_think_start_tag` always change together; they are the one field `mode`. */
  class StreamFilter {
    var buffer: string
    var mode: Mode

    ghost function View(): State
      reads this
    {
      State(mode, buffer)
    }

    constructor ()
      ensures View() == INIT
    {
      buffer, mode := "", Outside;
    }

    method PartialStartTagLen(text: string) returns (maxLen: nat)
      ensures maxLen == PartialLen(text)
    {
      maxLen := 0;
      for length := 1 to |THINK_OPEN|
        invariant maxLen < length && EndsWithHint(text, maxLen)
        invariant forall k :: maxLen < k < length ==> !EndsWithHint(text, k)
      {
        if EndsWithHint(text, length) {
          maxLen := length;
        }
      }
    }

    method Feed(chunk: string) returns (result: string)
      modifies this
      ensures (result, View()) == FilterStep(old(View()), chunk)
    {
      hide Find, FindStartTag, FindEndTag, At, StartsTag, TagAt, PartialLen, Scan, Stale, FilterStep;
      ghost var s := View();
      if chunk == "" {
        StepOn(s, chunk);
        return "";
      }
      buffer := buffer + chunk;
      result := "";
      ghost var text := buffer;
      var i := 0;
      assert text[0..] == text;
      while i < |buffer|
        invariant 0 <= i <= |buffer| && buffer == text
        invariant var r := Scan(mode, text[i..]);
                  Scan(s.mode, text) == Scanned(result + r.out, r.mode, r.rest)
        invariant Stale(s.mode, text, false) == Stale(mode, text[i..], 0 < i)
        invariant mode == Outside && 0 < i ==> text[i - 1] == '>' || text[i - 1] == BUBBLE[0]
      {
        if mode.Inside? {
          var tag := mode.tag;
          var endPos := FindEndTag(buffer, tag, i);
          if endPos == -1 {
            StepPending(text, tag, i);
            StepOn(s, chunk);
            assert result + "" == result;
            var pending := buffer[i..];
            if |pending| > MAX_UNCLOSED_THINK_BUFFER {
              var suffixLength := if tag == Think then |THINK_CLOSE| - 1 else 0;
              pending := pending[|pending| - suffixLength..];
            }
            buffer := pending;
            return;
          }
          StepCloses(text, tag, i, 0 < i);
          mode, i := Outside, endPos;
        } else {
          var startPos := FindStartTag(buffer, i);
          if startPos == -1 {
            StepPlain(text, i);
            StepOn(s, chunk);
            var partial := PartialStartTagLen(buffer);
            var safeLen := |buffer| - partial;
            assert safeLen == i ==> result + text[i..safeLen] == result && (i == 0 ==> text[safeLen..] == text);
            if safeLen > i {
              result := result + buffer[i..safeLen];
              buffer := buffer[safeLen..];
            }
            return;
          }
          StepOpens(text, i, 0 < i);
          var tag := TagAt(buffer, startPos);
          result := result + buffer[i..startPos];
          mode, i := Inside(tag), startPos + |OpenText(tag)|;
        }
      }
      ScanEmpty(mode, 0 < i);
      StepOn(s, chunk);
      assert text[i..] == "" && result + "" == result;
      buffer := "";
    }

    method Flush() returns (result: string)
      modifies this
      ensures View() == INIT
      ensures result == FlushText(old(View()))
    {
      if mode.Inside? {
        buffer, mode := "", Outside;
        return "";
      }
      result := buffer;
      buffer := "";
    }
  }

  lemma FindEndSlice(text: string, tag: Tag, from: nat)
    requires from <= |text|
    ensures var a, b := FindEndTag(text, tag, from), FindEndTag(text[from..], tag, 0);
            a == if b == -1 then -1 else from + b
  {
    FindSlice(text, CloseText(tag), from);
  }

  lemma FindStartSlice(text: string, from: nat)
    requires from <= |text|
    ensures var a, b := FindStartTag(text, from), FindStartTag(text[from..], 0);
            a == if b == -1 then -1 else from + b
  {
    FindSlice(text, THINK_OPEN, from);
    FindSlice(text, BUBBLE, from);
  }

  /** A hint at the end of the buffer never reaches back into an end tag. */
  lemma HintAfterTag(text: string, i: nat)
    requires i <= |text| && (0 < i ==> text[i - 1] == '>' || text[i - 1] == BUBBLE[0])
    ensures PartialLen(text) <= |text| - i
  {
    var n := PartialLen(text);
    forall k | |text| - n <= k < |text| ensures text[k] == THINK_OPEN[k - (|text| - n)] {
    }
  }

  lemma EndTagLast(text: string, tag: Tag, r: int)
    requires |CloseText(tag)| <= r <= |text| && At(text, CloseText(tag), r - |CloseText(tag)|)
    ensures text[r - 1] == '>' || text[r - 1] == BUBBLE[0]
  {
    var close := CloseText(tag);
    assert close[|close| - 1] == '>' || close[|close| - 1] == BUBBLE[0];
  }

  // ----- one turn of the loop of `feed`, at cursor `i` -----

  lemma StepPending(text: string, tag: Tag, i: nat)
    requires i <= |text| && FindEndTag(text, tag, i) == -1
    ensures Scan(Inside(tag), text[i..]) == Scanned("", Inside(tag), text[i..])
  {
    FindEndSlice(text, tag, i);
  }

  lemma StepCloses(text: string, tag: Tag, i: nat, mid: bool)
    requires i <= |text| && FindEndTag(text, tag, i) != -1
    ensures var p := FindEndTag(text, tag, i);
            && Scan(Inside(tag), text[i..]) == Scan(Outside, text[p..])
            && Stale(Inside(tag), text[i..], mid) == Stale(Outside, text[p..], true)
            && (text[p - 1] == '>' || text[p - 1] == BUBBLE[0])
  {
    hide Find, FindStartTag, FindEndTag, At, StartsTag, TagAt, PartialLen, CloseText;
    var p := FindEndTag(text, tag, i);
    FindEndSlice(text, tag, i);
    EndTagLast(text, tag, p);
    assert text[i..][p - i..] == text[p..];
  }

  lemma StepOpens(text: string, i: nat, mid: bool)
    requires i <= |text| && FindStartTag(text, i) != -1
    ensures var p := FindStartTag(text, i);
            var tag := TagAt(text, p);
            var r := Scan(Inside(tag), text[p + |OpenText(tag)|..]);
            && Scan(Outside, text[i..]) == Scanned(text[i..p] + r.out, r.mode, r.rest)
            && Stale(Outside, text[i..], mid) == Stale(Inside(tag), text[p + |OpenText(tag)|..], true)
  {
    hide Find, FindStartTag, FindEndTag, At, StartsTag, TagAt, PartialLen, OpenText;
    FindStartSlice(text, i);
    var p := FindStartTag(text, i);
    TagSlice(text, i, p - i);
    var n := |OpenText(TagAt(text, p))|;
    assert text[i..][p - i + n..] == text[p + n..];
    assert text[i..][..p - i] == text[i..p];
  }

  lemma StepPlain(text: string, i: nat)
    requires i < |text| && FindStartTag(text, i) == -1
    requires 0 < i ==> text[i - 1] == '>' || text[i - 1] == BUBBLE[0]
    ensures var safe := |text| - PartialLen(text);
            && i <= safe
            && Scan(Outside, text[i..]) == Scanned(text[i..safe], Outside, text[safe..])
            && Stale(Outside, text[i..], 0 < i) == (0 < i && i == safe)
  {
    hide Find, FindStartTag, FindEndTag, At, StartsTag, TagAt, PartialLen, EndsWithHint;
    FindStartSlice(text, i);
    HintAfterTag(text, i);
    PartialLenSlice(text, i);
    var safe := |text| - PartialLen(text);
    assert text[i..][..safe - i] == text[i..safe];
    assert text[i..][safe - i..] == text[safe..];
  }

  /** `FilterStep` in terms of the scan of the new buffer. */
  lemma StepOn(s: State, chunk: string)
    ensures chunk == "" ==> FilterStep(s, chunk) == ("", s)
    ensures chunk != "" ==>
              var text := s.buffer + chunk;
              var r := Scan(s.mode, text);
              FilterStep(s, chunk) == (r.out, State(r.mode, match r.mode
                case Inside(tag) => Trim(tag, r.rest)
                case Outside => if Stale(s.mode, text, false) then text else r.rest))
  {
  }

  lemma ScanEmpty(mode: Mode, mid: bool)
    ensures Scan(mode, "") == Scanned("", mode, "") && !Stale(mode, "", mid)
  {
  }
}
