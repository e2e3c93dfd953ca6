/**
 Sensitive spans (pii_engine.py, pii_filter.py, pii_operators.py): overlapping candidates are resolved
 greedily, longest first, and the spans that are kept are replaced in place from right to left.
 */
module Pii {

  /** One hit of a rule, from `start` to before `end`. */
  datatype Span = Span(entity: string, start: nat, end: nat)

  predicate Within(s: Span, n: nat) {
    s.start <= s.end <= n
  }

  predicate AllWithin(spans: seq<Span>, n: nat) {
    forall i | 0 <= i < |spans| :: Within(spans[i], n)
  }

  /** The test of `_resolve_overlaps`; an empty span overlaps only what it is strictly inside of. */
  predicate Overlaps(a: Span, b: Span) {
    !(a.end <= b.start || a.start >= b.end)
  }

  function Length(s: Span): int {
    s.end - s.start
  }

  // ----- stable sorting -----

  /** The order by which candidates compete: longer first, then further left. */
  predicate Beats(a: Span, b: Span) {
    Length(a) > Length(b) || (Length(a) == Length(b) && a.start <= b.start)
  }

  /** The order by position. */
  predicate Left(a: Span, b: Span) {
    a.start < b.start || (a.start == b.start && a.end <= b.end)
  }

  function Place(sorted: seq<Span>, s: Span, before: (Span, Span) -> bool): seq<Span> {
    if sorted == [] then [s]
    else if before(sorted[|sorted| - 1], s) then sorted + [s]
    else Place(sorted[..|sorted| - 1], s, before) + [sorted[|sorted| - 1]]
  }

  /** Later elements go behind equal ones. */
  function Sort(spans: seq<Span>, before: (Span, Span) -> bool): seq<Span> {
    if spans == [] then [] else Place(Sort(spans[..|spans| - 1], before), spans[|spans| - 1], before)
  }

  ghost predicate Total(before: (Span, Span) -> bool) {
    && (forall a, b :: before(a, b) || before(b, a))
    && (forall a, b, c :: before(a, b) && before(b, c) ==> before(a, c))
  }

  ghost predicate Ordered(spans: seq<Span>, before: (Span, Span) -> bool) {
    forall i, j | 0 <= i < j < |spans| :: before(spans[i], spans[j])
  }

  lemma {:induction false} PlaceKeeps(sorted: seq<Span>, s: Span, before: (Span, Span) -> bool)
    ensures multiset(Place(sorted, s, before)) == multiset(sorted) + multiset{s}
  {
    if sorted != [] && !before(sorted[|sorted| - 1], s) {
      var n := |sorted| - 1;
      PlaceKeeps(sorted[..n], s, before);
      assert sorted == sorted[..n] + [sorted[n]];
    }
  }

  lemma {:induction false} PlaceOrders(sorted: seq<Span>, s: Span, before: (Span, Span) -> bool)
    requires Total(before) && Ordered(sorted, before)
    ensures Ordered(Place(sorted, s, before), before)
  {
    if sorted != [] {
      var n := |sorted| - 1;
      var rest := Place(sorted[..n], s, before);
      if !before(sorted[n], s) {
        PlaceOrders(sorted[..n], s, before);
        PlaceKeeps(sorted[..n], s, before);
        forall i | 0 <= i < |rest| ensures before(rest[i], sorted[n]) {
          assert rest[i] in multiset(rest);
          if rest[i] != s {
            assert rest[i] in sorted[..n];
          }
        }
      }
    }
  }

  lemma {:induction false} SortOrders(spans: seq<Span>, before: (Span, Span) -> bool)
    requires Total(before)
    ensures Ordered(Sort(spans, before), before) && multiset(Sort(spans, before)) == multiset(spans)
  {
    hide Place, Total, Ordered;
    if spans == [] {
      NothingSorted(before);
    } else {
      var n := |spans| - 1;
      SortOrders(spans[..n], before);
      PlaceOrders(Sort(spans[..n], before), spans[n], before);
      PlaceKeeps(Sort(spans[..n], before), spans[n], before);
      assert spans == spans[..n] + [spans[n]];
    }
  }

  lemma NothingSorted(before: (Span, Span) -> bool)
    ensures Ordered(Sort([], before), before) && Sort([], before) == []
  {
  }

  lemma OrdersAreTotal()
    ensures Total(Beats) && Total(Left)
  {
  }

  // ----- resolving overlaps -----

  predicate Clashes(kept: seq<Span>, s: Span) {
    exists i | 0 <= i < |kept| :: Overlaps(s, kept[i])
  }

  /** The greedy choice over candidates that compete in this order. */
  function Choose(sorted: seq<Span>): seq<Span> {
    if sorted == [] then []
    else
      var kept, s := Choose(sorted[..|sorted| - 1]), sorted[|sorted| - 1];
      if Clashes(kept, s) then kept else kept + [s]
  }

  /** `_resolve_overlaps` */
  function Resolve(candidates: seq<Span>): seq<Span> {
    Choose(Sort(candidates, Beats))
  }

  /** `analyze` without the matching: the resolved spans by position, in the order of the loop that replaces them. */
  function Analyze(candidates: seq<Span>): seq<Span> {
    Sort(Resolve(candidates), Left)
  }

  ghost predicate Disjoint(spans: seq<Span>) {
    forall i, j | 0 <= i < j < |spans| :: !Overlaps(spans[j], spans[i])
  }

  lemma {:induction false} ChooseDisjoint(sorted: seq<Span>)
    ensures Disjoint(Choose(sorted)) && forall s | s in Choose(sorted) :: s in sorted
  {
    if sorted != [] {
      hide Overlaps;
      ChooseDisjoint(sorted[..|sorted| - 1]);
    }
  }

  /** A candidate is kept, or it overlaps one that beats it and is kept. */
  lemma {:induction false} ChooseMaximal(sorted: seq<Span>, k: nat) returns (winner: Span)
    requires k < |sorted| && Ordered(sorted, Beats)
    ensures winner in Choose(sorted)
    ensures winner == sorted[k] || (Overlaps(sorted[k], winner) && Beats(winner, sorted[k]))
  {
    hide Overlaps, Beats;
    var n := |sorted| - 1;
    if k < n {
      winner := ChooseMaximal(sorted[..n], k);
    } else {
      var kept := Choose(sorted[..n]);
      if Clashes(kept, sorted[n]) {
        var i :| 0 <= i < |kept| && Overlaps(sorted[n], kept[i]);
        winner := kept[i];
        ChooseDisjoint(sorted[..n]);
        assert winner in kept;
        var j :| 0 <= j < n && sorted[..n][j] == winner;
        assert Beats(sorted[j], sorted[n]);
      } else {
        winner := sorted[n];
      }
    }
  }

  /** The spans that are kept are candidates, do not overlap, and every candidate that is dropped overlaps a kept
      one that is longer, or as long and not further right. */
  lemma ResolveIsGreedy(candidates: seq<Span>, c: Span) returns (winner: Span)
    requires c in candidates
    ensures Disjoint(Resolve(candidates)) && forall s | s in Resolve(candidates) :: s in candidates
    ensures winner in Resolve(candidates)
    ensures winner == c ||
            (winner.start < c.end && c.start < winner.end
             && (winner.end - winner.start > c.end - c.start
                 || (winner.end - winner.start == c.end - c.start && winner.start <= c.start)))
  {
    OrdersAreTotal();
    var sorted := Sort(candidates, Beats);
    SortOrders(candidates, Beats);
    ChooseDisjoint(sorted);
    hide Sort, Choose, Beats, Overlaps, Disjoint;
    forall s | s in Choose(sorted) ensures s in candidates {
      assert s in multiset(sorted);
    }
    assert c in multiset(candidates);
    var k :| 0 <= k < |sorted| && sorted[k] == c;
    winner := ChooseMaximal(sorted, k);
    if winner != c { BeatsMeans(winner, c); }
  }

  lemma BeatsMeans(a: Span, b: Span)
    requires Beats(a, b) && Overlaps(b, a)
    ensures a.start < b.end && b.start < a.end
    ensures a.end - a.start > b.end - b.start || (a.end - a.start == b.end - b.start && a.start <= b.start)
  {
  }

  // ----- substitution -----

  /** Spans from left to right, each ending before the next begins. */
  ghost predicate Lined(spans: seq<Span>) {
    forall i, j | 0 <= i < j < |spans| :: spans[i].end <= spans[j].start
  }

  lemma SameElements(a: seq<Span>, b: seq<Span>, s: Span)
    requires multiset(a) == multiset(b)
    ensures s in a <==> s in b
  {
    assert s in multiset(a) <==> s in multiset(b);
  }

  ghost predicate PairwiseClear(spans: seq<Span>) {
    forall i, j | 0 <= i < |spans| && 0 <= j < |spans| && i != j :: !Overlaps(spans[i], spans[j])
  }

  lemma ClearIsDisjoint(spans: seq<Span>)
    requires Disjoint(spans)
    ensures PairwiseClear(spans)
  {
  }

  lemma {:induction false} PlaceClear(sorted: seq<Span>, s: Span, before: (Span, Span) -> bool)
    requires PairwiseClear(sorted) && forall i | 0 <= i < |sorted| :: !Overlaps(s, sorted[i]) && !Overlaps(sorted[i], s)
    ensures PairwiseClear(Place(sorted, s, before))
  {
    hide Overlaps;
    if sorted != [] && !before(sorted[|sorted| - 1], s) {
      var n := |sorted| - 1;
      PlaceClear(sorted[..n], s, before);
      PlaceKeeps(sorted[..n], s, before);
      var rest := Place(sorted[..n], s, before);
      forall i | 0 <= i < |rest| ensures !Overlaps(rest[i], sorted[n]) && !Overlaps(sorted[n], rest[i]) {
        assert rest[i] in multiset(rest);
        if rest[i] != s { assert rest[i] in sorted[..n]; }
      }
    }
  }

  lemma {:induction false} SortClear(spans: seq<Span>, before: (Span, Span) -> bool)
    requires PairwiseClear(spans) && Total(before)
    ensures PairwiseClear(Sort(spans, before))
  {
    hide Overlaps, Total;
    if spans != [] {
      var n := |spans| - 1;
      SortClear(spans[..n], before);
      SortOrders(spans[..n], before);
      var sorted := Sort(spans[..n], before);
      forall i | 0 <= i < |sorted| ensures !Overlaps(spans[n], sorted[i]) && !Overlaps(sorted[i], spans[n]) {
        SameElements(sorted, spans[..n], sorted[i]);
        var j :| 0 <= j < n && spans[..n][j] == sorted[i];
        assert spans[j] == sorted[i];
      }
      PlaceClear(sorted, spans[n], before);
    }
  }

  /** By position, the analyzed spans line up, and they are within the text if the candidates are. */
  lemma AnalyzedLineUp(candidates: seq<Span>, n: nat)
    requires AllWithin(candidates, n)
    ensures Lined(Analyze(candidates)) && AllWithin(Analyze(candidates), n)
    ensures multiset(Analyze(candidates)) == multiset(Resolve(candidates))
  {
    OrdersAreTotal();
    var kept := Resolve(candidates);
    SortOrders(candidates, Beats);
    ChooseDisjoint(Sort(candidates, Beats));
    ClearIsDisjoint(kept);
    SortClear(kept, Left);
    SortOrders(kept, Left);
    var out := Sort(kept, Left);
    hide Sort, Choose, Total, Beats, Disjoint;
    forall i | 0 <= i < |out| ensures Within(out[i], n) {
      SameElements(out, kept, out[i]);
      SameElements(Sort(candidates, Beats), candidates, out[i]);
    }
    forall i, j | 0 <= i < j < |out| ensures out[i].end <= out[j].start {
      assert Left(out[i], out[j]) && !Overlaps(out[i], out[j]);
    }
  }

  /** One in-place edit. */
  function EditOne(text: string, s: Span, edit: (Span, string) -> string): string
    requires Within(s, |text|)
  {
    text[..s.start] + edit(s, text[s.start..s.end]) + text[s.end..]
  }

  /** The loop: the rightmost span first. */
  function RightToLeft(text: string, spans: seq<Span>, edit: (Span, string) -> string): string
    requires Lined(spans) && AllWithin(spans, |text|)
    decreases |spans|
  {
    if spans == [] then text
    else
      var n := |spans| - 1;
      EarlierStay(text, spans, edit);
      RightToLeft(EditOne(text, spans[n], edit), spans[..n], edit)
  }

  lemma EarlierStay(text: string, spans: seq<Span>, edit: (Span, string) -> string)
    requires Lined(spans) && AllWithin(spans, |text|) && spans != []
    ensures Lined(spans[..|spans| - 1]) && AllWithin(spans[..|spans| - 1], |EditOne(text, spans[|spans| - 1], edit)|)
    ensures AllWithin(spans[..|spans| - 1], spans[|spans| - 1].start)
  {
  }

  /** All spans replaced at once: what is outside of them is copied, each of them is edited as it is in `text`. */
  function AtOnce(text: string, from: nat, spans: seq<Span>, edit: (Span, string) -> string): string
    requires Lined(spans) && AllWithin(spans, |text|) && from <= |text|
    requires spans != [] ==> from <= spans[0].start
    decreases |spans|
  {
    if spans == [] then text[from..]
    else
      text[from..spans[0].start] + edit(spans[0], text[spans[0].start..spans[0].end])
      + AtOnce(text, spans[0].end, spans[1..], edit)
  }

  /** What lies behind the spans is copied. */
  lemma {:induction false} BehindIsCopied(text: string, behind: string, spans: seq<Span>,
                                          edit: (Span, string) -> string)
    requires Lined(spans) && AllWithin(spans, |text|)
    ensures RightToLeft(text + behind, spans, edit) == RightToLeft(text, spans, edit) + behind
    decreases |spans|
  {
    if spans != [] {
      var n := |spans| - 1;
      EarlierStay(text, spans, edit);
      EarlierStay(text + behind, spans, edit);
      var one := EditOne(text, spans[n], edit);
      EditBehind(text, behind, spans[n], edit);
      BehindIsCopied(one, behind, spans[..n], edit);
    }
  }

  lemma EditBehind(text: string, behind: string, s: Span, edit: (Span, string) -> string)
    requires Within(s, |text|)
    ensures EditOne(text + behind, s, edit) == EditOne(text, s, edit) + behind
  {
    assert (text + behind)[..s.start] == text[..s.start];
    assert (text + behind)[s.start..s.end] == text[s.start..s.end];
    assert (text + behind)[s.end..] == text[s.end..] + behind;
  }

  lemma Slices(text: string, a: nat, b: nat, n: nat)
    requires a <= b <= n <= |text|
    ensures text[..n][a..b] == text[a..b]
  {
  }

  lemma AtOnceFirst(text: string, from: nat, spans: seq<Span>, edit: (Span, string) -> string)
    requires Lined(spans) && AllWithin(spans, |text|) && spans != [] && from <= spans[0].start
    ensures Lined(spans[1..]) && AllWithin(spans[1..], |text|)
    ensures |spans| > 1 ==> spans[0].end <= spans[1..][0].start
    ensures AtOnce(text, from, spans, edit) ==
            text[from..spans[0].start] + edit(spans[0], text[spans[0].start..spans[0].end])
            + AtOnce(text, spans[0].end, spans[1..], edit)
  {
  }

  /** The replacement is that of all spans but the last, and then the last. */
  ghost predicate SplitsLast(text: string, from: nat, spans: seq<Span>, edit: (Span, string) -> string)
    requires spans != [] && AllWithin(spans, |text|) && Lined(spans) && from <= spans[0].start
  {
    var last, init := spans[|spans| - 1], spans[..|spans| - 1];
    && Lined(init) && AllWithin(init, last.start) && from <= last.start && (init != [] ==> from <= init[0].start)
    && AtOnce(text, from, spans, edit) ==
       AtOnce(text[..last.start], from, init, edit) + edit(last, text[last.start..last.end]) + text[last.end..]
  }

  lemma {:induction false} AtOnceLast(text: string, from: nat, spans: seq<Span>, edit: (Span, string) -> string)
    requires Lined(spans) && AllWithin(spans, |text|) && spans != [] && from <= spans[0].start
    ensures SplitsLast(text, from, spans, edit)
    decreases |spans|
  {
    if |spans| == 1 {
      OnlySpan(text, from, spans, edit);
    } else {
      AtOnceLast(text, spans[0].end, spans[1..], edit);
      SplitsOneMore(text, from, spans, edit);
    }
    hide SplitsLast, AtOnce;
  }

  lemma OnlySpan(text: string, from: nat, spans: seq<Span>, edit: (Span, string) -> string)
    requires Lined(spans) && AllWithin(spans, |text|) && |spans| == 1 && from <= spans[0].start
    ensures SplitsLast(text, from, spans, edit)
  {
    var last := spans[0];
    assert spans[..0] == [] && spans[1..] == [];
    assert text[..last.start][from..] == text[from..last.start];
  }

  lemma SplitsOneMore(text: string, from: nat, spans: seq<Span>, edit: (Span, string) -> string)
    requires Lined(spans) && AllWithin(spans, |text|) && |spans| > 1 && from <= spans[0].start
    requires Lined(spans[1..]) && AllWithin(spans[1..], |text|) && spans[0].end <= spans[1..][0].start
    requires SplitsLast(text, spans[0].end, spans[1..], edit)
    ensures SplitsLast(text, from, spans, edit)
  {
    hide AtOnce;
    var n := |spans| - 1;
    var first, last, rest, init := spans[0], spans[n], spans[1..], spans[..n];
    assert rest[|rest| - 1] == last && rest[..|rest| - 1] == init[1..];
    var part, edited := text[..last.start], edit(last, text[last.start..last.end]);
    Slices(text, from, first.start, last.start);
    Slices(text, first.start, first.end, last.start);
    AtOnceFirst(text, from, spans, edit);
    AtOnceFirst(part, from, init, edit);
    var head := text[from..first.start] + edit(first, text[first.start..first.end]);
    var tail := AtOnce(part, first.end, init[1..], edit);
    Joined(head, tail + edited, text[last.end..]);
    Joined(head, tail, edited);
  }

  /** Editing in place from right to left replaces the spans of the original text all at once. */
  lemma {:induction false} EditsAreSimultaneous(text: string, spans: seq<Span>, edit: (Span, string) -> string)
    requires Lined(spans) && AllWithin(spans, |text|)
    ensures RightToLeft(text, spans, edit) == AtOnce(text, 0, spans, edit)
    decreases |spans|
  {
    if spans != [] {
      var n := |spans| - 1;
      var last, init := spans[n], spans[..n];
      EarlierStay(text, spans, edit);
      AtOnceLast(text, 0, spans, edit);
      EditsAreSimultaneous(text[..last.start], init, edit);
      var behind := edit(last, text[last.start..last.end]) + text[last.end..];
      BehindIsCopied(text[..last.start], behind, init, edit);
      assert EditOne(text, last, edit) == text[..last.start] + behind;
      Joined(AtOnce(text[..last.start], 0, init, edit), edit(last, text[last.start..last.end]), text[last.end..]);
    }
  }

  lemma Joined(a: string, b: string, c: string)
    ensures a + (b + c) == a + b + c
  {
  }

  // ----- operators -----

  datatype Operator = MaskOperator(keepHead: nat, keepTail: nat, mask: string) | ReplaceOperator(newValue: string)

  datatype Action = Mask | Replace | Block

  /** `build_operators_map` with its default */
  function OperatorFor(entity: string): Operator {
    match entity
    case "CN_PHONE_NUMBER" => MaskOperator(3, 4, "****")
    case "CN_ID_CARD" => MaskOperator(6, 4, "********")
    case "CN_BANK_CARD" => MaskOperator(6, 4, "********")
    case "EMAIL_ADDRESS" => MaskOperator(2, 2, "****")
    case _ => ReplaceOperator("[REDACTED]")
  }

  /** The last `k` characters; of a slice from -0 on, all of them. */
  function Tail(value: string, k: nat): string {
    if k == 0 || k >= |value| then value else value[|value| - k..]
  }

  /** What an operator makes of one value. */
  function Operate(op: Operator, value: string): string {
    match op
    case ReplaceOperator(v) => v
    case MaskOperator(h, t, mask) => if |value| <= h + t then mask else value[..h] + mask + Tail(value, t)
  }

  function Last(value: string, k: nat): string
    requires k <= |value|
  {
    value[|value| - k..]
  }

  /** The values are as long, and equal in what this operator keeps of a value. */
  predicate LooksLike(op: Operator, a: string, b: string) {
    |a| == |b| && match op
                  case ReplaceOperator(_) => true
                  case MaskOperator(h, t, _) => |a| <= h + t || (a[..h] == b[..h] && Last(a, t) == Last(b, t))
  }

  /** What the operator makes of a value depends only on the characters it keeps. */
  ghost predicate Hides(op: Operator) {
    forall a, b | LooksLike(op, a, b) :: Operate(op, a) == Operate(op, b)
  }

  /** A mask operator hides what it does not keep exactly if it keeps a tail: without one it repeats the value. */
  lemma HidesIffTail(op: Operator)
    ensures Hides(op) <==> op.ReplaceOperator? || op.keepTail > 0
  {
    if op.MaskOperator? && op.keepTail == 0 {
      var head := seq(op.keepHead, _ => 'a');
      var a, b := head + "x", head + "y";
      assert a[..op.keepHead] == head == b[..op.keepHead];
      assert LooksLike(op, a, b);
      var x, y := Operate(op, a), Operate(op, b);
      assert x[|x| - 1] == 'x' && y[|y| - 1] == 'y';
    }
  }

  /** What becomes of a value: all of it hidden if it is short, and otherwise only the digits or letters named here are
      kept, the first ones before the mask and the last ones behind it. */
  lemma OperatorsAre(v: string)
    ensures Operate(OperatorFor("CN_PHONE_NUMBER"), v) ==
            if |v| <= 7 then "****" else v[..3] + "****" + v[|v| - 4..]
    ensures Operate(OperatorFor("CN_ID_CARD"), v) ==
            if |v| <= 10 then "********" else v[..6] + "********" + v[|v| - 4..]
    ensures Operate(OperatorFor("CN_BANK_CARD"), v) ==
            if |v| <= 10 then "********" else v[..6] + "********" + v[|v| - 4..]
    ensures Operate(OperatorFor("EMAIL_ADDRESS"), v) ==
            if |v| <= 4 then "****" else v[..2] + "****" + v[|v| - 2..]
    ensures forall entity | entity !in {"CN_PHONE_NUMBER", "CN_ID_CARD", "CN_BANK_CARD", "EMAIL_ADDRESS"} ::
              Operate(OperatorFor(entity), v) == "[REDACTED]"
  {
  }

  // ----- the filter -----

  /** The operator that a span is edited with. */
  function OperatorAt(s: Span, action: string -> Action): Operator {
    if action(s.entity) == Replace then ReplaceOperator("[REDACTED]") else OperatorFor(s.entity)
  }

  function EditFor(action: string -> Action): (Span, string) -> string {
    (s: Span, value: string) => Operate(OperatorAt(s, action), value)
  }

  lemma EditIs(s: Span, action: string -> Action, value: string)
    ensures EditFor(action)(s, value) == Operate(OperatorAt(s, action), value)
  {
    hide Operate, OperatorAt;
  }

  predicate Blocks(spans: seq<Span>, action: string -> Action) {
    exists i | 0 <= i < |spans| :: action(spans[i].entity) == Block
  }

  /** One text after the filter; a text with a blocking hit stays as it is. */
  function Filtered(text: string, candidates: seq<Span>, action: string -> Action): string
    requires AllWithin(candidates, |text|)
  {
    AnalyzedLineUp(candidates, |text|);
    if Blocks(Analyze(candidates), action) then text else AtOnce(text, 0, Analyze(candidates), EditFor(action))
  }

  lemma InUseHide(entity: string)
    ensures Hides(OperatorFor(entity)) && forall v :: Hides(ReplaceOperator(v))
  {
    HidesIffTail(OperatorFor(entity));
    forall v ensures Hides(ReplaceOperator(v)) { HidesIffTail(ReplaceOperator(v)); }
    hide Hides;
  }

  /** The texts are as long, equal outside the spans from here on, and alike in what is kept of each span. */
  ghost predicate ShowSame(a: string, b: string, from: nat, spans: seq<Span>, action: string -> Action) {
    && |a| == |b| && AllWithin(spans, |a|)
    && (forall j | from <= j < |a| && !InSpan(j, spans) :: a[j] == b[j])
    && forall i | 0 <= i < |spans| ::
         LooksLike(OperatorAt(spans[i], action), a[spans[i].start..spans[i].end], b[spans[i].start..spans[i].end])
  }

  predicate InSpan(j: int, spans: seq<Span>) {
    exists i | 0 <= i < |spans| :: spans[i].start <= j < spans[i].end
  }

  lemma {:induction false} AtOnceHides(a: string, b: string, from: nat, spans: seq<Span>, action: string -> Action)
    requires Lined(spans) && ShowSame(a, b, from, spans, action) && from <= |a|
    requires spans != [] ==> from <= spans[0].start
    ensures AtOnce(a, from, spans, EditFor(action)) == AtOnce(b, from, spans, EditFor(action))
    decreases |spans|
  {
    hide AtOnce, LooksLike, Hides, OperatorFor;
    if spans == [] {
      NothingEdited(a, from, EditFor(action));
      NothingEdited(b, from, EditFor(action));
      assert a[from..] == b[from..];
    } else {
      var s, rest := spans[0], spans[1..];
      AtOnceFirst(a, from, spans, EditFor(action));
      AtOnceFirst(b, from, spans, EditFor(action));
      ShowRest(a, b, from, spans, action);
      AtOnceHides(a, b, s.end, rest, action);
      EditHides(s, action, a[s.start..s.end], b[s.start..s.end]);
    }
  }

  lemma NothingEdited(text: string, from: nat, edit: (Span, string) -> string)
    requires from <= |text|
    ensures AtOnce(text, from, [], edit) == text[from..]
  {
  }

  lemma EditHides(s: Span, action: string -> Action, x: string, y: string)
    requires LooksLike(OperatorAt(s, action), x, y)
    ensures EditFor(action)(s, x) == EditFor(action)(s, y)
  {
    InUseHide(s.entity);
    EditIs(s, action, x);
    EditIs(s, action, y);
    hide LooksLike, OperatorFor, Operate, EditFor;
  }

  lemma ShowRest(a: string, b: string, from: nat, spans: seq<Span>, action: string -> Action)
    requires Lined(spans) && spans != [] && ShowSame(a, b, from, spans, action) && from <= spans[0].start
    ensures a[from..spans[0].start] == b[from..spans[0].start]
    ensures ShowSame(a, b, spans[0].end, spans[1..], action)
  {
    hide LooksLike, OperatorAt;
    var s, rest := spans[0], spans[1..];
    forall j | from <= j < s.start ensures a[j] == b[j] {
      assert !InSpan(j, spans);
    }
    forall j | s.end <= j < |a| && !InSpan(j, rest) ensures a[j] == b[j] {
      forall i | 0 <= i < |spans| ensures !(spans[i].start <= j < spans[i].end) {
        if i > 0 { assert rest[i - 1] == spans[i]; }
      }
    }
  }

  /** Two texts in which the same spans are found, and which differ in hidden characters only, come out the same. */
  lemma FilterHides(a: string, b: string, candidates: seq<Span>, action: string -> Action)
    requires |a| == |b| && AllWithin(candidates, |a|) && ShowSame(a, b, 0, Analyze(candidates), action)
    requires !Blocks(Analyze(candidates), action)
    ensures Filtered(a, candidates, action) == Filtered(b, candidates, action)
  {
    hide Analyze, AtOnce, ShowSame, Blocks, EditFor, Lined, AllWithin;
    AnalyzedLineUp(candidates, |a|);
    AtOnceHides(a, b, 0, Analyze(candidates), action);
  }

  /** The entities a text reports: its blocking ones, or else all. */
  ghost predicate Reports(candidates: seq<Span>, action: string -> Action, entity: string) {
    var spans := Analyze(candidates);
    exists s :: s in spans && s.entity == entity && (Blocks(spans, action) ==> action(entity) == Block)
  }

  /** A text with a blocking hit stays as it is and reports its blocking entities; any other is edited, each hit by its
      operator unless it is to be replaced, and reports them all. */
  lemma FilterDecides(text: string, candidates: seq<Span>, action: string -> Action)
    requires AllWithin(candidates, |text|)
    ensures Lined(Analyze(candidates)) && AllWithin(Analyze(candidates), |text|)
    ensures var spans := Analyze(candidates);
            var stops := exists s :: s in spans && action(s.entity) == Block;
            && Filtered(text, candidates, action) == (if stops then text else AtOnce(text, 0, spans, EditFor(action)))
            && forall e :: Reports(candidates, action, e) <==>
                 exists s :: s in spans && s.entity == e && (stops ==> action(e) == Block)
    ensures forall s, v ::
              EditFor(action)(s, v) ==
              if action(s.entity) == Replace then "[REDACTED]" else Operate(OperatorFor(s.entity), v)
  {
    hide Analyze, AtOnce, Operate, OperatorFor, EditFor, Lined, AllWithin, Blocks;
    AnalyzedLineUp(candidates, |text|);
    BlocksIff(Analyze(candidates), action);
    forall s, v
      ensures EditFor(action)(s, v) ==
              if action(s.entity) == Replace then "[REDACTED]" else Operate(OperatorFor(s.entity), v)
    {
      EditDecides(s, v, action);
    }
  }

  lemma BlocksIff(spans: seq<Span>, action: string -> Action)
    ensures Blocks(spans, action) <==> exists s :: s in spans && action(s.entity) == Block
  {
    if Blocks(spans, action) {
      var i :| 0 <= i < |spans| && action(spans[i].entity) == Block;
      assert spans[i] in spans;
    }
  }

  lemma EditDecides(s: Span, v: string, action: string -> Action)
    ensures EditFor(action)(s, v) ==
            if action(s.entity) == Replace then "[REDACTED]" else Operate(OperatorFor(s.entity), v)
  {
    EditIs(s, action, v);
    Replaced(v);
    hide EditFor, Operate, OperatorFor;
  }

  lemma Replaced(v: string)
    ensures Operate(ReplaceOperator("[REDACTED]"), v) == "[REDACTED]"
  {
  }

  function Occupied(kept: seq<Span>): seq<(nat, nat)> {
    seq(|kept|, i requires 0 <= i < |kept| => (kept[i].start, kept[i].end))
  }

  method ResolveOverlaps(candidates: seq<Span>) returns (kept: seq<Span>)
    ensures kept == Resolve(candidates)
  {
    var sorted := Sort(candidates, Beats);
    kept := [];
    var occupied: seq<(nat, nat)> := [];
    for i := 0 to |sorted|
      invariant kept == Choose(sorted[..i]) && occupied == Occupied(kept)
    {
      assert sorted[..i + 1][..i] == sorted[..i];
      var m := sorted[i];
      var clash := false;
      for j := 0 to |occupied|
        invariant clash <==> exists k | 0 <= k < j :: Overlaps(m, kept[k])
      {
        if !(m.end <= occupied[j].0 || m.start >= occupied[j].1) {
          clash := true;
        }
      }
      if !clash {
        kept := kept + [m];
        occupied := occupied + [(m.start, m.end)];
      }
    }
    assert sorted[..|sorted|] == sorted;
  }

  /** The loop of `apply_pii_filter` over the spans of one text. */
  method Rewrite(text: string, spans: seq<Span>, action: string -> Action) returns (newText: string)
    requires Lined(spans) && AllWithin(spans, |text|)
    ensures newText == AtOnce(text, 0, spans, EditFor(action))
  {
    hide AtOnce, Operate, OperatorFor, RightToLeft, Lined;
    EditsAreSimultaneous(text, spans, EditFor(action));
    newText := text;
    var i := |spans|;
    assert spans[..i] == spans;
    NoEdits(EditFor(action));
    while i > 0
      invariant 0 <= i <= |spans| && Lined(spans[..i]) && AllWithin(spans[..i], |newText|)
      invariant RightToLeft(newText, spans[..i], EditFor(action)) == RightToLeft(text, spans, EditFor(action))
    {
      OneEdit(newText, spans, i, EditFor(action));
      i := i - 1;
      var s := spans[i];
      var op := if action(s.entity) == Replace then ReplaceOperator("[REDACTED]") else OperatorFor(s.entity);
      EditIs(s, action, newText[s.start..s.end]);
      newText := newText[..s.start] + Operate(op, newText[s.start..s.end]) + newText[s.end..];
    }
  }

  lemma NoEdits(edit: (Span, string) -> string)
    ensures forall t: string :: RightToLeft(t, [], edit) == t
  {
  }

  /** The rightmost of the first `i` spans is edited first. */
  lemma OneEdit(text: string, spans: seq<Span>, i: nat, edit: (Span, string) -> string)
    requires 0 < i <= |spans| && Lined(spans[..i]) && AllWithin(spans[..i], |text|)
    ensures var edited := EditOne(text, spans[i - 1], edit);
            && Lined(spans[..i - 1]) && AllWithin(spans[..i - 1], |edited|)
            && RightToLeft(text, spans[..i], edit) == RightToLeft(edited, spans[..i - 1], edit)
  {
    hide RightToLeft, EditOne, Lined, AllWithin;
    LastEdit(text, spans[..i], edit);
    assert spans[..i][..i - 1] == spans[..i - 1] && spans[..i][i - 1] == spans[i - 1];
  }

  lemma LastEdit(text: string, spans: seq<Span>, edit: (Span, string) -> string)
    requires spans != [] && Lined(spans) && AllWithin(spans, |text|)
    ensures var n := |spans| - 1;
            Within(spans[n], |text|)
            && var edited := EditOne(text, spans[n], edit);
               && Lined(spans[..n]) && AllWithin(spans[..n], |edited|)
               && RightToLeft(text, spans, edit) == RightToLeft(edited, spans[..n], edit)
  {
    EarlierStay(text, spans, edit);
    hide EditOne;
  }

  ghost predicate FindsWithin(find: string -> seq<Span>) {
    forall t: string :: AllWithin(find(t), |t|)
  }

  /** One text leaf: what becomes of it, whether it blocks, and what it reports. */
  method FilterLeaf(text: string, candidates: seq<Span>, action: string -> Action)
    returns (newText: string, blocked: bool, reported: set<string>)
    requires AllWithin(candidates, |text|)
    ensures newText == Filtered(text, candidates, action) && blocked == Blocks(Analyze(candidates), action)
    ensures forall e :: e in reported <==> Reports(candidates, action, e)
  {
    hide Analyze, AtOnce, AllWithin, EditFor, Blocks;
    AnalyzedLineUp(candidates, |text|);
    var spans := Analyze(candidates);
    blocked := Blocks(spans, action);
    reported := set s | s in spans && (blocked ==> action(s.entity) == Block) :: s.entity;
    newText := text;
    if !blocked {
      newText := Rewrite(text, spans, action);
    }
  }

  /** `apply_pii_filter` over the text leaves of a payload, rewritten in place; `blocked` is SensitiveBlockError. */
  method ApplyPiiFilter(leaves: array<string>, find: string -> seq<Span>, action: string -> Action)
    returns (blocked: bool, triggered: set<string>)
    requires FindsWithin(find)
    modifies leaves
    ensures forall k | 0 <= k < leaves.Length :: leaves[k] == Filtered(old(leaves[k]), find(old(leaves[k])), action)
    ensures blocked <==> exists k | 0 <= k < leaves.Length :: Blocks(Analyze(find(old(leaves[k]))), action)
    ensures forall e :: e in triggered <==>
                        exists k :: 0 <= k < leaves.Length && Reports(find(old(leaves[k])), action, e)
  {
    hide Analyze, AllWithin, EditFor, Blocks, Reports, Filtered;
    blocked, triggered := false, {};
    for i := 0 to leaves.Length
      invariant forall k | 0 <= k < i :: leaves[k] == Filtered(old(leaves[k]), find(old(leaves[k])), action)
      invariant forall k | i <= k < leaves.Length :: leaves[k] == old(leaves[k])
      invariant blocked <==> exists k | 0 <= k < i :: Blocks(Analyze(find(old(leaves[k]))), action)
      invariant forall e :: e in triggered <==> exists k :: 0 <= k < i && Reports(find(old(leaves[k])), action, e)
    {
      var newText, blocks, reported := FilterLeaf(leaves[i], find(leaves[i]), action);
      blocked, triggered := blocked || blocks, triggered + reported;
      leaves[i] := newText;
    }
  }
}
