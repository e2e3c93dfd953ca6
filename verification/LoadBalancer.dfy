/**
 Smooth weighted round robin (balancer/load_balancer.py).

 A candidate set is a sequence of weights and the current weights are a sequence of the same length;
 `Next` is one pick. The fairness results are about `After`, any number of picks. `Balancer` is the
 object that keeps the current weights of every (model, channel) pair in one map; its methods are
 proved to be `Next` on the offered candidates and nothing elsewhere.
 */
module LoadBalancer {

  import opened Wrappers

  // ----- one pick, on the candidates alone -----

  ghost predicate Positive(w: seq<int>) {
    forall i | 0 <= i < |w| :: 1 <= w[i]
  }

  function Sum(s: seq<int>): int {
    if s == [] then 0 else Sum(s[..|s| - 1]) + s[|s| - 1]
  }

  function Raise(c: seq<int>, w: seq<int>): (r: seq<int>)
    requires |c| == |w|
    ensures |r| == |c|
  {
    seq(|c|, i requires 0 <= i < |c| => c[i] + w[i])
  }

  /** The first position of the largest of the first `n` values. */
  function BestOf(c: seq<int>, n: nat): (b: nat)
    requires 0 < n <= |c|
    ensures b < n
  {
    if n == 1 then 0
    else
      var b := BestOf(c, n - 1);
      if c[n - 1] > c[b] then n - 1 else b
  }

  function Best(c: seq<int>): (b: nat)
    requires c != []
    ensures b < |c|
  {
    BestOf(c, |c|)
  }

  lemma {:induction false} BestIsFirstTop(c: seq<int>, n: nat, j: nat)
    requires j < n <= |c|
    ensures c[j] <= c[BestOf(c, n)]
    ensures j < BestOf(c, n) ==> c[j] < c[BestOf(c, n)]
  {
    if j < n - 1 {
      BestIsFirstTop(c, n - 1, j);
    }
  }

  function Pick(c: seq<int>, w: seq<int>): (b: nat)
    requires |c| == |w| && w != []
    ensures b < |w|
  {
    Best(Raise(c, w))
  }

  function Charge(up: seq<int>, b: nat, total: int): (r: seq<int>)
    requires b < |up|
    ensures |r| == |up|
  {
    up[b := up[b] - total]
  }

  function Next(c: seq<int>, w: seq<int>): (r: seq<int>)
    requires |c| == |w| && w != []
    ensures |r| == |c|
  {
    Charge(Raise(c, w), Pick(c, w), Sum(w))
  }

  function After(c: seq<int>, w: seq<int>, k: nat): (r: seq<int>)
    requires |c| == |w| && w != []
    ensures |r| == |c|
  {
    if k == 0 then c else Next(After(c, w, k - 1), w)
  }

  /** How often candidate `i` is picked in the first `k` picks. */
  function Picks(c: seq<int>, w: seq<int>, k: nat, i: nat): nat
    requires |c| == |w| && i < |w|
  {
    if k == 0 then 0
    else Picks(c, w, k - 1, i) + if Pick(After(c, w, k - 1), w) == i then 1 else 0
  }

  function Zeros(n: nat): seq<int> {
    seq(n, _ => 0)
  }

  // ----- sums -----

  lemma {:induction false} SumRaise(c: seq<int>, w: seq<int>)
    requires |c| == |w|
    ensures Sum(Raise(c, w)) == Sum(c) + Sum(w)
  {
    if c != [] {
      var n := |c| - 1;
      assert Raise(c, w)[..n] == Raise(c[..n], w[..n]);
      SumRaise(c[..n], w[..n]);
    }
  }

  lemma {:induction false} SumAtLeast(s: seq<int>, low: int)
    requires forall i | 0 <= i < |s| :: low <= s[i]
    ensures |s| * low <= Sum(s)
  {
    if s != [] {
      SumAtLeast(s[..|s| - 1], low);
    }
  }

  /** If nobody is below `low`, nobody is above what the others leave. */
  lemma {:induction false} SumLeaves(s: seq<int>, low: int, i: nat)
    requires i < |s| && forall j | 0 <= j < |s| :: low <= s[j]
    ensures s[i] + (|s| - 1) * low <= Sum(s)
  {
    var n := |s| - 1;
    if i == n {
      SumAtLeast(s[..n], low);
    } else {
      SumLeaves(s[..n], low, i);
      assert (n - 1) * low + low == n * low;
    }
  }

  lemma {:induction false} SumZeros(n: nat)
    ensures Sum(Zeros(n)) == 0
  {
    if n != 0 {
      assert Zeros(n)[..n - 1] == Zeros(n - 1);
      SumZeros(n - 1);
    }
  }

  /** Equal sums and no excess anywhere make equal sequences. */
  lemma {:induction false} SumTight(a: seq<int>, b: seq<int>)
    requires |a| == |b| && Sum(a) == Sum(b)
    requires forall i | 0 <= i < |a| :: a[i] <= b[i]
    ensures a == b
  {
    var d := Raise(b, seq(|a|, i requires 0 <= i < |a| => -a[i]));
    SumRaise(b, seq(|a|, i requires 0 <= i < |a| => -a[i]));
    SumNegate(a);
    forall i | 0 <= i < |a| ensures a[i] == b[i] {
      SumLeaves(d, 0, i);
    }
  }

  lemma {:induction false} SumNegate(s: seq<int>)
    ensures Sum(seq(|s|, i requires 0 <= i < |s| => -s[i])) == -Sum(s)
  {
    if s != [] {
      var n := |s| - 1;
      var minus := seq(|s|, i requires 0 <= i < |s| => -s[i]);
      assert minus[..n] == seq(|s[..n]|, i requires 0 <= i < |s[..n]| => -s[..n][i]);
      SumNegate(s[..n]);
    }
  }

  // ----- what every pick keeps -----

  lemma NextKeepsSum(c: seq<int>, w: seq<int>)
    requires |c| == |w| && w != []
    ensures Sum(Next(c, w)) == Sum(c)
  {
    hide Sum, BestOf, Raise, Charge;
    SumRaise(c, w);
    ChargeSum(Raise(c, w), Pick(c, w), Sum(w));
  }

  lemma {:induction false} ChargeSum(up: seq<int>, b: nat, total: int)
    requires b < |up|
    ensures Sum(Charge(up, b, total)) == Sum(up) - total
  {
    var n := |up| - 1;
    if b == n {
      assert Charge(up, b, total)[..n] == up[..n];
    } else {
      assert Charge(up, b, total)[..n] == Charge(up[..n], b, total);
      ChargeSum(up[..n], b, total);
    }
  }

  lemma {:induction false} AfterKeepsSum(c: seq<int>, w: seq<int>, k: nat)
    requires |c| == |w| && w != []
    ensures Sum(After(c, w, k)) == Sum(c)
  {
    if k != 0 {
      AfterKeepsSum(c, w, k - 1);
      NextKeepsSum(After(c, w, k - 1), w);
    }
  }

  /** The current weight is an exact account of what the candidate is owed. */
  lemma {:induction false} Account(c: seq<int>, w: seq<int>, k: nat, i: nat)
    requires |c| == |w| && i < |w|
    ensures After(c, w, k)[i] == c[i] + k * w[i] - Picks(c, w, k, i) * Sum(w)
  {
    hide Sum, BestOf;
    if k != 0 {
      Account(c, w, k - 1, i);
      var b := Pick(After(c, w, k - 1), w);
      var p := Picks(c, w, k - 1, i);
      assert (p + 1) * Sum(w) == p * Sum(w) + Sum(w);
      assert k * w[i] == (k - 1) * w[i] + w[i];
    }
  }

  /** The picked value is at least the average. */
  lemma BestAboveAverage(c: seq<int>)
    requires c != []
    ensures Sum(c) <= |c| * c[Best(c)]
  {
    hide Sum, BestOf;
    var top := c[Best(c)];
    var minus := seq(|c|, i requires 0 <= i < |c| => -c[i]);
    SumNegate(c);
    forall j | 0 <= j < |c| ensures -top <= minus[j] {
      BestIsFirstTop(c, |c|, j);
    }
    SumAtLeast(minus, -top);
    assert |c| * -top == -(|c| * top);
  }

  /** A floor below every candidate that no pick goes under. */
  ghost predicate Floor(low: int, c: seq<int>, w: seq<int>)
    requires |c| == |w|
  {
    && (forall i | 0 <= i < |c| :: low <= c[i])
    && |c| * (low + Sum(w)) <= Sum(c) + Sum(w)
  }

  lemma ScaledOrder(n: int, a: int, b: int)
    requires n > 0
    ensures n * a <= n * b <==> a <= b
  {
  }

  lemma NextKeepsFloor(low: int, c: seq<int>, w: seq<int>)
    requires |c| == |w| && w != [] && Positive(w) && Floor(low, c, w)
    ensures Floor(low, Next(c, w), w)
  {
    hide Sum, BestOf;
    var up := Raise(c, w);
    NextKeepsSum(c, w);
    SumRaise(c, w);
    BestAboveAverage(up);
    ScaledOrder(|c|, low + Sum(w), up[Best(up)]);
  }

  lemma {:induction false} AfterKeepsFloor(low: int, c: seq<int>, w: seq<int>, k: nat)
    requires |c| == |w| && w != [] && Positive(w) && Floor(low, c, w)
    ensures Floor(low, After(c, w, k), w)
  {
    if k != 0 {
      AfterKeepsFloor(low, c, w, k - 1);
      NextKeepsFloor(low, After(c, w, k - 1), w);
    }
  }

  // ----- fairness from a fresh start -----

  lemma TotalPositive(w: seq<int>)
    requires w != [] && Positive(w)
    ensures |w| <= Sum(w)
  {
  }

  /** After any number of picks no candidate is a full pick ahead of its share. */
  lemma PrefixFairness(w: seq<int>, k: nat, i: nat)
    requires i < |w| && Positive(w)
    ensures Picks(Zeros(|w|), w, k, i) * Sum(w) < k * w[i] + Sum(w)
  {
    var zero := Zeros(|w|);
    TotalPositive(w);
    SumZeros(|w|);
    var low := 1 - Sum(w);
    assert |w| * (low + Sum(w)) == |w|;
    assert Floor(low, zero, w);
    AfterKeepsFloor(low, zero, w, k);
    Account(zero, w, k, i);
  }

  lemma RoundEnd(w: seq<int>, i: nat)
    requires i < |w| && Positive(w) && Sum(w) > 0
    ensures var p := Picks(Zeros(|w|), w, Sum(w), i);
            && p <= w[i]
            && After(Zeros(|w|), w, Sum(w))[i] == (w[i] - p) * Sum(w) >= 0
  {
    hide Sum, After, Picks;
    var total := Sum(w);
    var p := Picks(Zeros(|w|), w, total, i);
    PrefixFairness(w, total, i);
    Account(Zeros(|w|), w, total, i);
    ScaledOrder(total, p, w[i]);
    assert total * (w[i] + 1) == total * w[i] + total;
    ScaledOrder(total, w[i] + 1, p);
    assert (w[i] - p) * total == w[i] * total - p * total;
  }

  /** One round of total-weight many picks gives every candidate exactly its weight and
      brings every current weight back to zero. */
  lemma RoundIsExact(w: seq<int>)
    requires w != [] && Positive(w)
    ensures Sum(w) > 0 && After(Zeros(|w|), w, Sum(w)) == Zeros(|w|)
    ensures forall i | 0 <= i < |w| :: Picks(Zeros(|w|), w, Sum(w), i) == w[i]
  {
    hide Sum, After, Picks;
    TotalPositive(w);
    var total, zero := Sum(w), Zeros(|w|);
    var end := After(zero, w, total);
    forall i | 0 <= i < |w| ensures 0 <= end[i] && end[i] == (w[i] - Picks(zero, w, total, i)) * total {
      RoundEnd(w, i);
    }
    AfterKeepsSum(zero, w, total);
    SumTight(zero, end);
    forall i | 0 <= i < |w| ensures Picks(zero, w, total, i) == w[i] {
      ScaledOrder(total, w[i], Picks(zero, w, total, i));
      ScaledOrder(total, Picks(zero, w, total, i), w[i]);
    }
  }

  lemma {:induction false} AfterAfter(c: seq<int>, w: seq<int>, j: nat, k: nat)
    requires |c| == |w| && w != []
    ensures After(After(c, w, j), w, k) == After(c, w, j + k)
    ensures forall i | 0 <= i < |w| ::
              Picks(c, w, j + k, i) == Picks(c, w, j, i) + Picks(After(c, w, j), w, k, i)
  {
    hide Sum, BestOf;
    if k != 0 {
      AfterAfter(c, w, j, k - 1);
      assert j + k - 1 == j + (k - 1);
    }
  }

  /** Exact fairness: whichever pick one starts counting at, the next total-weight many picks
      give every candidate exactly its weight. */
  lemma EveryWindowIsExact(w: seq<int>, start: nat, i: nat)
    requires i < |w| && Positive(w)
    ensures Sum(w) > 0
    ensures Picks(Zeros(|w|), w, start + Sum(w), i) == Picks(Zeros(|w|), w, start, i) + w[i]
    ensures After(Zeros(|w|), w, start + Sum(w)) == After(Zeros(|w|), w, start)
  {
    hide Sum, After, Picks;
    var zero, total := Zeros(|w|), Sum(w);
    RoundIsExact(w);
    AfterAfter(zero, w, total, start);
    assert total + start == start + total;
  }

  // ----- no starvation from any state -----

  function Lowest(c: seq<int>): (m: int)
    requires c != []
    ensures forall i | 0 <= i < |c| :: m <= c[i]
  {
    if |c| == 1 then c[0]
    else
      var m := Lowest(c[1..]);
      assert forall i | 1 <= i < |c| :: c[i] == c[1..][i - 1];
      if c[0] < m then c[0] else m
  }

  function FloorOf(c: seq<int>, w: seq<int>): int
    requires |c| == |w| && w != []
  {
    var average := (Sum(c) + Sum(w)) / |w| - Sum(w);
    if Lowest(c) < average then Lowest(c) else average
  }

  /** How many picks candidate `i` may have to wait. */
  function Patience(c: seq<int>, w: seq<int>, i: nat): int
    requires |c| == |w| && i < |w|
  {
    Sum(c) - (|w| - 1) * FloorOf(c, w) - c[i] + 1
  }

  lemma FloorOfIsFloor(c: seq<int>, w: seq<int>)
    requires |c| == |w| && w != []
    ensures Floor(FloorOf(c, w), c, w)
  {
    var n, total, low := |w|, Sum(c) + Sum(w), FloorOf(c, w);
    assert n * (total / n) <= total;
    assert low + Sum(w) <= total / n;
    assert n * (low + Sum(w)) <= n * (total / n);
  }

  /** Whatever the current weights, every candidate is picked within `Patience` picks. */
  lemma NoStarvation(c: seq<int>, w: seq<int>, i: nat)
    requires |c| == |w| && i < |w| && Positive(w)
    ensures Patience(c, w, i) >= 1
    ensures Picks(c, w, Patience(c, w, i), i) >= 1
  {
    hide Sum, After, Picks, FloorOf;
    var low := FloorOf(c, w);
    FloorOfIsFloor(c, w);
    SumLeaves(c, low, i);
    var k := Patience(c, w, i);
    AfterKeepsFloor(low, c, w, k);
    AfterKeepsSum(c, w, k);
    SumLeaves(After(c, w, k), low, i);
    Account(c, w, k, i);
    assert k * w[i] >= k;
  }

  // ----- the balancer object -----

  datatype Channel = Channel(id: string, weight: int, priority: int)

  type Key = (string, string)

  ghost predicate Offerable(channels: seq<Channel>) {
    && (forall i | 0 <= i < |channels| :: 1 <= channels[i].weight)
    && (forall i, j | 0 <= i < j < |channels| :: channels[i].id != channels[j].id)
  }

  function WeightsOf(channels: seq<Channel>): (w: seq<int>)
    ensures |w| == |channels|
  {
    seq(|channels|, i requires 0 <= i < |channels| => channels[i].weight)
  }

  function Get(current: map<Key, int>, key: Key): int {
    if key in current then current[key] else 0
  }

  function CurrentsOf(current: map<Key, int>, model: string, channels: seq<Channel>): (c: seq<int>)
    ensures |c| == |channels|
  {
    seq(|channels|, i requires 0 <= i < |channels| => Get(current, (model, channels[i].id)))
  }

  ghost predicate Offered(key: Key, model: string, channels: seq<Channel>) {
    key.0 == model && exists i | 0 <= i < |channels| :: channels[i].id == key.1
  }

  /** Everything but the offered candidates' entries of this model is as before. */
  ghost predicate ElsewhereSame(before: map<Key, int>, after: map<Key, int>, model: string, channels: seq<Channel>) {
    forall key: Key | !Offered(key, model, channels) ::
      (key in before <==> key in after) && Get(before, key) == Get(after, key)
  }

  /** `best` is the pick among `channels`, and the map has moved by exactly that pick. */
  ghost predicate IsPick(before: map<Key, int>, after: map<Key, int>, model: string, channels: seq<Channel>,
                         best: Channel)
    requires channels != []
  {
    var c, w := CurrentsOf(before, model, channels), WeightsOf(channels);
    && best == channels[Pick(c, w)]
    && CurrentsOf(after, model, channels) == Next(c, w)
    && ElsewhereSame(before, after, model, channels)
  }

  function KeyModel(model: Option<string>): string {
    if model.Some? then model.value else ""
  }

  ghost predicate InTopGroup(ch: Channel, channels: seq<Channel>, admits: Channel -> bool) {
    ch in channels && admits(ch) && forall other | other in channels && admits(other) :: ch.priority <= other.priority
  }

  function Admitted(channels: seq<Channel>, admits: Channel -> bool): (r: seq<Channel>)
    ensures forall ch :: ch in r <==> ch in channels && admits(ch)
  {
    if channels == [] then []
    else (if admits(channels[0]) then [channels[0]] else []) + Admitted(channels[1..], admits)
  }

  function MinPriority(channels: seq<Channel>): (p: int)
    requires channels != []
    ensures exists ch | ch in channels :: ch.priority == p
    ensures forall ch | ch in channels :: p <= ch.priority
  {
    if |channels| == 1 then channels[0].priority
    else
      var p := MinPriority(channels[1..]);
      if channels[0].priority < p then channels[0].priority else p
  }

  function OfPriority(p: int): Channel -> bool {
    (ch: Channel) => ch.priority == p
  }

  /** `_get_top_priority_group` */
  function TopPriorityGroup(channels: seq<Channel>, admits: Channel -> bool): (r: seq<Channel>)
    ensures forall ch :: ch in r <==> InTopGroup(ch, channels, admits)
    ensures r == [] <==> forall ch | ch in channels :: !admits(ch)
  {
    var available := Admitted(channels, admits);
    if available == [] then []
    else
      Admitted(available, OfPriority(MinPriority(available)))
  }

  lemma {:induction false} AdmittedIsOfferable(channels: seq<Channel>, admits: Channel -> bool)
    requires Offerable(channels)
    ensures Offerable(Admitted(channels, admits))
  {
    if channels != [] {
      AdmittedIsOfferable(channels[1..], admits);
      var rest := Admitted(channels[1..], admits);
      forall j | 0 <= j < |rest| ensures rest[j].id != channels[0].id {
        assert rest[j] in channels[1..];
      }
    }
  }

  lemma CurrentAt(current: map<Key, int>, model: string, channels: seq<Channel>, i: nat)
    requires i < |channels|
    ensures CurrentsOf(current, model, channels)[i] == Get(current, (model, channels[i].id))
  {
  }

  /** The current weights when the first `i` candidates have been raised. */
  function PartlyRaised(c: seq<int>, w: seq<int>, i: nat): (r: seq<int>)
    requires |c| == |w| && i <= |c|
    ensures |r| == |c|
  {
    Raise(c, w)[..i] + c[i..]
  }

  lemma RaisedAt(c: seq<int>, w: seq<int>, i: nat)
    requires |c| == |w| && i < |c|
    ensures Raise(c, w)[i] == c[i] + w[i]
    ensures PartlyRaised(c, w, i)[i] == c[i]
    ensures PartlyRaised(c, w, i)[i := c[i] + w[i]] == PartlyRaised(c, w, i + 1)
  {
  }

  lemma RaisedEnds(c: seq<int>, w: seq<int>)
    requires |c| == |w|
    ensures PartlyRaised(c, w, 0) == c && PartlyRaised(c, w, |c|) == Raise(c, w)
  {
  }

  /** Assigning one candidate's entry changes that entry and nothing else. */
  lemma Assigned(first: map<Key, int>, current: map<Key, int>, model: string, channels: seq<Channel>, i: nat,
                 value: int)
    requires Offerable(channels) && i < |channels|
    requires ElsewhereSame(first, current, model, channels)
    ensures var after := current[(model, channels[i].id) := value];
            && CurrentsOf(after, model, channels) == CurrentsOf(current, model, channels)[i := value]
            && ElsewhereSame(first, after, model, channels)
  {
  }

  lemma MapPicked(before: map<Key, int>, after: map<Key, int>, model: string, channels: seq<Channel>, b: nat)
    requires channels != [] && ElsewhereSame(before, after, model, channels)
    requires var c, w := CurrentsOf(before, model, channels), WeightsOf(channels);
             var up := Raise(c, w);
             b == BestOf(up, |up|) && CurrentsOf(after, model, channels) == up[b := up[b] - Sum(w)]
    ensures IsPick(before, after, model, channels, channels[b])
  {
  }

  /** The entries of all models but this one, or but the nameless one, are alike. */
  ghost predicate OthersSame(before: map<Key, int>, after: map<Key, int>, model: Option<string>) {
    forall key: Key | key.0 != (if model.Some? then model.value else "") ::
      (key in before <==> key in after) && Get(before, key) == Get(after, key)
  }

  lemma PickIsolates(before: map<Key, int>, after: map<Key, int>, model: Option<string>, channels: seq<Channel>)
    requires ElsewhereSame(before, after, KeyModel(model), channels)
    ensures OthersSame(before, after, model)
  {
    forall key: Key | key.0 != KeyModel(model)
      ensures (key in before <==> key in after) && Get(before, key) == Get(after, key)
    {
      assert !Offered(key, KeyModel(model), channels);
    }
  }

  /** What a pick does to the current weights of its candidates, which start from 0. */
  lemma PickMoves(before: map<Key, int>, after: map<Key, int>, model: string, channels: seq<Channel>, best: Channel,
                  i: nat)
    requires Offerable(channels) && i < |channels| && IsPick(before, after, model, channels, best)
    ensures var key := (model, channels[i].id);
            (if key in after then after[key] else 0) ==
            (if key in before then before[key] else 0) + channels[i].weight
            - if channels[i].id == best.id then Sum(WeightsOf(channels)) else 0
  {
    var c, w := CurrentsOf(before, model, channels), WeightsOf(channels);
    CurrentAt(after, model, channels, i);
    CurrentAt(before, model, channels, i);
    RaisedAt(c, w, i);
    hide Sum, BestOf;
  }

  class Balancer {
    var current: map<Key, int>

    constructor ()
      ensures current == map[]
    {
      current := map[];
    }

    method WeightedRoundRobin(channels: seq<Channel>, model: Option<string>) returns (best: Channel)
      requires Offerable(channels) && channels != []
      modifies this
      ensures IsPick(old(current), current, KeyModel(model), channels, best)
      ensures OthersSame(old(current), current, model)
    {
      hide Best, Raise, PartlyRaised, CurrentsOf, Get, Sum, IsPick, KeyModel, OthersSame;
      var keyModel := KeyModel(model);
      var w := WeightsOf(channels);
      ghost var first := current;
      ghost var c := CurrentsOf(first, keyModel, channels);
      ghost var up := Raise(c, w);
      var totalWeight := Sum(w);
      assert ElsewhereSame(first, current, keyModel, channels);
      RaisedEnds(c, w);
      hide ElsewhereSame;
      var bestIndex, bestWeight := 0, -1;
      for i := 0 to |channels|
        invariant 0 < i ==> bestIndex == BestOf(up, i) && bestWeight == up[bestIndex]
        invariant CurrentsOf(current, keyModel, channels) == PartlyRaised(c, w, i)
        invariant ElsewhereSame(first, current, keyModel, channels)
      {
        CurrentAt(current, keyModel, channels, i);
        RaisedAt(c, w, i);
        var key := (keyModel, channels[i].id);
        var value := Get(current, key) + channels[i].weight;
        Assigned(first, current, keyModel, channels, i, value);
        current := current[key := value];
        if i == 0 || value > bestWeight {
          bestIndex, bestWeight := i, value;
        }
      }
      best := channels[bestIndex];
      Assigned(first, current, keyModel, channels, bestIndex, bestWeight - totalWeight);
      current := current[(keyModel, best.id) := bestWeight - totalWeight];
      MapPicked(first, current, keyModel, channels, bestIndex);
      PickIsolates(first, current, model, channels);
    }

    /** `select_channel` under the `round_robin` strategy. */
    method SelectChannel(channels: seq<Channel>, admits: Channel -> bool, model: Option<string>)
      returns (selected: Option<Channel>)
      requires Offerable(channels)
      modifies this
      ensures selected == None <==> forall ch | ch in channels :: !admits(ch)
      ensures selected.Some? ==> InTopGroup(selected.value, channels, admits)
      ensures var top := TopPriorityGroup(channels, admits);
              if |top| <= 1 then current == old(current)
              else selected.Some? && IsPick(old(current), current, KeyModel(model), top, selected.value)
      ensures OthersSame(old(current), current, model)
    {
      var top := TopPriorityGroup(channels, admits);
      if top == [] {
        return None;
      }
      if |top| > 1 {
        TopIsOfferable(channels, admits);
        var best := WeightedRoundRobin(top, model);
        return Some(best);
      }
      assert top[0] in top;
      return Some(top[0]);
    }
  }

  lemma TopIsOfferable(channels: seq<Channel>, admits: Channel -> bool)
    requires Offerable(channels)
    ensures Offerable(TopPriorityGroup(channels, admits))
  {
    var available := Admitted(channels, admits);
    AdmittedIsOfferable(channels, admits);
    if available != [] {
      AdmittedIsOfferable(available, OfPriority(MinPriority(available)));
    }
  }

  /** Conservation: a pick from any offered subset moves weight among its candidates only. */
  lemma PickKeepsSum(before: map<Key, int>, after: map<Key, int>, model: string, channels: seq<Channel>, best: Channel)
    requires channels != [] && IsPick(before, after, model, channels, best)
    ensures Sum(CurrentsOf(after, model, channels)) == Sum(CurrentsOf(before, model, channels))
    ensures forall other: string, id: string | other != model ::
              Get(after, (other, id)) == Get(before, (other, id))
  {
    NextKeepsSum(CurrentsOf(before, model, channels), WeightsOf(channels));
    forall other: string, id: string | other != model
      ensures Get(after, (other, id)) == Get(before, (other, id))
    {
      assert !Offered((other, id), model, channels);
    }
  }
}
