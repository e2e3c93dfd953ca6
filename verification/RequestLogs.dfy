/**
 Month-sharded request logs (request_logs.py): rows are routed to the database of their month, pages are
 put together month by month, and old months are dropped whole.
 */
module RequestLogs {
  import opened Wrappers

  /** The two digits of a timestamp that name its month; nothing checks that they are 01 to 12. */
  type Month = m: nat | m < 100

  /** A timestamp: year, month, and the rest of it. */
  datatype Stamp = Stamp(year: nat, month: Month, rest: nat)

  /** One row. `raw` says whether the raw fields are still there; `source` stands for what a query may filter on. */
  datatype Row = Row(id: nat, writeId: Option<string>, ref: Option<string>, stamp: Stamp, raw: bool, source: string)

  /** One month database: its rows as inserted, and the next id it will give. */
  datatype Shard = Shard(key: nat, rows: seq<Row>, nextId: nat)

  /** The year and the month, one behind the other. */
  function KeyOf(t: Stamp): nat {
    t.year * 100 + t.month
  }

  predicate Earlier(a: Stamp, b: Stamp) {
    KeyOf(a) < KeyOf(b) || (KeyOf(a) == KeyOf(b) && a.rest < b.rest)
  }

  /** ORDER BY timestamp DESC, id DESC */
  predicate Before(a: Row, b: Row) {
    Earlier(b.stamp, a.stamp) || (KeyOf(a.stamp) == KeyOf(b.stamp) && a.stamp.rest == b.stamp.rest && a.id > b.id)
  }

  // ----- what one database answers -----

  function Matching(rows: seq<Row>, f: Row -> bool): seq<Row> {
    if rows == [] then []
    else Matching(rows[..|rows| - 1], f) + if f(rows[|rows| - 1]) then [rows[|rows| - 1]] else []
  }

  function Place(sorted: seq<Row>, r: Row): seq<Row> {
    if sorted == [] then [r]
    else if Before(r, sorted[0]) then [r] + sorted
    else [sorted[0]] + Place(sorted[1..], r)
  }

  function Sorted(rows: seq<Row>): seq<Row> {
    if rows == [] then [] else Place(Sorted(rows[..|rows| - 1]), rows[|rows| - 1])
  }

  /** LIMIT and OFFSET */
  function Slice(rows: seq<Row>, limit: nat, offset: nat): seq<Row> {
    var rest := if offset <= |rows| then rows[offset..] else [];
    if limit <= |rest| then rest[..limit] else rest
  }

  // ----- the shards as one list -----

  /** Newest month first, each in its own order. */
  function Flat(shards: seq<Shard>, f: Row -> bool): seq<Row> {
    if shards == [] then []
    else Sorted(Matching(shards[|shards| - 1].rows, f)) + Flat(shards[..|shards| - 1], f)
  }

  function All(shards: seq<Shard>): seq<Row> {
    if shards == [] then [] else All(shards[..|shards| - 1]) + shards[|shards| - 1].rows
  }

  /** Two rows that the unique indexes on write ids and references do not allow side by side. */
  predicate Clash(a: Row, b: Row) {
    (a.writeId.Some? && a.writeId == b.writeId) || (a.ref.Some? && a.ref == b.ref)
  }

  predicate Follows(a: Row, b: Row) {
    a.id < b.id && !Clash(a, b)
  }

  /** Months ascend; a row is in the database of its month, under an id, a write id and a reference of its own. */
  ghost predicate Sharded(shards: seq<Shard>) {
    && (forall i, j | 0 <= i < j < |shards| :: shards[i].key < shards[j].key)
    && (forall i | 0 <= i < |shards| :: ShardOk(shards[i]))
  }

  ghost predicate ShardOk(s: Shard) {
    && (forall j | 0 <= j < |s.rows| :: KeyOf(s.rows[j].stamp) == s.key && s.rows[j].id < s.nextId)
    && (forall j, k | 0 <= j < k < |s.rows| :: Follows(s.rows[j], s.rows[k]))
  }

  ghost predicate Ordered(rows: seq<Row>) {
    forall i, j | 0 <= i < j < |rows| :: Before(rows[i], rows[j])
  }

  lemma {:induction false} PlaceKeeps(sorted: seq<Row>, r: Row)
    ensures multiset(Place(sorted, r)) == multiset(sorted) + multiset{r}
  {
    if sorted != [] && !Before(r, sorted[0]) {
      PlaceKeeps(sorted[1..], r);
      assert sorted == [sorted[0]] + sorted[1..];
    }
  }

  lemma {:induction false} PlaceOrders(sorted: seq<Row>, r: Row)
    requires Ordered(sorted) && forall i | 0 <= i < |sorted| :: Before(r, sorted[i]) || Before(sorted[i], r)
    ensures Ordered(Place(sorted, r))
  {
    if sorted != [] && !Before(r, sorted[0]) {
      var rest := sorted[1..];
      assert forall i | 0 <= i < |rest| :: rest[i] == sorted[i + 1];
      PlaceOrders(rest, r);
      PlaceKeeps(rest, r);
      var out := Place(rest, r);
      forall j | 0 <= j < |out| ensures Before(sorted[0], out[j]) {
        assert out[j] in multiset(out);
        if out[j] != r {
          assert out[j] in rest;
        }
      }
    }
  }

  lemma {:induction false} SortedKeeps(rows: seq<Row>)
    ensures multiset(Sorted(rows)) == multiset(rows)
  {
    if rows != [] {
      var n := |rows| - 1;
      SortedKeeps(rows[..n]);
      PlaceKeeps(Sorted(rows[..n]), rows[n]);
      assert rows == rows[..n] + [rows[n]];
    }
  }

  /** No two rows compare equal. */
  ghost predicate Distinct(rows: seq<Row>) {
    forall i, j | 0 <= i < j < |rows| :: Before(rows[i], rows[j]) || Before(rows[j], rows[i])
  }

  lemma {:induction false} SortedOrders(rows: seq<Row>)
    requires Distinct(rows)
    ensures Ordered(Sorted(rows))
  {
    if rows != [] {
      var n := |rows| - 1;
      assert Distinct(rows[..n]);
      SortedOrders(rows[..n]);
      SortedKeeps(rows[..n]);
      var before := Sorted(rows[..n]);
      forall i | 0 <= i < |before| ensures Before(rows[n], before[i]) || Before(before[i], rows[n]) {
        assert before[i] in multiset(before);
        assert before[i] in rows[..n];
        var j :| 0 <= j < n && rows[..n][j] == before[i];
        assert rows[j] == before[i];
      }
      PlaceOrders(before, rows[n]);
    }
  }

  lemma BeforeIsStrict(a: Row, b: Row)
    ensures !(Before(a, b) && Before(b, a))
  {
  }

  lemma FirstIsFirst(a: seq<Row>, b: seq<Row>)
    requires Ordered(a) && Ordered(b) && multiset(a) == multiset(b) && a != []
    ensures b != [] && a[0] == b[0]
  {
    hide Before;
    assert a[0] in multiset(b);
    assert b[0] in multiset(a);
    var i :| 0 <= i < |a| && a[i] == b[0];
    var j :| 0 <= j < |b| && b[j] == a[0];
    assert i != 0 ==> Before(a[0], a[i]);
    assert j != 0 ==> Before(b[0], b[j]);
    BeforeIsStrict(a[0], b[0]);
  }

  lemma RestOrdered(a: seq<Row>)
    requires Ordered(a) && a != []
    ensures Ordered(a[1..]) && multiset(a[1..]) == multiset(a) - multiset{a[0]}
  {
    hide Before;
    assert a == [a[0]] + a[1..];
  }

  /** There is only one way to order rows. */
  lemma {:induction false} OneOrder(a: seq<Row>, b: seq<Row>)
    requires Ordered(a) && Ordered(b) && multiset(a) == multiset(b)
    ensures a == b
  {
    hide Ordered;
    if a == [] {
      assert |multiset(b)| == 0;
    } else {
      FirstIsFirst(a, b);
      RestOrdered(a);
      RestOrdered(b);
      OneOrder(a[1..], b[1..]);
      assert a == [a[0]] + a[1..] && b == [b[0]] + b[1..];
    }
  }

  lemma {:induction false} MatchingConcat(a: seq<Row>, b: seq<Row>, f: Row -> bool)
    ensures Matching(a + b, f) == Matching(a, f) + Matching(b, f)
  {
    if b == [] {
      assert a + b == a;
    } else {
      assert (a + b)[..|a + b| - 1] == a + b[..|b| - 1];
      MatchingConcat(a, b[..|b| - 1], f);
    }
  }

  ghost predicate Ascending(rows: seq<Row>) {
    forall j, k | 0 <= j < k < |rows| :: rows[j].id < rows[k].id
  }

  lemma {:induction false} MatchingAscends(rows: seq<Row>, f: Row -> bool)
    requires Ascending(rows)
    ensures Ascending(Matching(rows, f)) && forall r | r in Matching(rows, f) :: r in rows
  {
    if rows != [] {
      var n := |rows| - 1;
      MatchingAscends(rows[..n], f);
      var before := Matching(rows[..n], f);
      forall j | 0 <= j < |before| ensures before[j].id < rows[n].id {
        assert before[j] in rows[..n];
      }
    }
  }

  /** The rows of one month compare. */
  lemma MonthDistinct(rows: seq<Row>, key: nat)
    requires Ascending(rows) && forall r | r in rows :: KeyOf(r.stamp) == key
    ensures Distinct(rows)
  {
    forall i, j | 0 <= i < j < |rows| ensures Before(rows[i], rows[j]) || Before(rows[j], rows[i]) {
      assert rows[i] in rows && rows[j] in rows;
    }
  }

  lemma ShardSorted(s: Shard, f: Row -> bool)
    requires ShardOk(s)
    ensures Ordered(Sorted(Matching(s.rows, f)))
    ensures forall r | r in Sorted(Matching(s.rows, f)) :: KeyOf(r.stamp) == s.key
  {
    var m := Matching(s.rows, f);
    MatchingAscends(s.rows, f);
    MonthDistinct(m, s.key);
    SortedOrders(m);
    SortedKeeps(m);
    forall r | r in Sorted(m) ensures KeyOf(r.stamp) == s.key {
      assert r in multiset(Sorted(m));
      assert r in m;
    }
  }

  ghost predicate Below(shards: seq<Shard>, key: nat) {
    forall i | 0 <= i < |shards| :: shards[i].key < key
  }

  lemma Prefix(shards: seq<Shard>)
    requires Sharded(shards) && shards != []
    ensures Sharded(shards[..|shards| - 1]) && ShardOk(shards[|shards| - 1])
    ensures Below(shards[..|shards| - 1], shards[|shards| - 1].key)
  {
  }

  lemma {:induction false} FlatBelow(shards: seq<Shard>, f: Row -> bool, key: nat)
    requires Sharded(shards) && Below(shards, key)
    ensures forall r | r in Flat(shards, f) :: KeyOf(r.stamp) < key
  {
    if shards != [] {
      Prefix(shards);
      ShardSorted(shards[|shards| - 1], f);
      hide Sorted, Matching, ShardOk;
      FlatBelow(shards[..|shards| - 1], f, key);
    }
  }

  lemma JoinOrdered(a: seq<Row>, b: seq<Row>)
    requires Ordered(a) && Ordered(b) && forall x, y | x in a && y in b :: Before(x, y)
    ensures Ordered(a + b)
  {
    var c := a + b;
    forall i, j | 0 <= i < j < |c| ensures Before(c[i], c[j]) {
      if i < |a| <= j { assert c[i] in a && c[j] in b; }
    }
  }

  lemma {:induction false} FlatOrdered(shards: seq<Shard>, f: Row -> bool)
    requires Sharded(shards)
    ensures Ordered(Flat(shards, f)) && multiset(Flat(shards, f)) == multiset(Matching(All(shards), f))
  {
    if shards != [] {
      var init, last := shards[..|shards| - 1], shards[|shards| - 1];
      Prefix(shards);
      FlatOrdered(init, f);
      FlatBelow(init, f, last.key);
      ShardSorted(last, f);
      SortedKeeps(Matching(last.rows, f));
      MatchingConcat(All(init), last.rows, f);
      hide Sorted, Matching, Sharded, Ordered;
      JoinOrdered(Sorted(Matching(last.rows, f)), Flat(init, f));
    }
  }

  /** Reading month by month is reading one sorted list. */
  lemma FlatIsSorted(shards: seq<Shard>, f: Row -> bool)
    requires Sharded(shards)
    ensures Flat(shards, f) == Sorted(Matching(All(shards), f))
  {
    FlatOrdered(shards, f);
    SortedKeeps(Matching(All(shards), f));
    AllDistinct(shards, f);
    SortedOrders(Matching(All(shards), f));
    OneOrder(Flat(shards, f), Sorted(Matching(All(shards), f)));
  }

  lemma {:induction false} AllDistinct(shards: seq<Shard>, f: Row -> bool)
    requires Sharded(shards)
    ensures Distinct(Matching(All(shards), f))
    ensures forall r | r in Matching(All(shards), f) :: shards != [] && KeyOf(r.stamp) <= shards[|shards| - 1].key
  {
    if shards != [] {
      var init, last := shards[..|shards| - 1], shards[|shards| - 1];
      Prefix(shards);
      AllDistinct(init, f);
      var a, b := Matching(All(init), f), Matching(last.rows, f);
      MatchingConcat(All(init), last.rows, f);
      MatchingAscends(last.rows, f);
      MonthDistinct(b, last.key);
      hide Matching, All;
      forall i, j | 0 <= i < j < |a + b| ensures Before((a + b)[i], (a + b)[j]) || Before((a + b)[j], (a + b)[i]) {
        if i < |a| <= j {
          assert a[i] in a && b[j - |a|] in b;
        }
      }
      forall r | r in a + b ensures KeyOf(r.stamp) <= last.key {
      }
    }
  }

  // ----- writing and cleaning up -----

  predicate Taken(rows: seq<Row>, r: Row) {
    exists i | 0 <= i < |rows| :: Clash(rows[i], r)
  }

  /** INSERT OR IGNORE into the database of the month. */
  function Insert(s: Shard, r: Row): Shard {
    if Taken(s.rows, r) then s else Shard(s.key, s.rows + [r.(id := s.nextId)], s.nextId + 1)
  }

  /** `_write_record_sync`: a new month gets a new database. */
  function Write(shards: seq<Shard>, r: Row): seq<Shard> {
    if shards == [] then [Insert(Shard(KeyOf(r.stamp), [], 1), r)]
    else
      var n, last := |shards| - 1, shards[|shards| - 1];
      if last.key == KeyOf(r.stamp) then shards[..n] + [Insert(last, r)]
      else if last.key < KeyOf(r.stamp) then shards + [Insert(Shard(KeyOf(r.stamp), [], 1), r)]
      else Write(shards[..n], r) + [last]
  }

  lemma {:induction false} WriteBelow(shards: seq<Shard>, r: Row, key: nat)
    requires Below(shards, key) && KeyOf(r.stamp) < key
    ensures Below(Write(shards, r), key)
  {
    hide Taken;
    if shards != [] { WriteBelow(shards[..|shards| - 1], r, key); }
  }

  lemma InsertOk(s: Shard, r: Row)
    requires ShardOk(s) && KeyOf(r.stamp) == s.key
    ensures ShardOk(Insert(s, r)) && Insert(s, r).key == s.key
  {
  }

  lemma Append(shards: seq<Shard>, last: Shard)
    requires Sharded(shards) && Below(shards, last.key) && ShardOk(last)
    ensures Sharded(shards + [last])
  {
  }

  lemma {:induction false} WriteKeeps(shards: seq<Shard>, r: Row)
    requires Sharded(shards)
    ensures Sharded(Write(shards, r))
  {
    hide Sharded, ShardOk, Insert;
    var made := Shard(KeyOf(r.stamp), [], 1);
    NewShard(made);
    InsertOk(made, r);
    if shards == [] {
      NoShards();
      assert [] + [Insert(made, r)] == [Insert(made, r)];
      Append([], Insert(made, r));
    } else {
      var init, last := shards[..|shards| - 1], shards[|shards| - 1];
      Prefix(shards);
      if last.key == KeyOf(r.stamp) {
        InsertOk(last, r);
        Append(init, Insert(last, r));
      } else if last.key < KeyOf(r.stamp) {
        AllBelow(shards, KeyOf(r.stamp));
        Append(shards, Insert(made, r));
      } else {
        WriteKeeps(init, r);
        WriteBelow(init, r, last.key);
        Append(Write(init, r), last);
      }
    }
  }

  lemma NewShard(s: Shard)
    requires s.rows == []
    ensures ShardOk(s)
  {
  }

  lemma NoShards()
    ensures Sharded([]) && forall key :: Below([], key)
  {
  }

  lemma AllBelow(shards: seq<Shard>, key: nat)
    requires Sharded(shards) && shards != [] && shards[|shards| - 1].key < key
    ensures Below(shards, key)
  {
  }

  function MonthRows(shards: seq<Shard>, key: nat): seq<Row> {
    if shards == [] then []
    else if shards[|shards| - 1].key == key then shards[|shards| - 1].rows
    else MonthRows(shards[..|shards| - 1], key)
  }

  lemma {:induction false} MonthAbsent(shards: seq<Shard>, key: nat)
    requires forall i | 0 <= i < |shards| :: shards[i].key != key
    ensures MonthRows(shards, key) == []
  {
    if shards != [] { MonthAbsent(shards[..|shards| - 1], key); }
  }

  lemma AllSnoc(shards: seq<Shard>, last: Shard)
    ensures All(shards + [last]) == All(shards) + last.rows
  {
    assert (shards + [last])[..|shards|] == shards;
  }

  lemma {:induction false} WriteInserts(shards: seq<Shard>, r: Row) returns (id: nat)
    requires Sharded(shards)
    ensures multiset(All(Write(shards, r))) ==
            multiset(All(shards))
            + if Taken(MonthRows(shards, KeyOf(r.stamp)), r) then multiset{} else multiset{r.(id := id)}
  {
    hide Taken, Sharded, ShardOk;
    var key := KeyOf(r.stamp);
    var made := Insert(Shard(key, [], 1), r);
    if shards == [] {
      id := 1;
      AllSnoc([], made);
      NotTaken(r);
    } else {
      var init, last := shards[..|shards| - 1], shards[|shards| - 1];
      Prefix(shards);
      if last.key == key {
        id := last.nextId;
        AllSnoc(init, Insert(last, r));
      } else if last.key < key {
        id := 1;
        AllBelow(shards, key);
        MonthAbsent(shards, key);
        AllSnoc(shards, made);
        NotTaken(r);
      } else {
        id := WriteInserts(init, r);
        AllSnoc(Write(init, r), last);
      }
    }
  }

  lemma NotTaken(r: Row)
    ensures !Taken([], r)
  {
  }

  /** The rows of a month are in its database. */
  lemma {:induction false} MonthIs(shards: seq<Shard>, key: nat)
    requires Sharded(shards)
    ensures forall x :: x in MonthRows(shards, key) <==> x in All(shards) && KeyOf(x.stamp) == key
  {
    if shards != [] {
      var init, last := shards[..|shards| - 1], shards[|shards| - 1];
      Prefix(shards);
      MonthIs(init, key);
      KeyOfRows(last);
      if last.key == key { MonthAbsent(init, key); }
      hide Sharded, ShardOk, MonthRows, KeyOf;
      MonthLast(shards, key);
      assert All(shards) == All(init) + last.rows;
    }
  }

  lemma MonthLast(shards: seq<Shard>, key: nat)
    requires shards != []
    ensures MonthRows(shards, key) ==
            if shards[|shards| - 1].key == key then shards[|shards| - 1].rows
            else MonthRows(shards[..|shards| - 1], key)
  {
  }

  lemma KeyOfRows(s: Shard)
    requires ShardOk(s)
    ensures forall x | x in s.rows :: KeyOf(x.stamp) == s.key
  {
  }

  /** A row of the same month with the same write id or the same reference. */
  ghost predicate InTheWay(shards: seq<Shard>, r: Row) {
    exists x :: x in All(shards) && x.stamp.year == r.stamp.year && x.stamp.month == r.stamp.month
                && ((x.writeId.Some? && x.writeId == r.writeId) || (x.ref.Some? && x.ref == r.ref))
  }

  lemma TakenIsInTheWay(shards: seq<Shard>, r: Row)
    requires Sharded(shards)
    ensures Taken(MonthRows(shards, KeyOf(r.stamp)), r) <==> InTheWay(shards, r)
  {
    var key := KeyOf(r.stamp);
    var rows := MonthRows(shards, key);
    MonthIs(shards, key);
    hide Sharded, MonthRows, All;
    if Taken(rows, r) {
      var i :| 0 <= i < |rows| && Clash(rows[i], r);
      assert rows[i] in rows;
    }
    if InTheWay(shards, r) {
      var x :| x in All(shards) && x.stamp.year == r.stamp.year && x.stamp.month == r.stamp.month
               && ((x.writeId.Some? && x.writeId == r.writeId) || (x.ref.Some? && x.ref == r.ref));
      var i :| 0 <= i < |rows| && rows[i] == x;
      assert Clash(rows[i], r);
    }
  }

  /** A write adds its row under a new id, or nothing when its month has the write id or the reference; nothing else
      changes. */
  lemma WriteAdds(shards: seq<Shard>, r: Row) returns (id: nat)
    requires Sharded(shards)
    ensures multiset(All(Write(shards, r))) ==
            multiset(All(shards)) + if InTheWay(shards, r) then multiset{} else multiset{r.(id := id)}
  {
    hide Sharded, Taken, InTheWay, All, MonthRows, Write;
    TakenIsInTheWay(shards, r);
    id := WriteInserts(shards, r);
  }

  /** The first instant after a month, if its number is one that a date can have. */
  function MonthEnd(key: nat): Option<Stamp> {
    var year, month := key / 100, key % 100;
    if month > 12 then None else if month == 12 then Some(Stamp(year + 1, 1, 0)) else Some(Stamp(year, month + 1, 0))
  }

  lemma MonthEndsAfter(key: nat)
    requires MonthEnd(key).Some?
    ensures KeyOf(MonthEnd(key).value) > key
  {
  }

  predicate Keeps(cutoff: Option<Stamp>, r: Row) {
    cutoff.None? || !Earlier(r.stamp, cutoff.value)
  }

  function ClearRaw(rawCutoff: Option<Stamp>, r: Row): Row {
    if rawCutoff.Some? && Earlier(r.stamp, rawCutoff.value) then r.(raw := false) else r
  }

  /** The rows at or after the cutoff, those before the other cutoff without their raw fields. */
  function CleanRows(rows: seq<Row>, cutoff: Option<Stamp>, rawCutoff: Option<Stamp>): seq<Row> {
    if rows == [] then []
    else
      var last := rows[|rows| - 1];
      CleanRows(rows[..|rows| - 1], cutoff, rawCutoff) + if Keeps(cutoff, last) then [ClearRaw(rawCutoff, last)] else []
  }

  /** The whole month is over by the cutoff. */
  predicate Expired(s: Shard, cutoff: Option<Stamp>) {
    cutoff.Some? && MonthEnd(s.key).Some? && !Earlier(cutoff.value, MonthEnd(s.key).value)
  }

  /** A month is dropped whole exactly if the cutoff, which is a date, is in a later one. */
  lemma ExpiredIff(s: Shard, cutoff: Option<Stamp>)
    requires s.key % 100 <= 12 && (cutoff.Some? ==> 1 <= cutoff.value.month <= 12)
    ensures Expired(s, cutoff) <==>
            cutoff.Some? && (cutoff.value.year > s.key / 100
                             || (cutoff.value.year == s.key / 100 && cutoff.value.month > s.key % 100))
  {
    hide Earlier, KeyOf;
    var year, month := s.key / 100, s.key % 100;
    if cutoff.Some? {
      MonthEndIs(s.key);
      EarlierIsOlder(cutoff.value, MonthEnd(s.key).value);
    }
    hide MonthEnd;
  }

  lemma MonthEndIs(key: nat)
    requires key % 100 <= 12
    ensures MonthEnd(key) == Some(if key % 100 == 12 then Stamp(key / 100 + 1, 1, 0)
                                  else Stamp(key / 100, key % 100 + 1, 0))
  {
  }

  /** `_cleanup_old_records_sync` */
  function Clean(shards: seq<Shard>, cutoff: Option<Stamp>, rawCutoff: Option<Stamp>): seq<Shard> {
    if shards == [] then []
    else
      var last := shards[|shards| - 1];
      Clean(shards[..|shards| - 1], cutoff, rawCutoff)
      + if Expired(last, cutoff) then [] else [last.(rows := CleanRows(last.rows, cutoff, rawCutoff))]
  }

  lemma {:induction false} CleanRowsConcat(a: seq<Row>, b: seq<Row>, cutoff: Option<Stamp>, rawCutoff: Option<Stamp>)
    ensures CleanRows(a + b, cutoff, rawCutoff) == CleanRows(a, cutoff, rawCutoff) + CleanRows(b, cutoff, rawCutoff)
  {
    if b == [] {
      assert a + b == a;
    } else {
      assert (a + b)[..|a + b| - 1] == a + b[..|b| - 1];
      CleanRowsConcat(a, b[..|b| - 1], cutoff, rawCutoff);
    }
  }

  lemma {:induction false} NoneKept(rows: seq<Row>, cutoff: Option<Stamp>, rawCutoff: Option<Stamp>)
    requires forall i | 0 <= i < |rows| :: !Keeps(cutoff, rows[i])
    ensures CleanRows(rows, cutoff, rawCutoff) == []
  {
    if rows != [] { NoneKept(rows[..|rows| - 1], cutoff, rawCutoff); }
  }

  lemma ExpiredKeepsNone(s: Shard, cutoff: Option<Stamp>, rawCutoff: Option<Stamp>)
    requires ShardOk(s) && Expired(s, cutoff)
    ensures CleanRows(s.rows, cutoff, rawCutoff) == []
  {
    MonthEndsAfter(s.key);
    NoneKept(s.rows, cutoff, rawCutoff);
  }

  /** Dropping whole months and deleting rows leaves exactly the rows at or after the cutoff. */
  lemma {:induction false} CleanIsFilter(shards: seq<Shard>, cutoff: Option<Stamp>, rawCutoff: Option<Stamp>)
    requires Sharded(shards)
    ensures All(Clean(shards, cutoff, rawCutoff)) == CleanRows(All(shards), cutoff, rawCutoff)
  {
    if shards != [] {
      var init, last := shards[..|shards| - 1], shards[|shards| - 1];
      Prefix(shards);
      CleanIsFilter(init, cutoff, rawCutoff);
      CleanRowsConcat(All(init), last.rows, cutoff, rawCutoff);
      if Expired(last, cutoff) {
        ExpiredKeepsNone(last, cutoff, rawCutoff);
      }
      hide CleanRows, Expired, Sharded, ShardOk;
      var before := Clean(init, cutoff, rawCutoff);
      var more := if Expired(last, cutoff) then [] else [last.(rows := CleanRows(last.rows, cutoff, rawCutoff))];
      assert Clean(shards, cutoff, rawCutoff) == before + more;
      if more == [] {
        assert before + more == before;
      } else {
        assert (before + more)[..|before|] == before;
      }
    }
  }

  lemma {:induction false} CleanShardOk(s: Shard, n: nat, cutoff: Option<Stamp>, rawCutoff: Option<Stamp>)
    requires ShardOk(s) && n <= |s.rows|
    ensures ShardOk(s.(rows := CleanRows(s.rows[..n], cutoff, rawCutoff)))
    ensures forall r, k | r in CleanRows(s.rows[..n], cutoff, rawCutoff) && n <= k < |s.rows| :: Follows(r, s.rows[k])
  {
    if n != 0 {
      CleanShardOk(s, n - 1, cutoff, rawCutoff);
      assert s.rows[..n][..n - 1] == s.rows[..n - 1];
      var last := ClearRaw(rawCutoff, s.rows[n - 1]);
      assert forall k | n <= k < |s.rows| :: Follows(last, s.rows[k]);
      var before := CleanRows(s.rows[..n - 1], cutoff, rawCutoff);
      forall j | 0 <= j < |before| ensures Follows(before[j], last) {
        assert before[j] in before;
      }
      hide Keeps, ClearRaw, Clash;
    }
  }

  lemma {:induction false} CleanBelow(shards: seq<Shard>, cutoff: Option<Stamp>, rawCutoff: Option<Stamp>, key: nat)
    requires Below(shards, key)
    ensures Below(Clean(shards, cutoff, rawCutoff), key)
  {
    hide Expired, CleanRows;
    if shards != [] { CleanBelow(shards[..|shards| - 1], cutoff, rawCutoff, key); }
  }

  lemma {:induction false} CleanKeeps(shards: seq<Shard>, cutoff: Option<Stamp>, rawCutoff: Option<Stamp>)
    requires Sharded(shards)
    ensures Sharded(Clean(shards, cutoff, rawCutoff))
  {
    hide Sharded, ShardOk, CleanRows, Expired;
    if shards == [] {
      NoShards();
    } else {
      var init, last := shards[..|shards| - 1], shards[|shards| - 1];
      Prefix(shards);
      CleanKeeps(init, cutoff, rawCutoff);
      CleanBelow(init, cutoff, rawCutoff, last.key);
      CleanShardOk(last, |last.rows|, cutoff, rawCutoff);
      assert last.rows[..|last.rows|] == last.rows;
      Append(Clean(init, cutoff, rawCutoff), last.(rows := CleanRows(last.rows, cutoff, rawCutoff)));
      assert Clean(init, cutoff, rawCutoff) + [] == Clean(init, cutoff, rawCutoff);
    }
  }

  predicate Older(a: Stamp, b: Stamp) {
    || a.year < b.year
    || (a.year == b.year && a.month < b.month)
    || (a.year == b.year && a.month == b.month && a.rest < b.rest)
  }

  /** What is left is each row that is not older than the cutoff, with its raw fields unless it is older than the
      cutoff of those. */
  lemma {:induction false} CleanLeaves(rows: seq<Row>, cutoff: Option<Stamp>, rawCutoff: Option<Stamp>)
    ensures forall x ::
              x in CleanRows(rows, cutoff, rawCutoff) <==>
              exists r :: r in rows && (cutoff.None? || !Older(r.stamp, cutoff.value))
                          && x == if rawCutoff.Some? && Older(r.stamp, rawCutoff.value) then r.(raw := false) else r
  {
    if rows != [] {
      var n := |rows| - 1;
      var last := rows[n];
      CleanLeaves(rows[..n], cutoff, rawCutoff);
      if cutoff.Some? { EarlierIsOlder(last.stamp, cutoff.value); }
      if rawCutoff.Some? { EarlierIsOlder(last.stamp, rawCutoff.value); }
      hide Older, Earlier;
      assert rows == rows[..n] + [last];
      assert forall r :: r in rows <==> r in rows[..n] || r == last;
    }
  }

  lemma EarlierIsOlder(a: Stamp, b: Stamp)
    ensures Earlier(a, b) <==> Older(a, b)
  {
  }

  // ----- paging -----

  function Size(pageSize: int): nat {
    if pageSize > 100 then 100 else if pageSize < 1 then 1 else pageSize
  }

  function Offset(page: int, pageSize: int): nat {
    if page < 1 then 0 else (page - 1) * Size(pageSize)
  }

  /** The page of one flat sorted list of all matching rows. */
  function PageOf(shards: seq<Shard>, f: Row -> bool, page: int, pageSize: int): seq<Row> {
    Slice(Sorted(Matching(All(shards), f)), Size(pageSize), Offset(page, pageSize))
  }

  function FirstPages(rows: seq<Row>, size: nat, count: nat): seq<Row> {
    if count == 0 then [] else FirstPages(rows, size, count - 1) + Slice(rows, size, (count - 1) * size)
  }

  lemma {:induction false} SlicesTile(rows: seq<Row>, size: nat, count: nat)
    ensures FirstPages(rows, size, count) == if count * size <= |rows| then rows[..count * size] else rows
  {
    if count != 0 {
      SlicesTile(rows, size, count - 1);
      assert (count - 1) * size + size == count * size;
      hide FirstPages;
      NextPage(rows, size, (count - 1) * size);
    }
  }

  lemma NextPage(rows: seq<Row>, size: nat, done: nat)
    ensures (if done <= |rows| then rows[..done] else rows) + Slice(rows, size, done) ==
            if done + size <= |rows| then rows[..done + size] else rows
  {
  }

  /** Later, or as late and inserted later. */
  predicate Newer(a: Row, b: Row) {
    || a.stamp.year > b.stamp.year
    || (a.stamp.year == b.stamp.year && a.stamp.month > b.stamp.month)
    || (a.stamp.year == b.stamp.year && a.stamp.month == b.stamp.month && a.stamp.rest > b.stamp.rest)
    || (a.stamp == b.stamp && a.id > b.id)
  }

  /** All matching rows, as often as they are there, the newest first. */
  ghost predicate Listing(list: seq<Row>, rows: seq<Row>, f: Row -> bool) {
    && (forall i, j | 0 <= i < j < |list| :: Newer(list[i], list[j]))
    && (forall r :: multiset(list)[r] == if f(r) then multiset(rows)[r] else 0)
  }

  /** The pages that are served, one behind the other. */
  function ServedPages(shards: seq<Shard>, f: Row -> bool, pageSize: int, count: nat): seq<Row> {
    if count == 0 then [] else ServedPages(shards, f, pageSize, count - 1) + PageOf(shards, f, count, pageSize)
  }

  lemma {:induction false} ServedAreSlices(shards: seq<Shard>, f: Row -> bool, pageSize: int, count: nat)
    ensures ServedPages(shards, f, pageSize, count) ==
            FirstPages(Sorted(Matching(All(shards), f)), Size(pageSize), count)
  {
    hide Sorted, Matching, All, Slice, Size;
    if count != 0 { ServedAreSlices(shards, f, pageSize, count - 1); }
  }

  lemma {:induction false} MatchingIs(rows: seq<Row>, f: Row -> bool)
    ensures forall r :: multiset(Matching(rows, f))[r] == if f(r) then multiset(rows)[r] else 0
  {
    if rows != [] {
      var n := |rows| - 1;
      MatchingIs(rows[..n], f);
      assert rows == rows[..n] + [rows[n]];
    }
  }

  lemma FlatIsListing(shards: seq<Shard>, f: Row -> bool)
    requires Sharded(shards)
    ensures Listing(Sorted(Matching(All(shards), f)), All(shards), f)
  {
    hide Sharded, Flat, Sorted, Matching, All, Before, Newer;
    var rows := Matching(All(shards), f);
    var list := Sorted(rows);
    FlatOrdered(shards, f);
    FlatIsSorted(shards, f);
    SortedKeeps(rows);
    MatchingIs(All(shards), f);
    forall i, j | 0 <= i < j < |list| ensures Newer(list[i], list[j]) {
      BeforeIsNewer(list[i], list[j]);
    }
  }

  lemma BeforeIsNewer(a: Row, b: Row)
    ensures Before(a, b) <==> Newer(a, b)
  {
  }

  /** The pages tile the list of all matching rows, the newest first, without gap and without repeat. A page has from 1
      to 100 rows, whatever is asked for, and there is none before the first. */
  lemma PagesTile(shards: seq<Shard>, f: Row -> bool, pageSize: int, count: nat) returns (list: seq<Row>)
    requires Sharded(shards)
    ensures Listing(list, All(shards), f)
    ensures var size := if pageSize < 1 then 1 else if pageSize > 100 then 100 else pageSize;
            ServedPages(shards, f, pageSize, count) == if count * size <= |list| then list[..count * size] else list
    ensures forall page | page < 1 :: PageOf(shards, f, page, pageSize) == PageOf(shards, f, 1, pageSize)
  {
    hide Sharded, Sorted, Matching, All, Slice, FirstPages, ServedPages, Listing;
    list := Sorted(Matching(All(shards), f));
    FlatIsListing(shards, f);
    ServedAreSlices(shards, f, pageSize, count);
    SlicesTile(list, Size(pageSize), count);
  }

  /** What has been collected after some months, and how much is still to skip. */
  ghost predicate Collected(flat: seq<Row>, size: nat, offset: nat, skip: nat, items: seq<Row>) {
    && (if |flat| <= offset then skip == offset - |flat| else skip == 0)
    && items == Slice(flat, size, offset)
  }

  lemma CollectNext(flat: seq<Row>, size: nat, offset: nat, skip: nat, items: seq<Row>, month: seq<Row>)
    requires Collected(flat, size, offset, skip, items)
    ensures |items| <= size
    ensures var more := Slice(month, size - |items|, skip);
            if skip >= |month| then Collected(flat + month, size, offset, skip - |month|, items)
            else Collected(flat + month, size, offset, 0, items + more)
  {
    var next := flat + month;
    if skip >= |month| {
      if offset <= |flat| {
        assert month == [] && next == flat;
      }
    } else if |flat| <= offset {
      assert items == [];
      assert next[offset..] == month[skip..];
    } else {
      assert skip == 0 && next[offset..] == flat[offset..] + month;
    }
  }

  lemma WriteBefore(shards: seq<Shard>, r: Row, i: nat)
    requires 0 < i <= |shards| && shards[i - 1].key > KeyOf(r.stamp)
    ensures Write(shards[..i], r) + shards[i..] == Write(shards[..i - 1], r) + shards[i - 1..]
  {
    hide Insert;
    assert shards[..i][..i - 1] == shards[..i - 1];
    assert [shards[i - 1]] + shards[i..] == shards[i - 1..];
  }

  /** The database directory. */
  class RequestLogBackend {
    var shards: seq<Shard>

    ghost predicate Good()
      reads this
    {
      Sharded(shards)
    }

    constructor ()
      ensures Good() && All(shards) == []
    {
      shards := [];
    }

    method WriteRecord(r: Row)
      requires Good()
      modifies this
      ensures Good() && shards == Write(old(shards), r)
    {
      hide Sharded, Insert;
      WriteKeeps(shards, r);
      var i := |shards|;
      assert shards[..i] == shards && shards[i..] == [];
      while i > 0 && shards[i - 1].key > KeyOf(r.stamp)
        invariant 0 <= i <= |shards|
        invariant shards == old(shards) && Write(shards, r) == Write(shards[..i], r) + shards[i..]
      {
        WriteBefore(shards, r, i);
        i := i - 1;
      }
      assert i > 0 ==> shards[..i][..i - 1] == shards[..i - 1];
      var placed: seq<Shard>;
      if i > 0 && shards[i - 1].key == KeyOf(r.stamp) {
        placed := shards[..i - 1] + [Insert(shards[i - 1], r)];
      } else {
        placed := shards[..i] + [Insert(Shard(KeyOf(r.stamp), [], 1), r)];
        assert [] + [Insert(Shard(KeyOf(r.stamp), [], 1), r)] == [Insert(Shard(KeyOf(r.stamp), [], 1), r)];
      }
      shards := placed + shards[i..];
    }

    /** `_list_requests_sync` */
    method ListRequests(f: Row -> bool, page: int, pageSize: int) returns (items: seq<Row>, total: nat)
      requires Good()
      ensures items == PageOf(shards, f, page, pageSize)
      ensures total == |Matching(All(shards), f)|
    {
      var size, offset := Size(pageSize), Offset(page, pageSize);
      hide Sharded, Sorted, Matching, Slice, Offset, Size;
      var remainingSkip: nat := offset;
      items, total := [], 0;
      ghost var flat: seq<Row> := [];
      NothingYet(size, offset);
      var i := |shards|;
      assert shards[..i] == shards && [] + Flat(shards, f) == Flat(shards, f);
      while i > 0
        invariant 0 <= i <= |shards| && Flat(shards, f) == flat + Flat(shards[..i], f)
        invariant Collected(flat, size, offset, remainingSkip, items) && total == |flat|
      {
        i := i - 1;
        var month := Sorted(Matching(shards[i].rows, f));
        FlatNext(shards, f, i);
        CollectNext(flat, size, offset, remainingSkip, items, month);
        var rows := Slice(month, size - |items|, remainingSkip);
        total := total + |month|;
        assert flat + (month + Flat(shards[..i], f)) == (flat + month) + Flat(shards[..i], f);
        flat := flat + month;
        if remainingSkip >= |month| {
          remainingSkip := remainingSkip - |month|;
        } else {
          remainingSkip := 0;
          items := items + rows;
        }
      }
      FlatIsSorted(shards, f);
      SortedLength(Matching(All(shards), f));
      assert shards[..0] == [] && flat + [] == flat;
    }

    /** `_cleanup_old_records_sync`, with the number of databases it removed. With a cutoff it needs the end of
        every month there is. */
    method CleanupOldRecords(cutoff: Option<Stamp>, rawCutoff: Option<Stamp>) returns (monthsDeleted: nat)
      requires Good()
      requires cutoff.Some? ==> forall i | 0 <= i < |shards| :: MonthEnd(shards[i].key).Some?
      modifies this
      ensures Good() && All(shards) == CleanRows(old(All(shards)), cutoff, rawCutoff)
      ensures |shards| == |old(shards)| - monthsDeleted
    {
      hide Sharded, Expired, CleanRows, Clean, All;
      ghost var before := shards;
      CleanNone(cutoff, rawCutoff);
      CleanKeeps(shards, cutoff, rawCutoff);
      CleanIsFilter(shards, cutoff, rawCutoff);
      var kept := [];
      monthsDeleted := 0;
      for i := 0 to |shards|
        invariant shards == before && kept == Clean(shards[..i], cutoff, rawCutoff) && |kept| == i - monthsDeleted
      {
        CleanNext(shards, cutoff, rawCutoff, i);
        if Expired(shards[i], cutoff) {
          assert kept + [] == kept;
          monthsDeleted := monthsDeleted + 1;
        } else {
          kept := kept + [shards[i].(rows := CleanRows(shards[i].rows, cutoff, rawCutoff))];
        }
      }
      assert shards[..|shards|] == shards;
      shards := kept;
    }
  }

  lemma NothingYet(size: nat, offset: nat)
    ensures Collected([], size, offset, offset, [])
  {
  }

  lemma CleanNone(cutoff: Option<Stamp>, rawCutoff: Option<Stamp>)
    ensures Clean([], cutoff, rawCutoff) == []
  {
  }

  lemma CleanNext(shards: seq<Shard>, cutoff: Option<Stamp>, rawCutoff: Option<Stamp>, i: nat)
    requires i < |shards|
    ensures Clean(shards[..i + 1], cutoff, rawCutoff) ==
            Clean(shards[..i], cutoff, rawCutoff)
            + if Expired(shards[i], cutoff) then []
              else [shards[i].(rows := CleanRows(shards[i].rows, cutoff, rawCutoff))]
  {
    assert shards[..i + 1][..i] == shards[..i];
  }

  lemma FlatNext(shards: seq<Shard>, f: Row -> bool, i: nat)
    requires i < |shards|
    ensures Flat(shards[..i + 1], f) == Sorted(Matching(shards[i].rows, f)) + Flat(shards[..i], f)
  {
    assert shards[..i + 1][..i] == shards[..i];
  }

  lemma SortedLength(rows: seq<Row>)
    ensures |Sorted(rows)| == |rows|
  {
    SortedKeeps(rows);
    assert |multiset(Sorted(rows))| == |multiset(rows)|;
  }
}
