/**
 The write-behind queue (db_write_behind.py) as a state machine: records are queued, taken by workers,
 written, spilled to the overflow file and replayed, in any interleaving, while writes fail, time out
 or land late in a table of one month with unique references and write ids (request_logs.py).
 */
module WriteBehind {
  import opened Wrappers

  /** `request_ref` and the rest of a record. */
  datatype Rec = Rec(ref: Option<int>, body: int)

  /** A record as it is written: with the write id of its line, or without one when it comes from the queue. */
  datatype Entry = Entry(rec: Rec, id: Option<nat>)

  /** A line of the overflow file; what does not parse is kept as it is. */
  datatype Line = Row(entry: Entry) | Junk(text: string)

  /** What a write comes to: acknowledged, refused, or given up on while it may still land. */
  datatype Write = Wrote | Failed | TimedOut

  datatype Replay = Idle | Reading(todo: seq<Line>, current: Option<Entry>, failed: seq<Line>)

  /** `late` are writes that were given up on; `nextId` stands for an id no line has yet. The other fields from
      `lines` on are the books of the run: the numbered lines there were, what came in, what was acknowledged from
      the queue and from the file, and what a worker held when it was cancelled. */
  datatype Sys = Sys(
    maxsize: int,
    queue: seq<Rec>,
    workers: seq<Option<Rec>>,
    replay: Replay,
    file: seq<Line>,
    table: seq<Entry>,
    late: multiset<Entry>,
    nextId: nat,
    lines: set<Entry>,
    accepted: multiset<Rec>,
    direct: multiset<Rec>,
    replayed: multiset<Rec>,
    lost: multiset<Rec>)

  datatype Event =
    | Enqueue(rec: Rec)
    | StartWorker
    | Take(worker: nat)
    | Finish(worker: nat, write: Write)
    | Cancel(worker: nat)
    | StartReplay
    | ReadLine
    | FinishReplay(write: Write)
    | EndReplay
    | Land(entry: Entry)
    | Vanish(entry: Entry)

  // ----- the moves -----

  /** INSERT OR IGNORE with unique indexes on the references and on the write ids that are there. */
  function Insert(table: seq<Entry>, e: Entry): seq<Entry> {
    if Taken(table, e) then table else table + [e]
  }

  predicate Clash(a: Entry, b: Entry) {
    (a.rec.ref.Some? && a.rec.ref == b.rec.ref) || (a.id.Some? && a.id == b.id)
  }

  predicate Taken(table: seq<Entry>, e: Entry) {
    exists i | 0 <= i < |table| :: Clash(e, table[i])
  }

  predicate Full(s: Sys) {
    s.maxsize > 0 && |s.queue| >= s.maxsize
  }

  /** `_write_one` as far as the table sees it. */
  function Attempt(s: Sys, e: Entry, w: Write): Sys {
    match w
    case Wrote =>
      if e.id.None? then s.(table := Insert(s.table, e), direct := s.direct + multiset{e.rec})
      else s.(table := Insert(s.table, e), replayed := s.replayed + multiset{e.rec})
    case Failed => s
    case TimedOut => s.(late := s.late + multiset{e})
  }

  /** A spilled record gets the write id of its line. */
  function Spill(s: Sys, r: Rec): Sys {
    var e := Entry(r, Some(s.nextId));
    s.(file := s.file + [Row(e)], nextId := s.nextId + 1, lines := s.lines + {e})
  }

  /** One write of a record that is spilled if it is not acknowledged. */
  function WriteOrSpill(s: Sys, r: Rec, w: Write): Sys {
    var after := Attempt(s, Entry(r, None), w);
    if w == Wrote then after else Spill(after, r)
  }

  /** One step of the program; a step that is not possible changes nothing. */
  function Next(s: Sys, e: Event): Sys {
    match e
    case Enqueue(r) =>
      var s' := s.(accepted := s.accepted + multiset{r});
      if Full(s) then Spill(s', r) else s'.(queue := s.queue + [r])
    case StartWorker => s.(workers := s.workers + [None])
    case Take(i) =>
      if i < |s.workers| && s.workers[i].None? && s.queue != []
      then s.(workers := s.workers[i := Some(s.queue[0])], queue := s.queue[1..]) else s
    case Finish(i, w) =>
      if i < |s.workers| && s.workers[i].Some?
      then WriteOrSpill(s.(workers := s.workers[i := None]), s.workers[i].value, w) else s
    case Cancel(i) =>
      if i < |s.workers| then
        var rest := s.workers[..i] + s.workers[i + 1..];
        if s.workers[i].None? then s.(workers := rest)
        else
          var r := s.workers[i].value;
          s.(workers := rest, lost := s.lost + multiset{r}, late := s.late + multiset{Entry(r, None)})
      else s
    case StartReplay => if s.replay.Idle? then s.(replay := Reading(s.file, None, []), file := []) else s
    case ReadLine => if s.replay.Reading? && s.replay.current.None? && s.replay.todo != [] then Read(s) else s
    case FinishReplay(w) =>
      if s.replay.Reading? && s.replay.current.Some? then
        Attempt(s.(replay := AfterReplay(s.replay, w)), s.replay.current.value, w)
      else s
    case EndReplay =>
      if s.replay.Reading? && s.replay.current.None? && s.replay.todo == []
      then s.(file := s.file + s.replay.failed, replay := Idle) else s
    case Land(e') => if e' in s.late then s.(late := s.late - multiset{e'}, table := Insert(s.table, e')) else s
    case Vanish(e') => if e' in s.late then s.(late := s.late - multiset{e'}) else s
  }

  /** The next line: a record to write, under a new id if its line has none, or one to keep. */
  function Read(s: Sys): Sys
    requires s.replay.Reading? && s.replay.current.None? && s.replay.todo != []
  {
    var p, line := s.replay, s.replay.todo[0];
    match line
    case Row(e) =>
      var e' := if e.id.Some? then e else Entry(e.rec, Some(s.nextId));
      s.(replay := Reading(p.todo[1..], Some(e'), p.failed), nextId := s.nextId + 1, lines := s.lines + {e'})
    case Junk(_) => s.(replay := Reading(p.todo[1..], None, p.failed + [line]))
  }

  /** What was not acknowledged goes back to the file, with its id. */
  function AfterReplay(p: Replay, w: Write): Replay
    requires p.Reading? && p.current.Some?
  {
    p.(current := None, failed := if w == Wrote then p.failed else p.failed + [Row(p.current.value)])
  }

  function Run(s: Sys, es: seq<Event>): Sys {
    if es == [] then s else Next(Run(s, es[..|es| - 1]), es[|es| - 1])
  }

  /** The entries with a write id. */
  function Numbered(lines: seq<Line>): set<Entry> {
    set line | line in lines && line.Row? && line.entry.id.Some? :: line.entry
  }

  /** A program that starts with this overflow file and this table, and makes ids from `nextId` on. */
  function Boot(maxsize: int, file: seq<Line>, table: seq<Entry>, nextId: nat): Sys {
    Sys(maxsize, [], [], Idle, file, table, multiset{}, nextId, Numbered(file), Rows(file), multiset{}, multiset{},
        multiset{})
  }

  // ----- the books -----

  function Rows(lines: seq<Line>): multiset<Rec> {
    if lines == [] then multiset{} else Rows(lines[..|lines| - 1]) + RowOf(lines[|lines| - 1])
  }

  function RowOf(line: Line): multiset<Rec> {
    if line.Row? then multiset{line.entry.rec} else multiset{}
  }

  function Held(o: Option<Rec>): multiset<Rec> {
    if o.Some? then multiset{o.value} else multiset{}
  }

  function Replaying(o: Option<Entry>): multiset<Rec> {
    if o.Some? then multiset{o.value.rec} else multiset{}
  }

  function InFlight(workers: seq<Option<Rec>>): multiset<Rec> {
    if workers == [] then multiset{} else InFlight(workers[..|workers| - 1]) + Held(workers[|workers| - 1])
  }

  function InReplay(p: Replay): multiset<Rec> {
    match p
    case Idle => multiset{}
    case Reading(todo, current, failed) => Rows(todo) + Replaying(current) + Rows(failed)
  }

  /** How often a record is in one of its places. */
  function Places(s: Sys, r: Rec): int {
    s.direct[r] + s.replayed[r] + multiset(s.queue)[r] + InFlight(s.workers)[r] + InReplay(s.replay)[r]
    + Rows(s.file)[r] + s.lost[r]
  }

  /** Every record that came in is acknowledged, queued, in flight, in replay, on file or lost, as often as it
      came in. */
  ghost predicate Conserved(s: Sys) {
    forall r :: s.accepted[r] == Places(s, r)
  }

  lemma {:induction false} RowsConcat(a: seq<Line>, b: seq<Line>)
    ensures Rows(a + b) == Rows(a) + Rows(b)
  {
    if b == [] {
      assert a + b == a;
    } else {
      assert (a + b)[..|a + b| - 1] == a + b[..|b| - 1];
      RowsConcat(a, b[..|b| - 1]);
    }
  }

  lemma RowsOne(line: Line)
    ensures Rows([line]) == RowOf(line)
  {
    assert [line][..0] == [];
  }

  lemma RowsFirst(lines: seq<Line>)
    requires lines != []
    ensures Rows(lines) == RowOf(lines[0]) + Rows(lines[1..])
  {
    assert lines == [lines[0]] + lines[1..];
    RowsConcat([lines[0]], lines[1..]);
    RowsOne(lines[0]);
  }

  lemma {:induction false} InFlightConcat(a: seq<Option<Rec>>, b: seq<Option<Rec>>)
    ensures InFlight(a + b) == InFlight(a) + InFlight(b)
  {
    if b == [] {
      assert a + b == a;
    } else {
      assert (a + b)[..|a + b| - 1] == a + b[..|b| - 1];
      InFlightConcat(a, b[..|b| - 1]);
    }
  }

  lemma InFlightOne(o: Option<Rec>)
    ensures InFlight([o]) == Held(o)
  {
    assert [o][..0] == [];
  }

  lemma InFlightAt(workers: seq<Option<Rec>>, i: nat, r: Rec)
    requires i < |workers|
    ensures InFlight(workers)[r] == InFlight(workers[..i] + workers[i + 1..])[r] + Held(workers[i])[r]
  {
    hide InFlight, Held;
    var a, b := workers[..i], workers[i + 1..];
    assert workers == a + [workers[i]] + b;
    InFlightConcat(a + [workers[i]], b);
    InFlightConcat(a, [workers[i]]);
    InFlightConcat(a, b);
    InFlightOne(workers[i]);
  }

  lemma InFlightSet(workers: seq<Option<Rec>>, i: nat, o: Option<Rec>, r: Rec)
    requires i < |workers|
    ensures InFlight(workers[i := o])[r] + Held(workers[i])[r] == InFlight(workers)[r] + Held(o)[r]
  {
    hide InFlight, Held;
    InFlightAt(workers, i, r);
    InFlightAt(workers[i := o], i, r);
    assert workers[i := o][..i] == workers[..i] && workers[i := o][i + 1..] == workers[i + 1..];
  }

  lemma QueueFirst(queue: seq<Rec>)
    requires queue != []
    ensures multiset(queue) == multiset{queue[0]} + multiset(queue[1..])
  {
    assert queue == [queue[0]] + queue[1..];
  }

  lemma ReadKeeps(s: Sys, r: Rec)
    requires s.replay.Reading? && s.replay.current.None? && s.replay.todo != []
    ensures InReplay(Read(s).replay)[r] == InReplay(s.replay)[r]
  {
    hide Rows;
    var p := s.replay;
    RowsFirst(p.todo);
    RowsConcat(p.failed, [p.todo[0]]);
    RowsOne(p.todo[0]);
  }

  /** What comes in more than it is in a place. */
  function Owed(s: Sys, r: Rec): int {
    s.accepted[r] - Places(s, r)
  }

  lemma SpillOwes(s: Sys, spilled: Rec, r: Rec)
    ensures Owed(Spill(s, spilled), r) == Owed(s, r) - multiset{spilled}[r]
  {
    hide Rows, InFlight, InReplay;
    var line := Row(Entry(spilled, Some(s.nextId)));
    RowsConcat(s.file, [line]);
    RowsOne(line);
  }

  lemma AttemptOwes(s: Sys, e: Entry, w: Write, r: Rec)
    ensures Owed(Attempt(s, e, w), r) == Owed(s, r) - if w == Wrote then multiset{e.rec}[r] else 0
  {
    hide Rows, InFlight, InReplay, Insert;
  }

  lemma EnqueueOwes(s: Sys, q: Rec, r: Rec)
    ensures Owed(Next(s, Enqueue(q)), r) == Owed(s, r)
  {
    SpillOwes(s.(accepted := s.accepted + multiset{q}), q, r);
    hide Rows, InFlight, InReplay, Spill;
  }

  lemma TakeOwes(s: Sys, i: nat, r: Rec)
    ensures Owed(Next(s, Take(i)), r) == Owed(s, r)
  {
    hide Rows, InFlight, InReplay;
    if i < |s.workers| && s.workers[i].None? && s.queue != [] {
      QueueFirst(s.queue);
      InFlightSet(s.workers, i, Some(s.queue[0]), r);
    }
  }

  lemma FinishOwes(s: Sys, i: nat, w: Write, r: Rec)
    ensures Owed(Next(s, Finish(i, w)), r) == Owed(s, r)
  {
    hide Rows, InFlight, InReplay, Attempt, Spill;
    if i < |s.workers| && s.workers[i].Some? {
      var q, s' := s.workers[i].value, s.(workers := s.workers[i := None]);
      InFlightSet(s.workers, i, None, r);
      AttemptOwes(s', Entry(q, None), w, r);
      SpillOwes(Attempt(s', Entry(q, None), w), q, r);
    }
  }

  lemma CancelOwes(s: Sys, i: nat, r: Rec)
    ensures Owed(Next(s, Cancel(i)), r) == Owed(s, r)
  {
    hide Rows, InFlight, InReplay;
    if i < |s.workers| { InFlightAt(s.workers, i, r); }
  }

  lemma AfterReplayKeeps(p: Replay, w: Write, r: Rec)
    requires p.Reading? && p.current.Some?
    ensures InReplay(p)[r] ==
            InReplay(AfterReplay(p, w))[r] + if w == Wrote then multiset{p.current.value.rec}[r] else 0
  {
    hide Rows;
    RowsConcat(p.failed, [Row(p.current.value)]);
    RowsOne(Row(p.current.value));
  }

  lemma FinishReplayOwes(s: Sys, w: Write, r: Rec)
    ensures Owed(Next(s, FinishReplay(w)), r) == Owed(s, r)
  {
    hide Rows, InFlight, Attempt, InReplay, AfterReplay;
    if s.replay.Reading? && s.replay.current.Some? {
      AfterReplayKeeps(s.replay, w, r);
      AttemptOwes(s.(replay := AfterReplay(s.replay, w)), s.replay.current.value, w, r);
    }
  }

  lemma EndReplayOwes(s: Sys, r: Rec)
    ensures Owed(Next(s, EndReplay), r) == Owed(s, r)
  {
    hide Rows, InFlight;
    NoRows();
    if s.replay.Reading? { RowsConcat(s.file, s.replay.failed); }
  }

  lemma StartReplayOwes(s: Sys, r: Rec)
    ensures Owed(Next(s, StartReplay), r) == Owed(s, r)
  {
    hide Rows, InFlight;
    NoRows();
  }

  lemma ReadLineOwes(s: Sys, r: Rec)
    ensures Owed(Next(s, ReadLine), r) == Owed(s, r)
  {
    hide Rows, InFlight, InReplay;
    if s.replay.Reading? && s.replay.current.None? && s.replay.todo != [] { ReadKeeps(s, r); }
  }

  lemma LateOwes(s: Sys, q: Entry, r: Rec)
    ensures Owed(Next(s, Land(q)), r) == Owed(s, r) && Owed(Next(s, Vanish(q)), r) == Owed(s, r)
    ensures Owed(Next(s, StartWorker), r) == Owed(s, r)
  {
    StartsEmpty(s.workers);
    hide Rows, InFlight, Insert, InReplay;
  }

  lemma NextOwes(s: Sys, e: Event, r: Rec)
    ensures Owed(Next(s, e), r) == Owed(s, r)
  {
    hide *;
    match e
    case Enqueue(q) => EnqueueOwes(s, q, r);
    case StartWorker => LateOwes(s, Entry(r, None), r);
    case Take(i) => TakeOwes(s, i, r);
    case Finish(i, w) => FinishOwes(s, i, w, r);
    case Cancel(i) => CancelOwes(s, i, r);
    case StartReplay => StartReplayOwes(s, r);
    case ReadLine => ReadLineOwes(s, r);
    case FinishReplay(w) => FinishReplayOwes(s, w, r);
    case EndReplay => EndReplayOwes(s, r);
    case Land(q) => LateOwes(s, q, r);
    case Vanish(q) => LateOwes(s, q, r);
  }

  lemma NextConserves(s: Sys, e: Event)
    requires Conserved(s)
    ensures Conserved(Next(s, e))
  {
    hide Next, Places;
    forall r ensures Next(s, e).accepted[r] == Places(Next(s, e), r) {
      NextOwes(s, e, r);
    }
  }

  lemma StartsEmpty(workers: seq<Option<Rec>>)
    ensures InFlight(workers + [None]) == InFlight(workers)
  {
    assert (workers + [None])[..|workers|] == workers;
  }

  lemma NoRows()
    ensures Rows([]) == multiset{}
  {
  }

  // ----- the table -----

  /** No two rows with one reference, and no two with one write id. */
  ghost predicate NoTwins(table: seq<Entry>) {
    forall i, j | 0 <= i < j < |table| :: !Clash(table[i], table[j])
  }

  /** `q` counts as `r`: it has its reference, or is the same record if there is none. */
  predicate Same(q: Rec, r: Rec) {
    if r.ref.Some? then q.ref == r.ref else q == r
  }

  /** The table has a row for the record. */
  ghost predicate Stored(table: seq<Entry>, r: Rec) {
    exists i :: 0 <= i < |table| && Same(table[i].rec, r)
  }

  /** Ids were made before, and each names one record. */
  ghost predicate Names(known: set<Entry>, nextId: nat) {
    && (forall e | e in known :: e.id.Some? && e.id.value < nextId)
    && (forall a, b | a in known && b in known && a.id == b.id :: a == b)
  }

  /** What the program finds when it starts: a table without twins, and ids that each name one record. */
  ghost predicate Start(file: seq<Line>, table: seq<Entry>, nextId: nat) {
    NoTwins(table) && Names(Numbered(file) + TableIds(table), nextId)
  }

  function TableIds(table: seq<Entry>): set<Entry> {
    set e | e in table && e.id.Some?
  }

  ghost predicate LinesIn(lines: seq<Line>, known: set<Entry>) {
    forall j | 0 <= j < |lines| && lines[j].Row? && lines[j].entry.id.Some? :: lines[j].entry in known
  }

  /** Whatever carries a write id is on the books as a line; only the table may have had others before. */
  ghost predicate Tied(s: Sys, first: set<Entry>) {
    && Names(s.lines + first, s.nextId)
    && (forall j | 0 <= j < |s.table| && s.table[j].id.Some? :: s.table[j] in s.lines + first)
    && (forall e | e in s.late && e.id.Some? :: e in s.lines)
    && LinesIn(s.file, s.lines)
    && (s.replay.Reading? ==>
          && LinesIn(s.replay.todo, s.lines) && LinesIn(s.replay.failed, s.lines)
          && (s.replay.current.Some? ==> s.replay.current.value.id.Some? && s.replay.current.value in s.lines))
  }

  lemma InsertSound(table: seq<Entry>, e: Entry)
    requires NoTwins(table)
    ensures NoTwins(Insert(table, e))
    ensures table <= Insert(table, e) && forall x | x in Insert(table, e) :: x in table || x == e
  {
  }

  /** After an insert the table has a row for what was inserted, and otherwise for what it had one for. */
  lemma InsertStores(table: seq<Entry>, e: Entry, known: set<Entry>, nextId: nat, r: Rec)
    requires Names(known, nextId) && (e.id.Some? ==> e in known)
    requires forall j | 0 <= j < |table| && table[j].id.Some? :: table[j] in known
    ensures Stored(Insert(table, e), r) <==> Stored(table, r) || Same(e.rec, r)
  {
    var after := Insert(table, e);
    if Stored(table, r) {
      var i :| 0 <= i < |table| && Same(table[i].rec, r);
      assert Same(after[i].rec, r);
    }
    if Same(e.rec, r) {
      if Taken(table, e) {
        var i :| 0 <= i < |table| && Clash(e, table[i]);
        assert Same(table[i].rec, r);
      } else {
        assert after[|table|] == e;
      }
    }
    if Stored(after, r) {
      var i :| 0 <= i < |after| && Same(after[i].rec, r);
      if i < |table| { assert Same(table[i].rec, r); }
    }
  }

  /** No twins, and the queue is not over its size. */
  ghost predicate Sound(s: Sys) {
    NoTwins(s.table) && (s.maxsize > 0 ==> |s.queue| <= s.maxsize)
  }

  lemma AttemptSound(s: Sys, e: Entry, w: Write)
    requires Sound(s)
    ensures Sound(Attempt(s, e, w))
  {
    InsertSound(s.table, e);
    hide Insert, NoTwins;
  }

  lemma NextSound(s: Sys, e: Event)
    requires Sound(s)
    ensures Sound(Next(s, e))
  {
    hide Insert, NoTwins, Attempt;
    match e
    case Finish(i, w) =>
      if i < |s.workers| && s.workers[i].Some? {
        AttemptSound(s.(workers := s.workers[i := None]), Entry(s.workers[i].value, None), w);
      }
    case FinishReplay(w) =>
      if s.replay.Reading? && s.replay.current.Some? {
        AttemptSound(s.(replay := AfterReplay(s.replay, w)), s.replay.current.value, w);
      }
    case Land(x) => InsertSound(s.table, x);
    case _ =>
  }

  // ----- write ids -----

  lemma SpillTied(s: Sys, r: Rec, first: set<Entry>)
    requires Tied(s, first)
    ensures Tied(Spill(s, r), first)
  {
  }

  lemma AttemptTied(s: Sys, e: Entry, w: Write, first: set<Entry>)
    requires Tied(s, first) && (e.id.Some? ==> e in s.lines)
    ensures Tied(Attempt(s, e, w), first)
  {
    hide Names, LinesIn;
    var after := Insert(s.table, e);
    forall j | 0 <= j < |after| && after[j].id.Some? ensures after[j] in s.lines + first {
      if j < |s.table| { assert after[j] == s.table[j]; }
    }
  }

  lemma ReadTied(s: Sys, first: set<Entry>)
    requires Tied(s, first) && s.replay.Reading? && s.replay.current.None? && s.replay.todo != []
    ensures Tied(Read(s), first)
  {
    assert s.replay.todo[0].Row? && s.replay.todo[0].entry.id.Some? ==> s.replay.todo[0].entry in s.lines;
  }

  lemma AfterReplayTied(s: Sys, w: Write, first: set<Entry>)
    requires Tied(s, first) && s.replay.Reading? && s.replay.current.Some?
    ensures Tied(s.(replay := AfterReplay(s.replay, w)), first)
  {
    hide Names;
  }

  lemma EndReplayTied(s: Sys, first: set<Entry>)
    requires Tied(s, first)
    ensures Tied(Next(s, EndReplay), first) && Tied(Next(s, StartReplay), first)
  {
    hide Names;
  }

  lemma LandTied(s: Sys, e: Entry, first: set<Entry>)
    requires Tied(s, first)
    ensures Tied(Next(s, Land(e)), first) && Tied(Next(s, Vanish(e)), first)
  {
    hide Tied, Insert;
    if e in s.late {
      DropTied(s, e, first);
      LandedTied(s.(late := s.late - multiset{e}), e, first);
    }
  }

  lemma DropTied(s: Sys, e: Entry, first: set<Entry>)
    requires Tied(s, first) && e in s.late
    ensures Tied(s.(late := s.late - multiset{e}), first) && (e.id.Some? ==> e in s.lines)
  {
    hide Names, LinesIn;
  }

  lemma LandedTied(s: Sys, e: Entry, first: set<Entry>)
    requires Tied(s, first) && (e.id.Some? ==> e in s.lines)
    ensures Tied(s.(table := Insert(s.table, e)), first)
  {
    AttemptTied(s, e, Wrote, first);
    hide Names, LinesIn, Insert;
  }

  lemma NextTied(s: Sys, e: Event, first: set<Entry>)
    requires Tied(s, first)
    ensures Tied(Next(s, e), first)
  {
    hide Names, LinesIn, Attempt, Spill, Read, AfterReplay;
    match e
    case Enqueue(r) => SpillTied(s.(accepted := s.accepted + multiset{r}), r, first);
    case Finish(i, w) =>
      if i < |s.workers| && s.workers[i].Some? {
        var s', x := s.(workers := s.workers[i := None]), Entry(s.workers[i].value, None);
        AttemptTied(s', x, w, first);
        SpillTied(Attempt(s', x, w), x.rec, first);
      }
    case StartReplay => EndReplayTied(s, first);
    case ReadLine => if s.replay.Reading? && s.replay.current.None? && s.replay.todo != [] { ReadTied(s, first); }
    case FinishReplay(w) =>
      if s.replay.Reading? && s.replay.current.Some? {
        AfterReplayTied(s, w, first);
        AttemptTied(s.(replay := AfterReplay(s.replay, w)), s.replay.current.value, w, first);
      }
    case EndReplay => EndReplayTied(s, first);
    case Land(x) => LandTied(s, x, first);
    case Vanish(x) => LandTied(s, x, first);
    case _ =>
  }

  lemma BootTied(maxsize: int, file: seq<Line>, table: seq<Entry>, nextId: nat)
    requires Start(file, table, nextId)
    ensures Tied(Boot(maxsize, file, table, nextId), TableIds(table))
  {
    hide Names, Rows;
    forall j | 0 <= j < |file| && file[j].Row? && file[j].entry.id.Some? ensures file[j].entry in Numbered(file) {
      assert file[j] in file;
    }
  }

  // ----- every run -----

  /** Whatever the interleaving: every record is in exactly one place, every acknowledged record has its row, no
      reference and no write id has two rows, every id names one record, and the queue never exceeds its size. */
  lemma {:induction false} RunIsSound(maxsize: int, file: seq<Line>, table: seq<Entry>, nextId: nat, es: seq<Event>)
    requires Start(file, table, nextId)
    ensures var s := Run(Boot(maxsize, file, table, nextId), es);
            Conserved(s) && Sound(s) && Tied(s, TableIds(table))
  {
    hide Next, Tied, Sound, Conserved, NoTwins;
    if es == [] {
      BootTied(maxsize, file, table, nextId);
      BootSound(maxsize, file, table, nextId);
    } else {
      RunIsSound(maxsize, file, table, nextId, es[..|es| - 1]);
      var before := Run(Boot(maxsize, file, table, nextId), es[..|es| - 1]);
      NextConserves(before, es[|es| - 1]);
      NextSound(before, es[|es| - 1]);
      NextTied(before, es[|es| - 1], TableIds(table));
    }
  }

  lemma BootSound(maxsize: int, file: seq<Line>, table: seq<Entry>, nextId: nat)
    requires NoTwins(table)
    ensures Conserved(Boot(maxsize, file, table, nextId)) && Sound(Boot(maxsize, file, table, nextId))
  {
    hide Rows;
  }

  lemma {:induction false} RunConcat(s: Sys, a: seq<Event>, b: seq<Event>)
    ensures Run(s, a + b) == Run(Run(s, a), b)
  {
    hide Next;
    if b == [] {
      assert a + b == a;
    } else {
      assert (a + b)[..|a + b| - 1] == a + b[..|b| - 1];
      RunConcat(s, a, b[..|b| - 1]);
    }
  }

  /** However often a line is replayed, and whatever lands late: it makes one row at most. Rows with an id that the
      table did not have before are those of lines. */
  lemma OneRowPerLine(maxsize: int, file: seq<Line>, table: seq<Entry>, nextId: nat, es: seq<Event>, line: Entry)
    requires Start(file, table, nextId) && line.id.Some?
    ensures var s := Run(Boot(maxsize, file, table, nextId), es);
            && multiset(s.table)[line] <= 1
            && (forall e | e in s.table && e.id == line.id && line in s.lines :: e == line)
            && (line in s.table && line !in table ==> line in s.lines)
  {
    var s := Run(Boot(maxsize, file, table, nextId), es);
    RunIsSound(maxsize, file, table, nextId, es);
    hide Run, Boot, Conserved, LinesIn;
    OnceInTable(s.table, line);
    forall e | e in s.table && e.id == line.id && line in s.lines ensures e == line {
      var j :| 0 <= j < |s.table| && s.table[j] == e;
      assert s.table[j] in s.lines + TableIds(table);
      assert line in s.lines + TableIds(table);
    }
    if line in s.table {
      var j :| 0 <= j < |s.table| && s.table[j] == line;
      assert s.table[j] in s.lines + TableIds(table);
    }
  }

  lemma {:induction false} OnceInTable(table: seq<Entry>, e: Entry)
    requires NoTwins(table) && e.id.Some?
    ensures multiset(table)[e] <= 1
  {
    if table != [] {
      var n := |table| - 1;
      OnceInTable(table[..n], e);
      assert table == table[..n] + [table[n]];
      if table[n] == e {
        forall j | 0 <= j < n ensures table[j] != e { assert !Clash(table[j], table[n]); }
        assert e !in table[..n];
      }
    }
  }

  /** On any run no two rows have one reference, and no two one write id. */
  lemma RowsDiffer(maxsize: int, file: seq<Line>, table: seq<Entry>, nextId: nat, es: seq<Event>, i: nat, j: nat)
    requires Start(file, table, nextId) && i < j < |Run(Boot(maxsize, file, table, nextId), es).table|
    ensures var rows := Run(Boot(maxsize, file, table, nextId), es).table;
            && (rows[i].rec.ref.None? || rows[i].rec.ref != rows[j].rec.ref)
            && (rows[i].id.None? || rows[i].id != rows[j].id)
  {
    hide Run, Boot, Start, Tied, Conserved;
    RunIsSound(maxsize, file, table, nextId, es);
    var rows := Run(Boot(maxsize, file, table, nextId), es).table;
    assert !Clash(rows[i], rows[j]);
  }

  // ----- the order of the queue -----

  /** What was queued and not spilled, in order: it is spilled exactly when the queue has its greatest size. */
  function Entered(s: Sys, es: seq<Event>): seq<Rec> {
    if es == [] then []
    else
      var init, e := es[..|es| - 1], es[|es| - 1];
      var before := Run(s, init);
      Entered(s, init)
      + if e.Enqueue? && !(before.maxsize > 0 && |before.queue| >= before.maxsize) then [e.rec] else []
  }

  /** What workers took, in order. */
  function TakenOf(s: Sys, es: seq<Event>): seq<Rec> {
    if es == [] then []
    else
      var init, e := es[..|es| - 1], es[|es| - 1];
      TakenOf(s, init) + TakenBy(Run(s, init), e)
  }

  function TakenBy(s: Sys, e: Event): seq<Rec> {
    if e.Take? && e.worker < |s.workers| && s.workers[e.worker].None? && e.worker < |Next(s, e).workers|
       && Next(s, e).workers[e.worker].Some?
    then [Next(s, e).workers[e.worker].value] else []
  }

  lemma QueueStep(s: Sys, e: Event)
    ensures s.queue + (if e.Enqueue? && !(s.maxsize > 0 && |s.queue| >= s.maxsize) then [e.rec] else []) ==
            TakenBy(s, e) + Next(s, e).queue
  {
    hide Insert, AfterReplay, Numbered, Rows;
    match e
    case Take(i) =>
      if i < |s.workers| && s.workers[i].None? && s.queue != [] { assert s.queue == [s.queue[0]] + s.queue[1..]; }
    case _ =>
  }

  /** First in, first out: what workers have taken and then what is queued is what was there and then what entered. */
  lemma {:induction false} FirstInFirstOut(s: Sys, es: seq<Event>)
    ensures s.queue + Entered(s, es) == TakenOf(s, es) + Run(s, es).queue
  {
    hide Next, TakenBy;
    if es != [] {
      var init, e := es[..|es| - 1], es[|es| - 1];
      var before := Run(s, init);
      FirstInFirstOut(s, init);
      QueueStep(before, e);
      var more := if e.Enqueue? && !(before.maxsize > 0 && |before.queue| >= before.maxsize) then [e.rec] else [];
      assert s.queue + (Entered(s, init) + more) == s.queue + Entered(s, init) + more;
      assert TakenOf(s, init) + before.queue + more == TakenOf(s, init) + (before.queue + more);
      assert TakenOf(s, init) + (TakenBy(before, e) + Next(before, e).queue) ==
             TakenOf(s, init) + TakenBy(before, e) + Next(before, e).queue;
    }
  }

  // ----- lines that do not parse -----

  function JunkIn(lines: seq<Line>): multiset<string> {
    if lines == [] then multiset{} else JunkIn(lines[..|lines| - 1]) + JunkOf(lines[|lines| - 1])
  }

  function JunkOf(line: Line): multiset<string> {
    if line.Junk? then multiset{line.text} else multiset{}
  }

  /** All of them, in the file and in the replay. */
  function AllJunk(s: Sys): multiset<string> {
    JunkIn(s.file) + if s.replay.Reading? then JunkIn(s.replay.todo) + JunkIn(s.replay.failed) else multiset{}
  }

  lemma {:induction false} JunkConcat(a: seq<Line>, b: seq<Line>)
    ensures JunkIn(a + b) == JunkIn(a) + JunkIn(b)
  {
    if b == [] {
      assert a + b == a;
    } else {
      assert (a + b)[..|a + b| - 1] == a + b[..|b| - 1];
      JunkConcat(a, b[..|b| - 1]);
    }
  }

  lemma JunkOne(line: Line)
    ensures JunkIn([line]) == JunkOf(line) && JunkIn([]) == multiset{}
  {
    assert [line][..0] == [];
  }

  lemma SpillJunk(s: Sys, r: Rec)
    ensures AllJunk(Spill(s, r)) == AllJunk(s)
  {
    hide JunkIn;
    var line := Row(Entry(r, Some(s.nextId)));
    JunkConcat(s.file, [line]);
    JunkOne(line);
  }

  lemma ReadJunk(s: Sys)
    requires s.replay.Reading? && s.replay.current.None? && s.replay.todo != []
    ensures AllJunk(Read(s)) == AllJunk(s)
  {
    hide JunkIn;
    var p := s.replay;
    assert p.todo == [p.todo[0]] + p.todo[1..];
    JunkConcat([p.todo[0]], p.todo[1..]);
    JunkConcat(p.failed, [p.todo[0]]);
    JunkOne(p.todo[0]);
  }

  lemma AfterReplayJunk(s: Sys, w: Write)
    requires s.replay.Reading? && s.replay.current.Some?
    ensures AllJunk(s.(replay := AfterReplay(s.replay, w))) == AllJunk(s)
  {
    hide JunkIn;
    JunkConcat(s.replay.failed, [Row(s.replay.current.value)]);
    JunkOne(Row(s.replay.current.value));
  }

  lemma SameJunk(s: Sys, s': Sys)
    requires s'.file == s.file && s'.replay == s.replay
    ensures AllJunk(s') == AllJunk(s)
  {
  }

  lemma EnqueueJunk(s: Sys, r: Rec)
    ensures AllJunk(Next(s, Enqueue(r))) == AllJunk(s)
  {
    hide JunkIn, Spill;
    SpillJunk(s.(accepted := s.accepted + multiset{r}), r);
  }

  lemma FinishJunk(s: Sys, i: nat, w: Write)
    ensures AllJunk(Next(s, Finish(i, w))) == AllJunk(s)
  {
    hide JunkIn, Spill, Insert;
    if i < |s.workers| && s.workers[i].Some? {
      var after := Attempt(s.(workers := s.workers[i := None]), Entry(s.workers[i].value, None), w);
      SameJunk(s, after);
      SpillJunk(after, s.workers[i].value);
    }
  }

  lemma ReplayJunk(s: Sys)
    ensures AllJunk(Next(s, StartReplay)) == AllJunk(s) && AllJunk(Next(s, EndReplay)) == AllJunk(s)
  {
    hide JunkIn;
    JunkOne(Junk(""));
    if s.replay.Reading? { JunkConcat(s.file, s.replay.failed); }
  }

  lemma NextJunk(s: Sys, e: Event)
    ensures AllJunk(Next(s, e)) == AllJunk(s)
  {
    hide AllJunk, Insert, Spill, Read, AfterReplay;
    match e
    case Enqueue(r) => EnqueueJunk(s, r);
    case Finish(i, w) => FinishJunk(s, i, w);
    case StartReplay => ReplayJunk(s);
    case ReadLine => if s.replay.Reading? && s.replay.current.None? && s.replay.todo != [] { ReadJunk(s); }
    case FinishReplay(w) =>
      if s.replay.Reading? && s.replay.current.Some? {
        AfterReplayJunk(s, w);
        SameJunk(s.(replay := AfterReplay(s.replay, w)), Next(s, e));
      }
    case EndReplay => ReplayJunk(s);
    case _ => SameJunk(s, Next(s, e));
  }

  /** On any run the lines that do not parse are kept, each as often as it was there. */
  lemma {:induction false} JunkStays(s: Sys, es: seq<Event>)
    ensures AllJunk(Run(s, es)) == AllJunk(s)
  {
    hide Next, AllJunk;
    if es != [] {
      JunkStays(s, es[..|es| - 1]);
      NextJunk(Run(s, es[..|es| - 1]), es[|es| - 1]);
    }
  }

  // ----- what happened to a record -----

  /** How often a worker was cancelled in the middle of writing this record. */
  function HitsOf(s: Sys, es: seq<Event>, r: Rec): nat {
    if es == [] then 0
    else
      var init := es[..|es| - 1];
      HitsOf(s, init, r) + if Hits(Run(s, init), es[|es| - 1], r) then 1 else 0
  }

  predicate Hits(s: Sys, e: Event, r: Rec) {
    e.Cancel? && e.worker < |s.workers| && s.workers[e.worker] == Some(r)
  }

  lemma NextLoses(s: Sys, e: Event, r: Rec)
    ensures Next(s, e).lost[r] == s.lost[r] + if Hits(s, e, r) then 1 else 0
  {
    hide Insert, AfterReplay;
  }

  lemma {:induction false} HitsAreLost(s: Sys, es: seq<Event>, r: Rec)
    ensures Run(s, es).lost[r] == s.lost[r] + HitsOf(s, es, r)
  {
    if es != [] {
      hide Next, Hits;
      HitsAreLost(s, es[..|es| - 1], r);
      NextLoses(Run(s, es[..|es| - 1]), es[|es| - 1], r);
    }
  }

  /** How often a write of this entry that was given up on landed after all. */
  function Landed(s: Sys, es: seq<Event>, x: Entry): nat {
    if es == [] then 0
    else
      var init := es[..|es| - 1];
      Landed(s, init, x) + if es[|es| - 1] == Land(x) && x in Run(s, init).late then 1 else 0
  }

  /** Some write that was given up on landed, of a record that counts as this one. */
  ghost predicate LandedFor(s: Sys, es: seq<Event>, r: Rec) {
    es != [] && (LandedFor(s, es[..|es| - 1], r) || LandsFor(Run(s, es[..|es| - 1]), es[|es| - 1], r))
  }

  predicate LandsFor(s: Sys, e: Event, r: Rec) {
    e.Land? && e.entry in s.late && Same(e.entry.rec, r)
  }

  /** Some record that counts as this one was acknowledged. */
  ghost predicate AckedFor(s: Sys, r: Rec) {
    exists q :: q in s.direct + s.replayed && Same(q, r)
  }

  lemma AttemptStores(s: Sys, e: Entry, w: Write, first: set<Entry>, r: Rec)
    requires Tied(s, first) && (e.id.Some? ==> e in s.lines)
    ensures var s' := Attempt(s, e, w);
            && (Stored(s'.table, r) <==> Stored(s.table, r) || (w == Wrote && Same(e.rec, r)))
            && (AckedFor(s', r) <==> AckedFor(s, r) || (w == Wrote && Same(e.rec, r)))
  {
    hide Insert, Names, LinesIn, Stored, Same;
    InsertStores(s.table, e, s.lines + first, s.nextId, r);
    var s' := Attempt(s, e, w);
    if w == Wrote { assert e.rec in s'.direct + s'.replayed; }
    if AckedFor(s, r) {
      var q :| q in s.direct + s.replayed && Same(q, r);
      assert q in s'.direct + s'.replayed;
    }
  }

  /** One step stores what it acknowledges or lands. */
  lemma NextStores(s: Sys, e: Event, first: set<Entry>, r: Rec)
    requires Tied(s, first)
    ensures var s' := Next(s, e);
            && (Stored(s'.table, r) <==> Stored(s.table, r) || AcksNow(s, e, r) || LandsFor(s, e, r))
            && (AckedFor(s', r) <==> AckedFor(s, r) || AcksNow(s, e, r))
  {
    hide Insert, Names, LinesIn, Stored, Same, Attempt, Spill, AfterReplay, AckedFor, Read;
    match e
    case Enqueue(q) => EnqueueAcks(s, q, r);
    case ReadLine => ReadAcks(s, r);
    case Finish(i, w) =>
      if i < |s.workers| && s.workers[i].Some? {
        var s', x := s.(workers := s.workers[i := None]), Entry(s.workers[i].value, None);
        SameAcks(s, s', r);
        AttemptStores(s', x, w, first, r);
        SpillAcks(Attempt(s', x, w), x.rec, r);
      }
    case FinishReplay(w) =>
      if s.replay.Reading? && s.replay.current.Some? {
        var s' := s.(replay := AfterReplay(s.replay, w));
        SameAcks(s, s', r);
        AfterReplayTied(s, w, first);
        AttemptStores(s', s.replay.current.value, w, first, r);
      }
    case Land(x) =>
      SameAcks(s, Next(s, e), r);
      if x in s.late { InsertStores(s.table, x, s.lines + first, s.nextId, r); }
    case _ => SameAcks(s, Next(s, e), r);
  }

  predicate AcksNow(s: Sys, e: Event, r: Rec) {
    match e
    case Finish(i, w) => i < |s.workers| && s.workers[i].Some? && w == Wrote && Same(s.workers[i].value, r)
    case FinishReplay(w) =>
      s.replay.Reading? && s.replay.current.Some? && w == Wrote && Same(s.replay.current.value.rec, r)
    case _ => false
  }

  lemma SameAcks(s: Sys, s': Sys, r: Rec)
    requires s'.direct == s.direct && s'.replayed == s.replayed
    ensures AckedFor(s', r) == AckedFor(s, r)
  {
  }

  lemma EnqueueAcks(s: Sys, q: Rec, r: Rec)
    ensures var s' := Next(s, Enqueue(q));
            AckedFor(s', r) == AckedFor(s, r) && s'.table == s.table
  {
    hide AckedFor;
    SameAcks(s, Next(s, Enqueue(q)), r);
  }

  lemma ReadAcks(s: Sys, r: Rec)
    ensures var s' := Next(s, ReadLine);
            AckedFor(s', r) == AckedFor(s, r) && s'.table == s.table
  {
    hide AckedFor;
    SameAcks(s, Next(s, ReadLine), r);
  }

  lemma SpillAcks(s: Sys, q: Rec, r: Rec)
    ensures AckedFor(Spill(s, q), r) == AckedFor(s, r) && Spill(s, q).table == s.table
  {
  }

  /** A record has a row exactly if it had one, or one that counts as it was acknowledged or landed late. */
  lemma {:induction false} StoredIff(maxsize: int, file: seq<Line>, table: seq<Entry>, nextId: nat, es: seq<Event>,
                                     r: Rec)
    requires Start(file, table, nextId)
    ensures var start := Boot(maxsize, file, table, nextId);
            var s := Run(start, es);
            Stored(s.table, r) <==> Stored(table, r) || AckedFor(s, r) || LandedFor(start, es, r)
  {
    hide Next, Tied, Sound, Conserved, Stored, Start, AckedFor, LandsFor, AcksNow;
    if es == [] {
      NoneAcked(maxsize, file, table, nextId, r);
    } else {
      var init, e := es[..|es| - 1], es[|es| - 1];
      StoredIff(maxsize, file, table, nextId, init, r);
      RunIsSound(maxsize, file, table, nextId, init);
      NextStores(Run(Boot(maxsize, file, table, nextId), init), e, TableIds(table), r);
    }
  }

  lemma NoneAcked(maxsize: int, file: seq<Line>, table: seq<Entry>, nextId: nat, r: Rec)
    ensures !AckedFor(Boot(maxsize, file, table, nextId), r)
  {
  }

  // ----- at rest -----

  ghost predicate AtRest(s: Sys) {
    s.queue == [] && s.workers == [] && s.replay.Idle?
  }

  ghost predicate OnFile(lines: seq<Line>, r: Rec) {
    exists j :: 0 <= j < |lines| && lines[j].Row? && lines[j].entry.rec == r
  }

  lemma {:induction false} RowsOnFile(lines: seq<Line>, r: Rec)
    ensures r in Rows(lines) <==> OnFile(lines, r)
  {
    if lines != [] {
      var n := |lines| - 1;
      RowsOnFile(lines[..n], r);
      assert forall j | 0 <= j < n :: lines[..n][j] == lines[j];
      hide OnFile;
      OnFileLast(lines, r);
    }
  }

  lemma OnFileLast(lines: seq<Line>, r: Rec)
    requires lines != []
    ensures var n := |lines| - 1;
            OnFile(lines, r) <==> OnFile(lines[..n], r) || (lines[n].Row? && lines[n].entry.rec == r)
  {
    var n := |lines| - 1;
    assert forall j | 0 <= j < n :: lines[..n][j] == lines[j];
  }

  /** At rest every record that came in was acknowledged, is on file, or was being written when its worker was
      cancelled; unless all of its copies were, it has a row or is on file. */
  lemma AtRestNothingIsMissing(maxsize: int, file: seq<Line>, table: seq<Entry>, nextId: nat, es: seq<Event>, r: Rec)
    requires Start(file, table, nextId) && AtRest(Run(Boot(maxsize, file, table, nextId), es))
    ensures var start := Boot(maxsize, file, table, nextId);
            var s, hits := Run(start, es), HitsOf(start, es, r);
            && s.accepted[r] == s.direct[r] + s.replayed[r] + Rows(s.file)[r] + hits
            && (hits < s.accepted[r] ==> Stored(s.table, r) || OnFile(s.file, r))
  {
    var start := Boot(maxsize, file, table, nextId);
    var s := Run(start, es);
    RunIsSound(maxsize, file, table, nextId, es);
    HitsAreLost(start, es, r);
    StoredIff(maxsize, file, table, nextId, es, r);
    RowsOnFile(s.file, r);
    AckedSelf(s, r);
    NoneInFlight();
    hide Run, HitsOf, Boot, Tied, Sound, Stored, Start, OnFile, AckedFor, LandedFor, Rows, InFlight;
    assert s.accepted[r] == Places(s, r);
  }

  lemma NoneInFlight()
    ensures InFlight([]) == multiset{}
  {
  }

  lemma AckedSelf(s: Sys, r: Rec)
    ensures r in s.direct || r in s.replayed ==> AckedFor(s, r)
  {
    if r in s.direct || r in s.replayed { assert r in s.direct + s.replayed && Same(r, r); }
  }

  /** The record came in, has no row, and is not on file. */
  ghost predicate Gone(s: Sys, r: Rec) {
    r in s.accepted && !Stored(s.table, r) && !OnFile(s.file, r)
  }

  /** At rest a record is gone exactly if every worker that took a copy of it was cancelled while writing it, nothing
      that counts as it was in the table or acknowledged, and no write of such landed late. */
  lemma GoneIffHit(maxsize: int, file: seq<Line>, table: seq<Entry>, nextId: nat, es: seq<Event>, r: Rec)
    requires Start(file, table, nextId) && AtRest(Run(Boot(maxsize, file, table, nextId), es))
    ensures var start := Boot(maxsize, file, table, nextId);
            var s := Run(start, es);
            Gone(s, r) <==>
            && r in s.accepted && HitsOf(start, es, r) == s.accepted[r]
            && !Stored(table, r) && !AckedFor(s, r) && !LandedFor(start, es, r)
  {
    hide Run, HitsOf, Boot, Stored, Start, OnFile, AckedFor, LandedFor, Rows, AtRest;
    var start := Boot(maxsize, file, table, nextId);
    var s := Run(start, es);
    AtRestNothingIsMissing(maxsize, file, table, nextId, es, r);
    StoredIff(maxsize, file, table, nextId, es, r);
    RowsOnFile(s.file, r);
  }

  /** Without a reference that nothing was acknowledged follows. */
  lemma GoneWithoutReference(maxsize: int, file: seq<Line>, table: seq<Entry>, nextId: nat, es: seq<Event>, r: Rec)
    requires Start(file, table, nextId) && AtRest(Run(Boot(maxsize, file, table, nextId), es)) && r.ref.None?
    ensures var start := Boot(maxsize, file, table, nextId);
            var s := Run(start, es);
            Gone(s, r) <==>
            && r in s.accepted && HitsOf(start, es, r) == s.accepted[r]
            && !Stored(table, r) && !LandedFor(start, es, r)
  {
    hide Run, HitsOf, Boot, Start, OnFile, AckedFor, LandedFor, Rows, AtRest, Gone, Stored;
    var start := Boot(maxsize, file, table, nextId);
    var s := Run(start, es);
    GoneIffHit(maxsize, file, table, nextId, es, r);
    AtRestNothingIsMissing(maxsize, file, table, nextId, es, r);
    if HitsOf(start, es, r) == s.accepted[r] { AckedOnlySelf(s, r); }
  }

  lemma AckedOnlySelf(s: Sys, r: Rec)
    requires r.ref.None? && s.direct[r] == 0 && s.replayed[r] == 0
    ensures !AckedFor(s, r)
  {
  }

  // ----- rows of a record without a reference -----

  function RowsOf(table: seq<Entry>, r: Rec): nat {
    if table == [] then 0 else RowsOf(table[..|table| - 1], r) + if table[|table| - 1].rec == r then 1 else 0
  }

  /** The rows of a record that came from a line. */
  function LineRows(table: seq<Entry>, r: Rec): nat {
    if table == [] then 0
    else
      var last := table[|table| - 1];
      LineRows(table[..|table| - 1], r) + if last.rec == r && last.id.Some? then 1 else 0
  }

  lemma {:induction false} RowsSplit(table: seq<Entry>, r: Rec)
    ensures RowsOf(table, r) == multiset(table)[Entry(r, None)] + LineRows(table, r)
  {
    if table != [] {
      var n := |table| - 1;
      RowsSplit(table[..n], r);
      assert table == table[..n] + [table[n]];
    }
  }

  /** Rows straight from the queue beyond those acknowledged. */
  function Extra(s: Sys, r: Rec): int {
    multiset(s.table)[Entry(r, None)] as int - s.direct[r]
  }

  lemma InsertRows(table: seq<Entry>, e: Entry, r: Rec)
    requires r.ref.None?
    ensures multiset(Insert(table, e))[Entry(r, None)] ==
            multiset(table)[Entry(r, None)] + if e == Entry(r, None) then 1 else 0
  {
  }

  lemma AttemptRows(s: Sys, e: Entry, w: Write, r: Rec)
    requires r.ref.None?
    ensures Extra(Attempt(s, e, w), r) == Extra(s, r)
  {
    InsertRows(s.table, e, r);
    hide Insert;
  }

  lemma NextRows(s: Sys, e: Event, r: Rec)
    requires r.ref.None?
    ensures Extra(Next(s, e), r) == Extra(s, r) + if e == Land(Entry(r, None)) && e.entry in s.late then 1 else 0
  {
    hide Insert, Read, Attempt, AfterReplay;
    match e
    case Finish(i, w) =>
      if i < |s.workers| && s.workers[i].Some? {
        AttemptRows(s.(workers := s.workers[i := None]), Entry(s.workers[i].value, None), w, r);
      }
    case ReadLine => if s.replay.Reading? && s.replay.current.None? && s.replay.todo != [] { ReadRows(s, r); }
    case FinishReplay(w) =>
      if s.replay.Reading? && s.replay.current.Some? {
        AttemptRows(s.(replay := AfterReplay(s.replay, w)), s.replay.current.value, w, r);
      }
    case Land(x) => InsertRows(s.table, x, r);
    case _ =>
  }

  lemma ReadRows(s: Sys, r: Rec)
    requires s.replay.Reading? && s.replay.current.None? && s.replay.todo != []
    ensures Extra(Read(s), r) == Extra(s, r)
  {
  }

  lemma {:induction false} RowsOfRun(s: Sys, es: seq<Event>, r: Rec)
    requires r.ref.None?
    ensures Extra(Run(s, es), r) == Extra(s, r) + Landed(s, es, Entry(r, None))
  {
    if es != [] {
      hide Next;
      RowsOfRun(s, es[..|es| - 1], r);
      NextRows(Run(s, es[..|es| - 1]), es[|es| - 1], r);
    }
  }

  // ----- at most one write from the queue for each copy -----

  /** Copies for which no write from the queue is to come, acknowledged, or still able to land. */
  function Budget(s: Sys, r: Rec): int {
    s.accepted[r] as int - multiset(s.queue)[r] - InFlight(s.workers)[r] - s.direct[r] - s.late[Entry(r, None)]
  }

  lemma SpillBudget(s: Sys, q: Rec, r: Rec)
    ensures Budget(Spill(s, q), r) == Budget(s, r)
  {
    hide InFlight;
  }

  lemma AttemptBudget(s: Sys, e: Entry, w: Write, r: Rec)
    ensures Budget(Attempt(s, e, w), r) >= Budget(s, r) - if e == Entry(r, None) then 1 else 0
  {
    hide InFlight, Insert;
  }

  lemma NextBudget(s: Sys, e: Event, first: set<Entry>, r: Rec)
    requires Tied(s, first)
    ensures Budget(Next(s, e), r) >= Budget(s, r) + if e == Land(Entry(r, None)) && e.entry in s.late then 1 else 0
  {
    hide InFlight, Insert, Read, AfterReplay, Attempt, Spill, Names, LinesIn;
    match e
    case Enqueue(q) => EnqueueBudget(s, q, r);
    case StartWorker => StartsEmpty(s.workers);
    case Take(i) => TakeBudget(s, i, r);
    case Finish(i, w) => FinishBudget(s, i, w, r);
    case Cancel(i) => CancelBudget(s, i, r);
    case ReadLine => if s.replay.Reading? && s.replay.current.None? && s.replay.todo != [] { ReadBudget(s, r); }
    case FinishReplay(w) =>
      if s.replay.Reading? && s.replay.current.Some? {
        AttemptBudget(s.(replay := AfterReplay(s.replay, w)), s.replay.current.value, w, r);
      }
    case _ =>
  }

  lemma EnqueueBudget(s: Sys, q: Rec, r: Rec)
    ensures Budget(Next(s, Enqueue(q)), r) >= Budget(s, r)
  {
    hide InFlight, Spill;
    SpillBudget(s.(accepted := s.accepted + multiset{q}), q, r);
  }

  lemma TakeBudget(s: Sys, i: nat, r: Rec)
    ensures Budget(Next(s, Take(i)), r) == Budget(s, r)
  {
    hide InFlight;
    if i < |s.workers| && s.workers[i].None? && s.queue != [] {
      QueueFirst(s.queue);
      InFlightSet(s.workers, i, Some(s.queue[0]), r);
    }
  }

  lemma FinishBudget(s: Sys, i: nat, w: Write, r: Rec)
    ensures Budget(Next(s, Finish(i, w)), r) >= Budget(s, r)
  {
    hide InFlight, Attempt, Spill;
    if i < |s.workers| && s.workers[i].Some? {
      var q, s' := s.workers[i].value, s.(workers := s.workers[i := None]);
      InFlightSet(s.workers, i, None, r);
      AttemptBudget(s', Entry(q, None), w, r);
      SpillBudget(Attempt(s', Entry(q, None), w), q, r);
    }
  }

  lemma CancelBudget(s: Sys, i: nat, r: Rec)
    ensures Budget(Next(s, Cancel(i)), r) >= Budget(s, r)
  {
    hide InFlight;
    if i < |s.workers| { InFlightAt(s.workers, i, r); }
  }

  lemma ReadBudget(s: Sys, r: Rec)
    requires s.replay.Reading? && s.replay.current.None? && s.replay.todo != []
    ensures Budget(Read(s), r) == Budget(s, r)
  {
    hide InFlight;
  }

  lemma {:induction false} BudgetOfRun(maxsize: int, file: seq<Line>, table: seq<Entry>, nextId: nat, es: seq<Event>,
                                       r: Rec)
    requires Start(file, table, nextId)
    ensures var start := Boot(maxsize, file, table, nextId);
            Budget(Run(start, es), r) >= Landed(start, es, Entry(r, None))
  {
    hide Next, Start, Tied, Sound, Conserved, Budget;
    if es == [] {
      BootBudget(maxsize, file, table, nextId, r);
    } else {
      var init := es[..|es| - 1];
      BudgetOfRun(maxsize, file, table, nextId, init, r);
      RunIsSound(maxsize, file, table, nextId, init);
      NextBudget(Run(Boot(maxsize, file, table, nextId), init), es[|es| - 1], TableIds(table), r);
    }
  }

  lemma BootBudget(maxsize: int, file: seq<Line>, table: seq<Entry>, nextId: nat, r: Rec)
    ensures Budget(Boot(maxsize, file, table, nextId), r) >= 0
  {
    hide Rows;
  }

  // ----- at most one line for each copy -----

  function LinesOf(lines: set<Entry>, r: Rec): set<Entry> {
    set e | e in lines && e.rec == r
  }

  /** Rows of a record that have no write id yet. */
  function Plain(lines: seq<Line>, r: Rec): nat {
    if lines == [] then 0 else Plain(lines[..|lines| - 1], r) + PlainOne(lines[|lines| - 1], r)
  }

  function PlainOne(line: Line, r: Rec): nat {
    if line == Row(Entry(r, None)) then 1 else 0
  }

  function PlainReplay(p: Replay, r: Rec): nat {
    match p
    case Idle => 0
    case Reading(todo, _, failed) => Plain(todo, r) + Plain(failed, r)
  }

  /** Copies that are not queued, in flight, acknowledged from the queue, lost, or on a line of their own. */
  function Slack(s: Sys, r: Rec): int {
    s.accepted[r] as int - multiset(s.queue)[r] - InFlight(s.workers)[r] - s.direct[r] - s.lost[r]
    - Plain(s.file, r) - PlainReplay(s.replay, r) - |LinesOf(s.lines, r)|
  }

  lemma {:induction false} PlainConcat(a: seq<Line>, b: seq<Line>, r: Rec)
    ensures Plain(a + b, r) == Plain(a, r) + Plain(b, r)
  {
    if b == [] {
      assert a + b == a;
    } else {
      assert (a + b)[..|a + b| - 1] == a + b[..|b| - 1];
      PlainConcat(a, b[..|b| - 1], r);
    }
  }

  lemma PlainLine(line: Line, r: Rec)
    ensures Plain([line], r) == PlainOne(line, r) && Plain([], r) == 0
  {
    assert [line][..0] == [];
  }

  lemma PlainFirst(lines: seq<Line>, r: Rec)
    requires lines != []
    ensures Plain(lines, r) == PlainOne(lines[0], r) + Plain(lines[1..], r)
  {
    assert lines == [lines[0]] + lines[1..];
    PlainConcat([lines[0]], lines[1..], r);
    PlainLine(lines[0], r);
  }

  lemma AddLine(lines: set<Entry>, e: Entry, r: Rec)
    ensures |LinesOf(lines + {e}, r)| <= |LinesOf(lines, r)| + if e.rec == r then 1 else 0
    ensures e in lines ==> lines + {e} == lines
  {
    if e.rec == r {
      assert LinesOf(lines + {e}, r) == LinesOf(lines, r) + {e};
    } else {
      assert LinesOf(lines + {e}, r) == LinesOf(lines, r);
    }
  }

  lemma SpillSlack(s: Sys, q: Rec, r: Rec)
    ensures Slack(Spill(s, q), r) >= Slack(s, r) - multiset{q}[r]
  {
    hide InFlight, Plain, LinesOf;
    var e := Entry(q, Some(s.nextId));
    AddLine(s.lines, e, r);
    PlainConcat(s.file, [Row(e)], r);
    PlainLine(Row(e), r);
  }

  lemma AttemptSlack(s: Sys, e: Entry, w: Write, r: Rec)
    ensures Slack(Attempt(s, e, w), r) ==
            Slack(s, r) - if w == Wrote && e.id.None? then multiset{e.rec}[r] else 0
  {
    hide InFlight, Plain, LinesOf, Insert;
  }

  lemma EnqueueSlack(s: Sys, q: Rec, r: Rec)
    ensures Slack(Next(s, Enqueue(q)), r) >= Slack(s, r)
  {
    hide InFlight, Plain, LinesOf, Spill;
    SpillSlack(s.(accepted := s.accepted + multiset{q}), q, r);
  }

  lemma TakeSlack(s: Sys, i: nat, r: Rec)
    ensures Slack(Next(s, Take(i)), r) == Slack(s, r)
  {
    hide InFlight, Plain, LinesOf;
    if i < |s.workers| && s.workers[i].None? && s.queue != [] {
      QueueFirst(s.queue);
      InFlightSet(s.workers, i, Some(s.queue[0]), r);
    }
  }

  lemma FinishSlack(s: Sys, i: nat, w: Write, r: Rec)
    ensures Slack(Next(s, Finish(i, w)), r) >= Slack(s, r)
  {
    hide InFlight, Plain, LinesOf, Attempt, Spill;
    if i < |s.workers| && s.workers[i].Some? {
      var q, s' := s.workers[i].value, s.(workers := s.workers[i := None]);
      InFlightSet(s.workers, i, None, r);
      AttemptSlack(s', Entry(q, None), w, r);
      SpillSlack(Attempt(s', Entry(q, None), w), q, r);
    }
  }

  lemma CancelSlack(s: Sys, i: nat, r: Rec)
    ensures Slack(Next(s, Cancel(i)), r) == Slack(s, r)
  {
    hide InFlight, Plain, LinesOf;
    if i < |s.workers| { InFlightAt(s.workers, i, r); }
  }

  lemma ReadSlack(s: Sys, r: Rec)
    requires s.replay.Reading? && s.replay.current.None? && s.replay.todo != [] && LinesIn(s.replay.todo, s.lines)
    ensures Slack(Read(s), r) >= Slack(s, r)
  {
    hide InFlight, Plain, LinesOf;
    var p, line := s.replay, s.replay.todo[0];
    PlainFirst(p.todo, r);
    match line
    case Row(e) =>
      var e' := if e.id.Some? then e else Entry(e.rec, Some(s.nextId));
      AddLine(s.lines, e', r);
    case Junk(_) =>
      PlainConcat(p.failed, [line], r);
      PlainLine(line, r);
  }

  lemma AfterReplaySlack(s: Sys, w: Write, r: Rec)
    requires s.replay.Reading? && s.replay.current.Some? && s.replay.current.value.id.Some?
    ensures Slack(s.(replay := AfterReplay(s.replay, w)), r) == Slack(s, r)
  {
    hide InFlight, Plain, LinesOf;
    PlainConcat(s.replay.failed, [Row(s.replay.current.value)], r);
    PlainLine(Row(s.replay.current.value), r);
  }

  lemma EndReplaySlack(s: Sys, r: Rec)
    ensures Slack(Next(s, EndReplay), r) == Slack(s, r) && Slack(Next(s, StartReplay), r) == Slack(s, r)
  {
    hide InFlight, Plain, LinesOf;
    PlainLine(Junk(""), r);
    if s.replay.Reading? { PlainConcat(s.file, s.replay.failed, r); }
  }

  lemma NextSlack(s: Sys, e: Event, first: set<Entry>, r: Rec)
    requires Tied(s, first)
    ensures Slack(Next(s, e), r) >= Slack(s, r)
  {
    hide InFlight, Plain, LinesOf, Insert, Read, AfterReplay, Attempt, Spill, Names, LinesIn;
    match e
    case Enqueue(q) => EnqueueSlack(s, q, r);
    case StartWorker => StartsEmpty(s.workers);
    case Take(i) => TakeSlack(s, i, r);
    case Finish(i, w) => FinishSlack(s, i, w, r);
    case Cancel(i) => CancelSlack(s, i, r);
    case StartReplay => EndReplaySlack(s, r);
    case ReadLine => if s.replay.Reading? && s.replay.current.None? && s.replay.todo != [] { ReadSlack(s, r); }
    case FinishReplay(w) =>
      if s.replay.Reading? && s.replay.current.Some? {
        AfterReplaySlack(s, w, r);
        AttemptSlack(s.(replay := AfterReplay(s.replay, w)), s.replay.current.value, w, r);
      }
    case EndReplay => EndReplaySlack(s, r);
    case _ =>
  }

  lemma {:induction false} FileSlack(lines: seq<Line>, r: Rec)
    ensures Rows(lines)[r] >= Plain(lines, r) + |LinesOf(Numbered(lines), r)|
  {
    if lines == [] {
      assert LinesOf(Numbered(lines), r) == {};
    } else {
      var n := |lines| - 1;
      FileSlack(lines[..n], r);
      NumberedLast(lines);
      hide LinesOf, Numbered, Plain;
      assert Rows(lines) == Rows(lines[..n]) + RowOf(lines[n]);
      PlainConcat(lines[..n], [lines[n]], r);
      PlainLine(lines[n], r);
      assert lines == lines[..n] + [lines[n]];
      if lines[n].Row? && lines[n].entry.id.Some? {
        AddLine(Numbered(lines[..n]), lines[n].entry, r);
      } else {
        assert Numbered(lines) == Numbered(lines[..n]);
      }
    }
  }

  lemma NumberedLast(lines: seq<Line>)
    requires lines != []
    ensures var n := |lines| - 1;
            Numbered(lines) ==
            Numbered(lines[..n]) + if lines[n].Row? && lines[n].entry.id.Some? then {lines[n].entry} else {}
  {
    var n := |lines| - 1;
    assert lines == lines[..n] + [lines[n]];
  }

  lemma {:induction false} SlackOfRun(maxsize: int, file: seq<Line>, table: seq<Entry>, nextId: nat, es: seq<Event>,
                                      r: Rec)
    requires Start(file, table, nextId)
    ensures Slack(Run(Boot(maxsize, file, table, nextId), es), r) >= 0
  {
    hide Next, Start, Tied, Sound, Conserved, Slack;
    if es == [] {
      BootSlack(maxsize, file, table, nextId, r);
    } else {
      var init := es[..|es| - 1];
      SlackOfRun(maxsize, file, table, nextId, init, r);
      RunIsSound(maxsize, file, table, nextId, init);
      NextSlack(Run(Boot(maxsize, file, table, nextId), init), es[|es| - 1], TableIds(table), r);
    }
  }

  lemma BootSlack(maxsize: int, file: seq<Line>, table: seq<Entry>, nextId: nat, r: Rec)
    ensures Slack(Boot(maxsize, file, table, nextId), r) >= 0
  {
    hide Rows, Plain, LinesOf, Numbered;
    NoneInFlight();
    FileSlack(file, r);
  }

  // ----- the law -----

  lemma NextGrows(s: Sys, e: Event)
    ensures s.table <= Next(s, e).table
  {
    hide AfterReplay, Taken;
  }

  lemma {:induction false} TableGrows(s: Sys, es: seq<Event>)
    ensures s.table <= Run(s, es).table
  {
    if es != [] {
      hide Next;
      TableGrows(s, es[..|es| - 1]);
      NextGrows(Run(s, es[..|es| - 1]), es[|es| - 1]);
    }
  }

  lemma {:induction false} LineRowsConcat(a: seq<Entry>, b: seq<Entry>, r: Rec)
    ensures LineRows(a + b, r) == LineRows(a, r) + LineRows(b, r)
  {
    if b == [] {
      assert a + b == a;
    } else {
      assert (a + b)[..|a + b| - 1] == a + b[..|b| - 1];
      LineRowsConcat(a, b[..|b| - 1], r);
    }
  }

  /** Each line of a record has one row at most. */
  lemma {:induction false} LineRowsFew(table: seq<Entry>, lines: set<Entry>, r: Rec)
    requires NoTwins(table)
    requires forall j | 0 <= j < |table| && table[j].rec == r && table[j].id.Some? :: table[j] in lines
    ensures LineRows(table, r) <= |lines|
  {
    if table != [] {
      var n := |table| - 1;
      var last := table[n];
      if last.rec == r && last.id.Some? {
        forall j | 0 <= j < n ensures table[j] != last { assert !Clash(table[j], table[n]); }
        LineRowsFew(table[..n], lines - {last}, r);
      } else {
        LineRowsFew(table[..n], lines, r);
      }
    }
  }

  /** The rows that lines have added. */
  lemma LineGain(maxsize: int, file: seq<Line>, table: seq<Entry>, nextId: nat, es: seq<Event>, r: Rec)
    requires Start(file, table, nextId)
    ensures var s := Run(Boot(maxsize, file, table, nextId), es);
            && LineRows(table, r) <= LineRows(s.table, r) <= LineRows(table, r) + |LinesOf(s.lines, r)|
            && table <= s.table
            && (LineRows(s.table, r) > LineRows(table, r) <==>
                exists j :: |table| <= j < |s.table| && s.table[j].rec == r && s.table[j].id.Some?)
  {
    hide Run, Conserved, Tied, LineRows, NoTwins, Start, LinesOf, Numbered, Rows;
    var start := Boot(maxsize, file, table, nextId);
    var s := Run(start, es);
    RunIsSound(maxsize, file, table, nextId, es);
    TableGrows(start, es);
    var more := s.table[|table|..];
    assert s.table == table + more;
    LineRowsConcat(table, more, r);
    NewLineRows(s, table, r);
    SomeLineRow(more, r);
    ShiftRow(s.table, |table|, r);
  }

  lemma ShiftRow(table: seq<Entry>, n: nat, r: Rec)
    requires n <= |table|
    ensures var more := table[n..];
            (exists j :: 0 <= j < |more| && more[j].rec == r && more[j].id.Some?) <==>
            exists j :: n <= j < |table| && table[j].rec == r && table[j].id.Some?
  {
    var more := table[n..];
    if j :| n <= j < |table| && table[j].rec == r && table[j].id.Some? {
      assert more[j - n] == table[j];
    }
  }

  lemma NewLineRows(s: Sys, table: seq<Entry>, r: Rec)
    requires Tied(s, TableIds(table)) && NoTwins(s.table) && table <= s.table
    ensures LineRows(s.table[|table|..], r) <= |LinesOf(s.lines, r)|
  {
    hide Tied, LineRows, TableIds, Clash;
    var more := s.table[|table|..];
    forall i, j | 0 <= i < j < |more| ensures !Clash(more[i], more[j]) {
      assert !Clash(s.table[|table| + i], s.table[|table| + j]);
    }
    forall j | 0 <= j < |more| && more[j].rec == r && more[j].id.Some? ensures more[j] in LinesOf(s.lines, r) {
      NewIsLine(s, table, |table| + j);
    }
    LineRowsFew(more, LinesOf(s.lines, r), r);
  }

  lemma NewIsLine(s: Sys, table: seq<Entry>, j: nat)
    requires Tied(s, TableIds(table)) && NoTwins(s.table) && table <= s.table
    requires |table| <= j < |s.table| && s.table[j].id.Some?
    ensures s.table[j] in s.lines
  {
    var e := s.table[j];
    assert e in s.lines + TableIds(table);
    if e in table {
      var i :| 0 <= i < |table| && table[i] == e;
      assert Clash(s.table[i], s.table[j]);
    }
  }

  lemma {:induction false} SomeLineRow(table: seq<Entry>, r: Rec)
    ensures LineRows(table, r) > 0 <==> exists j :: 0 <= j < |table| && table[j].rec == r && table[j].id.Some?
  {
    if table != [] {
      var n := |table| - 1;
      SomeLineRow(table[..n], r);
      assert forall j | 0 <= j < n :: table[..n][j] == table[j];
    }
  }

  /** Without a reference, every write from the queue that was acknowledged or landed late makes a row, and every line
      makes one at most. A copy of the record makes at most one row of each kind, and none through a line if it was
      acknowledged from the queue; so late landings are all that a record can have in rows beyond its copies. */
  lemma RowsWithoutReference(maxsize: int, file: seq<Line>, table: seq<Entry>, nextId: nat, es: seq<Event>, r: Rec)
    requires Start(file, table, nextId) && r.ref.None?
    ensures var start := Boot(maxsize, file, table, nextId);
            var s := Run(start, es);
            var late, lineRows := Landed(start, es, Entry(r, None)), LineRows(s.table, r) - LineRows(table, r);
            && RowsOf(s.table, r) == RowsOf(table, r) + s.direct[r] + late + lineRows
            && 0 <= lineRows <= |LinesOf(s.lines, r)|
            && s.direct[r] + |LinesOf(s.lines, r)| + s.lost[r] <= s.accepted[r] && s.direct[r] + late <= s.accepted[r]
  {
    var start := Boot(maxsize, file, table, nextId);
    var s := Run(start, es);
    RowsOfRun(start, es, r);
    BudgetOfRun(maxsize, file, table, nextId, es, r);
    SlackOfRun(maxsize, file, table, nextId, es, r);
    LineGain(maxsize, file, table, nextId, es, r);
    RowsSplit(table, r);
    RowsSplit(s.table, r);
    StartsWithout(maxsize, file, table, nextId, r);
    hide Run, Landed, Start, LineRows, RowsOf, Plain, InFlight, LinesOf, Boot, Rows;
  }

  lemma StartsWithout(maxsize: int, file: seq<Line>, table: seq<Entry>, nextId: nat, r: Rec)
    ensures var start := Boot(maxsize, file, table, nextId);
            start.table == table && start.direct == multiset{}
  {
  }

  /** A record that came in once gets two more rows exactly if its write from the queue was given up on and landed,
      and a row of its line was inserted as well. It never gets three. */
  lemma DoubledIff(maxsize: int, file: seq<Line>, table: seq<Entry>, nextId: nat, es: seq<Event>, r: Rec)
    requires Start(file, table, nextId) && r.ref.None?
    requires Run(Boot(maxsize, file, table, nextId), es).accepted[r] == 1
    ensures var start := Boot(maxsize, file, table, nextId);
            var s := Run(start, es);
            var more := RowsOf(s.table, r) - RowsOf(table, r);
            && 0 <= more <= 2
            && (more == 2 <==>
                && Landed(start, es, Entry(r, None)) > 0
                && exists j :: |table| <= j < |s.table| && s.table[j].rec == r && s.table[j].id.Some?)
  {
    hide Run, Landed, Start, LineRows, RowsOf, LinesOf, Boot;
    RowsWithoutReference(maxsize, file, table, nextId, es, r);
    LineGain(maxsize, file, table, nextId, es, r);
  }

  /** Wherever a run stops, the file and the table it leaves are what the next one may start with. */
  lemma Restarts(maxsize: int, file: seq<Line>, table: seq<Entry>, nextId: nat, es: seq<Event>)
    requires Start(file, table, nextId)
    ensures var s := Run(Boot(maxsize, file, table, nextId), es);
            Start(s.file, s.table, s.nextId)
  {
    hide Run, Boot, Conserved, NoTwins;
    var s := Run(Boot(maxsize, file, table, nextId), es);
    RunIsSound(maxsize, file, table, nextId, es);
    forall e | e in Numbered(s.file) + TableIds(s.table) ensures e in s.lines + TableIds(table) {
      if e in Numbered(s.file) {
        var j :| 0 <= j < |s.file| && s.file[j] == Row(e);
        assert s.file[j].entry in s.lines;
      } else {
        var j :| 0 <= j < |s.table| && s.table[j] == e;
      }
    }
  }

  // ----- runs -----

  lemma {:induction false} RunSteps(states: seq<Sys>, es: seq<Event>)
    requires |states| == |es| + 1 && forall i | 0 <= i < |es| :: states[i + 1] == Next(states[i], es[i])
    ensures Run(states[0], es) == states[|es|]
  {
    hide Next;
    if es != [] { RunSteps(states[..|es|], es[..|es| - 1]); }
  }

  /** Nothing on file, nothing in the table. */
  function Blank(): Sys {
    Sys(0, [], [], Idle, [], [], multiset{}, 0, {}, multiset{}, multiset{}, multiset{}, multiset{})
  }

  lemma Nothing()
    ensures Boot(0, [], [], 0) == Blank()
  {
  }

  function Waiting(): Sys {
    Blank().(workers := [None])
  }

  function Queued(r: Rec): Sys {
    Waiting().(queue := [r], accepted := multiset{r})
  }

  /** A worker is writing the record, and nothing else has happened. */
  function Writing(r: Rec): Sys {
    Blank().(workers := [Some(r)], accepted := multiset{r})
  }

  lemma RecordTaken(r: Rec)
    ensures Next(Blank(), StartWorker) == Waiting()
    ensures Next(Waiting(), Enqueue(r)) == Queued(r)
    ensures Next(Queued(r), Take(0)) == Writing(r)
  {
    hide Spill, Read, Attempt, Insert, AfterReplay, Rows, Numbered;
    assert [r] == [] + [r];
    assert [r][1..] == [];
  }

  /** The write was given up on: the record has the first line of the file, and may still land without it. */
  function GivenUp(r: Rec): Sys {
    var e := Entry(r, Some(0));
    Blank().(workers := [None], accepted := multiset{r}, file := [Row(e)], late := multiset{Entry(r, None)},
             nextId := 1, lines := {e})
  }

  function LateRow(r: Rec): Sys {
    GivenUp(r).(late := multiset{}, table := [Entry(r, None)])
  }

  lemma LateSteps(r: Rec)
    ensures Next(Writing(r), Finish(0, TimedOut)) == GivenUp(r)
    ensures Next(GivenUp(r), Land(Entry(r, None))) == LateRow(r)
  {
    hide Read, AfterReplay, Rows, Numbered, Taken;
    var e := Entry(r, Some(0));
    assert [Row(e)] == [] + [Row(e)];
    assert [Some(r)][0 := None] == [None];
    assert Insert([], Entry(r, None)) == [Entry(r, None)] by { InsertFirst(Entry(r, None)); }
  }

  lemma InsertFirst(e: Entry)
    ensures Insert([], e) == [e]
  {
  }

  lemma ReadOne(s: Sys, e: Entry)
    requires s.replay.Idle? && s.file == [Row(e)] && e in s.lines && e.id.Some?
    ensures Next(Next(s, StartReplay), ReadLine) ==
            s.(file := [], replay := Reading([], Some(e), []), nextId := s.nextId + 1)
  {
    hide Insert, Rows, Attempt, Spill, AfterReplay;
    assert s.lines + {e} == s.lines;
    assert [Row(e)][1..] == [];
  }

  lemma WriteOneLine(s: Sys, e: Entry, w: Write)
    requires s.replay == Reading([], Some(e), [])
    ensures Next(s, FinishReplay(w)) ==
            Attempt(s, e, w).(replay := Reading([], None, if w == Wrote then [] else [Row(e)]))
  {
    hide Insert, Rows, Read, Spill;
    assert [] + [Row(e)] == [Row(e)];
    assert AfterReplay(s.replay, w) == Reading([], None, if w == Wrote then [] else [Row(e)]);
    hide AfterReplay;
  }

  lemma EndOne(s: Sys, failed: seq<Line>)
    requires s.replay == Reading([], None, failed) && s.file == []
    ensures Next(s, EndReplay) == s.(replay := Idle, file := failed)
  {
    hide Read, AfterReplay, Spill, Attempt, Insert;
  }

  /** The replay of one line. */
  lemma ReplayOne(s: Sys, e: Entry, w: Write)
    requires s.replay.Idle? && s.file == [Row(e)] && e in s.lines && e.id.Some?
    ensures Next(Next(Next(Next(s, StartReplay), ReadLine), FinishReplay(w)), EndReplay) ==
            Attempt(s.(nextId := s.nextId + 1), e, w).(file := if w == Wrote then [] else [Row(e)])
  {
    hide Next, Insert;
    var read := s.(file := [], replay := Reading([], Some(e), []), nextId := s.nextId + 1);
    var failed := if w == Wrote then [] else [Row(e)];
    ReadOne(s, e);
    WriteOneLine(read, e, w);
    EndOne(Attempt(read, e, w).(replay := Reading([], None, failed)), failed);
  }

  /** A write that is given up on, lands, and is replayed: one record came in, and two rows are there. */
  lemma LateTwice(r: Rec)
    requires r.ref.None?
    ensures var s := Run(Boot(0, [], [], 0), [StartWorker, Enqueue(r), Take(0), Finish(0, TimedOut),
                                              Land(Entry(r, None)), StartReplay, ReadLine, FinishReplay(Wrote),
                                              EndReplay, Cancel(0)]);
            AtRest(s) && s.file == [] && s.accepted == multiset{r} && s.table == [Entry(r, None), Entry(r, Some(0))]
  {
    hide Next, Run, Boot, Writing, Waiting, Queued, Attempt;
    Nothing();
    var e, a := Entry(r, Some(0)), LateRow(r);
    var b := Next(a, StartReplay);
    var c := Next(b, ReadLine);
    var d := Next(c, FinishReplay(Wrote));
    var f := Attempt(a.(nextId := 2), e, Wrote).(file := []);
    RecordTaken(r);
    LateSteps(r);
    ReplayOne(a, e, Wrote);
    RunSteps([Blank(), Waiting(), Queued(r), Writing(r), GivenUp(r), a, b, c, d, f, Next(f, Cancel(0))],
             [StartWorker, Enqueue(r), Take(0), Finish(0, TimedOut), Land(Entry(r, None)),
              StartReplay, ReadLine, FinishReplay(Wrote), EndReplay, Cancel(0)]);
    LineAfterLate(r);
    WorkerGone(f);
  }

  lemma LineAfterLate(r: Rec)
    requires r.ref.None?
    ensures var e := Entry(r, Some(0));
            var f := Attempt(LateRow(r).(nextId := 2), e, Wrote);
            && f.table == [Entry(r, None), e] && f.workers == [None] && f.queue == [] && f.replay.Idle?
            && f.accepted == multiset{r}
  {
    hide Rows, Numbered;
    var e := Entry(r, Some(0));
    assert !Taken([Entry(r, None)], e);
    assert [Entry(r, None)] + [e] == [Entry(r, None), e];
  }

  lemma WorkerGone(s: Sys)
    requires s.workers == [None]
    ensures Next(s, Cancel(0)) == s.(workers := [])
  {
    assert s.workers[..0] + s.workers[1..] == [];
  }

  /** The program starts with one line on file. */
  function OneLine(r: Rec): Sys {
    var e := Entry(r, Some(0));
    Blank().(file := [Row(e)], accepted := multiset{r}, nextId := 1, lines := {e})
  }

  lemma LineBoots(r: Rec)
    ensures Boot(0, [Row(Entry(r, Some(0)))], [], 1) == OneLine(r)
  {
    var line := Row(Entry(r, Some(0)));
    RowsOne(line);
    assert line in [line];
    assert Numbered([line]) == {line.entry};
  }

  /** A replay that is given up on and lands, and is replayed again from the same line: one row. */
  lemma ReplayedOnce(r: Rec)
    ensures var e := Entry(r, Some(0));
            var s := Run(Boot(0, [Row(e)], [], 1), [StartReplay, ReadLine, FinishReplay(TimedOut), EndReplay, Land(e),
                                                    StartReplay, ReadLine, FinishReplay(Wrote), EndReplay]);
            AtRest(s) && s.file == [] && s.accepted == multiset{r} && s.table == [e]
  {
    hide Next, Run, Boot, Attempt;
    var e, s := Entry(r, Some(0)), OneLine(r);
    var a := Next(s, StartReplay);
    var b := Next(a, ReadLine);
    var c := Next(b, FinishReplay(TimedOut));
    var d := s.(nextId := 2, late := multiset{e});
    var f := s.(nextId := 2, table := [e]);
    var g := Next(f, StartReplay);
    var h := Next(g, ReadLine);
    var i := Next(h, FinishReplay(Wrote));
    var j := s.(nextId := 3, table := [e], replayed := multiset{r}, file := []);
    LineBoots(r);
    LineLands(r);
    ReplayOne(s, e, TimedOut);
    ReplayOne(f, e, Wrote);
    RunSteps([s, a, b, c, d, f, g, h, i, j],
             [StartReplay, ReadLine, FinishReplay(TimedOut), EndReplay, Land(e),
              StartReplay, ReadLine, FinishReplay(Wrote), EndReplay]);
  }

  lemma LineLands(r: Rec)
    ensures var e, s := Entry(r, Some(0)), OneLine(r);
            && Attempt(s.(nextId := 2), e, TimedOut) == s.(nextId := 2, late := multiset{e})
            && Next(s.(nextId := 2, late := multiset{e}), Land(e)) == s.(nextId := 2, table := [e])
            && Attempt(s.(nextId := 3, table := [e]), e, Wrote) ==
               s.(nextId := 3, table := [e], replayed := multiset{r})
  {
    hide Read, AfterReplay, Spill;
    var e := Entry(r, Some(0));
    assert Clash(e, [e][0]) && Taken([e], e);
    InsertFirst(e);
  }

  /** A worker is cancelled in the middle of a write that never lands: the record is gone. */
  lemma HitAndGone(r: Rec)
    ensures var s := Run(Boot(0, [], [], 0), [StartWorker, Enqueue(r), Take(0), Cancel(0), Vanish(Entry(r, None))]);
            AtRest(s) && Gone(s, r) && s.table == [] && s.file == []
  {
    hide Next, Run, Boot, Writing, Waiting, Queued;
    Nothing();
    RecordTaken(r);
    HitSteps(r);
    LateOne(Hit(r), Entry(r, None));
    RunSteps([Blank(), Waiting(), Queued(r), Writing(r), Hit(r), Hit(r).(late := multiset{})],
             [StartWorker, Enqueue(r), Take(0), Cancel(0), Vanish(Entry(r, None))]);
  }

  /** The same run, except that the write lands: the record has its row. */
  lemma HitAndLanded(r: Rec)
    ensures var s := Run(Boot(0, [], [], 0), [StartWorker, Enqueue(r), Take(0), Cancel(0), Land(Entry(r, None))]);
            AtRest(s) && !Gone(s, r) && s.table == [Entry(r, None)] && s.file == []
  {
    hide Next, Run, Boot, Writing, Waiting, Queued;
    Nothing();
    RecordTaken(r);
    HitSteps(r);
    LateOne(Hit(r), Entry(r, None));
    var s := Hit(r).(late := multiset{}, table := [Entry(r, None)]);
    assert Same(s.table[0].rec, r);
    RunSteps([Blank(), Waiting(), Queued(r), Writing(r), Hit(r), s],
             [StartWorker, Enqueue(r), Take(0), Cancel(0), Land(Entry(r, None))]);
  }

  /** The worker was cancelled. */
  function Hit(r: Rec): Sys {
    Blank().(accepted := multiset{r}, lost := multiset{r}, late := multiset{Entry(r, None)})
  }

  lemma HitSteps(r: Rec)
    ensures Next(Writing(r), Cancel(0)) == Hit(r)
  {
    hide Read, AfterReplay, Spill, Attempt, Insert;
    assert [Some(r)][..0] + [Some(r)][1..] == [];
  }

  lemma LateOne(s: Sys, e: Entry)
    requires s.late == multiset{e} && s.table == []
    ensures Next(s, Vanish(e)) == s.(late := multiset{})
    ensures Next(s, Land(e)) == s.(late := multiset{}, table := [e])
  {
    InsertFirst(e);
    hide Read, AfterReplay, Spill, Attempt, Insert;
  }

  // ----- the queue object -----

  function Then(es: seq<Event>, e: Event): (r: seq<Event>) {
    es + [e]
  }

  lemma RunThen(s: Sys, es: seq<Event>, e: Event)
    ensures Run(s, Then(es, e)) == Next(Run(s, es), e)
  {
    assert (es + [e])[..|es|] == es;
  }

  class WriteBehindQueue {
    const maxsize: int
    var queue: seq<Rec>
    var workers: seq<Option<Rec>>
    var replay: Replay
    var overflowFile: seq<Line>
    var table: seq<Entry>
    var nextId: nat
    ghost var late: multiset<Entry>
    ghost var lines: set<Entry>
    ghost var accepted: multiset<Rec>
    ghost var direct: multiset<Rec>
    ghost var replayed: multiset<Rec>
    ghost var lost: multiset<Rec>

    ghost function View(): Sys
      reads this
    {
      Sys(maxsize, queue, workers, replay, overflowFile, table, late, nextId, lines, accepted, direct, replayed, lost)
    }

    constructor (maxsize: int, file: seq<Line>, table: seq<Entry>, nextId: nat)
      ensures View() == Boot(maxsize, file, table, nextId)
    {
      this.maxsize, queue, workers, replay := maxsize, [], [], Idle;
      overflowFile, this.table, this.nextId := file, table, nextId;
      late, lines, accepted := multiset{}, Numbered(file), Rows(file);
      direct, replayed, lost := multiset{}, multiset{}, multiset{};
    }

    method SpillRecord(r: Rec)
      modifies this`overflowFile, this`nextId, this`lines
      ensures View() == Spill(old(View()), r)
    {
      var line := Entry(r, Some(nextId));
      overflowFile, nextId, lines := overflowFile + [Row(line)], nextId + 1, lines + {line};
    }

    method PutNowait(r: Rec)
      modifies this
      ensures View() == Next(old(View()), Enqueue(r))
    {
      accepted := accepted + multiset{r};
      if maxsize > 0 && |queue| >= maxsize {
        SpillRecord(r);
      } else {
        queue := queue + [r];
      }
    }

    /** `_write_one`; the outcome is the world's. */
    method WriteOne(e: Entry, write: Write) returns (ok: bool)
      modifies this`table, this`late, this`direct, this`replayed
      ensures ok == write.Wrote? && View() == Attempt(old(View()), e, write)
    {
      match write {
        case Wrote =>
          table := Insert(table, e);
          if e.id.None? {
            direct := direct + multiset{e.rec};
          } else {
            replayed := replayed + multiset{e.rec};
          }
        case Failed =>
        case TimedOut =>
          late := late + multiset{e};
      }
      ok := write.Wrote?;
    }

    method AddWorker()
      modifies this`workers
      ensures View() == Next(old(View()), StartWorker) && workers == old(workers) + [None]
    {
      workers := workers + [None];
    }

    method WorkerGet(i: nat)
      requires i < |workers| && workers[i].None? && queue != []
      modifies this`workers, this`queue
      ensures View() == Next(old(View()), Take(i))
      ensures workers == old(workers[i := Some(queue[0])]) && queue == old(queue[1..])
    {
      workers, queue := workers[i := Some(queue[0])], queue[1..];
    }

    method WorkerWrite(i: nat, write: Write)
      requires i < |workers| && workers[i].Some?
      modifies this`table, this`late, this`direct, this`replayed, this`workers
      modifies this`overflowFile, this`nextId, this`lines
      ensures View() == Next(old(View()), Finish(i, write)) && workers == old(workers[i := None])
    {
      var r := workers[i].value;
      workers := workers[i := None];
      var ok := WriteOne(Entry(r, None), write);
      if !ok {
        SpillRecord(r);
      }
    }

    method CancelWorker(i: nat)
      requires i < |workers|
      modifies this`workers, this`lost, this`late
      ensures View() == Next(old(View()), Cancel(i)) && workers == old(workers[..i] + workers[i + 1..])
    {
      if workers[i].Some? {
        lost, late := lost + multiset{workers[i].value}, late + multiset{Entry(workers[i].value, None)};
      }
      workers := workers[..i] + workers[i + 1..];
    }

    method ReplayWrite(write: Write)
      requires replay.Reading? && replay.current.Some?
      modifies this`table, this`late, this`direct, this`replayed, this`replay
      ensures View() == Next(old(View()), FinishReplay(write))
      ensures replay.Reading? && replay.todo == old(replay).todo && replay.current.None?
    {
      hide Insert, Read, Spill;
      var e := replay.current.value;
      var ok := WriteOne(e, write);
      replay := replay.(current := None);
      if !ok {
        replay := replay.(failed := replay.failed + [Row(e)]);
      }
    }

    /** The next line of the file; one without a write id gets one. */
    method ReplayRead()
      requires replay.Reading? && replay.current.None? && replay.todo != []
      modifies this`replay, this`nextId, this`lines
      ensures View() == Next(old(View()), ReadLine)
      ensures replay.Reading? && replay.todo == old(replay).todo[1..]
    {
      var line, rest := replay.todo[0], replay.todo[1..];
      match line {
        case Row(e) =>
          var numbered := if e.id.Some? then e else Entry(e.rec, Some(nextId));
          replay := Reading(rest, Some(numbered), replay.failed);
          nextId, lines := nextId + 1, lines + {numbered};
        case Junk(_) =>
          replay := Reading(rest, None, replay.failed + [line]);
      }
    }

    method KeepFailed()
      requires replay.Reading? && replay.current.None? && replay.todo == []
      modifies this`overflowFile, this`replay
      ensures View() == Next(old(View()), EndReplay) && replay.Idle?
    {
      overflowFile, replay := overflowFile + replay.failed, Idle;
    }

    /** The rest of `_replay_overflow`. */
    method FinishReplaying(writes: nat -> Write, ghost s: Sys, ghost before: seq<Event>) returns (ghost es: seq<Event>)
      requires View() == Run(s, before)
      modifies this
      ensures View() == Run(s, es) && replay.Idle? && queue == old(queue) && workers == old(workers)
    {
      hide *;
      var k := 0;
      es := before;
      while replay.Reading?
        invariant View() == Run(s, es) && queue == old(queue) && workers == old(workers)
        decreases if replay.Reading? then 2 + 2 * |replay.todo| + (if replay.current.Some? then 1 else 0) else 0
      {
        ghost var e: Event;
        if replay.current.Some? {
          e := FinishReplay(writes(k));
          ReplayWrite(writes(k));
          k := k + 1;
        } else if replay.todo != [] {
          e := ReadLine;
          ReplayRead();
        } else {
          e := EndReplay;
          KeepFailed();
        }
        RunThen(s, es, e);
        es := Then(es, e);
      }
    }

    /** The head of the queue, written by the caller as a worker of its own. */
    method ConsumeOne(write: Write, ghost s: Sys, ghost before: seq<Event>) returns (ghost es: seq<Event>)
      requires View() == Run(s, before) && workers == [] && queue != []
      modifies this
      ensures View() == Run(s, es) && workers == [] && queue == old(queue)[1..] && replay == old(replay)
    {
      hide *;
      ghost var one := Then(before, StartWorker);
      ghost var two := Then(one, Take(0));
      ghost var three := Then(two, Finish(0, write));
      es := Then(three, Cancel(0));
      RunThen(s, before, StartWorker);
      RunThen(s, one, Take(0));
      RunThen(s, two, Finish(0, write));
      RunThen(s, three, Cancel(0));
      AddWorker();
      WorkerGet(0);
      WorkerWrite(0, write);
      CancelWorker(0);
    }

    /** The rest of the queue, written by the caller itself. */
    method Consume(writes: nat -> Write, ghost s: Sys, ghost before: seq<Event>) returns (ghost es: seq<Event>)
      requires View() == Run(s, before) && workers == [] && replay.Idle?
      modifies this
      ensures View() == Run(s, es) && AtRest(View())
    {
      hide Run;
      var k := 0;
      es := before;
      while queue != []
        invariant View() == Run(s, es) && workers == [] && replay.Idle?
        decreases |queue|
      {
        es := ConsumeOne(writes(k), s, es);
        k := k + 1;
      }
    }

    /** `stop`: cancel the workers, then drain. It always comes to rest, by steps of the machine. */
    method Stop(replays: nat -> Write, writes: nat -> Write) returns (ghost es: seq<Event>)
      modifies this
      ensures View() == Run(old(View()), es) && AtRest(View())
    {
      ghost var s := View();
      es := [];
      while workers != []
        invariant View() == Run(s, es)
        decreases |workers|
      {
        CancelWorker(0);
        RunThen(s, es, Cancel(0));
        es := Then(es, Cancel(0));
      }
      es := FinishReplaying(replays, s, es);
      es := Consume(writes, s, es);
    }
  }
}
