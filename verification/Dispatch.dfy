/**
 The dispatch loop with its retry budget (proxy/dispatcher.py, rate_limiting.py,
 proxy/model_group_dispatch.py): choose a channel, attempt it, wait out a rate limit or exclude the
 channel, until one serves or none is left.

 What the world answers is an oracle asked at increasing times, so every lemma speaks of every run.
 */
module Dispatch {
  import opened Wrappers

  /** A span on a clock that never runs backwards. */
  type Seconds = x: real | x >= 0.0 witness 0.0

  datatype Channel = Channel(id: string, enabled: bool, convertible: bool)

  /** What one attempt on a channel comes to. `Limited` is a 429 or a queue timeout, `Quota` a limit of the
      whole window, `Broken` any other exception. */
  datatype Outcome =
    | Served
    | Spent
    | Limited(retryAfter: Option<real>, waited: Seconds, queueTimeout: bool)
    | Quota
    | Broken

  /** The world: health and blocking gates, the balancer's choice, degradation, attempts, the sticky preference. */
  datatype World = World(
    admits: (nat, string) -> bool,
    choice: nat -> nat,
    degraded: (nat, string) -> bool,
    outcome: nat -> Outcome,
    preferred: nat -> Option<string>)

  /** A channel that was attempted, when, and the channels excluded by then. */
  datatype Attempt = Attempt(id: string, at: nat, excluded: set<string>)

  /** `DispatchContext`, with the time, the seconds slept and the attempts made. */
  datatype Context = Context(
    tried: set<string>, budget: real, lastError: Option<Outcome>, now: nat, slept: real, attempts: seq<Attempt>)

  function FreshContext(budget: real): Context {
    Context({}, budget, None, 0, 0.0, [])
  }

  /** `dispatch` chooses from a pool, `dispatch_pinned` takes its channel; only a pinned channel may skip the
      gates, and only some calls yield to channels that are not degraded. */
  datatype Selector = Pool(channels: seq<Channel>) | Pinned(channel: Channel, admission: bool)

  datatype Result = Done(channel: string) | Exhausted | Raised(error: Outcome)

  datatype Turn = Again(context: Context) | Halt(result: Result, context: Context)

  // ----- one turn -----

  predicate Admitted(w: World, c: Context, ch: Channel) {
    ch.enabled && ch.id !in c.tried && w.admits(c.now, ch.id)
  }

  function Available(w: World, c: Context, chs: seq<Channel>): seq<Channel> {
    if chs == [] then []
    else Available(w, c, chs[..|chs| - 1]) + if Admitted(w, c, chs[|chs| - 1]) then [chs[|chs| - 1]] else []
  }

  function Select(w: World, c: Context, sel: Selector): Option<Channel> {
    match sel
    case Pool(chs) =>
      var open := Available(w, c, chs);
      if open == [] then None else Some(open[w.choice(c.now) % |open|])
    case Pinned(ch, admission) =>
      if ch.id in c.tried then None
      else if admission then (if Admitted(w, c, ch) then Some(ch) else None)
      else if ch.enabled then Some(ch) else None
  }

  function Exclude(c: Context, id: string): Context {
    c.(tried := c.tried + {id})
  }

  function Max(a: real, b: real): real {
    if a < b then b else a
  }

  /** How long to wait when nothing is said, and never less than a tenth of a second. */
  function Delay(retryAfter: Option<real>): real {
    if retryAfter.None? then 1.0 else Max(retryAfter.value, 0.1)
  }

  /** `handle_rate_limit` */
  function HandleRateLimit(c: Context, id: string, o: Outcome): Context
    requires o.Limited?
  {
    if o.waited > 0.0 || o.queueTimeout
    then Exclude(c.(budget := Max(0.0, c.budget - o.waited), lastError := Some(o)), id)
    else if c.budget >= Delay(o.retryAfter) then
      c.(budget := c.budget - Delay(o.retryAfter), slept := c.slept + Delay(o.retryAfter))
    else Exclude(c.(lastError := Some(o)), id)
  }

  function AfterAttempt(c: Context, id: string, o: Outcome): Turn {
    match o
    case Served => Halt(Done(id), c)
    case Spent => Again(Exclude(c.(lastError := Some(o)), id))
    case Limited(_, _, _) => Again(HandleRateLimit(c, id, o))
    case _ => Halt(Raised(o), c)
  }

  /** One turn of `_dispatch_loop`. */
  function Step(w: World, sel: Selector, yielding: bool, c: Context): Turn {
    var chosen := Select(w, c, sel);
    var next := c.(now := c.now + 1);
    if chosen.None? then Halt(Exhausted, next)
    else
      var id := chosen.value.id;
      if yielding && w.degraded(c.now, id) then Again(Exclude(next, id))
      else AfterAttempt(next.(attempts := c.attempts + [Attempt(id, c.now, c.tried)]), id, w.outcome(c.now))
  }

  // ----- what a turn spends -----

  function IdsOf(chs: seq<Channel>): set<string> {
    set ch | ch in chs :: ch.id
  }

  function Ids(sel: Selector): set<string> {
    match sel
    case Pool(chs) => IdsOf(chs)
    case Pinned(ch, _) => {ch.id}
  }

  /** Whole tenths of a second left to wait. */
  function Tenths(budget: real): nat {
    if budget < 0.0 then 0 else (10.0 * budget).Floor
  }

  /** Channels left to try, and tenths left to wait. */
  function Left(ids: set<string>, c: Context): nat {
    |ids - c.tried| + Tenths(c.budget)
  }

  lemma WaitSpends(budget: real, delay: real)
    requires budget >= delay >= 0.1
    ensures Tenths(budget - delay) < Tenths(budget)
  {
  }

  lemma ExcludeSpends(ids: set<string>, tried: set<string>, id: string)
    requires id in ids && id !in tried
    ensures |ids - (tried + {id})| == |ids - tried| - 1
  {
    assert ids - (tried + {id}) == (ids - tried) - {id};
  }

  lemma {:induction false} AvailableIs(w: World, c: Context, chs: seq<Channel>)
    ensures forall ch | ch in Available(w, c, chs) :: ch in chs && Admitted(w, c, ch)
    ensures forall ch | ch in chs && Admitted(w, c, ch) :: ch in Available(w, c, chs)
  {
    if chs != [] {
      AvailableIs(w, c, chs[..|chs| - 1]);
    }
  }

  lemma SelectedIsNew(w: World, c: Context, sel: Selector)
    requires Select(w, c, sel).Some?
    ensures Select(w, c, sel).value.id in Ids(sel) && Select(w, c, sel).value.id !in c.tried
  {
    if sel.Pool? {
      AvailableIs(w, c, sel.channels);
      var ch := Select(w, c, sel).value;
      assert ch in Available(w, c, sel.channels);
      assert ch in sel.channels && Admitted(w, c, ch);
    }
  }

  lemma LimitSpends(c: Context, id: string, o: Outcome, ids: set<string>)
    requires o.Limited? && id in ids && id !in c.tried
    ensures Left(ids, HandleRateLimit(c, id, o)) < Left(ids, c)
  {
    ExcludeSpends(ids, c.tried, id);
    if o.waited > 0.0 || o.queueTimeout {
      QueueSpends(c.budget, o.waited);
    } else if c.budget >= Delay(o.retryAfter) {
      WaitSpends(c.budget, Delay(o.retryAfter));
    }
  }

  lemma AttemptSpends(c: Context, id: string, o: Outcome, ids: set<string>)
    requires id in ids && id !in c.tried
    ensures AfterAttempt(c, id, o).Again? ==> Left(ids, AfterAttempt(c, id, o).context) < Left(ids, c)
  {
    hide HandleRateLimit, Tenths;
    ExcludeSpends(ids, c.tried, id);
    if o.Limited? { LimitSpends(c, id, o, ids); }
  }

  /** Each turn that goes on excludes a new channel or waits at least a tenth of a second; a turn that attempts
      had something left. */
  lemma StepSpends(w: World, sel: Selector, yielding: bool, c: Context, ids: set<string>)
    requires Ids(sel) <= ids
    ensures var t := Step(w, sel, yielding, c);
            && (t.Again? ==> Left(ids, t.context) < Left(ids, c))
            && (t.context.attempts != c.attempts ==> Left(ids, c) > 0)
  {
    hide Select, Ids, HandleRateLimit, Tenths;
    if Select(w, c, sel).Some? {
      SelectedIsNew(w, c, sel);
      var id := Select(w, c, sel).value.id;
      ExcludeSpends(ids, c.tried, id);
      var asked := c.(now := c.now + 1, attempts := c.attempts + [Attempt(id, c.now, c.tried)]);
      AttemptSpends(asked, id, w.outcome(c.now), ids);
      hide AfterAttempt;
    }
  }

  lemma QueueSpends(budget: real, waited: Seconds)
    ensures Tenths(Max(0.0, budget - waited)) <= Tenths(budget)
  {
  }

  // ----- a whole loop, a whole group -----

  /** `_dispatch_loop`: there is always less left, so it ends. */
  function Loop(w: World, sel: Selector, yielding: bool, c: Context): (Result, Context)
    decreases Left(Ids(sel), c)
  {
    StepSpends(w, sel, yielding, c, Ids(sel));
    match Step(w, sel, yielding, c)
    case Again(c') => Loop(w, sel, yielding, c')
    case Halt(r, c') => (r, c')
  }

  /** One item of a model group; `channels` are those that serve its model. */
  datatype Entry = Entry(blocked: bool, bound: Option<string>, channels: seq<Channel>)

  function Find(chs: seq<Channel>, id: string, enabledOnly: bool): (r: Option<Channel>)
    ensures r.Some? ==> r.value in chs && r.value.id == id
  {
    if chs == [] then None
    else if chs[0].id == id && (chs[0].enabled || !enabledOnly) then Some(chs[0])
    else Find(chs[1..], id, enabledOnly)
  }

  function Convertible(chs: seq<Channel>): (r: seq<Channel>)
    ensures forall ch | ch in r :: ch in chs
  {
    if chs == [] then []
    else (if chs[0].convertible then [chs[0]] else []) + Convertible(chs[1..])
  }

  /** The sticky channel of a lazy group, if it is there and not excluded. */
  function Preferred(w: World, c: Context, pool: seq<Channel>): Option<Channel> {
    var id := Or(w.preferred(c.now), "");
    if id == "" || id in c.tried then None else Find(pool, id, false)
  }

  function Tick(c: Context): Context {
    c.(now := c.now + 1)
  }

  function RunPool(w: World, lazy: bool, pool: seq<Channel>, c: Context): (Result, Context) {
    if !lazy then Loop(w, Pool(pool), false, c)
    else
      var preferred := Preferred(w, c, pool);
      var first := if preferred.None? then (Exhausted, Tick(c))
                   else Loop(w, Pinned(preferred.value, true), true, Tick(c));
      if first.0 != Exhausted then first else Loop(w, Pool(pool), true, first.1)
  }

  /** What a group does with one of its items; Exhausted is the case that moves on to the next. */
  function RunEntry(w: World, lazy: bool, e: Entry, c: Context): (Result, Context) {
    if e.blocked then (Exhausted, c)
    else if e.bound.Some? then
      var ch := Find(e.channels, e.bound.value, true);
      if ch.None? then (Exhausted, c) else Loop(w, Pinned(ch.value, false), false, c)
    else
      var pool := Convertible(e.channels);
      if pool == [] then (Exhausted, c) else RunPool(w, lazy, pool, c)
  }

  /** `execute_model_group_request`, with one context for all its items. */
  function RunGroup(w: World, lazy: bool, entries: seq<Entry>, c: Context): (Result, Context) {
    if entries == [] then (Exhausted, c)
    else
      var first := RunEntry(w, lazy, entries[0], c);
      if first.0 != Exhausted then first else RunGroup(w, lazy, entries[1..], first.1)
  }

  // ----- what holds over a whole request -----

  /** No channel is attempted once it is excluded, and what is excluded stays so. */
  ghost predicate Clean(c: Context) {
    && (forall i | 0 <= i < |c.attempts| ::
          c.attempts[i].id !in c.attempts[i].excluded && c.attempts[i].excluded <= c.tried)
    && (forall i, j | 0 <= i < j < |c.attempts| :: c.attempts[i].excluded <= c.attempts[j].excluded)
  }

  /** The outcomes that keep the loop going. */
  predicate Fails(o: Outcome) {
    o.Spent? || o.Limited?
  }

  ghost predicate AllFail(w: World, attempts: seq<Attempt>) {
    forall i | 0 <= i < |attempts| :: Fails(w.outcome(attempts[i].at))
  }

  /** A 429 that was not waited for in the queue: it is no error as long as its channel is kept. */
  predicate Waitable(o: Outcome) {
    o.Limited? && o.waited <= 0.0 && !o.queueTimeout
  }

  /** The error on record is that of an attempt, with nothing after it but what may have been waited out. */
  ghost predicate ErrorIs(w: World, c: Context) {
    match c.lastError
    case None => forall i | 0 <= i < |c.attempts| :: Waitable(w.outcome(c.attempts[i].at))
    case Some(o) =>
      exists i | 0 <= i < |c.attempts| ::
        o == w.outcome(c.attempts[i].at) && forall j | i < j < |c.attempts| :: Waitable(w.outcome(c.attempts[j].at))
  }

  /** The first attempt that does not fail in a retryable way decides the result; if there is none the error on record
      is that of the last failure. */
  ghost predicate Decided(w: World, r: Result, c: Context) {
    var attempts := c.attempts;
    if r == Exhausted then AllFail(w, attempts) && ErrorIs(w, c)
    else
      && attempts != [] && AllFail(w, attempts[..|attempts| - 1])
      && var last := attempts[|attempts| - 1];
         r == if w.outcome(last.at).Served? then Done(last.id) else Raised(w.outcome(last.at))
  }

  /** How far a context may get from `c`: it excludes only these channels, and pays for every attempt with a channel or
      a tenth of a second, and for every second slept out of the budget. */
  ghost predicate Paid(ids: set<string>, c: Context, r: Result, c': Context) {
    && c.tried <= c'.tried <= c.tried + ids
    && |c'.attempts| + (if r == Exhausted then Left(ids, c') else 0) <= |c.attempts| + Left(ids, c)
    && c'.slept + Max(0.0, c'.budget) <= c.slept + Max(0.0, c.budget)
  }

  ghost predicate Fair(w: World, ids: set<string>, c: Context, r: Result, c': Context) {
    && Paid(ids, c, r, c')
    && (Clean(c) ==> Clean(c'))
    && (AllFail(w, c.attempts) && ErrorIs(w, c) ==> Decided(w, r, c'))
  }

  lemma StepPaid(w: World, sel: Selector, yielding: bool, c: Context, ids: set<string>)
    requires Ids(sel) <= ids
    ensures var t := Step(w, sel, yielding, c);
            Paid(ids, c, if t.Again? then Exhausted else t.result, t.context)
  {
    StepSpends(w, sel, yielding, c, ids);
    if Select(w, c, sel).Some? { SelectedIsNew(w, c, sel); }
    hide Select, Ids, Tenths;
  }

  lemma StepClean(w: World, sel: Selector, yielding: bool, c: Context)
    requires Clean(c)
    ensures Clean(Step(w, sel, yielding, c).context)
  {
    if Select(w, c, sel).Some? { SelectedIsNew(w, c, sel); }
    hide Select, Ids;
  }

  lemma StepDecided(w: World, sel: Selector, yielding: bool, c: Context)
    requires AllFail(w, c.attempts) && ErrorIs(w, c)
    ensures var t := Step(w, sel, yielding, c);
            Decided(w, if t.Again? then Exhausted else t.result, t.context)
  {
    hide Select, ErrorIs;
    var t := Step(w, sel, yielding, c);
    var after := t.context.attempts;
    if after != c.attempts { assert after[..|after| - 1] == c.attempts; }
    if t.Again? || t.result == Exhausted { StepError(w, sel, yielding, c); }
  }

  lemma StepError(w: World, sel: Selector, yielding: bool, c: Context)
    requires ErrorIs(w, c) && (Step(w, sel, yielding, c).Again? || Step(w, sel, yielding, c).result == Exhausted)
    ensures ErrorIs(w, Step(w, sel, yielding, c).context)
  {
    hide Select;
    var c' := Step(w, sel, yielding, c).context;
    if c'.attempts != c.attempts {
      var n := |c.attempts|;
      assert forall i | 0 <= i < n :: c'.attempts[i] == c.attempts[i];
      if c'.lastError.Some? && c'.lastError.value == w.outcome(c'.attempts[n].at) {
      } else if c.lastError.Some? {
        var i :| 0 <= i < n && c.lastError.value == w.outcome(c.attempts[i].at)
                 && forall j | i < j < n :: Waitable(w.outcome(c.attempts[j].at));
        assert c'.lastError.value == w.outcome(c'.attempts[i].at);
      }
    }
  }

  lemma FairStep(w: World, sel: Selector, yielding: bool, c: Context, ids: set<string>)
    requires Ids(sel) <= ids
    ensures var t := Step(w, sel, yielding, c); Fair(w, ids, c, if t.Again? then Exhausted else t.result, t.context)
  {
    hide Step, Clean, AllFail, Paid, Decided, ErrorIs;
    StepPaid(w, sel, yielding, c, ids);
    if Clean(c) { StepClean(w, sel, yielding, c); }
    if AllFail(w, c.attempts) && ErrorIs(w, c) { StepDecided(w, sel, yielding, c); }
  }

  lemma FairThen(w: World, ids: set<string>, a: Context, b: Context, r: Result, c: Context)
    requires Fair(w, ids, a, Exhausted, b) && Fair(w, ids, b, r, c)
    ensures Fair(w, ids, a, r, c)
  {
  }

  lemma FairNone(w: World, ids: set<string>, c: Context)
    ensures Fair(w, ids, c, Exhausted, c) && Fair(w, ids, c, Exhausted, Tick(c))
  {
  }

  lemma {:induction false} FairLoop(w: World, sel: Selector, yielding: bool, c: Context, ids: set<string>)
    requires Ids(sel) <= ids
    ensures var (r, c') := Loop(w, sel, yielding, c); Fair(w, ids, c, r, c')
    decreases Left(Ids(sel), c)
  {
    hide Step, Fair, Left;
    FairStep(w, sel, yielding, c, ids);
    StepSpends(w, sel, yielding, c, Ids(sel));
    match Step(w, sel, yielding, c)
    case Again(c') =>
      FairLoop(w, sel, yielding, c', ids);
      var (r, end) := Loop(w, sel, yielding, c');
      FairThen(w, ids, c, c', r, end);
    case Halt(_, _) =>
  }

  lemma FairPool(w: World, lazy: bool, pool: seq<Channel>, c: Context, ids: set<string>)
    requires IdsOf(pool) <= ids
    ensures var (r, c') := RunPool(w, lazy, pool, c); Fair(w, ids, c, r, c')
  {
    hide Fair, Loop;
    FairNone(w, ids, c);
    if !lazy {
      FairLoop(w, Pool(pool), false, c, ids);
    } else {
      var preferred := Preferred(w, c, pool);
      var mid := Tick(c);
      if preferred.Some? {
        FairLoop(w, Pinned(preferred.value, true), true, Tick(c), ids);
        var first := Loop(w, Pinned(preferred.value, true), true, Tick(c));
        FairThen(w, ids, c, Tick(c), first.0, first.1);
        mid := first.1;
        if first.0 != Exhausted { return; }
      }
      FairLoop(w, Pool(pool), true, mid, ids);
      var last := Loop(w, Pool(pool), true, mid);
      FairThen(w, ids, c, mid, last.0, last.1);
    }
  }

  lemma FairEntry(w: World, lazy: bool, e: Entry, c: Context, ids: set<string>)
    requires IdsOf(e.channels) <= ids
    ensures var (r, c') := RunEntry(w, lazy, e, c); Fair(w, ids, c, r, c')
  {
    hide Fair, Loop, RunPool;
    FairNone(w, ids, c);
    if !e.blocked {
      if e.bound.Some? {
        var ch := Find(e.channels, e.bound.value, true);
        if ch.Some? { FairLoop(w, Pinned(ch.value, false), false, c, ids); }
      } else {
        FairPool(w, lazy, Convertible(e.channels), c, ids);
      }
    }
  }

  /** The distinct channels of a group. */
  function GroupIds(entries: seq<Entry>): set<string> {
    if entries == [] then {} else IdsOf(entries[0].channels) + GroupIds(entries[1..])
  }

  lemma {:induction false} FairGroup(w: World, lazy: bool, entries: seq<Entry>, c: Context, ids: set<string>)
    requires GroupIds(entries) <= ids
    ensures var (r, c') := RunGroup(w, lazy, entries, c); Fair(w, ids, c, r, c')
  {
    hide Fair, RunEntry;
    if entries == [] {
      FairNone(w, ids, c);
    } else {
      FairEntry(w, lazy, entries[0], c, ids);
      var first := RunEntry(w, lazy, entries[0], c);
      if first.0 == Exhausted {
        FairGroup(w, lazy, entries[1..], first.1, ids);
        var rest := RunGroup(w, lazy, entries[1..], first.1);
        FairThen(w, ids, c, first.1, rest.0, rest.1);
      }
    }
  }

  lemma {:induction false} GroupIdsAre(entries: seq<Entry>)
    ensures GroupIds(entries) == set e, ch | e in entries && ch in e.channels :: ch.id
  {
    if entries != [] {
      GroupIdsAre(entries[1..]);
      assert forall e :: e in entries <==> e == entries[0] || e in entries[1..];
    }
  }

  /** One model-group request, whatever the world answers: at most one attempt for each distinct channel and each
      tenth of a second of the budget, over all items together; it never sleeps longer than the budget; no excluded
      channel is attempted again; and the first attempt that does not fail in a retryable way is the result, or else the
      error that is reported is that of the last failure. */
  lemma GroupIsBounded(w: World, lazy: bool, entries: seq<Entry>, budget: real)
    ensures var (r, c) := RunGroup(w, lazy, entries, FreshContext(budget));
            var ids := set e, ch | e in entries && ch in e.channels :: ch.id;
            && |c.attempts| <= |ids| + (if budget > 0.0 then (10.0 * budget).Floor else 0)
            && c.slept <= (if budget > 0.0 then budget else 0.0) && c.tried <= ids
            && Clean(c) && Decided(w, r, c)
  {
    var ids, c := GroupIds(entries), FreshContext(budget);
    FairGroup(w, lazy, entries, c, ids);
    GroupIdsAre(entries);
    assert ids - {} == ids;
    hide RunGroup, GroupIds, Decided;
  }

  /** A pool is given up only when each of its channels is excluded or refused. */
  lemma {:induction false} ExhaustedPool(w: World, pool: seq<Channel>, yielding: bool, c: Context)
    ensures var (r, c') := Loop(w, Pool(pool), yielding, c);
            && c'.now > 0
            && (r == Exhausted ==>
                  forall ch | ch in pool :: !ch.enabled || ch.id in c'.tried || !w.admits(c'.now - 1, ch.id))
    decreases Left(IdsOf(pool), c)
  {
    hide Left, Step;
    StepSpends(w, Pool(pool), yielding, c, IdsOf(pool));
    AvailableIs(w, c, pool);
    StepTicks(w, Pool(pool), yielding, c);
    match Step(w, Pool(pool), yielding, c)
    case Again(c') => ExhaustedPool(w, pool, yielding, c');
    case Halt(_, _) =>
  }

  lemma StepTicks(w: World, sel: Selector, yielding: bool, c: Context)
    ensures Step(w, sel, yielding, c).context.now == c.now + 1
    ensures Step(w, sel, yielding, c).Halt? && Step(w, sel, yielding, c).result == Exhausted ==>
              Select(w, c, sel).None? && Step(w, sel, yielding, c).context.tried == c.tried
  {
    hide Select;
  }

  // ----- which attempts are made, and when a group may give up -----

  /** The selector may choose the channel that was attempted, and need not yield. */
  ghost predicate Eligible(w: World, sel: Selector, yielding: bool, a: Attempt) {
    && (yielding ==> !w.degraded(a.at, a.id))
    && match sel
       case Pool(chs) => exists ch | ch in chs :: ch.id == a.id && ch.enabled && w.admits(a.at, ch.id)
       case Pinned(ch, admission) => ch.id == a.id && ch.enabled && (admission ==> w.admits(a.at, ch.id))
  }

  /** Time goes on, and what was tried and attempted stays on record. */
  ghost predicate Onward(c: Context, c': Context) {
    c.attempts <= c'.attempts && c.tried <= c'.tried && c.now <= c'.now
  }

  ghost predicate Added(w: World, sel: Selector, yielding: bool, c: Context, c': Context) {
    Onward(c, c') && forall j | |c.attempts| <= j < |c'.attempts| :: Eligible(w, sel, yielding, c'.attempts[j])
  }

  lemma SelectedIsEligible(w: World, c: Context, sel: Selector, yielding: bool)
    requires Select(w, c, sel).Some? && !(yielding && w.degraded(c.now, Select(w, c, sel).value.id))
    ensures Eligible(w, sel, yielding, Attempt(Select(w, c, sel).value.id, c.now, c.tried))
  {
    if sel.Pool? {
      AvailableIs(w, c, sel.channels);
      var ch := Select(w, c, sel).value;
      assert ch in Available(w, c, sel.channels);
      assert ch in sel.channels && Admitted(w, c, ch);
    }
  }

  lemma StepAdded(w: World, sel: Selector, yielding: bool, c: Context)
    ensures Added(w, sel, yielding, c, Step(w, sel, yielding, c).context)
  {
    hide Select, Eligible;
    if Select(w, c, sel).Some? && !(yielding && w.degraded(c.now, Select(w, c, sel).value.id)) {
      SelectedIsEligible(w, c, sel, yielding);
    }
  }

  lemma AddedThen(w: World, sel: Selector, yielding: bool, a: Context, b: Context, c: Context)
    requires Added(w, sel, yielding, a, b) && Added(w, sel, yielding, b, c)
    ensures Added(w, sel, yielding, a, c)
  {
    hide Eligible;
    forall j | |a.attempts| <= j < |c.attempts| ensures Eligible(w, sel, yielding, c.attempts[j]) {
      if j < |b.attempts| { assert c.attempts[j] == b.attempts[j]; }
    }
  }

  lemma {:induction false} LoopAdds(w: World, sel: Selector, yielding: bool, c: Context)
    ensures Added(w, sel, yielding, c, Loop(w, sel, yielding, c).1)
    decreases Left(Ids(sel), c)
  {
    hide Step, Added, Left;
    StepAdded(w, sel, yielding, c);
    StepSpends(w, sel, yielding, c, Ids(sel));
    match Step(w, sel, yielding, c)
    case Again(c') =>
      LoopAdds(w, sel, yielding, c');
      AddedThen(w, sel, yielding, c, c', Loop(w, sel, yielding, c').1);
    case Halt(_, _) =>
  }

  /** A pinned channel is given up only when it is excluded, disabled or refused. */
  lemma {:induction false} ExhaustedPinned(w: World, ch: Channel, admission: bool, yielding: bool, c: Context)
    ensures var (r, c') := Loop(w, Pinned(ch, admission), yielding, c);
            && c'.now > c.now
            && (r == Exhausted ==>
                  ch.id in c'.tried || !ch.enabled || (admission && !w.admits(c'.now - 1, ch.id)))
    decreases Left({ch.id}, c)
  {
    hide Left, Step;
    var sel := Pinned(ch, admission);
    StepSpends(w, sel, yielding, c, {ch.id});
    StepTicks(w, sel, yielding, c);
    match Step(w, sel, yielding, c)
    case Again(c') => ExhaustedPinned(w, ch, admission, yielding, c');
    case Halt(_, _) =>
  }

  /** An attempt that this item may have made: it is not blocked, and its own channel, or a convertible one that was
      admitted then, is there and enabled; a lazy group does not choose a degraded one. */
  ghost predicate MadeFor(w: World, lazy: bool, e: Entry, a: Attempt) {
    && !e.blocked
    && (lazy && e.bound.None? ==> !w.degraded(a.at, a.id))
    && exists ch | ch in e.channels ::
         && ch.id == a.id && ch.enabled
         && if e.bound.Some? then ch.id == e.bound.value else ch.convertible && w.admits(a.at, ch.id)
  }

  /** Every reason why an item may be passed over: it is blocked; its own channel is not there or was excluded; each
      of its convertible channels is disabled, was excluded, or was refused at some time from `since` on. */
  ghost predicate GivenUp(w: World, e: Entry, since: nat, c: Context) {
    || e.blocked
    || match e.bound
       case Some(id) => id in c.tried || forall ch | ch in e.channels && ch.id == id :: !ch.enabled
       case None =>
         forall ch | ch in e.channels && ch.convertible ::
           !ch.enabled || ch.id in c.tried || Refused(w, ch.id, since, c)
  }

  ghost predicate Refused(w: World, id: string, since: nat, c: Context) {
    exists t | since <= t < c.now :: !w.admits(t, id)
  }

  lemma {:induction false} ConvertibleIs(chs: seq<Channel>)
    ensures forall ch :: ch in Convertible(chs) <==> ch in chs && ch.convertible
  {
    if chs != [] { ConvertibleIs(chs[1..]); }
  }

  lemma {:induction false} FindIs(chs: seq<Channel>, id: string, enabledOnly: bool)
    ensures var r := Find(chs, id, enabledOnly);
            && (r.None? ==> forall ch | ch in chs && ch.id == id :: enabledOnly && !ch.enabled)
            && (r.Some? && enabledOnly ==> r.value.enabled)
  {
    if chs != [] { FindIs(chs[1..], id, enabledOnly); }
  }

  ghost predicate EntryAdds(w: World, lazy: bool, e: Entry, c: Context, c': Context) {
    Onward(c, c') && forall j | |c.attempts| <= j < |c'.attempts| :: MadeFor(w, lazy, e, c'.attempts[j])
  }

  lemma PoolAdds(w: World, lazy: bool, e: Entry, c: Context)
    requires !e.blocked && e.bound.None?
    ensures var (r, c') := RunPool(w, lazy, Convertible(e.channels), c);
            EntryAdds(w, lazy, e, c, c') && (r == Exhausted ==> GivenUp(w, e, c.now, c'))
  {
    hide Loop, Preferred, Eligible, MadeFor;
    var pool := Convertible(e.channels);
    ConvertibleIs(e.channels);
    var mid := c;
    if lazy {
      var preferred := Preferred(w, c, pool);
      mid := Tick(c);
      if preferred.Some? {
        PreferredIsPooled(w, c, pool);
        var sel := Pinned(preferred.value, true);
        mid := Loop(w, sel, true, Tick(c)).1;
        LoopAdds(w, sel, true, Tick(c));
        forall a | Eligible(w, sel, true, a) ensures MadeFor(w, lazy, e, a) { EligibleIsFor(w, lazy, e, sel, a); }
        if Loop(w, sel, true, Tick(c)).0 != Exhausted { return; }
      }
    }
    LoopAdds(w, Pool(pool), lazy, mid);
    forall a | Eligible(w, Pool(pool), lazy, a) ensures MadeFor(w, lazy, e, a) {
      EligibleIsFor(w, lazy, e, Pool(pool), a);
    }
    ExhaustedPool(w, pool, lazy, mid);
    LoopTicks(w, Pool(pool), lazy, mid);
    var end := Loop(w, Pool(pool), lazy, mid).1;
    forall j | |c.attempts| <= j < |end.attempts| ensures MadeFor(w, lazy, e, end.attempts[j]) {
      if j < |mid.attempts| { assert end.attempts[j] == mid.attempts[j]; }
    }
  }

  lemma PreferredIsPooled(w: World, c: Context, pool: seq<Channel>)
    ensures Preferred(w, c, pool).Some? ==> Preferred(w, c, pool).value in pool
  {
  }

  lemma EligibleIsFor(w: World, lazy: bool, e: Entry, sel: Selector, a: Attempt)
    requires !e.blocked && Eligible(w, sel, lazy && e.bound.None?, a)
    requires match sel
             case Pool(chs) => e.bound.None? && forall ch | ch in chs :: ch in e.channels && ch.convertible
             case Pinned(ch, admission) =>
               ch in e.channels && if e.bound.Some? then ch.id == e.bound.value else admission && ch.convertible
    ensures MadeFor(w, lazy, e, a)
  {
  }

  lemma {:induction false} LoopTicks(w: World, sel: Selector, yielding: bool, c: Context)
    ensures Loop(w, sel, yielding, c).1.now > c.now
    decreases Left(Ids(sel), c)
  {
    hide Left, Step;
    StepSpends(w, sel, yielding, c, Ids(sel));
    StepTicks(w, sel, yielding, c);
    match Step(w, sel, yielding, c)
    case Again(c') => LoopTicks(w, sel, yielding, c');
    case Halt(_, _) =>
  }

  lemma EntryExplained(w: World, lazy: bool, e: Entry, c: Context)
    ensures var (r, c') := RunEntry(w, lazy, e, c);
            && EntryAdds(w, lazy, e, c, c') && (r == Exhausted ==> GivenUp(w, e, c.now, c'))
            && (e.blocked ==> r == Exhausted)
  {
    hide Loop, RunPool, MadeFor, Eligible;
    if !e.blocked {
      if e.bound.Some? {
        FindIs(e.channels, e.bound.value, true);
        var ch := Find(e.channels, e.bound.value, true);
        if ch.Some? {
          var sel := Pinned(ch.value, false);
          LoopAdds(w, sel, false, c);
          forall a | Eligible(w, sel, false, a) ensures MadeFor(w, lazy, e, a) { EligibleIsFor(w, lazy, e, sel, a); }
          ExhaustedPinned(w, ch.value, false, false, c);
        }
      } else {
        ConvertibleIs(e.channels);
        if Convertible(e.channels) != [] { PoolAdds(w, lazy, e, c); }
      }
    }
  }

  /** The attempts of a run in order: those between `cuts[i]` and `cuts[i + 1]` were made for item `i`. All items were
      passed over for a reason if the run ends exhausted, and all but the last one it came to if it does not. */
  ghost predicate Explained(w: World, lazy: bool, entries: seq<Entry>, c: Context, r: Result, c': Context,
                            cuts: seq<nat>)
  {
    && (if r == Exhausted then |cuts| == |entries| + 1 else 2 <= |cuts| <= |entries| + 1)
    && cuts[0] == |c.attempts| && cuts[|cuts| - 1] == |c'.attempts|
    && (forall i | 0 <= i < |cuts| - 1 :: cuts[i] <= cuts[i + 1])
    && (forall i, j | 0 <= i < |cuts| - 1 && cuts[i] <= j < cuts[i + 1] && j < |c'.attempts| ::
          MadeFor(w, lazy, entries[i], c'.attempts[j]))
    && (forall i | 0 <= i < |cuts| - 1 && (r == Exhausted || i < |cuts| - 2) :: GivenUp(w, entries[i], c.now, c'))
  }

  lemma GivenUpStays(w: World, e: Entry, since: nat, c: Context, since': nat, c': Context)
    requires GivenUp(w, e, since, c) && since' <= since && Onward(c, c')
    ensures GivenUp(w, e, since', c')
  {
    forall id | Refused(w, id, since, c) ensures Refused(w, id, since', c') {
      var t :| since <= t < c.now && !w.admits(t, id);
    }
  }

  lemma ExplainedFirst(w: World, lazy: bool, e: Entry, c: Context, r: Result, c': Context)
    requires r != Exhausted && EntryAdds(w, lazy, e, c, c')
    ensures forall entries | entries != [] && entries[0] == e ::
              Explained(w, lazy, entries, c, r, c', [|c.attempts|, |c'.attempts|])
  {
    hide MadeFor;
  }

  lemma ExplainedNext(w: World, lazy: bool, entries: seq<Entry>, c: Context, mid: Context, r: Result, c': Context,
                      cuts: seq<nat>)
    requires entries != [] && EntryAdds(w, lazy, entries[0], c, mid) && GivenUp(w, entries[0], c.now, mid)
    requires Explained(w, lazy, entries[1..], mid, r, c', cuts) && Onward(mid, c')
    ensures Explained(w, lazy, entries, c, r, c', [|c.attempts|] + cuts)
  {
    hide MadeFor, GivenUp;
    var all := [|c.attempts|] + cuts;
    GivenUpStays(w, entries[0], c.now, mid, c.now, c');
    forall i | 0 <= i < |all| - 1 && (r == Exhausted || i < |all| - 2) ensures GivenUp(w, entries[i], c.now, c') {
      if i > 0 {
        assert GivenUp(w, entries[1..][i - 1], mid.now, c');
        GivenUpStays(w, entries[i], mid.now, c', c.now, c');
      }
    }
    forall i, j | 0 <= i < |all| - 1 && all[i] <= j < all[i + 1] && j < |c'.attempts|
      ensures MadeFor(w, lazy, entries[i], c'.attempts[j])
    {
      if i == 0 {
        assert c'.attempts[j] == mid.attempts[j];
      } else {
        assert MadeFor(w, lazy, entries[1..][i - 1], c'.attempts[j]);
      }
    }
    forall i | 0 <= i < |all| - 1 ensures all[i] <= all[i + 1] {
      if i > 0 { assert cuts[i - 1] <= cuts[i]; }
    }
  }

  lemma {:induction false} RunExplained(w: World, lazy: bool, entries: seq<Entry>, c: Context) returns (cuts: seq<nat>)
    ensures var (r, c') := RunGroup(w, lazy, entries, c);
            Explained(w, lazy, entries, c, r, c', cuts) && Onward(c, c')
  {
    hide RunEntry, MadeFor, GivenUp, Explained;
    if entries == [] {
      cuts := [|c.attempts|];
      NothingToExplain(w, lazy, c);
    } else {
      var (r, mid) := RunEntry(w, lazy, entries[0], c);
      EntryExplained(w, lazy, entries[0], c);
      if r == Exhausted {
        var rest := RunExplained(w, lazy, entries[1..], mid);
        var (r', c') := RunGroup(w, lazy, entries[1..], mid);
        ExplainedNext(w, lazy, entries, c, mid, r', c', rest);
        cuts := [|c.attempts|] + rest;
      } else {
        ExplainedFirst(w, lazy, entries[0], c, r, mid);
        cuts := [|c.attempts|, |mid.attempts|];
      }
    }
  }

  lemma NothingToExplain(w: World, lazy: bool, c: Context)
    ensures Explained(w, lazy, [], c, Exhausted, c, [|c.attempts|])
  {
  }

  /** One model-group request: its attempts fall into those of its items, in their order and none for a blocked one,
      each on an enabled channel of the item; and it passes over no item without a reason, nor ends exhausted before it
      has come to all of them. */
  lemma GroupIsExplained(w: World, lazy: bool, entries: seq<Entry>, budget: real) returns (cuts: seq<nat>)
    ensures var (r, c) := RunGroup(w, lazy, entries, FreshContext(budget));
            Explained(w, lazy, entries, FreshContext(budget), r, c, cuts)
  {
    cuts := RunExplained(w, lazy, entries, FreshContext(budget));
  }

  lemma FirstIsKept(w: World, sel: Selector, yielding: bool, c: Context)
    ensures Onward(Step(w, sel, yielding, c).context, Loop(w, sel, yielding, c).1)
  {
    hide Step;
    StepSpends(w, sel, yielding, c, Ids(sel));
    match Step(w, sel, yielding, c)
    case Again(c') => LoopAdds(w, sel, yielding, c');
    case Halt(_, _) =>
  }

  /** A lazy group first attempts its preferred channel, if that is one of the item, can be converted, was not excluded,
      and is enabled, admitted and not degraded. */
  lemma PreferredComesFirst(w: World, e: Entry, c: Context, id: string)
    requires !e.blocked && e.bound.None? && w.preferred(c.now) == Some(id) && id != "" && id !in c.tried
    requires exists ch :: ch in e.channels && ch.id == id && ch.convertible
    requires forall ch | ch in e.channels && ch.id == id && ch.convertible :: ch.enabled
    requires w.admits(c.now + 1, id) && !w.degraded(c.now + 1, id)
    ensures var c' := RunEntry(w, true, e, c).1;
            |c.attempts| < |c'.attempts| && c'.attempts[|c.attempts|].id == id
  {
    hide Loop;
    var pool := Convertible(e.channels);
    ConvertibleIs(e.channels);
    FindIs(pool, id, false);
    var ch := Find(pool, id, false).value;
    var sel, start := Pinned(ch, true), Tick(c);
    var one, mid := Step(w, sel, true, start).context, Loop(w, sel, true, start).1;
    assert one.attempts == c.attempts + [Attempt(id, start.now, c.tried)] by { hide HandleRateLimit; }
    FirstIsKept(w, sel, true, start);
    LoopAdds(w, Pool(pool), true, mid);
    assert Preferred(w, c, pool) == Some(ch);
    hide Step, Convertible, Find;
  }

  /** A 429 keeps its channel exactly if nothing was waited for it in the queue and the budget covers the delay: one
      second if the answer names none, and never less than a tenth of one. The delay is slept out of the budget. A
      channel that is not kept is excluded, and its error goes on record. */
  lemma LimitWaits(c: Context, id: string, o: Outcome)
    requires o.Limited? && id !in c.tried
    ensures var c' := HandleRateLimit(c, id, o);
            var delay := match o.retryAfter case None => 1.0 case Some(s) => if s >= 0.1 then s else 0.1;
            var queued := o.waited > 0.0 || o.queueTimeout;
            && (id !in c'.tried <==> !queued && c.budget >= delay)
            && c'.slept == c.slept + (if id !in c'.tried then delay else 0.0)
            && c'.budget == (if id !in c'.tried then c.budget - delay
                             else if !queued then c.budget
                             else if c.budget >= o.waited then c.budget - o.waited else 0.0)
            && c'.tried <= c.tried + {id}
            && c'.lastError == (if id !in c'.tried then c.lastError else Some(o))
  {
  }

  // ----- the shared context object -----

  class DispatchContext {
    var tried: set<string>
    var waitBudget: real
    var lastError: Option<Outcome>
    // the record of the run: the time, the seconds slept, the attempts made
    var now: nat
    var slept: real
    var attempts: seq<Attempt>

    function View(): Context
      reads this
    {
      Context(tried, waitBudget, lastError, now, slept, attempts)
    }

    constructor (budget: real)
      ensures View() == FreshContext(budget)
    {
      tried, waitBudget, lastError, now, slept, attempts := {}, budget, None, 0, 0.0, [];
    }

    /** Whether the channel was given up. */
    method WaitOrExclude(channel: string, error: Outcome) returns (didFailover: bool)
      requires error.Limited?
      modifies this`tried, this`waitBudget, this`slept
      ensures View().(lastError := if didFailover then Some(error) else lastError) ==
              HandleRateLimit(old(View()), channel, error)
    {
      if error.waited > 0.0 || error.queueTimeout {
        waitBudget := Max(0.0, waitBudget - error.waited);
        tried := tried + {channel};
        return true;
      }
      var delay := if error.retryAfter.None? then 1.0 else Max(error.retryAfter.value, 0.1);
      if waitBudget >= delay {
        waitBudget, slept := waitBudget - delay, slept + delay;
        return false;
      }
      tried := tried + {channel};
      return true;
    }

    method DispatchLoop(w: World, sel: Selector, yielding: bool) returns (result: Result)
      modifies this
      ensures (result, View()) == Loop(w, sel, yielding, old(View()))
    {
      hide Left, Select;
      while true
        invariant Loop(w, sel, yielding, View()) == Loop(w, sel, yielding, old(View()))
        decreases Left(Ids(sel), View())
      {
        StepSpends(w, sel, yielding, View(), Ids(sel));
        var selected := Select(w, View(), sel);
        var time := now;
        now := now + 1;
        if selected.None? {
          return Exhausted;
        }
        var id := selected.value.id;
        if yielding && w.degraded(time, id) {
          tried := tried + {id};
          continue;
        }
        attempts := attempts + [Attempt(id, time, tried)];
        match w.outcome(time) {
          case Served =>
            return Done(id);
          case Spent =>
            lastError := Some(Spent);
            tried := tried + {id};
          case Limited(_, _, _) =>
            var didFailover := WaitOrExclude(id, w.outcome(time));
            if didFailover {
              lastError := Some(w.outcome(time));
            }
          case error =>
            return Raised(error);
        }
      }
    }

    method ServePool(w: World, lazy: bool, pool: seq<Channel>) returns (result: Result)
      modifies this
      ensures (result, View()) == RunPool(w, lazy, pool, old(View()))
    {
      hide Loop;
      if lazy {
        var preferred := Preferred(w, View(), pool);
        now := now + 1;
        if preferred.Some? {
          result := DispatchLoop(w, Pinned(preferred.value, true), true);
          if result != Exhausted {
            return;
          }
        }
      }
      result := DispatchLoop(w, Pool(pool), lazy);
    }

    method ServeEntry(w: World, lazy: bool, entry: Entry) returns (result: Result)
      modifies this
      ensures (result, View()) == RunEntry(w, lazy, entry, old(View()))
    {
      hide Loop, RunPool;
      if entry.blocked {
        return Exhausted;
      }
      if entry.bound.Some? {
        var bound := Find(entry.channels, entry.bound.value, true);
        if bound.None? {
          return Exhausted;
        }
        result := DispatchLoop(w, Pinned(bound.value, false), false);
        return;
      }
      var pool := Convertible(entry.channels);
      if pool == [] {
        return Exhausted;
      }
      result := ServePool(w, lazy, pool);
    }

    method ExecuteModelGroup(w: World, lazy: bool, entries: seq<Entry>) returns (result: Result)
      modifies this
      ensures (result, View()) == RunGroup(w, lazy, entries, old(View()))
    {
      hide RunEntry;
      var i := 0;
      while i < |entries|
        invariant i <= |entries|
        invariant RunGroup(w, lazy, entries[i..], View()) == RunGroup(w, lazy, entries, old(View()))
      {
        assert entries[i..][0] == entries[i] && entries[i..][1..] == entries[i + 1..];
        result := ServeEntry(w, lazy, entries[i]);
        if result != Exhausted {
          return;
        }
        i := i + 1;
      }
      result := Exhausted;
    }
  }
}
