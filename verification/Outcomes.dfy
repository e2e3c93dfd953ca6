/**
 The outcome views (proxy/outcomes.py): health and blocking state that is updated in place, and what it
 says in terms of the log of everything that happened.
 */
module Outcomes {
  import opened Wrappers

  /** A model on a channel. */
  datatype Key = Key(model: string, channel: string)

  /** `_HealthEntry` without the round-robin weight. */
  datatype Health = Health(failCount: nat, lastFailTime: real, degraded: bool, firstFailedAt: real,
                           consecutiveFailures: nat, permanent: bool)

  const UNKNOWN: Health := Health(0, 0.0, false, 0.0, 0, false)

  datatype Block = Block(resetAt: real, code: string)

  datatype State = State(health: map<Key, Health>, blocked: map<string, Block>, preferred: map<Key, string>)

  const INIT: State := State(map[], map[], map[])

  /** Everything that touches the views, questions included. `config` marks a 401, 403 or 404. A preference is
      keyed by group and model. */
  datatype Event =
    | Succeeded(key: Key)
    | FailedAt(key: Key, t: real, config: bool)
    | QuotaWindow(channel: string, block: Block)
    | Cancelled(key: Key)
    | AskHealthy(key: Key, now: real, maxFailCount: int, cooldown: real)
    | AskBlocked(channel: string, now: real)
    | ClearChannel(channel: string)
    | ClearAll
    | RemoveChannel(channel: string)
    | Prefer(group: Key, channel: string)

  // ----- the views as they are kept -----

  function At(s: State, k: Key): Health {
    if k in s.health then s.health[k] else UNKNOWN
  }

  function AfterFailure(h: Health, t: real, config: bool): Health {
    Health(h.failCount + 1, t, true, if h.consecutiveFailures == 0 then t else h.firstFailedAt,
           h.consecutiveFailures + 1, h.permanent || config)
  }

  predicate Healthy(s: State, k: Key, now: real, maxFailCount: int, cooldown: real) {
    k !in s.health || s.health[k].failCount < maxFailCount || now - s.health[k].lastFailTime > cooldown
  }

  predicate Blocked(s: State, channel: string, now: real) {
    channel in s.blocked && s.blocked[channel].resetAt > now
  }

  /** The pair forgets its failures when the cooldown has run out, but not that it is degraded. */
  function AfterAsking(s: State, k: Key, now: real, maxFailCount: int, cooldown: real): State {
    if k !in s.health || s.health[k].failCount < maxFailCount || now - s.health[k].lastFailTime <= cooldown then s
    else s.(health := s.health[k := s.health[k].(failCount := 0, lastFailTime := 0.0)])
  }

  function Apply(s: State, e: Event): State {
    match e
    case Succeeded(k) =>
      s.(health := s.health[k := At(s, k).(failCount := 0, degraded := false, consecutiveFailures := 0,
                                           firstFailedAt := 0.0, permanent := false)])
    case FailedAt(k, t, config) => s.(health := s.health[k := AfterFailure(At(s, k), t, config)])
    case QuotaWindow(c, b) => s.(blocked := s.blocked[c := b])
    case Cancelled(_) => s
    case AskHealthy(k, now, m, cooldown) => AfterAsking(s, k, now, m, cooldown)
    case AskBlocked(c, now) =>
      if c in s.blocked && s.blocked[c].resetAt <= now then s.(blocked := s.blocked - {c}) else s
    case ClearChannel(c) =>
      s.(health := map k | k in s.health :: if k.channel == c then s.health[k].(permanent := false) else s.health[k])
    case ClearAll => s.(health := map k | k in s.health :: s.health[k].(permanent := false))
    case RemoveChannel(c) =>
      State(map k | k in s.health && k.channel != c :: s.health[k], s.blocked - {c},
            map g | g in s.preferred && s.preferred[g] != c :: s.preferred[g])
    case Prefer(g, c) => s.(preferred := s.preferred[g := c])
  }

  function Views(log: seq<Event>): State {
    if log == [] then INIT else Apply(Views(log[..|log| - 1]), log[|log| - 1])
  }

  // ----- what the log says -----

  predicate IsFailure(e: Event, k: Key) {
    e.FailedAt? && e.key == k
  }

  /** The pair starts afresh: a real success, or the channel is removed. */
  predicate Heals(e: Event, k: Key) {
    (e.Succeeded? && e.key == k) || (e.RemoveChannel? && e.channel == k.channel)
  }

  /** A configuration failure is forgiven: the pair starts afresh, or the channel was changed. */
  predicate Forgives(e: Event, k: Key) {
    Heals(e, k) || (e.ClearChannel? && e.channel == k.channel) || e.ClearAll?
  }

  /** The failures of the pair since it last started afresh, oldest first. */
  function Failures(log: seq<Event>, k: Key): seq<real> {
    if log == [] then []
    else
      var before, e := Failures(log[..|log| - 1], k), log[|log| - 1];
      if Heals(e, k) then [] else if IsFailure(e, k) then before + [e.t] else before
  }

  /** Some failure was not followed by a fresh start. */
  ghost predicate Unhealed(log: seq<Event>, k: Key) {
    exists i :: 0 <= i < |log| && IsFailure(log[i], k) && forall j | i < j < |log| :: !Heals(log[j], k)
  }

  /** Some configuration failure was not forgiven. */
  ghost predicate Unforgiven(log: seq<Event>, k: Key) {
    exists i :: 0 <= i < |log| && IsFailure(log[i], k) && log[i].config
                && forall j | i < j < |log| :: !Forgives(log[j], k)
  }

  lemma UnhealedNext(log: seq<Event>, e: Event, k: Key)
    ensures Unhealed(log + [e], k) <==> IsFailure(e, k) || (Unhealed(log, k) && !Heals(e, k))
  {
    var after := log + [e];
    hide Heals, IsFailure;
    if IsFailure(e, k) { assert IsFailure(after[|log|], k); }
    if Unhealed(log, k) && !Heals(e, k) {
      var i :| 0 <= i < |log| && IsFailure(log[i], k) && forall j | i < j < |log| :: !Heals(log[j], k);
      assert IsFailure(after[i], k);
    }
    if Unhealed(after, k) && !IsFailure(e, k) {
      var i :| 0 <= i < |after| && IsFailure(after[i], k) && forall j | i < j < |after| :: !Heals(after[j], k);
      assert IsFailure(log[i], k) && !Heals(after[|log|], k);
      assert forall j | i < j < |log| :: log[j] == after[j];
    }
  }

  lemma UnforgivenNext(log: seq<Event>, e: Event, k: Key)
    ensures Unforgiven(log + [e], k) <==> (IsFailure(e, k) && e.config) || (Unforgiven(log, k) && !Forgives(e, k))
  {
    var after := log + [e];
    hide Forgives;
    if IsFailure(e, k) && e.config { assert IsFailure(after[|log|], k) && after[|log|].config; }
    if Unforgiven(log, k) && !Forgives(e, k) {
      var i :| 0 <= i < |log| && IsFailure(log[i], k) && log[i].config
               && forall j | i < j < |log| :: !Forgives(log[j], k);
      assert IsFailure(after[i], k) && after[i].config;
    }
    if Unforgiven(after, k) && !(IsFailure(e, k) && e.config) {
      var i :| 0 <= i < |after| && IsFailure(after[i], k) && after[i].config
               && forall j | i < j < |after| :: !Forgives(after[j], k);
      assert IsFailure(log[i], k) && log[i].config && !Forgives(after[|log|], k);
      assert forall j | i < j < |log| :: log[j] == after[j];
    }
  }

  /** The kept entry of a pair agrees with the log. */
  ghost predicate Agrees(log: seq<Event>, k: Key) {
    var h, fs := At(Views(log), k), Failures(log, k);
    && (h.degraded <==> Unhealed(log, k)) && (h.degraded <==> fs != [])
    && h.consecutiveFailures == |fs| && h.firstFailedAt == (if fs == [] then 0.0 else fs[0])
    && (h.permanent <==> Unforgiven(log, k))
    && (h.permanent ==> h.degraded)
    && h.failCount <= h.consecutiveFailures
    && (h.failCount > 0 ==> h.lastFailTime == fs[|fs| - 1])
  }

  lemma AskingKeeps(s: State, e: Event, k: Key)
    requires e.AskHealthy? || e.Cancelled? || e.QuotaWindow? || e.AskBlocked? || e.Prefer?
    ensures var h, h' := At(s, k), At(Apply(s, e), k);
            h' == h || h' == h.(failCount := 0, lastFailTime := 0.0)
  {
  }

  /** What an event does to the entry of a pair. */
  function HealthAfter(h: Health, e: Event, k: Key): Health {
    if Heals(e, k) then (if e.Succeeded? then h.(failCount := 0, degraded := false, consecutiveFailures := 0,
                                                 firstFailedAt := 0.0, permanent := false) else UNKNOWN)
    else if IsFailure(e, k) then AfterFailure(h, e.t, e.config)
    else if Forgives(e, k) then h.(permanent := false)
    else h
  }

  lemma ApplyAt(s: State, e: Event, k: Key)
    requires !e.AskHealthy?
    ensures At(Apply(s, e), k) == HealthAfter(At(s, k), e, k)
  {
  }

  lemma ViewsStep(log: seq<Event>, e: Event)
    ensures Views(log + [e]) == Apply(Views(log), e)
  {
    assert (log + [e])[..|log|] == log;
    hide Apply;
  }

  lemma FailuresNext(log: seq<Event>, e: Event, k: Key)
    ensures Failures(log + [e], k) ==
            if Heals(e, k) then [] else if IsFailure(e, k) then Failures(log, k) + [e.t] else Failures(log, k)
  {
    assert (log + [e])[..|log|] == log;
    hide Heals, IsFailure;
  }

  lemma AgreesNext(log: seq<Event>, e: Event, k: Key)
    requires Agrees(log, k)
    ensures Agrees(log + [e], k)
  {
    hide Apply, Views, Unhealed, Unforgiven, Failures, At;
    ViewsStep(log, e);
    FailuresNext(log, e, k);
    UnhealedNext(log, e, k);
    UnforgivenNext(log, e, k);
    if e.AskHealthy? { AskingKeeps(Views(log), e, k); } else { ApplyAt(Views(log), e, k); }
  }

  /** On every run, for every pair: degraded exactly when a failure was not followed by a success (or removal);
      the counters are the number and the first time of the failures since then; permanent exactly when a
      configuration failure was neither followed by those nor forgiven; permanent pairs are degraded. */
  lemma {:induction false} ViewsAgree(log: seq<Event>, k: Key)
    ensures Agrees(log, k)
  {
    if log != [] {
      var n := |log| - 1;
      ViewsAgree(log[..n], k);
      AgreesNext(log[..n], log[n], k);
      assert log[..n] + [log[n]] == log;
    }
  }

  /** The failures of the pair that still count against it, oldest first: those since its last success or removal, or
      since it was last asked about when there were enough of them and the latest was past its cooldown. */
  function Streak(log: seq<Event>, k: Key): seq<real> {
    if log == [] then []
    else
      var before, e := Streak(log[..|log| - 1], k), log[|log| - 1];
      if Heals(e, k) || ForgottenBy(before, e, k) then [] else if IsFailure(e, k) then before + [e.t] else before
  }

  predicate ForgottenBy(streak: seq<real>, e: Event, k: Key) {
    && e.AskHealthy? && e.key == k && streak != [] && |streak| >= e.maxFailCount
    && e.now - streak[|streak| - 1] > e.cooldown
  }

  ghost predicate Counts(h: Health, streak: seq<real>) {
    h.failCount == |streak| && (streak != [] ==> h.lastFailTime == streak[|streak| - 1])
  }

  lemma {:induction false} StreakKept(log: seq<Event>, k: Key)
    ensures Counts(At(Views(log), k), Streak(log, k))
  {
    if log != [] {
      var n := |log| - 1;
      StreakKept(log[..n], k);
      StreakNext(Views(log[..n]), Streak(log[..n], k), log[n], k);
      hide Apply, Heals, ForgottenBy, IsFailure, At, Counts;
    }
  }

  lemma StreakNext(s: State, streak: seq<real>, e: Event, k: Key)
    requires Counts(At(s, k), streak)
    ensures var after := if Heals(e, k) || ForgottenBy(streak, e, k) then []
                         else if IsFailure(e, k) then streak + [e.t] else streak;
            Counts(At(Apply(s, e), k), after)
  {
    if !e.AskHealthy? {
      ApplyAt(s, e, k);
      hide Apply;
    }
  }

  /** A pair is called unhealthy exactly while there are that many failures that count against it, the latest within
      its cooldown. */
  lemma RefusedIff(log: seq<Event>, k: Key, now: real, maxFailCount: int, cooldown: real)
    requires maxFailCount > 0
    ensures var streak := Streak(log, k);
            !Healthy(Views(log), k, now, maxFailCount, cooldown) <==>
            |streak| >= maxFailCount && now - streak[|streak| - 1] <= cooldown
  {
    StreakKept(log, k);
    hide Views, Streak;
  }

  /** Every failure that counts against a pair is one since its last success or removal. */
  lemma {:induction false} StreakIsRecent(log: seq<Event>, k: Key)
    ensures var streak, fs := Streak(log, k), Failures(log, k);
            |streak| <= |fs| && streak == fs[|fs| - |streak|..]
  {
    if log != [] {
      StreakIsRecent(log[..|log| - 1], k);
      hide Heals, IsFailure, ForgottenBy;
    }
  }

  /** Asking touches nothing but the count, and no answer about that pair from then on, under the same limits. */
  lemma AskingChangesNoAnswer(log: seq<Event>, k: Key, now: real, maxFailCount: int, cooldown: real, later: real)
    requires maxFailCount > 0 && now <= later
    ensures var asked := log + [AskHealthy(k, now, maxFailCount, cooldown)];
            && Healthy(Views(asked), k, later, maxFailCount, cooldown) ==
               Healthy(Views(log), k, later, maxFailCount, cooldown)
            && forall q :: At(Views(asked), q).(failCount := 0, lastFailTime := 0.0) ==
                           At(Views(log), q).(failCount := 0, lastFailTime := 0.0)
  {
    ViewsStep(log, AskHealthy(k, now, maxFailCount, cooldown));
    hide Views;
  }

  /** But it matters to what comes after: with a question past the cooldown, the next failure is the first again. */
  lemma AskingForgets(k: Key)
    ensures var failed, again := [FailedAt(k, 0.0, false), FailedAt(k, 1.0, false)], FailedAt(k, 200.0, false);
            var asked := failed + [AskHealthy(k, 200.0, 2, 120.0)];
            && !Healthy(Views(failed + [again]), k, 200.0, 2, 120.0)
            && Healthy(Views(asked + [again]), k, 200.0, 2, 120.0)
  {
    hide Views, Streak, Healthy;
    var one, two := [FailedAt(k, 0.0, false)], [FailedAt(k, 0.0, false), FailedAt(k, 1.0, false)];
    assert two == one + [two[1]] && one == [] + [one[0]];
    NoStreak(k);
    StreakThen([], one[0], k);
    StreakThen(one, two[1], k);
    StreakThen(two, FailedAt(k, 200.0, false), k);
    StreakThen(two, AskHealthy(k, 200.0, 2, 120.0), k);
    StreakThen(two + [AskHealthy(k, 200.0, 2, 120.0)], FailedAt(k, 200.0, false), k);
    RefusedIff(two + [FailedAt(k, 200.0, false)], k, 200.0, 2, 120.0);
    RefusedIff(two + [AskHealthy(k, 200.0, 2, 120.0)] + [FailedAt(k, 200.0, false)], k, 200.0, 2, 120.0);
  }

  lemma NoStreak(k: Key)
    ensures Streak([], k) == []
  {
  }

  lemma StreakThen(log: seq<Event>, e: Event, k: Key)
    ensures var before := Streak(log, k);
            Streak(log + [e], k) == if Heals(e, k) || ForgottenBy(before, e, k) then []
                                    else if IsFailure(e, k) then before + [e.t] else before
  {
    assert (log + [e])[..|log|] == log;
  }

  // ----- probing -----

  predicate Probed(s: State, k: Key) {
    k in s.health && s.health[k].degraded && !s.health[k].permanent && k.model != "" && k.model != k.channel
  }

  /** Exactly the pairs with an unhealed failure and no unforgiven configuration failure are probed, virtual keys
      aside; each with the start and the length of its failures. */
  lemma ProbedIff(log: seq<Event>, k: Key)
    ensures Probed(Views(log), k) <==>
            Unhealed(log, k) && !Unforgiven(log, k) && k.model != "" && k.model != k.channel
    ensures Probed(Views(log), k) ==>
              var h, fs := Views(log).health[k], Failures(log, k);
              fs != [] && h.firstFailedAt == fs[0] && h.consecutiveFailures == |fs|
  {
    ViewsAgree(log, k);
    hide Views, Unhealed, Unforgiven, Failures;
  }

  // ----- blocking -----

  /** The latest window limit of a channel since it was removed. */
  function LastBlock(log: seq<Event>, c: string): Option<Block> {
    if log == [] then None
    else
      var e := log[|log| - 1];
      if e.QuotaWindow? && e.channel == c then Some(e.block)
      else if e.RemoveChannel? && e.channel == c then None
      else LastBlock(log[..|log| - 1], c)
  }

  /** No question was asked after this time. */
  ghost predicate AskedBy(log: seq<Event>, now: real) {
    forall i | 0 <= i < |log| && log[i].AskBlocked? :: log[i].now <= now
  }

  function BlockAt(s: State, c: string): Option<Block> {
    if c in s.blocked then Some(s.blocked[c]) else None
  }

  lemma BlockStep(s: State, e: Event, c: string)
    ensures BlockAt(Apply(s, e), c) ==
            if e.QuotaWindow? && e.channel == c then Some(e.block)
            else if e.RemoveChannel? && e.channel == c then None
            else if e.AskBlocked? && e.channel == c && c in s.blocked && s.blocked[c].resetAt <= e.now then None
            else BlockAt(s, c)
  {
    hide AfterFailure, At;
  }

  lemma {:induction false} BlockKept(log: seq<Event>, c: string, now: real)
    requires AskedBy(log, now)
    ensures var b, last := BlockAt(Views(log), c), LastBlock(log, c);
            b == last || (b.None? && last.value.resetAt <= now)
  {
    if log != [] {
      var n := |log| - 1;
      assert forall i | 0 <= i < n :: log[..n][i] == log[i];
      BlockKept(log[..n], c, now);
      BlockStep(Views(log[..n]), log[n], c);
      hide Apply;
    }
  }

  /** With a clock that does not run backwards, a channel is blocked exactly while its latest window limit has not
      been reset, whenever expired limits were dropped. */
  lemma BlockedIff(log: seq<Event>, c: string, now: real)
    requires AskedBy(log, now)
    ensures Blocked(Views(log), c, now) <==> LastBlock(log, c).Some? && LastBlock(log, c).value.resetAt > now
  {
    BlockKept(log, c, now);
  }

  // ----- preferences -----

  /** The channel last preferred for a group, unless it was removed since. */
  function LastPreferred(log: seq<Event>, g: Key): Option<string> {
    if log == [] then None
    else
      var before, e := LastPreferred(log[..|log| - 1], g), log[|log| - 1];
      if e.Prefer? && e.group == g then Some(e.channel)
      else if e.RemoveChannel? && before == Some(e.channel) then None
      else before
  }

  /** The sticky channel of a group is the one last preferred; it goes with its channel and with no other. */
  lemma {:induction false} PreferredIs(log: seq<Event>, g: Key)
    ensures var s := Views(log);
            LastPreferred(log, g) == PreferredAt(s, g)
  {
    if log != [] {
      PreferredIs(log[..|log| - 1], g);
      PreferredStep(Views(log[..|log| - 1]), log[|log| - 1], g);
      hide Apply;
    }
  }

  function PreferredAt(s: State, g: Key): Option<string> {
    if g in s.preferred then Some(s.preferred[g]) else None
  }

  lemma PreferredStep(s: State, e: Event, g: Key)
    ensures PreferredAt(Apply(s, e), g) ==
            if e.Prefer? && e.group == g then Some(e.channel)
            else if e.RemoveChannel? && PreferredAt(s, g) == Some(e.channel) then None
            else PreferredAt(s, g)
  {
    hide AfterFailure, At;
  }

  // ----- the module state as an object -----

  class Store {
    var health: map<Key, Health>
    var blocked: map<string, Block>
    var preferred: map<Key, string>
    ghost var log: seq<Event>

    ghost predicate Valid()
      reads this
    {
      State(health, blocked, preferred) == Views(log)
    }

    constructor ()
      ensures Valid() && log == []
    {
      health, blocked, preferred, log := map[], map[], map[], [];
    }

    method RecordSuccess(key: Key)
      requires Valid()
      modifies this
      ensures Valid() && log == old(log) + [Succeeded(key)]
    {
      hide Views;
      ViewsStep(log, Succeeded(key));
      var entry := if key in health then health[key] else UNKNOWN;
      health := health[key := entry.(failCount := 0, degraded := false, consecutiveFailures := 0,
                                     firstFailedAt := 0.0, permanent := false)];
      log := log + [Succeeded(key)];
    }

    method RecordFailure(key: Key, t: real, config: bool)
      requires Valid()
      modifies this
      ensures Valid() && log == old(log) + [FailedAt(key, t, config)]
    {
      hide Views;
      ViewsStep(log, FailedAt(key, t, config));
      var entry := if key in health then health[key] else UNKNOWN;
      var first := if entry.consecutiveFailures == 0 then t else entry.firstFailedAt;
      entry := Health(entry.failCount + 1, t, true, first, entry.consecutiveFailures + 1, entry.permanent);
      if config && !entry.permanent {
        entry := entry.(permanent := true);
      }
      health := health[key := entry];
      log := log + [FailedAt(key, t, config)];
    }

    method RecordQuotaWindow(channel: string, resetAt: real, code: string)
      requires Valid()
      modifies this
      ensures Valid() && log == old(log) + [QuotaWindow(channel, Block(resetAt, code))]
    {
      hide Views;
      ViewsStep(log, QuotaWindow(channel, Block(resetAt, code)));
      blocked := blocked[channel := Block(resetAt, code)];
      log := log + [QuotaWindow(channel, Block(resetAt, code))];
    }

    method IsHealthy(key: Key, now: real, maxFailCount: int, cooldown: real) returns (healthy: bool)
      requires Valid()
      modifies this
      ensures Valid() && log == old(log) + [AskHealthy(key, now, maxFailCount, cooldown)]
      ensures healthy <==> Healthy(Views(old(log)), key, now, maxFailCount, cooldown)
    {
      hide Views;
      ViewsStep(log, AskHealthy(key, now, maxFailCount, cooldown));
      log := log + [AskHealthy(key, now, maxFailCount, cooldown)];
      if key !in health || health[key].failCount < maxFailCount {
        return true;
      }
      if now - health[key].lastFailTime <= cooldown {
        return false;
      }
      health := health[key := health[key].(failCount := 0, lastFailTime := 0.0)];
      healthy := true;
    }

    method IsDegraded(key: Key) returns (degraded: bool)
      requires Valid()
      ensures degraded <==> Unhealed(log, key)
    {
      ViewsAgree(log, key);
      hide Views, Unhealed;
      degraded := key in health && health[key].degraded;
    }

    method StickyPreferred(group: Key) returns (channel: Option<string>)
      requires Valid()
      ensures channel == LastPreferred(log, group)
    {
      PreferredIs(log, group);
      hide Views;
      channel := if group in preferred then Some(preferred[group]) else None;
    }

    method RememberPreferred(group: Key, channel: string)
      requires Valid()
      modifies this
      ensures Valid() && log == old(log) + [Prefer(group, channel)]
    {
      hide Views;
      ViewsStep(log, Prefer(group, channel));
      preferred := preferred[group := channel];
      log := log + [Prefer(group, channel)];
    }

    method IsBlocked(channel: string, now: real) returns (yes: bool)
      requires Valid() && AskedBy(log, now)
      modifies this
      ensures Valid() && log == old(log) + [AskBlocked(channel, now)]
      ensures yes <==> LastBlock(old(log), channel).Some? && LastBlock(old(log), channel).value.resetAt > now
    {
      hide Views, LastBlock, AskedBy;
      BlockedIff(log, channel, now);
      ViewsStep(log, AskBlocked(channel, now));
      log := log + [AskBlocked(channel, now)];
      if channel !in blocked {
        return false;
      }
      if blocked[channel].resetAt <= now {
        blocked := blocked - {channel};
        return false;
      }
      yes := true;
    }

    method ProbeTargets() returns (targets: set<Key>)
      requires Valid()
      ensures forall k :: k in targets <==>
                          Unhealed(log, k) && !Unforgiven(log, k) && k.model != "" && k.model != k.channel
    {
      targets := {};
      var keys := health.Keys;
      while keys != {}
        invariant keys <= health.Keys
        invariant forall k :: k in targets <==> k in health && k !in keys && Probed(Views(log), k)
        decreases |keys|
      {
        var k :| k in keys;
        if health[k].degraded && !health[k].permanent && k.model != "" && k.model != k.channel {
          targets := targets + {k};
        }
        keys := keys - {k};
      }
      forall k
        ensures k in targets <==> Unhealed(log, k) && !Unforgiven(log, k) && k.model != "" && k.model != k.channel
      {
        ProbedIff(log, k);
      }
    }

    method ClearPermanentForChannel(channel: string)
      requires Valid()
      modifies this`health, this`log
      ensures Valid() && log == old(log) + [ClearChannel(channel)]
    {
      hide Views;
      ViewsStep(log, ClearChannel(channel));
      var keys := health.Keys;
      while keys != {}
        invariant keys <= health.Keys == old(health.Keys) && log == old(log)
        invariant forall k | k in health ::
                    health[k] == if k.channel == channel && k !in keys then old(health)[k].(permanent := false)
                                 else old(health)[k]
        decreases |keys|
      {
        var k :| k in keys;
        if k.channel == channel {
          health := health[k := health[k].(permanent := false)];
        }
        keys := keys - {k};
      }
      log := log + [ClearChannel(channel)];
      assert health == map k | k in old(health) ::
               if k.channel == channel then old(health)[k].(permanent := false) else old(health)[k];
    }

    method DeleteChannel(channel: string)
      requires Valid()
      modifies this
      ensures Valid() && log == old(log) + [RemoveChannel(channel)]
    {
      hide Views;
      ViewsStep(log, RemoveChannel(channel));
      health := map k | k in health && k.channel != channel :: health[k];
      blocked := blocked - {channel};
      preferred := map g | g in preferred && preferred[g] != channel :: preferred[g];
      log := log + [RemoveChannel(channel)];
    }
  }
}
