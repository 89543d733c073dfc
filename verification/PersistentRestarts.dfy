/**
 What the persistent limiter keeps through restarts and prunes: memory starts empty again and again
 while the table stays, and the table is read with its times cut to whole seconds.
 */
module PersistentRestarts {
  import opened Outcome
  import opened LoginLimiter
  import opened PersistentLimiter

  /** A call, with what the table lets through during it, or a new process on the same table. */
  datatype Event =
    | Use(call: Call, store: Store)
    | Restart

  function Restarted(s: State): State {
    State(map[], {}, None, s.rows)
  }

  /** The call is well-formed, comes after everything before it, and the table serves its keys. */
  predicate Sensible(c: Call, store: Store, now: int) {
    c.Valid() && Timed(c, now) && Serves(store, c)
  }

  function Clock(events: seq<Event>, start: int): int {
    if events == [] then start
    else
      var e := events[|events| - 1];
      if e.Use? then LastReading(e.call) else Clock(events[..|events| - 1], start)
  }

  /** Calls follow each other on a clock that never goes back, across restarts too. */
  predicate Orderly(events: seq<Event>, start: int) {
    if events == [] then true
    else
      var init, e := events[..|events| - 1], events[|events| - 1];
      Orderly(init, start) && (e.Use? ==> Sensible(e.call, e.store, Clock(init, start)))
  }

  function Run(p: Policy, s: State, events: seq<Event>, start: int): State
    requires Orderly(events, start)
  {
    if events == [] then s
    else
      var before, e := Run(p, s, events[..|events| - 1], start), events[|events| - 1];
      if e.Use? then Step(p, before, e.call, e.store).0 else Restarted(before)
  }

  lemma {:induction false} ClockMoves(events: seq<Event>, start: int)
    requires Orderly(events, start)
    ensures start <= Clock(events, start)
    decreases |events|
  {
    if events != [] {
      ClockMoves(events[..|events| - 1], start);
    }
  }

  lemma LaterReading(c: Call, now: int)
    requires c.Valid() && Timed(c, now)
    ensures now <= LastReading(c)
  {
  }

  // ---------- One key through the parts of a call ----------

  lemma {:induction false} LoadLoads(p: Policy, s: State, keys: seq<string>, times: seq<int>, store: Store)
    requires |times| == |keys| && store.readable >= (set key | key in keys)
    ensures forall key :: key in keys ==> key in Load(p, s, keys, times, store).loaded
    ensures Load(p, s, keys, times, store).rows == s.rows
    ensures s.loaded <= Load(p, s, keys, times, store).loaded
    decreases |keys|
  {
    hide Merge;
    if keys != [] {
      var n := |keys| - 1;
      LoadLoads(p, s, keys[..n], times[..n], store);
      assert keys == keys[..n] + [keys[n]];
    }
  }

  /** A key that is blocked refuses, wherever it stands in the list. */
  lemma {:induction false} BlockedRefuses(p: Policy, m: Entries, keys: seq<string>, now: int, key: string)
    requires key in keys && Blocked(p, Get(m, key), now)
    ensures !Admit(p, m, keys, now).1
    decreases |keys|
  {
    if !Blocked(p, Get(m, keys[0]), now) {
      var after := if Lapsed(p, Get(m, keys[0]), now) then Without(m, keys[0]) else m;
      assert key != keys[0] && key in keys[1..] && Get(after, key) == Get(m, key);
      BlockedRefuses(p, after, keys[1..], now, key);
    }
  }

  /** A refusal comes from a key that is blocked. */
  lemma {:induction false} RefusedIsBlocked(p: Policy, m: Entries, keys: seq<string>, now: int) returns (key: string)
    requires p.Valid() && !Admit(p, m, keys, now).1
    ensures key in keys && key in m && Blocked(p, m[key], now)
    decreases |keys|
  {
    hide Expired;
    if Blocked(p, Get(m, keys[0]), now) {
      key := keys[0];
      EmptyIsNeither(p, now);
    } else {
      key := RefusedIsBlocked(p, if Lapsed(p, Get(m, keys[0]), now) then Without(m, keys[0]) else m, keys[1..], now);
    }
  }

  // ---------- A block holds ----------

  /** Blocked no earlier than the given second. */
  predicate HeldEntry(p: Policy, e: Entry, since: int) {
    e.failures >= p.limit && e.blockedAt.Some? && e.blockedAt.value >= since
  }

  /** The table holds the block in a row no older than it, and memory does not know better. */
  predicate Held(p: Policy, s: State, key: string, since: int) {
    && key in s.rows && HeldEntry(p, EntryOf(s.rows[key]), since) && s.rows[key].updatedAt.Some? && s.rows[key].updatedAt.value >= since
    && (key in s.memory ==> HeldEntry(p, s.memory[key], since))
    && (key in s.loaded ==> key in s.memory)
  }

  predicate WholeSecond(since: int) {
    since % SECOND == 0
  }

  /** A prune while the block lasts finds its row too young. */
  lemma PruneHolds(p: Policy, s: State, key: string, since: int, at: int, store: Store)
    requires p.Valid() && Held(p, s, key, since) && at < since + p.cooldown
    ensures Held(p, MaybePrune(p, s, at, store), key, since)
  {
  }

  lemma LoadOneHolds(p: Policy, s: State, other: string, now: int, store: Store, key: string, since: int)
    requires p.Valid() && Held(p, s, key, since) && now < since + p.cooldown
    ensures Held(p, LoadOne(p, s, other, now, store), key, since)
  {
  }

  lemma {:induction false} LoadHolds(p: Policy, s: State, keys: seq<string>, times: seq<int>, store: Store, key: string, since: int)
    requires p.Valid() && |times| == |keys| && Held(p, s, key, since) && forall i :: 0 <= i < |times| ==> times[i] < since + p.cooldown
    ensures Held(p, Load(p, s, keys, times, store), key, since)
    decreases |keys|
  {
    hide Held, LoadOne;
    if keys != [] {
      var n := |keys| - 1;
      LoadHolds(p, s, keys[..n], times[..n], store, key, since);
      LoadOneHolds(p, Load(p, s, keys[..n], times[..n], store), keys[n], times[n], store, key, since);
    }
  }

  lemma AskHolds(p: Policy, s: State, c: Call, store: Store, now: int, key: string, since: int)
    requires p.Valid() && c.Ask? && Sensible(c, store, now) && Held(p, s, key, since) && c.at < since + p.cooldown
    ensures var (u, allowed) := Step(p, s, c, store);
            Held(p, u, key, since) && (key in c.keys ==> !allowed)
  {
    hide MaybePrune, Load, Admit;
    PruneHolds(p, s, key, since, c.pruneAt, store);
    var pruned := MaybePrune(p, s, c.pruneAt, store);
    LoadHolds(p, pruned, c.keys, c.loadAt, store, key, since);
    LoadLoads(p, pruned, c.keys, c.loadAt, store);
    var l := Load(p, pruned, c.keys, c.loadAt, store);
    AdmitOnly(p, l.memory, c.keys, c.at);
    if key in c.keys {
      BlockedRefuses(p, l.memory, c.keys, c.at, key);
    }
  }

  /** Counting more failures keeps an entry blocked, and moves the block to the present. */
  lemma {:induction false} CountHolds(p: Policy, m: Entries, keys: seq<string>, now: int, key: string, since: int)
    requires since <= now && (key in m ==> HeldEntry(p, m[key], since))
    ensures var n := CountFailure(p, m, keys, now).0;
            && (key in m ==> key in n && HeldEntry(p, n[key], since))
            && (key in keys && key in n && n[key].failures >= p.limit ==> n[key].blockedAt == Some(now))
    decreases |keys|
  {
    if keys != [] {
      CountHolds(p, m, keys[..|keys| - 1], now, key, since);
      assert keys == keys[..|keys| - 1] + [keys[|keys| - 1]];
    }
  }

  lemma {:induction false} CountAdds(p: Policy, m: Entries, keys: seq<string>, now: int)
    ensures var n := CountFailure(p, m, keys, now).0;
            && (forall key :: key in keys ==> key in n)
            && (forall key :: key !in keys ==> (key in n <==> key in m) && (key in m ==> n[key] == m[key]))
    decreases |keys|
  {
    CountOnly(p, m, keys, now);
  }

  lemma RowHolds(p: Policy, e: Entry, writeAt: int, since: int)
    requires WholeSecond(since) && HeldEntry(p, e, since) && since <= writeAt
    ensures var r := RowOf(e, writeAt); HeldEntry(p, EntryOf(r), since) && r.updatedAt.Some? && r.updatedAt.value >= since
  {
  }

  lemma FailHolds(p: Policy, s: State, c: Call, store: Store, now: int, key: string, since: int)
    requires p.Valid() && c.Fail? && Sensible(c, store, now) && WholeSecond(since) && since <= now
    requires Held(p, s, key, since) && c.at < since + p.cooldown
    ensures Held(p, Step(p, s, c, store).0, key, since)
  {
    hide Load, CountFailure, Persist, RowOf, HeldEntry;
    LoadHolds(p, s, c.keys, c.loadAt, store, key, since);
    LoadLoads(p, s, c.keys, c.loadAt, store);
    var l := Load(p, s, c.keys, c.loadAt, store);
    var m := CountFailure(p, l.memory, c.keys, c.at).0;
    CountHolds(p, l.memory, c.keys, c.at, key, since);
    CountAdds(p, l.memory, c.keys, c.at);
    PersistWrites(l.(memory := m), c.keys, c.writeAt, store);
    if key in c.keys {
      RowHolds(p, m[key], c.writeAt, since);
    }
  }

  lemma ClearHolds(p: Policy, s: State, c: Call, store: Store, now: int, key: string, since: int)
    requires c.Clear? && Sensible(c, store, now) && key !in c.keys && Held(p, s, key, since)
    ensures Held(p, Step(p, s, c, store).0, key, since)
  {
    hide Forget, Persist, RowOf, HeldEntry;
    var m := Forget(s.memory, c.keys);
    ForgetOnly(s.memory, c.keys);
    PersistWrites(s.(memory := m), c.keys, c.writeAt, store);
  }

  /** No call in the run forgets the key, as a successful login does. */
  predicate NeverCleared(events: seq<Event>, key: string) {
    forall i :: 0 <= i < |events| && events[i].Use? && events[i].call.Clear? ==> key !in events[i].call.keys
  }

  lemma {:induction false} RunHolds(p: Policy, s: State, events: seq<Event>, start: int, key: string, since: int)
    requires p.Valid() && Orderly(events, start) && WholeSecond(since) && since <= start
    requires Held(p, s, key, since) && NeverCleared(events, key) && Clock(events, start) < since + p.cooldown
    ensures Held(p, Run(p, s, events, start), key, since)
    decreases |events|
  {
    hide Held, Step, Serves, Timed, LastReading, WholeSecond;
    if events != [] {
      var init, e := events[..|events| - 1], events[|events| - 1];
      var now := Clock(init, start);
      ClockMoves(init, start);
      if e.Use? {
        LaterReading(e.call, now);
      }
      RunHolds(p, s, init, start, key, since);
      var before := Run(p, s, init, start);
      if e.Restart? {
        RestartHolds(p, before, key, since);
      } else {
        StepHolds(p, before, e.call, e.store, now, key, since);
      }
    }
  }

  lemma RestartHolds(p: Policy, s: State, key: string, since: int)
    requires Held(p, s, key, since)
    ensures Held(p, Restarted(s), key, since)
  {
  }

  lemma StepHolds(p: Policy, s: State, c: Call, store: Store, now: int, key: string, since: int)
    requires p.Valid() && Sensible(c, store, now) && WholeSecond(since) && since <= now
    requires Held(p, s, key, since) && LastReading(c) < since + p.cooldown && (c.Clear? ==> key !in c.keys)
    ensures Held(p, Step(p, s, c, store).0, key, since)
  {
    hide Held, Step, Serves, WholeSecond;
    match c
    case Ask(_, _, _, _) => AskHolds(p, s, c, store, now, key, since);
    case Fail(_, _, _, _) => FailHolds(p, s, c, store, now, key, since);
    case Clear(_, _) => ClearHolds(p, s, c, store, now, key, since);
  }

  /** A failure that reaches the limit leaves the block in memory and in the table. */
  lemma FailBlocks(p: Policy, s: State, c: Call, store: Store, now: int, key: string)
    requires p.Valid() && c.Fail? && Sensible(c, store, now) && key in c.keys
    requires var m := Step(p, s, c, store).0.memory; key in m && m[key].failures >= p.limit
    ensures Held(p, Step(p, s, c, store).0, key, FloorSecond(c.at))
  {
    hide Load, CountFailure, Persist, RowOf;
    LoadLoads(p, s, c.keys, c.loadAt, store);
    var l := Load(p, s, c.keys, c.loadAt, store);
    var m := CountFailure(p, l.memory, c.keys, c.at).0;
    CountBlocks(p, l.memory, c.keys, c.at, key);
    CountAdds(p, l.memory, c.keys, c.at);
    PersistWrites(l.(memory := m), c.keys, c.writeAt, store);
    RowHolds(p, m[key], c.writeAt, FloorSecond(c.at));
  }

  lemma {:induction false} CountBlocks(p: Policy, m: Entries, keys: seq<string>, now: int, key: string)
    requires key in keys
    ensures var n := CountFailure(p, m, keys, now).0; key in n && (n[key].failures >= p.limit ==> n[key].blockedAt == Some(now))
    decreases |keys|
  {
    var init := keys[..|keys| - 1];
    assert keys == init + [keys[|keys| - 1]];
    if key != keys[|keys| - 1] {
      CountBlocks(p, m, init, now, key);
    }
  }

  /**
   A block survives: from any state, a key whose failure at time t reached the limit is refused at
   every later question up to a second before t plus the cooldown, through any number of restarts and
   prunes and whatever other calls there are, unless a successful login clears it.
   */
  lemma BlockSurvives(p: Policy, s: State, fail: Call, store: Store, now: int, events: seq<Event>, ask: Call, askStore: Store, key: string)
    requires p.Valid() && fail.Fail? && Sensible(fail, store, now) && key in fail.keys
    requires var m := Step(p, s, fail, store).0.memory; key in m && m[key].failures >= p.limit
    requires Orderly(events, LastReading(fail)) && NeverCleared(events, key)
    requires ask.Ask? && Sensible(ask, askStore, Clock(events, LastReading(fail))) && key in ask.keys
    requires ask.at <= fail.at + p.cooldown - SECOND
    ensures !Step(p, Run(p, Step(p, s, fail, store).0, events, LastReading(fail)), ask, askStore).1
  {
    var since := FloorSecond(fail.at);
    FailBlocks(p, s, fail, store, now, key);
    LaterReading(ask, Clock(events, LastReading(fail)));
    hide Held, Step, Orderly, NeverCleared;
    RunHolds(p, Step(p, s, fail, store).0, events, LastReading(fail), key, since);
    AskHolds(p, Run(p, Step(p, s, fail, store).0, events, LastReading(fail)), ask, askStore, Clock(events, LastReading(fail)), key, since);
  }

  // ---------- A block is never extended ----------

  function Latest(a: Option<int>, b: int): Option<int> {
    if a.Some? && a.value > b then a else Some(b)
  }

  /** The latest time at which a failure was counted for the key. */
  function LastFailure(events: seq<Event>, key: string): Option<int> {
    if events == [] then None
    else
      var before, e := LastFailure(events[..|events| - 1], key), events[|events| - 1];
      if e.Use? && e.call.Fail? && key in e.call.keys then Latest(before, e.call.at) else before
  }

  predicate NotAfter(blockedAt: Option<int>, failure: Option<int>) {
    blockedAt.Some? ==> failure.Some? && blockedAt.value <= failure.value
  }

  /** Every block of one key, in memory and in the table, is no later than its latest failure. */
  predicate Explained(s: State, key: string, failure: Option<int>) {
    (key in s.memory ==> NotAfter(s.memory[key].blockedAt, failure)) && (key in s.rows ==> NotAfter(s.rows[key].blockedAt, failure))
  }

  lemma {:induction false} LoadExplained(p: Policy, s: State, keys: seq<string>, times: seq<int>, store: Store, key: string, failure: Option<int>)
    requires |times| == |keys| && Explained(s, key, failure)
    ensures Explained(Load(p, s, keys, times, store), key, failure)
    decreases |keys|
  {
    if keys != [] {
      var n := |keys| - 1;
      LoadExplained(p, s, keys[..n], times[..n], store, key, failure);
    }
  }

  lemma {:induction false} PersistExplained(s: State, keys: seq<string>, now: int, store: Store, key: string, failure: Option<int>)
    requires Explained(s, key, failure)
    ensures Explained(Persist(s, keys, now, store), key, failure) && Persist(s, keys, now, store).memory == s.memory
    decreases |keys|
  {
    if keys != [] {
      PersistExplained(s, keys[..|keys| - 1], now, store, key, failure);
    }
  }

  lemma PruneExplained(p: Policy, s: State, at: int, store: Store, key: string, failure: Option<int>)
    requires Explained(s, key, failure)
    ensures Explained(MaybePrune(p, s, at, store), key, failure)
  {
  }

  lemma StepExplained(p: Policy, s: State, c: Call, store: Store, key: string, failure: Option<int>)
    requires p.Valid() && c.Valid() && Explained(s, key, failure)
    ensures Explained(Step(p, s, c, store).0, key, if c.Fail? && key in c.keys then Latest(failure, c.at) else failure)
  {
    hide Load, MaybePrune, Admit, CountFailure, Forget, Persist, Explained;
    match c
    case Ask(keys, pruneAt, loadAt, at) =>
      PruneExplained(p, s, pruneAt, store, key, failure);
      var pruned := MaybePrune(p, s, pruneAt, store);
      LoadExplained(p, pruned, keys, loadAt, store, key, failure);
      var l := Load(p, pruned, keys, loadAt, store);
      AdmitOnly(p, l.memory, keys, at);
      FewerExplained(l, Admit(p, l.memory, keys, at).0, key, failure);
    case Fail(keys, loadAt, at, writeAt) =>
      LoadExplained(p, s, keys, loadAt, store, key, failure);
      var l := Load(p, s, keys, loadAt, store);
      CountOnly(p, l.memory, keys, at);
      var after := if key in keys then Latest(failure, at) else failure;
      CountedExplained(l, CountFailure(p, l.memory, keys, at).0, keys, at, key, failure);
      PersistExplained(l.(memory := CountFailure(p, l.memory, keys, at).0), keys, writeAt, store, key, after);
    case Clear(keys, writeAt) =>
      ForgetOnly(s.memory, keys);
      FewerExplained(s, Forget(s.memory, keys), key, failure);
      PersistExplained(s.(memory := Forget(s.memory, keys)), keys, writeAt, store, key, failure);
  }

  lemma FewerExplained(s: State, m: Entries, key: string, failure: Option<int>)
    requires Explained(s, key, failure) && forall k :: k in m ==> k in s.memory && m[k] == s.memory[k]
    ensures Explained(s.(memory := m), key, failure)
  {
  }

  lemma CountedExplained(s: State, m: Entries, keys: seq<string>, at: int, key: string, failure: Option<int>)
    requires Explained(s, key, failure)
    requires key !in keys ==> (key in m <==> key in s.memory) && (key in m ==> m[key] == s.memory[key])
    requires key in m && m[key].blockedAt.Some? ==> m[key].blockedAt.value == at || (key in s.memory && m[key].blockedAt == s.memory[key].blockedAt)
    ensures Explained(s.(memory := m), key, if key in keys then Latest(failure, at) else failure)
  {
  }

  lemma {:induction false} RunExplained(p: Policy, events: seq<Event>, start: int, key: string)
    requires p.Valid() && Orderly(events, start)
    ensures Explained(Run(p, FRESH, events, start), key, LastFailure(events, key))
    decreases |events|
  {
    hide Step, Serves, Timed, LastReading, Latest;
    if events != [] {
      var init, e := events[..|events| - 1], events[|events| - 1];
      RunExplained(p, init, start, key);
      if e.Use? {
        StepExplained(p, Run(p, FRESH, init, start), e.call, e.store, key, LastFailure(init, key));
      }
    }
  }

  /**
   Nothing extends a block: in any history from an empty table, restarts and prunes included, a question is
   refused only if some failure of one of its keys was counted less than a cooldown before.
   */
  lemma RefusedMeansRecent(p: Policy, events: seq<Event>, start: int, ask: Call, store: Store) returns (key: string)
    requires p.Valid() && Orderly(events, start) && ask.Ask? && Sensible(ask, store, Clock(events, start))
    requires !Step(p, Run(p, FRESH, events, start), ask, store).1
    ensures key in ask.keys && LastFailure(events, key).Some? && ask.at < LastFailure(events, key).value + p.cooldown
  {
    var s := Run(p, FRESH, events, start);
    var pruned := MaybePrune(p, s, ask.pruneAt, store);
    var l := Load(p, pruned, ask.keys, ask.loadAt, store);
    key := RefusedIsBlocked(p, l.memory, ask.keys, ask.at);
    hide MaybePrune, Load, Admit, Orderly, LastFailure;
    RunExplained(p, events, start, key);
    hide Run;
    PruneExplained(p, s, ask.pruneAt, store, key, LastFailure(events, key));
    LoadExplained(p, pruned, ask.keys, ask.loadAt, store, key, LastFailure(events, key));
  }

  // ---------- Prunes ----------

  /** Rows are no older than their blocks. */
  predicate Dated(rows: Rows) {
    forall key :: key in rows && rows[key].blockedAt.Some? ==> rows[key].updatedAt.Some? && rows[key].blockedAt.value <= rows[key].updatedAt.value
  }

  predicate Past(m: Entries, now: int) {
    forall key :: key in m && m[key].blockedAt.Some? ==> m[key].blockedAt.value <= now
  }

  predicate RowsPast(rows: Rows, now: int) {
    forall key :: key in rows && rows[key].blockedAt.Some? ==> rows[key].blockedAt.value <= now
  }

  predicate Sane(s: State, now: int) {
    Dated(s.rows) && Past(s.memory, now) && RowsPast(s.rows, now)
  }

  lemma {:induction false} LoadSane(p: Policy, s: State, keys: seq<string>, times: seq<int>, store: Store, now: int)
    requires |times| == |keys| && Sane(s, now)
    ensures Sane(Load(p, s, keys, times, store), now)
    decreases |keys|
  {
    if keys != [] {
      var n := |keys| - 1;
      LoadSane(p, s, keys[..n], times[..n], store, now);
    }
  }

  lemma PersistOneSane(s: State, key: string, now: int, store: Store)
    requires Sane(s, now)
    ensures Sane(PersistOne(s, key, now, store), now)
  {
    if key in s.memory && s.memory[key].blockedAt.Some? {
      FloorMonotone(s.memory[key].blockedAt.value, now);
    }
  }

  lemma {:induction false} PersistSane(s: State, keys: seq<string>, now: int, store: Store)
    requires Sane(s, now)
    ensures Sane(Persist(s, keys, now, store), now)
    decreases |keys|
  {
    hide Sane, PersistOne;
    if keys != [] {
      PersistSane(s, keys[..|keys| - 1], now, store);
      PersistOneSane(Persist(s, keys[..|keys| - 1], now, store), keys[|keys| - 1], now, store);
    }
  }

  lemma LaterSane(s: State, now: int, later: int)
    requires Sane(s, now) && now <= later
    ensures Sane(s, later)
  {
  }

  lemma MemorySane(s: State, m: Entries, now: int, at: int)
    requires Sane(s, now) && now <= at
    requires forall key :: key in m && m[key].blockedAt.Some? ==> m[key].blockedAt.value == at || (key in s.memory && m[key].blockedAt == s.memory[key].blockedAt)
    ensures Sane(s.(memory := m), at)
  {
  }

  lemma PruneSane(p: Policy, s: State, at: int, store: Store, now: int)
    requires Sane(s, now)
    ensures Sane(MaybePrune(p, s, at, store), now)
  {
  }

  lemma StepSane(p: Policy, s: State, c: Call, store: Store, now: int)
    requires p.Valid() && Sensible(c, store, now) && Sane(s, now)
    ensures Sane(Step(p, s, c, store).0, LastReading(c))
  {
    hide Load, MaybePrune, Admit, CountFailure, Forget, Persist, Sane, Serves;
    match c
    case Ask(keys, pruneAt, loadAt, at) =>
      PruneSane(p, s, pruneAt, store, now);
      var pruned := MaybePrune(p, s, pruneAt, store);
      LoadSane(p, pruned, keys, loadAt, store, now);
      var l := Load(p, pruned, keys, loadAt, store);
      AdmitOnly(p, l.memory, keys, at);
      MemorySane(l, Admit(p, l.memory, keys, at).0, now, at);
    case Fail(keys, loadAt, at, writeAt) =>
      LoadSane(p, s, keys, loadAt, store, now);
      var l := Load(p, s, keys, loadAt, store);
      CountOnly(p, l.memory, keys, at);
      MemorySane(l, CountFailure(p, l.memory, keys, at).0, now, at);
      LaterSane(l.(memory := CountFailure(p, l.memory, keys, at).0), at, writeAt);
      PersistSane(l.(memory := CountFailure(p, l.memory, keys, at).0), keys, writeAt, store);
    case Clear(keys, writeAt) =>
      ForgetOnly(s.memory, keys);
      MemorySane(s, Forget(s.memory, keys), now, writeAt);
      PersistSane(s.(memory := Forget(s.memory, keys)), keys, writeAt, store);
  }

  lemma {:induction false} RunSane(p: Policy, s: State, events: seq<Event>, start: int)
    requires p.Valid() && Orderly(events, start) && Sane(s, start)
    ensures Sane(Run(p, s, events, start), Clock(events, start))
    decreases |events|
  {
    hide Step, Serves, Timed, LastReading, Sane;
    if events != [] {
      var init, e := events[..|events| - 1], events[|events| - 1];
      RunSane(p, s, init, start);
      if e.Use? {
        StepSane(p, Run(p, s, init, start), e.call, e.store, Clock(init, start));
      } else {
        RestartSane(Run(p, s, init, start), Clock(init, start));
      }
    }
  }

  lemma RestartSane(s: State, now: int)
    requires Sane(s, now)
    ensures Sane(Restarted(s), now)
  {
  }

  /**
   In every history, however often the process restarts, from any table and memory whose blocks are not in the future
   and whose rows are not older than their blocks: no prune deletes a row whose block has not run out.
   */
  lemma PruneKeepsBlocks(p: Policy, s: State, events: seq<Event>, start: int, key: string, at: int)
    requires p.Valid() && Orderly(events, start) && Sane(s, start)
    requires var rows := Run(p, s, events, start).rows; key in rows && rows[key].blockedAt.Some? && at < rows[key].blockedAt.value + p.cooldown
    ensures var rows := Run(p, s, events, start).rows; key in Pruned(rows, at - 2 * p.cooldown) && Pruned(rows, at - 2 * p.cooldown)[key] == rows[key]
  {
    RunSane(p, s, events, start);
    hide Run, Orderly;
  }

  // ---------- Counts below the limit ----------

  /** The table and, once loaded, memory hold this count of failures. */
  predicate CountHeld(s: State, key: string, count: int, writtenAt: int) {
    && key in s.rows && s.rows[key].failures == count && s.rows[key].updatedAt == Some(FloorSecond(writtenAt))
    && (key in s.memory ==> s.memory[key].failures == count)
    && (key in s.loaded ==> key in s.memory)
  }

  /** Nothing counts or clears the key, and no prune comes two cooldowns after its row was written. */
  predicate Untouched(p: Policy, events: seq<Event>, key: string, writtenAt: int) {
    forall i :: 0 <= i < |events| && events[i].Use? ==>
      if events[i].call.Ask? then events[i].call.pruneAt <= FloorSecond(writtenAt) + 2 * p.cooldown else key !in events[i].call.keys
  }

  lemma PruneKeepsCount(p: Policy, s: State, at: int, store: Store, key: string, count: int, writtenAt: int)
    requires CountHeld(s, key, count, writtenAt) && at <= FloorSecond(writtenAt) + 2 * p.cooldown
    ensures CountHeld(MaybePrune(p, s, at, store), key, count, writtenAt)
  {
    FloorMonotone(at - 2 * p.cooldown, FloorSecond(writtenAt));
  }

  lemma {:induction false} LoadKeepsCount(p: Policy, s: State, keys: seq<string>, times: seq<int>, store: Store, key: string, count: int, writtenAt: int)
    requires |times| == |keys| && 0 < count < p.limit && CountHeld(s, key, count, writtenAt)
    ensures CountHeld(Load(p, s, keys, times, store), key, count, writtenAt)
    decreases |keys|
  {
    if keys != [] {
      var n := |keys| - 1;
      LoadKeepsCount(p, s, keys[..n], times[..n], store, key, count, writtenAt);
    }
  }

  lemma AskKeepsCount(p: Policy, s: State, c: Call, store: Store, now: int, key: string, count: int, writtenAt: int)
    requires p.Valid() && c.Ask? && Sensible(c, store, now) && 0 < count < p.limit && CountHeld(s, key, count, writtenAt)
    requires c.pruneAt <= FloorSecond(writtenAt) + 2 * p.cooldown
    ensures var u := Step(p, s, c, store).0;
            CountHeld(u, key, count, writtenAt) && (key in c.keys ==> key in u.memory && u.memory[key].failures == count)
  {
    hide MaybePrune, Load, Admit, FloorSecond;
    PruneKeepsCount(p, s, c.pruneAt, store, key, count, writtenAt);
    var pruned := MaybePrune(p, s, c.pruneAt, store);
    LoadKeepsCount(p, pruned, c.keys, c.loadAt, store, key, count, writtenAt);
    LoadLoads(p, pruned, c.keys, c.loadAt, store);
    var l := Load(p, pruned, c.keys, c.loadAt, store);
    AdmitOnly(p, l.memory, c.keys, c.at);
  }

  lemma OtherKeepsCount(p: Policy, s: State, c: Call, store: Store, now: int, key: string, count: int, writtenAt: int)
    requires p.Valid() && !c.Ask? && Sensible(c, store, now) && key !in c.keys && 0 < count < p.limit && CountHeld(s, key, count, writtenAt)
    ensures CountHeld(Step(p, s, c, store).0, key, count, writtenAt)
  {
    hide Load, CountFailure, Forget, Persist, RowOf, FloorSecond;
    if c.Fail? {
      LoadKeepsCount(p, s, c.keys, c.loadAt, store, key, count, writtenAt);
      LoadLoads(p, s, c.keys, c.loadAt, store);
      var l := Load(p, s, c.keys, c.loadAt, store);
      CountAdds(p, l.memory, c.keys, c.at);
      PersistWrites(l.(memory := CountFailure(p, l.memory, c.keys, c.at).0), c.keys, c.writeAt, store);
    } else {
      ForgetOnly(s.memory, c.keys);
      PersistWrites(s.(memory := Forget(s.memory, c.keys)), c.keys, c.writeAt, store);
    }
  }

  lemma {:induction false} RunKeepsCount(p: Policy, s: State, events: seq<Event>, start: int, key: string, count: int, writtenAt: int)
    requires p.Valid() && Orderly(events, start) && 0 < count < p.limit
    requires CountHeld(s, key, count, writtenAt) && Untouched(p, events, key, writtenAt)
    ensures CountHeld(Run(p, s, events, start), key, count, writtenAt)
    decreases |events|
  {
    hide CountHeld, Step, Serves, Timed, LastReading, FloorSecond;
    if events != [] {
      var init, e := events[..|events| - 1], events[|events| - 1];
      RunKeepsCount(p, s, init, start, key, count, writtenAt);
      var before := Run(p, s, init, start);
      if e.Restart? {
        RestartKeepsHeld(before, key, count, writtenAt);
      } else if e.call.Ask? {
        AskKeepsCount(p, before, e.call, e.store, Clock(init, start), key, count, writtenAt);
      } else {
        OtherKeepsCount(p, before, e.call, e.store, Clock(init, start), key, count, writtenAt);
      }
    }
  }

  lemma RestartKeepsHeld(s: State, key: string, count: int, writtenAt: int)
    requires CountHeld(s, key, count, writtenAt)
    ensures CountHeld(Restarted(s), key, count, writtenAt)
  {
  }

  lemma FailWrites(p: Policy, s: State, c: Call, store: Store, now: int, key: string)
    requires p.Valid() && c.Fail? && Sensible(c, store, now) && key in c.keys
    ensures var u := Step(p, s, c, store).0; key in u.memory && CountHeld(u, key, u.memory[key].failures, c.writeAt)
  {
    hide Load, CountFailure, Persist, FloorSecond;
    LoadLoads(p, s, c.keys, c.loadAt, store);
    var l := Load(p, s, c.keys, c.loadAt, store);
    CountAdds(p, l.memory, c.keys, c.at);
    PersistWrites(l.(memory := CountFailure(p, l.memory, c.keys, c.at).0), c.keys, c.writeAt, store);
  }

  /**
   A count below the limit survives too: through any restarts, prunes and calls of others it is what
   memory holds whenever the key is asked about, as long as no prune comes two cooldowns after the row was written.
   */
  lemma CountSurvives(p: Policy, s: State, fail: Call, store: Store, now: int, events: seq<Event>, ask: Call, askStore: Store, key: string)
    requires p.Valid() && fail.Fail? && Sensible(fail, store, now) && key in fail.keys
    requires var m := Step(p, s, fail, store).0.memory; key in m && 0 < m[key].failures < p.limit
    requires Orderly(events, LastReading(fail)) && Untouched(p, events, key, fail.writeAt)
    requires ask.Ask? && Sensible(ask, askStore, Clock(events, LastReading(fail))) && key in ask.keys
    requires ask.pruneAt <= FloorSecond(fail.writeAt) + 2 * p.cooldown
    ensures var after := Step(p, s, fail, store).0;
            var u := Step(p, Run(p, after, events, LastReading(fail)), ask, askStore).0;
            key in u.memory && u.memory[key].failures == after.memory[key].failures
  {
    hide CountHeld, Step, Orderly, Untouched, FloorSecond, Serves, Timed;
    FailWrites(p, s, fail, store, now, key);
    var after := Step(p, s, fail, store).0;
    RunKeepsCount(p, after, events, LastReading(fail), key, after.memory[key].failures, fail.writeAt);
    AskKeepsCount(p, Run(p, after, events, LastReading(fail)), ask, askStore, Clock(events, LastReading(fail)), key, after.memory[key].failures, fail.writeAt);
  }

  /** On any table, a count below the limit is found after a restart if and only if its row is not older than two cooldowns at the first prune. */
  lemma RestartKeepsCountIff(p: Policy, rows: Rows, key: string, pruneAt: int, loadAt: int)
    requires p.Valid() && key in rows && 0 < rows[key].failures < p.limit
    ensures var store := Store({key}, {}, true);
            var loaded := Load(p, MaybePrune(p, State(map[], {}, None, rows), pruneAt, store), [key], [loadAt], store).memory;
            && (key in loaded <==> !Stale(rows[key], pruneAt - 2 * p.cooldown))
            && (key in loaded ==> loaded[key].failures == rows[key].failures)
  {
    var store := Store({key}, {}, true);
    var s := MaybePrune(p, State(map[], {}, None, rows), pruneAt, store);
    assert [key][..0] == [] && [loadAt][..0] == [];
    assert Load(p, s, [key][..0], [loadAt][..0], store) == s;
    hide Stale, FloorSecond;
  }

  // ---------- When and what a prune deletes ----------

  const TEN_MINUTES := 600_000_000_000

  /** The row was last written in a second before the one of the cutoff. */
  predicate Older(r: Row, cutoff: int) {
    r.updatedAt.None? || r.updatedAt.value + cutoff % 1_000_000_000 < cutoff
  }

  /** A question prunes at most once in ten minutes; then rows older than two cooldowns go and keys are read again, if the table answers. */
  lemma PruneIsDue(p: Policy, s: State, now: int, store: Store)
    ensures var u := MaybePrune(p, s, now, store);
            && u.memory == s.memory
            && if s.nextPrune.Some? && now < s.nextPrune.value then u == s
               else
                 && u.nextPrune == Some(now + TEN_MINUTES)
                 && (if store.prunes then
                       && u.loaded == {}
                       && (forall key :: key in u.rows <==> key in s.rows && !Older(s.rows[key], now - 2 * p.cooldown))
                       && (forall key :: key in u.rows ==> u.rows[key] == s.rows[key])
                     else u.loaded == s.loaded && u.rows == s.rows)
  {
  }

  /** What is stored of a key: its failures, and its times cut to whole seconds. */
  lemma StoredRow(e: Entry, now: int)
    ensures var r := RowOf(e, now);
            && r.failures == e.failures && (e.blockedAt.None? <==> r.blockedAt.None?) && r.updatedAt == Some(now - now % 1_000_000_000)
            && (e.blockedAt.Some? ==> r.blockedAt.value == e.blockedAt.value - e.blockedAt.value % 1_000_000_000)
  {
  }

  /** One key of a load: a row is merged the first time it can be read, and a failed read is tried again. */
  lemma LoadedKey(p: Policy, s: State, key: string, now: int, store: Store)
    ensures var u := LoadOne(p, s, key, now, store);
            && u.rows == s.rows && u.nextPrune == s.nextPrune
            && (key in s.loaded || key !in store.readable ==> u == s)
            && (key !in s.loaded && key in store.readable ==>
                  && u.loaded == s.loaded + {key}
                  && u.memory == if key in s.rows then Merge(p, s.memory, key, Entry(s.rows[key].failures, s.rows[key].blockedAt), now) else s.memory)
  {
    hide Merge;
  }

  /** One key of a save: forgotten ones are deleted, read ones written, and unread ones left alone. */
  lemma SavedKey(s: State, key: string, now: int, store: Store)
    ensures var u := PersistOne(s, key, now, store);
            && u.memory == s.memory && u.loaded == s.loaded && u.nextPrune == s.nextPrune
            && (forall other :: other != key ==> (other in u.rows <==> other in s.rows) && (other in s.rows ==> u.rows[other] == s.rows[other]))
            && (key !in store.writable ==> u.rows == s.rows)
            && (key in store.writable && key !in s.memory ==> key !in u.rows)
            && (key in store.writable && key in s.memory && key in s.loaded ==> key in u.rows && u.rows[key] == RowOf(s.memory[key], now))
            && (key in store.writable && key in s.memory && key !in s.loaded ==> u.rows == s.rows)
  {
    hide RowOf;
  }
}
