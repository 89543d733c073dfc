/**
 The login limiter that mirrors its state into a table, so that blocks survive a restart.

 Memory makes every decision; the table is read once per key after a start or a prune. Table
 times keep whole seconds. Each call takes its clock readings as inputs, and which table
 operations succeed: keys that can be read or written, and whether pruning works.
 */
module PersistentLimiter {
  import opened Outcome
  import opened LoginLimiter

  const SECOND := 1000000000
  const PRUNE_INTERVAL := 600 * SECOND

  /** A stored row; None is the empty text of the zero time. */
  datatype Row = Row(failures: int, blockedAt: Option<int>, updatedAt: Option<int>)

  type Rows = map<string, Row>

  function FloorSecond(t: int): (s: int)
    ensures s <= t < s + SECOND
  {
    t - t % SECOND
  }

  /** Formatting a time and reading it back. */
  function Stored(t: Option<int>): Option<int> {
    if t.Some? then Some(FloorSecond(t.value)) else None
  }

  /** RFC 3339 texts compare like the times they show, and the empty text before all of them. */
  predicate Stale(r: Row, cutoff: int) {
    r.updatedAt.None? || r.updatedAt.value < FloorSecond(cutoff)
  }

  class RateLimitTable {
    var rows: Rows

    constructor ()
      ensures rows == map[]
    {
      rows := map[];
    }

    method Save(key: string, e: Entry, now: int)
      modifies this
      ensures rows == old(rows)[key := RowOf(e, now)]
    {
      rows := rows[key := RowOf(e, now)];
    }

    method Delete(key: string)
      modifies this
      ensures rows == old(rows) - {key}
    {
      rows := rows - {key};
    }

    /** Exactly the rows older than the cutoff go, and the others are as they were. */
    method Prune(cutoff: int)
      modifies this
      ensures forall key :: key in rows <==> key in old(rows) && !Stale(old(rows)[key], cutoff)
      ensures forall key :: key in rows ==> rows[key] == old(rows)[key]
    {
      rows := map key | key in rows && !Stale(rows[key], cutoff) :: rows[key];
    }
  }

  function RowOf(e: Entry, now: int): Row {
    Row(e.failures, Stored(e.blockedAt), Some(FloorSecond(now)))
  }

  function Pruned(rows: Rows, cutoff: int): Rows {
    map key | key in rows && !Stale(rows[key], cutoff) :: rows[key]
  }

  function EntryOf(r: Row): Entry {
    Entry(r.failures, r.blockedAt)
  }

  // ---------- The limiter as a function ----------

  datatype State = State(memory: Entries, loaded: set<string>, nextPrune: Option<int>, rows: Rows)

  /** A limiter that has seen nothing, on an empty table. */
  const FRESH := State(map[], {}, None, map[])

  /** Which table operations succeed during a call. */
  datatype Store = Store(readable: set<string>, writable: set<string>, prunes: bool)

  function MaybePrune(p: Policy, s: State, now: int, store: Store): State {
    if s.nextPrune.Some? && now < s.nextPrune.value then s
    else if store.prunes then
      State(s.memory, {}, Some(now + PRUNE_INTERVAL), Pruned(s.rows, now - 2 * p.cooldown))
    else s.(nextPrune := Some(now + PRUNE_INTERVAL))
  }

  function LoadOne(p: Policy, s: State, key: string, now: int, store: Store): State {
    if key in s.loaded || key !in store.readable then s
    else
      s.(memory := if key in s.rows then Merge(p, s.memory, key, EntryOf(s.rows[key]), now) else s.memory,
         loaded := s.loaded + {key})
  }

  /** Every key of the call has its own clock reading. */
  function Load(p: Policy, s: State, keys: seq<string>, times: seq<int>, store: Store): State
    requires |times| == |keys|
  {
    if keys == [] then s
    else
      var n := |keys| - 1;
      LoadOne(p, Load(p, s, keys[..n], times[..n], store), keys[n], times[n], store)
  }

  function PersistOne(s: State, key: string, now: int, store: Store): State {
    if key !in store.writable then s
    else if key !in s.memory then s.(rows := s.rows - {key})
    else if key in s.loaded then s.(rows := s.rows[key := RowOf(s.memory[key], now)])
    else s
  }

  function Persist(s: State, keys: seq<string>, now: int, store: Store): State {
    if keys == [] then s else PersistOne(Persist(s, keys[..|keys| - 1], now, store), keys[|keys| - 1], now, store)
  }

  /** One call of the limiter with the clock readings it takes, in order. */
  datatype Call =
    | Ask(keys: seq<string>, pruneAt: int, loadAt: seq<int>, at: int)
    | Fail(keys: seq<string>, loadAt: seq<int>, at: int, writeAt: int)
    | Clear(keys: seq<string>, writeAt: int)
  {
    predicate Valid() {
      (Ask? || Fail?) ==> |loadAt| == |keys|
    }
  }

  function Step(p: Policy, s: State, c: Call, store: Store): (State, bool)
    requires c.Valid()
  {
    match c
    case Ask(keys, pruneAt, loadAt, at) =>
      var l := Load(p, MaybePrune(p, s, pruneAt, store), keys, loadAt, store);
      var (m, allowed) := Admit(p, l.memory, keys, at);
      (l.(memory := m), allowed)
    case Fail(keys, loadAt, at, writeAt) =>
      var l := Load(p, s, keys, loadAt, store);
      var (m, blocked) := CountFailure(p, l.memory, keys, at);
      (Persist(l.(memory := m), keys, writeAt, store), blocked)
    case Clear(keys, writeAt) =>
      (Persist(s.(memory := Forget(s.memory, keys)), keys, writeAt, store), true)
  }

  /** The same call on the plain in-memory limiter. */
  function PlainStep(p: Policy, m: Entries, c: Call): (Entries, bool) {
    match c
    case Ask(keys, _, _, at) => Admit(p, m, keys, at)
    case Fail(keys, _, at, _) => CountFailure(p, m, keys, at)
    case Clear(keys, _) => (Forget(m, keys), true)
  }

  // ---------- The limiter as an object ----------

  class PersistentLoginLimiter {
    const memory: Limiter
    const store: RateLimitTable
    var loaded: set<string>
    var nextPrune: Option<int>

    constructor (table: RateLimitTable, failureLimit: int, cooldown: int)
      ensures fresh(memory) && store == table
      ensures memory.policy == NewPolicy(failureLimit, cooldown)
      ensures Value() == State(map[], {}, None, table.rows)
    {
      memory := new Limiter(failureLimit, cooldown);
      store := table;
      loaded := {};
      nextPrune := None;
    }

    ghost function Value(): State
      reads this, memory, store
    {
      State(memory.entries, loaded, nextPrune, store.rows)
    }

    method Prune(now: int, works: Store)
      modifies this, store
      ensures Value() == MaybePrune(memory.policy, old(Value()), now, works)
    {
      if nextPrune.Some? && now < nextPrune.value {
        return;
      }
      nextPrune := Some(now + PRUNE_INTERVAL);
      if works.prunes {
        store.Prune(now - 2 * memory.policy.cooldown);
        loaded := {};
      }
    }

    method LoadKeys(keys: seq<string>, times: seq<int>, works: Store)
      requires |times| == |keys|
      modifies this, memory
      ensures Value() == Load(memory.policy, old(Value()), keys, times, works)
    {
      hide Merge;
      for i := 0 to |keys|
        invariant Value() == Load(memory.policy, old(Value()), keys[..i], times[..i], works)
      {
        assert keys[..i + 1][..i] == keys[..i] && times[..i + 1][..i] == times[..i];
        if keys[i] in loaded || keys[i] !in works.readable {
          continue;
        }
        if keys[i] in store.rows {
          memory.Seed(keys[i], EntryOf(store.rows[keys[i]]), times[i]);
        }
        loaded := loaded + {keys[i]};
      }
      assert keys[..|keys|] == keys && times[..|keys|] == times;
    }

    method PersistKeys(keys: seq<string>, now: int, works: Store)
      modifies store
      ensures Value() == Persist(old(Value()), keys, now, works)
    {
      hide RowOf;
      for i := 0 to |keys|
        invariant Value() == Persist(old(Value()), keys[..i], now, works)
      {
        assert keys[..i + 1][..i] == keys[..i];
        if keys[i] !in works.writable {
          continue;
        }
        if keys[i] !in memory.entries {
          store.Delete(keys[i]);
        } else if keys[i] in loaded {
          store.Save(keys[i], memory.entries[keys[i]], now);
        }
      }
      assert keys[..|keys|] == keys;
    }

    method Allow(keys: seq<string>, pruneAt: int, loadAt: seq<int>, at: int, works: Store) returns (allowed: bool)
      requires |loadAt| == |keys|
      modifies this, memory, store
      ensures (Value(), allowed) == Step(memory.policy, old(Value()), Ask(keys, pruneAt, loadAt, at), works)
    {
      hide Load, MaybePrune, Admit;
      Prune(pruneAt, works);
      LoadKeys(keys, loadAt, works);
      allowed := memory.Allow(keys, at);
    }

    method RecordFailure(keys: seq<string>, loadAt: seq<int>, at: int, writeAt: int, works: Store) returns (blocked: bool)
      requires |loadAt| == |keys|
      modifies this, memory, store
      ensures (Value(), blocked) == Step(memory.policy, old(Value()), Fail(keys, loadAt, at, writeAt), works)
    {
      hide Load, Persist, CountFailure;
      LoadKeys(keys, loadAt, works);
      blocked := memory.RecordFailure(keys, at);
      PersistKeys(keys, writeAt, works);
    }

    method Reset(keys: seq<string>, writeAt: int, works: Store)
      modifies this, memory, store
      ensures Value() == Step(memory.policy, old(Value()), Clear(keys, writeAt), works).0
    {
      hide Persist, Forget;
      memory.Reset(keys);
      PersistKeys(keys, writeAt, works);
    }
  }

  // ---------- The mirror never changes a decision ----------

  /**
   How a row stands to memory: it repeats the key's entry with times cut to seconds, or the key is
   gone from memory because its block ran out.
   */
  ghost predicate Mirrors(p: Policy, s: State, key: string, now: int) {
    key in s.rows ==>
      var r := s.rows[key];
      && (r.blockedAt.Some? ==> r.updatedAt.Some? && r.blockedAt.value <= r.updatedAt.value)
      && if key in s.memory then r.failures == s.memory[key].failures && r.blockedAt == Stored(s.memory[key].blockedAt)
         else Lapsed(p, EntryOf(r), now)
  }

  ghost predicate Mirror(p: Policy, s: State, now: int) {
    && (forall key :: Mirrors(p, s, key, now))
    && (forall key :: key in s.memory && s.memory[key].blockedAt.Some? ==> s.memory[key].blockedAt.value <= now)
  }

  lemma MirrorLater(p: Policy, s: State, now: int, later: int)
    requires Mirror(p, s, now) && now <= later
    ensures Mirror(p, s, later)
  {
    forall key ensures Mirrors(p, s, key, later) {
      assert Mirrors(p, s, key, now);
    }
  }

  /** Loading a mirrored row finds nothing that memory does not know. */
  lemma SeedAddsNothing(p: Policy, s: State, key: string, now: int)
    requires p.Valid() && Mirror(p, s, now) && key in s.rows
    ensures Merge(p, s.memory, key, EntryOf(s.rows[key]), now) == s.memory
  {
    assert Mirrors(p, s, key, now);
  }

  /** Only memory, the rows and the loaded set matter, and the first two are the same. */
  ghost predicate SameData(a: State, b: State) {
    a.memory == b.memory && a.rows == b.rows
  }

  lemma {:induction false} LoadAddsNothing(p: Policy, s: State, keys: seq<string>, times: seq<int>, store: Store, now: int)
    requires p.Valid() && Mirror(p, s, now) && |times| == |keys|
    requires forall i :: 0 <= i < |times| ==> now <= times[i]
    ensures SameData(Load(p, s, keys, times, store), s)
    ensures store.readable >= (set key | key in keys) ==> forall key :: key in keys ==> key in Load(p, s, keys, times, store).loaded
    decreases |keys|
  {
    hide Merge, Mirror;
    if keys != [] {
      var n := |keys| - 1;
      LoadAddsNothing(p, s, keys[..n], times[..n], store, now);
      var l := Load(p, s, keys[..n], times[..n], store);
      assert keys == keys[..n] + [keys[n]];
      if keys[n] in s.rows {
        MirrorLater(p, s, now, times[n]);
        SeedAddsNothing(p, s, keys[n], times[n]);
      }
    }
  }

  lemma PruneKeepsMirror(p: Policy, s: State, at: int, store: Store, now: int)
    requires Mirror(p, s, now)
    ensures Mirror(p, MaybePrune(p, s, at, store), now) && MaybePrune(p, s, at, store).memory == s.memory
  {
    var u := MaybePrune(p, s, at, store);
    forall key ensures Mirrors(p, u, key, now) {
      assert Mirrors(p, s, key, now);
    }
  }

  lemma LapsedWhenCut(p: Policy, e: Entry, now: int)
    requires Lapsed(p, e, now)
    ensures Lapsed(p, Entry(e.failures, Stored(e.blockedAt)), now)
  {
  }

  lemma {:induction false} AdmitOnly(p: Policy, m: Entries, keys: seq<string>, now: int)
    requires p.Valid()
    ensures var n := Admit(p, m, keys, now).0;
            && (forall key :: key in n ==> key in m && n[key] == m[key])
            && (forall key :: key in m && key !in n ==> Lapsed(p, m[key], now))
    decreases |keys|
  {
    hide Blocked, Expired;
    if keys != [] && !Blocked(p, Get(m, keys[0]), now) {
      var after := if Lapsed(p, Get(m, keys[0]), now) then Without(m, keys[0]) else m;
      AdmitOnly(p, after, keys[1..], now);
    }
  }

  /** Forgetting lapsed keys leaves rows whose block has run out. */
  lemma AdmitKeepsMirror(p: Policy, s: State, keys: seq<string>, now: int)
    requires p.Valid() && Mirror(p, s, now)
    ensures Mirror(p, s.(memory := Admit(p, s.memory, keys, now).0), now)
  {
    hide Admit, Lapsed;
    AdmitOnly(p, s.memory, keys, now);
    var u := s.(memory := Admit(p, s.memory, keys, now).0);
    forall key ensures Mirrors(p, u, key, now) {
      assert Mirrors(p, s, key, now);
      if key in s.rows && key in s.memory && key !in u.memory {
        LapsedWhenCut(p, s.memory[key], now);
      }
    }
  }

  lemma {:induction false} CountOnly(p: Policy, m: Entries, keys: seq<string>, now: int)
    ensures var n := CountFailure(p, m, keys, now).0;
            && (forall key :: key in keys ==> key in n)
            && (forall key :: key !in keys ==> (key in n <==> key in m) && (key in m ==> n[key] == m[key]))
            && (forall key :: key in n && n[key].blockedAt.Some? ==> n[key].blockedAt.value == now || (key in m && n[key].blockedAt == m[key].blockedAt))
    decreases |keys|
  {
    if keys != [] {
      CountOnly(p, m, keys[..|keys| - 1], now);
      assert keys == keys[..|keys| - 1] + [keys[|keys| - 1]];
    }
  }

  lemma {:induction false} ForgetOnly(m: Entries, keys: seq<string>)
    ensures forall key :: key in Forget(m, keys) <==> key in m && key !in keys
    ensures forall key :: key in Forget(m, keys) ==> Forget(m, keys)[key] == m[key]
    decreases |keys|
  {
    if keys != [] {
      ForgetOnly(m, keys[..|keys| - 1]);
      assert keys == keys[..|keys| - 1] + [keys[|keys| - 1]];
    }
  }

  /** What persisting leaves in the table: the written keys mirror memory, the others are as before. */
  lemma {:induction false} PersistWrites(s: State, keys: seq<string>, now: int, store: Store)
    requires store.writable >= (set key | key in keys) && forall key :: key in keys && key in s.memory ==> key in s.loaded
    ensures var u := Persist(s, keys, now, store);
            && u.memory == s.memory && u.loaded == s.loaded && u.nextPrune == s.nextPrune
            && (forall key :: key in keys ==> if key in s.memory then key in u.rows && u.rows[key] == RowOf(s.memory[key], now) else key !in u.rows)
            && (forall key :: key !in keys ==> (key in u.rows <==> key in s.rows) && (key in s.rows ==> u.rows[key] == s.rows[key]))
    decreases |keys|
  {
    hide RowOf;
    if keys != [] {
      assert keys == keys[..|keys| - 1] + [keys[|keys| - 1]];
      PersistWrites(s, keys[..|keys| - 1], now, store);
    }
  }

  lemma FloorMonotone(a: int, b: int)
    requires a <= b
    ensures FloorSecond(a) <= FloorSecond(b)
  {
  }

  /** Persisting after a change to memory that touched no other key restores the mirror. */
  lemma PersistRestoresMirror(p: Policy, s: State, m: Entries, loaded: set<string>, keys: seq<string>, at: int, writeAt: int, store: Store)
    requires Mirror(p, s, at) && at <= writeAt && store.writable >= (set key | key in keys)
    requires forall key :: key in keys && key in m ==> key in loaded
    requires forall key :: key !in keys ==> (key in m <==> key in s.memory) && (key in m ==> m[key] == s.memory[key])
    requires forall key :: key in m && m[key].blockedAt.Some? ==> m[key].blockedAt.value <= at
    ensures var u := Persist(s.(memory := m, loaded := loaded), keys, writeAt, store);
            u.memory == m && Mirror(p, u, writeAt)
  {
    hide Persist, Lapsed;
    var changed := s.(memory := m, loaded := loaded);
    PersistWrites(changed, keys, writeAt, store);
    MirrorLater(p, s, at, writeAt);
    var u := Persist(changed, keys, writeAt, store);
    forall key ensures Mirrors(p, u, key, writeAt) {
      assert Mirrors(p, s, key, writeAt);
      if key in keys && key in m && m[key].blockedAt.Some? {
        FloorMonotone(m[key].blockedAt.value, writeAt);
      }
    }
  }

  /** The readings of a call follow each other on a clock that never goes back. */
  predicate Timed(c: Call, now: int)
    requires c.Valid()
  {
    match c
    case Ask(_, pruneAt, loadAt, at) => now <= pruneAt <= at && forall i :: 0 <= i < |loadAt| ==> pruneAt <= loadAt[i] <= at
    case Fail(_, loadAt, at, writeAt) => now <= at <= writeAt && forall i :: 0 <= i < |loadAt| ==> now <= loadAt[i] <= at
    case Clear(_, writeAt) => now <= writeAt
  }

  function LastReading(c: Call): int {
    match c
    case Ask(_, _, _, at) => at
    case Fail(_, _, _, writeAt) => writeAt
    case Clear(_, writeAt) => writeAt
  }

  /** The table serves every key of the call; pruning may still fail. */
  predicate Serves(store: Store, c: Call) {
    store.readable >= (set key | key in c.keys) && store.writable >= (set key | key in c.keys)
  }

  lemma AskRefines(p: Policy, s: State, c: Call, store: Store, now: int)
    requires p.Valid() && c.Ask? && c.Valid() && Timed(c, now) && Mirror(p, s, now)
    ensures var (u, answer) := Step(p, s, c, store); var (m, plain) := PlainStep(p, s.memory, c);
            u.memory == m && answer == plain && Mirror(p, u, c.at)
  {
    hide Mirror, Admit, MaybePrune, Load;
    var pruned := MaybePrune(p, s, c.pruneAt, store);
    PruneKeepsMirror(p, s, c.pruneAt, store, now);
    LoadAddsNothing(p, pruned, c.keys, c.loadAt, store, now);
    var l := Load(p, pruned, c.keys, c.loadAt, store);
    SameDataMirror(p, pruned, l, now);
    MirrorLater(p, l, now, c.at);
    AdmitKeepsMirror(p, l, c.keys, c.at);
  }

  lemma SameDataMirror(p: Policy, a: State, b: State, now: int)
    requires Mirror(p, a, now) && SameData(a, b)
    ensures Mirror(p, b, now)
  {
    forall key ensures Mirrors(p, b, key, now) {
      assert Mirrors(p, a, key, now);
    }
  }

  lemma BlockTimesBounded(p: Policy, s: State, m: Entries, keys: seq<string>, at: int)
    requires Mirror(p, s, at) && m == CountFailure(p, s.memory, keys, at).0
    ensures forall key :: key in m && m[key].blockedAt.Some? ==> m[key].blockedAt.value <= at
    ensures forall key :: key !in keys ==> (key in m <==> key in s.memory) && (key in m ==> m[key] == s.memory[key])
  {
    hide Mirrors;
    CountOnly(p, s.memory, keys, at);
  }

  lemma FailRefines(p: Policy, s: State, c: Call, store: Store, now: int)
    requires p.Valid() && c.Fail? && c.Valid() && Timed(c, now) && Mirror(p, s, now) && Serves(store, c)
    ensures var (u, answer) := Step(p, s, c, store); var (m, plain) := PlainStep(p, s.memory, c);
            u.memory == m && answer == plain && Mirror(p, u, c.writeAt)
  {
    hide Mirror, CountFailure, Load, Persist;
    LoadAddsNothing(p, s, c.keys, c.loadAt, store, now);
    var l := Load(p, s, c.keys, c.loadAt, store);
    SameDataMirror(p, s, l, now);
    MirrorLater(p, l, now, c.at);
    var m := CountFailure(p, l.memory, c.keys, c.at).0;
    BlockTimesBounded(p, l, m, c.keys, c.at);
    PersistRestoresMirror(p, l, m, l.loaded, c.keys, c.at, c.writeAt, store);
  }

  lemma ClearRefines(p: Policy, s: State, c: Call, store: Store, now: int)
    requires c.Clear? && c.Valid() && Timed(c, now) && Mirror(p, s, now) && Serves(store, c)
    ensures var (u, answer) := Step(p, s, c, store); var (m, plain) := PlainStep(p, s.memory, c);
            u.memory == m && answer == plain && Mirror(p, u, c.writeAt)
  {
    hide Forget, Persist, Mirrors;
    MirrorLater(p, s, now, c.writeAt);
    var m := Forget(s.memory, c.keys);
    ForgetOnly(s.memory, c.keys);
    PersistRestoresMirror(p, s, m, s.loaded, c.keys, c.writeAt, c.writeAt, store);
  }

  /** A sequence of calls with the state of the table during each. */
  datatype Timeline = Timeline(calls: seq<Call>, stores: seq<Store>) {
    function Before(n: nat): Timeline
      requires n <= |calls| && n <= |stores|
    {
      Timeline(calls[..n], stores[..n])
    }

    predicate Valid() {
      && |stores| == |calls|
      && (forall i :: 0 <= i < |calls| ==> calls[i].Valid() && Serves(stores[i], calls[i]))
    }
  }

  /** The latest reading before call i. */
  function Since(calls: seq<Call>, start: int, i: nat): int
    requires i <= |calls|
  {
    if i == 0 then start else LastReading(calls[i - 1])
  }

  predicate Ordered(calls: seq<Call>, start: int)
    requires forall i :: 0 <= i < |calls| ==> calls[i].Valid()
  {
    forall i :: 0 <= i < |calls| ==> Timed(calls[i], Since(calls, start, i))
  }

  function Answers(p: Policy, s: State, calls: seq<Call>, stores: seq<Store>): (State, seq<bool>)
    requires |stores| == |calls| && forall i :: 0 <= i < |calls| ==> calls[i].Valid()
  {
    if calls == [] then (s, [])
    else
      var n := |calls| - 1;
      var (t, answers) := Answers(p, s, calls[..n], stores[..n]);
      var (u, a) := Step(p, t, calls[n], stores[n]);
      (u, answers + [a])
  }

  function PlainAnswers(p: Policy, m: Entries, calls: seq<Call>): (Entries, seq<bool>) {
    if calls == [] then (m, [])
    else
      var n := |calls| - 1;
      var (t, answers) := PlainAnswers(p, m, calls[..n]);
      var (u, a) := PlainStep(p, t, calls[n]);
      (u, answers + [a])
  }

  lemma StepRefines(p: Policy, s: State, c: Call, store: Store, now: int)
    requires p.Valid() && c.Valid() && Timed(c, now) && Mirror(p, s, now) && Serves(store, c)
    ensures var (u, answer) := Step(p, s, c, store); var (m, plain) := PlainStep(p, s.memory, c);
            u.memory == m && answer == plain && Mirror(p, u, LastReading(c))
  {
    hide Mirror, Timed, Serves, Step, PlainStep;
    match c
    case Ask(_, _, _, _) => AskRefines(p, s, c, store, now);
    case Fail(_, _, _, _) => FailRefines(p, s, c, store, now);
    case Clear(_, _) => ClearRefines(p, s, c, store, now);
  }

  /**
   As long as the table answers, the persistent limiter gives on every sequence of calls the same
   answers as the plain one, prunes and reloads included, from any state whose table mirrors its memory.
   */
  lemma {:induction false} PersistentRefinesPlain(p: Policy, s: State, t: Timeline, start: int)
    requires p.Valid() && t.Valid() && Ordered(t.calls, start) && Mirror(p, s, start)
    ensures Answers(p, s, t.calls, t.stores).1 == PlainAnswers(p, s.memory, t.calls).1
    ensures Answers(p, s, t.calls, t.stores).0.memory == PlainAnswers(p, s.memory, t.calls).0
    ensures Mirror(p, Answers(p, s, t.calls, t.stores).0, Since(t.calls, start, |t.calls|))
    decreases |t.calls|
  {
    hide Step, PlainStep, Timed, Serves, Mirror, LastReading, Ordered;
    if t.calls != [] {
      var n := |t.calls| - 1;
      var init := t.Before(n);
      DropLast(t, n, start);
      PersistentRefinesPlain(p, s, init, start);
      assert Since(init.calls, start, n) == Since(t.calls, start, n);
      StepRefines(p, Answers(p, s, init.calls, init.stores).0, t.calls[n], t.stores[n], Since(t.calls, start, n));
    }
  }

  lemma DropLast(t: Timeline, n: nat, start: int)
    requires t.Valid() && Ordered(t.calls, start) && n < |t.calls|
    ensures t.Before(n).Valid() && Ordered(t.Before(n).calls, start)
    ensures t.calls[n].Valid() && Serves(t.stores[n], t.calls[n])
    ensures Timed(t.calls[n], Since(t.calls, start, n))
  {
    hide Timed, Serves, LastReading;
    var init := t.Before(n);
    forall i | 0 <= i < n ensures init.calls[i].Valid() && Serves(init.stores[i], init.calls[i]) {
      assert t.calls[i].Valid() && Serves(t.stores[i], t.calls[i]);
    }
    forall i | 0 <= i < n ensures Timed(init.calls[i], Since(init.calls, start, i)) {
      assert Timed(t.calls[i], Since(t.calls, start, i)) && Since(init.calls, start, i) == Since(t.calls, start, i);
    }
  }

  lemma EmptyMirror(p: Policy, now: int)
    ensures Mirror(p, FRESH, now)
  {
  }

  /** From the first start on an empty table. */
  lemma FreshRefinesPlain(p: Policy, t: Timeline, start: int)
    requires p.Valid() && t.Valid() && Ordered(t.calls, start)
    ensures Answers(p, FRESH, t.calls, t.stores).1 == PlainAnswers(p, map[], t.calls).1
  {
    hide Mirror, Ordered, Answers, PlainAnswers;
    EmptyMirror(p, start);
    PersistentRefinesPlain(p, FRESH, t, start);
  }
}
