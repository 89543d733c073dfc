/**
 The in-memory login limiter: it counts failures per key and blocks a key for a
 cooldown once the count reaches the limit.

 Times are nanoseconds; None is the zero time, which lies further back than any cooldown.
 */
module LoginLimiter {
  import opened Outcome

  const DEFAULT_FAILURE_LIMIT := 5
  const DEFAULT_COOLDOWN := 300 * 1000000000

  datatype Policy = Policy(limit: int, cooldown: int) {
    predicate Valid() {
      limit >= 1 && cooldown >= 1
    }
  }

  datatype Entry = Entry(failures: int, blockedAt: Option<int>)

  type Entries = map<string, Entry>

  const NO_ENTRY := Entry(0, None)

  function NewPolicy(failureLimit: int, cooldown: int): (p: Policy)
    ensures p.Valid()
  {
    Policy(if failureLimit <= 0 then DEFAULT_FAILURE_LIMIT else failureLimit, if cooldown <= 0 then DEFAULT_COOLDOWN else cooldown)
  }

  function Get(m: Entries, key: string): Entry {
    if key in m then m[key] else NO_ENTRY
  }

  /** The cooldown since the block has passed. */
  predicate Expired(p: Policy, e: Entry, now: int) {
    e.blockedAt.None? || now - e.blockedAt.value >= p.cooldown
  }

  predicate Blocked(p: Policy, e: Entry, now: int) {
    e.failures >= p.limit && !Expired(p, e, now)
  }

  predicate Lapsed(p: Policy, e: Entry, now: int) {
    e.failures >= p.limit && Expired(p, e, now)
  }

  function Without(m: Entries, key: string): Entries {
    m - {key}
  }

  /** Entries and answer of `allow`: the first blocked key refuses, and lapsed keys before it are forgotten. */
  function Admit(p: Policy, m: Entries, keys: seq<string>, now: int): (Entries, bool) {
    if keys == [] then (m, true)
    else if Blocked(p, Get(m, keys[0]), now) then (m, false)
    else Admit(p, if Lapsed(p, Get(m, keys[0]), now) then Without(m, keys[0]) else m, keys[1..], now)
  }

  function Failed(p: Policy, e: Entry, now: int): Entry {
    Entry(e.failures + 1, if e.failures + 1 >= p.limit then Some(now) else e.blockedAt)
  }

  /** Entries after `recordFailure`, and whether it has just blocked one of the keys. */
  function CountFailure(p: Policy, m: Entries, keys: seq<string>, now: int): (Entries, bool) {
    if keys == [] then (m, false)
    else
      var (n, blocked) := CountFailure(p, m, keys[..|keys| - 1], now);
      var key := keys[|keys| - 1];
      var e := Failed(p, Get(n, key), now);
      (n[key := e], blocked || e.failures == p.limit)
  }

  function Forget(m: Entries, keys: seq<string>): Entries {
    if keys == [] then m else Without(Forget(m, keys[..|keys| - 1]), keys[|keys| - 1])
  }

  predicate Later(a: Option<int>, b: Option<int>) {
    a.Some? && (b.None? || a.value > b.value)
  }

  function Merge(p: Policy, m: Entries, key: string, stored: Entry, now: int): Entries {
    if stored.failures <= 0 || Lapsed(p, stored, now) then m
    else
      var e := Get(m, key);
      m[key := Entry(if stored.failures > e.failures then stored.failures else e.failures,
                     if Later(stored.blockedAt, e.blockedAt) then stored.blockedAt else e.blockedAt)]
  }

  class Limiter {
    const policy: Policy
    var entries: Entries

    constructor (failureLimit: int, cooldown: int)
      ensures policy == NewPolicy(failureLimit, cooldown) && entries == map[]
    {
      policy := NewPolicy(failureLimit, cooldown);
      entries := map[];
    }

    method Allow(keys: seq<string>, now: int) returns (allowed: bool)
      modifies this
      ensures (entries, allowed) == Admit(policy, old(entries), keys, now)
    {
      for i := 0 to |keys|
        invariant Admit(policy, entries, keys[i..], now) == Admit(policy, old(entries), keys, now)
      {
        assert keys[i..][0] == keys[i] && keys[i..][1..] == keys[i + 1..];
        var e := Get(entries, keys[i]);
        if Blocked(policy, e, now) {
          return false;
        }
        if Lapsed(policy, e, now) {
          entries := entries - {keys[i]};
        }
      }
      allowed := true;
    }

    method RecordFailure(keys: seq<string>, now: int) returns (blocked: bool)
      modifies this
      ensures (entries, blocked) == CountFailure(policy, old(entries), keys, now)
    {
      blocked := false;
      for i := 0 to |keys|
        invariant (entries, blocked) == CountFailure(policy, old(entries), keys[..i], now)
      {
        assert keys[..i + 1][..i] == keys[..i];
        var e := Get(entries, keys[i]);
        e := e.(failures := e.failures + 1);
        if e.failures >= policy.limit {
          e := e.(blockedAt := Some(now));
        }
        if e.failures == policy.limit {
          blocked := true;
        }
        entries := entries[keys[i] := e];
      }
      assert keys[..|keys|] == keys;
    }

    method Reset(keys: seq<string>)
      modifies this
      ensures entries == Forget(old(entries), keys)
    {
      for i := 0 to |keys|
        invariant entries == Forget(old(entries), keys[..i])
      {
        assert keys[..i + 1][..i] == keys[..i];
        entries := entries - {keys[i]};
      }
      assert keys[..|keys|] == keys;
    }

    method Seed(key: string, stored: Entry, now: int)
      modifies this
      ensures entries == Merge(policy, old(entries), key, stored, now)
    {
      if stored.failures <= 0 || (stored.failures >= policy.limit && Expired(policy, stored, now)) {
        return;
      }
      var e := Get(entries, key);
      if stored.failures > e.failures {
        e := e.(failures := stored.failures);
      }
      if Later(stored.blockedAt, e.blockedAt) {
        e := e.(blockedAt := stored.blockedAt);
      }
      entries := entries[key := e];
    }
  }

  // ---------- Failures in a window ----------

  /** A failed login: the request asks at `asked` and, if let through, records its failure at `failed`. */
  datatype Login = Login(keys: seq<string>, asked: int, failed: int)

  function Serve(p: Policy, m: Entries, r: Login): (Entries, bool) {
    var (n, allowed) := Admit(p, m, r.keys, r.asked);
    if allowed then (CountFailure(p, n, r.keys, r.failed).0, true) else (n, false)
  }

  /** Entries after a run of failed logins, and the times at which one key's failures were counted. */
  function ServeAll(p: Policy, m: Entries, requests: seq<Login>, key: string): (Entries, seq<int>) {
    if requests == [] then (m, [])
    else
      var (n, times) := ServeAll(p, m, requests[..|requests| - 1], key);
      var r := requests[|requests| - 1];
      var (after, allowed) := Serve(p, n, r);
      (after, if allowed && key in r.keys then times + [r.failed] else times)
  }

  predicate NoRepeats(keys: seq<string>) {
    forall i, j :: 0 <= i < j < |keys| ==> keys[i] != keys[j]
  }

  /** Requests run one after another on a clock that never goes back, each naming a key at most once. */
  predicate Orderly(requests: seq<Login>) {
    && (forall i :: 0 <= i < |requests| ==> requests[i].asked <= requests[i].failed && NoRepeats(requests[i].keys))
    && (forall i :: 0 < i < |requests| ==> requests[i - 1].failed <= requests[i].asked)
  }

  /** What admission does to one key's entry. */
  lemma {:induction false} AdmitOnKey(p: Policy, m: Entries, keys: seq<string>, now: int, key: string)
    requires p.Valid()
    ensures var (n, allowed) := Admit(p, m, keys, now);
            && (key !in keys ==> Get(n, key) == Get(m, key) && (key in n <==> key in m))
            && (Get(n, key) == Get(m, key) || (Lapsed(p, Get(m, key), now) && key !in n))
            && (key in keys && allowed ==> if Lapsed(p, Get(m, key), now) then key !in n else Get(n, key) == Get(m, key) && !Blocked(p, Get(m, key), now))
            && (forall other :: other in n ==> other in m && n[other] == m[other])
    decreases |keys|
  {
    hide Blocked, Lapsed;
    if keys != [] && !Blocked(p, Get(m, keys[0]), now) {
      var after := if Lapsed(p, Get(m, keys[0]), now) then Without(m, keys[0]) else m;
      AdmitOnKey(p, after, keys[1..], now, key);
      EmptyIsNeither(p, now);
    }
  }

  lemma EmptyIsNeither(p: Policy, now: int)
    requires p.Valid()
    ensures !Blocked(p, NO_ENTRY, now) && !Lapsed(p, NO_ENTRY, now)
  {
  }

  lemma {:induction false} CountOnKey(p: Policy, m: Entries, keys: seq<string>, now: int, key: string)
    requires NoRepeats(keys)
    ensures var n := CountFailure(p, m, keys, now).0;
            && (key !in keys ==> Get(n, key) == Get(m, key) && (key in n <==> key in m))
            && (key in keys ==> key in n && n[key] == Failed(p, Get(m, key), now))
    decreases |keys|
  {
    if keys != [] {
      var init := keys[..|keys| - 1];
      CountOnKey(p, m, init, now, key);
      assert keys == init + [keys[|keys| - 1]];
      if key == keys[|keys| - 1] {
        assert key !in init;
      }
    }
  }

  /** Any limit + 1 failures in a row span at least a cooldown. */
  ghost predicate Spaced(p: Policy, times: seq<int>) {
    forall i, j :: 0 <= i < j < |times| && j - i == p.limit ==> times[j] >= times[i] + p.cooldown
  }

  ghost predicate Sorted(times: seq<int>) {
    forall i, j :: 0 <= i < j < |times| ==> times[i] <= times[j]
  }

  /** An entry accounts for the last `failures` times, which began a cooldown after the block before them. */
  ghost predicate Accounts(p: Policy, e: Entry, times: seq<int>, now: int) {
    && p.limit >= 1 && 0 <= e.failures <= p.limit && e.failures <= |times|
    && Sorted(times) && Spaced(p, times)
    && (times != [] ==> times[|times| - 1] <= now)
    && (e.failures == p.limit ==> e.blockedAt == Some(times[|times| - 1]))
    && (0 < e.failures < |times| ==> times[|times| - e.failures] >= times[|times| - e.failures - 1] + p.cooldown)
    && (e.failures == 0 && times != [] ==> now >= times[|times| - 1] + p.cooldown)
  }

  lemma AccountsLater(p: Policy, e: Entry, times: seq<int>, now: int, later: int)
    requires Accounts(p, e, times, now) && now <= later
    ensures Accounts(p, e, times, later)
  {
  }

  lemma AccountsLapsed(p: Policy, e: Entry, times: seq<int>, now: int)
    requires p.Valid() && Accounts(p, e, times, now) && Lapsed(p, e, now)
    ensures Accounts(p, NO_ENTRY, times, now)
  {
  }

  lemma SpacedOneMore(p: Policy, times: seq<int>, failures: nat, now: int)
    requires p.Valid() && Sorted(times) && Spaced(p, times) && failures < p.limit && failures <= |times|
    requires times != [] ==> times[|times| - 1] <= now
    requires failures < |times| ==> (if failures == 0 then now else times[|times| - failures]) >= times[|times| - failures - 1] + p.cooldown
    ensures Sorted(times + [now]) && Spaced(p, times + [now])
  {
    var longer := times + [now];
    forall i, j | 0 <= i < j < |longer| && j - i == p.limit ensures longer[j] >= longer[i] + p.cooldown {
      if j == |times| {
        var k := |times| - failures;
        assert i < k - 1 ==> times[i] <= times[k - 1];
        assert failures > 0 && k < |times| - 1 ==> times[k] <= times[|times| - 1];
      }
    }
  }

  lemma AccountsFailure(p: Policy, e: Entry, times: seq<int>, now: int)
    requires p.Valid() && Accounts(p, e, times, now) && e.failures < p.limit
    ensures Accounts(p, Failed(p, e, now), times + [now], now)
  {
    SpacedOneMore(p, times, e.failures, now);
    hide Spaced, Sorted;
  }

  lemma ServeOnKey(p: Policy, m: Entries, r: Login, key: string, times: seq<int>, now: int)
    requires p.Valid() && NoRepeats(r.keys) && now <= r.asked <= r.failed
    requires Accounts(p, Get(m, key), times, now)
    ensures var (n, allowed) := Serve(p, m, r);
            Accounts(p, Get(n, key), if allowed && key in r.keys then times + [r.failed] else times, r.failed)
  {
    hide Admit, CountFailure, Accounts, Lapsed, Expired;
    var (n, allowed) := Admit(p, m, r.keys, r.asked);
    AdmitOnKey(p, m, r.keys, r.asked, key);
    AccountsLater(p, Get(m, key), times, now, r.asked);
    if Lapsed(p, Get(m, key), r.asked) {
      AccountsLapsed(p, Get(m, key), times, r.asked);
    }
    AccountsLater(p, Get(n, key), times, r.asked, r.failed);
    if allowed {
      CountOnKey(p, n, r.keys, r.failed, key);
      if key in r.keys {
        NotFull(p, Get(m, key), Get(n, key), times, r.asked);
        AccountsFailure(p, Get(n, key), times, r.failed);
      }
    }
  }

  lemma NotFull(p: Policy, before: Entry, after: Entry, times: seq<int>, now: int)
    requires p.Valid()
    requires if Lapsed(p, before, now) then after == NO_ENTRY else after == before && !Blocked(p, before, now)
    ensures after.failures < p.limit
  {
  }

  lemma {:induction false} ServeAllAccounts(p: Policy, requests: seq<Login>, key: string, now: int)
    requires p.Valid() && Orderly(requests) && (requests != [] ==> now >= requests[|requests| - 1].failed)
    ensures var (n, times) := ServeAll(p, map[], requests, key); Accounts(p, Get(n, key), times, now)
    decreases |requests|
  {
    hide Serve, Accounts, NoRepeats;
    if requests == [] {
      NothingYet(p, now);
    } else {
      var init, r := requests[..|requests| - 1], requests[|requests| - 1];
      ServeAllAccounts(p, init, key, r.asked);
      var (n, times) := ServeAll(p, map[], init, key);
      ServeOnKey(p, n, r, key, times, r.asked);
      var (after, all) := ServeAll(p, map[], requests, key);
      AccountsLater(p, Get(after, key), all, r.failed, now);
    }
  }

  lemma NothingYet(p: Policy, now: int)
    requires p.Valid()
    ensures Accounts(p, NO_ENTRY, [], now)
  {
  }

  /** How many of the times fall into [from, to). */
  function CountIn(times: seq<int>, from: int, to: int): nat {
    if times == [] then 0
    else CountIn(times[..|times| - 1], from, to) + (if from <= times[|times| - 1] < to then 1 else 0)
  }

  lemma {:induction false} CountInBefore(times: seq<int>, from: int, to: int, n: nat)
    requires Sorted(times) && n <= |times| && (forall i :: 0 <= i < n ==> times[i] < from)
    ensures CountIn(times, from, to) <= |times| - n
    decreases |times|
  {
    if |times| > 0 {
      CountInBefore(times[..|times| - 1], from, to, if n == |times| then n - 1 else n);
    }
  }

  lemma {:induction false} WindowCount(p: Policy, times: seq<int>, from: int)
    requires p.Valid() && Sorted(times) && Spaced(p, times)
    ensures CountIn(times, from, from + p.cooldown) <= p.limit
    decreases |times|
  {
    if |times| > p.limit {
      var last := times[|times| - 1];
      var init := times[..|times| - 1];
      if from <= last < from + p.cooldown {
        var n := |times| - p.limit;
        forall i | 0 <= i < n ensures times[i] < from {
          assert times[|times| - 1] >= times[n - 1] + p.cooldown;
          assert i < n - 1 ==> times[i] <= times[n - 1];
        }
        CountInBefore(times, from, from + p.cooldown, n);
      } else {
        WindowCount(p, init, from);
      }
    } else {
      CountInBefore(times, from, from + p.cooldown, 0);
    }
  }

  /** However failed logins arrive, no half-open window as long as the cooldown holds more than the limit of counted failures for a key. */
  lemma FailuresInWindow(p: Policy, requests: seq<Login>, key: string, from: int)
    requires p.Valid() && Orderly(requests)
    ensures CountIn(ServeAll(p, map[], requests, key).1, from, from + p.cooldown) <= p.limit
  {
    ServeAllAccounts(p, requests, key, if requests == [] then 0 else requests[|requests| - 1].failed);
    WindowCount(p, ServeAll(p, map[], requests, key).1, from);
  }
}
