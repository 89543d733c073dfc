/** Who is let through, in the terms of the counted failures alone. */
module LoginMeaning {
  import opened Outcome
  import opened LoginLimiter
  import SubscriptionLimiter

  /** The key's failures have reached the limit, and the cooldown since the last one is not over. */
  predicate Barred(p: Policy, m: Entries, key: string, now: int) {
    key in m && m[key].failures >= p.limit && m[key].blockedAt.Some? && now < m[key].blockedAt.value + p.cooldown
  }

  /** A question about several keys is refused exactly if one of them is barred, wherever it stands. */
  lemma {:induction false} AllowedIff(p: Policy, m: Entries, keys: seq<string>, now: int)
    requires p.Valid()
    ensures Admit(p, m, keys, now).1 <==> forall key :: key in keys ==> !Barred(p, m, key, now)
    decreases |keys|
  {
    if keys != [] {
      var first, rest := keys[0], keys[1..];
      var after := if Lapsed(p, Get(m, first), now) then Without(m, first) else m;
      AllowedIff(p, after, rest, now);
      BarredIsBlocked(p, m, first, now);
      forall key | key in rest ensures Barred(p, after, key, now) <==> Barred(p, m, key, now) {
        BarredIsBlocked(p, m, key, now);
      }
      assert forall key :: key in keys <==> key == first || key in rest;
      hide Barred, Blocked, Lapsed;
    }
  }

  lemma BarredIsBlocked(p: Policy, m: Entries, key: string, now: int)
    requires p.Valid()
    ensures Barred(p, m, key, now) <==> Blocked(p, Get(m, key), now)
    ensures Lapsed(p, Get(m, key), now) ==> !Barred(p, m, key, now)
  {
  }

  /** Entries after failures of one key at the given times, starting from none. */
  function FailuresOf(p: Policy, key: string, times: seq<int>): Entries {
    if times == [] then map[] else CountFailure(p, FailuresOf(p, key, times[..|times| - 1]), [key], times[|times| - 1]).0
  }

  lemma {:induction false} FailuresAre(p: Policy, key: string, times: seq<int>)
    requires p.Valid() && times != []
    ensures FailuresOf(p, key, times) == map[key := Entry(|times|, if |times| >= p.limit then Some(times[|times| - 1]) else None)]
    decreases |times|
  {
    var init := times[..|times| - 1];
    if init != [] {
      FailuresAre(p, key, init);
    }
    var m := FailuresOf(p, key, init);
    assert [key][..0] == [] && CountFailure(p, m, [key][..0], times[|times| - 1]) == (m, false);
  }

  /** After some failures and nothing else, the next question is answered yes exactly if they are fewer than the limit or the cooldown since the last is over. */
  lemma AfterFailures(p: Policy, key: string, times: seq<int>, now: int)
    requires p.Valid() && times != []
    ensures Admit(p, FailuresOf(p, key, times), [key], now).1 <==> |times| < p.limit || now >= times[|times| - 1] + p.cooldown
  {
    FailuresAre(p, key, times);
    AllowedIff(p, FailuresOf(p, key, times), [key], now);
    hide Admit, FailuresOf;
    assert forall k :: k in [key] <==> k == key;
  }

  predicate NoRepeats(keys: seq<string>) {
    forall i, j :: 0 <= i < j < |keys| ==> keys[i] != keys[j]
  }

  function Failures(m: Entries, key: string): int {
    if key in m then m[key].failures else 0
  }

  /** Counting a failure of different keys: each has one more and is barred from now on if that reaches the limit; no other key changes. */
  lemma {:induction false} FailureCounts(p: Policy, m: Entries, keys: seq<string>, now: int, key: string)
    requires NoRepeats(keys)
    ensures var n := CountFailure(p, m, keys, now).0;
            if key in keys then key in n && n[key].failures == Failures(m, key) + 1 && (n[key].failures >= p.limit ==> n[key].blockedAt == Some(now))
            else (key in n <==> key in m) && (key in m ==> n[key] == m[key])
    decreases |keys|
  {
    if keys != [] {
      var init, last := keys[..|keys| - 1], keys[|keys| - 1];
      FailureCounts(p, m, init, now, key);
      assert keys == init + [last];
      assert last !in init;
    }
  }

  /** The answer says whether the limit was reached just now, for any of the keys. */
  lemma {:induction false} FailureReports(p: Policy, m: Entries, keys: seq<string>, now: int)
    requires NoRepeats(keys)
    ensures CountFailure(p, m, keys, now).1 <==> exists i :: 0 <= i < |keys| && Failures(m, keys[i]) + 1 == p.limit
    decreases |keys|
  {
    if keys != [] {
      var n := |keys| - 1;
      var init, last := keys[..n], keys[n];
      FailureReports(p, m, init, now);
      assert last !in init;
      FailureCounts(p, m, init, now, last);
      assert forall i :: 0 <= i < n ==> init[i] == keys[i];
    }
  }

  /** A success forgets exactly its keys. */
  lemma {:induction false} SuccessForgets(m: Entries, keys: seq<string>)
    ensures forall key :: key in Forget(m, keys) <==> key in m && key !in keys
    ensures forall key :: key in Forget(m, keys) ==> Forget(m, keys)[key] == m[key]
    decreases |keys|
  {
    if keys != [] {
      var init, last := keys[..|keys| - 1], keys[|keys| - 1];
      SuccessForgets(m, init);
      assert keys == init + [last];
    }
  }

  /** What is stored only raises what memory knows, and only as long as it still matters. */
  lemma StoredOnlyRaises(p: Policy, m: Entries, key: string, stored: Entry, now: int)
    ensures var n := Merge(p, m, key, stored, now);
            && (forall other :: other != key ==> (other in n <==> other in m) && (other in m ==> n[other] == m[other]))
            && if stored.failures <= 0 || (stored.failures >= p.limit && (stored.blockedAt.None? || now >= stored.blockedAt.value + p.cooldown)) then n == m
               else
                 && key in n && n[key].failures >= stored.failures && (key in m ==> n[key].failures >= m[key].failures)
                 && (n[key].failures == stored.failures || (key in m && n[key].failures == m[key].failures))
                 && (stored.blockedAt.Some? ==> n[key].blockedAt.Some? && n[key].blockedAt.value >= stored.blockedAt.value)
                 && (key in m && m[key].blockedAt.Some? ==> n[key].blockedAt.Some? && n[key].blockedAt.value >= m[key].blockedAt.value)
                 && (n[key].blockedAt == stored.blockedAt || (key in m && n[key].blockedAt == m[key].blockedAt))
  {
  }

  /** Five failures and five minutes, thirty requests a minute, unless configured otherwise. */
  lemma Defaults()
    ensures NewPolicy(0, 0) == Policy(5, 300_000_000_000) && SubscriptionLimiter.SUBSCRIPTION_RATE == SubscriptionLimiter.Rate(30, 60_000_000_000)
    ensures forall limit, cooldown :: limit > 0 && cooldown > 0 ==> NewPolicy(limit, cooldown) == Policy(limit, cooldown)
  {
  }
}
