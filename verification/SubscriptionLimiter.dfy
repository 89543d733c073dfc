/**
 The fixed-window limiter on subscription requests.

 One map holds the open window of every client. Starting a window sweeps out the windows that have
 ended, whoever they belong to.
 */
module SubscriptionLimiter {
  import opened Outcome
  import LoginLimiter

  const REQUEST_LIMIT := 30
  const WINDOW_LENGTH := 60 * 1000000000

  /** The limit and window the program uses are one instance. */
  datatype Rate = Rate(limit: int, length: int) {
    predicate Valid() {
      limit >= 1 && length >= 1
    }
  }

  const SUBSCRIPTION_RATE := Rate(REQUEST_LIMIT, WINDOW_LENGTH)

  datatype Window = Window(count: int, start: int)

  type Windows = map<string, Window>

  predicate Ended(r: Rate, w: Window, now: int) {
    now - w.start >= r.length
  }

  function Swept(r: Rate, m: Windows, now: int): Windows {
    map key | key in m && !Ended(r, m[key], now) :: m[key]
  }

  /** The shared map after a request, and the answer. */
  function Ask(r: Rate, m: Windows, key: string, now: int): (Windows, bool) {
    if key !in m || Ended(r, m[key], now) then (Swept(r, m, now)[key := Window(1, now)], true)
    else if m[key].count >= r.limit then (m, false)
    else (m[key := Window(m[key].count + 1, m[key].start)], true)
  }

  class RateLimiter {
    const rate: Rate
    var entries: Windows

    constructor ()
      ensures entries == map[] && rate == SUBSCRIPTION_RATE
    {
      entries := map[];
      rate := SUBSCRIPTION_RATE;
    }

    method Allow(key: string, now: int) returns (allowed: bool)
      modifies this
      ensures (entries, allowed) == Ask(rate, old(entries), key, now)
    {
      if key !in entries || Ended(rate, entries[key], now) {
        Cleanup(now);
        entries := entries[key := Window(1, now)];
        return true;
      }
      var entry := entries[key];
      if entry.count >= rate.limit {
        return false;
      }
      entry := entry.(count := entry.count + 1);
      entries := entries[key := entry];
      allowed := true;
    }

    method Cleanup(now: int)
      modifies this
      ensures entries == Swept(rate, old(entries), now)
    {
      var before := entries;
      var left := before.Keys;
      while left != {}
        invariant left <= before.Keys
        invariant forall key :: key in entries <==> key in before && (key in left || !Ended(rate, before[key], now))
        invariant forall key :: key in entries ==> entries[key] == before[key]
        decreases left
      {
        var key :| key in left;
        left := left - {key};
        if Ended(rate, before[key], now) {
          entries := entries - {key};
        }
      }
    }
  }

  // ---------- Sweeping is never noticed ----------

  datatype Request = Request(key: string, at: int)

  /** A limiter of a single client, which never forgets its last window. */
  function AskAlone(r: Rate, w: Option<Window>, now: int): (Option<Window>, bool) {
    if w.None? || Ended(r, w.value, now) then (Some(Window(1, now)), true)
    else if w.value.count >= r.limit then (w, false)
    else (Some(Window(w.value.count + 1, w.value.start)), true)
  }

  function Shared(r: Rate, requests: seq<Request>): (Windows, seq<bool>) {
    if requests == [] then (map[], [])
    else
      var last := requests[|requests| - 1];
      var (m, answers) := Shared(r, requests[..|requests| - 1]);
      var (n, allowed) := Ask(r, m, last.key, last.at);
      (n, answers + [allowed])
  }

  /** The window of one client's own limiter after the requests, only its own having reached it. */
  function Own(r: Rate, requests: seq<Request>, key: string): Option<Window> {
    if requests == [] then None
    else
      var last := requests[|requests| - 1];
      var w := Own(r, requests[..|requests| - 1], key);
      if last.key == key then AskAlone(r, w, last.at).0 else w
  }

  /** A clock that never goes back. */
  predicate Ordered(requests: seq<Request>) {
    forall i :: 0 < i < |requests| ==> requests[i - 1].at <= requests[i].at
  }

  /** The shared map holds a client's own window, or has swept it after its end. */
  ghost predicate Agrees(r: Rate, m: Windows, key: string, w: Option<Window>, now: int) {
    if key in m then w == Some(m[key]) else w.None? || Ended(r, w.value, now)
  }

  lemma AskAgrees(r: Rate, m: Windows, asked: string, key: string, w: Option<Window>, was: int, now: int)
    requires was <= now && Agrees(r, m, key, w, was)
    ensures Agrees(r, Ask(r, m, asked, now).0, key, if asked == key then AskAlone(r, w, now).0 else w, now)
    ensures asked == key ==> Ask(r, m, asked, now).1 == AskAlone(r, w, now).1
  {
  }

  lemma {:induction false} SharedAgrees(r: Rate, requests: seq<Request>, key: string, now: int)
    requires Ordered(requests) && (requests != [] ==> requests[|requests| - 1].at <= now)
    ensures Agrees(r, Shared(r, requests).0, key, Own(r, requests, key), now)
    decreases |requests|
  {
    hide Ask, AskAlone, Agrees;
    if requests == [] {
      EmptyAgrees(r, key, now);
    } else {
      var last := requests[|requests| - 1];
      var init := requests[..|requests| - 1];
      SharedAgrees(r, init, key, last.at);
      AskAgrees(r, Shared(r, init).0, last.key, key, Own(r, init, key), last.at, last.at);
      AgreesLater(r, Shared(r, requests).0, key, Own(r, requests, key), last.at, now);
    }
  }

  lemma EmptyAgrees(r: Rate, key: string, now: int)
    ensures Agrees(r, map[], key, None, now)
  {
  }

  lemma AgreesLater(r: Rate, m: Windows, key: string, w: Option<Window>, was: int, now: int)
    requires Agrees(r, m, key, w, was) && was <= now
    ensures Agrees(r, m, key, w, now)
  {
  }

  lemma {:induction false} SharedPrefix(r: Rate, requests: seq<Request>, n: nat)
    requires n <= |requests|
    ensures |Shared(r, requests).1| == |requests|
    ensures Shared(r, requests[..n]).1 == Shared(r, requests).1[..n]
    decreases |requests|
  {
    hide Ask;
    if n == |requests| {
      assert requests[..n] == requests;
      if n > 0 {
        SharedPrefix(r, requests[..n - 1], n - 1);
      }
      var answers := Shared(r, requests).1;
      assert answers[..|answers|] == answers;
    } else {
      SharedPrefix(r, requests[..|requests| - 1], n);
      assert requests[..|requests| - 1][..n] == requests[..n];
    }
  }

  /** Every answer of the shared limiter is the answer the client's own limiter would have given. */
  lemma SharedRefinesOwn(r: Rate, requests: seq<Request>, i: nat)
    requires Ordered(requests) && i < |requests|
    ensures i < |Shared(r, requests).1|
    ensures Shared(r, requests).1[i] == AskAlone(r, Own(r, requests[..i], requests[i].key), requests[i].at).1
  {
    hide Ask, AskAlone;
    var upto := requests[..i + 1];
    SharedPrefix(r, requests, i + 1);
    assert upto[..i] == requests[..i] && upto[i] == requests[i];
    SharedPrefix(r, upto, i);
    SharedAgrees(r, requests[..i], requests[i].key, requests[i].at);
    AskAgrees(r, Shared(r, requests[..i]).0, requests[i].key, requests[i].key, Own(r, requests[..i], requests[i].key), requests[i].at, requests[i].at);
    assert Shared(r, upto).1[i] == Shared(r, requests).1[i];
  }

  // ---------- The sliding bound ----------

  /** The admitted requests of a client, each with the start of the window it was counted in. */
  datatype Log = Log(times: seq<int>, starts: seq<int>)

  /** What the shared limiter admitted for a client. */
  function Admitted(r: Rate, requests: seq<Request>, key: string): (l: Log)
    ensures |l.times| == |l.starts|
  {
    if requests == [] then Log([], [])
    else
      var last := requests[|requests| - 1];
      var init := requests[..|requests| - 1];
      var l := Admitted(r, init, key);
      var (n, allowed) := Ask(r, Shared(r, init).0, last.key, last.at);
      if allowed && last.key == key then Log(l.times + [last.at], l.starts + [n[key].start]) else l
  }

  /** An admission lies in its window, which it opens or shares with the one before, and no window holds more than the limit. */
  ghost predicate Placed(r: Rate, l: Log, i: nat)
    requires r.Valid() && i < |l.times| == |l.starts|
  {
    && l.starts[i] <= l.times[i] < l.starts[i] + r.length
    && (i > 0 ==> l.times[i - 1] <= l.times[i] && (l.starts[i] == l.starts[i - 1] || l.starts[i] >= l.starts[i - 1] + r.length))
    && (i == 0 || l.starts[i] != l.starts[i - 1] ==> l.times[i] == l.starts[i])
    && (i >= r.limit ==> l.starts[i] != l.starts[i - r.limit])
  }

  ghost predicate Windowed(r: Rate, l: Log) {
    r.Valid() && |l.times| == |l.starts| && forall i :: 0 <= i < |l.times| ==> Placed(r, l, i)
  }

  /** The client's window counts the tail of the log that shares its start. */
  ghost predicate Counts(r: Rate, w: Option<Window>, l: Log, now: int) {
    && Windowed(r, l)
    && (l.times != [] ==> l.times[|l.times| - 1] <= now)
    && (w.None? <==> l.times == [])
    && (w.Some? ==>
          && 1 <= w.value.count <= r.limit && w.value.count <= |l.times|
          && (forall i :: |l.times| - w.value.count <= i < |l.times| ==> l.starts[i] == w.value.start)
          && (w.value.count < |l.times| ==> l.starts[|l.times| - w.value.count - 1] != w.value.start))
  }

  lemma {:induction false} StartsGrow(r: Rate, l: Log, i: nat, j: nat)
    requires Windowed(r, l) && i <= j < |l.starts|
    ensures l.starts[i] == l.starts[j] || l.starts[i] + r.length <= l.starts[j]
    ensures l.times[i] <= l.times[j]
    decreases j
  {
    if i < j {
      assert Placed(r, l, j);
      StartsGrow(r, l, i, j - 1);
    }
  }

  /** Two requests a limit apart were counted in different windows. */
  lemma StartsApart(r: Rate, l: Log, i: nat)
    requires Windowed(r, l) && i + r.limit < |l.starts|
    ensures l.starts[i] + r.length <= l.starts[i + r.limit]
  {
    StartsGrow(r, l, i, i + r.limit);
    assert Placed(r, l, i + r.limit);
  }

  lemma WindowedOneMore(r: Rate, l: Log, start: int, now: int)
    requires Windowed(r, l) && start <= now < start + r.length
    requires l.times != [] ==> l.times[|l.times| - 1] <= now
    requires var n := |l.starts|; n > 0 ==> start == l.starts[n - 1] || start >= l.starts[n - 1] + r.length
    requires var n := |l.starts|; n == 0 || start != l.starts[n - 1] ==> start == now
    requires |l.starts| >= r.limit ==> start != l.starts[|l.starts| - r.limit]
    ensures Windowed(r, Log(l.times + [now], l.starts + [start]))
  {
    var longer := Log(l.times + [now], l.starts + [start]);
    forall i | 0 <= i < |longer.times| ensures Placed(r, longer, i) {
      if i < |l.times| {
        assert Placed(r, l, i);
      }
    }
  }

  lemma CountsNew(r: Rate, w: Option<Window>, l: Log, now: int)
    requires Counts(r, w, l, now) && (w.None? || Ended(r, w.value, now))
    ensures Counts(r, Some(Window(1, now)), Log(l.times + [now], l.starts + [now]), now)
  {
    var n := |l.times|;
    if n > 0 {
      assert l.starts[n - 1] == w.value.start;
    }
    if n >= r.limit {
      StartsGrow(r, l, n - r.limit, n - 1);
    }
    WindowedOneMore(r, l, now, now);
    hide Windowed;
  }

  lemma CountsOneMore(r: Rate, w: Window, l: Log, now: int)
    requires Counts(r, Some(w), l, now) && !Ended(r, w, now) && w.count < r.limit
    ensures Counts(r, Some(Window(w.count + 1, w.start)), Log(l.times + [now], l.starts + [w.start]), now)
  {
    var n := |l.times|;
    assert l.starts[n - 1] == w.start;
    assert Placed(r, l, n - 1);
    if n >= r.limit {
      var k := n - w.count - 1;
      assert l.starts[k + 1] == w.start;
      StartsGrow(r, l, n - r.limit, k);
      StartsGrow(r, l, k, k + 1);
    }
    WindowedOneMore(r, l, w.start, now);
    hide Windowed;
  }

  lemma CountsAfter(r: Rate, w: Option<Window>, l: Log, now: int)
    requires Counts(r, w, l, now)
    ensures var (n, allowed) := AskAlone(r, w, now);
            Counts(r, n, if allowed then Log(l.times + [now], l.starts + [n.value.start]) else l, now)
  {
    hide Counts, Ended;
    if w.None? || Ended(r, w.value, now) {
      CountsNew(r, w, l, now);
    } else if w.value.count < r.limit {
      CountsOneMore(r, w.value, l, now);
    }
  }

  /** The window the shared map answers from is the client's own. */
  lemma SameWindow(r: Rate, m: Windows, key: string, w: Option<Window>, now: int)
    requires Agrees(r, m, key, w, now)
    ensures var (n, allowed) := Ask(r, m, key, now); var (u, alone) := AskAlone(r, w, now);
            allowed == alone && u.Some? && (allowed ==> key in n && n[key] == u.value)
  {
  }

  lemma {:induction false} AdmittedCounts(r: Rate, requests: seq<Request>, key: string, now: int)
    requires r.Valid() && Ordered(requests) && (requests != [] ==> requests[|requests| - 1].at <= now)
    ensures Counts(r, Own(r, requests, key), Admitted(r, requests, key), now)
    decreases |requests|
  {
    hide Ask, AskAlone, Counts;
    if requests == [] {
      NothingCounted(r, now);
    } else {
      var last := requests[|requests| - 1];
      var init := requests[..|requests| - 1];
      AdmittedCounts(r, init, key, last.at);
      SharedAgrees(r, init, key, last.at);
      if last.key == key {
        SameWindow(r, Shared(r, init).0, key, Own(r, init, key), last.at);
        CountsAfter(r, Own(r, init, key), Admitted(r, init, key), last.at);
      }
      CountsLater(r, Own(r, requests, key), Admitted(r, requests, key), last.at, now);
    }
  }

  lemma NothingCounted(r: Rate, now: int)
    requires r.Valid()
    ensures Counts(r, None, Log([], []), now)
  {
  }

  lemma CountsLater(r: Rate, w: Option<Window>, l: Log, was: int, now: int)
    requires Counts(r, w, l, was) && was <= now
    ensures Counts(r, w, l, now)
  {
  }

  /** One admission more than twice the limit spans over a length. */
  lemma SpreadOver(r: Rate, l: Log, i: nat)
    requires Windowed(r, l) && i + 2 * r.limit < |l.times|
    ensures l.times[i + 2 * r.limit] >= l.starts[i] + 2 * r.length
    ensures l.times[i + 2 * r.limit] > l.times[i] + r.length
  {
    assert Placed(r, l, i) && Placed(r, l, i + 2 * r.limit);
    hide Windowed;
    StartsApart(r, l, i);
    StartsApart(r, l, i + r.limit);
  }

  /** Twice the limit of admissions span a length. */
  lemma Spread(r: Rate, l: Log, i: nat)
    requires Windowed(r, l) && i + 2 * r.limit - 1 < |l.times|
    ensures l.times[i + 2 * r.limit - 1] >= l.times[i] + r.length
  {
    var j := i + 2 * r.limit - 1;
    assert Placed(r, l, i) && Placed(r, l, j);
    hide Windowed;
    if i == 0 || l.starts[i] != l.starts[i - 1] {
      StartsApart(r, l, i);
      StartsGrow(r, l, i + r.limit, j);
    } else {
      SpreadOver(r, l, i - 1);
    }
  }

  /**
   However requests arrive, the limiter lets through at most twice the limit of a client's requests in
   any closed interval as long as the window, and at most one fewer in a half-open one.
   */
  lemma SlidingBound(r: Rate, requests: seq<Request>, key: string, from: int)
    requires r.Valid() && Ordered(requests)
    ensures LoginLimiter.CountIn(Admitted(r, requests, key).times, from, from + r.length) <= 2 * r.limit - 1
    ensures LoginLimiter.CountIn(Admitted(r, requests, key).times, from, from + r.length + 1) <= 2 * r.limit
  {
    hide Windowed, Ask, Shared, Own, Admitted, LoginLimiter.Spaced, LoginLimiter.Sorted, LoginLimiter.CountIn;
    AdmittedCounts(r, requests, key, if requests == [] then 0 else requests[|requests| - 1].at);
    var l := Admitted(r, requests, key);
    Spacing(r, l);
    LoginLimiter.WindowCount(LoginLimiter.Policy(2 * r.limit - 1, r.length), l.times, from);
    LoginLimiter.WindowCount(LoginLimiter.Policy(2 * r.limit, r.length + 1), l.times, from);
  }

  lemma Spacing(r: Rate, l: Log)
    requires Windowed(r, l)
    ensures LoginLimiter.Sorted(l.times)
    ensures LoginLimiter.Spaced(LoginLimiter.Policy(2 * r.limit - 1, r.length), l.times)
    ensures LoginLimiter.Spaced(LoginLimiter.Policy(2 * r.limit, r.length + 1), l.times)
  {
    forall i, j | 0 <= i < j < |l.times| ensures l.times[i] <= l.times[j] {
      StartsGrow(r, l, i, j);
    }
    forall i, j | 0 <= i < j < |l.times| && j - i == 2 * r.limit - 1 ensures l.times[j] >= l.times[i] + r.length {
      Spread(r, l, i);
    }
    forall i, j | 0 <= i < j < |l.times| && j - i == 2 * r.limit ensures l.times[j] >= l.times[i] + r.length + 1 {
      SpreadOver(r, l, i);
    }
  }

  /** Inside one window the count is exact: the first requests up to the limit pass and the rest are refused. */
  lemma {:induction false} Burst(r: Rate, m: Windows, key: string, times: seq<int>)
    requires r.Valid() && times != [] && (key !in m || Ended(r, m[key], times[0]))
    requires forall i :: 0 <= i < |times| ==> times[0] <= times[i] < times[0] + r.length
    ensures var (n, answers) := AskAll(r, m, key, times);
            && key in n && n[key] == Window(if |times| <= r.limit then |times| else r.limit, times[0])
            && |answers| == |times|
            && forall i :: 0 <= i < |times| ==> (answers[i] <==> i < r.limit)
    decreases |times|
  {
    if |times| > 1 {
      var init := times[..|times| - 1];
      assert init[0] == times[0];
      Burst(r, m, key, init);
    } else {
      assert times[..0] == [];
    }
  }

  function AskAll(r: Rate, m: Windows, key: string, times: seq<int>): (Windows, seq<bool>) {
    if times == [] then (m, [])
    else
      var (n, answers) := AskAll(r, m, key, times[..|times| - 1]);
      var (u, allowed) := Ask(r, n, key, times[|times| - 1]);
      (u, answers + [allowed])
  }
}
