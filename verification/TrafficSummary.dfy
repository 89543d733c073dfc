/**
 Summing up traffic states: statuses that join, an inbound summarised from its own counter or from its
 clients, and coverage counts.

 Times are whole readings of a clock, None for the empty text, and rates are exact.
 */
module TrafficSummary {
  import opened Outcome
  import opened Text

  const STALE_AFTER := 180 * 1000000000

  // ---------- Joining statuses ----------

  /** `low` gives way to everything but the empty text, and `high` stands for a mixture. */
  function Join(a: string, b: string, low: string, high: string): string {
    if a == "" then b
    else if b == "" || a == b then a
    else if a == low then b
    else if b == low then a
    else high
  }

  /** Nothing, low, any one text, high. */
  predicate AtMost(a: string, b: string, low: string, high: string) {
    a == "" || a == b || b == high || (a == low && b != "")
  }

  lemma JoinLaws(a: string, b: string, c: string, low: string, high: string)
    requires low != high && low != "" && high != ""
    ensures Join(a, b, low, high) == Join(b, a, low, high)
    ensures Join(Join(a, b, low, high), c, low, high) == Join(a, Join(b, c, low, high), low, high)
    ensures Join(a, a, low, high) == a && Join("", a, low, high) == a
    ensures AtMost(a, Join(a, b, low, high), low, high)
    ensures AtMost(a, c, low, high) && AtMost(b, c, low, high) ==> AtMost(Join(a, b, low, high), c, low, high)
  {
  }

  const LOW := "not_configured"
  const HIGH := "partial"

  function Combine(current: string, next: string): (s: string)
    ensures Trim(s) == s
  {
    TrimSettles(current);
    TrimSettles(next);
    assert Trim(HIGH) == HIGH;
    Join(Trim(current), Trim(next), LOW, HIGH)
  }

  /** The combination is the least status that covers both, so it commutes, associates and repeats. */
  lemma CombineIsJoin(a: string, b: string, c: string)
    ensures Combine(a, b) == Combine(b, a)
    ensures Combine(Combine(a, b), c) == Combine(a, Combine(b, c))
    ensures Combine(a, a) == Trim(a) && Combine("", a) == Trim(a)
    ensures AtMost(Trim(a), Combine(a, b), LOW, HIGH) && AtMost(Trim(b), Combine(a, b), LOW, HIGH)
    ensures AtMost(Trim(a), Trim(c), LOW, HIGH) && AtMost(Trim(b), Trim(c), LOW, HIGH) ==> AtMost(Combine(a, b), Trim(c), LOW, HIGH)
  {
    assert Trim("") == "";
    hide Trim, Join, AtMost;
    assert LOW[0] != HIGH[0];
    JoinLaws(Trim(a), Trim(b), Trim(c), LOW, HIGH);
    JoinLaws(Trim(b), Trim(a), Trim(c), LOW, HIGH);
  }

  // ---------- One inbound ----------

  datatype State = State(totalUp: int, totalDown: int, deltaUp: int, deltaDown: int, rateUp: real, rateDown: real, window: real,
                         status: string, lastSeen: Option<int>)

  datatype Client = Client(id: int, enabled: bool, state: Option<State>)

  datatype Summary = Summary(up: int, down: int, total: int, deltaUp: int, deltaDown: int, rateUp: real, rateDown: real, rateTotal: real,
                             window: real, status: string, source: string, lastSampled: Option<int>)

  function Fresh(s: State, now: int): State {
    var status := Trim(s.status);
    if s.lastSeen.None? || status in {"stale", "unsupported", "not_configured"} || now - s.lastSeen.value <= STALE_AFTER then s
    else s.(status := "stale", deltaUp := 0, deltaDown := 0, rateUp := 0.0, rateDown := 0.0, window := 0.0)
  }

  function StatusOf(s: State): string {
    if Trim(s.status) == "" then "waiting" else Trim(s.status)
  }

  const WAITING := Summary(0, 0, 0, 0, 0, 0.0, 0.0, 0.0, 0.0, "waiting", "migate", None)

  /** Totals are those of the state; the rest is what is still fresh of it. */
  function Summarize(state: Option<State>, source: string, now: int): Summary {
    if state.None? then WAITING
    else
      var s, f := state.value, Fresh(state.value, now);
      Summary(s.totalUp, s.totalDown, s.totalUp + s.totalDown, f.deltaUp, f.deltaDown, f.rateUp, f.rateDown, f.rateUp + f.rateDown,
              f.window, StatusOf(f), source, s.lastSeen)
  }

  predicate Usable(s: Summary) {
    Trim(s.status) == "ok" || Trim(s.status) == "partial"
  }

  predicate Exceeds(client: Summary, inbound: Summary) {
    client.up > inbound.up || client.down > inbound.down
  }

  /** A sole enabled client takes the counters of a usable inbound that it exceeds. */
  function SummarizeClient(c: Client, native: Summary, nativeUsable: bool, sole: bool, now: int): Summary {
    var s := Summarize(c.state, "client", now);
    if c.state.Some? && c.enabled && sole && nativeUsable && Exceeds(s, native) then
      s.(up := native.up, down := native.down, total := native.up + native.down, deltaUp := native.deltaUp, deltaDown := native.deltaDown,
         rateUp := native.rateUp, rateDown := native.rateDown, rateTotal := native.rateUp + native.rateDown, window := native.window,
         status := Combine(s.status, "partial"), source := "client_reconciled")
    else s
  }

  function EnabledCount(clients: seq<Client>): nat {
    if clients == [] then 0 else EnabledCount(clients[..|clients| - 1]) + (if clients[|clients| - 1].enabled then 1 else 0)
  }

  /** What the clients of an inbound add up to. */
  datatype Sum = Sum(status: string, hasData: bool, up: int, down: int, deltaUp: int, deltaDown: int, rateUp: real, rateDown: real,
                     window: real, last: Option<int>)

  const NO_CLIENTS := Sum("", false, 0, 0, 0, 0, 0.0, 0.0, 0.0, None)

  function Latest(a: Option<int>, b: Option<int>): Option<int> {
    if b.Some? && (a.None? || b.value > a.value) then b else a
  }

  /** Disabled clients add nothing, and unusable ones only their status. */
  function Add(sum: Sum, enabled: bool, s: Summary): Sum {
    if !enabled then sum
    else if !Usable(s) then sum.(status := Combine(sum.status, s.status))
    else
      Sum(Combine(sum.status, s.status), true, sum.up + s.up, sum.down + s.down, sum.deltaUp + s.deltaUp, sum.deltaDown + s.deltaDown,
          sum.rateUp + s.rateUp, sum.rateDown + s.rateDown, if s.window > sum.window then s.window else sum.window, Latest(sum.last, s.lastSampled))
  }

  function AddAll(clients: seq<Client>, native: Summary, nativeUsable: bool, sole: bool, now: int): Sum {
    if clients == [] then NO_CLIENTS
    else
      var c := clients[|clients| - 1];
      Add(AddAll(clients[..|clients| - 1], native, nativeUsable, sole, now), c.enabled, SummarizeClient(c, native, nativeUsable, sole, now))
  }

  function FromClients(sum: Sum): Summary {
    Summary(sum.up, sum.down, sum.up + sum.down, sum.deltaUp, sum.deltaDown, sum.rateUp, sum.rateDown, sum.rateUp + sum.rateDown,
            sum.window, sum.status, "client_aggregate", sum.last)
  }

  predicate NativeUsable(state: Option<State>, now: int) {
    state.Some? && Usable(Summarize(state, "inbound", now))
  }

  /** The inbound's own counter if it is usable, otherwise the sum over its clients if that holds any data. */
  function SummarizeInbound(state: Option<State>, clients: seq<Client>, now: int): Summary {
    var native := Summarize(state, "inbound", now);
    var usable := NativeUsable(state, now);
    var sum := AddAll(clients, native, usable, EnabledCount(clients) == 1, now);
    if !usable && sum.hasData then FromClients(sum) else native
  }

  method SummarizeOne(state: Option<State>, clients: seq<Client>, now: int) returns (inbound: Summary, byClient: seq<Summary>)
    ensures inbound == SummarizeInbound(state, clients, now)
    ensures |byClient| == |clients|
    ensures forall i :: 0 <= i < |clients| ==>
              byClient[i] == SummarizeClient(clients[i], Summarize(state, "inbound", now), NativeUsable(state, now), EnabledCount(clients) == 1, now)
  {
    hide SummarizeClient, Summarize, Add, Usable;
    var native := Summarize(state, "inbound", now);
    var usable := state.Some? && Usable(native);
    var enabledCount := 0;
    for i := 0 to |clients|
      invariant enabledCount == EnabledCount(clients[..i])
    {
      assert clients[..i + 1][..i] == clients[..i];
      if clients[i].enabled {
        enabledCount := enabledCount + 1;
      }
    }
    assert clients[..|clients|] == clients;
    var sum := NO_CLIENTS;
    byClient := [];
    for i := 0 to |clients|
      invariant sum == AddAll(clients[..i], native, usable, enabledCount == 1, now)
      invariant |byClient| == i
      invariant forall j :: 0 <= j < i ==> byClient[j] == SummarizeClient(clients[j], native, usable, enabledCount == 1, now)
    {
      assert clients[..i + 1][..i] == clients[..i];
      var s := SummarizeClient(clients[i], native, usable, enabledCount == 1, now);
      sum := Add(sum, clients[i].enabled, s);
      byClient := byClient + [s];
    }
    inbound := native;
    if !usable && sum.hasData {
      inbound := FromClients(sum);
    }
  }

  // ---------- Bounds and order ----------

  /** The only enabled client of an inbound with a usable counter never shows more than the inbound. */
  lemma SoleClientWithinInbound(state: Option<State>, clients: seq<Client>, now: int, i: nat)
    requires i < |clients| && clients[i].enabled && clients[i].state.Some? && EnabledCount(clients) == 1 && NativeUsable(state, now)
    ensures var s := SummarizeClient(clients[i], Summarize(state, "inbound", now), true, true, now);
            var inbound := SummarizeInbound(state, clients, now);
            s.up <= inbound.up && s.down <= inbound.down && s.total <= inbound.total && inbound.total == inbound.up + inbound.down
  {
    hide Fresh, Usable, AddAll, StatusOf, Combine, EnabledCount;
  }

  lemma StatusSwaps(a: string, b: string, c: string)
    ensures Combine(Combine(a, b), c) == Combine(Combine(a, c), b)
  {
    CombineIsJoin(a, b, c);
    CombineIsJoin(a, c, b);
    CombineIsJoin(b, c, "");
    hide *;
  }

  lemma LatestSwaps(a: Option<int>, b: Option<int>, c: Option<int>)
    ensures Latest(Latest(a, b), c) == Latest(Latest(a, c), b)
  {
  }

  lemma AddSwaps(sum: Sum, a: bool, x: Summary, b: bool, y: Summary)
    ensures Add(Add(sum, a, x), b, y) == Add(Add(sum, b, y), a, x)
  {
    StatusSwaps(sum.status, x.status, y.status);
    LatestSwaps(sum.last, x.lastSampled, y.lastSampled);
    hide Combine, Usable, Latest;
    if a && b && Usable(x) && Usable(y) {
      var u, v := Add(Add(sum, a, x), b, y), Add(Add(sum, b, y), a, x);
      assert u.status == v.status && u.last == v.last && u.window == v.window;
      assert u.up == v.up && u.down == v.down && u.deltaUp == v.deltaUp && u.deltaDown == v.deltaDown;
      assert u.rateUp == v.rateUp && u.rateDown == v.rateDown;
    }
  }

  /** b with its i-th element moved to the end. */
  function MovedToEnd<T>(b: seq<T>, i: nat): seq<T>
    requires i < |b|
  {
    b[..i] + b[i + 1..] + [b[i]]
  }

  /** A client moved from anywhere to the end adds the same. */
  lemma {:induction false} AddMoved(clients: seq<Client>, i: nat, native: Summary, usable: bool, sole: bool, now: int)
    requires i < |clients|
    ensures AddAll(clients, native, usable, sole, now) == AddAll(MovedToEnd(clients, i), native, usable, sole, now)
    ensures EnabledCount(clients) == EnabledCount(MovedToEnd(clients, i))
    decreases |clients|
  {
    hide Add, SummarizeClient;
    var n := |clients| - 1;
    var moved := MovedToEnd(clients, i);
    if i == n {
      assert moved == clients;
    } else {
      var init := clients[..n];
      AddMoved(init, i, native, usable, sole, now);
      var rest := init[..i] + init[i + 1..];
      assert (rest + [clients[i]])[..n - 1] == rest;
      assert moved[..n] == rest + [clients[n]];
      assert (rest + [clients[n]])[..n - 1] == rest;
      AddSwaps(AddAll(rest, native, usable, sole, now),
               clients[i].enabled, SummarizeClient(clients[i], native, usable, sole, now),
               clients[n].enabled, SummarizeClient(clients[n], native, usable, sole, now));
    }
  }

  /** Some element of b can be moved to the end so that the sequences agree there and on the rest. */
  lemma FindLast<T>(a: seq<T>, b: seq<T>) returns (i: nat)
    requires multiset(a) == multiset(b) && a != []
    ensures i < |b| == |a| && b[i] == a[|a| - 1]
    ensures multiset(a[..|a| - 1]) == multiset(MovedToEnd(b, i)[..|a| - 1])
  {
    assert |multiset(a)| == |a| && |multiset(b)| == |b|;
    var n := |a| - 1;
    assert a[n] in multiset(b);
    i :| 0 <= i < |b| && b[i] == a[n];
    assert b == b[..i] + [b[i]] + b[i + 1..];
    assert MovedToEnd(b, i)[..n] == b[..i] + b[i + 1..];
    assert a == a[..n] + [a[n]];
    var x, y := multiset(a[..n]), multiset(b[..i] + b[i + 1..]);
    assert multiset(a) == x + multiset{a[n]} && multiset(b) == y + multiset{a[n]};
    assert x == x + multiset{a[n]} - multiset{a[n]} && y == y + multiset{a[n]} - multiset{a[n]};
  }

  lemma {:induction false} AddPermuted(a: seq<Client>, b: seq<Client>, native: Summary, usable: bool, sole: bool, now: int)
    requires multiset(a) == multiset(b)
    ensures AddAll(a, native, usable, sole, now) == AddAll(b, native, usable, sole, now)
    ensures EnabledCount(a) == EnabledCount(b)
    decreases |a|
  {
    hide Add, SummarizeClient;
    assert |multiset(a)| == |a| && |multiset(b)| == |b|;
    if a != [] {
      var i := FindLast(a, b);
      AddMoved(b, i, native, usable, sole, now);
      AddPermuted(a[..|a| - 1], MovedToEnd(b, i)[..|a| - 1], native, usable, sole, now);
    }
  }

  /** The summary of an inbound does not depend on the order of its clients. */
  lemma SummaryIgnoresOrder(state: Option<State>, a: seq<Client>, b: seq<Client>, now: int)
    requires multiset(a) == multiset(b)
    ensures SummarizeInbound(state, a, now) == SummarizeInbound(state, b, now)
  {
    hide AddAll, EnabledCount, Summarize;
    AddPermuted(a, b, Summarize(state, "inbound", now), NativeUsable(state, now), EnabledCount(a) == 1, now);
  }

  // ---------- Coverage ----------

  datatype Counts = Counts(total: nat, ok: nat, partial: nat, unsupported: nat, notConfigured: nat, unavailable: nat, stale: nat, waiting: nat)
  {
    /** Every inbound is counted under exactly one heading. */
    predicate Adds() {
      total == ok + partial + unsupported + notConfigured + unavailable + stale + waiting
    }
  }

  const NO_COUNTS := Counts(0, 0, 0, 0, 0, 0, 0, 0)

  function Count(c: Counts, status: string): (d: Counts)
    ensures c.Adds() ==> d.Adds()
  {
    var d := c.(total := c.total + 1);
    if status == "ok" then d.(ok := c.ok + 1)
    else if status == "partial" then d.(partial := c.partial + 1)
    else if status == "unsupported" then d.(unsupported := c.unsupported + 1)
    else if status == "not_configured" then d.(notConfigured := c.notConfigured + 1)
    else if status == "unavailable" then d.(unavailable := c.unavailable + 1)
    else if status == "stale" then d.(stale := c.stale + 1)
    else d.(waiting := c.waiting + 1)
  }

  function Overall(c: Counts): (s: string)
    ensures s != ""
  {
    if c.total == 0 || c.notConfigured == c.total then "not_configured"
    else if c.ok == c.total then "ok"
    else if c.ok > 0 then
      if c.partial > 0 || c.unsupported > 0 || c.unavailable > 0 || c.stale > 0 || c.waiting > 0 then "partial" else "ok"
    else if c.partial > 0 then "partial"
    else if c.unsupported > 0 && c.unavailable == 0 then "unsupported"
    else if c.stale > 0 && c.unavailable == 0 then "stale"
    else if c.unavailable > 0 then "unavailable"
    else "waiting"
  }

  /** The panel is shown as covered exactly if some inbound works and every other one is not configured. */
  lemma OkMeansAllConfiguredWork(c: Counts)
    requires c.Adds()
    ensures Overall(c) == "ok" <==> c.ok > 0 && c.ok + c.notConfigured == c.total
    ensures Overall(c) == "not_configured" <==> c.notConfigured == c.total
  {
  }

  function CountAll(statuses: seq<string>): (c: Counts)
    ensures c.Adds() && c.total == |statuses|
  {
    if statuses == [] then NO_COUNTS else Count(CountAll(statuses[..|statuses| - 1]), statuses[|statuses| - 1])
  }

  function EngineKey(engine: string): string {
    if Token(engine) == "sing-box" then "singbox" else Token(engine)
  }

  datatype Inbound = Inbound(engine: string, status: string)

  function StatusesOf(inbounds: seq<Inbound>, key: string): seq<string> {
    if inbounds == [] then []
    else
      var last := inbounds[|inbounds| - 1];
      StatusesOf(inbounds[..|inbounds| - 1], key) + (if last.engine != "" && EngineKey(last.engine) == key then [last.status] else [])
  }

  function AllStatuses(inbounds: seq<Inbound>): (statuses: seq<string>)
    ensures |statuses| == |inbounds|
  {
    if inbounds == [] then [] else AllStatuses(inbounds[..|inbounds| - 1]) + [inbounds[|inbounds| - 1].status]
  }

  /** Each engine's counts, over the inbounds that name it. */
  method CountByEngine(inbounds: seq<Inbound>) returns (byEngine: map<string, Counts>)
    ensures forall e :: e in byEngine <==> StatusesOf(inbounds, e) != []
    ensures forall e :: e in byEngine ==> byEngine[e] == CountAll(StatusesOf(inbounds, e))
  {
    hide Count, EngineKey, CountAll;
    byEngine := map[];
    for i := 0 to |inbounds|
      invariant forall e :: e in byEngine <==> StatusesOf(inbounds[..i], e) != []
      invariant forall e :: e in byEngine ==> byEngine[e] == CountAll(StatusesOf(inbounds[..i], e))
    {
      assert inbounds[..i + 1][..i] == inbounds[..i];
      forall e ensures StatusesOf(inbounds[..i], e) + [] == StatusesOf(inbounds[..i], e) {
      }
      if inbounds[i].engine != "" {
        var e := EngineKey(inbounds[i].engine);
        CountOneMore(StatusesOf(inbounds[..i], e), inbounds[i].status);
        byEngine := byEngine[e := Count(if e in byEngine then byEngine[e] else NO_COUNTS, inbounds[i].status)];
      }
    }
    assert inbounds[..|inbounds|] == inbounds;
  }

  /** A status for every counted engine, and one for both cores in any case. */
  method EngineStatuses(byEngine: map<string, Counts>) returns (engines: map<string, string>)
    ensures "xray" in engines && "singbox" in engines
    ensures forall e :: e in byEngine ==> e in engines && engines[e] == Overall(byEngine[e])
    ensures forall e :: e in engines && e !in byEngine ==> engines[e] == "not_configured"
    ensures forall e :: e in engines ==> engines[e] != ""
  {
    hide Overall;
    engines := map["xray" := "not_configured", "singbox" := "not_configured"];
    var left := byEngine.Keys;
    while left != {}
      invariant left <= byEngine.Keys
      invariant "xray" in engines && "singbox" in engines
      invariant forall e :: e in byEngine && e !in left ==> e in engines && engines[e] == Overall(byEngine[e])
      invariant forall e :: e in engines && e !in byEngine ==> engines[e] == "not_configured"
      invariant forall e :: e in engines ==> engines[e] != ""
      decreases left
    {
      var e :| e in left;
      left := left - {e};
      engines := engines[e := Overall(byEngine[e])];
    }
  }

  lemma CountNone()
    ensures CountAll(AllStatuses([])) == NO_COUNTS
  {
  }

  lemma StatusesOneMore(inbounds: seq<Inbound>, i: nat)
    requires i < |inbounds|
    ensures AllStatuses(inbounds[..i + 1]) == AllStatuses(inbounds[..i]) + [inbounds[i].status]
  {
    var longer := inbounds[..i + 1];
    assert longer[..|longer| - 1] == inbounds[..i];
  }

  method CountInbounds(inbounds: seq<Inbound>) returns (counts: Counts)
    ensures counts == CountAll(AllStatuses(inbounds)) && counts.Adds() && counts.total == |inbounds|
  {
    hide Count, CountAll, AllStatuses, Counts.Adds;
    counts := NO_COUNTS;
    CountNone();
    assert inbounds[..0] == [];
    for i := 0 to |inbounds|
      invariant counts == CountAll(AllStatuses(inbounds[..i]))
    {
      StatusesOneMore(inbounds, i);
      CountOneMore(AllStatuses(inbounds[..i]), inbounds[i].status);
      counts := Count(counts, inbounds[i].status);
    }
    assert inbounds[..|inbounds|] == inbounds;
  }

  /** Counts and engine statuses; both cores are listed, and no engine's status is empty. */
  method BuildCoverage(inbounds: seq<Inbound>) returns (counts: Counts, engines: map<string, string>)
    ensures counts == CountAll(AllStatuses(inbounds)) && counts.Adds() && counts.total == |inbounds|
    ensures "xray" in engines && "singbox" in engines
    ensures forall e :: e in engines ==> engines[e] != ""
    ensures forall e :: StatusesOf(inbounds, e) != [] ==> e in engines && engines[e] == Overall(CountAll(StatusesOf(inbounds, e)))
    ensures forall e :: e in engines && StatusesOf(inbounds, e) == [] ==> engines[e] == "not_configured"
  {
    hide *;
    counts := CountInbounds(inbounds);
    var byEngine := CountByEngine(inbounds);
    engines := EngineStatuses(byEngine);
  }

  lemma CountOneMore(statuses: seq<string>, status: string)
    ensures CountAll(statuses + [status]) == Count(CountAll(statuses), status)
  {
    assert (statuses + [status])[..|statuses|] == statuses;
  }
}
