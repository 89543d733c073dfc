/**
 The live traffic stream: the server sends a snapshot, then what changed since the last tick, and a
 snapshot again every so often. The page merges each patch into what it shows.
 */
module TrafficStream {
  import opened Outcome
  import opened Sets

  // ---------- Snapshots ----------

  datatype Cumulative = Cumulative(up: int, down: int, total: int, status: string, source: string, message: string)

  datatype Realtime = Realtime(deltaUp: int, deltaDown: int, deltaTotal: int, rateUp: real, rateDown: real, rateTotal: real,
                               observedAt: string, windowSeconds: real, status: string, source: string, message: string)

  datatype Total = Total(cumulative: Cumulative, realtime: Realtime)

  datatype Inbound = Inbound(remark: string, protocol: string, port: int, enabled: bool, cumulative: Cumulative, realtime: Realtime)

  datatype Client = Client(inboundId: int, email: string, enabled: bool, trafficLimit: int, expiryAt: int, cumulative: Cumulative, realtime: Realtime)

  datatype Row<T> = Row(id: int, data: T)

  datatype Coverage = Coverage(overall: string, engines: map<string, string>, ok: int, waiting: int, stale: int,
                               unavailable: int, unsupported: int, partial: int, notConfigured: int)

  datatype Snapshot = Snapshot(generatedAt: string, observedAt: string, windowSeconds: real, total: Total,
                               inbounds: seq<Row<Inbound>>, clients: seq<Row<Client>>, coverage: Coverage)

  datatype Patch = Patch(generatedAt: string, observedAt: string, windowSeconds: real, total: Option<Total>,
                         inbounds: seq<Row<Inbound>>, removedInbounds: seq<int>,
                         clients: seq<Row<Client>>, removedClients: seq<int>, coverage: Option<Coverage>)

  // ---------- Field by field comparison ----------

  predicate MetricEqual(a: Cumulative, b: Cumulative) {
    a.up == b.up && a.down == b.down && a.total == b.total && a.status == b.status && a.source == b.source && a.message == b.message
  }

  predicate RealtimeEqual(a: Realtime, b: Realtime) {
    && a.deltaUp == b.deltaUp && a.deltaDown == b.deltaDown && a.deltaTotal == b.deltaTotal
    && a.rateUp == b.rateUp && a.rateDown == b.rateDown && a.rateTotal == b.rateTotal
    && a.observedAt == b.observedAt && a.windowSeconds == b.windowSeconds
    && a.status == b.status && a.source == b.source && a.message == b.message
  }

  predicate TotalsEqual(a: Total, b: Total) {
    MetricEqual(a.cumulative, b.cumulative) && RealtimeEqual(a.realtime, b.realtime)
  }

  predicate InboundEqual(a: Row<Inbound>, b: Row<Inbound>) {
    && a.id == b.id && a.data.remark == b.data.remark && a.data.protocol == b.data.protocol
    && a.data.port == b.data.port && a.data.enabled == b.data.enabled
    && MetricEqual(a.data.cumulative, b.data.cumulative) && RealtimeEqual(a.data.realtime, b.data.realtime)
  }

  predicate ClientEqual(a: Row<Client>, b: Row<Client>) {
    && a.id == b.id && a.data.inboundId == b.data.inboundId && a.data.email == b.data.email && a.data.enabled == b.data.enabled
    && a.data.trafficLimit == b.data.trafficLimit && a.data.expiryAt == b.data.expiryAt
    && MetricEqual(a.data.cumulative, b.data.cumulative) && RealtimeEqual(a.data.realtime, b.data.realtime)
  }

  /** Comparing field by field leaves no field out. */
  lemma EqualMeansSame(a: Total, b: Total, i: Row<Inbound>, j: Row<Inbound>, c: Row<Client>, d: Row<Client>)
    ensures TotalsEqual(a, b) <==> a == b
    ensures InboundEqual(i, j) <==> i == j
    ensures ClientEqual(c, d) <==> c == d
  {
  }

  predicate CountsEqual(a: Coverage, b: Coverage) {
    && a.overall == b.overall && a.ok == b.ok && a.waiting == b.waiting && a.stale == b.stale && a.unavailable == b.unavailable
    && a.unsupported == b.unsupported && a.partial == b.partial && a.notConfigured == b.notConfigured
  }

  /** A missing key reads as the empty text. */
  function Lookup(m: map<string, string>, key: string): string {
    if key in m then m[key] else ""
  }

  ghost predicate CoverageLooksEqual(a: Coverage, b: Coverage) {
    CountsEqual(a, b) && |a.engines| == |b.engines| && forall e :: e in a.engines ==> Lookup(b.engines, e) == a.engines[e]
  }

  method CoverageEqual(a: Coverage, b: Coverage) returns (same: bool)
    ensures same <==> CoverageLooksEqual(a, b)
  {
    if !CountsEqual(a, b) || |a.engines| != |b.engines| {
      return false;
    }
    var left := a.engines.Keys;
    while left != {}
      invariant left <= a.engines.Keys
      invariant forall e :: e in a.engines && e !in left ==> Lookup(b.engines, e) == a.engines[e]
      decreases left
    {
      var engine :| engine in left;
      if Lookup(b.engines, engine) != a.engines[engine] {
        return false;
      }
      left := left - {engine};
    }
    same := true;
  }

  /** Statuses are never empty, as the coverage is built. */
  ghost predicate StatusesNamed(c: Coverage) {
    forall e :: e in c.engines ==> c.engines[e] != ""
  }

  /** One inclusion and one count are enough: with named statuses the comparison is equality. */
  lemma NamedEqualIffSame(a: Coverage, b: Coverage)
    requires StatusesNamed(a)
    ensures CoverageLooksEqual(a, b) <==> a == b
  {
    if CoverageLooksEqual(a, b) {
      forall e | e in a.engines.Keys ensures e in b.engines.Keys && b.engines[e] == a.engines[e] {
        assert Lookup(b.engines, e) == a.engines[e];
      }
      assert |a.engines.Keys| == |a.engines| && |b.engines.Keys| == |b.engines|;
      Subset(a.engines.Keys, b.engines.Keys);
      assert a.engines == b.engines;
    }
  }

  lemma {:induction false} LongerThanAll(names: set<string>) returns (name: string)
    ensures name !in names && forall n :: n in names ==> |n| < |name|
    decreases |names|
  {
    if names == {} {
      name := "x";
    } else {
      var one := Member(names);
      name := LongerThanAll(names - {one});
      if |one| >= |name| {
        name := one + "x";
      }
    }
  }

  /** An engine whose status is empty can be swapped for any engine that is not listed, and nothing shows. */
  lemma EmptyStatusHidesSwap(a: Coverage, e: string, other: string)
    requires e in a.engines && a.engines[e] == "" && other !in a.engines
    ensures var b := a.(engines := (a.engines - {e})[other := "ok"]); a != b && CoverageLooksEqual(a, b)
  {
    var b := a.(engines := (a.engines - {e})[other := "ok"]);
    assert e !in b.engines;
    assert b.engines.Keys == a.engines.Keys - {e} + {other};
    assert |a.engines.Keys| == |a.engines| && |b.engines.Keys| == |b.engines|;
  }

  /** A coverage is told from every other one if and only if none of its statuses is empty. */
  lemma CoverageEqualIffSame(a: Coverage)
    ensures (forall b :: CoverageLooksEqual(a, b) <==> a == b) <==> StatusesNamed(a)
  {
    hide CoverageLooksEqual;
    if StatusesNamed(a) {
      forall b ensures CoverageLooksEqual(a, b) <==> a == b {
        NamedEqualIffSame(a, b);
      }
    } else {
      var e :| e in a.engines && a.engines[e] == "";
      var other := LongerThanAll(a.engines.Keys);
      EmptyStatusHidesSwap(a, e, other);
    }
  }

  // ---------- Differences ----------

  /** The last row of each id. */
  function ById<T>(rows: seq<Row<T>>): map<int, T> {
    if rows == [] then map[]
    else ById(rows[..|rows| - 1])[rows[|rows| - 1].id := rows[|rows| - 1].data]
  }

  /** The rows that are new or differ from their predecessor. */
  function Changed<T(==)>(before: map<int, T>, rows: seq<Row<T>>): seq<Row<T>> {
    if rows == [] then []
    else
      var last := rows[|rows| - 1];
      Changed(before, rows[..|rows| - 1]) + (if last.id in before && before[last.id] == last.data then [] else [last])
  }

  /** The ids of rows that are gone. */
  function Removed<T>(rows: seq<Row<T>>, after: set<int>): seq<int> {
    if rows == [] then []
    else
      var last := rows[|rows| - 1];
      Removed(rows[..|rows| - 1], after) + (if last.id in after then [] else [last.id])
  }

  method ChangedInbounds(previous: seq<Row<Inbound>>, current: seq<Row<Inbound>>) returns (changes: seq<Row<Inbound>>)
    ensures changes == Changed(ById(previous), current)
  {
    var before := IndexRows(previous);
    changes := [];
    for i := 0 to |current|
      invariant changes == Changed(before, current[..i])
    {
      assert current[..i + 1][..i] == current[..i] && changes + [] == changes;
      if current[i].id in before && InboundEqual(Row(current[i].id, before[current[i].id]), current[i]) {
        continue;
      }
      changes := changes + [current[i]];
    }
    assert current[..|current|] == current;
  }

  method ChangedClients(previous: seq<Row<Client>>, current: seq<Row<Client>>) returns (changes: seq<Row<Client>>)
    ensures changes == Changed(ById(previous), current)
  {
    var before := IndexRows(previous);
    changes := [];
    for i := 0 to |current|
      invariant changes == Changed(before, current[..i])
    {
      assert current[..i + 1][..i] == current[..i] && changes + [] == changes;
      if current[i].id in before && ClientEqual(Row(current[i].id, before[current[i].id]), current[i]) {
        continue;
      }
      changes := changes + [current[i]];
    }
    assert current[..|current|] == current;
  }

  method IndexRows<T>(rows: seq<Row<T>>) returns (m: map<int, T>)
    ensures m == ById(rows)
  {
    m := map[];
    for i := 0 to |rows|
      invariant m == ById(rows[..i])
    {
      assert rows[..i + 1][..i] == rows[..i];
      m := m[rows[i].id := rows[i].data];
    }
    assert rows[..|rows|] == rows;
  }

  method RemovedIds<T>(previous: seq<Row<T>>, current: seq<Row<T>>) returns (removed: seq<int>)
    ensures removed == Removed(previous, ById(current).Keys)
  {
    var after := IndexRows(current);
    removed := [];
    for i := 0 to |previous|
      invariant removed == Removed(previous[..i], after.Keys)
    {
      assert previous[..i + 1][..i] == previous[..i] && removed + [] == removed;
      if previous[i].id !in after {
        removed := removed + [previous[i].id];
      }
    }
    assert previous[..|previous|] == previous;
  }

  /** What a tick sends; nothing at all if no part changed. */
  ghost function PatchOf(previous: Snapshot, current: Snapshot): Option<Patch> {
    var p := Patch(current.generatedAt, current.observedAt, current.windowSeconds,
                   if previous.total == current.total then None else Some(current.total),
                   Changed(ById(previous.inbounds), current.inbounds), Removed(previous.inbounds, ById(current.inbounds).Keys),
                   Changed(ById(previous.clients), current.clients), Removed(previous.clients, ById(current.clients).Keys),
                   if CoverageLooksEqual(previous.coverage, current.coverage) then None else Some(current.coverage));
    if p.total.None? && p.coverage.None? && p.inbounds == [] && p.removedInbounds == [] && p.clients == [] && p.removedClients == []
    then None else Some(p)
  }

  method BuildPatch(previous: Snapshot, current: Snapshot) returns (patch: Patch, changed: bool)
    ensures (if changed then Some(patch) else None) == PatchOf(previous, current)
  {
    hide Changed, Removed, ById, CoverageLooksEqual;
    patch := Patch(current.generatedAt, current.observedAt, current.windowSeconds, None, [], [], [], [], None);
    changed := false;
    if !TotalsEqual(previous.total, current.total) {
      patch := patch.(total := Some(current.total));
      changed := true;
    }
    var sameCoverage := CoverageEqual(previous.coverage, current.coverage);
    if !sameCoverage {
      patch := patch.(coverage := Some(current.coverage));
      changed := true;
    }
    var inbounds := ChangedInbounds(previous.inbounds, current.inbounds);
    if |inbounds| > 0 {
      patch := patch.(inbounds := inbounds);
      changed := true;
    }
    var removedInbounds := RemovedIds(previous.inbounds, current.inbounds);
    if |removedInbounds| > 0 {
      patch := patch.(removedInbounds := removedInbounds);
      changed := true;
    }
    var clients := ChangedClients(previous.clients, current.clients);
    if |clients| > 0 {
      patch := patch.(clients := clients);
      changed := true;
    }
    var removedClients := RemovedIds(previous.clients, current.clients);
    if |removedClients| > 0 {
      patch := patch.(removedClients := removedClients);
      changed := true;
    }
  }

  // ---------- The page ----------

  /** The shown rows that stay, each replaced by its update. */
  function Kept<T>(rows: seq<Row<T>>, updates: map<int, T>, removed: seq<int>): seq<Row<T>> {
    if rows == [] then []
    else
      var last := rows[|rows| - 1];
      Kept(rows[..|rows| - 1], updates, removed) +
      (if last.id in removed then [] else [Row(last.id, if last.id in updates then updates[last.id] else last.data)])
  }

  /** The updates of rows that are not shown yet. */
  function Added<T>(seen: set<int>, updates: seq<Row<T>>): seq<Row<T>> {
    if updates == [] then []
    else
      var last := updates[|updates| - 1];
      Added(seen, updates[..|updates| - 1]) + (if last.id in seen then [] else [last])
  }

  function Merge<T>(rows: seq<Row<T>>, updates: seq<Row<T>>, removed: seq<int>): seq<Row<T>> {
    var kept := Kept(rows, ById(updates), removed);
    kept + Added(ById(kept).Keys, updates)
  }

  method MergeById<T>(rows: seq<Row<T>>, updates: seq<Row<T>>, removed: seq<int>) returns (merged: seq<Row<T>>)
    ensures merged == Merge(rows, updates, removed)
  {
    if |updates| == 0 && |removed| == 0 {
      MergeNothing(rows);
      return rows;
    }
    var byId := IndexRows(updates);
    var kept: seq<Row<T>> := [];
    for i := 0 to |rows|
      invariant kept == Kept(rows[..i], byId, removed)
    {
      assert rows[..i + 1][..i] == rows[..i] && kept + [] == kept;
      if rows[i].id !in removed {
        kept := kept + [Row(rows[i].id, if rows[i].id in byId then byId[rows[i].id] else rows[i].data)];
      }
    }
    assert rows[..|rows|] == rows;
    var seen := IndexRows(kept);
    merged := kept;
    for i := 0 to |updates|
      invariant merged == kept + Added(seen.Keys, updates[..i])
    {
      assert updates[..i + 1][..i] == updates[..i] && merged + [] == merged;
      if updates[i].id !in seen {
        merged := merged + [updates[i]];
      }
    }
    assert updates[..|updates|] == updates;
  }

  lemma {:induction false} KeepAll<T>(rows: seq<Row<T>>)
    ensures Kept(rows, map[], []) == rows
    decreases |rows|
  {
    if rows != [] {
      KeepAll(rows[..|rows| - 1]);
    }
  }

  lemma MergeNothing<T>(rows: seq<Row<T>>)
    ensures Merge(rows, [], []) == rows
  {
    KeepAll(rows);
    assert rows + [] == rows;
  }

  function Merged(shown: Snapshot, p: Patch): Snapshot {
    Snapshot(p.generatedAt, p.observedAt, p.windowSeconds, if p.total.Some? then p.total.value else shown.total,
             Merge(shown.inbounds, p.inbounds, p.removedInbounds), Merge(shown.clients, p.clients, p.removedClients),
             if p.coverage.Some? then p.coverage.value else shown.coverage)
  }

  // ---------- Merging a difference ----------

  predicate Distinct<T>(rows: seq<Row<T>>) {
    forall i, j :: 0 <= i < j < |rows| ==> rows[i].id != rows[j].id
  }

  /** The rows by id, and no id twice. */
  ghost predicate Holds<T>(rows: seq<Row<T>>, m: map<int, T>) {
    Distinct(rows) && ById(rows) == m
  }

  lemma {:induction false} ByIdKeys<T>(rows: seq<Row<T>>, id: int)
    ensures id in ById(rows) <==> exists i :: 0 <= i < |rows| && rows[i].id == id
    decreases |rows|
  {
    if rows != [] {
      var init := rows[..|rows| - 1];
      ByIdKeys(init, id);
      if id in ById(init) {
        var i :| 0 <= i < |init| && init[i].id == id;
        assert rows[i].id == id;
      }
      assert rows[|rows| - 1].id == id ==> id in ById(rows);
      assert forall i :: 0 <= i < |rows| && rows[i].id == id && i < |init| ==> init[i].id == id;
    }
  }

  /** Appending rows of new ids. */
  lemma {:induction false} ByIdConcat<T>(a: seq<Row<T>>, b: seq<Row<T>>)
    ensures ById(a + b) == ById(a) + ById(b)
    decreases |b|
  {
    if b == [] {
      assert a + b == a;
    } else {
      ByIdConcat(a, b[..|b| - 1]);
      assert (a + b)[..|a + b| - 1] == a + b[..|b| - 1];
    }
  }

  lemma DistinctConcat<T>(a: seq<Row<T>>, b: seq<Row<T>>)
    requires Distinct(a) && Distinct(b) && ById(a).Keys !! ById(b).Keys
    ensures Distinct(a + b)
  {
    forall i, j | 0 <= i < j < |a + b| ensures (a + b)[i].id != (a + b)[j].id {
      if i < |a| <= j {
        ByIdKeys(a, a[i].id);
        ByIdKeys(b, b[j - |a|].id);
        assert a[i].id in ById(a).Keys && b[j - |a|].id in ById(b).Keys;
      }
    }
  }

  /** Appending one row. */
  lemma HoldsOneMore<T>(rows: seq<Row<T>>, m: map<int, T>, row: Row<T>)
    requires Holds(rows, m) && row.id !in m
    ensures Holds(rows + [row], m[row.id := row.data])
  {
    DistinctOneMore(rows, row);
    assert (rows + [row])[..|rows|] == rows;
    hide Distinct;
  }

  lemma DistinctOneMore<T>(rows: seq<Row<T>>, row: Row<T>)
    requires Distinct(rows) && row.id !in ById(rows)
    ensures Distinct(rows + [row])
  {
    hide ById;
    forall i | 0 <= i < |rows| ensures rows[i].id != row.id {
      ByIdKeys(rows, rows[i].id);
    }
  }

  lemma HoldsPrefix<T>(rows: seq<Row<T>>)
    requires Distinct(rows) && rows != []
    ensures var n := |rows| - 1;
            Distinct(rows[..n]) && rows[n].id !in ById(rows[..n]) && ById(rows) == ById(rows[..n])[rows[n].id := rows[n].data]
  {
    var n := |rows| - 1;
    ByIdKeys(rows[..n], rows[n].id);
  }

  function Differing<T(==)>(before: map<int, T>, m: map<int, T>): map<int, T> {
    map id | id in m && !(id in before && before[id] == m[id]) :: m[id]
  }

  lemma {:induction false} ChangedHolds<T>(before: map<int, T>, rows: seq<Row<T>>)
    requires Distinct(rows)
    ensures Holds(Changed(before, rows), Differing(before, ById(rows)))
    decreases |rows|
  {
    if rows != [] {
      var n := |rows| - 1;
      HoldsPrefix(rows);
      ChangedHolds(before, rows[..n]);
      var d := Differing(before, ById(rows[..n]));
      if rows[n].id in before && before[rows[n].id] == rows[n].data {
        assert Differing(before, ById(rows)) == d;
        assert Changed(before, rows[..n]) + [] == Changed(before, rows[..n]);
      } else {
        assert Differing(before, ById(rows)) == d[rows[n].id := rows[n].data];
        HoldsOneMore(Changed(before, rows[..n]), d, rows[n]);
      }
    }
  }

  lemma {:induction false} RemovedIs<T>(rows: seq<Row<T>>, after: set<int>, id: int)
    ensures id in Removed(rows, after) <==> id in ById(rows) && id !in after
    decreases |rows|
  {
    if rows != [] {
      RemovedIs(rows[..|rows| - 1], after, id);
    }
  }

  function Overlaid<T>(m: map<int, T>, updates: map<int, T>, removed: seq<int>): map<int, T> {
    map id | id in m && id !in removed :: if id in updates then updates[id] else m[id]
  }

  lemma {:induction false} KeptHolds<T>(rows: seq<Row<T>>, updates: map<int, T>, removed: seq<int>)
    requires Distinct(rows)
    ensures Holds(Kept(rows, updates, removed), Overlaid(ById(rows), updates, removed))
    decreases |rows|
  {
    if rows != [] {
      var n := |rows| - 1;
      HoldsPrefix(rows);
      KeptHolds(rows[..n], updates, removed);
      var o := Overlaid(ById(rows[..n]), updates, removed);
      var kept := Kept(rows[..n], updates, removed);
      if rows[n].id in removed {
        assert Overlaid(ById(rows), updates, removed) == o;
        assert kept + [] == kept;
      } else {
        var row := Row(rows[n].id, if rows[n].id in updates then updates[rows[n].id] else rows[n].data);
        assert Overlaid(ById(rows), updates, removed) == o[row.id := row.data];
        HoldsOneMore(kept, o, row);
      }
    }
  }

  lemma {:induction false} AddedHolds<T>(seen: set<int>, updates: seq<Row<T>>)
    requires Distinct(updates)
    ensures Holds(Added(seen, updates), ById(updates) - seen)
    decreases |updates|
  {
    if updates != [] {
      var n := |updates| - 1;
      HoldsPrefix(updates);
      AddedHolds(seen, updates[..n]);
      var m := ById(updates[..n]) - seen;
      var added := Added(seen, updates[..n]);
      if updates[n].id in seen {
        assert ById(updates) - seen == m;
        assert added + [] == added;
      } else {
        assert ById(updates) - seen == m[updates[n].id := updates[n].data];
        HoldsOneMore(added, m, updates[n]);
      }
    }
  }

  /** Merging gives each id its update, drops the removed ids and keeps the rest. */
  lemma MergeHolds<T>(rows: seq<Row<T>>, updates: seq<Row<T>>, removed: seq<int>)
    requires Distinct(rows) && Distinct(updates)
    ensures var o := Overlaid(ById(rows), ById(updates), removed);
            Holds(Merge(rows, updates, removed), o + (ById(updates) - o.Keys))
  {
    hide Kept, Added, Distinct;
    var kept := Kept(rows, ById(updates), removed);
    KeptHolds(rows, ById(updates), removed);
    var o := Overlaid(ById(rows), ById(updates), removed);
    AddedHolds(o.Keys, updates);
    var added := Added(o.Keys, updates);
    ByIdConcat(kept, added);
    assert ById(kept).Keys !! ById(added).Keys;
    DistinctConcat(kept, added);
  }

  /** A page that shows the previous rows shows the current ones after merging the difference. */
  lemma MergeDifference<T>(shown: seq<Row<T>>, previous: seq<Row<T>>, current: seq<Row<T>>)
    requires Distinct(previous) && Distinct(current) && Holds(shown, ById(previous))
    ensures Holds(Merge(shown, Changed(ById(previous), current), Removed(previous, ById(current).Keys)), ById(current))
  {
    hide Merge, Changed, Removed, ById, Distinct;
    var before, after := ById(previous), ById(current);
    var removed := Removed(previous, after.Keys);
    ChangedHolds(before, current);
    MergeHolds(shown, Changed(before, current), removed);
    var o := Overlaid(before, Differing(before, after), removed);
    forall id ensures id in removed <==> id in before && id !in after {
      RemovedIs(previous, after.Keys, id);
    }
    assert o + (Differing(before, after) - o.Keys) == after;
  }

  // ---------- The stream ----------

  const RESYNC_EVERY := 12

  datatype Event = SnapshotEvent(snapshot: Snapshot) | PatchEvent(patch: Patch) | ErrorEvent

  datatype Server = Server(previous: Snapshot, countdown: int)

  /** One tick; None is a view that could not be loaded. */
  ghost function Tick(s: Server, view: Option<Snapshot>): (Server, seq<Event>) {
    if view.None? then (s, [ErrorEvent])
    else if s.countdown <= 0 then (Server(view.value, RESYNC_EVERY), [SnapshotEvent(view.value)])
    else
      var p := PatchOf(s.previous, view.value);
      (Server(view.value, s.countdown - 1), if p.Some? then [PatchEvent(p.value)] else [])
  }

  ghost function Run(first: Snapshot, ticks: seq<Option<Snapshot>>): (Server, seq<Event>) {
    if ticks == [] then (Server(first, RESYNC_EVERY), [SnapshotEvent(first)])
    else
      var (s, events) := Run(first, ticks[..|ticks| - 1]);
      var (u, more) := Tick(s, ticks[|ticks| - 1]);
      (u, events + more)
  }

  /** The stream ends at once if there is no first snapshot. */
  method Stream(first: Option<Snapshot>, ticks: seq<Option<Snapshot>>) returns (events: seq<Event>)
    ensures events == if first.Some? then Run(first.value, ticks).1 else [ErrorEvent]
  {
    hide PatchOf;
    if first.None? {
      return [ErrorEvent];
    }
    events := [SnapshotEvent(first.value)];
    var previous := first.value;
    var countdown := RESYNC_EVERY;
    for i := 0 to |ticks|
      invariant Run(first.value, ticks[..i]) == (Server(previous, countdown), events)
    {
      assert ticks[..i + 1][..i] == ticks[..i] && events + [] == events;
      if ticks[i].None? {
        events := events + [ErrorEvent];
        continue;
      }
      var current := ticks[i].value;
      if countdown <= 0 {
        events := events + [SnapshotEvent(current)];
        previous := current;
        countdown := RESYNC_EVERY;
        continue;
      }
      var patch, changed := BuildPatch(previous, current);
      previous := current;
      countdown := countdown - 1;
      if !changed {
        continue;
      }
      events := events + [PatchEvent(patch)];
    }
    assert ticks[..|ticks|] == ticks;
  }

  /** What the page shows before the first snapshot. */
  const NOTHING_SHOWN := Snapshot("", "", 0.0, Total(Cumulative(0, 0, 0, "", "", ""), Realtime(0, 0, 0, 0.0, 0.0, 0.0, "", 0.0, "", "", "")),
                                  [], [], Coverage("", map[], 0, 0, 0, 0, 0, 0, 0))

  function Show(shown: Snapshot, e: Event): Snapshot {
    match e
    case SnapshotEvent(s) => s
    case PatchEvent(p) => Merged(shown, p)
    case ErrorEvent => shown
  }

  function ShowAll(events: seq<Event>): Snapshot {
    if events == [] then NOTHING_SHOWN else Show(ShowAll(events[..|events| - 1]), events[|events| - 1])
  }

  lemma {:induction false} ShowAllMore(events: seq<Event>, more: seq<Event>)
    requires |more| <= 1
    ensures ShowAll(events + more) == if more == [] then ShowAll(events) else Show(ShowAll(events), more[0])
  {
    if more == [] {
      assert events + more == events;
    } else {
      assert (events + more)[..|events + more| - 1] == events;
    }
  }

  // ---------- The page follows the server ----------

  /** How snapshots are built: no id twice, no empty status, and the observation time of the total. */
  ghost predicate WellFormed(s: Snapshot) {
    && Distinct(s.inbounds) && Distinct(s.clients) && StatusesNamed(s.coverage)
    && s.observedAt == s.total.realtime.observedAt && s.windowSeconds == s.total.realtime.windowSeconds
  }

  /** Everything but the order of the rows and the time of generation. */
  ghost predicate Agrees(shown: Snapshot, s: Snapshot) {
    && shown.total == s.total && shown.coverage == s.coverage
    && shown.observedAt == s.observedAt && shown.windowSeconds == s.windowSeconds
    && Holds(shown.inbounds, ById(s.inbounds)) && Holds(shown.clients, ById(s.clients))
  }

  lemma PatchFollows(shown: Snapshot, previous: Snapshot, current: Snapshot)
    requires WellFormed(previous) && WellFormed(current) && Agrees(shown, previous)
    ensures var p := PatchOf(previous, current);
            Agrees(if p.Some? then Merged(shown, p.value) else shown, current)
  {
    hide Changed, Removed, Distinct, StatusesNamed, CoverageLooksEqual, ById, Merge, Holds;
    NamedEqualIffSame(previous.coverage, current.coverage);
    MergeDifference(shown.inbounds, previous.inbounds, current.inbounds);
    MergeDifference(shown.clients, previous.clients, current.clients);
    MergeNothing(shown.inbounds);
    MergeNothing(shown.clients);
  }

  lemma TickFollows(shown: Snapshot, s: Server, view: Option<Snapshot>)
    requires WellFormed(s.previous) && Agrees(shown, s.previous) && (view.Some? ==> WellFormed(view.value))
    ensures var (u, events) := Tick(s, view);
            |events| <= 1 && WellFormed(u.previous) && (view.Some? ==> u.previous == view.value) && (view.None? ==> u.previous == s.previous)
            && Agrees(if events == [] then shown else Show(shown, events[0]), u.previous)
  {
    if view.Some? {
      PatchFollows(shown, s.previous, view.value);
      SnapshotAgrees(view.value);
    }
    hide Agrees, PatchOf, WellFormed, Merged;
  }

  lemma SnapshotAgrees(s: Snapshot)
    requires WellFormed(s)
    ensures Agrees(s, s)
  {
  }

  /** The last view that could be loaded. */
  function LastView(first: Snapshot, ticks: seq<Option<Snapshot>>): Snapshot {
    if ticks == [] then first
    else if ticks[|ticks| - 1].Some? then ticks[|ticks| - 1].value
    else LastView(first, ticks[..|ticks| - 1])
  }

  /**
   After any number of ticks, failed ones and ones that sent nothing among them, a page that applied
   every event shows the totals, the coverage and the rows of the last view the server loaded.
   */
  lemma {:induction false} PageFollowsServer(first: Snapshot, ticks: seq<Option<Snapshot>>)
    requires WellFormed(first) && forall i :: 0 <= i < |ticks| && ticks[i].Some? ==> WellFormed(ticks[i].value)
    ensures Run(first, ticks).0.previous == LastView(first, ticks) && WellFormed(LastView(first, ticks))
    ensures Agrees(ShowAll(Run(first, ticks).1), LastView(first, ticks))
    decreases |ticks|
  {
    if ticks == [] {
      SnapshotAgrees(first);
      assert [SnapshotEvent(first)][..0] == [];
      assert ShowAll([SnapshotEvent(first)]) == first;
    } else {
      hide Agrees, WellFormed, Tick, Show;
      var init, last := ticks[..|ticks| - 1], ticks[|ticks| - 1];
      PageFollowsServer(first, init);
      var (s, events) := Run(first, init);
      TickFollows(ShowAll(events), s, last);
      ShowAllMore(events, Tick(s, last).1);
    }
  }

  /** A page is never more than a dozen patches away from a snapshot. */
  lemma {:induction false} SnapshotsKeepComing(first: Snapshot, ticks: seq<Option<Snapshot>>)
    requires |ticks| >= 13 && forall i :: |ticks| - 13 <= i < |ticks| ==> ticks[i].Some?
    ensures exists k, s :: |Run(first, ticks[..|ticks| - 13]).1| <= k < |Run(first, ticks).1| && Run(first, ticks).1[k] == SnapshotEvent(s)
  {
    var n := |ticks| - RESYNC_EVERY - 1;
    CountdownBound(first, ticks[..n]);
    ResyncWithin(first, ticks, n, Run(first, ticks[..n]).0.countdown);
    hide Run;
  }

  lemma {:induction false} CountdownBound(first: Snapshot, ticks: seq<Option<Snapshot>>)
    ensures 0 <= Run(first, ticks).0.countdown <= RESYNC_EVERY
    decreases |ticks|
  {
    hide PatchOf;
    if ticks != [] {
      CountdownBound(first, ticks[..|ticks| - 1]);
    }
  }

  /** A countdown of c over loaded views ends in a snapshot at the (c + 1)-th. */
  lemma {:induction false} ResyncWithin(first: Snapshot, ticks: seq<Option<Snapshot>>, n: nat, c: nat)
    requires n + c < |ticks| && Run(first, ticks[..n]).0.countdown == c
    requires forall i :: n <= i <= n + c ==> ticks[i].Some?
    ensures exists k, s :: |Run(first, ticks[..n]).1| <= k < |Run(first, ticks).1| && Run(first, ticks).1[k] == SnapshotEvent(s)
    decreases c
  {
    hide PatchOf;
    assert ticks[..n + 1][..n] == ticks[..n];
    EventsGrow(first, ticks, n);
    EventsGrow(first, ticks, n + 1);
    if c == 0 {
      var k := |Run(first, ticks[..n]).1|;
      assert Run(first, ticks[..n + 1]).1[k] == SnapshotEvent(ticks[n].value);
      assert Run(first, ticks).1[k] == SnapshotEvent(ticks[n].value);
    } else {
      assert |Run(first, ticks[..n]).1| <= |Run(first, ticks[..n + 1]).1|;
      ResyncWithin(first, ticks, n + 1, c - 1);
    }
  }

  lemma {:induction false} EventsGrow(first: Snapshot, ticks: seq<Option<Snapshot>>, n: nat)
    requires n <= |ticks|
    ensures Run(first, ticks[..n]).1 <= Run(first, ticks).1
    decreases |ticks|
  {
    hide Tick;
    if n < |ticks| {
      EventsGrow(first, ticks[..|ticks| - 1], n);
      assert ticks[..|ticks| - 1][..n] == ticks[..n];
    } else {
      assert ticks[..n] == ticks;
    }
  }
}
