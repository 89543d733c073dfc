/**
 The traffic ledger: one row per (engine, scope type, scope key), fed with raw core
 counters that may drop, vanish or be re-baselined.

 Times are nanoseconds, rates and windows reals, counters unbounded integers; a row's
 `seenAt` is None when its text is empty or not a time. Samples are not modelled, and
 a transaction that fails leaves the table as it was.
 */
module TrafficLedger {
  import opened Outcome
  import opened Text

  datatype Key = Key(engine: string, scopeType: string, scopeKey: string)

  datatype Row = Row(totalUp: int, totalDown: int, rawUp: int, rawDown: int, deltaUp: int, deltaDown: int,
                     rateUp: real, rateDown: real, window: real, seenAt: Option<int>, status: string, message: string)

  type Rows = map<Key, Row>

  datatype RawStat = RawStat(engine: string, scopeType: string, scopeKey: string, up: int, down: int, status: string, message: string)

  datatype Marker = Marker(engine: string, scopeType: string, scopeKey: string, status: string, message: string)

  const ZERO_ROW := Row(0, 0, 0, 0, 0, 0, 0.0, 0.0, 0.0, None, "", "")

  // ---------- Normalisation ----------

  function NormalizeEngine(engine: string): string {
    if Token(engine) == "sing-box" then "singbox" else Token(engine)
  }

  function NormalizeStatus(status: string): string {
    if Trim(status) == "" then "waiting" else Trim(status)
  }

  function KeyOf(raw: RawStat): Key {
    Key(NormalizeEngine(raw.engine), Token(raw.scopeType), Trim(raw.scopeKey))
  }

  predicate Nameless(key: Key) {
    key.engine == "" || key.scopeType == "" || key.scopeKey == ""
  }

  /** A stat as the ledger takes it in. */
  datatype Stat = Stat(key: Key, up: int, down: int, status: string, message: string)

  function NormalizeStat(raw: RawStat): Stat {
    Stat(KeyOf(raw), raw.up, raw.down, if Trim(raw.status) == "" then "ok" else Trim(raw.status), Trim(raw.message))
  }

  function Normalize(stats: seq<RawStat>): seq<Stat> {
    if stats == [] then []
    else Normalize(stats[..|stats| - 1])
         + (if Nameless(KeyOf(stats[|stats| - 1])) then [] else [NormalizeStat(stats[|stats| - 1])])
  }

  // ---------- One observation ----------

  /** The message belongs to a status that says nothing about counters. */
  predicate BaselineOnlyStatus(rowStatus: string, rowMessage: string) {
    var status, message := NormalizeStatus(rowStatus), Token(rowMessage);
    || status == "waiting" || status == "not_configured" || status == "unsupported" || status == "ok"
    || (status == "unavailable"
        && (message == "" || Contains(message, "baseline unavailable") || Contains(message, "stats offline") || Contains(message, "waiting")))
  }

  /** Nothing has been counted on this row since it was made or reset. */
  predicate MissingRawBaseline(r: Row) {
    && r.rawUp == 0 && r.rawDown == 0 && r.deltaUp == 0 && r.deltaDown == 0
    && r.rateUp == 0.0 && r.rateDown == 0.0 && r.window == 0.0
    && BaselineOnlyStatus(r.status, r.message)
  }

  predicate CounterReset(up: int, down: int, lastUp: int, lastDown: int) {
    (lastUp > 0 && up < lastUp) || (lastDown > 0 && down < lastDown)
  }

  predicate SuppressRecoveredRate(r: Row) {
    NormalizeStatus(r.status) in {"waiting", "unavailable", "unsupported", "not_configured"}
  }

  function Elapsed(current: Option<Row>, now: int): real {
    if current.Some? && current.value.seenAt.Some? && now > current.value.seenAt.value
    then (now - current.value.seenAt.value) as real / 1000000000.0 else 0.0
  }

  /** What one direction gains when its counter reads raw. */
  function Gain(raw: int, last: int): nat {
    if raw >= last then raw - last else 0
  }

  const RESET_NOTE := "counter reset detected, " + "baseline re-established"

  /** The row that the table holds after an observation. */
  function Observed(current: Option<Row>, st: Stat, now: int): Row {
    var r := if current.Some? then current.value else ZERO_ROW;
    var missing := current.None? || MissingRawBaseline(r);
    var deltaUp := if missing then 0 else Gain(st.up, r.rawUp);
    var deltaDown := if missing then 0 else Gain(st.down, r.rawDown);
    var elapsed := Elapsed(current, now);
    var rated := elapsed > 0.0 && !SuppressRecoveredRate(r);
    var reset := deltaUp == 0 && deltaDown == 0 && current.Some? && CounterReset(st.up, st.down, r.rawUp, r.rawDown);
    Row(r.totalUp + deltaUp, r.totalDown + deltaDown, st.up, st.down, deltaUp, deltaDown,
        if rated then deltaUp as real / elapsed else 0.0, if rated then deltaDown as real / elapsed else 0.0,
        elapsed, Some(now), st.status, if reset && Trim(st.message) == "" then RESET_NOTE else Trim(st.message))
  }

  /** What the working map of a batch remembers of that row: everything but the note about a counter reset. */
  function Remembered(current: Option<Row>, st: Stat, now: int): Row {
    Observed(current, st, now).(message := Trim(st.message))
  }

  function Lookup(rows: Rows, key: Key): Option<Row> {
    if key in rows then Some(rows[key]) else None
  }

  // ---------- Batches ----------

  /** Table and working map after a run of stats. */
  function Fold(rows: Rows, work: Rows, stats: seq<Stat>, now: int): (Rows, Rows) {
    if stats == [] then (rows, work)
    else
      var (r, w) := Fold(rows, work, stats[..|stats| - 1], now);
      var st := stats[|stats| - 1];
      (r[st.key := Observed(Lookup(w, st.key), st, now)], w[st.key := Remembered(Lookup(w, st.key), st, now)])
  }

  function Prefetch(rows: Rows, stats: seq<Stat>): Rows {
    map key | key in rows && exists i :: 0 <= i < |stats| && stats[i].key == key :: rows[key]
  }

  /** The keys of an enabled single-client inbound and of its client, as the panel's tables give them. */
  datatype Pair = Pair(inboundKey: string, clientKey: string)

  function InboundKey(p: Pair): Key { Key("xray", "inbound", p.inboundKey) }

  function ClientKey(p: Pair): Key { Key("xray", "client", Trim(p.clientKey)) }

  predicate Candidate(p: Pair, stats: seq<Stat>) {
    Trim(p.clientKey) != "" && exists i :: 0 <= i < |stats| && stats[i].key == InboundKey(p)
  }

  predicate Polluted(inbound: Row, client: Row) {
    && inbound.status == "ok" && client.status == "ok"
    && !(client.totalUp <= inbound.totalUp && client.totalDown <= inbound.totalDown)
  }

  const REPAIR_NOTE := "client totals reconciled to native inbound counters because stored client totals exceeded the inbound total"

  function Reconciled(client: Row, inbound: Row, now: int): Row {
    client.(totalUp := inbound.totalUp, totalDown := inbound.totalDown, deltaUp := 0, deltaDown := 0, rateUp := 0.0, rateDown := 0.0,
            window := 0.0, seenAt := Some(now), status := "partial", message := REPAIR_NOTE)
  }

  /** One pair: the table row changes only if the working map holds both rows and says so. */
  function RepairOne(rows: Rows, work: Rows, p: Pair, now: int): (Rows, Rows) {
    if InboundKey(p) in work && ClientKey(p) in work && Polluted(work[InboundKey(p)], work[ClientKey(p)]) then
      (if ClientKey(p) in rows then rows[ClientKey(p) := Reconciled(rows[ClientKey(p)], work[InboundKey(p)], now)] else rows,
       work[ClientKey(p) := Reconciled(work[ClientKey(p)], work[InboundKey(p)], now)])
    else (rows, work)
  }

  function Repair(rows: Rows, work: Rows, pairs: seq<Pair>, stats: seq<Stat>, now: int): (Rows, Rows) {
    if pairs == [] then (rows, work)
    else
      var (r, w) := Repair(rows, work, pairs[..|pairs| - 1], stats, now);
      var p := pairs[|pairs| - 1];
      if Candidate(p, stats) then RepairOne(r, w, p, now) else (r, w)
  }

  function ApplyRawStats(rows: Rows, raws: seq<RawStat>, pairs: seq<Pair>, now: int): Rows {
    var stats := Normalize(raws);
    var (r, w) := Fold(rows, Prefetch(rows, stats), stats, now);
    Repair(r, w, pairs, stats, now).0
  }

  // ---------- Status markers ----------

  function Marked(r: Row, status: string, message: string, now: int): Row {
    r.(deltaUp := 0, deltaDown := 0, rateUp := 0.0, rateDown := 0.0, window := 0.0, seenAt := Some(now), status := status, message := message)
  }

  function MarkEngine(rows: Rows, engine: string, status: string, message: string, now: int): Rows {
    if Token(engine) == "" then rows
    else
      var s := if Trim(status) == "" then "unavailable" else Trim(status);
      map key | key in rows :: if key.engine == Token(engine) then Marked(rows[key], s, Trim(message), now) else rows[key]
  }

  function MarkerKey(m: Marker): Key {
    Key(Token(m.engine), Token(m.scopeType), Trim(m.scopeKey))
  }

  function MarkOne(rows: Rows, m: Marker, now: int): Rows {
    if Nameless(MarkerKey(m)) then rows
    else
      var s := if Trim(m.status) == "" then "unavailable" else Trim(m.status);
      var r := if MarkerKey(m) in rows then rows[MarkerKey(m)] else ZERO_ROW;
      rows[MarkerKey(m) := Marked(r, s, Trim(m.message), now)]
  }

  function MarkScopes(rows: Rows, markers: seq<Marker>, now: int): Rows {
    if markers == [] then rows
    else MarkOne(MarkScopes(rows, markers[..|markers| - 1], now), markers[|markers| - 1], now)
  }

  // ---------- Resets ----------

  /** The baselines that name this client; a later one for the same engine wins. */
  function BaselineByEngine(statsKey: string, baselines: seq<RawStat>): map<string, RawStat> {
    if baselines == [] then map[]
    else
      var m, raw := BaselineByEngine(statsKey, baselines[..|baselines| - 1]), baselines[|baselines| - 1];
      if Token(raw.scopeType) != "client" || Trim(raw.scopeKey) != statsKey || Token(raw.engine) == "" then m
      else m[Token(raw.engine) := raw]
  }

  /** Engines on which the client has a row, is expected, or has a fresh baseline. */
  function ResetEngines(rows: Rows, statsKey: string, expected: Option<string>, baselines: seq<RawStat>): set<string> {
    (set key | key in rows && key.scopeType == "client" && key.scopeKey == statsKey && NormalizeEngine(key.engine) != "" :: NormalizeEngine(key.engine))
    + (if expected.Some? && expected.value != "" then {expected.value} else {})
    + BaselineByEngine(statsKey, baselines).Keys
  }

  const NO_BASELINE := "baseline unavailable during reset"

  function ResetRow(baseline: Option<RawStat>, now: int): Row {
    if baseline.Some? then ZERO_ROW.(rawUp := baseline.value.up, rawDown := baseline.value.down, seenAt := Some(now), status := "waiting", message := "baseline reset")
    else ZERO_ROW.(seenAt := Some(now), status := "unavailable", message := NO_BASELINE)
  }

  function ResetClient(rows: Rows, statsKey: string, expected: Option<string>, baselines: seq<RawStat>, now: int): Rows {
    rows + ResetRows(ResetEngines(rows, statsKey, expected, baselines), BaselineByEngine(statsKey, baselines), statsKey, now)
  }

  function ResetRows(engines: set<string>, byEngine: map<string, RawStat>, statsKey: string, now: int): Rows {
    map engine | engine in engines ::
      Key(engine, "client", statsKey) := ResetRow(if engine in byEngine then Some(byEngine[engine]) else None, now)
  }

  lemma ResetOneMore(rows: Rows, done: set<string>, engine: string, byEngine: map<string, RawStat>, statsKey: string, now: int)
    ensures (rows + ResetRows(done, byEngine, statsKey, now))
              [Key(engine, "client", statsKey) := ResetRow(if engine in byEngine then Some(byEngine[engine]) else None, now)]
         == rows + ResetRows(done + {engine}, byEngine, statsKey, now)
  {
    hide ResetRow;
  }

  lemma NoResets(rows: Rows, byEngine: map<string, RawStat>, statsKey: string, now: int)
    ensures rows + ResetRows({}, byEngine, statsKey, now) == rows
  {
  }

  // ---------- The store ----------

  const CHUNK := 300

  class TrafficStore {
    var rows: Rows

    constructor ()
      ensures rows == map[]
    {
      rows := map[];
    }

    /** Reads the rows of a batch in chunks that fit the query's variable limit. */
    method PrefetchStates(stats: seq<Stat>) returns (states: Rows)
      ensures states == Prefetch(rows, stats)
    {
      var keys: seq<Key> := [];
      for i := 0 to |stats|
        invariant forall key :: key in keys <==> exists j :: 0 <= j < i && stats[j].key == key
      {
        if stats[i].key !in keys {
          keys := keys + [stats[i].key];
        }
      }
      states := map[];
      var start := 0;
      while start < |keys|
        invariant 0 <= start
        invariant states == map key | key in rows && key in keys[..if start < |keys| then start else |keys|] :: rows[key]
      {
        var end := if start + CHUNK > |keys| then |keys| else start + CHUNK;
        var chunk := keys[start..end];
        assert forall key :: key in keys[..end] <==> key in keys[..start] || key in chunk;
        states := states + map key | key in rows && key in chunk :: rows[key];
        start := start + CHUNK;
      }
      assert keys[..|keys|] == keys;
    }

    method NormalizeStats(raws: seq<RawStat>) returns (stats: seq<Stat>)
      ensures stats == Normalize(raws)
    {
      hide KeyOf, NormalizeStat;
      stats := [];
      for i := 0 to |raws|
        invariant stats == Normalize(raws[..i])
      {
        assert raws[..i + 1][..i] == raws[..i];
        if !Nameless(KeyOf(raws[i])) {
          stats := stats + [NormalizeStat(raws[i])];
        }
      }
      assert raws[..|raws|] == raws;
    }

    method ApplyTrafficRawStats(raws: seq<RawStat>, pairs: seq<Pair>, now: int)
      modifies this
      ensures rows == ApplyRawStats(old(rows), raws, pairs, now)
    {
      hide Observed, Remembered, RepairOne, Candidate, KeyOf, Prefetch;
      var stats := NormalizeStats(raws);
      var work := PrefetchStates(stats);
      ghost var before, fetched := rows, work;
      for i := 0 to |stats|
        invariant (rows, work) == Fold(before, fetched, stats[..i], now)
      {
        assert stats[..i + 1][..i] == stats[..i];
        var current := Lookup(work, stats[i].key);
        rows := rows[stats[i].key := Observed(current, stats[i], now)];
        work := work[stats[i].key := Remembered(current, stats[i], now)];
      }
      assert stats[..|stats|] == stats;
      RepairSingleClients(work, pairs, stats, now);
    }

    method RepairSingleClients(states: Rows, pairs: seq<Pair>, stats: seq<Stat>, now: int)
      modifies this
      ensures rows == Repair(old(rows), states, pairs, stats, now).0
    {
      hide Polluted, Reconciled, InboundKey, ClientKey;
      var work := states;
      for i := 0 to |pairs|
        invariant (rows, work) == Repair(old(rows), states, pairs[..i], stats, now)
      {
        assert pairs[..i + 1][..i] == pairs[..i];
        var p := pairs[i];
        if !Candidate(p, stats) || InboundKey(p) !in work || ClientKey(p) !in work {
          continue;
        }
        var inbound, client := work[InboundKey(p)], work[ClientKey(p)];
        if !Polluted(inbound, client) {
          continue;
        }
        if ClientKey(p) in rows {
          rows := rows[ClientKey(p) := Reconciled(rows[ClientKey(p)], inbound, now)];
        }
        work := work[ClientKey(p) := Reconciled(client, inbound, now)];
      }
      assert pairs[..|pairs|] == pairs;
    }

    /** No row comes or goes, no counter moves, and rows of other engines are as they were. */
    method MarkTrafficUnavailable(engine: string, status: string, message: string, now: int)
      modifies this
      ensures rows.Keys == old(rows).Keys
      ensures forall key :: key in rows && (key.engine != Token(engine) || Token(engine) == "") ==> rows[key] == old(rows)[key]
      ensures forall key :: key in rows && key.engine == Token(engine) != "" ==>
                var before, after := old(rows)[key], rows[key];
                && after.totalUp == before.totalUp && after.totalDown == before.totalDown && after.rawUp == before.rawUp && after.rawDown == before.rawDown
                && after.deltaUp == 0 && after.deltaDown == 0 && after.rateUp == 0.0 && after.rateDown == 0.0 && after.window == 0.0
                && after.seenAt == Some(now) && after.status != "" && after.message == Trim(message)
                && (Trim(status) != "" ==> after.status == Trim(status)) && (Trim(status) == "" ==> after.status == "unavailable")
      ensures rows == MarkEngine(old(rows), engine, status, message, now)
    {
      if Token(engine) == "" {
        return;
      }
      var s := if Trim(status) == "" then "unavailable" else Trim(status);
      rows := map key | key in rows :: if key.engine == Token(engine) then Marked(rows[key], s, Trim(message), now) else rows[key];
    }

    method MarkTrafficScopeStatus(markers: seq<Marker>, now: int)
      modifies this
      ensures rows == MarkScopes(old(rows), markers, now)
    {
      hide Marked, MarkerKey;
      for i := 0 to |markers|
        invariant rows == MarkScopes(old(rows), markers[..i], now)
      {
        assert markers[..i + 1][..i] == markers[..i];
        var key := MarkerKey(markers[i]);
        if Nameless(key) {
          continue;
        }
        var s := if Trim(markers[i].status) == "" then "unavailable" else Trim(markers[i].status);
        rows := rows[key := Marked(if key in rows then rows[key] else ZERO_ROW, s, Trim(markers[i].message), now)];
      }
      assert markers[..|markers|] == markers;
    }

    method CollectBaselines(statsKey: string, baselines: seq<RawStat>) returns (byEngine: map<string, RawStat>)
      ensures byEngine == BaselineByEngine(statsKey, baselines)
    {
      byEngine := map[];
      for i := 0 to |baselines|
        invariant byEngine == BaselineByEngine(statsKey, baselines[..i])
      {
        assert baselines[..i + 1][..i] == baselines[..i];
        var raw := baselines[i];
        if Token(raw.scopeType) != "client" || Trim(raw.scopeKey) != statsKey || Token(raw.engine) == "" {
          continue;
        }
        byEngine := byEngine[Token(raw.engine) := raw];
      }
      assert baselines[..|baselines|] == baselines;
    }

    method ResetClientTrafficBaseline(statsKey: string, expected: Option<string>, baselines: seq<RawStat>, now: int)
      modifies this
      ensures rows == ResetClient(old(rows), statsKey, expected, baselines, now)
    {
      hide ResetRow, ResetRows, ResetEngines, BaselineByEngine;
      var byEngine := CollectBaselines(statsKey, baselines);
      var all := ResetEngines(rows, statsKey, expected, baselines);
      var engines := all;
      NoResets(rows, byEngine, statsKey, now);
      assert all - engines == {};
      while engines != {}
        invariant engines <= all
        invariant rows == old(rows) + ResetRows(all - engines, byEngine, statsKey, now)
        decreases |engines|
      {
        var engine :| engine in engines;
        ResetOneMore(old(rows), all - engines, engine, byEngine, statsKey, now);
        rows := rows[Key(engine, "client", statsKey) := ResetRow(if engine in byEngine then Some(byEngine[engine]) else None, now)];
        assert all - (engines - {engine}) == (all - engines) + {engine};
        engines := engines - {engine};
      }
      assert all - engines == all;
    }
  }
}
