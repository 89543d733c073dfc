/**
 What one write to the ledger says, in the terms of the readings alone: what an observation gains and how
 fast, which note it leaves, what a marker does, and which baseline a reset takes.
 */
module LedgerMeaning {
  import opened Outcome
  import opened Text
  import opened TrafficLedger

  // ---------- Taking a reading in ----------

  function Folded(engine: string): string {
    if Lower(Trim(engine)) == "sing-box" then "singbox" else Lower(Trim(engine))
  }

  /** Names are trimmed and folded, a missing status reads "ok", and counters are as they were read. */
  lemma StatTaken(raw: RawStat)
    ensures var st := NormalizeStat(raw);
            && st.key == Key(Folded(raw.engine), Lower(Trim(raw.scopeType)), Trim(raw.scopeKey)) && st.up == raw.up && st.down == raw.down
            && st.status == (if Trim(raw.status) == "" then "ok" else Trim(raw.status)) && st.message == Trim(raw.message)
  {
  }

  /** A stat is taken exactly if engine, scope and key are all given, and stats keep their order. */
  lemma {:induction false} StatsTaken(raws: seq<RawStat>, raw: RawStat)
    ensures Normalize(raws + [raw]) == Normalize(raws) + if Folded(raw.engine) == "" || Lower(Trim(raw.scopeType)) == "" || Trim(raw.scopeKey) == "" then [] else [NormalizeStat(raw)]
  {
    hide NormalizeStat, Trim, Lower;
    assert (raws + [raw])[..|raws|] == raws;
  }

  // ---------- One observation ----------

  const QUIET := {"waiting", "not_configured", "unsupported", "ok"}

  /** The row says no more than that a baseline is missing. */
  ghost predicate SaysNothing(status: string, message: string) {
    var s, m := if Trim(status) == "" then "waiting" else Trim(status), Lower(Trim(message));
    s in QUIET || (s == "unavailable" && (m == "" || Says(m, "baseline unavailable") || Says(m, "stats offline") || Says(m, "waiting")))
  }

  lemma SaysNothingIff(status: string, message: string)
    ensures BaselineOnlyStatus(status, message) <==> SaysNothing(status, message)
  {
    hide Contains, Says, Trim, Lower;
    var m := Lower(Trim(message));
    ContainsIff(m, "baseline unavailable");
    ContainsIff(m, "stats offline");
    ContainsIff(m, "waiting");
  }

  /** Nothing has been counted on the row yet. */
  ghost predicate Unstarted(current: Option<Row>) {
    current.None? ||
    var r := current.value;
    r.rawUp == 0 && r.rawDown == 0 && r.deltaUp == 0 && r.deltaDown == 0 && r.rateUp == 0.0 && r.rateDown == 0.0 && r.window == 0.0 && SaysNothing(r.status, r.message)
  }

  function Positive(x: int): int {
    if x > 0 then x else 0
  }

  /** Nanoseconds since the row was last seen, if the clock has moved on. */
  function Passed(current: Option<Row>, now: int): int {
    if current.Some? && current.value.seenAt.Some? then Positive(now - current.value.seenAt.value) else 0
  }

  const RECOVERING := {"waiting", "unavailable", "unsupported", "not_configured"}

  /** The row was not counting before, so its first gain is no speed. */
  predicate Recovering(current: Option<Row>) {
    current.Some? && (if Trim(current.value.status) == "" then "waiting" else Trim(current.value.status)) in RECOVERING
  }

  predicate Dropped(current: Option<Row>, st: Stat) {
    current.Some? && ((current.value.rawUp > 0 && st.up < current.value.rawUp) || (current.value.rawDown > 0 && st.down < current.value.rawDown))
  }

  /** What a row gains, and how fast, from one observation. */
  lemma ObservationGains(current: Option<Row>, st: Stat, now: int)
    ensures var r, was := Observed(current, st, now), if current.Some? then current.value else ZERO_ROW;
            && (if Unstarted(current) then r.deltaUp == 0 && r.deltaDown == 0
                else r.deltaUp == Positive(st.up - was.rawUp) && r.deltaDown == Positive(st.down - was.rawDown))
            && r.totalUp == was.totalUp + r.deltaUp && r.totalDown == was.totalDown + r.deltaDown && r.rawUp == st.up && r.rawDown == st.down
  {
    if current.Some? {
      SaysNothingIff(current.value.status, current.value.message);
    }
    hide BaselineOnlyStatus, SaysNothing, Elapsed, Trim, CounterReset, SuppressRecoveredRate;
  }

  lemma ObservationRates(current: Option<Row>, st: Stat, now: int)
    ensures var r, passed := Observed(current, st, now), Passed(current, now);
            && r.window * 1000000000.0 == passed as real && r.seenAt == Some(now) && r.status == st.status
            && (passed > 0 && !Recovering(current) ==> r.rateUp * r.window == r.deltaUp as real && r.rateDown * r.window == r.deltaDown as real)
            && (passed == 0 || Recovering(current) ==> r.rateUp == 0.0 && r.rateDown == 0.0)
  {
    hide MissingRawBaseline, Trim, CounterReset, Gain;
    RateTimes(Observed(current, st, now).deltaUp as real, Passed(current, now) as real / 1000000000.0);
    RateTimes(Observed(current, st, now).deltaDown as real, Passed(current, now) as real / 1000000000.0);
  }

  lemma RateTimes(delta: real, t: real)
    ensures t > 0.0 ==> delta / t * t == delta
  {
  }

  /** The note of the observation, and a note of its own if a counter fell and nothing was gained. */
  lemma ObservationNotes(current: Option<Row>, st: Stat, now: int)
    ensures var r := Observed(current, st, now);
            r.message == if Trim(st.message) == "" && Dropped(current, st) && r.deltaUp == 0 && r.deltaDown == 0
                         then "counter reset detected, baseline re-established" else Trim(st.message)
  {
    NoteText();
    hide MissingRawBaseline, Trim, Elapsed, SuppressRecoveredRate, Gain;
  }

  lemma NoteText()
    ensures RESET_NOTE == "counter reset detected, baseline re-established"
  {
  }

  // ---------- Markers ----------

  /** A marked scope has the status and the message, no gain and no speed, and its counters as they were, or zero. */
  lemma MarkerWrites(rows: Rows, m: Marker, now: int, key: Key)
    ensures var u, named := MarkOne(rows, m, now), Key(Lower(Trim(m.engine)), Lower(Trim(m.scopeType)), Trim(m.scopeKey));
            if key != named || key.engine == "" || key.scopeType == "" || key.scopeKey == "" then
              (key in u <==> key in rows) && (key in rows ==> u[key] == rows[key])
            else
              key in u &&
              var r, was := u[key], if key in rows then rows[key] else ZERO_ROW;
              && r.totalUp == was.totalUp && r.totalDown == was.totalDown && r.rawUp == was.rawUp && r.rawDown == was.rawDown
              && r.deltaUp == 0 && r.deltaDown == 0 && r.rateUp == 0.0 && r.rateDown == 0.0 && r.window == 0.0 && r.seenAt == Some(now)
              && r.status == (if Trim(m.status) == "" then "unavailable" else Trim(m.status)) && r.message == Trim(m.message)
  {
    hide Trim, Lower;
  }

  lemma NothingYet()
    ensures ZERO_ROW.totalUp == 0 && ZERO_ROW.totalDown == 0 && ZERO_ROW.rawUp == 0 && ZERO_ROW.rawDown == 0
  {
  }

  // ---------- Baselines ----------

  predicate NamesClient(raw: RawStat, statsKey: string, engine: string) {
    Lower(Trim(raw.scopeType)) == "client" && Trim(raw.scopeKey) == statsKey && Lower(Trim(raw.engine)) == engine && engine != ""
  }

  ghost predicate LastNaming(baselines: seq<RawStat>, statsKey: string, engine: string, j: nat) {
    && j < |baselines| && NamesClient(baselines[j], statsKey, engine)
    && forall k :: j < k < |baselines| ==> !NamesClient(baselines[k], statsKey, engine)
  }

  /** A reset takes the last baseline that names the client on the engine. */
  lemma {:induction false} BaselineTaken(statsKey: string, baselines: seq<RawStat>, engine: string, j: nat)
    requires LastNaming(baselines, statsKey, engine, j)
    ensures engine in BaselineByEngine(statsKey, baselines) && BaselineByEngine(statsKey, baselines)[engine] == baselines[j]
    decreases |baselines|
  {
    hide NamesClient, BaselineByEngine;
    var n := |baselines| - 1;
    BaselineStep(statsKey, baselines, engine);
    if j < n {
      assert !NamesClient(baselines[n], statsKey, engine);
      forall k | j < k < n ensures !NamesClient(baselines[..n][k], statsKey, engine) {
        assert !NamesClient(baselines[k], statsKey, engine);
      }
      BaselineTaken(statsKey, baselines[..n], engine, j);
    }
  }

  lemma {:induction false} NoBaselineTaken(statsKey: string, baselines: seq<RawStat>, engine: string)
    requires forall k :: 0 <= k < |baselines| ==> !NamesClient(baselines[k], statsKey, engine)
    ensures engine !in BaselineByEngine(statsKey, baselines)
    decreases |baselines|
  {
    hide NamesClient;
    if baselines != [] {
      var n := |baselines| - 1;
      BaselineStep(statsKey, baselines, engine);
      hide BaselineByEngine;
      assert !NamesClient(baselines[n], statsKey, engine);
      forall k | 0 <= k < n ensures !NamesClient(baselines[..n][k], statsKey, engine) {
        assert !NamesClient(baselines[k], statsKey, engine);
      }
      NoBaselineTaken(statsKey, baselines[..n], engine);
    }
  }

  lemma BaselineStep(statsKey: string, baselines: seq<RawStat>, engine: string)
    requires baselines != []
    ensures var m, last := BaselineByEngine(statsKey, baselines[..|baselines| - 1]), baselines[|baselines| - 1];
            var n := BaselineByEngine(statsKey, baselines);
            if NamesClient(last, statsKey, engine) then engine in n && n[engine] == last
            else (engine in n <==> engine in m) && (engine in m ==> n[engine] == m[engine])
  {
    hide Trim, Lower;
  }

  // ---------- Which rows a repair and a reset look at ----------

  lemma PairKeysAre(p: Pair)
    ensures InboundKey(p) == Key("xray", "inbound", p.inboundKey) && ClientKey(p) == Key("xray", "client", Trim(p.clientKey))
  {
  }

  /** A reset concerns the engines on which the client has a row, the one that is expected to count it, and those with a baseline for it. */
  lemma ResetConcerns(rows: Rows, statsKey: string, expected: Option<string>, baselines: seq<RawStat>, engine: string)
    ensures engine in ResetEngines(rows, statsKey, expected, baselines) <==>
              || (engine != "" && exists key :: key in rows && key.scopeType == "client" && key.scopeKey == statsKey && Folded(key.engine) == engine)
              || (engine != "" && expected == Some(engine))
              || exists j :: 0 <= j < |baselines| && NamesClient(baselines[j], statsKey, engine)
  {
    BaselineKnown(statsKey, baselines, engine);
    hide BaselineByEngine, NamesClient, Trim, Lower;
  }

  lemma {:induction false} BaselineKnown(statsKey: string, baselines: seq<RawStat>, engine: string)
    ensures engine in BaselineByEngine(statsKey, baselines) <==> exists j :: 0 <= j < |baselines| && NamesClient(baselines[j], statsKey, engine)
    decreases |baselines|
  {
    hide NamesClient, BaselineByEngine;
    if baselines != [] {
      var n := |baselines| - 1;
      BaselineKnown(statsKey, baselines[..n], engine);
      BaselineStep(statsKey, baselines, engine);
      if j :| 0 <= j < |baselines| && NamesClient(baselines[j], statsKey, engine) {
        assert j < n ==> NamesClient(baselines[..n][j], statsKey, engine);
      }
      if j :| 0 <= j < n && NamesClient(baselines[..n][j], statsKey, engine) {
        assert NamesClient(baselines[j], statsKey, engine);
      }
    } else {
      NoneNamed(statsKey, engine);
    }
  }

  lemma NoneNamed(statsKey: string, engine: string)
    ensures engine !in BaselineByEngine(statsKey, [])
  {
  }
}
