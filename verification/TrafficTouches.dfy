/** Runs of the ledger, and what they look like from one scope: the sequence of sightings and marks that touch its row. */
module TrafficTouches {
  import opened Outcome
  import opened Text
  import opened TrafficLedger

  datatype Event =
    | Observe(raws: seq<RawStat>, pairs: seq<Pair>, now: int)
    | Unavailable(engine: string, status: string, message: string, now: int)
    | Scopes(markers: seq<Marker>, now: int)
    | Reset(statsKey: string, expected: Option<string>, baselines: seq<RawStat>, now: int)

  function Apply(rows: Rows, e: Event): Rows {
    match e
    case Observe(raws, pairs, now) => ApplyRawStats(rows, raws, pairs, now)
    case Unavailable(engine, status, message, now) => MarkEngine(rows, engine, status, message, now)
    case Scopes(markers, now) => MarkScopes(rows, markers, now)
    case Reset(statsKey, expected, baselines, now) => ResetClient(rows, statsKey, expected, baselines, now)
  }

  function Run(rows: Rows, events: seq<Event>): Rows {
    if events == [] then rows else Apply(Run(rows, events[..|events| - 1]), events[|events| - 1])
  }

  /** Nothing in the event but observations and markers concerns the key: it is not reset, and no inbound finds it exceeding. */
  predicate Quiet(rows: Rows, e: Event, key: Key) {
    match e
    case Observe(raws, pairs, now) => Spared(Fold(rows, Prefetch(rows, Normalize(raws)), Normalize(raws), now).1, pairs, key)
    case Reset(statsKey, _, _, _) => key.scopeType != "client" || key.scopeKey != statsKey
    case _ => true
  }

  /** Whatever inbound the key is the sole client of: as far as both were read well, the client has no more traffic than it. */
  predicate Spared(work: Rows, pairs: seq<Pair>, key: Key) {
    forall p :: p in pairs && ClientKey(p) == key && InboundKey(p) in work && key in work ==>
      work[InboundKey(p)].status == "ok" && work[key].status == "ok" ==>
        work[key].totalUp <= work[InboundKey(p)].totalUp && work[key].totalDown <= work[InboundKey(p)].totalDown
  }

  predicate QuietRun(rows: Rows, events: seq<Event>, key: Key) {
    events == [] || (QuietRun(rows, events[..|events| - 1], key) && Quiet(Run(rows, events[..|events| - 1]), events[|events| - 1], key))
  }

  /** Events that neither reset the key nor name it as a sole client are quiet on every table. */
  predicate Unpaired(e: Event, key: Key) {
    match e
    case Observe(_, pairs, _) => forall p :: p in pairs ==> ClientKey(p) != key
    case Reset(statsKey, _, _, _) => key.scopeType != "client" || key.scopeKey != statsKey
    case _ => true
  }

  lemma {:induction false} UnpairedIsQuiet(rows: Rows, events: seq<Event>, key: Key)
    requires forall i :: 0 <= i < |events| ==> Unpaired(events[i], key)
    ensures QuietRun(rows, events, key)
    decreases |events|
  {
    hide ClientKey, InboundKey, Normalize, Fold, Prefetch, Run;
    if events != [] {
      var init, e := events[..|events| - 1], events[|events| - 1];
      UnpairedIsQuiet(rows, init, key);
      assert Unpaired(e, key);
    }
  }

  // ---------- One scope ----------

  /** What can happen to one row; a sighting is kept if it is the last one of its batch, which the table then holds. */
  datatype Touch =
    | Seen(st: Stat, now: int, kept: bool)
    | Noted(status: string, message: string, now: int)

  function Touched(current: Option<Row>, t: Touch): Row {
    match t
    case Seen(st, now, kept) => if kept then Observed(current, st, now) else Remembered(current, st, now)
    case Noted(status, message, now) => Marked(if current.Some? then current.value else ZERO_ROW, status, message, now)
  }

  function RowRun(current: Option<Row>, touches: seq<Touch>): Option<Row> {
    if touches == [] then current
    else Some(Touched(RowRun(current, touches[..|touches| - 1]), touches[|touches| - 1]))
  }

  function SeenIn(stats: seq<Stat>, key: Key, now: int): seq<Touch> {
    if stats == [] then []
    else
      var st := stats[|stats| - 1];
      SeenIn(stats[..|stats| - 1], key, now) + (if st.key == key then [Seen(st, now, false)] else [])
  }

  /** The table holds what the last sighting of the batch leaves. */
  function Keep(touches: seq<Touch>): seq<Touch> {
    if touches == [] || touches[|touches| - 1].Noted? then touches
    else touches[..|touches| - 1] + [touches[|touches| - 1].(kept := true)]
  }

  function StatusOr(status: string): string {
    if Trim(status) == "" then "unavailable" else Trim(status)
  }

  function NotesIn(markers: seq<Marker>, key: Key, now: int): seq<Touch> {
    if markers == [] then []
    else
      var m := markers[|markers| - 1];
      NotesIn(markers[..|markers| - 1], key, now)
      + (if MarkerKey(m) == key && !Nameless(key) then [Noted(StatusOr(m.status), Trim(m.message), now)] else [])
  }

  /** A marked scope gets a row, a marked engine touches only rows that are there. */
  function TouchesOf(known: bool, e: Event, key: Key): seq<Touch> {
    match e
    case Observe(raws, _, now) => Keep(SeenIn(Normalize(raws), key, now))
    case Unavailable(engine, status, message, now) =>
      if known && Token(engine) != "" && Token(engine) == key.engine then [Noted(StatusOr(status), Trim(message), now)] else []
    case Scopes(markers, now) => NotesIn(markers, key, now)
    case Reset(_, _, _, _) => []
  }

  function Touches(known: bool, events: seq<Event>, key: Key): seq<Touch> {
    if events == [] then []
    else
      var before := Touches(known, events[..|events| - 1], key);
      before + TouchesOf(known || before != [], events[|events| - 1], key)
  }

  // ---------- The run of the tables is the run of the row ----------

  lemma {:induction false} RowRunConcat(current: Option<Row>, a: seq<Touch>, b: seq<Touch>)
    ensures RowRun(current, a + b) == RowRun(RowRun(current, a), b)
    decreases |b|
  {
    hide Touched;
    if b == [] {
      assert a + b == a;
    } else {
      assert (a + b)[..|a + b| - 1] == a + b[..|b| - 1];
      RowRunConcat(current, a, b[..|b| - 1]);
    }
  }

  lemma RowRunOne(current: Option<Row>, t: Touch)
    ensures RowRun(current, [t]) == Some(Touched(current, t))
  {
    hide Touched;
    var one: seq<Touch> := [t];
    assert one[..0] == [];
  }

  lemma {:induction false} FoldTouches(rows: Rows, work: Rows, stats: seq<Stat>, now: int, key: Key)
    requires SeenIn(stats, key, now) == [] || Lookup(work, key) == Lookup(rows, key)
    ensures var (r, w) := Fold(rows, work, stats, now);
            && Lookup(w, key) == RowRun(Lookup(work, key), SeenIn(stats, key, now))
            && Lookup(r, key) == RowRun(Lookup(rows, key), Keep(SeenIn(stats, key, now)))
    decreases |stats|
  {
    hide Observed, Remembered;
    if stats != [] {
      var init, st := stats[..|stats| - 1], stats[|stats| - 1];
      FoldTouches(rows, work, init, now, key);
      var seen := SeenIn(init, key, now);
      if st.key == key {
        var longer := SeenIn(stats, key, now);
        assert longer == seen + [Seen(st, now, false)] && longer[..|longer| - 1] == seen;
        assert Keep(longer) == seen + [Seen(st, now, true)];
        var kept := Keep(longer);
        assert kept[..|kept| - 1] == seen;
      } else {
        assert SeenIn(stats, key, now) == seen;
      }
    }
  }

  lemma {:induction false} SeenIsThere(stats: seq<Stat>, key: Key, now: int)
    ensures SeenIn(stats, key, now) != [] <==> exists i :: 0 <= i < |stats| && stats[i].key == key
    decreases |stats|
  {
    if stats != [] {
      SeenIsThere(stats[..|stats| - 1], key, now);
      assert forall i :: 0 <= i < |stats| - 1 ==> stats[..|stats| - 1][i] == stats[i];
    }
  }

  lemma {:induction false} RepairSpares(rows: Rows, work: Rows, pairs: seq<Pair>, stats: seq<Stat>, now: int, key: Key)
    requires Spared(work, pairs, key)
    ensures var (r, w) := Repair(rows, work, pairs, stats, now);
            && Lookup(r, key) == Lookup(rows, key) && Lookup(w, key) == Lookup(work, key)
            && forall p :: Lookup(w, InboundKey(p)) == Lookup(work, InboundKey(p))
    decreases |pairs|
  {
    hide Candidate, ClientKey, InboundKey, RepairOne, Spared;
    if pairs != [] {
      var init, p := pairs[..|pairs| - 1], pairs[|pairs| - 1];
      SparedParts(work, pairs, key);
      RepairSpares(rows, work, init, stats, now, key);
      var (r, w) := Repair(rows, work, init, stats, now);
      RepairOneSpares(r, w, work, p, now, key);
    }
  }

  lemma SparedParts(work: Rows, pairs: seq<Pair>, key: Key)
    requires pairs != [] && Spared(work, pairs, key)
    ensures Spared(work, pairs[..|pairs| - 1], key) && Spared(work, [pairs[|pairs| - 1]], key)
  {
    hide InboundKey, ClientKey;
    assert pairs[|pairs| - 1] in pairs && forall q :: q in pairs[..|pairs| - 1] ==> q in pairs;
  }

  lemma RepairOneSpares(rows: Rows, w: Rows, work: Rows, p: Pair, now: int, key: Key)
    requires Spared(work, [p], key) && Lookup(w, key) == Lookup(work, key) && Lookup(w, InboundKey(p)) == Lookup(work, InboundKey(p))
    ensures var (r, v) := RepairOne(rows, w, p, now);
            && Lookup(r, key) == Lookup(rows, key) && Lookup(v, key) == Lookup(w, key)
            && forall q :: Lookup(v, InboundKey(q)) == Lookup(w, InboundKey(q))
  {
    hide Trim, Reconciled;
    assert p in [p] && "client"[0] != "inbound"[0];
  }

  lemma PrefetchSeen(rows: Rows, stats: seq<Stat>, now: int, key: Key)
    ensures SeenIn(stats, key, now) == [] || Lookup(Prefetch(rows, stats), key) == Lookup(rows, key)
  {
    SeenIsThere(stats, key, now);
    hide SeenIn;
  }

  lemma BatchTouches(rows: Rows, raws: seq<RawStat>, pairs: seq<Pair>, now: int, key: Key)
    requires Spared(Fold(rows, Prefetch(rows, Normalize(raws)), Normalize(raws), now).1, pairs, key)
    ensures Lookup(ApplyRawStats(rows, raws, pairs, now), key) == RowRun(Lookup(rows, key), Keep(SeenIn(Normalize(raws), key, now)))
  {
    hide Normalize, Spared, Keep, Fold, Repair, Prefetch, SeenIn;
    var stats := Normalize(raws);
    var work := Prefetch(rows, stats);
    PrefetchSeen(rows, stats, now, key);
    FoldTouches(rows, work, stats, now, key);
    var (r, w) := Fold(rows, work, stats, now);
    RepairSpares(r, w, pairs, stats, now, key);
  }

  lemma MarkTouches(rows: Rows, m: Marker, now: int, key: Key)
    ensures Lookup(MarkOne(rows, m, now), key)
         == if MarkerKey(m) == key && !Nameless(key) then Some(Touched(Lookup(rows, key), Noted(StatusOr(m.status), Trim(m.message), now)))
            else Lookup(rows, key)
  {
    hide MarkerKey, Trim, Marked, Nameless;
  }

  lemma {:induction false} MarksTouch(rows: Rows, markers: seq<Marker>, now: int, key: Key)
    ensures Lookup(MarkScopes(rows, markers, now), key) == RowRun(Lookup(rows, key), NotesIn(markers, key, now))
    decreases |markers|
  {
    hide MarkerKey, Trim, Touched, MarkOne, StatusOr, Nameless;
    if markers != [] {
      var init, m := markers[..|markers| - 1], markers[|markers| - 1];
      MarksTouch(rows, init, now, key);
      MarkTouches(MarkScopes(rows, init, now), m, now, key);
      var notes, all := NotesIn(init, key, now), NotesIn(markers, key, now);
      if MarkerKey(m) == key && !Nameless(key) {
        assert all[..|all| - 1] == notes;
      } else {
        assert all == notes;
      }
    }
  }

  lemma EventTouches(rows: Rows, e: Event, key: Key)
    requires Quiet(rows, e, key)
    ensures Lookup(Apply(rows, e), key) == RowRun(Lookup(rows, key), TouchesOf(key in rows, e, key))
  {
    hide Normalize, Spared, Marked, ApplyRawStats, MarkScopes, Trim, Keep, ResetRow, ResetEngines, BaselineByEngine;
    match e
    case Observe(raws, pairs, now) => BatchTouches(rows, raws, pairs, now, key);
    case Unavailable(engine, status, message, now) =>
      RowRunOne(Lookup(rows, key), Noted(StatusOr(status), Trim(message), now));
    case Scopes(markers, now) => MarksTouch(rows, markers, now, key);
    case Reset(_, _, _, _) =>
  }

  /** However many scopes a run concerns, the row of one scope goes through its own touches and nothing else. */
  lemma {:induction false} RunTouches(rows: Rows, events: seq<Event>, key: Key)
    requires QuietRun(rows, events, key)
    ensures Lookup(Run(rows, events), key) == RowRun(Lookup(rows, key), Touches(key in rows, events, key))
    decreases |events|
  {
    hide Quiet, Apply, TouchesOf, Touched;
    if events != [] {
      var init, e := events[..|events| - 1], events[|events| - 1];
      RunTouches(rows, init, key);
      var before := Touches(key in rows, init, key);
      EventTouches(Run(rows, init), e, key);
      RowRunConcat(Lookup(rows, key), before, TouchesOf(key in rows || before != [], e, key));
    }
  }
}
