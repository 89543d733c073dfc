/** Batches of observations: their equivalence with single steps, and what the repair of single-client inbounds achieves. */
module TrafficBatches {
  import opened Outcome
  import opened Text
  import opened TrafficLedger

  /** Each stat prefetched, applied and written back on its own. */
  function OneByOne(rows: Rows, stats: seq<Stat>, now: int): Rows {
    if stats == [] then rows
    else
      var r, st := OneByOne(rows, stats[..|stats| - 1], now), stats[|stats| - 1];
      Fold(r, Prefetch(r, [st]), [st], now).0
  }

  lemma SingleStep(rows: Rows, st: Stat, now: int)
    ensures Fold(rows, Prefetch(rows, [st]), [st], now).0 == rows[st.key := Observed(Lookup(rows, st.key), st, now)]
  {
    hide Observed, Remembered;
    assert [st][0] == st;
    assert [st][..0] == [];
    assert Fold(rows, Prefetch(rows, [st]), [st][..0], now) == (rows, Prefetch(rows, [st]));
  }

  /** A status under which the text of a message cannot decide whether anything was counted. */
  predicate Plain(status: string) {
    NormalizeStatus(status) != "unavailable"
  }

  /** The working copy agrees with the table except for the message of a row whose status makes the message irrelevant. */
  ghost predicate Mirrors(r: Option<Row>, w: Option<Row>) {
    match (r, w)
    case (None, None) => true
    case (Some(a), Some(b)) => a == b || (Plain(a.status) && b == a.(message := b.message))
    case _ => false
  }

  lemma MirrorsObserve(r: Option<Row>, w: Option<Row>, st: Stat, now: int)
    requires Mirrors(r, w)
    ensures Observed(r, st, now) == Observed(w, st, now)
    ensures Plain(st.status) || Trim(st.message) != "" ==> Mirrors(Some(Observed(r, st, now)), Some(Remembered(w, st, now)))
  {
    hide Trim, Token, Contains;
  }

  lemma SameMirrors(r: Option<Row>)
    ensures Mirrors(r, r)
  {
  }

  /** What a stat says besides its counters. */
  datatype Head = Head(key: Key, status: string, message: string)

  function HeadOf(st: Stat): Head {
    Head(st.key, st.status, st.message)
  }

  predicate Headed(stats: seq<Stat>, heads: seq<Head>) {
    |stats| == |heads| && forall i :: 0 <= i < |stats| ==> HeadOf(stats[i]) == heads[i]
  }

  /** The working copy would have to remember a note that it does not keep. */
  predicate Forgets(heads: seq<Head>, i: nat, j: nat) {
    i < j < |heads| && heads[i].key == heads[j].key && !Plain(heads[i].status) && Trim(heads[i].message) == ""
  }

  predicate NoneForgets(heads: seq<Head>) {
    forall i, j :: 0 <= i < j < |heads| ==> !Forgets(heads, i, j)
  }

  /** Table and working map agree on every key that the rest of the batch will look at. */
  ghost predicate MirrorAhead(r: Rows, w: Rows, stats: seq<Stat>, n: nat) {
    forall j :: n <= j < |stats| ==> Mirrors(Lookup(r, stats[j].key), Lookup(w, stats[j].key))
  }

  lemma {:induction false} BatchEqualsSingles(rows: Rows, stats: seq<Stat>, heads: seq<Head>, now: int, n: nat)
    requires n <= |stats| && Headed(stats, heads) && NoneForgets(heads)
    ensures Fold(rows, Prefetch(rows, stats), stats[..n], now).0 == OneByOne(rows, stats[..n], now)
    ensures var (r, w) := Fold(rows, Prefetch(rows, stats), stats[..n], now); MirrorAhead(r, w, stats, n)
    decreases n
  {
    hide Observed, Remembered, Plain, Mirrors, NoneForgets, Headed;
    if n == 0 {
      forall j | 0 <= j < |stats| ensures Mirrors(Lookup(rows, stats[j].key), Lookup(Prefetch(rows, stats), stats[j].key)) {
        SameMirrors(Lookup(rows, stats[j].key));
      }
    } else {
      var st := stats[n - 1];
      BatchEqualsSingles(rows, stats, heads, now, n - 1);
      assert stats[..n][..n - 1] == stats[..n - 1];
      var (r, w) := Fold(rows, Prefetch(rows, stats), stats[..n - 1], now);
      MirrorsObserve(Lookup(r, st.key), Lookup(w, st.key), st, now);
      SingleStep(r, st, now);
      MirrorsNext(r, w, stats, heads, n, now);
    }
  }

  lemma MirrorsNext(r: Rows, w: Rows, stats: seq<Stat>, heads: seq<Head>, n: nat, now: int)
    requires 0 < n <= |stats| && Headed(stats, heads) && NoneForgets(heads) && MirrorAhead(r, w, stats, n - 1)
    ensures var st := stats[n - 1];
            var r', w' := r[st.key := Observed(Lookup(r, st.key), st, now)], w[st.key := Remembered(Lookup(w, st.key), st, now)];
            MirrorAhead(r', w', stats, n)
  {
    hide Observed, Remembered, Plain, Mirrors, Trim;
    var st := stats[n - 1];
    MirrorsObserve(Lookup(r, st.key), Lookup(w, st.key), st, now);
    var r', w' := r[st.key := Observed(Lookup(r, st.key), st, now)], w[st.key := Remembered(Lookup(w, st.key), st, now)];
    forall j | n <= j < |stats| ensures Mirrors(Lookup(r', stats[j].key), Lookup(w', stats[j].key)) {
      assert Mirrors(Lookup(r, stats[j].key), Lookup(w, stats[j].key));
      if stats[j].key == st.key {
        assert !Forgets(heads, n - 1, j);
        assert HeadOf(stats[j]) == heads[j] && HeadOf(stats[n - 1]) == heads[n - 1];
      }
    }
  }

  // ---------- Where the two differ ----------

  /** Counters that make the stat at i look like a restart of the core, and let the next one of its key see bytes. */
  function Drop(heads: seq<Head>, i: nat, j: nat): seq<Stat>
    requires i < j < |heads|
  {
    seq(|heads|, k requires 0 <= k < |heads| =>
      Stat(heads[k].key, if heads[k].key != heads[i].key || k == i then 0 else if k < i then 1 else 5, 0, heads[k].status, heads[k].message))
  }

  const COUNTED := ZERO_ROW.(rawUp := 1, status := "ok")

  /** The first stat of a key after a given one. */
  ghost predicate NextOf(heads: seq<Head>, i: nat, j: nat) {
    i < j < |heads| && heads[j].key == heads[i].key && forall k :: i < k < j ==> heads[k].key != heads[i].key
  }

  lemma {:induction false} NextExists(heads: seq<Head>, i: nat, j: nat) returns (next: nat)
    requires i < j < |heads| && heads[j].key == heads[i].key
    ensures NextOf(heads, i, next)
    decreases j - i
  {
    if k: nat :| i < k < j && heads[k].key == heads[i].key {
      next := NextExists(heads, i, k);
    } else {
      next := j;
    }
  }

  /** A counted row whose counters read (1, 0), and on which nothing was gained. */
  predicate Running(r: Row) {
    r.totalUp == 0 && r.totalDown == 0 && r.rawUp == 1 && r.rawDown == 0
  }

  /** The row after the drop, as the working map remembers it. */
  predicate Blanked(w: Row) {
    && w.totalUp == 0 && w.totalDown == 0 && w.rawUp == 0 && w.rawDown == 0 && w.deltaUp == 0 && w.deltaDown == 0
    && w.rateUp == 0.0 && w.rateDown == 0.0 && w.window == 0.0 && !Plain(w.status) && w.message == ""
  }

  /** The same row as the table holds it, with the note. */
  predicate Noted(r: Row) {
    r.totalUp == 0 && r.totalDown == 0 && r.rawUp == 0 && r.rawDown == 0 && !Plain(r.status) && r.message == RESET_NOTE
  }

  /** Both counters stand at five; the totals say how much of it was gained. */
  predicate AtFive(r: Row, total: int) {
    r.totalUp == total && r.totalDown == 0 && r.rawUp == 5 && r.rawDown == 0
  }

  lemma StaysRunning(r: Row, st: Stat, now: int)
    requires Running(r) && (r.seenAt.None? || r.seenAt == Some(now)) && st.up == 1 && st.down == 0
    ensures Running(Observed(Some(r), st, now)) && Running(Remembered(Some(r), st, now))
    ensures Observed(Some(r), st, now).seenAt == Remembered(Some(r), st, now).seenAt == Some(now)
  {
    hide BaselineOnlyStatus, SuppressRecoveredRate, Trim;
  }

  lemma Drops(r: Row, st: Stat, now: int)
    requires Running(r) && (r.seenAt.None? || r.seenAt == Some(now)) && st.up == 0 && st.down == 0 && !Plain(st.status) && Trim(st.message) == ""
    ensures Noted(Observed(Some(r), st, now)) && Blanked(Remembered(Some(r), st, now))
  {
    hide BaselineOnlyStatus, SuppressRecoveredRate, Trim;
  }

  lemma NotedGains(r: Row, st: Stat, now: int)
    requires Noted(r) && st.up == 5 && st.down == 0
    ensures AtFive(Observed(Some(r), st, now), 5)
  {
    NoteIsNoBaseline(r.status);
    hide BaselineOnlyStatus, SuppressRecoveredRate, Trim, Elapsed;
  }

  lemma BlankedLoses(w: Row, st: Stat, now: int)
    requires Blanked(w) && st.up == 5 && st.down == 0
    ensures AtFive(Observed(Some(w), st, now), 0) && AtFive(Remembered(Some(w), st, now), 0)
  {
    SilenceIsBaseline(w.status);
    hide BaselineOnlyStatus, SuppressRecoveredRate, Trim, Elapsed;
  }

  lemma StaysAtFive(r: Row, st: Stat, now: int, total: int)
    requires AtFive(r, total) && st.up == 5 && st.down == 0
    ensures AtFive(Observed(Some(r), st, now), total) && AtFive(Remembered(Some(r), st, now), total)
  {
    hide BaselineOnlyStatus, SuppressRecoveredRate, Trim, Elapsed;
  }

  /** Where table and working map stand on the key in the batch, and the table one at a time, after n stats. */
  ghost predicate Apart(i: nat, j: nat, n: nat, w: Option<Row>, one: Option<Row>, now: int) {
    && w.Some? && one.Some?
    && if n <= i then Running(w.value) && Running(one.value) && Fresh(w.value, now) && Fresh(one.value, now)
       else if n <= j then Blanked(w.value) && Noted(one.value)
       else AtFive(w.value, 0) && AtFive(one.value, 5)
  }

  predicate Fresh(r: Row, now: int) {
    r.seenAt.None? || r.seenAt == Some(now)
  }

  lemma LastStep(rows: Rows, work: Rows, stats: seq<Stat>, n: nat, now: int)
    requires 0 < n <= |stats|
    ensures var (r, w) := Fold(rows, work, stats[..n - 1], now);
            var one, st := OneByOne(rows, stats[..n - 1], now), stats[n - 1];
            && Fold(rows, work, stats[..n], now) == (r[st.key := Observed(Lookup(w, st.key), st, now)], w[st.key := Remembered(Lookup(w, st.key), st, now)])
            && OneByOne(rows, stats[..n], now) == one[st.key := Observed(Lookup(one, st.key), st, now)]
  {
    hide Observed, Remembered, Prefetch;
    assert stats[..n][..n - 1] == stats[..n - 1];
    SingleStep(OneByOne(rows, stats[..n - 1], now), stats[n - 1], now);
  }

  ghost predicate ApartAt(heads: seq<Head>, i: nat, j: nat, n: nat, now: int)
    requires i < j < |heads| && n <= |heads|
  {
    var key, stats := heads[i].key, Drop(heads, i, j);
    var rows := map[key := COUNTED];
    var (r, w) := Fold(rows, rows, stats[..n], now);
    && Apart(i, j, n, Lookup(w, key), Lookup(OneByOne(rows, stats[..n], now), key), now)
    && (n > j ==> key in r && AtFive(r[key], 0))
  }

  lemma {:induction false} DropsApart(heads: seq<Head>, i: nat, j: nat, n: nat, now: int)
    requires NextOf(heads, i, j) && n <= |heads| && !Plain(heads[i].status) && Trim(heads[i].message) == ""
    ensures ApartAt(heads, i, j, n, now)
    decreases n
  {
    hide Observed, Remembered, Apart, Plain, Trim, AtFive, Fold, OneByOne;
    var key, stats := heads[i].key, Drop(heads, i, j);
    var rows := map[key := COUNTED];
    if n == 0 {
      StartsApart(i, j, now);
      NoStats(rows, stats, now);
    } else {
      DropsApart(heads, i, j, n - 1, now);
      LastStep(rows, rows, stats, n, now);
      var w := Fold(rows, rows, stats[..n - 1], now).1;
      var one := OneByOne(rows, stats[..n - 1], now);
      if heads[n - 1].key == key {
        ApartNext(heads, i, j, n, Lookup(w, key), Lookup(one, key), now);
      } else {
        ApartIdle(i, j, n, Lookup(w, key), Lookup(one, key), now);
      }
    }
  }

  lemma NoStats(rows: Rows, stats: seq<Stat>, now: int)
    ensures Fold(rows, rows, stats[..0], now) == (rows, rows) && OneByOne(rows, stats[..0], now) == rows
  {
  }

  lemma StartsApart(i: nat, j: nat, now: int)
    ensures Apart(i, j, 0, Some(COUNTED), Some(COUNTED), now)
  {
  }

  lemma ApartIdle(i: nat, j: nat, n: nat, w: Option<Row>, one: Option<Row>, now: int)
    requires 0 < n && n - 1 != i && n - 1 != j && i < j && Apart(i, j, n - 1, w, one, now)
    ensures Apart(i, j, n, w, one, now)
  {
    hide Running, Blanked, Noted, AtFive;
  }

  lemma ApartNext(heads: seq<Head>, i: nat, j: nat, n: nat, w: Option<Row>, one: Option<Row>, now: int)
    requires NextOf(heads, i, j) && 0 < n <= |heads| && heads[n - 1].key == heads[i].key
    requires !Plain(heads[i].status) && Trim(heads[i].message) == "" && Apart(i, j, n - 1, w, one, now)
    ensures var st := Drop(heads, i, j)[n - 1];
            && Apart(i, j, n, Some(Remembered(w, st, now)), Some(Observed(one, st, now)), now)
            && (n > j ==> AtFive(Observed(w, st, now), 0))
  {
    hide Observed, Remembered, Plain, Trim, Running, Blanked, Noted, AtFive;
    var st := Drop(heads, i, j)[n - 1];
    if n - 1 < i {
      StaysRunning(w.value, st, now);
      StaysRunning(one.value, st, now);
    } else if n - 1 == i {
      Drops(w.value, st, now);
      Drops(one.value, st, now);
    } else if n - 1 == j {
      BlankedLoses(w.value, st, now);
      NotedGains(one.value, st, now);
    } else {
      StaysAtFive(w.value, st, now, 0);
      StaysAtFive(one.value, st, now, 5);
    }
  }

  // ---------- Exactly when a batch is its stats one after another ----------

  ghost predicate Agree(rows: Rows, stats: seq<Stat>, now: int) {
    Fold(rows, Prefetch(rows, stats), stats, now).0 == OneByOne(rows, stats, now)
  }

  lemma ForgottenDiffers(heads: seq<Head>, i: nat, j: nat, now: int)
    requires NextOf(heads, i, j) && Forgets(heads, i, j)
    ensures Headed(Drop(heads, i, j), heads) && !Agree(map[heads[i].key := COUNTED], Drop(heads, i, j), now)
  {
    hide AtFive, Plain, Trim, Fold, OneByOne;
    var stats := Drop(heads, i, j);
    DropsApart(heads, i, j, |heads|, now);
    assert stats[..|heads|] == stats && stats[i].key == heads[i].key;
    assert Prefetch(map[heads[i].key := COUNTED], stats) == map[heads[i].key := COUNTED];
    FiveIsFive();
  }

  lemma FiveIsFive()
    ensures forall r :: !(AtFive(r, 0) && AtFive(r, 5))
  {
  }

  /**
   Given what a batch says besides its counters: it leaves every table as its stats do one after another,
   for all counters and repeated keys included, if and only if no stat whose status reads "unavailable" and whose
   message is blank is followed by a stat of the same key.
   */
  lemma BatchEqualsSinglesIff(heads: seq<Head>, now: int)
    ensures (forall rows, stats :: Headed(stats, heads) ==> Agree(rows, stats, now)) <==> NoneForgets(heads)
  {
    hide Headed, Agree, Forgets;
    if NoneForgets(heads) {
      forall rows, stats | Headed(stats, heads) ensures Agree(rows, stats, now) {
        AgreeWhole(rows, stats, heads, now);
      }
    } else {
      var i, j :| 0 <= i < j < |heads| && Forgets(heads, i, j);
      var next := NextForgets(heads, i, j);
      ForgottenDiffers(heads, i, next, now);
    }
  }

  lemma AgreeWhole(rows: Rows, stats: seq<Stat>, heads: seq<Head>, now: int)
    requires Headed(stats, heads) && NoneForgets(heads)
    ensures Agree(rows, stats, now)
  {
    hide Fold, OneByOne, NoneForgets, Headed;
    BatchEqualsSingles(rows, stats, heads, now, |stats|);
    assert stats[..|stats|] == stats;
  }

  lemma NextForgets(heads: seq<Head>, i: nat, j: nat) returns (next: nat)
    requires Forgets(heads, i, j)
    ensures NextOf(heads, i, next) && Forgets(heads, i, next)
  {
    next := NextExists(heads, i, j);
  }

  lemma SilenceIsBaseline(status: string)
    requires !Plain(status)
    ensures BaselineOnlyStatus(status, "")
  {
    assert Token("") == "";
    hide Token, Trim, Contains;
  }

  lemma NoteIsNoBaseline(status: string)
    requires !Plain(status)
    ensures !BaselineOnlyStatus(status, RESET_NOTE)
  {
    NoteIsToken();
    NoteSaysNothing();
    hide Token, Trim, Contains;
  }

  lemma NoteSaysNothing()
    ensures !Contains(RESET_NOTE, "baseline unavailable") && !Contains(RESET_NOTE, "stats offline") && !Contains(RESET_NOTE, "waiting") && RESET_NOTE != ""
  {
    NoteIsToken();
    hide Token, Trim;
    WithoutLetter(RESET_NOTE, "baseline unavailable", 'v');
    WithoutLetter(RESET_NOTE, "stats offline", 'f');
    WithoutLetter(RESET_NOTE, "waiting", 'w');
  }

  lemma NoteIsToken()
    ensures Token(RESET_NOTE) == RESET_NOTE && 'v' !in RESET_NOTE && 'f' !in RESET_NOTE && 'w' !in RESET_NOTE
  {
    hide LowerCaseLetters, Trim, Lower;
    FirstHalf();
    SecondHalf();
    NoteTrimmed();
    LowerCaseConcat("counter reset detected, ", "baseline re-established");
    LowerCase(RESET_NOTE);
  }

  lemma NoteTrimmed()
    ensures Trim(RESET_NOTE) == RESET_NOTE == "counter reset detected, " + "baseline re-established"
  {
  }

  lemma FirstHalf()
    ensures LowerCaseLetters("counter reset detected, ")
  {
  }

  lemma SecondHalf()
    ensures LowerCaseLetters("baseline re-established")
  {
  }

  lemma LowerCaseConcat(a: string, b: string)
    requires LowerCaseLetters(a) && LowerCaseLetters(b)
    ensures LowerCaseLetters(a + b)
  {
  }

  predicate LowerCaseLetters(s: string) {
    forall c :: c in s ==> !('A' <= c <= 'Z') && c != 'v' && c != 'f' && c != 'w'
  }

  lemma LowerCase(s: string)
    requires LowerCaseLetters(s)
    ensures Lower(s) == s && 'v' !in s && 'f' !in s && 'w' !in s
  {
    assert forall i :: 0 <= i < |s| ==> s[i] in s;
  }

  lemma PrefixLetter(part: string, s: string, c: char)
    requires part <= s && c in part
    ensures c in s
  {
    var i :| 0 <= i < |part| && part[i] == c;
    assert s[i] == c;
  }

  lemma {:induction false} WithoutLetter(s: string, part: string, c: char)
    requires c !in s && c in part
    ensures !Contains(s, part)
    decreases |s|
  {
    if part <= s {
      PrefixLetter(part, s, c);
    }
    if s != "" {
      WithoutLetter(s[1..], part, c);
    }
  }

  // ---------- Repair ----------

  /** Every stat of the batch was read without trouble, as the scheduler's are. */
  predicate AllOk(stats: seq<Stat>) {
    forall i :: 0 <= i < |stats| ==> stats[i].status == "ok"
  }

  predicate Seen(stats: seq<Stat>, key: Key) {
    exists i :: 0 <= i < |stats| && stats[i].key == key
  }

  /** After a fold of "ok" stats, table and working map agree on a seen key up to the message, and its status is "ok". */
  lemma {:induction false} SeenAgrees(rows: Rows, work: Rows, stats: seq<Stat>, now: int, key: Key)
    requires AllOk(stats) && Seen(stats, key)
    ensures var (r, w) := Fold(rows, work, stats, now);
            key in r && key in w && r[key].status == "ok" && w[key] == r[key].(message := w[key].message)
    decreases |stats|
  {
    hide Trim, MissingRawBaseline, CounterReset, SuppressRecoveredRate, Elapsed;
    var init, st := stats[..|stats| - 1], stats[|stats| - 1];
    if st.key != key {
      var i :| 0 <= i < |stats| && stats[i].key == key;
      assert init[i].key == key;
      SeenAgrees(rows, work, init, now, key);
    }
  }

  ghost predicate Within(rows: Rows, p: Pair) {
    && InboundKey(p) in rows && ClientKey(p) in rows
    && rows[ClientKey(p)].totalUp <= rows[InboundKey(p)].totalUp && rows[ClientKey(p)].totalDown <= rows[InboundKey(p)].totalDown
  }

  /** Table and working map agree on a pair, which is either untouched or reconciled. */
  ghost predicate PairStands(rows: Rows, work: Rows, p: Pair, ok: bool) {
    && InboundKey(p) in rows && ClientKey(p) in rows && InboundKey(p) in work && ClientKey(p) in work
    && work[InboundKey(p)] == rows[InboundKey(p)].(message := work[InboundKey(p)].message)
    && work[ClientKey(p)] == rows[ClientKey(p)].(message := work[ClientKey(p)].message)
    && rows[InboundKey(p)].status == "ok"
    && (ok ==> rows[ClientKey(p)].status == "ok")
  }

  lemma RepairOneElsewhere(rows: Rows, work: Rows, q: Pair, p: Pair, now: int)
    requires ClientKey(q) != ClientKey(p)
    ensures var (r, w) := RepairOne(rows, work, q, now);
            && (forall key :: key == ClientKey(p) || key == InboundKey(p) ==>
                  && (key in r <==> key in rows) && (key in rows ==> r[key] == rows[key])
                  && (key in w <==> key in work) && (key in work ==> w[key] == work[key]))
  {
    hide Polluted, Reconciled, Trim;
    assert ClientKey(q).scopeType == "client" && InboundKey(p).scopeType == "inbound";
    assert "client"[0] != "inbound"[0];
  }

  lemma RepairOneHeals(rows: Rows, work: Rows, p: Pair, now: int)
    requires PairStands(rows, work, p, true)
    ensures var (r, w) := RepairOne(rows, work, p, now); PairStands(r, w, p, false) && Within(r, p)
  {
    hide Trim;
    assert "client"[0] != "inbound"[0];
  }

  lemma {:induction false} RepairHeals(rows: Rows, work: Rows, pairs: seq<Pair>, stats: seq<Stat>, now: int, k: nat)
    requires k < |pairs| && Candidate(pairs[k], stats) && PairStands(rows, work, pairs[k], true)
    requires forall i, j :: 0 <= i < j < |pairs| ==> ClientKey(pairs[i]) != ClientKey(pairs[j])
    ensures var (r, w) := Repair(rows, work, pairs, stats, now); PairStands(r, w, pairs[k], false) && Within(r, pairs[k])
    decreases |pairs|
  {
    hide Candidate, RepairOne, PairStands, Within, ClientKey;
    var init, p := pairs[..|pairs| - 1], pairs[|pairs| - 1];
    var (r, w) := Repair(rows, work, init, stats, now);
    if k == |pairs| - 1 {
      RepairOthers(rows, work, init, stats, now, p);
      PairTransfers(rows, work, r, w, p, true);
      RepairOneHeals(r, w, p, now);
    } else {
      RepairHeals(rows, work, init, stats, now, k);
      RepairOneElsewhere(r, w, p, pairs[k], now);
      var (r', w') := RepairOne(r, w, p, now);
      PairTransfers(r, w, r', w', pairs[k], false);
    }
  }

  /** Both tables hold the same on the pair's two keys. */
  ghost predicate SameOn(rows: Rows, r: Rows, p: Pair) {
    forall key :: key == ClientKey(p) || key == InboundKey(p) ==> (key in r <==> key in rows) && (key in rows ==> r[key] == rows[key])
  }

  lemma PairTransfers(rows: Rows, work: Rows, r: Rows, w: Rows, p: Pair, ok: bool)
    requires PairStands(rows, work, p, ok) && SameOn(rows, r, p) && SameOn(work, w, p)
    ensures PairStands(r, w, p, ok) && (Within(rows, p) ==> Within(r, p))
  {
  }

  lemma {:induction false} RepairOthers(rows: Rows, work: Rows, pairs: seq<Pair>, stats: seq<Stat>, now: int, p: Pair)
    requires forall i :: 0 <= i < |pairs| ==> ClientKey(pairs[i]) != ClientKey(p)
    ensures var (r, w) := Repair(rows, work, pairs, stats, now); SameOn(rows, r, p) && SameOn(work, w, p)
    decreases |pairs|
  {
    hide Candidate, RepairOne, ClientKey;
    if pairs != [] {
      RepairOthers(rows, work, pairs[..|pairs| - 1], stats, now, p);
      var (r, w) := Repair(rows, work, pairs[..|pairs| - 1], stats, now);
      RepairOneElsewhere(r, w, pairs[|pairs| - 1], p, now);
    }
  }

  /** After a batch, the sole client of an inbound observed together with it never has more traffic than the inbound, in either direction. */
  lemma SoleClientWithinInbound(rows: Rows, raws: seq<RawStat>, pairs: seq<Pair>, now: int, k: nat)
    requires AllOk(Normalize(raws)) && k < |pairs|
    requires forall i, j :: 0 <= i < j < |pairs| ==> ClientKey(pairs[i]) != ClientKey(pairs[j])
    requires Trim(pairs[k].clientKey) != "" && Seen(Normalize(raws), InboundKey(pairs[k])) && Seen(Normalize(raws), ClientKey(pairs[k]))
    ensures Within(ApplyRawStats(rows, raws, pairs, now), pairs[k])
  {
    hide Normalize, Trim, Within, AllOk, ClientKey, InboundKey;
    var stats := Normalize(raws);
    var work := Prefetch(rows, stats);
    SeenAgrees(rows, work, stats, now, InboundKey(pairs[k]));
    SeenAgrees(rows, work, stats, now, ClientKey(pairs[k]));
    var (r, w) := Fold(rows, work, stats, now);
    RepairHeals(r, w, pairs, stats, now, k);
  }

  /** The table row of a sole client after its turn, from what the batch itself left of both rows. */
  ghost predicate RightlyRepaired(r: Rows, out: Rows, p: Pair, now: int)
    requires InboundKey(p) in r && ClientKey(p) in r
  {
    var inbound, client := r[InboundKey(p)], r[ClientKey(p)];
    && InboundKey(p) in out && out[InboundKey(p)] == inbound && ClientKey(p) in out
    && var after := out[ClientKey(p)];
       if client.totalUp <= inbound.totalUp && client.totalDown <= inbound.totalDown then after == client
       else
         && after.totalUp == inbound.totalUp && after.totalDown == inbound.totalDown && after.status == "partial" && after.seenAt == Some(now)
         && after.message == "client totals reconciled to native inbound counters because stored client totals exceeded the inbound total"
         && after.rawUp == client.rawUp && after.rawDown == client.rawDown && after.deltaUp == 0 && after.deltaDown == 0
         && after.rateUp == 0.0 && after.rateDown == 0.0 && after.window == 0.0
  }

  lemma RepairOneRight(rows: Rows, work: Rows, r: Rows, p: Pair, now: int)
    requires PairStands(rows, work, p, true) && SameOn(r, rows, p) && InboundKey(p) in r && ClientKey(p) in r
    ensures RightlyRepaired(r, RepairOne(rows, work, p, now).0, p, now)
  {
    hide Trim;
    assert "client"[0] != "inbound"[0];
  }

  lemma {:induction false} RepairIsRight(rows: Rows, work: Rows, pairs: seq<Pair>, stats: seq<Stat>, now: int, k: nat)
    requires k < |pairs| && Candidate(pairs[k], stats) && PairStands(rows, work, pairs[k], true)
    requires forall i, j :: 0 <= i < j < |pairs| ==> ClientKey(pairs[i]) != ClientKey(pairs[j])
    ensures InboundKey(pairs[k]) in rows && ClientKey(pairs[k]) in rows
    ensures RightlyRepaired(rows, Repair(rows, work, pairs, stats, now).0, pairs[k], now)
    decreases |pairs|
  {
    hide Candidate, RepairOne, PairStands, RightlyRepaired, ClientKey, InboundKey;
    var init, p := pairs[..|pairs| - 1], pairs[|pairs| - 1];
    var (r, w) := Repair(rows, work, init, stats, now);
    StandingKeys(rows, work, pairs[k]);
    if k == |pairs| - 1 {
      RepairOthers(rows, work, init, stats, now, p);
      PairTransfers(rows, work, r, w, p, true);
      RepairOneRight(r, w, rows, p, now);
    } else {
      RepairIsRight(rows, work, init, stats, now, k);
      RepairOneElsewhere(r, w, p, pairs[k], now);
      RightTransfers(rows, r, RepairOne(r, w, p, now).0, pairs[k], now);
    }
  }

  lemma StandingKeys(rows: Rows, work: Rows, p: Pair)
    requires PairStands(rows, work, p, true)
    ensures InboundKey(p) in rows && ClientKey(p) in rows
  {
  }

  lemma RightTransfers(rows: Rows, r: Rows, out: Rows, p: Pair, now: int)
    requires InboundKey(p) in rows && ClientKey(p) in rows && RightlyRepaired(rows, r, p, now) && SameOn(r, out, p)
    ensures RightlyRepaired(rows, out, p, now)
  {
  }

  /**
   After a batch, a sole client observed together with its inbound keeps exactly the row that the observations left
   unless it has more traffic than the inbound in some direction; then it takes the inbound's totals and reads "partial".
   */
  lemma SoleClientRepairedIff(rows: Rows, raws: seq<RawStat>, pairs: seq<Pair>, now: int, k: nat)
    requires AllOk(Normalize(raws)) && k < |pairs|
    requires forall i, j :: 0 <= i < j < |pairs| ==> ClientKey(pairs[i]) != ClientKey(pairs[j])
    requires Trim(pairs[k].clientKey) != "" && Seen(Normalize(raws), InboundKey(pairs[k])) && Seen(Normalize(raws), ClientKey(pairs[k]))
    ensures var folded := Fold(rows, Prefetch(rows, Normalize(raws)), Normalize(raws), now).0;
            && InboundKey(pairs[k]) in folded && ClientKey(pairs[k]) in folded
            && RightlyRepaired(folded, ApplyRawStats(rows, raws, pairs, now), pairs[k], now)
  {
    hide Normalize, Trim, RightlyRepaired, AllOk, ClientKey, InboundKey;
    var stats := Normalize(raws);
    var work := Prefetch(rows, stats);
    SeenAgrees(rows, work, stats, now, InboundKey(pairs[k]));
    SeenAgrees(rows, work, stats, now, ClientKey(pairs[k]));
    var (r, w) := Fold(rows, work, stats, now);
    RepairIsRight(r, w, pairs, stats, now, k);
  }
}
