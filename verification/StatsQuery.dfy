/**
 Counter names such as `user>>>alice>>>traffic>>>uplink`: how they are built, split
 and regrouped into one stat per scope, and the whole path of a query answer.

 Strings are their UTF-8 bytes. The JSON text between decoding and regrouping is
 taken as the identity, and the result of regrouping as a map, since the source
 ranges over a Go map in no fixed order.
 */
module StatsQuery {
  import opened Outcome
  import opened Varint
  import opened StatsWire

  const GT: Byte := 0x3e
  const SEP: Bytes := [0x3e, 0x3e, 0x3e]
  const USER: Bytes := [0x75, 0x73, 0x65, 0x72]
  const CLIENT: Bytes := [0x63, 0x6c, 0x69, 0x65, 0x6e, 0x74]
  const INBOUND: Bytes := [0x69, 0x6e, 0x62, 0x6f, 0x75, 0x6e, 0x64]
  const OUTBOUND: Bytes := [0x6f, 0x75, 0x74, 0x62, 0x6f, 0x75, 0x6e, 0x64]
  const CORE: Bytes := [0x63, 0x6f, 0x72, 0x65]
  const TRAFFIC: Bytes := [0x74, 0x72, 0x61, 0x66, 0x66, 0x69, 0x63]
  const UPLINK: Bytes := [0x75, 0x70, 0x6c, 0x69, 0x6e, 0x6b]
  const DOWNLINK: Bytes := [0x64, 0x6f, 0x77, 0x6e, 0x6c, 0x69, 0x6e, 0x6b]

  datatype Stat = Stat(engine: Bytes, scopeType: Bytes, scopeKey: Bytes, uplink: Int64, downlink: Int64)

  /** The source joins engine, scope and key with NUL bytes; engine is fixed and no scope name holds a NUL. */
  type ScopeKey = (Bytes, Bytes)

  // ---------- Splitting names ----------

  predicate SepAt(s: Bytes, k: int) {
    0 <= k <= |s| - 3 && s[k] == GT && s[k + 1] == GT && s[k + 2] == GT
  }

  /** Index of the first separator, or -1. */
  function Index(s: Bytes): (m: int)
    ensures m == -1 ==> forall k :: !SepAt(s, k)
    ensures m != -1 ==> SepAt(s, m) && forall k :: 0 <= k < m ==> !SepAt(s, k)
  {
    if |s| < 3 then -1
    else if SepAt(s, 0) then 0
    else
      var m := Index(s[1..]);
      assert forall k :: k > 0 && SepAt(s, k) ==> SepAt(s[1..], k - 1);
      if m == -1 then -1 else m + 1
  }

  /** `strings.Split(s, ">>>")`. */
  function Split(s: Bytes): (parts: seq<Bytes>)
    ensures |parts| >= 1
    decreases |s|
  {
    var m := Index(s);
    if m == -1 then [s] else [s[..m]] + Split(s[m + 3..])
  }

  /** The first separator is where it is said to be. */
  lemma IndexIs(s: Bytes, m: nat)
    requires SepAt(s, m) && forall k :: 0 <= k < m ==> !SepAt(s, k)
    ensures Index(s) == m
  {
  }

  predicate EndsWithGt(s: Bytes) {
    s != [] && s[|s| - 1] == GT
  }

  lemma SplitAtSep(a: Bytes, b: Bytes)
    requires Index(a) == -1 && !EndsWithGt(a)
    ensures Split(a + SEP + b) == [a] + Split(b)
  {
    hide Index;
    var s := a + SEP + b;
    forall k | 0 <= k < |a| ensures !SepAt(s, k) {
      assert s[|a| - 1] == a[|a| - 1];
      assert k + 3 <= |a| ==> SepAt(s, k) == SepAt(a, k);
    }
    assert SepAt(s, |a|);
    IndexIs(s, |a|);
    assert s[..|a|] == a && s[|a| + 3..] == b;
  }

  lemma SplitPlain(s: Bytes)
    requires GT !in s
    ensures Index(s) == -1 && !EndsWithGt(s) && Split(s) == [s]
  {
    assert forall k :: 0 <= k < |s| ==> s[k] in s;
  }

  /** What follows a key in a counter name. */
  function Tail(direction: Bytes): Bytes {
    SEP + (TRAFFIC + SEP + direction)
  }

  lemma SplitTail(direction: Bytes)
    requires GT !in direction
    ensures Split(TRAFFIC + SEP + direction) == [TRAFFIC, direction]
  {
    SplitPlain(TRAFFIC);
    SplitPlain(direction);
    SplitAtSep(TRAFFIC, direction);
  }

  lemma SplitCleanKey(key: Bytes, direction: Bytes)
    requires GT !in direction && Index(key) == -1 && !EndsWithGt(key)
    ensures Split(key + Tail(direction)) == [key, TRAFFIC, direction]
  {
    hide Split;
    SplitTail(direction);
    assert key + Tail(direction) == key + SEP + (TRAFFIC + SEP + direction);
    SplitAtSep(key, TRAFFIC + SEP + direction);
  }

  /** The excess that a key's trailing `>` puts in front of the third part. */
  function Excess(key: Bytes): Bytes
    requires EndsWithGt(key)
  {
    if |key| >= 2 && key[|key| - 2] == GT then [GT, GT] else [GT]
  }

  lemma FirstSeparator(key: Bytes, rest: Bytes)
    requires Index(key) == -1 && EndsWithGt(key)
    ensures Index(key + SEP + rest) == |key| - |Excess(key)|
  {
    hide Index;
    var s, n := key + SEP + rest, |key| - |Excess(key)|;
    assert SepAt(s, n);
    assert !SepAt(key, |key| - 3);
    forall k | 0 <= k < n ensures !SepAt(s, k) {
      assert s[k] == key[k];
      assert k + 3 <= |key| ==> SepAt(s, k) == SepAt(key, k);
    }
    IndexIs(s, n);
  }

  lemma AfterFirstSeparator(key: Bytes, rest: Bytes)
    requires EndsWithGt(key)
    ensures (key + SEP + rest)[|key| - |Excess(key)| + 3..] == Excess(key) + rest
  {
    var excess, n := Excess(key), |key| - |Excess(key)|;
    assert key == key[..n] + excess;
    assert key + SEP == key[..n] + SEP + excess;
    hide Excess;
    var front := key[..n] + SEP;
    assert key + SEP + rest == front + (excess + rest);
  }

  lemma SplitShifted(excess: Bytes, direction: Bytes)
    requires GT !in direction && (excess == [GT] || excess == [GT, GT])
    ensures Split(excess + TRAFFIC + SEP + direction) == [excess + TRAFFIC, direction]
  {
    hide Index;
    var shifted := excess + TRAFFIC;
    forall k ensures !SepAt(shifted, k) {
    }
    assert Index(shifted) == -1;
    SplitPlain(direction);
    SplitAtSep(shifted, direction);
  }

  lemma SplitOnce(s: Bytes)
    requires Index(s) != -1
    ensures Split(s) == [s[..Index(s)]] + Split(s[Index(s) + 3..])
  {
    hide Index, SepAt;
  }

  lemma SplitBeforeExcess(key: Bytes, rest: Bytes)
    requires Index(key) == -1 && EndsWithGt(key)
    ensures exists first :: Split(key + SEP + rest) == [first] + Split(Excess(key) + rest)
  {
    FirstSeparator(key, rest);
    AfterFirstSeparator(key, rest);
    SplitOnce(key + SEP + rest);
    hide *;
  }

  /** A key that ends in `>` shifts the separator: the excess lands in front of the third part. */
  lemma SplitKeyEndingInGt(key: Bytes, direction: Bytes)
    requires GT !in direction && Index(key) == -1 && EndsWithGt(key)
    ensures var parts := Split(key + Tail(direction)); |parts| == 3 && parts[1] != TRAFFIC
  {
    var excess, rest := Excess(key), TRAFFIC + SEP + direction;
    SplitBeforeExcess(key, rest);
    SplitShifted(excess, direction);
    TailIs(key, excess, direction);
    assert (excess + TRAFFIC)[0] == GT != TRAFFIC[0];
    hide *;
  }

  lemma TailIs(key: Bytes, excess: Bytes, direction: Bytes)
    ensures key + Tail(direction) == key + SEP + (TRAFFIC + SEP + direction)
    ensures excess + (TRAFFIC + SEP + direction) == excess + TRAFFIC + SEP + direction
  {
  }

  lemma {:induction false} SplitAnyKey(key: Bytes, direction: Bytes)
    requires GT !in direction
    ensures |Split(key + Tail(direction))| >= (if Index(key) == -1 then 3 else 4)
    decreases |key|
  {
    hide Index;
    var m := Index(key);
    if m == -1 {
      if EndsWithGt(key) {
        SplitKeyEndingInGt(key, direction);
      } else {
        SplitCleanKey(key, direction);
      }
    } else {
      var s := key + Tail(direction);
      assert SepAt(s, m);
      forall k | 0 <= k < m ensures !SepAt(s, k) {
        assert SepAt(s, k) ==> SepAt(key, k);
      }
      IndexIs(s, m);
      assert s[m + 3..] == key[m + 3..] + Tail(direction);
      SplitAnyKey(key[m + 3..], direction);
    }
  }

  // ---------- Names of counters ----------

  /** UTF-8 encodings of the three-byte white-space runes. */
  predicate WideSpace(a: Byte, b: Byte, c: Byte) {
    || (a == 0xe1 && b == 0x9a && c == 0x80)
    || (a == 0xe2 && b == 0x80 && (0x80 <= c <= 0x8a || c == 0xa8 || c == 0xa9 || c == 0xaf))
    || (a == 0xe2 && b == 0x81 && c == 0x9f)
    || (a == 0xe3 && b == 0x80 && c == 0x80)
  }

  /** `strings.TrimSpace(s) == ""`. */
  predicate Blank(s: Bytes) {
    if s == [] then true
    else if 0x09 <= s[0] <= 0x0d || s[0] == 0x20 then Blank(s[1..])
    else if |s| >= 2 && s[0] == 0xc2 && (s[1] == 0x85 || s[1] == 0xa0) then Blank(s[2..])
    else if |s| >= 3 && WideSpace(s[0], s[1], s[2]) then Blank(s[3..])
    else false
  }

  function NormalizedScopeType(scope: Bytes): Bytes {
    if scope == USER then CLIENT
    else if scope == INBOUND || scope == OUTBOUND || scope == CORE then scope
    else []
  }

  predicate KnownScope(scopeType: Bytes) {
    scopeType == CLIENT || scopeType == INBOUND || scopeType == OUTBOUND || scopeType == CORE
  }

  function StatName(scopeType: Bytes, scopeKey: Bytes, direction: Bytes): Bytes {
    (if scopeType == CLIENT then USER else scopeType) + SEP + (scopeKey + Tail(direction))
  }

  /** The scope, key and direction that a counter name stands for; other names are ignored. */
  function Parse(name: Bytes): Option<(Bytes, Bytes, Bytes)> {
    var parts := Split(name);
    if |parts| != 4 || parts[2] != TRAFFIC then None
    else
      var scopeType := NormalizedScopeType(parts[0]);
      if scopeType == [] || Blank(parts[1]) then None else Some((scopeType, parts[1], parts[3]))
  }

  predicate SafeKey(key: Bytes) {
    !Blank(key) && Index(key) == -1 && !EndsWithGt(key)
  }

  lemma WireScopeIsPlain(scopeType: Bytes)
    requires KnownScope(scopeType)
    ensures var wire := if scopeType == CLIENT then USER else scopeType;
            GT !in wire && NormalizedScopeType(wire) == scopeType && scopeType != []
  {
  }

  /** A counter's name parses back to its parts exactly for safe keys; any other key's counter is ignored. */
  lemma NameRoundTripIff(scopeType: Bytes, key: Bytes, direction: Bytes)
    requires KnownScope(scopeType) && (direction == UPLINK || direction == DOWNLINK)
    ensures Parse(StatName(scopeType, key, direction)) == if SafeKey(key) then Some((scopeType, key, direction)) else None
  {
    hide Blank, Index, Split, NormalizedScopeType;
    var wire := if scopeType == CLIENT then USER else scopeType;
    WireScopeIsPlain(scopeType);
    SplitPlain(wire);
    SplitAtSep(wire, key + Tail(direction));
    if Index(key) != -1 {
      SplitAnyKey(key, direction);
    } else if EndsWithGt(key) {
      SplitKeyEndingInGt(key, direction);
    } else {
      SplitCleanKey(key, direction);
    }
  }

  // ---------- Regrouping ----------

  function KeyOf(st: Stat): ScopeKey {
    (st.scopeType, st.scopeKey)
  }

  /** The map of scopes after one more decoded entry. */
  function Absorb(engine: Bytes, byScope: map<ScopeKey, Stat>, entry: RawStat): map<ScopeKey, Stat> {
    match Parse(entry.name)
    case None => byScope
    case Some((scopeType, key, direction)) =>
      var current := if (scopeType, key) in byScope then byScope[(scopeType, key)] else Stat(engine, scopeType, key, 0, 0);
      byScope[(scopeType, key) :=
        if direction == UPLINK then current.(uplink := entry.value)
        else if direction == DOWNLINK then current.(downlink := entry.value)
        else current]
  }

  function Regroup(engine: Bytes, entries: seq<RawStat>, byScope: map<ScopeKey, Stat>): map<ScopeKey, Stat> {
    if entries == [] then byScope
    else Regroup(engine, entries[1..], Absorb(engine, byScope, entries[0]))
  }

  method ParseTrafficStats(engine: Bytes, entries: seq<RawStat>) returns (byScope: map<ScopeKey, Stat>)
    ensures byScope == Regroup(engine, entries, map[])
  {
    hide Parse;
    byScope := map[];
    for i := 0 to |entries|
      invariant Regroup(engine, entries[i..], byScope) == Regroup(engine, entries, map[])
    {
      assert entries[i..][0] == entries[i] && entries[i..][1..] == entries[i + 1..];
      ghost var before := byScope;
      var parsed := Parse(entries[i].name);
      if parsed.None? {
        continue;
      }
      var (scopeType, key, direction) := parsed.value;
      if (scopeType, key) !in byScope {
        byScope := byScope[(scopeType, key) := Stat(engine, scopeType, key, 0, 0)];
      }
      var current := byScope[(scopeType, key)];
      if direction == UPLINK {
        current := current.(uplink := entries[i].value);
      } else if direction == DOWNLINK {
        current := current.(downlink := entries[i].value);
      }
      byScope := byScope[(scopeType, key) := current];
      assert byScope == Absorb(engine, before, entries[i]);
    }
  }

  lemma {:induction false} RegroupConcat(engine: Bytes, a: seq<RawStat>, b: seq<RawStat>, byScope: map<ScopeKey, Stat>)
    ensures Regroup(engine, a + b, byScope) == Regroup(engine, b, Regroup(engine, a, byScope))
    decreases |a|
  {
    hide Absorb;
    if a == [] {
      assert a + b == b;
    } else {
      assert (a + b)[1..] == a[1..] + b;
      RegroupConcat(engine, a[1..], b, Absorb(engine, byScope, a[0]));
    }
  }

  // ---------- Encoding a list of stats ----------

  predicate NonZero(st: Stat) {
    st.uplink != 0 || st.downlink != 0
  }

  function EntriesOf(st: Stat): seq<RawStat> {
    (if st.uplink != 0 then [RawStat(StatName(st.scopeType, st.scopeKey, UPLINK), st.uplink)] else [])
    + (if st.downlink != 0 then [RawStat(StatName(st.scopeType, st.scopeKey, DOWNLINK), st.downlink)] else [])
  }

  function AllEntries(stats: seq<Stat>): seq<RawStat> {
    if stats == [] then [] else AllEntries(stats[..|stats| - 1]) + EntriesOf(stats[|stats| - 1])
  }

  function EncodeEntries(entries: seq<RawStat>): Bytes {
    if entries == [] then []
    else EncodeEntries(entries[..|entries| - 1]) + StatMessage(entries[|entries| - 1].name, entries[|entries| - 1].value)
  }

  function ResponseOf(stats: seq<Stat>): Bytes {
    EncodeEntries(AllEntries(stats))
  }

  lemma EncodeOneMore(entries: seq<RawStat>, name: Bytes, value: Int64)
    ensures EncodeEntries(entries + [RawStat(name, value)]) == EncodeEntries(entries) + StatMessage(name, value)
  {
    assert (entries + [RawStat(name, value)])[..|entries|] == entries;
  }

  method EncodeQueryStatsResponse(stats: seq<Stat>) returns (out: Bytes)
    requires forall i, d :: 0 <= i < |stats| && d in [UPLINK, DOWNLINK] ==> |StatName(stats[i].scopeType, stats[i].scopeKey, d)| < SLICE_LIMIT
    ensures out == ResponseOf(stats)
  {
    hide StatMessage, StatName, EncodeEntries;
    out := [];
    assert EncodeEntries([]) == [] by {
      EncodeNothing();
    }
    for i := 0 to |stats|
      invariant out == EncodeEntries(AllEntries(stats[..i]))
    {
      assert stats[..i + 1][..i] == stats[..i];
      var st := stats[i];
      ghost var entries := AllEntries(stats[..i]);
      if st.uplink != 0 {
        assert UPLINK in [UPLINK, DOWNLINK];
        var name := StatName(st.scopeType, st.scopeKey, UPLINK);
        var message := EncodeStatMessage(name, st.uplink);
        out := out + message;
        EncodeOneMore(entries, name, st.uplink);
        entries := entries + [RawStat(name, st.uplink)];
      }
      if st.downlink != 0 {
        assert DOWNLINK in [UPLINK, DOWNLINK];
        var name := StatName(st.scopeType, st.scopeKey, DOWNLINK);
        var message := EncodeStatMessage(name, st.downlink);
        out := out + message;
        EncodeOneMore(entries, name, st.downlink);
        entries := entries + [RawStat(name, st.downlink)];
      }
      assert entries == AllEntries(stats[..i + 1]);
    }
    assert stats[..|stats|] == stats;
  }

  lemma EncodeNothing()
    ensures EncodeEntries([]) == []
  {
  }

  lemma {:induction false} EntriesRoundTrip(entries: seq<RawStat>)
    requires forall i :: 0 <= i < |entries| ==> |entries[i].name| < SLICE_LIMIT
    ensures StatsOf(EncodeEntries(entries)) == Ok(entries)
    decreases |entries|
  {
    hide StatsOf, StatMessage;
    if entries == [] {
      EmptyResponse();
    } else {
      var init, last := entries[..|entries| - 1], entries[|entries| - 1];
      EntriesRoundTrip(init);
      StatRoundTrip(last.name, last.value);
      StatsOfConcat(EncodeEntries(init), StatMessage(last.name, last.value));
      assert init + [last] == entries;
    }
  }

  lemma EmptyResponse()
    ensures StatsOf([]) == Ok([])
  {
  }

  lemma {:induction false} NamesFit(entries: seq<RawStat>, i: nat)
    requires i < |entries|
    ensures |entries[i].name| <= |EncodeEntries(entries)|
    decreases |entries|
  {
    if i < |entries| - 1 {
      NamesFit(entries[..|entries| - 1], i);
    }
  }

  // ---------- The whole path ----------

  predicate Encodable(engine: Bytes, stats: seq<Stat>) {
    && (forall i :: 0 <= i < |stats| ==> stats[i].engine == engine && KnownScope(stats[i].scopeType) && SafeKey(stats[i].scopeKey))
    && (forall i, j :: 0 <= i < j < |stats| ==> KeyOf(stats[i]) != KeyOf(stats[j]))
  }

  /** The map holds exactly the stats of the list that carry traffic, each under its own key. */
  predicate Holds(byScope: map<ScopeKey, Stat>, stats: seq<Stat>) {
    && (forall k :: k in byScope ==> byScope[k] in stats && NonZero(byScope[k]) && KeyOf(byScope[k]) == k)
    && (forall st :: st in stats && NonZero(st) ==> KeyOf(st) in byScope && byScope[KeyOf(st)] == st)
  }

  lemma AbsorbEntry(engine: Bytes, byScope: map<ScopeKey, Stat>, st: Stat, direction: Bytes, value: Int64)
    requires KnownScope(st.scopeType) && SafeKey(st.scopeKey) && (direction == UPLINK || direction == DOWNLINK)
    ensures var current := if KeyOf(st) in byScope then byScope[KeyOf(st)] else Stat(engine, st.scopeType, st.scopeKey, 0, 0);
            Absorb(engine, byScope, RawStat(StatName(st.scopeType, st.scopeKey, direction), value))
            == byScope[KeyOf(st) := if direction == UPLINK then current.(uplink := value) else current.(downlink := value)]
  {
    hide Parse, StatName;
    NameRoundTripIff(st.scopeType, st.scopeKey, direction);
  }

  lemma RegroupOne(engine: Bytes, st: Stat, byScope: map<ScopeKey, Stat>)
    requires st.engine == engine && KnownScope(st.scopeType) && SafeKey(st.scopeKey) && KeyOf(st) !in byScope
    ensures Regroup(engine, EntriesOf(st), byScope) == if NonZero(st) then byScope[KeyOf(st) := st] else byScope
  {
    hide Absorb, StatName, KnownScope, SafeKey;
    var up, down := RawStat(StatName(st.scopeType, st.scopeKey, UPLINK), st.uplink), RawStat(StatName(st.scopeType, st.scopeKey, DOWNLINK), st.downlink);
    AbsorbEntry(engine, byScope, st, UPLINK, st.uplink);
    var withUp := Absorb(engine, byScope, up);
    AbsorbEntry(engine, withUp, st, DOWNLINK, st.downlink);
    AbsorbEntry(engine, byScope, st, DOWNLINK, st.downlink);
    assert [up][1..] == [] && [down][1..] == [] && [up] + [down] == [up, down];
    RegroupConcat(engine, [up], [down], byScope);
    if st.uplink != 0 && st.downlink != 0 {
      assert EntriesOf(st) == [up, down];
    } else if st.uplink != 0 {
      assert EntriesOf(st) == [up];
    } else if st.downlink != 0 {
      assert EntriesOf(st) == [down];
    } else {
      assert EntriesOf(st) == [];
    }
  }

  lemma {:induction false} RegroupAll(engine: Bytes, stats: seq<Stat>)
    requires Encodable(engine, stats)
    ensures Holds(Regroup(engine, AllEntries(stats), map[]), stats)
    decreases |stats|
  {
    hide EntriesOf, SafeKey, KnownScope, Holds, Encodable;
    if stats == [] {
      HoldsNothing();
    } else {
      var init, st := stats[..|stats| - 1], stats[|stats| - 1];
      EncodableParts(engine, stats);
      RegroupAll(engine, init);
      var before := Regroup(engine, AllEntries(init), map[]);
      RegroupConcat(engine, AllEntries(init), EntriesOf(st), map[]);
      HoldsOneMore(before, stats);
      RegroupOne(engine, st, before);
    }
  }

  lemma HoldsNothing()
    ensures Holds(map[], [])
  {
  }

  lemma EncodableParts(engine: Bytes, stats: seq<Stat>)
    requires Encodable(engine, stats) && stats != []
    ensures Encodable(engine, stats[..|stats| - 1])
    ensures var st := stats[|stats| - 1]; st.engine == engine && KnownScope(st.scopeType) && SafeKey(st.scopeKey)
    ensures forall i :: 0 <= i < |stats| - 1 ==> KeyOf(stats[i]) != KeyOf(stats[|stats| - 1])
  {
    hide SafeKey, KnownScope, KeyOf;
  }

  lemma HoldsOneMore(before: map<ScopeKey, Stat>, stats: seq<Stat>)
    requires stats != [] && Holds(before, stats[..|stats| - 1])
    requires forall i :: 0 <= i < |stats| - 1 ==> KeyOf(stats[i]) != KeyOf(stats[|stats| - 1])
    ensures var st := stats[|stats| - 1]; KeyOf(st) !in before && Holds(if NonZero(st) then before[KeyOf(st) := st] else before, stats)
  {
    hide KeyOf, NonZero;
    var init, st := stats[..|stats| - 1], stats[|stats| - 1];
    assert stats == init + [st];
  }

  function AllMessages(messages: seq<Bytes>): Result<seq<RawStat>, DecodeError> {
    if messages == [] then Ok([])
    else
      var first := StatsOf(messages[0]);
      if first.Err? then first else Prepend(first.value, AllMessages(messages[1..]))
  }

  /** The answer of a query whose HTTP response carried the given body. */
  function QueryResult(engine: Bytes, body: Bytes): Result<map<ScopeKey, Stat>, DecodeError> {
    var messages := MessagesOf(body);
    if messages.Err? then Err(messages.error)
    else
      var entries := AllMessages(messages.value);
      if entries.Err? then Err(entries.error) else Ok(Regroup(engine, entries.value, map[]))
  }

  method QueryTrafficStats(engine: Bytes, body: Bytes) returns (r: Result<map<ScopeKey, Stat>, DecodeError>)
    ensures r == QueryResult(engine, body)
  {
    hide MessagesOf, StatsOf;
    var messages := DecodeGRPCFrames(body);
    if messages.Err? {
      return Err(messages.error);
    }
    var entries: seq<RawStat> := [];
    assert AllMessages(messages.value).Ok? ==> [] + AllMessages(messages.value).value == AllMessages(messages.value).value;
    for i := 0 to |messages.value|
      invariant Prepend(entries, AllMessages(messages.value[i..])) == AllMessages(messages.value)
    {
      var decoded := DecodeQueryStatsResponse(messages.value[i]);
      assert messages.value[i..][1..] == messages.value[i + 1..];
      if decoded.Err? {
        return Err(decoded.error);
      }
      PrependTwice(entries, decoded.value, AllMessages(messages.value[i + 1..]));
      entries := entries + decoded.value;
    }
    assert entries + [] == entries;
    var byScope := ParseTrafficStats(engine, entries);
    r := Ok(byScope);
  }

  /**
   End to end: encoding stats with known scopes, safe keys and distinct (scope, key) pairs,
   framing, unframing, decoding and regrouping gives back exactly the stats that carry traffic.
   */
  lemma QueryRoundTrip(engine: Bytes, stats: seq<Stat>)
    requires Encodable(engine, stats) && |ResponseOf(stats)| < FRAME_LIMIT
    ensures var r := QueryResult(engine, EncodeGRPCFrame(ResponseOf(stats)));
            r.Ok? && Holds(r.value, stats)
  {
    hide MessagesOf, StatsOf, EncodeGRPCFrame, Encodable, Holds, Regroup, AllEntries, EncodeEntries;
    var entries, message := AllEntries(stats), ResponseOf(stats);
    var messages: seq<Bytes> := [message];
    FrameRoundTripIff(message);
    forall i | 0 <= i < |entries| ensures |entries[i].name| < SLICE_LIMIT {
      NamesFit(entries, i);
    }
    EntriesRoundTrip(entries);
    assert messages[1..] == [];
    assert AllMessages(messages[1..]) == Ok([]);
    assert entries + [] == entries;
    assert AllMessages(messages) == Ok(entries);
    RegroupAll(engine, stats);
  }

  function Flat(messages: seq<Bytes>): Bytes {
    if messages == [] then [] else messages[0] + Flat(messages[1..])
  }

  /** However a response is split into messages that decode by themselves, the stats are those of the whole. */
  lemma {:induction false} MessagesJoin(messages: seq<Bytes>)
    requires forall i :: 0 <= i < |messages| ==> StatsOf(messages[i]).Ok?
    ensures AllMessages(messages) == StatsOf(Flat(messages)) && AllMessages(messages).Ok?
  {
    hide StatsOf;
    if messages == [] {
      NoStats();
    } else {
      MessagesJoin(messages[1..]);
      StatsOfConcat(messages[0], Flat(messages[1..]));
    }
  }

  lemma NoStats()
    ensures StatsOf([]) == Ok([])
  {
  }

  /** An answer in several frames is the answer in one, and a message that does not decode fails the query. */
  lemma FramesMakeOneAnswer(engine: Bytes, messages: seq<Bytes>)
    requires forall i :: 0 <= i < |messages| ==> |messages[i]| < FRAME_LIMIT
    ensures (forall i :: 0 <= i < |messages| ==> StatsOf(messages[i]).Ok?) ==>
              StatsOf(Flat(messages)).Ok? && QueryResult(engine, Frames(messages)) == Ok(Regroup(engine, StatsOf(Flat(messages)).value, map[]))
    ensures (exists i :: 0 <= i < |messages| && StatsOf(messages[i]).Err?) ==> QueryResult(engine, Frames(messages)).Err?
  {
    FramesRoundTrip(messages);
    hide MessagesOf, Frames, StatsOf, Regroup, AllMessages;
    if forall i :: 0 <= i < |messages| ==> StatsOf(messages[i]).Ok? {
      MessagesJoin(messages);
    } else {
      var i :| 0 <= i < |messages| && StatsOf(messages[i]).Err?;
      BadMessageFails(messages, i);
    }
  }

  lemma {:induction false} BadMessageFails(messages: seq<Bytes>, i: nat)
    requires i < |messages| && StatsOf(messages[i]).Err?
    ensures AllMessages(messages).Err?
    decreases |messages|
  {
    hide StatsOf;
    if i > 0 {
      BadMessageFails(messages[1..], i - 1);
    }
  }
}
