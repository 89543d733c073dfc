/**
 Traffic of outbound profiles: the cores count under generated tags, which are read back to ids.
 */
module OutboundTotals {
  import opened Outcome
  import opened Text
  import opened Grouping
  import opened Routing
  import Summary = TrafficSummary

  const MAX_INT64 := 0x7FFF_FFFF_FFFF_FFFF

  predicate AllDigits(s: string) {
    forall i :: 0 <= i < |s| ==> IsDigit(s[i])
  }

  /** A decimal number with an optional sign that fits 64 bits. */
  function ParseInt(s: string): Option<int> {
    var digits := if s != "" && (s[0] == '+' || s[0] == '-') then s[1..] else s;
    if digits == "" || !AllDigits(digits) then None
    else
      var size: int := Atoi(digits);
      var value := if s[0] == '-' then 0 - size else size;
      if -MAX_INT64 - 1 <= value <= MAX_INT64 then Some(value) else None
  }

  function TagPrefix(core: Core): string {
    if core.Singbox? then "singbox-out-" else "xray-out-"
  }

  function ProfileOfTag(core: Core, tag: string): (id: Option<int>)
    ensures id.Some? ==> id.value > 0
  {
    var t, prefix := Trim(tag), TagPrefix(core);
    if !(prefix <= t) then None
    else
      var id := ParseInt(t[|prefix|..]);
      if id.Some? && id.value > 0 then id else None
  }

  lemma ParseItoa(n: nat)
    ensures ParseInt(Itoa(n)) == if n <= MAX_INT64 then Some(n) else None
  {
    ItoaRoundTrip(n);
    assert IsDigit(Itoa(n)[0]);
    hide Itoa, Atoi;
  }

  lemma PrefixesAndDigits(core: Core, digit: char)
    ensures !IsSpace(TagPrefix(core)[0]) && (IsDigit(digit) ==> !IsSpace(digit))
  {
  }

  lemma GeneratedTagShape(core: Core, id: int, fallback: string)
    requires id > 0
    ensures GeneratedOutboundTag(core, id, fallback) == TagPrefix(core) + Itoa(id)
    ensures Trim(GeneratedOutboundTag(core, id, fallback)) == GeneratedOutboundTag(core, id, fallback)
  {
    hide Itoa, Trim, IsSpace;
    var tag := TagPrefix(core) + Itoa(id);
    assert tag[0] == TagPrefix(core)[0] && tag[|tag| - 1] == Itoa(id)[|Itoa(id)| - 1];
    PrefixesAndDigits(core, tag[|tag| - 1]);
  }

  /** A generated tag is read back to its id by its own core for every 64-bit id, and never by the other core. */
  lemma TagReadsBack(core: Core, id: int, fallback: string)
    requires 0 < id <= 9223372036854775807
    ensures ProfileOfTag(core, GeneratedOutboundTag(core, id, fallback)) == Some(id)
    ensures ProfileOfTag(if core.Xray? then Singbox else Xray, GeneratedOutboundTag(core, id, fallback)) == None
  {
    GeneratedTagShape(core, id, fallback);
    ParseItoa(id);
    var tag := GeneratedOutboundTag(core, id, fallback);
    assert tag[|TagPrefix(core)|..] == Itoa(id);
    assert tag[0] == TagPrefix(core)[0] != TagPrefix(if core.Xray? then Singbox else Xray)[0];
    hide Itoa, ParseInt, Trim, GeneratedOutboundTag;
  }

  // ---------- Totals ----------

  datatype Counter = Counter(core: Core, scope: string, key: string, state: Summary.State)

  datatype Traffic = Traffic(bytes: Usage, rateUp: real, rateDown: real, status: string, lastSeen: Option<int>)

  const NO_TRAFFIC := Traffic(NONE, 0.0, 0.0, "", None)

  function Profile(c: Counter): Option<int> {
    if Token(c.scope) == "outbound" then ProfileOfTag(c.core, c.key) else None
  }

  function Bytes(c: Counter): Usage {
    Usage(c.state.totalUp, c.state.totalDown)
  }

  function AddCounter(t: Traffic, c: Counter, now: int): Traffic {
    var f := Summary.Fresh(c.state, now);
    Traffic(t.bytes.Plus(Bytes(c)), t.rateUp + f.rateUp, t.rateDown + f.rateDown,
            Summary.Combine(t.status, Summary.StatusOf(f)), Summary.Latest(t.lastSeen, c.state.lastSeen))
  }

  function ByProfile(counters: seq<Counter>, now: int): map<int, Traffic> {
    if counters == [] then map[]
    else
      var last := counters[|counters| - 1];
      var m := ByProfile(counters[..|counters| - 1], now);
      var id := Profile(last);
      if id.None? then m else m[id.value := AddCounter(if id.value in m then m[id.value] else NO_TRAFFIC, last, now)]
  }

  method OutboundStatsByProfileID(counters: seq<Counter>, now: int) returns (result: map<int, Traffic>)
    ensures result == ByProfile(counters, now)
  {
    hide AddCounter, Token, ProfileOfTag;
    result := map[];
    for i := 0 to |counters|
      invariant result == ByProfile(counters[..i], now)
    {
      assert counters[..i + 1][..i] == counters[..i];
      if Token(counters[i].scope) != "outbound" {
        continue;
      }
      var id := ProfileOfTag(counters[i].core, counters[i].key);
      if id.None? {
        continue;
      }
      var current := if id.value in result then result[id.value] else NO_TRAFFIC;
      result := result[id.value := AddCounter(current, counters[i], now)];
    }
    assert counters[..|counters|] == counters;
  }

  function BytesOf(m: map<int, Traffic>): map<int, Usage> {
    map id | id in m :: m[id].bytes
  }

  lemma {:induction false} ByProfileGroups(counters: seq<Counter>, now: int)
    ensures BytesOf(ByProfile(counters, now)) == Grouped(counters, Profile, Bytes)
    decreases |counters|
  {
    hide Profile, Bytes, AddCounter, BytesOf;
    if counters == [] {
      NoBytes();
    } else {
      var init, last := counters[..|counters| - 1], counters[|counters| - 1];
      ByProfileGroups(init, now);
      var m := ByProfile(init, now);
      if Profile(last).Some? {
        CounterAdds(m, Profile(last).value, last, now);
      }
    }
  }

  lemma NoBytes()
    ensures BytesOf(map[]) == map[]
  {
  }

  lemma CounterAdds(m: map<int, Traffic>, id: int, c: Counter, now: int)
    ensures BytesOf(m[id := AddCounter(if id in m then m[id] else NO_TRAFFIC, c, now)])
         == BytesOf(m)[id := At(BytesOf(m), id).Plus(Bytes(c))]
  {
    hide Bytes, Summary.Fresh, Summary.Combine, Summary.StatusOf, Summary.Latest;
  }

  /** Every profile gets the bytes of its own tags and of nothing else, and no counter of a readable tag is lost. */
  lemma ProfileTotalsConserved(counters: seq<Counter>, now: int, id: int)
    ensures (if id in ByProfile(counters, now) then ByProfile(counters, now)[id].bytes else NONE) == SumFor(counters, Profile, Bytes, id)
    ensures MapSum(BytesOf(ByProfile(counters, now))) == SumKnown(counters, Profile, Bytes)
  {
    hide ByProfile, SumFor, Grouped, SumKnown, MapSum;
    ByProfileGroups(counters, now);
    GroupedAt(counters, Profile, Bytes, id);
    GroupedConserves(counters, Profile, Bytes);
    assert id in BytesOf(ByProfile(counters, now)) <==> id in ByProfile(counters, now);
  }

  // ---------- What a profile shows ----------

  predicate Outgoing(c: Counter) {
    Lower(Trim(c.scope)) == "outbound"
  }

  /** Counters under a generated tag count for the profile of the tag, and only counters of outbounds count at all. */
  lemma CreditedTo(c: Counter, id: int, fallback: string)
    requires 0 < id <= 9223372036854775807
    ensures Outgoing(c) && c.key == GeneratedOutboundTag(c.core, id, fallback) ==> Profile(c) == Some(id)
    ensures !Outgoing(c) ==> Profile(c) == None
  {
    TagReadsBack(c.core, id, fallback);
    hide ProfileOfTag, GeneratedOutboundTag, Trim, Lower;
  }

  predicate TooOld(s: Summary.State, now: int) {
    s.lastSeen.Some? && now > s.lastSeen.value + 180_000_000_000 && Trim(s.status) !in {"stale", "unsupported", "not_configured"}
  }

  /** The sum over the profile's counters that are not too old. */
  function RateOf(counters: seq<Counter>, now: int, id: int, f: Summary.State -> real): real {
    if counters == [] then 0.0
    else
      var c := counters[|counters| - 1];
      RateOf(counters[..|counters| - 1], now, id, f) + if Profile(c) == Some(id) && !TooOld(c.state, now) then f(c.state) else 0.0
  }

  function Shown(counters: seq<Counter>, now: int, id: int): Traffic {
    if id in ByProfile(counters, now) then ByProfile(counters, now)[id] else NO_TRAFFIC
  }

  lemma ShownStep(counters: seq<Counter>, now: int, id: int)
    requires counters != []
    ensures var before, last := Shown(counters[..|counters| - 1], now, id), counters[|counters| - 1];
            Shown(counters, now, id) == if Profile(last) == Some(id) then AddCounter(before, last, now) else before
  {
    hide Profile, AddCounter;
  }

  /** The rates of a profile are those of its counters that are not too old. */
  lemma {:induction false} ProfileRates(counters: seq<Counter>, now: int, id: int)
    ensures Shown(counters, now, id).rateUp == RateOf(counters, now, id, (s: Summary.State) => s.rateUp)
    ensures Shown(counters, now, id).rateDown == RateOf(counters, now, id, (s: Summary.State) => s.rateDown)
    decreases |counters|
  {
    hide Profile, TooOld, AddCounter;
    if counters != [] {
      var init, last := counters[..|counters| - 1], counters[|counters| - 1];
      ProfileRates(init, now, id);
      ShownStep(counters, now, id);
      RatesAdded(Shown(init, now, id), last, now);
      hide Shown;
    }
  }

  lemma RatesAdded(t: Traffic, c: Counter, now: int)
    ensures var u := AddCounter(t, c, now);
            && u.rateUp == t.rateUp + (if TooOld(c.state, now) then 0.0 else c.state.rateUp)
            && u.rateDown == t.rateDown + (if TooOld(c.state, now) then 0.0 else c.state.rateDown)
  {
    hide Trim;
  }

  /** A profile was last seen when the latest of its counters was. */
  lemma {:induction false} ProfileSeen(counters: seq<Counter>, now: int, i: nat)
    requires i < |counters| && Profile(counters[i]).Some? && counters[i].state.lastSeen.Some?
    ensures var id := Profile(counters[i]).value;
            id in ByProfile(counters, now) && ByProfile(counters, now)[id].lastSeen.Some?
            && ByProfile(counters, now)[id].lastSeen.value >= counters[i].state.lastSeen.value
    decreases |counters|
  {
    hide Profile, Summary.Fresh, Summary.Combine, Summary.StatusOf;
    if i < |counters| - 1 {
      ProfileSeen(counters[..|counters| - 1], now, i);
    }
  }

  function SumOf(counters: seq<Counter>, id: int, f: Summary.State -> int): int {
    if counters == [] then 0
    else
      var c := counters[|counters| - 1];
      SumOf(counters[..|counters| - 1], id, f) + if Profile(c) == Some(id) then f(c.state) else 0
  }

  /** The totals of a profile are the sums over its counters, in each direction. */
  lemma {:induction false} ProfileBytes(counters: seq<Counter>, now: int, id: int)
    ensures Shown(counters, now, id).bytes.up == SumOf(counters, id, (s: Summary.State) => s.totalUp)
    ensures Shown(counters, now, id).bytes.down == SumOf(counters, id, (s: Summary.State) => s.totalDown)
    decreases |counters|
  {
    hide Profile, Summary.Fresh, Summary.Combine, Summary.StatusOf, Summary.Latest;
    if counters != [] {
      ProfileBytes(counters[..|counters| - 1], now, id);
      ShownStep(counters, now, id);
      hide Shown;
    }
  }
}
