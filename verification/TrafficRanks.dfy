/**
 Which samples the analytics look at, how inbounds without a counter borrow their clients' samples, the
 rankings, and the agreement of all views.
 */
module TrafficRanks {
  import opened Outcome
  import opened Grouping
  import opened Text
  import opened TrafficAnalytics
  import Summary = TrafficSummary

  // ---------- Selecting samples ----------

  function Underscored(s: string): (t: string)
    ensures |t| == |s| && forall i :: 0 <= i < |s| ==> t[i] != '-' && (s[i] != '-' ==> t[i] == s[i]) && (s[i] == '-' ==> t[i] == '_')
  {
    seq(|s|, i requires 0 <= i < |s| => if s[i] == '-' then '_' else s[i])
  }

  function Scope(s: Sample): string {
    Token(Underscored(s.scope))
  }

  /** What a scope expects to be counted: engine and key. */
  type Source = (string, string)

  function SourceOf(s: Sample): Source {
    (Engine(s), s.key)
  }

  /** Samples of the scope, or of no stated scope, from an expected source. */
  function Filter(samples: seq<Sample>, scope: string, expected: set<Source>): seq<Sample> {
    if samples == [] then []
    else
      var last := samples[|samples| - 1];
      Filter(samples[..|samples| - 1], scope, expected) +
      (if (last.scope == "" || Scope(last) == scope) && SourceOf(last) in expected then [last] else [])
  }

  /** A sample is kept, in its place, exactly if its source is expected and it states the scope or none. */
  lemma FilterOneMore(samples: seq<Sample>, s: Sample, scope: string, expected: set<Source>)
    ensures Filter(samples + [s], scope, expected)
         == Filter(samples, scope, expected)
            + if (s.scope == "" || Lower(Trim(Underscored(s.scope))) == scope) && (EngineName(s.engine), s.key) in expected then [s] else []
  {
    assert (samples + [s])[..|samples|] == samples;
    hide Underscored, Trim, Lower;
  }

  function EngineName(engine: string): string {
    if Lower(Trim(engine)) == "sing-box" then "singbox" else Lower(Trim(engine))
  }

  /** Expected sources name an engine and a key. */
  predicate Named(expected: set<Source>) {
    forall s :: s in expected ==> s.0 != "" && Trim(s.1) != ""
  }

  /** A source is selected if it is expected and occurs, which every sample of it makes it do. */
  method FilterSamples(samples: seq<Sample>, scope: string, expected: set<Source>) returns (filtered: seq<Sample>)
    requires Named(expected)
    ensures filtered == Filter(samples, scope, expected)
  {
    hide Scope, Engine, Trim;
    var occurring: set<Source> := {};
    for i := 0 to |samples|
      invariant forall j :: 0 <= j < i && Engine(samples[j]) != "" && Trim(samples[j].key) != "" ==> SourceOf(samples[j]) in occurring
    {
      if Trim(samples[i].key) == "" || Engine(samples[i]) == "" {
        continue;
      }
      occurring := occurring + {SourceOf(samples[i])};
    }
    var allowed := expected * occurring;
    filtered := [];
    for i := 0 to |samples|
      invariant filtered == Filter(samples[..i], scope, expected)
    {
      assert samples[..i + 1][..i] == samples[..i] && filtered + [] == filtered;
      assert SourceOf(samples[i]) in expected ==> SourceOf(samples[i]).0 != "" && Trim(SourceOf(samples[i]).1) != "";
      if samples[i].scope != "" && Scope(samples[i]) != scope {
        continue;
      }
      if SourceOf(samples[i]) !in allowed {
        continue;
      }
      filtered := filtered + [samples[i]];
    }
    assert samples[..|samples|] == samples;
  }

  lemma {:induction false} FilterSelects(samples: seq<Sample>, scope: string, expected: set<Source>, i: nat)
    requires i < |Filter(samples, scope, expected)|
    ensures var s := Filter(samples, scope, expected)[i]; s in samples && SourceOf(s) in expected && (s.scope == "" || Scope(s) == scope)
    decreases |samples|
  {
    hide Scope, SourceOf;
    var init := samples[..|samples| - 1];
    if i < |Filter(init, scope, expected)| {
      FilterSelects(init, scope, expected, i);
      var s := Filter(samples, scope, expected)[i];
      var j :| 0 <= j < |init| && init[j] == s;
      assert samples[j] == s;
    }
  }

  // ---------- Ranking ----------

  datatype Ranked<K> = Ranked(key: K, name: string, bytes: Usage)

  const DEFAULT_TOP := 5

  /** Dictionary order. */
  predicate NotAfter(a: string, b: string) {
    a == "" || (b != "" && (a[0] < b[0] || (a[0] == b[0] && NotAfter(a[1..], b[1..]))))
  }

  lemma {:induction false} NotAfterTotal(a: string, b: string)
    ensures NotAfter(a, b) || NotAfter(b, a)
  {
    if a != "" && b != "" && a[0] == b[0] {
      NotAfterTotal(a[1..], b[1..]);
    }
  }

  lemma {:induction false} NotAfterTransitive(a: string, b: string, c: string)
    requires NotAfter(a, b) && NotAfter(b, c)
    ensures NotAfter(a, c)
  {
    if a != "" && a[0] == b[0] == c[0] {
      NotAfterTransitive(a[1..], b[1..], c[1..]);
    }
  }

  /** More bytes come first, and equal ones go by label. */
  predicate MayPrecede<K>(a: Ranked<K>, b: Ranked<K>) {
    a.bytes.Total() > b.bytes.Total() || (a.bytes.Total() == b.bytes.Total() && NotAfter(a.name, b.name))
  }

  lemma PrecedesTransitive<K>(a: Ranked<K>, b: Ranked<K>, c: Ranked<K>)
    requires MayPrecede(a, b) && MayPrecede(b, c)
    ensures MayPrecede(a, c)
  {
    hide NotAfter;
    if a.bytes.Total() == b.bytes.Total() == c.bytes.Total() {
      NotAfterTransitive(a.name, b.name, c.name);
    }
  }

  predicate Descending<K>(ranks: seq<Ranked<K>>) {
    forall i, j :: 0 <= i < j < |ranks| ==> MayPrecede(ranks[i], ranks[j])
  }

  ghost predicate Distinct<K>(ranks: seq<Ranked<K>>) {
    forall i, j :: 0 <= i < j < |ranks| ==> ranks[i].key != ranks[j].key
  }

  function RankSum<K>(ranks: seq<Ranked<K>>): Usage {
    if ranks == [] then NONE else RankSum(ranks[..|ranks| - 1]).Plus(ranks[|ranks| - 1].bytes)
  }

  /** How many ranks stay in front of this one. */
  function RankPlace<K>(ranks: seq<Ranked<K>>, r: Ranked<K>): (n: nat)
    ensures n <= |ranks|
  {
    if ranks == [] || MayPrecede(ranks[|ranks| - 1], r) then |ranks| else RankPlace(ranks[..|ranks| - 1], r)
  }

  function Ranking<K>(ranks: seq<Ranked<K>>, r: Ranked<K>): seq<Ranked<K>> {
    var n := RankPlace(ranks, r);
    ranks[..n] + [r] + ranks[n..]
  }

  lemma {:induction false} RankPlaceParts<K>(ranks: seq<Ranked<K>>, r: Ranked<K>)
    requires Descending(ranks)
    ensures var n := RankPlace(ranks, r);
            && (forall i :: 0 <= i < n ==> MayPrecede(ranks[i], r))
            && (forall i :: n <= i < |ranks| ==> MayPrecede(r, ranks[i]))
    decreases |ranks|
  {
    hide MayPrecede;
    if ranks != [] {
      var last := ranks[|ranks| - 1];
      if MayPrecede(last, r) {
        forall i | 0 <= i < |ranks| - 1 ensures MayPrecede(ranks[i], r) {
          PrecedesTransitive(ranks[i], last, r);
        }
      } else {
        EitherPrecedes(last, r);
        RankPlaceParts(ranks[..|ranks| - 1], r);
      }
    }
  }

  lemma EitherPrecedes<K>(a: Ranked<K>, b: Ranked<K>)
    ensures MayPrecede(a, b) || MayPrecede(b, a)
  {
    NotAfterTotal(a.name, b.name);
    hide NotAfter;
  }

  lemma RankingDescends<K>(ranks: seq<Ranked<K>>, r: Ranked<K>)
    requires Descending(ranks)
    ensures Descending(Ranking(ranks, r))
  {
    RankPlaceParts(ranks, r);
    hide MayPrecede, RankPlace;
  }

  lemma {:induction false} RankSumConcat<K>(a: seq<Ranked<K>>, b: seq<Ranked<K>>)
    ensures RankSum(a + b) == RankSum(a).Plus(RankSum(b))
    decreases |b|
  {
    if b == [] {
      assert a + b == a;
    } else {
      RankSumConcat(a, b[..|b| - 1]);
      assert (a + b)[..|a + b| - 1] == a + b[..|b| - 1];
    }
  }

  lemma RankingAdds<K>(ranks: seq<Ranked<K>>, r: Ranked<K>)
    ensures RankSum(Ranking(ranks, r)) == RankSum(ranks).Plus(r.bytes)
  {
    hide RankPlace;
    var n := RankPlace(ranks, r);
    RankSumConcat(ranks[..n] + [r], ranks[n..]);
    RankSumConcat(ranks[..n], [r]);
    RankSumConcat(ranks[..n], ranks[n..]);
    assert ranks[..n] + ranks[n..] == ranks;
    assert [r][..0] == [];
  }

  /** A rank entry for every key of the map, once. */
  ghost predicate Ranks<K(!new)>(ranks: seq<Ranked<K>>, m: map<K, Usage>, name: K -> string) {
    && Distinct(ranks) && Descending(ranks)
    && (forall i :: 0 <= i < |ranks| ==> ranks[i].key in m && ranks[i] == Ranked(ranks[i].key, name(ranks[i].key), m[ranks[i].key]))
    && (forall k :: k in m ==> Listed(ranks, k))
  }

  ghost predicate Listed<K(!new)>(ranks: seq<Ranked<K>>, k: K) {
    exists i :: 0 <= i < |ranks| && ranks[i].key == k
  }

  lemma RanksMore<K(!new)>(ranks: seq<Ranked<K>>, m: map<K, Usage>, name: K -> string, k: K, u: Usage)
    requires Ranks(ranks, m, name) && k !in m
    ensures Ranks(Ranking(ranks, Ranked(k, name(k), u)), m[k := u], name)
  {
    hide Descending;
    var r := Ranked(k, name(k), u);
    var n := RankPlace(ranks, r);
    RankingDescends(ranks, r);
    RanksPut(ranks, m, name, r, n);
    hide RankPlace, Listed, Distinct;
  }

  /** An entry put at any place of a ranking, apart from the order. */
  lemma RanksPut<K(!new)>(ranks: seq<Ranked<K>>, m: map<K, Usage>, name: K -> string, r: Ranked<K>, n: nat)
    requires Ranks(ranks, m, name) && r.key !in m && n <= |ranks|
    ensures var longer, more := ranks[..n] + [r] + ranks[n..], m[r.key := r.bytes];
            && Distinct(longer) && (forall key :: key in more ==> Listed(longer, key))
            && (forall i :: 0 <= i < |longer| ==> longer[i] == r || (longer[i].key in m && longer[i] == Ranked(longer[i].key, name(longer[i].key), m[longer[i].key])))
  {
    hide Descending;
    var longer := ranks[..n] + [r] + ranks[n..];
    assert longer[n] == r;
    forall key | key in m ensures Listed(longer, key) {
      assert Listed(ranks, key);
      var i :| 0 <= i < |ranks| && ranks[i].key == key;
      assert longer[if i < n then i else i + 1].key == key;
    }
  }

  /** Every key of the items has its place. */
  ghost predicate Complete<K(!new)>(ranks: seq<Ranked<K>>, samples: seq<Sample>, key: Sample -> Option<K>) {
    forall k :: HasKey(samples, key, k) ==> Listed(ranks, k)
  }

  function EntryOf<K(==)>(samples: seq<Sample>, key: Sample -> Option<K>, name: K -> string, k: K): Ranked<K> {
    Ranked(k, name(k), SumFor(samples, key, Delta, k))
  }

  /**
   The largest keys of the samples with their labels and bytes, each once, in order, and no more than
   the limit. A key is left out only if the limit is reached, and nothing that is listed would have to stand behind it.
   */
  ghost predicate IsTop<K(!new)>(ranks: seq<Ranked<K>>, samples: seq<Sample>, key: Sample -> Option<K>, name: K -> string, limit: nat) {
    && Distinct(ranks) && Descending(ranks) && |ranks| <= limit
    && (forall i :: 0 <= i < |ranks| ==> HasKey(samples, key, ranks[i].key) && ranks[i] == EntryOf(samples, key, name, ranks[i].key))
    && (|ranks| < limit ==> Complete(ranks, samples, key))
    && (forall k :: HasKey(samples, key, k) && !Listed(ranks, k) ==>
          forall i :: 0 <= i < |ranks| ==> MayPrecede(ranks[i], EntryOf(samples, key, name, k)))
  }

  /** Adds the usable samples up by key, sorts the sums and keeps the largest; if no key is left out, no byte is. */
  method Rank<K(==, !new)>(samples: seq<Sample>, key: Sample -> Option<K>, name: K -> string, top: int) returns (ranks: seq<Ranked<K>>)
    ensures IsTop(ranks, samples, key, name, if top > 0 then top else 5)
    ensures Complete(ranks, samples, key) ==> RankSum(ranks) == SumKnown(samples, key, Delta)
  {
    hide SumFor, SumKnown, MapSum, Ranks, Ranking, RankSum, IsTop, Complete;
    var byKey := GroupSamples(samples, key);
    var all := SortRanks(byKey, name);
    var limit := if top <= 0 then DEFAULT_TOP else top;
    ranks := if |all| > limit then all[..limit] else all;
    GroupedConserves(samples, key, Delta);
    CutIsTop(all, samples, key, name, limit);
  }

  method GroupSamples<K(==)>(samples: seq<Sample>, key: Sample -> Option<K>) returns (m: map<K, Usage>)
    ensures m == Grouped(samples, key, Delta)
  {
    m := map[];
    for i := 0 to |samples|
      invariant m == Grouped(samples[..i], key, Delta)
    {
      assert samples[..i + 1][..i] == samples[..i];
      var k := key(samples[i]);
      if k.None? {
        continue;
      }
      m := AddTo(m, k.value, samples[i].delta);
    }
    assert samples[..|samples|] == samples;
  }

  /** Walks the map in any order and puts every entry at its place. */
  method SortRanks<K(==, !new)>(m: map<K, Usage>, name: K -> string) returns (ranks: seq<Ranked<K>>)
    ensures Ranks(ranks, m, name) && RankSum(ranks) == MapSum(m)
  {
    hide Ranking, RankSum, MapSum, Ranks;
    ranks := [];
    var done: map<K, Usage> := map[];
    EmptySum<K>();
    EmptyRanks(name);
    var left := m.Keys;
    while left != {}
      invariant left == m.Keys - done.Keys && done.Keys <= m.Keys && forall k :: k in done ==> done[k] == m[k]
      invariant Ranks(ranks, done, name) && RankSum(ranks) == MapSum(done)
      decreases left
    {
      var k :| k in left;
      RankedMore(ranks, done, name, k, m[k]);
      ranks := Ranking(ranks, Ranked(k, name(k), m[k]));
      done := done[k := m[k]];
      left := left - {k};
    }
    assert m.Keys == left + done.Keys;
    assert done == m;
  }

  lemma RankedMore<K(!new)>(ranks: seq<Ranked<K>>, m: map<K, Usage>, name: K -> string, k: K, u: Usage)
    requires Ranks(ranks, m, name) && k !in m
    ensures var more := Ranking(ranks, Ranked(k, name(k), u));
            Ranks(more, m[k := u], name) && (RankSum(ranks) == MapSum(m) ==> RankSum(more) == MapSum(m[k := u]))
  {
    RanksMore(ranks, m, name, k, u);
    RankingAdds(ranks, Ranked(k, name(k), u));
    MapSumAdd(m, k, u);
    PlusNone(u);
    hide *;
  }

  lemma EmptyRanks<K(!new)>(name: K -> string)
    ensures Ranks([], map[], name) && RankSum<K>([]) == NONE
  {
  }

  /** What a full ranking of the sums says about the samples. */
  lemma AllRanked<K(!new)>(all: seq<Ranked<K>>, samples: seq<Sample>, key: Sample -> Option<K>, name: K -> string)
    requires Ranks(all, Grouped(samples, key, Delta), name)
    ensures Distinct(all) && Descending(all) && Complete(all, samples, key)
    ensures forall i :: 0 <= i < |all| ==> HasKey(samples, key, all[i].key) && all[i] == EntryOf(samples, key, name, all[i].key)
  {
    hide Grouped, SumFor, HasKey, Listed, Distinct, Descending;
    forall i | 0 <= i < |all| ensures HasKey(samples, key, all[i].key) && all[i] == EntryOf(samples, key, name, all[i].key) {
      GroupedKeys(samples, key, Delta, all[i].key);
      GroupedAt(samples, key, Delta, all[i].key);
    }
    forall k | HasKey(samples, key, k) ensures Listed(all, k) {
      GroupedKeys(samples, key, Delta, k);
    }
  }

  /** The first entry of a list of distinct keys that a cut leaves out is not listed any more. */
  lemma CutLeavesOut<K(!new)>(all: seq<Ranked<K>>, limit: nat)
    requires Distinct(all) && |all| > limit
    ensures !Listed(all[..limit], all[limit].key)
  {
  }

  /** What a cut leaves out stands behind everything it keeps, and if every key is kept nothing was cut. */
  lemma CutIsTop<K(!new)>(all: seq<Ranked<K>>, samples: seq<Sample>, key: Sample -> Option<K>, name: K -> string, limit: nat)
    requires Ranks(all, Grouped(samples, key, Delta), name)
    ensures var ranks := if |all| > limit then all[..limit] else all;
            IsTop(ranks, samples, key, name, limit) && (Complete(ranks, samples, key) ==> ranks == all)
  {
    hide Ranks, MayPrecede, HasKey, SumFor, Grouped, EntryOf;
    AllRanked(all, samples, key, name);
    var ranks := if |all| > limit then all[..limit] else all;
    assert forall i :: 0 <= i < |ranks| ==> Listed(ranks, ranks[i].key);
    forall k | HasKey(samples, key, k) && !Listed(ranks, k)
      ensures forall i :: 0 <= i < |ranks| ==> MayPrecede(ranks[i], EntryOf(samples, key, name, k))
    {
      assert Listed(all, k);
      var j :| 0 <= j < |all| && all[j].key == k;
      assert forall i :: 0 <= i < |ranks| ==> ranks[i] == all[i];
    }
    if |all| > limit {
      CutLeavesOut(all, limit);
      assert HasKey(samples, key, all[limit].key);
    }
  }

  // ---------- Inbounds without a counter ----------

  /** An instant of an inbound, as a core names it. */
  datatype Spot = Spot(at: int, engine: string, key: string)

  function SpotOf(s: Sample): Spot {
    Spot(s.at, Engine(s), Trim(s.key))
  }

  /** The spots that an inbound's own usable samples cover. */
  function NativeSpots(samples: seq<Sample>): set<Spot> {
    if samples == [] then {}
    else
      var s := samples[|samples| - 1];
      NativeSpots(samples[..|samples| - 1]) +
      (if Scope(s) == "inbound" && Trim(s.key) != "" && Engine(s) != "" && CanAggregate(s) then {SpotOf(s)} else {})
  }

  /** The inbound that an enabled client's counter belongs to, by engine and key. */
  function HomesOf(homes: map<Source, string>, inbound: Inbound, clients: seq<Client>): map<Source, string> {
    if clients == [] then homes
    else
      var m, c := HomesOf(homes, inbound, clients[..|clients| - 1]), clients[|clients| - 1];
      if c.enabled && c.key != "" then m[(inbound.engine, c.key) := inbound.key] else m
  }

  function Homes(inbounds: seq<Inbound>): map<Source, string> {
    if inbounds == [] then map[]
    else HomesOf(Homes(inbounds[..|inbounds| - 1]), inbounds[|inbounds| - 1], inbounds[|inbounds| - 1].clients)
  }

  /** The spot a client's sample stands in for, unless the inbound covers it. */
  function StandIn(homes: map<Source, string>, native: set<Spot>): Sample -> Option<Spot> {
    (s: Sample) =>
      if SourceOf(s) !in homes then None
      else
        var spot := Spot(s.at, Engine(s), homes[SourceOf(s)]);
        if spot in native || !CanAggregate(s) then None else Some(spot)
  }

  /** The keys in the order of their first sample. */
  function Appearing<K(==)>(samples: seq<Sample>, key: Sample -> Option<K>): seq<K> {
    if samples == [] then []
    else
      var order, k := Appearing(samples[..|samples| - 1], key), key(samples[|samples| - 1]);
      if k.None? || k.value in order then order else order + [k.value]
  }

  /** The sample made up for a spot from clients. */
  function MadeSample(bytes: map<Spot, Usage>, status: Spot -> string): Spot -> Sample {
    (spot: Spot) => Sample(spot.at, spot.engine, "inbound", spot.key, status(spot), At(bytes, spot))
  }

  /** An unusable sample of a spot gives way to the made-up one. */
  function GivesWay(spots: set<Spot>): Sample -> bool {
    (s: Sample) => SpotOf(s) in spots && !CanAggregate(s)
  }

  /** Where a client's sample belongs, whether or not it is usable. */
  function Belongs(homes: map<Source, string>, native: set<Spot>, s: Sample): Option<Spot> {
    if SourceOf(s) !in homes then None
    else
      var spot := Spot(s.at, Engine(s), homes[SourceOf(s)]);
      if spot in native then None else Some(spot)
  }

  /** The last status seen of every client at every spot. */
  function KnownStatuses(samples: seq<Sample>, homes: map<Source, string>, native: set<Spot>): map<(Spot, string), string> {
    if samples == [] then map[]
    else
      var s := samples[|samples| - 1];
      var m, spot := KnownStatuses(samples[..|samples| - 1], homes, native), Belongs(homes, native, s);
      if spot.None? then m else m[(spot.value, s.key) := s.status]
  }

  /** The keys of the enabled clients of an inbound. */
  function ClientKeys(inbound: Inbound, clients: seq<Client>): seq<string> {
    if clients == [] then []
    else
      var c := clients[|clients| - 1];
      ClientKeys(inbound, clients[..|clients| - 1]) + (if c.enabled && c.key != "" then [c.key] else [])
  }

  function KeysAt(inbounds: seq<Inbound>, spot: Spot): seq<string> {
    if inbounds == [] then []
    else
      var last := inbounds[|inbounds| - 1];
      KeysAt(inbounds[..|inbounds| - 1], spot) +
      (if last.engine == spot.engine && last.key == spot.key then ClientKeys(last, last.clients) else [])
  }

  /** The inbound is that of the spot, and the key one of its enabled clients'. */
  ghost predicate Speaks(inbound: Inbound, spot: Spot, key: string) {
    inbound.engine == spot.engine && inbound.key == spot.key && HasEnabled(inbound.clients, key)
  }

  lemma KeysAtStep(inbounds: seq<Inbound>, spot: Spot, key: string)
    requires inbounds != []
    ensures key in KeysAt(inbounds, spot) <==> key in KeysAt(inbounds[..|inbounds| - 1], spot) || Speaks(inbounds[|inbounds| - 1], spot, key)
  {
    hide HasEnabled, ClientKeys;
    ClientKeysIs(inbounds[|inbounds| - 1], inbounds[|inbounds| - 1].clients, key);
  }

  ghost predicate SomeSpeaks(inbounds: seq<Inbound>, spot: Spot, key: string) {
    exists i :: 0 <= i < |inbounds| && Speaks(inbounds[i], spot, key)
  }

  lemma SomeSpeaksStep(inbounds: seq<Inbound>, spot: Spot, key: string)
    requires inbounds != []
    ensures SomeSpeaks(inbounds, spot, key) <==> SomeSpeaks(inbounds[..|inbounds| - 1], spot, key) || Speaks(inbounds[|inbounds| - 1], spot, key)
  {
    hide Speaks;
    var n := |inbounds| - 1;
    if SomeSpeaks(inbounds[..n], spot, key) {
      var i :| 0 <= i < n && Speaks(inbounds[..n][i], spot, key);
      assert Speaks(inbounds[i], spot, key);
    }
    if SomeSpeaks(inbounds, spot, key) {
      var i :| 0 <= i < |inbounds| && Speaks(inbounds[i], spot, key);
      assert i < n ==> Speaks(inbounds[..n][i], spot, key);
    }
  }

  /** The clients that have a say at a spot: those of its inbound that are enabled and have a key. */
  lemma {:induction false} KeysAtIs(inbounds: seq<Inbound>, spot: Spot, key: string)
    ensures key in KeysAt(inbounds, spot) <==> SomeSpeaks(inbounds, spot, key)
    decreases |inbounds|
  {
    hide Speaks, KeysAt, SomeSpeaks;
    if inbounds == [] {
      NobodySpeaks(spot, key);
    } else {
      KeysAtIs(inbounds[..|inbounds| - 1], spot, key);
      KeysAtStep(inbounds, spot, key);
      SomeSpeaksStep(inbounds, spot, key);
    }
  }

  lemma NobodySpeaks(spot: Spot, key: string)
    ensures KeysAt([], spot) == [] && !SomeSpeaks([], spot, key)
  {
  }

  ghost predicate HasEnabled(clients: seq<Client>, key: string) {
    key != "" && exists j :: 0 <= j < |clients| && clients[j].enabled && clients[j].key == key
  }

  lemma {:induction false} ClientKeysIs(inbound: Inbound, clients: seq<Client>, key: string)
    ensures key in ClientKeys(inbound, clients) <==> HasEnabled(clients, key)
    decreases |clients|
  {
    if clients != [] {
      var n := |clients| - 1;
      ClientKeysIs(inbound, clients[..n], key);
      assert forall j :: 0 <= j < n ==> clients[..n][j] == clients[j];
    }
  }

  function ReadStatus(known: map<(Spot, string), string>, spot: Spot, key: string): string {
    if (spot, key) in known && Trim(known[(spot, key)]) != "" then known[(spot, key)] else "waiting"
  }

  function JoinStatuses(known: map<(Spot, string), string>, spot: Spot, keys: seq<string>): string {
    if keys == [] then ""
    else Summary.Combine(JoinStatuses(known, spot, keys[..|keys| - 1]), ReadStatus(known, spot, keys[|keys| - 1]))
  }

  function StatusAt(clients: seq<Sample>, inbounds: seq<Inbound>, native: set<Spot>): Spot -> string {
    (spot: Spot) => JoinStatuses(KnownStatuses(clients, Homes(inbounds), native), spot, KeysAt(inbounds, spot))
  }

  function WithFallback(native: seq<Sample>, clients: seq<Sample>, inbounds: seq<Inbound>): seq<Sample> {
    var spots := NativeSpots(native);
    var key := StandIn(Homes(inbounds), spots);
    var bytes := Grouped(clients, key, Delta);
    Without(native, GivesWay(bytes.Keys)) + Mapped(Appearing(clients, key), MadeSample(bytes, StatusAt(clients, inbounds, spots)))
  }

  lemma {:induction false} AppearingKeys<K(!new)>(samples: seq<Sample>, key: Sample -> Option<K>)
    ensures ListsKeys(Appearing(samples, key), Grouped(samples, key, Delta))
    decreases |samples|
  {
    if samples != [] {
      var init, k := samples[..|samples| - 1], key(samples[|samples| - 1]);
      AppearingKeys(init, key);
      var order, m := Appearing(init, key), Grouped(init, key, Delta);
      if k.Some? {
        if k.value !in order {
          assert (order + [k.value])[|order|] == k.value;
          assert forall j :: j in order ==> j in order + [k.value];
        }
      }
    }
  }

  lemma NoneGivesWay(samples: seq<Sample>)
    ensures Without(samples, GivesWay({})) == samples
  {
    hide Without;
    WithoutNone(samples, GivesWay({}));
  }

  method CollectNative(samples: seq<Sample>) returns (native: set<Spot>)
    ensures native == NativeSpots(samples)
  {
    hide Scope, CanAggregate, Engine, Trim;
    native := {};
    for i := 0 to |samples|
      invariant native == NativeSpots(samples[..i])
    {
      assert samples[..i + 1][..i] == samples[..i] && native + {} == native;
      if Scope(samples[i]) != "inbound" {
        continue;
      }
      if Trim(samples[i].key) != "" && Engine(samples[i]) != "" && CanAggregate(samples[i]) {
        native := native + {SpotOf(samples[i])};
      }
    }
    assert samples[..|samples|] == samples;
  }

  method CollectHomes(inbounds: seq<Inbound>) returns (homes: map<Source, string>)
    ensures homes == Homes(inbounds)
  {
    homes := map[];
    for i := 0 to |inbounds|
      invariant homes == Homes(inbounds[..i])
    {
      assert inbounds[..i + 1][..i] == inbounds[..i];
      var inbound := inbounds[i];
      ghost var before := homes;
      for j := 0 to |inbound.clients|
        invariant homes == HomesOf(before, inbound, inbound.clients[..j])
      {
        assert inbound.clients[..j + 1][..j] == inbound.clients[..j];
        var client := inbound.clients[j];
        if !client.enabled || client.key == "" {
          continue;
        }
        homes := homes[(inbound.engine, client.key) := inbound.key];
      }
      assert inbound.clients[..|inbound.clients|] == inbound.clients;
    }
    assert inbounds[..|inbounds|] == inbounds;
  }

  /** Adds up the clients' samples by the spot they stand in for. */
  method Aggregate(samples: seq<Sample>, homes: map<Source, string>, native: set<Spot>)
    returns (bytes: map<Spot, Usage>, order: seq<Spot>, known: map<(Spot, string), string>)
    ensures bytes == Grouped(samples, StandIn(homes, native), Delta) && order == Appearing(samples, StandIn(homes, native))
    ensures known == KnownStatuses(samples, homes, native)
  {
    hide CanAggregate, Engine;
    bytes, order, known := map[], [], map[];
    for i := 0 to |samples|
      invariant bytes == Grouped(samples[..i], StandIn(homes, native), Delta)
      invariant order == Appearing(samples[..i], StandIn(homes, native))
      invariant known == KnownStatuses(samples[..i], homes, native)
    {
      assert samples[..i + 1][..i] == samples[..i];
      var s := samples[i];
      AppearingKeys(samples[..i], StandIn(homes, native));
      if SourceOf(s) !in homes {
        continue;
      }
      var spot := Spot(s.at, Engine(s), homes[SourceOf(s)]);
      if spot in native {
        continue;
      }
      known := known[(spot, s.key) := s.status];
      if !CanAggregate(s) {
        continue;
      }
      if spot !in bytes {
        order := order + [spot];
      }
      bytes := AddTo(bytes, spot, s.delta);
    }
    assert samples[..|samples|] == samples;
  }

  /** The inbounds' samples, completed from their clients where no usable one was taken. */
  method Fallback(native: seq<Sample>, clients: seq<Sample>, inbounds: seq<Inbound>) returns (result: seq<Sample>)
    ensures result == WithFallback(native, clients, inbounds)
  {
    hide StatusAt, Homes, NativeSpots, StandIn, Without, GivesWay, Appearing, Grouped;
    if |clients| == 0 {
      NothingMade(native, inbounds);
      return native;
    }
    var spots := CollectNative(native);
    var homes := CollectHomes(inbounds);
    var bytes, order, known := Aggregate(clients, homes, spots);
    AppearingKeys(clients, StandIn(homes, spots));
    StatusIs(clients, inbounds, spots);
    var made := Mapped(order, (spot: Spot) => Sample(spot.at, spot.engine, "inbound", spot.key, JoinStatuses(known, spot, KeysAt(inbounds, spot)), At(bytes, spot)));
    assert made == Mapped(order, MadeSample(bytes, StatusAt(clients, inbounds, spots)));
    result := Without(native, GivesWay(bytes.Keys)) + made;
  }

  lemma NothingMade(native: seq<Sample>, inbounds: seq<Inbound>)
    ensures WithFallback(native, [], inbounds) == native
  {
    NoneGivesWay(native);
    var bytes: map<Spot, Usage> := map[];
    assert bytes.Keys == {};
    assert native + [] == native;
  }

  lemma StatusIs(clients: seq<Sample>, inbounds: seq<Inbound>, native: set<Spot>)
    ensures var known := KnownStatuses(clients, Homes(inbounds), native);
            forall spot :: StatusAt(clients, inbounds, native)(spot) == JoinStatuses(known, spot, KeysAt(inbounds, spot))
  {
  }

  // ---------- Nothing is counted twice ----------

  /** Where the bytes of a sample count. */
  function Counted(s: Sample): Option<Spot> {
    if CanAggregate(s) then Some(SpotOf(s)) else None
  }

  /** Samples of an inbound's own counter, as the filter lets them through with their scope stated. */
  predicate Native(s: Sample) {
    Scope(s) == "inbound" && Trim(s.key) != "" && Engine(s) != ""
  }

  /** Inbounds are known by the names the cores and the panel use. */
  predicate Canonical(inbound: Inbound) {
    Trim(inbound.key) == inbound.key
  }

  lemma {:induction false} NativeSpotsHas(samples: seq<Sample>, i: nat)
    requires i < |samples| && Native(samples[i]) && CanAggregate(samples[i])
    ensures SpotOf(samples[i]) in NativeSpots(samples)
    decreases |samples|
  {
    hide CanAggregate, SpotOf, Scope, Trim, Engine;
    if i < |samples| - 1 {
      NativeSpotsHas(samples[..|samples| - 1], i);
    }
  }

  lemma {:induction false} StandInsUncovered(samples: seq<Sample>, homes: map<Source, string>, native: set<Spot>, spot: Spot)
    requires spot in Grouped(samples, StandIn(homes, native), Delta)
    ensures spot !in native
  {
    GroupedKeys(samples, StandIn(homes, native), Delta, spot);
    var i :| 0 <= i < |samples| && StandIn(homes, native)(samples[i]) == Some(spot);
  }

  /** A made-up spot never has a usable sample of the inbound's own. */
  lemma NeverBoth(native: seq<Sample>, clients: seq<Sample>, inbounds: seq<Inbound>, i: nat, spot: Spot)
    requires i < |native| && Native(native[i]) && CanAggregate(native[i])
    requires spot in Grouped(clients, StandIn(Homes(inbounds), NativeSpots(native)), Delta)
    ensures SpotOf(native[i]) != spot
  {
    NativeSpotsHas(native, i);
    StandInsUncovered(clients, Homes(inbounds), NativeSpots(native), spot);
  }

  /** A spot named as samples name it. */
  predicate Settled(spot: Spot) {
    Trim(spot.key) == spot.key && (if Token(spot.engine) == "sing-box" then "singbox" else Token(spot.engine)) == spot.engine
  }

  lemma MadeSampleCounts(bytes: map<Spot, Usage>, status: Spot -> string, spot: Spot)
    requires Settled(spot)
    ensures var s := MadeSample(bytes, status)(spot); Counted(s) == if CanAggregate(s) then Some(spot) else None
    ensures Delta(MadeSample(bytes, status)(spot)) == At(bytes, spot)
  {
    hide CanAggregate, Token, Trim;
  }

  lemma EngineSettles(s: Sample)
    ensures (if Token(Engine(s)) == "sing-box" then "singbox" else Token(Engine(s))) == Engine(s)
  {
    assert Lower("singbox") == "singbox" && Trim("singbox") == "singbox";
    assert "singbox"[4] != "sing-box"[4];
    hide Trim, Lower;
  }

  lemma {:induction false} HomesCanonical(inbounds: seq<Inbound>, source: Source)
    requires forall i :: 0 <= i < |inbounds| ==> Canonical(inbounds[i])
    ensures source in Homes(inbounds) ==> Trim(Homes(inbounds)[source]) == Homes(inbounds)[source]
    decreases |inbounds|
  {
    hide Trim;
    if inbounds != [] {
      var init, last := inbounds[..|inbounds| - 1], inbounds[|inbounds| - 1];
      HomesCanonical(init, source);
      HomesFrom(Homes(init), last, last.clients, source);
    }
  }

  lemma {:induction false} HomesFrom(homes: map<Source, string>, inbound: Inbound, clients: seq<Client>, source: Source)
    ensures var m := HomesOf(homes, inbound, clients);
            source in m ==> m[source] == inbound.key || (source in homes && m[source] == homes[source])
    decreases |clients|
  {
    if clients != [] {
      HomesFrom(homes, inbound, clients[..|clients| - 1], source);
    }
  }

  lemma StandInSettled(homes: map<Source, string>, native: set<Spot>, s: Sample)
    requires SourceOf(s) in homes ==> Trim(homes[SourceOf(s)]) == homes[SourceOf(s)]
    ensures var spot := StandIn(homes, native)(s); spot.Some? ==> Settled(spot.value)
  {
    EngineSettles(s);
    hide Engine, Token, Trim, CanAggregate;
  }

  // ---------- When clients make up for their inbound ----------

  /** Two texts that both say something, and not the same. */
  predicate Disagree(a: string, b: string) {
    a != b && a != Summary.LOW && b != Summary.LOW
  }

  ghost predicate Mixed(texts: seq<string>) {
    exists i, j :: 0 <= i < j < |texts| && Disagree(texts[i], texts[j])
  }

  function JoinTexts(texts: seq<string>): string {
    if texts == [] then "" else Summary.Join(JoinTexts(texts[..|texts| - 1]), texts[|texts| - 1], Summary.LOW, Summary.HIGH)
  }

  /** Statuses that disagree join to "partial"; otherwise the one that says something is left. */
  ghost predicate JoinedAs(texts: seq<string>, joined: string) {
    if Mixed(texts) then joined == Summary.HIGH
    else (exists i :: 0 <= i < |texts| && texts[i] == joined) && forall i :: 0 <= i < |texts| ==> texts[i] == Summary.LOW || texts[i] == joined
  }

  lemma {:induction false} JoinTextsIs(texts: seq<string>)
    requires texts != [] && forall i :: 0 <= i < |texts| ==> texts[i] != ""
    ensures JoinTexts(texts) != "" && JoinedAs(texts, JoinTexts(texts))
    decreases |texts|
  {
    var init, last := texts[..|texts| - 1], texts[|texts| - 1];
    if init == [] {
      assert texts[0] == last;
    } else {
      JoinTextsIs(init);
      JoinedMore(init, JoinTexts(init), last);
      assert texts == init + [last];
    }
  }

  lemma JoinedMore(texts: seq<string>, joined: string, last: string)
    requires texts != [] && joined != "" && last != "" && JoinedAs(texts, joined)
    ensures var more := Summary.Join(joined, last, Summary.LOW, Summary.HIGH); more != "" && JoinedAs(texts + [last], more)
  {
    var longer := texts + [last];
    assert longer[|texts|] == last && Summary.LOW[0] != Summary.HIGH[0];
    if Mixed(texts) {
      var i, j :| 0 <= i < j < |texts| && Disagree(texts[i], texts[j]);
      assert Disagree(longer[i], longer[j]);
    } else {
      var i :| 0 <= i < |texts| && texts[i] == joined;
      assert longer[i] == joined;
      if Disagree(joined, last) {
        assert Disagree(longer[i], longer[|texts|]);
      } else {
        NotMixedMore(texts, last, joined);
      }
    }
  }

  lemma NotMixedMore(texts: seq<string>, last: string, joined: string)
    requires !Mixed(texts) && !Disagree(joined, last) && forall i :: 0 <= i < |texts| ==> texts[i] == Summary.LOW || texts[i] == joined
    ensures !Mixed(texts + [last])
  {
  }

  lemma UsableTexts()
    ensures !UsableStatus(Summary.LOW) && UsableStatus(Summary.HIGH) && !UsableStatus("waiting")
  {
    hide Token, Trim;
    TokenKeeps(Summary.LOW);
    TokenKeeps(Summary.HIGH);
    TokenKeeps("waiting");
    assert |Summary.LOW| == 14 && |"waiting"| == 7;
  }

  lemma UsableTrimmed(status: string)
    ensures UsableStatus(Trim(status)) <==> UsableStatus(status)
  {
    TrimSettles(status);
    hide Trim;
  }

  /** What the clients of a spot say, one text each. */
  function Readings(known: map<(Spot, string), string>, spot: Spot, keys: seq<string>): seq<string> {
    if keys == [] then []
    else Readings(known, spot, keys[..|keys| - 1]) + [Trim(ReadStatus(known, spot, keys[|keys| - 1]))]
  }

  lemma {:induction false} ReadingsAt(known: map<(Spot, string), string>, spot: Spot, keys: seq<string>)
    ensures var texts := Readings(known, spot, keys);
            |texts| == |keys| && forall i :: 0 <= i < |keys| ==> texts[i] == Trim(ReadStatus(known, spot, keys[i])) && texts[i] != ""
    decreases |keys|
  {
    hide Trim;
    if keys != [] {
      assert Trim("waiting") == "waiting";
      ReadingsAt(known, spot, keys[..|keys| - 1]);
    }
  }

  lemma {:induction false} JoinReadings(known: map<(Spot, string), string>, spot: Spot, keys: seq<string>)
    ensures JoinStatuses(known, spot, keys) == JoinTexts(Readings(known, spot, keys)) == Trim(JoinStatuses(known, spot, keys))
    decreases |keys|
  {
    assert Trim("") == "";
    hide Trim, ReadStatus, Summary.Join;
    if keys != [] {
      var n := |keys| - 1;
      JoinReadings(known, spot, keys[..n]);
      assert Readings(known, spot, keys)[..n] == Readings(known, spot, keys[..n]) by { ReadingsAt(known, spot, keys[..n]); }
      ReadingsAt(known, spot, keys);
    }
  }

  /** Some client's status is usable, or two clients say different things, which counts as partial. */
  ghost predicate Credible(texts: seq<string>) {
    Mixed(texts) || exists i :: 0 <= i < |texts| && UsableStatus(texts[i])
  }

  lemma CredibleIff(texts: seq<string>)
    requires texts != [] && forall i :: 0 <= i < |texts| ==> texts[i] != ""
    ensures UsableStatus(JoinTexts(texts)) <==> Credible(texts)
  {
    hide UsableStatus, Mixed, JoinTexts;
    JoinTextsIs(texts);
    UsableTexts();
  }

  function SpotReadings(clients: seq<Sample>, inbounds: seq<Inbound>, native: set<Spot>, spot: Spot): seq<string> {
    Readings(KnownStatuses(clients, Homes(inbounds), native), spot, KeysAt(inbounds, spot))
  }

  lemma {:induction false} HomesListed(inbounds: seq<Inbound>, source: Source, at: int)
    requires source in Homes(inbounds)
    ensures source.1 in KeysAt(inbounds, Spot(at, source.0, Homes(inbounds)[source]))
    decreases |inbounds|
  {
    var n := |inbounds| - 1;
    HomesOfListed(Homes(inbounds[..n]), inbounds[n], inbounds[n].clients, source);
    if source in Homes(inbounds[..n]) {
      HomesListed(inbounds[..n], source, at);
    }
  }

  lemma {:induction false} HomesOfListed(homes: map<Source, string>, inbound: Inbound, clients: seq<Client>, source: Source)
    requires source in HomesOf(homes, inbound, clients)
    ensures (source in homes && HomesOf(homes, inbound, clients)[source] == homes[source])
         || (source.0 == inbound.engine && HomesOf(homes, inbound, clients)[source] == inbound.key && source.1 in ClientKeys(inbound, clients))
    decreases |clients|
  {
    if clients != [] {
      var n := |clients| - 1;
      if clients[n].enabled && clients[n].key != "" && source == (inbound.engine, clients[n].key) {
        assert ClientKeys(inbound, clients)[|ClientKeys(inbound, clients[..n])|] == source.1;
      } else {
        HomesOfListed(homes, inbound, clients[..n], source);
      }
    }
  }

  /** The made-up sample of a spot is usable exactly if its clients' statuses are credible. */
  lemma MadeUsableIff(clients: seq<Sample>, inbounds: seq<Inbound>, spots: set<Spot>, k: Spot)
    requires k in Grouped(clients, StandIn(Homes(inbounds), spots), Delta)
    ensures var made := MadeSample(Grouped(clients, StandIn(Homes(inbounds), spots), Delta), StatusAt(clients, inbounds, spots))(k);
            CanAggregate(made) <==> Credible(SpotReadings(clients, inbounds, spots, k))
  {
    hide UsableStatus, Homes, Grouped, Credible, KnownStatuses, KeysAt, JoinStatuses, JoinTexts, Readings;
    GroupedKeys(clients, StandIn(Homes(inbounds), spots), Delta, k);
    var i :| 0 <= i < |clients| && StandIn(Homes(inbounds), spots)(clients[i]) == Some(k);
    HomesListed(inbounds, SourceOf(clients[i]), clients[i].at);
    var known, keys := KnownStatuses(clients, Homes(inbounds), spots), KeysAt(inbounds, k);
    ReadingsAt(known, k, keys);
    JoinReadings(known, k, keys);
    CredibleIff(Readings(known, k, keys));
  }

  /**
   What an inbound is credited with at an instant: the usable samples of its own counter if there are
   any, and otherwise what its clients' usable samples add up to, if and only if some enabled client's status
   is usable or two of them say different things.
   */
  lemma CreditedOnce(native: seq<Sample>, clients: seq<Sample>, inbounds: seq<Inbound>, k: Spot)
    requires forall i :: 0 <= i < |native| ==> Native(native[i])
    requires forall i :: 0 <= i < |inbounds| ==> Canonical(inbounds[i])
    ensures var spots := NativeSpots(native);
            SumFor(WithFallback(native, clients, inbounds), Counted, Delta, k)
            == if k in spots then SumFor(native, Counted, Delta, k)
               else if Credible(SpotReadings(clients, inbounds, spots, k)) then SumFor(clients, StandIn(Homes(inbounds), spots), Delta, k)
               else NONE
  {
    hide *;
    var spots := NativeSpots(native);
    var key := StandIn(Homes(inbounds), spots);
    CreditSplits(native, clients, inbounds, k);
    PlusNone(SumFor(native, Counted, Delta, k));
    PlusNone(SumFor(clients, key, Delta, k));
    if k in spots {
      CoveredMakesNothing(clients, Homes(inbounds), spots, k);
    } else {
      UncoveredCountsNothing(native, k);
      if k in Grouped(clients, key, Delta) {
        MadeUsableIff(clients, inbounds, spots, k);
      } else {
        NotGroupedIsNone(clients, key, k);
      }
    }
  }

  lemma NotGroupedIsNone(clients: seq<Sample>, key: Sample -> Option<Spot>, k: Spot)
    requires k !in Grouped(clients, key, Delta)
    ensures SumFor(clients, key, Delta, k) == NONE
  {
    GroupedAt(clients, key, Delta, k);
    hide Grouped, SumFor;
  }

  /** Every sample has a status, and no source has two samples of one instant, as the table of samples keeps them. */
  predicate Kept(samples: seq<Sample>) {
    && (forall i :: 0 <= i < |samples| ==> Trim(samples[i].status) != "")
    && (forall i, j :: 0 <= i < j < |samples| ==> samples[i].at != samples[j].at || SourceOf(samples[i]) != SourceOf(samples[j]))
  }

  lemma {:induction false} KnownIs(samples: seq<Sample>, homes: map<Source, string>, native: set<Spot>, i: nat)
    requires Kept(samples) && i < |samples| && Belongs(homes, native, samples[i]).Some?
    ensures var known, at := KnownStatuses(samples, homes, native), (Belongs(homes, native, samples[i]).value, samples[i].key);
            at in known && known[at] == samples[i].status
    decreases |samples|
  {
    hide Trim, Engine;
    var n := |samples| - 1;
    if i < n {
      KnownIs(samples[..n], homes, native, i);
    }
  }

  /** With such samples no byte of a client is lost: an inbound without its own usable samples is credited with all of them. */
  lemma NothingLost(native: seq<Sample>, clients: seq<Sample>, inbounds: seq<Inbound>, k: Spot)
    requires forall i :: 0 <= i < |native| ==> Native(native[i])
    requires forall i :: 0 <= i < |inbounds| ==> Canonical(inbounds[i])
    requires Kept(clients)
    ensures var spots := NativeSpots(native);
            SumFor(WithFallback(native, clients, inbounds), Counted, Delta, k)
            == if k in spots then SumFor(native, Counted, Delta, k) else SumFor(clients, StandIn(Homes(inbounds), spots), Delta, k)
  {
    hide *;
    var spots := NativeSpots(native);
    CreditedOnce(native, clients, inbounds, k);
    if k !in spots {
      if k in Grouped(clients, StandIn(Homes(inbounds), spots), Delta) {
        KeptIsCredible(clients, inbounds, spots, k);
      } else {
        NotGroupedIsNone(clients, StandIn(Homes(inbounds), spots), k);
      }
    }
  }

  lemma KeptIsCredible(clients: seq<Sample>, inbounds: seq<Inbound>, spots: set<Spot>, k: Spot)
    requires Kept(clients) && k in Grouped(clients, StandIn(Homes(inbounds), spots), Delta)
    ensures Credible(SpotReadings(clients, inbounds, spots, k))
  {
    hide UsableStatus, Homes, Grouped, KnownStatuses, KeysAt, Readings, Engine, Mixed;
    GroupedKeys(clients, StandIn(Homes(inbounds), spots), Delta, k);
    var i :| 0 <= i < |clients| && StandIn(Homes(inbounds), spots)(clients[i]) == Some(k);
    HomesListed(inbounds, SourceOf(clients[i]), clients[i].at);
    KnownIs(clients, Homes(inbounds), spots, i);
    var known, keys := KnownStatuses(clients, Homes(inbounds), spots), KeysAt(inbounds, k);
    ReadingsAt(known, k, keys);
    var j :| 0 <= j < |keys| && keys[j] == clients[i].key;
    UsableTrimmed(clients[i].status);
    assert UsableStatus(Readings(known, k, keys)[j]);
  }

  const HOUSE := Inbound("house", "House", "xray", [Client("alice", "Alice", true)])

  lemma HouseHome()
    ensures Homes([HOUSE]) == map[("xray", "alice") := "house"] && Trim("house") == "house"
    ensures forall at :: KeysAt([HOUSE], Spot(at, "xray", "house")) == ["alice"]
  {
    var clients := HOUSE.clients;
    assert clients[..0] == [] && [HOUSE][..0] == [];
    assert HomesOf(map[], HOUSE, clients[..0]) == map[] && ClientKeys(HOUSE, clients[..0]) == [];
    assert Homes([HOUSE][..0]) == map[];
    assert HomesOf(map[], HOUSE, clients) == map[("xray", "alice") := "house"];
    assert ClientKeys(HOUSE, clients) == ["alice"];
    forall at ensures KeysAt([HOUSE], Spot(at, "xray", "house")) == ["alice"] {
      assert KeysAt([HOUSE][..0], Spot(at, "xray", "house")) == [];
    }
    hide Trim;
    TokenKeeps("house");
  }

  lemma BlankSample(bytes: Usage)
    ensures var sample := Sample(0, "xray", "client", "alice", "", bytes);
            Engine(sample) == "xray" && CanAggregate(sample) && SourceOf(sample) == ("xray", "alice")
  {
    assert Token("") == "" && |"xray"| != |"sing-box"|;
    hide Token;
    TokenKeeps("xray");
  }

  lemma BlankCounts(sample: Sample, spot: Spot, homes: map<Source, string>)
    requires StandIn(homes, {})(sample) == Some(spot)
    ensures SumFor([sample], StandIn(homes, {}), Delta, spot) == sample.delta
  {
    hide StandIn;
    assert [sample][..0] == [];
    assert SumFor([sample][..0], StandIn(homes, {}), Delta, spot) == NONE;
    PlusNone(sample.delta);
  }

  lemma BlankIsWaiting(sample: Sample, spot: Spot, homes: map<Source, string>)
    requires Belongs(homes, {}, sample) == Some(spot) && sample.key == "alice" && sample.status == ""
    ensures !Credible(Readings(KnownStatuses([sample], homes, {}), spot, ["alice"]))
  {
    hide Belongs, UsableStatus, Token;
    assert [sample][..0] == [];
    assert KnownStatuses([sample][..0], homes, {}) == map[];
    var known := KnownStatuses([sample], homes, {});
    assert known == map[(spot, "alice") := ""] && Trim("") == "";
    hide Trim;
    ReadingsAt(known, spot, ["alice"]);
    TokenKeeps("waiting");
    UsableTexts();
  }

  /** The usable bytes of a sole client without a status are lost: it is taken to be waiting. */
  lemma BlankStatusLoses(bytes: Usage)
    ensures var sample, spot := Sample(0, "xray", "client", "alice", "", bytes), Spot(0, "xray", "house");
            && SumFor([sample], StandIn(Homes([HOUSE]), NativeSpots([])), Delta, spot) == bytes
            && SumFor(WithFallback([], [sample], [HOUSE]), Counted, Delta, spot) == NONE
  {
    var sample, spot := Sample(0, "xray", "client", "alice", "", bytes), Spot(0, "xray", "house");
    HouseHome();
    BlankSample(bytes);
    BlankCounts(sample, spot, Homes([HOUSE]));
    BlankIsWaiting(sample, spot, Homes([HOUSE]));
    CreditedOnce([], [sample], [HOUSE], spot);
    hide Homes, KeysAt, SumFor, Credible, Readings, WithFallback, Engine, CanAggregate, Trim;
  }

  lemma CoveredMakesNothing(clients: seq<Sample>, homes: map<Source, string>, spots: set<Spot>, k: Spot)
    requires k in spots
    ensures k !in Grouped(clients, StandIn(homes, spots), Delta)
  {
    hide Grouped, StandIn;
    if k in Grouped(clients, StandIn(homes, spots), Delta) {
      StandInsUncovered(clients, homes, spots, k);
    }
  }

  lemma PlusNone(u: Usage)
    ensures u.Plus(NONE) == u == NONE.Plus(u) && NONE.Plus(NONE) == NONE
  {
  }

  /** The credit of a spot is what its native samples count for and what its made-up sample counts for. */
  lemma CreditSplits(native: seq<Sample>, clients: seq<Sample>, inbounds: seq<Inbound>, k: Spot)
    requires forall i :: 0 <= i < |inbounds| ==> Canonical(inbounds[i])
    ensures var spots := NativeSpots(native);
            var key := StandIn(Homes(inbounds), spots);
            var bytes := Grouped(clients, key, Delta);
            SumFor(WithFallback(native, clients, inbounds), Counted, Delta, k)
            == SumFor(native, Counted, Delta, k).Plus(
                 if k in bytes && CanAggregate(MadeSample(bytes, StatusAt(clients, inbounds, spots))(k)) then SumFor(clients, key, Delta, k) else NONE)
  {
    hide CanAggregate, SumFor, MadeSample, StandIn, NativeSpots, Homes, Counted, StatusAt, Canonical, Without, Mapped, GivesWay, Appearing, Grouped;
    var spots := NativeSpots(native);
    var key := StandIn(Homes(inbounds), spots);
    var bytes := Grouped(clients, key, Delta);
    MadeUpCredit(clients, inbounds, spots, k);
    GivesWayUncounted(bytes.Keys);
    WithoutCounts(native, GivesWay(bytes.Keys), Counted, Delta, k);
    SumForConcat(Without(native, GivesWay(bytes.Keys)), Mapped(Appearing(clients, key), MadeSample(bytes, StatusAt(clients, inbounds, spots))), Counted, Delta, k);
  }

  /** What the made-up samples count for. */
  lemma MadeUpCredit(clients: seq<Sample>, inbounds: seq<Inbound>, spots: set<Spot>, k: Spot)
    requires forall i :: 0 <= i < |inbounds| ==> Canonical(inbounds[i])
    ensures var key := StandIn(Homes(inbounds), spots);
            var bytes := Grouped(clients, key, Delta);
            var make := MadeSample(bytes, StatusAt(clients, inbounds, spots));
            SumFor(Mapped(Appearing(clients, key), make), Counted, Delta, k)
            == if k in bytes && CanAggregate(make(k)) then SumFor(clients, key, Delta, k) else NONE
  {
    hide CanAggregate, SumFor, Settled, MadeSample, StandIn, Homes, Counted, StatusAt, Canonical, Mapped, Appearing, Grouped;
    var key := StandIn(Homes(inbounds), spots);
    var bytes, order := Grouped(clients, key, Delta), Appearing(clients, key);
    var make := MadeSample(bytes, StatusAt(clients, inbounds, spots));
    AppearingKeys(clients, key);
    forall i | 0 <= i < |order| ensures Counted(make(order[i])) == if CanAggregate(make(order[i])) then Some(order[i]) else None {
      MadeSpotsSettled(clients, inbounds, spots, order[i]);
      MadeSampleCounts(bytes, StatusAt(clients, inbounds, spots), order[i]);
    }
    MappedCounts(order, make, Counted, Delta, k);
    GroupedAt(clients, key, Delta, k);
    ListedOrNot(order, bytes, k);
    if k in bytes {
      MadeSpotsSettled(clients, inbounds, spots, k);
      MadeSampleCounts(bytes, StatusAt(clients, inbounds, spots), k);
    }
  }

  lemma ListedOrNot(order: seq<Spot>, bytes: map<Spot, Usage>, k: Spot)
    requires ListsKeys(order, bytes)
    ensures k in order <==> k in bytes
  {
  }

  lemma MadeSpotsSettled(clients: seq<Sample>, inbounds: seq<Inbound>, native: set<Spot>, spot: Spot)
    requires forall i :: 0 <= i < |inbounds| ==> Canonical(inbounds[i])
    requires spot in Grouped(clients, StandIn(Homes(inbounds), native), Delta)
    ensures Settled(spot)
  {
    hide Settled, Homes, StandIn, Canonical;
    GroupedKeys(clients, StandIn(Homes(inbounds), native), Delta, spot);
    var i :| 0 <= i < |clients| && StandIn(Homes(inbounds), native)(clients[i]) == Some(spot);
    HomesCanonical(inbounds, SourceOf(clients[i]));
    StandInSettled(Homes(inbounds), native, clients[i]);
  }

  lemma GivesWayUncounted(spots: set<Spot>)
    ensures forall s :: GivesWay(spots)(s) ==> Counted(s) == None
  {
    hide CanAggregate, SpotOf;
  }

  lemma {:induction false} UncoveredCountsNothing(samples: seq<Sample>, k: Spot)
    requires k !in NativeSpots(samples) && forall i :: 0 <= i < |samples| ==> Native(samples[i])
    ensures SumFor(samples, Counted, Delta, k) == NONE
    decreases |samples|
  {
    hide SumFor, Counted, Native, CanAggregate, Scope, Trim, Engine, SpotOf;
    if samples == [] {
      SumForNone(Counted, Delta, k);
    } else {
      var init, last := samples[..|samples| - 1], samples[|samples| - 1];
      UncoveredCountsNothing(init, k);
      LastUncovered(samples, k);
      assert samples == init + [last];
      SumForOneMore(init, last, Counted, Delta, k);
    }
  }

  lemma LastUncovered(samples: seq<Sample>, k: Spot)
    requires samples != [] && k !in NativeSpots(samples) && Native(samples[|samples| - 1])
    ensures Counted(samples[|samples| - 1]) != Some(k)
  {
    hide CanAggregate, SpotOf, Scope, Trim, Engine;
  }

  // ---------- All views account for the same bytes ----------

  function ClientSources(inbounds: seq<Inbound>): set<Source> {
    set i, j | 0 <= i < |inbounds| && 0 <= j < |inbounds[i].clients| && inbounds[i].clients[j].key != "" ::
      (inbounds[i].engine, inbounds[i].clients[j].key)
  }

  function InboundSources(inbounds: seq<Inbound>): set<Source> {
    set i | 0 <= i < |inbounds| :: (inbounds[i].engine, inbounds[i].key)
  }

  function InboundKeys(inbounds: seq<Inbound>): set<string> {
    set i | 0 <= i < |inbounds| :: inbounds[i].key
  }

  /** Every inbound is expected under its key, and every client that has a key, under the engine of its inbound; nothing else is. */
  lemma SourcesExpected(inbounds: seq<Inbound>, source: Source)
    ensures source in InboundSources(inbounds) <==> exists i :: 0 <= i < |inbounds| && inbounds[i].engine == source.0 && inbounds[i].key == source.1
    ensures source in ClientSources(inbounds) <==>
              source.1 != "" && exists i :: 0 <= i < |inbounds| && inbounds[i].engine == source.0 && HasKeyed(inbounds[i].clients, source.1)
  {
    if source in ClientSources(inbounds) {
      var i, j :| 0 <= i < |inbounds| && 0 <= j < |inbounds[i].clients| && inbounds[i].clients[j].key != "" && source == (inbounds[i].engine, inbounds[i].clients[j].key);
      assert HasKeyed(inbounds[i].clients, source.1);
    }
  }

  ghost predicate HasKeyed(clients: seq<Client>, key: string) {
    exists j :: 0 <= j < |clients| && clients[j].key == key
  }

  /** Keys are trimmed, inbounds have one, and each inbound is counted by an engine. */
  predicate Proper(inbounds: seq<Inbound>) {
    forall i :: 0 <= i < |inbounds| ==>
      && inbounds[i].engine != "" && inbounds[i].key != "" && Trim(inbounds[i].key) == inbounds[i].key
      && forall j :: 0 <= j < |inbounds[i].clients| ==> Trim(inbounds[i].clients[j].key) == inbounds[i].clients[j].key
  }

  lemma SourcesNamed(inbounds: seq<Inbound>)
    requires Proper(inbounds)
    ensures Named(ClientSources(inbounds)) && Named(InboundSources(inbounds))
  {
    hide Trim;
  }

  function ClientRank(known: set<Source>): Sample -> Option<Source> {
    (s: Sample) => if Scope(s) == "client" && CanAggregate(s) && SourceOf(s) in known then Some(SourceOf(s)) else None
  }

  function InboundRank(known: set<string>): Sample -> Option<string> {
    (s: Sample) => if Scope(s) == "inbound" && CanAggregate(s) && s.key in known then Some(s.key) else None
  }

  /** The names of an inbound's clients, the last one of a key winning. */
  function NamesOf(names: map<Source, string>, inbound: Inbound, clients: seq<Client>): map<Source, string> {
    if clients == [] then names
    else
      var m, c := NamesOf(names, inbound, clients[..|clients| - 1]), clients[|clients| - 1];
      if c.key != "" then m[(inbound.engine, c.key) := c.name] else m
  }

  function ClientNames(inbounds: seq<Inbound>): map<Source, string> {
    if inbounds == [] then map[]
    else
      var last := inbounds[|inbounds| - 1];
      NamesOf(ClientNames(inbounds[..|inbounds| - 1]), last, last.clients)
  }

  function InboundNames(inbounds: seq<Inbound>): map<string, string> {
    if inbounds == [] then map[]
    else InboundNames(inbounds[..|inbounds| - 1])[inbounds[|inbounds| - 1].key := inbounds[|inbounds| - 1].name]
  }

  function NameIn<K(==)>(names: map<K, string>): K -> string {
    (k: K) => if k in names then names[k] else ""
  }

  method CollectClientNames(inbounds: seq<Inbound>) returns (names: map<Source, string>)
    ensures names == ClientNames(inbounds)
  {
    names := map[];
    for i := 0 to |inbounds|
      invariant names == ClientNames(inbounds[..i])
    {
      assert inbounds[..i + 1][..i] == inbounds[..i];
      var inbound := inbounds[i];
      ghost var before := names;
      for j := 0 to |inbound.clients|
        invariant names == NamesOf(before, inbound, inbound.clients[..j])
      {
        assert inbound.clients[..j + 1][..j] == inbound.clients[..j];
        if inbound.clients[j].key == "" {
          continue;
        }
        names := names[(inbound.engine, inbound.clients[j].key) := inbound.clients[j].name];
      }
      assert inbound.clients[..|inbound.clients|] == inbound.clients;
    }
    assert inbounds[..|inbounds|] == inbounds;
  }

  method CollectInboundNames(inbounds: seq<Inbound>) returns (names: map<string, string>)
    ensures names == InboundNames(inbounds)
  {
    names := map[];
    for i := 0 to |inbounds|
      invariant names == InboundNames(inbounds[..i])
    {
      assert inbounds[..i + 1][..i] == inbounds[..i];
      names := names[inbounds[i].key := inbounds[i].name];
    }
    assert inbounds[..|inbounds|] == inbounds;
  }

  /** A client's name is that of the last client with its key on the engine, whatever names came before. */
  lemma ClientNameIs(names: map<Source, string>, inbound: Inbound, clients: seq<Client>, c: Client, source: Source)
    ensures var m := NamesOf(names, inbound, clients + [c]);
            if c.key != "" && source == (inbound.engine, c.key) then source in m && NameIn(m)(source) == c.name
            else NameIn(m)(source) == NameIn(NamesOf(names, inbound, clients))(source)
  {
    assert (clients + [c])[..|clients|] == clients;
  }

  lemma InboundNameIs(inbounds: seq<Inbound>, a: Inbound, key: string)
    ensures var m := InboundNames(inbounds + [a]);
            NameIn(m)(key) == if key == a.key then a.name else NameIn(InboundNames(inbounds))(key)
  {
    assert (inbounds + [a])[..|inbounds|] == inbounds;
  }

  lemma {:induction false} NamesOfKeys(names: map<Source, string>, inbound: Inbound, clients: seq<Client>, source: Source)
    ensures source in NamesOf(names, inbound, clients) <==>
              source in names || exists j :: 0 <= j < |clients| && clients[j].key != "" && source == (inbound.engine, clients[j].key)
    decreases |clients|
  {
    if clients != [] {
      var n := |clients| - 1;
      NamesOfKeys(names, inbound, clients[..n], source);
      if j :| 0 <= j < n && clients[..n][j].key != "" && source == (inbound.engine, clients[..n][j].key) {
        assert clients[j].key != "" && source == (inbound.engine, clients[j].key);
      }
      assert source in NamesOf(names, inbound, clients) && source !in names ==>
          source in NamesOf(names, inbound, clients[..n]) || (clients[n].key != "" && source == (inbound.engine, clients[n].key));
    }
  }

  /** The names know exactly the sources of the clients. */
  lemma {:induction false} ClientNamesKeys(inbounds: seq<Inbound>, source: Source)
    ensures source in ClientNames(inbounds) <==> source in ClientSources(inbounds)
    decreases |inbounds|
  {
    if inbounds != [] {
      var n := |inbounds| - 1;
      ClientNamesKeys(inbounds[..n], source);
      NamesOfKeys(ClientNames(inbounds[..n]), inbounds[n], inbounds[n].clients, source);
      SourcesMore(inbounds, source);
    }
  }

  lemma SourcesMore(inbounds: seq<Inbound>, source: Source)
    requires inbounds != []
    ensures var init, last := inbounds[..|inbounds| - 1], inbounds[|inbounds| - 1];
            source in ClientSources(inbounds) <==>
              source in ClientSources(init) || exists j :: 0 <= j < |last.clients| && last.clients[j].key != "" && source == (last.engine, last.clients[j].key)
  {
    var n := |inbounds| - 1;
    assert forall i :: 0 <= i < n ==> inbounds[..n][i] == inbounds[i];
  }

  lemma {:induction false} InboundNamesKeys(inbounds: seq<Inbound>, key: string)
    ensures key in InboundNames(inbounds) <==> key in InboundKeys(inbounds)
    decreases |inbounds|
  {
    if inbounds != [] {
      var n := |inbounds| - 1;
      InboundNamesKeys(inbounds[..n], key);
      assert forall i :: 0 <= i < n ==> inbounds[..n][i] == inbounds[i];
      assert inbounds[n].key in InboundKeys(inbounds);
    }
  }

  /** Every sample states its scope, as the rows read from the table do. */
  predicate Stated(samples: seq<Sample>) {
    forall i :: 0 <= i < |samples| ==> samples[i].scope != ""
  }

  lemma FilterStated(samples: seq<Sample>, scope: string, expected: set<Source>, i: nat)
    requires Stated(samples) && i < |Filter(samples, scope, expected)|
    ensures var s := Filter(samples, scope, expected)[i]; SourceOf(s) in expected && Scope(s) == scope && s.scope != ""
  {
    hide Scope, SourceOf, Filter;
    FilterSelects(samples, scope, expected, i);
    var s := Filter(samples, scope, expected)[i];
    var j :| 0 <= j < |samples| && samples[j] == s;
  }

  /** Every usable client sample has a rank and a bucket. */
  lemma ClientViewsAgree(samples: seq<Sample>, inbounds: seq<Inbound>, size: int)
    requires Stated(samples)
    ensures var chosen := Filter(samples, "client", ClientSources(inbounds));
            SumKnown(chosen, ClientRank(ClientSources(inbounds)), Delta) == SumKnown(chosen, SeriesKey(size), Delta)
  {
    hide Scope, SourceOf, Filter, CanAggregate, SumKnown, ClientSources, BucketOf;
    var known := ClientSources(inbounds);
    var chosen := Filter(samples, "client", known);
    forall i | 0 <= i < |chosen| ensures ClientRank(known)(chosen[i]).Some? <==> SeriesKey(size)(chosen[i]).Some? {
      FilterStated(samples, "client", known, i);
    }
    SumKnownSame(chosen, ClientRank(known), SeriesKey(size), Delta);
  }

  lemma {:induction false} WithoutFrom(items: seq<Sample>, drop: Sample -> bool, i: nat)
    requires i < |Without(items, drop)|
    ensures exists j :: 0 <= j < |items| && items[j] == Without(items, drop)[i]
    decreases |items|
  {
    var init := items[..|items| - 1];
    if i < |Without(init, drop)| {
      WithoutFrom(init, drop, i);
      var j :| 0 <= j < |init| && init[j] == Without(init, drop)[i];
      assert items[j] == Without(items, drop)[i];
    } else {
      assert items[|items| - 1] == Without(items, drop)[i];
    }
  }

  lemma {:induction false} HomesKnown(inbounds: seq<Inbound>, source: Source)
    ensures source in Homes(inbounds) ==> Homes(inbounds)[source] in InboundKeys(inbounds)
    decreases |inbounds|
  {
    if inbounds != [] {
      var n := |inbounds| - 1;
      HomesKnown(inbounds[..n], source);
      HomesFrom(Homes(inbounds[..n]), inbounds[n], inbounds[n].clients, source);
      assert inbounds[n].key in InboundKeys(inbounds);
      assert forall key :: key in InboundKeys(inbounds[..n]) ==> key in InboundKeys(inbounds);
    }
  }

  lemma MadeUpKnown(clients: seq<Sample>, inbounds: seq<Inbound>, native: set<Spot>, spot: Spot)
    requires spot in Grouped(clients, StandIn(Homes(inbounds), native), Delta)
    ensures spot.key in InboundKeys(inbounds)
  {
    hide InboundKeys, Homes, CanAggregate;
    GroupedKeys(clients, StandIn(Homes(inbounds), native), Delta, spot);
    var i :| 0 <= i < |clients| && StandIn(Homes(inbounds), native)(clients[i]) == Some(spot);
    HomesKnown(inbounds, SourceOf(clients[i]));
  }

  lemma InboundScope(s: Sample)
    requires s.scope == "inbound"
    ensures Scope(s) == "inbound"
  {
    assert Underscored("inbound") == "inbound";
    assert Lower("inbound") == "inbound" && Trim("inbound") == "inbound";
  }

  lemma SourceKnown(inbounds: seq<Inbound>, s: Sample)
    requires SourceOf(s) in InboundSources(inbounds)
    ensures s.key in InboundKeys(inbounds)
  {
  }

  function Effective(samples: seq<Sample>, inbounds: seq<Inbound>): seq<Sample> {
    WithFallback(Filter(samples, "inbound", InboundSources(inbounds)), Filter(samples, "client", ClientSources(inbounds)), inbounds)
  }

  lemma EffectiveKnown(samples: seq<Sample>, inbounds: seq<Inbound>, i: nat)
    requires Stated(samples) && i < |Effective(samples, inbounds)|
    ensures var s := Effective(samples, inbounds)[i]; Scope(s) == "inbound" && s.key in InboundKeys(inbounds)
  {
    hide Scope, SourceOf, Filter, CanAggregate, Homes, StandIn, StatusAt, NativeSpots, ClientSources, InboundSources, InboundKeys, Grouped, Appearing, Without;
    var native, clients := Filter(samples, "inbound", InboundSources(inbounds)), Filter(samples, "client", ClientSources(inbounds));
    var spots := NativeSpots(native);
    var key := StandIn(Homes(inbounds), spots);
    var bytes := Grouped(clients, key, Delta);
    var kept := Without(native, GivesWay(bytes.Keys));
    if i < |kept| {
      WithoutFrom(native, GivesWay(bytes.Keys), i);
      var j :| 0 <= j < |native| && native[j] == kept[i];
      FilterStated(samples, "inbound", InboundSources(inbounds), j);
      SourceKnown(inbounds, native[j]);
    } else {
      AppearingKeys(clients, key);
      var spot := Appearing(clients, key)[i - |kept|];
      MadeUpKnown(clients, inbounds, spots, spot);
      InboundScope(Effective(samples, inbounds)[i]);
    }
  }

  /** Every usable effective inbound sample has a rank and a bucket. */
  lemma InboundViewsAgree(samples: seq<Sample>, inbounds: seq<Inbound>, size: int)
    requires Stated(samples)
    ensures SumKnown(Effective(samples, inbounds), InboundRank(InboundKeys(inbounds)), Delta)
         == SumKnown(Effective(samples, inbounds), SeriesKey(size), Delta)
  {
    hide Scope, Effective, CanAggregate, SumKnown, InboundKeys, BucketOf;
    var chosen, known := Effective(samples, inbounds), InboundKeys(inbounds);
    forall i | 0 <= i < |chosen| ensures InboundRank(known)(chosen[i]).Some? <==> SeriesKey(size)(chosen[i]).Some? {
      EffectiveKnown(samples, inbounds, i);
    }
    SumKnownSame(chosen, InboundRank(known), SeriesKey(size), Delta);
  }

  function ClientSamples(samples: seq<Sample>, inbounds: seq<Inbound>): seq<Sample> {
    Filter(samples, "client", ClientSources(inbounds))
  }

  ghost predicate TopClients(ranks: seq<Ranked<Source>>, samples: seq<Sample>, inbounds: seq<Inbound>, top: int) {
    IsTop(ranks, ClientSamples(samples, inbounds), ClientRank(ClientNames(inbounds).Keys), NameIn(ClientNames(inbounds)), if top > 0 then top else 5)
  }

  ghost predicate TopInbounds(ranks: seq<Ranked<string>>, samples: seq<Sample>, inbounds: seq<Inbound>, top: int) {
    IsTop(ranks, Effective(samples, inbounds), InboundRank(InboundNames(inbounds).Keys), NameIn(InboundNames(inbounds)), if top > 0 then top else 5)
  }

  /** The clients' samples are those of expected clients that state the scope "client", or none. */
  lemma ClientSamplesOneMore(samples: seq<Sample>, s: Sample, inbounds: seq<Inbound>)
    ensures ClientSamples(samples + [s], inbounds)
         == ClientSamples(samples, inbounds)
            + if (s.scope == "" || Lower(Trim(Underscored(s.scope))) == "client") && (EngineName(s.engine), s.key) in ClientSources(inbounds) then [s] else []
  {
    FilterOneMore(samples, s, "client", ClientSources(inbounds));
    hide Filter, ClientSources;
  }

  /**
   Series, summary and heatmap add up to the bytes of the usable samples of the chosen scope. Each ranking is the
   top of its samples, and if it leaves no key out, as when it is shorter than the limit, it adds up to the bytes of its scope.
   */
  method BuildAnalytics(samples: seq<Sample>, inbounds: seq<Inbound>, byInbound: bool, size: int, top: int)
    returns (series: seq<Point>, totals: Totals, cells: seq<Cell>, topClients: seq<Ranked<Source>>, topInbounds: seq<Ranked<string>>)
    requires Proper(inbounds) && Stated(samples)
    ensures forall i, j :: 0 <= i < j < |series| ==> series[i].at < series[j].at
    ensures SeriesSum(series) == CountedBytes(if byInbound then Effective(samples, inbounds) else ClientSamples(samples, inbounds))
    ensures Usage(totals.up, totals.down) == CountedBytes(if byInbound then Effective(samples, inbounds) else ClientSamples(samples, inbounds)) && totals.total == totals.up + totals.down
    ensures CellSum(cells) == CountedBytes(if byInbound then Effective(samples, inbounds) else ClientSamples(samples, inbounds)).Total()
    ensures TopClients(topClients, samples, inbounds, top) && TopInbounds(topInbounds, samples, inbounds, top)
    ensures Complete(topClients, ClientSamples(samples, inbounds), ClientRank(ClientNames(inbounds).Keys)) ==>
              RankSum(topClients) == CountedBytes(ClientSamples(samples, inbounds))
    ensures Complete(topInbounds, Effective(samples, inbounds), InboundRank(InboundNames(inbounds).Keys)) ==>
              RankSum(topInbounds) == CountedBytes(Effective(samples, inbounds))
  {
    hide SumKnown, SumFor, Filter, WithFallback, SeriesSum, CellSum, RankSum, ClientSources, InboundSources, InboundKeys, Proper, Stated,
         SeriesKey, ClientRank, InboundRank, IsTop, Complete, ClientNames, InboundNames, NameIn;
    SourcesNamed(inbounds);
    var clients := FilterSamples(samples, "client", ClientSources(inbounds));
    var native := FilterSamples(samples, "inbound", InboundSources(inbounds));
    var effective := Fallback(native, clients, inbounds);
    series := BucketSeries(if byInbound then effective else clients, size);
    totals := Summarize(series);
    cells := Heatmap(series);
    var clientNames := CollectClientNames(inbounds);
    topClients := Rank(clients, ClientRank(clientNames.Keys), NameIn(clientNames), top);
    var inboundNames := CollectInboundNames(inbounds);
    topInbounds := Rank(effective, InboundRank(inboundNames.Keys), NameIn(inboundNames), top);
    NamesKnow(inbounds);
    ClientViewsAgree(samples, inbounds, size);
    InboundViewsAgree(samples, inbounds, size);
    CountedIs(ClientSamples(samples, inbounds), size);
    CountedIs(Effective(samples, inbounds), size);
  }

  lemma NamesKnow(inbounds: seq<Inbound>)
    ensures ClientNames(inbounds).Keys == ClientSources(inbounds) && InboundNames(inbounds).Keys == InboundKeys(inbounds)
  {
    hide *;
    forall source ensures source in ClientNames(inbounds) <==> source in ClientSources(inbounds) {
      ClientNamesKeys(inbounds, source);
    }
    forall key ensures key in InboundNames(inbounds) <==> key in InboundKeys(inbounds) {
      InboundNamesKeys(inbounds, key);
    }
  }
}
