/**
 What the summaries show, in the terms of the stored states alone: which counters an inbound shows,
 when a state is too old, and what the coverage counts.
 */
module SummaryMeaning {
  import opened Outcome
  import opened Text
  import opened TrafficSummary

  // ---------- One state ----------

  const THREE_MINUTES := 180_000_000_000

  /** Nothing was seen for three minutes, and the status still speaks of something that was. */
  predicate TooOld(s: State, now: int) {
    s.lastSeen.Some? && now > s.lastSeen.value + THREE_MINUTES && Trim(s.status) !in {"stale", "unsupported", "not_configured"}
  }

  /** Counters that were read and are not too old. */
  predicate Works(s: State, now: int) {
    (Trim(s.status) == "ok" || Trim(s.status) == "partial") && !TooOld(s, now)
  }

  /** The totals are always shown; what happens at the moment only if it is not too old. */
  lemma StateShown(s: State, source: string, now: int)
    ensures var r := Summarize(Some(s), source, now);
            && r.up == s.totalUp && r.down == s.totalDown && r.total == s.totalUp + s.totalDown && r.source == source && r.lastSampled == s.lastSeen
            && (if TooOld(s, now) then
                  r.deltaUp == 0 && r.deltaDown == 0 && r.rateUp == 0.0 && r.rateDown == 0.0 && r.rateTotal == 0.0 && r.window == 0.0 && r.status == "stale"
                else
                  && r.deltaUp == s.deltaUp && r.deltaDown == s.deltaDown && r.rateUp == s.rateUp && r.rateDown == s.rateDown
                  && r.rateTotal == s.rateUp + s.rateDown && r.window == s.window && r.status == (if Trim(s.status) == "" then "waiting" else Trim(s.status)))
            && (Usable(r) <==> Works(s, now))
  {
    StaleIsStale();
    TrimSettles(s.status);
    hide Trim;
  }

  lemma StaleIsStale()
    ensures Trim("stale") == "stale" && Trim("waiting") == "waiting"
  {
    hide Trim, Token;
    TokenKeeps("stale");
    TokenKeeps("waiting");
  }

  /** Without a state nothing is known. */
  lemma NothingShown(source: string, now: int)
    ensures var r := Summarize(None, source, now);
            r.up == 0 && r.down == 0 && r.total == 0 && r.deltaUp == 0 && r.deltaDown == 0 && r.rateTotal == 0.0 && r.status == "waiting" && r.lastSampled == None
            && r.rateUp == 0.0 && r.rateDown == 0.0 && r.window == 0.0 && r.source == "migate"
    ensures !Usable(Summarize(None, source, now))
  {
    StaleIsStale();
    hide Trim;
  }

  // ---------- One inbound ----------

  predicate Contributes(c: Client, now: int) {
    c.enabled && c.state.Some? && Works(c.state.value, now)
  }

  function SumOver(clients: seq<Client>, now: int, f: State -> int): int {
    if clients == [] then 0
    else
      var c := clients[|clients| - 1];
      SumOver(clients[..|clients| - 1], now, f) + if Contributes(c, now) then f(c.state.value) else 0
  }

  function RateOver(clients: seq<Client>, now: int, f: State -> real): real {
    if clients == [] then 0.0
    else
      var c := clients[|clients| - 1];
      RateOver(clients[..|clients| - 1], now, f) + if Contributes(c, now) then f(c.state.value) else 0.0
  }

  /** The sum over the clients that contribute, field by field. */
  ghost predicate SumsUp(sum: Sum, clients: seq<Client>, now: int) {
    && (sum.hasData <==> exists i :: 0 <= i < |clients| && Contributes(clients[i], now))
    && sum.up == SumOver(clients, now, (s: State) => s.totalUp) && sum.down == SumOver(clients, now, (s: State) => s.totalDown)
    && sum.deltaUp == SumOver(clients, now, (s: State) => s.deltaUp) && sum.deltaDown == SumOver(clients, now, (s: State) => s.deltaDown)
    && sum.rateUp == RateOver(clients, now, (s: State) => s.rateUp) && sum.rateDown == RateOver(clients, now, (s: State) => s.rateDown)
  }

  lemma ClientAlone(c: Client, native: Summary, now: int)
    ensures var s := SummarizeClient(c, native, false, true, now);
            s == Summarize(c.state, "client", now) == SummarizeClient(c, native, false, false, now)
  {
  }

  lemma AddedClient(sum: Sum, c: Client, native: Summary, sole: bool, now: int)
    ensures var s := SummarizeClient(c, native, false, sole, now);
            var more := Add(sum, c.enabled, s);
            && (more.hasData <==> sum.hasData || Contributes(c, now))
            && more.up == sum.up + (if Contributes(c, now) then c.state.value.totalUp else 0)
            && more.down == sum.down + (if Contributes(c, now) then c.state.value.totalDown else 0)
            && more.deltaUp == sum.deltaUp + (if Contributes(c, now) then c.state.value.deltaUp else 0)
            && more.deltaDown == sum.deltaDown + (if Contributes(c, now) then c.state.value.deltaDown else 0)
            && more.rateUp == sum.rateUp + (if Contributes(c, now) then c.state.value.rateUp else 0.0)
            && more.rateDown == sum.rateDown + (if Contributes(c, now) then c.state.value.rateDown else 0.0)
  {
    ClientAlone(c, native, now);
    NothingShown("client", now);
    if c.state.Some? {
      StateShown(c.state.value, "client", now);
    }
    hide Summarize, SummarizeClient, Usable, Works, Combine, Latest;
  }

  lemma {:induction false} ClientsSumUp(clients: seq<Client>, native: Summary, sole: bool, now: int)
    ensures SumsUp(AddAll(clients, native, false, sole, now), clients, now)
    decreases |clients|
  {
    hide Contributes, Add, SummarizeClient;
    if clients != [] {
      var init, c := clients[..|clients| - 1], clients[|clients| - 1];
      ClientsSumUp(init, native, sole, now);
      AddedClient(AddAll(init, native, false, sole, now), c, native, sole, now);
      ContributesMore(clients, now);
    }
  }

  lemma ContributesMore(clients: seq<Client>, now: int)
    requires clients != []
    ensures var n := |clients| - 1;
            (exists i :: 0 <= i < |clients| && Contributes(clients[i], now))
            <==> (exists i :: 0 <= i < n && Contributes(clients[..n][i], now)) || Contributes(clients[n], now)
  {
    hide Contributes;
    var n := |clients| - 1;
    if i :| 0 <= i < |clients| && Contributes(clients[i], now) {
      assert i < n ==> Contributes(clients[..n][i], now);
    }
  }

  /**
   An inbound with working counters of its own shows them. Without, it shows the sum of its enabled clients whose counters
   work, if there are any, and otherwise what is left of its own.
   */
  lemma InboundShown(state: Option<State>, clients: seq<Client>, now: int)
    ensures var r := SummarizeInbound(state, clients, now);
            && r.total == r.up + r.down && r.rateTotal == r.rateUp + r.rateDown
            && if (state.Some? && Works(state.value, now)) || !exists i :: 0 <= i < |clients| && Contributes(clients[i], now) then
                 r == Summarize(state, "inbound", now)
               else
                 && r.source == "client_aggregate"
                 && r.up == SumOver(clients, now, (s: State) => s.totalUp) && r.down == SumOver(clients, now, (s: State) => s.totalDown)
                 && r.deltaUp == SumOver(clients, now, (s: State) => s.deltaUp) && r.deltaDown == SumOver(clients, now, (s: State) => s.deltaDown)
                 && r.rateUp == RateOver(clients, now, (s: State) => s.rateUp) && r.rateDown == RateOver(clients, now, (s: State) => s.rateDown)
  {
    NothingShown("inbound", now);
    if state.Some? {
      StateShown(state.value, "inbound", now);
    }
    var native := Summarize(state, "inbound", now);
    ClientsSumUp(clients, native, EnabledCount(clients) == 1, now);
    hide Summarize, AddAll, EnabledCount, Usable, Works, Contributes, SumOver, RateOver;
  }

  /** The joined status of the enabled clients, as each of them shows. */
  function Joined(clients: seq<Client>, now: int): string {
    if clients == [] then ""
    else
      var c := clients[|clients| - 1];
      if c.enabled then Combine(Joined(clients[..|clients| - 1], now), Summarize(c.state, "client", now).status) else Joined(clients[..|clients| - 1], now)
  }

  lemma {:induction false} ClientsJoin(clients: seq<Client>, native: Summary, sole: bool, now: int)
    ensures AddAll(clients, native, false, sole, now).status == Joined(clients, now)
    decreases |clients|
  {
    hide Combine, Usable, Summarize, Latest;
    if clients != [] {
      ClientsJoin(clients[..|clients| - 1], native, sole, now);
    }
  }

  /** An inbound shown by its clients has the status that covers all of its enabled ones. */
  lemma InboundStatus(state: Option<State>, clients: seq<Client>, now: int)
    requires !(state.Some? && Works(state.value, now)) && exists i :: 0 <= i < |clients| && Contributes(clients[i], now)
    ensures SummarizeInbound(state, clients, now).status == Joined(clients, now)
  {
    NothingShown("inbound", now);
    if state.Some? {
      StateShown(state.value, "inbound", now);
    }
    var native := Summarize(state, "inbound", now);
    ClientsSumUp(clients, native, EnabledCount(clients) == 1, now);
    ClientsJoin(clients, native, EnabledCount(clients) == 1, now);
    hide Summarize, AddAll, EnabledCount, Usable, Works, Contributes, SumOver, RateOver, Joined;
  }

  lemma AddedWindow(sum: Sum, c: Client, native: Summary, sole: bool, now: int)
    ensures Add(sum, c.enabled, SummarizeClient(c, native, false, sole, now)).window
         == if Contributes(c, now) && c.state.value.window > sum.window then c.state.value.window else sum.window
  {
    ClientAlone(c, native, now);
    NothingShown("client", now);
    if c.state.Some? {
      StateShown(c.state.value, "client", now);
    }
    hide Summarize, SummarizeClient, Usable, Works, Combine, Latest;
  }

  lemma {:induction false} ClientsWindow(clients: seq<Client>, native: Summary, sole: bool, now: int)
    ensures var w := AddAll(clients, native, false, sole, now).window;
            && (forall i :: 0 <= i < |clients| && Contributes(clients[i], now) ==> clients[i].state.value.window <= w)
            && (w == 0.0 || exists i :: 0 <= i < |clients| && Contributes(clients[i], now) && clients[i].state.value.window == w)
    decreases |clients|
  {
    hide Contributes, Add, SummarizeClient;
    if clients != [] {
      var n := |clients| - 1;
      ClientsWindow(clients[..n], native, sole, now);
      AddedWindow(AddAll(clients[..n], native, false, sole, now), clients[n], native, sole, now);
      assert forall i :: 0 <= i < n ==> clients[..n][i] == clients[i];
    }
  }

  /** The window of an inbound shown by its clients is the longest of theirs. */
  lemma InboundWindow(state: Option<State>, clients: seq<Client>, now: int)
    requires !(state.Some? && Works(state.value, now)) && exists i :: 0 <= i < |clients| && Contributes(clients[i], now)
    ensures var w := SummarizeInbound(state, clients, now).window;
            && (forall i :: 0 <= i < |clients| && Contributes(clients[i], now) ==> clients[i].state.value.window <= w)
            && (w == 0.0 || exists i :: 0 <= i < |clients| && Contributes(clients[i], now) && clients[i].state.value.window == w)
  {
    NothingShown("inbound", now);
    if state.Some? {
      StateShown(state.value, "inbound", now);
    }
    var native := Summarize(state, "inbound", now);
    ClientsSumUp(clients, native, EnabledCount(clients) == 1, now);
    ClientsWindow(clients, native, EnabledCount(clients) == 1, now);
    hide Summarize, AddAll, EnabledCount, Usable, Works, Contributes, SumOver, RateOver;
  }

  // ---------- Sole clients ----------

  /** Exactly one client is enabled. */
  ghost predicate Sole(clients: seq<Client>) {
    exists i :: SoleAt(clients, i)
  }

  ghost predicate SoleAt(clients: seq<Client>, i: int) {
    0 <= i < |clients| && clients[i].enabled && forall j :: 0 <= j < |clients| && j != i ==> !clients[j].enabled
  }

  lemma {:induction false} NoneEnabled(clients: seq<Client>)
    ensures EnabledCount(clients) == 0 <==> forall j :: 0 <= j < |clients| ==> !clients[j].enabled
    decreases |clients|
  {
    if clients != [] {
      NoneEnabled(clients[..|clients| - 1]);
    }
  }

  lemma {:induction false} SoleIff(clients: seq<Client>)
    ensures EnabledCount(clients) == 1 <==> Sole(clients)
    decreases |clients|
  {
    if clients != [] {
      var n := |clients| - 1;
      SoleIff(clients[..n]);
      NoneEnabled(clients[..n]);
      SoleMore(clients);
      hide Sole;
    }
  }

  lemma SoleMore(clients: seq<Client>)
    requires clients != []
    ensures var n := |clients| - 1;
            Sole(clients) <==> if clients[n].enabled then forall j :: 0 <= j < n ==> !clients[..n][j].enabled else Sole(clients[..n])
  {
    var n := |clients| - 1;
    assert forall j :: 0 <= j < n ==> clients[..n][j] == clients[j];
    if clients[n].enabled {
      if i :| SoleAt(clients, i) {
        assert i == n;
      }
      if forall j :: 0 <= j < n ==> !clients[..n][j].enabled {
        assert SoleAt(clients, n);
      }
    } else {
      if i :| SoleAt(clients, i) {
        assert SoleAt(clients[..n], i);
      }
      if i :| SoleAt(clients[..n], i) {
        assert SoleAt(clients, i);
      }
    }
  }

  /**
   A client shows its own state, except for the only enabled client of an inbound with working counters that it exceeds:
   that one shows the inbound's totals and speed.
   */
  lemma ClientShown(c: Client, inbound: Option<State>, clients: seq<Client>, now: int)
    ensures var native := Summarize(inbound, "inbound", now);
            var r := SummarizeClient(c, native, NativeUsable(inbound, now), EnabledCount(clients) == 1, now);
            if c.enabled && Sole(clients) && c.state.Some? && inbound.Some? && Works(inbound.value, now)
               && (c.state.value.totalUp > inbound.value.totalUp || c.state.value.totalDown > inbound.value.totalDown) then
              && r.up == inbound.value.totalUp && r.down == inbound.value.totalDown && r.total == r.up + r.down
              && r.deltaUp == native.deltaUp && r.deltaDown == native.deltaDown && r.rateUp == native.rateUp && r.rateDown == native.rateDown
              && r.rateTotal == native.rateUp + native.rateDown && r.window == native.window && r.source == "client_reconciled"
              && r.status == Combine(Summarize(c.state, "client", now).status, "partial") && r.lastSampled == c.state.value.lastSeen
            else r == Summarize(c.state, "client", now)
  {
    SoleIff(clients);
    NothingShown("inbound", now);
    if inbound.Some? {
      StateShown(inbound.value, "inbound", now);
    }
    if c.state.Some? {
      StateShown(c.state.value, "client", now);
    }
    hide Summarize, Works, Usable, Combine, Sole, EnabledCount;
  }

  // ---------- Coverage ----------

  /** An engine's statuses are those of the inbounds that name it, under either spelling. */
  lemma StatusesOneMore(inbounds: seq<Inbound>, x: Inbound, key: string)
    ensures var folded := if Lower(Trim(x.engine)) == "sing-box" then "singbox" else Lower(Trim(x.engine));
            StatusesOf(inbounds + [x], key) == StatusesOf(inbounds, key) + if x.engine != "" && folded == key then [x.status] else []
  {
    assert (inbounds + [x])[..|inbounds|] == inbounds;
    hide Trim, Lower;
  }

  const NAMED := {"ok", "partial", "unsupported", "not_configured", "unavailable", "stale"}

  function Times(statuses: seq<string>, s: string): nat {
    if statuses == [] then 0 else Times(statuses[..|statuses| - 1], s) + if statuses[|statuses| - 1] == s then 1 else 0
  }

  /** The heading that counts a status. */
  function Heading(c: Counts, s: string): int {
    if s == "ok" then c.ok
    else if s == "partial" then c.partial
    else if s == "unsupported" then c.unsupported
    else if s == "not_configured" then c.notConfigured
    else if s == "unavailable" then c.unavailable
    else if s == "stale" then c.stale
    else c.waiting
  }

  lemma CountStep(c: Counts, status: string)
    ensures forall s :: s in NAMED ==> Heading(Count(c, status), s) == Heading(c, s) + if status == s then 1 else 0
    ensures Count(c, status).waiting == c.waiting + if status !in NAMED then 1 else 0
  {
  }

  lemma NoHeading(s: string)
    ensures Heading(NO_COUNTS, s) == 0
  {
  }

  /** Each heading counts the statuses that read like it. */
  lemma {:induction false} CountsAre(statuses: seq<string>, s: string)
    requires s in NAMED
    ensures Heading(CountAll(statuses), s) == Times(statuses, s)
    decreases |statuses|
  {
    hide Count, Heading;
    if statuses == [] {
      NoHeading(s);
    } else {
      CountsAre(statuses[..|statuses| - 1], s);
      CountStep(CountAll(statuses[..|statuses| - 1]), statuses[|statuses| - 1]);
    }
  }

  lemma {:induction false} TimesIn(statuses: seq<string>, s: string)
    ensures Times(statuses, s) > 0 <==> s in statuses
    decreases |statuses|
  {
    if statuses != [] {
      var init, last := statuses[..|statuses| - 1], statuses[|statuses| - 1];
      TimesIn(init, s);
      assert statuses == init + [last];
    }
  }

  ghost predicate OtherIn(statuses: seq<string>) {
    exists s :: s in statuses && s !in NAMED
  }

  lemma OtherInMore(init: seq<string>, last: string)
    ensures OtherIn(init + [last]) <==> OtherIn(init) || last !in NAMED
  {
    var longer := init + [last];
    assert longer[|init|] == last;
    forall s | s in init ensures s in longer {
    }
  }

  /** Whatever reads otherwise counts as waiting. */
  lemma {:induction false} OthersWait(statuses: seq<string>)
    ensures CountAll(statuses).waiting > 0 <==> OtherIn(statuses)
    decreases |statuses|
  {
    hide Count, OtherIn;
    if statuses != [] {
      var init, last := statuses[..|statuses| - 1], statuses[|statuses| - 1];
      OthersWait(init);
      CountStep(CountAll(init), last);
      OtherInMore(init, last);
      assert statuses == init + [last];
    } else {
      NoOther();
    }
  }

  lemma NoOther()
    ensures !OtherIn([])
  {
  }

  /** Only the named ones are among the statuses. */
  predicate Only(statuses: seq<string>, a: string, b: string) {
    forall s :: s in statuses ==> s == a || s == b
  }

  lemma Headings(c: Counts)
    ensures Heading(c, "ok") == c.ok && Heading(c, "partial") == c.partial && Heading(c, "unsupported") == c.unsupported
    ensures Heading(c, "not_configured") == c.notConfigured && Heading(c, "unavailable") == c.unavailable && Heading(c, "stale") == c.stale
  {
  }

  predicate Occurs(statuses: seq<string>, s: string) {
    s in statuses
  }

  lemma InIff(statuses: seq<string>, s: string)
    requires s in NAMED
    ensures Occurs(statuses, s) <==> Heading(CountAll(statuses), s) > 0
  {
    CountsAre(statuses, s);
    TimesIn(statuses, s);
    hide Heading, CountAll, Times;
  }

  lemma NamedIn(statuses: seq<string>)
    ensures var c := CountAll(statuses);
            && (Occurs(statuses, "ok") <==> c.ok > 0) && (Occurs(statuses, "partial") <==> c.partial > 0) && (Occurs(statuses, "unsupported") <==> c.unsupported > 0)
            && (Occurs(statuses, "not_configured") <==> c.notConfigured > 0) && (Occurs(statuses, "unavailable") <==> c.unavailable > 0)
            && (Occurs(statuses, "stale") <==> c.stale > 0)
  {
    Headings(CountAll(statuses));
    hide Heading, CountAll, Occurs;
    InIff(statuses, "ok");
    InIff(statuses, "partial");
    InIff(statuses, "unsupported");
    InIff(statuses, "not_configured");
    InIff(statuses, "unavailable");
    InIff(statuses, "stale");
  }

  lemma OnlyMeans(statuses: seq<string>)
    ensures Only(statuses, "not_configured", "not_configured") <==>
              !OtherIn(statuses) && !Occurs(statuses, "ok") && !Occurs(statuses, "partial") && !Occurs(statuses, "unsupported")
              && !Occurs(statuses, "unavailable") && !Occurs(statuses, "stale")
    ensures Only(statuses, "ok", "not_configured") <==>
              !OtherIn(statuses) && !Occurs(statuses, "partial") && !Occurs(statuses, "unsupported")
              && !Occurs(statuses, "unavailable") && !Occurs(statuses, "stale")
  {
  }

  /** What the panel says overall, told by which statuses occur. */
  lemma OverallIs(statuses: seq<string>)
    ensures var o := Overall(CountAll(statuses));
            if Only(statuses, "not_configured", "not_configured") then o == "not_configured"
            else if Occurs(statuses, "ok") then
              if Only(statuses, "ok", "not_configured") then o == "ok" else o == "partial"
            else if Occurs(statuses, "partial") then o == "partial"
            else if Occurs(statuses, "unavailable") then o == "unavailable"
            else if Occurs(statuses, "unsupported") then o == "unsupported"
            else if Occurs(statuses, "stale") then o == "stale"
            else o == "waiting"
  {
    NamedIn(statuses);
    OnlyMeans(statuses);
    OthersWait(statuses);
    hide CountAll, Only, Occurs, OtherIn;
    assert CountAll(statuses).Adds();
  }
}
