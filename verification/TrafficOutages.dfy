/** Concrete runs in which the ledger loses bytes or counts old ones. */
module TrafficOutages {
  import opened Outcome
  import opened Text
  import opened TrafficLedger
  import opened TrafficTouches
  import opened TrafficRows
  import opened TrafficRuns

  /** One counter of Xray, read without trouble. */
  function Read(scopeType: string, scopeKey: string, up: int, down: int): RawStat {
    RawStat("xray", scopeType, scopeKey, up, down, "ok", "")
  }

  predicate Plain(scopeType: string, scopeKey: string) {
    (scopeType == "client" || scopeType == "inbound") && scopeKey != "" && Trim(scopeKey) == scopeKey
  }

  lemma Xray()
    ensures Token("xray") == "xray" != "sing-box"
  {
    hide Token, Trim;
    TokenKeeps("xray");
    assert |"xray"| != |"sing-box"|;
  }

  lemma ScopeTypes(word: string)
    requires word == "client" || word == "inbound"
    ensures Token(word) == word && word != ""
  {
    hide Token, Trim;
    TokenKeeps("client");
    TokenKeeps("inbound");
  }

  lemma Blanks()
    ensures Trim("ok") == "ok" && Trim("") == "" && Trim("unavailable") == "unavailable" && Trim("eof") == "eof"
  {
  }

  lemma ReadIsOneStat(scopeType: string, scopeKey: string, up: int, down: int)
    requires Plain(scopeType, scopeKey)
    ensures Normalize([Read(scopeType, scopeKey, up, down)]) == [Stat(Key("xray", scopeType, scopeKey), up, down, "ok", "")]
  {
    Xray();
    ScopeTypes(scopeType);
    Blanks();
    hide Trim, Token;
    var raws := [Read(scopeType, scopeKey, up, down)];
    assert raws[..0] == [];
  }

  lemma SeenInOne(st: Stat, now: int)
    ensures SeenIn([st], st.key, now) == [Seen(st, now, false)]
  {
    assert [st][..0] == [];
    assert SeenIn([st][..0], st.key, now) == [];
  }

  /** Reading one counter touches its row once. */
  lemma ReadTouches(known: bool, scopeType: string, scopeKey: string, up: int, down: int, now: int)
    requires Plain(scopeType, scopeKey)
    ensures var key := Key("xray", scopeType, scopeKey);
            TouchesOf(known, Observe([Read(scopeType, scopeKey, up, down)], [], now), key) == [Seen(Stat(key, up, down, "ok", ""), now, true)]
  {
    ReadIsOneStat(scopeType, scopeKey, up, down);
    hide Normalize;
    SeenInOne(Stat(Key("xray", scopeType, scopeKey), up, down, "ok", ""), now);
  }

  lemma TwoEvents(known: bool, a: Event, b: Event, key: Key)
    ensures Touches(known, [a, b], key) == TouchesOf(known, a, key) + TouchesOf(known || TouchesOf(known, a, key) != [], b, key)
  {
    hide TouchesOf;
    var both, one: seq<Event> := [a, b], [a];
    assert both[..1] == one && one[..0] == [];
    assert Touches(known, one[..0], key) == [];
  }

  /** A scope first read at zero loses the bytes of the next reading. */
  lemma ZeroStartLoses(scopeKey: string, up: int)
    requires Plain("inbound", scopeKey) && up > 0
    ensures var a, b := Observe([Read("inbound", scopeKey, 0, 0)], [], 0), Observe([Read("inbound", scopeKey, up, 0)], [], 1);
            Totals(Lookup(Run(map[], [a, b]), Key("xray", "inbound", scopeKey))) == (0, 0)
  {
    var key := Key("xray", "inbound", scopeKey);
    var a, b := Observe([Read("inbound", scopeKey, 0, 0)], [], 0), Observe([Read("inbound", scopeKey, up, 0)], [], 1);
    ZeroHistory(scopeKey, up);
    hide *;
    NothingThere(key);
    TwoPlainEvents(map[], a, b, key, [Seen(Stat(key, 0, 0, "ok", ""), 0, true), Seen(Stat(key, up, 0, "ok", ""), 1, true)]);
    ZeroThenBytes(Stat(key, 0, 0, "ok", ""), Stat(key, up, 0, "ok", ""), 0, 1);
  }

  /** Two events that neither reset nor pair the key, and what they do to its row. */
  lemma TwoPlainEvents(rows: Rows, a: Event, b: Event, key: Key, touches: seq<Touch>)
    requires (a.Unavailable? || (a.Observe? && a.pairs == [])) && b.Observe? && b.pairs == []
    requires Touches(key in rows, [a, b], key) == touches
    ensures Lookup(Run(rows, [a, b]), key) == RowRun(Lookup(rows, key), touches)
  {
    hide *;
    AreQuiet(rows, [a, b], key);
    RunTouches(rows, [a, b], key);
  }

  lemma NothingThere(key: Key)
    ensures var none: Rows := map[]; key !in none && Lookup(none, key) == None
  {
  }

  lemma ZeroHistory(scopeKey: string, up: int)
    requires Plain("inbound", scopeKey)
    ensures var key := Key("xray", "inbound", scopeKey);
            var a, b := Observe([Read("inbound", scopeKey, 0, 0)], [], 0), Observe([Read("inbound", scopeKey, up, 0)], [], 1);
            Touches(false, [a, b], key) == [Seen(Stat(key, 0, 0, "ok", ""), 0, true), Seen(Stat(key, up, 0, "ok", ""), 1, true)]
  {
    var key := Key("xray", "inbound", scopeKey);
    hide Plain, Read;
    TwoEvents(false, Observe([Read("inbound", scopeKey, 0, 0)], [], 0), Observe([Read("inbound", scopeKey, up, 0)], [], 1), key);
    ReadTouches(false, "inbound", scopeKey, 0, 0, 0);
    ReadTouches(true, "inbound", scopeKey, up, 0, 1);
    hide Touches, TouchesOf;
  }

  lemma TwoTouches(current: Option<Row>, a: Touch, b: Touch)
    ensures RowRun(current, [a, b]) == Some(Touched(Some(Touched(current, a)), b))
  {
    hide Touched;
    var both, one: seq<Touch> := [a, b], [a];
    assert both[..1] == one;
    RowRunOne(current, a);
  }

  lemma ZeroThenBytes(zero: Stat, st: Stat, t: int, u: int)
    requires (zero.up, zero.down) == (0, 0) && zero.status == "ok" && zero.message == ""
    ensures Totals(RowRun(None, [Seen(zero, t, true), Seen(st, u, true)])) == (0, 0)
  {
    OkIsUncounted();
    assert Uncounted(None);
    hide Touched, Uncounted, BaselineOnlyStatus, RowRun;
    var a, b := Seen(zero, t, true), Seen(st, u, true);
    TwoTouches(None, a, b);
    ForgottenSight(None, a);
    SeenIsUncounted(None, a);
    ForgottenSight(Some(Touched(None, a)), b);
  }

  lemma OkIsUncounted()
    ensures BaselineOnlyStatus("ok", "")
  {
    assert Trim("ok") == "ok";
    hide Contains, Token;
  }

  lemma ForgottenSight(current: Option<Row>, t: Touch)
    requires Uncounted(current) && t.Seen?
    ensures Totals(Some(Touched(current, t))) == Totals(current)
  {
    hide MissingRawBaseline, CounterReset, SuppressRecoveredRate, Elapsed, Trim;
  }

  /** An outage right after a reset without baseline, reported with any other message, brings the old bytes back. */
  lemma OutageAfterResetLeaks(rows: Rows, statsKey: string, up: int, down: int)
    requires Plain("client", statsKey) && up >= 0 && down >= 0
    ensures var after := Apply(rows, Reset(statsKey, Some("xray"), [], 0));
            Totals(Lookup(Run(after, [Unavailable("xray", "unavailable", "eof", 1), Observe([Read("client", statsKey, up, down)], [], 2)]),
                          Key("xray", "client", statsKey))) == (up, down)
  {
    var key, reset := Key("xray", "client", statsKey), Reset(statsKey, Some("xray"), [], 0);
    ResetStands(rows, reset, key);
    NoBaselines(statsKey);
    var after := Apply(rows, reset);
    hide Apply, MissingRawBaseline, Run;
    assert BaselineTrail(reset, key) == [];
    OutageLeaks(after, statsKey, up, down);
  }

  lemma NoBaselines(statsKey: string)
    ensures BaselineByEngine(statsKey, []) == map[]
  {
  }

  lemma OutageLeaks(rows: Rows, statsKey: string, up: int, down: int)
    requires Plain("client", statsKey) && up >= 0 && down >= 0
    requires var current := Lookup(rows, Key("xray", "client", statsKey)); current.Some? && Uncounted(current) && Totals(current) == (0, 0)
    ensures Totals(Lookup(Run(rows, [Unavailable("xray", "unavailable", "eof", 1), Observe([Read("client", statsKey, up, down)], [], 2)]),
                          Key("xray", "client", statsKey))) == (up, down)
  {
    var key := Key("xray", "client", statsKey);
    var a, b := Unavailable("xray", "unavailable", "eof", 1), Observe([Read("client", statsKey, up, down)], [], 2);
    hide *;
    OutageHistory(statsKey, up, down);
    EofHarms();
    AreQuiet(rows, [a, b], key);
    Present(rows, key);
    AllBytes(up);
    AllBytes(down);
    NoteThenSight(rows, a, b, key, Noted("unavailable", "eof", 1), Seen(Stat(key, up, down, "ok", ""), 2, true));
  }

  lemma Present(rows: Rows, key: Key)
    requires Lookup(rows, key).Some?
    ensures key in rows
  {
  }

  lemma AllBytes(raw: int)
    requires raw >= 0
    ensures Bytes(raw) == raw
  {
  }

  lemma NoteThenSight(rows: Rows, a: Event, b: Event, key: Key, note: Touch, sight: Touch)
    requires Uncounted(Lookup(rows, key)) && QuietRun(rows, [a, b], key) && note.Noted? && sight.Seen?
    requires Touches(key in rows, [a, b], key) == [note, sight] && !Harmless([note])
    ensures var before := Totals(Lookup(rows, key));
            Totals(Lookup(Run(rows, [a, b]), key)) == (before.0 + Bytes(sight.st.up), before.1 + Bytes(sight.st.down))
  {
    hide Harmless, Touches, Run, Uncounted, Totals, QuietRun, Lookup;
    assert History(rows, [a, b], key) == [note] + [sight];
    FirstGainAfterMarkers(rows, [a, b], key, [note], sight);
  }

  lemma EofHarms()
    ensures !Harmless([Noted("unavailable", "eof", 1)])
  {
    EofSaysNothing();
    hide BaselineOnlyStatus;
  }

  lemma AreQuiet(rows: Rows, events: seq<Event>, key: Key)
    requires forall i :: 0 <= i < |events| ==> events[i].Unavailable? || (events[i].Observe? && events[i].pairs == [])
    ensures QuietRun(rows, events, key)
  {
    hide ClientKey, QuietRun;
    UnpairedIsQuiet(rows, events, key);
  }

  lemma OutageHistory(statsKey: string, up: int, down: int)
    requires Plain("client", statsKey)
    ensures var key := Key("xray", "client", statsKey);
            var a, b := Unavailable("xray", "unavailable", "eof", 1), Observe([Read("client", statsKey, up, down)], [], 2);
            Touches(true, [a, b], key) == [Noted("unavailable", "eof", 1), Seen(Stat(key, up, down, "ok", ""), 2, true)]
  {
    var key := Key("xray", "client", statsKey);
    hide Plain, Read;
    TwoEvents(true, Unavailable("xray", "unavailable", "eof", 1), Observe([Read("client", statsKey, up, down)], [], 2), key);
    ReadTouches(true, "client", statsKey, up, down, 2);
    EofTouches(key);
    hide Touches, TouchesOf;
  }

  lemma EofTouches(key: Key)
    requires key.engine == "xray"
    ensures TouchesOf(true, Unavailable("xray", "unavailable", "eof", 1), key) == [Noted("unavailable", "eof", 1)]
  {
    Xray();
    Blanks();
    hide Trim, Token;
  }

  lemma EofSaysNothing()
    ensures !BaselineOnlyStatus("unavailable", "eof")
  {
    EofIsToken();
    hide Token, Trim;
    TooLong("eof", "baseline unavailable");
    TooLong("eof", "stats offline");
    TooLong("eof", "waiting");
  }

  lemma EofIsToken()
    ensures Token("eof") == "eof" && Trim("unavailable") == "unavailable"
  {
    hide Token;
    TokenKeeps("eof");
    TokenKeeps("unavailable");
  }

  lemma {:induction false} TooLong(s: string, part: string)
    requires |part| > |s|
    ensures !Contains(s, part)
  {
    if s != "" {
      TooLong(s[1..], part);
    }
  }

  /** A marker that only speaks of a missing baseline makes a counted row at zero forget that it was counted. */
  lemma MarkerOnZeroRowLoses(rows: Rows, scopeKey: string, up: int)
    requires Plain("inbound", scopeKey) && up > 0 && Key("xray", "inbound", scopeKey) in rows
    requires Raw(Lookup(rows, Key("xray", "inbound", scopeKey))) == (0, 0)
    ensures var key, events := Key("xray", "inbound", scopeKey), [Unavailable("xray", "unavailable", "", 1), Observe([Read("inbound", scopeKey, up, 0)], [], 2)];
            Totals(Lookup(Run(rows, events), key)) == Totals(Lookup(rows, key))
  {
    var key := Key("xray", "inbound", scopeKey);
    var a, b := Unavailable("xray", "unavailable", "", 1), Observe([Read("inbound", scopeKey, up, 0)], [], 2);
    SilentHistory(scopeKey, up);
    hide *;
    TwoPlainEvents(rows, a, b, key, [Noted("unavailable", "", 1), Seen(Stat(key, up, 0, "ok", ""), 2, true)]);
    SilentThenBytes(Lookup(rows, key), Stat(key, up, 0, "ok", ""), 1, 2);
  }

  lemma SilentHistory(scopeKey: string, up: int)
    requires Plain("inbound", scopeKey)
    ensures var key := Key("xray", "inbound", scopeKey);
            var a, b := Unavailable("xray", "unavailable", "", 1), Observe([Read("inbound", scopeKey, up, 0)], [], 2);
            Touches(true, [a, b], key) == [Noted("unavailable", "", 1), Seen(Stat(key, up, 0, "ok", ""), 2, true)]
  {
    var key := Key("xray", "inbound", scopeKey);
    hide Plain, Read;
    TwoEvents(true, Unavailable("xray", "unavailable", "", 1), Observe([Read("inbound", scopeKey, up, 0)], [], 2), key);
    ReadTouches(true, "inbound", scopeKey, up, 0, 2);
    SilentTouches(key);
    hide Touches, TouchesOf;
  }

  lemma SilentThenBytes(current: Option<Row>, st: Stat, t: int, u: int)
    requires Raw(current) == (0, 0)
    ensures Totals(RowRun(current, [Noted("unavailable", "", t), Seen(st, u, true)])) == Totals(current)
  {
    SilenceIsUncounted();
    hide Uncounted, BaselineOnlyStatus, RowRun;
    var a, b := Noted("unavailable", "", t), Seen(st, u, true);
    TwoTouches(current, a, b);
    NotedIsUncounted(current, a);
    assert Totals(Some(Touched(current, a))) == Totals(current);
    hide Touched;
    ForgottenSight(Some(Touched(current, a)), b);
  }

  lemma SilentTouches(key: Key)
    requires key.engine == "xray"
    ensures TouchesOf(true, Unavailable("xray", "unavailable", "", 1), key) == [Noted("unavailable", "", 1)]
  {
    Xray();
    Blanks();
    hide Trim, Token;
  }

  lemma SilenceIsUncounted()
    ensures BaselineOnlyStatus("unavailable", "")
  {
    assert Trim("unavailable") == "unavailable" && Token("") == "";
    hide Token, Trim, Contains;
  }
}
