/** The status markers of a sync cycle, built from what a query of the Xray counters did not report. */
module TrafficSync {
  import opened Outcome
  import opened Text
  import opened Routing
  import L = TrafficLedger

  /** The scheduler's own normalisation of engine and scope names. */
  function NormalizeToken(value: string): string {
    if Token(value) == "sing-box" then "singbox" else Token(value)
  }

  /** The (scope type, scope key) pairs that the observed Xray counters name. */
  function SeenScopes(observed: seq<L.RawStat>): set<(string, string)> {
    if observed == [] then {}
    else
      var last := observed[|observed| - 1];
      SeenScopes(observed[..|observed| - 1])
      + (if NormalizeToken(last.engine) == "xray" && NormalizeToken(last.scopeType) != "" && Trim(last.scopeKey) != ""
         then {(NormalizeToken(last.scopeType), Trim(last.scopeKey))} else {})
  }

  function ClientMarkers(clients: seq<Client>, seen: set<(string, string)>, status: string, message: string): seq<L.Marker> {
    if clients == [] then []
    else
      var last := clients[|clients| - 1];
      ClientMarkers(clients[..|clients| - 1], seen, status, message)
      + (if !last.enabled || ClientStatsName(last) == "" || ("client", ClientStatsName(last)) in seen then []
         else [L.Marker("xray", "client", ClientStatsName(last), status, message)])
  }

  function MissingMarkers(inbounds: seq<Inbound>, seen: set<(string, string)>, status: string, message: string, includeInbounds: bool): seq<L.Marker> {
    if inbounds == [] then []
    else
      var last := inbounds[|inbounds| - 1];
      MissingMarkers(inbounds[..|inbounds| - 1], seen, status, message, includeInbounds)
      + (if !Serves(last, Xray) then []
         else (if includeInbounds && ("inbound", GeneratedInboundTag(last)) !in seen
               then [L.Marker("xray", "inbound", GeneratedInboundTag(last), status, message)] else [])
              + ClientMarkers(last.clients, seen, status, message))
  }

  lemma ClientsMore(clients: seq<Client>, j: nat, seen: set<(string, string)>, status: string, message: string)
    requires j < |clients|
    ensures ClientMarkers(clients[..j + 1], seen, status, message)
         == ClientMarkers(clients[..j], seen, status, message)
            + (if !clients[j].enabled || ClientStatsName(clients[j]) == "" || ("client", ClientStatsName(clients[j])) in seen then []
               else [L.Marker("xray", "client", ClientStatsName(clients[j]), status, message)])
  {
    hide ClientStatsName;
    assert clients[..j + 1][..j] == clients[..j];
  }

  lemma InboundsMore(inbounds: seq<Inbound>, i: nat, seen: set<(string, string)>, status: string, message: string, includeInbounds: bool)
    requires i < |inbounds|
    ensures MissingMarkers(inbounds[..i + 1], seen, status, message, includeInbounds)
         == MissingMarkers(inbounds[..i], seen, status, message, includeInbounds)
            + (if !Serves(inbounds[i], Xray) then []
               else (if includeInbounds && ("inbound", GeneratedInboundTag(inbounds[i])) !in seen
                     then [L.Marker("xray", "inbound", GeneratedInboundTag(inbounds[i]), status, message)] else [])
                    + ClientMarkers(inbounds[i].clients, seen, status, message))
  {
    hide GeneratedInboundTag, ClientMarkers;
    assert inbounds[..i + 1][..i] == inbounds[..i];
  }

  method CollectSeen(observed: seq<L.RawStat>) returns (seen: set<(string, string)>)
    ensures seen == SeenScopes(observed)
  {
    hide NormalizeToken, Trim;
    seen := {};
    for i := 0 to |observed|
      invariant seen == SeenScopes(observed[..i])
    {
      assert observed[..i + 1][..i] == observed[..i];
      if NormalizeToken(observed[i].engine) != "xray" {
        continue;
      }
      var scopeType, scopeKey := NormalizeToken(observed[i].scopeType), Trim(observed[i].scopeKey);
      if scopeType == "" || scopeKey == "" {
        continue;
      }
      seen := seen + {(scopeType, scopeKey)};
    }
    assert observed[..|observed|] == observed;
  }

  method XrayMissingTrafficStatusMarkers(inbounds: seq<Inbound>, observed: seq<L.RawStat>, status: string, message: string, includeInbounds: bool)
    returns (markers: seq<L.Marker>)
    ensures markers == MissingMarkers(inbounds, SeenScopes(observed), status, message, includeInbounds)
  {
    hide GeneratedInboundTag, ClientStatsName, NormalizeToken, Trim, Token;
    var seen := CollectSeen(observed);
    markers := [];
    assert inbounds[..0] == [];
    for i := 0 to |inbounds|
      invariant markers == MissingMarkers(inbounds[..i], seen, status, message, includeInbounds)
    {
      InboundsMore(inbounds, i, seen, status, message, includeInbounds);
      var inbound := inbounds[i];
      hide MissingMarkers;
      if !inbound.enabled || inbound.core != Xray {
        continue;
      }
      ghost var before := markers;
      ghost var own: seq<L.Marker> := [];
      if includeInbounds && ("inbound", GeneratedInboundTag(inbound)) !in seen {
        own := [L.Marker("xray", "inbound", GeneratedInboundTag(inbound), status, message)];
        markers := markers + [L.Marker("xray", "inbound", GeneratedInboundTag(inbound), status, message)];
      }
      for j := 0 to |inbound.clients|
        invariant markers == before + (own + ClientMarkers(inbound.clients[..j], seen, status, message))
      {
        ClientsMore(inbound.clients, j, seen, status, message);
        hide ClientMarkers;
        var client := inbound.clients[j];
        if !client.enabled || ClientStatsName(client) == "" || ("client", ClientStatsName(client)) in seen {
          continue;
        }
        markers := markers + [L.Marker("xray", "client", ClientStatsName(client), status, message)];
      }
      assert inbound.clients[..|inbound.clients|] == inbound.clients;
    }
    assert inbounds[..|inbounds|] == inbounds;
  }

  // ---------- What the markers cover ----------

  /** The scope belongs to an enabled Xray inbound: the inbound itself or one of its enabled clients. */
  ghost predicate Expected(inbounds: seq<Inbound>, includeInbounds: bool, scopeType: string, scopeKey: string) {
    exists i :: 0 <= i < |inbounds| && Serves(inbounds[i], Xray) && ExpectedOf(inbounds[i], includeInbounds, scopeType, scopeKey)
  }

  ghost predicate ExpectedOf(inbound: Inbound, includeInbounds: bool, scopeType: string, scopeKey: string) {
    || (includeInbounds && scopeType == "inbound" && scopeKey == GeneratedInboundTag(inbound))
    || (scopeType == "client" && scopeKey != "" && exists j :: 0 <= j < |inbound.clients| && inbound.clients[j].enabled && ClientStatsName(inbound.clients[j]) == scopeKey)
  }

  ghost predicate HasMarker(markers: seq<L.Marker>, scopeType: string, scopeKey: string) {
    exists i :: 0 <= i < |markers| && markers[i].engine == "xray" && markers[i].scopeType == scopeType && markers[i].scopeKey == scopeKey
  }

  lemma HasMarkerConcat(a: seq<L.Marker>, b: seq<L.Marker>, scopeType: string, scopeKey: string)
    ensures HasMarker(a + b, scopeType, scopeKey) <==> HasMarker(a, scopeType, scopeKey) || HasMarker(b, scopeType, scopeKey)
  {
    var c := a + b;
    if HasMarker(b, scopeType, scopeKey) {
      var i :| 0 <= i < |b| && b[i].engine == "xray" && b[i].scopeType == scopeType && b[i].scopeKey == scopeKey;
      assert c[|a| + i] == b[i];
    }
    if HasMarker(a, scopeType, scopeKey) {
      var i :| 0 <= i < |a| && a[i].engine == "xray" && a[i].scopeType == scopeType && a[i].scopeKey == scopeKey;
      assert c[i] == a[i];
    }
    if HasMarker(c, scopeType, scopeKey) {
      var i :| 0 <= i < |c| && c[i].engine == "xray" && c[i].scopeType == scopeType && c[i].scopeKey == scopeKey;
      assert if i < |a| then a[i] == c[i] else b[i - |a|] == c[i];
    }
  }

  lemma {:induction false} ClientMarkersCover(clients: seq<Client>, seen: set<(string, string)>, status: string, message: string, scopeType: string, scopeKey: string)
    ensures HasMarker(ClientMarkers(clients, seen, status, message), scopeType, scopeKey) <==>
              scopeType == "client" && scopeKey != "" && ("client", scopeKey) !in seen
              && exists j :: 0 <= j < |clients| && clients[j].enabled && ClientStatsName(clients[j]) == scopeKey
    decreases |clients|
  {
    hide ClientStatsName, HasMarker;
    if clients == [] {
      NoMarkers(scopeType, scopeKey);
    } else {
      var init, last := clients[..|clients| - 1], clients[|clients| - 1];
      ClientMarkersCover(init, seen, status, message, scopeType, scopeKey);
      var m := L.Marker("xray", "client", ClientStatsName(last), status, message);
      OneMarker(m, scopeType, scopeKey);
      NoMarkers(scopeType, scopeKey);
      HasMarkerConcat(ClientMarkers(init, seen, status, message), [m], scopeType, scopeKey);
      assert ClientMarkers(init, seen, status, message) + [] == ClientMarkers(init, seen, status, message);
      assert forall j :: 0 <= j < |init| ==> init[j] == clients[j];
    }
  }

  lemma NoMarkers(scopeType: string, scopeKey: string)
    ensures !HasMarker([], scopeType, scopeKey)
  {
  }

  lemma OneMarker(m: L.Marker, scopeType: string, scopeKey: string)
    ensures HasMarker([m], scopeType, scopeKey) <==> m.engine == "xray" && m.scopeType == scopeType && m.scopeKey == scopeKey
  {
    assert [m][0] == m;
  }

  /** Exactly the expected scopes that were not seen get a marker. */
  lemma {:induction false} MarkersCover(inbounds: seq<Inbound>, seen: set<(string, string)>, status: string, message: string, includeInbounds: bool,
                                        scopeType: string, scopeKey: string)
    ensures HasMarker(MissingMarkers(inbounds, seen, status, message, includeInbounds), scopeType, scopeKey) <==>
              Expected(inbounds, includeInbounds, scopeType, scopeKey) && (scopeType, scopeKey) !in seen
    decreases |inbounds|
  {
    hide GeneratedInboundTag, ClientStatsName, HasMarker, ExpectedOf;
    NoMarkers(scopeType, scopeKey);
    if inbounds != [] {
      var init, last := inbounds[..|inbounds| - 1], inbounds[|inbounds| - 1];
      MarkersCover(init, seen, status, message, includeInbounds, scopeType, scopeKey);
      assert forall j :: 0 <= j < |init| ==> init[j] == inbounds[j];
      var front := MissingMarkers(init, seen, status, message, includeInbounds);
      if Serves(last, Xray) {
        var clients := ClientMarkers(last.clients, seen, status, message);
        var own := if includeInbounds && ("inbound", GeneratedInboundTag(last)) !in seen
                   then [L.Marker("xray", "inbound", GeneratedInboundTag(last), status, message)] else [];
        OwnMarkers(last, own, clients, seen, status, message, includeInbounds, scopeType, scopeKey);
        HasMarkerConcat(front, own + clients, scopeType, scopeKey);
      } else {
        assert front + [] == front;
      }
    }
  }

  lemma OwnMarkers(inbound: Inbound, own: seq<L.Marker>, clients: seq<L.Marker>, seen: set<(string, string)>, status: string, message: string,
                   includeInbounds: bool, scopeType: string, scopeKey: string)
    requires clients == ClientMarkers(inbound.clients, seen, status, message)
    requires own == if includeInbounds && ("inbound", GeneratedInboundTag(inbound)) !in seen
                    then [L.Marker("xray", "inbound", GeneratedInboundTag(inbound), status, message)] else []
    ensures HasMarker(own + clients, scopeType, scopeKey) <==> ExpectedOf(inbound, includeInbounds, scopeType, scopeKey) && (scopeType, scopeKey) !in seen
  {
    hide GeneratedInboundTag, ClientStatsName, HasMarker;
    ClientMarkersCover(inbound.clients, seen, status, message, scopeType, scopeKey);
    HasMarkerConcat(own, clients, scopeType, scopeKey);
    NoMarkers(scopeType, scopeKey);
    OneMarker(L.Marker("xray", "inbound", GeneratedInboundTag(inbound), status, message), scopeType, scopeKey);
  }

  lemma {:induction false} SeenScopesCover(observed: seq<L.RawStat>, i: nat)
    requires i < |observed| && L.KeyOf(observed[i]).engine == "xray" && L.KeyOf(observed[i]).scopeType in {"client", "inbound"}
    requires L.KeyOf(observed[i]).scopeKey != ""
    ensures (L.KeyOf(observed[i]).scopeType, L.KeyOf(observed[i]).scopeKey) in SeenScopes(observed)
    decreases |observed|
  {
    hide Token, Trim;
    if i < |observed| - 1 {
      SeenScopesCover(observed[..|observed| - 1], i);
    }
  }

  /** A scope counts as seen exactly if some counter of Xray names it. */
  lemma {:induction false} SeenIs(observed: seq<L.RawStat>, scopeType: string, scopeKey: string)
    ensures (scopeType, scopeKey) in SeenScopes(observed) <==>
              scopeType != "" && scopeKey != "" && exists i :: 0 <= i < |observed| && NamesScope(observed[i], scopeType, scopeKey)
    decreases |observed|
  {
    hide Trim, Lower;
    if observed != [] {
      var init, last := observed[..|observed| - 1], observed[|observed| - 1];
      SeenIs(init, scopeType, scopeKey);
      XrayIsItself(last.engine);
      NamedMore(observed, scopeType, scopeKey);
      hide NamesScope;
    }
  }

  predicate NamesScope(raw: L.RawStat, scopeType: string, scopeKey: string) {
    && Lower(Trim(raw.engine)) == "xray" && Trim(raw.scopeKey) == scopeKey
    && (if Lower(Trim(raw.scopeType)) == "sing-box" then "singbox" else Lower(Trim(raw.scopeType))) == scopeType
  }

  lemma XrayIsItself(engine: string)
    ensures NormalizeToken(engine) == "xray" <==> Lower(Trim(engine)) == "xray"
  {
    assert |"xray"| == 4 && |"singbox"| == 7 && |"sing-box"| == 8;
    hide Trim, Lower;
  }

  lemma NamedMore(observed: seq<L.RawStat>, scopeType: string, scopeKey: string)
    requires observed != []
    ensures var n := |observed| - 1;
            (exists i :: 0 <= i < |observed| && NamesScope(observed[i], scopeType, scopeKey))
            <==> (exists i :: 0 <= i < n && NamesScope(observed[..n][i], scopeType, scopeKey)) || NamesScope(observed[n], scopeType, scopeKey)
  {
    hide NamesScope;
    var n := |observed| - 1;
    if i :| 0 <= i < |observed| && NamesScope(observed[i], scopeType, scopeKey) {
      assert i < n ==> NamesScope(observed[..n][i], scopeType, scopeKey);
    }
    if i :| 0 <= i < n && NamesScope(observed[..n][i], scopeType, scopeKey) {
      assert NamesScope(observed[i], scopeType, scopeKey);
    }
  }

  /** A sync never marks an Xray scope that the same query observed. */
  lemma MarkersMissObserved(inbounds: seq<Inbound>, observed: seq<L.RawStat>, status: string, message: string, includeInbounds: bool, i: nat, j: nat)
    requires i < |observed| && !L.Nameless(L.KeyOf(observed[i]))
    requires j < |MissingMarkers(inbounds, SeenScopes(observed), status, message, includeInbounds)|
    ensures L.MarkerKey(MissingMarkers(inbounds, SeenScopes(observed), status, message, includeInbounds)[j]) != L.KeyOf(observed[i])
  {
    hide SeenScopes, L.KeyOf, Token, Trim, GeneratedInboundTag, ClientStatsName, HasMarker, Expected;
    var seen := SeenScopes(observed);
    var m := MissingMarkers(inbounds, seen, status, message, includeInbounds)[j];
    MarkerShape(inbounds, seen, status, message, includeInbounds, j);
    MarkerStands(MissingMarkers(inbounds, seen, status, message, includeInbounds), j);
    MarkersCover(inbounds, seen, status, message, includeInbounds, m.scopeType, m.scopeKey);
    if L.MarkerKey(m) == L.KeyOf(observed[i]) {
      SeenScopesCover(observed, i);
    }
  }

  lemma MarkerStands(markers: seq<L.Marker>, j: nat)
    requires j < |markers| && markers[j].engine == "xray"
    ensures HasMarker(markers, markers[j].scopeType, markers[j].scopeKey)
  {
  }

  /** Markers are written in normal form. */
  lemma {:induction false} MarkerShape(inbounds: seq<Inbound>, seen: set<(string, string)>, status: string, message: string, includeInbounds: bool, j: nat)
    requires j < |MissingMarkers(inbounds, seen, status, message, includeInbounds)|
    ensures var m := MissingMarkers(inbounds, seen, status, message, includeInbounds)[j];
            && m.engine == "xray" && m.scopeType in {"client", "inbound"} && m.scopeKey != ""
            && L.MarkerKey(m) == L.Key("xray", m.scopeType, m.scopeKey)
    decreases |inbounds|
  {
    hide GeneratedInboundTag, ClientStatsName, L.MarkerKey, Trim;
    var init, last := inbounds[..|inbounds| - 1], inbounds[|inbounds| - 1];
    var front := MissingMarkers(init, seen, status, message, includeInbounds);
    if j < |front| {
      MarkerShape(init, seen, status, message, includeInbounds, j);
    } else {
      TagInNormalForm(last);
      var k := j - |front|;
      var own := if includeInbounds && ("inbound", GeneratedInboundTag(last)) !in seen then 1 else 0;
      if k >= own {
        ClientMarkerShape(last.clients, seen, status, message, k - own);
      }
    }
  }

  lemma {:induction false} ClientMarkerShape(clients: seq<Client>, seen: set<(string, string)>, status: string, message: string, j: nat)
    requires j < |ClientMarkers(clients, seen, status, message)|
    ensures var m := ClientMarkers(clients, seen, status, message)[j];
            m.engine == "xray" && m.scopeType == "client" && m.scopeKey != "" && L.MarkerKey(m) == L.Key("xray", m.scopeType, m.scopeKey)
    decreases |clients|
  {
    hide ClientStatsName, L.MarkerKey, Trim;
    var init, last := clients[..|clients| - 1], clients[|clients| - 1];
    if j < |ClientMarkers(init, seen, status, message)| {
      ClientMarkerShape(init, seen, status, message, j);
    } else {
      NameInNormalForm(last, status, message);
    }
  }

  lemma Names()
    ensures Token("xray") == "xray" && Token("client") == "client" && Token("inbound") == "inbound"
  {
    hide Token, Trim;
    TokenKeeps("xray");
    TokenKeeps("client");
    TokenKeeps("inbound");
  }

  lemma NameInNormalForm(client: Client, status: string, message: string)
    ensures L.MarkerKey(L.Marker("xray", "client", ClientStatsName(client), status, message)) == L.Key("xray", "client", ClientStatsName(client))
  {
    Names();
    hide Token;
    assert Trim(Trim(client.statsKey)) == Trim(client.statsKey) && Trim(Trim(client.email)) == Trim(client.email);
  }

  lemma TagInNormalForm(inbound: Inbound)
    ensures GeneratedInboundTag(inbound) != ""
    ensures forall status, message ::
              L.MarkerKey(L.Marker("xray", "inbound", GeneratedInboundTag(inbound), status, message)) == L.Key("xray", "inbound", GeneratedInboundTag(inbound))
  {
    Names();
    var tag := GeneratedInboundTag(inbound);
    assert Trim(tag) == tag by {
      TagEnds(inbound);
    }
  }

  lemma TagEnds(inbound: Inbound)
    ensures var tag := GeneratedInboundTag(inbound); tag != "" && !IsSpace(tag[0]) && !IsSpace(tag[|tag| - 1])
  {
    hide Itoa, Token, Trim;
    var tag, protocol := GeneratedInboundTag(inbound), Token(inbound.protocol);
    assert tag[0] == 'i';
    if protocol == "" {
      assert tag[|tag| - 1] == '-';
    } else {
      assert tag[|tag| - 1] == protocol[|protocol| - 1];
      assert Trim(protocol) == protocol;
    }
  }
}
