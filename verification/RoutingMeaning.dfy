/**
 What routing rules mean for a connection, and that compilation keeps it.

 A core takes the first rule whose every non-empty condition holds. How it compares
 destinations, ports and sniffed protocols with a rule's lists is left to the
 connection, so the results hold for any such comparison.
 */
module RoutingMeaning {
  import opened Outcome
  import opened Text
  import opened Routing

  /** A connection that a core has accepted; `client` is the client to which the core attributes it. */
  datatype Conn = Conn(inbound: Inbound, client: Option<Client>,
                       dest: (seq<string>, seq<string>) -> bool, port: string -> bool, proto: seq<string> -> bool)

  predicate Tagged(tags: seq<string>, tag: string) {
    tags == [] || tag in tags
  }

  predicate Attributed(users: seq<string>, c: Conn) {
    users == [] || (c.client.Some? && ClientRouteUser(c.inbound.protocol, c.client.value) in users)
  }

  predicate ValuesHit(domains: seq<string>, ips: seq<string>, protocols: seq<string>, c: Conn) {
    && ((domains == [] && ips == []) || c.dest(domains, ips))
    && (protocols == [] || c.proto(protocols))
  }

  predicate Matches(core: Core, r: CoreRule, c: Conn) {
    && Tagged(r.inboundTags, CoreTag(core, c.inbound))
    && Attributed(r.users, c)
    && ValuesHit(r.domains, r.ips, r.protocols, c)
    && (r.port == "" || c.port(r.port))
  }

  /** The outbound tag that the core picks, or None when no rule matches. */
  function FirstMatch(core: Core, rules: seq<CoreRule>, c: Conn): Option<string> {
    if rules == [] then None
    else if Matches(core, rules[0], c) then Some(rules[0].outboundTag)
    else FirstMatch(core, rules[1..], c)
  }

  // ---------- The stored rules ----------

  predicate BoundTo(rule: Rule, inbound: Inbound) {
    if rule.inboundID > 0 then inbound.id == rule.inboundID
    else Trim(rule.inboundTag) == "" || Answers(inbound, Trim(rule.inboundTag))
  }

  predicate ForClient(rule: Rule, c: Conn) {
    rule.clientID <= 0 || (c.client.Some? && c.client.value.id == rule.clientID)
  }

  /** The reading of a stored rule that the panel shows: enabled, bound to the inbound and client it names, values hit. */
  predicate StoredMatches(rule: Rule, c: Conn) {
    && rule.enabled
    && ForClient(rule, c)
    && BoundTo(rule, c.inbound)
    && ValuesHit(SplitRuleValues(rule.domain), SplitRuleValues(rule.ip), SplitRuleValues(rule.protocol), c)
  }

  function StoredChoice(rules: seq<Rule>, c: Conn): Option<Rule> {
    if rules == [] then None
    else if StoredMatches(rules[0], c) then Some(rules[0])
    else StoredChoice(rules[1..], c)
  }

  /** The tag of the outbound that a stored rule chooses. */
  function TargetTag(core: Core, rule: Rule, outbounds: seq<Outbound>): string {
    var target := ResolveRuleOutbound(rule, outbounds);
    if target.None? then "" else GeneratedOutboundTag(core, target.value.id, rule.outboundTag)
  }

  // ---------- Premises ----------

  /** Row ids are positive and name one inbound; a client id belongs to one inbound. */
  predicate ProperIDs(inbounds: seq<Inbound>) {
    && (forall a :: a in inbounds ==> a.id > 0)
    && (forall a, b :: a in inbounds && b in inbounds && a.id == b.id ==> a == b)
    && (forall a, b, x, y :: a in inbounds && b in inbounds && x in a.clients && y in b.clients && x.id == y.id ==> a == b && x == y)
  }

  predicate Served(core: Core, inbounds: seq<Inbound>, c: Conn) {
    && c.inbound in inbounds && Serves(c.inbound, core)
    && (c.client.Some? ==> c.client.value in c.inbound.clients && c.client.value.enabled)
  }

  /** Xray tells the connection's client apart by its route user. */
  predicate Identified(inbounds: seq<Inbound>, c: Conn) {
    c.client.Some? ==>
      var user := ClientRouteUser(c.inbound.protocol, c.client.value);
      && user != ""
      && forall a, x :: a in inbounds && x in a.clients && Serves(a, Xray) && x.enabled && ClientRouteUser(a.protocol, x) == user
           ==> x.id == c.client.value.id
  }

  /** A rule bound by name names at most one inbound. */
  predicate Unambiguous(rule: Rule, inbounds: seq<Inbound>) {
    rule.inboundID <= 0 && Trim(rule.inboundTag) != "" ==>
      forall a, b :: a in inbounds && b in inbounds && Answers(a, Trim(rule.inboundTag)) && Answers(b, Trim(rule.inboundTag)) ==> a == b
  }

  // ---------- Tags ----------

  lemma GeneratedTagInjective(a: Inbound, b: Inbound)
    requires a.id > 0 && b.id > 0 && GeneratedInboundTag(a) == GeneratedInboundTag(b)
    ensures a.id == b.id
  {
    hide Itoa, Token;
    var x, y := GeneratedInboundTag(a), GeneratedInboundTag(b);
    assert x[8..] == Itoa(a.id) + "-" + Token(a.protocol);
    assert y[8..] == Itoa(b.id) + "-" + Token(b.protocol);
    NumberThenDash(a.id, Token(a.protocol), b.id, Token(b.protocol));
  }

  lemma SingboxTagShape(a: Inbound)
    requires a.id > 0
    ensures var t := InboundStatsTag(a);
            || t == "hy2-inbound-" + Itoa(a.id) || t == "tuic-inbound-" + Itoa(a.id)
            || t == "shadowtls-inbound-" + Itoa(a.id) || t == GeneratedInboundTag(a)
  {
    hide Token, Itoa;
  }

  /** A text that is the prefix and then the number on both sides. */
  lemma SameNumber(x: string, prefix: string, a: nat, b: nat)
    requires x == prefix + Itoa(a) && x == prefix + Itoa(b)
    ensures a == b
  {
    assert x[|prefix|..] == Itoa(a) && x[|prefix|..] == Itoa(b);
    ItoaInjective(a, b);
  }

  lemma SingboxTagInjective(a: Inbound, b: Inbound)
    requires a.id > 0 && b.id > 0 && InboundStatsTag(a) == InboundStatsTag(b)
    ensures a.id == b.id
  {
    hide Itoa, Token, InboundStatsTag, GeneratedInboundTag;
    SingboxTagShape(a);
    SingboxTagShape(b);
    GeneratedFirst(a);
    GeneratedFirst(b);
    var x := InboundStatsTag(a);
    if x == "hy2-inbound-" + Itoa(a.id) {
      assert x[0] == 'h';
      SameNumber(x, "hy2-inbound-", a.id, b.id);
    } else if x == "tuic-inbound-" + Itoa(a.id) {
      assert x[0] == 't';
      SameNumber(x, "tuic-inbound-", a.id, b.id);
    } else if x == "shadowtls-inbound-" + Itoa(a.id) {
      assert x[0] == 's';
      SameNumber(x, "shadowtls-inbound-", a.id, b.id);
    } else {
      assert x[0] == 'i';
      GeneratedTagInjective(a, b);
    }
  }

  lemma GeneratedFirst(a: Inbound)
    ensures |GeneratedInboundTag(a)| > 0 && GeneratedInboundTag(a)[0] == 'i'
  {
    hide Token, Itoa;
  }

  lemma CoreTagInjective(core: Core, a: Inbound, b: Inbound)
    requires a.id > 0 && b.id > 0 && CoreTag(core, a) == CoreTag(core, b)
    ensures a.id == b.id
  {
    hide InboundStatsTag, GeneratedInboundTag;
    if core.Singbox? {
      SingboxTagInjective(a, b);
    } else {
      GeneratedTagInjective(a, b);
    }
  }

  // ---------- What the builder's maps hold ----------

  lemma {:induction false} TagsByIDMeaning(core: Core, inbounds: seq<Inbound>, id: int)
    ensures id in TagsByID(core, inbounds) <==> exists a :: a in inbounds && Serves(a, core) && a.id == id
    ensures id in TagsByID(core, inbounds) ==>
              exists a :: a in inbounds && Serves(a, core) && a.id == id && TagsByID(core, inbounds)[id] == CoreTag(core, a)
    decreases |inbounds|
  {
    hide CoreTag;
    if inbounds != [] {
      var init, last := inbounds[..|inbounds| - 1], inbounds[|inbounds| - 1];
      TagsByIDMeaning(core, init, id);
      assert inbounds == init + [last];
    }
  }

  lemma {:induction false} AliasMeaning(core: Core, inbounds: seq<Inbound>, name: string)
    requires name != ""
    ensures name in Aliases(core, inbounds) <==> exists a :: a in inbounds && Serves(a, core) && Answers(a, name)
    ensures name in Aliases(core, inbounds) ==>
              exists a :: a in inbounds && Serves(a, core) && Answers(a, name) && Aliases(core, inbounds)[name] == CoreTag(core, a)
    decreases |inbounds|
  {
    hide GeneratedInboundTag, InboundStatsTag, Trim;
    if inbounds != [] {
      var init, last := inbounds[..|inbounds| - 1], inbounds[|inbounds| - 1];
      AliasMeaning(core, init, name);
      assert inbounds == init + [last];
    }
  }

  lemma {:induction false} AddClientsMeaning(m: Users, clients: seq<Client>, protocol: string, id: int)
    ensures var n := AddClients(m, clients, protocol);
            && (id in n <==> id in m || exists x :: x in clients && x.enabled && x.id == id)
            && (id in n ==> (id in m && n[id] == m[id]) || exists x :: x in clients && x.enabled && x.id == id && n[id] == (x, Token(protocol)))
    decreases |clients|
  {
    hide Token;
    if clients != [] {
      var init, last := clients[..|clients| - 1], clients[|clients| - 1];
      AddClientsMeaning(m, init, protocol, id);
      assert clients == init + [last];
    }
  }

  predicate IsXrayClient(a: Inbound, x: Client, id: int) {
    Serves(a, Xray) && x in a.clients && x.enabled && x.id == id
  }

  lemma {:induction false} XrayClientsMeaning(inbounds: seq<Inbound>, id: int)
    ensures id in XrayClients(inbounds) <==> exists a, x :: a in inbounds && IsXrayClient(a, x, id)
    ensures id in XrayClients(inbounds) ==>
              exists a, x :: a in inbounds && IsXrayClient(a, x, id) && XrayClients(inbounds)[id] == (x, Token(a.protocol))
    decreases |inbounds|
  {
    hide Token, AddClients;
    if inbounds != [] {
      var init, last := inbounds[..|inbounds| - 1], inbounds[|inbounds| - 1];
      XrayClientsMeaning(init, id);
      AddClientsMeaning(XrayClients(init), last.clients, last.protocol, id);
      assert inbounds == init + [last];
      var m := XrayClients(inbounds);
      if id in m {
        if Serves(last, Xray) && exists x :: x in last.clients && x.enabled && x.id == id && m[id] == (x, Token(last.protocol)) {
          var x :| x in last.clients && x.enabled && x.id == id && m[id] == (x, Token(last.protocol));
          assert IsXrayClient(last, x, id);
        } else {
          var a, x :| a in init && IsXrayClient(a, x, id) && XrayClients(init)[id] == (x, Token(a.protocol));
          assert a in inbounds;
        }
      }
      if a, x :| a in inbounds && IsXrayClient(a, x, id) {
        if a in init {
          assert id in XrayClients(init);
        }
      }
    }
  }

  // ---------- One rule ----------

  lemma RuleTagsMeaning(core: Core, rule: Rule, inbounds: seq<Inbound>, c: Conn)
    requires ProperIDs(inbounds) && Served(core, inbounds, c) && Unambiguous(rule, inbounds)
    ensures BoundTo(rule, c.inbound) <==>
              RuleTags(core, rule, inbounds).Some? && Tagged(RuleTags(core, rule, inbounds).value, CoreTag(core, c.inbound))
  {
    hide CoreTag, Aliases, TagsByID, Trim, Answers;
    var name, tag := Trim(rule.inboundTag), CoreTag(core, c.inbound);
    if rule.inboundID > 0 {
      TagsByIDMeaning(core, inbounds, rule.inboundID);
      if rule.inboundID in TagsByID(core, inbounds) {
        var a :| a in inbounds && a.id == rule.inboundID && TagsByID(core, inbounds)[rule.inboundID] == CoreTag(core, a);
        if CoreTag(core, a) == tag {
          CoreTagInjective(core, a, c.inbound);
        }
      }
    } else if name != "" {
      AliasMeaning(core, inbounds, name);
      if name in Aliases(core, inbounds) {
        var a :| a in inbounds && Answers(a, name) && Aliases(core, inbounds)[name] == CoreTag(core, a);
        if CoreTag(core, a) == tag {
          CoreTagInjective(core, a, c.inbound);
        }
      }
    }
  }

  lemma RouteUserOfToken(protocol: string, client: Client)
    ensures ClientRouteUser(Token(protocol), client) == ClientRouteUser(protocol, client)
  {
    assert Token(Token(protocol)) == Token(protocol);
  }

  lemma RuleUsersMeaning(rule: Rule, inbounds: seq<Inbound>, c: Conn)
    requires ProperIDs(inbounds) && Served(Xray, inbounds, c) && Identified(inbounds, c)
    ensures ForClient(rule, c) <==> RuleUsers(Xray, rule, inbounds).Some? && Attributed(RuleUsers(Xray, rule, inbounds).value, c)
  {
    hide XrayClients, ClientRouteUser, Token, Trim;
    assert c.client.Some? ==> IsXrayClient(c.inbound, c.client.value, c.client.value.id);
    if rule.clientID > 0 {
      XrayClientsMeaning(inbounds, rule.clientID);
      if rule.clientID in XrayClients(inbounds) {
        var a, x :| a in inbounds && IsXrayClient(a, x, rule.clientID) && XrayClients(inbounds)[rule.clientID] == (x, Token(a.protocol));
        RouteUserOfToken(a.protocol, x);
        assert Trim(ClientRouteUser(a.protocol, x)) == ClientRouteUser(a.protocol, x);
      }
    }
  }

  /** A stored rule that matches a served connection applies to the core that serves it. */
  lemma MatchApplies(core: Core, rule: Rule, inbounds: seq<Inbound>, c: Conn)
    requires ProperIDs(inbounds) && Served(core, inbounds, c) && Unambiguous(rule, inbounds)
    requires ForClient(rule, c) && BoundTo(rule, c.inbound)
    ensures RoutingRuleAppliesToCore(rule, inbounds, core)
  {
    hide FirstWithClient, FirstWithID, FirstAnswering, Trim, Answers;
    if rule.clientID > 0 {
      var i :| 0 <= i < |c.inbound.clients| && c.inbound.clients[i] == c.client.value;
      assert HasClient(c.inbound, rule.clientID);
      var r := FirstWithClient(inbounds, rule.clientID);
      var k :| 0 <= k < |r.value.clients| && r.value.clients[k].id == rule.clientID;
      assert r.value.clients[k] in r.value.clients && c.client.value in c.inbound.clients;
    }
  }

  /** What a compiled rule's conditions amount to, before the rule is known to apply to the core. */
  predicate Reached(core: Core, rule: Rule, c: Conn) {
    && (core.Xray? ==> ForClient(rule, c))
    && BoundTo(rule, c.inbound)
    && ValuesHit(SplitRuleValues(rule.domain), SplitRuleValues(rule.ip), SplitRuleValues(rule.protocol), c)
  }

  lemma CompiledRuleMeaning(core: Core, rule: Rule, inbounds: seq<Inbound>, outbounds: seq<Outbound>, c: Conn)
    requires ProperIDs(inbounds) && Served(core, inbounds, c) && Unambiguous(rule, inbounds)
    requires core.Xray? ==> Identified(inbounds, c)
    requires CompileRule(core, rule, inbounds, outbounds).Ok?
    ensures var compiled := CompileRule(core, rule, inbounds, outbounds).value;
            && |compiled| <= 1
            && (|compiled| == 1 ==> compiled[0].outboundTag == TargetTag(core, rule, outbounds))
            && ((|compiled| == 1 && Matches(core, compiled[0], c)) <==>
                  && rule.enabled && RoutingRuleAppliesToCore(rule, inbounds, core) && Reached(core, rule, c)
                  && !(core.Singbox? && IsRemovedSingboxOutbound(ResolveRuleOutbound(rule, outbounds).value)))
  {
    hide RoutingRuleAppliesToCore, ResolveRuleOutbound, OutboundSupportsCore, IsRemovedSingboxOutbound, RuleUsers, RuleTags,
         SplitRuleValues, CoreTag, GeneratedOutboundTag, Tagged, BoundTo, ForClient, ValuesHit, Attributed;
    RuleTagsMeaning(core, rule, inbounds, c);
    if core.Xray? {
      RuleUsersMeaning(rule, inbounds, c);
    } else {
      NoUsers(rule, inbounds, c);
    }
  }

  lemma NoUsers(rule: Rule, inbounds: seq<Inbound>, c: Conn)
    ensures RuleUsers(Singbox, rule, inbounds) == Some([]) && Attributed([], c)
  {
  }

  /** For sing-box: the rule names no client and its outbound is one that sing-box can have. */
  predicate Expressible(core: Core, rule: Rule, outbounds: seq<Outbound>) {
    core.Singbox? ==>
      && rule.clientID <= 0
      && (ResolveRuleOutbound(rule, outbounds).Some? ==> !IsRemovedSingboxOutbound(ResolveRuleOutbound(rule, outbounds).value))
  }

  lemma RulePreserved(core: Core, rule: Rule, inbounds: seq<Inbound>, outbounds: seq<Outbound>, c: Conn)
    requires ProperIDs(inbounds) && Served(core, inbounds, c) && Unambiguous(rule, inbounds) && Expressible(core, rule, outbounds)
    requires core.Xray? ==> Identified(inbounds, c)
    requires CompileRule(core, rule, inbounds, outbounds).Ok?
    ensures var compiled := CompileRule(core, rule, inbounds, outbounds).value;
            && |compiled| <= 1
            && (|compiled| == 1 ==> compiled[0].outboundTag == TargetTag(core, rule, outbounds))
            && ((|compiled| == 1 && Matches(core, compiled[0], c)) <==> StoredMatches(rule, c))
  {
    CompiledRuleMeaning(core, rule, inbounds, outbounds, c);
    hide Matches, Unambiguous, Served, Identified, IsRemovedSingboxOutbound, ResolveRuleOutbound, RoutingRuleAppliesToCore, BoundTo, ValuesHit, TargetTag;
    if ForClient(rule, c) && BoundTo(rule, c.inbound) {
      MatchApplies(core, rule, inbounds, c);
    }
  }

  // ---------- The whole table ----------

  lemma {:induction false} RulesPreserved(core: Core, rules: seq<Rule>, inbounds: seq<Inbound>, outbounds: seq<Outbound>, c: Conn)
    requires ProperIDs(inbounds) && Served(core, inbounds, c) && (core.Xray? ==> Identified(inbounds, c))
    requires forall r :: r in rules ==> Unambiguous(r, inbounds) && Expressible(core, r, outbounds)
    requires CompileRules(core, rules, inbounds, outbounds).Ok?
    ensures FirstMatch(core, CompileRules(core, rules, inbounds, outbounds).value, c)
         == var chosen := StoredChoice(rules, c);
            if chosen.None? then None else Some(TargetTag(core, chosen.value, outbounds))
    decreases |rules|
  {
    hide Matches, CompileRule, StoredMatches, ProperIDs, Unambiguous, Served, Identified, Expressible, TargetTag;
    if rules != [] {
      RulePreserved(core, rules[0], inbounds, outbounds, c);
      RulesPreserved(core, rules[1..], inbounds, outbounds, c);
      var head, tail := CompileRule(core, rules[0], inbounds, outbounds).value, CompileRules(core, rules[1..], inbounds, outbounds).value;
      if |head| == 1 {
        assert (head + tail)[0] == head[0] && (head + tail)[1..] == tail;
      } else {
        assert head + tail == tail;
      }
    }
  }

  lemma {:induction false} SkipUnmatched(core: Core, front: seq<CoreRule>, rules: seq<CoreRule>, c: Conn)
    requires forall r :: r in front ==> !Matches(core, r, c)
    ensures FirstMatch(core, front + rules, c) == FirstMatch(core, rules, c)
    decreases |front|
  {
    hide Matches;
    if front == [] {
      assert front + rules == rules;
    } else {
      assert front[0] in front && (front + rules)[0] == front[0];
      assert (front + rules)[1..] == front[1..] + rules;
      SkipUnmatched(core, front[1..], rules, c);
    }
  }

  /** The stats API rule never takes a connection of a stored inbound: no generated tag reads "api". */
  lemma ApiRuleIsPrivate(c: Conn)
    ensures !Matches(Xray, API_RULE, c)
  {
    assert GeneratedInboundTag(c.inbound)[0] == 'i';
    assert "api"[0] == 'a';
  }

  /**
   The generated Xray rules send every connection of an enabled Xray inbound that no system
   rule takes to the outbound of the first stored rule that matches it, and leave it to the
   default exactly when no stored rule matches.
   */
  lemma XrayRoutingPreserved(inbounds: seq<Inbound>, outbounds: seq<Outbound>, rules: seq<Rule>, systemRules: seq<CoreRule>, c: Conn)
    requires ProperIDs(inbounds) && Served(Xray, inbounds, c) && Identified(inbounds, c)
    requires forall r :: r in rules ==> Unambiguous(r, inbounds)
    requires forall r :: r in systemRules ==> !Matches(Xray, r, c)
    requires CompileRules(Xray, rules, inbounds, outbounds).Ok?
    ensures var built := Append(Ok([API_RULE] + systemRules), CompileRules(Xray, rules, inbounds, outbounds));
            FirstMatch(Xray, built.value, c)
            == var chosen := StoredChoice(rules, c);
               if chosen.None? then None else Some(TargetTag(Xray, chosen.value, outbounds))
  {
    hide Matches, StoredMatches, TargetTag, CompileRule, ProperIDs, Served, Identified, Unambiguous;
    ApiRuleIsPrivate(c);
    RulesPreserved(Xray, rules, inbounds, outbounds, c);
    SkipUnmatched(Xray, [API_RULE] + systemRules, CompileRules(Xray, rules, inbounds, outbounds).value, c);
  }

  /**
   A sing-box rule for a client keeps the binding and the values but loses the client: it takes
   every connection they describe. It means what was stored exactly for connections of that client.
   */
  lemma SingboxClientRuleWidens(rule: Rule, inbounds: seq<Inbound>, outbounds: seq<Outbound>, c: Conn)
    requires ProperIDs(inbounds) && Served(Singbox, inbounds, c) && Unambiguous(rule, inbounds)
    requires rule.enabled && rule.clientID > 0 && RoutingRuleAppliesToCore(rule, inbounds, Singbox)
    requires CompileRule(Singbox, rule, inbounds, outbounds).Ok?
    requires !IsRemovedSingboxOutbound(ResolveRuleOutbound(rule, outbounds).value)
    requires Reached(Singbox, rule, c)
    ensures var compiled := CompileRule(Singbox, rule, inbounds, outbounds).value;
            && |compiled| == 1 && Matches(Singbox, compiled[0], c)
            && (StoredMatches(rule, c) <==> c.client.Some? && c.client.value.id == rule.clientID)
  {
    hide Matches, RoutingRuleAppliesToCore, IsRemovedSingboxOutbound, ResolveRuleOutbound, Unambiguous, ProperIDs, Served, CompileRule;
    CompiledRuleMeaning(Singbox, rule, inbounds, outbounds, c);
  }

  /** What sing-box takes a rule to mean: enabled, for this core, not aimed at dns, and reached whoever the client is. */
  predicate SingboxMeans(rule: Rule, inbounds: seq<Inbound>, outbounds: seq<Outbound>, c: Conn) {
    var target := ResolveRuleOutbound(rule, outbounds);
    && rule.enabled && RoutingRuleAppliesToCore(rule, inbounds, Singbox) && Reached(Singbox, rule, c)
    && !(target.Some? && IsRemovedSingboxOutbound(target.value))
  }

  /** The first place that holds true. */
  function FirstTrue(flags: seq<bool>): (k: nat)
    ensures k <= |flags| && (k < |flags| ==> flags[k]) && forall i :: 0 <= i < k ==> !flags[i]
  {
    if flags == [] || flags[0] then 0 else 1 + FirstTrue(flags[1..])
  }

  /** The place of the first rule that the panel's reading takes. */
  function StoredIndex(rules: seq<Rule>, c: Conn): (k: nat)
    ensures k <= |rules|
  {
    FirstTrue(seq(|rules|, i requires 0 <= i < |rules| => StoredMatches(rules[i], c)))
  }

  /** The place of the first rule that sing-box's reading takes. */
  function SingboxIndex(rules: seq<Rule>, inbounds: seq<Inbound>, outbounds: seq<Outbound>, c: Conn): (k: nat)
    ensures k <= |rules|
  {
    FirstTrue(seq(|rules|, i requires 0 <= i < |rules| => SingboxMeans(rules[i], inbounds, outbounds, c)))
  }

  lemma SingboxIndexRest(rules: seq<Rule>, inbounds: seq<Inbound>, outbounds: seq<Outbound>, c: Conn)
    requires rules != []
    ensures SingboxIndex(rules, inbounds, outbounds, c)
         == if SingboxMeans(rules[0], inbounds, outbounds, c) then 0 else 1 + SingboxIndex(rules[1..], inbounds, outbounds, c)
  {
    hide SingboxMeans;
    var flags := seq(|rules|, i requires 0 <= i < |rules| => SingboxMeans(rules[i], inbounds, outbounds, c));
    var rest := rules[1..];
    assert flags[1..] == seq(|rest|, i requires 0 <= i < |rest| => SingboxMeans(rest[i], inbounds, outbounds, c));
  }

  /** Both indexes mean what they say. */
  lemma IndexesMean(rules: seq<Rule>, inbounds: seq<Inbound>, outbounds: seq<Outbound>, c: Conn)
    ensures var k := StoredIndex(rules, c); (k < |rules| ==> StoredMatches(rules[k], c)) && forall i :: 0 <= i < k ==> !StoredMatches(rules[i], c)
    ensures var k := SingboxIndex(rules, inbounds, outbounds, c);
            && (k < |rules| ==> SingboxMeans(rules[k], inbounds, outbounds, c))
            && forall i :: 0 <= i < k ==> !SingboxMeans(rules[i], inbounds, outbounds, c)
  {
    hide SingboxMeans, StoredMatches;
    var stored := seq(|rules|, i requires 0 <= i < |rules| => StoredMatches(rules[i], c));
    var singbox := seq(|rules|, i requires 0 <= i < |rules| => SingboxMeans(rules[i], inbounds, outbounds, c));
    assert forall i :: 0 <= i < |rules| ==> stored[i] == StoredMatches(rules[i], c) && singbox[i] == SingboxMeans(rules[i], inbounds, outbounds, c);
  }

  lemma {:induction false} SingboxPicks(rules: seq<Rule>, inbounds: seq<Inbound>, outbounds: seq<Outbound>, c: Conn)
    requires ProperIDs(inbounds) && Served(Singbox, inbounds, c)
    requires forall r :: r in rules ==> Unambiguous(r, inbounds)
    requires CompileRules(Singbox, rules, inbounds, outbounds).Ok?
    ensures var k := SingboxIndex(rules, inbounds, outbounds, c);
            FirstMatch(Singbox, CompileRules(Singbox, rules, inbounds, outbounds).value, c)
            == if k == |rules| then None else Some(TargetTag(Singbox, rules[k], outbounds))
    decreases |rules|
  {
    hide Matches, CompileRule, ProperIDs, Unambiguous, Served, TargetTag, SingboxMeans, SingboxIndex;
    if rules == [] {
      assert SingboxIndex(rules, inbounds, outbounds, c) == |rules|;
    } else {
      SingboxIndexRest(rules, inbounds, outbounds, c);
      SingboxMeaning(rules[0], inbounds, outbounds, c);
      SingboxPicks(rules[1..], inbounds, outbounds, c);
      var head, tail := CompileRule(Singbox, rules[0], inbounds, outbounds).value, CompileRules(Singbox, rules[1..], inbounds, outbounds).value;
      if |head| == 1 {
        assert (head + tail)[0] == head[0] && (head + tail)[1..] == tail;
      } else {
        assert head + tail == tail;
      }
    }
  }

  lemma SingboxMeaning(rule: Rule, inbounds: seq<Inbound>, outbounds: seq<Outbound>, c: Conn)
    requires ProperIDs(inbounds) && Served(Singbox, inbounds, c) && Unambiguous(rule, inbounds)
    requires CompileRule(Singbox, rule, inbounds, outbounds).Ok?
    ensures var compiled := CompileRule(Singbox, rule, inbounds, outbounds).value;
            && |compiled| <= 1
            && (|compiled| == 1 ==> compiled[0].outboundTag == TargetTag(Singbox, rule, outbounds))
            && ((|compiled| == 1 && Matches(Singbox, compiled[0], c)) <==> SingboxMeans(rule, inbounds, outbounds, c))
  {
    hide Matches, ProperIDs, Unambiguous, Served, TargetTag, RoutingRuleAppliesToCore, ResolveRuleOutbound, IsRemovedSingboxOutbound,
         OutboundSupportsCore, RuleUsers, RuleTags, SplitRuleValues, GeneratedOutboundTag, Reached;
    CompiledRuleMeaning(Singbox, rule, inbounds, outbounds, c);
  }

  /** The rule takes a connection of somebody else. */
  predicate Widened(rule: Rule, inbounds: seq<Inbound>, outbounds: seq<Outbound>, c: Conn) {
    rule.clientID > 0 && !ForClient(rule, c) && SingboxMeans(rule, inbounds, outbounds, c)
  }

  /** The rule takes the connection but is left out because it aims at dns. */
  predicate Skipped(rule: Rule, outbounds: seq<Outbound>, c: Conn) {
    var target := ResolveRuleOutbound(rule, outbounds);
    StoredMatches(rule, c) && target.Some? && IsRemovedSingboxOutbound(target.value)
  }

  lemma ReadingsDiffer(rule: Rule, inbounds: seq<Inbound>, outbounds: seq<Outbound>, c: Conn)
    requires ProperIDs(inbounds) && Served(Singbox, inbounds, c) && Unambiguous(rule, inbounds)
    ensures Widened(rule, inbounds, outbounds, c) <==> SingboxMeans(rule, inbounds, outbounds, c) && !StoredMatches(rule, c)
    ensures Skipped(rule, outbounds, c) <==> StoredMatches(rule, c) && !SingboxMeans(rule, inbounds, outbounds, c)
  {
    hide ProperIDs, Unambiguous, Served, RoutingRuleAppliesToCore, ResolveRuleOutbound, IsRemovedSingboxOutbound, SplitRuleValues, BoundTo, ValuesHit;
    if ForClient(rule, c) && BoundTo(rule, c.inbound) {
      MatchApplies(Singbox, rule, inbounds, c);
    }
  }

  /**
   Whenever building succeeds and rules bound by name name one inbound: the built sing-box list picks the first rule in
   sing-box's own reading, and that is the rule that the panel chooses if and only if no rule up to the panel's choice
   takes the connection of another client or is skipped for aiming at dns.
   */
  lemma SingboxRoutingIff(inbounds: seq<Inbound>, outbounds: seq<Outbound>, rules: seq<Rule>, systemRules: seq<CoreRule>, c: Conn)
    requires ProperIDs(inbounds) && Served(Singbox, inbounds, c)
    requires forall r :: r in rules ==> Unambiguous(r, inbounds)
    requires forall r :: r in systemRules ==> !Matches(Singbox, r, c)
    requires CompileRules(Singbox, rules, inbounds, outbounds).Ok?
    ensures var built := Append(Ok(systemRules), CompileRules(Singbox, rules, inbounds, outbounds));
            var stored, picked := StoredIndex(rules, c), SingboxIndex(rules, inbounds, outbounds, c);
            && FirstMatch(Singbox, built.value, c) == (if picked == |rules| then None else Some(TargetTag(Singbox, rules[picked], outbounds)))
            && (picked == stored <==> forall k :: 0 <= k < |rules| && k <= stored ==>
                                        !Widened(rules[k], inbounds, outbounds, c) && !Skipped(rules[k], outbounds, c))
  {
    hide Matches, StoredMatches, TargetTag, CompileRule, ProperIDs, Served, Unambiguous, SingboxMeans, Widened, Skipped, StoredIndex, SingboxIndex;
    SingboxPicks(rules, inbounds, outbounds, c);
    SkipUnmatched(Singbox, systemRules, CompileRules(Singbox, rules, inbounds, outbounds).value, c);
    IndexesMean(rules, inbounds, outbounds, c);
    var stored, picked := StoredIndex(rules, c), SingboxIndex(rules, inbounds, outbounds, c);
    forall k | 0 <= k < |rules|
      ensures Widened(rules[k], inbounds, outbounds, c) <==> SingboxMeans(rules[k], inbounds, outbounds, c) && !StoredMatches(rules[k], c)
      ensures Skipped(rules[k], outbounds, c) <==> StoredMatches(rules[k], c) && !SingboxMeans(rules[k], inbounds, outbounds, c)
    {
      ReadingsDiffer(rules[k], inbounds, outbounds, c);
    }
    if picked < stored {
      assert Widened(rules[picked], inbounds, outbounds, c);
    } else if stored < picked {
      assert Skipped(rules[stored], outbounds, c);
    }
  }

  /** A concrete table: one sing-box inbound with clients 7 and 8, and a rule that blocks client 7 only. */
  const ALICE := Client(7, true, "a", "", "", "")
  const BOB := Client(8, true, "b", "", "", "")
  const SHARED := Inbound(1, true, Singbox, "tuic", "", [ALICE, BOB])
  const BLOCK_ALICE := Rule(1, true, 7, 1, "", 2, "", "", "", "")

  function Socks(enabled: bool): Outbound {
    Outbound(2, enabled, "", "socks")
  }

  lemma SocksServes(enabled: bool)
    ensures OutboundSupportsCore(Socks(enabled), Singbox) && !IsRemovedSingboxOutbound(Socks(enabled))
  {
    assert Trim("socks") == "socks" && Lower("socks") == "socks";
    hide Token;
    assert "socks"[0] != "dns"[0] && |"socks"| != |"socks5"|;
  }

  lemma AliceApplies()
    ensures RoutingRuleAppliesToCore(BLOCK_ALICE, [SHARED], Singbox)
  {
    assert SHARED.clients[0].id == 7;
    assert HasClient(SHARED, 7);
  }

  lemma BlockAliceCompiles(enabled: bool)
    ensures CompileRule(Singbox, BLOCK_ALICE, [SHARED], [Socks(enabled)]).Ok? && |CompileRule(Singbox, BLOCK_ALICE, [SHARED], [Socks(enabled)]).value| == 1
  {
    AliceApplies();
    SocksServes(enabled);
    OneTag();
    hide RoutingRuleAppliesToCore, OutboundSupportsCore, IsRemovedSingboxOutbound, CoreTag, Aliases, TagsByID, SplitRuleValues, GeneratedOutboundTag;
    assert FirstOutbound(2, [Socks(enabled)]) == Some(Socks(enabled));
  }

  lemma SharedIsProper(c: Conn)
    requires c.inbound == SHARED && c.client == Some(BOB)
    ensures ProperIDs([SHARED]) && Served(Singbox, [SHARED], c) && Unambiguous(BLOCK_ALICE, [SHARED])
  {
    hide Trim, Answers;
    assert SHARED.clients[1] == BOB;
  }

  lemma BobBound(c: Conn)
    requires c.inbound == SHARED && c.client == Some(BOB)
    ensures Reached(Singbox, BLOCK_ALICE, c) && !ForClient(BLOCK_ALICE, c)
  {
    BlankHasNoValues("");
    hide SplitRuleValues, Trim, Answers;
  }

  lemma BobReached(c: Conn)
    requires c.inbound == SHARED && c.client == Some(BOB)
    ensures SingboxMeans(BLOCK_ALICE, [SHARED], [Socks(true)], c) && !StoredMatches(BLOCK_ALICE, c)
  {
    BobBound(c);
    AliceApplies();
    SocksServes(true);
    hide Reached, ForClient, BoundTo, ValuesHit, RoutingRuleAppliesToCore, IsRemovedSingboxOutbound;
    assert FirstOutbound(2, [Socks(true)]) == Some(Socks(true));
  }

  /** Bob's connections are taken by the rule against Alice. */
  lemma BobIsWidened(c: Conn)
    requires c.inbound == SHARED && c.client == Some(BOB)
    ensures Widened(BLOCK_ALICE, [SHARED], [Socks(true)], c) && !StoredMatches(BLOCK_ALICE, c)
    ensures var compiled := CompileRule(Singbox, BLOCK_ALICE, [SHARED], [Socks(true)]);
            compiled.Ok? && |compiled.value| == 1 && Matches(Singbox, compiled.value[0], c)
  {
    BlockAliceCompiles(true);
    SharedIsProper(c);
    BobReached(c);
    hide Matches, CompileRule, SingboxMeans, StoredMatches, ProperIDs, Served, Unambiguous;
    SingboxMeaning(BLOCK_ALICE, [SHARED], [Socks(true)], c);
  }

  lemma OneTag()
    ensures TagsByID(Singbox, [SHARED]) == map[1 := CoreTag(Singbox, SHARED)]
  {
    hide CoreTag;
    var one: seq<Inbound> := [SHARED];
    assert one[..0] == [];
  }

  // ---------- When building fails, and dangling targets ----------

  /** The rule makes the builder give up: it concerns the core but its outbound is gone or unusable there. */
  predicate Breaks(core: Core, rule: Rule, inbounds: seq<Inbound>, outbounds: seq<Outbound>) {
    && rule.enabled && RoutingRuleAppliesToCore(rule, inbounds, core)
    && (ResolveRuleOutbound(rule, outbounds).Some? ==> !OutboundSupportsCore(ResolveRuleOutbound(rule, outbounds).value, core))
  }

  /** Compilation fails exactly when some rule breaks it, and then reports the first such rule. */
  lemma {:induction false} CompileFailsIff(core: Core, rules: seq<Rule>, inbounds: seq<Inbound>, outbounds: seq<Outbound>)
    ensures CompileRules(core, rules, inbounds, outbounds).Err? <==> exists r :: r in rules && Breaks(core, r, inbounds, outbounds)
    ensures CompileRules(core, rules, inbounds, outbounds).Err? ==>
              exists i :: 0 <= i < |rules| && Breaks(core, rules[i], inbounds, outbounds)
                && CompileRules(core, rules, inbounds, outbounds).error.ruleID == rules[i].id
                && forall j :: 0 <= j < i ==> !Breaks(core, rules[j], inbounds, outbounds)
    decreases |rules|
  {
    hide RoutingRuleAppliesToCore, ResolveRuleOutbound, OutboundSupportsCore, RuleUsers, RuleTags, SplitRuleValues, GeneratedOutboundTag, IsRemovedSingboxOutbound;
    if rules != [] {
      var rest := rules[1..];
      CompileFailsIff(core, rest, inbounds, outbounds);
      assert rules == [rules[0]] + rest;
      if !Breaks(core, rules[0], inbounds, outbounds) && CompileRules(core, rest, inbounds, outbounds).Err? {
        var i :| 0 <= i < |rest| && Breaks(core, rest[i], inbounds, outbounds)
              && CompileRules(core, rest, inbounds, outbounds).error.ruleID == rest[i].id
              && forall j :: 0 <= j < i ==> !Breaks(core, rest[j], inbounds, outbounds);
        assert rules[i + 1] == rest[i];
        forall j | 0 <= j < i + 1 ensures !Breaks(core, rules[j], inbounds, outbounds) {
          assert j > 0 ==> rules[j] == rest[j - 1];
        }
      }
    }
  }

  /** The tags of the outbounds that a builder puts into the configuration. */
  predicate HasOutboundTag(core: Core, outbounds: seq<Outbound>, tag: string) {
    exists o :: o in outbounds && o.enabled && OutboundSupportsCore(o, core) && !(core.Singbox? && IsRemovedSingboxOutbound(o))
                && GeneratedOutboundTag(core, o.id, o.tag) == tag
  }

  lemma OutboundTagInjective(core: Core, a: int, b: int, x: string, y: string)
    requires a > 0 && b > 0 && GeneratedOutboundTag(core, a, x) == GeneratedOutboundTag(core, b, y)
    ensures a == b
  {
    var n := if core.Xray? then 9 else 12;
    assert GeneratedOutboundTag(core, a, x)[n..] == Itoa(a) && GeneratedOutboundTag(core, b, y)[n..] == Itoa(b);
    ItoaInjective(a, b);
  }

  lemma {:induction false} FirstOutboundFound(id: int, outbounds: seq<Outbound>)
    ensures var r := FirstOutbound(id, outbounds); r.Some? ==> r.value in outbounds && r.value.id == id
  {
    if outbounds != [] && outbounds[0].id != id {
      FirstOutboundFound(id, outbounds[1..]);
    }
  }

  /** The target of a compiled rule is part of the configuration exactly when its outbound is enabled: a disabled one dangles. */
  lemma TargetPresentIff(core: Core, rule: Rule, inbounds: seq<Inbound>, outbounds: seq<Outbound>)
    requires forall a, b :: a in outbounds && b in outbounds && a.id == b.id ==> a == b
    requires forall a :: a in outbounds ==> a.id > 0
    requires CompileRule(core, rule, inbounds, outbounds).Ok? && |CompileRule(core, rule, inbounds, outbounds).value| == 1
    ensures HasOutboundTag(core, outbounds, CompileRule(core, rule, inbounds, outbounds).value[0].outboundTag)
            <==> ResolveRuleOutbound(rule, outbounds).value.enabled
  {
    hide OutboundSupportsCore, IsRemovedSingboxOutbound, GeneratedOutboundTag, RuleUsers, RuleTags, RoutingRuleAppliesToCore, SplitRuleValues;
    FirstOutboundFound(rule.outboundID, outbounds);
    var target := ResolveRuleOutbound(rule, outbounds).value;
    var tag := GeneratedOutboundTag(core, target.id, rule.outboundTag);
    forall o | o in outbounds && GeneratedOutboundTag(core, o.id, o.tag) == tag ensures o == target {
      OutboundTagInjective(core, o.id, target.id, o.tag, rule.outboundTag);
    }
    TagIgnoresFallback(core, target.id, target.tag, rule.outboundTag);
  }

  lemma TagIgnoresFallback(core: Core, id: int, x: string, y: string)
    requires id > 0
    ensures GeneratedOutboundTag(core, id, x) == GeneratedOutboundTag(core, id, y)
  {
  }

  /** A concrete dangling target: the only outbound is disabled, and the compiled rule names it all the same. */
  lemma DisabledTargetDangles()
    ensures var compiled := CompileRule(Singbox, BLOCK_ALICE, [SHARED], [Socks(false)]);
            compiled.Ok? && |compiled.value| == 1 && !HasOutboundTag(Singbox, [Socks(false)], compiled.value[0].outboundTag)
  {
    BlockAliceCompiles(false);
    hide CompileRule, HasOutboundTag;
    assert FirstOutbound(2, [Socks(false)]) == Some(Socks(false));
    TargetPresentIff(Singbox, BLOCK_ALICE, [SHARED], [Socks(false)]);
  }
}
