/**
 Compilation of the stored routing rules into the rules of a core, which the core
 evaluates first match wins.

 An inbound's `core` is the result of `InboundCore`. Building outbound settings,
 management-direct hosts and rule sets are not modelled: the system rules are given.
 */
module Routing {
  import opened Outcome
  import opened Text

  datatype Core = Xray | Singbox

  datatype Client = Client(id: int, enabled: bool, statsKey: string, email: string, credentialID: string, uuid: string)

  datatype Inbound = Inbound(id: int, enabled: bool, core: Core, protocol: string, remark: string, clients: seq<Client>)

  datatype Outbound = Outbound(id: int, enabled: bool, tag: string, protocol: string)

  datatype Rule = Rule(id: int, enabled: bool, clientID: int, inboundID: int, inboundTag: string,
                       outboundID: int, outboundTag: string, domain: string, ip: string, protocol: string)

  /** A rule of the generated configuration; an empty list or string restricts nothing. */
  datatype CoreRule = CoreRule(inboundTags: seq<string>, users: seq<string>, domains: seq<string>, ips: seq<string>,
                               port: string, protocols: seq<string>, outboundTag: string)

  datatype BuildError = MissingOutbound(ruleID: int) | UnsupportedOutbound(ruleID: int, tag: string)

  // ---------- Tags, protocols and lookups ----------

  function Decimal(i: int): string {
    if i < 0 then "-" + Itoa(-i) else Itoa(i)
  }

  function GeneratedInboundTag(inbound: Inbound): string {
    "inbound-" + Decimal(inbound.id) + "-" + Token(inbound.protocol)
  }

  function InboundStatsTag(inbound: Inbound): string {
    var protocol := Token(inbound.protocol);
    if protocol == "hysteria2" then "hy2-inbound-" + Decimal(inbound.id)
    else if protocol == "tuic" then "tuic-inbound-" + Decimal(inbound.id)
    else if protocol == "shadowtls" then "shadowtls-inbound-" + Decimal(inbound.id)
    else GeneratedInboundTag(inbound)
  }

  /** The tag under which a core knows an inbound. */
  function CoreTag(core: Core, inbound: Inbound): string {
    if core.Xray? then GeneratedInboundTag(inbound) else InboundStatsTag(inbound)
  }

  function GeneratedOutboundTag(core: Core, profileID: int, fallback: string): string {
    if profileID <= 0 then Trim(fallback)
    else if core.Singbox? then "singbox-out-" + Itoa(profileID)
    else "xray-out-" + Itoa(profileID)
  }

  function NormalizeOutboundProtocol(protocol: string): string {
    var p := Token(protocol);
    if p == "socks5" then "socks" else if p == "direct" then "freedom" else if p == "block" then "blackhole" else p
  }

  predicate OutboundSupportsCore(outbound: Outbound, core: Core) {
    var p := NormalizeOutboundProtocol(outbound.protocol);
    || p in {"socks", "http", "https", "vless", "trojan", "shadowsocks", "dns", "freedom", "blackhole"}
    || (core.Singbox? && p in {"hysteria2", "tuic", "shadowtls"})
  }

  predicate IsRemovedSingboxOutbound(outbound: Outbound) {
    NormalizeOutboundProtocol(outbound.protocol) == "dns"
  }

  function FirstOutbound(id: int, outbounds: seq<Outbound>): Option<Outbound> {
    if outbounds == [] then None
    else if outbounds[0].id == id then Some(outbounds[0])
    else FirstOutbound(id, outbounds[1..])
  }

  function ResolveRuleOutbound(rule: Rule, outbounds: seq<Outbound>): Option<Outbound> {
    if rule.outboundID > 0 then FirstOutbound(rule.outboundID, outbounds) else None
  }

  function ClientStatsName(client: Client): string {
    if Trim(client.statsKey) != "" then Trim(client.statsKey) else Trim(client.email)
  }

  function CredentialIDValue(client: Client): string {
    if Trim(client.credentialID) != "" then Trim(client.credentialID) else Trim(client.uuid)
  }

  /** The identity that Xray compares with a rule's user list. */
  function ClientRouteUser(protocol: string, client: Client): (user: string)
    ensures Trim(user) == user
  {
    var p := Token(protocol);
    if p == "socks" || p == "http" then Trim(CredentialIDValue(client)) else ClientStatsName(client)
  }

  predicate Serves(inbound: Inbound, core: Core) {
    inbound.enabled && inbound.core == core
  }

  /** The names by which a stored rule may refer to an inbound. */
  predicate Answers(inbound: Inbound, name: string) {
    GeneratedInboundTag(inbound) == name || Trim(inbound.remark) == name
  }

  predicate HasClient(inbound: Inbound, clientID: int) {
    exists i :: 0 <= i < |inbound.clients| && inbound.clients[i].id == clientID
  }

  function FirstWithClient(inbounds: seq<Inbound>, clientID: int): (r: Option<Inbound>)
    ensures r.Some? ==> r.value in inbounds && HasClient(r.value, clientID)
    ensures r.None? ==> forall inbound :: inbound in inbounds ==> !HasClient(inbound, clientID)
  {
    if inbounds == [] then None
    else if HasClient(inbounds[0], clientID) then Some(inbounds[0])
    else FirstWithClient(inbounds[1..], clientID)
  }

  function FirstWithID(inbounds: seq<Inbound>, id: int): (r: Option<Inbound>)
    ensures r.Some? ==> r.value in inbounds && r.value.id == id
    ensures r.None? ==> forall inbound :: inbound in inbounds ==> inbound.id != id
  {
    if inbounds == [] then None
    else if inbounds[0].id == id then Some(inbounds[0])
    else FirstWithID(inbounds[1..], id)
  }

  function FirstAnswering(inbounds: seq<Inbound>, name: string): (r: Option<Inbound>)
    ensures r.Some? ==> r.value in inbounds && Answers(r.value, name)
    ensures r.None? ==> forall inbound :: inbound in inbounds ==> !Answers(inbound, name)
  {
    if inbounds == [] then None
    else if Answers(inbounds[0], name) then Some(inbounds[0])
    else FirstAnswering(inbounds[1..], name)
  }

  predicate RoutingRuleAppliesToCore(rule: Rule, inbounds: seq<Inbound>, core: Core) {
    if rule.clientID > 0 then
      var r := FirstWithClient(inbounds, rule.clientID);
      r.Some? && Serves(r.value, core)
    else if rule.inboundID > 0 then
      var r := FirstWithID(inbounds, rule.inboundID);
      r.Some? && Serves(r.value, core)
    else if Trim(rule.inboundTag) == "" then
      inbounds == [] || exists inbound :: inbound in inbounds && Serves(inbound, core)
    else
      var r := FirstAnswering(inbounds, Trim(rule.inboundTag));
      r.Some? && Serves(r.value, core)
  }

  // ---------- The builder's maps ----------

  type Users = map<int, (Client, string)>

  function TagsByID(core: Core, inbounds: seq<Inbound>): map<int, string> {
    if inbounds == [] then map[]
    else
      var m, last := TagsByID(core, inbounds[..|inbounds| - 1]), inbounds[|inbounds| - 1];
      if Serves(last, core) then m[last.id := CoreTag(core, last)] else m
  }

  /** The remark and the generated tag of an inbound, entered in the order of each builder. */
  function AddAliases(core: Core, m: map<string, string>, inbound: Inbound): map<string, string> {
    var tag, remark := CoreTag(core, inbound), Trim(inbound.remark);
    if core.Xray? then
      (if remark != "" then m[remark := tag] else m)[tag := tag]
    else
      var withTag := m[GeneratedInboundTag(inbound) := tag];
      if remark != "" then withTag[remark := tag] else withTag
  }

  function Aliases(core: Core, inbounds: seq<Inbound>): map<string, string> {
    if inbounds == [] then map[]
    else
      var m, last := Aliases(core, inbounds[..|inbounds| - 1]), inbounds[|inbounds| - 1];
      if Serves(last, core) then AddAliases(core, m, last) else m
  }

  function AddClients(m: Users, clients: seq<Client>, protocol: string): Users {
    if clients == [] then m
    else
      var n, last := AddClients(m, clients[..|clients| - 1], protocol), clients[|clients| - 1];
      if last.enabled then n[last.id := (last, Token(protocol))] else n
  }

  function XrayClients(inbounds: seq<Inbound>): Users {
    if inbounds == [] then map[]
    else
      var m, last := XrayClients(inbounds[..|inbounds| - 1]), inbounds[|inbounds| - 1];
      if Serves(last, Xray) then AddClients(m, last.clients, last.protocol) else m
  }

  // ---------- One rule ----------

  /** The user list of a compiled rule, or None when the rule is dropped. */
  function RuleUsers(core: Core, rule: Rule, inbounds: seq<Inbound>): Option<seq<string>> {
    if core.Singbox? || rule.clientID <= 0 then Some([])
    else if rule.clientID !in XrayClients(inbounds) then None
    else
      var (client, protocol) := XrayClients(inbounds)[rule.clientID];
      var user := ClientRouteUser(protocol, client);
      if Trim(user) == "" then None else Some([user])
  }

  /** The inbound list of a compiled rule, or None when the rule is dropped. */
  function RuleTags(core: Core, rule: Rule, inbounds: seq<Inbound>): Option<seq<string>> {
    var name := Trim(rule.inboundTag);
    if rule.inboundID > 0 then
      if rule.inboundID in TagsByID(core, inbounds) then Some([TagsByID(core, inbounds)[rule.inboundID]]) else None
    else if name != "" then
      if name in Aliases(core, inbounds) then Some([Aliases(core, inbounds)[name]]) else None
    else Some([])
  }

  function CompileRule(core: Core, rule: Rule, inbounds: seq<Inbound>, outbounds: seq<Outbound>): Result<seq<CoreRule>, BuildError> {
    if !rule.enabled || !RoutingRuleAppliesToCore(rule, inbounds, core) then Ok([])
    else
      var target := ResolveRuleOutbound(rule, outbounds);
      if target.None? then Err(MissingOutbound(rule.id))
      else if !OutboundSupportsCore(target.value, core) then Err(UnsupportedOutbound(rule.id, target.value.tag))
      else if core.Singbox? && IsRemovedSingboxOutbound(target.value) then Ok([])
      else
        var users, tags := RuleUsers(core, rule, inbounds), RuleTags(core, rule, inbounds);
        if users.None? || tags.None? then Ok([])
        else Ok([CoreRule(tags.value, users.value, SplitRuleValues(rule.domain), SplitRuleValues(rule.ip), "",
                          SplitRuleValues(rule.protocol), GeneratedOutboundTag(core, target.value.id, rule.outboundTag))])
  }

  function CompileRules(core: Core, rules: seq<Rule>, inbounds: seq<Inbound>, outbounds: seq<Outbound>): Result<seq<CoreRule>, BuildError> {
    if rules == [] then Ok([])
    else Append(CompileRule(core, rules[0], inbounds, outbounds), CompileRules(core, rules[1..], inbounds, outbounds))
  }

  /** An error in front wins, as the loop stops at it. */
  function Append(a: Result<seq<CoreRule>, BuildError>, b: Result<seq<CoreRule>, BuildError>): Result<seq<CoreRule>, BuildError> {
    if a.Err? then a else if b.Err? then b else Ok(a.value + b.value)
  }

  lemma AppendTwice(a: seq<CoreRule>, b: Result<seq<CoreRule>, BuildError>, c: Result<seq<CoreRule>, BuildError>)
    ensures Append(Ok(a), Append(b, c)) == Append(Append(Ok(a), b), c)
  {
    if b.Ok? && c.Ok? {
      assert a + (b.value + c.value) == a + b.value + c.value;
    }
  }

  const API_RULE := CoreRule(["api"], [], [], [], "", [], "api")

  // ---------- The builders ----------

  method CollectXrayMaps(inbounds: seq<Inbound>) returns (tagsByID: map<int, string>, aliases: map<string, string>, clientsByID: Users)
    ensures tagsByID == TagsByID(Xray, inbounds) && aliases == Aliases(Xray, inbounds) && clientsByID == XrayClients(inbounds)
  {
    hide GeneratedInboundTag;
    tagsByID, aliases, clientsByID := map[], map[], map[];
    for i := 0 to |inbounds|
      invariant tagsByID == TagsByID(Xray, inbounds[..i])
      invariant aliases == Aliases(Xray, inbounds[..i])
      invariant clientsByID == XrayClients(inbounds[..i])
    {
      var inbound := inbounds[i];
      assert inbounds[..i + 1][..i] == inbounds[..i];
      if !inbound.enabled || inbound.core != Xray {
        continue;
      }
      var actualTag := GeneratedInboundTag(inbound);
      tagsByID := tagsByID[inbound.id := actualTag];
      if Trim(inbound.remark) != "" {
        aliases := aliases[Trim(inbound.remark) := actualTag];
      }
      aliases := aliases[actualTag := actualTag];
      ghost var before := clientsByID;
      for j := 0 to |inbound.clients|
        invariant clientsByID == AddClients(before, inbound.clients[..j], inbound.protocol)
      {
        assert inbound.clients[..j + 1][..j] == inbound.clients[..j];
        if inbound.clients[j].enabled {
          clientsByID := clientsByID[inbound.clients[j].id := (inbound.clients[j], Token(inbound.protocol))];
        }
      }
      assert inbound.clients[..|inbound.clients|] == inbound.clients;
    }
    assert inbounds[..|inbounds|] == inbounds;
  }

  method CompileXrayRule(rule: Rule, inbounds: seq<Inbound>, outbounds: seq<Outbound>,
                         tagsByID: map<int, string>, aliases: map<string, string>, clientsByID: Users)
    returns (r: Result<seq<CoreRule>, BuildError>)
    requires tagsByID == TagsByID(Xray, inbounds) && aliases == Aliases(Xray, inbounds) && clientsByID == XrayClients(inbounds)
    ensures r == CompileRule(Xray, rule, inbounds, outbounds)
  {
    hide RoutingRuleAppliesToCore, OutboundSupportsCore, ResolveRuleOutbound, TagsByID, Aliases, XrayClients, ClientRouteUser, SplitRuleValues;
    if !rule.enabled || !RoutingRuleAppliesToCore(rule, inbounds, Xray) {
      return Ok([]);
    }
    var target := ResolveRuleOutbound(rule, outbounds);
    if target.None? {
      return Err(MissingOutbound(rule.id));
    }
    if !OutboundSupportsCore(target.value, Xray) {
      return Err(UnsupportedOutbound(rule.id, target.value.tag));
    }
    var xr := CoreRule([], [], [], [], "", [], GeneratedOutboundTag(Xray, target.value.id, rule.outboundTag));
    if rule.clientID > 0 {
      if rule.clientID !in clientsByID {
        return Ok([]);
      }
      var (client, protocol) := clientsByID[rule.clientID];
      var routeUser := ClientRouteUser(protocol, client);
      if Trim(routeUser) == "" {
        return Ok([]);
      }
      xr := xr.(users := [routeUser]);
    }
    var inboundTag := Trim(rule.inboundTag);
    if rule.inboundID > 0 {
      if rule.inboundID !in tagsByID {
        return Ok([]);
      }
      xr := xr.(inboundTags := [tagsByID[rule.inboundID]]);
    } else if inboundTag != "" {
      if inboundTag !in aliases {
        return Ok([]);
      }
      xr := xr.(inboundTags := [aliases[inboundTag]]);
    }
    EmptyFields();
    if rule.domain != "" {
      xr := xr.(domains := SplitRuleValues(rule.domain));
    }
    if rule.ip != "" {
      xr := xr.(ips := SplitRuleValues(rule.ip));
    }
    if rule.protocol != "" {
      xr := xr.(protocols := SplitRuleValues(rule.protocol));
    }
    r := Ok([xr]);
  }

  lemma EmptyFields()
    ensures SplitRuleValues("") == []
  {
  }

  /** The rules of the generated Xray configuration: the stats API rule, the system rules, then the stored ones. */
  method BuildXrayRules(inbounds: seq<Inbound>, outbounds: seq<Outbound>, rules: seq<Rule>, systemRules: seq<CoreRule>)
    returns (r: Result<seq<CoreRule>, BuildError>)
    ensures r == Append(Ok([API_RULE] + systemRules), CompileRules(Xray, rules, inbounds, outbounds))
  {
    hide CompileRule;
    var tagsByID, aliases, clientsByID := CollectXrayMaps(inbounds);
    var out := systemRules;
    for i := 0 to |rules|
      invariant Append(Ok(systemRules), CompileRules(Xray, rules, inbounds, outbounds))
             == Append(Ok(out), CompileRules(Xray, rules[i..], inbounds, outbounds))
    {
      assert rules[i..][1..] == rules[i + 1..];
      var compiled := CompileXrayRule(rules[i], inbounds, outbounds, tagsByID, aliases, clientsByID);
      AppendTwice(out, compiled, CompileRules(Xray, rules[i + 1..], inbounds, outbounds));
      if compiled.Err? {
        return Err(compiled.error);
      }
      out := out + compiled.value;
    }
    assert out + [] == out;
    AppendTwice([API_RULE], Ok(systemRules), CompileRules(Xray, rules, inbounds, outbounds));
    r := Ok([API_RULE] + out);
  }

  method CollectSingboxMaps(inbounds: seq<Inbound>) returns (tagsByID: map<int, string>, aliases: map<string, string>)
    ensures tagsByID == TagsByID(Singbox, inbounds) && aliases == Aliases(Singbox, inbounds)
  {
    hide GeneratedInboundTag, InboundStatsTag;
    tagsByID, aliases := map[], map[];
    for i := 0 to |inbounds|
      invariant tagsByID == TagsByID(Singbox, inbounds[..i])
      invariant aliases == Aliases(Singbox, inbounds[..i])
    {
      var inbound := inbounds[i];
      assert inbounds[..i + 1][..i] == inbounds[..i];
      if !inbound.enabled || inbound.core != Singbox {
        continue;
      }
      var tag := InboundStatsTag(inbound);
      tagsByID := tagsByID[inbound.id := tag];
      aliases := aliases[GeneratedInboundTag(inbound) := tag];
      if Trim(inbound.remark) != "" {
        aliases := aliases[Trim(inbound.remark) := tag];
      }
    }
    assert inbounds[..|inbounds|] == inbounds;
  }

  method CompileSingboxRule(rule: Rule, inbounds: seq<Inbound>, outbounds: seq<Outbound>, tagsByID: map<int, string>, aliases: map<string, string>)
    returns (r: Result<seq<CoreRule>, BuildError>)
    requires tagsByID == TagsByID(Singbox, inbounds) && aliases == Aliases(Singbox, inbounds)
    ensures r == CompileRule(Singbox, rule, inbounds, outbounds)
  {
    hide RoutingRuleAppliesToCore, OutboundSupportsCore, ResolveRuleOutbound, TagsByID, Aliases, IsRemovedSingboxOutbound, SplitRuleValues, Trim;
    if !rule.enabled || !RoutingRuleAppliesToCore(rule, inbounds, Singbox) {
      return Ok([]);
    }
    var target := ResolveRuleOutbound(rule, outbounds);
    if target.None? {
      return Err(MissingOutbound(rule.id));
    }
    if !OutboundSupportsCore(target.value, Singbox) {
      return Err(UnsupportedOutbound(rule.id, target.value.tag));
    }
    if IsRemovedSingboxOutbound(target.value) {
      return Ok([]);
    }
    var sr := CoreRule([], [], [], [], "", [], GeneratedOutboundTag(Singbox, target.value.id, rule.outboundTag));
    var inboundTag := Trim(rule.inboundTag);
    if rule.inboundID > 0 {
      if rule.inboundID !in tagsByID {
        return Ok([]);
      }
      sr := sr.(inboundTags := [tagsByID[rule.inboundID]]);
    } else if inboundTag != "" {
      if inboundTag !in aliases {
        return Ok([]);
      }
      sr := sr.(inboundTags := [aliases[inboundTag]]);
    }
    if Trim(rule.domain) != "" {
      sr := sr.(domains := SplitRuleValues(rule.domain));
    } else {
      BlankHasNoValues(rule.domain);
    }
    if Trim(rule.ip) != "" {
      sr := sr.(ips := SplitRuleValues(rule.ip));
    } else {
      BlankHasNoValues(rule.ip);
    }
    if Trim(rule.protocol) != "" {
      sr := sr.(protocols := SplitRuleValues(rule.protocol));
    } else {
      BlankHasNoValues(rule.protocol);
    }
    r := Ok([sr]);
  }

  method BuildSingboxRules(inbounds: seq<Inbound>, outbounds: seq<Outbound>, rules: seq<Rule>, systemRules: seq<CoreRule>)
    returns (r: Result<seq<CoreRule>, BuildError>)
    ensures r == Append(Ok(systemRules), CompileRules(Singbox, rules, inbounds, outbounds))
  {
    hide CompileRule;
    var tagsByID, aliases := CollectSingboxMaps(inbounds);
    var out := systemRules;
    for i := 0 to |rules|
      invariant Append(Ok(systemRules), CompileRules(Singbox, rules, inbounds, outbounds))
             == Append(Ok(out), CompileRules(Singbox, rules[i..], inbounds, outbounds))
    {
      assert rules[i..][1..] == rules[i + 1..];
      var compiled := CompileSingboxRule(rules[i], inbounds, outbounds, tagsByID, aliases);
      AppendTwice(out, compiled, CompileRules(Singbox, rules[i + 1..], inbounds, outbounds));
      if compiled.Err? {
        return Err(compiled.error);
      }
      out := out + compiled.value;
    }
    assert out + [] == out;
    r := Ok(out);
  }
}
