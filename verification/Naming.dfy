/**
 The words and lookups of the routing compiler: tags, protocols, and which inbound or outbound a stored
 rule means by an id or a name.
 */
module Naming {
  import opened Outcome
  import opened Text
  import opened Routing

  // ---------- Tags ----------

  function Word(s: string): string {
    Lower(Trim(s))
  }

  /** How inbounds are called: by Xray, and by sing-box, which has names of its own for three protocols. */
  lemma InboundNames(a: Inbound)
    requires a.id >= 0
    ensures CoreTag(Xray, a) == "inbound-" + Itoa(a.id) + "-" + Word(a.protocol)
    ensures Word(a.protocol) == "hysteria2" ==> CoreTag(Singbox, a) == "hy2-inbound-" + Itoa(a.id)
    ensures Word(a.protocol) == "tuic" ==> CoreTag(Singbox, a) == "tuic-inbound-" + Itoa(a.id)
    ensures Word(a.protocol) == "shadowtls" ==> CoreTag(Singbox, a) == "shadowtls-inbound-" + Itoa(a.id)
    ensures Word(a.protocol) !in {"hysteria2", "tuic", "shadowtls"} ==> CoreTag(Singbox, a) == CoreTag(Xray, a)
  {
    WordsApart();
    hide Itoa, Lower, Trim;
  }

  lemma WordsApart()
    ensures "hysteria2" != "tuic" && "hysteria2" != "shadowtls" && "tuic" != "shadowtls"
  {
    assert |"hysteria2"| == 9 && |"tuic"| == 4 && |"shadowtls"| == 9;
    assert "hysteria2"[0] != "shadowtls"[0];
  }

  /** How outbounds are called, with the name given in the rule where there is no id. */
  lemma OutboundNames(id: int, name: string)
    ensures id > 0 ==> GeneratedOutboundTag(Xray, id, name) == "xray-out-" + Itoa(id) && GeneratedOutboundTag(Singbox, id, name) == "singbox-out-" + Itoa(id)
    ensures id <= 0 ==> GeneratedOutboundTag(Xray, id, name) == GeneratedOutboundTag(Singbox, id, name) == Trim(name)
  {
  }

  // ---------- Protocols ----------

  const BOTH := {"socks", "socks5", "http", "https", "vless", "trojan", "shadowsocks", "dns", "freedom", "direct", "blackhole", "block"}
  const SINGBOX_ONLY := {"hysteria2", "tuic", "shadowtls"}

  /** Which protocols a core can send out with; everything else is refused. */
  lemma SupportedProtocols(o: Outbound)
    ensures OutboundSupportsCore(o, Xray) <==> Word(o.protocol) in BOTH
    ensures OutboundSupportsCore(o, Singbox) <==> Word(o.protocol) in BOTH || Word(o.protocol) in SINGBOX_ONLY
    ensures IsRemovedSingboxOutbound(o) <==> Word(o.protocol) == "dns"
  {
    OldNames();
    hide Lower, Trim;
  }

  lemma OldNames()
    ensures |"socks5"| == 6 && |"direct"| == 6 && |"block"| == 5 && |"dns"| == 3 && |"socks"| == 5 && |"freedom"| == 7 && |"blackhole"| == 9
    ensures "socks5"[0] != "direct"[0] && "block"[0] != "socks"[0]
  {
  }

  // ---------- Lookups ----------

  /** The first outbound of the id, for a rule that names one. */
  lemma {:induction false} OutboundMeant(rule: Rule, outbounds: seq<Outbound>, i: nat)
    requires i < |outbounds| && outbounds[i].id == rule.outboundID > 0 && forall j :: 0 <= j < i ==> outbounds[j].id != rule.outboundID
    ensures ResolveRuleOutbound(rule, outbounds) == Some(outbounds[i])
    decreases |outbounds|
  {
    if i > 0 {
      OutboundMeant(rule, outbounds[1..], i - 1);
    }
  }

  lemma {:induction false} NoOutboundMeant(rule: Rule, outbounds: seq<Outbound>)
    requires rule.outboundID <= 0 || forall j :: 0 <= j < |outbounds| ==> outbounds[j].id != rule.outboundID
    ensures ResolveRuleOutbound(rule, outbounds) == None
    decreases |outbounds|
  {
    if outbounds != [] {
      NoOutboundMeant(rule, outbounds[1..]);
    }
  }

  /** The rule means this inbound: by a client of it, by its id, or by its tag or remark. */
  ghost predicate Means(rule: Rule, a: Inbound) {
    if rule.clientID > 0 then exists i :: 0 <= i < |a.clients| && a.clients[i].id == rule.clientID
    else if rule.inboundID > 0 then a.id == rule.inboundID
    else GeneratedInboundTag(a) == Trim(rule.inboundTag) || Trim(a.remark) == Trim(rule.inboundTag)
  }

  /** The rule names some inbound or client. */
  predicate Bound(rule: Rule) {
    rule.clientID > 0 || rule.inboundID > 0 || Trim(rule.inboundTag) != ""
  }

  ghost predicate FirstMeant(rule: Rule, inbounds: seq<Inbound>, i: nat) {
    i < |inbounds| && Means(rule, inbounds[i]) && forall j :: 0 <= j < i ==> !Means(rule, inbounds[j])
  }

  lemma MeantInFront(rule: Rule, inbounds: seq<Inbound>, i: nat)
    requires FirstMeant(rule, inbounds, i)
    ensures if i == 0 then Means(rule, inbounds[0]) else !Means(rule, inbounds[0]) && FirstMeant(rule, inbounds[1..], i - 1)
  {
    hide Means;
  }

  /** A bound rule concerns the core exactly if the first inbound it means is enabled there. */
  lemma {:induction false} BoundRuleApplies(rule: Rule, inbounds: seq<Inbound>, core: Core, i: nat)
    requires Bound(rule) && FirstMeant(rule, inbounds, i)
    ensures RoutingRuleAppliesToCore(rule, inbounds, core) <==> inbounds[i].enabled && inbounds[i].core == core
    decreases |inbounds|
  {
    MeantInFront(rule, inbounds, i);
    AppliesStep(rule, inbounds, core);
    hide FirstMeant, Means, RoutingRuleAppliesToCore;
    if i > 0 {
      BoundRuleApplies(rule, inbounds[1..], core, i - 1);
    }
  }

  lemma AppliesStep(rule: Rule, inbounds: seq<Inbound>, core: Core)
    requires Bound(rule) && inbounds != []
    ensures RoutingRuleAppliesToCore(rule, inbounds, core) <==>
              if Means(rule, inbounds[0]) then inbounds[0].enabled && inbounds[0].core == core else RoutingRuleAppliesToCore(rule, inbounds[1..], core)
  {
    hide GeneratedInboundTag, Trim;
  }

  lemma {:induction false} BoundToNothing(rule: Rule, inbounds: seq<Inbound>, core: Core)
    requires Bound(rule) && forall j :: 0 <= j < |inbounds| ==> !Means(rule, inbounds[j])
    ensures !RoutingRuleAppliesToCore(rule, inbounds, core)
    decreases |inbounds|
  {
    if inbounds != [] {
      AppliesStep(rule, inbounds, core);
      hide Means, RoutingRuleAppliesToCore;
      assert !Means(rule, inbounds[0]);
      BoundToNothing(rule, inbounds[1..], core);
    }
  }

  /** A rule for everybody concerns every core that serves an inbound, and every core while there is none. */
  lemma UnboundRuleApplies(rule: Rule, inbounds: seq<Inbound>, core: Core)
    requires !Bound(rule)
    ensures RoutingRuleAppliesToCore(rule, inbounds, core) <==> inbounds == [] || exists i :: 0 <= i < |inbounds| && inbounds[i].enabled && inbounds[i].core == core
  {
    if inbound :| inbound in inbounds && Serves(inbound, core) {
      var i :| 0 <= i < |inbounds| && inbounds[i] == inbound;
    }
    if i :| 0 <= i < |inbounds| && inbounds[i].enabled && inbounds[i].core == core {
      assert inbounds[i] in inbounds && Serves(inbounds[i], core);
    }
  }

  /** How Xray knows a client: by its credential for socks and http, and by its counter's name otherwise, which is the key if it has one, or the mail address. */
  lemma ClientNames(protocol: string, c: Client)
    ensures Word(protocol) in {"socks", "http"} ==>
              ClientRouteUser(protocol, c) == if Trim(c.credentialID) != "" then Trim(c.credentialID) else Trim(c.uuid)
    ensures Word(protocol) !in {"socks", "http"} ==>
              ClientRouteUser(protocol, c) == ClientStatsName(c) == if Trim(c.statsKey) != "" then Trim(c.statsKey) else Trim(c.email)
  {
    TrimSettles(c.credentialID);
    TrimSettles(c.uuid);
    hide Trim, Lower;
  }

  /** The rule that leads the statistics interface to itself. */
  lemma ApiRuleIs()
    ensures API_RULE == CoreRule(["api"], [], [], [], "", [], "api")
  {
  }
}
