/**
 What a refresh keeps of the rows a subscription already has: a row that a link takes stays with its id, its tag
 and its rules, even if the provider changed what stands behind it.
 */
module RefreshKeeps {
  import opened Outcome
  import opened OutboundOrder
  import opened Refresh
  import opened RefreshTwice
  import opened SubscriptionPlan
  import opened Text

  /** The row is the subscription's, in the terms of the table. */
  predicate Belongs(t: Tables, sub: int, id: int) {
    id in t.outbounds && t.outbounds[id].source == "subscription" && t.outbounds[id].subscription == Some(sub)
  }

  lemma BelongsIff(t: Tables, sub: int, id: int)
    ensures id in Mine(t, sub) <==> Belongs(t, sub, id)
  {
  }

  // ---------- Where a node goes and what it writes ----------

  /** The row of the subscription with the identity. */
  predicate HasName(t: Tables, sub: int, id: int, identity: string) {
    Belongs(t, sub, id) && t.outbounds[id].identity == identity
  }

  /** A node goes to the row it names, if that is the subscription's; otherwise to the first row of its identity; otherwise to a new one. */
  lemma GoesTo(t: Tables, sub: int, node: Node)
    ensures var m := Match(t, sub, node);
            && (node.id > 0 && Belongs(t, sub, node.id) ==> m == Some(node.id))
            && (node.id >= 0 && !(node.id > 0 && Belongs(t, sub, node.id)) ==>
                  && (m.Some? ==> HasName(t, sub, m.value, Trim(node.identity)) && forall other :: HasName(t, sub, other, Trim(node.identity)) ==> m.value <= other)
                  && (m.None? ==> forall other :: !HasName(t, sub, other, Trim(node.identity))))
            && (node.id < 0 ==> m == None)
  {
    hide Trim;
    var same := WithIdentity(t, sub, Trim(node.identity));
    forall other ensures other in same <==> HasName(t, sub, other, Trim(node.identity)) {
    }
    hide HasName, Belongs;
  }

  /** What one node does: it is refused if it is not valid or has no identity, or if another row has the tag; otherwise its row is written and no other. */
  lemma PlaceIs(p: Progress, sub: int, node: Node)
    ensures var t, m, r := p.tables, Match(p.tables, sub, node), Place(p, sub, node);
            var id := if m.Some? then m.value else t.lastId + 1;
            var tag := Trim(if m.Some? then t.outbounds[m.value].tag else node.tag);
            if !node.valid || Trim(node.identity) == "" then r == Err(BadNode)
            else if exists other :: other in t.outbounds && other != id && t.outbounds[other].tag == tag then r == Err(TagConflict)
            else
              && r.Ok? && r.value.seen == p.seen + {id} && id in r.value.tables.outbounds
              && r.value.tables.subscriptions == t.subscriptions && r.value.tables.rules == t.rules
              && (forall other :: other != id ==> (other in r.value.tables.outbounds <==> other in t.outbounds)
                                                  && (other in t.outbounds ==> r.value.tables.outbounds[other] == t.outbounds[other]))
              && var o := r.value.tables.outbounds[id];
                 && o.tag == tag && o.protocol == node.protocol && o.enabled && o.source == "subscription" && o.subscription == Some(sub)
                 && o.sort == 50000 + node.position && o.identity == Trim(node.identity)
                 && o.endpoint.remark == Trim(node.endpoint.remark) && o.endpoint.address == Trim(node.endpoint.address)
                 && o.endpoint.port == node.endpoint.port && o.endpoint.username == Trim(node.endpoint.username)
                 && o.endpoint.password == node.endpoint.password && o.endpoint.rawLink == node.endpoint.rawLink
                 && o.endpoint.settings == Trim(node.endpoint.settings)
  {
    hide Match, Trim;
  }

  /** A subscription that is gone or switched off is not refreshed, and one that is gone is not deleted again; anything else can be. */
  lemma WhatIsRefused(t: Tables, sub: int, nodes: seq<Node>)
    ensures Refreshed(t, sub, nodes) == Err(NotFound) <==> sub !in t.subscriptions || t.subscriptions[sub].deleted
    ensures Refreshed(t, sub, nodes) == Err(Disabled) <==> sub in t.subscriptions && !t.subscriptions[sub].deleted && !t.subscriptions[sub].enabled
    ensures SubscriptionDeleted(t, sub).Ok? <==> sub in t.subscriptions && !t.subscriptions[sub].deleted
  {
    hide Rebalanced, Deleted;
    NodesOnlyConflict(Progress(t, {}), sub, nodes);
  }

  lemma {:induction false} NodesOnlyConflict(p: Progress, sub: int, nodes: seq<Node>)
    ensures var r := PlaceAll(p, sub, nodes); r.Err? ==> r.error == BadNode || r.error == TagConflict
    decreases |nodes|
  {
    hide Target, TagFor, TagTaken, Filled;
    if nodes != [] {
      NodesOnlyConflict(p, sub, nodes[..|nodes| - 1]);
    }
  }

  // ---------- What stays ----------

  /** Rows that are not the subscription's stay as they are, except for their number. */
  lemma OthersStay(t: Tables, sub: int, nodes: seq<Node>, id: int)
    requires Sound(t) && Refreshed(t, sub, nodes).Ok? && id in t.outbounds && !Belongs(t, sub, id)
    ensures var u := Refreshed(t, sub, nodes).value;
            id in u.outbounds && u.outbounds[id] == t.outbounds[id].(sort := u.outbounds[id].sort)
  {
    hide Sound, Refreshed, PlaceAll, OthersKeepOrder, OwnRowsWritten, RulesFollow, Mine;
    RefreshIsCorrect(t, sub, nodes);
  }

  /** A deletion takes exactly the rows of the subscription and the rules on them. */
  lemma DeletionTakes(t: Tables, sub: int, id: int, r: int)
    requires Sound(t) && SubscriptionDeleted(t, sub).Ok?
    ensures var u := SubscriptionDeleted(t, sub).value;
            && (id in u.outbounds <==> id in t.outbounds && !Belongs(t, sub, id))
            && (r in u.rules <==> r in t.rules && !Belongs(t, sub, t.rules[r].outbound))
  {
    hide Sound, SubscriptionDeleted, OthersKeepOrder;
    DeletionIsCorrect(t, sub);
    var u := SubscriptionDeleted(t, sub).value;
    BelongsIff(u, sub, id);
    RulesAreLive(t, r);
    DeletedRow(t, u, sub, id);
    if r in t.rules {
      DeletedRow(t, u, sub, t.rules[r].outbound);
    }
    hide Belongs;
  }

  lemma RulesAreLive(t: Tables, r: int)
    requires Sound(t)
    ensures r in t.rules ==> t.rules[r].outbound in t.outbounds
  {
  }

  lemma DeletedRow(t: Tables, u: Tables, sub: int, id: int)
    requires Sound(t) && Sound(u) && Mine(u, sub) == {} && OthersUntouched(t, u, sub) && SubscriptionDeleted(t, sub).Ok? && u == SubscriptionDeleted(t, sub).value
    ensures id in u.outbounds <==> id in t.outbounds && !Belongs(t, sub, id)
  {
    hide Sound, Rank;
  }

  /** A node that names a row of the subscription goes there. */
  lemma NamedIsTarget(t: Tables, p: Progress, sub: int, nodes: seq<Node>, node: Node)
    requires Placed(t, p, sub, nodes) && node.id > 0 && Belongs(t, sub, node.id)
    ensures Target(p.tables, sub, node) == node.id
  {
    var id := node.id;
    if id in p.seen {
      WrittenIsOwned(p.tables.outbounds[id], nodes, sub);
    }
    hide Written;
  }

  lemma PlaceSees(p: Progress, sub: int, node: Node)
    requires Place(p, sub, node).Ok?
    ensures Place(p, sub, node).value.seen == p.seen + {Target(p.tables, sub, node)}
  {
    hide Target, Filled, TagFor, TagTaken;
  }

  /** Every row of the subscription that some node names is seen. */
  lemma {:induction false} NamedIsSeen(t: Tables, sub: int, nodes: seq<Node>, k: nat)
    requires Sound(t) && Refreshable(t, sub) && PlaceAll(Progress(t, {}), sub, nodes).Ok?
    requires k < |nodes| && nodes[k].id > 0 && Belongs(t, sub, nodes[k].id)
    ensures nodes[k].id in PlaceAll(Progress(t, {}), sub, nodes).value.seen
    decreases |nodes|
  {
    hide Sound, Placed, Place, Belongs;
    var init, last := nodes[..|nodes| - 1], nodes[|nodes| - 1];
    var p := PlaceAll(Progress(t, {}), sub, init).value;
    PlaceSees(p, sub, last);
    if k < |nodes| - 1 {
      NamedIsSeen(t, sub, init, k);
    } else {
      PlaceAllKeeps(t, sub, init);
      NamedIsTarget(t, p, sub, init, last);
    }
  }

  /** A row of the subscription that a node names survives a successful refresh with its tag and all its rules. */
  lemma NamedSurvives(t: Tables, sub: int, nodes: seq<Node>, k: nat)
    requires Sound(t) && Refreshable(t, sub) && Refreshed(t, sub, nodes).Ok?
    requires k < |nodes| && nodes[k].id > 0 && Belongs(t, sub, nodes[k].id)
    ensures var u, id := Refreshed(t, sub, nodes).value, nodes[k].id;
            && Belongs(u, sub, id) && u.outbounds[id].tag == t.outbounds[id].tag
            && forall r :: r in t.rules && t.rules[r].outbound == id ==> r in u.rules && u.rules[r] == t.rules[r]
  {
    hide Sound, PlaceAll, Rebalanced, Deleted, OthersUntouched, OthersKeepOrder, Mine, WrittenExceptSort, Belongs;
    NamedIsSeen(t, sub, nodes, k);
    RefreshIsCorrect(t, sub, nodes);
    var u := Refreshed(t, sub, nodes).value;
    BelongsIff(u, sub, nodes[k].id);
    BelongsIn(t, sub, nodes[k].id);
    BelongsIn(u, sub, nodes[k].id);
    hide Refreshed;
  }

  lemma BelongsIn(t: Tables, sub: int, id: int)
    requires Belongs(t, sub, id)
    ensures id in t.outbounds
  {
  }

  lemma OwnIdPositive(t: Tables, sub: int, id: int)
    requires Sound(t) && Belongs(t, sub, id)
    ensures id > 0
  {
  }

  /** The place of a row in the listing, and that the row is one of the subscription's there. */
  lemma ListedAt(existing: seq<Listed>, t: Tables, sub: int, id: int) returns (j: nat)
    requires Lists(existing, t) && Belongs(t, sub, id)
    ensures j < |existing| && existing[j].id == id && IsOwn(existing[j], sub)
  {
    hide Sorted;
    assert Shows(existing, id);
    j :| 0 <= j < |existing| && existing[j].id == id;
  }

  /** The row that a link's identity names survives. */
  lemma IdentityKeepsRow(t: Tables, sub: int, links: seq<Link>, existing: seq<Listed>, i: nat, j: nat)
    requires Sound(t) && Refreshable(t, sub) && Lists(existing, t) && Refreshed(t, sub, Plan(sub, links, existing)).Ok?
    requires i < |links| && |Plan(sub, links, existing)| == |links| && LastWith(existing, sub, Plan(sub, links, existing)[i].identity, j)
    ensures Survives(t, sub, Refreshed(t, sub, Plan(sub, links, existing)).value, existing[j].id)
  {
    hide Sound, Plan, Refreshed, Sorted, Refreshable;
    PlanTakes(sub, links, existing, i);
    TakenSurvives(t, sub, Plan(sub, links, existing), existing, i, j);
  }

  /** The row is still there with its tag, and so is every rule that sends connections to it. */
  ghost predicate Survives(t: Tables, sub: int, u: Tables, id: int) {
    && Belongs(t, sub, id) && Belongs(u, sub, id) && u.outbounds[id].tag == t.outbounds[id].tag
    && forall r :: r in t.rules && t.rules[r].outbound == id ==> r in u.rules && u.rules[r] == t.rules[r]
  }

  lemma TakenSurvives(t: Tables, sub: int, nodes: seq<Node>, existing: seq<Listed>, i: nat, j: nat)
    requires Sound(t) && Refreshable(t, sub) && Lists(existing, t) && Refreshed(t, sub, nodes).Ok?
    requires i < |nodes| && j < |existing| && IsOwn(existing[j], sub) && Claims(nodes[i], existing[j])
    ensures Survives(t, sub, Refreshed(t, sub, nodes).value, existing[j].id)
  {
    hide Sound, Refreshed, Sorted, Refreshable;
    var id := existing[j].id;
    assert Belongs(t, sub, id);
    OwnIdPositive(t, sub, id);
    NamedSurvives(t, sub, nodes, i);
  }

  /**
   When a provider changes all its servers, none being fewer than before: the links share no identity with the rows of
   the subscription, and there are at least as many of them. Then every row survives a successful refresh, with its tag and its rules.
   */
  lemma AllChangedKeepsRows(t: Tables, sub: int, links: seq<Link>, existing: seq<Listed>, id: int)
    requires Sound(t) && Refreshable(t, sub) && Lists(existing, t) && Refreshed(t, sub, Plan(sub, links, existing)).Ok?
    requires forall i :: 0 <= i < |links| ==> NoneWith(existing, sub, IdentityOf(links[i]))
    requires OwnAmong(existing, sub, |existing|) <= |links| && Belongs(t, sub, id)
    ensures Survives(t, sub, Refreshed(t, sub, Plan(sub, links, existing)).value, id)
  {
    hide Sound, Plan, Refreshed, Refreshable, Lists, NoneWith, Belongs, Claims, IsOwn, Survives, IdentityOf;
    var j := ListedAt(existing, t, sub, id);
    OwnRowsAt(existing, sub, |existing|);
    var i := OwnAmong(existing, sub, j);
    PlanTakes(sub, links, existing, i);
    IdentityOfNode(Plan(sub, links, existing)[i], links[i], i);
    TakenSurvives(t, sub, Plan(sub, links, existing), existing, i, j);
  }

  lemma IdentityOfNode(node: Node, link: Link, i: nat)
    requires FromLink(node, link, i)
    ensures node.identity == IdentityOf(link)
  {
  }
}
