/**
 Refreshing a subscription: its nodes are matched to the rows it already has, the rest are inserted,
 rows no node claimed are deleted with the rules that used them, and the order is worked out again.

 All of it is one transaction: a node that is refused undoes the nodes before it.
 */
module Refresh {
  import opened Outcome
  import opened Sets
  import opened OutboundOrder
  import opened Text

  const FRESH_BASE := 50000

  /** `valid` says whether the profile passes the checks on protocols and credentials; `id` is a suggestion. */
  datatype Node = Node(id: int, tag: string, protocol: string, endpoint: Endpoint, identity: string, position: int, valid: bool)

  datatype Failure = NotFound | Disabled | BadNode | TagConflict

  predicate Owned(o: Outbound, sub: int) {
    FromSubscription(o) && o.subscription == Some(sub)
  }

  function Mine(t: Tables, sub: int): set<int> {
    set id | id in t.outbounds && Owned(t.outbounds[id], sub)
  }

  function Trimmed(e: Endpoint): Endpoint {
    Endpoint(Trim(e.remark), Trim(e.address), e.port, Trim(e.username), e.password, e.rawLink, Trim(e.settings))
  }

  /** The row a node makes of a tag. */
  function Filled(node: Node, tag: string, sub: int): Outbound {
    Outbound(tag, node.protocol, Trimmed(node.endpoint), true, FRESH_BASE + node.position, SUBSCRIPTION_SOURCE, Some(sub), Trim(node.identity))
  }

  // ---------- Matching ----------

  function WithIdentity(t: Tables, sub: int, identity: string): set<int> {
    set id | id in t.outbounds && Owned(t.outbounds[id], sub) && t.outbounds[id].identity == identity
  }

  predicate IsLeast(ids: set<int>, id: int) {
    id in ids && forall other :: other in ids ==> id <= other
  }

  lemma {:induction false} LeastExists(ids: set<int>)
    requires ids != {}
    ensures exists id :: IsLeast(ids, id)
    decreases |ids|
  {
    var one := Member(ids);
    var rest := ids - {one};
    assert ids == rest + {one};
    if rest == {} {
      assert ids == {one};
      assert IsLeast(ids, one);
    } else {
      LeastExists(rest);
      var least :| IsLeast(rest, least);
      assert IsLeast(rest + {one}, if one < least then one else least);
    }
  }

  function Least(ids: set<int>): (id: int)
    requires ids != {}
    ensures IsLeast(ids, id)
  {
    LeastExists(ids);
    var id :| IsLeast(ids, id);
    id
  }

  /** The suggested row if it belongs to the subscription, and otherwise its first row of the same identity. */
  function Match(t: Tables, sub: int, node: Node): (m: Option<int>)
    ensures m.Some? ==> m.value in Mine(t, sub)
  {
    if node.id > 0 && node.id in t.outbounds && Owned(t.outbounds[node.id], sub) then Some(node.id)
    else if node.id < 0 then None
    else
      var same := WithIdentity(t, sub, Trim(node.identity));
      if same == {} then None else Some(Least(same))
  }

  /** Another row already has the tag. */
  predicate TagTaken(t: Tables, tag: string, id: int) {
    exists other :: other in t.outbounds && other != id && t.outbounds[other].tag == tag
  }

  datatype Progress = Progress(tables: Tables, seen: set<int>)

  /** The row a node goes to, which may be a new one. */
  function Target(t: Tables, sub: int, node: Node): int {
    var m := Match(t, sub, node);
    if m.Some? then m.value else t.lastId + 1
  }

  /** A matched row keeps its tag. */
  function TagFor(t: Tables, sub: int, node: Node): string {
    var m := Match(t, sub, node);
    Trim(if m.Some? then t.outbounds[m.value].tag else node.tag)
  }

  function Put(t: Tables, id: int, o: Outbound): Tables {
    t.(outbounds := t.outbounds[id := o], lastId := if id > t.lastId then id else t.lastId)
  }

  /** One node: update the row it matches or insert a new one. */
  function Place(p: Progress, sub: int, node: Node): Result<Progress, Failure> {
    var t := p.tables;
    var id, tag := Target(t, sub, node), TagFor(t, sub, node);
    if !node.valid || Trim(node.identity) == "" then Err(BadNode)
    else if TagTaken(t, tag, id) then Err(TagConflict)
    else Ok(Progress(Put(t, id, Filled(node, tag, sub)), p.seen + {id}))
  }

  function PlaceAll(p: Progress, sub: int, nodes: seq<Node>): Result<Progress, Failure> {
    if nodes == [] then Ok(p)
    else
      var r := PlaceAll(p, sub, nodes[..|nodes| - 1]);
      if r.Err? then r else Place(r.value, sub, nodes[|nodes| - 1])
  }

  /** Deletes subscription rows and every rule that points at them. */
  function Deleted(t: Tables, ids: set<int>): Tables {
    t.(rules := map r | r in t.rules && t.rules[r].outbound !in ids :: t.rules[r],
       outbounds := map id | id in t.outbounds && !(id in ids && FromSubscription(t.outbounds[id])) :: t.outbounds[id])
  }

  function Refreshed(t: Tables, sub: int, nodes: seq<Node>): Result<Tables, Failure> {
    if sub !in t.subscriptions || t.subscriptions[sub].deleted then Err(NotFound)
    else if !t.subscriptions[sub].enabled then Err(Disabled)
    else
      var r := PlaceAll(Progress(t, {}), sub, nodes);
      if r.Err? then Err(r.error)
      else Ok(Rebalanced(Deleted(r.value.tables, Mine(r.value.tables, sub) - r.value.seen)))
  }

  /** Deleting a subscription deletes its rows and leaves a marked row behind. */
  function SubscriptionDeleted(t: Tables, sub: int): Result<Tables, Failure> {
    if sub !in t.subscriptions || t.subscriptions[sub].deleted then Err(NotFound)
    else
      var u := Deleted(t, Mine(t, sub));
      Ok(Rebalanced(u.(subscriptions := u.subscriptions[sub := u.subscriptions[sub].(enabled := false, deleted := true)])))
  }

  // ---------- What placing nodes keeps ----------

  /** The row was written by one of the nodes. */
  ghost predicate Written(o: Outbound, nodes: seq<Node>, sub: int) {
    exists k :: 0 <= k < |nodes| && o == Filled(nodes[k], o.tag, sub)
  }

  /** How far a refresh of t has come. */
  ghost predicate Placed(t: Tables, p: Progress, sub: int, nodes: seq<Node>) {
    && p.tables.subscriptions == t.subscriptions && p.tables.rules == t.rules && p.tables.lastId >= t.lastId
    && (forall id :: id in t.outbounds ==> id in p.tables.outbounds && p.tables.outbounds[id].tag == t.outbounds[id].tag)
    && (forall id :: id in p.tables.outbounds && id !in p.seen ==> id in t.outbounds && p.tables.outbounds[id] == t.outbounds[id])
    && (forall id :: id in p.tables.outbounds && id !in t.outbounds ==> id > t.lastId)
    && (forall id :: id in p.seen ==>
          id in p.tables.outbounds && Written(p.tables.outbounds[id], nodes, sub) && (id in t.outbounds ==> Owned(t.outbounds[id], sub)))
  }

  lemma WrittenMore(o: Outbound, nodes: seq<Node>, sub: int, more: seq<Node>)
    requires Written(o, nodes, sub) && nodes <= more
    ensures Written(o, more, sub)
  {
    var k :| 0 <= k < |nodes| && o == Filled(nodes[k], o.tag, sub);
    assert o == Filled(more[k], o.tag, sub);
  }

  lemma WrittenIsOwned(o: Outbound, nodes: seq<Node>, sub: int)
    requires Written(o, nodes, sub)
    ensures Owned(o, sub)
  {
  }

  /** The target is a row of the subscription that keeps its tag, or a new one. */
  lemma TargetRow(t: Tables, sub: int, node: Node)
    requires Sound(t)
    ensures var id := Target(t, sub, node);
            if id in t.outbounds then Owned(t.outbounds[id], sub) && TagFor(t, sub, node) == t.outbounds[id].tag && 0 < id <= t.lastId
            else id == t.lastId + 1 && TagFor(t, sub, node) == Trim(node.tag)
  {
    hide Clean, DistinctPriorities, UniqueTags, RulesLive;
  }

  lemma FilledIsWritten(nodes: seq<Node>, node: Node, tag: string, sub: int)
    ensures Written(Filled(node, tag, sub), nodes + [node], sub) && Filled(node, tag, sub).tag == tag
  {
    var all := nodes + [node];
    assert all[|nodes|] == node;
    assert Filled(node, tag, sub) == Filled(all[|nodes|], Filled(node, tag, sub).tag, sub);
  }

  lemma PlaceKeepsPlaced(t: Tables, p: Progress, sub: int, nodes: seq<Node>, node: Node)
    requires Sound(t) && Sound(p.tables) && Placed(t, p, sub, nodes) && Place(p, sub, node).Ok?
    ensures Placed(t, Place(p, sub, node).value, sub, nodes + [node])
  {
    hide Sound, Filled, Target, TagFor, Owned, Written, TagTaken;
    var q := Place(p, sub, node).value;
    var all := nodes + [node];
    var id, tag := Target(p.tables, sub, node), TagFor(p.tables, sub, node);
    TargetRow(p.tables, sub, node);
    FilledIsWritten(nodes, node, tag, sub);
    forall seen | seen in q.seen
      ensures seen in q.tables.outbounds && Written(q.tables.outbounds[seen], all, sub) && (seen in t.outbounds ==> Owned(t.outbounds[seen], sub))
    {
      if seen != id {
        WrittenMore(p.tables.outbounds[seen], nodes, sub, all);
      }
    }
  }

  /** Placing keeps tags apart and everything else sound. */
  lemma PlaceKeepsSound(p: Progress, sub: int, node: Node)
    requires Sound(p.tables) && sub in p.tables.subscriptions && !p.tables.subscriptions[sub].deleted && Place(p, sub, node).Ok?
    ensures Sound(Place(p, sub, node).value.tables)
  {
    hide Filled, Target, TagFor;
    var t := p.tables;
    var id, tag := Target(t, sub, node), TagFor(t, sub, node);
    TargetRow(t, sub, node);
    FilledIsWritten([], node, tag, sub);
    FilledClean(t, sub, node, tag);
    var u := Put(t, id, Filled(node, tag, sub));
    TrimSettles(node.tag);
    assert Trim(tag) == tag;
    forall other | other in u.outbounds ensures CleanRow(u, u.outbounds[other]) {
      CleanRowSame(t, u, u.outbounds[other]);
    }
    hide CleanRow;
  }

  lemma CleanRowSame(t: Tables, u: Tables, o: Outbound)
    requires t.subscriptions == u.subscriptions
    ensures CleanRow(t, o) == CleanRow(u, o)
  {
  }

  lemma FilledClean(t: Tables, sub: int, node: Node, tag: string)
    requires sub in t.subscriptions && !t.subscriptions[sub].deleted
    ensures CleanRow(t, Filled(node, tag, sub))
  {
  }

  lemma {:induction false} PlaceAllKeeps(t: Tables, sub: int, nodes: seq<Node>)
    requires Sound(t) && sub in t.subscriptions && !t.subscriptions[sub].deleted
    requires PlaceAll(Progress(t, {}), sub, nodes).Ok?
    ensures var p := PlaceAll(Progress(t, {}), sub, nodes).value;
            Sound(p.tables) && Placed(t, p, sub, nodes) && |p.seen| <= |nodes|
    decreases |nodes|
  {
    hide Sound, Placed, Place;
    if nodes == [] {
      NothingPlaced(t, sub);
    } else {
      var init, last := nodes[..|nodes| - 1], nodes[|nodes| - 1];
      PlaceAllKeeps(t, sub, init);
      var p := PlaceAll(Progress(t, {}), sub, init).value;
      PlacedSame(t, p, sub, init);
      PlaceKeepsPlaced(t, p, sub, init, last);
      PlaceKeepsSound(p, sub, last);
      PlaceSeen(p, sub, last);
      assert init + [last] == nodes;
    }
  }

  lemma NothingPlaced(t: Tables, sub: int)
    ensures Placed(t, Progress(t, {}), sub, [])
  {
  }

  lemma PlacedSame(t: Tables, p: Progress, sub: int, nodes: seq<Node>)
    requires Placed(t, p, sub, nodes)
    ensures p.tables.subscriptions == t.subscriptions && p.tables.rules == t.rules
  {
  }

  lemma PlaceSeen(p: Progress, sub: int, node: Node)
    requires Place(p, sub, node).Ok?
    ensures |Place(p, sub, node).value.seen| <= |p.seen| + 1
  {
    hide Target, Filled, TagFor, TagTaken;
  }

  // ---------- What deleting keeps ----------

  lemma DeletedKeepsSound(t: Tables, ids: set<int>)
    requires Sound(t) && forall id :: id in ids ==> id in t.outbounds && FromSubscription(t.outbounds[id])
    ensures Sound(Deleted(t, ids))
    ensures var u := Deleted(t, ids);
            && (forall id :: id in u.outbounds <==> id in t.outbounds && id !in ids)
            && (forall r :: r in u.rules <==> r in t.rules && t.rules[r].outbound !in ids)
  {
    hide FromSubscription;
    var u := Deleted(t, ids);
    forall id | id in u.outbounds ensures CleanRow(u, u.outbounds[id]) {
      CleanRowSame(t, u, t.outbounds[id]);
    }
    hide CleanRow;
  }

  // ---------- A refresh as a whole ----------

  /** Rows of others keep everything but their sort. */
  ghost predicate OthersUntouched(t: Tables, u: Tables, sub: int) {
    forall id :: id in t.outbounds && !Owned(t.outbounds[id], sub) ==>
      id in u.outbounds && u.outbounds[id] == t.outbounds[id].(sort := u.outbounds[id].sort)
  }

  /** A row of the subscription was written by a node, and one that was there before keeps its tag. */
  ghost predicate OwnRowsWritten(t: Tables, u: Tables, sub: int, nodes: seq<Node>) {
    && (forall id :: id in u.outbounds && Owned(u.outbounds[id], sub) ==> WrittenExceptSort(u.outbounds[id], nodes, sub))
    && (forall id :: id in u.outbounds && id in t.outbounds ==> u.outbounds[id].tag == t.outbounds[id].tag)
    && (forall id :: id in u.outbounds && id !in t.outbounds ==> Owned(u.outbounds[id], sub) && id > t.lastId)
  }

  ghost predicate WrittenExceptSort(o: Outbound, nodes: seq<Node>, sub: int) {
    exists k :: 0 <= k < |nodes| && o == Filled(nodes[k], o.tag, sub).(sort := o.sort)
  }

  /** The rules that stay are those whose outbound stays. */
  ghost predicate RulesFollow(t: Tables, u: Tables) {
    && (forall r :: r in u.rules ==> r in t.rules && u.rules[r] == t.rules[r])
    && (forall r :: r in t.rules ==> (r in u.rules <==> t.rules[r].outbound in u.outbounds))
  }

  /** Rows of others stand in the same order as before. */
  ghost predicate OthersKeepOrder(t: Tables, u: Tables, sub: int) {
    forall a, b :: a in t.outbounds && b in t.outbounds && a in u.outbounds && b in u.outbounds
                   && !Owned(t.outbounds[a], sub) && !Owned(t.outbounds[b], sub)
      ==> (u.outbounds[a].sort < u.outbounds[b].sort <==> Before(t, a, b))
  }

  lemma StepBeforeRebalance(t: Tables, sub: int, nodes: seq<Node>, p: Progress, m: Tables)
    requires Sound(t) && Sound(p.tables) && Placed(t, p, sub, nodes)
    requires m == Deleted(p.tables, Mine(p.tables, sub) - p.seen)
    ensures Sound(m) && m.subscriptions == t.subscriptions
    ensures forall id :: id in t.outbounds && !Owned(t.outbounds[id], sub) ==> id in m.outbounds && m.outbounds[id] == t.outbounds[id]
    ensures Mine(m, sub) == p.seen
    ensures forall id :: id in m.outbounds && Owned(m.outbounds[id], sub) ==> Written(m.outbounds[id], nodes, sub)
    ensures forall id :: id in m.outbounds && id in t.outbounds ==> m.outbounds[id].tag == t.outbounds[id].tag
    ensures forall id :: id in m.outbounds && id !in t.outbounds ==> Owned(m.outbounds[id], sub) && id > t.lastId
    ensures RulesFollow(t, m)
  {
    hide Sound, Written;
    var stale := Mine(p.tables, sub) - p.seen;
    assert RulesLive(p.tables) by { SoundParts(p.tables); }
    DeletedKeepsSound(p.tables, stale);
    forall id | id in p.seen ensures Owned(p.tables.outbounds[id], sub) {
      WrittenIsOwned(p.tables.outbounds[id], nodes, sub);
    }
    forall id ensures id in Mine(m, sub) <==> id in p.seen {
      assert id in Mine(p.tables, sub) <==> id in p.tables.outbounds && Owned(p.tables.outbounds[id], sub);
    }
  }

  lemma WrittenAnySort(o: Outbound, nodes: seq<Node>, sub: int, sort: int)
    requires Written(o, nodes, sub)
    ensures WrittenExceptSort(o.(sort := sort), nodes, sub)
  {
    var k :| 0 <= k < |nodes| && o == Filled(nodes[k], o.tag, sub);
    assert o.(sort := sort) == Filled(nodes[k], o.tag, sub).(sort := sort);
  }

  /**
   A refresh that succeeds leaves the rows of others alone apart from their numbering, makes the rows
   of the subscription exactly those its nodes went to, keeps the tags of rows that stay, and drops
   exactly the rules whose outbound is gone.
   */
  lemma RefreshIsCorrect(t: Tables, sub: int, nodes: seq<Node>)
    requires Sound(t) && Refreshed(t, sub, nodes).Ok?
    ensures var u := Refreshed(t, sub, nodes).value;
            && Sound(u) && u.subscriptions == t.subscriptions && RulesFollow(t, u)
            && OthersUntouched(t, u, sub) && OthersKeepOrder(t, u, sub)
            && OwnRowsWritten(t, u, sub, nodes)
            && Mine(u, sub) == PlaceAll(Progress(t, {}), sub, nodes).value.seen && |Mine(u, sub)| <= |nodes|
  {
    hide Sound, Placed, Deleted, PlaceAll, Rank, Written, WrittenExceptSort, Owned, Before, Mine;
    var p := PlaceAll(Progress(t, {}), sub, nodes).value;
    PlaceAllKeeps(t, sub, nodes);
    var m := Deleted(p.tables, Mine(p.tables, sub) - p.seen);
    StepBeforeRebalance(t, sub, nodes, p, m);
    RebalanceKeepsSound(m);
    var u := Rebalanced(m);
    OwnedIgnoresSort(m, u, sub);
    forall id | id in u.outbounds && Owned(u.outbounds[id], sub) ensures WrittenExceptSort(u.outbounds[id], nodes, sub) {
      WrittenAnySort(m.outbounds[id], nodes, sub, u.outbounds[id].sort);
    }
    forall a, b | a in t.outbounds && b in t.outbounds && a in u.outbounds && b in u.outbounds && !Owned(t.outbounds[a], sub) && !Owned(t.outbounds[b], sub)
      ensures Rank(m, a) < Rank(m, b) <==> Before(t, a, b)
    {
      RankOrders(m, a, b);
      SameRowsSameOrder(t, m, a, b);
    }
  }

  lemma SameRowsSameOrder(t: Tables, m: Tables, a: int, b: int)
    requires a in t.outbounds && b in t.outbounds && a in m.outbounds && b in m.outbounds && m.subscriptions == t.subscriptions
    requires m.outbounds[a] == t.outbounds[a] && m.outbounds[b] == t.outbounds[b]
    ensures Before(m, a, b) <==> Before(t, a, b)
  {
  }

  lemma OwnedIgnoresSort(m: Tables, u: Tables, sub: int)
    requires u.outbounds.Keys == m.outbounds.Keys
    requires forall id :: id in m.outbounds ==> u.outbounds[id] == m.outbounds[id].(sort := u.outbounds[id].sort)
    ensures Mine(u, sub) == Mine(m, sub)
    ensures forall id :: id in m.outbounds ==> Owned(u.outbounds[id], sub) == Owned(m.outbounds[id], sub)
  {
    forall id ensures id in Mine(u, sub) <==> id in Mine(m, sub) {
      assert id in u.outbounds.Keys <==> id in m.outbounds.Keys;
    }
  }

  lemma MarkedKeepsRow(t: Tables, m: Tables, sub: int, o: Outbound)
    requires CleanRow(t, o) && !Owned(o, sub) && sub in t.subscriptions
    requires sub in m.subscriptions && m.subscriptions == t.subscriptions[sub := m.subscriptions[sub]]
    ensures CleanRow(m, o) && Group(m, o) == Group(t, o) && Within(m, o) == Within(t, o)
  {
  }

  lemma MarkedKeepsSound(t: Tables, v: Tables, m: Tables, sub: int)
    requires Sound(t) && Sound(v) && sub in t.subscriptions && v == Deleted(t, Mine(t, sub))
    requires m == v.(subscriptions := v.subscriptions[sub := v.subscriptions[sub].(enabled := false, deleted := true)])
    ensures Sound(m)
  {
    forall id | id in m.outbounds ensures CleanRow(m, m.outbounds[id]) {
      assert id in t.outbounds && !Owned(t.outbounds[id], sub);
      assert CleanRow(t, t.outbounds[id]);
      MarkedKeepsRow(t, m, sub, t.outbounds[id]);
    }
    hide CleanRow;
  }

  /** Deleting a subscription removes its rows and the rules on them, and leaves every other row in its place. */
  lemma DeletionIsCorrect(t: Tables, sub: int)
    requires Sound(t) && SubscriptionDeleted(t, sub).Ok?
    ensures var u := SubscriptionDeleted(t, sub).value;
            && Sound(u) && Mine(u, sub) == {} && RulesFollow(t, u)
            && OthersUntouched(t, u, sub) && OthersKeepOrder(t, u, sub)
            && (forall id :: id in u.outbounds ==> id in t.outbounds)
  {
    hide Sound, Rank, Owned, Before;
    assert RulesLive(t) by { SoundParts(t); }
    var v := Deleted(t, Mine(t, sub));
    forall id | id in Mine(t, sub) ensures FromSubscription(t.outbounds[id]) {
      OwnedIsFrom(t.outbounds[id], sub);
    }
    DeletedKeepsSound(t, Mine(t, sub));
    var m := v.(subscriptions := v.subscriptions[sub := v.subscriptions[sub].(enabled := false, deleted := true)]);
    MarkedKeepsSound(t, v, m, sub);
    RebalanceKeepsSound(m);
    var u := Rebalanced(m);
    OwnedIgnoresSort(m, u, sub);
    forall id ensures id !in Mine(m, sub) {
      assert id in Mine(t, sub) <==> id in t.outbounds && Owned(t.outbounds[id], sub);
    }
    forall a, b | a in t.outbounds && b in t.outbounds && a in u.outbounds && b in u.outbounds && !Owned(t.outbounds[a], sub) && !Owned(t.outbounds[b], sub)
      ensures Rank(m, a) < Rank(m, b) <==> Before(t, a, b)
    {
      RankOrders(m, a, b);
      MarkedSameOrder(t, m, sub, a, b);
    }
  }

  lemma OwnedIsFrom(o: Outbound, sub: int)
    requires Owned(o, sub)
    ensures FromSubscription(o)
  {
  }

  lemma MarkedSameOrder(t: Tables, m: Tables, sub: int, a: int, b: int)
    requires Sound(t) && sub in t.subscriptions && sub in m.subscriptions && m.subscriptions == t.subscriptions[sub := m.subscriptions[sub]]
    requires a in t.outbounds && b in t.outbounds && a in m.outbounds && b in m.outbounds
    requires m.outbounds[a] == t.outbounds[a] && m.outbounds[b] == t.outbounds[b] && !Owned(t.outbounds[a], sub) && !Owned(t.outbounds[b], sub)
    ensures Before(m, a, b) <==> Before(t, a, b)
  {
    assert CleanRow(t, t.outbounds[a]) && CleanRow(t, t.outbounds[b]);
    MarkedKeepsRow(t, m, sub, t.outbounds[a]);
    MarkedKeepsRow(t, m, sub, t.outbounds[b]);
    hide Group, Within, CleanRow, Owned;
  }
}
