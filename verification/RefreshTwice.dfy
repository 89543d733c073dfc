/**
 A first refresh gives every link its row, and refreshing again with the same links changes nothing.
 */
module RefreshTwice {
  import opened Outcome
  import opened OutboundOrder
  import opened OutboundReorder
  import opened Refresh
  import opened SubscriptionPlan
  import opened Text

  /** The listing the plan is made from shows the rows of the table. */
  ghost predicate Lists(existing: seq<Listed>, t: Tables) {
    && Sorted(existing)
    && (forall i :: 0 <= i < |existing| ==> existing[i].id in t.outbounds && existing[i].row == t.outbounds[existing[i].id])
    && (forall id :: id in t.outbounds ==> Shows(existing, id))
  }

  ghost predicate Shows(existing: seq<Listed>, id: int) {
    exists i :: 0 <= i < |existing| && existing[i].id == id
  }

  /** A link that parsed: share links never name a seeded protocol, and identities are not blank. */
  predicate Proper(link: Link) {
    link.valid && !SeededProtocol(link.protocol) && IdentityOf(link) != "" && Trim(IdentityOf(link)) == IdentityOf(link)
  }

  predicate ProperLinks(links: seq<Link>) {
    && (forall i :: 0 <= i < |links| ==> Proper(links[i]))
    && (forall i, j :: 0 <= i < j < |links| ==> IdentityOf(links[i]) != IdentityOf(links[j]))
  }

  /** The row that link i keeps under a tag. */
  function LinkRow(link: Link, i: nat, tag: string, sort: int, sub: int): Outbound {
    Outbound(tag, link.protocol, Trimmed(Shown(link.endpoint)), true, sort, SUBSCRIPTION_SOURCE, Some(sub), IdentityOf(link))
  }

  /** One row per link, numbered in link order. */
  ghost predicate Synced(u: Tables, sub: int, links: seq<Link>, ids: seq<int>) {
    && |ids| == |links| && NoRepeats(ids) && AllIn(ids, u.outbounds.Keys)
    && (forall id :: id in u.outbounds && Owned(u.outbounds[id], sub) ==> id in ids)
    && (forall i :: 0 <= i < |ids| ==>
          var o := u.outbounds[ids[i]]; o == LinkRow(links[i], i, o.tag, o.sort, sub) && o.tag != "")
    && (forall i, j :: 0 <= i < j < |ids| ==> u.outbounds[ids[i]].sort < u.outbounds[ids[j]].sort)
  }

  predicate Refreshable(t: Tables, sub: int) {
    sub in t.subscriptions && !t.subscriptions[sub].deleted && t.subscriptions[sub].enabled
  }

  // ---------- The first refresh ----------

  lemma {:induction false} NoOwnRows(existing: seq<Listed>, sub: int)
    requires forall i :: 0 <= i < |existing| ==> !Owned(existing[i].row, sub)
    ensures OwnRows(existing, sub) == [] && ByIdentity(existing, sub) == map[]
    decreases |existing|
  {
    hide Owned;
    if existing != [] {
      NoOwnRows(existing[..|existing| - 1], sub);
    }
  }

  /** Nodes that name no row, with identities and tags of their own. */
  ghost predicate FreshNodes(t: Tables, nodes: seq<Node>) {
    && (forall i :: 0 <= i < |nodes| ==>
          && nodes[i].id == 0 && nodes[i].valid && nodes[i].identity != "" && Trim(nodes[i].identity) == nodes[i].identity
          && nodes[i].tag != "" && Trim(nodes[i].tag) == nodes[i].tag && !TagTaken(t, nodes[i].tag, 0))
    && (forall i, j :: 0 <= i < j < |nodes| ==> nodes[i].identity != nodes[j].identity && nodes[i].tag != nodes[j].tag)
  }

  /** The planned node of a link without a row. */
  predicate PlannedFresh(node: Node, link: Link, i: nat) {
    node == Node(0, node.tag, link.protocol, Shown(link.endpoint), IdentityOf(link), i, link.valid)
  }

  lemma PlanFreshNode(links: seq<Link>, used: set<string>, i: nat)
    requires i < |links|
    ensures var nodes := PlanNodes(links, [], map[], used).0;
            && PlannedFresh(nodes[i], links[i], i) && nodes[i].tag !in used && nodes[i].tag != "" && Trim(nodes[i].tag) == nodes[i].tag
            && forall j :: 0 <= j < i ==> nodes[j].tag != nodes[i].tag
  {
    PlanAt(links, [], map[], used, i);
    FreshTagsApart(links, [], map[], used, i);
    hide PlanNodes, FreshTag, IdentityOf, Shown, Trim;
  }

  lemma UnusedIsUntaken(t: Tables, existing: seq<Listed>, tag: string)
    requires Lists(existing, t) && tag !in UsedTags(existing) && tag != "" && Trim(tag) == tag
    ensures !TagTaken(t, tag, 0)
  {
    hide Trim, Sorted, UsedTags;
    forall id | id in t.outbounds ensures t.outbounds[id].tag != tag {
      assert Shows(existing, id);
      var i :| 0 <= i < |existing| && existing[i].id == id;
      if Trim(existing[i].row.tag) != "" {
        UsedTagsHas(existing, i);
      }
    }
  }

  lemma PlanIsFresh(t: Tables, sub: int, links: seq<Link>, existing: seq<Listed>)
    requires Lists(existing, t) && Mine(t, sub) == {} && ProperLinks(links)
    ensures var nodes := Plan(sub, links, existing);
            |nodes| == |links| && FreshNodes(t, nodes) && forall i :: 0 <= i < |nodes| ==> PlannedFresh(nodes[i], links[i], i)
  {
    hide Trim, Sorted, UsedTags, IdentityOf, Shown, TagTaken, PlanNodes, Owned;
    forall i | 0 <= i < |existing| ensures !Owned(existing[i].row, sub) {
      assert existing[i].id in Mine(t, sub) <==> Owned(existing[i].row, sub);
    }
    NoOwnRows(existing, sub);
    var used := UsedTags(existing);
    var nodes := PlanNodes(links, [], map[], used).0;
    forall i | 0 <= i < |links|
      ensures PlannedFresh(nodes[i], links[i], i) && nodes[i].tag != "" && Trim(nodes[i].tag) == nodes[i].tag && !TagTaken(t, nodes[i].tag, 0)
      ensures forall j :: 0 <= j < i ==> nodes[j].tag != nodes[i].tag
    {
      PlanFreshNode(links, used, i);
      UnusedIsUntaken(t, existing, nodes[i].tag);
    }
  }

  /** After the first nodes: a new row for each of them. */
  ghost predicate Inserted(t: Tables, p: Progress, sub: int, nodes: seq<Node>) {
    && p.tables == t.(outbounds := p.tables.outbounds, lastId := t.lastId + |nodes|)
    && (forall id :: id in t.outbounds ==> id in p.tables.outbounds && p.tables.outbounds[id] == t.outbounds[id])
    && (forall k :: t.lastId < k <= t.lastId + |nodes| ==>
          k in p.tables.outbounds && p.tables.outbounds[k] == Filled(nodes[k - t.lastId - 1], nodes[k - t.lastId - 1].tag, sub))
    && (forall id :: id in p.tables.outbounds ==> id in t.outbounds || t.lastId < id <= t.lastId + |nodes|)
    && (forall id :: id in p.seen <==> t.lastId < id <= t.lastId + |nodes|)
  }

  lemma NotMine(t: Tables, sub: int, id: int)
    requires Mine(t, sub) == {} && id in t.outbounds
    ensures !Owned(t.outbounds[id], sub)
  {
    assert id !in Mine(t, sub);
  }

  lemma FreshHasNoMatch(t: Tables, p: Progress, sub: int, nodes: seq<Node>, node: Node)
    requires Inserted(t, p, sub, nodes) && Mine(t, sub) == {} && FreshNodes(t, nodes + [node])
    ensures Match(p.tables, sub, node) == None
  {
    hide Trim, TagTaken;
    var all := nodes + [node];
    assert all[|nodes|] == node;
    forall id | id in p.tables.outbounds
      ensures Owned(p.tables.outbounds[id], sub) ==> p.tables.outbounds[id].identity != node.identity
    {
      if id in t.outbounds {
        NotMine(t, sub, id);
      } else {
        var k := id - t.lastId - 1;
        assert all[k] == nodes[k];
      }
    }
    assert WithIdentity(p.tables, sub, node.identity) == {};
  }

  lemma FreshTagUntaken(t: Tables, p: Progress, sub: int, nodes: seq<Node>, node: Node)
    requires Sound(t) && Inserted(t, p, sub, nodes) && FreshNodes(t, nodes + [node])
    ensures !TagTaken(p.tables, node.tag, t.lastId + |nodes| + 1)
  {
    hide Trim, Clean, DistinctPriorities, UniqueTags, RulesLive, TrimmedTags;
    var all := nodes + [node];
    assert all[|nodes|] == node;
    forall id | id in p.tables.outbounds ensures p.tables.outbounds[id].tag != node.tag {
      if id in t.outbounds {
        UntakenTag(t, node.tag, id);
      } else {
        var k := id - t.lastId - 1;
        assert all[k] == nodes[k];
      }
    }
  }

  lemma UntakenTag(t: Tables, tag: string, id: int)
    requires IdsBelow(t) && !TagTaken(t, tag, 0) && id in t.outbounds
    ensures t.outbounds[id].tag != tag
  {
  }

  lemma InsertOne(t: Tables, p: Progress, sub: int, nodes: seq<Node>, node: Node)
    requires Sound(t) && Inserted(t, p, sub, nodes) && Mine(t, sub) == {} && FreshNodes(t, nodes + [node])
    ensures Place(p, sub, node).Ok? && Inserted(t, Place(p, sub, node).value, sub, nodes + [node])
  {
    FreshHasNoMatch(t, p, sub, nodes, node);
    FreshTagUntaken(t, p, sub, nodes, node);
    assert (nodes + [node])[|nodes|] == node;
    SoundParts(t);
    assert p.tables.lastId == t.lastId + |nodes|;
    assert node.valid && Trim(node.identity) != "" && Trim(node.tag) == node.tag;
    hide TagTaken, Match, Trim, Sound, Filled, Mine, Inserted, FreshNodes;
    InsertedOneMore(t, p, sub, nodes, node);
  }

  lemma InsertedOneMore(t: Tables, p: Progress, sub: int, nodes: seq<Node>, node: Node)
    requires IdsBelow(t) && Inserted(t, p, sub, nodes)
    ensures var id := t.lastId + |nodes| + 1;
            Inserted(t, Progress(Put(p.tables, id, Filled(node, node.tag, sub)), p.seen + {id}), sub, nodes + [node])
  {
    hide Filled;
    assert (nodes + [node])[|nodes|] == node;
    assert forall k :: 0 <= k < |nodes| ==> (nodes + [node])[k] == nodes[k];
  }

  lemma {:induction false} InsertAll(t: Tables, sub: int, nodes: seq<Node>)
    requires Sound(t) && Mine(t, sub) == {} && FreshNodes(t, nodes)
    ensures var r := PlaceAll(Progress(t, {}), sub, nodes); r.Ok? && Inserted(t, r.value, sub, nodes)
    decreases |nodes|
  {
    hide Sound, Inserted, Place, FreshNodes, Mine;
    if nodes == [] {
      InsertedNone(t, sub);
    } else {
      var init, last := nodes[..|nodes| - 1], nodes[|nodes| - 1];
      FreshPrefix(t, nodes, |nodes| - 1);
      InsertAll(t, sub, init);
      assert init + [last] == nodes;
      InsertOne(t, PlaceAll(Progress(t, {}), sub, init).value, sub, init, last);
    }
  }

  lemma InsertedNone(t: Tables, sub: int)
    ensures Inserted(t, Progress(t, {}), sub, [])
  {
    hide Filled;
  }

  lemma FreshPrefix(t: Tables, nodes: seq<Node>, n: nat)
    requires FreshNodes(t, nodes) && n <= |nodes|
    ensures FreshNodes(t, nodes[..n])
  {
    hide TagTaken, Trim;
  }

  lemma NothingStale(t: Tables)
    ensures Deleted(t, {}) == t
  {
    assert Deleted(t, {}).outbounds == t.outbounds;
    assert Deleted(t, {}).rules == t.rules;
  }

  function NewIds(t: Tables, n: nat): (ids: seq<int>)
    ensures |ids| == n && forall i :: 0 <= i < n ==> ids[i] == t.lastId + 1 + i
  {
    seq(n, i => t.lastId + 1 + i)
  }

  lemma InsertedOwned(t: Tables, p: Progress, sub: int, nodes: seq<Node>)
    requires Inserted(t, p, sub, nodes) && Mine(t, sub) == {} && IdsBelow(t)
    ensures Mine(p.tables, sub) == p.seen
  {
    forall id ensures id in Mine(p.tables, sub) <==> id in p.seen {
      assert id in t.outbounds ==> (id in Mine(t, sub) <==> Owned(t.outbounds[id], sub));
    }
  }

  lemma FilledLinkRow(node: Node, link: Link, i: nat, sub: int, sort: int)
    requires PlannedFresh(node, link, i) && Proper(link)
    ensures Filled(node, node.tag, sub).(sort := sort) == LinkRow(link, i, node.tag, sort, sub)
    ensures RowOf(Tables(map[], map[], map[], 0), Filled(node, node.tag, sub), sub)
    ensures Filled(node, node.tag, sub).sort == FRESH_BASE + i
  {
  }

  /** The rows of the links before they are numbered. */
  ghost predicate LinkRows(m: Tables, sub: int, links: seq<Link>, nodes: seq<Node>, ids: seq<int>) {
    && |ids| == |links| == |nodes| && ProperLinks(links)
    && (forall k :: 0 <= k < |ids| ==>
          && ids[k] in m.outbounds && PlannedFresh(nodes[k], links[k], k) && nodes[k].tag != ""
          && m.outbounds[ids[k]] == Filled(nodes[k], nodes[k].tag, sub))
  }

  /** The new rows follow the order of the links. */
  lemma InsertedOrder(m: Tables, sub: int, links: seq<Link>, nodes: seq<Node>, ids: seq<int>, i: nat, j: nat)
    requires LinkRows(m, sub, links, nodes, ids) && i < j < |ids| && sub in m.subscriptions
    ensures Rank(m, ids[i]) < Rank(m, ids[j])
  {
    hide Rank, KeyOf, Filled, PlannedFresh, Proper;
    FilledLinkRow(nodes[i], links[i], i, sub, 0);
    FilledLinkRow(nodes[j], links[j], j, sub, 0);
    RowKey(m, ids[i], sub);
    RowKey(m, ids[j], sub);
    RankOrders(m, ids[i], ids[j]);
  }

  lemma LinkRowNumbered(m: Tables, sub: int, links: seq<Link>, nodes: seq<Node>, ids: seq<int>, i: nat)
    requires LinkRows(m, sub, links, nodes, ids) && i < |ids|
    ensures ids[i] in Rebalanced(m).outbounds
    ensures var o := Rebalanced(m).outbounds[ids[i]]; o == LinkRow(links[i], i, o.tag, o.sort, sub) && o.tag != ""
  {
    hide Rank, Filled, PlannedFresh, Proper, LinkRow;
    FilledIsWritten([], nodes[i], nodes[i].tag, sub);
    FilledLinkRow(nodes[i], links[i], i, sub, Rank(m, ids[i]));
  }

  lemma LinkRowsSynced(m: Tables, sub: int, links: seq<Link>, nodes: seq<Node>, ids: seq<int>)
    requires LinkRows(m, sub, links, nodes, ids) && NoRepeats(ids) && sub in m.subscriptions
    requires forall id :: id in m.outbounds && Owned(m.outbounds[id], sub) ==> id in ids
    ensures Synced(Rebalanced(m), sub, links, ids)
  {
    hide Rank, Owned, LinkRow, LinkRows;
    var u := Rebalanced(m);
    OwnedIgnoresSort(m, u, sub);
    LinkRowsLength(m, sub, links, nodes, ids);
    forall i | 0 <= i < |ids|
      ensures ids[i] in u.outbounds.Keys && var o := u.outbounds[ids[i]]; o == LinkRow(links[i], i, o.tag, o.sort, sub) && o.tag != ""
    {
      LinkRowNumbered(m, sub, links, nodes, ids, i);
    }
    forall i, j | 0 <= i < j < |ids| ensures u.outbounds[ids[i]].sort < u.outbounds[ids[j]].sort {
      InsertedOrder(m, sub, links, nodes, ids, i, j);
    }
  }

  lemma LinkRowsLength(m: Tables, sub: int, links: seq<Link>, nodes: seq<Node>, ids: seq<int>)
    requires LinkRows(m, sub, links, nodes, ids)
    ensures |ids| == |links| && AllIn(ids, m.outbounds.Keys)
  {
  }

  lemma InsertedRows(t: Tables, p: Progress, sub: int, links: seq<Link>, nodes: seq<Node>)
    requires IdsBelow(t) && Mine(t, sub) == {} && Inserted(t, p, sub, nodes)
    requires ProperLinks(links) && |nodes| == |links|
    requires forall k :: 0 <= k < |nodes| ==> PlannedFresh(nodes[k], links[k], k) && nodes[k].tag != ""
    ensures var ids := NewIds(t, |links|);
            LinkRows(p.tables, sub, links, nodes, ids) && NoRepeats(ids)
            && forall id :: id in p.tables.outbounds && Owned(p.tables.outbounds[id], sub) ==> id in ids
  {
    InsertedOwned(t, p, sub, nodes);
    hide Filled, Owned, PlannedFresh, Proper, ProperLinks;
    var ids := NewIds(t, |links|);
    forall id | id in p.tables.outbounds && Owned(p.tables.outbounds[id], sub) ensures id in ids {
      assert id in Mine(p.tables, sub);
      assert ids[id - t.lastId - 1] == id;
    }
    forall k | 0 <= k < |ids| ensures ids[k] in p.tables.outbounds && p.tables.outbounds[ids[k]] == Filled(nodes[k], nodes[k].tag, sub) {
      assert ids[k] - t.lastId - 1 == k;
    }
  }

  /**
   A subscription without rows gets on its first refresh one row per link, in the order of the links,
   each carrying the identity and the endpoint of its link.
   */
  lemma FirstRefresh(t: Tables, sub: int, links: seq<Link>, existing: seq<Listed>)
    requires Sound(t) && Mine(t, sub) == {} && Refreshable(t, sub) && ProperLinks(links) && Lists(existing, t)
    ensures var r := Refreshed(t, sub, Plan(sub, links, existing));
            r.Ok? && Synced(r.value, sub, links, NewIds(t, |links|)) && Sound(r.value) && Rebalanced(r.value) == r.value
  {
    hide Plan, FreshNodes, PlaceAll, Rank, Inserted, Synced, ProperLinks, Lists, Deleted, LinkRows, Sound;
    var nodes := Plan(sub, links, existing);
    PlanIsFresh(t, sub, links, existing);
    InsertAll(t, sub, nodes);
    var p := PlaceAll(Progress(t, {}), sub, nodes).value;
    SoundParts(t);
    InsertedOwned(t, p, sub, nodes);
    FreshTagsKnown(t, nodes);
    InsertedRows(t, p, sub, links, nodes);
    InsertedFrame(t, p, sub, nodes);
    LinkRowsSynced(p.tables, sub, links, nodes, NewIds(t, |links|));
    assert Mine(p.tables, sub) - p.seen == {};
    NoneLeftOver(t, sub, nodes);
    PlaceAllKeeps(t, sub, nodes);
    RebalanceKeepsSound(p.tables);
    SoundParts(p.tables);
    CleanIsUnmixed(p.tables);
    RebalanceIsIdempotent(p.tables);
  }

  lemma InsertedFrame(t: Tables, p: Progress, sub: int, nodes: seq<Node>)
    requires Inserted(t, p, sub, nodes)
    ensures p.tables.subscriptions == t.subscriptions
  {
  }

  lemma FreshTagsKnown(t: Tables, nodes: seq<Node>)
    requires FreshNodes(t, nodes)
    ensures forall i :: 0 <= i < |nodes| ==> nodes[i].tag != ""
  {
  }

  // ---------- The second refresh ----------

  lemma {:induction false} ByIdentityFinds(existing: seq<Listed>, sub: int, k: nat)
    requires k < |existing| && Owned(existing[k].row, sub) && Trim(existing[k].row.identity) != ""
    requires forall j :: 0 <= j < |existing| && Owned(existing[j].row, sub) && existing[j].row.identity == existing[k].row.identity ==> j == k
    ensures existing[k].row.identity in ByIdentity(existing, sub)
    ensures ByIdentity(existing, sub)[existing[k].row.identity] == existing[k]
    decreases |existing|
  {
    hide Owned, Trim;
    if k < |existing| - 1 {
      ByIdentityFinds(existing[..|existing| - 1], sub, k);
    }
  }

  /** The node that a link plans for the row it already has. */
  function KeptNode(u: Tables, link: Link, i: nat, id: int): Node
    requires id in u.outbounds
  {
    Node(id, u.outbounds[id].tag, link.protocol, Shown(link.endpoint), IdentityOf(link), i, link.valid)
  }

  lemma SyncedRow(u: Tables, sub: int, links: seq<Link>, ids: seq<int>, i: nat)
    requires Synced(u, sub, links, ids) && ProperLinks(links) && i < |links|
    ensures |ids| == |links| && ids[i] in u.outbounds
    ensures var o := u.outbounds[ids[i]]; Owned(o, sub) && o.identity == IdentityOf(links[i]) && Trim(o.identity) != "" && o.tag != ""
    ensures var o := u.outbounds[ids[i]]; o == LinkRow(links[i], i, o.tag, o.sort, sub)
  {
    assert Proper(links[i]);
    hide IdentityOf, Trim;
  }

  /** A row of the subscription with the identity of link i is row i. */
  lemma SyncedIdentity(u: Tables, sub: int, links: seq<Link>, ids: seq<int>, i: nat, id: int)
    requires Synced(u, sub, links, ids) && ProperLinks(links) && i < |links| && id in u.outbounds
    requires Owned(u.outbounds[id], sub) && u.outbounds[id].identity == IdentityOf(links[i])
    ensures id == ids[i]
  {
    hide IdentityOf, Proper, Owned;
    var j :| 0 <= j < |ids| && ids[j] == id;
    SyncedRow(u, sub, links, ids, j);
  }

  lemma ListedApart(existing: seq<Listed>, j: nat, k: nat)
    requires Sorted(existing) && j < |existing| && k < |existing|
    ensures j != k ==> existing[j] != existing[k]
  {
    if j < k {
      assert InOrder(existing[j], existing[k]);
    } else if k < j {
      assert InOrder(existing[k], existing[j]);
    }
  }

  lemma SyncedSuggests(u: Tables, sub: int, links: seq<Link>, ids: seq<int>, existing: seq<Listed>, i: nat)
    requires Synced(u, sub, links, ids) && ProperLinks(links) && Lists(existing, u) && i < |links|
    ensures |ids| == |links| && ids[i] in u.outbounds
    ensures Suggested(links[i], i, OwnRows(existing, sub), ByIdentity(existing, sub)) == Some(Listed(ids[i], u.outbounds[ids[i]]))
  {
    SyncedRow(u, sub, links, ids, i);
    assert Shows(existing, ids[i]);
    var k :| 0 <= k < |existing| && existing[k].id == ids[i];
    forall j | 0 <= j < |existing| && Owned(existing[j].row, sub) && existing[j].row.identity == existing[k].row.identity ensures j == k {
      SyncedIdentity(u, sub, links, ids, i, existing[j].id);
      ListedApart(existing, j, k);
    }
    hide Synced, ProperLinks, Owned, IdentityOf, LinkRow, Trim, Sorted, Shows, InOrder;
    ByIdentityFinds(existing, sub, k);
  }

  lemma PlanKeeps(u: Tables, sub: int, links: seq<Link>, ids: seq<int>, existing: seq<Listed>, i: nat)
    requires Sound(u) && Synced(u, sub, links, ids) && ProperLinks(links) && Lists(existing, u) && i < |links|
    ensures |ids| == |links| && ids[i] in u.outbounds
    ensures Plan(sub, links, existing)[i] == KeptNode(u, links[i], i, ids[i])
  {
    SoundParts(u);
    SyncedRow(u, sub, links, ids, i);
    SyncedSuggests(u, sub, links, ids, existing, i);
    var own, byIdentity, used := OwnRows(existing, sub), ByIdentity(existing, sub), UsedTags(existing);
    PlanAt(links, own, byIdentity, used, i);
    assert Trim(u.outbounds[ids[i]].tag) == u.outbounds[ids[i]].tag;
    hide Synced, ProperLinks, Lists, Suggested, PlanNodes, FreshTag, IdentityOf, Shown, Trim, Sound, LinkRow, Owned;
  }

  /** Placing a kept node only moves its row. */
  lemma PlaceKept(u: Tables, sub: int, links: seq<Link>, ids: seq<int>, n: nat)
    requires Sound(u) && Synced(u, sub, links, ids) && ProperLinks(links) && n < |links| && |ids| == |links| && ids[n] in u.outbounds
    requires AllIn(ids[..n], u.outbounds.Keys)
    ensures var p := Progress(u.(outbounds := Moved(u.outbounds, ids[..n], FRESH_BASE)), Members(ids[..n]));
            var o := u.outbounds[ids[n]];
            Place(p, sub, KeptNode(u, links[n], n, ids[n])) == Ok(Progress(Put(p.tables, ids[n], o.(sort := FRESH_BASE + n)), p.seen + {ids[n]}))
  {
    var o := u.outbounds[ids[n]];
    var rows := Moved(u.outbounds, ids[..n], FRESH_BASE);
    var t := u.(outbounds := rows);
    var node := KeptNode(u, links[n], n, ids[n]);
    MovedElsewhere(u.outbounds, ids[..n], FRESH_BASE, ids[n]);
    MovedKeepsTags(u.outbounds, ids[..n], FRESH_BASE);
    SyncedRow(u, sub, links, ids, n);
    SoundParts(u);
    KeptMatches(u, t, sub, links, ids, n);
    KeptFills(u, sub, links, ids, n);
    KeptTagFree(u, rows, ids[n]);
    hide *;
    PlaceAt(Progress(t, Members(ids[..n])), sub, node, ids[n]);
  }

  lemma PlaceAt(p: Progress, sub: int, node: Node, id: int)
    requires Match(p.tables, sub, node) == Some(id) && id in p.tables.outbounds && node.valid && Trim(node.identity) != ""
    requires var tag := p.tables.outbounds[id].tag; Trim(tag) == tag && !TagTaken(p.tables, tag, id)
    ensures Place(p, sub, node) == Ok(Progress(Put(p.tables, id, Filled(node, p.tables.outbounds[id].tag, sub)), p.seen + {id}))
  {
    hide Match, TagTaken, Filled, Put, Trim;
  }

  /** The kept node is well-formed and writes its row as it is, except for the sort. */
  lemma KeptFills(u: Tables, sub: int, links: seq<Link>, ids: seq<int>, n: nat)
    requires Sound(u) && Synced(u, sub, links, ids) && ProperLinks(links) && n < |links| && |ids| == |links| && ids[n] in u.outbounds
    ensures var o, node := u.outbounds[ids[n]], KeptNode(u, links[n], n, ids[n]);
            && node.valid && Trim(node.identity) != "" && Trim(o.tag) == o.tag && node.tag == o.tag
            && Filled(node, o.tag, sub) == o.(sort := FRESH_BASE + n)
  {
    SyncedRow(u, sub, links, ids, n);
    SoundParts(u);
    assert Proper(links[n]);
    hide Synced, ProperLinks, Sound;
  }

  lemma KeptTagFree(u: Tables, rows: map<int, Outbound>, id: int)
    requires UniqueTags(u) && id in u.outbounds && rows.Keys == u.outbounds.Keys
    requires forall other :: other in rows ==> rows[other].tag == u.outbounds[other].tag
    ensures !TagTaken(u.(outbounds := rows), u.outbounds[id].tag, id)
  {
  }

  /** A kept node names its own row, wherever that row stands. */
  lemma KeptMatches(u: Tables, t: Tables, sub: int, links: seq<Link>, ids: seq<int>, n: nat)
    requires Synced(u, sub, links, ids) && ProperLinks(links) && n < |links| && |ids| == |links| && ids[n] in u.outbounds
    requires ids[n] > 0 && ids[n] in t.outbounds && t.outbounds[ids[n]] == u.outbounds[ids[n]]
    ensures Match(t, sub, KeptNode(u, links[n], n, ids[n])) == Some(ids[n])
  {
    SyncedRow(u, sub, links, ids, n);
    assert Proper(links[n]);
  }

  lemma {:induction false} MovedKeepsTags(rows: map<int, Outbound>, ids: seq<int>, base: int)
    requires AllIn(ids, rows.Keys)
    ensures forall id :: id in rows ==> id in Moved(rows, ids, base) && Moved(rows, ids, base)[id] == rows[id].(sort := Moved(rows, ids, base)[id].sort)
    decreases |ids|
  {
    if ids != [] {
      MovedKeepsTags(rows, ids[..|ids| - 1], base);
    }
  }

  lemma {:induction false} PlaceAgain(u: Tables, sub: int, links: seq<Link>, ids: seq<int>, nodes: seq<Node>, n: nat)
    requires Sound(u) && Synced(u, sub, links, ids) && ProperLinks(links) && n <= |links| == |nodes|
    requires |ids| == |links| && AllIn(ids, u.outbounds.Keys) && forall i :: 0 <= i < |links| ==> nodes[i] == KeptNode(u, links[i], i, ids[i])
    ensures AllIn(ids[..n], u.outbounds.Keys)
    ensures PlaceAll(Progress(u, {}), sub, nodes[..n]) == Ok(Progress(u.(outbounds := Moved(u.outbounds, ids[..n], FRESH_BASE)), Members(ids[..n])))
    decreases n
  {
    hide Sound, Synced, ProperLinks, KeptNode, Place, Proper;
    if n > 0 {
      PlaceAgain(u, sub, links, ids, nodes, n - 1);
      assert nodes[..n][..n - 1] == nodes[..n - 1] && ids[..n][..n - 1] == ids[..n - 1];
      PlaceKept(u, sub, links, ids, n - 1);
      KeptBelow(u, ids[n - 1]);
      assert Members(ids[..n]) == Members(ids[..n - 1]) + {ids[n - 1]};
      MovedElsewhereSynced(u, sub, links, ids, n - 1);
    } else {
      assert Members(ids[..0]) == {};
    }
  }

  lemma KeptBelow(u: Tables, id: int)
    requires Sound(u) && id in u.outbounds
    ensures 0 < id <= u.lastId
  {
  }

  lemma MovedElsewhereSynced(u: Tables, sub: int, links: seq<Link>, ids: seq<int>, n: nat)
    requires Synced(u, sub, links, ids) && n < |ids| && AllIn(ids[..n], u.outbounds.Keys)
    ensures ids[n] in u.outbounds && Moved(u.outbounds, ids[..n], FRESH_BASE)[ids[n]] == u.outbounds[ids[n]]
  {
    MovedElsewhere(u.outbounds, ids[..n], FRESH_BASE, ids[n]);
  }

  /** No row of another owner shares the place of a subscription's rows. */
  lemma OthersElsewhere(u: Tables, sub: int, id: int)
    requires Sound(u) && Refreshable(u, sub) && id in u.outbounds && !Owned(u.outbounds[id], sub)
    ensures var k := KeyOf(u, id); !(k.group == (if u.subscriptions[sub].prepend then 1 else 3) && k.within == u.subscriptions[sub].priority)
  {
    var o := u.outbounds[id];
    assert CleanRow(u, o);
    assert FromSubscription(o) ==> o.subscription.value != sub;
  }

  lemma SyncedKey(u: Tables, sub: int, links: seq<Link>, ids: seq<int>, i: nat)
    requires Synced(u, sub, links, ids) && ProperLinks(links) && i < |links| && Refreshable(u, sub)
    ensures |ids| == |links| && ids[i] in u.outbounds
    ensures RowOf(u, u.outbounds[ids[i]], sub)
    ensures var o := u.outbounds[ids[i]];
            KeyOf(u, ids[i]) == Key(if u.subscriptions[sub].prepend then 1 else 3, u.subscriptions[sub].priority, o.sort, ids[i])
  {
    SyncedRow(u, sub, links, ids, i);
    assert Proper(links[i]);
    hide Synced, IdentityOf, Shown;
    RowKey(u, ids[i], sub);
  }

  lemma SyncedSorts(u: Tables, sub: int, links: seq<Link>, ids: seq<int>, i: nat, j: nat)
    requires Synced(u, sub, links, ids) && i < |ids| && j < |ids|
    ensures i < j <==> u.outbounds[ids[i]].sort < u.outbounds[ids[j]].sort
    ensures i == j <==> u.outbounds[ids[i]].sort == u.outbounds[ids[j]].sort
  {
    if j < i {
      assert u.outbounds[ids[j]].sort < u.outbounds[ids[i]].sort;
    }
  }

  /** Moving the subscription's rows, in their order, to one stretch of sort values keeps the order of all rows. */
  lemma MoveKeepsOrder(u: Tables, sub: int, links: seq<Link>, ids: seq<int>, m: Tables, a: int, b: int)
    requires Sound(u) && Refreshable(u, sub) && Synced(u, sub, links, ids) && ProperLinks(links)
    requires m == u.(outbounds := m.outbounds) && m.outbounds.Keys == u.outbounds.Keys && |ids| == |links|
    requires forall i :: 0 <= i < |ids| ==> ids[i] in u.outbounds && m.outbounds[ids[i]] == u.outbounds[ids[i]].(sort := FRESH_BASE + i)
    requires forall id :: id in u.outbounds && id !in ids ==> m.outbounds[id] == u.outbounds[id]
    requires a in u.outbounds && b in u.outbounds && Before(u, a, b)
    ensures Before(m, a, b)
  {
    MovedKey(u, sub, links, ids, m, a);
    MovedKey(u, sub, links, ids, m, b);
    if a in ids && b in ids {
      var i :| 0 <= i < |ids| && ids[i] == a;
      var j :| 0 <= j < |ids| && ids[j] == b;
      SyncedKey(u, sub, links, ids, i);
      SyncedKey(u, sub, links, ids, j);
      SyncedSorts(u, sub, links, ids, i, j);
    }
    hide KeyOf, Synced, Sound;
  }

  lemma MovedKey(u: Tables, sub: int, links: seq<Link>, ids: seq<int>, m: Tables, id: int)
    requires Sound(u) && Refreshable(u, sub) && Synced(u, sub, links, ids) && ProperLinks(links)
    requires m == u.(outbounds := m.outbounds) && m.outbounds.Keys == u.outbounds.Keys && |ids| == |links|
    requires forall i :: 0 <= i < |ids| ==> ids[i] in u.outbounds && m.outbounds[ids[i]] == u.outbounds[ids[i]].(sort := FRESH_BASE + i)
    requires forall id :: id in u.outbounds && id !in ids ==> m.outbounds[id] == u.outbounds[id]
    requires id in u.outbounds
    ensures KeyOf(m, id) == KeyOf(u, id).(sort := m.outbounds[id].sort)
    ensures id !in ids ==> KeyOf(m, id) == KeyOf(u, id)
    ensures var k := KeyOf(u, id);
            (k.group == (if u.subscriptions[sub].prepend then 1 else 3) && k.within == u.subscriptions[sub].priority) <==> id in ids
  {
    if id in ids {
      var i :| 0 <= i < |ids| && ids[i] == id;
      SyncedKey(u, sub, links, ids, i);
      RowKey(m, id, sub);
    } else {
      KeyIgnoresOthers(u, m, id);
      NotInIds(u, sub, links, ids, id);
      OthersElsewhere(u, sub, id);
    }
    hide KeyOf, Synced, Sound;
  }

  lemma NotInIds(u: Tables, sub: int, links: seq<Link>, ids: seq<int>, id: int)
    requires Synced(u, sub, links, ids) && id in u.outbounds && id !in ids
    ensures !Owned(u.outbounds[id], sub)
  {
  }

  lemma MoveThenRebalance(u: Tables, sub: int, links: seq<Link>, ids: seq<int>)
    requires Sound(u) && Refreshable(u, sub) && Synced(u, sub, links, ids) && ProperLinks(links)
    requires Rebalanced(u) == u && |ids| == |links| && NoRepeats(ids) && AllIn(ids, u.outbounds.Keys)
    ensures Rebalanced(u.(outbounds := Moved(u.outbounds, ids, FRESH_BASE))) == u
  {
    hide Sound, Synced, ProperLinks, Before, Rank, Moved;
    var m := u.(outbounds := Moved(u.outbounds, ids, FRESH_BASE));
    MovedRows(u.outbounds, ids, FRESH_BASE);
    MovedKeepsTags(u.outbounds, ids, FRESH_BASE);
    forall a, b | a in u.outbounds && b in u.outbounds && Before(u, a, b) ensures Before(m, a, b) {
      MoveKeepsOrder(u, sub, links, ids, m, a, b);
    }
    forall id | id in u.outbounds ensures Rebalanced(m).outbounds[id] == u.outbounds[id] {
      SameOrderSameRank(u, m, id);
      assert u.outbounds[id] == Rebalanced(u).outbounds[id];
    }
    assert Rebalanced(m).outbounds == u.outbounds;
  }

  lemma PlanPlaces(u: Tables, sub: int, links: seq<Link>, ids: seq<int>, existing: seq<Listed>)
    requires Sound(u) && ProperLinks(links) && Synced(u, sub, links, ids) && Lists(existing, u) && AllIn(ids, u.outbounds.Keys)
    ensures PlaceAll(Progress(u, {}), sub, Plan(sub, links, existing)) == Ok(Progress(u.(outbounds := Moved(u.outbounds, ids, FRESH_BASE)), Members(ids)))
  {
    hide Moved, Synced, ProperLinks, Lists, Sound, PlaceAll, Members, KeptNode;
    SyncedShape(u, sub, links, ids);
    PlanLength(sub, links, existing);
    var nodes := Plan(sub, links, existing);
    forall i | 0 <= i < |links| ensures nodes[i] == KeptNode(u, links[i], i, ids[i]) {
      PlanKeeps(u, sub, links, ids, existing, i);
    }
    hide Plan;
    PlaceAgain(u, sub, links, ids, nodes, |links|);
    assert nodes[..|links|] == nodes && ids[..|links|] == ids;
  }

  /** Once every link has its row, refreshing with the same links leaves all tables as they are. */
  lemma SecondRefresh(u: Tables, sub: int, links: seq<Link>, ids: seq<int>, existing: seq<Listed>)
    requires Sound(u) && Rebalanced(u) == u && Refreshable(u, sub) && ProperLinks(links)
    requires Synced(u, sub, links, ids) && Lists(existing, u)
    ensures Refreshed(u, sub, Plan(sub, links, existing)) == Ok(u)
  {
    hide Sound, Synced, ProperLinks, Lists, Rebalanced, Moved, Plan, PlaceAll, Refreshed, Mine, Members;
    SyncedShape(u, sub, links, ids);
    PlanPlaces(u, sub, links, ids, existing);
    MovedOwned(u, u.(outbounds := Moved(u.outbounds, ids, FRESH_BASE)), sub, links, ids);
    MoveThenRebalance(u, sub, links, ids);
    NoneLeftOver(u, sub, Plan(sub, links, existing));
  }

  /** When every row of the subscription was claimed, only the order is left to work out. */
  lemma NoneLeftOver(t: Tables, sub: int, nodes: seq<Node>)
    requires Refreshable(t, sub) && PlaceAll(Progress(t, {}), sub, nodes).Ok?
    requires var p := PlaceAll(Progress(t, {}), sub, nodes).value; Mine(p.tables, sub) - p.seen == {}
    ensures Refreshed(t, sub, nodes) == Ok(Rebalanced(PlaceAll(Progress(t, {}), sub, nodes).value.tables))
  {
    hide PlaceAll, Rebalanced, Deleted;
    NothingStale(PlaceAll(Progress(t, {}), sub, nodes).value.tables);
  }

  lemma PlanLength(sub: int, links: seq<Link>, existing: seq<Listed>)
    ensures |Plan(sub, links, existing)| == |links|
  {
  }

  lemma SyncedShape(u: Tables, sub: int, links: seq<Link>, ids: seq<int>)
    requires Synced(u, sub, links, ids)
    ensures |ids| == |links| && NoRepeats(ids) && AllIn(ids, u.outbounds.Keys)
  {
  }

  lemma MovedOwned(u: Tables, m: Tables, sub: int, links: seq<Link>, ids: seq<int>)
    requires Synced(u, sub, links, ids) && AllIn(ids, u.outbounds.Keys) && m == u.(outbounds := Moved(u.outbounds, ids, FRESH_BASE))
    ensures Mine(m, sub) - Members(ids) == {}
  {
    MovedKeepsTags(u.outbounds, ids, FRESH_BASE);
    hide Moved;
    OwnedIgnoresSort(u, m, sub);
    forall id | id in Mine(m, sub) ensures id in Members(ids) {
      assert id in Mine(u, sub);
      assert id in ids;
    }
  }

  /** Refreshing a new subscription twice is refreshing it once: no id, tag, sort or rule changes the second time. */
  lemma RefreshTwiceIsOnce(t: Tables, sub: int, links: seq<Link>, before: seq<Listed>, after: seq<Listed>)
    requires Sound(t) && Mine(t, sub) == {} && Refreshable(t, sub) && ProperLinks(links) && Lists(before, t)
    requires Refreshed(t, sub, Plan(sub, links, before)).Ok? ==> Lists(after, Refreshed(t, sub, Plan(sub, links, before)).value)
    ensures var r := Refreshed(t, sub, Plan(sub, links, before));
            r.Ok? && Refreshed(r.value, sub, Plan(sub, links, after)) == r
  {
    hide Sound, Mine, ProperLinks, Lists, Plan, Synced, Rebalanced;
    FirstRefresh(t, sub, links, before);
    var u := Refreshed(t, sub, Plan(sub, links, before)).value;
    RefreshIsCorrect(t, sub, Plan(sub, links, before));
    SecondRefresh(u, sub, links, NewIds(t, |links|), after);
  }
}
