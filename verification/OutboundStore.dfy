/**
 The transactions over outbounds, each working on the tables row by row.

 A transaction works on its own copy and installs it at the end, so an error leaves the tables alone.
 */
module OutboundStore {
  import opened Outcome
  import opened OutboundOrder
  import opened OutboundReorder
  import opened Refresh
  import opened Text

  /** Writes the position of every row in key order into its sort column. */
  method RebalanceSorts(t: Tables) returns (u: Tables)
    ensures u == Rebalanced(t)
  {
    hide *;
    var ids := Listing(t, t.outbounds.Keys);
    ListingDistinct(t, ids);
    NumberNone(t, ids);
    var rows := t.outbounds;
    for i := 0 to |ids|
      invariant Numbered(t.outbounds, ids, rows, i)
    {
      NumberOne(t.outbounds, ids, rows, i);
      rows := rows[ids[i] := rows[ids[i]].(sort := i)];
    }
    u := t.(outbounds := rows);
    RanksWritten(t, ids, rows);
  }

  /** The first n listed rows have their place as sort, and the others are as they were. */
  ghost predicate Numbered(before: map<int, Outbound>, ids: seq<int>, rows: map<int, Outbound>, n: nat) {
    && rows.Keys == before.Keys && n <= |ids| && (forall j :: 0 <= j < |ids| ==> ids[j] in before)
    && (forall j :: 0 <= j < n ==> rows[ids[j]] == before[ids[j]].(sort := j))
    && (forall j :: n <= j < |ids| ==> rows[ids[j]] == before[ids[j]])
  }

  lemma NumberOne(before: map<int, Outbound>, ids: seq<int>, rows: map<int, Outbound>, n: nat)
    requires Numbered(before, ids, rows, n) && n < |ids| && forall i, j :: 0 <= i < j < |ids| ==> ids[i] != ids[j]
    ensures ids[n] in rows && Numbered(before, ids, rows[ids[n] := rows[ids[n]].(sort := n)], n + 1)
  {
  }

  lemma NumberNone(t: Tables, ids: seq<int>)
    requires ids == Listing(t, t.outbounds.Keys)
    ensures Numbered(t.outbounds, ids, t.outbounds, 0)
  {
    hide Listing, Before;
    forall j | 0 <= j < |ids| ensures ids[j] in t.outbounds {
      assert ids[j] in ids;
      assert ids[j] in t.outbounds.Keys;
    }
  }

  lemma RanksWritten(t: Tables, ids: seq<int>, rows: map<int, Outbound>)
    requires ids == Listing(t, t.outbounds.Keys) && Numbered(t.outbounds, ids, rows, |ids|)
    ensures t.(outbounds := rows) == Rebalanced(t)
  {
    assert rows.Keys == t.outbounds.Keys;
    hide *;
    forall id | id in t.outbounds ensures rows[id] == t.outbounds[id].(sort := Rank(t, id)) {
      assert id in t.outbounds.Keys;
      RankWritten(t, ids, rows, id);
    }
    RanksAgree(t, rows);
  }

  lemma RanksAgree(t: Tables, rows: map<int, Outbound>)
    requires rows.Keys == t.outbounds.Keys && forall id :: id in t.outbounds ==> rows[id] == t.outbounds[id].(sort := Rank(t, id))
    ensures t.(outbounds := rows) == Rebalanced(t)
  {
    hide Rank;
    assert rows == Rebalanced(t).outbounds;
  }

  lemma RankWritten(t: Tables, ids: seq<int>, rows: map<int, Outbound>, id: int)
    requires ids == Listing(t, t.outbounds.Keys) && Numbered(t.outbounds, ids, rows, |ids|) && id in t.outbounds
    ensures rows[id] == t.outbounds[id].(sort := Rank(t, id))
  {
    hide Listing, Rank, Before;
    assert id in t.outbounds.Keys;
    var i :| 0 <= i < |ids| && ids[i] == id;
    ListingRank(t, ids, i);
  }

  lemma ListingDistinct(t: Tables, ids: seq<int>)
    requires ids == Listing(t, t.outbounds.Keys)
    ensures forall i, j :: 0 <= i < j < |ids| ==> ids[i] != ids[j]
  {
    hide Listing, Before;
    forall i, j | 0 <= i < j < |ids| ensures ids[i] != ids[j] {
      ListingApart(t, ids, i, j);
    }
  }

  lemma ListingApart(t: Tables, ids: seq<int>, i: nat, j: nat)
    requires ids == Listing(t, t.outbounds.Keys) && i < |ids| && j < |ids| && i != j
    ensures ids[i] != ids[j]
  {
    hide Before, Listing;
    assert Before(t, ids[if i < j then i else j], ids[if i < j then j else i]);
    BeforeIsTotal(t, ids[i], ids[i]);
  }

  class Store {
    var tables: Tables

    constructor (t: Tables)
      ensures tables == t
    {
      tables := t;
    }

    /** A payload is accepted exactly if it names every editable outbound once. */
    method ReorderOutbounds(ids: seq<int>) returns (ok: bool)
      modifies this
      ensures ok <==> Permutes(ids, Editable(old(tables)))
      ensures if ok then AllIn(ids, old(tables).outbounds.Keys) && tables == Reordered(old(tables), ids) else tables == old(tables)
    {
      hide Rebalanced, NoRepeats, Members, Permutes;
      var t := tables;
      var editable := Editable(t);
      if Permutes(ids, editable) {
        PermutesLength(ids, editable);
      }
      if |ids| != |editable| {
        return false;
      }
      var seen: set<int> := {};
      NoneYet(ids);
      for i := 0 to |ids|
        invariant tables == t && seen == Members(ids[..i]) && seen <= editable && NoRepeats(ids[..i])
      {
        if ids[i] !in editable || ids[i] in seen {
          StrangerOrRepeat(ids, editable, i);
          return false;
        }
        OneMore(ids, i);
        seen := seen + {ids[i]};
      }
      assert ids[..|ids|] == ids;
      RightLengthNoStrangers(ids, editable);
      EditableNames(t, ids);
      var rows := t.outbounds;
      assert ids[..0] == [];
      for i := 0 to |ids|
        invariant tables == t
        invariant rows == Moved(t.outbounds, ids[..i], REORDER_BASE)
      {
        assert ids[..i + 1][..i] == ids[..i];
        MovedOne(t.outbounds, ids, i);
        rows := rows[ids[i] := rows[ids[i]].(sort := REORDER_BASE + i)];
      }
      tables := RebalanceSorts(t.(outbounds := rows));
      ok := true;
    }

    /** A payload is accepted exactly if it names every live subscription once. */
    method ReorderOutboundSubscriptions(ids: seq<int>) returns (ok: bool)
      modifies this
      ensures ok <==> Permutes(ids, Live(old(tables)))
      ensures if ok then AllIn(ids, old(tables).subscriptions.Keys) && tables == SubscriptionsReordered(old(tables), ids) else tables == old(tables)
    {
      hide Rebalanced, NoRepeats;
      var t := tables;
      var existing := Live(t);
      if Permutes(ids, existing) {
        PermutesLength(ids, existing);
      }
      if |ids| != |existing| {
        return false;
      }
      var seen: set<int> := {};
      for i := 0 to |ids|
        invariant tables == t && seen == Members(ids[..i])
      {
        assert ids[..i + 1] == ids[..i] + [ids[i]];
        seen := seen + {ids[i]};
      }
      assert ids[..|ids|] == ids;
      if !(existing <= seen) {
        return false;
      }
      RightLengthNoneMissing(ids, existing);
      var rows := t.subscriptions;
      LiveNames(t, ids);
      assert ids[..0] == [];
      for i := 0 to |ids|
        invariant tables == t
        invariant rows == Ranked(t.subscriptions, ids[..i])
      {
        assert ids[..i + 1][..i] == ids[..i];
        RankedOne(t.subscriptions, ids, i);
        rows := rows[ids[i] := rows[ids[i]].(priority := i)];
      }
      tables := RebalanceSorts(t.(subscriptions := rows));
      ok := true;
    }

    method MaterializeSubscriptionOutbounds(sub: int, nodes: seq<Node>) returns (failed: Option<Failure>)
      modifies this
      ensures failed == if Refreshed(old(tables), sub, nodes).Ok? then None else Some(Refreshed(old(tables), sub, nodes).error)
      ensures tables == if failed.None? then Refreshed(old(tables), sub, nodes).value else old(tables)
    {
      hide Filled, Match, TagTaken, Rebalanced, Trim;
      if sub !in tables.subscriptions || tables.subscriptions[sub].deleted {
        return Some(NotFound);
      }
      if !tables.subscriptions[sub].enabled {
        return Some(Disabled);
      }
      var before := tables;
      var t := before;
      var seen: set<int> := {};
      for i := 0 to |nodes|
        invariant tables == before
        invariant PlaceAll(Progress(before, {}), sub, nodes[..i]) == Ok(Progress(t, seen))
      {
        assert nodes[..i + 1][..i] == nodes[..i];
        var node := nodes[i];
        if !node.valid || Trim(node.identity) == "" {
          PlaceAllFails(Progress(before, {}), sub, nodes, i + 1);
          return Some(BadNode);
        }
        var existing := Match(t, sub, node);
        var id := t.lastId + 1;
        var tag := Trim(node.tag);
        if existing.Some? {
          id := existing.value;
          tag := Trim(t.outbounds[id].tag);
        }
        if TagTaken(t, tag, id) {
          PlaceAllFails(Progress(before, {}), sub, nodes, i + 1);
          return Some(TagConflict);
        }
        t := t.(outbounds := t.outbounds[id := Filled(node, tag, sub)], lastId := if id > t.lastId then id else t.lastId);
        seen := seen + {id};
      }
      assert nodes[..|nodes|] == nodes;
      var stale := Mine(t, sub) - seen;
      tables := RebalanceSorts(Deleted(t, stale));
      failed := None;
    }

    method DeleteOutboundSubscription(sub: int) returns (ok: bool)
      modifies this
      ensures ok <==> SubscriptionDeleted(old(tables), sub).Ok?
      ensures tables == if ok then SubscriptionDeleted(old(tables), sub).value else old(tables)
    {
      hide Rebalanced;
      if sub !in tables.subscriptions {
        return false;
      }
      var t := Deleted(tables, Mine(tables, sub));
      if t.subscriptions[sub].deleted {
        return false;
      }
      t := t.(subscriptions := t.subscriptions[sub := t.subscriptions[sub].(enabled := false, deleted := true)]);
      tables := RebalanceSorts(t);
      ok := true;
    }
  }

  lemma StrangerOrRepeat(ids: seq<int>, s: set<int>, i: nat)
    requires i < |ids| && (ids[i] !in s || ids[i] in Members(ids[..i]))
    ensures !Permutes(ids, s)
  {
    MembersIn(ids);
    if ids[i] in Members(ids[..i]) {
      var j :| 0 <= j < i && ids[..i][j] == ids[i];
    }
  }

  lemma NoneYet(ids: seq<int>)
    ensures Members(ids[..0]) == {} && NoRepeats(ids[..0])
  {
  }

  lemma OneMore(ids: seq<int>, i: nat)
    requires i < |ids| && NoRepeats(ids[..i]) && ids[i] !in Members(ids[..i])
    ensures NoRepeats(ids[..i + 1]) && Members(ids[..i + 1]) == Members(ids[..i]) + {ids[i]}
  {
    assert ids[..i + 1] == ids[..i] + [ids[i]];
  }

  lemma EditableNames(t: Tables, ids: seq<int>)
    requires Permutes(ids, Editable(t))
    ensures AllIn(ids, t.outbounds.Keys)
  {
    MembersIn(ids);
  }

  lemma LiveNames(t: Tables, ids: seq<int>)
    requires Permutes(ids, Live(t))
    ensures AllIn(ids, t.subscriptions.Keys)
  {
    MembersIn(ids);
    forall i | 0 <= i < |ids| ensures ids[i] in t.subscriptions {
      assert ids[i] in Live(t);
    }
  }

  lemma MovedOne(rows: map<int, Outbound>, ids: seq<int>, i: nat)
    requires AllIn(ids, rows.Keys) && i < |ids|
    ensures AllIn(ids[..i], rows.Keys) && AllIn(ids[..i + 1], rows.Keys)
    ensures var moved := Moved(rows, ids[..i], REORDER_BASE);
            ids[i] in moved && Moved(rows, ids[..i + 1], REORDER_BASE) == moved[ids[i] := moved[ids[i]].(sort := REORDER_BASE + i)]
  {
    assert ids[..i + 1][..i] == ids[..i];
    assert ids[i] in Moved(rows, ids[..i], REORDER_BASE).Keys;
  }

  lemma RankedOne(rows: map<int, Subscription>, ids: seq<int>, i: nat)
    requires AllIn(ids, rows.Keys) && i < |ids|
    ensures AllIn(ids[..i], rows.Keys) && AllIn(ids[..i + 1], rows.Keys)
    ensures var ranked := Ranked(rows, ids[..i]);
            ids[i] in ranked && Ranked(rows, ids[..i + 1]) == ranked[ids[i] := ranked[ids[i]].(priority := i)]
  {
    assert ids[..i + 1][..i] == ids[..i];
    assert ids[i] in Ranked(rows, ids[..i]).Keys;
  }

  /** A refused node refuses the refresh, whatever comes after it. */
  lemma {:induction false} PlaceAllFails(p: Progress, sub: int, nodes: seq<Node>, n: nat)
    requires n <= |nodes| && PlaceAll(p, sub, nodes[..n]).Err?
    ensures PlaceAll(p, sub, nodes) == PlaceAll(p, sub, nodes[..n])
    decreases |nodes|
  {
    hide Place;
    if n == |nodes| {
      assert nodes[..n] == nodes;
    } else {
      assert nodes[..|nodes| - 1][..n] == nodes[..n];
      PlaceAllFails(p, sub, nodes[..|nodes| - 1], n);
    }
  }
}
