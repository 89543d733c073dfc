/**
 Reordering by hand: which payloads are accepted and what order they leave.
 */
module OutboundReorder {
  import opened Outcome
  import opened Sets
  import opened OutboundOrder

  const REORDER_BASE := 100000

  predicate SeededProtocol(protocol: string) {
    protocol == "freedom" || protocol == "blackhole" || protocol == "dns"
  }

  /** The outbounds a user can move. */
  predicate CanMove(o: Outbound) {
    !SeededProtocol(o.protocol) && !FromSubscription(o)
  }

  function Editable(t: Tables): set<int> {
    set id | id in t.outbounds && CanMove(t.outbounds[id])
  }

  /** Neither a seeded protocol nor the row of a subscription. */
  lemma EditableIs(t: Tables, id: int)
    ensures id in Editable(t) <==> id in t.outbounds && t.outbounds[id].protocol !in {"freedom", "blackhole", "dns"} && t.outbounds[id].source != "subscription"
  {
  }

  function Live(t: Tables): set<int> {
    set id | id in t.subscriptions && !t.subscriptions[id].deleted
  }

  lemma LiveIs(t: Tables, id: int)
    ensures id in Live(t) <==> id in t.subscriptions && !t.subscriptions[id].deleted
  {
  }

  predicate AllIn(ids: seq<int>, s: set<int>) {
    forall i :: 0 <= i < |ids| ==> ids[i] in s
  }

  predicate NoRepeats(ids: seq<int>) {
    forall i, j :: 0 <= i < j < |ids| ==> ids[i] != ids[j]
  }

  function Members(ids: seq<int>): set<int> {
    set id | id in ids
  }

  /** Every id of the set exactly once and no other. */
  predicate Permutes(ids: seq<int>, s: set<int>) {
    NoRepeats(ids) && Members(ids) == s
  }

  lemma MembersIn(ids: seq<int>)
    ensures AllIn(ids, Members(ids))
    ensures forall id :: id in ids <==> id in Members(ids)
  {
  }

  // ---------- The pigeonhole behind the payload checks ----------

  lemma NoRepeatsCount(ids: seq<int>)
    requires NoRepeats(ids)
    ensures |Members(ids)| == |ids|
  {
    DistinctCount(ids);
  }

  lemma {:induction false} FewMembers(ids: seq<int>)
    ensures |Members(ids)| <= |ids|
    ensures |Members(ids)| == |ids| ==> NoRepeats(ids)
    decreases |ids|
  {
    if ids != [] {
      var init, last := ids[..|ids| - 1], ids[|ids| - 1];
      FewMembers(init);
      assert Members(ids) == Members(init) + {last};
      if last in Members(init) {
        assert Members(ids) == Members(init);
      } else {
        assert |Members(ids)| == |Members(init)| + 1;
        assert forall i, j :: 0 <= i < j < |ids| ==> ids[i] == init[i] && (j < |init| ==> ids[j] == init[j]);
      }
    }
  }

  /** A payload of the right length without repeats or strangers names every row. */
  lemma RightLengthNoStrangers(ids: seq<int>, s: set<int>)
    requires |ids| == |s| && NoRepeats(ids) && Members(ids) <= s
    ensures Permutes(ids, s)
  {
    NoRepeatsCount(ids);
    Subset(Members(ids), s);
  }

  /** A payload of the right length that names every row has no repeats and no strangers. */
  lemma RightLengthNoneMissing(ids: seq<int>, s: set<int>)
    requires |ids| == |s| && s <= Members(ids)
    ensures Permutes(ids, s)
  {
    Subset(s, Members(ids));
    FewMembers(ids);
  }

  lemma PermutesLength(ids: seq<int>, s: set<int>)
    requires Permutes(ids, s)
    ensures |ids| == |s|
  {
    NoRepeatsCount(ids);
  }

  // ---------- Outbounds ----------

  /** The i-th id gets sort base + i. */
  function Moved(rows: map<int, Outbound>, ids: seq<int>, base: int): (moved: map<int, Outbound>)
    requires AllIn(ids, rows.Keys)
    ensures moved.Keys == rows.Keys
    decreases |ids|
  {
    if ids == [] then rows
    else
      var n := |ids| - 1;
      var moved := Moved(rows, ids[..n], base);
      moved[ids[n] := moved[ids[n]].(sort := base + n)]
  }

  function Repositioned(t: Tables, ids: seq<int>): (u: Tables)
    requires AllIn(ids, t.outbounds.Keys)
    ensures u.outbounds.Keys == t.outbounds.Keys
  {
    t.(outbounds := Moved(t.outbounds, ids, REORDER_BASE))
  }

  lemma {:induction false} MovedAt(rows: map<int, Outbound>, ids: seq<int>, base: int, i: nat)
    requires NoRepeats(ids) && AllIn(ids, rows.Keys) && i < |ids|
    ensures Moved(rows, ids, base)[ids[i]] == rows[ids[i]].(sort := base + i)
    decreases |ids|
  {
    var n := |ids| - 1;
    if i < n {
      MovedAt(rows, ids[..n], base, i);
    } else {
      MovedElsewhere(rows, ids[..n], base, ids[n]);
    }
  }

  lemma {:induction false} MovedElsewhere(rows: map<int, Outbound>, ids: seq<int>, base: int, id: int)
    requires AllIn(ids, rows.Keys) && id in rows && forall i :: 0 <= i < |ids| ==> ids[i] != id
    ensures Moved(rows, ids, base)[id] == rows[id]
    decreases |ids|
  {
    if ids != [] {
      MovedElsewhere(rows, ids[..|ids| - 1], base, id);
    }
  }

  lemma MovedRows(rows: map<int, Outbound>, ids: seq<int>, base: int)
    requires NoRepeats(ids) && AllIn(ids, rows.Keys)
    ensures forall i :: 0 <= i < |ids| ==> Moved(rows, ids, base)[ids[i]] == rows[ids[i]].(sort := base + i)
    ensures forall id :: id in rows && id !in ids ==> Moved(rows, ids, base)[id] == rows[id]
  {
    hide Moved;
    forall i | 0 <= i < |ids| ensures Moved(rows, ids, base)[ids[i]] == rows[ids[i]].(sort := base + i) {
      MovedAt(rows, ids, base, i);
    }
    forall id | id in rows && id !in ids ensures Moved(rows, ids, base)[id] == rows[id] {
      MovedElsewhere(rows, ids, base, id);
    }
  }

  lemma RepositionedRows(t: Tables, ids: seq<int>)
    requires NoRepeats(ids) && AllIn(ids, t.outbounds.Keys)
    ensures var u := Repositioned(t, ids);
            && u == t.(outbounds := u.outbounds)
            && (forall i :: 0 <= i < |ids| ==> u.outbounds[ids[i]] == t.outbounds[ids[i]].(sort := REORDER_BASE + i))
            && (forall id :: id in t.outbounds && id !in ids ==> u.outbounds[id] == t.outbounds[id])
  {
    hide Moved;
    MovedRows(t.outbounds, ids, REORDER_BASE);
  }

  lemma RepositionedKeepsSound(t: Tables, ids: seq<int>)
    requires Sound(t) && NoRepeats(ids) && AllIn(ids, t.outbounds.Keys)
    ensures Sound(Repositioned(t, ids))
  {
    hide CleanRow, Repositioned;
    RepositionedRows(t, ids);
    var u := Repositioned(t, ids);
    forall id | id in t.outbounds ensures u.outbounds[id] == t.outbounds[id].(sort := u.outbounds[id].sort) && CleanRow(u, u.outbounds[id]) {
      if id in ids {
        var i :| 0 <= i < |ids| && ids[i] == id;
      }
      CleanRowIgnoresSort(t, u, t.outbounds[id], u.outbounds[id].sort);
    }
  }

  /** What accepting a payload makes of the tables. */
  function Reordered(t: Tables, ids: seq<int>): Tables
    requires AllIn(ids, t.outbounds.Keys)
  {
    Rebalanced(Repositioned(t, ids))
  }

  lemma MovableKey(t: Tables, id: int)
    requires Clean(t) && id in t.outbounds && CanMove(t.outbounds[id])
    ensures var sort := t.outbounds[id].sort; KeyOf(t, id) == Key(2, sort, sort, id)
  {
    assert CleanRow(t, t.outbounds[id]);
  }

  lemma KeyIgnoresOthers(t: Tables, u: Tables, id: int)
    requires id in t.outbounds && id in u.outbounds && t.outbounds[id] == u.outbounds[id] && t.subscriptions == u.subscriptions
    ensures KeyOf(t, id) == KeyOf(u, id)
  {
  }

  /**
   The editable outbounds end up in the order of the payload, the others keep their order among
   themselves, and nothing but sort values changes.
   */
  lemma ReorderObeys(t: Tables, ids: seq<int>)
    requires Sound(t) && Permutes(ids, Editable(t))
    ensures AllIn(ids, t.outbounds.Keys)
    ensures Sound(Reordered(t, ids))
    ensures var u := Reordered(t, ids);
            && u == t.(outbounds := u.outbounds) && u.outbounds.Keys == t.outbounds.Keys
            && (forall id :: id in t.outbounds ==> u.outbounds[id] == t.outbounds[id].(sort := u.outbounds[id].sort))
            && (forall i, j :: 0 <= i < j < |ids| ==> u.outbounds[ids[i]].sort < u.outbounds[ids[j]].sort)
            && (forall a, b :: a in t.outbounds && b in t.outbounds && !CanMove(t.outbounds[a]) && !CanMove(t.outbounds[b])
                  ==> (u.outbounds[a].sort < u.outbounds[b].sort <==> Before(t, a, b)))
  {
    hide Before, KeyOf, Rank, CanMove, Repositioned, Sound;
    MembersIn(ids);
    RepositionedRows(t, ids);
    RepositionedKeepsSound(t, ids);
    var m := Repositioned(t, ids);
    RebalanceKeepsSound(m);
    forall i, j | 0 <= i < j < |ids| ensures Rank(m, ids[i]) < Rank(m, ids[j]) {
      MovedBefore(t, m, ids, i, j);
      RankOrders(m, ids[i], ids[j]);
    }
    forall a, b | a in t.outbounds && b in t.outbounds && !CanMove(t.outbounds[a]) && !CanMove(t.outbounds[b])
      ensures Rank(m, a) < Rank(m, b) <==> Before(t, a, b)
    {
      StayedBefore(t, m, ids, a, b);
      RankOrders(m, a, b);
    }
    RepositionedOnlySorts(t, ids);
  }

  lemma RepositionedOnlySorts(t: Tables, ids: seq<int>)
    requires NoRepeats(ids) && AllIn(ids, t.outbounds.Keys)
    ensures var m := Repositioned(t, ids); forall id :: id in t.outbounds ==> m.outbounds[id] == t.outbounds[id].(sort := m.outbounds[id].sort)
  {
    hide Repositioned;
    RepositionedRows(t, ids);
    var m := Repositioned(t, ids);
    forall id | id in t.outbounds ensures m.outbounds[id] == t.outbounds[id].(sort := m.outbounds[id].sort) {
      if id in ids {
        var i :| 0 <= i < |ids| && ids[i] == id;
      }
    }
  }

  lemma MovedBefore(t: Tables, m: Tables, ids: seq<int>, i: nat, j: nat)
    requires i < j < |ids| && Sound(m) && Permutes(ids, Editable(t)) && m.outbounds.Keys == t.outbounds.Keys
    requires forall k :: 0 <= k < |ids| ==> ids[k] in t.outbounds && m.outbounds[ids[k]] == t.outbounds[ids[k]].(sort := REORDER_BASE + k)
    ensures Before(m, ids[i], ids[j])
  {
    MembersIn(ids);
    MovableKey(m, ids[i]);
    MovableKey(m, ids[j]);
    hide KeyOf;
  }

  lemma StayedBefore(t: Tables, m: Tables, ids: seq<int>, a: int, b: int)
    requires a in t.outbounds && b in t.outbounds && !CanMove(t.outbounds[a]) && !CanMove(t.outbounds[b])
    requires Permutes(ids, Editable(t)) && m.outbounds.Keys == t.outbounds.Keys && m.subscriptions == t.subscriptions
    requires forall id :: id in t.outbounds && id !in ids ==> m.outbounds[id] == t.outbounds[id]
    ensures Before(m, a, b) <==> Before(t, a, b)
  {
    MembersIn(ids);
    KeyIgnoresOthers(t, m, a);
    KeyIgnoresOthers(t, m, b);
    hide KeyOf;
  }

  // ---------- Subscriptions ----------

  /** The i-th subscription gets priority i. */
  function Ranked(rows: map<int, Subscription>, ids: seq<int>): (ranked: map<int, Subscription>)
    requires AllIn(ids, rows.Keys)
    ensures ranked.Keys == rows.Keys
    decreases |ids|
  {
    if ids == [] then rows
    else
      var n := |ids| - 1;
      var ranked := Ranked(rows, ids[..n]);
      ranked[ids[n] := ranked[ids[n]].(priority := n)]
  }

  function Prioritized(t: Tables, ids: seq<int>): (u: Tables)
    requires AllIn(ids, t.subscriptions.Keys)
    ensures u.subscriptions.Keys == t.subscriptions.Keys && u.outbounds == t.outbounds
  {
    t.(subscriptions := Ranked(t.subscriptions, ids))
  }

  lemma {:induction false} RankedAt(rows: map<int, Subscription>, ids: seq<int>, i: nat)
    requires NoRepeats(ids) && AllIn(ids, rows.Keys) && i < |ids|
    ensures Ranked(rows, ids)[ids[i]] == rows[ids[i]].(priority := i)
    decreases |ids|
  {
    var n := |ids| - 1;
    if i < n {
      RankedAt(rows, ids[..n], i);
    } else {
      RankedElsewhere(rows, ids[..n], ids[n]);
    }
  }

  lemma {:induction false} RankedElsewhere(rows: map<int, Subscription>, ids: seq<int>, id: int)
    requires AllIn(ids, rows.Keys) && id in rows && forall i :: 0 <= i < |ids| ==> ids[i] != id
    ensures Ranked(rows, ids)[id] == rows[id]
    decreases |ids|
  {
    if ids != [] {
      RankedElsewhere(rows, ids[..|ids| - 1], id);
    }
  }

  lemma RankedRows(rows: map<int, Subscription>, ids: seq<int>)
    requires NoRepeats(ids) && AllIn(ids, rows.Keys)
    ensures forall i :: 0 <= i < |ids| ==> Ranked(rows, ids)[ids[i]] == rows[ids[i]].(priority := i)
    ensures forall id :: id in rows && id !in ids ==> Ranked(rows, ids)[id] == rows[id]
  {
    hide Ranked;
    forall i | 0 <= i < |ids| ensures Ranked(rows, ids)[ids[i]] == rows[ids[i]].(priority := i) {
      RankedAt(rows, ids, i);
    }
    forall id | id in rows && id !in ids ensures Ranked(rows, ids)[id] == rows[id] {
      RankedElsewhere(rows, ids, id);
    }
  }

  lemma PrioritizedRows(t: Tables, ids: seq<int>)
    requires NoRepeats(ids) && AllIn(ids, t.subscriptions.Keys)
    ensures var u := Prioritized(t, ids);
            && u == t.(subscriptions := u.subscriptions)
            && (forall i :: 0 <= i < |ids| ==> u.subscriptions[ids[i]] == t.subscriptions[ids[i]].(priority := i))
            && (forall id :: id in t.subscriptions && id !in ids ==> u.subscriptions[id] == t.subscriptions[id])
  {
    hide Ranked;
    RankedRows(t.subscriptions, ids);
  }

  lemma PrioritizedKeepsSound(t: Tables, ids: seq<int>)
    requires Sound(t) && Permutes(ids, Live(t))
    ensures AllIn(ids, t.subscriptions.Keys)
    ensures Sound(Prioritized(t, ids))
  {
    hide Prioritized;
    MembersIn(ids);
    PrioritizedRows(t, ids);
    var u := Prioritized(t, ids);
    forall id | id in t.subscriptions
      ensures u.subscriptions[id] == t.subscriptions[id].(priority := u.subscriptions[id].priority)
      ensures !t.subscriptions[id].deleted ==> 0 <= u.subscriptions[id].priority < |ids| && ids[u.subscriptions[id].priority] == id
    {
      if id in ids {
        var i :| 0 <= i < |ids| && ids[i] == id;
      } else {
        assert id !in Members(ids);
      }
    }
    forall id | id in u.outbounds ensures CleanRow(u, u.outbounds[id]) {
      assert CleanRow(t, t.outbounds[id]);
    }
  }

  function SubscriptionsReordered(t: Tables, ids: seq<int>): Tables
    requires AllIn(ids, t.subscriptions.Keys)
  {
    Rebalanced(Prioritized(t, ids))
  }

  /** A row of the subscription that stands at place k in the payload. */
  predicate RowOf(t: Tables, o: Outbound, id: int) {
    FromSubscription(o) && BuiltIn(o) < 0 && o.subscription == Some(id)
  }

  lemma RowKey(t: Tables, id: int, owner: int)
    requires id in t.outbounds && RowOf(t, t.outbounds[id], owner) && owner in t.subscriptions
    ensures KeyOf(t, id) == Key(if t.subscriptions[owner].prepend then 1 else 3, t.subscriptions[owner].priority, t.outbounds[id].sort, id)
  {
  }

  /** Among prepended and among other subscriptions, outbounds follow the order of the payload; inside a subscription they stay. */
  lemma SubscriptionReorderObeys(t: Tables, ids: seq<int>, a: int, b: int, i: nat, j: nat)
    requires Sound(t) && Permutes(ids, Live(t)) && i < |ids| && j < |ids|
    requires a in t.outbounds && b in t.outbounds && RowOf(t, t.outbounds[a], ids[i]) && RowOf(t, t.outbounds[b], ids[j])
    ensures AllIn(ids, t.subscriptions.Keys)
    ensures Sound(SubscriptionsReordered(t, ids))
    ensures var u := SubscriptionsReordered(t, ids).outbounds;
            var first, second := t.subscriptions[ids[i]], t.subscriptions[ids[j]];
            && (first.prepend && !second.prepend ==> u[a].sort < u[b].sort)
            && (first.prepend == second.prepend && i < j ==> u[a].sort < u[b].sort)
            && (i == j ==> (u[a].sort < u[b].sort <==> Before(t, a, b)))
  {
    hide KeyOf, Rank, Prioritized, Sound;
    PrioritizedKeepsSound(t, ids);
    PrioritizedRows(t, ids);
    var m := Prioritized(t, ids);
    RebalanceKeepsSound(m);
    RowKey(m, a, ids[i]);
    RowKey(m, b, ids[j]);
    RowKey(t, a, ids[i]);
    RowKey(t, b, ids[j]);
    RankOrders(m, a, b);
  }
}
