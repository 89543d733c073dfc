/**
 Where every outbound stands: the order in which the panel lists outbounds and the cores try them.

 Each table is a map from row id to row. The order is a sort number per row, which is worked out
 again from a four-part key whenever a transaction may have disturbed it.
 */
module OutboundOrder {
  import opened Outcome
  import opened Sets
  import Text

  const SUBSCRIPTION_SOURCE := "subscription"

  /** The parts of a row that no ordering looks at. */
  datatype Endpoint = Endpoint(remark: string, address: string, port: int, username: string, password: string, rawLink: string, settings: string)

  datatype Outbound = Outbound(tag: string, protocol: string, endpoint: Endpoint, enabled: bool, sort: int,
                               source: string, subscription: Option<int>, identity: string)

  /** A deleted subscription keeps its row. */
  datatype Subscription = Subscription(enabled: bool, prepend: bool, priority: int, deleted: bool)

  /** A routing rule and the outbound it sends connections to. */
  datatype Rule = Rule(outbound: int, matcher: string)

  /** `lastId` is the largest outbound id handed out so far. */
  datatype Tables = Tables(outbounds: map<int, Outbound>, subscriptions: map<int, Subscription>, rules: map<int, Rule>, lastId: int)

  // ---------- The key ----------

  /** The position of a seeded outbound, or -1. */
  function BuiltIn(o: Outbound): int {
    if o.tag == "direct" && o.protocol == "freedom" then 0
    else if o.tag == "blocked" && o.protocol == "blackhole" then 1
    else if o.tag == "dns" && o.protocol == "dns" then 2
    else -1
  }

  predicate Joined(t: Tables, o: Outbound) {
    o.subscription.Some? && o.subscription.value in t.subscriptions
  }

  predicate FromSubscription(o: Outbound) {
    o.source == SUBSCRIPTION_SOURCE
  }

  /** Seeded outbounds, then prepended subscriptions, then the panel's own outbounds, then the other subscriptions. */
  function Group(t: Tables, o: Outbound): int {
    if BuiltIn(o) >= 0 then 0
    else if FromSubscription(o) && Joined(t, o) && t.subscriptions[o.subscription.value].prepend then 1
    else if !FromSubscription(o) then 2
    else 3
  }

  function Within(t: Tables, o: Outbound): int {
    if BuiltIn(o) >= 0 then BuiltIn(o)
    else if Joined(t, o) then t.subscriptions[o.subscription.value].priority
    else o.sort
  }

  datatype Key = Key(group: int, within: int, sort: int, id: int)

  function KeyOf(t: Tables, id: int): Key
    requires id in t.outbounds
  {
    var o := t.outbounds[id];
    Key(Group(t, o), Within(t, o), o.sort, id)
  }

  predicate Less(a: Key, b: Key) {
    a.group < b.group || (a.group == b.group && (
    a.within < b.within || (a.within == b.within && (
    a.sort < b.sort || (a.sort == b.sort && a.id < b.id)))))
  }

  predicate Before(t: Tables, a: int, b: int)
    requires a in t.outbounds && b in t.outbounds
  {
    Less(KeyOf(t, a), KeyOf(t, b))
  }

  /** How many outbounds come before this one. */
  function Rank(t: Tables, id: int): nat
    requires id in t.outbounds
  {
    |Predecessors(t, id)|
  }

  function Predecessors(t: Tables, id: int): set<int>
    requires id in t.outbounds
  {
    set other | other in t.outbounds && Before(t, other, id)
  }

  /** Every outbound gets the number of those before it; nothing else changes. */
  function Rebalanced(t: Tables): Tables {
    t.(outbounds := map id | id in t.outbounds :: t.outbounds[id].(sort := Rank(t, id)))
  }

  // ---------- Listing by key ----------

  lemma BeforeIsTotal(t: Tables, a: int, b: int)
    requires a in t.outbounds && b in t.outbounds
    ensures !Before(t, a, a)
    ensures a == b || Before(t, a, b) || Before(t, b, a)
    ensures !(Before(t, a, b) && Before(t, b, a))
  {
  }

  lemma BeforeIsTransitive(t: Tables, a: int, b: int, c: int)
    requires a in t.outbounds && b in t.outbounds && c in t.outbounds
    requires Before(t, a, b) && Before(t, b, c)
    ensures Before(t, a, c)
  {
    hide Group, Within;
  }

  predicate IsFirst(t: Tables, ids: set<int>, id: int)
    requires ids <= t.outbounds.Keys
  {
    id in ids && forall other :: other in ids && other != id ==> Before(t, id, other)
  }

  lemma {:induction false} FirstExists(t: Tables, ids: set<int>)
    requires ids <= t.outbounds.Keys
    ensures ids != {} ==> exists id :: IsFirst(t, ids, id)
    decreases |ids|
  {
    hide Before;
    if ids != {} {
      var one := Member(ids);
      var rest := ids - {one};
      FirstExists(t, rest);
      if rest == {} {
        assert ids == {one};
        assert IsFirst(t, ids, one);
      } else {
        FirstOfTwo(t, rest, one);
        assert ids == rest + {one};
      }
    }
  }

  lemma FirstOfTwo(t: Tables, rest: set<int>, one: int)
    requires rest <= t.outbounds.Keys && one in t.outbounds && one !in rest
    requires exists id :: IsFirst(t, rest, id)
    ensures exists id :: IsFirst(t, rest + {one}, id)
  {
    hide Before;
    var first :| IsFirst(t, rest, first);
    BeforeIsTotal(t, one, first);
    if Before(t, first, one) {
      assert IsFirst(t, rest + {one}, first);
    } else {
      forall other | other in rest ensures Before(t, one, other) {
        if other != first {
          BeforeIsTransitive(t, one, first, other);
        }
      }
      assert IsFirst(t, rest + {one}, one);
    }
  }

  lemma FirstIsUnique(t: Tables, ids: set<int>, a: int, b: int)
    requires ids <= t.outbounds.Keys && IsFirst(t, ids, a) && IsFirst(t, ids, b)
    ensures a == b
  {
    hide Before;
    BeforeIsTotal(t, a, b);
  }

  function First(t: Tables, ids: set<int>): (id: int)
    requires ids <= t.outbounds.Keys && ids != {}
    ensures IsFirst(t, ids, id)
  {
    FirstExists(t, ids);
    assert forall a, b :: IsFirst(t, ids, a) && IsFirst(t, ids, b) ==> a == b by {
      forall a, b | IsFirst(t, ids, a) && IsFirst(t, ids, b) ensures a == b {
        FirstIsUnique(t, ids, a, b);
      }
    }
    var id :| IsFirst(t, ids, id);
    id
  }

  /** The ids of the given rows in key order: the answer of the ORDER BY query. */
  function Listing(t: Tables, ids: set<int>): (l: seq<int>)
    requires ids <= t.outbounds.Keys
    ensures |l| == |ids|
    ensures forall id :: id in l <==> id in ids
    ensures forall i, j :: 0 <= i < j < |l| ==> Before(t, l[i], l[j])
    decreases |ids|
  {
    hide Before;
    if ids == {} then []
    else
      var id := First(t, ids);
      [id] + Listing(t, ids - {id})
  }

  lemma {:induction false} DistinctCount(ids: seq<int>)
    requires forall i, j :: 0 <= i < j < |ids| ==> ids[i] != ids[j]
    ensures |set id | id in ids| == |ids|
    decreases |ids|
  {
    if ids != [] {
      var init := ids[..|ids| - 1];
      DistinctCount(init);
      assert (set id | id in ids) == (set id | id in init) + {ids[|ids| - 1]};
    }
  }

  /** A row's place in the listing is its rank. */
  lemma ListingRank(t: Tables, l: seq<int>, i: nat)
    requires l == Listing(t, t.outbounds.Keys) && i < |l|
    ensures Rank(t, l[i]) == i
  {
    hide Before, Listing;
    forall j, k | 0 <= j < k < |l| ensures l[j] != l[k] {
      assert Before(t, l[j], l[k]);
      BeforeIsTotal(t, l[j], l[k]);
    }
    forall j | 0 <= j < |l| ensures Before(t, l[j], l[i]) <==> j < i {
      BeforeIsTotal(t, l[i], l[j]);
    }
    forall other | other in t.outbounds ensures Before(t, other, l[i]) <==> other in l[..i] {
      var j :| 0 <= j < |l| && l[j] == other;
      assert j < i ==> l[..i][j] == other;
    }
    assert Predecessors(t, l[i]) == set id | id in l[..i];
    DistinctCount(l[..i]);
  }

  // ---------- What rebalancing yields ----------

  lemma RankOrders(t: Tables, a: int, b: int)
    requires a in t.outbounds && b in t.outbounds
    ensures Before(t, a, b) <==> Rank(t, a) < Rank(t, b)
    ensures a != b ==> Rank(t, a) != Rank(t, b)
  {
    if a != b {
      BeforeIsTotal(t, a, b);
      if Before(t, a, b) {
        RankGrows(t, a, b);
      } else {
        RankGrows(t, b, a);
      }
    } else {
      BeforeIsTotal(t, a, a);
    }
    hide Before, Rank;
  }

  lemma RankGrows(t: Tables, a: int, b: int)
    requires a in t.outbounds && b in t.outbounds && Before(t, a, b)
    ensures Rank(t, a) < Rank(t, b)
  {
    hide Before;
    forall other | other in Predecessors(t, a) ensures other in Predecessors(t, b) {
      BeforeIsTransitive(t, other, a, b);
    }
    BeforeIsTotal(t, a, a);
    assert a in Predecessors(t, b) - Predecessors(t, a);
    Subset(Predecessors(t, a) + {a}, Predecessors(t, b));
  }

  ghost predicate Takes(u: map<int, Outbound>, k: int) {
    exists id :: id in u && u[id].sort == k
  }

  /** The sort values are 0 up to the number of rows, each once, in the order of the keys. */
  lemma SortsArePermutation(t: Tables)
    ensures var u := Rebalanced(t).outbounds;
            && (forall id :: id in u ==> 0 <= u[id].sort < |u|)
            && (forall k :: 0 <= k < |u| ==> Takes(u, k))
            && (forall a, b :: a in u && b in u && a != b ==> u[a].sort != u[b].sort)
            && (forall a, b :: a in u && b in u ==> (u[a].sort < u[b].sort <==> Before(t, a, b)))
  {
    hide Before, Rank, Listing;
    var u := Rebalanced(t).outbounds;
    var l := Listing(t, t.outbounds.Keys);
    assert u.Keys == t.outbounds.Keys;
    assert |u| == |u.Keys| == |l|;
    forall a, b | a in u && b in u
      ensures (u[a].sort < u[b].sort <==> Before(t, a, b)) && (a != b ==> u[a].sort != u[b].sort)
    {
      RankOrders(t, a, b);
    }
    forall id | id in u ensures 0 <= u[id].sort < |u| {
      var i :| 0 <= i < |l| && l[i] == id;
      ListingRank(t, l, i);
    }
    forall k | 0 <= k < |u| ensures Takes(u, k) {
      ListingRank(t, l, k);
      assert l[k] in t.outbounds.Keys;
      assert l[k] in u && u[l[k]].sort == k;
    }
  }

  ghost predicate UniqueTags(t: Tables) {
    forall a, b :: a in t.outbounds && b in t.outbounds && a != b ==> t.outbounds[a].tag != t.outbounds[b].tag
  }

  /** With the seeded outbounds in place they are numbered 0, 1 and 2. */
  lemma SeededComeFirst(t: Tables, direct: int, blocked: int, dns: int)
    requires UniqueTags(t) && {direct, blocked, dns} <= t.outbounds.Keys
    requires t.outbounds[direct].tag == "direct" && t.outbounds[direct].protocol == "freedom"
    requires t.outbounds[blocked].tag == "blocked" && t.outbounds[blocked].protocol == "blackhole"
    requires t.outbounds[dns].tag == "dns" && t.outbounds[dns].protocol == "dns"
    ensures var u := Rebalanced(t).outbounds;
            u[direct].sort == 0 && u[blocked].sort == 1 && u[dns].sort == 2
  {
    SeededPlaces(t.outbounds[direct]);
    SeededPlaces(t.outbounds[blocked]);
    SeededPlaces(t.outbounds[dns]);
    forall other | other in t.outbounds
      ensures !Before(t, other, direct)
      ensures Before(t, other, blocked) <==> other == direct
      ensures Before(t, other, dns) <==> other == direct || other == blocked
    {
      SeededAlone(t, other, direct, 0);
      SeededAlone(t, other, blocked, 1);
      SeededAlone(t, other, dns, 2);
    }
    hide Before;
    assert Predecessors(t, direct) == {};
    assert Predecessors(t, blocked) == {direct};
    assert Predecessors(t, dns) == {direct, blocked};
  }

  lemma SeededPlaces(o: Outbound)
    ensures BuiltIn(o) == 0 <==> o.tag == "direct" && o.protocol == "freedom"
    ensures BuiltIn(o) == 1 <==> o.tag == "blocked" && o.protocol == "blackhole"
    ensures BuiltIn(o) == 2 <==> o.tag == "dns" && o.protocol == "dns"
    ensures -1 <= BuiltIn(o) <= 2
  {
    assert "direct"[0] != "blocked"[0] && |"dns"| < |"direct"| && |"dns"| < |"blocked"|;
  }

  lemma SeededAlone(t: Tables, other: int, seeded: int, k: int)
    requires UniqueTags(t) && other in t.outbounds && seeded in t.outbounds
    requires BuiltIn(t.outbounds[seeded]) == k && 0 <= k <= 2
    ensures BuiltIn(t.outbounds[other]) == k ==> other == seeded
  {
  }

  /** The four groups follow each other, subscriptions stand by priority, and rows of one place keep their order. */
  lemma GroupsFollow(t: Tables, a: int, b: int)
    requires a in t.outbounds && b in t.outbounds
    ensures var u := Rebalanced(t).outbounds;
            var x, y := t.outbounds[a], t.outbounds[b];
            && (Group(t, x) < Group(t, y) ==> u[a].sort < u[b].sort)
            && (Group(t, x) == Group(t, y) && Within(t, x) < Within(t, y) ==> u[a].sort < u[b].sort)
            && (Group(t, x) == Group(t, y) && Within(t, x) == Within(t, y) && x.sort < y.sort ==> u[a].sort < u[b].sort)
  {
    hide Rank, Group, Within;
    RankOrders(t, a, b);
  }

  const SEEDED := {("direct", "freedom"), ("blocked", "blackhole"), ("dns", "dns")}

  predicate IsSeeded(o: Outbound) {
    (o.tag, o.protocol) in SEEDED
  }

  /** The row of a subscription that wants to stand in front. */
  predicate Prepended(t: Tables, o: Outbound) {
    o.source == "subscription" && o.subscription.Some? && o.subscription.value in t.subscriptions && t.subscriptions[o.subscription.value].prepend
  }

  /** Two rows of subscriptions that both stand in front or both at the end. */
  predicate SameSide(t: Tables, x: Outbound, y: Outbound) {
    && x.source == "subscription" && y.source == "subscription" && (Prepended(t, x) <==> Prepended(t, y))
    && x.subscription.Some? && x.subscription.value in t.subscriptions && y.subscription.Some? && y.subscription.value in t.subscriptions
  }

  /**
   The listing in the terms of the rows: seeded outbounds stand in front, then the rows of prepended subscriptions, then the
   panel's own, then the rows of other subscriptions; subscriptions go by priority, and rows of one subscription, like own ones, keep their order.
   */
  lemma ListingFollows(t: Tables, a: int, b: int)
    requires a in t.outbounds && b in t.outbounds
    ensures var x, y := t.outbounds[a], t.outbounds[b];
            var first := Rebalanced(t).outbounds[a].sort < Rebalanced(t).outbounds[b].sort;
            && (IsSeeded(x) && !IsSeeded(y) ==> first)
            && (!IsSeeded(x) && !IsSeeded(y) ==>
                  && (Prepended(t, x) && !Prepended(t, y) ==> first)
                  && (x.source != "subscription" && y.source == "subscription" && !Prepended(t, y) ==> first)
                  && (SameSide(t, x, y) && t.subscriptions[x.subscription.value].priority < t.subscriptions[y.subscription.value].priority ==> first)
                  && (SameSide(t, x, y) && x.subscription == y.subscription && x.sort < y.sort ==> first)
                  && (x.source != "subscription" && y.source != "subscription" && x.subscription.None? && y.subscription.None? && x.sort < y.sort ==> first))
  {
    SeededPlaces(t.outbounds[a]);
    SeededPlaces(t.outbounds[b]);
    GroupsFollow(t, a, b);
    hide Rank, BuiltIn;
  }

  // ---------- Idempotence ----------

  /** Rows of subscriptions point at a live one and other rows at none, as every transaction leaves them. */
  ghost predicate Clean(t: Tables) {
    forall id :: id in t.outbounds ==> CleanRow(t, t.outbounds[id])
  }

  predicate CleanRow(t: Tables, o: Outbound) {
    if FromSubscription(o) then Joined(t, o) && !t.subscriptions[o.subscription.value].deleted else o.subscription.None?
  }

  /** Both tables put the rows in the same order. */
  ghost predicate SameOrder(t: Tables, u: Tables) {
    && t.outbounds.Keys == u.outbounds.Keys
    && forall a, b :: a in t.outbounds && b in t.outbounds && Before(t, a, b) ==> Before(u, a, b)
  }

  lemma SameOrderSameRank(t: Tables, u: Tables, id: int)
    requires SameOrder(t, u) && id in t.outbounds
    ensures Rank(t, id) == Rank(u, id)
  {
    hide Before;
    forall other | other in t.outbounds ensures Before(t, other, id) <==> Before(u, other, id) {
      BeforeIsTotal(t, other, id);
      BeforeIsTotal(u, other, id);
    }
    assert Predecessors(t, id) == Predecessors(u, id);
  }

  /** The panel's own rows are all joined to a subscription or none is, and so are the rows of subscriptions that stand last. */
  ghost predicate Unmixed(t: Tables) {
    forall a, b :: a in t.outbounds && b in t.outbounds ==> !Mixed(t, a, b)
  }

  /** One place in which a row that goes by its own sort stands beside one that goes by its subscription's priority. */
  predicate Mixed(t: Tables, a: int, b: int)
    requires a in t.outbounds && b in t.outbounds
  {
    var x, y := t.outbounds[a], t.outbounds[b];
    Group(t, x) == Group(t, y) && Group(t, x) >= 2 && !Joined(t, x) && Joined(t, y)
  }

  lemma CleanIsUnmixed(t: Tables)
    requires Clean(t)
    ensures Unmixed(t)
  {
    forall a, b | a in t.outbounds && b in t.outbounds ensures !Mixed(t, a, b) {
      assert CleanRow(t, t.outbounds[a]) && CleanRow(t, t.outbounds[b]);
    }
  }

  lemma RebalancedKeys(t: Tables, a: int, b: int)
    requires Unmixed(t) && a in t.outbounds && b in t.outbounds && Before(t, a, b)
    ensures Before(Rebalanced(t), a, b)
  {
    RankOrders(t, a, b);
    hide Rank;
    assert !Mixed(t, a, b) && !Mixed(t, b, a);
  }

  /** Working the order out again changes nothing. */
  lemma RebalanceIsIdempotent(t: Tables)
    requires Unmixed(t)
    ensures Rebalanced(Rebalanced(t)) == Rebalanced(t)
  {
    hide Before, Rank, Mixed;
    var u := Rebalanced(t);
    forall a, b | a in t.outbounds && b in t.outbounds && Before(t, a, b) ensures Before(u, a, b) {
      RebalancedKeys(t, a, b);
    }
    forall id | id in t.outbounds ensures Rebalanced(u).outbounds[id] == u.outbounds[id] {
      SameOrderSameRank(t, u, id);
    }
    assert Rebalanced(u).outbounds == u.outbounds;
  }

  /** The same rows and subscriptions with every sort and every priority set to the given numbers. */
  function Renumbered(t: Tables, sort: int, priority: int): Tables {
    t.(outbounds := map id | id in t.outbounds :: t.outbounds[id].(sort := sort),
       subscriptions := map id | id in t.subscriptions :: t.subscriptions[id].(priority := priority))
  }

  /** Two tables that differ in sorts and priorities only. */
  ghost predicate SameLinks(t: Tables, u: Tables) {
    Renumbered(t, 0, 0) == Renumbered(u, 0, 0)
  }

  lemma RowLinks(t: Tables, u: Tables, id: int)
    requires SameLinks(t, u) && id in t.outbounds
    ensures id in u.outbounds && t.outbounds[id].(sort := 0) == u.outbounds[id].(sort := 0)
  {
    assert id in Renumbered(u, 0, 0).outbounds && Renumbered(t, 0, 0).outbounds[id] == Renumbered(u, 0, 0).outbounds[id];
  }

  lemma SubscriptionLinks(t: Tables, u: Tables, id: int)
    requires SameLinks(t, u) && id in t.subscriptions
    ensures id in u.subscriptions && t.subscriptions[id].(priority := 0) == u.subscriptions[id].(priority := 0)
  {
    assert id in Renumbered(u, 0, 0).subscriptions && Renumbered(t, 0, 0).subscriptions[id] == Renumbered(u, 0, 0).subscriptions[id];
  }

  lemma LinksPlace(t: Tables, u: Tables, id: int)
    requires SameLinks(t, u) && id in u.outbounds
    ensures id in t.outbounds && Group(t, t.outbounds[id]) == Group(u, u.outbounds[id]) && Joined(t, t.outbounds[id]) == Joined(u, u.outbounds[id])
  {
    RowLinks(u, t, id);
    hide SameLinks;
    if Joined(t, t.outbounds[id]) {
      SubscriptionLinks(t, u, t.outbounds[id].subscription.value);
    }
    if Joined(u, u.outbounds[id]) {
      SubscriptionLinks(u, t, u.outbounds[id].subscription.value);
    }
  }

  lemma UnmixedLinks(t: Tables, u: Tables)
    requires SameLinks(t, u) && Unmixed(t)
    ensures Unmixed(u)
  {
    hide SameLinks, Group, Joined;
    forall a, b | a in u.outbounds && b in u.outbounds ensures !Mixed(u, a, b) {
      LinksPlace(t, u, a);
      LinksPlace(t, u, b);
      assert !Mixed(t, a, b);
    }
  }

  lemma RenumberedLinks(t: Tables, sort: int, priority: int)
    ensures SameLinks(t, Renumbered(t, sort, priority))
  {
    assert Renumbered(t, 0, 0).outbounds == Renumbered(Renumbered(t, sort, priority), 0, 0).outbounds;
    assert Renumbered(t, 0, 0).subscriptions == Renumbered(Renumbered(t, sort, priority), 0, 0).subscriptions;
  }

  lemma RankBelowCount(t: Tables, id: int)
    requires id in t.outbounds
    ensures Rank(t, id) <= |t.outbounds|
  {
    hide Before;
    Subset(Predecessors(t, id), t.outbounds.Keys);
  }

  /** In a mixed place the bare row goes by its sort and the joined one by its subscription's priority. */
  lemma MixedWithin(t: Tables, a: int, b: int)
    requires a in t.outbounds && b in t.outbounds && Mixed(t, a, b)
    ensures var x, y := t.outbounds[a].sort, t.subscriptions[t.outbounds[b].subscription.value].priority;
            (x < y ==> Before(t, a, b)) && (y < x ==> Before(t, b, a))
  {
  }

  lemma MixedRenumbered(t: Tables, a: int, b: int, sort: int, priority: int)
    requires a in t.outbounds && b in t.outbounds && Mixed(t, a, b)
    ensures Mixed(Renumbered(t, sort, priority), a, b) && Renumbered(t, sort, priority).outbounds.Keys == t.outbounds.Keys
    ensures var u := Renumbered(t, sort, priority);
            u.outbounds[a].sort == sort && u.subscriptions[u.outbounds[b].subscription.value].priority == priority
  {
  }

  lemma MixedRebalanced(t: Tables, a: int, b: int)
    requires a in t.outbounds && b in t.outbounds && Mixed(t, a, b)
    ensures Mixed(Rebalanced(t), a, b) && Rebalanced(t).outbounds[a].sort == Rank(t, a)
    ensures var u := Rebalanced(t);
            u.outbounds[b].subscription == t.outbounds[b].subscription && u.subscriptions == t.subscriptions
  {
    hide Rank;
  }

  lemma SameCount<V>(m: map<int, V>, n: map<int, V>)
    requires m.Keys == n.Keys
    ensures |m| == |n|
  {
    assert |m| == |m.Keys| && |n| == |n.Keys|;
  }

  /** With large sorts and priorities between them and every rank, a mixed place is turned round by a second pass. */
  lemma MixedMoves(t: Tables, a: int, b: int)
    requires a in t.outbounds && b in t.outbounds && Mixed(t, a, b)
    ensures var u := Renumbered(t, |t.outbounds| + 2, |t.outbounds| + 1);
            Rebalanced(Rebalanced(u)) != Rebalanced(u)
  {
    var u := Renumbered(t, |t.outbounds| + 2, |t.outbounds| + 1);
    var v := Rebalanced(u);
    MixedRenumbered(t, a, b, |t.outbounds| + 2, |t.outbounds| + 1);
    MixedWithin(u, a, b);
    RankOrders(u, b, a);
    SameCount(u.outbounds, t.outbounds);
    RankBelowCount(u, a);
    MixedRebalanced(u, a, b);
    MixedWithin(v, a, b);
    RankOrders(v, a, b);
    hide Rank, Before, Mixed, Renumbered;
    assert Rebalanced(v).outbounds[a].sort == Rank(v, a) && Rebalanced(v).outbounds[b].sort == Rank(v, b);
    assert v.outbounds[a].sort == Rank(u, a) && v.outbounds[b].sort == Rank(u, b);
  }

  ghost predicate Settles(t: Tables) {
    Rebalanced(Rebalanced(t)) == Rebalanced(t)
  }

  /**
   Whatever the sorts and priorities are, a second pass changes nothing, if and only if no row that lost its
   subscription, or never had one, shares a place with a row that has one.
   */
  lemma IdempotentIff(t: Tables)
    ensures (forall u :: SameLinks(t, u) ==> Settles(u)) <==> Unmixed(t)
  {
    hide SameLinks, Mixed, Rebalanced;
    if Unmixed(t) {
      forall u | SameLinks(t, u) ensures Settles(u) {
        UnmixedLinks(t, u);
        RebalanceIsIdempotent(u);
      }
    } else {
      var a, b :| a in t.outbounds && b in t.outbounds && Mixed(t, a, b);
      MixedMoves(t, a, b);
      RenumberedLinks(t, |t.outbounds| + 2, |t.outbounds| + 1);
      assert !Settles(Renumbered(t, |t.outbounds| + 2, |t.outbounds| + 1));
    }
  }

  // ---------- What every transaction keeps ----------

  /** Live subscriptions have distinct priorities. */
  ghost predicate DistinctPriorities(t: Tables) {
    forall a, b :: a in t.subscriptions && b in t.subscriptions && a != b && !t.subscriptions[a].deleted && !t.subscriptions[b].deleted
      ==> t.subscriptions[a].priority != t.subscriptions[b].priority
  }

  ghost predicate RulesLive(t: Tables) {
    forall r :: r in t.rules ==> t.rules[r].outbound in t.outbounds
  }

  ghost predicate IdsBelow(t: Tables) {
    t.lastId >= 0 && forall id :: id in t.outbounds ==> 0 < id <= t.lastId
  }

  ghost predicate TrimmedTags(t: Tables) {
    forall id :: id in t.outbounds ==> Text.Trim(t.outbounds[id].tag) == t.outbounds[id].tag
  }

  ghost predicate Sound(t: Tables) {
    Clean(t) && UniqueTags(t) && TrimmedTags(t) && DistinctPriorities(t) && RulesLive(t) && IdsBelow(t)
  }

  /** For proofs that keep the predicate closed. */
  lemma SoundParts(t: Tables)
    requires Sound(t)
    ensures Clean(t) && UniqueTags(t) && TrimmedTags(t) && DistinctPriorities(t) && RulesLive(t) && IdsBelow(t)
  {
  }

  lemma RebalanceKeepsSound(t: Tables)
    requires Sound(t)
    ensures Sound(Rebalanced(t))
  {
    hide Rank, CleanRow;
    var u := Rebalanced(t);
    forall id | id in u.outbounds ensures CleanRow(u, u.outbounds[id]) {
      CleanRowIgnoresSort(t, u, t.outbounds[id], Rank(t, id));
    }
  }

  lemma CleanRowIgnoresSort(t: Tables, u: Tables, o: Outbound, sort: int)
    requires u.subscriptions == t.subscriptions
    ensures CleanRow(t, o) == CleanRow(u, o.(sort := sort))
  {
  }
}
