/**
 Turning the links of a subscription into nodes: which existing row each link suggests and which tag
 a new row would get.

 A link arrives parsed: `stable` is the hash of its endpoint, and `base` the prefixed slug of its remark.
 */
module SubscriptionPlan {
  import opened Outcome
  import opened Sets
  import opened OutboundOrder
  import opened Refresh
  import opened Text

  datatype Link = Link(identity: string, stable: string, base: string, protocol: string, endpoint: Endpoint, valid: bool)

  /** A row as the listing shows it. */
  datatype Listed = Listed(id: int, row: Outbound)

  // ---------- Fresh tags ----------

  /** The tags tried for a base, in order. */
  function Candidate(base: string, k: nat): string {
    if k <= 1 then base else base + "-" + Itoa(k)
  }

  lemma CandidatesDiffer(base: string, j: nat, k: nat)
    requires 1 <= j && 1 <= k && Candidate(base, j) == Candidate(base, k)
    ensures j == k
  {
    if j > 1 && k > 1 {
      assert Candidate(base, j)[|base| + 1..] == Itoa(j);
      assert Candidate(base, k)[|base| + 1..] == Itoa(k);
      ItoaInjective(j, k);
    } else {
      assert |Candidate(base, j)| > |base| <==> j > 1;
      assert |Candidate(base, k)| > |base| <==> k > 1;
    }
  }

  function Tried(base: string, k: nat): set<string>
    requires k >= 1
  {
    set j: nat | 1 <= j < k :: Candidate(base, j)
  }

  /** Only as many candidates can be taken as there are tags. */
  lemma {:induction false} TriedCount(base: string, k: nat)
    requires k >= 1
    ensures |Tried(base, k)| == k - 1
    decreases k
  {
    hide Candidate;
    if k > 1 {
      TriedCount(base, k - 1);
      var last := Candidate(base, k - 1);
      if last in Tried(base, k - 1) {
        var j :| 1 <= j < k - 1 && Candidate(base, j) == last;
        CandidatesDiffer(base, j, k - 1);
      }
      assert Tried(base, k) == Tried(base, k - 1) + {last};
    }
  }

  lemma TriedBound(base: string, k: nat, used: set<string>)
    requires k >= 1 && Tried(base, k) <= used
    ensures k - 1 <= |used|
  {
    TriedCount(base, k);
    Subset(Tried(base, k), used);
  }

  lemma TriedOneMore(base: string, k: nat, used: set<string>)
    requires k >= 1 && Tried(base, k) <= used && Candidate(base, k) in used
    ensures Tried(base, k + 1) <= used
  {
    hide Candidate;
    assert Tried(base, k + 1) == Tried(base, k) + {Candidate(base, k)};
  }

  /** The number of the first free candidate from k on. */
  function FirstFree(base: string, used: set<string>, k: nat): (n: nat)
    requires k >= 1 && Tried(base, k) <= used
    ensures n >= k && Candidate(base, n) !in used && Tried(base, n) <= used
    decreases |used| + 1 - k
  {
    TriedBound(base, k, used);
    if Candidate(base, k) !in used then k
    else
      TriedOneMore(base, k, used);
      TriedBound(base, k + 1, used);
      FirstFree(base, used, k + 1)
  }

  function BaseOf(base: string): (b: string)
    ensures b != "" && Trim(b) == b
  {
    if Trim(base) == "" then "sub-node" else (TrimSettles(base); Trim(base))
  }

  function FreshTag(base: string, used: set<string>): (tag: string)
    ensures tag !in used
  {
    assert Tried(BaseOf(base), 1) == {};
    Candidate(BaseOf(base), FirstFree(BaseOf(base), used, 1))
  }

  /** A fresh tag is the base, or the base with the first number from 2 on that makes it unused; a blank base reads "sub-node". */
  lemma FreshTagIs(base: string, used: set<string>)
    ensures var b, tag := if Trim(base) == "" then "sub-node" else Trim(base), FreshTag(base, used);
            if b !in used then tag == b
            else exists k: nat :: k >= 2 && tag == b + "-" + Itoa(k) && forall j: nat :: 2 <= j < k ==> b + "-" + Itoa(j) in used
  {
    var b := BaseOf(base);
    assert Tried(b, 1) == {};
    var n := FirstFree(b, used, 1);
    assert Candidate(b, 1) == b;
    if b in used {
      assert n >= 2;
      forall j: nat | 2 <= j < n ensures b + "-" + Itoa(j) in used {
        assert Candidate(b, j) in Tried(b, n);
      }
    }
  }

  lemma FreshTagTrimmed(base: string, used: set<string>)
    ensures FreshTag(base, used) != "" && Trim(FreshTag(base, used)) == FreshTag(base, used)
  {
    hide FirstFree, BaseOf;
    var b := BaseOf(base);
    var n := FirstFree(b, used, 1);
    if n > 1 {
      NumberedTrimmed(b, n);
    }
  }

  lemma NumberedTrimmed(base: string, n: nat)
    requires base != "" && Trim(base) == base
    ensures Trim(base + "-" + Itoa(n)) == base + "-" + Itoa(n)
  {
    var s := base + "-" + Itoa(n);
    assert s[|s| - 1] == Itoa(n)[|Itoa(n)| - 1];
    assert s[0] == base[0];
    hide Itoa, Trim;
  }

  /** Stops on every finite set of used tags and returns the first candidate that is free. */
  method UniqueTag(base: string, used: set<string>) returns (tag: string)
    ensures tag == FreshTag(base, used)
  {
    var b := Trim(base);
    if b == "" {
      b := "sub-node";
    }
    tag := b;
    var i := 2;
    assert Tried(b, 1) == {};
    while tag in used
      invariant i >= 2 && tag == Candidate(b, i - 1) && Tried(b, i - 1) <= used
      invariant FirstFree(b, used, i - 1) == FirstFree(b, used, 1)
      decreases |used| + 2 - i
    {
      TriedBound(b, i - 1, used);
      TriedOneMore(b, i - 1, used);
      TriedBound(b, i, used);
      tag := b + "-" + Itoa(i);
      i := i + 1;
    }
  }

  // ---------- The plan ----------

  function IdentityOf(link: Link): string {
    if Trim(link.identity) == "" then link.stable else Trim(link.identity)
  }

  function FirstNonBlank(a: string, b: string): string {
    if Trim(a) != "" then Trim(a) else if Trim(b) != "" then Trim(b) else ""
  }

  function Shown(e: Endpoint): Endpoint {
    e.(remark := FirstNonBlank(e.remark, e.address))
  }

  /** The row a link suggests: the one of its identity, or the one at its position. */
  function Suggested(link: Link, i: nat, own: seq<Listed>, byIdentity: map<string, Listed>): Option<Listed> {
    if IdentityOf(link) in byIdentity then Some(byIdentity[IdentityOf(link)])
    else if i < |own| then Some(own[i])
    else None
  }

  function PlanNode(link: Link, i: nat, own: seq<Listed>, byIdentity: map<string, Listed>, used: set<string>): Node {
    var was := Suggested(link, i, own, byIdentity);
    var tag := if was.Some? then was.value.row.tag else "";
    Node(if was.Some? then was.value.id else 0, if Trim(tag) == "" then FreshTag(link.base, used) else tag,
         link.protocol, Shown(link.endpoint), IdentityOf(link), i, link.valid)
  }

  function PlanNodes(links: seq<Link>, own: seq<Listed>, byIdentity: map<string, Listed>, used: set<string>): (p: (seq<Node>, set<string>))
    ensures |p.0| == |links|
  {
    if links == [] then ([], used)
    else
      var n := |links| - 1;
      var (nodes, tags) := PlanNodes(links[..n], own, byIdentity, used);
      var node := PlanNode(links[n], n, own, byIdentity, tags);
      (nodes + [node], tags + {node.tag})
  }

  function OwnRows(existing: seq<Listed>, sub: int): seq<Listed> {
    if existing == [] then []
    else
      var last := existing[|existing| - 1];
      OwnRows(existing[..|existing| - 1], sub) + (if Owned(last.row, sub) then [last] else [])
  }

  /** A later row replaces an earlier one of the same identity. */
  function ByIdentity(existing: seq<Listed>, sub: int): map<string, Listed> {
    if existing == [] then map[]
    else
      var last := existing[|existing| - 1];
      var m := ByIdentity(existing[..|existing| - 1], sub);
      if Owned(last.row, sub) && Trim(last.row.identity) != "" then m[last.row.identity := last] else m
  }

  function UsedTags(existing: seq<Listed>): set<string> {
    if existing == [] then {}
    else
      var last := existing[|existing| - 1];
      UsedTags(existing[..|existing| - 1]) + (if Trim(last.row.tag) != "" then {last.row.tag} else {})
  }

  function Plan(sub: int, links: seq<Link>, existing: seq<Listed>): seq<Node> {
    PlanNodes(links, OwnRows(existing, sub), ByIdentity(existing, sub), UsedTags(existing)).0
  }

  /** The order in which outbounds are listed. */
  predicate Sorted(existing: seq<Listed>) {
    forall i, j :: 0 <= i < j < |existing| ==> InOrder(existing[i], existing[j])
  }

  predicate InOrder(a: Listed, b: Listed) {
    a.row.sort < b.row.sort || (a.row.sort == b.row.sort && a.id < b.id)
  }

  /** The rows come listed, so sorting the subscription's own ones leaves them where they are. */
  lemma {:induction false} OwnRowsSorted(existing: seq<Listed>, sub: int)
    requires Sorted(existing)
    ensures Sorted(OwnRows(existing, sub))
    ensures forall l :: l in OwnRows(existing, sub) ==> l in existing
    decreases |existing|
  {
    hide InOrder, Owned;
    if existing != [] {
      var init, last := existing[..|existing| - 1], existing[|existing| - 1];
      OwnRowsSorted(init, sub);
      forall l | l in OwnRows(init, sub) ensures l in existing && InOrder(l, last) {
        var k :| 0 <= k < |init| && init[k] == l;
        assert existing[k] == l;
      }
    }
  }

  method Materialize(sub: int, links: seq<Link>, existing: seq<Listed>) returns (nodes: seq<Node>)
    requires Sorted(existing)
    ensures nodes == Plan(sub, links, existing)
  {
    hide FreshTag, Owned, Trim, IdentityOf, Shown, Sorted;
    var byIdentity: map<string, Listed> := map[];
    var own: seq<Listed> := [];
    var used: set<string> := {};
    for i := 0 to |existing|
      invariant own == OwnRows(existing[..i], sub)
      invariant byIdentity == ByIdentity(existing[..i], sub)
      invariant used == UsedTags(existing[..i])
    {
      assert existing[..i + 1][..i] == existing[..i];
      var outbound := existing[i];
      assert own + [] == own && used + {} == used;
      if Trim(outbound.row.tag) != "" {
        used := used + {outbound.row.tag};
      }
      if Owned(outbound.row, sub) {
        own := own + [outbound];
        if Trim(outbound.row.identity) != "" {
          byIdentity := byIdentity[outbound.row.identity := outbound];
        }
      }
    }
    assert existing[..|existing|] == existing;
    OwnRowsSorted(existing, sub);
    ghost var tags := used;
    nodes := [];
    for i := 0 to |links|
      invariant (nodes, used) == PlanNodes(links[..i], own, byIdentity, tags)
    {
      assert links[..i + 1][..i] == links[..i];
      var identity := IdentityOf(links[i]);
      var id, tag := 0, "";
      if identity in byIdentity {
        id, tag := byIdentity[identity].id, byIdentity[identity].row.tag;
      } else if i < |own| {
        id, tag := own[i].id, own[i].row.tag;
      }
      if Trim(tag) == "" {
        tag := UniqueTag(links[i].base, used);
      }
      used := used + {tag};
      nodes := nodes + [Node(id, tag, links[i].protocol, Shown(links[i].endpoint), identity, i, links[i].valid)];
    }
    assert links[..|links|] == links;
  }

  // ---------- Tags of new rows ----------

  lemma {:induction false} UsedTagsHas(existing: seq<Listed>, i: nat)
    requires i < |existing| && Trim(existing[i].row.tag) != ""
    ensures existing[i].row.tag in UsedTags(existing)
    decreases |existing|
  {
    if i < |existing| - 1 {
      UsedTagsHas(existing[..|existing| - 1], i);
    }
  }

  /** Whether the plan had to find a tag for link i. */
  predicate NeedsTag(links: seq<Link>, i: nat, own: seq<Listed>, byIdentity: map<string, Listed>)
    requires i < |links|
  {
    var was := Suggested(links[i], i, own, byIdentity);
    was.None? || Trim(was.value.row.tag) == ""
  }

  /** Node i depends on the links before it through the tags they use. */
  lemma {:induction false} PlanAt(links: seq<Link>, own: seq<Listed>, byIdentity: map<string, Listed>, used: set<string>, i: nat)
    requires i < |links|
    ensures PlanNodes(links, own, byIdentity, used).0[i]
         == PlanNode(links[i], i, own, byIdentity, PlanNodes(links[..i], own, byIdentity, used).1)
    decreases |links|
  {
    hide PlanNode;
    var n := |links| - 1;
    if i < n {
      PlanAt(links[..n], own, byIdentity, used, i);
      assert links[..n][..i] == links[..i];
    }
  }

  lemma {:induction false} PlanTags(links: seq<Link>, own: seq<Listed>, byIdentity: map<string, Listed>, used: set<string>)
    ensures var (nodes, tags) := PlanNodes(links, own, byIdentity, used);
            used <= tags && forall j :: 0 <= j < |links| ==> nodes[j].tag in tags
    decreases |links|
  {
    hide PlanNode;
    if links != [] {
      PlanTags(links[..|links| - 1], own, byIdentity, used);
    }
  }

  lemma NeededTag(link: Link, i: nat, own: seq<Listed>, byIdentity: map<string, Listed>, used: set<string>)
    ensures var was := Suggested(link, i, own, byIdentity);
            var tag := PlanNode(link, i, own, byIdentity, used).tag;
            if was.None? || Trim(was.value.row.tag) == "" then tag !in used && tag != "" && Trim(tag) == tag else tag == was.value.row.tag
  {
    assert Trim("") == "";
    hide FreshTag, Suggested, IdentityOf, Shown, Trim;
    FreshTagTrimmed(link.base, used);
  }

  /** A tag found for a link is trimmed, was not used before and differs from the tags of all links before it. */
  lemma FreshTagsApart(links: seq<Link>, own: seq<Listed>, byIdentity: map<string, Listed>, used: set<string>, i: nat)
    requires i < |links| && NeedsTag(links, i, own, byIdentity)
    ensures var nodes := PlanNodes(links, own, byIdentity, used).0;
            && nodes[i].tag !in used && nodes[i].tag != "" && Trim(nodes[i].tag) == nodes[i].tag
            && forall j :: 0 <= j < i ==> nodes[j].tag != nodes[i].tag
  {
    hide PlanNodes, PlanNode, Trim;
    var nodes := PlanNodes(links, own, byIdentity, used).0;
    var (before, tags) := PlanNodes(links[..i], own, byIdentity, used);
    PlanAt(links, own, byIdentity, used, i);
    PlanTags(links[..i], own, byIdentity, used);
    NeededTag(links[i], i, own, byIdentity, tags);
    forall j | 0 <= j < i ensures nodes[j] == before[j] {
      PlanAt(links, own, byIdentity, used, j);
      PlanAt(links[..i], own, byIdentity, used, j);
      assert links[..i][..j] == links[..j];
    }
  }

  // ---------- Which row a link takes ----------

  /** The row is one of the subscription's. */
  predicate IsOwn(l: Listed, sub: int) {
    l.row.source == "subscription" && l.row.subscription == Some(sub)
  }

  /** How many of the first n rows are the subscription's. */
  function OwnAmong(existing: seq<Listed>, sub: int, n: nat): (k: nat)
    requires n <= |existing|
    ensures k <= n
  {
    if n == 0 then 0 else OwnAmong(existing, sub, n - 1) + if IsOwn(existing[n - 1], sub) then 1 else 0
  }

  predicate HasIdentity(l: Listed, sub: int, identity: string) {
    IsOwn(l, sub) && l.row.identity == identity && Trim(identity) != ""
  }

  /** The last row of the subscription with the identity. */
  ghost predicate LastWith(existing: seq<Listed>, sub: int, identity: string, j: nat) {
    && j < |existing| && HasIdentity(existing[j], sub, identity)
    && forall k :: j < k < |existing| ==> !HasIdentity(existing[k], sub, identity)
  }

  ghost predicate NoneWith(existing: seq<Listed>, sub: int, identity: string) {
    forall k :: 0 <= k < |existing| ==> !HasIdentity(existing[k], sub, identity)
  }

  /** The node is for the row and keeps its tag if it has one. */
  predicate Claims(node: Node, l: Listed) {
    node.id == l.id && (Trim(l.row.tag) != "" ==> node.tag == l.row.tag)
  }

  lemma ByIdentityStep(existing: seq<Listed>, sub: int, identity: string)
    requires existing != []
    ensures var m, last := ByIdentity(existing[..|existing| - 1], sub), existing[|existing| - 1];
            var n := ByIdentity(existing, sub);
            if HasIdentity(last, sub, identity) then identity in n && n[identity] == last
            else (identity in n <==> identity in m) && (identity in m ==> n[identity] == m[identity])
  {
    hide Trim;
  }

  lemma {:induction false} ByIdentityNone(existing: seq<Listed>, sub: int, identity: string)
    requires NoneWith(existing, sub, identity)
    ensures identity !in ByIdentity(existing, sub)
    decreases |existing|
  {
    hide HasIdentity;
    if existing != [] {
      var n := |existing| - 1;
      ByIdentityStep(existing, sub, identity);
      hide ByIdentity;
      assert !HasIdentity(existing[n], sub, identity);
      forall k | 0 <= k < n ensures !HasIdentity(existing[..n][k], sub, identity) {
        assert !HasIdentity(existing[k], sub, identity);
      }
      ByIdentityNone(existing[..n], sub, identity);
    }
  }

  lemma {:induction false} ByIdentityLast(existing: seq<Listed>, sub: int, identity: string, j: nat)
    requires LastWith(existing, sub, identity, j)
    ensures identity in ByIdentity(existing, sub) && ByIdentity(existing, sub)[identity] == existing[j]
    decreases |existing|
  {
    hide HasIdentity, ByIdentity;
    var n := |existing| - 1;
    ByIdentityStep(existing, sub, identity);
    if j < n {
      assert !HasIdentity(existing[n], sub, identity);
      assert HasIdentity(existing[..n][j], sub, identity);
      forall k | j < k < n ensures !HasIdentity(existing[..n][k], sub, identity) {
        assert !HasIdentity(existing[k], sub, identity);
      }
      ByIdentityLast(existing[..n], sub, identity, j);
    }
  }

  lemma {:induction false} OwnRowsAt(existing: seq<Listed>, sub: int, n: nat)
    requires n <= |existing|
    ensures |OwnRows(existing[..n], sub)| == OwnAmong(existing, sub, n)
    ensures forall j :: 0 <= j < n && IsOwn(existing[j], sub) ==>
              OwnAmong(existing, sub, j) < OwnAmong(existing, sub, n) && OwnRows(existing[..n], sub)[OwnAmong(existing, sub, j)] == existing[j]
    decreases n
  {
    if n > 0 {
      OwnRowsAt(existing, sub, n - 1);
      assert existing[..n][..n - 1] == existing[..n - 1];
    }
  }

  /** The fields that a node takes from its link. */
  predicate FromLink(node: Node, link: Link, i: nat) {
    && node.identity == (if Trim(link.identity) == "" then link.stable else Trim(link.identity))
    && node.position == i && node.protocol == link.protocol && node.valid == link.valid
    && node.endpoint.address == link.endpoint.address && node.endpoint.port == link.endpoint.port
    && node.endpoint.username == link.endpoint.username && node.endpoint.password == link.endpoint.password
    && node.endpoint.rawLink == link.endpoint.rawLink && node.endpoint.settings == link.endpoint.settings
    && node.endpoint.remark == if Trim(link.endpoint.remark) != "" then Trim(link.endpoint.remark) else Trim(link.endpoint.address)
  }

  lemma PlanNodeIs(link: Link, i: nat, own: seq<Listed>, byIdentity: map<string, Listed>, used: set<string>)
    ensures var node := PlanNode(link, i, own, byIdentity, used);
            && FromLink(node, link, i)
            && (node.identity in byIdentity ==> Claims(node, byIdentity[node.identity]))
            && (node.identity !in byIdentity && i < |own| ==> Claims(node, own[i]))
            && (node.identity !in byIdentity && i >= |own| ==> node.id == 0)
  {
    hide Trim, FreshTag;
  }

  /**
   Link i takes the row of its identity, the last one if there are several; if there is none, the
   i-th row of the subscription in listing order; and only if there are not so many, a new one.
   */
  lemma PlanTakes(sub: int, links: seq<Link>, existing: seq<Listed>, i: nat)
    requires i < |links|
    ensures |Plan(sub, links, existing)| == |links|
    ensures var node := Plan(sub, links, existing)[i];
            && FromLink(node, links[i], i)
            && (forall j: nat :: LastWith(existing, sub, node.identity, j) ==> Claims(node, existing[j]))
            && (NoneWith(existing, sub, node.identity) ==>
                  && (forall j: nat :: j < |existing| && IsOwn(existing[j], sub) && OwnAmong(existing, sub, j) == i ==> Claims(node, existing[j]))
                  && (OwnAmong(existing, sub, |existing|) <= i ==> node.id == 0))
  {
    hide PlanNodes, PlanNode, FromLink, Claims, IsOwn, HasIdentity, NoneWith;
    var own, byIdentity, used := OwnRows(existing, sub), ByIdentity(existing, sub), UsedTags(existing);
    PlanAt(links, own, byIdentity, used, i);
    PlanNodeIs(links[i], i, own, byIdentity, PlanNodes(links[..i], own, byIdentity, used).1);
    var identity := Plan(sub, links, existing)[i].identity;
    if NoneWith(existing, sub, identity) {
      ByIdentityNone(existing, sub, identity);
    }
    forall j: nat | j < |existing| && LastWith(existing, sub, identity, j) ensures identity in byIdentity && byIdentity[identity] == existing[j] {
      ByIdentityLast(existing, sub, identity, j);
    }
    OwnRowsAt(existing, sub, |existing|);
    assert existing[..|existing|] == existing;
  }
}
