/** The credit-mesh view: the deterministic construction of the relationship graph
    (one user hub, six primary signals, seven cluster leaves), the per-node layout
    parameters handed to the force simulation, the colour and icon mappings, and
    the selection, hover and drag state driven by pointer events. */
module CreditMesh {
  import opened Wrappers

  // ---------------------------------------------------------------------------
  // Graph entities
  // ---------------------------------------------------------------------------

  /** The status strings the view distinguishes; `Warning` is handled by the colour
      mapping but no node of the demo graph has it. */
  datatype Status = Stable | Neutral | Volatile | Warning

  /** The `type` field: absent on the user node. */
  datatype NodeType = PrimaryType | SecondaryType

  datatype Node = Node(
    id: string,
    title: string,
    group: string,
    r: int,
    status: Status,
    importance: int,
    nodeType: Option<NodeType>,
    /** Whether the node carries a `metrics` record (the user and the primaries do). */
    hasMetrics: bool)

  /** `avgVal` is shown with a currency sign; the model keeps the number. */
  datatype LinkMetrics = LinkMetrics(txCount: int, avgVal: int)

  /** `active` is absent on leaf links, which reads as false. */
  datatype Link = Link(
    source: string,
    target: string,
    distance: Option<int>,
    strength: real,
    freq: real,
    stable: bool,
    active: bool,
    metrics: Option<LinkMetrics>)

  datatype PrimarySpec = PrimarySpec(id: string, title: string, group: string, status: Status, importance: int)

  datatype ChildSpec = ChildSpec(id: string, title: string, status: Status)

  /** One entry of the `clusters` object: a primary id and its leaves, in key order. */
  datatype Cluster = Cluster(parent: string, kids: seq<ChildSpec>)

  /** The two `Math.random()` results drawn for one primary link. */
  datatype Draw = Draw(tx: real, value: real)

  predicate ValidDraw(d: Draw)
  {
    0.0 <= d.tx < 1.0 && 0.0 <= d.value < 1.0
  }

  // ---------------------------------------------------------------------------
  // The literal graph description
  // ---------------------------------------------------------------------------

  const UserNode: Node := Node("user", "USER", "user", 30, Stable, 10, None, true)

  const PrimarySpecs: seq<PrimarySpec> := [
    PrimarySpec("employer", "EMPLOYER / GIG", "income", Stable, 9),
    PrimarySpec("upi", "UPI NETWORK", "payment", Neutral, 7),
    PrimarySpec("rent", "RENT / UTILITIES", "obligation", Stable, 8),
    PrimarySpec("merchant", "MERCHANT NETWORK", "spending", Volatile, 8),
    PrimarySpec("savings", "SAVINGS ACCOUNT", "asset", Stable, 7),
    PrimarySpec("p2p", "P2P NETWORK", "social", Neutral, 6)
  ]

  const Clusters: seq<Cluster> := [
    Cluster("employer", [ChildSpec("inc_stable", "Salary", Stable), ChildSpec("inc_var", "Bonus", Neutral)]),
    Cluster("upi", [ChildSpec("bill", "Bills", Stable), ChildSpec("groceries", "Store", Neutral)]),
    Cluster("merchant", [ChildSpec("lux", "Luxury", Volatile), ChildSpec("subs", "Subs", Stable)]),
    Cluster("savings", [ChildSpec("rd", "FD", Stable)])
  ]

  // ---------------------------------------------------------------------------
  // What the builder pushes
  // ---------------------------------------------------------------------------

  /** `Math.floor(Math.random() * n) + base`. */
  function RandomInt(draw: real, n: int, base: int): int
  {
    (draw * n as real).Floor + base
  }

  function PrimaryNode(p: PrimarySpec): Node
  {
    Node(p.id, p.title, p.group, 15 + p.importance, p.status, p.importance, Some(PrimaryType), true)
  }

  function PrimaryLink(p: PrimarySpec, d: Draw): Link
  {
    Link("user", p.id, Some(120), 0.8, p.importance as real / 2.0,
         p.status == Stable, p.status == Volatile || p.id == "upi",
         Some(LinkMetrics(RandomInt(d.tx, 50, 10), RandomInt(d.value, 5000, 500))))
  }

  function ChildNode(parent: string, k: ChildSpec): Node
  {
    Node(k.id, k.title, parent, 8, k.status, 3, Some(SecondaryType), false)
  }

  function ChildLink(parent: string, k: ChildSpec): Link
  {
    Link(parent, k.id, Some(40), 0.5, 1.0, true, false, None)
  }

  function PrimaryNodes(ps: seq<PrimarySpec>): (r: seq<Node>)
    ensures |r| == |ps| && forall k :: 0 <= k < |ps| ==> r[k] == PrimaryNode(ps[k])
  {
    seq(|ps|, k requires 0 <= k < |ps| => PrimaryNode(ps[k]))
  }

  function PrimaryLinks(ps: seq<PrimarySpec>, ds: seq<Draw>): (r: seq<Link>)
    requires |ds| == |ps|
    ensures |r| == |ps| && forall k :: 0 <= k < |ps| ==> r[k] == PrimaryLink(ps[k], ds[k])
  {
    seq(|ps|, k requires 0 <= k < |ps| => PrimaryLink(ps[k], ds[k]))
  }

  function KidsNodes(parent: string, kids: seq<ChildSpec>): (r: seq<Node>)
    ensures |r| == |kids| && forall k :: 0 <= k < |kids| ==> r[k] == ChildNode(parent, kids[k])
  {
    seq(|kids|, k requires 0 <= k < |kids| => ChildNode(parent, kids[k]))
  }

  function KidsLinks(parent: string, kids: seq<ChildSpec>): (r: seq<Link>)
    ensures |r| == |kids| && forall k :: 0 <= k < |kids| ==> r[k] == ChildLink(parent, kids[k])
  {
    seq(|kids|, k requires 0 <= k < |kids| => ChildLink(parent, kids[k]))
  }

  function KidCount(cs: seq<Cluster>): nat
  {
    if |cs| == 0 then 0 else KidCount(cs[..|cs| - 1]) + |cs[|cs| - 1].kids|
  }

  /** The leaves of every cluster, cluster by cluster. */
  function SecondaryNodes(cs: seq<Cluster>): (r: seq<Node>)
  {
    if |cs| == 0 then []
    else SecondaryNodes(cs[..|cs| - 1]) + KidsNodes(cs[|cs| - 1].parent, cs[|cs| - 1].kids)
  }

  function SecondaryLinks(cs: seq<Cluster>): (r: seq<Link>)
  {
    if |cs| == 0 then []
    else SecondaryLinks(cs[..|cs| - 1]) + KidsLinks(cs[|cs| - 1].parent, cs[|cs| - 1].kids)
  }

  lemma {:induction false} SecondaryLengths(cs: seq<Cluster>)
    ensures |SecondaryNodes(cs)| == KidCount(cs) == |SecondaryLinks(cs)|
  {
    if |cs| > 0 {
      SecondaryLengths(cs[..|cs| - 1]);
    }
  }

  /** The `nodes` array of `graphData`. */
  function GraphNodes(): seq<Node>
  {
    [UserNode] + PrimaryNodes(PrimarySpecs) + SecondaryNodes(Clusters)
  }

  /** The `links` array of `graphData` for the given random draws. */
  function GraphLinks(ds: seq<Draw>): seq<Link>
    requires |ds| == |PrimarySpecs|
  {
    PrimaryLinks(PrimarySpecs, ds) + SecondaryLinks(Clusters)
  }

  // ---------------------------------------------------------------------------
  // The builder itself
  // ---------------------------------------------------------------------------

  /** The `primaryNodes.forEach` loop: each primary with its hub link. */
  method PushPrimaries(ds: seq<Draw>) returns (nodes: seq<Node>, links: seq<Link>)
    requires |ds| == |PrimarySpecs|
    ensures nodes == [UserNode] + PrimaryNodes(PrimarySpecs)
    ensures links == PrimaryLinks(PrimarySpecs, ds)
  {
    nodes := [UserNode];
    links := [];
    for i := 0 to |PrimarySpecs|
      invariant nodes == [UserNode] + PrimaryNodes(PrimarySpecs[..i])
      invariant links == PrimaryLinks(PrimarySpecs[..i], ds[..i])
    {
      var p := PrimarySpecs[i];
      nodes := nodes + [PrimaryNode(p)];
      links := links + [PrimaryLink(p, ds[i])];
      assert PrimaryNodes(PrimarySpecs[..i + 1]) == PrimaryNodes(PrimarySpecs[..i]) + [PrimaryNode(p)];
      assert PrimaryLinks(PrimarySpecs[..i + 1], ds[..i + 1]) == PrimaryLinks(PrimarySpecs[..i], ds[..i]) + [PrimaryLink(p, ds[i])];
    }
    assert PrimarySpecs[..|PrimarySpecs|] == PrimarySpecs;
    assert ds[..|ds|] == ds;
  }

  /** The inner `kids.forEach` loop: one cluster's leaves with their parent links. */
  method PushCluster(nodes0: seq<Node>, links0: seq<Link>, c: Cluster) returns (nodes: seq<Node>, links: seq<Link>)
    ensures nodes == nodes0 + KidsNodes(c.parent, c.kids)
    ensures links == links0 + KidsLinks(c.parent, c.kids)
  {
    nodes, links := nodes0, links0;
    for j := 0 to |c.kids|
      invariant nodes == nodes0 + KidsNodes(c.parent, c.kids[..j])
      invariant links == links0 + KidsLinks(c.parent, c.kids[..j])
    {
      nodes := nodes + [ChildNode(c.parent, c.kids[j])];
      links := links + [ChildLink(c.parent, c.kids[j])];
      assert KidsNodes(c.parent, c.kids[..j + 1]) == KidsNodes(c.parent, c.kids[..j]) + [ChildNode(c.parent, c.kids[j])];
      assert KidsLinks(c.parent, c.kids[..j + 1]) == KidsLinks(c.parent, c.kids[..j]) + [ChildLink(c.parent, c.kids[j])];
    }
    assert c.kids[..|c.kids|] == c.kids;
  }

  /** The outer `Object.entries(clusters).forEach` loop. */
  method PushClusters(nodes0: seq<Node>, links0: seq<Link>, cs: seq<Cluster>) returns (nodes: seq<Node>, links: seq<Link>)
    ensures nodes == nodes0 + SecondaryNodes(cs)
    ensures links == links0 + SecondaryLinks(cs)
  {
    nodes, links := nodes0, links0;
    for c := 0 to |cs|
      invariant nodes == nodes0 + SecondaryNodes(cs[..c])
      invariant links == links0 + SecondaryLinks(cs[..c])
    {
      var prefix, k := cs[..c], cs[c];
      assert cs[..c + 1] == prefix + [k];
      SecondarySnoc(prefix, k);
      var n2, l2 := PushCluster(nodes, links, k);
      assert n2 == nodes0 + (SecondaryNodes(prefix) + KidsNodes(k.parent, k.kids));
      assert l2 == links0 + (SecondaryLinks(prefix) + KidsLinks(k.parent, k.kids));
      nodes, links := n2, l2;
    }
    assert cs[..|cs|] == cs;
  }

  /** `graphData`: the hub, then each primary with its hub link, then each cluster's
      leaves with their parent links, in `Object.entries` order. */
  method BuildGraph(ds: seq<Draw>) returns (nodes: seq<Node>, links: seq<Link>)
    requires |ds| == |PrimarySpecs|
    ensures nodes == GraphNodes()
    ensures links == GraphLinks(ds)
  {
    var base, baseLinks := PushPrimaries(ds);
    nodes, links := PushClusters(base, baseLinks, Clusters);
  }

  // ---------------------------------------------------------------------------
  // Properties of the graph
  // ---------------------------------------------------------------------------

  function Ids(ns: seq<Node>): (r: seq<string>)
    ensures |r| == |ns| && forall k :: 0 <= k < |ns| ==> r[k] == ns[k].id
  {
    seq(|ns|, k requires 0 <= k < |ns| => ns[k].id)
  }

  const NodeIds: seq<string> := ["user", "employer", "upi", "rent", "merchant", "savings", "p2p",
                                 "inc_stable", "inc_var", "bill", "groceries", "lux", "subs", "rd"]

  lemma SecondarySnoc(cs: seq<Cluster>, c: Cluster)
    ensures SecondaryNodes(cs + [c]) == SecondaryNodes(cs) + KidsNodes(c.parent, c.kids)
    ensures SecondaryLinks(cs + [c]) == SecondaryLinks(cs) + KidsLinks(c.parent, c.kids)
    ensures KidCount(cs + [c]) == KidCount(cs) + |c.kids|
  {
    assert (cs + [c])[..|cs|] == cs;
  }

  /** The leaves, spelled out cluster by cluster. */
  lemma SecondaryNodesValue()
    ensures SecondaryNodes(Clusters) ==
      KidsNodes("employer", Clusters[0].kids) + KidsNodes("upi", Clusters[1].kids)
      + KidsNodes("merchant", Clusters[2].kids) + KidsNodes("savings", Clusters[3].kids)
    ensures SecondaryLinks(Clusters) ==
      KidsLinks("employer", Clusters[0].kids) + KidsLinks("upi", Clusters[1].kids)
      + KidsLinks("merchant", Clusters[2].kids) + KidsLinks("savings", Clusters[3].kids)
  {
    var c0, c1, c2, c3 := Clusters[0], Clusters[1], Clusters[2], Clusters[3];
    assert Clusters == [c0, c1, c2] + [c3];
    assert [c0, c1, c2] == [c0, c1] + [c2];
    assert [c0, c1] == [c0] + [c1];
    assert [c0] == [] + [c0];
    SecondarySnoc([], c0);
    SecondarySnoc([c0], c1);
    SecondarySnoc([c0, c1], c2);
    SecondarySnoc([c0, c1, c2], c3);
  }

  /** The leaves' groups: each leaf's group is the id of the primary whose cluster
      listed it. */
  lemma LeafParents()
    ensures |GraphNodes()| == 14
    ensures forall k :: 7 <= k < 14 ==>
      (GraphNodes()[k].group == if k < 9 then "employer" else if k < 11 then "upi" else if k < 13 then "merchant" else "savings")
    ensures forall k :: 7 <= k < 14 ==> GraphNodes()[k].nodeType == Some(SecondaryType)
    ensures forall k :: 7 <= k < 14 ==> GraphNodes()[k].r == 8 && GraphNodes()[k].importance == 3
    ensures forall k :: 7 <= k < 14 ==> !GraphNodes()[k].hasMetrics
  {
    SecondaryNodesValue();
    var ns := GraphNodes();
    var sn := SecondaryNodes(Clusters);
    forall k | 7 <= k < 14
      ensures ns[k].group == (if k < 9 then "employer" else if k < 11 then "upi" else if k < 13 then "merchant" else "savings")
      ensures ns[k].nodeType == Some(SecondaryType)
      ensures ns[k].r == 8 && ns[k].importance == 3 && !ns[k].hasMetrics
    {
      assert ns[k] == sn[k - 7];
    }
  }

  /** The builder yields fourteen nodes, with these ids in this order, and thirteen links. */
  lemma GraphShape(ds: seq<Draw>)
    requires |ds| == |PrimarySpecs|
    ensures |GraphNodes()| == 14 && |GraphLinks(ds)| == 13
    ensures Ids(GraphNodes()) == NodeIds
  {
    SecondaryNodesValue();
    var ns := GraphNodes();
    assert |ns| == 14;
    forall k | 0 <= k < 14 ensures ns[k].id == NodeIds[k] {
      if k == 0 {
      } else if k < 7 {
        assert ns[k] == PrimaryNode(PrimarySpecs[k - 1]);
      } else {
        assert ns[k] == SecondaryNodes(Clusters)[k - 7];
      }
    }
  }

  /** No two nodes share an id. */
  lemma NodeIdsDistinct()
    ensures forall i, j :: 0 <= i < j < |NodeIds| ==> NodeIds[i] != NodeIds[j]
  {
  }

  /** Every link starts and ends at a node of the graph, and none ends at the user hub. */
  lemma LinkEndpoints(ds: seq<Draw>)
    requires |ds| == |PrimarySpecs|
    ensures forall l :: l in GraphLinks(ds) ==> l.source in NodeIds && l.target in NodeIds
    ensures forall l :: l in GraphLinks(ds) ==> l.target != "user"
  {
    GraphLinksValue(ds);
    LeafParents();
    var ls := GraphLinks(ds);
    var parents := [NodeIds[0], NodeIds[1], NodeIds[2], NodeIds[4], NodeIds[5]];
    assert parents == ["user", "employer", "upi", "merchant", "savings"];
    forall k | 0 <= k < |ls| ensures ls[k].source in parents && ls[k].target == NodeIds[k + 1] && ls[k].target != "user" {
    }
  }

  /** The links in order: hub to primary `k` for the first six, then parent to leaf
      `k` in the order the leaves were pushed. */
  lemma GraphLinksValue(ds: seq<Draw>)
    requires |ds| == |PrimarySpecs|
    ensures var ls := GraphLinks(ds);
      |ls| == 13 && |GraphNodes()| == 14
      && (forall k :: 0 <= k < 6 ==> ls[k].source == "user" && ls[k].target == NodeIds[k + 1])
      && (forall k :: 6 <= k < 13 ==> ls[k].target == NodeIds[k + 1] && ls[k].source == GraphNodes()[k + 1].group)
  {
    SecondaryNodesValue();
    var ls := GraphLinks(ds);
    var ns := GraphNodes();
    GraphShape(ds);
    SecondaryLengths(Clusters);
    forall k | 6 <= k < 13 ensures ls[k].target == NodeIds[k + 1] && ls[k].source == ns[k + 1].group {
      assert ls[k] == SecondaryLinks(Clusters)[k - 6];
      assert ns[k + 1] == SecondaryNodes(Clusters)[k - 6];
      LeafLinkMatchesNode(Clusters, k - 6);
    }
    forall k | 0 <= k < 6 ensures ls[k].source == "user" && ls[k].target == NodeIds[k + 1] {
      assert ls[k] == PrimaryLink(PrimarySpecs[k], ds[k]);
      assert ns[k + 1] == PrimaryNode(PrimarySpecs[k]);
    }
  }

  /** Leaf `k` and leaf link `k` belong together: the link goes from the leaf's group,
      its parent's id, to the leaf. */
  lemma {:induction false} LeafLinkMatchesNode(cs: seq<Cluster>, k: nat)
    requires k < KidCount(cs)
    ensures |SecondaryNodes(cs)| == KidCount(cs) == |SecondaryLinks(cs)|
    ensures SecondaryLinks(cs)[k].target == SecondaryNodes(cs)[k].id
    ensures SecondaryLinks(cs)[k].source == SecondaryNodes(cs)[k].group
    ensures SecondaryNodes(cs)[k].nodeType == Some(SecondaryType)
    ensures SecondaryNodes(cs)[k].r == 8 && SecondaryNodes(cs)[k].importance == 3
  {
    var n := |cs|;
    var m := KidCount(cs[..n - 1]);
    SecondaryLengths(cs[..n - 1]);
    SecondaryLengths(cs);
    if k < m {
      LeafLinkMatchesNode(cs[..n - 1], k);
    } else {
      var c := cs[n - 1];
      assert SecondaryNodes(cs)[k] == KidsNodes(c.parent, c.kids)[k - m];
      assert SecondaryLinks(cs)[k] == KidsLinks(c.parent, c.kids)[k - m];
    }
  }

  /** Layout and flags of the hub links: a link is stable exactly when its primary is
      stable, and pulses exactly when its primary is volatile or is the UPI network. */
  lemma PrimaryLinkFlags(ds: seq<Draw>, k: nat)
    requires |ds| == |PrimarySpecs| && k < |PrimarySpecs|
    ensures var l := GraphLinks(ds)[k]; var n := GraphNodes()[k + 1];
      n.nodeType == Some(PrimaryType) && n.r == 15 + n.importance
      && (l.stable <==> n.status == Stable)
      && (l.active <==> n.status == Volatile || n.id == "upi")
      && l.distance == Some(120) && l.freq == n.importance as real / 2.0
  {
    assert GraphLinks(ds)[k] == PrimaryLink(PrimarySpecs[k], ds[k]);
    assert GraphNodes()[k + 1] == PrimaryNode(PrimarySpecs[k]);
  }

  /** Among the demo primaries exactly the merchant and UPI links pulse, and the
      employer, rent and savings links are drawn as stable. */
  lemma DemoPrimaryFlags(ds: seq<Draw>)
    requires |ds| == |PrimarySpecs|
    ensures forall k :: 0 <= k < 6 ==> (GraphLinks(ds)[k].active <==> k == 1 || k == 3)
    ensures forall k :: 0 <= k < 6 ==> (GraphLinks(ds)[k].stable <==> k == 0 || k == 2 || k == 4)
  {
    forall k | 0 <= k < 6
      ensures (GraphLinks(ds)[k].active <==> k == 1 || k == 3)
      ensures (GraphLinks(ds)[k].stable <==> k == 0 || k == 2 || k == 4)
    {
      assert GraphLinks(ds)[k] == PrimaryLink(PrimarySpecs[k], ds[k]);
    }
  }

  /** The random link metrics: `txCount` in [10, 59] and `avgVal` in [500, 5499]. */
  lemma {:induction false} RandomIntRange(draw: real, n: nat, base: int)
    requires 0.0 <= draw < 1.0 && n > 0
    ensures base <= RandomInt(draw, n, base) <= base + n - 1
  {
    var x := draw * n as real;
    assert 0.0 <= x < n as real by {
      assert draw * n as real < 1.0 * n as real;
    }
  }

  lemma LinkMetricsRange(ds: seq<Draw>)
    requires |ds| == |PrimarySpecs| && forall k :: 0 <= k < |ds| ==> ValidDraw(ds[k])
    ensures forall l :: l in GraphLinks(ds) && l.metrics.Some? ==>
      10 <= l.metrics.value.txCount <= 59 && 500 <= l.metrics.value.avgVal <= 5499
    ensures forall k :: 0 <= k < |GraphLinks(ds)| ==> (GraphLinks(ds)[k].metrics.Some? <==> k < 6)
  {
    var ls := GraphLinks(ds);
    SecondaryNodesValue();
    forall k | 0 <= k < |ls| ensures (ls[k].metrics.Some? <==> k < 6)
      && (ls[k].metrics.Some? ==> 10 <= ls[k].metrics.value.txCount <= 59 && 500 <= ls[k].metrics.value.avgVal <= 5499)
    {
      if k < 6 {
        assert ls[k] == PrimaryLink(PrimarySpecs[k], ds[k]);
        RandomIntRange(ds[k].tx, 50, 10);
        RandomIntRange(ds[k].value, 5000, 500);
      } else {
        assert ls[k] == SecondaryLinks(Clusters)[k - 6];
      }
    }
  }

  // ---------------------------------------------------------------------------
  // Force parameters
  // ---------------------------------------------------------------------------

  /** `d.distance || 60`: a missing or zero distance falls back to 60. */
  function LinkDistance(l: Link): (d: int)
    ensures l.distance.Some? && l.distance.value != 0 ==> d == l.distance.value
    ensures l.distance.None? ==> d == 60
  {
    match l.distance
    case Some(v) => if v != 0 then v else 60
    case None => 60
  }

  /** Every link of the graph sets its distance, so the fallback never applies:
      120 from the hub, 40 to a leaf. */
  lemma NoDefaultDistance(ds: seq<Draw>)
    requires |ds| == |PrimarySpecs|
    ensures forall k :: 0 <= k < |GraphLinks(ds)| ==> LinkDistance(GraphLinks(ds)[k]) == if k < 6 then 120 else 40
  {
    var ls := GraphLinks(ds);
    SecondaryNodesValue();
    forall k | 0 <= k < |ls| ensures LinkDistance(ls[k]) == if k < 6 then 120 else 40 {
      if k < 6 {
        assert ls[k] == PrimaryLink(PrimarySpecs[k], ds[k]);
      } else {
        assert ls[k] == SecondaryLinks(Clusters)[k - 6];
      }
    }
  }

  /** The radius of the ring a node is pulled to. */
  function RadialTarget(n: Node): (t: int)
    ensures n.group == "user" ==> t == 0
    ensures n.group != "user" && n.nodeType == Some(PrimaryType) ==> t == 140
    ensures n.group != "user" && n.nodeType != Some(PrimaryType) ==> t == 220
  {
    if n.group == "user" then 0 else if n.nodeType == Some(PrimaryType) then 140 else 220
  }

  function CollideRadius(n: Node): int
  {
    n.r + 15
  }

  /** The hub sits at the centre, primaries on ring 140 and leaves on ring 220, and
      no two nodes' collision discs shrink below 23. */
  lemma GraphLayout(ds: seq<Draw>)
    requires |ds| == |PrimarySpecs|
    ensures forall k :: 0 <= k < |GraphNodes()| ==>
      RadialTarget(GraphNodes()[k]) == (if k == 0 then 0 else if k < 7 then 140 else 220)
    ensures forall k :: 0 <= k < |GraphNodes()| ==> CollideRadius(GraphNodes()[k]) >= 23
  {
    LeafParents();
    var ns := GraphNodes();
    forall k | 0 < k < 7
      ensures RadialTarget(ns[k]) == 140 && CollideRadius(ns[k]) >= 23
    {
      assert ns[k] == PrimaryNode(PrimarySpecs[k - 1]);
    }
  }

  // ---------------------------------------------------------------------------
  // Colours and icons
  // ---------------------------------------------------------------------------

  const Gold: string := "#fbbf24"
  const Green: string := "#22c55e"
  const Red: string := "#ef4444"
  const Yellow: string := "#eab308"
  const Blue: string := "#3b82f6"

  function StatusColor(s: Status): string
  {
    match s
    case Stable => Green
    case Volatile => Red
    case Warning => Yellow
    case Neutral => Blue
  }

  /** `getNodeColor`: gold for the user whatever its status, otherwise by status. */
  function NodeColor(n: Node): (c: string)
    ensures n.id == "user" ==> c == Gold
    ensures n.id != "user" ==> c == StatusColor(n.status)
  {
    if n.id == "user" then Gold else StatusColor(n.status)
  }

  /** The five colours are distinct, so a node's colour tells its status apart. */
  lemma StatusColorInjective(a: Status, b: Status)
    ensures StatusColor(a) == StatusColor(b) <==> a == b
    ensures StatusColor(a) != Gold
  {
    assert Green[1] == '2' && Red[1] == 'e' && Yellow[1] == 'e' && Blue[1] == '3' && Gold[1] == 'f';
    assert Red[2] == 'f' && Yellow[2] == 'a';
  }

  /** `getIconName`. */
  function IconName(group: string): (name: string)
    ensures group !in ["income", "payment", "obligation", "spending", "asset"] ==> name == "circle"
  {
    if group == "income" then "briefcase"
    else if group == "payment" then "zap"
    else if group == "obligation" then "home"
    else if group == "spending" then "shopping-cart"
    else if group == "asset" then "piggy-bank"
    else "circle"
  }

  /** The P2P primary has the `social` group, for which no icon is defined. */
  lemma SocialGroupHasDefaultIcon()
    ensures IconName(PrimarySpecs[5].group) == "circle"
  {
  }

  // ---------------------------------------------------------------------------
  // Interaction state
  // ---------------------------------------------------------------------------

  /** A simulation node: the graph datum plus the position the force engine assigns
      and the optional pinned position. */
  class SimNode {
    const datum: Node
    var x: real
    var y: real
    var fx: Option<real>
    var fy: Option<real>

    constructor (datum: Node, x: real, y: real)
      ensures this.datum == datum && this.x == x && this.y == y && fx == None && fy == None
    {
      this.datum := datum;
      this.x := x;
      this.y := y;
      fx := None;
      fy := None;
    }
  }

  /** The copy `{ ...d, x, y }` taken when the pointer enters a node. */
  datatype HoverSnapshot = HoverSnapshot(node: Node, x: real, y: real)

  /** The copy `{ ...d, x: clientX, y: clientY }` taken when the pointer enters a link. */
  datatype EdgeHover = EdgeHover(link: Link, x: real, y: real)

  class MeshView {
    /** `selectedNode`: the live simulation object, so later drags show through it. */
    var selected: SimNode?
    var hoveredNode: Option<HoverSnapshot>
    var hoveredEdge: Option<EdgeHover>

    constructor ()
      ensures selected == null && hoveredNode == None && hoveredEdge == None
    {
      selected := null;
      hoveredNode := None;
      hoveredEdge := None;
    }

    /** The node tooltip: a node with metrics is hovered and nothing is selected. */
    predicate NodeTooltipShown()
      reads this
    {
      hoveredNode.Some? && hoveredNode.value.node.hasMetrics && selected == null
    }

    /** The edge tooltip: a link is hovered and nothing is selected. */
    predicate EdgeTooltipShown()
      reads this
    {
      hoveredEdge.Some? && selected == null
    }

    /** The side panel is open exactly while a node is selected. */
    predicate SidePanelShown()
      reads this
    {
      selected != null
    }

    /** Drag start pins the node where it is and selects it. */
    method DragStart(d: SimNode)
      modifies this, d
      ensures d.fx == Some(old(d.x)) && d.fy == Some(old(d.y))
      ensures d.x == old(d.x) && d.y == old(d.y)
      ensures selected == d && hoveredNode == old(hoveredNode) && hoveredEdge == old(hoveredEdge)
      ensures !NodeTooltipShown() && !EdgeTooltipShown() && SidePanelShown()
    {
      d.fx := Some(d.x);
      d.fy := Some(d.y);
      selected := d;
    }

    /** Dragging moves the pin to the pointer. */
    method Dragged(d: SimNode, ex: real, ey: real)
      modifies d
      ensures d.fx == Some(ex) && d.fy == Some(ey)
      ensures d.x == old(d.x) && d.y == old(d.y)
    {
      d.fx := Some(ex);
      d.fy := Some(ey);
    }

    /** Drag end releases the pin; the selection stays. */
    method DragEnd(d: SimNode)
      modifies d
      ensures d.fx == None && d.fy == None
      ensures d.x == old(d.x) && d.y == old(d.y)
    {
      d.fx := None;
      d.fy := None;
    }

    /** A click on a node selects it (and does not reach the background). */
    method NodeClick(d: SimNode)
      modifies this
      ensures selected == d && hoveredNode == old(hoveredNode) && hoveredEdge == old(hoveredEdge)
      ensures !NodeTooltipShown() && !EdgeTooltipShown()
    {
      selected := d;
    }

    /** A click on the background, or on the panel's close button, clears the selection. */
    method ClearSelection()
      modifies this
      ensures selected == null && hoveredNode == old(hoveredNode) && hoveredEdge == old(hoveredEdge)
      ensures NodeTooltipShown() <==> hoveredNode.Some? && hoveredNode.value.node.hasMetrics
      ensures EdgeTooltipShown() <==> hoveredEdge.Some?
    {
      selected := null;
    }

    /** The pointer enters a node: a snapshot of the datum and its position. */
    method NodeEnter(d: SimNode)
      modifies this
      ensures hoveredNode == Some(HoverSnapshot(d.datum, d.x, d.y))
      ensures selected == old(selected) && hoveredEdge == old(hoveredEdge)
      ensures NodeTooltipShown() <==> d.datum.hasMetrics && selected == null
    {
      hoveredNode := Some(HoverSnapshot(d.datum, d.x, d.y));
    }

    method NodeLeave()
      modifies this
      ensures hoveredNode == None && selected == old(selected) && hoveredEdge == old(hoveredEdge)
      ensures !NodeTooltipShown()
    {
      hoveredNode := None;
    }

    /** The pointer enters a link, at client position (cx, cy). */
    method EdgeEnter(l: Link, cx: real, cy: real)
      modifies this
      ensures hoveredEdge == Some(EdgeHover(l, cx, cy))
      ensures selected == old(selected) && hoveredNode == old(hoveredNode)
      ensures EdgeTooltipShown() <==> selected == null
    {
      hoveredEdge := Some(EdgeHover(l, cx, cy));
    }

    method EdgeLeave()
      modifies this
      ensures hoveredEdge == None && selected == old(selected) && hoveredNode == old(hoveredNode)
      ensures !EdgeTooltipShown()
    {
      hoveredEdge := None;
    }
  }

  /** Only the hub and the primaries carry metrics, so hovering a leaf never shows the
      node tooltip. */
  lemma TooltipNodes(ds: seq<Draw>)
    requires |ds| == |PrimarySpecs|
    ensures forall k :: 0 <= k < |GraphNodes()| ==> (GraphNodes()[k].hasMetrics <==> k < 7)
  {
    LeafParents();
    var ns := GraphNodes();
    forall k | 0 <= k < 7 ensures ns[k].hasMetrics {
      if k > 0 {
        assert ns[k] == PrimaryNode(PrimarySpecs[k - 1]);
      }
    }
  }
}
