/** The graph the risk model is trained on: the node table, the id and cluster
    numberings, the edge list, the adjacency and label arrays built from them, the
    degree normalisation and the stratified train/test split. */
module GraphPrep {

  /** One row of the node table: id, display text and cluster name. */
  datatype NodeDef = NodeDef(id: string, text: string, cluster: string)

  type Edge = (string, string)

  const UserId: string := "user"

  const Nodes: seq<NodeDef> := [
    NodeDef("user", "USER_CORE", "user"),
    NodeDef("income_gig", "GIG_PLATFORM", "income"),
    NodeDef("income_employer", "EMPLOYER_NODE", "income"),
    NodeDef("income_salary", "SALARY_SOURCE", "income"),
    NodeDef("income_freelance", "FREELANCE_CLIENT", "income"),
    NodeDef("income_recurring", "RECURRING_INCOME_SOURCE", "income"),
    NodeDef("obl_landlord", "LANDLORD_NODE", "obligation"),
    NodeDef("obl_utility", "UTILITY_PROVIDER", "obligation"),
    NodeDef("obl_emi", "EMI_PROVIDER", "obligation"),
    NodeDef("obl_insurance", "INSURANCE_PROVIDER", "obligation"),
    NodeDef("obl_subs", "SUBSCRIPTION_PROVIDER", "obligation"),
    NodeDef("spend_grocery", "GROCERY_MERCHANT", "spending"),
    NodeDef("spend_ecom", "E_COMMERCE", "spending"),
    NodeDef("spend_fuel", "FUEL_STATION", "spending"),
    NodeDef("spend_disc", "DISCRETIONARY_SPENDING", "spending"),
    NodeDef("spend_highvol", "HIGH_VOLATILITY_MERCHANT", "spending"),
    NodeDef("save_account", "SAVINGS_ACCOUNT", "savings"),
    NodeDef("save_rd", "RECURRING_DEPOSIT", "savings"),
    NodeDef("save_micro", "MICRO_INVESTMENT", "savings"),
    NodeDef("save_gold", "GOLD_SAVINGS", "savings"),
    NodeDef("save_emergency", "EMERGENCY_FUND", "savings"),
    NodeDef("peer_in", "P2P_TRANSFER_IN", "peer"),
    NodeDef("peer_out", "P2P_TRANSFER_OUT", "peer"),
    NodeDef("peer_family", "FAMILY_SUPPORT_NODE", "peer"),
    NodeDef("peer_loan_from", "LOAN_FROM_PEER", "peer"),
    NodeDef("peer_loan_to", "LOAN_TO_PEER", "peer")
  ]

  // ---------------------------------------------------------------------------
  // Numbering by position
  // ---------------------------------------------------------------------------

  /** The node ids, in table order. */
  function Ids(nodes: seq<NodeDef>): (r: seq<string>)
    ensures |r| == |nodes| && forall i :: 0 <= i < |nodes| ==> r[i] == nodes[i].id
  {
    seq(|nodes|, i requires 0 <= i < |nodes| => nodes[i].id)
  }

  predicate Distinct(xs: seq<string>)
  {
    forall a, b :: 0 <= a < b < |xs| ==> xs[a] != xs[b]
  }

  /** `{x: i for i, x in enumerate(xs)}`: each element to its position, a later
      position replacing an earlier one for a repeated element. */
  function IndexOf(xs: seq<string>): (m: map<string, int>)
    ensures forall x :: x in m <==> x in xs
    ensures forall x :: x in m ==> 0 <= m[x] < |xs| && xs[m[x]] == x
    ensures forall x, j :: x in m && m[x] < j < |xs| ==> xs[j] != x
  {
    if |xs| == 0 then map[]
    else
      var n := |xs| - 1;
      IndexOf(xs[..n])[xs[n] := n]
  }

  /** `id_to_idx`. */
  function IdToIdx(nodes: seq<NodeDef>): map<string, int>
  {
    IndexOf(Ids(nodes))
  }

  /** Positional numbering is one-to-one and onto the positions exactly when the
      elements are distinct. */
  lemma IndexOfBijective(xs: seq<string>)
    ensures Distinct(xs) <==> forall i :: 0 <= i < |xs| ==> IndexOf(xs)[xs[i]] == i
    ensures forall x, y :: x in IndexOf(xs) && y in IndexOf(xs) && IndexOf(xs)[x] == IndexOf(xs)[y] ==> x == y
  {
    var m := IndexOf(xs);
    if Distinct(xs) {
      forall i | 0 <= i < |xs|
        ensures m[xs[i]] == i
      {
        var k := m[xs[i]];
        assert xs[k] == xs[i];
      }
    }
  }

  lemma NodeIdsDistinctFrom0()
    ensures forall a, b :: 0 <= a < 4 && a < b < 26 ==> Nodes[a].id != Nodes[b].id
  {
    forall a, b | 0 <= a < 4 && a < b < 26
      ensures Nodes[a].id != Nodes[b].id
    {
      assert a == 0 || a == 1 || a == 2 || a == 3;
      assert b == 1 || b == 2 || b == 3 || b == 4 || b == 5 || b == 6 || b == 7 || b == 8 || b == 9 || b == 10 || b == 11 || b == 12 || b == 13 || b == 14 || b == 15 || b == 16 || b == 17 || b == 18 || b == 19 || b == 20 || b == 21 || b == 22 || b == 23 || b == 24 || b == 25;
    }
  }

  lemma NodeIdsDistinctFrom4()
    ensures forall a, b :: 4 <= a < 8 && a < b < 26 ==> Nodes[a].id != Nodes[b].id
  {
    forall a, b | 4 <= a < 8 && a < b < 26
      ensures Nodes[a].id != Nodes[b].id
    {
      assert a == 4 || a == 5 || a == 6 || a == 7;
      assert b == 5 || b == 6 || b == 7 || b == 8 || b == 9 || b == 10 || b == 11 || b == 12 || b == 13 || b == 14 || b == 15 || b == 16 || b == 17 || b == 18 || b == 19 || b == 20 || b == 21 || b == 22 || b == 23 || b == 24 || b == 25;
    }
  }

  lemma NodeIdsDistinctFrom8()
    ensures forall a, b :: 8 <= a < 13 && a < b < 26 ==> Nodes[a].id != Nodes[b].id
  {
    forall a, b | 8 <= a < 13 && a < b < 26
      ensures Nodes[a].id != Nodes[b].id
    {
      assert a == 8 || a == 9 || a == 10 || a == 11 || a == 12;
      assert b == 9 || b == 10 || b == 11 || b == 12 || b == 13 || b == 14 || b == 15 || b == 16 || b == 17 || b == 18 || b == 19 || b == 20 || b == 21 || b == 22 || b == 23 || b == 24 || b == 25;
    }
  }

  lemma NodeIdsDistinctFrom13()
    ensures forall a, b :: 13 <= a < 25 && a < b < 26 ==> Nodes[a].id != Nodes[b].id
  {
    forall a, b | 13 <= a < 25 && a < b < 26
      ensures Nodes[a].id != Nodes[b].id
    {
      assert a == 13 || a == 14 || a == 15 || a == 16 || a == 17 || a == 18 || a == 19 || a == 20 || a == 21 || a == 22 || a == 23 || a == 24;
      assert b == 14 || b == 15 || b == 16 || b == 17 || b == 18 || b == 19 || b == 20 || b == 21 || b == 22 || b == 23 || b == 24 || b == 25;
    }
  }

  /** The node ids are pairwise distinct. */
  lemma NodeIdsDistinct()
    ensures |Nodes| == 26
    ensures Distinct(Ids(Nodes))
  {
    NodeIdsDistinctFrom0();
    NodeIdsDistinctFrom4();
    NodeIdsDistinctFrom8();
    NodeIdsDistinctFrom13();
  }

  // ---------------------------------------------------------------------------
  // Cluster names and labels
  // ---------------------------------------------------------------------------

  /** Python's `<` on strings: lexicographic order by code point. */
  predicate Below(a: string, b: string)
    decreases |a|
  {
    if |a| == 0 then |b| > 0
    else if |b| == 0 then false
    else if a[0] != b[0] then a[0] < b[0]
    else Below(a[1..], b[1..])
  }

  lemma {:induction false} BelowIrreflexive(a: string)
    ensures !Below(a, a)
    decreases |a|
  {
    if |a| > 0 {
      BelowIrreflexive(a[1..]);
    }
  }

  lemma {:induction false} BelowTransitive(a: string, b: string, c: string)
    requires Below(a, b) && Below(b, c)
    ensures Below(a, c)
    decreases |a|
  {
    if |a| > 0 && a[0] == b[0] && b[0] == c[0] {
      BelowTransitive(a[1..], b[1..], c[1..]);
    }
  }

  lemma {:induction false} BelowTotal(a: string, b: string)
    requires a != b
    ensures Below(a, b) || Below(b, a)
    decreases |a|
  {
    if |a| > 0 && |b| > 0 && a[0] == b[0] {
      assert a == [a[0]] + a[1..] && b == [b[0]] + b[1..];
      BelowTotal(a[1..], b[1..]);
    }
  }

  lemma BelowAsymmetric(a: string, b: string)
    requires Below(a, b)
    ensures !Below(b, a)
  {
    if Below(b, a) {
      BelowTransitive(a, b, a);
      BelowIrreflexive(a);
    }
  }

  predicate StrictlySorted(xs: seq<string>)
  {
    forall a, b :: 0 <= a < b < |xs| ==> Below(xs[a], xs[b])
  }

  /** Adds `x` to a sorted list of distinct names, keeping it sorted and distinct. */
  function InsertName(x: string, xs: seq<string>): seq<string>
  {
    if |xs| == 0 then [x]
    else if x == xs[0] then xs
    else if Below(x, xs[0]) then [x] + xs
    else [xs[0]] + InsertName(x, xs[1..])
  }

  lemma {:induction false} InsertNameSorted(x: string, xs: seq<string>)
    requires StrictlySorted(xs)
    ensures StrictlySorted(InsertName(x, xs))
    ensures forall s :: s in InsertName(x, xs) <==> s == x || s in xs
  {
    if |xs| == 0 {
    } else if x == xs[0] {
    } else if Below(x, xs[0]) {
      var r := [x] + xs;
      forall a, b | 0 <= a < b < |r|
        ensures Below(r[a], r[b])
      {
        if a == 0 && b > 1 {
          BelowTransitive(x, xs[0], xs[b - 1]);
        }
      }
    } else {
      BelowTotal(x, xs[0]);
      var t := InsertName(x, xs[1..]);
      InsertNameSorted(x, xs[1..]);
      var r := [xs[0]] + t;
      forall a, b | 0 <= a < b < |r|
        ensures Below(r[a], r[b])
      {
        if a == 0 {
          assert r[b] == t[b - 1] && r[b] in t;
          if r[b] != x {
            var c :| 0 <= c < |xs| - 1 && xs[1..][c] == r[b];
            assert xs[c + 1] == r[b];
          }
        } else {
          assert r[a] == t[a - 1] && r[b] == t[b - 1];
        }
      }
      assert forall s :: s in xs <==> s == xs[0] || s in xs[1..] by {
        assert xs == [xs[0]] + xs[1..];
      }
    }
  }

  /** The cluster names that occur in a node table. */
  function ClusterSet(nodes: seq<NodeDef>): set<string>
  {
    set k | 0 <= k < |nodes| :: nodes[k].cluster
  }

  /** `cluster_names = list(sorted({c for (_, _, c) in NODES}))`, built by inserting
      the clusters one at a time into a sorted list of distinct names. */
  function ClusterNames(nodes: seq<NodeDef>): seq<string>
  {
    if |nodes| == 0 then []
    else
      var n := |nodes| - 1;
      InsertName(nodes[n].cluster, ClusterNames(nodes[..n]))
  }

  lemma {:induction false} ClusterNamesSorted(nodes: seq<NodeDef>)
    ensures StrictlySorted(ClusterNames(nodes))
    ensures forall s :: s in ClusterNames(nodes) <==> s in ClusterSet(nodes)
  {
    if |nodes| > 0 {
      var n := |nodes| - 1;
      ClusterNamesSorted(nodes[..n]);
      InsertNameSorted(nodes[n].cluster, ClusterNames(nodes[..n]));
      assert ClusterSet(nodes) == ClusterSet(nodes[..n]) + {nodes[n].cluster} by {
        forall s | s in ClusterSet(nodes)
          ensures s in ClusterSet(nodes[..n]) + {nodes[n].cluster}
        {
          var k :| 0 <= k < |nodes| && nodes[k].cluster == s;
          if k < n {
            assert nodes[..n][k] == nodes[k];
          }
        }
        forall s | s in ClusterSet(nodes[..n])
          ensures s in ClusterSet(nodes)
        {
          var k :| 0 <= k < n && nodes[..n][k].cluster == s;
          assert nodes[k] == nodes[..n][k];
        }
      }
    }
  }

  /** A sorted list of distinct names is determined by its elements: whatever order
      the clusters are met in, the result is the one `sorted` gives. */
  lemma {:induction false} SortedUnique(a: seq<string>, b: seq<string>)
    requires StrictlySorted(a) && StrictlySorted(b)
    requires forall s :: s in a <==> s in b
    ensures a == b
  {
    if |b| > 0 {
      assert b[0] in b;
    }
    if |a| == 0 {
    } else {
      assert a[0] in b;
      assert |b| > 0;
      if a[0] != b[0] {
        assert b[0] in b;
        var j :| 0 <= j < |b| && b[j] == a[0];
        var i :| 0 <= i < |a| && a[i] == b[0];
        assert Below(b[0], a[0]);
        assert Below(a[0], b[0]);
        BelowAsymmetric(a[0], b[0]);
      }
      forall s
        ensures s in a[1..] <==> s in b[1..]
      {
        if s in a[1..] {
          var i :| 1 <= i < |a| && a[i] == s;
          assert Below(a[0], s);
          BelowIrreflexive(s);
          assert s in b;
          assert b == [b[0]] + b[1..];
        }
        if s in b[1..] {
          var i :| 1 <= i < |b| && b[i] == s;
          assert Below(b[0], s);
          BelowIrreflexive(s);
          assert s in a;
          assert a == [a[0]] + a[1..];
        }
      }
      SortedUnique(a[1..], b[1..]);
      assert a == [a[0]] + a[1..] && b == [b[0]] + b[1..];
    }
  }

  /** `cluster_to_label`. */
  function ClusterToLabel(nodes: seq<NodeDef>): map<string, int>
  {
    IndexOf(ClusterNames(nodes))
  }

  /** The labels number the distinct clusters 0..k-1 in sorted name order. */
  lemma ClusterLabelsOrdered(nodes: seq<NodeDef>)
    ensures forall c :: c in ClusterToLabel(nodes) <==> c in ClusterSet(nodes)
    ensures forall k :: 0 <= k < |ClusterNames(nodes)| ==> ClusterToLabel(nodes)[ClusterNames(nodes)[k]] == k
    ensures forall c :: c in ClusterToLabel(nodes) ==>
      0 <= ClusterToLabel(nodes)[c] < |ClusterNames(nodes)| && ClusterNames(nodes)[ClusterToLabel(nodes)[c]] == c
    ensures forall c, d :: c in ClusterToLabel(nodes) && d in ClusterToLabel(nodes) ==>
      (Below(c, d) <==> ClusterToLabel(nodes)[c] < ClusterToLabel(nodes)[d])
  {
    var names := ClusterNames(nodes);
    var m := ClusterToLabel(nodes);
    ClusterNamesSorted(nodes);
    forall a, b | 0 <= a < b < |names|
      ensures names[a] != names[b]
    {
      if names[a] == names[b] {
        BelowIrreflexive(names[a]);
      }
    }
    IndexOfBijective(names);
    forall c, d | c in m && d in m
      ensures Below(c, d) <==> m[c] < m[d]
    {
      if m[c] == m[d] {
        BelowIrreflexive(c);
      } else if m[d] < m[c] {
        assert Below(d, c);
        BelowAsymmetric(d, c);
      }
    }
  }

  const ClusterList: seq<string> := ["income", "obligation", "peer", "savings", "spending", "user"]

  lemma ClusterListSorted()
    ensures StrictlySorted(ClusterList)
  {
    forall a, b | 0 <= a < b < |ClusterList|
      ensures Below(ClusterList[a], ClusterList[b])
    {
      assert a == 0 || a == 1 || a == 2 || a == 3 || a == 4;
      assert b == 1 || b == 2 || b == 3 || b == 4 || b == 5;
    }
  }

  lemma ClusterSetWithin()
    ensures forall s :: s in ClusterSet(Nodes) ==> s in ClusterList
  {
    forall s | s in ClusterSet(Nodes)
      ensures s in ClusterList
    {
      var k :| 0 <= k < |Nodes| && Nodes[k].cluster == s;
      assert Nodes[k] in Nodes;
    }
  }

  lemma ClusterSetValue()
    ensures forall s :: s in ClusterSet(Nodes) <==> s in ClusterList
  {
    ClusterSetWithin();
    assert Nodes[0].cluster == "user" && Nodes[1].cluster == "income" && Nodes[6].cluster == "obligation";
    assert Nodes[11].cluster == "spending" && Nodes[16].cluster == "savings" && Nodes[21].cluster == "peer";
  }

  /** The six cluster names, in order. */
  lemma ClusterNamesValue()
    ensures ClusterNames(Nodes) == ClusterList
  {
    ClusterNamesSorted(Nodes);
    ClusterListSorted();
    ClusterSetValue();
    SortedUnique(ClusterNames(Nodes), ClusterList);
  }

  /** The concrete numbering: income 0, obligation 1, peer 2, savings 3,
      spending 4 and user 5. */
  lemma ClusterLabelsValue()
    ensures forall c :: c in ClusterToLabel(Nodes) <==> c in ClusterList
    ensures forall k :: 0 <= k < |ClusterList| ==> ClusterToLabel(Nodes)[ClusterList[k]] == k
    ensures ClusterToLabel(Nodes)[Nodes[0].cluster] == 5
  {
    ClusterNamesValue();
    ClusterSetValue();
    ClusterLabelsOrdered(Nodes);
    assert Nodes[0].cluster == ClusterList[5];
  }

  // ---------------------------------------------------------------------------
  // Edges and the adjacency matrix
  // ---------------------------------------------------------------------------

  /** `[("user", nid) for nid, _, _ in NODES if nid != "user"]`. */
  function HubEdges(nodes: seq<NodeDef>): (r: seq<Edge>)
    ensures forall e :: e in r ==> e.0 == UserId && e.1 != UserId && e.1 in Ids(nodes)
    ensures forall k :: 0 <= k < |nodes| && nodes[k].id != UserId ==> (UserId, nodes[k].id) in r
  {
    if |nodes| == 0 then []
    else
      var n := |nodes| - 1;
      var r0 := HubEdges(nodes[..n]);
      assert forall k :: 0 <= k < n ==> Ids(nodes[..n])[k] == Ids(nodes)[k];
      r0 + (if nodes[n].id != UserId then [(UserId, nodes[n].id)] else [])
  }

  /** The chains inside each cluster, then the four cross-cluster edges. */
  const ChainEdges: seq<Edge> := [
    ("income_gig", "income_employer"), ("income_employer", "income_salary"),
    ("income_salary", "income_freelance"), ("income_freelance", "income_recurring"),
    ("obl_landlord", "obl_utility"), ("obl_utility", "obl_emi"), ("obl_emi", "obl_insurance"), ("obl_insurance", "obl_subs"),
    ("spend_grocery", "spend_ecom"), ("spend_ecom", "spend_fuel"), ("spend_fuel", "spend_disc"), ("spend_disc", "spend_highvol"),
    ("save_account", "save_rd"), ("save_rd", "save_micro"), ("save_micro", "save_gold"), ("save_gold", "save_emergency"),
    ("peer_in", "peer_out"), ("peer_out", "peer_family"), ("peer_family", "peer_loan_from"), ("peer_loan_from", "peer_loan_to"),
    ("income_salary", "save_account"), ("income_salary", "spend_grocery"), ("spend_ecom", "peer_out"), ("obl_emi", "save_rd")
  ]

  /** `EDGES`. */
  const Edges: seq<Edge> := HubEdges(Nodes) + ChainEdges

  /** The user node is joined to every other node. */
  lemma EdgesIncludeHub()
    ensures forall k :: 0 < k < |Nodes| ==> (UserId, Nodes[k].id) in Edges
  {
    NodeIdsDistinct();
    forall k | 0 < k < |Nodes|
      ensures (UserId, Nodes[k].id) in Edges
    {
      assert Nodes[k].id != Nodes[0].id;
      assert (UserId, Nodes[k].id) in HubEdges(Nodes);
    }
  }

  /** Some node carries the id `x`. */
  predicate HasId(nodes: seq<NodeDef>, x: string)
  {
    exists i :: 0 <= i < |nodes| && nodes[i].id == x
  }

  lemma HasIdInIds(nodes: seq<NodeDef>)
    ensures forall x :: HasId(nodes, x) <==> x in Ids(nodes)
  {
    forall x | x in Ids(nodes)
      ensures HasId(nodes, x)
    {
      var i :| 0 <= i < |nodes| && Ids(nodes)[i] == x;
    }
  }

  /** Every endpoint named in `edges` is a node id. */
  predicate Resolves(nodes: seq<NodeDef>, edges: seq<Edge>)
  {
    forall k :: 0 <= k < |edges| ==> HasId(nodes, edges[k].0) && HasId(nodes, edges[k].1)
  }

  /** No edge joins a node to itself. */
  predicate Loopless(edges: seq<Edge>)
  {
    forall k :: 0 <= k < |edges| ==> edges[k].0 != edges[k].1
  }

  lemma ChainEdgesResolveFrom0()
    ensures forall k :: 0 <= k < 4 ==>
      HasId(Nodes, ChainEdges[k].0) && HasId(Nodes, ChainEdges[k].1) && ChainEdges[k].0 != ChainEdges[k].1
  {
    assert Nodes[1].id == "income_gig" && Nodes[2].id == "income_employer" && Nodes[3].id == "income_salary" && Nodes[4].id == "income_freelance" && Nodes[5].id == "income_recurring";
    forall k | 0 <= k < 4
      ensures HasId(Nodes, ChainEdges[k].0) && HasId(Nodes, ChainEdges[k].1) && ChainEdges[k].0 != ChainEdges[k].1
    {
      assert k == 0 || k == 1 || k == 2 || k == 3;
    }
  }

  lemma ChainEdgesResolveFrom4()
    ensures forall k :: 4 <= k < 8 ==>
      HasId(Nodes, ChainEdges[k].0) && HasId(Nodes, ChainEdges[k].1) && ChainEdges[k].0 != ChainEdges[k].1
  {
    assert Nodes[6].id == "obl_landlord" && Nodes[7].id == "obl_utility" && Nodes[8].id == "obl_emi" && Nodes[9].id == "obl_insurance" && Nodes[10].id == "obl_subs";
    forall k | 4 <= k < 8
      ensures HasId(Nodes, ChainEdges[k].0) && HasId(Nodes, ChainEdges[k].1) && ChainEdges[k].0 != ChainEdges[k].1
    {
      assert k == 4 || k == 5 || k == 6 || k == 7;
    }
  }

  lemma ChainEdgesResolveFrom8()
    ensures forall k :: 8 <= k < 12 ==>
      HasId(Nodes, ChainEdges[k].0) && HasId(Nodes, ChainEdges[k].1) && ChainEdges[k].0 != ChainEdges[k].1
  {
    assert Nodes[11].id == "spend_grocery" && Nodes[12].id == "spend_ecom" && Nodes[13].id == "spend_fuel" && Nodes[14].id == "spend_disc" && Nodes[15].id == "spend_highvol";
    forall k | 8 <= k < 12
      ensures HasId(Nodes, ChainEdges[k].0) && HasId(Nodes, ChainEdges[k].1) && ChainEdges[k].0 != ChainEdges[k].1
    {
      assert k == 8 || k == 9 || k == 10 || k == 11;
    }
  }

  lemma ChainEdgesResolveFrom12()
    ensures forall k :: 12 <= k < 16 ==>
      HasId(Nodes, ChainEdges[k].0) && HasId(Nodes, ChainEdges[k].1) && ChainEdges[k].0 != ChainEdges[k].1
  {
    assert Nodes[16].id == "save_account" && Nodes[17].id == "save_rd" && Nodes[18].id == "save_micro" && Nodes[19].id == "save_gold" && Nodes[20].id == "save_emergency";
    forall k | 12 <= k < 16
      ensures HasId(Nodes, ChainEdges[k].0) && HasId(Nodes, ChainEdges[k].1) && ChainEdges[k].0 != ChainEdges[k].1
    {
      assert k == 12 || k == 13 || k == 14 || k == 15;
    }
  }

  lemma ChainEdgesResolveFrom16()
    ensures forall k :: 16 <= k < 20 ==>
      HasId(Nodes, ChainEdges[k].0) && HasId(Nodes, ChainEdges[k].1) && ChainEdges[k].0 != ChainEdges[k].1
  {
    assert Nodes[21].id == "peer_in" && Nodes[22].id == "peer_out" && Nodes[23].id == "peer_family" && Nodes[24].id == "peer_loan_from" && Nodes[25].id == "peer_loan_to";
    forall k | 16 <= k < 20
      ensures HasId(Nodes, ChainEdges[k].0) && HasId(Nodes, ChainEdges[k].1) && ChainEdges[k].0 != ChainEdges[k].1
    {
      assert k == 16 || k == 17 || k == 18 || k == 19;
    }
  }

  lemma ChainEdgesResolveFrom20()
    ensures forall k :: 20 <= k < 24 ==>
      HasId(Nodes, ChainEdges[k].0) && HasId(Nodes, ChainEdges[k].1) && ChainEdges[k].0 != ChainEdges[k].1
  {
    assert Nodes[3].id == "income_salary" && Nodes[8].id == "obl_emi" && Nodes[11].id == "spend_grocery" && Nodes[12].id == "spend_ecom" && Nodes[16].id == "save_account" && Nodes[17].id == "save_rd" && Nodes[22].id == "peer_out";
    forall k | 20 <= k < 24
      ensures HasId(Nodes, ChainEdges[k].0) && HasId(Nodes, ChainEdges[k].1) && ChainEdges[k].0 != ChainEdges[k].1
    {
      assert k == 20 || k == 21 || k == 22 || k == 23;
    }
  }

  /** Every endpoint of the hub edges and of the listed edges is a node id (so no
      `KeyError` is raised), and no edge is a self-loop. */
  lemma EdgesWellFormed()
    ensures Resolves(Nodes, Edges) && Loopless(Edges)
  {
    ChainEdgesResolveFrom0();
    ChainEdgesResolveFrom4();
    ChainEdgesResolveFrom8();
    ChainEdgesResolveFrom12();
    ChainEdgesResolveFrom16();
    ChainEdgesResolveFrom20();
    assert Nodes[0].id == UserId;
    HubPlusResolves(Nodes, ChainEdges);
  }

  lemma HubPlusResolves(nodes: seq<NodeDef>, chain: seq<Edge>)
    requires HasId(nodes, UserId)
    requires Resolves(nodes, chain) && Loopless(chain)
    ensures Resolves(nodes, HubEdges(nodes) + chain) && Loopless(HubEdges(nodes) + chain)
  {
    var hub := HubEdges(nodes);
    var es := hub + chain;
    HasIdInIds(nodes);
    forall k | 0 <= k < |es|
      ensures HasId(nodes, es[k].0) && HasId(nodes, es[k].1) && es[k].0 != es[k].1
    {
      if k < |hub| {
        assert es[k] in hub;
      } else {
        assert es[k] == chain[k - |hub|];
      }
    }
  }

  /** `(id_to_idx[s], id_to_idx[t])` for each edge. */
  function Positions(edges: seq<Edge>, m: map<string, int>): (r: seq<(int, int)>)
    requires forall k :: 0 <= k < |edges| ==> edges[k].0 in m && edges[k].1 in m
    ensures |r| == |edges|
  {
    seq(|edges|, k requires 0 <= k < |edges| => (m[edges[k].0], m[edges[k].1]))
  }

  /** Some edge joins positions `i` and `j`, in either direction. */
  ghost predicate Linked(ps: seq<(int, int)>, i: int, j: int)
  {
    exists k :: 0 <= k < |ps| && (ps[k] == (i, j) || ps[k] == (j, i))
  }

  lemma LinkedSnoc(ps: seq<(int, int)>, k: int, i: int, j: int)
    requires 0 <= k < |ps|
    ensures Linked(ps[..k + 1], i, j) <==> Linked(ps[..k], i, j) || ps[k] == (i, j) || ps[k] == (j, i)
  {
    if Linked(ps[..k + 1], i, j) {
      var e :| 0 <= e < k + 1 && (ps[..k + 1][e] == (i, j) || ps[..k + 1][e] == (j, i));
      if e < k {
        assert ps[..k][e] == ps[..k + 1][e];
      }
    }
    if Linked(ps[..k], i, j) {
      var e :| 0 <= e < k && (ps[..k][e] == (i, j) || ps[..k][e] == (j, i));
      assert ps[..k + 1][e] == ps[..k][e];
    }
    if ps[k] == (i, j) || ps[k] == (j, i) {
      assert ps[..k + 1][k] == ps[k];
    }
  }

  /** The loop that builds `A`: a zero matrix, then both `A[i, j]` and `A[j, i]`
      set to 1 for every edge, given as a pair of positions. */
  method FillAdjacency(n: nat, ps: seq<(int, int)>) returns (a: array2<real>)
    requires forall k :: 0 <= k < |ps| ==> 0 <= ps[k].0 < n && 0 <= ps[k].1 < n
    ensures a.Length0 == n && a.Length1 == n
    ensures forall i, j :: 0 <= i < n && 0 <= j < n ==> a[i, j] == (if Linked(ps, i, j) then 1.0 else 0.0)
  {
    a := new real[n, n]((i, j) => 0.0);
    for k := 0 to |ps|
      invariant a.Length0 == n && a.Length1 == n
      invariant forall i, j :: 0 <= i < n && 0 <= j < n ==> a[i, j] == (if Linked(ps[..k], i, j) then 1.0 else 0.0)
    {
      var p := ps[k].0;
      var q := ps[k].1;
      a[p, q] := 1.0;
      a[q, p] := 1.0;
      forall i, j | 0 <= i < n && 0 <= j < n
        ensures Linked(ps[..k + 1], i, j) <==> Linked(ps[..k], i, j) || ps[k] == (i, j) || ps[k] == (j, i)
      {
        LinkedSnoc(ps, k, i, j);
      }
    }
    assert ps[..|ps|] == ps;
  }

  /** `A` for the node table and edge list: each edge's ids looked up in
      `id_to_idx`, then the matrix filled. */
  method BuildAdjacency(nodes: seq<NodeDef>, edges: seq<Edge>) returns (a: array2<real>)
    requires Resolves(nodes, edges)
    ensures a.Length0 == |nodes| && a.Length1 == |nodes|
    ensures forall i, j :: 0 <= i < |nodes| && 0 <= j < |nodes| ==>
      a[i, j] == (if Linked(Positions(edges, IdToIdx(nodes)), i, j) then 1.0 else 0.0)
  {
    HasIdInIds(nodes);
    var ps := Positions(edges, IdToIdx(nodes));
    a := FillAdjacency(|nodes|, ps);
  }

  /** The adjacency is symmetric, and with loopless edges its diagonal is zero. */
  lemma LinkedShape(nodes: seq<NodeDef>, edges: seq<Edge>)
    requires Resolves(nodes, edges)
    ensures forall i, j :: Linked(Positions(edges, IdToIdx(nodes)), i, j) <==> Linked(Positions(edges, IdToIdx(nodes)), j, i)
    ensures Loopless(edges) ==> forall i :: !Linked(Positions(edges, IdToIdx(nodes)), i, i)
  {
    var m := IdToIdx(nodes);
    var ps := Positions(edges, m);
    if Loopless(edges) {
      IndexOfBijective(Ids(nodes));
      forall k | 0 <= k < |ps|
        ensures ps[k].0 != ps[k].1
      {
        assert edges[k].0 != edges[k].1;
      }
    }
  }

  /** An edge named by ids joins the positions of those ids. */
  lemma EdgeLinks(nodes: seq<NodeDef>, edges: seq<Edge>, i: int, j: int)
    requires Resolves(nodes, edges) && Distinct(Ids(nodes))
    requires 0 <= i < |nodes| && 0 <= j < |nodes|
    requires (nodes[i].id, nodes[j].id) in edges
    ensures Linked(Positions(edges, IdToIdx(nodes)), i, j)
  {
    IndexOfBijective(Ids(nodes));
    var k :| 0 <= k < |edges| && edges[k] == (nodes[i].id, nodes[j].id);
    assert Ids(nodes)[i] == nodes[i].id && Ids(nodes)[j] == nodes[j].id;
    assert Positions(edges, IdToIdx(nodes))[k] == (i, j);
  }

  /** Conversely, positions that are linked hold the ids of some edge, in one
      direction or the other: `A` has no entry that no edge put there. */
  lemma {:induction false} LinkedEdge(nodes: seq<NodeDef>, edges: seq<Edge>, i: int, j: int)
    requires Resolves(nodes, edges)
    requires 0 <= i < |nodes| && 0 <= j < |nodes|
    requires Linked(Positions(edges, IdToIdx(nodes)), i, j)
    ensures (nodes[i].id, nodes[j].id) in edges || (nodes[j].id, nodes[i].id) in edges
  {
    HasIdInIds(nodes);
    var m := IdToIdx(nodes);
    var ps := Positions(edges, m);
    var ids := Ids(nodes);
    var k :| 0 <= k < |ps| && (ps[k] == (i, j) || ps[k] == (j, i));
    var s, t := edges[k].0, edges[k].1;
    assert s in m && t in m;
    assert ps[k] == (m[s], m[t]);
    assert ids[m[s]] == s && ids[m[t]] == t;
    if ps[k] == (i, j) {
      assert edges[k] == (nodes[i].id, nodes[j].id);
    } else {
      assert edges[k] == (nodes[j].id, nodes[i].id);
    }
  }

  // ---------------------------------------------------------------------------
  // Degree normalisation
  // ---------------------------------------------------------------------------

  /** Entry `(i, j)` of `A + I`. */
  function AHat(a: array2<real>, i: int, j: int): real
    requires 0 <= i < a.Length0 && 0 <= j < a.Length1
    reads a
  {
    a[i, j] + (if i == j then 1.0 else 0.0)
  }

  /** The sum of the first `n` entries of row `i` of `A + I`. */
  function RowSum(a: array2<real>, i: int, n: int): real
    requires 0 <= i < a.Length0 && 0 <= n <= a.Length1
    reads a
  {
    if n == 0 then 0.0 else RowSum(a, i, n - 1) + AHat(a, i, n - 1)
  }

  /** `D = np.sum(A_hat, axis=1)`, entry `i`. */
  function Degree(a: array2<real>, i: int): real
    requires 0 <= i < a.Length0
    reads a
  {
    RowSum(a, i, a.Length1)
  }

  lemma {:induction false} RowSumBound(a: array2<real>, i: int, n: int)
    requires 0 <= i < a.Length0 && 0 <= n <= a.Length1
    requires forall p, q :: 0 <= p < a.Length0 && 0 <= q < a.Length1 ==> a[p, q] >= 0.0
    ensures RowSum(a, i, n) >= (if i < n then 1.0 else 0.0)
  {
    if n > 0 {
      RowSumBound(a, i, n - 1);
    }
  }

  /** Over a square matrix with non-negative entries every degree of `A + I` is at
      least 1, so `D ** -0.5` is finite and the `isinf` guard never applies. */
  lemma DegreeAtLeastOne(a: array2<real>, i: int)
    requires a.Length0 == a.Length1 && 0 <= i < a.Length0
    requires forall p, q :: 0 <= p < a.Length0 && 0 <= q < a.Length1 ==> a[p, q] >= 0.0
    ensures Degree(a, i) >= 1.0
  {
    RowSumBound(a, i, a.Length1);
  }

  // ---------------------------------------------------------------------------
  // Labels
  // ---------------------------------------------------------------------------

  /** Each node's cluster has a label, and that label names the cluster. */
  lemma LabelOfNode(nodes: seq<NodeDef>, i: int)
    requires 0 <= i < |nodes|
    ensures nodes[i].cluster in ClusterToLabel(nodes)
    ensures 0 <= ClusterToLabel(nodes)[nodes[i].cluster] < |ClusterNames(nodes)|
    ensures ClusterNames(nodes)[ClusterToLabel(nodes)[nodes[i].cluster]] == nodes[i].cluster
  {
    ClusterNamesSorted(nodes);
    assert nodes[i].cluster in ClusterSet(nodes);
  }

  /** Fills `Y`: each node's entry is the label `labelOf` gives its cluster. */
  method BuildLabels(nodes: seq<NodeDef>, labelOf: map<string, int>) returns (y: array<int>)
    requires forall i :: 0 <= i < |nodes| ==> nodes[i].cluster in labelOf
    ensures y.Length == |nodes|
    ensures forall i :: 0 <= i < |nodes| ==> y[i] == labelOf[nodes[i].cluster]
  {
    y := new int[|nodes|];
    for idx := 0 to |nodes|
      invariant forall i :: 0 <= i < idx ==> y[i] == labelOf[nodes[i].cluster]
    {
      y[idx] := labelOf[nodes[idx].cluster];
    }
  }

  // ---------------------------------------------------------------------------
  // Stratified train/test split
  // ---------------------------------------------------------------------------

  predicate Increasing(xs: seq<int>)
  {
    forall a, b :: 0 <= a < b < |xs| ==> xs[a] < xs[b]
  }

  /** Adds `x` to an increasing list, keeping it increasing. */
  function InsertLabel(x: int, xs: seq<int>): (r: seq<int>)
    requires Increasing(xs)
    ensures Increasing(r)
    ensures forall v :: v in r <==> v == x || v in xs
  {
    if |xs| == 0 then [x]
    else if x == xs[0] then xs
    else if x < xs[0] then [x] + xs
    else
      var t := InsertLabel(x, xs[1..]);
      assert forall k :: 0 <= k < |t| ==> t[k] in t;
      assert forall v :: v in xs[1..] ==> xs[0] < v;
      [xs[0]] + t
  }

  /** `np.unique(Y)`: the distinct labels, ascending. */
  function Unique(y: seq<int>): (r: seq<int>)
    ensures Increasing(r)
    ensures forall v :: v in r <==> v in y
  {
    if |y| == 0 then []
    else
      var n := |y| - 1;
      assert forall v :: v in y <==> v in y[..n] || v == y[n] by {
        assert y == y[..n] + [y[n]];
      }
      InsertLabel(y[n], Unique(y[..n]))
  }

  /** `np.where(Y == v)[0]`: the positions holding `v`, ascending. */
  function Where(y: seq<int>, v: int): (r: seq<int>)
    ensures forall i :: i in r <==> 0 <= i < |y| && y[i] == v
  {
    if |y| == 0 then []
    else
      var n := |y| - 1;
      assert forall i :: 0 <= i < n ==> y[..n][i] == y[i];
      Where(y[..n], v) + (if y[n] == v then [n] else [])
  }

  /** `split = max(1, int(0.6 * len(idxs)))`, with `0.6 * n` taken exactly. */
  function SplitPoint(n: nat): nat
  {
    if 6 * n / 10 < 1 then 1 else 6 * n / 10
  }

  /** The slice bound `idxs[:split]` actually uses: Python clamps it to the length. */
  function Cut(p: seq<int>): nat
  {
    if SplitPoint(|p|) <= |p| then SplitPoint(|p|) else |p|
  }

  /** The train part: for each label in turn, the first `split` shuffled positions. */
  function TrainPart(ps: seq<seq<int>>): seq<int>
  {
    if |ps| == 0 then []
    else
      var l := |ps| - 1;
      TrainPart(ps[..l]) + ps[l][..Cut(ps[l])]
  }

  /** The test part: for each label in turn, the shuffled positions after `split`. */
  function TestPart(ps: seq<seq<int>>): seq<int>
  {
    if |ps| == 0 then []
    else
      var l := |ps| - 1;
      TestPart(ps[..l]) + ps[l][Cut(ps[l])..]
  }

  /** The lists one after another. */
  function Flat(ps: seq<seq<int>>): seq<int>
  {
    if |ps| == 0 then [] else Flat(ps[..|ps| - 1]) + ps[|ps| - 1]
  }

  /** The positions of each label in `ls`, label after label. */
  function WhereAll(y: seq<int>, ls: seq<int>): seq<int>
  {
    if |ls| == 0 then [] else WhereAll(y, ls[..|ls| - 1]) + Where(y, ls[|ls| - 1])
  }

  /** The positions 0..n-1. */
  function Indices(n: nat): seq<int>
  {
    if n == 0 then [] else Indices(n - 1) + [n - 1]
  }

  /** What `random.shuffle` guarantees: each list is a permutation of the positions
      of its label. */
  predicate Shuffles(y: seq<int>, shuffled: seq<seq<int>>)
  {
    |shuffled| == |Unique(y)| &&
    forall l :: 0 <= l < |shuffled| ==> multiset(shuffled[l]) == multiset(Where(y, Unique(y)[l]))
  }

  lemma {:induction false} SplitKeepsAll(ps: seq<seq<int>>)
    ensures multiset(TrainPart(ps) + TestPart(ps)) == multiset(Flat(ps))
  {
    if |ps| > 0 {
      var l := |ps| - 1;
      SplitKeepsAll(ps[..l]);
      var p := ps[l];
      assert p[..Cut(p)] + p[Cut(p)..] == p;
      assert multiset(p[..Cut(p)]) + multiset(p[Cut(p)..]) == multiset(p);
    }
  }

  lemma {:induction false} FlatShuffled(y: seq<int>, ps: seq<seq<int>>, ls: seq<int>)
    requires |ps| == |ls|
    requires forall l :: 0 <= l < |ps| ==> multiset(ps[l]) == multiset(Where(y, ls[l]))
    ensures multiset(Flat(ps)) == multiset(WhereAll(y, ls))
  {
    if |ps| > 0 {
      var l := |ps| - 1;
      FlatShuffled(y, ps[..l], ls[..l]);
    }
  }

  lemma {:induction false} WhereCount(y: seq<int>, v: int, i: int)
    ensures multiset(Where(y, v))[i] == if 0 <= i < |y| && y[i] == v then 1 else 0
  {
    if |y| > 0 {
      var n := |y| - 1;
      WhereCount(y[..n], v, i);
      if i == n {
        assert n !in Where(y[..n], v);
      }
    }
  }

  lemma IncreasingLast(ls: seq<int>)
    requires Increasing(ls) && |ls| > 0
    ensures ls[|ls| - 1] !in ls[..|ls| - 1]
    ensures forall v :: v in ls <==> v in ls[..|ls| - 1] || v == ls[|ls| - 1]
  {
    assert ls == ls[..|ls| - 1] + [ls[|ls| - 1]];
  }

  lemma {:induction false} WhereAllCount(y: seq<int>, ls: seq<int>, i: int)
    requires Increasing(ls)
    ensures multiset(WhereAll(y, ls))[i] == if 0 <= i < |y| && y[i] in ls then 1 else 0
  {
    if |ls| > 0 {
      var l := |ls| - 1;
      var pre := ls[..l];
      WhereAllCount(y, pre, i);
      WhereCount(y, ls[l], i);
      IncreasingLast(ls);
    }
  }

  lemma {:induction false} IndicesCount(n: nat, i: int)
    ensures multiset(Indices(n))[i] == if 0 <= i < n then 1 else 0
  {
    if n > 0 {
      IndicesCount(n - 1, i);
      if i == n - 1 {
        IndicesBelow(n - 1);
        assert n - 1 !in Indices(n - 1);
      }
    }
  }

  lemma {:induction false} IndicesBelow(n: nat)
    ensures forall k :: k in Indices(n) ==> 0 <= k < n
  {
    if n > 0 {
      IndicesBelow(n - 1);
    }
  }

  /** The train list followed by the test list is a permutation of all positions:
      the two are disjoint, neither repeats a position, and together they cover
      every node. */
  lemma SplitPartitions(y: seq<int>, shuffled: seq<seq<int>>)
    requires Shuffles(y, shuffled)
    ensures multiset(TrainPart(shuffled) + TestPart(shuffled)) == multiset(Indices(|y|))
  {
    var ls := Unique(y);
    SplitKeepsAll(shuffled);
    FlatShuffled(y, shuffled, ls);
    forall i
      ensures multiset(WhereAll(y, ls))[i] == multiset(Indices(|y|))[i]
    {
      WhereAllCount(y, ls, i);
      IndicesCount(|y|, i);
      if 0 <= i < |y| {
        assert y[i] in y;
      }
    }
    assert multiset(WhereAll(y, ls)) == multiset(Indices(|y|));
  }

  lemma {:induction false} TrainPartHas(ps: seq<seq<int>>, l: int, x: int)
    requires 0 <= l < |ps| && x in ps[l][..Cut(ps[l])]
    ensures x in TrainPart(ps)
  {
    var last := |ps| - 1;
    if l < last {
      assert ps[..last][l] == ps[l];
      TrainPartHas(ps[..last], l, x);
    }
  }

  /** One label's share: its shuffled list is as long as its position list, so it
      is not empty and the first `split` entries are training positions of that
      label. */
  lemma LabelShare(y: seq<int>, shuffled: seq<seq<int>>, l: int)
    requires Shuffles(y, shuffled) && 0 <= l < |shuffled|
    ensures Cut(shuffled[l]) == SplitPoint(|Where(y, Unique(y)[l])|) && 1 <= Cut(shuffled[l])
    ensures shuffled[l][0] in TrainPart(shuffled)
    ensures 0 <= shuffled[l][0] < |y| && y[shuffled[l][0]] == Unique(y)[l]
  {
    var v := Unique(y)[l];
    var w := Where(y, v);
    var p := shuffled[l];
    assert v in y;
    var i :| 0 <= i < |y| && y[i] == v;
    assert i in w;
    PermutationShape(p, w);
    assert p[0] in p[..Cut(p)];
    TrainPartHas(shuffled, l, p[0]);
  }

  lemma PermutationShape(p: seq<int>, w: seq<int>)
    requires multiset(p) == multiset(w) && |w| > 0
    ensures |p| == |w| && p[0] in w
  {
    assert |multiset(p)| == |p| && |multiset(w)| == |w|;
    assert p[0] in multiset(p);
  }

  /** Each label keeps `max(1, floor(0.6 n))` of its `n` positions for training, so
      every label that occurs has at least one training position. */
  lemma SplitCoversLabels(y: seq<int>, shuffled: seq<seq<int>>)
    requires Shuffles(y, shuffled)
    ensures forall l :: 0 <= l < |shuffled| ==>
      Cut(shuffled[l]) == SplitPoint(|Where(y, Unique(y)[l])|) && 1 <= Cut(shuffled[l])
    ensures forall v :: v in y ==> exists i :: i in TrainPart(shuffled) && 0 <= i < |y| && y[i] == v
  {
    var ls := Unique(y);
    forall l | 0 <= l < |shuffled|
      ensures Cut(shuffled[l]) == SplitPoint(|Where(y, ls[l])|) && 1 <= Cut(shuffled[l])
    {
      LabelShare(y, shuffled, l);
    }
    forall v | v in y
      ensures exists i :: i in TrainPart(shuffled) && 0 <= i < |y| && y[i] == v
    {
      var l :| 0 <= l < |ls| && ls[l] == v;
      LabelShare(y, shuffled, l);
    }
  }

  /** The split loop: labels in ascending order, each one's shuffled positions
      divided at `split`. */
  method StratifiedSplit(y: seq<int>, shuffled: seq<seq<int>>) returns (train: seq<int>, test: seq<int>)
    requires Shuffles(y, shuffled)
    ensures train == TrainPart(shuffled) && test == TestPart(shuffled)
    ensures multiset(train + test) == multiset(Indices(|y|))
    ensures forall v :: v in y ==> exists i :: i in train && 0 <= i < |y| && y[i] == v
  {
    train := [];
    test := [];
    for l := 0 to |shuffled|
      invariant train == TrainPart(shuffled[..l]) && test == TestPart(shuffled[..l])
    {
      var idxs := shuffled[l];
      var split := SplitPoint(|idxs|);
      var cut := if split <= |idxs| then split else |idxs|;
      assert shuffled[..l + 1][..l] == shuffled[..l];
      train := train + idxs[..cut];
      test := test + idxs[cut..];
    }
    assert shuffled[..|shuffled|] == shuffled;
    SplitPartitions(y, shuffled);
    SplitCoversLabels(y, shuffled);
  }

  // ---------------------------------------------------------------------------
  // The prepared graph
  // ---------------------------------------------------------------------------

  /** The module-level preparation for any node table and edge list: the
      adjacency `A` and the labels `Y`. */
  method Prepare(nodes: seq<NodeDef>, edges: seq<Edge>) returns (a: array2<real>, y: array<int>)
    requires Distinct(Ids(nodes)) && Resolves(nodes, edges) && Loopless(edges)
    ensures a.Length0 == |nodes| && a.Length1 == |nodes| && y.Length == |nodes|
    ensures forall i, j :: 0 <= i < |nodes| && 0 <= j < |nodes| ==>
      a[i, j] == a[j, i] && (a[i, j] == 0.0 || a[i, j] == 1.0)
    ensures forall i :: 0 <= i < |nodes| ==> a[i, i] == 0.0
    ensures forall i, j :: 0 <= i < |nodes| && 0 <= j < |nodes| && (nodes[i].id, nodes[j].id) in edges ==> a[i, j] == 1.0
    ensures forall i, j :: 0 <= i < |nodes| && 0 <= j < |nodes| && a[i, j] == 1.0 ==>
      (nodes[i].id, nodes[j].id) in edges || (nodes[j].id, nodes[i].id) in edges
    ensures forall i :: 0 <= i < |nodes| ==> Degree(a, i) >= 1.0
    ensures forall i :: 0 <= i < |nodes| ==>
      nodes[i].cluster in ClusterToLabel(nodes) && y[i] == ClusterToLabel(nodes)[nodes[i].cluster]
    ensures forall i :: 0 <= i < |nodes| ==>
      0 <= y[i] < |ClusterNames(nodes)| && ClusterNames(nodes)[y[i]] == nodes[i].cluster
  {
    LinkedShape(nodes, edges);
    a := BuildAdjacency(nodes, edges);
    forall i, j | 0 <= i < |nodes| && 0 <= j < |nodes| && (nodes[i].id, nodes[j].id) in edges
      ensures a[i, j] == 1.0
    {
      EdgeLinks(nodes, edges, i, j);
    }
    forall i, j | 0 <= i < |nodes| && 0 <= j < |nodes| && a[i, j] == 1.0
      ensures (nodes[i].id, nodes[j].id) in edges || (nodes[j].id, nodes[i].id) in edges
    {
      LinkedEdge(nodes, edges, i, j);
    }
    forall i | 0 <= i < |nodes|
      ensures Degree(a, i) >= 1.0
    {
      DegreeAtLeastOne(a, i);
    }
    forall i | 0 <= i < |nodes|
      ensures nodes[i].cluster in ClusterToLabel(nodes)
      ensures 0 <= ClusterToLabel(nodes)[nodes[i].cluster] < |ClusterNames(nodes)|
      ensures ClusterNames(nodes)[ClusterToLabel(nodes)[nodes[i].cluster]] == nodes[i].cluster
    {
      LabelOfNode(nodes, i);
    }
    y := BuildLabels(nodes, ClusterToLabel(nodes));
  }

  /** The 26-node graph: the user row of `A` is all ones off the diagonal, and the
      user node has label 5. */
  method PrepareGraph() returns (a: array2<real>, y: array<int>)
    ensures a.Length0 == 26 && a.Length1 == 26 && y.Length == 26
    ensures forall i, j :: 0 <= i < 26 && 0 <= j < 26 ==> a[i, j] == a[j, i] && (a[i, j] == 0.0 || a[i, j] == 1.0)
    ensures forall i :: 0 <= i < 26 ==> a[i, i] == 0.0
    ensures forall j :: 0 < j < 26 ==> a[0, j] == 1.0
    ensures forall i, j :: 0 <= i < 26 && 0 <= j < 26 ==>
      (a[i, j] == 1.0 <==> (Nodes[i].id, Nodes[j].id) in Edges || (Nodes[j].id, Nodes[i].id) in Edges)
    ensures forall i :: 0 <= i < 26 ==> Degree(a, i) >= 1.0
    ensures forall i :: 0 <= i < 26 ==> 0 <= y[i] < 6 && ClusterList[y[i]] == Nodes[i].cluster
    ensures y[0] == 5
  {
    NodeIdsDistinct();
    EdgesWellFormed();
    EdgesIncludeHub();
    ClusterNamesValue();
    assert Nodes[0].id == UserId;
    a, y := Prepare(Nodes, Edges);
    ClusterLabelsValue();
  }
}
