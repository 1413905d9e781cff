/** What the ad-spend hierarchy builder guarantees: every key path is present
    exactly when some row is filed under it, each node's spend is the sum over
    the rows filed under its path, names are unique per level, campaigns come
    in order of first appearance, and in exact arithmetic the three
    independently accumulated levels agree. */
module SpendTreeProps {
  import opened SpendTree

  /** The spend of the node reached along `path`, 0 when there is none. */
  function SpendAt(nodes: seq<SpendNode>, path: seq<string>): real
    decreases |path|
  {
    if path == [] then 0.0
    else
      var i := IndexOf(nodes, path[0]);
      if i == |nodes| then 0.0
      else if |path| == 1 then nodes[i].spend
      else SpendAt(nodes[i].children, path[1..])
  }

  /** Whether a node is reached along `path`. */
  predicate Has(nodes: seq<SpendNode>, path: seq<string>)
    decreases |path|
  {
    if path == [] then true
    else
      var i := IndexOf(nodes, path[0]);
      if i == |nodes| then false
      else if |path| == 1 then true
      else Has(nodes[i].children, path[1..])
  }

  /** Sum of the spend of the rows whose key path starts with `path`. */
  function SumWhere(rows: seq<InsightRow>, path: seq<string>): real
    decreases |rows|
  {
    if rows == [] then 0.0
    else
      var last := rows[|rows| - 1];
      SumWhere(rows[..|rows| - 1], path) + (if path <= RowPath(last) then RowSpend(last) else 0.0)
  }

  lemma PrefixCons(p: seq<string>, q: seq<string>)
    requires p != [] && q != [] && p[0] == q[0]
    ensures (p <= q) == (p[1..] <= q[1..])
  {
    if p <= q {
      assert p[1..] == q[1..][..|p| - 1];
    }
    if p[1..] <= q[1..] {
      assert p == [q[0]] + p[1..];
      assert q[..|p|] == [q[0]] + q[1..][..|p| - 1];
    }
  }

  lemma {:induction false} UpsertSpendAt(nodes: seq<SpendNode>, q: seq<string>, a: real, p: seq<string>)
    requires p != []
    ensures SpendAt(Upsert(nodes, q, a), p) == SpendAt(nodes, p) + (if p <= q then a else 0.0)
    decreases |q|
  {
    if q != [] {
      var i := IndexOf(nodes, q[0]);
      var base := if i < |nodes| then nodes else nodes + [SpendNode(q[0], 0.0, [])];
      var node' := SpendNode(q[0], base[i].spend + a, Upsert(base[i].children, q[1..], a));
      var r := Upsert(nodes, q, a);
      assert r == base[i := node'];
      if p[0] == q[0] {
        IndexOfUnique(r, p[0], i);
        PrefixCons(p, q);
        if |p| > 1 {
          UpsertSpendAt(base[i].children, q[1..], a, p[1..]);
          if i == |nodes| {
            assert IndexOf([], p[1..][0]) == 0;
          }
        }
      } else {
        var k := IndexOf(nodes, p[0]);
        if k < |nodes| {
          IndexOfUnique(r, p[0], k);
        } else {
          IndexOfUnique(r, p[0], |r|);
        }
        assert !(p <= q);
      }
    }
  }

  lemma {:induction false} UpsertHas(nodes: seq<SpendNode>, q: seq<string>, a: real, p: seq<string>)
    requires p != []
    ensures Has(Upsert(nodes, q, a), p) == (Has(nodes, p) || p <= q)
    decreases |q|
  {
    if q != [] {
      var i := IndexOf(nodes, q[0]);
      var base := if i < |nodes| then nodes else nodes + [SpendNode(q[0], 0.0, [])];
      var node' := SpendNode(q[0], base[i].spend + a, Upsert(base[i].children, q[1..], a));
      var r := Upsert(nodes, q, a);
      assert r == base[i := node'];
      if p[0] == q[0] {
        IndexOfUnique(r, p[0], i);
        PrefixCons(p, q);
        if |p| > 1 {
          UpsertHas(base[i].children, q[1..], a, p[1..]);
          if i == |nodes| {
            assert IndexOf([], p[1..][0]) == 0;
          }
        }
      } else {
        var k := IndexOf(nodes, p[0]);
        if k < |nodes| {
          IndexOfUnique(r, p[0], k);
        } else {
          IndexOfUnique(r, p[0], |r|);
        }
        assert !(p <= q);
      }
    }
  }

  /** Campaign, adset and ad spend (paths of length 1, 2 and 3) each equal
      the sum over the rows filed under that path, although each level
      accumulates on its own. */
  lemma {:induction false} BuildSpendAt(rows: seq<InsightRow>, p: seq<string>)
    requires p != []
    ensures SpendAt(Build(rows), p) == SumWhere(rows, p)
    decreases |rows|
  {
    if rows == [] {
      assert IndexOf([], p[0]) == 0;
    } else {
      var init, last := rows[..|rows| - 1], rows[|rows| - 1];
      BuildSpendAt(init, p);
      UpsertSpendAt(Build(init), RowPath(last), RowSpend(last), p);
    }
  }

  /** A node exists along `p` exactly when some row is filed under `p`. */
  lemma {:induction false} BuildHas(rows: seq<InsightRow>, p: seq<string>)
    requires p != []
    ensures Has(Build(rows), p) <==> exists i :: 0 <= i < |rows| && p <= RowPath(rows[i])
    decreases |rows|
  {
    if rows == [] {
      assert IndexOf([], p[0]) == 0;
    } else {
      var init, last := rows[..|rows| - 1], rows[|rows| - 1];
      BuildHas(init, p);
      UpsertHas(Build(init), RowPath(last), RowSpend(last), p);
      if exists i :: 0 <= i < |rows| && p <= RowPath(rows[i]) {
        var i :| 0 <= i < |rows| && p <= RowPath(rows[i]);
        if i < |rows| - 1 {
          assert init[i] == rows[i];
        }
      }
      if exists i :: 0 <= i < |init| && p <= RowPath(init[i]) {
        var i :| 0 <= i < |init| && p <= RowPath(init[i]);
        assert rows[i] == init[i];
      }
    }
  }

  /** A row whose names are missing is filed under the sentinel names. */
  lemma SentinelNames(rows: seq<InsightRow>, i: nat)
    requires i < |rows|
    ensures rows[i].campaignName == "" ==> Has(Build(rows), [UnknownCampaign])
    ensures rows[i].adsetName == "" ==> Has(Build(rows), [CampaignKey(rows[i]), UnknownAdset])
    ensures rows[i].adName == "" ==> Has(Build(rows), [CampaignKey(rows[i]), AdsetKey(rows[i]), UnknownAd])
  {
    var path := RowPath(rows[i]);
    BuildHas(rows, path[..1]);
    BuildHas(rows, path[..2]);
    BuildHas(rows, path);
    assert path[..1] <= path && path[..2] <= path;
  }

  // ---------------------------------------------------------------------
  // Unique names per level

  /** No two siblings share a name, at every level. */
  predicate Unique(nodes: seq<SpendNode>)
    decreases nodes
  {
    && (forall i, j :: 0 <= i < j < |nodes| ==> nodes[i].name != nodes[j].name)
    && (forall i :: 0 <= i < |nodes| ==> Unique(nodes[i].children))
  }

  lemma {:induction false} UpsertUnique(nodes: seq<SpendNode>, q: seq<string>, a: real)
    requires Unique(nodes)
    ensures Unique(Upsert(nodes, q, a))
    decreases |q|
  {
    if q != [] {
      var i := IndexOf(nodes, q[0]);
      var base := if i < |nodes| then nodes else nodes + [SpendNode(q[0], 0.0, [])];
      var node' := SpendNode(q[0], base[i].spend + a, Upsert(base[i].children, q[1..], a));
      var r := Upsert(nodes, q, a);
      assert r == base[i := node'];
      assert Unique(base[i].children);
      UpsertUnique(base[i].children, q[1..], a);
      forall k | 0 <= k < |r| ensures Unique(r[k].children) {
        if k != i { assert r[k] == nodes[k]; }
      }
    }
  }

  /** Campaign names are unique, adset names unique within a campaign and ad
      names unique within an adset. */
  lemma {:induction false} BuildUnique(rows: seq<InsightRow>)
    ensures Unique(Build(rows))
    decreases |rows|
  {
    if rows != [] {
      var init, last := rows[..|rows| - 1], rows[|rows| - 1];
      BuildUnique(init);
      UpsertUnique(Build(init), RowPath(last), RowSpend(last));
    }
  }

  // ---------------------------------------------------------------------
  // Order of first appearance

  /** The distinct keys in order of first appearance. */
  function Dedup(keys: seq<string>): (r: seq<string>)
    ensures forall i, j :: 0 <= i < j < |r| ==> r[i] != r[j]
    ensures forall x :: x in r <==> x in keys
    decreases |keys|
  {
    if keys == [] then []
    else
      var d := Dedup(keys[..|keys| - 1]);
      var x := keys[|keys| - 1];
      assert forall y :: y in keys <==> y in keys[..|keys| - 1] || y == x;
      if x in d then d else d + [x]
  }

  function CampaignKeys(rows: seq<InsightRow>): (r: seq<string>)
    ensures |r| == |rows|
  {
    seq(|rows|, i requires 0 <= i < |rows| => CampaignKey(rows[i]))
  }

  lemma UpsertNames(nodes: seq<SpendNode>, q: seq<string>, a: real)
    requires q != []
    ensures Names(Upsert(nodes, q, a)) == if q[0] in Names(nodes) then Names(nodes) else Names(nodes) + [q[0]]
  {
    var i := IndexOf(nodes, q[0]);
    if q[0] in Names(nodes) {
      var k :| 0 <= k < |nodes| && Names(nodes)[k] == q[0];
      assert i <= k;
    }
  }

  /** The campaigns are the distinct campaign keys, in order of first
      appearance. */
  lemma {:induction false} BuildNames(rows: seq<InsightRow>)
    ensures Names(Build(rows)) == Dedup(CampaignKeys(rows))
    decreases |rows|
  {
    if rows != [] {
      var init, last := rows[..|rows| - 1], rows[|rows| - 1];
      var keys := CampaignKeys(rows);
      BuildNames(init);
      assert Build(rows) == Upsert(Build(init), RowPath(last), RowSpend(last));
      UpsertNames(Build(init), RowPath(last), RowSpend(last));
      assert keys[..|rows| - 1] == CampaignKeys(init);
      assert keys[|rows| - 1] == RowPath(last)[0];
      var d := Dedup(CampaignKeys(init));
      assert Dedup(keys) == if RowPath(last)[0] in d then d else d + [RowPath(last)[0]];
    }
  }

  // ---------------------------------------------------------------------
  // Agreement between levels

  /** The sum of the spend of `nodes`. */
  function Total(nodes: seq<SpendNode>): real
    decreases |nodes|
  {
    if nodes == [] then 0.0 else Total(nodes[..|nodes| - 1]) + nodes[|nodes| - 1].spend
  }

  lemma {:induction false} TotalUpdate(s: seq<SpendNode>, j: nat, x: SpendNode)
    requires j < |s|
    ensures Total(s[j := x]) == Total(s) - s[j].spend + x.spend
    decreases |s|
  {
    var t := s[j := x];
    if j < |s| - 1 {
      TotalUpdate(s[..|s| - 1], j, x);
      assert t[..|t| - 1] == s[..|s| - 1][j := x];
    } else {
      assert t[..|t| - 1] == s[..|s| - 1];
    }
  }

  /** Tree of the given depth in which every inner node's spend equals the
      sum of its children's spend and the bottom level has no children. */
  predicate Coherent(nodes: seq<SpendNode>, depth: nat)
    decreases depth
  {
    forall i :: 0 <= i < |nodes| ==>
      if depth <= 1 then nodes[i].children == []
      else nodes[i].spend == Total(nodes[i].children) && Coherent(nodes[i].children, depth - 1)
  }

  lemma UpsertTotal(nodes: seq<SpendNode>, q: seq<string>, a: real)
    requires q != []
    ensures Total(Upsert(nodes, q, a)) == Total(nodes) + a
  {
    var i := IndexOf(nodes, q[0]);
    var base := if i < |nodes| then nodes else nodes + [SpendNode(q[0], 0.0, [])];
    var node' := SpendNode(q[0], base[i].spend + a, Upsert(base[i].children, q[1..], a));
    assert Upsert(nodes, q, a) == base[i := node'];
    if i == |nodes| {
      TotalAppendEmpty(nodes, q[0]);
    }
    TotalUpdate(base, i, node');
  }

  lemma TotalAppendEmpty(nodes: seq<SpendNode>, key: string)
    ensures Total(nodes + [SpendNode(key, 0.0, [])]) == Total(nodes)
  {
    var base := nodes + [SpendNode(key, 0.0, [])];
    assert base[..|base| - 1] == nodes;
  }

  lemma {:induction false} UpsertCoherent(nodes: seq<SpendNode>, q: seq<string>, a: real)
    requires q != [] && Coherent(nodes, |q|)
    ensures Coherent(Upsert(nodes, q, a), |q|)
    decreases |q|
  {
    var i := IndexOf(nodes, q[0]);
    var base := if i < |nodes| then nodes else nodes + [SpendNode(q[0], 0.0, [])];
    var node' := SpendNode(q[0], base[i].spend + a, Upsert(base[i].children, q[1..], a));
    var r := Upsert(nodes, q, a);
    assert r == base[i := node'];
    forall k | 0 <= k < |r|
      ensures if |q| <= 1 then r[k].children == []
              else r[k].spend == Total(r[k].children) && Coherent(r[k].children, |q| - 1)
    {
      if k != i {
        assert r[k] == nodes[k];
      } else if |q| > 1 {
        if i < |nodes| {
          assert Coherent(nodes[i].children, |q| - 1);
        } else {
          assert base[i].children == [];
        }
        UpsertCoherent(base[i].children, q[1..], a);
        UpsertTotal(base[i].children, q[1..], a);
      } else {
        assert node'.children == base[i].children;
        if i < |nodes| {
          assert nodes[i].children == [];
        }
      }
    }
  }

  /** Campaign spend equals the sum of its adsets' spend, adset spend the sum
      of its ads' spend, and ads have no children. */
  lemma {:induction false} BuildCoherent(rows: seq<InsightRow>)
    ensures Coherent(Build(rows), 3)
    decreases |rows|
  {
    if rows != [] {
      var init, last := rows[..|rows| - 1], rows[|rows| - 1];
      BuildCoherent(init);
      UpsertCoherent(Build(init), RowPath(last), RowSpend(last));
    }
  }

  /** Total campaign spend equals total row spend. */
  lemma {:induction false} BuildTotal(rows: seq<InsightRow>)
    ensures Total(Build(rows)) == SumWhere(rows, [])
    decreases |rows|
  {
    if rows != [] {
      var init, last := rows[..|rows| - 1], rows[|rows| - 1];
      BuildTotal(init);
      UpsertTotal(Build(init), RowPath(last), RowSpend(last));
    }
  }

  // ---------------------------------------------------------------------
  // Every row lands on exactly one ad

  /** Number of nodes `depth - 1` levels below `nodes` (the ads, for depth 3). */
  function AdCount(nodes: seq<SpendNode>, depth: nat): nat
    decreases depth, |nodes|
  {
    if nodes == [] then 0
    else
      var last := nodes[|nodes| - 1];
      AdCount(nodes[..|nodes| - 1], depth) + (if depth <= 1 then 1 else AdCount(last.children, depth - 1))
  }

  function Contribution(n: SpendNode, depth: nat): nat
  {
    if depth <= 1 then 1 else AdCount(n.children, depth - 1)
  }

  lemma {:induction false} AdCountUpdate(s: seq<SpendNode>, j: nat, x: SpendNode, depth: nat)
    requires j < |s|
    ensures AdCount(s[j := x], depth) == AdCount(s, depth) - Contribution(s[j], depth) + Contribution(x, depth)
    decreases |s|
  {
    var t := s[j := x];
    if j < |s| - 1 {
      AdCountUpdate(s[..|s| - 1], j, x, depth);
      assert t[..|t| - 1] == s[..|s| - 1][j := x];
    } else {
      assert t[..|t| - 1] == s[..|s| - 1];
    }
  }

  lemma {:induction false} UpsertAdCount(nodes: seq<SpendNode>, q: seq<string>, a: real)
    requires q != []
    ensures AdCount(Upsert(nodes, q, a), |q|) <= AdCount(nodes, |q|) + 1
    decreases |q|
  {
    var i := IndexOf(nodes, q[0]);
    var base := if i < |nodes| then nodes else nodes + [SpendNode(q[0], 0.0, [])];
    var node' := SpendNode(q[0], base[i].spend + a, Upsert(base[i].children, q[1..], a));
    assert Upsert(nodes, q, a) == base[i := node'];
    if i == |nodes| {
      AdCountAppendEmpty(nodes, q[0], |q|);
    }
    AdCountUpdate(base, i, node', |q|);
    if |q| > 1 {
      UpsertAdCount(base[i].children, q[1..], a);
      assert Contribution(node', |q|) <= Contribution(base[i], |q|) + 1;
    } else {
      assert Contribution(node', |q|) == Contribution(base[i], |q|);
    }
  }

  /** A freshly created node holds one ad at the bottom level and none
      above it. */
  lemma AdCountAppendEmpty(nodes: seq<SpendNode>, key: string, depth: nat)
    ensures AdCount(nodes + [SpendNode(key, 0.0, [])], depth) == AdCount(nodes, depth) + (if depth <= 1 then 1 else 0)
    ensures Contribution(SpendNode(key, 0.0, []), depth) == (if depth <= 1 then 1 else 0)
  {
    var base := nodes + [SpendNode(key, 0.0, [])];
    assert base[..|base| - 1] == nodes;
  }

  /** The number of ads is at most the number of rows. */
  lemma {:induction false} BuildAdCount(rows: seq<InsightRow>)
    ensures AdCount(Build(rows), 3) <= |rows|
    decreases |rows|
  {
    if rows != [] {
      var init, last := rows[..|rows| - 1], rows[|rows| - 1];
      BuildAdCount(init);
      UpsertAdCount(Build(init), RowPath(last), RowSpend(last));
    }
  }
}
