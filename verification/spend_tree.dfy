/** The ad-spend hierarchy builder: flat ad-level insight rows grouped into
    campaign -> adset -> ad, with spend accumulated separately at each level.

    A JavaScript object keyed by name, whose keys enumerate in insertion
    order, is modelled as a sequence of nodes with distinct names; looking a
    key up is finding the first node with that name. */
module SpendTree {
  import opened Basics

  /** One ad-level insight row. An empty name stands for a missing or empty
      field; `spend` is the already-parsed amount, `None` when absent. */
  datatype InsightRow = InsightRow(campaignName: string, adsetName: string, adName: string, spend: Option<real>)

  /** A node of the spend tree. The children of a campaign are its adsets,
      the children of an adset its ads; an ad has no children. */
  datatype SpendNode = SpendNode(name: string, spend: real, children: seq<SpendNode>)

  const UnknownCampaign: string := "Unknown Campaign"
  const UnknownAdset: string := "Unknown Adset"
  const UnknownAd: string := "Unknown Ad"

  function CampaignKey(row: InsightRow): string { OrStr(row.campaignName, UnknownCampaign) }
  function AdsetKey(row: InsightRow): string { OrStr(row.adsetName, UnknownAdset) }
  function AdKey(row: InsightRow): string { OrStr(row.adName, UnknownAd) }

  /** `parseFloat(row.spend || 0)`. */
  function RowSpend(row: InsightRow): real { row.spend.GetOr(0.0) }

  /** The three keys a row is filed under. */
  function RowPath(row: InsightRow): (p: seq<string>)
    ensures |p| == 3
    ensures row.campaignName == "" ==> p[0] == UnknownCampaign
    ensures row.adsetName == "" ==> p[1] == UnknownAdset
    ensures row.adName == "" ==> p[2] == UnknownAd
    ensures row.campaignName != "" ==> p[0] == row.campaignName
    ensures row.adsetName != "" ==> p[1] == row.adsetName
    ensures row.adName != "" ==> p[2] == row.adName
  {
    [CampaignKey(row), AdsetKey(row), AdKey(row)]
  }

  function Names(nodes: seq<SpendNode>): (r: seq<string>)
    ensures |r| == |nodes|
    ensures forall i :: 0 <= i < |nodes| ==> r[i] == nodes[i].name
  {
    seq(|nodes|, i requires 0 <= i < |nodes| => nodes[i].name)
  }

  /** The position of the node called `name`, or `|nodes|` when there is none. */
  function IndexOf(nodes: seq<SpendNode>, name: string): (i: nat)
    ensures i <= |nodes|
    ensures forall k :: 0 <= k < i ==> nodes[k].name != name
    ensures i < |nodes| ==> nodes[i].name == name
  {
    if nodes == [] then 0
    else if nodes[0].name == name then 0
    else 1 + IndexOf(nodes[1..], name)
  }

  /** The three conditions on `IndexOf` determine it. */
  lemma IndexOfUnique(nodes: seq<SpendNode>, name: string, i: nat)
    requires i <= |nodes|
    requires forall k :: 0 <= k < i ==> nodes[k].name != name
    requires i < |nodes| ==> nodes[i].name == name
    ensures IndexOf(nodes, name) == i
  {
  }

  /** Files `amount` under the key path `path`: along the path, each missing
      node is created with spend 0 at the end of its level, and every node on
      the path has `amount` added to its own spend. */
  function Upsert(nodes: seq<SpendNode>, path: seq<string>, amount: real): seq<SpendNode>
    decreases |path|
  {
    if path == [] then nodes
    else
      var i := IndexOf(nodes, path[0]);
      var base := if i < |nodes| then nodes else nodes + [SpendNode(path[0], 0.0, [])];
      base[i := SpendNode(path[0], base[i].spend + amount, Upsert(base[i].children, path[1..], amount))]
  }

  /** The specification of the grouping loop: rows folded in order. */
  function Build(rows: seq<InsightRow>): seq<SpendNode>
    decreases |rows|
  {
    if rows == [] then []
    else
      var last := rows[|rows| - 1];
      Upsert(Build(rows[..|rows| - 1]), RowPath(last), RowSpend(last))
  }

  // ---------------------------------------------------------------------
  // The grouping loop itself

  /** The lookup `campaigns[key]` (likewise for adsets and ads). */
  method FindNode(nodes: seq<SpendNode>, name: string) returns (i: nat)
    ensures i == IndexOf(nodes, name)
  {
    i := 0;
    while i < |nodes| && nodes[i].name != name
      invariant i <= |nodes|
      invariant forall k :: 0 <= k < i ==> nodes[k].name != name
    {
      i := i + 1;
    }
    IndexOfUnique(nodes, name, i);
  }

  /** `level` is `nodes` after finding or creating the node called `key`
      (at position `i`) and adding `amount` to its spend. */
  ghost predicate Touched(nodes: seq<SpendNode>, key: string, amount: real, level: seq<SpendNode>, i: nat)
  {
    && i == IndexOf(nodes, key)
    && i < |level|
    && level[i].name == key
    && level[i].children == (if i < |nodes| then nodes[i].children else [])
    && level[i].spend == (if i < |nodes| then nodes[i].spend else 0.0) + amount
    && |level| == (if i < |nodes| then |nodes| else |nodes| + 1)
    && forall k :: 0 <= k < |level| && k != i ==> level[k] == nodes[k]
  }

  /** One level of `Upsert` is a touch followed by an upsert into the
      touched node's children. */
  lemma UpsertUnfold(nodes: seq<SpendNode>, path: seq<string>, amount: real, level: seq<SpendNode>, i: nat)
    requires path != []
    requires Touched(nodes, path[0], amount, level, i)
    ensures Upsert(nodes, path, amount) == level[i := level[i].(children := Upsert(level[i].children, path[1..], amount))]
  {
  }

  /** Files one node's worth of spend at one level: find or create the node
      called `key` and add `amount` to its spend. Returns the level and the
      node's position. */
  method Touch(nodes: seq<SpendNode>, key: string, amount: real) returns (level: seq<SpendNode>, i: nat)
    ensures Touched(nodes, key, amount, level, i)
  {
    i := FindNode(nodes, key);
    level := nodes;
    if i == |level| {
      level := level + [SpendNode(key, 0.0, [])];
    }
    level := level[i := level[i].(spend := level[i].spend + amount)];
  }

  /** The body of the loop over rows: the row's spend is added to its
      campaign, its adset and its ad. */
  method AddRow(campaigns: seq<SpendNode>, row: InsightRow) returns (r: seq<SpendNode>)
    ensures r == Upsert(campaigns, RowPath(row), RowSpend(row))
  {
    var spend := RowSpend(row);
    var path := RowPath(row);
    var level, ci := Touch(campaigns, path[0], spend);
    var adsets, ai := Touch(level[ci].children, path[1], spend);
    var ads, di := Touch(adsets[ai].children, path[2], spend);
    UpsertUnfold(adsets[ai].children, path[2..], spend, ads, di);
    assert path[2..][1..] == [];
    assert Upsert(ads[di].children, [], spend) == ads[di].children;
    assert ads[di := ads[di]] == ads;
    assert Upsert(adsets[ai].children, path[2..], spend) == ads;
    UpsertUnfold(level[ci].children, path[1..], spend, adsets, ai);
    assert path[1..][1..] == path[2..];
    adsets := adsets[ai := adsets[ai].(children := ads)];
    assert Upsert(level[ci].children, path[1..], spend) == adsets;
    UpsertUnfold(campaigns, path, spend, level, ci);
    r := level[ci := level[ci].(children := adsets)];
  }

  /** `getFbHierarchy` after the fetch: one pass over the rows, adding each
      row's spend to its campaign, its adset and its ad. */
  method GetFbHierarchy(rows: seq<InsightRow>) returns (campaigns: seq<SpendNode>)
    ensures campaigns == Build(rows)
    ensures rows == [] ==> campaigns == []
  {
    campaigns := [];
    var n := 0;
    while n < |rows|
      invariant n <= |rows|
      invariant campaigns == Build(rows[..n])
    {
      campaigns := AddRow(campaigns, rows[n]);
      assert rows[..n + 1][..n] == rows[..n];
      n := n + 1;
    }
    assert rows[..n] == rows;
  }
}
