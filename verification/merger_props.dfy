/** Properties of the merge engine: the campaign order is a stable sort by
    descending spend, the account spend is the sum of the campaigns' spend,
    lookups stay inside the campaign's own commerce entry, and unmatched
    entities carry no commerce data and zero KPIs. */
module MergerProps {
  import opened Basics
  import opened CocTypes
  import opened SpendTree
  import opened Merger

  // ---------------------------------------------------------------------
  // The sort

  lemma {:induction false} InsertBySpendShape(x: MergedNode, s: seq<MergedNode>)
    ensures |InsertBySpend(x, s)| == |s| + 1
    ensures InsertBySpend(x, s)[0] == x || InsertBySpend(x, s)[0] == s[0]
    decreases |s|
  {
    if s != [] && x.fbSpend <= s[0].fbSpend {
      InsertBySpendShape(x, s[1..]);
    }
  }

  lemma {:induction false} InsertBySpendPermutes(x: MergedNode, s: seq<MergedNode>)
    ensures multiset(InsertBySpend(x, s)) == multiset(s) + multiset{x}
    decreases |s|
  {
    if s != [] && x.fbSpend <= s[0].fbSpend {
      InsertBySpendPermutes(x, s[1..]);
      assert s == [s[0]] + s[1..];
    }
  }

  lemma {:induction false} InsertBySpendSorted(x: MergedNode, s: seq<MergedNode>)
    requires SortedBySpend(s)
    ensures SortedBySpend(InsertBySpend(x, s))
    decreases |s|
  {
    if s != [] && x.fbSpend <= s[0].fbSpend {
      var t := InsertBySpend(x, s[1..]);
      InsertBySpendSorted(x, s[1..]);
      InsertBySpendShape(x, s[1..]);
      assert t[0].fbSpend <= s[0].fbSpend by {
        if 1 < |s| {
          assert s[1].fbSpend <= s[0].fbSpend;
        }
      }
      var r := [s[0]] + t;
      assert InsertBySpend(x, s) == r;
      forall i, j | 0 <= i < j < |r|
        ensures r[i].fbSpend >= r[j].fbSpend
      {
        if i == 0 {
          assert r[j] == t[j - 1];
          assert t[j - 1].fbSpend <= t[0].fbSpend;
        } else {
          assert r[i] == t[i - 1] && r[j] == t[j - 1];
        }
      }
    }
  }

  /** The sort yields campaigns in non-increasing spend order. */
  lemma {:induction false} SortBySpendSorted(s: seq<MergedNode>)
    ensures SortedBySpend(SortBySpend(s))
    decreases |s|
  {
    if s != [] {
      var init := s[..|s| - 1];
      SortBySpendSorted(init);
      InsertBySpendSorted(s[|s| - 1], SortBySpend(init));
    }
  }

  /** The sort loses and adds no campaign. */
  lemma {:induction false} SortBySpendPermutes(s: seq<MergedNode>)
    ensures multiset(SortBySpend(s)) == multiset(s)
    decreases |s|
  {
    if s != [] {
      var init, last := s[..|s| - 1], s[|s| - 1];
      var sorted := SortBySpend(init);
      SortBySpendPermutes(init);
      InsertBySpendPermutes(last, sorted);
      assert s == init + [last];
      calc {
        multiset(SortBySpend(s));
        multiset(InsertBySpend(last, sorted));
        multiset(sorted) + multiset{last};
        multiset(init + [last]);
      }
    }
  }

  lemma {:induction false} WithSpendAppend(a: seq<MergedNode>, b: seq<MergedNode>, v: real)
    ensures WithSpend(a + b, v) == WithSpend(a, v) + WithSpend(b, v)
    decreases |a|
  {
    if a == [] {
      assert a + b == b;
    } else {
      var head := if a[0].fbSpend == v then [a[0]] else [];
      assert (a + b)[0] == a[0];
      assert (a + b)[1..] == a[1..] + b;
      assert WithSpend(a + b, v) == head + WithSpend(a[1..] + b, v);
      assert WithSpend(a, v) == head + WithSpend(a[1..], v);
      WithSpendAppend(a[1..], b, v);
    }
  }

  lemma {:induction false} WithSpendNone(s: seq<MergedNode>, v: real)
    requires forall i :: 0 <= i < |s| ==> s[i].fbSpend != v
    ensures WithSpend(s, v) == []
    decreases |s|
  {
    if s != [] {
      WithSpendNone(s[1..], v);
    }
  }

  /** Inserting into a sorted sequence puts `x` after every element of equal
      spend. */
  lemma {:induction false} InsertBySpendStable(x: MergedNode, s: seq<MergedNode>, v: real)
    requires SortedBySpend(s)
    ensures WithSpend(InsertBySpend(x, s), v) == WithSpend(s, v) + (if x.fbSpend == v then [x] else [])
    decreases |s|
  {
    if s == [] {
    } else if x.fbSpend > s[0].fbSpend {
      assert InsertBySpend(x, s) == [x] + s;
      assert ([x] + s)[1..] == s;
      if x.fbSpend == v {
        WithSpendNone(s, v);
      }
    } else {
      var rest := s[1..];
      assert SortedBySpend(rest);
      InsertBySpendStable(x, rest, v);
      var r := InsertBySpend(x, s);
      assert r == [s[0]] + InsertBySpend(x, rest);
      assert r[0] == s[0] && r[1..] == InsertBySpend(x, rest);
      var h := if s[0].fbSpend == v then [s[0]] else [];
      assert WithSpend(r, v) == h + WithSpend(InsertBySpend(x, rest), v);
      assert WithSpend(s, v) == h + WithSpend(rest, v);
    }
  }

  /** Stability: campaigns of equal spend keep their relative order. */
  lemma {:induction false} SortBySpendStable(s: seq<MergedNode>, v: real)
    ensures WithSpend(SortBySpend(s), v) == WithSpend(s, v)
    decreases |s|
  {
    if s != [] {
      var init, last := s[..|s| - 1], s[|s| - 1];
      SortBySpendStable(init, v);
      SortBySpendSorted(init);
      assert SortBySpend(s) == InsertBySpend(last, SortBySpend(init));
      InsertBySpendStable(last, SortBySpend(init), v);
      assert s == init + [last];
      WithSpendAppend(init, [last], v);
      assert WithSpend([last], v) == (if last.fbSpend == v then [last] else []) + WithSpend([], v);
    }
  }

  lemma {:induction false} SumMergedAppend(a: seq<MergedNode>, b: seq<MergedNode>)
    ensures SumMerged(a + b) == SumMerged(a) + SumMerged(b)
    decreases |a|
  {
    if a == [] {
      assert a + b == b;
    } else {
      assert (a + b)[1..] == a[1..] + b;
      SumMergedAppend(a[1..], b);
    }
  }

  lemma {:induction false} InsertBySpendSum(x: MergedNode, s: seq<MergedNode>)
    ensures SumMerged(InsertBySpend(x, s)) == x.fbSpend + SumMerged(s)
    decreases |s|
  {
    if s == [] {
    } else if x.fbSpend > s[0].fbSpend {
      assert ([x] + s)[1..] == s;
    } else {
      InsertBySpendSum(x, s[1..]);
      assert InsertBySpend(x, s)[1..] == InsertBySpend(x, s[1..]);
    }
  }

  lemma {:induction false} SortBySpendSum(s: seq<MergedNode>)
    ensures SumMerged(SortBySpend(s)) == SumMerged(s)
    decreases |s|
  {
    if s != [] {
      var init, last := s[..|s| - 1], s[|s| - 1];
      SortBySpendSum(init);
      InsertBySpendSum(last, SortBySpend(init));
      assert s == init + [last];
      SumMergedAppend(init, [last]);
    }
  }

  lemma {:induction false} MergeAllSpend(fb: seq<SpendNode>, coc: Option<map<string, CocEntry>>)
    ensures SumMerged(MergeAll(fb, coc)) == SumSpend(fb)
    decreases |fb|
  {
    if fb != [] {
      MergeAllSpend(fb[1..], coc);
      assert MergeAll(fb, coc)[1..] == MergeAll(fb[1..], coc);
    }
  }

  // ---------------------------------------------------------------------
  // The account result

  /** The merged campaigns are the merged input campaigns, each exactly
      once, in non-increasing spend order. */
  lemma MergeOrdered(fb: seq<SpendNode>, coc: Option<map<string, CocEntry>>, cfg: AccountConfig)
    ensures SortedBySpend(Merge(fb, coc, cfg).campaigns)
    ensures multiset(Merge(fb, coc, cfg).campaigns) == multiset(MergeAll(fb, coc))
    ensures |Merge(fb, coc, cfg).campaigns| == |fb|
  {
    SortBySpendSorted(MergeAll(fb, coc));
    SortBySpendPermutes(MergeAll(fb, coc));
    assert |multiset(Merge(fb, coc, cfg).campaigns)| == |multiset(MergeAll(fb, coc))|;
  }

  /** Campaigns with equal spend stay in the order the spend tree listed
      them. */
  lemma MergeStable(fb: seq<SpendNode>, coc: Option<map<string, CocEntry>>, cfg: AccountConfig, v: real)
    ensures WithSpend(Merge(fb, coc, cfg).campaigns, v) == WithSpend(MergeAll(fb, coc), v)
  {
    SortBySpendStable(MergeAll(fb, coc), v);
  }

  /** The account's spend is the sum of the campaigns' spend, before and
      after the sort. */
  lemma MergeSpendTotal(fb: seq<SpendNode>, coc: Option<map<string, CocEntry>>, cfg: AccountConfig)
    ensures Merge(fb, coc, cfg).fbSpend == SumMerged(Merge(fb, coc, cfg).campaigns)
    ensures Merge(fb, coc, cfg).fbSpend == SumSpend(fb)
  {
    MergeAllSpend(fb, coc);
    SortBySpendSum(MergeAll(fb, coc));
  }

  /** The account result copies the configuration fields. */
  lemma MergeConfig(fb: seq<SpendNode>, coc: Option<map<string, CocEntry>>, cfg: AccountConfig)
    ensures Merge(fb, coc, cfg).fbAdAccountId == cfg.fbAdAccountId
    ensures Merge(fb, coc, cfg).cocCampaignId == cfg.cocCampaignId
    ensures Merge(fb, coc, cfg).cocCampaignName == cfg.cocCampaignName
    ensures fb == [] ==> Merge(fb, coc, cfg).campaigns == [] && Merge(fb, coc, cfg).fbSpend == 0.0
  {
  }

  // ---------------------------------------------------------------------
  // Joining by name

  predicate Unmatched(n: MergedNode) {
    n.cocData.None? && n.kpis == Kpis(0.0, 0.0, 0.0, 0.0)
  }

  /** A campaign without a commerce entry, and every adset and ad under it,
      carries no commerce data and all-zero KPIs. */
  lemma UnmatchedCampaign(c: SpendNode, coc: Option<map<string, CocEntry>>)
    requires coc.None? || c.name !in coc.value
    ensures Unmatched(MergeCampaign(c, coc))
    ensures forall i :: 0 <= i < |c.children| ==> Unmatched(MergeCampaign(c, coc).children[i])
    ensures forall i, j :: 0 <= i < |c.children| && 0 <= j < |c.children[i].children| ==>
      Unmatched(MergeCampaign(c, coc).children[i].children[j])
  {
  }

  /** An adset the campaign's entry does not list, and every ad under it,
      carries no commerce data and all-zero KPIs. */
  lemma UnmatchedAdset(c: SpendNode, coc: Option<map<string, CocEntry>>, i: nat)
    requires i < |c.children|
    requires CampaignEntry(coc, c.name).Some?
    requires c.children[i].name !in CampaignEntry(coc, c.name).value.adsets
    ensures Unmatched(MergeCampaign(c, coc).children[i])
    ensures forall j :: 0 <= j < |c.children[i].children| ==>
      Unmatched(MergeCampaign(c, coc).children[i].children[j])
  {
  }

  /** A campaign with a commerce entry carries the entry's own data, and
      every adset the entry lists carries the data stored under the adset's
      name; the KPIs of each are derived from that data. An entry need not
      list any adset. */
  lemma MatchedCampaign(c: SpendNode, coc: Option<map<string, CocEntry>>)
    requires coc.Some? && c.name in coc.value
    ensures MergeCampaign(c, coc).cocData == coc.value[c.name].cocData
    ensures MergeCampaign(c, coc).kpis == ComputeMetrics(c.spend, coc.value[c.name].cocData)
    ensures forall i :: 0 <= i < |c.children| && c.children[i].name in coc.value[c.name].adsets ==>
      && MergeCampaign(c, coc).children[i].cocData == coc.value[c.name].adsets[c.children[i].name].cocData
      && MergeCampaign(c, coc).children[i].kpis
         == ComputeMetrics(c.children[i].spend, coc.value[c.name].adsets[c.children[i].name].cocData)
  {
  }

  /** An ad listed under its adset in its campaign's entry carries that ad
      record as its data. */
  lemma MatchedAd(c: SpendNode, coc: Option<map<string, CocEntry>>, i: nat, j: nat)
    requires coc.Some? && c.name in coc.value
    requires i < |c.children| && j < |c.children[i].children|
    requires c.children[i].name in coc.value[c.name].adsets
    requires c.children[i].children[j].name in coc.value[c.name].adsets[c.children[i].name].ads
    ensures MergeCampaign(c, coc).children[i].children[j].cocData
         == Some(coc.value[c.name].adsets[c.children[i].name].ads[c.children[i].children[j].name])
  {
  }

  /** An ad its listed adset does not list carries no commerce data and
      all-zero KPIs. */
  lemma UnmatchedAd(c: SpendNode, coc: Option<map<string, CocEntry>>, i: nat, j: nat)
    requires coc.Some? && c.name in coc.value
    requires i < |c.children| && j < |c.children[i].children|
    requires c.children[i].name in coc.value[c.name].adsets
    requires c.children[i].children[j].name !in coc.value[c.name].adsets[c.children[i].name].ads
    ensures Unmatched(MergeCampaign(c, coc).children[i].children[j])
  {
  }

  /** Locality: a campaign's merge depends only on the commerce entry stored
      under its own name, so identically named adsets or ads in different
      campaigns never share data. */
  lemma MergeCampaignLocal(c: SpendNode, coc1: Option<map<string, CocEntry>>, coc2: Option<map<string, CocEntry>>)
    requires CampaignEntry(coc1, c.name) == CampaignEntry(coc2, c.name)
    ensures MergeCampaign(c, coc1) == MergeCampaign(c, coc2)
  {
  }

  /** A campaign with spend 100 whose commerce data shows 2 sales for 200
      in total: ROAS 2, cost per purchase 50, average order value 100. */
  lemma MergeExample()
    ensures
      var m := CocMetrics(0.0, 0.0, 0.0, 0.0, 2.0, 0.0, 200.0, 0.0, 0.0, 0.0, 0.0, 0.0, None);
      var fb := [SpendNode("A", 100.0, [SpendNode("X", 100.0, [SpendNode("ad1", 100.0, [])])])];
      var coc := Some(map["A" := CocEntry(Some(m), map["X" := AdsetEntry(Some(m), map["ad1" := m])], None)]);
      var r := Merge(fb, coc, AccountConfig("act_1", 7, "Camp"));
      && r.fbSpend == 100.0
      && |r.campaigns| == 1
      && r.campaigns[0].kpis == Kpis(2.0, 50.0, 100.0, 100.0)
      && r.campaigns[0].children[0].kpis == Kpis(2.0, 50.0, 100.0, 100.0)
      && r.campaigns[0].children[0].children[0].cocData == Some(m)
  {
    var m := CocMetrics(0.0, 0.0, 0.0, 0.0, 2.0, 0.0, 200.0, 0.0, 0.0, 0.0, 0.0, 0.0, None);
    var fb := [SpendNode("A", 100.0, [SpendNode("X", 100.0, [SpendNode("ad1", 100.0, [])])])];
    var coc := Some(map["A" := CocEntry(Some(m), map["X" := AdsetEntry(Some(m), map["ad1" := m])], None)]);
    var all := MergeAll(fb, coc);
    assert SortBySpend(all) == InsertBySpend(all[0], SortBySpend(all[..0]));
    assert all[..0] == [];
  }
}
