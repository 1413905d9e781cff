/** The merge engine: the spend tree joined with the commerce hierarchy by
    exact name at each level, derived KPIs per node, account spend summed,
    and campaigns sorted by descending spend. */
module Merger {
  import opened Basics
  import opened CocTypes
  import opened SpendTree

  /** The derived KPIs `computeMetrics` adds to every merged node. */
  datatype Kpis = Kpis(roas: real, cpp: real, aov: real, convRate: real)

  /** A merged campaign, adset or ad; only campaigns and adsets have
      children. */
  datatype MergedNode = MergedNode(name: string, fbSpend: real, cocData: Option<CocMetrics>, kpis: Kpis, children: seq<MergedNode>)

  /** The ad-account configuration fields copied to the result. */
  datatype AccountConfig = AccountConfig(fbAdAccountId: string, cocCampaignId: int, cocCampaignName: string)

  datatype MergedAccount = MergedAccount(
    fbAdAccountId: string,
    cocCampaignName: string,
    cocCampaignId: int,
    fbSpend: real,
    campaigns: seq<MergedNode>)

  function SalesOf(d: Option<CocMetrics>): real { if d.Some? then d.value.sales else 0.0 }
  function SalesTotalOf(d: Option<CocMetrics>): real { if d.Some? then d.value.salesTotal else 0.0 }
  function PartialsOf(d: Option<CocMetrics>): real { if d.Some? then d.value.partials else 0.0 }
  function ConvRateOf(d: Option<CocMetrics>): real { if d.Some? then d.value.convRate else 0.0 }

  /** `computeMetrics`: ROAS, cost per purchase, average order value and
      conversion rate, each guarded against a zero denominator. */
  function ComputeMetrics(spend: real, cocData: Option<CocMetrics>): (k: Kpis)
    ensures spend > 0.0 ==> k.roas * spend == SalesTotalOf(cocData)
    ensures spend <= 0.0 ==> k.roas == 0.0
    ensures SalesOf(cocData) > 0.0 ==> k.cpp * SalesOf(cocData) == spend
    ensures SalesOf(cocData) > 0.0 ==> k.aov * SalesOf(cocData) == SalesTotalOf(cocData)
    ensures SalesOf(cocData) <= 0.0 ==> k.cpp == 0.0 && k.aov == 0.0
    ensures PartialsOf(cocData) + SalesOf(cocData) > 0.0 ==>
      k.convRate * (PartialsOf(cocData) + SalesOf(cocData)) == SalesOf(cocData) * 100.0
    ensures PartialsOf(cocData) + SalesOf(cocData) <= 0.0 ==> k.convRate == ConvRateOf(cocData)
    ensures cocData.None? ==> k == Kpis(0.0, 0.0, 0.0, 0.0)
  {
    var salesTotal, sales, partials := SalesTotalOf(cocData), SalesOf(cocData), PartialsOf(cocData);
    var roas := if spend > 0.0 then salesTotal / spend else 0.0;
    var cpp := if sales > 0.0 then spend / sales else 0.0;
    var aov := if sales > 0.0 then salesTotal / sales else 0.0;
    var totalClicks := partials + sales;
    var convRate := if totalClicks > 0.0 then sales / totalClicks * 100.0 else ConvRateOf(cocData);
    Kpis(roas, cpp, aov, convRate)
  }

  // ---------------------------------------------------------------------
  // Lookups

  /** `cocHierarchyData?.[campaign]`. */
  function CampaignEntry(coc: Option<map<string, CocEntry>>, campaign: string): Option<CocEntry> {
    if coc.Some? && campaign in coc.value then Some(coc.value[campaign]) else None
  }

  /** `cocCampaignData?.adsets?.[adset]?.cocData`: an adset's data is the
      `cocData` field of its entry. */
  function AdsetData(entry: Option<CocEntry>, adset: string): (d: Option<CocMetrics>)
    ensures d.Some? ==> entry.Some? && adset in entry.value.adsets && d == entry.value.adsets[adset].cocData
    ensures entry.Some? && adset in entry.value.adsets ==> d == entry.value.adsets[adset].cocData
  {
    if entry.Some? && adset in entry.value.adsets then entry.value.adsets[adset].cocData else None
  }

  /** `cocCampaignData?.adsets?.[adset]?.ads?.[ad]`: an ad's data is the
      entry itself. */
  function AdData(entry: Option<CocEntry>, adset: string, ad: string): (d: Option<CocMetrics>)
    ensures d.Some? ==>
      && entry.Some? && adset in entry.value.adsets
      && ad in entry.value.adsets[adset].ads && d.value == entry.value.adsets[adset].ads[ad]
    ensures entry.Some? && adset in entry.value.adsets && ad in entry.value.adsets[adset].ads ==>
      d == Some(entry.value.adsets[adset].ads[ad])
  {
    if entry.Some? && adset in entry.value.adsets && ad in entry.value.adsets[adset].ads
    then Some(entry.value.adsets[adset].ads[ad])
    else None
  }

  // ---------------------------------------------------------------------
  // The merged tree, level by level

  /** The KPIs of `n` are those `computeMetrics` derives from the node's
      own spend and commerce data. */
  predicate KpisOwn(n: MergedNode) {
    n.kpis == ComputeMetrics(n.fbSpend, n.cocData)
  }

  function MergeAd(ad: SpendNode, entry: Option<CocEntry>, adset: string): (m: MergedNode)
    ensures m.name == ad.name && m.fbSpend == ad.spend && m.children == []
    ensures KpisOwn(m)
  {
    var d := AdData(entry, adset, ad.name);
    MergedNode(ad.name, ad.spend, d, ComputeMetrics(ad.spend, d), [])
  }

  function MergeAdset(adset: SpendNode, entry: Option<CocEntry>): (m: MergedNode)
    ensures m.name == adset.name && m.fbSpend == adset.spend && |m.children| == |adset.children|
    ensures KpisOwn(m)
    ensures forall j :: 0 <= j < |adset.children| ==>
      && m.children[j].name == adset.children[j].name
      && m.children[j].fbSpend == adset.children[j].spend
      && m.children[j].children == []
      && KpisOwn(m.children[j])
  {
    var d := AdsetData(entry, adset.name);
    MergedNode(adset.name, adset.spend, d, ComputeMetrics(adset.spend, d),
      seq(|adset.children|, i requires 0 <= i < |adset.children| => MergeAd(adset.children[i], entry, adset.name)))
  }

  /** One merged campaign: name and spend copied, adsets and ads in input
      order, the campaign's data taken from the entry under its name, and
      every node's KPIs derived from its own spend and data. */
  function MergeCampaign(c: SpendNode, coc: Option<map<string, CocEntry>>): (m: MergedNode)
    ensures m.name == c.name && m.fbSpend == c.spend && |m.children| == |c.children|
    ensures m.cocData == (if coc.Some? && c.name in coc.value then coc.value[c.name].cocData else None)
    ensures forall i :: 0 <= i < |c.children| ==>
      && m.children[i].name == c.children[i].name
      && m.children[i].fbSpend == c.children[i].spend
      && |m.children[i].children| == |c.children[i].children|
      && (forall j :: 0 <= j < |c.children[i].children| ==>
            && m.children[i].children[j].name == c.children[i].children[j].name
            && m.children[i].children[j].fbSpend == c.children[i].children[j].spend
            && m.children[i].children[j].children == [])
    ensures KpisOwn(m)
    ensures forall i :: 0 <= i < |c.children| ==> KpisOwn(m.children[i])
    ensures forall i, j :: 0 <= i < |c.children| && 0 <= j < |c.children[i].children| ==>
      KpisOwn(m.children[i].children[j])
  {
    var entry := CampaignEntry(coc, c.name);
    var d := if entry.Some? then entry.value.cocData else None;
    MergedNode(c.name, c.spend, d, ComputeMetrics(c.spend, d),
      seq(|c.children|, i requires 0 <= i < |c.children| => MergeAdset(c.children[i], entry)))
  }

  function MergeAll(fb: seq<SpendNode>, coc: Option<map<string, CocEntry>>): (r: seq<MergedNode>)
    ensures |r| == |fb|
  {
    seq(|fb|, i requires 0 <= i < |fb| => MergeCampaign(fb[i], coc))
  }

  /** `fbAdAccountData.reduce((sum, c) => sum + c.spend, 0)`. */
  function SumSpend(fb: seq<SpendNode>): real
    decreases |fb|
  {
    if fb == [] then 0.0 else fb[0].spend + SumSpend(fb[1..])
  }

  function SumMerged(s: seq<MergedNode>): real
    decreases |s|
  {
    if s == [] then 0.0 else s[0].fbSpend + SumMerged(s[1..])
  }

  // ---------------------------------------------------------------------
  // The stable sort by descending spend

  predicate SortedBySpend(s: seq<MergedNode>) {
    forall i, j :: 0 <= i < j < |s| ==> s[i].fbSpend >= s[j].fbSpend
  }

  /** Inserts `x` after every element whose spend is at least its own. */
  function InsertBySpend(x: MergedNode, s: seq<MergedNode>): seq<MergedNode>
    decreases |s|
  {
    if s == [] then [x]
    else if x.fbSpend > s[0].fbSpend then [x] + s
    else [s[0]] + InsertBySpend(x, s[1..])
  }

  /** `campaigns.sort((a, b) => b.fbSpend - a.fbSpend)` with the engine's
      stable sort. */
  function SortBySpend(s: seq<MergedNode>): seq<MergedNode>
    decreases |s|
  {
    if s == [] then [] else InsertBySpend(s[|s| - 1], SortBySpend(s[..|s| - 1]))
  }

  /** The elements of `s` whose spend is `v`, in order. */
  function WithSpend(s: seq<MergedNode>, v: real): seq<MergedNode>
    decreases |s|
  {
    if s == [] then [] else (if s[0].fbSpend == v then [s[0]] else []) + WithSpend(s[1..], v)
  }

  /** The account result. */
  function Merge(fb: seq<SpendNode>, coc: Option<map<string, CocEntry>>, cfg: AccountConfig): MergedAccount {
    MergedAccount(cfg.fbAdAccountId, cfg.cocCampaignName, cfg.cocCampaignId,
                  SumSpend(fb), SortBySpend(MergeAll(fb, coc)))
  }

  // ---------------------------------------------------------------------
  // The merge loops

  /** `mergeHierarchy`: nested loops pushing merged campaigns, adsets and
      ads, then the sort. */
  method MergeHierarchy(fb: seq<SpendNode>, coc: Option<map<string, CocEntry>>, cfg: AccountConfig)
    returns (merged: MergedAccount)
    ensures merged == Merge(fb, coc, cfg)
  {
    var fbSpend := SumSpend(fb);
    var campaigns: seq<MergedNode> := [];
    for ci := 0 to |fb|
      invariant |campaigns| == ci
      invariant forall k :: 0 <= k < ci ==> campaigns[k] == MergeCampaign(fb[k], coc)
    {
      var fbCampaign := fb[ci];
      var cocCampaignData := CampaignEntry(coc, fbCampaign.name);
      var cocData := if cocCampaignData.Some? then cocCampaignData.value.cocData else None;
      var metrics := ComputeMetrics(fbCampaign.spend, cocData);
      var adsets: seq<MergedNode> := [];
      for ai := 0 to |fbCampaign.children|
        invariant |adsets| == ai
        invariant forall k :: 0 <= k < ai ==> adsets[k] == MergeAdset(fbCampaign.children[k], cocCampaignData)
      {
        var fbAdset := fbCampaign.children[ai];
        var cocAdsetData := AdsetData(cocCampaignData, fbAdset.name);
        var adsetMetrics := ComputeMetrics(fbAdset.spend, cocAdsetData);
        var ads: seq<MergedNode> := [];
        for di := 0 to |fbAdset.children|
          invariant |ads| == di
          invariant forall k :: 0 <= k < di ==> ads[k] == MergeAd(fbAdset.children[k], cocCampaignData, fbAdset.name)
        {
          var fbAd := fbAdset.children[di];
          var cocAdData := AdData(cocCampaignData, fbAdset.name, fbAd.name);
          ads := ads + [MergedNode(fbAd.name, fbAd.spend, cocAdData, ComputeMetrics(fbAd.spend, cocAdData), [])];
        }
        assert ads == MergeAdset(fbAdset, cocCampaignData).children;
        adsets := adsets + [MergedNode(fbAdset.name, fbAdset.spend, cocAdsetData, adsetMetrics, ads)];
      }
      assert adsets == MergeCampaign(fbCampaign, coc).children;
      campaigns := campaigns + [MergedNode(fbCampaign.name, fbCampaign.spend, cocData, metrics, adsets)];
    }
    assert campaigns == MergeAll(fb, coc);
    campaigns := SortBySpend(campaigns);
    merged := MergedAccount(cfg.fbAdAccountId, cfg.cocCampaignName, cfg.cocCampaignId, fbSpend, campaigns);
  }
}
