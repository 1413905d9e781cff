/** The report-based commerce adapter: one order-summary report per campaign
    name, whose nested breakdown gives adset rows and, inside them, ad rows.
    Metrics are read field by field from a report object, each field taking
    the first of its alternative keys that holds a non-zero number.

    A report object is modelled as a map from the field names the adapter
    reads to numbers; a field that is absent, null or not a number is simply
    not in the map, and fields the adapter never reads are not modelled. */
module ReportAdapter {
  import opened Basics
  import opened CocTypes

  /** The report keys the adapter reads, spelled as in the JSON. */
  datatype Key =
    | partials | total_partials | conversion_rate | conv_rate
    | declines | total_declines | decline_rate
    | sales | total_sales | sales_rate
    | sales_total | total_revenue | revenue
    | upsells | total_upsells | upsell_attempts | upsell_approval_rate
    | upsell_total | total_upsell_revenue
    | refund_amount | total_refunds | shipping
    | net_revenue | net_rev | avg_ticket | average_ticket

  type Fields = map<Key, real>

  /** An ad row of the breakdown; an empty name stands for a missing one. */
  datatype AdRow = AdRow(utmContent: string, utm_content: string, fields: Fields)

  /** An adset row; `ads` is empty when the row lists none. */
  datatype AdsetRow = AdsetRow(utmMedium: string, utm_medium: string, fields: Fields, ads: seq<AdRow>)

  /** The nested `data` object of a report; `breakdown` is empty when absent. */
  datatype ReportBody = ReportBody(fields: Fields, breakdown: seq<AdsetRow>)

  /** A report response: its own top-level fields and, when present, the
      nested `data` object. */
  datatype Report = Report(fields: Fields, data: Option<ReportBody>)

  // ---------------------------------------------------------------------
  // Field extraction

  /** JavaScript truthiness of a numeric field (`NumTruthy` of the field
      read as an optional number). */
  predicate Truthy(f: Fields, key: Key) {
    key in f && f[key] != 0.0
  }

  /** `v` is what `f[k0] || f[k1] || ... || 0` evaluates to: the value of the
      first key holding a non-zero number, or 0 when there is none. */
  predicate Resolves(f: Fields, keys: seq<Key>, v: real) {
    || (v == 0.0 && forall i :: 0 <= i < |keys| ==> !Truthy(f, keys[i]))
    || exists i :: 0 <= i < |keys| && Truthy(f, keys[i]) && f[keys[i]] == v
         && forall j :: 0 <= j < i ==> !Truthy(f, keys[j])
  }

  function FirstTruthy(f: Fields, keys: seq<Key>): (r: real)
    ensures Resolves(f, keys, r)
    decreases |keys|
  {
    if keys == [] then 0.0
    else if Truthy(f, keys[0]) then f[keys[0]]
    else
      var r := FirstTruthy(f, keys[1..]);
      assert forall i :: 1 <= i < |keys| ==> keys[i] == keys[1..][i - 1];
      if r == 0.0 then r
      else
        var i :| 0 <= i < |keys[1..]| && Truthy(f, keys[1..][i]) && f[keys[1..][i]] == r
                 && forall j :: 0 <= j < i ==> !Truthy(f, keys[1..][j]);
        assert Truthy(f, keys[i + 1]) && f[keys[i + 1]] == r;
        r
  }

  /** `Resolves` determines the value. */
  lemma ResolvesUnique(f: Fields, keys: seq<Key>, v: real, w: real)
    requires Resolves(f, keys, v) && Resolves(f, keys, w)
    ensures v == w
  {
  }

  /** The twelve shared metric fields in declaration order. */
  function Core(m: CocMetrics): (r: seq<real>)
    ensures |r| == 12
  {
    [m.partials, m.convRate, m.declines, m.declineRate, m.sales, m.salesRate,
     m.salesTotal, m.upsells, m.upsellTotal, m.refundAmt, m.netRevenue, m.avgTicket]
  }

  /** The alternative keys of each field of a breakdown row, in the order of
      `Core`. */
  const RowKeys: seq<seq<Key>> := [
    [partials], [conversion_rate, conv_rate], [declines], [decline_rate],
    [sales], [sales_rate], [sales_total, revenue], [upsells],
    [upsell_total], [refund_amount], [net_revenue], [avg_ticket]]

  /** The alternative keys of each field of a report summary, in the order
      of `Core`. */
  const SummaryKeys: seq<seq<Key>> := [
    [partials, total_partials], [conversion_rate, conv_rate],
    [declines, total_declines], [decline_rate],
    [sales, total_sales], [sales_rate],
    [sales_total, total_revenue], [upsells, total_upsells],
    [upsell_total, total_upsell_revenue], [refund_amount, total_refunds],
    [net_revenue, net_rev], [avg_ticket, average_ticket]]

  const UpsellAttemptsKeys: seq<Key> := [upsell_attempts]
  const UpsellApprovalKeys: seq<Key> := [upsell_approval_rate]
  const ShippingKeys: seq<Key> := [shipping]

  /** Each field resolved from its alternative keys. */
  function Pick(f: Fields, aliases: seq<seq<Key>>): (r: seq<real>)
    ensures |r| == |aliases|
  {
    seq(|aliases|, i requires 0 <= i < |aliases| => FirstTruthy(f, aliases[i]))
  }

  lemma PickResolves(f: Fields, aliases: seq<seq<Key>>)
    ensures forall i :: 0 <= i < |aliases| ==> Resolves(f, aliases[i], Pick(f, aliases)[i])
  {
    forall i | 0 <= i < |aliases|
      ensures Resolves(f, aliases[i], Pick(f, aliases)[i])
    {
      assert Pick(f, aliases)[i] == FirstTruthy(f, aliases[i]);
    }
  }

  /** The metrics object with the twelve shared fields `v`. */
  function FromCore(v: seq<real>, extras: Option<SummaryExtras>): (m: CocMetrics)
    requires |v| == 12
    ensures Core(m) == v && m.extras == extras
  {
    CocMetrics(v[0], v[1], v[2], v[3], v[4], v[5], v[6], v[7], v[8], v[9], v[10], v[11], extras)
  }

  /** `extractRowMetrics`: the twelve shared fields of a breakdown row. */
  function ExtractRowMetrics(f: Fields): CocMetrics {
    FromCore(Pick(f, RowKeys), None)
  }

  /** Every field of a row's metrics comes from its own alternative keys,
      and a row has none of the summary-only fields. */
  lemma RowMetricsResolve(f: Fields)
    ensures forall i :: 0 <= i < 12 ==> Resolves(f, RowKeys[i], Core(ExtractRowMetrics(f))[i])
    ensures ExtractRowMetrics(f).extras.None?
  {
    PickResolves(f, RowKeys);
  }

  /** The object the summary is read from: the nested `data` object when
      there is one, the report itself otherwise. */
  function SummaryFields(rep: Report): Fields {
    if rep.data.Some? then rep.data.value.fields else rep.fields
  }

  /** `extractSummaryTotals`: `null` for a missing report, otherwise the
      twelve shared fields plus the summary-only ones. */
  function ExtractSummaryTotals(rep: Option<Report>): (m: Option<CocMetrics>)
    ensures m.None? <==> rep.None?
  {
    if rep.None? then None
    else
      var f := SummaryFields(rep.value);
      Some(FromCore(Pick(f, SummaryKeys),
        Some(SummaryExtras(FirstTruthy(f, UpsellAttemptsKeys), FirstTruthy(f, UpsellApprovalKeys),
                           FirstTruthy(f, ShippingKeys)))))
  }

  /** Every summary field comes from its own alternative keys, read from
      the nested `data` object when there is one, including the three
      summary-only fields. */
  lemma SummaryTotalsResolve(rep: Report)
    ensures var m, f := ExtractSummaryTotals(Some(rep)).value, SummaryFields(rep);
      && (forall i :: 0 <= i < 12 ==> Resolves(f, SummaryKeys[i], Core(m)[i]))
      && m.extras.Some?
      && Resolves(f, UpsellAttemptsKeys, m.extras.value.upsellAttempts)
      && Resolves(f, UpsellApprovalKeys, m.extras.value.upsellApproval)
      && Resolves(f, ShippingKeys, m.extras.value.shipping)
  {
    PickResolves(SummaryFields(rep), SummaryKeys);
  }

  const ZeroMetrics: CocMetrics :=
    CocMetrics(0.0, 0.0, 0.0, 0.0, 0.0, 0.0, 0.0, 0.0, 0.0, 0.0, 0.0, 0.0, None)

  /** A row with no usable numbers yields all zeros. */
  lemma EmptyRowMetrics(f: Fields)
    requires forall k :: k in f ==> f[k] == 0.0
    ensures ExtractRowMetrics(f) == ZeroMetrics
  {
    var m := ExtractRowMetrics(f);
    RowMetricsResolve(f);
    forall i | 0 <= i < 12
      ensures Core(m)[i] == 0.0
    {
      assert Resolves(f, RowKeys[i], Core(m)[i]);
    }
  }

  /** When the report has a nested `data` object, its top-level fields are
      ignored. */
  lemma SummaryPrefersNested(top1: Fields, top2: Fields, body: ReportBody)
    ensures ExtractSummaryTotals(Some(Report(top1, Some(body))))
         == ExtractSummaryTotals(Some(Report(top2, Some(body))))
  {
  }

  // ---------------------------------------------------------------------
  // Keyed assignment

  /** Assigning `pairs` in order to an empty object, skipping empty keys:
      a later assignment under the same key replaces an earlier one. */
  function Assign<V>(pairs: seq<(string, V)>): map<string, V>
    decreases |pairs|
  {
    if pairs == [] then map[]
    else
      var m := Assign(pairs[..|pairs| - 1]);
      var last := pairs[|pairs| - 1];
      if last.0 == "" then m else m[last.0 := last.1]
  }

  /** One more step of the assignment loop. */
  lemma AssignSnoc<V>(pairs: seq<(string, V)>, k: nat)
    requires k < |pairs|
    ensures Assign(pairs[..k + 1])
         == if pairs[k].0 == "" then Assign(pairs[..k]) else Assign(pairs[..k])[pairs[k].0 := pairs[k].1]
  {
    assert pairs[..k + 1][..k] == pairs[..k];
  }

  /** The assignment loop's step, for a loop that has built `m` so far. */
  lemma AssignStep<V>(pairs: seq<(string, V)>, k: nat, m: map<string, V>, key: string, value: V)
    requires k < |pairs| && m == Assign(pairs[..k]) && pairs[k] == (key, value)
    ensures Assign(pairs[..k + 1]) == if key == "" then m else m[key := value]
  {
    AssignSnoc(pairs, k);
  }

  /** The keys are exactly the non-empty keys assigned. */
  lemma {:induction false} AssignKeys<V>(pairs: seq<(string, V)>)
    ensures forall k :: k in Assign(pairs) <==> k != "" && exists i :: 0 <= i < |pairs| && pairs[i].0 == k
    decreases |pairs|
  {
    if pairs != [] {
      var init := pairs[..|pairs| - 1];
      AssignKeys(init);
      assert forall i :: 0 <= i < |init| ==> init[i] == pairs[i];
    }
  }

  /** Each key holds the value of its last assignment. */
  lemma {:induction false} AssignLast<V>(pairs: seq<(string, V)>, i: nat)
    requires i < |pairs| && pairs[i].0 != ""
    requires forall j :: i < j < |pairs| ==> pairs[j].0 != pairs[i].0
    ensures pairs[i].0 in Assign(pairs) && Assign(pairs)[pairs[i].0] == pairs[i].1
    decreases |pairs|
  {
    if i < |pairs| - 1 {
      var init := pairs[..|pairs| - 1];
      AssignLast(init, i);
    }
  }

  // ---------------------------------------------------------------------
  // The breakdown

  function AdName(row: AdRow): string { OrStr(row.utmContent, row.utm_content) }
  function AdsetName(row: AdsetRow): string { OrStr(row.utmMedium, row.utm_medium) }

  function AdPairs(ads: seq<AdRow>): (p: seq<(string, CocMetrics)>)
    ensures |p| == |ads|
    ensures forall i :: 0 <= i < |ads| ==> p[i] == (AdName(ads[i]), ExtractRowMetrics(ads[i].fields))
  {
    seq(|ads|, i requires 0 <= i < |ads| => (AdName(ads[i]), ExtractRowMetrics(ads[i].fields)))
  }

  /** The ads of one adset row keyed by name. */
  function AdsMap(ads: seq<AdRow>): map<string, CocMetrics> {
    Assign(AdPairs(ads))
  }

  function AdsetPairs(rows: seq<AdsetRow>): (p: seq<(string, AdsetEntry)>)
    ensures |p| == |rows|
    ensures forall i :: 0 <= i < |rows| ==>
      p[i] == (AdsetName(rows[i]), AdsetEntry(Some(ExtractRowMetrics(rows[i].fields)), AdsMap(rows[i].ads)))
  {
    seq(|rows|, i requires 0 <= i < |rows| =>
      (AdsetName(rows[i]), AdsetEntry(Some(ExtractRowMetrics(rows[i].fields)), AdsMap(rows[i].ads))))
  }

  /** The adsets of one campaign's breakdown keyed by name. */
  function AdsetsMap(rows: seq<AdsetRow>): map<string, AdsetEntry> {
    Assign(AdsetPairs(rows))
  }

  /** The ads map of a row has one key per named ad row, holding the
      metrics of the last row with that name; unnamed rows are skipped. */
  lemma AdsMapSpec(ads: seq<AdRow>)
    ensures forall n :: n in AdsMap(ads) <==> n != "" && exists i :: 0 <= i < |ads| && AdName(ads[i]) == n
    ensures forall i ::
      (0 <= i < |ads| && AdName(ads[i]) != "" && forall j :: i < j < |ads| ==> AdName(ads[j]) != AdName(ads[i])) ==>
      AdsMap(ads)[AdName(ads[i])] == ExtractRowMetrics(ads[i].fields)
  {
    var p := AdPairs(ads);
    AssignKeys(p);
    forall i | 0 <= i < |ads| && AdName(ads[i]) != "" && (forall j :: i < j < |ads| ==> AdName(ads[j]) != AdName(ads[i]))
      ensures AdsMap(ads)[AdName(ads[i])] == ExtractRowMetrics(ads[i].fields)
    {
      AssignLast(p, i);
    }
  }

  /** The adsets map of a breakdown has one key per named adset row; a
      repeated name keeps the last row, together with that row's own ads. */
  lemma AdsetsMapSpec(rows: seq<AdsetRow>)
    ensures forall n :: n in AdsetsMap(rows) <==> n != "" && exists i :: 0 <= i < |rows| && AdsetName(rows[i]) == n
    ensures forall i ::
      (0 <= i < |rows| && AdsetName(rows[i]) != "" && forall j :: i < j < |rows| ==> AdsetName(rows[j]) != AdsetName(rows[i])) ==>
      AdsetsMap(rows)[AdsetName(rows[i])] == AdsetEntry(Some(ExtractRowMetrics(rows[i].fields)), AdsMap(rows[i].ads))
  {
    var p := AdsetPairs(rows);
    AssignKeys(p);
    forall i | 0 <= i < |rows| && AdsetName(rows[i]) != "" && (forall j :: i < j < |rows| ==> AdsetName(rows[j]) != AdsetName(rows[i]))
      ensures AdsetsMap(rows)[AdsetName(rows[i])] == AdsetEntry(Some(ExtractRowMetrics(rows[i].fields)), AdsMap(rows[i].ads))
    {
      AssignLast(p, i);
    }
  }

  /** `campaignData?.data?.breakdown || []`. */
  function Breakdown(rep: Option<Report>): seq<AdsetRow> {
    if rep.Some? && rep.value.data.Some? then rep.value.data.value.breakdown else []
  }

  /** The ad loop inside one adset row. */
  method BuildAds(ads: seq<AdRow>) returns (m: map<string, CocMetrics>)
    ensures m == AdsMap(ads)
  {
    m := map[];
    for k := 0 to |ads|
      invariant m == Assign(AdPairs(ads)[..k])
    {
      var adRow := ads[k];
      var adName := OrStr(adRow.utmContent, adRow.utm_content);
      var metrics := ExtractRowMetrics(adRow.fields);
      AssignStep(AdPairs(ads), k, m, adName, metrics);
      if adName != "" {
        m := m[adName := metrics];
      }
    }
    assert AdPairs(ads)[..|ads|] == AdPairs(ads);
  }

  /** The adset loop over a campaign's breakdown: rows without a name are
      skipped, a repeated name replaces the earlier entry with its ads. */
  method BuildAdsets(rows: seq<AdsetRow>) returns (m: map<string, AdsetEntry>)
    ensures m == AdsetsMap(rows)
  {
    m := map[];
    for k := 0 to |rows|
      invariant m == Assign(AdsetPairs(rows)[..k])
    {
      var adsetRow := rows[k];
      var adsetName := OrStr(adsetRow.utmMedium, adsetRow.utm_medium);
      if adsetName == "" {
        AssignSnoc(AdsetPairs(rows), k);
        continue;
      }
      var ads := BuildAds(adsetRow.ads);
      var entry := AdsetEntry(Some(ExtractRowMetrics(adsetRow.fields)), ads);
      AssignStep(AdsetPairs(rows), k, m, adsetName, entry);
      m := m[adsetName := entry];
    }
    assert AdsetPairs(rows)[..|rows|] == AdsetPairs(rows);
  }

  /** The entry one campaign name receives: the report's summary and
      breakdown, or a failed entry when the query throws. */
  function EntryOf(f: Result<Option<Report>, string>): (e: CocEntry)
    ensures f.Err? ==> e == FailedEntry(f.error)
    ensures f.Ok? ==> e.error.None? && (e.cocData.None? <==> f.value.None?)
    ensures f.Ok? && f.value.Some? && f.value.value.data.None? ==> e.adsets == map[]
    ensures f.Ok? ==> e.cocData == ExtractSummaryTotals(f.value) && e.adsets == AdsetsMap(Breakdown(f.value))
  {
    match f
    case Ok(rep) => CocEntry(ExtractSummaryTotals(rep), AdsetsMap(Breakdown(rep)), None)
    case Err(msg) => FailedEntry(msg)
  }

  /** The body of the loop over campaign names: the summary and the
      breakdown of a report, or the failed entry of a query that threw. */
  method CampaignEntry(f: Result<Option<Report>, string>) returns (entry: CocEntry)
    ensures entry == EntryOf(f)
  {
    match f {
      case Ok(campaignData) =>
        var cocData := ExtractSummaryTotals(campaignData);
        var adsets := BuildAdsets(Breakdown(campaignData));
        entry := CocEntry(cocData, adsets, None);
      case Err(msg) =>
        entry := FailedEntry(msg);
    }
  }

  /** `getCocHierarchy` after the fetches: `fetched[i]` is the outcome of
      the report query for `names[i]`. */
  method GetCocHierarchy(names: seq<string>, fetched: seq<Result<Option<Report>, string>>)
    returns (results: map<string, CocEntry>)
    requires |fetched| == |names|
    ensures results.Keys == set i | 0 <= i < |names| :: names[i]
    ensures forall i :: 0 <= i < |names| && LastOccurrence(names, i, |names|) ==>
      results[names[i]] == EntryOf(fetched[i])
  {
    results := map[];
    ghost var entries := seq(|fetched|, i requires 0 <= i < |fetched| => EntryOf(fetched[i]));
    for k := 0 to |names|
      invariant KeyedBy(results, names, entries, k)
    {
      var entry := CampaignEntry(fetched[k]);
      KeyedByStep(results, names, entries, k);
      results := results[names[k] := entry];
    }
  }

  /** `getCocCampaignTotals`: the unfiltered summary, or `null` when the
      query throws or returns nothing. */
  function CampaignTotals(f: Result<Option<Report>, string>): (m: Option<CocMetrics>)
    ensures m.Some? <==> f.Ok? && f.value.Some?
    ensures m == EntryOf(f).cocData
  {
    match f
    case Ok(rep) => ExtractSummaryTotals(rep)
    case Err(_) => None
  }
}
