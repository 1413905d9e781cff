# Ad-spend / commerce data fusion, modelled in Dafny

This project models the data-fusion core of a dashboard. The dashboard joins
advertising spend reported by the Facebook Marketing API with order data
from the Checkout Champ ("COC") back office. Each piece is modelled as it is
written and then proved:

- **Spend tree** (`src/services/fb.js`, `getFbHierarchy`): insight rows are
  folded into a campaign → adset → ad tree. Missing names become the sentinels
  `Unknown Campaign` / `Unknown Adset` / `Unknown Ad`, and spend accumulates at
  every level. The model is imperative (`spend_tree.dfy`): a loop of
  find-or-create-then-add steps. Each step is proved equal to a left fold
  `Build`, and `spend_tree_props.dfy` proves facts about that fold. Every node's
  spend is the sum of the rows under its path. Nodes exist exactly for the
  paths that occur. Names are unique at each level, and campaigns appear in
  the order their names first occur in the rows. Parent spend equals the sum of the children. The total equals the sum
  of the rows. There are never more ads than rows.
- **Commerce metrics** (`src/services/coc.js`): `fmtDate` (ISO date to
  `M/D/YY`, with a round trip), `buildMetrics` (one classifying pass over the
  transaction records, then the derived rates), the per-campaign-name loop of
  `getCocHierarchy` with its per-name error entries, and
  `getCocCampaignTotals` (`coc_stats.dfy`).
- **Merge engine** (`src/services/merger.js`): `computeMetrics` (ROAS, cost per
  purchase, average order value, conversion rate, each guarded against a zero
  denominator) and `mergeHierarchy`. The latter is three nested loops that
  join the two trees by exact name at each level, sum the account spend and
  stably sort campaigns by descending spend (`merger.dfy`, `merger_props.dfy`).
- **Order-summary adapter** (`fb-coc-dashboard/src/services/coc.js`):
  `extractSummaryTotals` and `extractRowMetrics`, which read each field from
  the first truthy key in a list of aliases. Also the adset/ad breakdown loop
  of its `getCocHierarchy`, and its `getCocCampaignTotals`
  (`report_adapter.dfy`).
- **Client administration** (`src/routes/admin.js`): the id generator (a
  lower-case slug plus the base-36 clock reading) and the add, update and
  delete handlers, as a class holding the client list (`client_admin.dfy`).

Shared types live in `basics.dfy` (Option, Result, JavaScript truthiness of
strings and numbers, ASCII case mapping) and `coc_types.dfy` (the commerce
metrics record, the hierarchy entries, and the "last occurrence of a name
wins" invariant of the per-name loops).

JavaScript's `a || b` is modelled on what the fields can hold. A string is
falsy exactly when it is empty, so an absent string field is `""`. A number is
falsy exactly when it is 0 or absent, so an absent number is `None` or is not
in the field map. A report object of the order-summary adapter is a map from
the JSON keys the adapter reads (an enumeration spelled like the keys) to
numbers.

## Model

| member | source | states |
|---|---|---|
| SpendTree.RowPath | src/services/fb.js:64-66 | a row's path has three names; each empty name becomes its level's sentinel, and every other name is kept as is |
| SpendTree.IndexOf | src/services/fb.js:69 | the key lookup: the result is the first position holding the name, or the length when no node has that name |
| SpendTree.FindNode | src/services/fb.js:69 | the loop's lookup returns the position `IndexOf` characterises |
| SpendTree.AddRow | src/services/fb.js:64-84 | one loop iteration: finds or creates the campaign, adset and ad nodes and adds the row's spend (default 0) at all three levels, equal to `Upsert` of the row's path |
| SpendTree.GetFbHierarchy | src/services/fb.js:57-95 | the whole loop yields the fold `Build(rows)`; no rows give no campaigns |
| SpendTreeProps.BuildSpendAt | src/services/fb.js:63-85 | the spend of the node at any campaign, adset or ad path is the sum of the spend of the rows whose path starts with it |
| SpendTreeProps.BuildHas | src/services/fb.js:69-83 | a node exists at a path if and only if some row's path starts with that path |
| SpendTreeProps.SentinelNames | src/services/fb.js:64-66 | a row without a campaign name is counted under the `Unknown Campaign` node |
| SpendTreeProps.BuildUnique | src/services/fb.js:69-82 | names are unique among the campaigns, among each campaign's adsets and among each adset's ads |
| SpendTreeProps.BuildNames | src/services/fb.js:69-88 | the campaign list is the rows' campaign keys without repeats, in order of first appearance |
| SpendTreeProps.BuildCoherent | src/services/fb.js:72-84 | every campaign's spend is the sum of its adsets' spend, and every adset's is the sum of its ads' spend |
| SpendTreeProps.BuildTotal | src/services/fb.js:63-72 | the campaigns' spend adds up to the total spend of all rows |
| SpendTreeProps.BuildAdCount | src/services/fb.js:81-83 | the tree never holds more ads than there are rows |
| CocStats.Unpad | src/services/coc.js:18 | `parseInt` of a two-digit field drops a leading zero and keeps the numeric value |
| CocStats.FmtDateSplit | src/services/coc.js:15-19 | the formatted date splits at `/` into exactly the unpadded month, the unpadded day and the two-digit year |
| CocStats.PadUnpad | src/services/coc.js:18 | re-padding an unpadded two-digit field gives it back |
| CocStats.FmtDateRoundTrip | src/services/coc.js:15-19 | reading the formatted date back with the century it drops gives the ISO date |
| CocStats.FmtDateExample | src/services/coc.js:15-19 | 2024-02-05 is formatted as 2/5/24 |
| CocStats.Classify | src/services/coc.js:78-92 | after upper-casing the type and the status (status from `responseType`, else `response_type`), a record is a sale, a decline, an upsell, a refund or ignored exactly under the branch conditions of the loop |
| CocStats.Derive | src/services/coc.js:95-116 | the derived fields: conversion and sales rate are sales over partials plus sales, in percent; decline rate is declines over sales plus declines; average ticket is sales total over sales; each is 0 on a zero denominator and the rates lie in 0..100; net revenue is sales total plus upsell total minus refunds |
| CocStats.Metrics | src/services/coc.js:70-73 | there are no metrics exactly when there is no transactions response or its result is not `SUCCESS` |
| CocStats.BuildMetrics | src/services/coc.js:70-117 | the counting loop computes `Metrics`: counters and sums per record kind over the records in `message.data`, else `data`, then `Derive` |
| CocStats.CountIsCardinality | src/services/coc.js:77-93 | each counter equals the number of record positions of that kind |
| CocStats.CountsPartition | src/services/coc.js:82-92 | the five kinds partition the records: their counts add up to the record count |
| CocStats.CountedAtMostRecords | src/services/coc.js:75-93 | sales, declines and upsells together never exceed the number of records |
| CocStats.MetricsCounts | src/services/coc.js:75-95 | the returned counters are the numbers of records of each kind, and partials is the lead count |
| CocStats.EmptyMetrics | src/services/coc.js:75-101 | with a successful response, no records and no leads, every field is 0 |
| CocStats.EntryFor | src/services/coc.js:142-156 | one name's entry: a failed fetch gives no data and the error message; otherwise the data is `buildMetrics` of the two responses; the adsets are always empty |
| CocStats.GetCocHierarchy | src/services/coc.js:138-161 | the result's keys are exactly the requested names; each name maps to the entry for its last occurrence; every entry has empty adsets |
| CocStats.CampaignTotals | src/services/coc.js:122-133 | the totals are `buildMetrics` of the two responses, and nothing when the fetch failed |
| CocTypes.FailedEntry | src/services/coc.js:156 | a failed name's entry has no data, no adsets and the error message |
| Merger.ComputeMetrics | src/services/merger.js:6-19 | ROAS times spend is the sales total when spend > 0; cost per purchase times sales is spend and AOV times sales is the sales total when sales > 0; conversion rate times (partials + sales) is sales × 100 when that sum is positive, else it is the commerce-side rate; each ratio is 0 on a zero denominator; everything is 0 without commerce data |
| Merger.AdsetData | src/services/merger.js:52 | an adset's commerce data is the `cocData` of the entry's adset with that exact name whenever the entry lists that name, and is found only then |
| Merger.AdData | src/services/merger.js:65 | an ad's commerce data is the entry's record for that exact adset and ad name whenever the entry lists both, and is found only then |
| Merger.MergeCampaign | src/services/merger.js:37-80 | a merged campaign keeps the campaign's name and spend, and its adsets and ads keep theirs, in input order; ads have no children; the campaign's data is the `cocData` of the entry under its name (none without one); every campaign, adset and ad carries the KPIs `computeMetrics` gives for its own spend and data |
| Merger.MergeHierarchy | src/services/merger.js:21-86 | the three nested loops and the sort compute `Merge`: config copied, spend summed, campaigns merged then sorted by spend |
| MergerProps.SortBySpendSorted | src/services/merger.js:83 | the sort's output is in non-increasing spend order |
| MergerProps.SortBySpendPermutes | src/services/merger.js:83 | the sort's output is a permutation of its input |
| MergerProps.SortBySpendStable | src/services/merger.js:83 | campaigns with equal spend keep their relative order |
| MergerProps.MergeOrdered | src/services/merger.js:37-83 | the merged campaigns are sorted by descending spend and are a permutation of one merged campaign per spend campaign |
| MergerProps.MergeStable | src/services/merger.js:83 | among merged campaigns of equal spend the input order is kept |
| MergerProps.MergeSpendTotal | src/services/merger.js:34 | the account spend is the sum of the campaigns' spend, before and after merging |
| MergerProps.MergeConfig | src/services/merger.js:22-31 | the account ids and name come from the configuration; an empty spend tree gives no campaigns and spend 0 |
| MergerProps.UnmatchedCampaign | src/services/merger.js:38-66 | a campaign with no commerce entry gets no data and all-zero KPIs at every level beneath it |
| MergerProps.UnmatchedAdset | src/services/merger.js:52-66 | an adset name missing from its campaign's entry gets no data and zero KPIs, and so do all its ads |
| MergerProps.MatchedCampaign | src/services/merger.js:38-58 | a campaign with an entry gets the entry's data and the KPIs of that data, and every adset the entry lists gets the data stored under its name and the KPIs of that data; the entry need not list any adset |
| MergerProps.MatchedAd | src/services/merger.js:65-71 | an ad listed under its listed adset gets that ad record as its data |
| MergerProps.UnmatchedAd | src/services/merger.js:65-71 | an ad its listed adset does not list gets no data and zero KPIs |
| MergerProps.MergeCampaignLocal | src/services/merger.js:38-65 | a merged campaign depends only on the entry stored under its own name |
| MergerProps.MergeExample | src/services/merger.js:6-19 | spend 100, 2 sales and sales total 200 give ROAS 2, CPP 50, AOV 100 and conversion rate 100 |
| ReportAdapter.FirstTruthy | fb-coc-dashboard/src/services/coc.js:115-129 | `a \|\| b \|\| 0`: the result is the value of the first key in the list that holds a non-zero value, or 0 |
| ReportAdapter.ResolvesUnique | fb-coc-dashboard/src/services/coc.js:115-129 | that value is uniquely determined |
| ReportAdapter.RowMetricsResolve | fb-coc-dashboard/src/services/coc.js:133-148 | `extractRowMetrics`: every metric is what its own alias chain resolves to, and a row carries no summary-only fields |
| ReportAdapter.ExtractSummaryTotals | fb-coc-dashboard/src/services/coc.js:110-111 | there are totals exactly when there is a report |
| ReportAdapter.SummaryTotalsResolve | fb-coc-dashboard/src/services/coc.js:112-131 | every summary field, including the upsell-attempt, approval and shipping fields, is what its alias chain resolves to, read from the nested `data` when it is present and from the top level otherwise |
| ReportAdapter.EmptyRowMetrics | fb-coc-dashboard/src/services/coc.js:133-147 | a row whose fields are all zero yields all-zero metrics |
| ReportAdapter.SummaryPrefersNested | fb-coc-dashboard/src/services/coc.js:113 | when nested `data` is present, the top-level fields do not matter |
| ReportAdapter.AdsMapSpec | fb-coc-dashboard/src/services/coc.js:80-86 | the ads map's keys are the non-empty ad names, each mapped to the metrics of the last row with that name |
| ReportAdapter.AdsetsMapSpec | fb-coc-dashboard/src/services/coc.js:69-87 | the adsets map's keys are the non-empty adset names; each maps to the last row with that name, its metrics and its ads map |
| ReportAdapter.BuildAds | fb-coc-dashboard/src/services/coc.js:80-86 | the ad loop builds `AdsMap` |
| ReportAdapter.BuildAdsets | fb-coc-dashboard/src/services/coc.js:69-87 | the adset loop builds `AdsetsMap` |
| ReportAdapter.EntryOf | fb-coc-dashboard/src/services/coc.js:57-91 | one name's entry: a failed fetch gives an error entry; otherwise there is no error, the data is the report's summary totals (present exactly when there is a report), the adsets are the map `AdsetsMapSpec` describes built from the nested breakdown, and there are none without a nested `data` |
| ReportAdapter.CampaignEntry | fb-coc-dashboard/src/services/coc.js:57-91 | the loop body computes `EntryOf` |
| ReportAdapter.GetCocHierarchy | fb-coc-dashboard/src/services/coc.js:53-95 | the result's keys are exactly the requested names, each holding the entry for its last occurrence |
| ReportAdapter.CampaignTotals | fb-coc-dashboard/src/services/coc.js:100-108 | the totals exist exactly when the fetch succeeded with a report, and equal that report's summary totals |
| ClientAdmin.CollapseShape | src/routes/admin.js:97 | replacing runs of characters outside a-z0-9 leaves only slug characters and dashes, never two dashes in a row |
| ClientAdmin.CollapseKept | src/routes/admin.js:97 | the replacement keeps every a-z0-9 character, in order |
| ClientAdmin.CollapseAppend | src/routes/admin.js:97 | the replacement works piece by piece across any boundary that follows an a-z0-9 character, so runs are never split or joined |
| ClientAdmin.CollapseRun | src/routes/admin.js:97 | a whole non-empty run of characters outside a-z0-9 becomes exactly one dash |
| ClientAdmin.KeptStrip | src/routes/admin.js:98 | stripping an edge dash loses no a-z0-9 character |
| ClientAdmin.SlugProperties | src/routes/admin.js:95-98 | a slug has only a-z, 0-9 and single inner dashes, no dash at either end, and keeps every letter and digit of the lower-cased name in order |
| ClientAdmin.SlugExample | src/routes/admin.js:95-98 | "A B." gives "a-b": lower-cased, the space replaced by a dash, the trailing dash stripped |
| ClientAdmin.ToBase36 | src/routes/admin.js:99 | the base-36 form is non-empty, uses 0-9 and a-z, and has no leading zero except for 0 itself |
| ClientAdmin.Base36RoundTrip | src/routes/admin.js:99 | reading the base-36 form back gives the number |
| ClientAdmin.GenerateId | src/routes/admin.js:94-100 | the id is the slug, a dash, then the base-36 clock reading, which decodes back to the clock value |
| ClientAdmin.Trim | src/routes/admin.js:126-129 | the result has no white space at either end and is a contiguous piece of the input that drops only white space |
| ClientAdmin.StoredAccount | src/routes/admin.js:130-135 | an ad account is stored with trimmed strings, and with a CPP target exactly when the target is truthy |
| ClientAdmin.NewClient | src/routes/admin.js:124-136 | a new client gets the generated id and trimmed fields; missing ad accounts become an empty list |
| ClientAdmin.FindIndex | src/routes/admin.js:150 | `findIndex`: the first position whose id matches, or none when no client has that id |
| ClientAdmin.Added | src/routes/admin.js:118-138 | adding fails exactly when a required field is empty; otherwise the list gains the new client at the end and nothing else changes |
| ClientAdmin.Patch | src/routes/admin.js:155-169 | the id is kept; each supplied field is replaced by its trimmed value and every other field is kept |
| ClientAdmin.Updated | src/routes/admin.js:150-169 | updating fails exactly when no client has the id; otherwise only the first client with it is patched and the length is unchanged |
| ClientAdmin.Deleted | src/routes/admin.js:182-185 | deleting fails exactly when no client has the id; otherwise the first client with it is removed and the rest keep their order |
| ClientAdmin.FindIndexUnique | src/routes/admin.js:150 | any position that satisfies the first-match description is the one `findIndex` returns |
| ClientAdmin.UpdateKeepsIds | src/routes/admin.js:155-169 | an update never changes any client's id |
| ClientAdmin.UpdateIdempotent | src/routes/admin.js:155-169 | applying the same update twice equals applying it once |
| ClientAdmin.UpdateWithNothing | src/routes/admin.js:157-168 | an update that supplies no field leaves the list unchanged |
| ClientAdmin.AddThenDelete | src/routes/admin.js:138-185 | when the generated id is new, deleting it right after adding gives back the original list |
| ClientAdmin.DeleteRemovesId | src/routes/admin.js:182-185 | after deleting an id that occurs once, no client has it |
| ClientAdmin.ClientStore.Add | src/routes/admin.js:115-144 | the stored list becomes `Added` of the old list, the new client is returned, and a rejected add changes nothing |
| ClientAdmin.ClientStore.Update | src/routes/admin.js:147-176 | the stored list becomes `Updated` of the old list, the patched client is returned, and an unknown id changes nothing |
| ClientAdmin.ClientStore.Delete | src/routes/admin.js:179-191 | the stored list becomes `Deleted` of the old list, the removed client is returned, and an unknown id changes nothing |

## Left out

- Network I/O is not modelled: the paginated insights fetch (`src/services/fb.js:10-50`), the transactions and leads queries, the raw debug call, the order-summary request and the client-list persistence. Their results are parameters: the insight rows, a `Result` per campaign name, and the client list held by `ClientStore`.
- The Express routing, authentication middleware, server set-up, configuration loading and `getCurrentClients` JSON parsing are outside the fusion core.
- Concurrency is not modelled. `Promise.all` fan-out and per-name sequencing do not change the results, so the two queries for a name arrive together as one value.
- Floating-point arithmetic is not modelled: amounts and spends are exact reals, so `NaN`, infinities and rounding are not modelled. `parseFloat` and `parseInt` of strings are not modelled either; fields are taken as already numeric. A numeric string such as "0", which JavaScript treats as truthy, has no counterpart.
- JavaScript object key order is not modelled: integer-like keys are enumerated before others by `Object.values`. The spend tree keeps first-appearance order for all names, and maps in the commerce hierarchy are unordered. Keys such as `__proto__` are ordinary strings here.
- Case mapping and trimming cover ASCII only. Unicode case mapping of `toLowerCase`/`toUpperCase` and Unicode white space in `trim` are not modelled.
- `Date.now()` is the parameter `now`, a natural number of milliseconds.
- CocStats.FmtDate: requires a zero-padded `YYYY-MM-DD` string. The source splits any string on '-' and formats whatever parts it finds (for example `2024-2-5`); the model does not describe inputs of any other shape.
- Merger.MergeHierarchy: the merged account's constant `cocData: null` field is omitted. Each node's KPIs are grouped in a `Kpis` record instead of being spread into the node.
- Merger.SortBySpend: the sort is a stable insertion sort on values, not an in-place `Array.prototype.sort` (which is stable in current engines).
- ReportAdapter.EntryOf: a failure partway through the breakdown loop (a malformed row that throws) is not modelled. Only a failed order-summary fetch, which yields the error entry, is modelled.
- ClientAdmin.StoredAccount: ad-account records whose string fields are missing (where `trim` would throw and the handler would answer 500) are not modelled, and `parseInt` of the campaign id is taken as already done.
- ClientAdmin.ClientStore.Add: two clients added with the same name in the same millisecond would get the same id; the model does not rule this out, and `AddThenDelete` assumes a fresh id.
