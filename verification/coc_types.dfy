/** The commerce-side records shared by both commerce adapters and the merge
    engine. */
module CocTypes {
  import opened Basics

  /** Fields that only the report-based campaign summary carries. */
  datatype SummaryExtras = SummaryExtras(upsellAttempts: real, upsellApproval: real, shipping: real)

  /** The per-scope commerce metrics object (`cocData`). Every adapter fills
      the same twelve fields; `extras` is `Some` only for a report summary. */
  datatype CocMetrics = CocMetrics(
    partials: real,
    convRate: real,
    declines: real,
    declineRate: real,
    sales: real,
    salesRate: real,
    salesTotal: real,
    upsells: real,
    upsellTotal: real,
    refundAmt: real,
    netRevenue: real,
    avgTicket: real,
    extras: Option<SummaryExtras>)

  /** `{ cocData, ads }` stored per adset name. */
  datatype AdsetEntry = AdsetEntry(cocData: Option<CocMetrics>, ads: map<string, CocMetrics>)

  /** `{ cocData, adsets, error? }` stored per campaign name. */
  datatype CocEntry = CocEntry(cocData: Option<CocMetrics>, adsets: map<string, AdsetEntry>, error: Option<string>)

  /** The entry recorded when one campaign name's lookup throws. */
  function FailedEntry(message: string): (e: CocEntry)
    ensures e.cocData.None? && e.adsets == map[] && e.error == Some(message)
  {
    CocEntry(None, map[], Some(message))
  }

  /** Position `i` holds the last occurrence of its name among the first
      `upTo` names: a later assignment under the same key would replace it. */
  predicate LastOccurrence(names: seq<string>, i: nat, upTo: nat)
    requires i < upTo <= |names|
  {
    forall j :: i < j < upTo ==> names[j] != names[i]
  }

  /** `results` is what assigning `values[i]` under `names[i]` for each
      `i < upTo`, in order, produces from an empty object. */
  predicate KeyedBy<V(==)>(results: map<string, V>, names: seq<string>, values: seq<V>, upTo: nat)
    requires upTo <= |names| && upTo <= |values|
  {
    && results.Keys == (set i | 0 <= i < upTo :: names[i])
    && forall i :: 0 <= i < upTo && LastOccurrence(names, i, upTo) ==> results[names[i]] == values[i]
  }

  /** One more assignment extends `KeyedBy` by one position. */
  lemma KeyedByStep<V>(results: map<string, V>, names: seq<string>, values: seq<V>, k: nat)
    requires k < |names| && k < |values|
    requires KeyedBy(results, names, values, k)
    ensures KeyedBy(results[names[k] := values[k]], names, values, k + 1)
  {
    var next := results[names[k] := values[k]];
    assert (set i | 0 <= i < k + 1 :: names[i]) == (set i | 0 <= i < k :: names[i]) + {names[k]};
    forall i | 0 <= i < k + 1 && LastOccurrence(names, i, k + 1)
      ensures next[names[i]] == values[i]
    {
      if i < k {
        assert LastOccurrence(names, i, k) && names[k] != names[i];
      }
    }
  }
}
