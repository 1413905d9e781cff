/** The transaction-query commerce adapter: the M/D/YY date format the
    commerce API expects, the one-pass metric aggregation over transaction
    records, and the per-campaign-name loop with per-name failure isolation.
    Fetch results are inputs. */
module CocStats {
  import opened Basics
  import opened CocTypes

  // ---------------------------------------------------------------------
  // Date format

  /** A `YYYY-MM-DD` date string. */
  predicate IsIsoDate(d: string) {
    && |d| == 10
    && d[4] == '-' && d[7] == '-'
    && forall i :: 0 <= i < 10 && i != 4 && i != 7 ==> IsDigit(d[i])
  }

  predicate AllDigits(s: string) {
    forall i :: 0 <= i < |s| ==> IsDigit(s[i])
  }

  /** The number a string of decimal digits denotes. */
  function DigitsValue(s: string): nat
    requires AllDigits(s)
    decreases |s|
  {
    if s == [] then 0
    else 10 * DigitsValue(s[..|s| - 1]) + (s[|s| - 1] as int - '0' as int)
  }

  /** `parseInt` of a two-digit field, printed back: the leading zero goes. */
  function Unpad(two: string): (r: string)
    requires |two| == 2 && AllDigits(two)
    ensures 1 <= |r| <= 2 && AllDigits(r)
    ensures |r| == 2 ==> r[0] != '0'
    ensures DigitsValue(r) == DigitsValue(two)
  {
    assert two[..1] == [two[0]];
    if two[0] == '0' then two[1..] else two
  }

  /** `fmtDate`: `YYYY-MM-DD` becomes `M/D/YY`. */
  function FmtDate(d: string): (r: string)
    requires IsIsoDate(d)
  {
    Unpad(d[5..7]) + "/" + Unpad(d[8..10]) + "/" + d[2..4]
  }

  /** `s.split(c)`. */
  function Split(s: string, c: char): (parts: seq<string>)
    ensures |parts| >= 1
    decreases |s|
  {
    var i := Find(s, c);
    if i == |s| then [s] else [s[..i]] + Split(s[i + 1..], c)
  }

  lemma SplitCons(a: string, rest: string, c: char)
    requires c !in a
    ensures Split(a + [c] + rest, c) == [a] + Split(rest, c)
  {
    var s := a + [c] + rest;
    var i := Find(s, c);
    assert forall k :: 0 <= k < |a| ==> s[k] == a[k] && a[k] != c;
    assert s[|a|] == c;
    assert i == |a|;
    assert s[..|a|] == a;
    assert s[|a| + 1..] == rest;
  }

  lemma SplitNone(s: string, c: char)
    requires c !in s
    ensures Split(s, c) == [s]
  {
    assert forall k :: 0 <= k < |s| ==> s[k] != c;
  }

  /** Two-digit field from `M` or `D`. */
  function Pad(s: string): string {
    if |s| == 1 then "0" + s else s
  }

  /** Reads an `M/D/YY` date back into `YYYY-MM-DD`, given the century the
      format drops. */
  function ToIso(f: string, century: string): Option<string> {
    var parts := Split(f, '/');
    if |parts| != 3 then None
    else Some(century + parts[2] + "-" + Pad(parts[0]) + "-" + Pad(parts[1]))
  }

  /** Re-padding undoes `Unpad`. */
  lemma PadUnpad(two: string)
    requires |two| == 2 && AllDigits(two)
    ensures Pad(Unpad(two)) == two
  {
    if two[0] == '0' {
      assert two == "0" + two[1..];
    }
  }

  /** Nothing but the century is lost: month and day keep their values
      without leading zeros and the year keeps its last two digits. */
  lemma FmtDateSplit(d: string)
    requires IsIsoDate(d)
    ensures Split(FmtDate(d), '/') == [Unpad(d[5..7]), Unpad(d[8..10]), d[2..4]]
  {
    var m, dd, yy := Unpad(d[5..7]), Unpad(d[8..10]), d[2..4];
    assert '/' !in m && '/' !in dd;
    assert '/' !in yy by {
      assert yy[0] == d[2] && yy[1] == d[3];
    }
    assert FmtDate(d) == m + ['/'] + (dd + ['/'] + yy);
    SplitCons(m, dd + ['/'] + yy, '/');
    SplitCons(dd, yy, '/');
    SplitNone(yy, '/');
  }

  /** Reading the formatted date back with its century gives the ISO date. */
  lemma FmtDateRoundTrip(d: string)
    requires IsIsoDate(d)
    ensures ToIso(FmtDate(d), d[..2]) == Some(d)
  {
    FmtDateSplit(d);
    assert AllDigits(d[5..7]) by {
      assert d[5..7][0] == d[5] && d[5..7][1] == d[6];
    }
    assert AllDigits(d[8..10]) by {
      assert d[8..10][0] == d[8] && d[8..10][1] == d[9];
    }
    PadUnpad(d[5..7]);
    PadUnpad(d[8..10]);
    assert d == d[..2] + d[2..4] + "-" + d[5..7] + "-" + d[8..10];
  }

  /** 2024-02-05 is sent as 2/5/24. */
  lemma FmtDateExample()
    ensures FmtDate("2024-02-05") == "2/5/24"
  {
    assert "2024-02-05"[5..7] == "02" && "2024-02-05"[8..10] == "05" && "2024-02-05"[2..4] == "24";
  }

  // ---------------------------------------------------------------------
  // Metric aggregation

  /** One transaction record. Empty strings stand for missing fields; the
      amount fields are the numbers the record carries, `None` when absent. */
  datatype TxnRecord = TxnRecord(
    txnType: string,
    responseType: string,
    response_type: string,
    totalAmount: Option<real>,
    total_amount: Option<real>,
    amount: Option<real>)

  /** The transactions query response: `result` and the records, found in
      `message.data` or in `data`. */
  datatype TxnResponse = TxnResponse(result: string, messageData: Option<seq<TxnRecord>>, data: Option<seq<TxnRecord>>)

  /** The leads query response, reduced to the lengths of its `message.data`
      and `data` lists when they are present. */
  datatype LeadResponse = LeadResponse(messageCount: Option<nat>, dataCount: Option<nat>)

  datatype TxnKind = Sale | Decline | Upsell | Refund | Ignored

  function Status(r: TxnRecord): string {
    UpperAscii(OrStr(r.responseType, r.response_type))
  }

  /** How the aggregation loop treats a record, after upper-casing its type
      and status. */
  function Classify(r: TxnRecord): (k: TxnKind)
    ensures k == Sale <==> UpperAscii(r.txnType) == "SALE" && Status(r) == "SUCCESS"
    ensures k == Decline <==> UpperAscii(r.txnType) == "SALE" && Status(r) != "SUCCESS"
    ensures k == Upsell <==> UpperAscii(r.txnType) == "UPSALE" && Status(r) == "SUCCESS"
    ensures k == Refund <==> UpperAscii(r.txnType) == "REFUND"
    ensures k == Ignored <==>
      UpperAscii(r.txnType) !in {"SALE", "REFUND"} && !(UpperAscii(r.txnType) == "UPSALE" && Status(r) == "SUCCESS")
  {
    var t, s := UpperAscii(r.txnType), Status(r);
    if t == "SALE" && s == "SUCCESS" then Sale
    else if t == "SALE" && s != "SUCCESS" then Decline
    else if t == "UPSALE" && s == "SUCCESS" then Upsell
    else if t == "REFUND" then Refund
    else Ignored
  }

  /** `parseFloat(row.totalAmount || row.total_amount || row.amount || 0)`. */
  function Amount(r: TxnRecord): real {
    OrNum(r.totalAmount, OrNum(r.total_amount, OrNum(r.amount, 0.0)))
  }

  /** `txnData.message?.data || txnData.data || []`; a present list wins even
      when it is empty. */
  function Records(t: TxnResponse): seq<TxnRecord> {
    if t.messageData.Some? then t.messageData.value
    else if t.data.Some? then t.data.value
    else []
  }

  /** `leadData?.message?.data?.length || leadData?.data?.length || 0`; an
      empty first list falls through to the second. */
  function Partials(leads: Option<LeadResponse>): nat {
    match leads
    case None => 0
    case Some(l) =>
      if l.messageCount.Some? && l.messageCount.value != 0 then l.messageCount.value
      else if l.dataCount.Some? then l.dataCount.value
      else 0
  }

  /** Number of records of kind `k`. */
  function Count(recs: seq<TxnRecord>, k: TxnKind): nat
    decreases |recs|
  {
    if recs == [] then 0
    else Count(recs[..|recs| - 1], k) + (if Classify(recs[|recs| - 1]) == k then 1 else 0)
  }

  /** Sum of the amounts of the records of kind `k`. */
  function AmountSum(recs: seq<TxnRecord>, k: TxnKind): real
    decreases |recs|
  {
    if recs == [] then 0.0
    else AmountSum(recs[..|recs| - 1], k) + (if Classify(recs[|recs| - 1]) == k then Amount(recs[|recs| - 1]) else 0.0)
  }

  /** `part / whole * 100` for a part of a positive whole. */
  function Percent(part: nat, whole: nat): (p: real)
    requires part <= whole && whole > 0
    ensures p * whole as real == part as real * 100.0
    ensures 0.0 <= p <= 100.0
  {
    var q := part as real / whole as real;
    assert q * whole as real == part as real;
    assert (1.0 - q) * whole as real == (whole - part) as real;
    q * 100.0
  }

  /** The derived fields computed after the loop. */
  function Derive(partials: nat, sales: nat, declines: nat, upsells: nat,
                  salesTotal: real, upsellTotal: real, refundAmt: real): (m: CocMetrics)
    ensures m.partials == partials as real && m.sales == sales as real
    ensures m.declines == declines as real && m.upsells == upsells as real
    ensures m.salesTotal == salesTotal && m.upsellTotal == upsellTotal && m.refundAmt == refundAmt
    ensures m.netRevenue == salesTotal + upsellTotal - refundAmt
    ensures partials + sales > 0 ==> m.convRate * (partials + sales) as real == sales as real * 100.0
    ensures partials + sales == 0 ==> m.convRate == 0.0
    ensures 0.0 <= m.convRate <= 100.0
    ensures m.salesRate == m.convRate
    ensures sales + declines > 0 ==> m.declineRate * (sales + declines) as real == declines as real * 100.0
    ensures sales + declines == 0 ==> m.declineRate == 0.0
    ensures 0.0 <= m.declineRate <= 100.0
    ensures sales > 0 ==> m.avgTicket * sales as real == salesTotal
    ensures sales == 0 ==> m.avgTicket == 0.0
    ensures m.extras.None?
  {
    var total := partials + sales;
    var convRate := if total > 0 then Percent(sales, total) else 0.0;
    var declineRate := if sales + declines > 0 then Percent(declines, sales + declines) else 0.0;
    var salesRate := if total > 0 then Percent(sales, total) else 0.0;
    var avgTicket := if sales > 0 then salesTotal / sales as real else 0.0;
    CocMetrics(partials as real, convRate, declines as real, declineRate, sales as real, salesRate,
               salesTotal, upsells as real, upsellTotal, refundAmt,
               salesTotal + upsellTotal - refundAmt, avgTicket, None)
  }

  /** What `buildMetrics` returns. */
  function Metrics(txn: Option<TxnResponse>, leads: Option<LeadResponse>): (m: Option<CocMetrics>)
    ensures m.None? <==> txn.None? || txn.value.result != "SUCCESS"
  {
    if txn.None? || txn.value.result != "SUCCESS" then None
    else
      var recs := Records(txn.value);
      Some(Derive(Partials(leads), Count(recs, Sale), Count(recs, Decline), Count(recs, Upsell),
                  AmountSum(recs, Sale), AmountSum(recs, Upsell), AmountSum(recs, Refund)))
  }

  /** `buildMetrics`: one pass over the records keeping counters and sums,
      then the derived rates. */
  method BuildMetrics(txn: Option<TxnResponse>, leads: Option<LeadResponse>) returns (m: Option<CocMetrics>)
    ensures m == Metrics(txn, leads)
  {
    if txn.None? || txn.value.result != "SUCCESS" {
      return None;
    }
    var records := Records(txn.value);
    var sales, declines, upsells := 0, 0, 0;
    var salesTotal, upsellTotal, refundAmt := 0.0, 0.0, 0.0;
    for i := 0 to |records|
      invariant sales == Count(records[..i], Sale)
      invariant declines == Count(records[..i], Decline)
      invariant upsells == Count(records[..i], Upsell)
      invariant salesTotal == AmountSum(records[..i], Sale)
      invariant upsellTotal == AmountSum(records[..i], Upsell)
      invariant refundAmt == AmountSum(records[..i], Refund)
    {
      var row := records[i];
      var txnType := UpperAscii(row.txnType);
      var status := UpperAscii(OrStr(row.responseType, row.response_type));
      var amt := Amount(row);
      if txnType == "SALE" && status == "SUCCESS" {
        sales := sales + 1;
        salesTotal := salesTotal + amt;
      } else if txnType == "SALE" && status != "SUCCESS" {
        declines := declines + 1;
      } else if txnType == "UPSALE" && status == "SUCCESS" {
        upsells := upsells + 1;
        upsellTotal := upsellTotal + amt;
      } else if txnType == "REFUND" {
        refundAmt := refundAmt + amt;
      }
      assert records[..i + 1][..i] == records[..i];
    }
    assert records[..|records|] == records;
    m := Some(Derive(Partials(leads), sales, declines, upsells, salesTotal, upsellTotal, refundAmt));
  }

  /** The positions of `recs` holding a record of kind `k`. */
  function KindPositions(recs: seq<TxnRecord>, k: TxnKind): set<int> {
    set i | 0 <= i < |recs| && Classify(recs[i]) == k
  }

  /** The counters against an independent definition: the number of
      positions holding a record of that kind. */
  lemma KindPositionsSnoc(recs: seq<TxnRecord>, k: TxnKind)
    requires recs != []
    ensures var n := |recs| - 1;
      KindPositions(recs, k) == KindPositions(recs[..n], k) + (if Classify(recs[n]) == k then {n} else {})
  {
    var n := |recs| - 1;
    forall i | 0 <= i < n ensures recs[..n][i] == recs[i] { }
  }

  lemma {:induction false} CountIsCardinality(recs: seq<TxnRecord>, k: TxnKind)
    ensures Count(recs, k) == |KindPositions(recs, k)|
    decreases |recs|
  {
    if recs != [] {
      var n := |recs| - 1;
      CountIsCardinality(recs[..n], k);
      KindPositionsSnoc(recs, k);
      var before := KindPositions(recs[..n], k);
      assert n !in before;
      if Classify(recs[n]) == k {
        assert |before + {n}| == |before| + 1;
      }
    }
  }

  /** Every record falls in exactly one class. */
  lemma {:induction false} CountsPartition(recs: seq<TxnRecord>)
    ensures Count(recs, Sale) + Count(recs, Decline) + Count(recs, Upsell)
          + Count(recs, Refund) + Count(recs, Ignored) == |recs|
    decreases |recs|
  {
    if recs != [] {
      CountsPartition(recs[..|recs| - 1]);
    }
  }

  /** Sales, declines and upsells together never exceed the record count. */
  lemma CountedAtMostRecords(txn: Option<TxnResponse>, leads: Option<LeadResponse>)
    requires Metrics(txn, leads).Some?
    ensures var m := Metrics(txn, leads).value;
      m.sales + m.declines + m.upsells <= |Records(txn.value)| as real
  {
    CountsPartition(Records(txn.value));
  }

  /** The counters are the numbers of record positions of each kind, and
      the partials are the lead count. */
  lemma MetricsCounts(txn: Option<TxnResponse>, leads: Option<LeadResponse>)
    requires Metrics(txn, leads).Some?
    ensures var m, recs := Metrics(txn, leads).value, Records(txn.value);
      && m.sales == |KindPositions(recs, Sale)| as real
      && m.declines == |KindPositions(recs, Decline)| as real
      && m.upsells == |KindPositions(recs, Upsell)| as real
      && m.partials == Partials(leads) as real
  {
    var recs := Records(txn.value);
    CountIsCardinality(recs, Sale);
    CountIsCardinality(recs, Decline);
    CountIsCardinality(recs, Upsell);
  }

  /** With no records and no leads every numeric field is 0. */
  lemma EmptyMetrics(txn: TxnResponse, leads: Option<LeadResponse>)
    requires txn.result == "SUCCESS" && Records(txn) == [] && Partials(leads) == 0
    ensures Metrics(Some(txn), leads) == Some(CocMetrics(0.0, 0.0, 0.0, 0.0, 0.0, 0.0, 0.0, 0.0, 0.0, 0.0, 0.0, 0.0, None))
  {
  }

  // ---------------------------------------------------------------------
  // Per-campaign-name loop

  /** What the two concurrent queries for one name produced: the
      transactions response (the query may also return nothing) and the
      leads response (`null` when that query failed). A failure of the
      transactions query is an `Err` with its message. */
  datatype StatsFetch = StatsFetch(txn: Option<TxnResponse>, leads: Option<LeadResponse>)

  /** The entry stored for one campaign name. */
  function EntryFor(f: Result<StatsFetch, string>): (e: CocEntry)
    ensures e.adsets == map[]
    ensures f.Err? ==> e.cocData.None? && e.error == Some(f.error)
    ensures f.Ok? ==> e.error.None? && e.cocData == Metrics(f.value.txn, f.value.leads)
  {
    match f
    case Ok(s) => CocEntry(Metrics(s.txn, s.leads), map[], None)
    case Err(msg) => FailedEntry(msg)
  }

  /** `getCocHierarchy`: names are processed in order, one key per name; a
      failed lookup records a failed entry and the loop goes on. */
  method GetCocHierarchy(names: seq<string>, fetched: seq<Result<StatsFetch, string>>)
    returns (results: map<string, CocEntry>)
    requires |fetched| == |names|
    ensures results.Keys == set i | 0 <= i < |names| :: names[i]
    ensures forall i :: 0 <= i < |names| && LastOccurrence(names, i, |names|) ==>
      results[names[i]] == EntryFor(fetched[i])
    ensures forall n :: n in results ==> results[n].adsets == map[]
  {
    results := map[];
    ghost var entries := seq(|fetched|, i requires 0 <= i < |fetched| => EntryFor(fetched[i]));
    for k := 0 to |names|
      invariant KeyedBy(results, names, entries, k)
      invariant forall n :: n in results ==> results[n].adsets == map[]
    {
      var entry;
      match fetched[k] {
        case Ok(s) =>
          var cocData := BuildMetrics(s.txn, s.leads);
          entry := CocEntry(cocData, map[], None);
        case Err(msg) =>
          entry := FailedEntry(msg);
      }
      KeyedByStep(results, names, entries, k);
      results := results[names[k] := entry];
    }
  }

  /** `getCocCampaignTotals`: the unfiltered metrics, or `null` when the
      query throws. */
  function CampaignTotals(f: Result<StatsFetch, string>): (m: Option<CocMetrics>)
    ensures f.Err? ==> m.None?
    ensures m == EntryFor(f).cocData
  {
    match f
    case Ok(s) => Metrics(s.txn, s.leads)
    case Err(_) => None
  }
}
