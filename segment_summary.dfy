/** The segment summary (`create_grouped_segments_df`, data_manager.py:108-147):
    one row per client segment with its deal counts, conversion rate, share
    of the deals, converted revenue, average deal size, average lead time
    and share of the converted revenue, all before rounding. */
module SegmentSummary {
  import opened Wrappers
  import opened Frames
  import opened Seqs
  import opened Rollup

  /** One row of the summary. A missing cell of the result (NaN) is None. */
  datatype SegmentRow = SegmentRow(
    segment: Value,
    convertedDeals: nat,
    totalDeals: nat,
    conversionRate: real,
    pctTotalDeals: real,
    segmentRevenue: real,
    avgDealSize: real,
    avgLeadTime: Option<real>,
    percentTotalRevenue: Option<real>)

  /** The columns the summary indexes, in the order it indexes them. */
  const SegmentColumns: seq<string> := ["client_segment", "converted", "decimal_value", "lead_time"]

  /** The row of segment `s` with tally `st`, when `n` deals have a segment
      and the converted deals of the whole table bring in `revenue`. The
      segment's revenue and average deal size are NaN, then 0, when it has no
      converted deal, and so is its share of the revenue, which stays NaN;
      a mean over no lead times is NaN. */
  function RowFrom(s: Value, st: Stats, n: nat, revenue: real): SegmentRow
  {
    SegmentRow(
      s,
      st.converted,
      st.count,
      if st.count == 0 then 0.0 else st.converted as real / st.count as real,
      if n == 0 then 0.0 else st.count as real / n as real * 100.0,
      if st.converted == 0 then 0.0 else st.revenue,
      if st.converted == 0 then 0.0 else st.revenue / st.converted as real,
      if st.leadCount == 0 then None else Some(st.leadSum / st.leadCount as real),
      if st.converted == 0 || revenue == 0.0 then None else Some(st.revenue / revenue * 100.0))
  }

  /** The row of segment `s` of the deals `ds`. */
  function RowOf(ds: seq<Deal>, s: Value): SegmentRow
  {
    RowFrom(s, Tally(ds, Segment(s)), Tally(ds, Segmented).count, Tally(ds, AllDeals).revenue)
  }

  function RowFn(ds: seq<Deal>): Value -> SegmentRow
  {
    s => RowOf(ds, s)
  }

  /** The summary of the deals `ds`: one row per observed segment. */
  function SegmentTable(ds: seq<Deal>): seq<SegmentRow>
  {
    Map(Observed(ds), RowFn(ds))
  }

  /** Builds the summary of a cleaned table: the tallies of one pass, then
      one row per segment. */
  method SummarizeSegments(deals: Frame) returns (result: Result<seq<SegmentRow>, Failure>)
    ensures FirstMissing(SegmentColumns, deals.columns).Some? ==>
      result == Err(MissingColumn(FirstMissing(SegmentColumns, deals.columns).value))
    ensures FirstMissing(SegmentColumns, deals.columns).None? ==>
      result == Ok(SegmentTable(DealsOf(deals)))
  {
    var missing := FirstMissing(SegmentColumns, deals.columns);
    if missing.Some? {
      return Err(MissingColumn(missing.value));
    }
    var ds := DealsOf(deals);
    var order, groups, n, revenue := Tabulate(ds);
    var rows: seq<SegmentRow> := [];
    var j := 0;
    while j < |order|
      invariant 0 <= j <= |order|
      invariant |rows| == j
      invariant forall k :: 0 <= k < j ==> rows[k] == RowOf(ds, order[k])
    {
      rows := rows + [RowFrom(order[j], Lookup(groups, order[j]), n, revenue)];
      j := j + 1;
    }
    assert rows == SegmentTable(ds);
    return Ok(rows);
  }

  /** No two rows are about the same segment. */
  lemma SegmentRowsDistinct(ds: seq<Deal>)
    ensures forall k, l :: 0 <= k < l < |SegmentTable(ds)| ==>
      SegmentTable(ds)[k].segment != SegmentTable(ds)[l].segment
  {
    var t, o := SegmentTable(ds), Observed(ds);
    assert forall k :: 0 <= k < |t| ==> t[k].segment == o[k];
  }

  /** Every row is about a segment, not a missing one, that some deal has. */
  lemma SegmentRowsObserved(ds: seq<Deal>)
    ensures forall k :: 0 <= k < |SegmentTable(ds)| ==>
      SegmentTable(ds)[k].segment != Null &&
      exists i :: 0 <= i < |ds| && ds[i].segment == SegmentTable(ds)[k].segment
  {
    var t, o := SegmentTable(ds), Observed(ds);
    forall k | 0 <= k < |t|
      ensures t[k].segment != Null && exists i :: 0 <= i < |ds| && ds[i].segment == t[k].segment
    {
      assert t[k].segment == o[k] && o[k] in o;
      ObservedSound(ds, o[k]);
    }
  }

  /** Every segment that some deal has gets a row. */
  lemma SegmentRowsComplete(ds: seq<Deal>)
    ensures forall i :: 0 <= i < |ds| && ds[i].segment != Null ==>
      exists k :: 0 <= k < |SegmentTable(ds)| && SegmentTable(ds)[k].segment == ds[i].segment
  {
    var t, o := SegmentTable(ds), Observed(ds);
    forall i | 0 <= i < |ds| && ds[i].segment != Null
      ensures exists k :: 0 <= k < |t| && t[k].segment == ds[i].segment
    {
      var k :| 0 <= k < |o| && o[k] == ds[i].segment;
      assert t[k].segment == ds[i].segment;
    }
  }

  /** Each row counts the deals of its segment: at least one, of which
      `convertedDeals` are converted, so the conversion rate is their ratio
      and lies between 0 and 1. */
  lemma SegmentRowCounts(ds: seq<Deal>, k: nat)
    requires k < |SegmentTable(ds)|
    ensures var r := SegmentTable(ds)[k];
      && r.totalDeals == Tally(ds, Segment(r.segment)).count
      && r.convertedDeals == Tally(ds, Segment(r.segment)).converted
      && 1 <= r.totalDeals
      && r.convertedDeals <= r.totalDeals
      && r.conversionRate == r.convertedDeals as real / r.totalDeals as real
      && 0.0 <= r.conversionRate <= 1.0
  {
    var s := Observed(ds)[k];
    ObservedNonEmpty(ds, s);
    TallyBalance(ds, Segment(s));
  }

  /** A segment's revenue is what its converted deals bring in, and its
      average deal size is that revenue shared out over them; a segment
      without converted deals has 0 of both. */
  lemma SegmentRowRevenue(ds: seq<Deal>, k: nat)
    requires k < |SegmentTable(ds)|
    ensures var r := SegmentTable(ds)[k];
      && r.segmentRevenue == Tally(ds, Segment(r.segment)).revenue
      && r.avgDealSize * r.convertedDeals as real == r.segmentRevenue
      && (r.convertedDeals == 0 ==> r.segmentRevenue == 0.0 && r.avgDealSize == 0.0)
  {
    TallyBalance(ds, Segment(Observed(ds)[k]));
  }

  /** The average lead time is the mean of the lead times the segment's deals
      have, and is missing when none has one. */
  lemma SegmentRowLeadTime(ds: seq<Deal>, k: nat)
    requires k < |SegmentTable(ds)|
    ensures var r := SegmentTable(ds)[k];
      var st := Tally(ds, Segment(r.segment));
      && (r.avgLeadTime.None? <==> st.leadCount == 0)
      && (r.avgLeadTime.Some? ==> r.avgLeadTime.value * st.leadCount as real == st.leadSum)
  {
  }

  /** A row's share of the revenue, scaled back by what all converted deals
      bring in, is the row's revenue as a percentage. */
  predicate ShareOfRevenue(r: SegmentRow, total: real)
  {
    r.percentTotalRevenue.Some? ==> r.percentTotalRevenue.value * total == 100.0 * r.segmentRevenue
  }

  /** The share of the revenue is missing exactly for segments without
      converted deals (and for a table whose converted deals bring in 0);
      otherwise it is the segment's revenue as a percentage of the total. */
  lemma SegmentRowShare(ds: seq<Deal>, k: nat)
    requires k < |SegmentTable(ds)|
    ensures var r := SegmentTable(ds)[k];
      && (r.percentTotalRevenue.None? <==> r.convertedDeals == 0 || Tally(ds, AllDeals).revenue == 0.0)
      && ShareOfRevenue(r, Tally(ds, AllDeals).revenue)
  {
    var s := Observed(ds)[k];
    var total := Tally(ds, AllDeals).revenue;
    assert SegmentTable(ds)[k] == RowFrom(s, Tally(ds, Segment(s)), Tally(ds, Segmented).count, total);
    RowShare(s, Tally(ds, Segment(s)), Tally(ds, Segmented).count, total);
  }

  lemma RowShare(s: Value, st: Stats, n: nat, total: real)
    ensures ShareOfRevenue(RowFrom(s, st, n, total), total)
  {
    if st.converted != 0 && total != 0.0 {
      ShareBack(st.revenue, total);
    }
  }

  /** The sum of a column of rows. */
  function SumTotalDeals(rows: seq<SegmentRow>): nat
  {
    if rows == [] then 0 else SumTotalDeals(rows[..|rows| - 1]) + rows[|rows| - 1].totalDeals
  }

  function SumPctTotalDeals(rows: seq<SegmentRow>): real
  {
    if rows == [] then 0.0 else SumPctTotalDeals(rows[..|rows| - 1]) + rows[|rows| - 1].pctTotalDeals
  }

  function SumRevenue(rows: seq<SegmentRow>): real
  {
    if rows == [] then 0.0 else SumRevenue(rows[..|rows| - 1]) + rows[|rows| - 1].segmentRevenue
  }

  /** The sum of the revenue shares, a missing one counting as 0 as in `sum`. */
  function SumShares(rows: seq<SegmentRow>): real
  {
    if rows == [] then 0.0
    else
      var r := rows[|rows| - 1];
      SumShares(rows[..|rows| - 1]) + (if r.percentTotalRevenue.Some? then r.percentTotalRevenue.value else 0.0)
  }

  /** Summed over the rows of any segments, the deal counts add up to the
      combined tally of those segments, and so do the revenues. */
  lemma {:induction false} SumCounts(ds: seq<Deal>, segs: seq<Value>)
    ensures SumTotalDeals(Map(segs, RowFn(ds))) == SumSegments(ds, segs).count
    ensures SumRevenue(Map(segs, RowFn(ds))) == SumSegments(ds, segs).revenue
  {
    if segs != [] {
      var init := segs[..|segs| - 1];
      SumCounts(ds, init);
      MapInit(segs, RowFn(ds));
      TallyBalance(ds, Segment(segs[|segs| - 1]));
    }
  }

  /** The shares of the deals of any segments add up to their combined
      count as a percentage of the deals with a segment. */
  lemma {:induction false} SumPct(ds: seq<Deal>, segs: seq<Value>)
    requires Tally(ds, Segmented).count > 0
    ensures SumPctTotalDeals(Map(segs, RowFn(ds))) ==
      SumSegments(ds, segs).count as real / Tally(ds, Segmented).count as real * 100.0
  {
    if segs != [] {
      var init := segs[..|segs| - 1];
      SumPct(ds, init);
      MapInit(segs, RowFn(ds));
      ShareAdd(SumSegments(ds, init).count as real, Tally(ds, Segment(segs[|segs| - 1])).count as real,
        Tally(ds, Segmented).count as real);
    }
  }

  /** The revenue shares of any segments add up to their combined revenue
      as a percentage of what all converted deals bring in. */
  lemma {:induction false} SumRevenueShares(ds: seq<Deal>, segs: seq<Value>)
    requires Tally(ds, AllDeals).revenue != 0.0
    ensures SumShares(Map(segs, RowFn(ds))) ==
      SumSegments(ds, segs).revenue / Tally(ds, AllDeals).revenue * 100.0
  {
    if segs != [] {
      var init := segs[..|segs| - 1];
      SumRevenueShares(ds, init);
      MapInit(segs, RowFn(ds));
      TallyBalance(ds, Segment(segs[|segs| - 1]));
      ShareAdd(SumSegments(ds, init).revenue, Tally(ds, Segment(segs[|segs| - 1])).revenue,
        Tally(ds, AllDeals).revenue);
    }
  }

  /** The segments' deal counts add up to the number of deals with a segment,
      so that their shares of the deals add up to 100; their revenues add up
      to what the converted deals with a segment bring in, so that their
      shares of the revenue add up to 100 when every converted deal has a
      segment. */
  lemma SegmentTotals(ds: seq<Deal>)
    ensures var t := SegmentTable(ds);
      && SumTotalDeals(t) == Tally(ds, Segmented).count
      && (|t| > 0 <==> Tally(ds, Segmented).count > 0)
      && (|t| > 0 ==> SumPctTotalDeals(t) == 100.0)
      && SumRevenue(t) + Tally(ds, Segment(Null)).revenue == Tally(ds, AllDeals).revenue
      && (Tally(ds, AllDeals).revenue != 0.0 && Tally(ds, Segment(Null)).revenue == 0.0 ==>
            SumShares(t) == 100.0)
  {
    var t := SegmentTable(ds);
    SumCounts(ds, Observed(ds));
    SegmentsPartition(ds);
    NullSplit(ds);
    if |t| > 0 {
      SegmentRowCounts(ds, |t| - 1);
      SumPct(ds, Observed(ds));
      ShareSelf(Tally(ds, Segmented).count as real);
    }
    var total := Tally(ds, AllDeals).revenue;
    if total != 0.0 && Tally(ds, Segment(Null)).revenue == 0.0 {
      SumRevenueShares(ds, Observed(ds));
      ShareSelf(total);
    }
  }
}
