/** The segment-by-band summary (`create_conv_rate_revenue_band`,
    data_manager.py:149-201): one row for every observed segment paired with
    every one of the five value bands, including the empty pairs, with the
    deal counts, conversion rate, revenue, shares of the revenue, average
    deal size, expected value and missed revenue of each, all before
    rounding. */
module BandSummary {
  import opened Wrappers
  import opened Frames
  import opened Seqs
  import opened Rollup

  /** One row of the summary. A missing cell of the result (NaN) is None. */
  datatype BandRow = BandRow(
    segment: Value,
    band: Band,
    convertedDeals: nat,
    totalDeals: nat,
    conversionRate: real,
    totalRevenueSegment: real,
    percentTotalRevenue: Option<real>,
    percentRevWithinSegment: real,
    avgDealSize: real,
    expectedValue: real,
    missedRevenue: real,
    missedDealCount: nat)

  /** The columns the summary indexes, in the order it indexes them. */
  const BandColumns: seq<string> := ["converted", "decimal_value", "client_segment", "deal_band"]

  /** A cell's revenue as a percentage of what all converted deals bring in.
      The revenue table only has the segments with a converted deal, so the
      cells of the others are NaN after the merge; so are they all when the
      converted deals bring in 0. */
  function Share(cell: Stats, segmentConverted: nat, revenue: real): Option<real>
  {
    if segmentConverted == 0 || revenue == 0.0 then None else Some(cell.revenue / revenue * 100.0)
  }

  /** The share of cell (`s`, `b`) of the deals `ds`. */
  function ShareOf(ds: seq<Deal>, s: Value, b: Band): Option<real>
  {
    Share(Tally(ds, Cell(s, b)), Tally(ds, Segment(s)).converted, Tally(ds, AllDeals).revenue)
  }

  /** The sum of the shares of segment `s` over `bands`; `sum` skips NaN. */
  function ShareSum(ds: seq<Deal>, s: Value, bands: seq<Band>): real
  {
    if bands == [] then 0.0
    else
      var x := ShareOf(ds, s, bands[|bands| - 1]);
      ShareSum(ds, s, bands[..|bands| - 1]) + (if x.Some? then x.value else 0.0)
  }

  /** The row of cell (`s`, `b`) with tally `cell`, when the segment has
      `segmentConverted` converted deals, the converted deals of the table
      bring in `revenue` and the segment's shares add up to `shares`. A rate
      or mean over no deals is NaN, then 0; so is the revenue of a segment
      without converted deals. */
  function BandRowFrom(s: Value, b: Band, cell: Stats, segmentConverted: nat, revenue: real, shares: real): BandRow
  {
    var rate := if cell.count == 0 then 0.0 else cell.converted as real / cell.count as real * 100.0;
    var avg := if cell.converted == 0 then 0.0 else cell.revenue / cell.converted as real;
    var x := Share(cell, segmentConverted, revenue);
    BandRow(
      s,
      b,
      cell.converted,
      cell.count,
      rate,
      if segmentConverted == 0 then 0.0 else cell.revenue,
      x,
      if shares > 0.0 && x.Some? then x.value / shares * 100.0 else 0.0,
      avg,
      rate / 100.0 * avg,
      cell.missedRevenue,
      cell.missed)
  }

  /** The row of cell (`s`, `b`) of the deals `ds`. */
  function BandRowOf(ds: seq<Deal>, s: Value, b: Band): BandRow
  {
    BandRowFrom(s, b, Tally(ds, Cell(s, b)), Tally(ds, Segment(s)).converted,
      Tally(ds, AllDeals).revenue, ShareSum(ds, s, AllBands))
  }

  function BandFn(ds: seq<Deal>, s: Value): Band -> BandRow
  {
    b => BandRowOf(ds, s, b)
  }

  /** The summary of the deals `ds`: for each observed segment, in order,
      its five rows in band order. */
  function BandTable(ds: seq<Deal>): (t: seq<BandRow>)
    ensures |t| == 5 * |Observed(ds)|
  {
    var segs := Observed(ds);
    seq(5 * |segs|, k requires 0 <= k < 5 * |segs| => BandRowOf(ds, segs[k / 5], AllBands[k % 5]))
  }

  /** The five rows of segment `s`: the sum of its shares, then one row per
      band, from the tallies of the two passes. */
  method SegmentBandRows(ghost ds: seq<Deal>, s: Value, cells: map<(Value, Band), Stats>,
                         segments: map<Value, Stats>, revenue: real)
    returns (rows: seq<BandRow>)
    requires forall b :: Lookup(cells, (s, b)) == Tally(ds, Cell(s, b))
    requires Lookup(segments, s) == Tally(ds, Segment(s))
    requires revenue == Tally(ds, AllDeals).revenue
    ensures |rows| == 5
    ensures forall m :: 0 <= m < 5 ==> rows[m] == BandRowOf(ds, s, AllBands[m])
  {
    var converted := Lookup(segments, s).converted;
    var shares := 0.0;
    var m := 0;
    while m < 5
      invariant 0 <= m <= 5
      invariant shares == ShareSum(ds, s, AllBands[..m])
    {
      assert AllBands[..m + 1][..m] == AllBands[..m];
      var x := Share(Lookup(cells, (s, AllBands[m])), converted, revenue);
      if x.Some? {
        shares := shares + x.value;
      }
      m := m + 1;
    }
    assert AllBands[..5] == AllBands;
    rows := [];
    m := 0;
    while m < 5
      invariant 0 <= m <= 5
      invariant |rows| == m
      invariant forall l :: 0 <= l < m ==> rows[l] == BandRowOf(ds, s, AllBands[l])
    {
      rows := rows + [BandRowFrom(s, AllBands[m], Lookup(cells, (s, AllBands[m])), converted, revenue, shares)];
      m := m + 1;
    }
  }

  /** Builds the summary of a cleaned table: the tallies of two passes, then
      five rows for each segment. */
  method ConvRateRevenueBand(deals: Frame) returns (result: Result<seq<BandRow>, Failure>)
    ensures FirstMissing(BandColumns, deals.columns).Some? ==>
      result == Err(MissingColumn(FirstMissing(BandColumns, deals.columns).value))
    ensures FirstMissing(BandColumns, deals.columns).None? ==>
      result == Ok(BandTable(DealsOf(deals)))
  {
    var missing := FirstMissing(BandColumns, deals.columns);
    if missing.Some? {
      return Err(MissingColumn(missing.value));
    }
    var ds := DealsOf(deals);
    var order, segments, _, revenue := Tabulate(ds);
    var cells := TabulateCells(ds);
    var rows: seq<BandRow> := [];
    var j := 0;
    while j < |order|
      invariant 0 <= j <= |order|
      invariant |rows| == 5 * j
      invariant forall k :: 0 <= k < 5 * j ==> rows[k] == BandRowOf(ds, order[k / 5], AllBands[k % 5])
    {
      var more := SegmentBandRows(ds, order[j], cells, segments, revenue);
      forall k | 5 * j <= k < 5 * j + 5
        ensures (rows + more)[k] == BandRowOf(ds, order[k / 5], AllBands[k % 5])
      {
        assert k / 5 == j && k % 5 == k - 5 * j;
      }
      rows := rows + more;
      j := j + 1;
    }
    assert rows == BandTable(ds);
    return Ok(rows);
  }

  /** The rows come segment by segment, in order of first appearance, and
      within a segment band by band. */
  lemma BandTableRow(ds: seq<Deal>, j: nat, m: nat)
    requires j < |Observed(ds)| && m < 5
    ensures 5 * j + m < |BandTable(ds)|
    ensures BandTable(ds)[5 * j + m] == BandRowOf(ds, Observed(ds)[j], AllBands[m])
  {
    assert (5 * j + m) / 5 == j && (5 * j + m) % 5 == m;
  }

  /** The five rows of the `j`-th segment. */
  lemma BandTableSlice(ds: seq<Deal>, j: nat)
    requires j < |Observed(ds)|
    ensures 5 * j + 5 <= |BandTable(ds)|
    ensures BandTable(ds)[5 * j..5 * j + 5] == Map(AllBands, BandFn(ds, Observed(ds)[j]))
  {
    forall m | 0 <= m < 5
      ensures BandTable(ds)[5 * j..5 * j + 5][m] == Map(AllBands, BandFn(ds, Observed(ds)[j]))[m]
    {
      BandTableRow(ds, j, m);
    }
  }

  /** No two rows are about the same segment and band. */
  lemma BandRowsUnique(ds: seq<Deal>)
    ensures forall k, l ::
      (0 <= k < |BandTable(ds)| && 0 <= l < |BandTable(ds)| &&
       BandTable(ds)[k].segment == BandTable(ds)[l].segment && BandTable(ds)[k].band == BandTable(ds)[l].band)
      ==> k == l
  {
    var t, o := BandTable(ds), Observed(ds);
    forall k, l | 0 <= k < |t| && 0 <= l < |t| && t[k].segment == t[l].segment && t[k].band == t[l].band
      ensures k == l
    {
      assert t[k].segment == o[k / 5] && t[l].segment == o[l / 5];
      assert k / 5 == l / 5;
      assert t[k].band == AllBands[k % 5] && t[l].band == AllBands[l % 5];
      assert k % 5 == l % 5;
    }
  }

  /** Some row of `t` is about segment `s` and band `b`. */
  predicate HasRow(t: seq<BandRow>, s: Value, b: Band)
  {
    exists k :: 0 <= k < |t| && t[k].segment == s && t[k].band == b
  }

  /** Every segment that some deal has gets a row for every one of the five
      bands, empty pairs included. */
  lemma BandRowsComplete(ds: seq<Deal>)
    ensures forall i, b :: 0 <= i < |ds| && ds[i].segment != Null ==> HasRow(BandTable(ds), ds[i].segment, b)
  {
    var o := Observed(ds);
    forall i, b | 0 <= i < |ds| && ds[i].segment != Null
      ensures HasRow(BandTable(ds), ds[i].segment, b)
    {
      var j :| 0 <= j < |o| && o[j] == ds[i].segment;
      var m := BandPosition(b);
      BandTableRow(ds, j, m);
      var k := 5 * j + m;
      assert BandTable(ds)[k].segment == ds[i].segment && BandTable(ds)[k].band == b;
    }
  }

  /** Every row is about a segment, not a missing one, that some deal has. */
  lemma BandRowsObserved(ds: seq<Deal>)
    ensures forall k :: 0 <= k < |BandTable(ds)| ==>
      BandTable(ds)[k].segment != Null &&
      exists i :: 0 <= i < |ds| && ds[i].segment == BandTable(ds)[k].segment
  {
    var t, o := BandTable(ds), Observed(ds);
    forall k | 0 <= k < |t|
      ensures t[k].segment != Null && exists i :: 0 <= i < |ds| && ds[i].segment == t[k].segment
    {
      assert t[k].segment == o[k / 5] && o[k / 5] in o;
      ObservedSound(ds, o[k / 5]);
    }
  }

  /** What a tally of a cell inside segment `segmentConverted`'s segment
      satisfies. */
  predicate CellOf(cell: Stats, segmentConverted: nat)
  {
    && cell.converted + cell.missed == cell.count
    && cell.revenue + cell.missedRevenue == cell.amount
    && (cell.converted == 0 ==> cell.revenue == 0.0)
    && cell.converted <= segmentConverted
  }

  lemma CellFacts(ds: seq<Deal>, s: Value, b: Band)
    ensures CellOf(Tally(ds, Cell(s, b)), Tally(ds, Segment(s)).converted)
  {
    TallyBalance(ds, Cell(s, b));
    SubGroup(ds, Cell(s, b), Segment(s));
  }

  /** The counts of a row: its deals are the converted plus the missed ones,
      and so is their value. */
  predicate CountsOf(r: BandRow, cell: Stats)
  {
    && r.totalDeals == cell.count
    && r.convertedDeals == cell.converted
    && r.missedDealCount == cell.missed
    && r.totalRevenueSegment == cell.revenue
    && r.missedRevenue == cell.missedRevenue
    && r.convertedDeals + r.missedDealCount == r.totalDeals
    && r.totalRevenueSegment + r.missedRevenue == cell.amount
  }

  /** The rates of a row: the conversion rate is the converted percentage of
      its deals, the average deal size the revenue per converted deal and the
      expected value the revenue per deal, each 0 over no deals. */
  predicate RatesOf(r: BandRow)
  {
    && (r.totalDeals > 0 ==> r.conversionRate * r.totalDeals as real == 100.0 * r.convertedDeals as real)
    && (r.totalDeals == 0 ==> r.conversionRate == 0.0)
    && r.avgDealSize * r.convertedDeals as real == r.totalRevenueSegment
    && (r.convertedDeals == 0 ==> r.avgDealSize == 0.0)
    && (r.totalDeals > 0 ==> r.expectedValue * r.totalDeals as real == r.totalRevenueSegment)
    && (r.totalDeals == 0 ==> r.expectedValue == 0.0)
  }

  /** The share of a row: a percentage of what all converted deals bring in,
      missing for a segment without converted deals. */
  predicate ShareOfRow(r: BandRow, segmentConverted: nat, revenue: real)
  {
    && (r.percentTotalRevenue.None? <==> segmentConverted == 0 || revenue == 0.0)
    && (r.percentTotalRevenue.Some? ==> r.percentTotalRevenue.value * revenue == 100.0 * r.totalRevenueSegment)
  }

  lemma RowCounts(s: Value, b: Band, cell: Stats, converted: nat, revenue: real, shares: real)
    requires CellOf(cell, converted)
    ensures CountsOf(BandRowFrom(s, b, cell, converted, revenue, shares), cell)
  {
  }

  lemma RowRates(s: Value, b: Band, cell: Stats, converted: nat, revenue: real, shares: real)
    requires CellOf(cell, converted)
    ensures RatesOf(BandRowFrom(s, b, cell, converted, revenue, shares))
  {
    var r := BandRowFrom(s, b, cell, converted, revenue, shares);
    var c, t := cell.converted as real, cell.count as real;
    if cell.converted > 0 {
      var q := c / t;
      assert q * t == c;
      assert r.conversionRate == q * 100.0;
      assert r.avgDealSize * c == cell.revenue;
      assert r.expectedValue == q * r.avgDealSize;
      assert r.expectedValue * t == (q * t) * r.avgDealSize;
    }
  }

  lemma RowShare(s: Value, b: Band, cell: Stats, converted: nat, revenue: real, shares: real)
    requires CellOf(cell, converted)
    ensures ShareOfRow(BandRowFrom(s, b, cell, converted, revenue, shares), converted, revenue)
  {
    if converted != 0 && revenue != 0.0 {
      ShareBack(cell.revenue, revenue);
    }
  }

  /** Each row is the tally of its cell: the segment's deals with that band. */
  lemma BandRowCounts(ds: seq<Deal>, k: nat)
    requires k < |BandTable(ds)|
    ensures var r := BandTable(ds)[k];
      CountsOf(r, Tally(ds, Cell(r.segment, r.band)))
  {
    var s, b := Observed(ds)[k / 5], AllBands[k % 5];
    assert BandTable(ds)[k] == BandRowOf(ds, s, b);
    CellFacts(ds, s, b);
    RowCounts(s, b, Tally(ds, Cell(s, b)), Tally(ds, Segment(s)).converted,
      Tally(ds, AllDeals).revenue, ShareSum(ds, s, AllBands));
  }

  lemma BandRowRates(ds: seq<Deal>, k: nat)
    requires k < |BandTable(ds)|
    ensures RatesOf(BandTable(ds)[k])
  {
    var s, b := Observed(ds)[k / 5], AllBands[k % 5];
    assert BandTable(ds)[k] == BandRowOf(ds, s, b);
    CellFacts(ds, s, b);
    RowRates(s, b, Tally(ds, Cell(s, b)), Tally(ds, Segment(s)).converted,
      Tally(ds, AllDeals).revenue, ShareSum(ds, s, AllBands));
  }

  lemma BandRowShare(ds: seq<Deal>, k: nat)
    requires k < |BandTable(ds)|
    ensures var r := BandTable(ds)[k];
      ShareOfRow(r, Tally(ds, Segment(r.segment)).converted, Tally(ds, AllDeals).revenue)
  {
    var s, b := Observed(ds)[k / 5], AllBands[k % 5];
    assert BandTable(ds)[k] == BandRowOf(ds, s, b);
    CellFacts(ds, s, b);
    RowShare(s, b, Tally(ds, Cell(s, b)), Tally(ds, Segment(s)).converted,
      Tally(ds, AllDeals).revenue, ShareSum(ds, s, AllBands));
  }

  /** Sums of a column of rows. */
  function SumTotalDeals(rows: seq<BandRow>): nat
  {
    if rows == [] then 0 else SumTotalDeals(rows[..|rows| - 1]) + rows[|rows| - 1].totalDeals
  }

  function SumConvertedDeals(rows: seq<BandRow>): nat
  {
    if rows == [] then 0 else SumConvertedDeals(rows[..|rows| - 1]) + rows[|rows| - 1].convertedDeals
  }

  function SumRevenue(rows: seq<BandRow>): real
  {
    if rows == [] then 0.0 else SumRevenue(rows[..|rows| - 1]) + rows[|rows| - 1].totalRevenueSegment
  }

  function SumWithin(rows: seq<BandRow>): real
  {
    if rows == [] then 0.0 else SumWithin(rows[..|rows| - 1]) + rows[|rows| - 1].percentRevWithinSegment
  }

  /** Summed over the rows of a segment's bands, the counts and the revenue
      add up to the combined tally of those cells. */
  lemma {:induction false} SumBandRows(ds: seq<Deal>, s: Value, bands: seq<Band>)
    ensures SumTotalDeals(Map(bands, BandFn(ds, s))) == SumBands(ds, s, bands).count
    ensures SumConvertedDeals(Map(bands, BandFn(ds, s))) == SumBands(ds, s, bands).converted
    ensures SumRevenue(Map(bands, BandFn(ds, s))) == SumBands(ds, s, bands).revenue
  {
    if bands != [] {
      var b := bands[|bands| - 1];
      SumBandRows(ds, s, bands[..|bands| - 1]);
      MapInit(bands, BandFn(ds, s));
      CellFacts(ds, s, b);
      RowCounts(s, b, Tally(ds, Cell(s, b)), Tally(ds, Segment(s)).converted,
        Tally(ds, AllDeals).revenue, ShareSum(ds, s, AllBands));
    }
  }

  /** The shares of a segment's cells add up to the share of their combined
      revenue, and to 0 when the segment has no converted deal. */
  lemma {:induction false} ShareSumOf(ds: seq<Deal>, s: Value, bands: seq<Band>)
    ensures ShareSum(ds, s, bands) ==
      if Tally(ds, Segment(s)).converted == 0 || Tally(ds, AllDeals).revenue == 0.0 then 0.0
      else SumBands(ds, s, bands).revenue / Tally(ds, AllDeals).revenue * 100.0
  {
    if bands != [] {
      var init, b := bands[..|bands| - 1], bands[|bands| - 1];
      ShareSumOf(ds, s, init);
      var total := Tally(ds, AllDeals).revenue;
      if Tally(ds, Segment(s)).converted != 0 && total != 0.0 {
        ShareAdd(SumBands(ds, s, init).revenue, Tally(ds, Cell(s, b)).revenue, total);
      }
    }
  }

  /** When a segment's shares add up to more than 0, the within-segment
      shares of its rows for `bands` are their part of that sum. */
  lemma {:induction false} SumWithinRows(ds: seq<Deal>, s: Value, bands: seq<Band>)
    requires ShareSum(ds, s, AllBands) > 0.0
    ensures SumWithin(Map(bands, BandFn(ds, s))) == ShareSum(ds, s, bands) / ShareSum(ds, s, AllBands) * 100.0
  {
    if bands != [] {
      var init, b := bands[..|bands| - 1], bands[|bands| - 1];
      SumWithinRows(ds, s, init);
      MapInit(bands, BandFn(ds, s));
      ShareSumOf(ds, s, AllBands);
      var x := ShareOf(ds, s, b);
      assert x.Some?;
      ShareAdd(ShareSum(ds, s, init), x.value, ShareSum(ds, s, AllBands));
    }
  }

  /** The five bands split a segment's deals that have a band: their counts
      and revenues add up to the segment's. */
  lemma BandsSplitSegment(ds: seq<Deal>, j: nat)
    requires j < |Observed(ds)|
    ensures 5 * j + 5 <= |BandTable(ds)|
    ensures var rows, s := BandTable(ds)[5 * j..5 * j + 5], Observed(ds)[j];
      && SumTotalDeals(rows) == Tally(ds, Banded(s)).count
      && SumConvertedDeals(rows) == Tally(ds, Banded(s)).converted
      && SumRevenue(rows) == Tally(ds, Banded(s)).revenue
  {
    var s := Observed(ds)[j];
    BandTableSlice(ds, j);
    SumBandRows(ds, s, AllBands);
    BandsPartition(ds, s);
  }

  /** The revenue mix of a segment: when its shares of the total add up to
      more than 0, its within-segment shares add up to 100. */
  lemma RevenueMix(ds: seq<Deal>, j: nat)
    requires j < |Observed(ds)|
    requires ShareSum(ds, Observed(ds)[j], AllBands) > 0.0
    ensures 5 * j + 5 <= |BandTable(ds)|
    ensures SumWithin(BandTable(ds)[5 * j..5 * j + 5]) == 100.0
  {
    var s := Observed(ds)[j];
    BandTableSlice(ds, j);
    SumWithinRows(ds, s, AllBands);
    ShareSelf(ShareSum(ds, s, AllBands));
  }

  /** Otherwise its within-segment shares are all 0. */
  lemma RevenueMixEmpty(ds: seq<Deal>, j: nat)
    requires j < |Observed(ds)|
    requires ShareSum(ds, Observed(ds)[j], AllBands) <= 0.0
    ensures 5 * j + 5 <= |BandTable(ds)|
    ensures forall k :: 5 * j <= k < 5 * j + 5 ==> BandTable(ds)[k].percentRevWithinSegment == 0.0
  {
    forall k | 5 * j <= k < 5 * j + 5
      ensures BandTable(ds)[k].percentRevWithinSegment == 0.0
    {
      BandTableRow(ds, j, k - 5 * j);
    }
  }

  /** When the converted deals bring in more than 0, a segment's shares add
      up to more than 0 exactly when its deals with a band bring in more
      than 0. */
  lemma RevenueMixSign(ds: seq<Deal>, s: Value)
    requires Tally(ds, AllDeals).revenue > 0.0
    ensures ShareSum(ds, s, AllBands) > 0.0 <==> Tally(ds, Banded(s)).revenue > 0.0
  {
    ShareSumOf(ds, s, AllBands);
    BandsPartition(ds, s);
    SubGroup(ds, Banded(s), Segment(s));
    TallyBalance(ds, Banded(s));
    var total := Tally(ds, AllDeals).revenue;
    if Tally(ds, Segment(s)).converted != 0 {
      var rev := Tally(ds, Banded(s)).revenue;
      assert rev / total * 100.0 > 0.0 <==> rev > 0.0;
    }
  }
}
