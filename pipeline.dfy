/** How the stages fit together: the table `clean_deals` returns is what
    both summaries read. */
module Pipeline {
  import opened Frames
  import opened Rollup
  import opened Reconcile
  import SegmentSummary
  import BandSummary

  /** The cleaned table has every column the two summaries index, so
      neither raises a KeyError on it. */
  lemma CleanedTableSummarizes(dealColumns: set<string>)
    ensures FirstMissing(SegmentSummary.SegmentColumns, CleanedColumns(dealColumns)).None?
    ensures FirstMissing(BandSummary.BandColumns, CleanedColumns(dealColumns)).None?
  {
    CleanedColumnsDerived(dealColumns);
  }

  /** Every deal of the cleaned table has a segment that is neither excluded
      nor a legacy label. */
  lemma CleanedSegment(rows: seq<Row>, ctx: Context, columns: set<string>, i: nat)
    requires i < |ReconciledAll(rows, ctx)|
    ensures var s := DealsOf(Frame(columns, ReconciledAll(rows, ctx)))[i].segment;
      s !in ExcludedSegments && (s.Str? ==> s.s !in Synonyms)
  {
    var r := ReconciledAll(rows, ctx)[i];
    TableRowSource(rows, ctx, r);
    var d :| d in rows && r in Reconciled(d, ctx);
    SurvivorSegment(d, ctx, r);
  }

  /** No row of the segment summary of a cleaned table is about an excluded
      segment or a legacy label. */
  lemma SegmentSummaryOfCleaned(rows: seq<Row>, ctx: Context, columns: set<string>)
    ensures var t := SegmentSummary.SegmentTable(DealsOf(Frame(columns, ReconciledAll(rows, ctx))));
      forall k :: 0 <= k < |t| ==>
        t[k].segment !in ExcludedSegments && (t[k].segment.Str? ==> t[k].segment.s !in Synonyms)
  {
    var ds := DealsOf(Frame(columns, ReconciledAll(rows, ctx)));
    var t := SegmentSummary.SegmentTable(ds);
    SegmentSummary.SegmentRowsObserved(ds);
    forall k | 0 <= k < |t|
      ensures t[k].segment !in ExcludedSegments && (t[k].segment.Str? ==> t[k].segment.s !in Synonyms)
    {
      var i :| 0 <= i < |ds| && ds[i].segment == t[k].segment;
      CleanedSegment(rows, ctx, columns, i);
    }
  }

  /** Nor is any row of the segment-by-band summary of a cleaned table. */
  lemma BandSummaryOfCleaned(rows: seq<Row>, ctx: Context, columns: set<string>)
    ensures var t := BandSummary.BandTable(DealsOf(Frame(columns, ReconciledAll(rows, ctx))));
      forall k :: 0 <= k < |t| ==>
        t[k].segment !in ExcludedSegments && (t[k].segment.Str? ==> t[k].segment.s !in Synonyms)
  {
    var ds := DealsOf(Frame(columns, ReconciledAll(rows, ctx)));
    var t := BandSummary.BandTable(ds);
    BandSummary.BandRowsObserved(ds);
    forall k | 0 <= k < |t|
      ensures t[k].segment !in ExcludedSegments && (t[k].segment.Str? ==> t[k].segment.s !in Synonyms)
    {
      var i :| 0 <= i < |ds| && ds[i].segment == t[k].segment;
      CleanedSegment(rows, ctx, columns, i);
    }
  }
}
