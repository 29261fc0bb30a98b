/** What the two summaries (data_manager.py:108-201) share: the cells of a
    cleaned row they read, and the tallies behind their group-bys, counted
    one deal at a time. */
module Rollup {
  import opened Wrappers
  import opened Frames
  import opened Seqs

  /** The cells of a cleaned row that the summaries read. */
  datatype Deal = Deal(
    segment: Value,
    converted: bool,
    amount: real,
    leadTime: Option<real>,
    band: Option<Band>)

  /** Reads a cleaned row. `decimal_value` is never NaN after the cleaning;
      a cell that is not a number adds nothing to a sum, as `sum` skips NaN. */
  function DealOf(r: Row): Deal
  {
    var v := Get(r, "decimal_value");
    var lead := Get(r, "lead_time");
    var band := Get(r, "deal_band");
    Deal(
      Get(r, "client_segment"),
      Get(r, "converted") == Bool(true),
      if v.Num? then v.x else 0.0,
      if lead.Num? then Some(lead.x) else None,
      if band.Cat? then Some(band.band) else None)
  }

  /** The deals of a cleaned table, row by row. */
  function DealsOf(f: Frame): (ds: seq<Deal>)
    ensures |ds| == |f.rows|
    ensures forall i :: 0 <= i < |ds| ==> ds[i] == DealOf(f.rows[i])
  {
    Map(f.rows, DealOf)
  }

  /** The first of the `needed` columns that `columns` lacks: the KeyError
      that indexing them in this order raises. */
  function FirstMissing(needed: seq<string>, columns: set<string>): (c: Option<string>)
    ensures c.None? <==> forall k :: 0 <= k < |needed| ==> needed[k] in columns
    ensures c.Some? ==>
      exists k :: 0 <= k < |needed| && needed[k] == c.value && c.value !in columns &&
                  forall l :: 0 <= l < k ==> needed[l] in columns
  {
    if needed == [] then None
    else if needed[0] !in columns then Some(needed[0])
    else
      var rest := FirstMissing(needed[1..], columns);
      assert forall k :: 1 <= k < |needed| ==> needed[k] == needed[1..][k - 1];
      rest
  }

  /** The tally kept for key `k` in a table of running tallies; a key not
      yet seen has no deals. */
  function Lookup<K>(m: map<K, Stats>, k: K): Stats
  {
    if k in m then m[k] else NoDeals
  }

  /** The categories of `deal_band`, in order. */
  const AllBands: seq<Band> := [Upto5K, Upto10K, Upto20K, Upto30K, Over30K]

  /** The deals a tally is over. A group-by drops the rows whose key is NaN,
      so a cell only holds deals with a band. */
  datatype Group =
    | AllDeals
    | Segmented
    | Segment(segment: Value)
    | Banded(segment: Value)
    | Cell(segment: Value, band: Band)

  predicate InGroup(d: Deal, g: Group)
  {
    match g
    case AllDeals => true
    case Segmented => d.segment != Null
    case Segment(s) => d.segment == s
    case Banded(s) => d.segment == s && d.band.Some?
    case Cell(s, b) => d.segment == s && d.band == Some(b)
  }

  /** The counts and sums of a group: all deals, the converted ones
      (`converted == True`) and the missed ones (`converted == False`). */
  datatype Stats = Stats(
    count: nat,
    converted: nat,
    missed: nat,
    revenue: real,
    missedRevenue: real,
    amount: real,
    leadSum: real,
    leadCount: nat)

  const NoDeals := Stats(0, 0, 0, 0.0, 0.0, 0.0, 0.0, 0)

  /** The tally of a single deal. */
  function Unit(d: Deal): Stats
  {
    Stats(
      1,
      if d.converted then 1 else 0,
      if d.converted then 0 else 1,
      if d.converted then d.amount else 0.0,
      if d.converted then 0.0 else d.amount,
      d.amount,
      if d.leadTime.Some? then d.leadTime.value else 0.0,
      if d.leadTime.Some? then 1 else 0)
  }

  function Plus(a: Stats, b: Stats): Stats
  {
    Stats(
      a.count + b.count, a.converted + b.converted, a.missed + b.missed,
      a.revenue + b.revenue, a.missedRevenue + b.missedRevenue, a.amount + b.amount,
      a.leadSum + b.leadSum, a.leadCount + b.leadCount)
  }

  /** The tally of the deals of `ds` in group `g`. */
  function Tally(ds: seq<Deal>, g: Group): Stats
  {
    if ds == [] then NoDeals
    else
      var st := Tally(ds[..|ds| - 1], g);
      if InGroup(ds[|ds| - 1], g) then Plus(st, Unit(ds[|ds| - 1])) else st
  }

  lemma TallySnoc(ds: seq<Deal>, d: Deal, g: Group)
    ensures Tally(ds + [d], g) == if InGroup(d, g) then Plus(Tally(ds, g), Unit(d)) else Tally(ds, g)
  {
    assert (ds + [d])[..|ds|] == ds;
  }

  /** Every deal of a group is either converted or missed, and so is its
      value; a group without converted deals has no revenue; no more deals
      are converted, missed or have a lead time than the group has. */
  lemma {:induction false} TallyBalance(ds: seq<Deal>, g: Group)
    ensures Tally(ds, g).converted + Tally(ds, g).missed == Tally(ds, g).count
    ensures Tally(ds, g).revenue + Tally(ds, g).missedRevenue == Tally(ds, g).amount
    ensures Tally(ds, g).converted == 0 ==> Tally(ds, g).revenue == 0.0
    ensures Tally(ds, g).leadCount <= Tally(ds, g).count
    ensures Tally(ds, g).count <= |ds|
  {
    if ds != [] {
      TallyBalance(ds[..|ds| - 1], g);
    }
  }

  /** The distinct non-null segments, in order of first appearance. */
  function Observed(ds: seq<Deal>): (segs: seq<Value>)
    ensures forall i, j :: 0 <= i < j < |segs| ==> segs[i] != segs[j]
    ensures forall s :: s in segs ==> s != Null
    ensures forall i :: 0 <= i < |ds| && ds[i].segment != Null ==> ds[i].segment in segs
  {
    if ds == [] then []
    else
      var init := ds[..|ds| - 1];
      var s := ds[|ds| - 1].segment;
      assert forall i :: 0 <= i < |init| ==> init[i] == ds[i];
      Observed(init) + (if s != Null && s !in Observed(init) then [s] else [])
  }

  lemma ObservedSnoc(ds: seq<Deal>, d: Deal)
    ensures Observed(ds + [d]) ==
      Observed(ds) + (if d.segment != Null && d.segment !in Observed(ds) then [d.segment] else [])
  {
    assert (ds + [d])[..|ds|] == ds;
  }

  /** Every observed segment is the segment of some deal. */
  lemma {:induction false} ObservedSound(ds: seq<Deal>, s: Value)
    requires s in Observed(ds)
    ensures exists i :: 0 <= i < |ds| && ds[i].segment == s
  {
    var init := ds[..|ds| - 1];
    if s in Observed(init) {
      ObservedSound(init, s);
      var i :| 0 <= i < |init| && init[i].segment == s;
      assert ds[i] == init[i];
    } else {
      assert ds[|ds| - 1].segment == s;
    }
  }

  /** The deals with a segment and those without make up all deals. */
  lemma {:induction false} NullSplit(ds: seq<Deal>)
    ensures Tally(ds, AllDeals) == Plus(Tally(ds, Segmented), Tally(ds, Segment(Null)))
  {
    if ds == [] {
      PlusZero(NoDeals);
    } else {
      var init := ds[..|ds| - 1];
      var d := ds[|ds| - 1];
      NullSplit(init);
      if d.segment == Null {
        assert Plus(Plus(Tally(init, Segmented), Tally(init, Segment(Null))), Unit(d))
          == Plus(Tally(init, Segmented), Plus(Tally(init, Segment(Null)), Unit(d)));
      } else {
        PlusSwap(Tally(init, Segmented), Tally(init, Segment(Null)), Unit(d));
      }
    }
  }

  /** A group inside another has no more converted deals than it. */
  lemma {:induction false} SubGroup(ds: seq<Deal>, g: Group, h: Group)
    requires forall d :: InGroup(d, g) ==> InGroup(d, h)
    ensures Tally(ds, g).converted <= Tally(ds, h).converted
  {
    if ds != [] {
      SubGroup(ds[..|ds| - 1], g, h);
    }
  }

  /** A segment nobody has is an empty group. */
  lemma {:induction false} UnobservedEmpty(ds: seq<Deal>, s: Value)
    requires s != Null && s !in Observed(ds)
    ensures Tally(ds, Segment(s)) == NoDeals
    ensures forall b :: Tally(ds, Cell(s, b)) == NoDeals
  {
    if ds != [] {
      var init := ds[..|ds| - 1];
      assert s !in Observed(init) && ds[|ds| - 1].segment != s;
      UnobservedEmpty(init, s);
    }
  }

  /** An observed segment has at least one deal. */
  lemma {:induction false} ObservedNonEmpty(ds: seq<Deal>, s: Value)
    requires s in Observed(ds)
    ensures Tally(ds, Segment(s)).count >= 1
  {
    var init := ds[..|ds| - 1];
    if s in Observed(init) {
      ObservedNonEmpty(init, s);
    } else {
      assert ds[|ds| - 1].segment == s;
    }
  }

  /** One pass over the deals: the segments in order of first appearance,
      the tally of every segment, the number of deals with a segment and
      what the converted deals bring in. */
  method Tabulate(ds: seq<Deal>) returns (order: seq<Value>, groups: map<Value, Stats>, n: nat, revenue: real)
    ensures order == Observed(ds)
    ensures forall s :: Lookup(groups, s) == Tally(ds, Segment(s))
    ensures n == Tally(ds, Segmented).count
    ensures revenue == Tally(ds, AllDeals).revenue
  {
    order, groups, n, revenue := [], map[], 0, 0.0;
    var i := 0;
    while i < |ds|
      invariant 0 <= i <= |ds|
      invariant order == Observed(ds[..i])
      invariant forall s :: Lookup(groups, s) == Tally(ds[..i], Segment(s))
      invariant n == Tally(ds[..i], Segmented).count
      invariant revenue == Tally(ds[..i], AllDeals).revenue
    {
      var d := ds[i];
      assert ds[..i + 1] == ds[..i] + [d];
      ObservedSnoc(ds[..i], d);
      TallySnoc(ds[..i], d, Segmented);
      TallySnoc(ds[..i], d, AllDeals);
      if d.segment != Null && d.segment !in order {
        order := order + [d.segment];
      }
      var before := groups;
      groups := groups[d.segment := Plus(Lookup(groups, d.segment), Unit(d))];
      forall s
        ensures Lookup(groups, s) == Tally(ds[..i + 1], Segment(s))
      {
        TallySnoc(ds[..i], d, Segment(s));
        assert Lookup(before, s) == Tally(ds[..i], Segment(s));
      }
      if d.segment != Null {
        n := n + 1;
      }
      if d.converted {
        revenue := revenue + d.amount;
      }
      i := i + 1;
    }
    assert ds[..i] == ds;
  }

  /** One pass over the deals: the tally of every (segment, band) cell. */
  method TabulateCells(ds: seq<Deal>) returns (cells: map<(Value, Band), Stats>)
    ensures forall s, b :: Lookup(cells, (s, b)) == Tally(ds, Cell(s, b))
  {
    cells := map[];
    var i := 0;
    while i < |ds|
      invariant 0 <= i <= |ds|
      invariant forall s, b :: Lookup(cells, (s, b)) == Tally(ds[..i], Cell(s, b))
    {
      var d := ds[i];
      assert ds[..i + 1] == ds[..i] + [d];
      var before := cells;
      if d.band.Some? {
        var key := (d.segment, d.band.value);
        cells := cells[key := Plus(Lookup(cells, key), Unit(d))];
      }
      forall s, b
        ensures Lookup(cells, (s, b)) == Tally(ds[..i + 1], Cell(s, b))
      {
        TallySnoc(ds[..i], d, Cell(s, b));
        assert Lookup(before, (s, b)) == Tally(ds[..i], Cell(s, b));
      }
      i := i + 1;
    }
    assert ds[..i] == ds;
  }

  /** The sum of the tallies of the segments `segs`. */
  function SumSegments(ds: seq<Deal>, segs: seq<Value>): Stats
  {
    if segs == [] then NoDeals
    else Plus(SumSegments(ds, segs[..|segs| - 1]), Tally(ds, Segment(segs[|segs| - 1])))
  }

  /** One more deal adds to the tally of its segment only. */
  lemma {:induction false} SumSegmentsSnoc(ds: seq<Deal>, d: Deal, segs: seq<Value>)
    requires forall i, j :: 0 <= i < j < |segs| ==> segs[i] != segs[j]
    ensures SumSegments(ds + [d], segs) ==
      if d.segment in segs then Plus(SumSegments(ds, segs), Unit(d)) else SumSegments(ds, segs)
  {
    if segs != [] {
      var init := segs[..|segs| - 1];
      var s := segs[|segs| - 1];
      assert segs == init + [s];
      SumSegmentsSnoc(ds, d, init);
      TallySnoc(ds, d, Segment(s));
      assert d.segment == s ==> d.segment !in init;
      if d.segment in init {
        PlusSwap(SumSegments(ds, init), Tally(ds, Segment(s)), Unit(d));
      }
    }
  }

  /** The segments split the deals that have one: summed over the observed
      segments, the tallies are the tally of all segmented deals. */
  lemma {:induction false} SegmentsPartition(ds: seq<Deal>)
    ensures SumSegments(ds, Observed(ds)) == Tally(ds, Segmented)
  {
    if ds != [] {
      var init := ds[..|ds| - 1];
      var d := ds[|ds| - 1];
      assert ds == init + [d];
      SegmentsPartition(init);
      ObservedSnoc(init, d);
      TallySnoc(init, d, Segmented);
      var o := Observed(init);
      SumSegmentsSnoc(init, d, o);
      if d.segment == Null {
        assert d.segment !in o;
        assert Observed(ds) == o;
      } else if d.segment in o {
        assert Observed(ds) == o;
      } else {
        var segs := o + [d.segment];
        assert Observed(ds) == segs;
        assert segs[..|segs| - 1] == o;
        assert SumSegments(ds, segs) == Plus(SumSegments(ds, o), Tally(ds, Segment(d.segment)));
        TallySnoc(init, d, Segment(d.segment));
        UnobservedEmpty(init, d.segment);
        PlusZero(Unit(d));
        assert Tally(ds, Segment(d.segment)) == Unit(d);
        assert SumSegments(ds, o) == Tally(init, Segmented);
      }
    }
  }

  /** The sum of the tallies of the cells of segment `s` for `bands`. */
  function SumBands(ds: seq<Deal>, s: Value, bands: seq<Band>): Stats
  {
    if bands == [] then NoDeals
    else Plus(SumBands(ds, s, bands[..|bands| - 1]), Tally(ds, Cell(s, bands[|bands| - 1])))
  }

  /** One more deal adds to the tally of its cell only. */
  lemma {:induction false} SumBandsSnoc(ds: seq<Deal>, d: Deal, s: Value, bands: seq<Band>)
    requires forall i, j :: 0 <= i < j < |bands| ==> bands[i] != bands[j]
    ensures SumBands(ds + [d], s, bands) ==
      if d.segment == s && d.band.Some? && d.band.value in bands then Plus(SumBands(ds, s, bands), Unit(d))
      else SumBands(ds, s, bands)
  {
    if bands != [] {
      var init := bands[..|bands| - 1];
      var b := bands[|bands| - 1];
      assert bands == init + [b];
      SumBandsSnoc(ds, d, s, init);
      TallySnoc(ds, d, Cell(s, b));
      assert d.band == Some(b) ==> b !in init;
      if d.segment == s && d.band.Some? && d.band.value in init {
        PlusSwap(SumBands(ds, s, init), Tally(ds, Cell(s, b)), Unit(d));
      }
    }
  }

  /** The bands split the deals of a segment that have one. */
  lemma {:induction false} BandsPartition(ds: seq<Deal>, s: Value)
    ensures SumBands(ds, s, AllBands) == Tally(ds, Banded(s))
  {
    if ds == [] {
      SumBandsEmpty(s, AllBands);
    } else {
      var init := ds[..|ds| - 1];
      var d := ds[|ds| - 1];
      assert ds == init + [d];
      BandsPartition(init, s);
      SumBandsSnoc(init, d, s, AllBands);
      TallySnoc(init, d, Banded(s));
      assert InGroup(d, Banded(s)) <==> d.segment == s && d.band.Some?;
      if d.band.Some? {
        var m := BandPosition(d.band.value);
      }
    }
  }

  /** Every band is one of `AllBands`. */
  lemma BandPosition(b: Band) returns (m: nat)
    ensures m < 5 && AllBands[m] == b
  {
    match b
    case Upto5K => m := 0;
    case Upto10K => m := 1;
    case Upto20K => m := 2;
    case Upto30K => m := 3;
    case Over30K => m := 4;
  }

  lemma {:induction false} SumBandsEmpty(s: Value, bands: seq<Band>)
    ensures SumBands([], s, bands) == NoDeals
  {
    if bands != [] {
      SumBandsEmpty(s, bands[..|bands| - 1]);
      assert Tally([], Cell(s, bands[|bands| - 1])) == NoDeals;
      PlusZero(NoDeals);
    }
  }

  /** Percentages of one whole add up like the parts they are shares of. */
  lemma ShareAdd(a: real, b: real, whole: real)
    requires whole != 0.0
    ensures a / whole * 100.0 + b / whole * 100.0 == (a + b) / whole * 100.0
  {
  }

  /** The whole is 100 percent of itself. */
  lemma ShareSelf(whole: real)
    requires whole != 0.0
    ensures whole / whole * 100.0 == 100.0
  {
  }

  /** A percentage of a whole, scaled back by the whole, is the part. */
  lemma ShareBack(part: real, whole: real)
    requires whole != 0.0
    ensures part / whole * 100.0 * whole == 100.0 * part
  {
    assert part / whole * whole == part;
  }

  lemma PlusZero(a: Stats)
    ensures Plus(NoDeals, a) == a && Plus(a, NoDeals) == a
  {
  }

  lemma PlusSwap(a: Stats, b: Stats, c: Stats)
    ensures Plus(Plus(a, c), b) == Plus(Plus(a, b), c)
  {
  }
}
