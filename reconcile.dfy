/** The deal reconciler, `clean_deals` (data_manager.py:24-106): from the raw
    deals, contacts and stages to one cleaned row per eligible deal (one per
    matching contact when contact ids repeat).

    The code works column by column on the whole table; `CleanDeals` does the
    same, step by step and in the code's order. `Reconciled` says, for one
    flattened deal, which rows it contributes; `CleanDeals` is proved to
    produce exactly the concatenation of those, and the lemmas below state
    what every contributed row satisfies. */
module Reconcile {
  import opened Wrappers
  import opened Frames
  import opened Seqs
  import opened CustomFields

  /** 2022-01-01 00:00:00 UTC in seconds since the epoch: the start of the
      reporting window. */
  const WindowStart: int := 1640995200
  const SecondsPerDay: int := 86400

  const EventComplete: Value := Str("Event Complete")
  const TerminalStages: set<Value> := {Str("Event Complete"), Str("Cancelled"), Str("Unqualified")}
  const ExcludedSegments: set<Value> :=
    {Str("Stager"), Str("Consumer (Nomad)"), Str("Exhibitor/Showroom"), Str("Real Estate Broker")}

  /** The columns the `for col in date_cols` loop converts when present. */
  const DateColumns: seq<string> :=
    ["custom Event Start", "last_activity_at", "last_stage_change_at", "updated_at"]

  const DealSegment := "custom Client Segment"
  const ContactSegment := "custom (contact) Client Segment"

  /** The synonym table: legacy segment label to canonical label. */
  const Synonyms: map<string, string> := map[
    "Event Design Planning + Production" := "Event Designer Planning and Production",
    "Photo + Design" := "Photo",
    "In-House Company" := "In-house Company",
    "Catering Company" := "Catering Company/Florist",
    "Conference + Trade Show Producter" := "Conference or Trade Show",
    "Trade Show Vendor" := "Conference or Trade Show"]

  /** The column renaming, from the new label to the label it replaces. */
  const RenamedFrom: map<string, string> := map[
    "event_start_date" := "custom Event Start",
    "product_total" := "custom Product total",
    "client_segment" := "custom Client Segment",
    "client_type" := "custom Client Type"]

  /** The sensitive columns removed at the end (`errors='ignore'`). */
  const Dropped: set<string> := {
    "name", "custom_fields", "custom RW Invoice number", "custom Tax ID (if tax exempt)",
    "contact_id", "id_x", "id_y", "dropbox_email"}

  /** `pd.to_numeric` and `pd.to_datetime` (with the conversion to naive UTC)
      on cells that are neither missing nor already parsed. */
  datatype Parsers = Parsers(number: Value -> Option<real>, date: Value -> Option<int>)

  // ---------------------------------------------------------------------
  // Cell conversions

  /** `pd.to_numeric(..., errors='coerce')` on one cell. */
  function ParseNumber(v: Value, p: Parsers): Option<real>
  {
    match v
    case Null => None
    case Num(x) => Some(x)
    case _ => p.number(v)
  }

  /** The coercion of `value` into `decimal_value`, with `fillna(0)`. */
  function DecimalValue(v: Value, p: Parsers): real
  {
    match ParseNumber(v, p)
    case Some(x) => x
    case None => 0.0
  }

  /** `pd.to_datetime(..., errors='coerce')` on one cell. */
  function ParseTime(v: Value, p: Parsers): Option<int>
  {
    match v
    case Null => None
    case Time(t) => Some(t)
    case _ => p.date(v)
  }

  function TimeCell(v: Value, p: Parsers): Value
  {
    match ParseTime(v, p)
    case Some(t) => Time(t)
    case None => Null
  }

  /** `(event_start_date - added_at).dt.days`: the difference in whole days,
      rounded down, NaN when either timestamp is missing. Nothing clamps it,
      so an event before the deal was added gives a negative lead time. */
  function LeadTime(start: Value, added: Value): (v: Value)
    ensures v.Null? <==> !(start.Time? && added.Time?)
    ensures v.Null? || v.Num?
    ensures v.Num? ==> v.x == v.x.Floor as real
    ensures v.Num? ==>
      v.x.Floor * SecondsPerDay <= start.t - added.t < (v.x.Floor + 1) * SecondsPerDay
  {
    if start.Time? && added.Time? then Num(((start.t - added.t) / SecondsPerDay) as real) else Null
  }

  /** The value range each band stands for. */
  predicate InBand(x: real, b: Band)
  {
    match b
    case Upto5K => 0.0 <= x <= 5000.0
    case Upto10K => 5000.0 < x <= 10000.0
    case Upto20K => 10000.0 < x <= 20000.0
    case Upto30K => 20000.0 < x <= 30000.0
    case Over30K => 30000.0 < x
  }

  /** `pd.cut` with bins 0, 5000, 10000, 20000, 30000, inf, right-closed and
      `include_lowest=True`: only the first bin is closed on the left, so a
      negative value has no band. */
  function BandOf(x: real): (b: Option<Band>)
    ensures b.Some? <==> x >= 0.0
    ensures forall band :: b == Some(band) <==> InBand(x, band)
  {
    if x < 0.0 then None
    else if x <= 5000.0 then Some(Upto5K)
    else if x <= 10000.0 then Some(Upto10K)
    else if x <= 20000.0 then Some(Upto20K)
    else if x <= 30000.0 then Some(Upto30K)
    else Some(Over30K)
  }

  function BandCell(v: Value): Value
  {
    if v.Num? then (match BandOf(v.x) case Some(b) => Cat(b) case None => Null) else Null
  }

  /** `.replace(segment_mapping)` on one cell: a legacy label becomes its
      canonical label, anything else is left alone, and no result is a legacy
      label, so one pass is enough. */
  function Canonical(v: Value): (r: Value)
    ensures r.Str? ==> r.s !in Synonyms
    ensures r != v ==> v.Str? && v.s in Synonyms
    ensures v.Str? && v.s in Synonyms ==> r == Str(Synonyms[v.s])
  {
    if v.Str? && v.s in Synonyms then Str(Synonyms[v.s]) else v
  }

  // ---------------------------------------------------------------------
  // One row, before the merge with the contacts

  /** `stage_id.map(stage_map)`: the name of the stage, NaN when none has the id. */
  function StageName(id: Value, stageMap: map<Value, Value>): Value
  {
    if id in stageMap then stageMap[id] else Null
  }

  function WithStage(r: Row, stageMap: map<Value, Value>): Row
  {
    r["stage_name" := StageName(Get(r, "stage_id"), stageMap)]
  }

  function WithDecimalValue(r: Row, p: Parsers): Row
  {
    r["decimal_value" := Num(DecimalValue(Get(r, "value"), p))]
  }

  /** One round of the date loop: every row has a cell in the column, and a
      missing one (NaN) becomes NaT. */
  function WithDate(r: Row, c: string, p: Parsers): Row
  {
    r[c := TimeCell(Get(r, c), p)]
  }

  /** The first `k` rounds of the date loop on one row; `present` is the set
      of columns of the table, which decides whether a round converts. */
  function WithDates(r: Row, k: nat, present: set<string>, p: Parsers): Row
    requires k <= |DateColumns|
  {
    if k == 0 then r
    else
      var before := WithDates(r, k - 1, present, p);
      if DateColumns[k - 1] in present then WithDate(before, DateColumns[k - 1], p) else before
  }

  /** The date loop touches only the date columns the table has. */
  lemma {:induction false} WithDatesKeeps(r: Row, k: nat, present: set<string>, p: Parsers, c: string)
    requires k <= |DateColumns|
    requires c !in DateColumns[..k] || c !in present
    ensures Get(WithDates(r, k, present, p), c) == Get(r, c)
    ensures c in WithDates(r, k, present, p) <==> c in r
  {
    if k > 0 {
      assert DateColumns[..k] == DateColumns[..k - 1] + [DateColumns[k - 1]];
      WithDatesKeeps(r, k - 1, present, p, c);
    }
  }

  /** The date loop parses each date column the table has. */
  lemma {:induction false} DatesParsed(r: Row, k: nat, present: set<string>, p: Parsers, c: string)
    requires k <= |DateColumns|
    requires c in DateColumns[..k] && c in present
    ensures c in WithDates(r, k, present, p)
    ensures WithDates(r, k, present, p)[c] == TimeCell(Get(r, c), p)
  {
    assert DateColumns[..k] == DateColumns[..k - 1] + [DateColumns[k - 1]];
    if DateColumns[k - 1] == c {
      assert c !in DateColumns[..k - 1];
      WithDatesKeeps(r, k - 1, present, p, c);
    } else {
      DatesParsed(r, k - 1, present, p, c);
    }
  }

  function WithAddedAt(r: Row, p: Parsers): Row
  {
    r["added_at" := TimeCell(Get(r, "added_at"), p)]
  }

  predicate InWindow(r: Row)
  {
    Get(r, "added_at").Time? && Get(r, "added_at").t >= WindowStart
  }

  predicate IsTerminal(r: Row)
  {
    Get(r, "stage_name") in TerminalStages
  }

  function WithConverted(r: Row): Row
  {
    r["converted" := Bool(Get(r, "stage_name") == EventComplete)]
  }

  // ---------------------------------------------------------------------
  // The left merge with the contacts

  /** The contacts whose `id` is `contactId`, in order. A missing id (NaN)
      matches the contacts whose id is missing too. */
  function Matches(contactId: Value, contacts: seq<Row>): seq<Row>
  {
    Filter(contacts, c => Get(c, "id") == contactId)
  }

  /** One merged row. When the deals have an `id` column, the deal's id
      becomes `id_x` and the contact's `id_y`; otherwise the contact's id is
      `id`. With no matching contact the contact's cells are NaN. */
  function Merged(d: Row, c: Option<Row>, dealsHaveId: bool): (m: Row)
    ensures Get(m, ContactSegment) == if c.Some? then Get(c.value, ContactSegment) else Null
    ensures dealsHaveId ==> "id" !in m && Get(m, "id_x") == Get(d, "id")
    ensures Get(m, if dealsHaveId then "id_y" else "id") == if c.Some? then Get(c.value, "id") else Null
  {
    var contactId := if c.Some? then Get(c.value, "id") else Null;
    var segment := if c.Some? then Get(c.value, ContactSegment) else Null;
    if dealsHaveId then (d - {"id"})["id_x" := Get(d, "id")]["id_y" := contactId][ContactSegment := segment]
    else d["id" := contactId][ContactSegment := segment]
  }

  /** A merged row keeps every cell of the deal but its id. */
  lemma MergedKeeps(d: Row, c: Option<Row>, dealsHaveId: bool, x: string)
    requires x !in {"id", "id_x", "id_y", ContactSegment}
    ensures Get(Merged(d, c, dealsHaveId), x) == Get(d, x)
    ensures x in Merged(d, c, dealsHaveId) <==> x in d
  {
  }

  /** The merge for one deal: one row per matching contact, or a single row
      when none matches. */
  function JoinContacts(d: Row, contacts: seq<Row>, dealsHaveId: bool): (js: seq<Row>)
    ensures var ms := Matches(Get(d, "contact_id"), contacts);
      if ms == [] then js == [Merged(d, None, dealsHaveId)]
      else |js| == |ms| && forall i :: 0 <= i < |ms| ==> js[i] == Merged(d, Some(ms[i]), dealsHaveId)
  {
    var ms := Matches(Get(d, "contact_id"), contacts);
    if ms == [] then [Merged(d, None, dealsHaveId)]
    else Map(ms, c => Merged(d, Some(c), dealsHaveId))
  }

  /** `deals.merge(contacts_subset, left_on='contact_id', right_on='id', how="left")`. */
  function JoinAll(ds: seq<Row>, contacts: seq<Row>, dealsHaveId: bool): seq<Row>
  {
    FlatMap(ds, JoinFn(contacts, dealsHaveId))
  }

  function JoinFn(contacts: seq<Row>, dealsHaveId: bool): Row -> seq<Row>
  {
    d => JoinContacts(d, contacts, dealsHaveId)
  }

  // ---------------------------------------------------------------------
  // One row, after the merge

  /** `np.where`: the deal's own segment, or the contact's when it is NaN. */
  function SettledSegment(j: Row): Value
  {
    if Get(j, DealSegment) == Null then Get(j, ContactSegment) else Get(j, DealSegment)
  }

  function WithResolvedSegment(r: Row): Row
  {
    r[DealSegment := SettledSegment(r)]
  }

  function WithCanonicalSegment(r: Row): Row
  {
    r[DealSegment := Canonical(Get(r, DealSegment))]
  }

  /** The `rename(columns=...)` on one row. */
  function RenameRow(r: Row): Row
  {
    (r - RenamedFrom.Values) + map t | t in RenamedFrom && RenamedFrom[t] in r :: r[RenamedFrom[t]]
  }

  /** After the renaming, an old label is gone, a new label holds the cell
      of the old one, and every other cell is unchanged. */
  lemma RenameRowCell(r: Row, c: string)
    ensures c in RenamedFrom.Values ==> c !in RenameRow(r)
    ensures c in RenamedFrom && RenamedFrom[c] in r ==> Get(RenameRow(r), c) == r[RenamedFrom[c]]
    ensures c !in RenamedFrom && c !in RenamedFrom.Values ==> Get(RenameRow(r), c) == Get(r, c)
  {
  }

  /** The same renaming on the column labels. */
  function RenameColumns(columns: set<string>): (cs: set<string>)
    ensures forall c :: c !in RenamedFrom && c !in RenamedFrom.Values ==> (c in cs <==> c in columns)
    ensures forall t :: t in RenamedFrom ==> (t in cs <==> RenamedFrom[t] in columns || t in columns)
    ensures cs !! RenamedFrom.Values
  {
    (columns - RenamedFrom.Values) + set t | t in RenamedFrom && RenamedFrom[t] in columns
  }

  predicate NotExcluded(r: Row)
  {
    Get(r, "client_segment") !in ExcludedSegments
  }

  function WithLeadTime(r: Row): Row
  {
    r["lead_time" := LeadTime(Get(r, "event_start_date"), Get(r, "added_at"))]
  }

  function WithBand(r: Row): Row
  {
    r["deal_band" := BandCell(Get(r, "decimal_value"))]
  }

  /** `drop(columns=cols_to_drop, errors='ignore')` on one row: the listed
      columns are gone, absent ones are ignored, every other cell stays. */
  function DropSensitive(r: Row): Row
  {
    r - Dropped
  }

  lemma DropSensitiveCell(r: Row, c: string)
    ensures c in Dropped ==> c !in DropSensitive(r)
    ensures c !in Dropped ==> Get(DropSensitive(r), c) == Get(r, c)
  {
  }

  // ---------------------------------------------------------------------
  // One deal from start to end

  /** What the steps of one run share: the stage lookup, the columns of the
      flattened deals, the flattened contacts and the parsers. */
  datatype Context = Context(
    stageMap: map<Value, Value>,
    dealColumns: set<string>,
    contacts: seq<Row>,
    parsers: Parsers)

  /** The row of a deal after the stage lookup, the value coercion, the date
      loop and the parsing of `added_at`. */
  function Prepared(d: Row, ctx: Context): Row
  {
    var p := ctx.parsers;
    WithAddedAt(WithDates(WithDecimalValue(WithStage(d, ctx.stageMap), p), |DateColumns|, ctx.dealColumns, p), p)
  }

  predicate Eligible(r: Row)
  {
    InWindow(r) && IsTerminal(r)
  }

  function Normalized(j: Row): Row
  {
    RenameRow(WithCanonicalSegment(WithResolvedSegment(j)))
  }

  function Finished(n: Row): Row
  {
    DropSensitive(WithBand(WithLeadTime(n)))
  }

  /** The steps after the merge, on merged rows. */
  function AfterMerge(js: seq<Row>): seq<Row>
  {
    Map(Filter(Map(js, Normalized), NotExcluded), Finished)
  }

  /** The steps before the merge that drop rows, with `converted` added. */
  function Kept(ps: seq<Row>): seq<Row>
  {
    Map(Filter(Filter(ps, InWindow), IsTerminal), WithConverted)
  }

  /** The rows that one flattened deal contributes to the cleaned table. */
  function Reconciled(d: Row, ctx: Context): seq<Row>
  {
    var p := Prepared(d, ctx);
    if Eligible(p) then AfterMerge(JoinContacts(WithConverted(p), ctx.contacts, "id" in ctx.dealColumns))
    else []
  }

  /** The cleaned table: the rows of each deal, in the deals' order. */
  function ReconciledAll(ds: seq<Row>, ctx: Context): seq<Row>
  {
    FlatMap(ds, ReconciledFn(ctx))
  }

  function ReconciledFn(ctx: Context): Row -> seq<Row>
  {
    d => Reconciled(d, ctx)
  }

  // ---------------------------------------------------------------------
  // The whole table

  /** The columns the code indexes; one that is absent raises KeyError. */
  predicate HasRequiredColumns(deals: Frame, contacts: Frame, stages: Frame)
  {
    && "id" in stages.columns && "name" in stages.columns
    && "stage_id" in deals.columns && "value" in deals.columns && "added_at" in deals.columns
    && "id" in contacts.columns && ContactSegment in contacts.columns
    && "contact_id" in deals.columns && DealSegment in deals.columns
    && ("custom Event Start" in deals.columns || "event_start_date" in deals.columns)
  }

  function ContextOf(deals: Frame, contacts: Frame, stages: Frame, p: Parsers): Context
  {
    Context(StageMap(stages.rows), deals.columns, contacts.rows, p)
  }

  /** `dict(zip(stages['id'], stages['name']))`: every stage id is a key, and
      nothing else is. */
  function StageMap(stages: seq<Row>): (m: map<Value, Value>)
    ensures m.Keys == set i | 0 <= i < |stages| :: Get(stages[i], "id")
  {
    if stages == [] then map[]
    else
      var init := stages[..|stages| - 1];
      var s := stages[|stages| - 1];
      assert stages == init + [s];
      StageMap(init)[Get(s, "id") := Get(s, "name")]
  }

  /** The columns of the cleaned table, given the columns of the flattened
      deals: the derived columns are there, the sensitive ones are not, and
      every other deal column survives under its own or its new label. */
  function CleanedColumns(dealColumns: set<string>): (cs: set<string>)
    ensures cs !! Dropped
  {
    (RenameColumns(MergedColumns(dealColumns) + {DealSegment}) + {"lead_time", "deal_band"}) - Dropped
  }

  /** The columns after the merge. */
  function MergedColumns(dealColumns: set<string>): (cs: set<string>)
    ensures forall c :: c in dealColumns && c != "id" ==> c in cs
    ensures {"stage_name", "decimal_value", "added_at", "converted", ContactSegment} <= cs
  {
    var prepared := dealColumns + {"stage_name", "decimal_value", "added_at", "converted"};
    if "id" in dealColumns then (prepared - {"id"}) + {"id_x", "id_y", ContactSegment}
    else prepared + {"id", ContactSegment}
  }

  /** The derived columns are in the cleaned table. */
  lemma CleanedColumnsDerived(dealColumns: set<string>)
    ensures {"stage_name", "decimal_value", "added_at", "converted", "client_segment",
             "lead_time", "deal_band", ContactSegment} <= CleanedColumns(dealColumns)
  {
    var merged := MergedColumns(dealColumns) + {DealSegment};
    var renamed := RenameColumns(merged);
    assert "stage_name" in renamed;
    assert "decimal_value" in renamed;
    assert "added_at" in renamed;
    assert "converted" in renamed;
    assert "client_segment" in renamed;
    assert ContactSegment in renamed;
    var derived := {"stage_name", "decimal_value", "added_at", "converted", "client_segment",
                    "lead_time", "deal_band", ContactSegment};
    assert derived <= renamed + {"lead_time", "deal_band"};
    DerivedNotDropped();
  }

  lemma DerivedNotDropped()
    ensures {"stage_name", "decimal_value", "added_at", "converted", "client_segment",
             "lead_time", "deal_band", ContactSegment} !! Dropped
  {
  }

  lemma RenamedNotDropped()
    ensures forall t :: t in RenamedFrom ==> t !in Dropped && RenamedFrom[t] != "id"
  {
  }

  /** Every deal column that is neither sensitive nor renamed survives. */
  lemma CleanedColumnsKeep(dealColumns: set<string>)
    ensures forall c :: c in dealColumns && c !in Dropped && c !in RenamedFrom.Values && c != "id" ==>
      c in CleanedColumns(dealColumns)
  {
    var merged := MergedColumns(dealColumns) + {DealSegment};
    var renamed := RenameColumns(merged);
    forall c | c in dealColumns && c !in Dropped && c !in RenamedFrom.Values && c != "id"
      ensures c in CleanedColumns(dealColumns)
    {
      assert c in merged;
      assert c in renamed;
    }
  }

  /** A renamed deal column survives under its new label. */
  lemma CleanedColumnsRenamed(dealColumns: set<string>)
    ensures forall t :: t in RenamedFrom && RenamedFrom[t] in dealColumns ==> t in CleanedColumns(dealColumns)
  {
    var merged := MergedColumns(dealColumns) + {DealSegment};
    var renamed := RenameColumns(merged);
    RenamedNotDropped();
    forall t | t in RenamedFrom && RenamedFrom[t] in dealColumns
      ensures t in CleanedColumns(dealColumns)
    {
      assert RenamedFrom[t] in merged;
      assert t in renamed;
    }
  }

  /** The first KeyError the code raises, if any, in the order it indexes
      the columns. */
  function MissingColumnOf(deals: Frame, contacts: Frame, stages: Frame): (m: Option<string>)
    ensures m.None? <==> HasRequiredColumns(deals, contacts, stages)
  {
    if "id" !in stages.columns then Some("id")
    else if "name" !in stages.columns then Some("name")
    else if "stage_id" !in deals.columns then Some("stage_id")
    else if "value" !in deals.columns then Some("value")
    else if "added_at" !in deals.columns then Some("added_at")
    else if "id" !in contacts.columns then Some("id")
    else if ContactSegment !in contacts.columns then Some(ContactSegment)
    else if "contact_id" !in deals.columns then Some("contact_id")
    else if DealSegment !in deals.columns then Some(DealSegment)
    else if !("custom Event Start" in deals.columns || "event_start_date" in deals.columns) then Some("event_start_date")
    else None
  }

  /** The `for col in date_cols` loop: each date column the table has is
      parsed, the others are skipped. */
  method ConvertDates(rows: seq<Row>, present: set<string>, parsers: Parsers) returns (out: seq<Row>)
    ensures |out| == |rows|
    ensures forall i :: 0 <= i < |rows| ==> out[i] == WithDates(rows[i], |DateColumns|, present, parsers)
  {
    out := rows;
    var k := 0;
    while k < |DateColumns|
      invariant 0 <= k <= |DateColumns|
      invariant |out| == |rows|
      invariant forall i :: 0 <= i < |rows| ==> out[i] == WithDates(rows[i], k, present, parsers)
    {
      var col := DateColumns[k];
      if col in present {
        out := Map(out, r => WithDate(r, col, parsers));
      }
      k := k + 1;
    }
  }

  /** The steps before any row is dropped: stage names, values, dates. */
  method Prepare(rows: seq<Row>, ctx: Context) returns (out: seq<Row>)
    ensures |out| == |rows|
    ensures forall i :: 0 <= i < |rows| ==> out[i] == Prepared(rows[i], ctx)
  {
    out := Map(rows, r => WithStage(r, ctx.stageMap));
    out := Map(out, r => WithDecimalValue(r, ctx.parsers));
    // The columns added so far are not date columns, so the table has a
    // date column exactly when the flattened deals had it.
    out := ConvertDates(out, ctx.dealColumns, ctx.parsers);
    out := Map(out, r => WithAddedAt(r, ctx.parsers));
  }

  /** The steps after the merge: segment fallback, synonyms, renaming,
      exclusions, lead time, bands and the sensitive columns. */
  method Finish(merged: seq<Row>) returns (out: seq<Row>)
    ensures out == AfterMerge(merged)
  {
    out := Map(merged, WithResolvedSegment);
    out := Map(out, WithCanonicalSegment);
    out := Map(out, RenameRow);
    assert out == Map(merged, Normalized);
    out := Filter(out, NotExcluded);
    ghost var normalized := out;
    out := Map(out, WithLeadTime);
    out := Map(out, WithBand);
    out := Map(out, DropSensitive);
    assert out == Map(normalized, Finished);
  }

  /** `clean_deals`: the KeyError the code would raise, or the cleaned table. */
  method CleanDeals(deals: Frame, contacts: Frame, stages: Frame, parsers: Parsers)
    returns (result: Result<Frame, Failure>)
    ensures Flatten(deals, Deals).Err? ==> result == Err(Flatten(deals, Deals).error)
    ensures Flatten(deals, Deals).Ok? && Flatten(contacts, Contacts).Err? ==>
      result == Err(Flatten(contacts, Contacts).error)
    ensures Flatten(deals, Deals).Ok? && Flatten(contacts, Contacts).Ok? ==>
      var missing := MissingColumnOf(Flatten(deals, Deals).value, Flatten(contacts, Contacts).value, stages);
      missing.Some? ==> result == Err(MissingColumn(missing.value))
    ensures result.Ok? <==>
      && Flatten(deals, Deals).Ok? && Flatten(contacts, Contacts).Ok?
      && HasRequiredColumns(Flatten(deals, Deals).value, Flatten(contacts, Contacts).value, stages)
    ensures result.Ok? ==>
      var fd := Flatten(deals, Deals).value;
      var ctx := ContextOf(fd, Flatten(contacts, Contacts).value, stages, parsers);
      result.value == Frame(CleanedColumns(fd.columns), ReconciledAll(fd.rows, ctx))
  {
    var flatDeals := Flatten(deals, Deals);
    if flatDeals.Err? {
      return Err(flatDeals.error);
    }
    var flatContacts := Flatten(contacts, Contacts);
    if flatContacts.Err? {
      return Err(flatContacts.error);
    }
    var fd, fc := flatDeals.value, flatContacts.value;
    var missing := MissingColumnOf(fd, fc, stages);
    if missing.Some? {
      return Err(MissingColumn(missing.value));
    }
    var ctx := ContextOf(fd, fc, stages, parsers);
    var rows := Prepare(fd.rows, ctx);
    ghost var prepared := rows;
    rows := Filter(rows, InWindow);
    rows := Filter(rows, IsTerminal);
    rows := Map(rows, WithConverted);
    rows := JoinAll(rows, fc.rows, "id" in fd.columns);
    rows := Finish(rows);
    ReconciledAllSteps(fd.rows, prepared, ctx);
    return Ok(Frame(CleanedColumns(fd.columns), rows));
  }

  lemma KeptCons(ps: seq<Row>)
    requires ps != []
    ensures Kept(ps) == (if Eligible(ps[0]) then [WithConverted(ps[0])] else []) + Kept(ps[1..])
  {
    MapFilterFilterCons(ps, InWindow, IsTerminal, WithConverted);
  }

  lemma {:induction false} AfterMergeAppend(xs: seq<Row>, ys: seq<Row>)
    ensures AfterMerge(xs + ys) == AfterMerge(xs) + AfterMerge(ys)
  {
    MapAppend(xs, ys, Normalized);
    FilterAppend(Map(xs, Normalized), Map(ys, Normalized), NotExcluded);
    MapAppend(Filter(Map(xs, Normalized), NotExcluded), Filter(Map(ys, Normalized), NotExcluded), Finished);
  }

  /** The table-wide steps give, deal by deal, the rows of `Reconciled`. */
  lemma {:induction false} ReconciledAllSteps(ds: seq<Row>, ps: seq<Row>, ctx: Context)
    requires |ps| == |ds|
    requires forall i :: 0 <= i < |ds| ==> ps[i] == Prepared(ds[i], ctx)
    ensures AfterMerge(JoinAll(Kept(ps), ctx.contacts, "id" in ctx.dealColumns)) == ReconciledAll(ds, ctx)
  {
    var h := "id" in ctx.dealColumns;
    if ds == [] {
      assert ps == [];
    } else {
      ReconciledAllSteps(ds[1..], ps[1..], ctx);
      KeptCons(ps);
      var head := if Eligible(ps[0]) then [WithConverted(ps[0])] else [];
      FlatMapAppend(head, Kept(ps[1..]), JoinFn(ctx.contacts, h));
      AfterMergeAppend(JoinAll(head, ctx.contacts, h), JoinAll(Kept(ps[1..]), ctx.contacts, h));
      if Eligible(ps[0]) {
        FlatMapSingleton(WithConverted(ps[0]), JoinFn(ctx.contacts, h));
      }
    }
  }

  // ---------------------------------------------------------------------
  // What one deal contributes

  /** The name of the deal's stage, NaN when no stage has its id. */
  function StageOf(d: Row, ctx: Context): Value
  {
    StageName(Get(d, "stage_id"), ctx.stageMap)
  }

  /** The deal's `added_at`, parsed. */
  function AddedAt(d: Row, ctx: Context): Option<int>
  {
    ParseTime(Get(d, "added_at"), ctx.parsers)
  }

  /** The segment the code settles on for a deal whose contact id matches
      at most one contact: the deal's own, else its contact's. */
  function ResolvedSegment(d: Row, ctx: Context): Value
  {
    var own := Get(d, DealSegment);
    var ms := Matches(Get(d, "contact_id"), ctx.contacts);
    if own != Null then own else if ms == [] then Null else Get(ms[0], ContactSegment)
  }

  predicate ContactIdsUnique(contacts: seq<Row>)
  {
    forall i, j :: 0 <= i < j < |contacts| ==> Get(contacts[i], "id") != Get(contacts[j], "id")
  }

  /** The stage and the value of a deal's row after the steps before the merge. */
  lemma PreparedStageAndValue(d: Row, ctx: Context)
    ensures Get(Prepared(d, ctx), "stage_name") == StageOf(d, ctx)
    ensures Get(Prepared(d, ctx), "decimal_value") == Num(DecimalValue(Get(d, "value"), ctx.parsers))
  {
    var p := ctx.parsers;
    var s := WithDecimalValue(WithStage(d, ctx.stageMap), p);
    var w := WithDates(s, |DateColumns|, ctx.dealColumns, p);
    WithDatesKeeps(s, |DateColumns|, ctx.dealColumns, p, "stage_name");
    WithDatesKeeps(s, |DateColumns|, ctx.dealColumns, p, "decimal_value");
  }

  /** The cells of a deal's row that only `added_at` parsing touches. */
  lemma PreparedKeeps(d: Row, ctx: Context)
    ensures Get(Prepared(d, ctx), "added_at") == TimeCell(Get(d, "added_at"), ctx.parsers)
    ensures Get(Prepared(d, ctx), "contact_id") == Get(d, "contact_id")
    ensures Get(Prepared(d, ctx), DealSegment) == Get(d, DealSegment)
  {
    var p := ctx.parsers;
    var s := WithDecimalValue(WithStage(d, ctx.stageMap), p);
    var w := WithDates(s, |DateColumns|, ctx.dealColumns, p);
    WithDatesKeeps(s, |DateColumns|, ctx.dealColumns, p, "added_at");
    WithDatesKeeps(s, |DateColumns|, ctx.dealColumns, p, "contact_id");
    WithDatesKeeps(s, |DateColumns|, ctx.dealColumns, p, DealSegment);
  }

  /** A row left after the merge steps is a merged row, normalized, not
      excluded, and finished. */
  lemma AfterMergeSource(js: seq<Row>, r: Row)
    requires r in AfterMerge(js)
    ensures exists j :: j in js && NotExcluded(Normalized(j)) && r == Finished(Normalized(j))
  {
    MapFilterMapSource(js, Normalized, NotExcluded, Finished, r);
  }

  /** The merged rows of an eligible deal. */
  function MergedRows(d: Row, ctx: Context): seq<Row>
  {
    JoinContacts(WithConverted(Prepared(d, ctx)), ctx.contacts, "id" in ctx.dealColumns)
  }

  /** Every row a deal contributes comes from an eligible deal, through one
      of its merged rows. */
  lemma Provenance(d: Row, ctx: Context, r: Row)
    requires r in Reconciled(d, ctx)
    ensures Eligible(Prepared(d, ctx))
    ensures exists j :: j in MergedRows(d, ctx) && NotExcluded(Normalized(j)) && r == Finished(Normalized(j))
  {
    assert Eligible(Prepared(d, ctx));
    assert Reconciled(d, ctx) == AfterMerge(MergedRows(d, ctx));
    AfterMergeSource(MergedRows(d, ctx), r);
  }

  /** The segment of a merged row once it is settled and renamed. */
  lemma NormalizedSegment(j: Row)
    ensures Get(Normalized(j), "client_segment") ==
      Canonical(SettledSegment(j))
  {
    RenameRowCell(WithCanonicalSegment(WithResolvedSegment(j)), "client_segment");
  }

  /** Settling the segment and renaming keep every other cell. */
  lemma NormalizedKeeps(j: Row, c: string)
    requires c !in RenamedFrom && c !in RenamedFrom.Values
    ensures Get(Normalized(j), c) == Get(j, c)
  {
    assert RenamedFrom["client_segment"] == DealSegment;
    RenameRowCell(WithCanonicalSegment(WithResolvedSegment(j)), c);
  }

  /** What the last three steps leave in a row. */
  lemma FinishedDerived(n: Row)
    ensures Get(Finished(n), "lead_time") == LeadTime(Get(n, "event_start_date"), Get(n, "added_at"))
    ensures Get(Finished(n), "deal_band") == BandCell(Get(n, "decimal_value"))
  {
    DropSensitiveCell(WithBand(WithLeadTime(n)), "lead_time");
    DropSensitiveCell(WithBand(WithLeadTime(n)), "deal_band");
  }

  lemma FinishedKeeps(n: Row, c: string)
    requires c !in Dropped && c != "lead_time" && c != "deal_band"
    ensures Get(Finished(n), c) == Get(n, c)
  {
    DropSensitiveCell(WithBand(WithLeadTime(n)), c);
  }

  /** A merged row of a deal keeps the deal's cells other than the ids and
      the contact's segment. */
  lemma MergedRowKeeps(d: Row, ctx: Context, j: Row, c: string)
    requires j in MergedRows(d, ctx)
    requires c !in {"id", "id_x", "id_y", ContactSegment}
    ensures Get(j, c) == Get(WithConverted(Prepared(d, ctx)), c)
    ensures c in j <==> c in WithConverted(Prepared(d, ctx))
  {
    var w := WithConverted(Prepared(d, ctx));
    var h := "id" in ctx.dealColumns;
    var ms := Matches(Get(w, "contact_id"), ctx.contacts);
    if ms != [] {
      var i :| 0 <= i < |MergedRows(d, ctx)| && j == MergedRows(d, ctx)[i];
      MergedKeeps(w, Some(ms[i]), h, c);
    } else {
      MergedKeeps(w, None, h, c);
    }
  }

  /** The row of a deal just before the merge, cell by cell. */
  lemma ConvertedCells(d: Row, ctx: Context)
    ensures Get(WithConverted(Prepared(d, ctx)), "stage_name") == StageOf(d, ctx)
    ensures Get(WithConverted(Prepared(d, ctx)), "added_at") == TimeCell(Get(d, "added_at"), ctx.parsers)
    ensures Get(WithConverted(Prepared(d, ctx)), "converted") == Bool(StageOf(d, ctx) == EventComplete)
    ensures Get(WithConverted(Prepared(d, ctx)), "decimal_value") ==
      Num(DecimalValue(Get(d, "value"), ctx.parsers))
  {
    PreparedStageAndValue(d, ctx);
    PreparedKeeps(d, ctx);
  }

  /** The two row filters keep a deal exactly when its stage is terminal
      and its `added_at` parses to a time inside the window. */
  lemma EligibleMeans(d: Row, ctx: Context)
    ensures Eligible(Prepared(d, ctx)) <==>
      StageOf(d, ctx) in TerminalStages && AddedAt(d, ctx).Some? && AddedAt(d, ctx).value >= WindowStart
  {
    PreparedStageAndValue(d, ctx);
    PreparedKeeps(d, ctx);
  }

  /** The last steps keep the cells a merged row got before the merge. */
  lemma FinishedKeepsMerged(j: Row, c: string)
    requires c == "stage_name" || c == "added_at" || c == "converted" || c == "decimal_value"
    ensures Get(Finished(Normalized(j)), c) == Get(j, c)
  {
    PlainLabel(c);
    NormalizedKeeps(j, c);
    FinishedKeeps(Normalized(j), c);
  }

  /** The cells the steps after the merge leave alone. */
  lemma PlainLabel(c: string)
    requires c == "stage_name" || c == "added_at" || c == "converted" || c == "decimal_value"
    ensures c !in RenamedFrom && c !in RenamedFrom.Values
    ensures c !in Dropped && c != "lead_time" && c != "deal_band"
  {
  }

  /** A row of the cleaned table holds the deal's stage, `added_at`,
      `converted` and coerced value as the steps before the merge left them. */
  lemma SurvivorKeeps(d: Row, ctx: Context, r: Row, c: string)
    requires r in Reconciled(d, ctx)
    requires c == "stage_name" || c == "added_at" || c == "converted" || c == "decimal_value"
    ensures Get(r, c) == Get(WithConverted(Prepared(d, ctx)), c)
  {
    Provenance(d, ctx, r);
    var j :| j in MergedRows(d, ctx) && NotExcluded(Normalized(j)) && r == Finished(Normalized(j));
    MergedRowKeeps(d, ctx, j, c);
    FinishedKeepsMerged(j, c);
  }

  /** Every row of the cleaned table comes from a deal in a terminal stage
      added inside the window, keeps that stage and date, and says whether
      the stage is "Event Complete". */
  lemma Survivor(d: Row, ctx: Context, r: Row)
    requires r in Reconciled(d, ctx)
    ensures StageOf(d, ctx) in TerminalStages && Get(r, "stage_name") == StageOf(d, ctx)
    ensures AddedAt(d, ctx).Some? && AddedAt(d, ctx).value >= WindowStart
    ensures Get(r, "added_at") == Time(AddedAt(d, ctx).value)
    ensures Get(r, "converted") == Bool(StageOf(d, ctx) == EventComplete)
  {
    Provenance(d, ctx, r);
    EligibleMeans(d, ctx);
    ConvertedCells(d, ctx);
    SurvivorKeeps(d, ctx, r, "stage_name");
    SurvivorKeeps(d, ctx, r, "added_at");
    SurvivorKeeps(d, ctx, r, "converted");
  }

  /** A row of the cleaned table carries its deal's value, parsed, or 0 when
      it is missing or does not parse. */
  lemma SurvivorValue(d: Row, ctx: Context, r: Row)
    requires r in Reconciled(d, ctx)
    ensures ParseNumber(Get(d, "value"), ctx.parsers).Some? ==>
      Get(r, "decimal_value") == Num(ParseNumber(Get(d, "value"), ctx.parsers).value)
    ensures ParseNumber(Get(d, "value"), ctx.parsers).None? ==> Get(r, "decimal_value") == Num(0.0)
  {
    ConvertedCells(d, ctx);
    SurvivorKeeps(d, ctx, r, "decimal_value");
  }

  /** A row of the cleaned table has a segment that is neither excluded nor
      a legacy label. */
  lemma SurvivorSegment(d: Row, ctx: Context, r: Row)
    requires r in Reconciled(d, ctx)
    ensures Get(r, "client_segment") !in ExcludedSegments
    ensures Get(r, "client_segment").Str? ==> Get(r, "client_segment").s !in Synonyms
  {
    Provenance(d, ctx, r);
    var j :| j in MergedRows(d, ctx) && NotExcluded(Normalized(j)) && r == Finished(Normalized(j));
    FinishedSegment(j);
  }

  lemma FinishedSegment(j: Row)
    requires NotExcluded(Normalized(j))
    ensures Get(Finished(Normalized(j)), "client_segment") !in ExcludedSegments
    ensures Get(Finished(Normalized(j)), "client_segment").Str? ==>
      Get(Finished(Normalized(j)), "client_segment").s !in Synonyms
  {
    NormalizedSegment(j);
    FinishedKeeps(Normalized(j), "client_segment");
  }

  /** A row of the cleaned table has the lead time and the band of its own
      cells, and none of the sensitive columns. */
  lemma SurvivorDerived(d: Row, ctx: Context, r: Row)
    requires r in Reconciled(d, ctx)
    ensures Get(r, "lead_time") == LeadTime(Get(r, "event_start_date"), Get(r, "added_at"))
    ensures Get(r, "deal_band") == BandCell(Get(r, "decimal_value"))
    ensures forall c :: c in Dropped ==> c !in r
  {
    Provenance(d, ctx, r);
    var j :| j in MergedRows(d, ctx) && NotExcluded(Normalized(j)) && r == Finished(Normalized(j));
    FinishedOwnCells(Normalized(j));
  }

  /** A deal's `custom Event Start`, parsed, is in its row just before the
      merge when the deals have that column. */
  lemma PreparedEventStart(d: Row, ctx: Context)
    requires "custom Event Start" in ctx.dealColumns
    ensures "custom Event Start" in WithConverted(Prepared(d, ctx))
    ensures WithConverted(Prepared(d, ctx))["custom Event Start"] ==
      TimeCell(Get(d, "custom Event Start"), ctx.parsers)
  {
    var p := ctx.parsers;
    var s := WithDecimalValue(WithStage(d, ctx.stageMap), p);
    assert Get(s, "custom Event Start") == Get(d, "custom Event Start");
    assert DateColumns[..|DateColumns|][0] == "custom Event Start";
    DatesParsed(s, |DateColumns|, ctx.dealColumns, p, "custom Event Start");
  }

  /** The renaming moves the event start to `event_start_date`. */
  lemma NormalizedEventStart(j: Row)
    requires "custom Event Start" in j
    ensures Get(Normalized(j), "event_start_date") == j["custom Event Start"]
  {
    var q := WithCanonicalSegment(WithResolvedSegment(j));
    assert "custom Event Start" in q && q["custom Event Start"] == j["custom Event Start"];
    assert RenamedFrom["event_start_date"] == "custom Event Start";
    RenameRowCell(q, "event_start_date");
  }

  /** A merged row of a deal, once finished, has the deal's parsed
      `custom Event Start` as its `event_start_date`. */
  lemma MergedEventStart(d: Row, ctx: Context, j: Row)
    requires j in MergedRows(d, ctx)
    requires "custom Event Start" in ctx.dealColumns
    ensures Get(Finished(Normalized(j)), "event_start_date") == TimeCell(Get(d, "custom Event Start"), ctx.parsers)
  {
    PreparedEventStart(d, ctx);
    MergedRowKeeps(d, ctx, j, "custom Event Start");
    FinishedEventStart(j);
  }

  lemma FinishedEventStart(j: Row)
    requires "custom Event Start" in j
    ensures Get(Finished(Normalized(j)), "event_start_date") == j["custom Event Start"]
  {
    NormalizedEventStart(j);
    FinishedKeeps(Normalized(j), "event_start_date");
  }

  /** A cleaned row's event start is its deal's `custom Event Start`, parsed,
      and its lead time runs from the deal's parsed `added_at` to that. */
  lemma SurvivorLeadTime(d: Row, ctx: Context, r: Row)
    requires r in Reconciled(d, ctx)
    requires "custom Event Start" in ctx.dealColumns
    ensures Get(r, "event_start_date") == TimeCell(Get(d, "custom Event Start"), ctx.parsers)
    ensures Get(r, "lead_time") ==
      LeadTime(TimeCell(Get(d, "custom Event Start"), ctx.parsers), TimeCell(Get(d, "added_at"), ctx.parsers))
  {
    Provenance(d, ctx, r);
    var j :| j in MergedRows(d, ctx) && NotExcluded(Normalized(j)) && r == Finished(Normalized(j));
    MergedEventStart(d, ctx, j);
    SurvivorDerived(d, ctx, r);
    SurvivorKeeps(d, ctx, r, "added_at");
    ConvertedCells(d, ctx);
  }

  /** The lead time and the band are those of the row's own cells, and the
      sensitive columns are gone. */
  lemma FinishedOwnCells(n: Row)
    ensures Get(Finished(n), "lead_time") == LeadTime(Get(Finished(n), "event_start_date"), Get(Finished(n), "added_at"))
    ensures Get(Finished(n), "deal_band") == BandCell(Get(Finished(n), "decimal_value"))
    ensures forall c :: c in Dropped ==> c !in Finished(n)
  {
    FinishedDerived(n);
    FinishedKeeps(n, "event_start_date");
    FinishedKeeps(n, "added_at");
    FinishedKeeps(n, "decimal_value");
    forall c | c in Dropped
      ensures c !in Finished(n)
    {
      DropSensitiveCell(WithBand(WithLeadTime(n)), c);
    }
  }

  // ---------------------------------------------------------------------
  // Unique contact ids: one row per eligible, non-excluded deal

  /** With unique contact ids, a contact id matches at most one contact. */
  lemma {:induction false} AtMostOneMatch(id: Value, contacts: seq<Row>)
    requires ContactIdsUnique(contacts)
    ensures |Matches(id, contacts)| <= 1
  {
    if contacts != [] {
      var rest := contacts[1..];
      assert ContactIdsUnique(rest) by {
        forall i, j | 0 <= i < j < |rest|
          ensures Get(rest[i], "id") != Get(rest[j], "id")
        {
          assert rest[i] == contacts[i + 1] && rest[j] == contacts[j + 1];
        }
      }
      AtMostOneMatch(id, rest);
      assert Matches(id, contacts) ==
        (if Get(contacts[0], "id") == id then [contacts[0]] else []) + Matches(id, rest);
      if Get(contacts[0], "id") == id {
        forall k | 0 <= k < |rest|
          ensures Get(rest[k], "id") != id
        {
          assert rest[k] == contacts[k + 1];
        }
        NoMatches(id, rest);
      }
    }
  }

  lemma {:induction false} NoMatches(id: Value, contacts: seq<Row>)
    requires forall k :: 0 <= k < |contacts| ==> Get(contacts[k], "id") != id
    ensures Matches(id, contacts) == []
  {
    if contacts != [] {
      NoMatches(id, contacts[1..]);
    }
  }

  /** With unique contact ids, a deal has exactly one merged row, whose
      settled segment is the deal's resolved segment. */
  lemma SingleMergedRow(d: Row, ctx: Context)
    requires ContactIdsUnique(ctx.contacts)
    ensures |MergedRows(d, ctx)| == 1
    ensures forall j :: j in MergedRows(d, ctx) ==> SettledSegment(j) == ResolvedSegment(d, ctx)
  {
    var w := WithConverted(Prepared(d, ctx));
    PreparedKeeps(d, ctx);
    assert Get(w, "contact_id") == Get(d, "contact_id");
    assert Get(w, DealSegment) == Get(d, DealSegment);
    var ms := Matches(Get(d, "contact_id"), ctx.contacts);
    AtMostOneMatch(Get(d, "contact_id"), ctx.contacts);
    var h := "id" in ctx.dealColumns;
    if ms == [] {
      MergedKeeps(w, None, h, DealSegment);
    } else {
      MergedKeeps(w, Some(ms[0]), h, DealSegment);
    }
  }

  /** The merge steps on a single merged row. */
  lemma AfterMergeSingle(j: Row)
    ensures NotExcluded(Normalized(j)) ==> AfterMerge([j]) == [Finished(Normalized(j))]
    ensures !NotExcluded(Normalized(j)) ==> AfterMerge([j]) == []
  {
    assert Map([j], Normalized) == [Normalized(j)];
    assert Filter([Normalized(j)], NotExcluded) ==
      (if NotExcluded(Normalized(j)) then [Normalized(j)] else []) + Filter([Normalized(j)][1..], NotExcluded);
  }

  /** With unique contact ids a deal yields at most one row, and it yields
      one exactly when it is in a terminal stage, was added inside the
      window, and its resolved segment is not excluded once canonical. */
  lemma OneRowPerDeal(d: Row, ctx: Context)
    requires ContactIdsUnique(ctx.contacts)
    ensures |Reconciled(d, ctx)| <= 1
    ensures |Reconciled(d, ctx)| == 1 <==>
      && StageOf(d, ctx) in TerminalStages
      && AddedAt(d, ctx).Some? && AddedAt(d, ctx).value >= WindowStart
      && Canonical(ResolvedSegment(d, ctx)) !in ExcludedSegments
  {
    EligibleMeans(d, ctx);
    if Eligible(Prepared(d, ctx)) {
      SingleMergedRow(d, ctx);
      var j := MergedRows(d, ctx)[0];
      assert MergedRows(d, ctx) == [j];
      NormalizedSegment(j);
      AfterMergeSingle(j);
    }
  }

  /** With unique contact ids, the segment of a deal's row is its own
      segment when it has one, else its contact's, made canonical. */
  lemma SegmentResolution(d: Row, ctx: Context, r: Row)
    requires ContactIdsUnique(ctx.contacts)
    requires r in Reconciled(d, ctx)
    ensures Get(r, "client_segment") == Canonical(ResolvedSegment(d, ctx))
  {
    Provenance(d, ctx, r);
    var j :| j in MergedRows(d, ctx) && NotExcluded(Normalized(j)) && r == Finished(Normalized(j));
    SingleMergedRow(d, ctx);
    FinishedSegmentOf(j);
  }

  lemma FinishedSegmentOf(j: Row)
    ensures Get(Finished(Normalized(j)), "client_segment") ==
      Canonical(SettledSegment(j))
  {
    NormalizedSegment(j);
    FinishedKeeps(Normalized(j), "client_segment");
  }

  // ---------------------------------------------------------------------
  // The whole table

  /** Every row of the cleaned table is a row of one of the deals. */
  lemma TableRowSource(ds: seq<Row>, ctx: Context, r: Row)
    requires r in ReconciledAll(ds, ctx)
    ensures exists d :: d in ds && r in Reconciled(d, ctx)
  {
    FlatMapSource(ds, ReconciledFn(ctx), r);
  }

  /** With unique contact ids the cleaned table has at most one row per deal. */
  lemma {:induction false} AtMostOneRowPerDeal(ds: seq<Row>, ctx: Context)
    requires ContactIdsUnique(ctx.contacts)
    ensures |ReconciledAll(ds, ctx)| <= |ds|
  {
    if ds != [] {
      OneRowPerDeal(ds[0], ctx);
      AtMostOneRowPerDeal(ds[1..], ctx);
    }
  }

  /** A later stage with the same id overrides an earlier one. */
  lemma {:induction false} LastStageWins(stages: seq<Row>, i: int)
    requires 0 <= i < |stages|
    requires forall k :: i < k < |stages| ==> Get(stages[k], "id") != Get(stages[i], "id")
    ensures StageMap(stages)[Get(stages[i], "id")] == Get(stages[i], "name")
  {
    var init := stages[..|stages| - 1];
    assert stages == init + [stages[|stages| - 1]];
    if i < |stages| - 1 {
      assert init[i] == stages[i];
      LastStageWins(init, i);
    }
  }
}
