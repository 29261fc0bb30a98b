/** Flattening of the custom-field containers that deals and contacts carry
    (`extract_custom_fields`, data_manager.py:27-30), the prefixing of the
    flattened keys (:34 for deals, :39 for contacts) and the concatenation of
    the flattened fields onto each row (:33-35, :38-40). */
module CustomFields {
  import opened Wrappers
  import opened Frames

  /** The names carried by the records that have a `name` key. */
  function Names(entries: seq<FieldEntry>): set<string>
  {
    set i | 0 <= i < |entries| && entries[i].name.Some? :: entries[i].name.value
  }

  /** The dict comprehension over a list of records: each named record adds
      its name and value, a record without a name is skipped, and a named
      record without a `value` key raises (None). */
  function FromRecords(entries: seq<FieldEntry>): (r: Option<map<string, Value>>)
    ensures r.Some? <==>
      forall i :: 0 <= i < |entries| && entries[i].name.Some? ==> entries[i].value.Some?
    ensures r.Some? ==> r.value.Keys == Names(entries)
  {
    if entries == [] then Some(map[])
    else
      var init := entries[..|entries| - 1];
      var e := entries[|entries| - 1];
      assert entries == init + [e];
      var before := FromRecords(init);
      if before.None? then None
      else if e.name.None? then before
      else if e.value.None? then None
      else Some(before.value[e.name.value := e.value.value])
  }

  /** When a name occurs more than once, the last record with that name
      decides the value. */
  lemma {:induction false} LastRecordWins(entries: seq<FieldEntry>, i: nat)
    requires FromRecords(entries).Some?
    requires i < |entries| && entries[i].name.Some?
    requires forall j :: i < j < |entries| ==> entries[j].name != entries[i].name
    ensures entries[i].value.Some?
    ensures FromRecords(entries).value[entries[i].name.value] == entries[i].value.value
  {
    var init := entries[..|entries| - 1];
    if i < |entries| - 1 {
      LastRecordWins(init, i);
    }
  }

  /** `extract_custom_fields`: a list is flattened, a dict is returned as it
      is, anything else gives the empty dict. */
  function Extract(v: Value): (r: Option<map<string, Value>>)
    ensures v.Records? ==> r == FromRecords(v.entries)
    ensures v.Dict? ==> r == Some(v.fields)
    ensures !v.Records? && !v.Dict? ==> r == Some(map[])
  {
    match v
    case Records(entries) => FromRecords(entries)
    case Dict(fields) => Some(fields)
    case _ => Some(map[])
  }

  const DealPrefix := "custom "
  const ContactPrefix := "custom (contact) "

  /** The column label a deal's custom field gets: "custom " in front, unless
      the name already starts with "custom". */
  function DealKey(k: string): (r: string)
    ensures StartsWith(r, "custom")
    ensures r == k || r == DealPrefix + k
    ensures r == k <==> StartsWith(k, "custom")
  {
    if StartsWith(k, "custom") then k else DealPrefix + k
  }

  /** The column label a contact's custom field gets; the name can be read
      back from it. */
  function ContactKey(k: string): (r: string)
    ensures StartsWith(r, ContactPrefix)
    ensures r[|ContactPrefix|..] == k
  {
    ContactPrefix + k
  }

  /** Prefixing a deal key a second time changes nothing. */
  lemma DealKeyIdempotent(k: string)
    ensures DealKey(DealKey(k)) == DealKey(k)
  {
  }

  /** Distinct contact fields keep distinct labels. */
  lemma ContactKeyInjective(a: string, b: string)
    ensures ContactKey(a) == ContactKey(b) ==> a == b
  {
    if ContactKey(a) == ContactKey(b) {
      assert a == ContactKey(a)[|ContactPrefix|..];
    }
  }

  /** A deal label and a contact label coincide exactly when the deal's field
      name already spells out the contact namespace, so the two namespaces
      are not disjoint. */
  lemma DealContactCollision(a: string, b: string)
    ensures DealKey(a) == ContactKey(b) <==> a == ContactPrefix + b || a == "(contact) " + b
  {
    assert ContactPrefix + b == DealPrefix + ("(contact) " + b);
    if a == "(contact) " + b {
      assert a[0] == '(';
      assert !StartsWith(a, "custom");
    }
    if !StartsWith(a, "custom") && DealKey(a) == ContactKey(b) {
      assert a == (DealPrefix + a)[|DealPrefix|..];
    }
  }

  /** A deal whose custom field is named "(contact) Client Segment" gets the
      very label that the contacts' segment column gets. */
  lemma SegmentLabelsCanCollide()
    ensures DealKey("(contact) Client Segment") == ContactKey("Client Segment")
  {
    DealContactCollision("(contact) Client Segment", "Client Segment");
  }

  /** The flattened fields of a deal, relabelled. When both `X` and
      `custom X` are present the value of `custom X` is kept. */
  function PrefixDealFields(m: map<string, Value>): (r: map<string, Value>)
    ensures r.Keys == set k | k in m :: DealKey(k)
    ensures forall k :: k in m && (StartsWith(k, "custom") || DealPrefix + k !in m) ==>
      r[DealKey(k)] == m[k]
  {
    map k' | k' in (set k | k in m :: DealKey(k)) ::
      if k' in m then m[k'] else m[k'[|DealPrefix|..]]
  }

  /** The flattened fields of a contact, relabelled. */
  function PrefixContactFields(m: map<string, Value>): (r: map<string, Value>)
    ensures r.Keys == set k | k in m :: ContactKey(k)
    ensures forall k :: k in m ==> r[ContactKey(k)] == m[k]
  {
    map k' | k' in (set k | k in m :: ContactKey(k)) :: m[k'[|ContactPrefix|..]]
  }

  /** Which of the two frames is flattened. */
  datatype Side = Deals | Contacts

  function Prefixed(side: Side, m: map<string, Value>): map<string, Value>
  {
    match side
    case Deals => PrefixDealFields(m)
    case Contacts => PrefixContactFields(m)
  }

  /** The flattened `custom_fields` of every row, or None when one of them
      raises. */
  function ExtractAll(rows: seq<Row>): (r: Option<seq<map<string, Value>>>)
    ensures r.Some? <==>
      forall i :: 0 <= i < |rows| ==> Extract(Get(rows[i], "custom_fields")).Some?
    ensures r.Some? ==> |r.value| == |rows|
    ensures r.Some? ==> forall i :: 0 <= i < |rows| ==>
      r.value[i] == Extract(Get(rows[i], "custom_fields")).value
  {
    if rows == [] then Some([])
    else
      var first := Extract(Get(rows[0], "custom_fields"));
      var rest := ExtractAll(rows[1..]);
      if first.None? || rest.None? then None
      else Some([first.value] + rest.value)
  }

  /** The fields of a `custom_fields` cell, none when it raises. */
  function FieldsOf(v: Value): map<string, Value>
  {
    match Extract(v)
    case Some(m) => m
    case None => map[]
  }

  /** The labels of the columns the flattening adds: every prefixed field
      name of some row. */
  function AddedLabels(rows: seq<Row>, side: Side): set<string>
  {
    set i, k | 0 <= i < |rows| && k in Prefixed(side, FieldsOf(Get(rows[i], "custom_fields"))) :: k
  }

  /** The frame with every row's custom fields appended under prefixed
      labels: the `apply`, the relabelling and the `concat`. A frame without
      a `custom_fields` column, or a record that raises, stops the run. */
  function Flatten(f: Frame, side: Side): (r: Result<Frame, Failure>)
    ensures "custom_fields" !in f.columns ==> r == Err(MissingColumn("custom_fields"))
    ensures r.Err? <==> ("custom_fields" !in f.columns ||
      exists i :: 0 <= i < |f.rows| && Extract(Get(f.rows[i], "custom_fields")).None?)
    ensures r.Ok? ==> |r.value.rows| == |f.rows|
    ensures r.Ok? ==> r.value.columns == f.columns + AddedLabels(f.rows, side)
    ensures r.Ok? ==> forall i :: 0 <= i < |f.rows| ==>
      r.value.rows[i] == f.rows[i] + Prefixed(side, Extract(Get(f.rows[i], "custom_fields")).value)
  {
    if "custom_fields" !in f.columns then Err(MissingColumn("custom_fields"))
    else
      match ExtractAll(f.rows)
      case None => Err(FieldWithoutValue)
      case Some(fields) =>
        Ok(Frame(f.columns + AddedLabels(f.rows, side),
                 seq(|f.rows|, i requires 0 <= i < |f.rows| => f.rows[i] + Prefixed(side, fields[i]))))
  }
}
