/** The cells, rows and tables that the CRM pipeline passes from step to step.

    A pandas DataFrame is modelled as a set of column labels plus a sequence
    of rows, each row a map from column label to cell. A label that a row's
    map lacks reads as a missing cell (NaN), which is what `pd.DataFrame`
    fills in when the records it is built from have different keys. */
module Frames {
  import opened Wrappers

  /** The five categories of `deal_band`, in category order. */
  datatype Band = Upto5K | Upto10K | Upto20K | Upto30K | Over30K

  /** One record of a custom-field list. Only its `name` and `value` keys are
      ever read; None marks a record that lacks the key. */
  datatype FieldEntry = FieldEntry(name: Option<string>, value: Option<Value>)

  /** A cell. */
  datatype Value =
    | Null                              // None, NaN or NaT
    | Str(s: string)
    | Num(x: real)
    | Bool(b: bool)
    | Time(t: int)                      // a parsed timestamp: seconds since 1970-01-01 UTC
    | Cat(band: Band)                   // a `deal_band` category
    | Records(entries: seq<FieldEntry>) // a list of `{name, value}` records
    | Dict(fields: map<string, Value>)  // a dict

  type Row = map<string, Value>

  /** A DataFrame: its column labels and its rows. */
  datatype Frame = Frame(columns: set<string>, rows: seq<Row>)

  /** What stops a run: a column the code indexes is absent (pandas' KeyError),
      or a named custom-field record has no `value` key (KeyError at the
      dict comprehension). */
  datatype Failure = MissingColumn(column: string) | FieldWithoutValue

  /** The cell of row `r` in column `c`; a missing cell is Null. */
  function Get(r: Row, c: string): (v: Value)
    ensures c !in r ==> v == Null
    ensures c in r ==> v == r[c]
  {
    if c in r then r[c] else Null
  }

  predicate StartsWith(s: string, prefix: string) {
    |prefix| <= |s| && s[..|prefix|] == prefix
  }
}
