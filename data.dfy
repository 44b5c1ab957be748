/** Data ingestion: the table `pd.read_csv` yields, and the null fill of
    `ingest_and_clean_data`, which overwrites each numeric column in place. */
module Data {
  import opened Wrappers

  /** A calendar date as `pd.to_datetime` yields it; dates are never inspected here. */
  datatype Date = Date(ordinal: int)

  /** The four numeric columns the pipeline reads. */
  datatype Column = Clicks | Impressions | AdSpend | Revenue

  /** The columns the cleaning loop visits, in the order it visits them. */
  const NumericColumns: seq<Column> := [Clicks, Impressions, AdSpend, Revenue]

  /** One input row; an empty numeric cell is `None`. Counts are integers,
      money amounts exact reals. */
  datatype Row = Row(
    date: Date,
    clicks: Option<int>,
    impressions: Option<int>,
    adSpend: Option<real>,
    revenue: Option<real>)

  /** What `pd.read_csv` hands over: which of the numeric columns the file
      has, and the rows in file order. */
  datatype Table = Table(columns: set<Column>, rows: seq<Row>)

  /** One cleaned row: every numeric attribute present. */
  datatype Record = Record(date: Date, clicks: int, impressions: int, adSpend: real, revenue: real)

  /** `fillna(0)` applied to the cells of row `r` in the columns `cs`; the
      other cells are left as they are. */
  function FillRow(r: Row, cs: set<Column>): Row {
    r.(clicks := if Clicks in cs then Some(r.clicks.GetOr(0)) else r.clicks,
       impressions := if Impressions in cs then Some(r.impressions.GetOr(0)) else r.impressions,
       adSpend := if AdSpend in cs then Some(r.adSpend.GetOr(0.0)) else r.adSpend,
       revenue := if Revenue in cs then Some(r.revenue.GetOr(0.0)) else r.revenue)
  }

  /** `fillna(0)` on the columns `cs` of every row, keeping row count and order. */
  function FillRows(rows: seq<Row>, cs: set<Column>): (out: seq<Row>)
    ensures |out| == |rows|
    ensures forall i :: 0 <= i < |rows| ==> out[i] == FillRow(rows[i], cs)
  {
    seq(|rows|, i requires 0 <= i < |rows| => FillRow(rows[i], cs))
  }

  /** Filling one more column after some are filled is filling them all at once. */
  lemma FillRowsExtend(rows: seq<Row>, done: set<Column>, c: Column)
    ensures FillRows(FillRows(rows, done), {c}) == FillRows(rows, done + {c})
  {
    var a, b := FillRows(FillRows(rows, done), {c}), FillRows(rows, done + {c});
    forall i | 0 <= i < |rows| ensures a[i] == b[i] {
      assert a[i] == FillRow(FillRow(rows[i], done), {c});
    }
  }

  /** The pandas frame, column storage abstracted to rows. */
  class DataFrame {
    /** The numeric columns present in the frame (`df.columns`). */
    var columns: set<Column>
    var rows: seq<Row>

    /** `pd.read_csv`: the frame holds the table as read. */
    constructor (t: Table)
      ensures columns == t.columns && rows == t.rows
    {
      columns := t.columns;
      rows := t.rows;
    }

    /** `df[c] = df[c].fillna(0)`: overwrites column `c` and nothing else. */
    method FillNa(c: Column)
      modifies this
      ensures columns == old(columns)
      ensures rows == FillRows(old(rows), {c})
    {
      rows := FillRows(rows, {c});
    }
  }

  /** `ingest_and_clean_data`: reads the table, then, for each numeric column
      the file has, replaces its empty cells with 0. */
  method IngestAndClean(t: Table) returns (df: DataFrame)
    ensures fresh(df)
    ensures df.columns == t.columns
    ensures df.rows == FillRows(t.rows, t.columns)
  {
    df := new DataFrame(t);
    ghost var done: set<Column> := {};
    var i := 0;
    while i < |NumericColumns|
      invariant 0 <= i <= |NumericColumns|
      invariant fresh(df)
      invariant df.columns == t.columns
      invariant done == t.columns * (set j | 0 <= j < i :: NumericColumns[j])
      invariant df.rows == FillRows(t.rows, done)
    {
      var col := NumericColumns[i];
      ghost var visited := set j | 0 <= j < i + 1 :: NumericColumns[j];
      assert visited == (set j | 0 <= j < i :: NumericColumns[j]) + {col};
      if col in df.columns {
        FillRowsExtend(t.rows, done, col);
        df.FillNa(col);
        done := done + {col};
      }
      i := i + 1;
    }
    forall c | c in t.columns ensures c in done {
      assert c == NumericColumns[0] || c == NumericColumns[1] || c == NumericColumns[2] || c == NumericColumns[3];
    }
  }

  /** A row whose four numeric cells are all present. */
  predicate IsClean(r: Row) {
    r.clicks.Some? && r.impressions.Some? && r.adSpend.Some? && r.revenue.Some?
  }

  function ToRecord(r: Row): Record
    requires IsClean(r)
  {
    Record(r.date, r.clicks.value, r.impressions.value, r.adSpend.value, r.revenue.value)
  }

  /** The rows of a cleaned frame as records. */
  function Dataset(rows: seq<Row>): (ds: seq<Record>)
    requires forall i :: 0 <= i < |rows| ==> IsClean(rows[i])
    ensures |ds| == |rows|
    ensures forall i :: 0 <= i < |rows| ==> ds[i] == ToRecord(rows[i])
  {
    seq(|rows|, i requires 0 <= i < |rows| => ToRecord(rows[i]))
  }

  /** Cleaning every numeric column: row count, order and dates are kept, a
      present value is kept, and an absent one becomes 0. */
  lemma CleaningFillsZeros(rows: seq<Row>)
    ensures var out := FillRows(rows, {Clicks, Impressions, AdSpend, Revenue});
      |out| == |rows| &&
      forall i :: 0 <= i < |rows| ==>
        IsClean(out[i]) && out[i].date == rows[i].date &&
        out[i].clicks.value == (if rows[i].clicks.Some? then rows[i].clicks.value else 0) &&
        out[i].impressions.value == (if rows[i].impressions.Some? then rows[i].impressions.value else 0) &&
        out[i].adSpend.value == (if rows[i].adSpend.Some? then rows[i].adSpend.value else 0.0) &&
        out[i].revenue.value == (if rows[i].revenue.Some? then rows[i].revenue.value else 0.0)
  {
  }

  /** A column the file lacks is not touched by cleaning. */
  lemma CleaningSkipsAbsentColumns(rows: seq<Row>, cs: set<Column>)
    ensures Clicks !in cs ==> forall i :: 0 <= i < |rows| ==> FillRows(rows, cs)[i].clicks == rows[i].clicks
    ensures Impressions !in cs ==>
      forall i :: 0 <= i < |rows| ==> FillRows(rows, cs)[i].impressions == rows[i].impressions
    ensures AdSpend !in cs ==> forall i :: 0 <= i < |rows| ==> FillRows(rows, cs)[i].adSpend == rows[i].adSpend
    ensures Revenue !in cs ==> forall i :: 0 <= i < |rows| ==> FillRows(rows, cs)[i].revenue == rows[i].revenue
  {
  }

  /** Cleaning an already cleaned frame changes nothing. */
  lemma CleaningIdempotent(rows: seq<Row>, cs: set<Column>)
    ensures FillRows(FillRows(rows, cs), cs) == FillRows(rows, cs)
  {
    var a, b := FillRows(FillRows(rows, cs), cs), FillRows(rows, cs);
    forall i | 0 <= i < |rows| ensures a[i] == b[i] {
    }
  }
}
