/**
 * The state of the data-viewer component: the rows it was given, the chosen category
 * and value columns, and how many rows the table shows. Its methods are the component's
 * setters and the two computations over that state (chart data and CSV export).
 */
module Viewer {
  import opened Wrappers
  import opened Strings
  import opened Table
  import opened Csv

  /** Rows shown at first and added by each "show more". */
  const PageSize: nat := 50

  /** The "show more" update `Math.min(rows.length, prev + 50)`. */
  function NextPage(total: nat, shown: nat): (n: nat)
    ensures n <= shown + PageSize && n <= total
    ensures n == total || n == shown + PageSize
    ensures total > shown ==> shown < n
  {
    if total < shown + PageSize then total else shown + PageSize
  }

  /** `rows.slice(0, shown)`: the rows the table displays. */
  function Visible(rows: seq<Row>, shown: nat): (v: seq<Row>)
    ensures |v| == if shown < |rows| then shown else |rows|
    ensures forall i :: 0 <= i < |v| ==> v[i] == rows[i]
    ensures |v| < |rows| <==> |rows| > shown
  {
    if shown < |rows| then rows[..shown] else rows
  }

  /** How often "show more" is offered and clicked before every row is displayed. */
  function ClicksToShowAll(total: nat, shown: nat): nat
    decreases total - shown
  {
    if total > shown then 1 + ClicksToShowAll(total, NextPage(total, shown)) else 0
  }

  /** "Show more" displays every row after as many clicks as there are further pages of 50. */
  lemma {:induction false} ShowMoreReachesAll(total: nat, shown: nat)
    ensures total > shown ==> ClicksToShowAll(total, shown) == (total - shown + PageSize - 1) / PageSize
    ensures total <= shown ==> ClicksToShowAll(total, shown) == 0
    decreases total - shown
  {
    if total > shown {
      var next := NextPage(total, shown);
      ShowMoreReachesAll(total, next);
      if next < total {
        assert next == shown + PageSize;
        assert (total - shown + PageSize - 1) / PageSize == 1 + (total - next + PageSize - 1) / PageSize;
      }
    }
  }

  /** A select's value `e.target.value || null`: the empty choice means no column. */
  function Choice(value: string): (c: Option<string>)
    ensures c.None? <==> value == ""
    ensures c.Some? ==> c.value == value && IsTruthy(c)
  {
    if value == "" then None else Some(value)
  }

  class DataViewer {
    const rows: seq<Row>
    var xCol: Option<string>
    var yCol: Option<string>
    var rowsToShow: nat

    /** The initial state: default columns from the first row, one page of rows. */
    constructor (rows: seq<Row>)
      ensures this.rows == rows
      ensures xCol == InitialX(Columns(rows)) && yCol == InitialY(rows, Columns(rows))
      ensures rowsToShow == PageSize
    {
      this.rows := rows;
      xCol := InitialX(Columns(rows));
      yCol := InitialY(rows, Columns(rows));
      rowsToShow := PageSize;
    }

    /** "Show more" is offered exactly when rows remain hidden. */
    predicate CanShowMore()
      reads this
    {
      |rows| > rowsToShow
    }

    function VisibleRows(): (v: seq<Row>)
      reads this
      ensures v == Visible(rows, rowsToShow)
      ensures |v| < |rows| <==> CanShowMore()
    {
      Visible(rows, rowsToShow)
    }

    method ShowMore()
      modifies this`rowsToShow
      ensures rowsToShow == NextPage(|rows|, old(rowsToShow))
      ensures old(CanShowMore()) ==> old(rowsToShow) < rowsToShow <= |rows|
    {
      rowsToShow := NextPage(|rows|, rowsToShow);
    }

    method SelectCategoryColumn(value: string)
      modifies this`xCol
      ensures xCol == Choice(value)
    {
      xCol := Choice(value);
    }

    method SelectValueColumn(value: string)
      modifies this`yCol
      ensures yCol == Choice(value)
    {
      yCol := Choice(value);
    }

    /** The chart data for the current columns; the chart is drawn exactly when both are set and there are rows. */
    method Chart() returns (data: map<string, int>, shown: bool)
      ensures data == ChartDataOf(rows, xCol, yCol)
      ensures shown == ChartShown(xCol, yCol, data)
      ensures shown <==> IsTruthy(xCol) && IsTruthy(yCol) && rows != []
    {
      data := ChartData(rows, xCol, yCol);
      shown := IsTruthy(xCol) && IsTruthy(yCol) && |data| > 0;
      ChartShownIff(rows, xCol, yCol);
    }

    /** The export button: the CSV of the rows currently displayed. */
    method Export() returns (csv: Option<string>)
      ensures csv.None? <==> VisibleRows() == []
      ensures csv.Some? ==> csv.value == Join(CsvLines(VisibleRows()), "\n")
    {
      csv := ExportCsv(Visible(rows, rowsToShow));
    }
  }
}
