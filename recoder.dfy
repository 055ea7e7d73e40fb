/** The Likert recoder: a loaded sheet, a set of selected column indices and
    a scale `[min, max]`; every numeric cell of a selected column is replaced
    by `(max + min) - value`, which reverses the scale. */
module Recoder {
  import opened Cells

  datatype ScaleRange = ScaleRange(min: int, max: int)

  /** A sheet as loaded: the first row as headers, the rest as data. */
  datatype Sheet = Sheet(headers: seq<Cell>, rows: seq<seq<Cell>>)

  /** `(max + min) - value`. */
  function Reflect(config: ScaleRange, v: real): real {
    (config.max + config.min) as real - v
  }

  /** One cell of column `idx`: recoded when the column is selected and
      `parseFloat` reads a number from the cell, otherwise kept as it is. */
  function RecodeCell(cell: Cell, idx: nat, selected: set<nat>, config: ScaleRange): (r: Cell)
    ensures idx !in selected || CellToFloat(cell).None? ==> r == cell
    ensures idx in selected && CellToFloat(cell).Some? ==> r == Num(Reflect(config, CellToFloat(cell).value))
  {
    if idx in selected then
      match CellToFloat(cell)
      case Some(v) => Num(Reflect(config, v))
      case None => cell
    else cell
  }

  /** `recodedRows`: every row keeps its length, and only cells of selected
      columns can change. */
  function RecodeRows(rows: seq<seq<Cell>>, selected: set<nat>, config: ScaleRange): (r: seq<seq<Cell>>)
    ensures |r| == |rows|
    ensures forall i :: 0 <= i < |r| ==> |r[i]| == |rows[i]|
    ensures forall i, j :: 0 <= i < |r| && 0 <= j < |r[i]| ==> r[i][j] == RecodeCell(rows[i][j], j, selected, config)
  {
    seq(|rows|, i requires 0 <= i < |rows| =>
      seq(|rows[i]|, j requires 0 <= j < |rows[i]| => RecodeCell(rows[i][j], j, selected, config)))
  }

  /** `toggleCol`: the index changes membership, nothing else does. */
  function Toggle(s: set<nat>, idx: nat): (r: set<nat>)
    ensures idx in r <==> idx !in s
    ensures forall j :: j != idx ==> (j in r <==> j in s)
  {
    if idx in s then s - {idx} else s + {idx}
  }

  // ---------------------------------------------------------------------
  // Properties
  // ---------------------------------------------------------------------

  /** Reflecting maps the scale onto itself, swaps its ends and reverses
      order. */
  lemma ReflectReversesScale(config: ScaleRange, v: real, w: real)
    ensures Reflect(config, config.min as real) == config.max as real
    ensures Reflect(config, config.max as real) == config.min as real
    ensures config.min as real <= v <= config.max as real ==>
              config.min as real <= Reflect(config, v) <= config.max as real
    ensures v < w <==> Reflect(config, w) < Reflect(config, v)
    ensures Reflect(config, Reflect(config, v)) == v
  {
  }

  /** Recoding twice with the same settings gives back the number every
      cell holds; a cell already stored as a number, or one that holds no
      number, comes back exactly. */
  lemma RecodeCellTwice(cell: Cell, idx: nat, selected: set<nat>, config: ScaleRange)
    ensures var twice := RecodeCell(RecodeCell(cell, idx, selected, config), idx, selected, config);
      CellToFloat(twice) == CellToFloat(cell) &&
      (cell.Num? || idx !in selected || CellToFloat(cell).None? ==> twice == cell)
  {
    if idx in selected && CellToFloat(cell).Some? {
      ReflectReversesScale(config, CellToFloat(cell).value, 0.0);
    }
  }

  lemma RecodeRowsTwice(rows: seq<seq<Cell>>, selected: set<nat>, config: ScaleRange)
    ensures var twice := RecodeRows(RecodeRows(rows, selected, config), selected, config);
      |twice| == |rows| &&
      forall i, j :: 0 <= i < |rows| && 0 <= j < |rows[i]| ==>
        |twice[i]| == |rows[i]| &&
        CellToFloat(twice[i][j]) == CellToFloat(rows[i][j]) &&
        (rows[i][j].Num? || j !in selected ==> twice[i][j] == rows[i][j])
  {
    var once := RecodeRows(rows, selected, config);
    var twice := RecodeRows(once, selected, config);
    forall i, j | 0 <= i < |rows| && 0 <= j < |rows[i]|
      ensures CellToFloat(twice[i][j]) == CellToFloat(rows[i][j])
      ensures rows[i][j].Num? || j !in selected ==> twice[i][j] == rows[i][j]
    {
      RecodeCellTwice(rows[i][j], j, selected, config);
    }
  }

  /** With no column selected the sheet is exported as loaded. */
  lemma NothingSelected(rows: seq<seq<Cell>>, config: ScaleRange)
    ensures RecodeRows(rows, {}, config) == rows
  {
    var r := RecodeRows(rows, {}, config);
    forall i | 0 <= i < |rows|
      ensures r[i] == rows[i]
    {
    }
  }

  lemma ToggleTwice(s: set<nat>, idx: nat)
    ensures Toggle(Toggle(s, idx), idx) == s
  {
  }

  // ---------------------------------------------------------------------
  // The tool's state
  // ---------------------------------------------------------------------

  class LikertRecoder {
    var config: ScaleRange
    var rawData: Sheet
    var selectedCols: set<nat>

    constructor ()
      ensures config == ScaleRange(1, 5) && rawData == Sheet([], []) && selectedCols == {}
    {
      config := ScaleRange(1, 5);
      rawData := Sheet([], []);
      selectedCols := {};
    }

    /** A non-empty table replaces the sheet and clears the selection; an
        empty one changes nothing. */
    method HandleFileUpload(json: seq<seq<Cell>>)
      modifies this
      ensures |json| > 0 ==> rawData == Sheet(json[0], json[1..]) && selectedCols == {}
      ensures |json| == 0 ==> rawData == old(rawData) && selectedCols == old(selectedCols)
      ensures config == old(config)
    {
      if |json| > 0 {
        rawData := Sheet(json[0], json[1..]);
        selectedCols := {};
      }
    }

    method ToggleCol(idx: nat)
      modifies this
      ensures selectedCols == Toggle(old(selectedCols), idx)
      ensures config == old(config) && rawData == old(rawData)
    {
      if idx in selectedCols {
        selectedCols := selectedCols - {idx};
      } else {
        selectedCols := selectedCols + {idx};
      }
    }

    method SetMin(n: int)
      modifies this
      ensures config == ScaleRange(n, old(config.max))
      ensures rawData == old(rawData) && selectedCols == old(selectedCols)
    {
      config := config.(min := n);
    }

    method SetMax(n: int)
      modifies this
      ensures config == ScaleRange(old(config.min), n)
      ensures rawData == old(rawData) && selectedCols == old(selectedCols)
    {
      config := config.(max := n);
    }

    /** The rows the export writes below the headers: the loaded rows with
        the selected columns recoded, and the loaded rows themselves while
        no column is selected. */
    function RecodedRows(): (r: seq<seq<Cell>>)
      reads this
      ensures |r| == |rawData.rows|
      ensures forall i :: 0 <= i < |r| ==> |r[i]| == |rawData.rows[i]|
      ensures forall i, j :: 0 <= i < |r| && 0 <= j < |r[i]| && j !in selectedCols ==> r[i][j] == rawData.rows[i][j]
      ensures forall i, j :: 0 <= i < |r| && 0 <= j < |r[i]| && j in selectedCols ==>
                r[i][j] == match CellToFloat(rawData.rows[i][j])
                           case Some(v) => Num(Reflect(config, v))
                           case None => rawData.rows[i][j]
      ensures selectedCols == {} ==> r == rawData.rows
    {
      NothingSelected(rawData.rows, config);
      RecodeRows(rawData.rows, selectedCols, config)
    }
  }
}
