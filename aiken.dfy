/** The content-validity calculator: an items-by-judges matrix of integer
    ratings, a rating scale of labelled values, and Aiken's V per item,
    V = (mean - lo) / (hi - lo), with a threshold verdict. */
module Aiken {
  import opened Cells

  datatype Verdict = Valid | Review   // "Válido" / "Revisar"

  /** Number of judges (matrix columns), of items (rows), and the confidence
      level chosen in the form (0.95 or 0.99). */
  datatype Config = Config(judges: nat, items: nat, confidence: real)

  /** One line of the result table; `v` is kept exact, its three-decimal
      rendering is display only. */
  datatype ItemResult = ItemResult(item: nat, mean: real, v: real, verdict: Verdict)

  datatype ScaleField = NameField | ValueField

  // ---------------------------------------------------------------------
  // The engine
  // ---------------------------------------------------------------------

  function Sum(row: seq<int>): int {
    if row == [] then 0 else row[0] + Sum(row[1..])
  }

  /** `Math.min(...values)` on a non-empty list. */
  function MinOf(values: seq<int>): (m: int)
    requires |values| > 0
    ensures m in values && forall x :: x in values ==> m <= x
  {
    if |values| == 1 then values[0]
    else
      assert values == [values[0]] + values[1..];
      var rest := MinOf(values[1..]);
      if values[0] <= rest then values[0] else rest
  }

  /** `Math.max(...values)` on a non-empty list. */
  function MaxOf(values: seq<int>): (m: int)
    requires |values| > 0
    ensures m in values && forall x :: x in values ==> x <= m
  {
    if |values| == 1 then values[0]
    else
      assert values == [values[0]] + values[1..];
      var rest := MaxOf(values[1..]);
      if values[0] >= rest then values[0] else rest
  }

  /** The cut-off a coefficient must reach: 0.80 at 99% confidence, 0.70
      at any other level. */
  function Threshold(confidence: real): real {
    if confidence == 0.99 then 0.80 else 0.70
  }

  /** The verdict compares the unrounded coefficient with the threshold. */
  function VerdictOf(v: real, confidence: real): Verdict {
    if v >= Threshold(confidence) then Valid else Review
  }

  /** Mean rating of an item: the row's sum over the configured number of
      judges (not over the row's own length). */
  function Mean(row: seq<int>, judges: nat): real
    requires judges > 0
  {
    Sum(row) as real / judges as real
  }

  function AikenV(row: seq<int>, judges: nat, lo: int, hi: int): real
    requires judges > 0 && lo != hi
  {
    (Mean(row, judges) - lo as real) / (hi - lo) as real
  }

  function ItemFor(row: seq<int>, index: nat, config: Config, lo: int, hi: int): ItemResult
    requires config.judges > 0 && lo != hi
  {
    var v := AikenV(row, config.judges, lo, hi);
    ItemResult(index + 1, Mean(row, config.judges), v, VerdictOf(v, config.confidence))
  }

  /** What the source leaves undefined (a division by zero): a scale whose
      values are all equal, or a non-empty matrix with zero judges. */
  predicate Computable(data: seq<seq<int>>, values: seq<int>, config: Config) {
    |values| >= 2 ==> MinOf(values) != MaxOf(values) && (config.judges > 0 || data == [])
  }

  /** `calculateAiken`: nothing is computed for a scale of fewer than two
      options; otherwise one result per matrix row, in row order. */
  function Evaluate(data: seq<seq<int>>, values: seq<int>, config: Config): (results: Option<seq<ItemResult>>)
    requires Computable(data, values, config)
    ensures results.Some? <==> |values| >= 2
    ensures results.Some? ==> |results.value| == |data|
    ensures results.Some? ==> forall i :: 0 <= i < |data| ==>
              && results.value[i].item == i + 1
              && results.value[i].mean == Sum(data[i]) as real / config.judges as real
              && results.value[i].v == (results.value[i].mean - MinOf(values) as real) / (MaxOf(values) - MinOf(values)) as real
              && (results.value[i].verdict == Valid <==> results.value[i].v >= Threshold(config.confidence))
  {
    if |values| < 2 then None
    else
      var lo, hi := MinOf(values), MaxOf(values);
      Some(seq(|data|, i requires 0 <= i < |data| => ItemFor(data[i], i, config, lo, hi)))
  }

  // ---------------------------------------------------------------------
  // Properties of the coefficient
  // ---------------------------------------------------------------------

  lemma {:induction false} SumBounds(row: seq<int>, lo: int, hi: int)
    requires forall k :: 0 <= k < |row| ==> lo <= row[k] <= hi
    ensures |row| * lo <= Sum(row) <= |row| * hi
  {
    if row != [] {
      SumBounds(row[1..], lo, hi);
    }
  }

  lemma {:induction false} SumConstant(row: seq<int>, c: int)
    requires forall k :: 0 <= k < |row| ==> row[k] == c
    ensures Sum(row) == |row| * c
  {
    if row != [] {
      SumConstant(row[1..], c);
    }
  }

  lemma MeanBetween(s: int, n: nat, lo: int, hi: int)
    requires n > 0 && n * lo <= s <= n * hi
    ensures lo as real <= s as real / n as real <= hi as real
  {
    var m := n as real;
    CastProduct(n, lo);
    CastProduct(n, hi);
    DivMonoPos((n * lo) as real, s as real, m);
    DivMonoPos(s as real, (n * hi) as real, m);
    CancelFactor(m, lo as real);
    CancelFactor(m, hi as real);
  }

  lemma CancelFactor(m: real, x: real)
    requires m > 0.0
    ensures (m * x) / m == x
  {
  }

  lemma MeanShift(s: real, n: real, lo: real)
    requires n > 0.0
    ensures s / n - lo == (s - n * lo) / n
  {
  }

  lemma UnitRatio(m: real, lo: real, hi: real)
    requires lo < hi && lo <= m <= hi
    ensures 0.0 <= (m - lo) / (hi - lo) <= 1.0
  {
    var d := hi - lo;
    DivMonoPos(0.0, m - lo, d);
    DivMonoPos(m - lo, d, d);
    DivSelf(d);
  }

  /** A row of `judges` ratings all on the scale gives 0 <= V <= 1. */
  lemma VInUnitInterval(row: seq<int>, judges: nat, lo: int, hi: int)
    requires judges > 0 && |row| == judges && lo < hi
    requires forall k :: 0 <= k < |row| ==> lo <= row[k] <= hi
    ensures 0.0 <= AikenV(row, judges, lo, hi) <= 1.0
  {
    SumBounds(row, lo, hi);
    MeanBetween(Sum(row), judges, lo, hi);
    UnitRatio(Mean(row, judges), lo as real, hi as real);
  }

  /** Every judge at the top of the scale gives V = 1. */
  lemma VAtTop(row: seq<int>, lo: int, hi: int)
    requires |row| > 0 && lo != hi
    requires forall k :: 0 <= k < |row| ==> row[k] == hi
    ensures AikenV(row, |row|, lo, hi) == 1.0
  {
    SumConstant(row, hi);
    MeanBetween(Sum(row), |row|, hi, hi);
  }

  /** Every judge at the bottom of the scale gives V = 0. */
  lemma VAtBottom(row: seq<int>, lo: int, hi: int)
    requires |row| > 0 && lo != hi
    requires forall k :: 0 <= k < |row| ==> row[k] == lo
    ensures AikenV(row, |row|, lo, hi) == 0.0
  {
    SumConstant(row, lo);
    MeanBetween(Sum(row), |row|, lo, lo);
  }

  /** Aiken's own statistic S: the sum of each rating's distance from the
      lowest scale value. */
  function ShiftedSum(row: seq<int>, lo: int): int {
    if row == [] then 0 else (row[0] - lo) + ShiftedSum(row[1..], lo)
  }

  lemma {:induction false} ShiftedSumIdentity(row: seq<int>, lo: int)
    ensures ShiftedSum(row, lo) == Sum(row) - |row| * lo
  {
    if row != [] {
      ShiftedSumIdentity(row[1..], lo);
    }
  }

  /** The mean form used by the calculator agrees with Aiken's textbook
      form V = S / (n (c - 1)), with n judges and c - 1 = hi - lo. */
  lemma MeanFormIsAikenForm(row: seq<int>, lo: int, hi: int)
    requires |row| > 0 && lo < hi
    ensures AikenV(row, |row|, lo, hi) == ShiftedSum(row, lo) as real / (|row| * (hi - lo)) as real
  {
    var n, l, d, s := |row| as real, lo as real, (hi - lo) as real, Sum(row) as real;
    ShiftedSumAsReal(row, lo);
    CastProduct(|row|, hi - lo);
    AikenVUnfolded(row, lo, hi);
    QuotientForm(s, n, l, d);
  }

  lemma ShiftedSumAsReal(row: seq<int>, lo: int)
    ensures ShiftedSum(row, lo) as real == Sum(row) as real - |row| as real * lo as real
  {
    ShiftedSumIdentity(row, lo);
    CastProduct(|row|, lo);
  }

  lemma AikenVUnfolded(row: seq<int>, lo: int, hi: int)
    requires |row| > 0 && lo < hi
    ensures AikenV(row, |row|, lo, hi) == (Sum(row) as real / |row| as real - lo as real) / (hi - lo) as real
  {
  }

  /** (s/n - l)/d == (s - n l)/(n d) for positive n and d. */
  lemma QuotientForm(s: real, n: real, l: real, d: real)
    requires n > 0.0 && d > 0.0
    ensures (s / n - l) / d == (s - n * l) / (n * d)
  {
    MeanShift(s, n, l);
    DivDiv(s - n * l, n, d);
  }

  /** Every result of a matrix whose rows hold `judges` ratings on the scale
      lies in [0, 1], and is judged valid exactly when it reaches the
      threshold of the chosen confidence level. */
  lemma ResultsInUnitInterval(data: seq<seq<int>>, values: seq<int>, config: Config)
    requires |values| >= 2 && Computable(data, values, config)
    requires forall i :: 0 <= i < |data| ==> |data[i]| == config.judges
    requires forall i, k :: 0 <= i < |data| && 0 <= k < |data[i]| ==> MinOf(values) <= data[i][k] <= MaxOf(values)
    ensures var r := Evaluate(data, values, config).value;
      forall i :: 0 <= i < |r| ==> 0.0 <= r[i].v <= 1.0
  {
    var lo, hi := MinOf(values), MaxOf(values);
    var r := Evaluate(data, values, config).value;
    forall i | 0 <= i < |r| ensures 0.0 <= r[i].v <= 1.0 {
      VInUnitInterval(data[i], config.judges, lo, hi);
    }
  }

  /** A stricter confidence level never admits an item the default level
      rejects. */
  lemma StricterAtNinetyNine(v: real, confidence: real)
    ensures VerdictOf(v, 0.99) == Valid ==> VerdictOf(v, confidence) == Valid
  {
  }

  /** Scale {Nada: 0, Poco: 1, Mucho: 2}, three judges rating one item
      2, 2, 1: mean 5/3, V = 5/6 (0.833), valid at 95%. */
  lemma ExampleOneItem()
    ensures Evaluate([[2, 2, 1]], [0, 1, 2], Config(3, 1, 0.95))
         == Some([ItemResult(1, 5.0 / 3.0, 5.0 / 6.0, Valid)])
  {
    var values, row := [0, 1, 2], [2, 2, 1];
    assert MinOf(values) == 0 && MaxOf(values) == 2;
    assert Sum(row) == 5;
    var item := ItemFor(row, 0, Config(3, 1, 0.95), 0, 2);
    assert Mean(row, 3) == 5.0 / 3.0;
    assert AikenV(row, 3, 0, 2) == 5.0 / 6.0;
    assert item == ItemResult(1, 5.0 / 3.0, 5.0 / 6.0, Valid);
    var r := Evaluate([row], values, Config(3, 1, 0.95)).value;
    assert |r| == 1 && r[0] == item;
    assert r == [item];
  }

  // ---------------------------------------------------------------------
  // The matrix
  // ---------------------------------------------------------------------

  /** `Array(items).fill(0).map(() => Array(judges).fill(0))`. */
  function ZeroMatrix(items: nat, judges: nat): (m: seq<seq<int>>)
    ensures |m| == items
    ensures forall i :: 0 <= i < items ==> |m[i]| == judges && forall j :: 0 <= j < judges ==> m[i][j] == 0
  {
    seq(items, _ => seq(judges, _ => 0))
  }

  /** The condition under which the resize effect rebuilds the matrix. */
  predicate NeedsRebuild(data: seq<seq<int>>, config: Config) {
    |data| != config.items || (|data| > 0 && |data[0]| != config.judges)
  }

  /** Every cell of an imported table through `parseInt(cell) || 0`. */
  function CoerceMatrix(raw: seq<seq<Cell>>): (m: seq<seq<int>>)
    ensures |m| == |raw|
    ensures forall i :: 0 <= i < |raw| ==> |m[i]| == |raw[i]|
    ensures forall i, j :: 0 <= i < |raw| && 0 <= j < |raw[i]| ==> m[i][j] == CellToInt(raw[i][j])
  {
    seq(|raw|, i requires 0 <= i < |raw| => seq(|raw[i]|, j requires 0 <= j < |raw[i]| => CellToInt(raw[i][j])))
  }

  /** A scale entry; the source edits these objects in place. */
  class ScaleOption {
    var name: string
    var value: int

    constructor (name: string, value: int)
      ensures this.name == name && this.value == value
    {
      this.name := name;
      this.value := value;
    }
  }

  function ValuesOf(entries: seq<ScaleOption>): (values: seq<int>)
    reads entries
    ensures |values| == |entries| && forall i :: 0 <= i < |entries| ==> values[i] == entries[i].value
  {
    seq(|entries|, i reads entries requires 0 <= i < |entries| => entries[i].value)
  }

  class AikenCalculator {
    var config: Config
    var scale: seq<ScaleOption>
    var data: seq<seq<int>>
    var results: Option<seq<ItemResult>>

    /** Scale entries are distinct objects, and the matrix never meets the
        rebuild condition once the effect has run. */
    ghost predicate Valid()
      reads this
    {
      && (forall i, j :: 0 <= i < j < |scale| ==> scale[i] != scale[j])
      && !NeedsRebuild(data, config)
    }

    function Values(): seq<int>
      reads this, scale
    {
      ValuesOf(scale)
    }

    /** The initial state after the mount effect has built the 5 x 5 matrix. */
    constructor ()
      ensures Valid()
      ensures config == Config(5, 5, 0.95)
      ensures Values() == [0, 1, 2]
      ensures scale[0].name == "Nada" && scale[1].name == "Poco" && scale[2].name == "Mucho"
      ensures data == ZeroMatrix(5, 5) && results == None
    {
      var nada := new ScaleOption("Nada", 0);
      var poco := new ScaleOption("Poco", 1);
      var mucho := new ScaleOption("Mucho", 2);
      config := Config(5, 5, 0.95);
      assert ValuesOf([nada, poco, mucho]) == [0, 1, 2];
      scale := [nada, poco, mucho];
      data := ZeroMatrix(5, 5);
      results := None;
    }

    /** A new number of items or judges, followed by the effect that
        rebuilds a zero matrix and discards the results. */
    method Resize(items: nat, judges: nat)
      requires Valid()
      modifies this
      ensures Valid()
      ensures config == old(config).(items := items, judges := judges) && scale == old(scale)
      ensures if NeedsRebuild(old(data), config)
              then data == ZeroMatrix(items, judges) && results == None
              else data == old(data) && results == old(results)
    {
      config := config.(items := items, judges := judges);
      if NeedsRebuild(data, config) {
        data := ZeroMatrix(config.items, config.judges);
        results := None;
      }
    }

    /** A new confidence level; the rebuild effect does not depend on it. */
    method SetConfidence(confidence: real)
      requires Valid()
      modifies this
      ensures Valid()
      ensures config == old(config).(confidence := confidence)
      ensures scale == old(scale) && data == old(data) && results == old(results)
    {
      config := config.(confidence := confidence);
    }

    /** "Limpiar": a zero matrix of the configured shape, no results. */
    method Clear()
      requires Valid()
      modifies this
      ensures Valid()
      ensures data == ZeroMatrix(config.items, config.judges) && results == None
      ensures config == old(config) && scale == old(scale)
    {
      data := ZeroMatrix(config.items, config.judges);
      results := None;
    }

    /** One cell takes `parseInt(val) || 0`; every other cell, the shape,
        and the results stay as they were. */
    method HandleCellChange(r: nat, c: nat, val: string)
      requires Valid() && r < |data| && c < |data[r]|
      modifies this
      ensures Valid()
      ensures |data| == |old(data)| && forall i :: 0 <= i < |data| ==> |data[i]| == |old(data)[i]|
      ensures data[r][c] == ParseIntOrZero(val)
      ensures forall i, j :: 0 <= i < |data| && 0 <= j < |data[i]| && (i != r || j != c) ==> data[i][j] == old(data)[i][j]
      ensures config == old(config) && scale == old(scale) && results == old(results)
    {
      var row := data[r][c := ParseIntOrZero(val)];
      data := data[r := row];
    }

    /** A spreadsheet read as data (no header row): the shape becomes the
        table's row count and first-row length, every cell is coerced, and
        the results are discarded. An empty table changes nothing. */
    method ImportRows(raw: seq<seq<Cell>>)
      requires Valid()
      modifies this
      ensures Valid()
      ensures scale == old(scale)
      ensures raw == [] ==> config == old(config) && data == old(data) && results == old(results)
      ensures raw != [] ==>
        && config == old(config).(items := |raw|, judges := |raw[0]|)
        && data == CoerceMatrix(raw)
        && results == None
    {
      if |raw| > 0 {
        config := config.(items := |raw|, judges := |raw[0]|);
        data := CoerceMatrix(raw);
        results := None;
      }
    }

    /** Appends "Nueva Opción" valued one above the last entry (0 when the
        scale is empty). */
    method AddScaleOption()
      requires Valid()
      modifies this
      ensures Valid()
      ensures |scale| == |old(scale)| + 1 && scale[..|old(scale)|] == old(scale)
      ensures fresh(scale[|scale| - 1]) && scale[|scale| - 1].name == "Nueva Opción"
      ensures Values() == old(Values()) + [if old(scale) == [] then 0 else old(Values())[|old(scale)| - 1] + 1]
      ensures config == old(config) && data == old(data) && results == old(results)
    {
      var lastVal := if |scale| > 0 then scale[|scale| - 1].value else -1;
      var option := new ScaleOption("Nueva Opción", lastVal + 1);
      scale := scale + [option];
    }

    /** Removes entry `idx`, except that a scale of two or fewer entries is
        left alone; an index off the scale removes nothing. */
    method RemoveScaleOption(idx: int)
      requires Valid()
      modifies this
      ensures Valid()
      ensures if |old(scale)| <= 2 || !(0 <= idx < |old(scale)|) then scale == old(scale)
              else scale == old(scale)[..idx] + old(scale)[idx + 1..]
      ensures |old(scale)| >= 2 ==> |scale| >= 2
      ensures config == old(config) && data == old(data) && results == old(results)
    {
      if |scale| <= 2 {
        return;
      }
      if 0 <= idx < |scale| {
        scale := scale[..idx] + scale[idx + 1..];
      }
    }

    /** Edits one field of entry `idx`. The source copies the list but
        writes into the entry object it shares with the previous list, so
        the entry changes in place: the list itself is unchanged and any
        earlier snapshot of it sees the new field. */
    method HandleScaleChange(idx: nat, field: ScaleField, val: string)
      requires Valid() && idx < |scale|
      modifies scale[idx]
      ensures Valid()
      ensures scale[idx].name == (if field == NameField then val else old(scale[idx].name))
      ensures scale[idx].value == (if field == ValueField then ParseIntOrZero(val) else old(scale[idx].value))
      ensures forall j :: 0 <= j < |scale| && j != idx ==>
                scale[j].name == old(scale[j].name) && scale[j].value == old(scale[j].value)
    {
      var entry := scale[idx];
      if field == ValueField {
        entry.value := ParseIntOrZero(val);
      } else {
        entry.name := val;
      }
    }

    /** Runs the engine on the current matrix, scale and configuration. */
    method CalculateAiken()
      requires Valid() && Computable(data, Values(), config)
      modifies this
      ensures Valid()
      ensures config == old(config) && scale == old(scale) && data == old(data)
      ensures Values() == old(Values())
      ensures results == (if |scale| < 2 then old(results) else Evaluate(data, Values(), config))
    {
      if |scale| < 2 {
        return;
      }
      results := Evaluate(data, Values(), config);
    }
  }
}
