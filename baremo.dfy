/** The range ("baremo") generator: a variable -> dimension -> item-count
    schema, an item scale, and a number of qualitative levels give, for every
    dimension and for one synthetic TOTAL row per variable, a partition of
    the attainable raw scores [k * min, k * max] into integer bands. */
module Baremo {
  import opened Cells

  /** Dimension ids are time stamps; the synthetic row uses the id 'total'. */
  datatype DimId = Stamp(t: int) | TotalId

  datatype Dimension = Dimension(id: DimId, name: string, items: int)
  datatype Variable = Variable(id: int, name: string, dimensions: seq<Dimension>)
  datatype ItemScale = ItemScale(min: int, max: int)

  /** One band; the source shows it as the text "{lower} - {upper}". */
  datatype Level = Level(name: string, lower: int, upper: int)
  datatype Row = Row(name: string, levels: seq<Level>)

  datatype DimField = DimName | DimItems

  // ---------------------------------------------------------------------
  // Level labels
  // ---------------------------------------------------------------------

  /** The labels installed when the level count changes: a template for 3,
      4 and 5 levels, otherwise `count` copies of "Nivel". */
  function DefaultLevelNames(count: nat): (names: seq<string>)
    ensures |names| == count
    ensures count == 3 ==> names == ["Bajo", "Medio", "Alto"]
    ensures count == 4 ==> names == ["Muy Bajo", "Bajo", "Alto", "Muy Alto"]
    ensures count == 5 ==> names == ["Muy Bajo", "Bajo", "Promedio", "Alto", "Muy Alto"]
    ensures count != 3 && count != 4 && count != 5 ==> forall i :: 0 <= i < count ==> names[i] == "Nivel"
  {
    if count == 3 then ["Bajo", "Medio", "Alto"]
    else if count == 4 then ["Muy Bajo", "Bajo", "Alto", "Muy Alto"]
    else if count == 5 then ["Muy Bajo", "Bajo", "Promedio", "Alto", "Muy Alto"]
    else seq(count, _ => "Nivel")
  }

  /** `levelNames[i] || "Nivel {i + 1}"`: a missing or empty label falls
      back to the numbered one. */
  function LevelName(names: seq<string>, i: nat): string {
    if i < |names| && names[i] != "" then names[i] else "Nivel " + IntToString(i + 1)
  }

  // ---------------------------------------------------------------------
  // Bands of one component
  // ---------------------------------------------------------------------

  function Interval(minRaw: int, maxRaw: int, count: nat): real
    requires count > 0
  {
    (maxRaw - minRaw) as real / count as real
  }

  /** `Math.floor(minRaw + interval * j)`: the j-th cut of the raw range. */
  function Cut(minRaw: int, maxRaw: int, count: nat, j: nat): int
    requires count > 0
  {
    (minRaw as real + Interval(minRaw, maxRaw, count) * j as real).Floor
  }

  /** Level i: the first starts at minRaw, every other one just above the
      previous cut; each ends at the next cut, except that the last one is
      forced to end at maxRaw. */
  function LevelAt(minRaw: int, maxRaw: int, count: nat, names: seq<string>, i: nat): Level
    requires i < count
  {
    var lower := if i == 0 then minRaw else Cut(minRaw, maxRaw, count, i) + 1;
    var upper := if i == count - 1 then maxRaw else Cut(minRaw, maxRaw, count, i + 1);
    Level(LevelName(names, i), lower, upper)
  }

  function Levels(minRaw: int, maxRaw: int, count: nat, names: seq<string>): (levels: seq<Level>)
    ensures |levels| == count
  {
    seq(count, i requires 0 <= i < count => LevelAt(minRaw, maxRaw, count, names, i))
  }

  /** The loop of `generateRanges` for one component of `dim.items` items. */
  method GenerateLevels(dim: Dimension, scale: ItemScale, count: nat, names: seq<string>) returns (levels: seq<Level>)
    ensures levels == Levels(dim.items * scale.min, dim.items * scale.max, count, names)
  {
    var minRaw := dim.items * scale.min;
    var maxRaw := dim.items * scale.max;
    var interval := if count > 0 then (maxRaw - minRaw) as real / count as real else 0.0;
    levels := [];
    var i := 0;
    while i < count
      invariant 0 <= i <= count
      invariant levels == Levels(minRaw, maxRaw, count, names)[..i]
    {
      assert interval == Interval(minRaw, maxRaw, count);
      var upper := (minRaw as real + interval * (i + 1) as real).Floor;
      if i == count - 1 {
        upper := maxRaw;
      }
      var lower := if i == 0 then minRaw else (minRaw as real + interval * i as real).Floor + 1;
      ghost var spec := Levels(minRaw, maxRaw, count, names);
      assert Level(LevelName(names, i), lower, upper) == spec[i];
      assert spec[..i + 1] == spec[..i] + [spec[i]];
      levels := levels + [Level(LevelName(names, i), lower, upper)];
      i := i + 1;
    }
  }

  // ---------------------------------------------------------------------
  // Properties of the bands
  // ---------------------------------------------------------------------

  lemma FloorMonotone(a: real, b: real)
    requires a <= b
    ensures a.Floor <= b.Floor
  {
  }

  lemma {:induction false} CutMonotone(minRaw: int, maxRaw: int, count: nat, j: nat, k: nat)
    requires count > 0 && minRaw <= maxRaw && j <= k
    ensures Cut(minRaw, maxRaw, count, j) <= Cut(minRaw, maxRaw, count, k)
  {
    var d := Interval(minRaw, maxRaw, count);
    assert d >= 0.0;
    assert d * k as real == d * j as real + d * (k - j) as real;
    assert d * (k - j) as real >= 0.0;
    FloorMonotone(minRaw as real + d * j as real, minRaw as real + d * k as real);
  }

  /** In exact arithmetic the last cut already is maxRaw: forcing the last
      band to end there only guards against floating-point drift. */
  lemma CutAtCount(minRaw: int, maxRaw: int, count: nat)
    requires count > 0
    ensures Cut(minRaw, maxRaw, count, count) == maxRaw
  {
    var d := Interval(minRaw, maxRaw, count);
    assert d * count as real == (maxRaw - minRaw) as real;
  }

  /** The bands start at minRaw, end at maxRaw, and each starts one above
      where the previous one ended. */
  lemma BandsContiguous(minRaw: int, maxRaw: int, count: nat, names: seq<string>)
    requires count > 0
    ensures var ls := Levels(minRaw, maxRaw, count, names);
      && ls[0].lower == minRaw
      && ls[count - 1].upper == maxRaw
      && forall i :: 0 <= i < count - 1 ==> ls[i + 1].lower == ls[i].upper + 1
  {
  }

  /** Upper bounds never decrease from one band to the next. */
  lemma UppersNondecreasing(minRaw: int, maxRaw: int, count: nat, names: seq<string>, i: nat, k: nat)
    requires minRaw <= maxRaw && i <= k < count
    ensures var ls := Levels(minRaw, maxRaw, count, names); ls[i].upper <= ls[k].upper
  {
    if i < count - 1 {
      if k == count - 1 {
        CutMonotone(minRaw, maxRaw, count, i + 1, count);
        CutAtCount(minRaw, maxRaw, count);
      } else {
        CutMonotone(minRaw, maxRaw, count, i + 1, k + 1);
      }
    }
  }

  lemma {:induction false} FindBand(minRaw: int, maxRaw: int, count: nat, names: seq<string>, x: int, k: nat)
    requires minRaw <= maxRaw && k < count
    requires Levels(minRaw, maxRaw, count, names)[k].lower <= x <= maxRaw
    ensures var ls := Levels(minRaw, maxRaw, count, names);
      exists i :: k <= i < count && ls[i].lower <= x <= ls[i].upper
    decreases count - k
  {
    var ls := Levels(minRaw, maxRaw, count, names);
    if x > ls[k].upper {
      assert k < count - 1;
      BandsContiguous(minRaw, maxRaw, count, names);
      FindBand(minRaw, maxRaw, count, names, x, k + 1);
    }
  }

  /** Every attainable raw score falls in exactly one band, however small
      the range is against the number of levels. */
  lemma EveryScoreInOneBand(minRaw: int, maxRaw: int, count: nat, names: seq<string>, x: int)
    requires count > 0 && minRaw <= x <= maxRaw
    ensures var ls := Levels(minRaw, maxRaw, count, names);
      && (exists i :: 0 <= i < count && ls[i].lower <= x <= ls[i].upper)
      && (forall i, j :: 0 <= i < j < count && ls[i].lower <= x <= ls[i].upper ==> !(ls[j].lower <= x <= ls[j].upper))
  {
    var ls := Levels(minRaw, maxRaw, count, names);
    BandsContiguous(minRaw, maxRaw, count, names);
    FindBand(minRaw, maxRaw, count, names, x, 0);
    forall i, j | 0 <= i < j < count && ls[i].lower <= x <= ls[i].upper
      ensures !(ls[j].lower <= x <= ls[j].upper)
    {
      UppersNondecreasing(minRaw, maxRaw, count, names, i, j - 1);
    }
  }

  lemma IntervalAtLeastOne(minRaw: int, maxRaw: int, count: nat)
    requires count > 0 && maxRaw - minRaw >= count
    ensures Interval(minRaw, maxRaw, count) >= 1.0
  {
    var d := Interval(minRaw, maxRaw, count);
    assert d * count as real == (maxRaw - minRaw) as real;
  }

  /** With an interval of at least 1, consecutive cuts are at least 1 apart. */
  lemma CutGap(minRaw: int, maxRaw: int, count: nat, i: nat)
    requires count > 0 && Interval(minRaw, maxRaw, count) >= 1.0
    ensures Cut(minRaw, maxRaw, count, i) + 1 <= Cut(minRaw, maxRaw, count, i + 1)
  {
    var d := Interval(minRaw, maxRaw, count);
    var a := minRaw as real + d * i as real;
    assert minRaw as real + d * (i + 1) as real == a + d;
    FloorMonotone(a + 1.0, a + d);
  }

  lemma BandNonEmpty(minRaw: int, maxRaw: int, count: nat, names: seq<string>, i: nat)
    requires count > 0 && maxRaw - minRaw >= count && i < count
    ensures var l := LevelAt(minRaw, maxRaw, count, names, i); l.lower <= l.upper
  {
    IntervalAtLeastOne(minRaw, maxRaw, count);
    CutGap(minRaw, maxRaw, count, i);
    CutAtCount(minRaw, maxRaw, count);
    assert Cut(minRaw, maxRaw, count, 0) == minRaw;
  }

  /** When the range holds at least one score per level, no band is empty. */
  lemma BandsNonEmpty(minRaw: int, maxRaw: int, count: nat, names: seq<string>)
    requires count > 0 && maxRaw - minRaw >= count
    ensures var ls := Levels(minRaw, maxRaw, count, names);
      forall i :: 0 <= i < count ==> ls[i].lower <= ls[i].upper
  {
    var ls := Levels(minRaw, maxRaw, count, names);
    forall i | 0 <= i < count
      ensures ls[i].lower <= ls[i].upper
    {
      BandNonEmpty(minRaw, maxRaw, count, names, i);
    }
  }

  /** 10 items on a 1-5 scale in 3 levels: "10 - 23", "24 - 36", "37 - 50". */
  lemma ExampleTenItems()
    ensures Levels(10, 50, 3, ["Bajo", "Medio", "Alto"])
         == [Level("Bajo", 10, 23), Level("Medio", 24, 36), Level("Alto", 37, 50)]
  {
    var d := Interval(10, 50, 3);
    assert d == 40.0 / 3.0;
    assert 10.0 + d * 1.0 == 70.0 / 3.0;
    assert 10.0 + d * 2.0 == 110.0 / 3.0;
    assert Cut(10, 50, 3, 1) == 23;
    assert Cut(10, 50, 3, 2) == 36;
  }

  /** One item on a 1-2 scale in 5 levels: the second band is shown as
      "2 - 1", lower above upper, so the bands are not strictly increasing. */
  lemma ExampleInvertedBand()
    ensures var ls := Levels(1, 2, 5, DefaultLevelNames(5)); ls[1].lower == 2 && ls[1].upper == 1
  {
    assert Interval(1, 2, 5) == 0.2;
    assert Cut(1, 2, 5, 1) == 1;
    assert Cut(1, 2, 5, 2) == 1;
  }

  // ---------------------------------------------------------------------
  // The table
  // ---------------------------------------------------------------------

  function SumItems(ds: seq<Dimension>): int {
    if ds == [] then 0 else ds[0].items + SumItems(ds[1..])
  }

  /** The synthetic row of a variable: all of its items. */
  function TotalDimension(v: Variable): Dimension {
    Dimension(TotalId, "TOTAL (" + v.name + ")", SumItems(v.dimensions))
  }

  function Components(v: Variable): seq<Dimension> {
    v.dimensions + [TotalDimension(v)]
  }

  function ComponentRow(d: Dimension, scale: ItemScale, count: nat, names: seq<string>): Row {
    Row(d.name, Levels(d.items * scale.min, d.items * scale.max, count, names))
  }

  function VariableRows(v: Variable, scale: ItemScale, count: nat, names: seq<string>): (rows: seq<Row>)
    ensures |rows| == |v.dimensions| + 1
  {
    var cs := Components(v);
    seq(|cs|, j requires 0 <= j < |cs| => ComponentRow(cs[j], scale, count, names))
  }

  /** `variables.flatMap(...)`: each variable's rows, in order. */
  function Table(vars: seq<Variable>, scale: ItemScale, count: nat, names: seq<string>): seq<Row> {
    if vars == [] then [] else VariableRows(vars[0], scale, count, names) + Table(vars[1..], scale, count, names)
  }

  /** Rows a schema produces: one per dimension plus one per variable. */
  function RowCount(vars: seq<Variable>): nat {
    if vars == [] then 0 else |vars[0].dimensions| + 1 + RowCount(vars[1..])
  }

  lemma {:induction false} TableConcat(a: seq<Variable>, b: seq<Variable>, scale: ItemScale, count: nat, names: seq<string>)
    ensures Table(a + b, scale, count, names) == Table(a, scale, count, names) + Table(b, scale, count, names)
    ensures RowCount(a + b) == RowCount(a) + RowCount(b)
  {
    if a == [] {
      assert a + b == b;
    } else {
      assert (a + b)[1..] == a[1..] + b;
      TableConcat(a[1..], b, scale, count, names);
    }
  }

  lemma {:induction false} TableLength(vars: seq<Variable>, scale: ItemScale, count: nat, names: seq<string>)
    ensures |Table(vars, scale, count, names)| == RowCount(vars)
  {
    if vars != [] {
      TableLength(vars[1..], scale, count, names);
    }
  }

  /** Variable k's rows start after the rows of the variables before it:
      first its dimensions in order, then its TOTAL row, whose item count is
      the sum of the dimensions' item counts. */
  lemma TableLayout(vars: seq<Variable>, scale: ItemScale, count: nat, names: seq<string>, k: nat, j: nat)
    requires k < |vars| && j <= |vars[k].dimensions|
    ensures var t, at := Table(vars, scale, count, names), RowCount(vars[..k]) + j;
      && at < |t|
      && (j < |vars[k].dimensions| ==> t[at] == ComponentRow(vars[k].dimensions[j], scale, count, names))
      && (j == |vars[k].dimensions| ==>
            t[at] == ComponentRow(Dimension(TotalId, "TOTAL (" + vars[k].name + ")", SumItems(vars[k].dimensions)), scale, count, names))
  {
    assert vars == vars[..k] + ([vars[k]] + vars[k + 1..]);
    TableConcat(vars[..k], [vars[k]] + vars[k + 1..], scale, count, names);
    TableConcat([vars[k]], vars[k + 1..], scale, count, names);
    TableLength(vars[..k], scale, count, names);
    assert Table([vars[k]], scale, count, names) == VariableRows(vars[k], scale, count, names);
  }

  /** `generateRanges`: the table for the current schema and settings. */
  method BuildTable(vars: seq<Variable>, scale: ItemScale, count: nat, names: seq<string>) returns (table: seq<Row>)
    ensures table == Table(vars, scale, count, names)
  {
    table := [];
    var k := 0;
    while k < |vars|
      invariant 0 <= k <= |vars|
      invariant table == Table(vars[..k], scale, count, names)
    {
      var v := vars[k];
      var comps := Components(v);
      var rows: seq<Row> := [];
      var j := 0;
      while j < |comps|
        invariant 0 <= j <= |comps|
        invariant rows == VariableRows(v, scale, count, names)[..j]
      {
        var levels := GenerateLevels(comps[j], scale, count, names);
        rows := rows + [Row(comps[j].name, levels)];
        j := j + 1;
      }
      assert vars[..k + 1] == vars[..k] + [v];
      TableConcat(vars[..k], [v], scale, count, names);
      assert Table([v], scale, count, names) == VariableRows(v, scale, count, names);
      table := table + rows;
      k := k + 1;
    }
    assert vars[..|vars|] == vars;
  }

  // ---------------------------------------------------------------------
  // Schema edits
  // ---------------------------------------------------------------------

  /** A new variable named after its position, with one 10-item dimension;
      both ids come from the same time stamp. */
  function AppendVariable(vars: seq<Variable>, stamp: int): (r: seq<Variable>)
    ensures |r| == |vars| + 1 && r[..|vars|] == vars
    ensures r[|vars|].id == stamp && r[|vars|].name == "Variable " + IntToString(|vars| + 1)
    ensures r[|vars|].dimensions == [Dimension(Stamp(stamp), "Dimensión 1", 10)]
  {
    vars + [Variable(stamp, "Variable " + IntToString(|vars| + 1), [Dimension(Stamp(stamp), "Dimensión 1", 10)])]
  }

  function RenameVariable(vars: seq<Variable>, varId: int, newName: string): (r: seq<Variable>)
    ensures |r| == |vars|
    ensures forall i :: 0 <= i < |vars| ==>
              r[i].id == vars[i].id && r[i].dimensions == vars[i].dimensions &&
              r[i].name == (if vars[i].id == varId then newName else vars[i].name)
  {
    seq(|vars|, i requires 0 <= i < |vars| => if vars[i].id == varId then vars[i].(name := newName) else vars[i])
  }

  /** The dimension `addDimension` appends after `ds`. */
  function NewDimension(ds: seq<Dimension>, stamp: int): Dimension {
    Dimension(Stamp(stamp), "Dimensión " + IntToString(|ds| + 1), 5)
  }

  /** Appends a 5-item dimension, named after its position, to every
      variable whose id is `varId`. */
  function AppendDimension(vars: seq<Variable>, varId: int, stamp: int): (r: seq<Variable>)
    ensures |r| == |vars|
    ensures forall i :: 0 <= i < |vars| ==> r[i].id == vars[i].id && r[i].name == vars[i].name
    ensures forall i :: 0 <= i < |vars| ==>
              r[i].dimensions == if vars[i].id == varId
                                 then vars[i].dimensions + [Dimension(Stamp(stamp), "Dimensión " + IntToString(|vars[i].dimensions| + 1), 5)]
                                 else vars[i].dimensions
  {
    seq(|vars|, i requires 0 <= i < |vars| =>
      var v := vars[i];
      if v.id == varId then v.(dimensions := v.dimensions + [NewDimension(v.dimensions, stamp)]) else v)
  }

  /** The dimensions of `ds` whose id is not `id`, in order. */
  function Without(ds: seq<Dimension>, id: DimId): (r: seq<Dimension>)
    ensures |r| <= |ds|
    ensures forall d :: d in r <==> d in ds && d.id != id
  {
    if ds == [] then []
    else if ds[0].id == id then Without(ds[1..], id)
    else
      assert ds == [ds[0]] + ds[1..];
      [ds[0]] + Without(ds[1..], id)
  }

  function DropDimension(vars: seq<Variable>, varId: int, dimId: DimId): (r: seq<Variable>)
    ensures |r| == |vars|
    ensures forall i :: 0 <= i < |vars| ==> r[i].id == vars[i].id && r[i].name == vars[i].name
    ensures forall i :: 0 <= i < |vars| ==>
              r[i].dimensions == if vars[i].id == varId then Without(vars[i].dimensions, dimId) else vars[i].dimensions
  {
    seq(|vars|, i requires 0 <= i < |vars| =>
      var v := vars[i];
      if v.id == varId then v.(dimensions := Without(v.dimensions, dimId)) else v)
  }

  /** `{ ...d, [field]: field === 'items' ? parseInt(val) || 0 : val }`. */
  function ApplyEdit(d: Dimension, field: DimField, val: string): (e: Dimension)
    ensures e.id == d.id
    ensures field == DimItems ==> e.items == ParseIntOrZero(val) && e.name == d.name
    ensures field == DimName ==> e.name == val && e.items == d.items
  {
    if field == DimItems then d.(items := ParseIntOrZero(val)) else d.(name := val)
  }

  /** Sets the name, or the item count through `parseInt(val) || 0`, of the
      matching dimensions of the matching variables. */
  function EditDimensions(vars: seq<Variable>, varId: int, dimId: DimId, field: DimField, val: string): (r: seq<Variable>)
    ensures |r| == |vars|
    ensures forall i :: 0 <= i < |vars| ==>
              r[i].id == vars[i].id && r[i].name == vars[i].name && |r[i].dimensions| == |vars[i].dimensions|
    ensures forall i, j :: 0 <= i < |vars| && 0 <= j < |vars[i].dimensions| ==>
              r[i].dimensions[j] == if vars[i].id == varId && vars[i].dimensions[j].id == dimId
                                    then ApplyEdit(vars[i].dimensions[j], field, val)
                                    else vars[i].dimensions[j]
  {
    seq(|vars|, i requires 0 <= i < |vars| =>
      var v := vars[i];
      if v.id == varId then
        v.(dimensions := seq(|v.dimensions|, j requires 0 <= j < |v.dimensions| =>
          var d := v.dimensions[j];
          if d.id == dimId then ApplyEdit(d, field, val) else d))
      else v)
  }

  /** Filtering a concatenation filters each part and keeps their order;
      with `Without([d], id)` being `[d]` or `[]`, this fixes the order of
      the kept dimensions. */
  lemma {:induction false} WithoutConcat(a: seq<Dimension>, b: seq<Dimension>, id: DimId)
    ensures Without(a + b, id) == Without(a, id) + Without(b, id)
  {
    if a == [] {
      assert a + b == b;
    } else {
      assert (a + b)[0] == a[0];
      assert (a + b)[1..] == a[1..] + b;
      WithoutConcat(a[1..], b, id);
    }
  }

  /** Every kept dimension occurs as often as in `ds`, every removed one
      not at all. */
  lemma {:induction false} WithoutMultiplicity(ds: seq<Dimension>, id: DimId, d: Dimension)
    ensures multiset(Without(ds, id))[d] == if d.id == id then 0 else multiset(ds)[d]
  {
    if ds != [] {
      assert ds == [ds[0]] + ds[1..];
      assert multiset(ds) == multiset{ds[0]} + multiset(ds[1..]);
      WithoutMultiplicity(ds[1..], id, d);
    }
  }

  lemma {:induction false} WithoutAbsent(ds: seq<Dimension>, id: DimId)
    requires forall d :: d in ds ==> d.id != id
    ensures Without(ds, id) == ds
  {
    if ds != [] {
      assert ds[0] in ds;
      assert forall d :: d in ds[1..] ==> d in ds;
      WithoutAbsent(ds[1..], id);
      assert ds == [ds[0]] + ds[1..];
    }
  }

  lemma {:induction false} WithoutAppended(ds: seq<Dimension>, x: Dimension)
    ensures Without(ds + [x], x.id) == Without(ds, x.id)
  {
    if ds == [] {
      assert [x][1..] == [];
    } else {
      assert (ds + [x])[1..] == ds[1..] + [x];
      WithoutAppended(ds[1..], x);
    }
  }

  /** Removing a dimension just added, under a stamp no dimension of that
      variable carries yet, gives the schema back. */
  lemma AddThenRemoveDimension(vars: seq<Variable>, varId: int, stamp: int)
    requires forall i, d :: 0 <= i < |vars| && vars[i].id == varId && d in vars[i].dimensions ==> d.id != Stamp(stamp)
    ensures DropDimension(AppendDimension(vars, varId, stamp), varId, Stamp(stamp)) == vars
  {
    var r := DropDimension(AppendDimension(vars, varId, stamp), varId, Stamp(stamp));
    forall i | 0 <= i < |vars|
      ensures r[i] == vars[i]
    {
      var v := vars[i];
      if v.id == varId {
        WithoutAppended(v.dimensions, NewDimension(v.dimensions, stamp));
        WithoutAbsent(v.dimensions, Stamp(stamp));
      }
    }
  }

  /** Repeating the same dimension edit changes nothing more. */
  lemma UpdateDimensionIdempotent(vars: seq<Variable>, varId: int, dimId: DimId, field: DimField, val: string)
    ensures var once := EditDimensions(vars, varId, dimId, field, val);
      EditDimensions(once, varId, dimId, field, val) == once
  {
    var once := EditDimensions(vars, varId, dimId, field, val);
    var twice := EditDimensions(once, varId, dimId, field, val);
    forall i | 0 <= i < |vars|
      ensures twice[i] == once[i]
    {
      if vars[i].id == varId {
        assert twice[i].dimensions == once[i].dimensions;
      }
    }
  }

  lemma {:induction false} SameItemsSameSum(a: seq<Dimension>, b: seq<Dimension>)
    requires |a| == |b| && forall j :: 0 <= j < |a| ==> a[j].items == b[j].items
    ensures SumItems(a) == SumItems(b)
  {
    if a != [] {
      SameItemsSameSum(a[1..], b[1..]);
    }
  }

  /** Renaming a dimension leaves every variable's item total, hence its
      TOTAL row's range, as it was. */
  lemma RenameDimensionKeepsTotals(vars: seq<Variable>, varId: int, dimId: DimId, val: string)
    ensures var r := EditDimensions(vars, varId, dimId, DimName, val);
      forall i :: 0 <= i < |vars| ==> SumItems(r[i].dimensions) == SumItems(vars[i].dimensions)
  {
    var r := EditDimensions(vars, varId, dimId, DimName, val);
    forall i | 0 <= i < |vars|
      ensures SumItems(r[i].dimensions) == SumItems(vars[i].dimensions)
    {
      SameItemsSameSum(r[i].dimensions, vars[i].dimensions);
    }
  }

  // ---------------------------------------------------------------------
  // The tool's state
  // ---------------------------------------------------------------------

  class RangeCalculator {
    var itemScale: ItemScale
    var variables: seq<Variable>
    var count: nat
    var levelNames: seq<string>
    var table: Option<seq<Row>>

    constructor ()
      ensures itemScale == ItemScale(1, 5)
      ensures variables == [Variable(1, "Estrés Laboral", [Dimension(Stamp(1), "Dimensión 1", 10)])]
      ensures count == 3 && levelNames == ["Bajo", "Medio", "Alto"] && table == None
    {
      itemScale := ItemScale(1, 5);
      variables := [Variable(1, "Estrés Laboral", [Dimension(Stamp(1), "Dimensión 1", 10)])];
      count := 3;
      levelNames := DefaultLevelNames(3);
      table := None;
    }

    /** A new level count. The effect that installs the default labels
        depends on the count alone, so it runs only when the count changes:
        choosing the current count again keeps edited labels. */
    method SetLevelCount(c: nat)
      modifies this
      ensures count == c
      ensures levelNames == if c == old(count) then old(levelNames) else DefaultLevelNames(c)
      ensures c != old(count) ==> |levelNames| == c
      ensures itemScale == old(itemScale) && variables == old(variables) && table == old(table)
    {
      if c != count {
        levelNames := DefaultLevelNames(c);
      }
      count := c;
    }

    method SetItemScale(min: int, max: int)
      modifies this
      ensures itemScale == ItemScale(min, max)
      ensures variables == old(variables) && count == old(count) && levelNames == old(levelNames) && table == old(table)
    {
      itemScale := ItemScale(min, max);
    }

    /** Edits one label; the others, and the count, stay as they were. */
    method SetLevelName(i: nat, name: string)
      requires i < |levelNames|
      modifies this
      ensures levelNames == old(levelNames)[i := name]
      ensures itemScale == old(itemScale) && variables == old(variables) && count == old(count) && table == old(table)
    {
      levelNames := levelNames[i := name];
    }

    method AddVariable(stamp: int)
      modifies this
      ensures variables == AppendVariable(old(variables), stamp)
      ensures itemScale == old(itemScale) && count == old(count) && levelNames == old(levelNames) && table == old(table)
    {
      variables := AppendVariable(variables, stamp);
    }

    method UpdateVariableName(varId: int, newName: string)
      modifies this
      ensures variables == RenameVariable(old(variables), varId, newName)
      ensures itemScale == old(itemScale) && count == old(count) && levelNames == old(levelNames) && table == old(table)
    {
      variables := RenameVariable(variables, varId, newName);
    }

    method AddDimension(varId: int, stamp: int)
      modifies this
      ensures variables == AppendDimension(old(variables), varId, stamp)
      ensures itemScale == old(itemScale) && count == old(count) && levelNames == old(levelNames) && table == old(table)
    {
      variables := AppendDimension(variables, varId, stamp);
    }

    method RemoveDimension(varId: int, dimId: DimId)
      modifies this
      ensures variables == DropDimension(old(variables), varId, dimId)
      ensures itemScale == old(itemScale) && count == old(count) && levelNames == old(levelNames) && table == old(table)
    {
      variables := DropDimension(variables, varId, dimId);
    }

    method UpdateDimension(varId: int, dimId: DimId, field: DimField, val: string)
      modifies this
      ensures variables == EditDimensions(old(variables), varId, dimId, field, val)
      ensures itemScale == old(itemScale) && count == old(count) && levelNames == old(levelNames) && table == old(table)
    {
      variables := EditDimensions(variables, varId, dimId, field, val);
    }

    method GenerateRanges()
      modifies this
      ensures table == Some(Table(variables, itemScale, count, levelNames))
      ensures itemScale == old(itemScale) && variables == old(variables)
      ensures count == old(count) && levelNames == old(levelNames)
    {
      var t := BuildTable(variables, itemScale, count, levelNames);
      table := Some(t);
    }
  }
}
