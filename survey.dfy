/** The survey tool: a uniform structure of `dims` dimensions with
    `qsPerDim` questions each, subject rows loaded from a spreadsheet, and a
    per-subject summary holding each dimension's sum or average and a total
    over all of the subject's values. */
module Survey {
  import opened Cells

  datatype Mode = Averages | Sums

  datatype SurveyDimension = SurveyDimension(name: string, questions: seq<string>)
  datatype Structure = Structure(variable: string, dimensions: seq<SurveyDimension>)
  datatype Subject = Subject(id: nat, values: seq<real>)

  /** Summary values are kept exact; the two-decimal rendering of averages
      is display only. */
  datatype DimensionValue = DimensionValue(name: string, val: real)
  datatype SubjectSummary = SubjectSummary(id: nat, dims: seq<DimensionValue>, total: real)

  // ---------------------------------------------------------------------
  // JavaScript helpers
  // ---------------------------------------------------------------------

  /** The length `Array.from({ length: n })` takes for an integer `n`. */
  function ArrayLength(n: int): nat {
    if n < 0 then 0 else n
  }

  function Min(a: int, b: int): int {
    if a <= b then a else b
  }

  /** A `slice` argument made absolute: negative counts from the end, and
      the result is clamped to [0, len]. */
  function RelativeIndex(k: int, len: nat): (r: nat)
    ensures r <= len
  {
    if k < 0 then (if len + k < 0 then 0 else len + k)
    else if k > len then len
    else k
  }

  /** `s.slice(start, end)`: the elements from the absolute start up to,
      not including, the absolute end; a negative end counts from the back. */
  function Slice<T>(s: seq<T>, start: int, end: int): (r: seq<T>)
    ensures |r| <= |s|
  {
    var a, b := RelativeIndex(start, |s|), RelativeIndex(end, |s|);
    if a < b then s[a..b] else []
  }

  /** What `slice` keeps: the elements between the absolute ends, in order;
      from the front, a non-negative end keeps that many elements (or all
      of them) and a negative end drops that many from the back. */
  lemma SliceContents<T>(s: seq<T>, start: int, end: int)
    ensures var r, a, b := Slice(s, start, end), RelativeIndex(start, |s|), RelativeIndex(end, |s|);
      && |r| == (if a < b then b - a else 0)
      && (forall k :: 0 <= k < |r| ==> r[k] == s[a + k])
      && (start == 0 && end >= 0 ==> r == s[..Min(end, |s|)])
      && (start == 0 && end < 0 ==> r == s[..ArrayLength(|s| + end)])
  {
  }

  /** `reduce((a, b) => a + b, 0)`, accumulating from the left. */
  function SumOf(xs: seq<real>): real {
    if xs == [] then 0.0 else SumOf(xs[..|xs| - 1]) + xs[|xs| - 1]
  }

  lemma {:induction false} SumOfAppend(a: seq<real>, b: seq<real>)
    ensures SumOf(a + b) == SumOf(a) + SumOf(b)
    decreases |b|
  {
    if b != [] {
      assert (a + b)[..|a + b| - 1] == a + b[..|b| - 1];
      SumOfAppend(a, b[..|b| - 1]);
    } else {
      assert a + b == a;
    }
  }

  // ---------------------------------------------------------------------
  // Structure and upload
  // ---------------------------------------------------------------------

  /** `createStructure`: dimensions "D1".."Dn", each with questions labelled
      by their overall position, "P{i * qsPerDim + j + 1}". */
  function BuildStructure(dims: int, qsPerDim: int): (s: Structure)
    ensures |s.dimensions| == ArrayLength(dims)
    ensures forall i :: 0 <= i < |s.dimensions| ==> |s.dimensions[i].questions| == ArrayLength(qsPerDim)
  {
    Structure("Variable Principal",
      seq(ArrayLength(dims), i requires 0 <= i < ArrayLength(dims) =>
        SurveyDimension("D" + IntToString(i + 1),
          seq(ArrayLength(qsPerDim), j requires 0 <= j < ArrayLength(qsPerDim) => "P" + IntToString(i * qsPerDim + j + 1)))))
  }

  function CoerceFloats(cells: seq<Cell>): (values: seq<real>)
    ensures |values| == |cells|
  {
    seq(|cells|, k requires 0 <= k < |cells| => CellToFloatOrZero(cells[k]))
  }

  /** The upload handler: a table of at most one row changes nothing;
      otherwise the header row is dropped, every row is cut to its first
      `dims * qsPerDim` cells (with `slice` semantics), each cell goes through
      `parseFloat(v) || 0`, and subjects are numbered from 1. Short rows are
      not padded. */
  function Upload(json: seq<seq<Cell>>, dims: int, qsPerDim: int): (r: Option<seq<Subject>>)
    ensures r.Some? <==> |json| > 1
    ensures r.Some? ==> |r.value| == |json| - 1
    ensures r.Some? ==> forall i :: 0 <= i < |r.value| ==>
              && r.value[i].id == i + 1
              && |r.value[i].values| == (if dims * qsPerDim >= 0 then Min(|json[i + 1]|, dims * qsPerDim)
                                         else ArrayLength(|json[i + 1]| + dims * qsPerDim))
              && forall k :: 0 <= k < |r.value[i].values| ==> r.value[i].values[k] == CellToFloatOrZero(json[i + 1][k])
  {
    if |json| > 1 then
      Some(seq(|json| - 1, i requires 0 <= i < |json| - 1 =>
        SliceContents(json[i + 1], 0, dims * qsPerDim);
        Subject(i + 1, CoerceFloats(Slice(json[i + 1], 0, dims * qsPerDim)))))
    else None
  }

  // ---------------------------------------------------------------------
  // Summary
  // ---------------------------------------------------------------------

  /** The running offset of dimension d: the questions of the dimensions
      before it. */
  function Offset(ds: seq<SurveyDimension>, d: nat): nat
    requires d <= |ds|
  {
    if d == 0 then 0 else Offset(ds, d - 1) + |ds[d - 1].questions|
  }

  /** What the average mode divides by must not be zero. */
  predicate NoEmptyDimension(structure: Structure) {
    forall k :: 0 <= k < |structure.dimensions| ==> |structure.dimensions[k].questions| > 0
  }

  predicate Averageable(structure: Structure, data: seq<Subject>, mode: Mode) {
    mode == Averages ==>
      NoEmptyDimension(structure) && forall i :: 0 <= i < |data| ==> |data[i].values| > 0
  }

  /** A sum as reported in `mode`: itself, or divided by how many values
      it adds up. */
  function Reported(sum: real, count: nat, mode: Mode): real
    requires mode == Averages ==> count > 0
  {
    if mode == Sums then sum else sum / count as real
  }

  /** The values of dimension k's questions: the row from its offset to
      the next dimension's, with `slice` clamping. */
  function Columns(ds: seq<SurveyDimension>, values: seq<real>, k: nat): seq<real>
    requires k < |ds|
  {
    Slice(values, Offset(ds, k), Offset(ds, k + 1))
  }

  function DimensionResult(ds: seq<SurveyDimension>, values: seq<real>, k: nat, mode: Mode): DimensionValue
    requires k < |ds| && (mode == Averages ==> |ds[k].questions| > 0)
  {
    DimensionValue(ds[k].name, Reported(SumOf(Columns(ds, values, k)), |ds[k].questions|, mode))
  }

  /** Each dimension's result, reading its questions' columns. */
  function DimensionResults(structure: Structure, values: seq<real>, mode: Mode): (r: seq<DimensionValue>)
    requires mode == Averages ==> NoEmptyDimension(structure)
    ensures |r| == |structure.dimensions|
    ensures forall k :: 0 <= k < |r| ==> r[k] == DimensionResult(structure.dimensions, values, k, mode)
  {
    var ds := structure.dimensions;
    seq(|ds|, k requires 0 <= k < |ds| => DimensionResult(ds, values, k, mode))
  }

  function Summarize(structure: Structure, subject: Subject, mode: Mode): SubjectSummary
    requires mode == Averages ==> NoEmptyDimension(structure) && |subject.values| > 0
  {
    SubjectSummary(subject.id,
      DimensionResults(structure, subject.values, mode),
      Reported(SumOf(subject.values), |subject.values|, mode))
  }

  function SummaryTable(structure: Option<Structure>, data: seq<Subject>, mode: Mode): seq<SubjectSummary>
    requires structure.Some? ==> Averageable(structure.value, data, mode)
  {
    if structure.None? || data == [] then []
    else seq(|data|, i requires 0 <= i < |data| => Summarize(structure.value, data[i], mode))
  }

  /** One subject's line, threading the running offset through the
      dimensions. */
  method SummarizeSubject(structure: Structure, subject: Subject, mode: Mode) returns (s: SubjectSummary)
    requires mode == Averages ==> NoEmptyDimension(structure) && |subject.values| > 0
    ensures s == Summarize(structure, subject, mode)
  {
    var ds := structure.dimensions;
    var offset := 0;
    var results: seq<DimensionValue> := [];
    var k := 0;
    while k < |ds|
      invariant 0 <= k <= |ds|
      invariant offset == Offset(ds, k)
      invariant |results| == k
      invariant results == DimensionResults(structure, subject.values, mode)[..k]
    {
      var n := |ds[k].questions|;
      var qValues := Slice(subject.values, offset, offset + n);
      assert qValues == Columns(ds, subject.values, k) by {
        assert offset + n == Offset(ds, k + 1);
      }
      var sum := SumOf(qValues);
      var r := DimensionValue(ds[k].name, Reported(sum, n, mode));
      assert r == DimensionResults(structure, subject.values, mode)[k];
      results := results + [r];
      offset := offset + n;
      k := k + 1;
    }
    var totalSum := SumOf(subject.values);
    s := SubjectSummary(subject.id, results, Reported(totalSum, |subject.values|, mode));
    assert DimensionResults(structure, subject.values, mode)[..k] == DimensionResults(structure, subject.values, mode);
  }

  /** `getSummary`: nothing before a structure exists or while no data is
      loaded, otherwise one line per subject in order. */
  method GetSummary(structure: Option<Structure>, data: seq<Subject>, mode: Mode) returns (rows: seq<SubjectSummary>)
    requires structure.Some? ==> Averageable(structure.value, data, mode)
    ensures rows == SummaryTable(structure, data, mode)
  {
    if structure.None? || data == [] {
      return [];
    }
    rows := [];
    var i := 0;
    while i < |data|
      invariant 0 <= i <= |data|
      invariant |rows| == i
      invariant forall m :: 0 <= m < i ==> rows[m] == Summarize(structure.value, data[m], mode)
    {
      var line := SummarizeSubject(structure.value, data[i], mode);
      rows := rows + [line];
      i := i + 1;
    }
  }

  // ---------------------------------------------------------------------
  // Properties
  // ---------------------------------------------------------------------

  /** Every dimension has `qsPerDim` questions, as in a structure built by
      `createStructure`. */
  predicate Uniform(ds: seq<SurveyDimension>, qsPerDim: nat) {
    forall k :: 0 <= k < |ds| ==> |ds[k].questions| == qsPerDim
  }

  lemma BuiltIsUniform(dims: int, qsPerDim: nat)
    ensures Uniform(BuildStructure(dims, qsPerDim).dimensions, qsPerDim)
  {
  }

  /** With uniform dimensions, dimension d starts at column d * qsPerDim. */
  lemma {:induction false} UniformOffset(ds: seq<SurveyDimension>, qsPerDim: nat, d: nat)
    requires Uniform(ds, qsPerDim) && d <= |ds|
    ensures Offset(ds, d) == d * qsPerDim
  {
    if d > 0 {
      UniformOffset(ds, qsPerDim, d - 1);
      assert d * qsPerDim == (d - 1) * qsPerDim + qsPerDim;
    }
  }

  /** The label of question j of dimension d names the column the summary
      reads for it: "P" followed by that column's 1-based position. */
  lemma LabelsMatchColumns(dims: nat, qsPerDim: nat, d: nat, j: nat)
    requires d < dims && j < qsPerDim
    ensures var ds := BuildStructure(dims, qsPerDim).dimensions;
      ds[d].questions[j] == "P" + IntToString(Offset(ds, d) + j + 1)
  {
    var ds := BuildStructure(dims, qsPerDim).dimensions;
    assert ds[d].questions[j] == "P" + IntToString(d * qsPerDim + j + 1);
    BuiltIsUniform(dims, qsPerDim);
    UniformOffset(ds, qsPerDim, d);
  }

  function SumOfValues(dvs: seq<DimensionValue>): real {
    if dvs == [] then 0.0 else SumOfValues(dvs[..|dvs| - 1]) + dvs[|dvs| - 1].val
  }

  lemma {:induction false} OffsetMonotone(ds: seq<SurveyDimension>, m: nat, n: nat)
    requires m <= n <= |ds|
    ensures Offset(ds, m) <= Offset(ds, n)
    decreases n - m
  {
    if m < n {
      OffsetMonotone(ds, m, n - 1);
    }
  }

  lemma SumOfValuesStep(dvs: seq<DimensionValue>, m: nat)
    requires 0 < m <= |dvs|
    ensures SumOfValues(dvs[..m]) == SumOfValues(dvs[..m - 1]) + dvs[m - 1].val
  {
    assert dvs[..m][..m - 1] == dvs[..m - 1];
  }

  lemma SumOfStep(vs: seq<real>, lo: nat, hi: nat)
    requires lo <= hi <= |vs|
    ensures SumOf(vs[..hi]) == SumOf(vs[..lo]) + SumOf(vs[lo..hi])
  {
    assert vs[..hi] == vs[..lo] + vs[lo..hi];
    SumOfAppend(vs[..lo], vs[lo..hi]);
  }

  /** Dimension k of a summary reports the sum of its columns. */
  lemma DimensionAt(st: Structure, subject: Subject, mode: Mode, k: nat)
    requires mode == Averages ==> NoEmptyDimension(st) && |subject.values| > 0
    requires k < |st.dimensions|
    ensures Summarize(st, subject, mode).dims[k].val
         == Reported(SumOf(Columns(st.dimensions, subject.values, k)), |st.dimensions[k].questions|, mode)
  {
  }

  lemma SliceInRange<T>(s: seq<T>, lo: nat, hi: nat)
    requires lo <= hi <= |s|
    ensures Slice(s, lo, hi) == s[lo..hi]
  {
  }

  /** Entry k of `dvs` is the sum of the columns of dimension k. */
  predicate SumsColumns(ds: seq<SurveyDimension>, vs: seq<real>, dvs: seq<DimensionValue>, k: nat)
    requires k < |ds| == |dvs|
  {
    dvs[k].val == SumOf(Columns(ds, vs, k))
  }

  /** Values whose k-th entry is the sum of the columns of dimension k add
      up, over the first m dimensions, to the sum of those columns. */
  lemma {:induction false} DimensionPrefix(ds: seq<SurveyDimension>, vs: seq<real>, dvs: seq<DimensionValue>, m: nat)
    requires m <= |ds| == |dvs| && Offset(ds, m) <= |vs|
    requires forall k :: 0 <= k < m ==> SumsColumns(ds, vs, dvs, k)
    ensures SumOfValues(dvs[..m]) == SumOf(vs[..Offset(ds, m)])
  {
    if m == 0 {
      assert dvs[..0] == [];
      assert vs[..0] == [];
    } else {
      var lo, hi := Offset(ds, m - 1), Offset(ds, m);
      DimensionPrefix(ds, vs, dvs, m - 1);
      assert SumsColumns(ds, vs, dvs, m - 1);
      SumOfValuesStep(dvs, m);
      OffsetMonotone(ds, m - 1, m);
      SliceInRange(vs, lo, hi);
      SumOfStep(vs, lo, hi);
    }
  }

  /** With a full row, one value per question, the total in sum mode is
      the sum of the dimension sums, whatever the dimensions' sizes. */
  lemma SumTotalIsSumOfDimensions(st: Structure, subject: Subject)
    requires |subject.values| == Offset(st.dimensions, |st.dimensions|)
    ensures var s := Summarize(st, subject, Sums);
      s.total == SumOfValues(s.dims)
  {
    var ds, vs := st.dimensions, subject.values;
    var dims := |ds|;
    var s := Summarize(st, subject, Sums);
    forall k | 0 <= k < dims
      ensures SumsColumns(ds, vs, s.dims, k)
    {
      DimensionAt(st, subject, Sums, k);
    }
    DimensionPrefix(ds, vs, s.dims, dims);
    assert s.dims[..dims] == s.dims;
    assert vs[..|vs|] == vs;
  }

  lemma AddQuotients(x: real, y: real, q: real)
    requires q > 0.0
    ensures x / q + y / q == (x + y) / q
  {
  }

  /** Dividing every value by q divides their sum by q. */
  lemma {:induction false} SumOfQuotients(a: seq<DimensionValue>, b: seq<DimensionValue>, q: real)
    requires |a| == |b| && q > 0.0
    requires forall k :: 0 <= k < |a| ==> a[k].val == b[k].val / q
    ensures SumOfValues(a) == SumOfValues(b) / q
  {
    if a != [] {
      var n := |a|;
      SumOfQuotients(a[..n - 1], b[..n - 1], q);
      AddQuotients(SumOfValues(b[..n - 1]), b[n - 1].val, q);
    }
  }

  /** With equal-sized dimensions and a full row, each dimension average
      is that dimension's sum divided by `qsPerDim`. */
  lemma AveragesAreScaledSums(st: Structure, qsPerDim: nat, subject: Subject)
    requires qsPerDim > 0 && Uniform(st.dimensions, qsPerDim) && |subject.values| > 0
    requires |subject.values| == Offset(st.dimensions, |st.dimensions|)
    ensures var avg, sums := Summarize(st, subject, Averages), Summarize(st, subject, Sums);
      |avg.dims| == |sums.dims| &&
      forall k :: 0 <= k < |avg.dims| ==> avg.dims[k].val == sums.dims[k].val / qsPerDim as real
  {
    var avg, sums := Summarize(st, subject, Averages), Summarize(st, subject, Sums);
    forall k | 0 <= k < |avg.dims|
      ensures avg.dims[k].val == sums.dims[k].val / qsPerDim as real
    {
      AverageIsScaledSum(st, qsPerDim, subject, k);
    }
  }

  lemma AverageIsScaledSum(st: Structure, qsPerDim: nat, subject: Subject, k: nat)
    requires qsPerDim > 0 && Uniform(st.dimensions, qsPerDim) && |subject.values| > 0
    requires |subject.values| == Offset(st.dimensions, |st.dimensions|) && k < |st.dimensions|
    ensures Summarize(st, subject, Averages).dims[k].val == Summarize(st, subject, Sums).dims[k].val / qsPerDim as real
  {
    DimensionAt(st, subject, Averages, k);
    DimensionAt(st, subject, Sums, k);
  }

  /** With a full row and equal-sized dimensions (as `createStructure`
      builds them), the total in average mode, the mean of all values,
      equals the mean of the dimension averages. */
  lemma AverageTotalIsMeanOfAverages(st: Structure, qsPerDim: nat, subject: Subject)
    requires |st.dimensions| > 0 && qsPerDim > 0 && Uniform(st.dimensions, qsPerDim)
    requires |subject.values| == Offset(st.dimensions, |st.dimensions|)
    ensures var s := Summarize(st, subject, Averages);
      s.total == SumOfValues(s.dims) / |st.dimensions| as real
  {
    var dims := |st.dimensions|;
    UniformOffset(st.dimensions, qsPerDim, dims);
    CastProduct(dims, qsPerDim);
    var q, n := qsPerDim as real, dims as real;
    assert |subject.values| as real == n * q;
    var avg, sums := Summarize(st, subject, Averages), Summarize(st, subject, Sums);
    SumTotalIsSumOfDimensions(st, subject);
    AveragesAreScaledSums(st, qsPerDim, subject);
    SumOfQuotients(avg.dims, sums.dims, q);
    DivDiv(SumOf(subject.values), q, n);
    assert q * n == n * q;
  }

  /** On a short row the two differ: 2 dimensions of 2 questions and the
      values 4, 4, 1 give a total average of 3, while the dimension averages
      4 and 0.5 have mean 2.25. */
  lemma ShortRowAverages()
    ensures var s := Summarize(BuildStructure(2, 2), Subject(1, [4.0, 4.0, 1.0]), Averages);
      && s.dims[0].val == 4.0 && s.dims[1].val == 0.5
      && s.total == 3.0
      && SumOfValues(s.dims) / 2.0 == 2.25
  {
    var vs := [4.0, 4.0, 1.0];
    var st := BuildStructure(2, 2);
    assert Offset(st.dimensions, 1) == 2;
    assert Slice(vs, 0, 2) == [4.0, 4.0];
    assert Slice(vs, 2, 4) == [1.0];
    assert SumOf([4.0, 4.0]) == 8.0;
    assert SumOf([1.0]) == 1.0;
    assert SumOf(vs) == 9.0;
    var s := Summarize(st, Subject(1, vs), Averages);
    assert s.dims[..1] == [s.dims[0]];
    assert s.dims[..2][..1] == s.dims[..1];
    assert s.dims[..2] == s.dims;
  }

  // ---------------------------------------------------------------------
  // The tool's state
  // ---------------------------------------------------------------------

  class SurveyConfig {
    var dims: int
    var qsPerDim: int
    var structure: Option<Structure>
    var surveyData: seq<Subject>
    var summaryMode: Mode

    constructor ()
      ensures dims == 3 && qsPerDim == 5 && structure == None && surveyData == [] && summaryMode == Averages
    {
      dims, qsPerDim := 3, 5;
      structure := None;
      surveyData := [];
      summaryMode := Averages;
    }

    method SetDims(n: int)
      modifies this
      ensures dims == n
      ensures qsPerDim == old(qsPerDim) && structure == old(structure) && surveyData == old(surveyData) && summaryMode == old(summaryMode)
    {
      dims := n;
    }

    method SetQsPerDim(n: int)
      modifies this
      ensures qsPerDim == n
      ensures dims == old(dims) && structure == old(structure) && surveyData == old(surveyData) && summaryMode == old(summaryMode)
    {
      qsPerDim := n;
    }

    method SetSummaryMode(mode: Mode)
      modifies this
      ensures summaryMode == mode
      ensures dims == old(dims) && qsPerDim == old(qsPerDim) && structure == old(structure) && surveyData == old(surveyData)
    {
      summaryMode := mode;
    }

    /** A new structure from the current fields; loaded data is discarded. */
    method CreateStructure()
      modifies this
      ensures structure == Some(BuildStructure(dims, qsPerDim)) && surveyData == []
      ensures dims == old(dims) && qsPerDim == old(qsPerDim) && summaryMode == old(summaryMode)
    {
      structure := Some(BuildStructure(dims, qsPerDim));
      surveyData := [];
    }

    /** Loads subjects cut to the current `dims * qsPerDim`, which need not
        match the structure built earlier. */
    method HandleFileUpload(json: seq<seq<Cell>>)
      modifies this
      ensures surveyData == (if |json| > 1 then Upload(json, dims, qsPerDim).value else old(surveyData))
      ensures dims == old(dims) && qsPerDim == old(qsPerDim) && structure == old(structure) && summaryMode == old(summaryMode)
    {
      match Upload(json, dims, qsPerDim)
      case Some(rows) => surveyData := rows;
      case None =>
    }
  }
}
