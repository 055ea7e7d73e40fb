# PsychSuite tools in Dafny

PsychSuite is a single-page toolkit for psychometrics. Its four tools live in
`src/App.jsx`, and this project models the computational core of each:

- **Aiken's V calculator** (`aiken.dfy`, module `Aiken`). It holds a scale of
  named integer options, an items × judges rating matrix and a configuration
  (judges, items, confidence). It models the effect that rebuilds the matrix
  when the shape changes, the cell and scale edits, spreadsheet import and
  `calculateAiken`. The coefficient is
  V = (mean − min) / (max − min), where the mean divides by the configured
  number of judges. An item is "Válido" when V reaches 0.80 at confidence
  0.99, and 0.70 otherwise.
- **Range ("baremo") generator** (`baremo.dfy`, module `Baremo`). A schema of
  variables → dimensions → item counts, an item scale and a level count give,
  for every dimension and for one synthetic `TOTAL (name)` row per variable, a
  split of the raw scores [items·min, items·max] into integer bands. The model
  covers the band loop, the flat table, the default labels and the schema
  edits.
- **Survey configurator** (`survey.dfy`, module `Survey`). It builds a
  uniform structure of `dims` dimensions with `qsPerDim` questions each, loads
  subject rows from a spreadsheet, and gives each subject a per-dimension sum
  or average and a total.
- **Likert recoder** (`recoder.dfy`, module `Recoder`). It loads a sheet,
  keeps a set of selected columns, and replaces every numeric cell of those
  columns by (max + min) − value.

`cells.dfy` (module `Cells`) holds what the tools share:

- spreadsheet cells (number, text or boolean);
- JavaScript's `parseInt` and `parseFloat` (leading white space, sign, `0x`
  prefix, longest numeric prefix; `None` stands for NaN), and the
  `|| 0` fallbacks built on them;
- decimal rendering of integers for labels such as `Nivel 3` or `P12`.

Each tool's state is a class whose methods update its fields as the React
state setters do. Each class's pure computations are functions. Each loop of
the source (the band loop, the table `flatMap`, the survey's running offset)
is a method proved equal to the function that specifies it.

Behaviour worth noting, each point following the cited lines of
`src/App.jsx`:

- Short survey rows are not padded with zeros. A subject's total average
  divides by the number of values actually present, so on a short row it
  differs from the mean of the dimension averages (src/App.jsx:829-845,
  `Survey.ShortRowAverages`).
- Bands are not always strictly increasing. When the raw range is smaller
  than the level count, a band can be displayed inverted, e.g. "2 - 1"
  (src/App.jsx:533-559, `Baremo.ExampleInvertedBand`). Even so, every attainable score lies in
  exactly one band (`Baremo.EveryScoreInOneBand`).
- `calculateAiken` keeps the previous results after a scale, cell or
  confidence edit. Only the rebuild effect, "Limpiar" and import discard them
  (src/App.jsx:79-86, 121-136, 352-356).

## Model

| member | source | states |
|---|---|---|
| Cells.ParseIntRoundTrip | src/App.jsx:107 | `parseInt` reads back the decimal text of every integer, negative ones included |
| Cells.NoDigitParsesToZero | src/App.jsx:107 | text with no decimal digit is NaN for `parseInt`, so `parseInt(x) \|\| 0` gives 0 |
| Cells.ParseFloatOfInt | src/App.jsx:819 | `parseFloat` reads back the decimal text of every integer as that number |
| Cells.ParseIntStopsAtNonDigit | src/App.jsx:107 | `parseInt` reads the integer at the front of the text and stops at the first character that is not a decimal digit: `"2.5"` gives 2, `"1e3"` gives 1, `"12abc"` gives 12. The one exception is a lone `0` followed by `x` or `X`, which is the hexadecimal prefix |
| Cells.ParseFloatFraction | src/App.jsx:819 | `parseFloat` of an optional minus, digits `w`, a point and at least one digit `d`, followed by text that continues neither the digits nor an exponent, is `±Mantissa(w, d)`: `"-2.5"` gives -2.5 and `".75 pts"` gives 0.75 |
| Cells.MantissaValue | src/App.jsx:819 | the digits `w.d` stand for `w + d / 10^|d|` |
| Cells.ParseFloatExponent | src/App.jsx:819 | `parseFloat` of digits `w` followed by `e`, an optional minus and digits `k` is `w` with the point moved `k` places, right or left, and text after the exponent's digits is ignored: `"1e3"` gives 1000 and `"25e-1"` gives 2.5 |
| Cells.ShiftRight | src/App.jsx:819 | moving the point of an exponent `k` places to the right multiplies by `10^k` |
| Cells.ShiftLeft | src/App.jsx:819 | moving the point `k` places to the left, for a negative exponent or a fraction, divides by `10^k` |
| Cells.ParseInt | src/App.jsx:90-107 | `parseInt` is NaN exactly when no decimal digit follows the white space and the sign; after a `0x` prefix, exactly when no hexadecimal digit follows it. A number has the sign that was written |
| Cells.ParseIntOrZero | src/App.jsx:107 | `parseInt(s) \|\| 0`: NaN becomes 0 and any other number is kept |
| Cells.CellToInt | src/App.jsx:133 | `parseInt(cell) \|\| 0` on a cell: a number loses its fraction toward zero and a whole number is kept; text goes through `parseInt(s) \|\| 0`; a boolean gives 0 |
| Cells.ParseFloat | src/App.jsx:819 | `parseFloat` gives a number exactly when a digit, or a point followed by a digit, comes after the white space and the sign; so `"."`, `".x"` and `"-."` are NaN. A number has the sign that was written |
| Cells.CellToFloat | src/App.jsx:986 | `parseFloat` on a cell: a number is read as itself, text is parsed, and a boolean is NaN |
| Cells.CellToFloatOrZero | src/App.jsx:819 | `parseFloat(v) \|\| 0`: NaN becomes 0 and any other number is kept |
| Cells.Trunc | src/App.jsx:133 | a numeric cell in an integer context is truncated toward zero: the result lies within 1 of the number, on the zero side |
| Cells.NatToString | src/App.jsx:497 | the rendering of a count used in a label is a non-empty string of decimal digits |
| Aiken.MinOf | src/App.jsx:143 | the smallest scale value is one of the values and no value is below it |
| Aiken.MaxOf | src/App.jsx:144 | the largest scale value is one of the values and no value is above it |
| Aiken.Evaluate | src/App.jsx:141-164 | nothing is computed for fewer than two scale options. Otherwise there is one result per matrix row: item i + 1, mean = row sum / configured judges, V = (mean − min) / (max − min), and "Válido" exactly when V reaches the threshold |
| Aiken.VInUnitInterval | src/App.jsx:147-153 | a row of `judges` ratings that all lie on the scale gives 0 ≤ V ≤ 1 |
| Aiken.VAtTop | src/App.jsx:147-153 | all judges at the top of the scale give V = 1 |
| Aiken.VAtBottom | src/App.jsx:147-153 | all judges at the bottom of the scale give V = 0 |
| Aiken.MeanFormIsAikenForm | src/App.jsx:150-153 | the mean form equals Aiken's S / (n (c − 1)), with S the sum of distances from the lowest value |
| Aiken.ResultsInUnitInterval | src/App.jsx:141-164 | for a matrix whose rows hold `judges` ratings on the scale, every computed V lies in [0, 1] |
| Aiken.StricterAtNinetyNine | src/App.jsx:158-159 | an item valid at confidence 0.99 is valid at any confidence |
| Aiken.ExampleOneItem | src/App.jsx:141-164 | scale 0/1/2 with three judges rating 2, 2, 1 gives mean 5/3, V = 5/6 and "Válido" |
| Aiken.ZeroMatrix | src/App.jsx:82 | the rebuilt matrix has `items` rows of `judges` zeros |
| Aiken.CoerceMatrix | src/App.jsx:133 | an imported table keeps its shape row by row, and every cell becomes `parseInt(cell) \|\| 0` |
| Aiken.AikenCalculator.constructor | src/App.jsx:64-86 | the state after mount: 5 judges, 5 items, confidence 0.95, scale Nada 0 / Poco 1 / Mucho 2, a 5 × 5 zero matrix, no results |
| Aiken.AikenCalculator.Resize | src/App.jsx:79-86 | a new shape rebuilds a zero matrix and drops the results exactly when the row count differs or the first row's length differs. Otherwise matrix and results are kept |
| Aiken.AikenCalculator.SetConfidence | src/App.jsx:293 | only the confidence changes |
| Aiken.AikenCalculator.Clear | src/App.jsx:352-356 | a zero matrix of the configured shape and no results |
| Aiken.AikenCalculator.HandleCellChange | src/App.jsx:104-109 | exactly one cell takes `parseInt(val) \|\| 0`. The shape, every other cell and the results are unchanged |
| Aiken.AikenCalculator.ImportRows | src/App.jsx:121-136 | an empty table changes nothing. Otherwise items and judges become the table's row count and first-row length, every cell is coerced, and the results are dropped; the state stays consistent with the rebuild effect |
| Aiken.AikenCalculator.AddScaleOption | src/App.jsx:94-97 | appends a fresh "Nueva Opción" valued one above the last value (0 on an empty scale) and keeps the existing entries |
| Aiken.AikenCalculator.RemoveScaleOption | src/App.jsx:99-102 | a scale of two or fewer entries is kept. Otherwise exactly entry `idx` is removed, and an index off the scale removes nothing. A scale of at least two keeps at least two |
| Aiken.AikenCalculator.HandleScaleChange | src/App.jsx:88-92 | the entry object is changed in place (the copied list shares it): only the chosen field of entry `idx` changes, and the value goes through `parseInt(val) \|\| 0` |
| Aiken.AikenCalculator.CalculateAiken | src/App.jsx:141-164 | with fewer than two options nothing changes. Otherwise the results are the engine's evaluation of the current matrix, scale and configuration, and nothing else changes |
| Baremo.DefaultLevelNames | src/App.jsx:469-479 | the default labels have one entry per level; counts without a template get "Nivel" throughout |
| Baremo.Levels | src/App.jsx:539-557 | one band per level |
| Baremo.GenerateLevels | src/App.jsx:533-559 | the band loop for one component produces exactly the bands of its raw range [items·min, items·max] |
| Baremo.CutAtCount | src/App.jsx:544-546 | in exact arithmetic the last cut is already the maximum; forcing the last band to end there only matters under rounding |
| Baremo.BandsContiguous | src/App.jsx:544-552 | the first band starts at the minimum, the last ends at the maximum, and each band starts one above where the previous one ended |
| Baremo.UppersNondecreasing | src/App.jsx:544-546 | band upper bounds never decrease |
| Baremo.EveryScoreInOneBand | src/App.jsx:533-557 | every raw score between minimum and maximum lies in one band and in no later band |
| Baremo.BandsNonEmpty | src/App.jsx:533-557 | when the range holds at least one score per level, every band has lower ≤ upper |
| Baremo.ExampleTenItems | src/App.jsx:533-557 | 10 items on a 1–5 scale in 3 levels give 10–23, 24–36, 37–50 |
| Baremo.ExampleInvertedBand | src/App.jsx:544-552 | a raw range 1–2 in 5 levels gives a second band displayed "2 - 1" |
| Baremo.VariableRows | src/App.jsx:526-533 | a variable yields one row per dimension plus its TOTAL row |
| Baremo.TableLength | src/App.jsx:525-563 | the table has one row per dimension plus one per variable |
| Baremo.TableLayout | src/App.jsx:525-563 | variable k's rows follow those of earlier variables: its dimensions in order, then `TOTAL (name)` over the sum of their item counts |
| Baremo.BuildTable | src/App.jsx:525-563 | the nested loop builds exactly the table the schema specifies |
| Baremo.AppendVariable | src/App.jsx:481-488 | keeps the existing variables and appends "Variable n+1" (n the previous count). Its id is the stamp, and it holds a single 10-item "Dimensión 1" with the same stamp |
| Baremo.RenameVariable | src/App.jsx:490-492 | only the variables with that id get the new name; ids and dimensions are unchanged |
| Baremo.AppendDimension | src/App.jsx:494-502 | each variable whose id matches gains, after its dimensions, a 5-item "Dimensión m+1" stamped with the stamp (m its previous count). The other variables, and every id and name, are unchanged |
| Baremo.Without | src/App.jsx:507 | the kept dimensions are exactly those whose id differs, and none is longer than the input |
| Baremo.WithoutConcat | src/App.jsx:507 | the filter works element by element and keeps the order: filtering `a + b` is filtering `a` followed by filtering `b` |
| Baremo.WithoutMultiplicity | src/App.jsx:507 | a kept dimension occurs exactly as often as in the input and a removed one not at all, so duplicates are neither merged nor dropped |
| Baremo.DropDimension | src/App.jsx:504-511 | each variable whose id matches keeps exactly the dimensions whose id differs, in order. The other variables, and every id and name, are unchanged |
| Baremo.ApplyEdit | src/App.jsx:517 | an item-count edit sets the count to `parseInt(val) \|\| 0` and keeps the name; a name edit sets the name and keeps the count; the id is kept |
| Baremo.EditDimensions | src/App.jsx:513-523 | exactly the dimensions with the matching id, inside variables with the matching id, take the edit. Every other dimension, and every variable's id, name and dimension count, are unchanged |
| Baremo.RenameDimensionKeepsTotals | src/App.jsx:513-533 | renaming a dimension leaves each variable's item total, which its TOTAL row spans, unchanged |
| Baremo.AddThenRemoveDimension | src/App.jsx:494-511 | removing a dimension just added under a fresh stamp gives the schema back |
| Baremo.UpdateDimensionIdempotent | src/App.jsx:513-523 | repeating a dimension edit changes nothing more |
| Baremo.RangeCalculator.constructor | src/App.jsx:455-467 | the initial state: scale 1–5, "Estrés Laboral" with one 10-item dimension, 3 levels Bajo/Medio/Alto, no table |
| Baremo.RangeCalculator.SetLevelCount | src/App.jsx:476-479 | the count is set. Labels are reset to the count's defaults only when the count changes, since the effect depends on the count alone; choosing the current count keeps edited labels |
| Baremo.RangeCalculator.SetItemScale | src/App.jsx:659-663 | only the item scale changes |
| Baremo.RangeCalculator.SetLevelName | src/App.jsx:719-722 | only label i changes |
| Baremo.RangeCalculator.AddVariable | src/App.jsx:481-488 | the schema becomes `AppendVariable` of the old one; nothing else changes |
| Baremo.RangeCalculator.UpdateVariableName | src/App.jsx:490-492 | the schema becomes `RenameVariable` of the old one; nothing else changes |
| Baremo.RangeCalculator.AddDimension | src/App.jsx:494-502 | the schema becomes `AppendDimension` of the old one; nothing else changes |
| Baremo.RangeCalculator.RemoveDimension | src/App.jsx:504-511 | the schema becomes `DropDimension` of the old one; nothing else changes |
| Baremo.RangeCalculator.UpdateDimension | src/App.jsx:513-523 | the schema becomes `EditDimensions` of the old one; nothing else changes |
| Baremo.RangeCalculator.GenerateRanges | src/App.jsx:525-563 | the table becomes the one the current schema, scale, count and labels specify |
| Survey.SliceContents | src/App.jsx:819 | `slice` keeps, in order, the elements between its two ends made absolute (negative ends count from the back, both clamped to the list). From the front, a non-negative end keeps that many elements or all of them, and a negative end drops that many from the back |
| Survey.BuildStructure | src/App.jsx:794-801 | `dims` dimensions (none when negative), each with `qsPerDim` questions (none when negative) |
| Survey.LabelsMatchColumns | src/App.jsx:797-799 | question j of dimension d is labelled "P" followed by the 1-based column the summary reads for it |
| Survey.UniformOffset | src/App.jsx:830-833 | with equal-sized dimensions, dimension d starts at column d · qsPerDim |
| Survey.Upload | src/App.jsx:816-820 | a table of at most one row changes nothing. Otherwise the header is dropped and subjects are numbered from 1. Each row keeps its first dims · qsPerDim cells, or all but the last \|dims · qsPerDim\| cells when that product is negative, each through `parseFloat(v) \|\| 0`, with no padding |
| Survey.SummarizeSubject | src/App.jsx:829-845 | the running-offset loop gives each dimension the sum (or average) of its own columns, and the total over all values |
| Survey.GetSummary | src/App.jsx:827-847 | nothing before a structure exists or while no data is loaded. Otherwise one line per subject, in order |
| Survey.SumTotalIsSumOfDimensions | src/App.jsx:829-845 | on a full row, in sum mode, the total is the sum of the dimension sums, whatever the dimension sizes |
| Survey.AverageTotalIsMeanOfAverages | src/App.jsx:829-845 | on a full row with equal-sized dimensions, in average mode, the total is the mean of the dimension averages |
| Survey.ShortRowAverages | src/App.jsx:819 | values 4, 4, 1 under 2 × 2 questions: the total average is 3, but the mean of the dimension averages (4 and 0.5) is 2.25 |
| Survey.SurveyConfig.constructor | src/App.jsx:787-792 | 3 dimensions, 5 questions, no structure, no data, average mode |
| Survey.SurveyConfig.SetDims | src/App.jsx:855 | only the dimension count changes |
| Survey.SurveyConfig.SetQsPerDim | src/App.jsx:859 | only the question count changes |
| Survey.SurveyConfig.SetSummaryMode | src/App.jsx:918-919 | only the mode changes |
| Survey.SurveyConfig.CreateStructure | src/App.jsx:794-804 | the structure is rebuilt from the current counts and the loaded data is dropped |
| Survey.SurveyConfig.HandleFileUpload | src/App.jsx:806-825 | the data becomes the upload of the table under the current counts; a table of at most one row changes nothing |
| Recoder.RecodeCell | src/App.jsx:984-992 | a cell of a selected column that `parseFloat` reads as v becomes (max + min) − v; any other cell is kept |
| Recoder.RecodeRows | src/App.jsx:982-995 | every row keeps its length, and cell j of each row is that cell recoded for column j |
| Recoder.Toggle | src/App.jsx:975-980 | the clicked index changes membership, and no other index does |
| Recoder.ReflectReversesScale | src/App.jsx:988-989 | recoding swaps min and max, maps the scale onto itself, reverses order and undoes itself |
| Recoder.RecodeCellTwice | src/App.jsx:982-995 | recoding twice gives back the number in every cell; a numeric or non-numeric cell comes back exactly |
| Recoder.RecodeRowsTwice | src/App.jsx:982-995 | the same for the whole sheet, cell by cell |
| Recoder.NothingSelected | src/App.jsx:982-995 | with no column selected the sheet is exported as loaded |
| Recoder.ToggleTwice | src/App.jsx:975-980 | toggling the same column twice restores the selection |
| Recoder.LikertRecoder.RecodedRows | src/App.jsx:982-1003 | the exported rows have the loaded rows' shape; a cell of a selected column that `parseFloat` reads as v becomes (max + min) − v, one it reads as NaN is kept, cells of unselected columns are kept, and with no column selected the rows are exported as loaded |
| Recoder.LikertRecoder.constructor | src/App.jsx:951-954 | scale 1–5, empty sheet, no selection |
| Recoder.LikertRecoder.HandleFileUpload | src/App.jsx:964-970 | a non-empty table becomes headers plus rows and clears the selection; an empty one changes nothing |
| Recoder.LikertRecoder.ToggleCol | src/App.jsx:975-980 | the selection becomes its toggle at the index; nothing else changes |
| Recoder.LikertRecoder.SetMin | src/App.jsx:1009 | only the scale minimum changes |
| Recoder.LikertRecoder.SetMax | src/App.jsx:1013 | only the scale maximum changes |

## Left out

- Rendering, PDF export, APA-7 clipboard copies, Excel export, and the copy-confirmation timers are display or I/O. They compute nothing the tools' results depend on.
- Reading a file (`FileReader`, `XLSX.read`, `sheet_to_json`) is I/O. The parsed table is a parameter of the upload and import methods. A missing file returns early, so no method is called.
- `Date.now()` ids are a `stamp` parameter.
- Baremo.AppendVariable: the new variable and its first dimension take the same `stamp`, where the source reads the clock twice; variable ids and dimension ids are looked up separately, so no behaviour depends on it.
- Numbers are exact reals. IEEE-754 rounding is not modelled, so the forcing of the last band to the maximum only matters under rounding (`Baremo.CutAtCount`).
- `toFixed(3)` and `toFixed(2)` turn V and the survey averages into display strings. The model keeps the exact values, and the Aiken verdict, like the source, uses the unrounded V.
- NaN from `parseInt` in the input setters is not modelled. This covers item scale, level count, survey counts and recoder bounds; these setters take an integer. The Aiken confidence input's `parseFloat` NaN is not modelled either.
- Aiken.AikenCalculator.Resize: takes natural counts. A negative count from an input would make `Array(n)` throw, and that is not modelled.
- Aiken.Evaluate: requires a scale whose values are not all equal, and judges > 0 when the matrix is non-empty. In JavaScript those cases divide by zero and show NaN or Infinity.
- Aiken.AikenCalculator.CalculateAiken: carries the same precondition as `Aiken.Evaluate`, for the same reason.
- Survey.GetSummary: in average mode it requires non-empty dimensions and non-empty subject rows, for the same reason.
- Survey.SummarizeSubject: carries the same average-mode precondition as `Survey.GetSummary`.
- The judges and items inputs turn NaN and 0 into 1 (`|| 1`). `Aiken.AikenCalculator.Resize` takes the resulting natural count; the text-to-count step is not modelled.
- Spreadsheet cells are numbers, text or booleans. Date cells, error cells and holes in sparse rows, which `map` skips, are not modelled.
- Cells.CellToInt: truncates every number toward zero. `parseInt` of a number whose decimal text is in exponent form (|x| ≥ 10^21 or 0 < |x| < 10^-6) reads only the digits before the exponent.
- Cells.ParseFloat: does not read the literal "Infinity".
- Cells.IsSpace: covers ASCII white space, NBSP, BOM and the line and paragraph separators. The other Unicode space separators that JavaScript also skips are left out.
- `src/ChatbotAI.jsx` is not part of this model.
