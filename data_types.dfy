/**
 * The datatype handlers of the newer package: Abstract, Numerical,
 * Categorical, Boolean, Text and TimeSeries.
 *
 * A handler is a record of its kind, whether it supports being the response
 * variable, and its default preprocessing pipeline. Every output-related
 * method first checks `supportsOutput`, as the Python methods check
 * `self.supports_output`, so a caller that flips the flag sees the other
 * branch.
 */
module DataTypes {
  import opened Wrappers
  import opened Frames
  import opened Layers

  datatype Kind = Abstract | Numerical | Categorical | Boolean | Text | TimeSeries

  datatype DataType = DataType(kind: Kind, supportsOutput: bool, defaultTransformationPipeline: seq<Step>)

  /** What a handler's `__init__` sets, per kind. */
  function NewDataType(kind: Kind): (r: DataType)
    ensures r.kind == kind
    ensures r.supportsOutput <==> kind in {Numerical, Categorical, Boolean}
  {
    match kind
    case Abstract => DataType(Abstract, false, [])
    case Numerical => DataType(Numerical, true, [MeanImputer, StandardScaler])
    case Categorical =>
      DataType(Categorical, true, [StringEncoder, CategoricalImputer("constant", "UNK", true), LabelEncoder])
    case Boolean => DataType(Boolean, true, [BoolConversion])
    case Text => DataType(Text, false, [StringEncoder, EmbeddingVectorizer])
    case TimeSeries => DataType(TimeSeries, false, [TimeSeriesVectorizer])
  }

  /** The default pipelines, step by step, and which handlers may be the response. */
  lemma DefaultPipelines()
    ensures NewDataType(Abstract).defaultTransformationPipeline == []
    ensures NewDataType(Numerical).defaultTransformationPipeline == [MeanImputer, StandardScaler]
    ensures NewDataType(Categorical).defaultTransformationPipeline ==
      [StringEncoder, CategoricalImputer("constant", "UNK", true), LabelEncoder]
    ensures NewDataType(Boolean).defaultTransformationPipeline == [BoolConversion]
    ensures NewDataType(Text).defaultTransformationPipeline == [StringEncoder, EmbeddingVectorizer]
    ensures NewDataType(TimeSeries).defaultTransformationPipeline == [TimeSeriesVectorizer]
  {
  }

  /**
   * `_check_output_support`: a ValueError when output is unsupported;
   * otherwise True, except for Numerical, whose version returns nothing.
   */
  function CheckOutputSupport(dt: DataType): (r: Result<Option<bool>>)
    ensures r.Err? <==> !dt.supportsOutput
    ensures r.Err? ==> r.error == ValueError
    ensures r.Ok? ==> (r.value.None? <==> dt.kind == Numerical)
    ensures r.Ok? && r.value.Some? ==> r.value.value
  {
    if !dt.supportsOutput then Err(ValueError)
    else if dt.kind == Numerical then Ok(None)
    else Ok(Some(true))
  }

  // ---------------------------------------------------------------------------
  // Input nubs
  // ---------------------------------------------------------------------------

  /**
   * Python's builtin `max` over a selection, then `int`: over a
   * one-dimensional selection the largest cell (a ValueError when empty);
   * over a two-dimensional one it iterates rows, so no rows is a ValueError,
   * one-cell rows behave like cells, and wider rows fail (a single row cannot
   * be converted by `int`, several cannot be compared).
   */
  function BuiltinMax(m: Matrix): (r: Result<int>)
    ensures |m.shape| < 2 ==> r == MaxCell(m)
    ensures |m.shape| >= 2 && m.shape[0] > 0 && m.shape[1] == 1 ==> r == MaxCell(m)
    ensures |m.shape| >= 2 && m.shape[0] == 0 ==> r == Err(ValueError)
    ensures |m.shape| >= 2 && m.shape[1] != 1 ==> r.Err?
    ensures r.Ok? ==> r.value in m.cells && forall x :: x in m.cells ==> x <= r.value
  {
    if |m.shape| < 2 then MaxCell(m)
    else if m.shape[0] == 0 then Err(ValueError)
    else if m.shape[1] == 1 then MaxCell(m)
    else if m.shape[0] == 1 || m.shape[1] == 0 then Err(TypeError)
    else Err(ValueError)
  }

  /** `int(min((levels + 1) / 2, 50))` with Python 2's floor division. */
  function EmbeddingOutputDim(levels: int): (r: int)
    ensures r <= 50
    ensures levels >= 1 ==> r >= 1
    ensures levels + 1 < 100 ==> 2 * r <= levels + 1 < 2 * r + 2
    ensures levels + 1 >= 100 ==> r == 50
  {
    var half := (levels + 1) / 2;
    if half < 50 then half else 50
  }

  /** The number of embedding rows the Categorical handler uses: the largest code plus 2. */
  function CategoricalNumLevels(maxCode: int): int {
    maxCode + 2
  }

  /**
   * `input_nub_generator`: the input layer and the last layer of the nub,
   * or the error the selection, `max` or `numpy.max` raises.
   */
  function InputNub(dt: DataType, variable: string, f: Frame): (r: Result<(Option<Layer>, Option<Layer>)>)
    ensures dt.kind == Abstract ==> r == Ok((None, None))
    ensures dt.kind in {Numerical, Boolean} ==> (r.Ok? <==> variable in Names(f))
    ensures dt.kind in {Numerical, Boolean} && r.Ok? ==>
      r.value.0 == r.value.1 == Some(Input(|ColumnsNamedIn(f.cols, {variable})|))
    ensures dt.kind in {Categorical, Numerical, Boolean} && variable !in Names(f) ==> r == Err(KeyError)
    ensures r.Ok? && dt.kind != Abstract ==> r.value.0.Some? && r.value.0.value.Input?
  {
    match dt.kind
    case Abstract => Ok((None, None))
    case Numerical =>
      var m :- SelectColumn(f, variable);
      Ok((Some(Input(Width(m))), Some(Input(Width(m)))))
    case Boolean =>
      var m :- SelectColumn(f, variable);
      Ok((Some(Input(Width(m))), Some(Input(Width(m)))))
    case Categorical =>
      var m :- SelectColumn(f, variable);
      var maxCode :- BuiltinMax(m);
      var levels := CategoricalNumLevels(maxCode);
      var input := Input(Width(m));
      Ok((Some(input), Some(Flatten(Embedding(levels, EmbeddingOutputDim(levels), Width(m), input)))))
    case Text =>
      var m := SelectColumns(f, DerivedColumnNames(f, variable)).value;
      var maxId :- MaxCell(m);
      var input := Input(Width(m));
      Ok((Some(input), Some(BidirectionalLstm(128, Embedding(maxId + 4, 200, Width(m), input)))))
    case TimeSeries =>
      var m := SelectColumns(f, DerivedColumnNames(f, variable)).value;
      var input := Input(Width(m));
      Ok((Some(input), Some(BidirectionalLstm(32, Reshape(Width(m), 1, input)))))
  }

  /**
   * The Categorical input nub fails exactly when the variable is not a
   * column or `max` fails on the selection; otherwise every code fits in the
   * embedding with a spare row (largest code plus 2), its width is at most
   * 50, and its input length is the number of columns with that label.
   */
  lemma CategoricalInputNubSizes(variable: string, f: Frame)
    ensures var r := InputNub(NewDataType(Categorical), variable, f);
      && (r.Ok? <==> variable in Names(f) && BuiltinMax(SelectColumn(f, variable).value).Ok?)
      && (r.Ok? ==> (
          && r.value.1.Some? && r.value.1.value.Flatten?
          && var e := r.value.1.value.source;
          && e.Embedding? && e.outDim <= 50 && e.inputLength == |ColumnsNamedIn(f.cols, {variable})|
          && e.source == r.value.0.value
          && (forall x :: x in SelectColumn(f, variable).value.cells ==> x + 2 <= e.inDim)
          && e.inDim - 2 in SelectColumn(f, variable).value.cells))
  {
  }

  /** The Categorical input nub once its column and its largest code are known. */
  lemma CategoricalInputNubOk(variable: string, f: Frame, m: Matrix, maxCode: int)
    requires SelectColumn(f, variable) == Ok(m) && BuiltinMax(m) == Ok(maxCode)
    ensures var levels := CategoricalNumLevels(maxCode);
      InputNub(NewDataType(Categorical), variable, f) ==
        Ok((Some(Input(Width(m))), Some(Flatten(Embedding(levels, EmbeddingOutputDim(levels), Width(m), Input(Width(m)))))))
  {
  }

  /**
   * The Text input nub reads every column derived from the variable (the
   * variable itself, else the columns prefixed `variable_`), fails exactly
   * when they hold no cells, and sizes the vocabulary to the largest token
   * id plus 4.
   */
  lemma TextInputNubSizes(variable: string, f: Frame)
    ensures var m := SelectColumns(f, DerivedColumnNames(f, variable));
      var r := InputNub(NewDataType(Text), variable, f);
      && m.Ok?
      && (r.Ok? <==> |m.value.cells| > 0)
      && (r.Err? ==> r.error == ValueError)
      && (r.Ok? ==> (
          && r.value.1.Some? && r.value.1.value.BidirectionalLstm?
          && var e := r.value.1.value.source;
          && r.value.1.value.units == 128
          && e.Embedding? && e.outDim == 200 && e.source == r.value.0.value
          && e.inputLength == |ColumnsNamedIn(f.cols, set n | n in DerivedColumnNames(f, variable))|
          && (forall x :: x in m.value.cells ==> x + 4 <= e.inDim)
          && e.inDim - 4 in m.value.cells))
  {
  }

  /**
   * The TimeSeries input nub never fails: it reshapes the derived columns
   * into one channel per step and feeds them to a 32-unit bidirectional LSTM.
   */
  lemma TimeSeriesInputNubShape(variable: string, f: Frame)
    ensures var r := InputNub(NewDataType(TimeSeries), variable, f);
      var w := |ColumnsNamedIn(f.cols, set n | n in DerivedColumnNames(f, variable))|;
      r == Ok((Some(Input(w)), Some(BidirectionalLstm(32, Reshape(w, 1, Input(w))))))
  {
  }

  // ---------------------------------------------------------------------------
  // Output nubs, inverse transforms and losses
  // ---------------------------------------------------------------------------

  /** The distinct values `set(df[variable])` holds: cells of a series, column labels of a frame. */
  function DistinctResponseValues(f: Frame, variable: string): (r: nat)
    requires variable in Names(f)
    ensures |ColumnsNamedIn(f.cols, {variable})| > 1 ==> r == 1
  {
    var matched := ColumnsNamedIn(f.cols, {variable});
    if |matched| == 1 then |set x | x in Cells(matched[0])|
    else 1
  }

  /**
   * `output_nub_generator`: a ValueError when output is unsupported, else
   * the kind's output layer; the Categorical one has one unit per distinct
   * response value plus one for the unknown level.
   */
  function OutputNub(dt: DataType, variable: string, f: Frame): (r: Result<Option<Layer>>)
    ensures !dt.supportsOutput ==> r == Err(ValueError)
    ensures dt.supportsOutput && dt.kind in {Abstract, Text, TimeSeries} ==> r == Ok(None)
    ensures dt.supportsOutput && dt.kind == Numerical ==> r == Ok(Some(Dense(1, Linear)))
    ensures dt.supportsOutput && dt.kind == Boolean ==> r == Ok(Some(Dense(1, Sigmoid)))
    ensures dt.supportsOutput && dt.kind == Categorical ==>
      && (r.Ok? <==> variable in Names(f))
      && (r.Err? ==> r.error == KeyError)
      && (r.Ok? ==> r.value == Some(Dense(DistinctResponseValues(f, variable) + 1, Softmax)))
  {
    var _ :- CheckOutputSupport(dt);
    match dt.kind
    case Numerical => Ok(Some(Dense(1, Linear)))
    case Boolean => Ok(Some(Dense(1, Sigmoid)))
    case Categorical =>
      if variable !in Names(f) then Err(KeyError)
      else Ok(Some(Dense(DistinctResponseValues(f, variable) + 1, Softmax)))
    case _ => Ok(None)
  }

  /** The integers 0 .. k-1. */
  function Range(k: nat): (r: set<int>)
    ensures forall x :: x in r <==> 0 <= x < k
    ensures |r| == k
  {
    if k == 0 then {} else
      var front := Range(k - 1);
      assert k - 1 !in front;
      front + {k - 1}
  }

  /** A label matched by exactly one column is a column name. */
  lemma SingleColumnNamed(variable: string, f: Frame)
    requires |ColumnsNamedIn(f.cols, {variable})| == 1
    ensures variable in Names(f)
  {
    var c := ColumnsNamedIn(f.cols, {variable})[0];
    assert c in ColumnsNamedIn(f.cols, {variable});
    var i :| 0 <= i < |f.cols| && f.cols[i] == c;
    assert Names(f)[i] == variable;
  }

  /** Codes exactly 0 .. k-1 in one column: the selection is that column, one wide, and its largest code is k - 1. */
  lemma SingleColumnMax(variable: string, f: Frame, k: nat) returns (m: Matrix)
    requires |ColumnsNamedIn(f.cols, {variable})| == 1
    requires k > 0
    requires forall x :: x in Cells(ColumnsNamedIn(f.cols, {variable})[0]) <==> x in Range(k)
    ensures SelectColumn(f, variable) == Ok(m) && Width(m) == 1 && BuiltinMax(m) == Ok(k - 1)
  {
    SingleColumnNamed(variable, f);
    var c := ColumnsNamedIn(f.cols, {variable})[0];
    m := SelectColumn(f, variable).value;
    assert m == Matrix([f.rowCount], Cells(c));
    assert k - 1 in Cells(c);
  }

  /** Codes exactly 0 .. k-1 in one column: there are k distinct response values. */
  lemma SingleColumnDistinct(variable: string, f: Frame, k: nat)
    requires |ColumnsNamedIn(f.cols, {variable})| == 1
    requires forall x :: x in Cells(ColumnsNamedIn(f.cols, {variable})[0]) <==> x in Range(k)
    ensures variable in Names(f) && DistinctResponseValues(f, variable) == k
  {
    SingleColumnNamed(variable, f);
    var c := ColumnsNamedIn(f.cols, {variable})[0];
    assert (set x | x in Cells(c)) == Range(k);
  }

  /** Codes exactly 0 .. k-1 in one column: the input embedding has k + 1 rows. */
  lemma DenseCodesInput(variable: string, f: Frame, k: nat)
    requires |ColumnsNamedIn(f.cols, {variable})| == 1
    requires k > 0
    requires forall x :: x in Cells(ColumnsNamedIn(f.cols, {variable})[0]) <==> x in Range(k)
    ensures InputNub(NewDataType(Categorical), variable, f) ==
      Ok((Some(Input(1)), Some(Flatten(Embedding(k + 1, EmbeddingOutputDim(k + 1), 1, Input(1))))))
  {
    var m := SingleColumnMax(variable, f, k);
    CategoricalInputNubOk(variable, f, m, k - 1);
  }

  /** Codes exactly 0 .. k-1 in one column: the output layer has k + 1 units. */
  lemma DenseCodesOutput(variable: string, f: Frame, k: nat)
    requires |ColumnsNamedIn(f.cols, {variable})| == 1
    requires forall x :: x in Cells(ColumnsNamedIn(f.cols, {variable})[0]) <==> x in Range(k)
    ensures OutputNub(NewDataType(Categorical), variable, f) == Ok(Some(Dense(k + 1, Softmax)))
  {
    SingleColumnDistinct(variable, f, k);
  }

  /**
   * With a single response column whose codes are exactly 0 .. k-1 (as a
   * label encoder leaves them), the Categorical input embedding and output
   * layer agree: both have k + 1 rows/units.
   */
  lemma DenseCodesAgree(variable: string, f: Frame, k: nat)
    requires |ColumnsNamedIn(f.cols, {variable})| == 1
    requires k > 0
    requires forall x :: x in Cells(ColumnsNamedIn(f.cols, {variable})[0]) <==> x in Range(k)
    ensures variable in Names(f)
    ensures InputNub(NewDataType(Categorical), variable, f).Ok?
    ensures InputNub(NewDataType(Categorical), variable, f).value.1 ==
      Some(Flatten(Embedding(k + 1, EmbeddingOutputDim(k + 1), 1, Input(1))))
    ensures OutputNub(NewDataType(Categorical), variable, f) == Ok(Some(Dense(k + 1, Softmax)))
  {
    SingleColumnNamed(variable, f);
    DenseCodesInput(variable, f, k);
    DenseCodesOutput(variable, f, k);
  }

  /** Position `k` holds a largest element of `row`. */
  predicate IsArgMax(row: seq<real>, k: nat) {
    k < |row| && forall i :: 0 <= i < |row| ==> row[i] <= row[k]
  }

  /** The first position of a largest element (numpy's `argmax` on one row). */
  function ArgMax(row: seq<real>): (r: nat)
    requires |row| > 0
    ensures IsArgMax(row, r)
    ensures forall i :: 0 <= i < r ==> row[i] < row[r]
  {
    if |row| == 1 then 0
    else
      var front := row[..|row| - 1];
      var best := ArgMax(front);
      if row[|row| - 1] > front[best] then |row| - 1 else best
  }

  /** What an inverse transform gives back: class indices, or values in the response's scale. */
  datatype Prediction = Indices(indices: seq<nat>) | Values(values: seq<seq<real>>)

  /**
   * `output_inverse_transform`: a ValueError when output is unsupported;
   * Categorical needs a 'labelencoder' step and returns each row's first arg-max
   * index (not the label it encodes); Numerical needs a 'standardscaler' step
   * and hands the predictions to its inverse (foreign, given as
   * `scalerInverse`); Boolean returns the predictions unchanged; the others
   * return None.
   */
  function OutputInverseTransform(dt: DataType, yPred: seq<seq<real>>, namedSteps: set<string>,
                                  scalerInverse: seq<seq<real>> -> seq<seq<real>>): (r: Result<Option<Prediction>>)
    ensures !dt.supportsOutput ==> r == Err(ValueError)
    ensures dt.supportsOutput && dt.kind in {Abstract, Text, TimeSeries} ==> r == Ok(None)
    ensures dt.supportsOutput && dt.kind == Boolean ==> r == Ok(Some(Values(yPred)))
    ensures dt.supportsOutput && dt.kind == Numerical ==>
      r == if "standardscaler" in namedSteps then Ok(Some(Values(scalerInverse(yPred)))) else Err(KeyError)
    ensures dt.supportsOutput && dt.kind == Categorical ==>
      && ("labelencoder" !in namedSteps ==> r == Err(KeyError))
      && ("labelencoder" in namedSteps ==> (r.Ok? <==> forall i :: 0 <= i < |yPred| ==> |yPred[i]| > 0))
      && (r.Ok? ==> (
          && r.value.Some? && r.value.value.Indices? && |r.value.value.indices| == |yPred|
          && forall i :: 0 <= i < |yPred| ==>
               && IsArgMax(yPred[i], r.value.value.indices[i])
               && forall k :: 0 <= k < r.value.value.indices[i] ==> yPred[i][k] < yPred[i][r.value.value.indices[i]]))
  {
    var _ :- CheckOutputSupport(dt);
    match dt.kind
    case Categorical =>
      if "labelencoder" !in namedSteps then Err(KeyError)
      else if exists i :: 0 <= i < |yPred| && |yPred[i]| == 0 then Err(ValueError)
      else Ok(Some(Indices(seq(|yPred|, i requires 0 <= i < |yPred| => ArgMax(yPred[i])))))
    case Numerical =>
      if "standardscaler" !in namedSteps then Err(KeyError)
      else Ok(Some(Values(scalerInverse(yPred))))
    case Boolean => Ok(Some(Values(yPred)))
    case _ => Ok(None)
  }

  /** `output_suggested_loss`: a ValueError when output is unsupported, else the kind's loss. */
  function OutputSuggestedLoss(dt: DataType): (r: Result<Option<Loss>>)
    ensures !dt.supportsOutput ==> r == Err(ValueError)
    ensures dt.supportsOutput ==> r.Ok? && (r.value.Some? <==> dt.kind in {Numerical, Categorical, Boolean})
    ensures dt.supportsOutput && dt.kind == Categorical ==> r.value == Some(SparseCategoricalCrossentropy)
    ensures dt.supportsOutput && dt.kind == Numerical ==> r.value == Some(MeanSquaredError)
    ensures dt.supportsOutput && dt.kind == Boolean ==> r.value == Some(BinaryCrossentropy)
  {
    var _ :- CheckOutputSupport(dt);
    match dt.kind
    case Categorical => Ok(Some(SparseCategoricalCrossentropy))
    case Numerical => Ok(Some(MeanSquaredError))
    case Boolean => Ok(Some(BinaryCrossentropy))
    case _ => Ok(None)
  }

  /**
   * The handlers built by their constructors: the three that support output
   * give a layer, an inverse and a loss; Text, TimeSeries and Abstract raise
   * a ValueError from every output method.
   */
  lemma OutputGating(kind: Kind, variable: string, f: Frame, yPred: seq<seq<real>>, namedSteps: set<string>,
                     scalerInverse: seq<seq<real>> -> seq<seq<real>>)
    ensures var dt := NewDataType(kind);
      kind in {Abstract, Text, TimeSeries} <==>
        && OutputNub(dt, variable, f) == Err(ValueError)
        && OutputInverseTransform(dt, yPred, namedSteps, scalerInverse) == Err(ValueError)
        && OutputSuggestedLoss(dt) == Err(ValueError)
        && CheckOutputSupport(dt) == Err(ValueError)
  {
  }
}
