/**
 * The newer package's module-level tables: the default preprocessing
 * pipeline per variable type, the two input-nub handlers, and the table that
 * maps a variable type to its handler.
 *
 * The pipeline table is a `defaultdict` whose factory gives an empty list, so
 * a lookup of an unregistered type inserts that type with an empty pipeline.
 */
module KerasConstants {
  import opened Wrappers
  import opened Frames
  import opened Layers
  import DataTypes
  import DefaultDicts

  type PipelineTable = map<string, seq<Step>>

  /** `default_sklearn_mapper_pipelines` after its `update`. */
  const DefaultSklearnMapperPipelines: PipelineTable := map[
    "numerical_vars" := [MeanImputer, StandardScaler],
    "categorical_vars" := [LabelEncoder],
    "boolean_vars" := [LabelEncoder],
    "non_transformed_vars" := []
  ]

  /** The registered pipelines, and an empty pipeline for any other type. */
  lemma DefaultSklearnMapperPipelinesLookups(key: string)
    ensures DefaultDicts.Lookup(DefaultSklearnMapperPipelines, "numerical_vars", []).0 == [MeanImputer, StandardScaler]
    ensures DefaultDicts.Lookup(DefaultSklearnMapperPipelines, "categorical_vars", []).0 == [LabelEncoder]
    ensures DefaultDicts.Lookup(DefaultSklearnMapperPipelines, "boolean_vars", []).0 == [LabelEncoder]
    ensures DefaultDicts.Lookup(DefaultSklearnMapperPipelines, "non_transformed_vars", []).0 == []
    ensures key !in {"numerical_vars", "categorical_vars", "boolean_vars", "non_transformed_vars"} ==>
      DefaultDicts.Lookup(DefaultSklearnMapperPipelines, key, []) == ([], DefaultSklearnMapperPipelines[key := []])
  {
  }

  /**
   * `input_nub_numeric_handler`: a KeyError when the variable is not a
   * column; otherwise one input layer, as wide as the selection, returned as
   * both the input and the tip.
   */
  function InputNubNumericHandler(variable: string, f: Frame): (r: Result<(Layer, Layer)>)
    ensures r.Ok? <==> variable in Names(f)
    ensures r.Err? ==> r.error == KeyError
    ensures r.Ok? ==> r.value.0 == r.value.1 == Input(|ColumnsNamedIn(f.cols, {variable})|)
  {
    var m :- SelectColumn(f, variable);
    Ok((Input(Width(m)), Input(Width(m))))
  }

  /**
   * `input_nub_categorical_handler`: like the Categorical data type's input
   * nub, but with one embedding row per code up to the largest (the largest
   * code plus 1), leaving no row beyond the codes seen.
   */
  function InputNubCategoricalHandler(variable: string, f: Frame): (r: Result<(Layer, Layer)>)
    ensures variable !in Names(f) ==> r == Err(KeyError)
    ensures r.Ok? <==> variable in Names(f) && DataTypes.BuiltinMax(SelectColumn(f, variable).value).Ok?
    ensures r.Ok? ==> r.value.0 == Input(|ColumnsNamedIn(f.cols, {variable})|)
    ensures r.Ok? ==>
      && r.value.1.Flatten? && r.value.1.source.Embedding?
      && var e := r.value.1.source;
      && e.inDim == DataTypes.BuiltinMax(SelectColumn(f, variable).value).value + 1
      && e.outDim == DataTypes.EmbeddingOutputDim(e.inDim)
      && e.inputLength == |ColumnsNamedIn(f.cols, {variable})|
      && e.source == r.value.0
  {
    var m :- SelectColumn(f, variable);
    var maxCode :- DataTypes.BuiltinMax(m);
    var levels := maxCode + 1;
    var input := Input(Width(m));
    Ok((input, Flatten(Embedding(levels, DataTypes.EmbeddingOutputDim(levels), Width(m), input))))
  }

  /** The numeric handler builds the same layers as the Numerical data type's input nub. */
  lemma NumericHandlerMatchesNumerical(variable: string, f: Frame)
    ensures var h := InputNubNumericHandler(variable, f);
      var d := DataTypes.InputNub(DataTypes.NewDataType(DataTypes.Numerical), variable, f);
      && (h.Ok? <==> d.Ok?)
      && (h.Ok? ==> d.value == (Some(h.value.0), Some(h.value.1)))
  {
  }

  /**
   * The two categorical input nubs fail on the same frames and build the
   * same input and the same shape of tip, but this handler's embedding has
   * one row fewer: its largest row index is the largest code, so a code
   * above every code seen (such as an unknown level) has no row.
   */
  lemma CategoricalLevelsDisagree(variable: string, f: Frame)
    ensures var h := InputNubCategoricalHandler(variable, f);
      var d := DataTypes.InputNub(DataTypes.NewDataType(DataTypes.Categorical), variable, f);
      && (h.Ok? <==> d.Ok?)
      && (h.Ok? ==> (
          && d.value.0 == Some(h.value.0)
          && d.value.1.Some? && d.value.1.value.Flatten? && d.value.1.value.source.Embedding?
          && h.value.1.Flatten? && h.value.1.source.Embedding?
          && h.value.1.source.inDim == d.value.1.value.source.inDim - 1
          && h.value.1.source.inDim - 1 in SelectColumn(f, variable).value.cells
          && forall x :: x in SelectColumn(f, variable).value.cells ==> x < h.value.1.source.inDim))
  {
  }

  /** `default_input_nub_type_handlers`: exactly numerical and categorical variables have a handler. */
  const DefaultInputNubTypeHandlers: map<string, InputHandler> := map[
    "numerical_vars" := NumericHandler,
    "categorical_vars" := CategoricalHandler
  ]

  /** Calling a handler of this table with a variable and a frame. */
  function ApplyHandler(h: InputHandler, variable: string, f: Frame): (r: Result<(Layer, Layer)>)
    ensures h == NumericHandler ==> r == InputNubNumericHandler(variable, f)
    ensures h == CategoricalHandler ==> r == InputNubCategoricalHandler(variable, f)
    ensures h == NumericStub ==> r == Err(TypeError)
  {
    match h
    case NumericHandler => InputNubNumericHandler(variable, f)
    case CategoricalHandler => InputNubCategoricalHandler(variable, f)
    case NumericStub => Err(TypeError)
  }
}
