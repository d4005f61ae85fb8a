/**
 * The older orchestrator: an object that registers variables by type,
 * builds a DataFrameMapper with one feature per variable, and, when fitted,
 * builds the input layers, the combined input nub and the output layer.
 *
 * The mapper's own fitting and transforming belong to foreign code: `fit`
 * discards their results, and `transform` receives what the fitted mapper
 * does to a frame as the function `mapperTransform`.
 */
module AutoDlAutomater {
  import opened Wrappers
  import opened Frames
  import opened Registry
  import Layers
  import DefaultDicts
  import KerasConstants
  import AutoDlConstants
  import opened AutoDlSpec

  /** The five variable types, in the order the constructor registers them. */
  const VariableTypes: seq<string> :=
    ["numerical_vars", "categorical_vars", "boolean_vars", "datetime_vars", "non_transformed_vars"]

  /** `_variable_type_dict` as the constructor builds it. */
  function VariableTypeDict(numerical: seq<string>, categorical: seq<string>, boolean: seq<string>,
                            datetime: seq<string>, nonTransformed: seq<string>): (r: TypeMap)
    ensures |r| == |VariableTypes| && DistinctKeys(r)
    ensures forall i :: 0 <= i < |r| ==> r[i].0 == VariableTypes[i]
  {
    [("numerical_vars", numerical), ("categorical_vars", categorical), ("boolean_vars", boolean),
     ("datetime_vars", datetime), ("non_transformed_vars", nonTransformed)]
  }

  /**
   * Building the mapper for the constructor's registry reads every one of
   * the five types, so the only type it adds to the pipeline table is the
   * unregistered 'datetime_vars', with None.
   */
  lemma ConstructedPipelines(numerical: seq<string>, categorical: seq<string>, boolean: seq<string>,
                             datetime: seq<string>, nonTransformed: seq<string>)
    ensures PipelinesAfter(AutoDlConstants.DefaultSklearnMapperPipelines,
                           VariableTypeDict(numerical, categorical, boolean, datetime, nonTransformed)) ==
            AutoDlConstants.DefaultSklearnMapperPipelines["datetime_vars" := None]
  {
    var m := VariableTypeDict(numerical, categorical, boolean, datetime, nonTransformed);
    var t := AutoDlConstants.DefaultSklearnMapperPipelines;
    assert t.Keys == {"numerical_vars", "categorical_vars", "boolean_vars", "non_transformed_vars"};
    assert KeysOf(m) == t.Keys + {"datetime_vars"} by {
      assert m[0].0 == VariableTypes[0] && m[1].0 == VariableTypes[1] && m[2].0 == VariableTypes[2];
      assert m[3].0 == VariableTypes[3] && m[4].0 == VariableTypes[4];
    }
    PipelinesAfterAddsOne(t, m, "datetime_vars");
  }

  /** A pandas DataFrame the caller holds and `transform` may change. */
  class DataFrame {
    var frame: Frame

    constructor (frame: Frame)
      ensures this.frame == frame
    {
      this.frame := frame;
    }
  }

  class Automater {
    const responseVar: Option<string>
    var fitted: bool
    const dfOut: bool
    const variableTypeDict: TypeMap
    const userProvidedVariables: seq<string>
    var sklearnMapperPipelines: PipelineTable
    var sklearnPandasMapper: Layers.Mapper
    var inputNubTypeHandlers: map<string, Layers.InputHandler>
    var inputLayers: Option<seq<Layers.Layer>>
    var inputNub: Option<Layers.Layer>
    var outputNub: Option<Layers.Layer>

    /** The part of `__init__` after the registry passed its check, given the module's pipeline and handler tables. */
    constructor Init(variableTypeDict: TypeMap, responseVar: Option<string>, dfOut: bool,
                     pipelines: PipelineTable, handlers: map<string, Layers.InputHandler>)
      ensures this.responseVar == responseVar && this.dfOut == dfOut
      ensures fitted == false
      ensures this.variableTypeDict == variableTypeDict
      ensures userProvidedVariables == Flatten(variableTypeDict)
      ensures sklearnMapperPipelines == PipelinesAfter(pipelines, variableTypeDict)
      ensures sklearnPandasMapper == Layers.DataFrameMapper(MapperFeatures(pipelines, variableTypeDict), true)
      ensures inputNubTypeHandlers == handlers
      ensures inputLayers == None && inputNub == None && outputNub == None
    {
      this.responseVar := responseVar;
      fitted := false;
      this.dfOut := dfOut;
      this.variableTypeDict := variableTypeDict;
      userProvidedVariables := Flatten(variableTypeDict);
      sklearnMapperPipelines := pipelines;
      inputNubTypeHandlers := handlers;
      inputLayers := None;
      inputNub := None;
      outputNub := None;
      new;
      sklearnPandasMapper := CreateSklearnPandasMapper(variableTypeDict);
    }

    /**
     * `Automater(numerical_vars=..., ..., response_var=..., df_out=...)`:
     * the ValueError of the registry check when two lists overlap, otherwise
     * a new unfitted instance whose user-provided variables are all listed
     * variables and whose mapper has one feature per variable.
     */
    static method New(numerical: seq<string>, categorical: seq<string>, boolean: seq<string>,
                      datetime: seq<string>, nonTransformed: seq<string>,
                      responseVar: Option<string>, dfOut: bool) returns (r: Result<Automater>)
      ensures var check := CheckVariableListsAreValid(VariableTypeDict(numerical, categorical, boolean, datetime, nonTransformed));
        && (r.Ok? <==> check.Ok?)
        && (r.Err? ==> r.error == check.error && r.error.IsValueError())
      ensures r.Ok? ==> (
        var a := r.value;
        && fresh(a)
        && a.variableTypeDict == VariableTypeDict(numerical, categorical, boolean, datetime, nonTransformed)
        && a.responseVar == responseVar && a.dfOut == dfOut && !a.fitted
        && a.userProvidedVariables == Flatten(a.variableTypeDict)
        && a.sklearnMapperPipelines == AutoDlConstants.DefaultSklearnMapperPipelines["datetime_vars" := None]
        && a.sklearnPandasMapper ==
             Layers.DataFrameMapper(MapperFeatures(AutoDlConstants.DefaultSklearnMapperPipelines, a.variableTypeDict), true)
        && a.inputNubTypeHandlers == AutoDlConstants.DefaultInputNubTypeHandlers
        && a.inputLayers == None && a.inputNub == None && a.outputNub == None)
    {
      var dict := VariableTypeDict(numerical, categorical, boolean, datetime, nonTransformed);
      var check := CheckVariableListsAreValid(dict);
      if check.Err? {
        return Err(check.error);
      }
      ConstructedPipelines(numerical, categorical, boolean, datetime, nonTransformed);
      var a := new Automater.Init(dict, responseVar, dfOut, AutoDlConstants.DefaultSklearnMapperPipelines,
                                  AutoDlConstants.DefaultInputNubTypeHandlers);
      r := Ok(a);
    }

    /**
     * `_create_sklearn_pandas_mapper`: one ([variable], pipeline) feature per
     * listed variable, type after type, where the pipeline is read once per
     * type from the defaultdict of pipelines (which stores None for an
     * unregistered type).
     */
    method CreateSklearnPandasMapper(dict: TypeMap) returns (mapper: Layers.Mapper)
      modifies this`sklearnMapperPipelines
      ensures mapper == Layers.DataFrameMapper(MapperFeatures(old(sklearnMapperPipelines), dict), true)
      ensures sklearnMapperPipelines == PipelinesAfter(old(sklearnMapperPipelines), dict)
    {
      ghost var t0 := sklearnMapperPipelines;
      PipelinesAfterNone(t0);
      var transformationList: seq<Feature> := [];
      var i := 0;
      while i < |dict|
        invariant 0 <= i <= |dict|
        invariant transformationList == MapperFeatures(t0, dict[..i])
        invariant sklearnMapperPipelines == PipelinesAfter(t0, dict[..i])
      {
        var variableType := dict[i].0;
        var variableList := dict[i].1;
        PipelinesAfterSnoc(t0, dict, i);
        var read := DefaultDicts.Lookup(sklearnMapperPipelines, variableType, None);
        var defaultPipeline := read.0;
        sklearnMapperPipelines := read.1;
        ghost var before := transformationList;
        var j := 0;
        while j < |variableList|
          invariant 0 <= j <= |variableList|
          invariant transformationList == before + Entries(variableList[..j], defaultPipeline)
          modifies {}
        {
          EntriesSnoc(before, variableList, defaultPipeline, j);
          transformationList := transformationList + [([variableList[j]], defaultPipeline)];
          j := j + 1;
        }
        assert variableList[..j] == variableList;
        MapperFeaturesSnoc(t0, dict, i);
        i := i + 1;
      }
      assert dict[..i] == dict;
      mapper := Layers.DataFrameMapper(transformationList, true);
    }

    /** One pass of the inner loop of `create_input_nub`: one variable's nub, appended to `acc`. */
    method AddNub(handler: Layers.InputHandler, variable: string, f: Frame, acc: Built) returns (r: Result<Built>)
      ensures r == VarStep(handler, userProvidedVariables, responseVar, variable, f, acc)
    {
      if variable !in userProvidedVariables || variable !in Names(f) {
        return Err(ValueError);
      }
      if responseVar == Some(variable) {
        return Ok(acc);
      }
      var nub := KerasConstants.ApplyHandler(handler, variable, f);
      if nub.Err? {
        return Err(nub.error);
      }
      r := Ok((acc.0 + [nub.value.0], acc.1 + [nub.value.1]));
    }

    /** The inner loop of `create_input_nub`: the nubs of one variable list, appended to `acc`. */
    method AddNubs(handler: Layers.InputHandler, variableList: seq<string>, f: Frame, acc: Built)
      returns (r: Result<Built>)
      ensures r == VarsScan(handler, userProvidedVariables, responseVar, variableList, f, acc)
    {
      var built := acc;
      var j := 0;
      while j < |variableList|
        invariant 0 <= j <= |variableList|
        invariant VarsScan(handler, userProvidedVariables, responseVar, variableList[..j], f, acc) == Ok(built)
      {
        VarsScanSnoc(handler, userProvidedVariables, responseVar, variableList, j, f, acc, built);
        var next := AddNub(handler, variableList[j], f, built);
        if next.Err? {
          VarsScanErrPersists(handler, userProvidedVariables, responseVar, variableList, j + 1, f, acc);
          return Err(next.error);
        }
        built := next.value;
        j := j + 1;
      }
      assert variableList[..j] == variableList;
      r := Ok(built);
    }

    /**
     * `_create_input_nub`: for each non-empty list, its type's handler
     * applied to each variable that is not the response, after checking the
     * variable is user-provided and a column; then the tips combined.
     */
    method CreateInputNub(dict: TypeMap, f: Frame) returns (r: Result<(seq<Layers.Layer>, Option<Layers.Layer>)>)
      ensures r == InputNubOutcome(inputNubTypeHandlers, userProvidedVariables, responseVar, dict, f)
    {
      var handlers := inputNubTypeHandlers;
      var built: Built := ([], []);
      var i := 0;
      while i < |dict|
        invariant 0 <= i <= |dict|
        invariant InputNubScan(handlers, userProvidedVariables, responseVar, dict[..i], f) == Ok(built)
      {
        var variableType := dict[i].0;
        var variableList := dict[i].1;
        InputNubScanSnoc(handlers, userProvidedVariables, responseVar, dict, i, f, built);
        if |variableList| <= 0 {
          i := i + 1;
          continue;
        }
        if variableType !in handlers {
          InputNubScanErrPersists(handlers, userProvidedVariables, responseVar, dict, i + 1, f);
          return Err(ValueError);
        }
        var next := AddNubs(handlers[variableType], variableList, f, built);
        if next.Err? {
          InputNubScanErrPersists(handlers, userProvidedVariables, responseVar, dict, i + 1, f);
          return Err(next.error);
        }
        built := next.value;
        i := i + 1;
      }
      assert dict[..i] == dict;
      r := Ok((built.0, CombineTips(built.1)));
    }

    /**
     * `fit`: a KeyError when the mapper's `fit` selects a column the frame
     * lacks (its results are otherwise discarded); then builds the input
     * layers and nub from the registry and the frame; when a response name
     * `y` is given, also the output layer; on success marks the instance
     * fitted. An error from the output layer leaves the input layers
     * already set.
     */
    method Fit(f: Frame, y: Option<string>) returns (r: Result<()>)
      modifies this`inputLayers, this`inputNub, this`outputNub, this`fitted
      ensures !MapperSelects(sklearnPandasMapper, f) ==>
        r == Err(KeyError) && inputLayers == old(inputLayers) && inputNub == old(inputNub)
      ensures MapperSelects(sklearnPandasMapper, f) ==> (
        var nub := InputNubOutcome(inputNubTypeHandlers, userProvidedVariables, responseVar, variableTypeDict, f);
        && (r.Ok? <==> nub.Ok? && (y.None? || CreateOutputNub(variableTypeDict, y.value).Ok?))
        && (nub.Err? ==> r == Err(nub.error))
        && (nub.Ok? && y.Some? && r.Err? ==> r == Err(CreateOutputNub(variableTypeDict, y.value).error))
        && (nub.Ok? ==> inputLayers == Some(nub.value.0) && inputNub == nub.value.1)
        && (nub.Err? ==> inputLayers == old(inputLayers) && inputNub == old(inputNub)))
      ensures outputNub == if r.Ok? && y.Some? then Some(CreateOutputNub(variableTypeDict, y.value).value)
                           else old(outputNub)
      ensures fitted == (old(fitted) || r.Ok?)
    {
      if !MapperSelects(sklearnPandasMapper, f) {
        return Err(KeyError);
      }
      var nub := CreateInputNub(variableTypeDict, f);
      if nub.Err? {
        return Err(nub.error);
      }
      inputLayers := Some(nub.value.0);
      inputNub := nub.value.1;
      if y.Some? {
        var output := CreateOutputNub(variableTypeDict, y.value);
        if output.Err? {
          return Err(output.error);
        }
        outputNub := Some(output.value);
      }
      fitted := true;
      r := Ok(());
    }

    /**
     * `transform`: a ValueError naming the missing user-provided variables
     * other than the response; a missing response is first added to the
     * caller's frame as a None-filled column and later dropped from the
     * result.
     */
    method Transform(df: DataFrame, mapperTransform: Frame -> Frame) returns (r: Result<TransformOutput>)
      modifies df
      ensures df.frame == FrameAfterTransform(userProvidedVariables, responseVar, old(df.frame))
      ensures r == TransformOutcome(userProvidedVariables, responseVar, dfOut, old(df.frame), mapperTransform)
    {
      var responseVarFilled := false;
      var missingVars := Missing(userProvidedVariables, df.frame);
      if responseVar.Some? && responseVar.value in missingVars {
        missingVars := missingVars - {responseVar.value};
        df.frame := AddNullColumn(df.frame, responseVar.value);
        responseVarFilled := true;
      }
      if |missingVars| > 0 {
        return Err(MissingVariables(missingVars));
      }
      var transformed := mapperTransform(df.frame);
      if responseVarFilled {
        var dropped := Drop(transformed, responseVar.value);
        if dropped.Err? {
          return Err(dropped.error);
        }
        transformed := dropped.value;
      }
      if dfOut {
        return Ok(FrameOut(transformed));
      }
      if responseVar.Some? && !responseVarFilled {
        var x := Drop(transformed, responseVar.value);
        if x.Err? {
          return Err(x.error);
        }
        if |ColumnsNamedIn(transformed.cols, {responseVar.value})| > 1 {
          return Err(AttributeError);
        }
        var y := SelectColumn(transformed, responseVar.value).value;
        r := Ok(Arrays(x.value, Some(y)));
      } else {
        r := Ok(Arrays(transformed, None));
      }
    }
  }

  /**
   * With the orchestrator's own handler table, fitting succeeds only when
   * every listed variable is the response; the fitted instance then has no
   * input layers and no input nub.
   */
  lemma DefaultFitBuildsNoInputs(a: Automater, f: Frame)
    requires a.inputNubTypeHandlers == AutoDlConstants.DefaultInputNubTypeHandlers
    requires InputNubOutcome(a.inputNubTypeHandlers, a.userProvidedVariables, a.responseVar, a.variableTypeDict, f).Ok?
    ensures InputVariables(a.variableTypeDict, a.responseVar) == []
    ensures InputNubOutcome(a.inputNubTypeHandlers, a.userProvidedVariables, a.responseVar, a.variableTypeDict, f) ==
      Ok(([], None))
  {
    DefaultHandlersBuildNothing(a.userProvidedVariables, a.responseVar, a.variableTypeDict, f);
  }
}
