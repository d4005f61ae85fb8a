/**
 * The older orchestrator's module-level tables: default pipelines per
 * variable type, in a `defaultdict` whose factory gives None, and the
 * input-nub handler table, whose one handler is a stub.
 */
module AutoDlConstants {
  import opened Wrappers
  import opened Frames
  import opened Layers
  import DefaultDicts
  import KerasConstants

  type PipelineTable = map<string, Option<seq<Step>>>

  /** `default_sklearn_mapper_pipelines` after its `update`; None means "pass the column through". */
  const DefaultSklearnMapperPipelines: PipelineTable := map[
    "numerical_vars" := Some([MeanImputer, StandardScaler]),
    "categorical_vars" := Some([LabelEncoder]),
    "boolean_vars" := Some([LabelEncoder]),
    "non_transformed_vars" := None
  ]

  /** The registered pipelines, and None (stored on the way) for any other type. */
  lemma DefaultSklearnMapperPipelinesLookups(key: string)
    ensures DefaultDicts.Lookup(DefaultSklearnMapperPipelines, "numerical_vars", None).0 ==
      Some([MeanImputer, StandardScaler])
    ensures DefaultDicts.Lookup(DefaultSklearnMapperPipelines, "categorical_vars", None).0 == Some([LabelEncoder])
    ensures DefaultDicts.Lookup(DefaultSklearnMapperPipelines, "boolean_vars", None).0 == Some([LabelEncoder])
    ensures DefaultDicts.Lookup(DefaultSklearnMapperPipelines, "non_transformed_vars", None).0 == None
    ensures key !in {"numerical_vars", "categorical_vars", "boolean_vars", "non_transformed_vars"} ==>
      DefaultDicts.Lookup(DefaultSklearnMapperPipelines, key, None) == (None, DefaultSklearnMapperPipelines[key := None])
  {
  }

  /** `default_input_nub_type_handlers`: only numerical variables, handled by a one-argument stub. */
  const DefaultInputNubTypeHandlers: map<string, InputHandler> := map["numerical_vars" := NumericStub]

  /**
   * The orchestrator calls a handler with a variable and a frame and unpacks
   * a pair; the stub takes one argument, so every call through this table
   * raises a TypeError.
   */
  lemma DefaultHandlersAlwaysRaise(variableType: string, variable: string, f: Frame)
    requires variableType in DefaultInputNubTypeHandlers
    ensures variableType == "numerical_vars"
    ensures KerasConstants.ApplyHandler(DefaultInputNubTypeHandlers[variableType], variable, f) == Err(TypeError)
  {
  }
}
