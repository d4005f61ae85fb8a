/**
 * Abstract stand-ins for the deep-learning and preprocessing objects the
 * package builds. Only their kinds and sizes are kept: a layer is a record of
 * its sizes and of the layer it is applied to, a preprocessing pipeline is the
 * ordered list of its step kinds, and a loss is a name.
 */
module Layers {
  import opened Wrappers

  datatype Activation = Linear | Softmax | Sigmoid

  /** A network layer, applied to the layer it holds as `source`. */
  datatype Layer =
    | Input(width: nat)
    | Embedding(inDim: int, outDim: int, inputLength: nat, source: Layer)
    | Flatten(source: Layer)
    | Reshape(steps: nat, channels: nat, source: Layer)
    | BidirectionalLstm(units: nat, source: Layer)
    | Concatenate(sources: seq<Layer>)
    | Dense(units: nat, activation: Activation)

  /** A preprocessing step, by kind; fitted parameters live in foreign code. */
  datatype Step =
    | MeanImputer
    | StandardScaler
    | LabelEncoder
    | StringEncoder
    | CategoricalImputer(strategy: string, fillValue: string, fillUnknownLabels: bool)
    | BoolConversion
    | EmbeddingVectorizer
    | TimeSeriesVectorizer

  /**
   * A DataFrameMapper, by its feature list: each entry is the column
   * selection and the pipeline (None for a column passed through untouched).
   */
  datatype Mapper = DataFrameMapper(features: seq<(seq<string>, Option<seq<Step>>)>, dfOut: bool)

  datatype Loss = MeanSquaredError | SparseCategoricalCrossentropy | BinaryCrossentropy

  /**
   * The input-nub handlers that the two handler tables refer to: the stub of
   * the older orchestrator and the two handlers of the newer constants module.
   */
  datatype InputHandler = NumericStub | NumericHandler | CategoricalHandler
}
