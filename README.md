# keras-pandas, modelled in Dafny

keras-pandas sits between a pandas dataframe and a Keras network. The caller
says which columns are numerical, categorical, boolean, text, time-series or
datetime. The package then builds a preprocessing pipeline and a network input
for each column, an output layer, a loss and an inverse transform for the
response column. This project models the logic between those Keras and
scikit-learn calls and proves what that logic promises.

- **`Transformations`** models the text-to-index vectoriser
  (`EmbeddingVectorizer`), as a class that holds the token table and the next
  free id:
  - the sentinels `UNK` = 0 and `__PAD__` = 1;
  - dense id assignment during `fit`, in first-occurrence order;
  - lookups during `transform` that insert the token with 0, as a
    `defaultdict(int)` does;
  - truncating or padding each row to the sequence length;
  - the integer median that picks that length.
- **`Registry`** models the disjointness check over the variable-type
  registry (`check_variable_list_are_valid`). Python dicts are modelled as
  sequences of (key, list) entries in iteration order.
- **`KerasAutomater`** models the newer `Automater`, as far as it goes:
  - construction, including the aliasing of the caller's list that `reduce`
    causes when there is a single type list;
  - the configuration check;
  - the `fitted` and response-variable guards.
- **`AutoDlAutomater`** models the older orchestrator as a class: the
  constructor, `_create_sklearn_pandas_mapper`, `_create_input_nub`, `fit` and
  `transform`.
- **`AutoDlSpec`** holds the functions those methods are proved against, and
  the lemmas about them.
- **`DataTypes`** models the six datatype handlers:
  - output-support gating;
  - input widths;
  - selection of derived columns;
  - embedding sizes;
  - output units;
  - the arg-max inverse;
  - suggested losses.
- **`KerasConstants`** and **`AutoDlConstants`** model the older handler and
  pipeline tables.
- **`PoorMansFft`** models the frequency-to-seconds table and the input-shape
  check of the `PoorMansFFT` layer.
- **`Frames`**, **`Layers`**, **`DefaultDicts`** and **`Wrappers`** supply
  the vocabulary:
  - dataframes as named integer columns;
  - Keras layers and sklearn steps as abstract records of their sizes and
    kinds;
  - `defaultdict` reads;
  - `Result`/`Option`, with the Python exception classes as error values.

Every operation that can raise returns a `Result` whose error names the
exception class. Where the source's message carries data, the error carries
it too: the overlapping lists, or the missing variables.

The source mixes revisions. The model follows the code as written at each of
the following places:

- The categorical embedding has largest code + 2 rows in
  `keras_pandas/data_types/Categorical.py:45`, but largest code + 1 in
  `keras_pandas/constants.py:47`. The categorical output layer, by contrast, has
  distinct labels + 1 units, with the extra unit commented as the UNK level
  (`keras_pandas/data_types/Categorical.py:78-79`).
  - `KerasConstants.CategoricalLevelsDisagree` proves that the two builders
    fail on the same frames.
  - On success they differ by exactly one row, and the `constants.py` table
    has no row for a code above every code it saw.
  - `DataTypes.DenseCodesAgree` shows that for dense codes 0..k-1, the
    newer handler gives k+1 rows and an output layer of k+1 units.
- The newer `Automater.fit` (`keras_pandas/Automater.py:27-34`) never sets
  `fitted`: it ends with a TODO to set it (`keras_pandas/Automater.py:33`).
  - Every `transform`, `suggest_loss` and `inverse_transform_output` raises
    AssertionError (`KerasAutomater.FitThenPredict`).
  - `fit` returns None, so `fit_transform` always raises AttributeError.
  - The older orchestrator's `fit` does set `fitted`.
- The older orchestrator's own handler table maps `numerical_vars` to a
  one-argument stub, which `_create_input_nub` calls with two arguments.
  - `AutoDlConstants.DefaultHandlersAlwaysRaise` and
    `AutoDlAutomater.DefaultFitBuildsNoInputs` prove the result: with that
    table, fitting succeeds only when no variable needs an input layer.

## Model

| member | source | states |
|---|---|---|
| `Transformations.Pad` | keras_pandas/transformations.py:87-100 | The result has exactly `length` elements: the input's elements while they last, then `padChar`. An input of exactly that length is returned unchanged. A string is a sequence of characters here, so the string case is the same function. |
| `Transformations.PadIdempotent` | keras_pandas/transformations.py:87-100 | Padding an already padded sequence to the same length changes nothing. |
| `Transformations.PadKeepsPrefix` | keras_pandas/transformations.py:95-96 | A sequence at least `length` long is truncated to its first `length` elements. |
| `Transformations.Sort` | keras_pandas/transformations.py:63 | Sorting the lengths for the median gives a sorted permutation of them. |
| `Transformations.CountSort` | keras_pandas/transformations.py:63 | Sorting does not change how many lengths lie at or below, and at or above, any bound. |
| `Transformations.Median` | keras_pandas/transformations.py:60-66 | The sequence length picked from the row lengths is a median: at least half the lengths are at most it, and at least half are at least it. |
| `Transformations.MedianOfEqualLengths` | keras_pandas/transformations.py:62-63 | When every row has `k` tokens, the picked length is `k`. |
| `Transformations.TokenCounts` | keras_pandas/transformations.py:62 | One count per row, equal to the number of tokens in that row. |
| `Transformations.GenerateEmbeddingSequenceLength` | keras_pandas/transformations.py:60-66 | Raises ValueError exactly when there are no rows (the median of nothing cannot be made an int). Otherwise it gives a median of the token counts. |
| `Transformations.AssignedIdsDistinct` | keras_pandas/transformations.py:39-42 | In a valid table, two different tokens never share an id of 2 or more, and every such id is below the next free id. |
| `Transformations.NewTokens` | keras_pandas/transformations.py:39-42 | The tokens `fit` adds are exactly the tokens not yet in the table, each listed once. |
| `Transformations.NewTokensOrder` | keras_pandas/transformations.py:39-42 | The new tokens are listed in order of their first occurrence in the fitted tokens. |
| `Transformations.AssignIdsFollowFirstOccurrence` | keras_pandas/transformations.py:36-42 | Of two tokens `fit` adds, the one that occurs first in the tokens gets the smaller id. |
| `Transformations.AssignIdsSpec` | keras_pandas/transformations.py:36-42 | After `fit`'s loop, the next id has advanced by the number of new tokens. The table holds the old tokens and the fitted ones, and old tokens keep their ids. The i-th new token gets the old next id plus i. |
| `Transformations.AssignIdsIssued` | keras_pandas/transformations.py:39-42 | Every token issued so far, including those issued by this `fit`, has id 2 plus its position in issue order. |
| `Transformations.AssignIdsInverseAt` | keras_pandas/transformations.py:39-42 | After `fit`, a token's id is below 2 plus the number of issued tokens. An id of 2 or more maps back to the token issued at that position, and id 1 belongs only to `__PAD__`. |
| `Transformations.AssignIdsInverse` | keras_pandas/transformations.py:18-20 | The per-token inverse above, for every token in the table at once. |
| `Transformations.AssignIdsValid` | keras_pandas/transformations.py:39-42 | `fit` keeps the table invariant: sentinels at 0 and 1, issued ids dense from 2 and distinct, every id below the next free id. |
| `Transformations.WithDefaultsSpec` | keras_pandas/transformations.py:76 | Looking tokens up adds each missing one to the table. No lookup result changes: a missing token reads as 0 both before and after. |
| `Transformations.WithDefaultsValid` | keras_pandas/transformations.py:76 | The insertions made by lookups keep the table invariant. The inserted 0 is the UNK id, not a new id. |
| `Transformations.WithDefaultsTwice` | keras_pandas/transformations.py:52 | Looking up one list of tokens and then another leaves the same table as looking up their concatenation. |
| `Transformations.LookedUpTokensGetNoFreshId` | keras_pandas/transformations.py:40 | A token that `transform` looked up before a later `fit` is already in the table, so that `fit` never gives it a fresh id. It keeps 0 when it was unknown. |
| `Transformations.Encode` | keras_pandas/transformations.py:68-85 | One id per token, 0 for an unknown token. The result is truncated or padded to the sequence length when there is one, and left unpadded when there is none. |
| `Transformations.EncodeFromIds` | keras_pandas/transformations.py:76-82 | Encoding is the per-token lookup followed by `pad` with the pad id. |
| `Transformations.EncodeUnderDefaults` | keras_pandas/transformations.py:76 | Rows processed earlier, whose lookups inserted defaults, do not change how a later row is encoded. |
| `Transformations.EncodeRows` | keras_pandas/transformations.py:46-57 | One encoded row per input row, each encoded against the table as it was before the call. |
| `Transformations.EmbeddingVectorizer.TokenLists` | keras_pandas/transformations.py:26-29 | One token list per row, given by the tokenizer. |
| `Transformations.EmbeddingVectorizer.constructor` | keras_pandas/transformations.py:11-20 | A new vectoriser maps `UNK` to 0 and `__PAD__` to 1, has next id 2 and has issued nothing. It keeps the given sequence length. |
| `Transformations.EmbeddingVectorizer.Fit` | keras_pandas/transformations.py:24-44 | Raises ValueError and changes nothing when it has no rows and no preset length. Otherwise a missing length becomes the median token count, and a preset one is kept. The table and next id become those of the id-assignment loop over all tokens, in order. The table invariant holds. |
| `Transformations.EmbeddingVectorizer.AddTokens` | keras_pandas/transformations.py:39-42 | The loop gives each unseen token the next id and advances it. The new state is exactly the id-assignment function of the old one, and the invariant holds. |
| `Transformations.EmbeddingVectorizer.ProcessString` | keras_pandas/transformations.py:68-85 | Returns the encoding of the string's tokens against the table before the call. The table gains the unknown tokens with id 0, and the invariant holds. |
| `Transformations.EmbeddingVectorizer.Transform` | keras_pandas/transformations.py:46-57 | Every row is encoded against the table as it was before the call. With a sequence length set, all rows have that length. The table gains the looked-up tokens with 0. |
| `Registry.Shared` | keras_pandas/lib.py:15 | The intersection of two lists' sets: exactly the variables in both. |
| `Registry.ScanInner` | keras_pandas/lib.py:8-18 | The inner loop finds the first entry, from a position on, that has a different key and a shared variable. It finds none exactly when no such entry exists. |
| `Registry.ScanOuter` | keras_pandas/lib.py:7-18 | The nested loops find the first clashing pair in visiting order. They find none exactly when no pair from that outer position on clashes. |
| `Registry.CheckVariableListsAreValid` | keras_pandas/lib.py:1-20 | Returns True exactly when every two entries with different keys have disjoint lists. Otherwise it raises a ValueError naming the inner key, the outer key and the shared variables of a clashing pair. |
| `Registry.DisjointByEntries` | keras_pandas/lib.py:7-18 | Disjointness means that any two entries with different keys share nothing. |
| `Registry.CheckIgnoresOrder` | keras_pandas/lib.py:7-8 | Reordering the entries does not change whether the check passes. |
| `Registry.DuplicatesWithinOneListAllowed` | keras_pandas/lib.py:10-12 | A variable repeated inside one list is not an error, because an entry is never compared with itself. |
| `Registry.EmptyListsValid` | keras_pandas/lib.py:15-20 | A registry of empty lists, including the empty registry, passes. |
| `Registry.Flatten` | auto_dl/Automater.py:30-31 | Exactly the variables listed under some type. |
| `Registry.FlattenLength` | auto_dl/Automater.py:30-31 | The flattening has one element per listed variable, duplicates included. |
| `KerasAutomater.VarList.Remove` | keras_pandas/Automater.py:13 | `list.remove` drops the first occurrence of the variable from the list object, in place. |
| `KerasAutomater.RemoveFirst` | keras_pandas/Automater.py:12-13 | Removing the response takes away exactly one occurrence when it is present, and nothing when it is absent. |
| `KerasAutomater.ListsAfterConstruction` | keras_pandas/Automater.py:9-13 | After construction, a registry with exactly one list has lost the response's first occurrence from that very list. With several lists, or no response, nothing changes. |
| `KerasAutomater.ValidConfigurationsCheck` | keras_pandas/Automater.py:105-133 | Passes exactly when the lists are pairwise disjoint and a response, if any, is listed. Every failure is a ValueError, and an overlap is reported as one. |
| `KerasAutomater.ConstructionOutcome` | keras_pandas/Automater.py:6-25 | An empty registry is a TypeError (`reduce` of nothing). Otherwise the configuration check is applied to the lists as construction leaves them. |
| `KerasAutomater.SingleListLosesResponse` | keras_pandas/Automater.py:9-25 | With a single type list that holds the response once, construction removes it from that list, and the check then raises ValueError. |
| `KerasAutomater.SeveralListsKeepResponse` | keras_pandas/Automater.py:9-25 | With two or more disjoint lists that list the response, construction succeeds. |
| `KerasAutomater.Automater.Init` | keras_pandas/Automater.py:15-22 | The fields after `__init__`: supervised exactly when there is a response, unfitted, no mappers, and the two empty handler slots. |
| `KerasAutomater.Automater.New` | keras_pandas/Automater.py:6-25 | Construction succeeds exactly when `ConstructionOutcome` does, and otherwise raises its error. The caller's lists are left as `ListsAfterConstruction` says. The input variables are all listed variables less the response's first occurrence, and with one list they are the caller's list object. The instance is unfitted and supervised exactly when there is a response. |
| `KerasAutomater.Automater.InputVarsOf` | keras_pandas/Automater.py:9-13 | A TypeError for no lists. Otherwise the concatenated lists less the response's first occurrence, removed in the caller's list when there is only one. |
| `KerasAutomater.Automater.Reduce` | keras_pandas/Automater.py:9 | A TypeError for no lists. Otherwise the concatenation: that very list object when there is one, and a new list when there are several. |
| `KerasAutomater.Automater.RemoveResponse` | keras_pandas/Automater.py:12-13 | The response's first occurrence is removed when there is a response. |
| `KerasAutomater.Automater.CheckFitted` | keras_pandas/Automater.py:87-92 | AssertionError exactly when the instance is not fitted, else True. |
| `KerasAutomater.Automater.CheckResponseVar` | keras_pandas/Automater.py:94-99 | AssertionError exactly when there is no response variable, else True. |
| `KerasAutomater.Automater.Fit` | keras_pandas/Automater.py:27-34 | Changes nothing and returns None. |
| `KerasAutomater.Automater.Transform` | keras_pandas/Automater.py:36-54 | AssertionError exactly when the instance is not fitted, else None. |
| `KerasAutomater.Automater.SuggestLoss` | keras_pandas/Automater.py:63-69 | AssertionError unless the instance is fitted and has a response, else None. |
| `KerasAutomater.Automater.InverseTransformOutput` | keras_pandas/Automater.py:71-74 | AssertionError unless the instance is fitted and has a response, else None. |
| `KerasAutomater.Automater.FitTransform` | keras_pandas/Automater.py:56-61 | Always an AttributeError, since `fit` returns None. |
| `KerasAutomater.CallTransform` | keras_pandas/Automater.py:61 | Calling `transform` on None is an AttributeError. On an instance, it is that instance's `transform`. |
| `KerasAutomater.FitThenPredict` | keras_pandas/Automater.py:27-74 | After a successful construction and `fit`, `transform`, `suggest_loss` and `inverse_transform_output` all raise AssertionError. |
| `KerasConstants.DefaultSklearnMapperPipelinesLookups` | keras_pandas/constants.py:9-16 | The registered pipelines per type. An unregistered type reads as the empty pipeline and is stored. |
| `KerasConstants.InputNubNumericHandler` | keras_pandas/constants.py:19-35 | KeyError exactly when the variable is not a column. Otherwise the input layer, as wide as the columns with that label, is both input and tip. |
| `KerasConstants.InputNubCategoricalHandler` | keras_pandas/constants.py:37-62 | KeyError for an absent variable. It succeeds exactly when the column is present and Python's `max` over it succeeds. The tip is a Flatten of an Embedding applied to the returned input layer. The embedding has largest code + 1 rows, the width `EmbeddingOutputDim` gives for that many rows, and an input length equal to the selection's width. |
| `KerasConstants.NumericHandlerMatchesNumerical` | keras_pandas/constants.py:19-35 | The numeric handler fails exactly when the Numerical datatype's input nub does, and builds the same layers. |
| `KerasConstants.CategoricalLevelsDisagree` | keras_pandas/constants.py:47 | This handler and the Categorical datatype fail on the same frames and build the same input. This handler's embedding has one row fewer: its last row is the largest code seen. |
| `KerasConstants.ApplyHandler` | keras_pandas/constants.py:65-70 | Calling a table handler runs that handler. The older one-argument stub raises TypeError when called with two arguments. |
| `AutoDlConstants.DefaultSklearnMapperPipelinesLookups` | auto_dl/constants.py:5-12 | The registered pipelines, with `non_transformed_vars` mapped to None. An unregistered type reads as None. |
| `AutoDlConstants.DefaultHandlersAlwaysRaise` | auto_dl/constants.py:15-22 | The table's only type is `numerical_vars`, and calling its handler as `_create_input_nub` does raises TypeError. |
| `DefaultDicts.Lookup` | auto_dl/constants.py:5 | A `defaultdict` read returns the stored value, or stores and returns the default. No other key changes. |
| `DefaultDicts.LookupTwice` | keras_pandas/transformations.py:17 | A second read of the same key returns what the first stored and changes nothing. |
| `Frames.SelectColumn` | keras_pandas/data_types/Categorical.py:36-42 | `df[name]` raises KeyError exactly when no column has that label. Otherwise its width is the number of columns with the label (1 for a series), and it has one row per frame row. |
| `Frames.SelectColumns` | keras_pandas/data_types/Text.py:41-49 | `df[names]` raises KeyError exactly when a label is missing. Otherwise it is two-dimensional, as wide as the columns those labels name. |
| `Frames.MaxCell` | keras_pandas/data_types/Text.py:53 | `numpy.max` raises ValueError exactly on no cells. Otherwise it is a cell that no cell exceeds. |
| `Frames.FilterPrefix` | keras_pandas/data_types/Text.py:36-37 | Exactly the labels that start with the prefix. |
| `Frames.FilterPrefixAppend` | keras_pandas/data_types/Text.py:37 | The filter keeps column order: it distributes over concatenation. |
| `Frames.DerivedColumnNames` | keras_pandas/data_types/Text.py:33-37 | `[variable]` when it is a column. Otherwise every column label prefixed `variable_`, in column order. |
| `DataTypes.NewDataType` | keras_pandas/data_types/Categorical.py:13-18 | Output is supported exactly by Numerical, Categorical and Boolean (Numerical.py:12, Boolean.py:15), and not by Abstract, Text or TimeSeries. |
| `DataTypes.DefaultPipelines` | keras_pandas/data_types/Categorical.py:15-18 | The default pipeline of each handler, step by step: none for Abstract, mean imputer then scaler for Numerical, string encoder then UNK imputer then label encoder for Categorical, bool conversion for Boolean, string encoder then vectoriser for Text, and the vectoriser for TimeSeries. |
| `DataTypes.CheckOutputSupport` | keras_pandas/data_types/Numerical.py:92-96 | ValueError exactly when output is unsupported. Otherwise Numerical returns nothing, and every other handler returns True (Categorical.py:108-112). |
| `DataTypes.BuiltinMax` | keras_pandas/data_types/Categorical.py:45 | Python's `max` over the selection gives the largest code of a series or of a one-column frame. It raises ValueError on a frame with no rows. It fails on a wider frame: a single wide row cannot be converted by `int`, and several cannot be compared. |
| `DataTypes.EmbeddingOutputDim` | keras_pandas/data_types/Categorical.py:46 | Below the cap the embedding width is exactly half of levels + 1, rounded down. From levels + 1 = 100 on it is 50. It is at least 1 whenever there is a level. |
| `DataTypes.InputNub` | keras_pandas/data_types/Numerical.py:15-45 | Abstract gives (None, None). Numerical and Boolean fail exactly on an absent variable, with KeyError, and otherwise use the input, as wide as the columns with that label, as the tip. Every successful non-Abstract nub starts from an input layer. |
| `DataTypes.CategoricalInputNubSizes` | keras_pandas/data_types/Categorical.py:36-63 | Fails exactly when the variable is absent or `max` fails. Otherwise the tip is Flatten(Embedding(input)), whose last row index is the largest code plus one, so every code has a row. It is at most 50 wide, and its input length is the selection's width. |
| `DataTypes.CategoricalInputNubOk` | keras_pandas/data_types/Categorical.py:45-61 | Once the column and its largest code are known, the nub is exactly Input(width) under an embedding of largest code + 2 rows, flattened. |
| `DataTypes.TextInputNubSizes` | keras_pandas/data_types/Text.py:33-73 | Reads the derived columns, and fails with ValueError exactly when they hold no cells. Otherwise the tip is a 128-unit bidirectional LSTM over a 200-wide embedding with largest id + 4 rows. |
| `DataTypes.TimeSeriesInputNubShape` | keras_pandas/data_types/TimeSeries.py:15-61 | Never fails. The derived columns become an input reshaped to (length, 1) under a 32-unit bidirectional LSTM. |
| `DataTypes.DistinctResponseValues` | keras_pandas/data_types/Categorical.py:79 | `set(df[variable])` over a frame of several same-named columns holds the one label. |
| `DataTypes.OutputNub` | keras_pandas/data_types/Categorical.py:65-82 | ValueError when output is unsupported. Otherwise: Dense(1, linear) for Numerical (Numerical.py:61), Dense(1, sigmoid) for Boolean (Boolean.py:62), and None for the rest. Categorical raises KeyError on an absent variable, and otherwise has one softmax unit per distinct value plus one. |
| `DataTypes.DenseCodesInput` | keras_pandas/data_types/Categorical.py:45-58 | For a single column holding exactly the codes 0..k-1, the embedding has k+1 rows and the input is one wide. |
| `DataTypes.DenseCodesOutput` | keras_pandas/data_types/Categorical.py:79-80 | For a single column holding exactly the codes 0..k-1, the output layer has k+1 softmax units. |
| `DataTypes.DenseCodesAgree` | keras_pandas/data_types/Categorical.py:45-80 | For dense codes 0..k-1, the input embedding and the output layer both reserve exactly one level beyond the k seen. |
| `DataTypes.ArgMax` | keras_pandas/data_types/Categorical.py:99 | A position of a largest element, and the first such position (numpy breaks ties that way). |
| `DataTypes.OutputInverseTransform` | keras_pandas/data_types/Categorical.py:84-101 | ValueError when output is unsupported. Categorical needs a `labelencoder` step and returns each row's arg-max index, not its label: a largest element with every earlier element strictly smaller, so the first one on ties, as numpy's `argmax` picks. Numerical needs a `standardscaler` step and returns its inverse (Numerical.py:73-84). Boolean returns the predictions unchanged (Boolean.py:75-78). The rest return None. |
| `DataTypes.OutputSuggestedLoss` | keras_pandas/data_types/Categorical.py:103-106 | ValueError when output is unsupported. Otherwise sparse categorical cross-entropy for Categorical, mean squared error for Numerical (Numerical.py:89), binary cross-entropy for Boolean (Boolean.py:82), and None for the rest. |
| `DataTypes.OutputGating` | keras_pandas/data_types/Text.py:78-119 | Built by their constructors, Abstract, Text and TimeSeries are exactly the handlers whose output nub, inverse transform, suggested loss and support check all raise ValueError. |
| `PoorMansFft.ConvertFrequencies` | keras_pandas/PoorMansFFT.py:59-80 | AssertionError exactly when some name is not in the table, checked before any conversion. Otherwise one period in seconds per name, in order. |
| `PoorMansFft.New` | keras_pandas/PoorMansFFT.py:7-18 | The layer keeps its frequency names and stores, position by position, each name's period in seconds. It raises AssertionError for an unknown name. |
| `PoorMansFft.DefaultPeriodsIncrease` | keras_pandas/PoorMansFFT.py:7 | The default seven names convert, and their periods strictly increase from minutely to yearly. |
| `PoorMansFft.FrequencyOf` | keras_pandas/PoorMansFFT.py:62-70 | The inverse of the table: a name whose period is the given number of seconds, or none when no name has it. |
| `PoorMansFft.ConvertFrequenciesRoundTrip` | keras_pandas/PoorMansFFT.py:62-80 | The names are recovered from the converted periods. |
| `PoorMansFft.ConvertFrequenciesAppend` | keras_pandas/PoorMansFFT.py:73-80 | Converting a concatenation converts each part. Order is kept and names are converted independently. |
| `PoorMansFft.CheckInputShape` | keras_pandas/PoorMansFFT.py:51-56 | Passes exactly on shapes of at least two dimensions whose second is 1. Otherwise AssertionError. |
| `AutoDlAutomater.VariableTypeDict` | auto_dl/Automater.py:20-26 | The registry has the five types, in the order the constructor registers them, with distinct keys. |
| `AutoDlAutomater.ConstructedPipelines` | auto_dl/Automater.py:34-37 | Building the mapper adds one entry to the copied pipeline table: `datetime_vars`, with None. |
| `AutoDlAutomater.Automater.Init` | auto_dl/Automater.py:16-45 | The instance is unfitted. Its user-provided variables are the flattened registry. The mapper has one feature per variable, and the pipeline table is as the mapper builder leaves it. The handlers are as given, and there are no layers yet. |
| `AutoDlAutomater.Automater.New` | auto_dl/Automater.py:13-45 | Raises the registry check's ValueError exactly when two lists overlap. Otherwise the instance is new and unfitted, over the five-type registry. Its pipeline table is the default plus `datetime_vars` mapped to None, and it has the module's own handlers and no layers. |
| `AutoDlAutomater.Automater.CreateSklearnPandasMapper` | auto_dl/Automater.py:249-269 | The loops build a DataFrameMapper with `df_out` set, whose features are exactly the specification's feature list. The defaultdict reads store None for unregistered types. |
| `AutoDlAutomater.Automater.AddNub` | auto_dl/Automater.py:191-205 | One pass of the inner loop: ValueError when the variable is not user-provided or not a column, the layers unchanged for the response, otherwise the handler's input and tip appended or its error. |
| `AutoDlAutomater.Automater.AddNubs` | auto_dl/Automater.py:188-205 | The inner loop computes exactly the specification's scan of one list. |
| `AutoDlAutomater.Automater.CreateInputNub` | auto_dl/Automater.py:158-219 | The nested loops and the tip combination compute exactly `InputNubOutcome`: the first error raised, or the input layers and the combined nub. |
| `AutoDlAutomater.Automater.Fit` | auto_dl/Automater.py:56-79 | Raises KeyError, changing no layer, when the mapper selects a column the frame lacks. Otherwise it succeeds exactly when the input nubs build and, when `y` is given, the output layer builds. Otherwise it raises the first error. The input layers and nub are set when they build. The output layer is set only on success with a `y`. The instance becomes fitted on success. |
| `AutoDlAutomater.Automater.Transform` | auto_dl/Automater.py:81-120 | Its result is `TransformOutcome`. The caller's frame gains a None-filled response column exactly when the response was listed but missing. |
| `AutoDlAutomater.DefaultFitBuildsNoInputs` | auto_dl/Automater.py:174-205 | With the module's own handler table, fitting's input step succeeds only when every listed variable is the response, and then gives no layers and no nub. |
| `AutoDlSpec.DefaultOf` | auto_dl/Automater.py:258 | The pipeline read for a type: its entry, or None when it is unregistered. |
| `AutoDlSpec.Entries` | auto_dl/Automater.py:261-264 | One `([variable], pipeline)` feature per variable of a type, in order. |
| `AutoDlSpec.PipelinesAfterSpec` | auto_dl/Automater.py:258 | After the mapper builder's reads, the table holds every read type. Registered entries are unchanged, and the added ones are None. |
| `AutoDlSpec.PipelinesAfterAddsOne` | auto_dl/Automater.py:254-258 | When the registry names exactly the table's types plus one more, the reads add just that type, with None. |
| `AutoDlSpec.MapperSelectsListed` | auto_dl/Automater.py:62-65 | The mapper built from the registry selects only columns of a frame exactly when every listed variable is one of its columns, so the mapper's `fit` raises KeyError exactly when one is missing, the response included. |
| `AutoDlSpec.MapperFeaturesCount` | auto_dl/Automater.py:249-269 | The mapper has one feature per listed variable. |
| `AutoDlSpec.MapperFeaturesColumns` | auto_dl/Automater.py:261-264 | The i-th feature selects the i-th flattened variable. |
| `AutoDlSpec.FeatureOrigin` | auto_dl/Automater.py:254-264 | Every feature is some listed variable paired with its type's pipeline. |
| `AutoDlSpec.VarStepOutcome` | auto_dl/Automater.py:191-205 | One variable raises ValueError when it is not user-provided or not a column, is skipped when it is the response, and otherwise appends exactly the input and the tip the handler builds for it. |
| `AutoDlSpec.VarsScanErrPersists` | auto_dl/Automater.py:188-205 | The first error of the inner loop is its result: later variables are never reached. |
| `AutoDlSpec.VarsScanAdmissible` | auto_dl/Automater.py:188-205 | The inner loop finishes exactly when every variable of the list is admissible. |
| `AutoDlSpec.VarsScanGrows` | auto_dl/Automater.py:188-205 | A finished inner loop keeps the layers built so far. After them, the j-th input and tip are those the handler builds for the j-th non-response variable of the list. |
| `AutoDlSpec.VarsScanOutcome` | auto_dl/Automater.py:188-205 | The two lemmas above together. |
| `AutoDlSpec.InputNubScanErrPersists` | auto_dl/Automater.py:174-205 | The first error of the outer loop is its result. |
| `AutoDlSpec.InputNubScanOutcome` | auto_dl/Automater.py:174-205 | The loops finish exactly on admissible registries: empty lists skipped, a non-empty list's type handled, and every variable provided, present and handled. They then build one input and one tip per listed non-response variable: the j-th input and tip are those the handler of its type builds for the j-th such variable in registry order. |
| `AutoDlSpec.InputNubScanAdmissible` | auto_dl/Automater.py:174-205 | The loops finish exactly on admissible registries. |
| `AutoDlSpec.InputNubScanLayers` | auto_dl/Automater.py:174-205 | After finished loops, the j-th input and tip are those the handler of the j-th listed non-response variable's type builds for it. |
| `AutoDlSpec.BuildsHandledAppend` | auto_dl/Automater.py:188-205 | One more list's handled layers, appended after those of the earlier lists, keep the layers lined up with the variables and their types. |
| `AutoDlSpec.DefaultHandlersBuildNothing` | auto_dl/Automater.py:182-203 | With the stub-only table, a finished scan built nothing, and every listed variable is the response. |
| `AutoDlSpec.CombineTips` | auto_dl/Automater.py:207-217 | None exactly when there are no tips, the tip itself for one tip, and a Concatenate of all the tips for more. |
| `AutoDlSpec.CombineTipsRoundTrip` | auto_dl/Automater.py:207-217 | When no tip is itself a concatenation, the tips are recovered exactly from the combined nub. |
| `AutoDlSpec.InputNubOutcome` | auto_dl/Automater.py:158-219 | `_create_input_nub` succeeds exactly when its loops finish. |
| `AutoDlSpec.ResponseTypesMembers` | auto_dl/Automater.py:225-226 | The response's types are exactly the types whose list holds it. |
| `AutoDlSpec.ResponseTypeUnique` | auto_dl/Automater.py:225-232 | In a disjoint registry with distinct keys, the response has one type when listed and none otherwise. |
| `AutoDlSpec.CreateOutputNub` | auto_dl/Automater.py:221-243 | ValueError exactly when the response has zero types or several. Dense(1, linear) exactly for `numerical_vars`. NotImplementedError for any other single type. |
| `AutoDlSpec.AddNullColumn` | auto_dl/Automater.py:93 | The frame gains one None-filled column with the response's name, after its columns. |
| `AutoDlSpec.Drop` | auto_dl/Automater.py:109 | `drop(name, axis=1)` raises KeyError exactly when no column has that label. Otherwise it removes every column with that label and keeps the rest. |
| `AutoDlSpec.Missing` | auto_dl/Automater.py:87 | Exactly the user-provided variables that are not columns. |
| `AutoDlSpec.TransformReportsMissing` | auto_dl/Automater.py:86-98 | `transform` reports missing variables exactly when a user-provided variable other than the response is missing, and names exactly those. A missing response alone is never an error. |
| `AutoDlSpec.TransformErrorsAfterCheck` | auto_dl/Automater.py:103-120 | Once nothing is missing, the only errors left are a `drop`'s KeyError and, for split output only, an AttributeError. |
| `AutoDlSpec.TransformRepeatedResponse` | auto_dl/Automater.py:113-116 | For split output with a present response and nothing missing: KeyError when the mapper output lacks the response. Otherwise AttributeError exactly when the response label is repeated there, because the selection is then a frame, which has no `tolist`. |
| `AutoDlSpec.TransformDropsFilledResponse` | auto_dl/Automater.py:106-112 | A response that had to be filled in never reaches the result, in either output form. |
| `AutoDlSpec.TransformSplitsResponse` | auto_dl/Automater.py:114-116 | With a response that was present and split output, X is the mapper output without the response, and y is its single response column, one-dimensional as `tolist` gives it. |
| `AutoDlSpec.TransformWithoutResponse` | auto_dl/Automater.py:117-120 | Without a response, the result is the whole mapper output: as a frame, or as X with y None. |

## Left out

- Keras layer construction (`keras.Input`, Embedding, LSTM, Bidirectional, Dense, Concatenate, Reshape, Flatten) is foreign code. Layers are records of their sizes and of the layer they are applied to. Layer names (`namespace_conversion`) and dtypes are not modelled.
- `PoorMansFFT.build`, `call`, `compute_output_shape` and `get_config` are Keras layer plumbing or empty stubs. Only the frequency table, the constructor's conversion and `_check_input_shape` are modelled.
- scikit-learn and sklearn_pandas internals (Imputer, StandardScaler, LabelEncoder, DataFrameMapper) are foreign and work on floats. Pipelines are lists of step kinds.
  - `fit`'s calls to the mapper's `fit` and `transform` discard their results. Only the KeyError they raise when the frame lacks a column a feature selects is modelled (`AutoDlSpec.MapperSelects`); errors from inside the pipeline steps are not.
  - `transform` takes the fitted mapper's effect on a frame as the parameter `mapperTransform`.
  - The numerical inverse transform takes the scaler's inverse as a parameter.
- The `deepcopy` of the default pipeline table is a fresh map value, since Dafny maps are values.
- gensim's `simple_preprocess` is the vectoriser's tokenizer, an uninterpreted function fixed at construction.
- Floating point:
  - `numpy.median` is modelled on the non-negative integer token counts, as the floor of the mean of the two middle counts;
  - predictions are `real`s;
  - `numpy.matrix` and `as_matrix` results read by the datatype handlers are sequences of cells with a shape.
- Python 3 turns `map` into a one-shot iterator, which would empty the token list in `EmbeddingVectorizer.fit`. The code is modelled with Python 2 list semantics, which its tuple-unpacking lambdas require. For the same reason, `len(ids) > None` is true and `ids[:None]` keeps every id, so `process_string` without a sequence length returns the ids unpadded.
- Python 2 dict iteration order is modelled as the order in which entries were added.
- Dataframe cells are integers, the encoded values the handlers read. A None-filled column is modelled as a column without cells. Rows appear only as a count.
- `Automater._check_input_df`, `_create_input_nub`, `_create_output_nub` and `_create_mapper` of keras_pandas/Automater.py are empty stubs that return None, so they are not modelled. The same holds for the TODO stubs of auto_dl/Automater.py (`fit_transform`, `set_embedding_size*`, `get_transformer*`, the column checks, `_datetime_expansion_`).
- auto_dl/lib.py, which auto_dl/Automater.py imports, is not part of this model. Its `check_variable_list_are_valid` is modelled by the identically named function of keras_pandas/lib.py.
- `AutoDlAutomater.Automater.Init` receives the pipeline and handler tables as parameters. `New` passes the module constants, as the source does.
- `AutoDlSpec.TransformOutcome` and `AutoDlAutomater.Automater.Transform`: their split-output X is the frame before `as_matrix()`, with its column labels kept. The source's X is an unlabelled matrix of the same columns, so `AutoDlSpec.TransformSplitsResponse` states the dropped response in terms of those labels.
- `AutoDlAutomater.Automater.Init`, `New` and `Fit`: the registry's lists and the handler table are values fixed at construction. The source keeps the caller's list objects in `_variable_type_dict` (auto_dl/Automater.py:22-26), and its `input_nub_type_handlers` is the module's shared dict. If the caller later adds to a list, `_create_input_nub` sees the addition, but the mapper and `_user_provided_variables`, copied at construction, do not. That later change is not modelled. So the ValueError for a variable that is not user-provided (auto_dl/Automater.py:191-193) cannot arise from `Fit` here; it is modelled in `AutoDlSpec.VarStep`, whose `provided` is a free parameter.
- Logging is not modelled.
- `Transformations.EmbeddingVectorizer.ProcessString`, `Transform`, `Fit` and `AddTokens` require the table invariant (`Valid`). The constructor establishes it and every method keeps it. The invariant guarantees that `__PAD__` is present, so the pad id is always 1.
- `Transformations.Median` and `Transformations.GenerateEmbeddingSequenceLength`: their contracts state the defining property of a median (at least half the lengths at or below it, at least half at or above it), not which value is picked between the two middle lengths. The body takes the floor of their mean, as `int(numpy.median(...))` does.
- `DataTypes.DistinctResponseValues`: its own contract covers only the several-columns case. The single-column count is stated by `DataTypes.SingleColumnDistinct` and `DataTypes.DenseCodesOutput`.
- `AutoDlAutomater.Automater.CreateSklearnPandasMapper` and `AutoDlSpec.Entries`: the source appends the same `default_pipeline` object to the feature of every variable of one type, so fitting the mapper refits that one shared pipeline and the last variable's fit wins. Pipelines are values here, so this sharing is not captured.
- `Transformations.Pad` takes a non-negative `length`. Python's slice would also accept a negative one, but no caller passes one.
- `Frames.SelectColumns` selects the columns whose label is among the names, each once and in frame order. pandas keeps a repeated name as a repeated selection. The callers pass names without repeats, except on frames with repeated labels.
- `Frames.Frame` does not tie `rowCount` to the number of cells in each column. The cells are read only for their largest value and their distinct values, so no modelled operation depends on it.
