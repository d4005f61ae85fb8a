/**
 * What the older orchestrator's loops compute, as functions of their inputs.
 *
 * A Python dict of variable lists is the sequence of its (type, list)
 * entries in iteration order. Each function below is defined from the last
 * entry backwards, so that "one more loop iteration" is one unfolding.
 */
module AutoDlSpec {
  import opened Wrappers
  import opened Frames
  import opened Registry
  import Layers
  import DefaultDicts
  import KerasConstants

  type PipelineTable = map<string, Option<seq<Layers.Step>>>

  /** One DataFrameMapper feature: a one-column selection and its pipeline. */
  type Feature = (seq<string>, Option<seq<Layers.Step>>)

  // ---------------------------------------------------------------------------
  // The mapper's feature list
  // ---------------------------------------------------------------------------

  /** The pipeline a read of `key` gives on the defaultdict `t` (None when unregistered). */
  function DefaultOf(t: PipelineTable, key: string): (r: Option<seq<Layers.Step>>)
    ensures key in t ==> r == t[key]
    ensures key !in t ==> r == None
  {
    DefaultDicts.Lookup(t, key, None).0
  }

  /** One feature per variable of a list, each with the same pipeline. */
  function Entries(vars: seq<string>, pipeline: Option<seq<Layers.Step>>): (r: seq<Feature>)
    ensures |r| == |vars|
    ensures forall i :: 0 <= i < |vars| ==> r[i] == ([vars[i]], pipeline)
  {
    seq(|vars|, i requires 0 <= i < |vars| => ([vars[i]], pipeline))
  }

  /** One more variable of a list appends its feature after those already appended. */
  lemma EntriesSnoc(before: seq<Feature>, vars: seq<string>, pipeline: Option<seq<Layers.Step>>, j: nat)
    requires j < |vars|
    ensures before + Entries(vars[..j + 1], pipeline) == (before + Entries(vars[..j], pipeline)) + [([vars[j]], pipeline)]
  {
    var a := Entries(vars[..j + 1], pipeline);
    var b := Entries(vars[..j], pipeline) + [([vars[j]], pipeline)];
    assert |a| == |b|;
    forall k | 0 <= k < |a| ensures a[k] == b[k] {
      if k < j {
        assert b[k] == Entries(vars[..j], pipeline)[k];
      }
    }
    assert a == b;
  }

  /** The features `_create_sklearn_pandas_mapper` appends, type after type. */
  function MapperFeatures(t: PipelineTable, m: TypeMap): seq<Feature>
    decreases |m|
  {
    if m == [] then []
    else MapperFeatures(t, m[..|m| - 1]) + Entries(m[|m| - 1].1, DefaultOf(t, m[|m| - 1].0))
  }

  /** One more entry appends its variables' features. */
  lemma MapperFeaturesSnoc(t: PipelineTable, m: TypeMap, i: nat)
    requires i < |m|
    ensures MapperFeatures(t, m[..i + 1]) == MapperFeatures(t, m[..i]) + Entries(m[i].1, DefaultOf(t, m[i].0))
  {
    assert m[..i + 1][..i] == m[..i];
  }

  /** The variable types a registry lists. */
  function KeysOf(m: TypeMap): set<string> {
    set i | 0 <= i < |m| :: m[i].0
  }

  /** The pipeline table after one read per listed type: every unregistered type now maps to None. */
  function PipelinesAfter(t: PipelineTable, m: TypeMap): PipelineTable {
    map k | k in t.Keys + KeysOf(m) :: DefaultOf(t, k)
  }

  /** The reads add exactly the listed types, keep every registered pipeline and store None for the others. */
  lemma PipelinesAfterSpec(t: PipelineTable, m: TypeMap)
    ensures PipelinesAfter(t, m).Keys == t.Keys + KeysOf(m)
    ensures forall k :: k in t ==> PipelinesAfter(t, m)[k] == t[k]
    ensures forall k :: k in PipelinesAfter(t, m) && k !in t ==> PipelinesAfter(t, m)[k] == None
  {
  }

  /** Reads of the registered types and one more type add that type, with None, and nothing else. */
  lemma PipelinesAfterAddsOne(t: PipelineTable, m: TypeMap, k: string)
    requires k !in t && KeysOf(m) == t.Keys + {k}
    ensures PipelinesAfter(t, m) == t[k := None]
  {
    PipelinesAfterSpec(t, m);
    assert PipelinesAfter(t, m).Keys == t[k := None].Keys;
  }

  /** Before any read the table is unchanged. */
  lemma PipelinesAfterNone(t: PipelineTable)
    ensures PipelinesAfter(t, []) == t
  {
    assert KeysOf([]) == {};
  }

  /** One more type: its read gives its default and stores it. */
  lemma PipelinesAfterSnoc(t: PipelineTable, m: TypeMap, i: nat)
    requires i < |m|
    ensures var read := DefaultDicts.Lookup(PipelinesAfter(t, m[..i]), m[i].0, None);
      read.0 == DefaultOf(t, m[i].0) && read.1 == PipelinesAfter(t, m[..i + 1])
  {
    assert KeysOf(m[..i + 1]) == KeysOf(m[..i]) + {m[i].0} by {
      assert forall j :: 0 <= j < i ==> m[..i + 1][j] == m[..i][j];
      assert m[..i + 1][i] == m[i];
    }
    var before := PipelinesAfter(t, m[..i]);
    var read := DefaultDicts.Lookup(before, m[i].0, None);
    var after := PipelinesAfter(t, m[..i + 1]);
    assert read.1.Keys == after.Keys;
    assert forall k :: k in read.1 ==> read.1[k] == after[k];
  }

  /** The number of features is the number of listed variables. */
  lemma {:induction false} MapperFeaturesCount(t: PipelineTable, m: TypeMap)
    ensures |MapperFeatures(t, m)| == TotalCount(m)
  {
    if m != [] {
      MapperFeaturesCount(t, m[..|m| - 1]);
    }
  }

  /** The features select the listed variables one by one, in registry order. */
  lemma {:induction false} MapperFeaturesColumns(t: PipelineTable, m: TypeMap)
    ensures |MapperFeatures(t, m)| == |Flatten(m)|
    ensures forall i :: 0 <= i < |Flatten(m)| ==> MapperFeatures(t, m)[i].0 == [Flatten(m)[i]]
  {
    if m != [] {
      MapperFeaturesColumns(t, m[..|m| - 1]);
    }
  }

  /**
   * Each feature comes from one variable of one entry and carries that
   * entry's default pipeline, None when the type is unregistered.
   */
  lemma {:induction false} FeatureOrigin(t: PipelineTable, m: TypeMap, i: nat) returns (k: nat, j: nat)
    requires i < |MapperFeatures(t, m)|
    ensures k < |m| && j < |m[k].1|
    ensures MapperFeatures(t, m)[i] == ([m[k].1[j]], DefaultOf(t, m[k].0))
  {
    var front := m[..|m| - 1];
    var prev := MapperFeatures(t, front);
    if i < |prev| {
      k, j := FeatureOrigin(t, front, i);
      assert front[k] == m[k];
    } else {
      k, j := |m| - 1, i - |prev|;
    }
  }

  /**
   * Whether every column the mapper's features select is in the frame.
   * Fitting or applying a DataFrameMapper selects each feature's columns
   * from the frame, which raises KeyError on a missing one.
   */
  predicate MapperSelects(mapper: Layers.Mapper, f: Frame) {
    forall i, c :: 0 <= i < |mapper.features| && c in mapper.features[i].0 ==> c in Names(f)
  }

  /** The mapper built from a registry selects from a frame exactly when every listed variable is a column. */
  lemma MapperSelectsListed(t: PipelineTable, m: TypeMap, f: Frame)
    ensures MapperSelects(Layers.DataFrameMapper(MapperFeatures(t, m), true), f) <==>
      forall v :: v in Flatten(m) ==> v in Names(f)
  {
    MapperFeaturesColumns(t, m);
    var features := MapperFeatures(t, m);
    if forall v :: v in Flatten(m) ==> v in Names(f) {
      forall i, c | 0 <= i < |features| && c in features[i].0 ensures c in Names(f) {
        assert c == Flatten(m)[i];
      }
    } else {
      var v :| v in Flatten(m) && v !in Names(f);
      var i :| 0 <= i < |Flatten(m)| && Flatten(m)[i] == v;
      assert v in features[i].0;
    }
  }

  // ---------------------------------------------------------------------------
  // Input nubs
  // ---------------------------------------------------------------------------

  /** The layers built so far: the inputs and the nub tips. */
  type Built = (seq<Layers.Layer>, seq<Layers.Layer>)

  /**
   * One variable of a handled list: a ValueError when it was not provided
   * by the user or is not a column; skipped when it is the response;
   * otherwise the handler's input and tip are appended.
   */
  function VarStep(handler: Layers.InputHandler, provided: seq<string>, response: Option<string>,
                   variable: string, f: Frame, acc: Built): (r: Result<Built>)
  {
    if variable !in provided then Err(ValueError)
    else if variable !in Names(f) then Err(ValueError)
    else if response == Some(variable) then Ok(acc)
    else
      var nub :- KerasConstants.ApplyHandler(handler, variable, f);
      Ok((acc.0 + [nub.0], acc.1 + [nub.1]))
  }

  /** The inner loop over one list. */
  function VarsScan(handler: Layers.InputHandler, provided: seq<string>, response: Option<string>,
                    vars: seq<string>, f: Frame, acc: Built): Result<Built>
    decreases |vars|
  {
    if vars == [] then Ok(acc)
    else
      var prev :- VarsScan(handler, provided, response, vars[..|vars| - 1], f, acc);
      VarStep(handler, provided, response, vars[|vars| - 1], f, prev)
  }

  /** One entry: skipped when its list is empty, a ValueError when its type has no handler. */
  function EntryScan(handlers: map<string, Layers.InputHandler>, provided: seq<string>, response: Option<string>,
                     entry: (string, seq<string>), f: Frame, acc: Built): Result<Built>
  {
    if |entry.1| == 0 then Ok(acc)
    else if entry.0 !in handlers then Err(ValueError)
    else VarsScan(handlers[entry.0], provided, response, entry.1, f, acc)
  }

  /** The outer loop over the registry. */
  function InputNubScan(handlers: map<string, Layers.InputHandler>, provided: seq<string>, response: Option<string>,
                        m: TypeMap, f: Frame): Result<Built>
    decreases |m|
  {
    if m == [] then Ok(([], []))
    else
      var prev :- InputNubScan(handlers, provided, response, m[..|m| - 1], f);
      EntryScan(handlers, provided, response, m[|m| - 1], f, prev)
  }

  /** One more variable of a list is one more step of the inner loop. */
  lemma VarsScanSnoc(handler: Layers.InputHandler, provided: seq<string>, response: Option<string>,
                     vars: seq<string>, j: nat, f: Frame, acc: Built, b: Built)
    requires j < |vars|
    requires VarsScan(handler, provided, response, vars[..j], f, acc) == Ok(b)
    ensures VarsScan(handler, provided, response, vars[..j + 1], f, acc) == VarStep(handler, provided, response, vars[j], f, b)
  {
    assert vars[..j + 1][..j] == vars[..j];
  }

  /** One more registry entry is one more step of the outer loop. */
  lemma InputNubScanSnoc(handlers: map<string, Layers.InputHandler>, provided: seq<string>, response: Option<string>,
                         m: TypeMap, i: nat, f: Frame, b: Built)
    requires i < |m|
    requires InputNubScan(handlers, provided, response, m[..i], f) == Ok(b)
    ensures InputNubScan(handlers, provided, response, m[..i + 1], f) == EntryScan(handlers, provided, response, m[i], f, b)
  {
    assert m[..i + 1][..i] == m[..i];
  }

  /** An error in a prefix of a list is the error of the whole list. */
  lemma {:induction false} VarsScanErrPersists(handler: Layers.InputHandler, provided: seq<string>,
                                               response: Option<string>, vars: seq<string>, k: nat, f: Frame, acc: Built)
    requires k <= |vars|
    requires VarsScan(handler, provided, response, vars[..k], f, acc).Err?
    ensures VarsScan(handler, provided, response, vars, f, acc) == VarsScan(handler, provided, response, vars[..k], f, acc)
    decreases |vars|
  {
    if k < |vars| {
      var front := vars[..|vars| - 1];
      assert front[..k] == vars[..k];
      VarsScanErrPersists(handler, provided, response, front, k, f, acc);
    } else {
      assert vars[..k] == vars;
    }
  }

  /** An error in a prefix of the registry is the error of the whole registry. */
  lemma {:induction false} InputNubScanErrPersists(handlers: map<string, Layers.InputHandler>, provided: seq<string>,
                                                   response: Option<string>, m: TypeMap, k: nat, f: Frame)
    requires k <= |m|
    requires InputNubScan(handlers, provided, response, m[..k], f).Err?
    ensures InputNubScan(handlers, provided, response, m, f) == InputNubScan(handlers, provided, response, m[..k], f)
    decreases |m|
  {
    if k < |m| {
      var front := m[..|m| - 1];
      assert front[..k] == m[..k];
      InputNubScanErrPersists(handlers, provided, response, front, k, f);
    } else {
      assert m[..k] == m;
    }
  }

  /** The variables that get an input layer: every listed variable except the response, in registry order. */
  function InputVariables(m: TypeMap, response: Option<string>): (r: seq<string>)
    ensures forall v :: v in r <==> v in Flatten(m) && response != Some(v)
    decreases |m|
  {
    if m == [] then []
    else
      var front := m[..|m| - 1];
      assert forall i :: 0 <= i < |front| ==> front[i] == m[i];
      InputVariables(front, response) + NonResponse(m[|m| - 1].1, response)
  }

  /** A list without the response. */
  function NonResponse(vars: seq<string>, response: Option<string>): (r: seq<string>)
    ensures forall v :: v in r <==> v in vars && response != Some(v)
    decreases |vars|
  {
    if vars == [] then []
    else
      var front := vars[..|vars| - 1];
      assert forall v :: v in vars <==> v in front || v == vars[|vars| - 1];
      NonResponse(front, response) + (if response == Some(vars[|vars| - 1]) then [] else [vars[|vars| - 1]])
  }

  /** What one variable must satisfy for its step to succeed: provided, a column, and handled unless it is the response. */
  predicate VarAdmissible(handler: Layers.InputHandler, provided: seq<string>, response: Option<string>,
                          v: string, f: Frame)
  {
    v in provided && v in Names(f) &&
    (response != Some(v) ==> KerasConstants.ApplyHandler(handler, v, f).Ok?)
  }

  /** What a list must satisfy for its loop to finish. */
  predicate ListAdmissible(handler: Layers.InputHandler, provided: seq<string>, response: Option<string>,
                           vars: seq<string>, f: Frame)
  {
    forall v :: v in vars ==> VarAdmissible(handler, provided, response, v, f)
  }

  /** What an entry must satisfy: an empty list, or a handled type and an admissible list. */
  predicate EntryAdmissible(handlers: map<string, Layers.InputHandler>, provided: seq<string>, response: Option<string>,
                            entry: (string, seq<string>), f: Frame)
  {
    |entry.1| > 0 ==> entry.0 in handlers && ListAdmissible(handlers[entry.0], provided, response, entry.1, f)
  }

  /** What the registry must satisfy for the loops to finish. */
  predicate Admissible(handlers: map<string, Layers.InputHandler>, provided: seq<string>, response: Option<string>,
                       m: TypeMap, f: Frame)
  {
    forall i :: 0 <= i < |m| ==> EntryAdmissible(handlers, provided, response, m[i], f)
  }

  /**
   * One variable's step succeeds exactly when it is admissible. Unless the
   * variable is the response, it appends the input and the tip the handler
   * builds for it.
   */
  lemma VarStepOutcome(handler: Layers.InputHandler, provided: seq<string>, response: Option<string>,
                       v: string, f: Frame, acc: Built)
    ensures var r := VarStep(handler, provided, response, v, f, acc);
      && (r.Ok? <==> VarAdmissible(handler, provided, response, v, f))
      && (r.Ok? ==> (
          var added := if response == Some(v) then 0 else 1;
          && |r.value.0| == |acc.0| + added && |r.value.1| == |acc.1| + added
          && r.value.0[..|acc.0|] == acc.0 && r.value.1[..|acc.1|] == acc.1
          && (added == 1 ==>
                KerasConstants.ApplyHandler(handler, v, f) == Ok((r.value.0[|acc.0|], r.value.1[|acc.1|])))))
  {
  }

  /** The inner loop finishes exactly on admissible lists. */
  lemma {:induction false} VarsScanAdmissible(handler: Layers.InputHandler, provided: seq<string>,
                                              response: Option<string>, vars: seq<string>, f: Frame, acc: Built)
    ensures VarsScan(handler, provided, response, vars, f, acc).Ok? <==> ListAdmissible(handler, provided, response, vars, f)
    decreases |vars|
  {
    if vars != [] {
      var front := vars[..|vars| - 1];
      var last := vars[|vars| - 1];
      VarsScanAdmissible(handler, provided, response, front, f, acc);
      assert forall v :: v in vars <==> v in front || v == last;
      var prev := VarsScan(handler, provided, response, front, f, acc);
      if prev.Ok? {
        VarStepOutcome(handler, provided, response, last, f, prev.value);
      }
    }
  }

  /** The layers a list appends after `acc`: the j-th input and tip are the handler's for the j-th non-response variable. */
  predicate AppendsHandled(handler: Layers.InputHandler, nonResponse: seq<string>, f: Frame, acc: Built, b: Built)
  {
    && |b.0| == |acc.0| + |nonResponse| && |b.1| == |acc.1| + |nonResponse|
    && b.0[..|acc.0|] == acc.0 && b.1[..|acc.1|] == acc.1
    && forall j :: 0 <= j < |nonResponse| ==>
         KerasConstants.ApplyHandler(handler, nonResponse[j], f) == Ok((b.0[|acc.0| + j], b.1[|acc.1| + j]))
  }

  /**
   * A finished inner loop keeps what was there and appends, per
   * non-response variable in list order, the input and tip its handler builds.
   */
  lemma {:induction false} VarsScanGrows(handler: Layers.InputHandler, provided: seq<string>,
                                         response: Option<string>, vars: seq<string>, f: Frame, acc: Built)
    ensures var r := VarsScan(handler, provided, response, vars, f, acc);
      r.Ok? ==> AppendsHandled(handler, NonResponse(vars, response), f, acc, r.value)
    decreases |vars|
  {
    if vars != [] {
      var front := vars[..|vars| - 1];
      var last := vars[|vars| - 1];
      VarsScanGrows(handler, provided, response, front, f, acc);
      var prev := VarsScan(handler, provided, response, front, f, acc);
      if prev.Ok? {
        VarStepOutcome(handler, provided, response, last, f, prev.value);
        var r := VarStep(handler, provided, response, last, f, prev.value);
        if r.Ok? {
          var b := r.value;
          var n0 := NonResponse(front, response);
          var n := NonResponse(vars, response);
          assert b.0[..|acc.0|] == b.0[..|prev.value.0|][..|acc.0|];
          assert b.1[..|acc.1|] == b.1[..|prev.value.1|][..|acc.1|];
          forall j | 0 <= j < |n|
            ensures KerasConstants.ApplyHandler(handler, n[j], f) == Ok((b.0[|acc.0| + j], b.1[|acc.1| + j]))
          {
            if j < |n0| {
              assert n[j] == n0[j];
              assert b.0[..|prev.value.0|][|acc.0| + j] == b.0[|acc.0| + j];
              assert b.1[..|prev.value.1|][|acc.1| + j] == b.1[|acc.1| + j];
            } else {
              assert n[j] == last;
            }
          }
        }
      }
    }
  }

  /** The inner loop finishes exactly on admissible lists, appending the handler's layers per non-response variable. */
  lemma VarsScanOutcome(handler: Layers.InputHandler, provided: seq<string>,
                        response: Option<string>, vars: seq<string>, f: Frame, acc: Built)
    ensures var r := VarsScan(handler, provided, response, vars, f, acc);
      && (r.Ok? <==> ListAdmissible(handler, provided, response, vars, f))
      && (r.Ok? ==> AppendsHandled(handler, NonResponse(vars, response), f, acc, r.value))
  {
    VarsScanAdmissible(handler, provided, response, vars, f, acc);
    VarsScanGrows(handler, provided, response, vars, f, acc);
  }

  /** The registry is admissible when all but its last entry are and its last entry is. */
  lemma AdmissibleSnoc(handlers: map<string, Layers.InputHandler>, provided: seq<string>, response: Option<string>,
                       m: TypeMap, f: Frame)
    requires m != []
    ensures Admissible(handlers, provided, response, m, f) <==>
      Admissible(handlers, provided, response, m[..|m| - 1], f) &&
      EntryAdmissible(handlers, provided, response, m[|m| - 1], f)
  {
    assert forall i :: 0 <= i < |m| - 1 ==> m[..|m| - 1][i] == m[i];
  }

  /** `_create_input_nub`'s loops finish exactly on admissible registries. */
  lemma {:induction false} InputNubScanAdmissible(handlers: map<string, Layers.InputHandler>, provided: seq<string>,
                                                  response: Option<string>, m: TypeMap, f: Frame)
    ensures InputNubScan(handlers, provided, response, m, f).Ok? <==> Admissible(handlers, provided, response, m, f)
    decreases |m|
  {
    if m != [] {
      var front := m[..|m| - 1];
      var last := m[|m| - 1];
      InputNubScanAdmissible(handlers, provided, response, front, f);
      AdmissibleSnoc(handlers, provided, response, m, f);
      var prev := InputNubScan(handlers, provided, response, front, f);
      if prev.Ok? && |last.1| > 0 && last.0 in handlers {
        VarsScanAdmissible(handlers[last.0], provided, response, last.1, f, prev.value);
      }
    }
  }

  /** The type each input variable is listed under, position by position with `InputVariables`. */
  function InputTypes(m: TypeMap, response: Option<string>): (r: seq<string>)
    ensures |r| == |InputVariables(m, response)|
    decreases |m|
  {
    if m == [] then []
    else
      var last := m[|m| - 1];
      InputTypes(m[..|m| - 1], response) + seq(|NonResponse(last.1, response)|, _ => last.0)
  }

  /** The layers built: the j-th input and tip are what the handler of type `ts[j]` builds for `vs[j]`. */
  predicate BuildsHandled(handlers: map<string, Layers.InputHandler>, vs: seq<string>, ts: seq<string>, f: Frame, b: Built)
  {
    && |b.0| == |b.1| == |vs| == |ts|
    && forall j :: 0 <= j < |vs| ==>
         ts[j] in handlers && KerasConstants.ApplyHandler(handlers[ts[j]], vs[j], f) == Ok((b.0[j], b.1[j]))
  }

  /** A list's handled layers, appended after a registry prefix's, extend what the prefix built. */
  lemma BuildsHandledAppend(handlers: map<string, Layers.InputHandler>, vs: seq<string>, ts: seq<string>,
                            key: string, nr: seq<string>, f: Frame, prev: Built, b: Built)
    requires BuildsHandled(handlers, vs, ts, f, prev)
    requires key in handlers && AppendsHandled(handlers[key], nr, f, prev, b)
    ensures BuildsHandled(handlers, vs + nr, ts + seq(|nr|, _ => key), f, b)
  {
    var vs' := vs + nr;
    var ts' := ts + seq(|nr|, _ => key);
    forall j | 0 <= j < |vs'|
      ensures ts'[j] in handlers && KerasConstants.ApplyHandler(handlers[ts'[j]], vs'[j], f) == Ok((b.0[j], b.1[j]))
    {
      if j < |vs| {
        assert vs'[j] == vs[j] && ts'[j] == ts[j];
        assert b.0[..|prev.0|][j] == b.0[j];
        assert b.1[..|prev.1|][j] == b.1[j];
      } else {
        assert vs'[j] == nr[j - |vs|] && ts'[j] == key;
      }
    }
  }

  /**
   * Finished loops build, for the j-th listed non-response variable in
   * registry order, the j-th input layer and the j-th tip, as the handler of
   * the type it is listed under builds them.
   */
  lemma {:induction false} InputNubScanLayers(handlers: map<string, Layers.InputHandler>, provided: seq<string>,
                                              response: Option<string>, m: TypeMap, f: Frame)
    ensures var r := InputNubScan(handlers, provided, response, m, f);
      r.Ok? ==> BuildsHandled(handlers, InputVariables(m, response), InputTypes(m, response), f, r.value)
    decreases |m|
  {
    if m != [] {
      var front := m[..|m| - 1];
      var last := m[|m| - 1];
      InputNubScanLayers(handlers, provided, response, front, f);
      var prev := InputNubScan(handlers, provided, response, front, f);
      var r := InputNubScan(handlers, provided, response, m, f);
      if prev.Ok? && r.Ok? {
        var nr := NonResponse(last.1, response);
        if |last.1| == 0 {
          assert nr == [];
          assert InputVariables(m, response) == InputVariables(front, response);
          assert InputTypes(m, response) == InputTypes(front, response);
        } else {
          VarsScanGrows(handlers[last.0], provided, response, last.1, f, prev.value);
          BuildsHandledAppend(handlers, InputVariables(front, response), InputTypes(front, response),
                              last.0, nr, f, prev.value, r.value);
        }
      }
    }
  }

  /**
   * `_create_input_nub`'s loops finish exactly on admissible registries,
   * and then build, per listed variable other than the response, the input
   * layer and the tip its type's handler builds, in registry order.
   */
  lemma InputNubScanOutcome(handlers: map<string, Layers.InputHandler>, provided: seq<string>,
                            response: Option<string>, m: TypeMap, f: Frame)
    ensures var r := InputNubScan(handlers, provided, response, m, f);
      && (r.Ok? <==> Admissible(handlers, provided, response, m, f))
      && (r.Ok? ==> BuildsHandled(handlers, InputVariables(m, response), InputTypes(m, response), f, r.value))
  {
    InputNubScanAdmissible(handlers, provided, response, m, f);
    InputNubScanLayers(handlers, provided, response, m, f);
  }

  /**
   * With the orchestrator's own handler table, whose one handler is a stub,
   * the loops finish only when no variable needs a layer: every listed
   * variable is the response.
   */
  lemma DefaultHandlersBuildNothing(provided: seq<string>, response: Option<string>, m: TypeMap, f: Frame)
    requires InputNubScan(map["numerical_vars" := Layers.NumericStub], provided, response, m, f).Ok?
    ensures InputVariables(m, response) == []
    ensures InputNubScan(map["numerical_vars" := Layers.NumericStub], provided, response, m, f).value == ([], [])
  {
    var handlers := map["numerical_vars" := Layers.NumericStub];
    InputNubScanAdmissible(handlers, provided, response, m, f);
    forall v | v in Flatten(m) ensures response == Some(v) {
      var i :| 0 <= i < |m| && v in m[i].1;
      assert EntryAdmissible(handlers, provided, response, m[i], f);
      assert m[i].0 == "numerical_vars";
      assert KerasConstants.ApplyHandler(handlers[m[i].0], v, f) == Err(TypeError);
    }
    if InputVariables(m, response) != [] {
      var first := InputVariables(m, response)[0];
      // Naming the membership lets the postcondition of InputVariables apply to `first`.
      ghost var listed := first in InputVariables(m, response);
    }
    InputNubScanLayers(handlers, provided, response, m, f);
  }

  /** How the nub tips are combined: none, the single tip, or their concatenation. */
  function CombineTips(tips: seq<Layers.Layer>): (r: Option<Layers.Layer>)
    ensures |tips| == 0 <==> r.None?
    ensures |tips| == 1 ==> r == Some(tips[0])
    ensures |tips| > 1 ==> r == Some(Layers.Concatenate(tips))
  {
    if |tips| > 1 then Some(Layers.Concatenate(tips))
    else if |tips| == 1 then Some(tips[0])
    else None
  }

  /** The tips a combined nub holds. */
  function TipsOf(nub: Option<Layers.Layer>): seq<Layers.Layer> {
    match nub
    case None => []
    case Some(Concatenate(sources)) => sources
    case Some(layer) => [layer]
  }

  /** Combining loses no tip and adds none, as long as no tip is itself a concatenation. */
  lemma CombineTipsRoundTrip(tips: seq<Layers.Layer>)
    requires forall t :: t in tips ==> !t.Concatenate?
    ensures TipsOf(CombineTips(tips)) == tips
  {
    if |tips| == 1 {
      assert tips[0] in tips;
    }
  }

  /** `_create_input_nub`: the input layers and the combined nub, or the first error the loops raise. */
  function InputNubOutcome(handlers: map<string, Layers.InputHandler>, provided: seq<string>, response: Option<string>,
                           m: TypeMap, f: Frame): (r: Result<(seq<Layers.Layer>, Option<Layers.Layer>)>)
    ensures r.Ok? <==> InputNubScan(handlers, provided, response, m, f).Ok?
  {
    var built :- InputNubScan(handlers, provided, response, m, f);
    Ok((built.0, CombineTips(built.1)))
  }

  // ---------------------------------------------------------------------------
  // Output nub
  // ---------------------------------------------------------------------------

  /** The types whose list holds `y`, in registry order (the `filter` then `map` of `_create_output_nub`). */
  function ResponseTypes(m: TypeMap, y: string): (r: seq<string>)
    ensures |r| <= |m|
    decreases |m|
  {
    if m == [] then []
    else ResponseTypes(m[..|m| - 1], y) + (if y in m[|m| - 1].1 then [m[|m| - 1].0] else [])
  }

  /**
   * `_create_output_nub`: a ValueError unless exactly one type lists the
   * response; a one-unit linear layer when that type is numerical; a
   * NotImplementedError for any other type.
   */
  function CreateOutputNub(m: TypeMap, y: string): (r: Result<Layers.Layer>)
    ensures |ResponseTypes(m, y)| != 1 <==> r == Err(ValueError)
    ensures r.Ok? <==> ResponseTypes(m, y) == ["numerical_vars"]
    ensures r.Ok? ==> r.value == Layers.Dense(1, Layers.Linear)
    ensures r.Err? && |ResponseTypes(m, y)| == 1 ==> r.error == NotImplementedError
  {
    var types := ResponseTypes(m, y);
    if |types| < 1 then Err(ValueError)
    else if |types| > 1 then Err(ValueError)
    else if types[0] == "numerical_vars" then Ok(Layers.Dense(1, Layers.Linear))
    else Err(NotImplementedError)
  }

  /** Membership in `ResponseTypes`: exactly the types of entries listing `y`. */
  lemma {:induction false} ResponseTypesMembers(m: TypeMap, y: string)
    ensures forall k :: k in ResponseTypes(m, y) <==> exists i :: 0 <= i < |m| && m[i].0 == k && y in m[i].1
    decreases |m|
  {
    if m != [] {
      var front := m[..|m| - 1];
      ResponseTypesMembers(front, y);
      assert forall i :: 0 <= i < |front| ==> front[i] == m[i];
      forall k | k in ResponseTypes(m, y)
        ensures exists i :: 0 <= i < |m| && m[i].0 == k && y in m[i].1
      {
        if k !in ResponseTypes(front, y) {
          assert m[|m| - 1].0 == k && y in m[|m| - 1].1;
        }
      }
      forall k | exists i :: 0 <= i < |m| && m[i].0 == k && y in m[i].1
        ensures k in ResponseTypes(m, y)
      {
        var i :| 0 <= i < |m| && m[i].0 == k && y in m[i].1;
        if i < |front| {
          assert front[i] == m[i];
        }
      }
    }
  }

  /** Registry keys are distinct, as in a dict. */
  predicate DistinctKeys(m: TypeMap) {
    forall i, j :: 0 <= i < j < |m| ==> m[i].0 != m[j].0
  }

  /**
   * On a registry that passed the disjointness check, a listed response
   * variable has exactly one type, so `_create_output_nub` never reports
   * "more than one list"; an unlisted one has none.
   */
  lemma {:induction false} ResponseTypeUnique(m: TypeMap, y: string)
    requires DistinctKeys(m) && Disjoint(m)
    ensures |ResponseTypes(m, y)| == (if y in Flatten(m) then 1 else 0)
    decreases |m|
  {
    if m != [] {
      var front := m[..|m| - 1];
      var last := m[|m| - 1];
      assert DistinctKeys(front) && Disjoint(front) by {
        forall i, j | 0 <= i < |front| && 0 <= j < |front| ensures !Clash(front, i, j) {
          assert !Clash(m, i, j);
        }
      }
      ResponseTypeUnique(front, y);
      assert !(y in last.1 && y in Flatten(front)) by {
        if y in last.1 && y in Flatten(front) {
          var i :| 0 <= i < |front| && y in front[i].1;
          assert front[i] == m[i];
          assert y in Shared(m[i].1, m[|m| - 1].1);
          // Naming the pair lets Disjoint(m) apply to it.
          ghost var clash := Clash(m, i, |m| - 1);
          assert false;
        }
      }
      assert ResponseTypes(m, y) == ResponseTypes(front, y) + (if y in last.1 then [last.0] else []);
      assert y in Flatten(m) <==> y in Flatten(front) || y in last.1 by {
        assert Flatten(m) == Flatten(front) + last.1;
      }
    }
  }

  // ---------------------------------------------------------------------------
  // Transform
  // ---------------------------------------------------------------------------

  /** `dataframe[name] = None` for a label the frame lacks: a None-filled column at the end. */
  function AddNullColumn(f: Frame, name: string): (r: Frame)
    ensures r.rowCount == f.rowCount && r.cols == f.cols + [NullColumn(name)]
  {
    Frame(f.rowCount, f.cols + [NullColumn(name)])
  }

  /** The columns not labelled `name`, in order. */
  function ColumnsNotNamed(cols: seq<Column>, name: string): (r: seq<Column>)
    ensures forall c :: c in r <==> c in cols && c.name != name
  {
    if cols == [] then []
    else (if cols[0].name != name then [cols[0]] else []) + ColumnsNotNamed(cols[1..], name)
  }

  /** `frame.drop(name, axis=1)`: a KeyError when no column has that label, else the frame without every such column. */
  function Drop(f: Frame, name: string): (r: Result<Frame>)
    ensures r.Ok? <==> name in Names(f)
    ensures r.Err? ==> r.error == KeyError
    ensures r.Ok? ==> r.value.rowCount == f.rowCount && name !in Names(r.value)
    ensures r.Ok? ==> forall c :: c in r.value.cols <==> c in f.cols && c.name != name
  {
    if name !in Names(f) then Err(KeyError)
    else
      var kept := Frame(f.rowCount, ColumnsNotNamed(f.cols, name));
      assert name !in Names(kept) by {
        forall i | 0 <= i < |kept.cols| ensures kept.cols[i].name != name {
          assert kept.cols[i] in kept.cols;
        }
      }
      Ok(kept)
  }

  /** The user-provided variables that are not columns of `f` (`set(provided).difference(columns)`). */
  function Missing(provided: seq<string>, f: Frame): (r: set<string>)
    ensures forall v :: v in r <==> v in provided && v !in Names(f)
  {
    (set v | v in provided) - (set n | n in Names(f))
  }

  /** The response, as a set of at most one name. */
  function ResponseSet(response: Option<string>): set<string> {
    if response.Some? then {response.value} else {}
  }

  /** `transform` fills the response with None when it is set, user-provided and not a column. */
  predicate FillsResponse(provided: seq<string>, response: Option<string>, f: Frame) {
    response.Some? && response.value in Missing(provided, f)
  }

  /** The caller's frame after `transform`: with the response filled in, when it was filled. */
  function FrameAfterTransform(provided: seq<string>, response: Option<string>, f: Frame): Frame {
    if FillsResponse(provided, response, f) then AddNullColumn(f, response.value) else f
  }

  /** What `transform` returns: the transformed frame, or its inputs and its response column. */
  datatype TransformOutput = FrameOut(frame: Frame) | Arrays(x: Frame, y: Option<Matrix>)

  /**
   * `transform`, given what the fitted mapper's transform does to a frame:
   * a ValueError naming the missing user-provided variables other than the
   * response; otherwise the mapper's output, without a filled-in response,
   * either as a frame or split into inputs and response. Split output
   * raises AttributeError when the response label is repeated, since the
   * selection is then a frame without `tolist`.
   */
  function TransformOutcome(provided: seq<string>, response: Option<string>, dfOut: bool, f: Frame,
                            mapperTransform: Frame -> Frame): (r: Result<TransformOutput>)
  {
    var filled := FillsResponse(provided, response, f);
    var missing := if filled then Missing(provided, f) - {response.value} else Missing(provided, f);
    if |missing| > 0 then Err(MissingVariables(missing))
    else
      var transformed := mapperTransform(FrameAfterTransform(provided, response, f));
      var out :- if filled then Drop(transformed, response.value) else Ok(transformed);
      if dfOut then Ok(FrameOut(out))
      else if response.Some? && !filled then
        var x :- Drop(out, response.value);
        // A repeated label selects a frame, which has no `tolist`.
        if |ColumnsNamedIn(out.cols, {response.value})| > 1 then Err(AttributeError)
        else Ok(Arrays(x, Some(SelectColumn(out, response.value).value)))
      else Ok(Arrays(out, None))
  }

  /**
   * `transform` reports missing variables exactly when a user-provided
   * variable other than the response is not a column, and names exactly
   * those variables; a missing response alone is never an error.
   */
  lemma TransformReportsMissing(provided: seq<string>, response: Option<string>, dfOut: bool, f: Frame,
                                mapperTransform: Frame -> Frame)
    ensures var r := TransformOutcome(provided, response, dfOut, f, mapperTransform);
      var expected := Missing(provided, f) - ResponseSet(response);
      && ((r.Err? && r.error.MissingVariables?) <==> expected != {})
      && (expected != {} ==> r == Err(MissingVariables(expected)))
  {
    var expected := Missing(provided, f) - ResponseSet(response);
    var filled := FillsResponse(provided, response, f);
    var missing := if filled then Missing(provided, f) - {response.value} else Missing(provided, f);
    assert missing == expected by {
      if !filled && response.Some? {
        assert response.value !in Missing(provided, f);
      }
    }
    if expected == {} {
      assert |missing| == 0;
      TransformErrorsAfterCheck(provided, response, dfOut, f, mapperTransform);
    } else {
      assert |missing| > 0;
    }
  }

  /**
   * Once no variable is missing, the only errors left are the KeyError of a
   * `drop` and, for split output, the AttributeError of a repeated response.
   */
  lemma TransformErrorsAfterCheck(provided: seq<string>, response: Option<string>, dfOut: bool, f: Frame,
                                  mapperTransform: Frame -> Frame)
    requires |if FillsResponse(provided, response, f) then Missing(provided, f) - {response.value} else Missing(provided, f)| == 0
    ensures var r := TransformOutcome(provided, response, dfOut, f, mapperTransform);
      r.Err? ==> r.error == KeyError || (r.error == AttributeError && !dfOut)
  {
    var transformed := mapperTransform(FrameAfterTransform(provided, response, f));
    var out := if FillsResponse(provided, response, f) then Drop(transformed, response.value) else Ok(transformed);
    if out.Ok? && !dfOut && response.Some? && !FillsResponse(provided, response, f) {
      var x := Drop(out.value, response.value);
      assert x.Err? ==> x.error == KeyError;
    }
  }

  /** A response that had to be filled in never reaches the result. */
  lemma TransformDropsFilledResponse(provided: seq<string>, response: Option<string>, dfOut: bool, f: Frame,
                                     mapperTransform: Frame -> Frame)
    requires FillsResponse(provided, response, f)
    ensures var r := TransformOutcome(provided, response, dfOut, f, mapperTransform);
      r.Ok? ==> match r.value
        case FrameOut(frame) => response.value !in Names(frame)
        case Arrays(x, y) => response.value !in Names(x) && y.None?
  {
  }

  /**
   * Split output with a response that was present: the inputs lack the
   * response and the response column comes back on its own.
   */
  lemma TransformSplitsResponse(provided: seq<string>, response: Option<string>, f: Frame,
                                mapperTransform: Frame -> Frame)
    requires response.Some? && !FillsResponse(provided, response, f)
    ensures var r := TransformOutcome(provided, response, false, f, mapperTransform);
      r.Ok? ==> (
        && r.value.Arrays? && response.value !in Names(r.value.x) && r.value.y.Some?
        && var out := mapperTransform(f);
        && |ColumnsNamedIn(out.cols, {response.value})| == 1
        && r.value.y.value == SelectColumn(out, response.value).value
        && |r.value.y.value.shape| == 1
        && forall c :: c in r.value.x.cols <==> c in out.cols && c.name != response.value)
  {
  }

  /**
   * Split output with a response that was present and nothing missing: a
   * KeyError when the mapper output lacks the response, and otherwise an
   * AttributeError exactly when its label is repeated there.
   */
  lemma TransformRepeatedResponse(provided: seq<string>, response: Option<string>, f: Frame,
                                  mapperTransform: Frame -> Frame)
    requires response.Some? && !FillsResponse(provided, response, f) && Missing(provided, f) == {}
    ensures var out := mapperTransform(f);
      var r := TransformOutcome(provided, response, false, f, mapperTransform);
      && (response.value !in Names(out) ==> r == Err(KeyError))
      && (response.value in Names(out) ==>
            (r == Err(AttributeError) <==> |ColumnsNamedIn(out.cols, {response.value})| > 1))
  {
    var out := mapperTransform(f);
    assert FrameAfterTransform(provided, response, f) == f;
    if response.value in Names(out) {
      assert Drop(out, response.value).Ok?;
    }
  }

  /** Without a response, split output carries no response column and keeps the whole mapper output. */
  lemma TransformWithoutResponse(provided: seq<string>, f: Frame, mapperTransform: Frame -> Frame)
    requires Missing(provided, f) == {}
    ensures TransformOutcome(provided, None, false, f, mapperTransform) == Ok(Arrays(mapperTransform(f), None))
    ensures TransformOutcome(provided, None, true, f, mapperTransform) == Ok(FrameOut(mapperTransform(f)))
  {
  }
}
