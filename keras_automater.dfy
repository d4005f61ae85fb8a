/**
 * The newer package's Automater, as far as it goes: construction, its
 * configuration checks, and the guards at the top of the fitting and
 * prediction entry points.
 *
 * The variable lists a caller passes in are heap objects. `reduce(+, ...)`
 * over a single list returns that very list, so removing the response
 * variable from the input variables also removes it from the caller's type
 * dictionary; over two or more lists it returns a new list and the caller's
 * lists are left alone. The model keeps the lists as objects to capture this.
 */
module KerasAutomater {
  import opened Wrappers
  import opened Registry
  import opened Frames
  import Layers

  /** A Python list object of variable names, which `remove` updates in place. */
  class VarList {
    var items: seq<string>

    constructor (items: seq<string>)
      ensures this.items == items
    {
      this.items := items;
    }

    /** `list.remove(x)` for an `x` the list holds: drops its first occurrence. */
    method Remove(x: string)
      requires x in items
      modifies this
      ensures items == RemoveFirst(old(items), x)
    {
      var i := 0;
      while items[i] != x
        invariant 0 <= i < |items|
        invariant forall k :: 0 <= k < i ==> items[k] != x
        invariant x in items[i..]
        decreases |items| - i
      {
        i := i + 1;
      }
      RemoveFirstAt(items, x, i);
      items := items[..i] + items[i + 1..];
    }
  }

  /** The list without the first occurrence of `x` (unchanged when `x` is absent). */
  function RemoveFirst(s: seq<string>, x: string): (r: seq<string>)
    ensures x in s ==> |r| == |s| - 1
    ensures x !in s ==> r == s
    ensures multiset(r) == multiset(s) - multiset{x}
  {
    if s == [] then []
    else if s[0] == x then
      assert s == [s[0]] + s[1..];
      s[1..]
    else
      assert s == [s[0]] + s[1..];
      [s[0]] + RemoveFirst(s[1..], x)
  }

  /** Removing at the first position holding `x` is removing the first occurrence. */
  lemma {:induction false} RemoveFirstAt(s: seq<string>, x: string, i: nat)
    requires i < |s| && s[i] == x
    requires forall k :: 0 <= k < i ==> s[k] != x
    ensures RemoveFirst(s, x) == s[..i] + s[i + 1..]
  {
    if i == 0 {
      assert s[..0] + s[1..] == s[1..];
    } else {
      var tail := s[1..];
      calc {
        RemoveFirst(s, x);
        { assert s[0] != x; }
        [s[0]] + RemoveFirst(tail, x);
        { RemoveFirstAt(tail, x, i - 1); }
        [s[0]] + (tail[..i - 1] + tail[i..]);
        { assert [s[0]] + tail[..i - 1] == s[..i]; assert tail[i..] == s[i + 1..]; }
        s[..i] + s[i + 1..];
      }
    }
  }

  /** The variable lists as the type dictionary currently holds them. */
  function View(dict: seq<(string, VarList)>): (r: TypeMap)
    reads set i | 0 <= i < |dict| :: dict[i].1
    ensures |r| == |dict|
    ensures forall i :: 0 <= i < |dict| ==> r[i] == (dict[i].0, dict[i].1.items)
  {
    seq(|dict|, i requires 0 <= i < |dict| reads set j | 0 <= j < |dict| :: dict[j].1 => (dict[i].0, dict[i].1.items))
  }

  /**
   * The type lists after construction, given the lists before it: with
   * exactly one list, it loses the first occurrence of the response
   * variable; otherwise nothing changes.
   */
  function ListsAfterConstruction(lists: TypeMap, outputVar: Option<string>): (r: TypeMap)
    ensures |r| == |lists|
    ensures |lists| != 1 || outputVar.None? ==> r == lists
    ensures |lists| == 1 && outputVar.Some? ==>
      r == [(lists[0].0, RemoveFirst(lists[0].1, outputVar.value))]
  {
    if |lists| == 1 && outputVar.Some? then [(lists[0].0, RemoveFirst(lists[0].1, outputVar.value))]
    else lists
  }

  /**
   * `_valid_configurations_check`, on the lists as they stand after
   * construction: every two type lists disjoint, and a response variable,
   * when there is one, listed somewhere.
   */
  function ValidConfigurationsCheck(lists: TypeMap, outputVar: Option<string>): (r: Result<()>)
    ensures r.Ok? <==> Disjoint(lists) && (outputVar.Some? ==> outputVar.value in Flatten(lists))
    ensures r.Err? ==> r.error.IsValueError()
    ensures !Disjoint(lists) ==> r.Err? && r.error.Overlap?
  {
    var disjoint := CheckVariableListsAreValid(lists);
    if disjoint.Err? then Err(disjoint.error)
    else if outputVar.Some? && outputVar.value !in Flatten(lists) then Err(ValueError)
    else Ok(())
  }

  /**
   * What construction reports for the given lists: a TypeError when there
   * are none (`reduce` of nothing), else the configuration check on the lists
   * as construction leaves them.
   */
  function ConstructionOutcome(lists: TypeMap, outputVar: Option<string>): (r: Result<()>)
    ensures lists == [] ==> r == Err(TypeError)
    ensures lists != [] ==> r == ValidConfigurationsCheck(ListsAfterConstruction(lists, outputVar), outputVar)
  {
    if lists == [] then Err(TypeError)
    else ValidConfigurationsCheck(ListsAfterConstruction(lists, outputVar), outputVar)
  }

  /**
   * With a single type list, a response variable listed exactly once is
   * removed from that list by construction, and the check that follows then
   * rejects the configuration.
   */
  lemma SingleListLosesResponse(key: string, vars: seq<string>, outputVar: string)
    requires multiset(vars)[outputVar] == 1
    ensures ConstructionOutcome([(key, vars)], Some(outputVar)) == Err(ValueError)
  {
    var after := RemoveFirst(vars, outputVar);
    assert multiset(after)[outputVar] == 0;
    assert Flatten([(key, after)]) == after by {
      assert [(key, after)][..0] == [];
    }
  }

  /**
   * With two or more type lists, nothing is removed from them, so a disjoint
   * registry that lists the response variable is accepted.
   */
  lemma SeveralListsKeepResponse(lists: TypeMap, outputVar: string)
    requires |lists| >= 2 && Disjoint(lists)
    requires outputVar in Flatten(lists)
    ensures ConstructionOutcome(lists, Some(outputVar)) == Ok(())
  {
  }

  class Automater {
    const dataTypeDict: seq<(string, VarList)>
    const inputVars: VarList
    const outputVar: Option<string>
    const supervised: bool
    var inputMapper: Option<Layers.Mapper>
    var outputMapper: Option<Layers.Mapper>
    var fitted: bool
    const dataTypeHandlers: map<string, Option<Layers.InputHandler>>

    constructor Init(dataTypeDict: seq<(string, VarList)>, inputVars: VarList, outputVar: Option<string>)
      ensures this.dataTypeDict == dataTypeDict && this.inputVars == inputVars && this.outputVar == outputVar
      ensures supervised <==> outputVar.Some?
      ensures inputMapper.None? && outputMapper.None? && !fitted
      ensures dataTypeHandlers == map["numerical" := None, "categorical" := None]
    {
      this.dataTypeDict := dataTypeDict;
      this.inputVars := inputVars;
      this.outputVar := outputVar;
      supervised := outputVar.Some?;
      inputMapper := None;
      outputMapper := None;
      fitted := false;
      dataTypeHandlers := map["numerical" := None, "categorical" := None];
    }

    /**
     * `Automater(data_type_dict, output_var)`: the input variables are the
     * concatenation of all type lists without the first occurrence of the
     * response variable; the caller's single list, when there is only one,
     * is that same list object. The construction fails exactly as
     * `ConstructionOutcome` says.
     */
    static method New(dataTypeDict: seq<(string, VarList)>, outputVar: Option<string>) returns (r: Result<Automater>)
      modifies set i | 0 <= i < |dataTypeDict| :: dataTypeDict[i].1
      ensures r.Ok? <==> ConstructionOutcome(old(View(dataTypeDict)), outputVar).Ok?
      ensures r.Err? ==> r.error == ConstructionOutcome(old(View(dataTypeDict)), outputVar).error
      ensures View(dataTypeDict) == if dataTypeDict == [] then [] else ListsAfterConstruction(old(View(dataTypeDict)), outputVar)
      ensures r.Ok? ==>
        && r.value.dataTypeDict == dataTypeDict
        && r.value.inputVars.items == (if outputVar.Some? then RemoveFirst(Flatten(old(View(dataTypeDict))), outputVar.value)
                                       else Flatten(old(View(dataTypeDict))))
        && (|dataTypeDict| == 1 ==> r.value.inputVars == dataTypeDict[0].1)
        && r.value.outputVar == outputVar
        && (r.value.supervised <==> outputVar.Some?)
        && !r.value.fitted && r.value.inputMapper.None? && r.value.outputMapper.None?
    {
      ghost var before := View(dataTypeDict);
      var inputVars :- InputVarsOf(dataTypeDict, outputVar);
      ghost var after := View(dataTypeDict);
      assert after == ListsAfterConstruction(before, outputVar);
      var check := ValidConfigurationsCheck(View(dataTypeDict), outputVar);
      assert check == ConstructionOutcome(before, outputVar);
      if check.Err? {
        return Err(check.error);
      }
      var a := new Automater.Init(dataTypeDict, inputVars, outputVar);
      assert View(dataTypeDict) == after;
      r := Ok(a);
    }

    /**
     * The input variables of `__init__`: the `reduce` over the type lists,
     * then the response variable's first occurrence removed from the result.
     * With a single list the removal happens in the caller's list itself.
     */
    static method InputVarsOf(dataTypeDict: seq<(string, VarList)>, outputVar: Option<string>) returns (r: Result<VarList>)
      modifies set i | 0 <= i < |dataTypeDict| :: dataTypeDict[i].1
      ensures r.Err? <==> dataTypeDict == []
      ensures r.Err? ==> r.error == TypeError
      ensures View(dataTypeDict) == if dataTypeDict == [] then [] else ListsAfterConstruction(old(View(dataTypeDict)), outputVar)
      ensures r.Ok? ==> r.value.items == if outputVar.Some? then RemoveFirst(Flatten(old(View(dataTypeDict))), outputVar.value)
                                         else Flatten(old(View(dataTypeDict)))
      ensures |dataTypeDict| == 1 ==> r == Ok(dataTypeDict[0].1)
    {
      ghost var before := View(dataTypeDict);
      var reduced := Reduce(dataTypeDict);
      if reduced.Err? {
        return Err(reduced.error);
      }
      var inputVars := reduced.value;
      RemoveResponse(inputVars, outputVar);
      if |dataTypeDict| == 1 {
        assert View(dataTypeDict) == ListsAfterConstruction(before, outputVar);
      } else {
        assert View(dataTypeDict) == before;
      }
      r := Ok(inputVars);
    }

    /**
     * `reduce(lambda x, y: x + y, values)`: a TypeError for no lists, the
     * one list object itself for a single list, and a new list holding the
     * concatenation for several.
     */
    static method Reduce(dataTypeDict: seq<(string, VarList)>) returns (r: Result<VarList>)
      ensures dataTypeDict == [] <==> r.Err?
      ensures r.Err? ==> r.error == TypeError
      ensures r.Ok? ==> r.value.items == Flatten(View(dataTypeDict))
      ensures |dataTypeDict| == 1 ==> r == Ok(dataTypeDict[0].1)
      ensures |dataTypeDict| > 1 ==> r.Ok? && fresh(r.value)
    {
      if |dataTypeDict| == 0 {
        return Err(TypeError);
      }
      if |dataTypeDict| == 1 {
        ghost var lists := View(dataTypeDict);
        assert lists[..0] == [];
        return Ok(dataTypeDict[0].1);
      }
      var concatenated := new VarList(Flatten(View(dataTypeDict)));
      r := Ok(concatenated);
    }

    /** Removes the first occurrence of the response variable from the input variables, when they hold it. */
    static method RemoveResponse(inputVars: VarList, outputVar: Option<string>)
      modifies inputVars
      ensures inputVars.items == if outputVar.Some? then RemoveFirst(old(inputVars.items), outputVar.value)
                                 else old(inputVars.items)
    {
      if outputVar.Some? && outputVar.value in inputVars.items {
        inputVars.Remove(outputVar.value);
      }
    }

    /** `_check_fitted`: an AssertionError before fitting, True after. */
    function CheckFitted(): (r: Result<bool>)
      reads this
      ensures r.Ok? <==> fitted
      ensures r.Err? ==> r.error == AssertionError
      ensures r.Ok? ==> r.value
    {
      if !fitted then Err(AssertionError) else Ok(true)
    }

    /** `_check_response_var`: an AssertionError without a response variable, True with one. */
    function CheckResponseVar(): (r: Result<bool>)
      reads this
      ensures r.Ok? <==> outputVar.Some?
      ensures r.Err? ==> r.error == AssertionError
      ensures r.Ok? ==> r.value
    {
      if outputVar.None? then Err(AssertionError) else Ok(true)
    }

    /** `fit`: its body is still a stub; it changes nothing and returns None. */
    method Fit(df: Frame) returns (self: Option<Automater>)
      ensures self.None?
    {
      self := None;
    }

    /** `transform`: checks that the Automater is fitted, then returns None. */
    function Transform(df: Frame, dfOut: bool): (r: Result<()>)
      reads this
      ensures r.Ok? <==> fitted
      ensures r.Err? ==> r.error == AssertionError
    {
      var _ :- CheckFitted();
      Ok(())
    }

    /** `suggest_loss`: the fitted check, then the response-variable check, then None. */
    function SuggestLoss(): (r: Result<Option<Layers.Loss>>)
      reads this
      ensures r.Ok? <==> fitted && outputVar.Some?
      ensures r.Err? ==> r.error == AssertionError
      ensures r.Ok? ==> r.value.None?
    {
      var _ :- CheckFitted();
      var _ :- CheckResponseVar();
      Ok(None)
    }

    /** `inverse_transform_output`: the same two checks, then None. */
    function InverseTransformOutput(y: seq<int>): (r: Result<Option<seq<int>>>)
      reads this
      ensures r.Ok? <==> fitted && outputVar.Some?
      ensures r.Err? ==> r.error == AssertionError
      ensures r.Ok? ==> r.value.None?
    {
      var _ :- CheckFitted();
      var _ :- CheckResponseVar();
      Ok(None)
    }

    /**
     * `fit_transform`: `fit` returns None, so calling `transform` on its
     * result raises an AttributeError whatever the input.
     */
    method FitTransform(df: Frame) returns (r: Result<()>)
      ensures r == Err(AttributeError)
    {
      var self := Fit(df);
      r := CallTransform(self, df);
    }
  }

  /** `target.transform(df)`: an AttributeError when the target is None. */
  function CallTransform(target: Option<Automater>, df: Frame): (r: Result<()>)
    reads if target.Some? then {target.value} else {}
    ensures target.None? ==> r == Err(AttributeError)
    ensures target.Some? ==> r == target.value.Transform(df, false)
  {
    match target
    case None => Err(AttributeError)
    case Some(a) => a.Transform(df, false)
  }

  /**
   * Nothing in the class sets `fitted`, so after construction and `fit` the
   * entry points that check it all raise an AssertionError.
   */
  method FitThenPredict(dict: seq<(string, VarList)>, outputVar: Option<string>, df: Frame)
    returns (transformed: Result<()>, loss: Result<Option<Layers.Loss>>, inverse: Result<Option<seq<int>>>)
    modifies set i | 0 <= i < |dict| :: dict[i].1
    ensures ConstructionOutcome(old(View(dict)), outputVar).Ok? ==>
      transformed == Err(AssertionError) && loss == Err(AssertionError) && inverse == Err(AssertionError)
  {
    var a := Automater.New(dict, outputVar);
    if a.Err? {
      return Err(a.error), Err(a.error), Err(a.error);
    }
    var _ := a.value.Fit(df);
    transformed := a.value.Transform(df, false);
    loss := a.value.SuggestLoss();
    inverse := a.value.InverseTransformOutput([]);
  }
}
