/**
 * The variable registry: a map from a variable type (such as
 * 'numerical_vars') to the list of variables of that type.
 *
 * A Python dict is modelled as the sequence of its (key, list) entries in
 * iteration order. The validity check walks every ordered pair of entries,
 * skips a pair whose keys are equal (an entry is never compared with itself),
 * and raises a ValueError naming the first pair whose lists share a variable.
 */
module Registry {
  import opened Wrappers

  type TypeMap = seq<(string, seq<string>)>

  /** The variables two lists have in common, as `set(a).intersection(set(b))`. */
  function Shared(a: seq<string>, b: seq<string>): (r: set<string>)
    ensures forall x :: x in r <==> x in a && x in b
  {
    set x | x in a && x in b
  }

  /** Entries `i` and `j` are compared (different keys) and their lists share a variable. */
  predicate Clash(m: TypeMap, i: nat, j: nat)
    requires i < |m| && j < |m|
  {
    m[i].0 != m[j].0 && Shared(m[i].1, m[j].1) != {}
  }

  /** Every two entries with different keys have disjoint lists. */
  predicate Disjoint(m: TypeMap) {
    forall i, j :: 0 <= i < |m| && 0 <= j < |m| ==> !Clash(m, i, j)
  }

  /** The inner loop, from inner position `j` on: the first entry that clashes with entry `i`. */
  function ScanInner(m: TypeMap, i: nat, j: nat): (r: Option<nat>)
    requires i < |m| && j <= |m|
    ensures r.None? <==> forall k :: j <= k < |m| ==> !Clash(m, i, k)
    ensures r.Some? ==> j <= r.value < |m| && Clash(m, i, r.value)
    ensures r.Some? ==> forall k :: j <= k < r.value ==> !Clash(m, i, k)
    decreases |m| - j
  {
    if j == |m| then None
    else if Clash(m, i, j) then Some(j)
    else ScanInner(m, i, j + 1)
  }

  /**
   * The outer loop, from outer position `i` on: the first clashing pair
   * (outer, inner) in the order the nested loops visit them.
   */
  function ScanOuter(m: TypeMap, i: nat): (r: Option<(nat, nat)>)
    requires i <= |m|
    ensures r.None? <==> forall a, b :: i <= a < |m| && 0 <= b < |m| ==> !Clash(m, a, b)
    ensures r.Some? ==> i <= r.value.0 < |m| && r.value.1 < |m| && Clash(m, r.value.0, r.value.1)
    ensures r.Some? ==> forall a, b :: i <= a < r.value.0 && 0 <= b < |m| ==> !Clash(m, a, b)
    ensures r.Some? ==> forall b :: 0 <= b < r.value.1 ==> !Clash(m, r.value.0, b)
    decreases |m| - i
  {
    if i == |m| then None
    else
      match ScanInner(m, i, 0)
      case Some(j) => Some((i, j))
      case None => ScanOuter(m, i + 1)
  }

  /**
   * `check_variable_list_are_valid`: True when every two entries with
   * different keys have disjoint lists; otherwise a ValueError naming the
   * inner key, the outer key and their shared variables for the first
   * clashing pair the nested loops reach.
   */
  function CheckVariableListsAreValid(m: TypeMap): (r: Result<bool>)
    ensures r.Ok? <==> Disjoint(m)
    ensures r.Ok? ==> r.value
    ensures r.Err? ==> r.error.IsValueError() && r.error.Overlap?
    ensures r.Err? ==> exists i, j ::
      (0 <= i < |m| && 0 <= j < |m| && Clash(m, i, j) &&
       r.error == Overlap(m[j].0, m[i].0, Shared(m[i].1, m[j].1)))
  {
    match ScanOuter(m, 0)
    case None => Ok(true)
    case Some((i, j)) => Err(Overlap(m[j].0, m[i].0, Shared(m[i].1, m[j].1)))
  }

  /** Disjointness is a property of the set of entries, whatever their positions. */
  lemma DisjointByEntries(m: TypeMap)
    ensures Disjoint(m) <==> forall e, f :: e in m && f in m && e.0 != f.0 ==> Shared(e.1, f.1) == {}
  {
    if Disjoint(m) {
      forall e, f | e in m && f in m && e.0 != f.0
        ensures Shared(e.1, f.1) == {}
      {
        var i :| 0 <= i < |m| && m[i] == e;
        var j :| 0 <= j < |m| && m[j] == f;
        assert !Clash(m, i, j);
      }
    }
  }

  /**
   * The check does not depend on the order of the entries: any reordering
   * passes exactly when the original does.
   */
  lemma CheckIgnoresOrder(m: TypeMap, reordered: TypeMap)
    requires multiset(m) == multiset(reordered)
    ensures CheckVariableListsAreValid(m).Ok? <==> CheckVariableListsAreValid(reordered).Ok?
  {
    DisjointByEntries(m);
    DisjointByEntries(reordered);
    assert forall e :: e in m <==> e in reordered by {
      forall e ensures e in m <==> e in reordered {
        assert e in m <==> e in multiset(m);
        assert e in reordered <==> e in multiset(reordered);
      }
    }
  }

  /** A variable listed twice under one key is not an error: an entry is never compared with itself. */
  lemma DuplicatesWithinOneListAllowed(key: string, vars: seq<string>, rest: TypeMap)
    requires Disjoint(rest)
    requires forall e :: e in rest ==> e.0 != key && Shared(vars, e.1) == {}
    ensures CheckVariableListsAreValid([(key, vars + vars)] + rest) == Ok(true)
  {
    var m := [(key, vars + vars)] + rest;
    forall b: seq<string> ensures Shared(vars + vars, b) == Shared(vars, b) {
      assert forall x :: x in vars + vars <==> x in vars;
    }
    forall i, j | 0 <= i < |m| && 0 <= j < |m|
      ensures !Clash(m, i, j)
    {
      if i > 0 && j > 0 {
        assert m[i] == rest[i - 1] && m[j] == rest[j - 1];
        assert !Clash(rest, i - 1, j - 1);
      } else if i == 0 && j > 0 {
        assert m[j] == rest[j - 1];
        assert m[j] in rest;
      } else if i > 0 && j == 0 {
        assert m[i] == rest[i - 1];
        assert m[i] in rest;
        assert Shared(m[i].1, vars) == Shared(vars, m[i].1);
      }
    }
  }

  /** A registry whose lists are all empty is valid, including the empty registry. */
  lemma EmptyListsValid(m: TypeMap)
    requires forall i :: 0 <= i < |m| ==> m[i].1 == []
    ensures CheckVariableListsAreValid(m) == Ok(true)
  {
    forall i, j | 0 <= i < |m| && 0 <= j < |m|
      ensures !Clash(m, i, j)
    {
      assert Shared(m[i].1, m[j].1) == {};
    }
  }

  /** All variables of all lists, list after list (`reduce(+, values)` or a flattening comprehension). */
  function Flatten(m: TypeMap): (r: seq<string>)
    ensures forall x :: x in r <==> exists i :: 0 <= i < |m| && x in m[i].1
  {
    if m == [] then []
    else
      var front := m[..|m| - 1];
      var rest := Flatten(front);
      assert forall i :: 0 <= i < |front| ==> front[i] == m[i];
      rest + m[|m| - 1].1
  }

  /** The length of the flattening is the total number of listed variables. */
  function TotalCount(m: TypeMap): nat {
    if m == [] then 0 else TotalCount(m[..|m| - 1]) + |m[|m| - 1].1|
  }

  lemma {:induction false} FlattenLength(m: TypeMap)
    ensures |Flatten(m)| == TotalCount(m)
  {
    if m != [] {
      FlattenLength(m[..|m| - 1]);
    }
  }
}
