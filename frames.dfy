/**
 * Dataframes as the handlers see them: named columns of encoded cells.
 *
 * Only the parts of pandas that the modelled code depends on are kept:
 * selecting one label (`df[name]`), which gives a one-dimensional series when
 * the label names one column and a two-dimensional frame when it names
 * several; selecting a list of labels (`df[names]`), which always gives a
 * two-dimensional frame; and the shape and largest cell of the result.
 */
module Frames {
  import opened Wrappers

  /** A column of encoded cells, or a column the caller filled with None. */
  datatype Column = Column(name: string, cells: seq<int>) | NullColumn(name: string)

  datatype Frame = Frame(rowCount: nat, cols: seq<Column>)

  /** The result of `.as_matrix()`: its shape and its cells. */
  datatype Matrix = Matrix(shape: seq<nat>, cells: seq<int>)

  /** The encoded cells of a column; a None-filled column has none. */
  function Cells(c: Column): seq<int> {
    if c.Column? then c.cells else []
  }

  /** The column labels of a frame, in order. */
  function Names(f: Frame): (r: seq<string>)
    ensures |r| == |f.cols|
    ensures forall i :: 0 <= i < |f.cols| ==> r[i] == f.cols[i].name
  {
    seq(|f.cols|, i requires 0 <= i < |f.cols| => f.cols[i].name)
  }

  /** The columns whose label is in `names`, in frame order. */
  function ColumnsNamedIn(cols: seq<Column>, names: set<string>): (r: seq<Column>)
    ensures |r| <= |cols|
    ensures forall c :: c in r <==> c in cols && c.name in names
  {
    if cols == [] then []
    else (if cols[0].name in names then [cols[0]] else []) + ColumnsNamedIn(cols[1..], names)
  }

  /** All cells of the given columns, column after column. */
  function AllCells(cols: seq<Column>): (r: seq<int>)
    ensures forall c, x :: c in cols && x in Cells(c) ==> x in r
    ensures forall x :: x in r ==> exists c :: c in cols && x in Cells(c)
  {
    if cols == [] then [] else Cells(cols[0]) + AllCells(cols[1..])
  }

  /**
   * `df[name].as_matrix()`: a KeyError when no column has that label, a
   * one-dimensional series when exactly one has, otherwise a frame of all
   * columns with that label.
   */
  function SelectColumn(f: Frame, name: string): (r: Result<Matrix>)
    ensures r.Ok? <==> name in Names(f)
    ensures r.Err? ==> r.error == KeyError
    ensures r.Ok? ==> Width(r.value) == |ColumnsNamedIn(f.cols, {name})| >= 1
    ensures r.Ok? ==> |r.value.shape| >= 1 && r.value.shape[0] == f.rowCount
  {
    var matched := ColumnsNamedIn(f.cols, {name});
    if |matched| == 0 then
      assert name !in Names(f) by {
        forall i | 0 <= i < |f.cols| ensures f.cols[i].name != name {
          assert f.cols[i] in f.cols;
        }
      }
      Err(KeyError)
    else
      assert matched[0] in f.cols;
      assert name in Names(f) by {
        var i :| 0 <= i < |f.cols| && f.cols[i] == matched[0];
        assert Names(f)[i] == name;
      }
      if |matched| == 1 then Ok(Matrix([f.rowCount], Cells(matched[0])))
      else Ok(Matrix([f.rowCount, |matched|], AllCells(matched)))
  }

  /**
   * `df[names].as_matrix()`: a KeyError when some label names no column,
   * otherwise the two-dimensional frame of every column whose label is listed.
   */
  function SelectColumns(f: Frame, names: seq<string>): (r: Result<Matrix>)
    ensures r.Ok? <==> forall n :: n in names ==> n in Names(f)
    ensures r.Ok? ==> |r.value.shape| == 2
    ensures r.Ok? ==> Width(r.value) == |ColumnsNamedIn(f.cols, set n | n in names)|
  {
    if exists n :: n in names && n !in Names(f) then Err(KeyError)
    else
      var matched := ColumnsNamedIn(f.cols, set n | n in names);
      Ok(Matrix([f.rowCount, |matched|], AllCells(matched)))
  }

  /**
   * The width an input layer gets from a selection: its second dimension when
   * it has one, else 1.
   */
  function Width(m: Matrix): nat {
    if |m.shape| >= 2 then m.shape[1] else 1
  }

  /** The largest element of a non-empty sequence. */
  function Max(s: seq<int>): (r: int)
    requires |s| > 0
    ensures r in s
    ensures forall x :: x in s ==> x <= r
  {
    if |s| == 1 then s[0]
    else
      var rest := Max(s[1..]);
      assert forall x :: x in s ==> x == s[0] || x in s[1..];
      if s[0] >= rest then s[0] else rest
  }

  /** `numpy.max` over a selection: a ValueError when it has no cells. */
  function MaxCell(m: Matrix): (r: Result<int>)
    ensures r.Ok? <==> |m.cells| > 0
    ensures r.Err? ==> r.error == ValueError
    ensures r.Ok? ==> r.value in m.cells && forall x :: x in m.cells ==> x <= r.value
  {
    if |m.cells| == 0 then Err(ValueError) else Ok(Max(m.cells))
  }

  predicate StartsWith(s: string, prefix: string) {
    |prefix| <= |s| && s[..|prefix|] == prefix
  }

  /** The labels that start with `prefix`, in their original order. */
  function FilterPrefix(names: seq<string>, prefix: string): (r: seq<string>)
    ensures |r| <= |names|
    ensures forall n :: n in r <==> n in names && StartsWith(n, prefix)
  {
    if names == [] then []
    else (if StartsWith(names[0], prefix) then [names[0]] else []) + FilterPrefix(names[1..], prefix)
  }

  /** Filtering keeps the relative order: it distributes over concatenation. */
  lemma {:induction false} FilterPrefixAppend(a: seq<string>, b: seq<string>, prefix: string)
    ensures FilterPrefix(a + b, prefix) == FilterPrefix(a, prefix) + FilterPrefix(b, prefix)
  {
    if a != [] {
      assert (a + b)[1..] == a[1..] + b;
      FilterPrefixAppend(a[1..], b, prefix);
    } else {
      assert a + b == b;
    }
  }

  /**
   * The columns a text or time-series variable expands to: the variable itself
   * when it is a column, else every column named `variable + "_"...`, in
   * column order.
   */
  function DerivedColumnNames(f: Frame, variable: string): (r: seq<string>)
    ensures variable in Names(f) ==> r == [variable]
    ensures variable !in Names(f) ==>
      forall n :: n in r <==> n in Names(f) && StartsWith(n, variable + "_")
    ensures forall n :: n in r ==> n in Names(f)
  {
    if variable in Names(f) then [variable]
    else FilterPrefix(Names(f), variable + "_")
  }
}
