/** Values shared by every component: a pandas DataFrame as a column-major value,
    the errors the core raises, and counting over boolean masks. */
module Frames {

  /** The conditions under which the core raises, named by condition.
      MissingColumn is Python's KeyError; the others are ValueErrors. */
  datatype Error =
    | MissingColumn(column: string)
    | EmptyGroup
    | DegenerateVariance
    | InvalidAlternative(alternative: string)
    | EmptyPopulation

  datatype Result<+T> = Ok(value: T) | Err(error: Error)

  /** A value, or pandas' NaN where none is defined. */
  datatype Option<+T> = None | Some(value: T)

  /** One cell of a DataFrame. */
  datatype Value = Int(i: int) | Real(r: real) | Str(s: string)

  /** numpy's element-wise `column == k` for an integer constant k. */
  predicate NumEq(v: Value, k: int) {
    match v
    case Int(i) => i == k
    case Real(r) => r == k as real
    case Str(_) => false
  }

  /** `.astype(int)` / `.astype(float)` of a boolean. */
  function Flag(b: bool): (r: int)
    ensures 0 <= r <= 1 && (r == 1 <==> b)
  {
    if b then 1 else 0
  }

  /** A column of 0/1 cells. */
  predicate Binary(outcome: seq<Value>) {
    forall i :: 0 <= i < |outcome| ==> outcome[i] == Int(0) || outcome[i] == Int(1)
  }

  /** A DataFrame: `height` rows, and a column vector for every column name. */
  datatype Frame = Frame(height: nat, cols: map<string, seq<Value>>) {

    /** Every column has one cell per row. */
    predicate Valid() {
      forall c | c in cols :: |cols[c]| == height
    }

    /** `df[name] = vals`: adds the column, or overwrites it when it exists. */
    function WithColumn(name: string, vals: seq<Value>): (f: Frame)
      requires Valid() && |vals| == height
      ensures f.Valid() && f.height == height
      ensures f.cols.Keys == cols.Keys + {name} && f.cols[name] == vals
      ensures forall c | c in cols && c != name :: f.cols[c] == cols[c]
    {
      Frame(height, cols[name := vals])
    }
  }

  /** Writing a column twice leaves only the second write. */
  lemma OverwriteColumn(f: Frame, name: string, a: seq<Value>, b: seq<Value>)
    requires f.Valid() && |a| == f.height && |b| == f.height
    ensures f.WithColumn(name, a).WithColumn(name, b) == f.WithColumn(name, b)
  {
    assert f.cols[name := a][name := b] == f.cols[name := b];
  }

  /** Number of true entries of a mask (pandas `mask.sum()`). */
  function CountTrue(m: seq<bool>): (k: nat)
    ensures k <= |m|
  {
    if m == [] then 0 else CountTrue(m[..|m| - 1]) + Flag(m[|m| - 1])
  }

  /** The row positions a mask selects. */
  function Selected(m: seq<bool>): set<nat> {
    set i: nat | i < |m| && m[i]
  }

  /** CountTrue counts exactly the selected positions. */
  lemma {:induction false} CountTrueIsCardinality(m: seq<bool>)
    ensures CountTrue(m) == |Selected(m)|
  {
    if m != [] {
      var p := m[..|m| - 1];
      CountTrueIsCardinality(p);
      var last := |m| - 1;
      assert Selected(m) == Selected(p) + (if m[last] then {last} else {});
      assert last !in Selected(p);
    }
  }

  /** Counting the complement: the selected and unselected rows together are all rows. */
  lemma {:induction false} CountTrueComplement(m: seq<bool>, n: seq<bool>)
    requires |m| == |n| && forall i :: 0 <= i < |m| ==> n[i] == !m[i]
    ensures CountTrue(m) + CountTrue(n) == |m|
  {
    if m != [] {
      CountTrueComplement(m[..|m| - 1], n[..|n| - 1]);
    }
  }

  /** No row is counted exactly when no entry is true. */
  lemma {:induction false} CountTrueZero(m: seq<bool>)
    ensures CountTrue(m) == 0 <==> forall i :: 0 <= i < |m| ==> !m[i]
  {
    if m != [] {
      CountTrueZero(m[..|m| - 1]);
    }
  }

  /** Three masks that pick out disjoint parts covering every row count the rows between them. */
  lemma {:induction false} CountTrueThreeWay(a: seq<bool>, b: seq<bool>, c: seq<bool>)
    requires |a| == |b| == |c|
    requires forall i :: 0 <= i < |a| ==> Flag(a[i]) + Flag(b[i]) + Flag(c[i]) == 1
    ensures CountTrue(a) + CountTrue(b) + CountTrue(c) == |a|
  {
    if a != [] {
      CountTrueThreeWay(a[..|a| - 1], b[..|b| - 1], c[..|c| - 1]);
    }
  }

  /** Counts of a prefix only grow. */
  lemma {:induction false} CountTruePrefix(m: seq<bool>, i: nat)
    requires i < |m|
    ensures CountTrue(m[..i + 1]) == CountTrue(m[..i]) + Flag(m[i])
  {
    assert m[..i + 1][..i] == m[..i];
  }

  /** A longer prefix counts at least as many rows. */
  lemma {:induction false} CountTrueMonotone(m: seq<bool>, i: nat, j: nat)
    requires i <= j <= |m|
    ensures CountTrue(m[..i]) <= CountTrue(m[..j])
    decreases j - i
  {
    if i < j {
      CountTrueMonotone(m, i, j - 1);
      CountTruePrefix(m, j - 1);
    }
  }

  /** Position of a selected row among the selected rows (0 for the first). */
  function Rank(m: seq<bool>, i: nat): (k: nat)
    requires i < |m| && m[i]
    ensures k < CountTrue(m)
  {
    CountTruePrefix(m, i);
    CountTrueMonotone(m, i + 1, |m|);
    assert m[..|m|] == m;
    CountTrue(m[..i])
  }

  /** Positions of selected rows keep their order among the selected rows. */
  lemma RankIncreasing(m: seq<bool>, i: nat, j: nat)
    requires i < j < |m| && m[i] && m[j]
    ensures Rank(m, i) < Rank(m, j)
  {
    CountTruePrefix(m, i);
    CountTrueMonotone(m, i + 1, j);
  }

  /** The rows of a column that a mask keeps, in their original order (`col[mask]`). */
  function Select<T>(v: seq<T>, m: seq<bool>): (r: seq<T>)
    requires |v| == |m|
    ensures |r| == CountTrue(m)
  {
    if m == [] then []
    else Select(v[..|v| - 1], m[..|m| - 1]) + (if m[|m| - 1] then [v[|v| - 1]] else [])
  }

  /** Every selected row is kept, at the position its rank gives. */
  lemma {:induction false} SelectAt<T>(v: seq<T>, m: seq<bool>, i: nat)
    requires |v| == |m| && i < |m| && m[i]
    ensures Select(v, m)[Rank(m, i)] == v[i]
  {
    var p, q := v[..|v| - 1], m[..|m| - 1];
    if i == |m| - 1 {
      assert m[..i] == q;
    } else {
      assert m[..i] == q[..i];
      SelectAt(p, q, i);
    }
  }

  /** Entry j of `kept` is entry i of `v` for the selected row i whose rank is j. */
  ghost predicate FromSelectedRow<T>(kept: seq<T>, v: seq<T>, m: seq<bool>, j: nat)
    requires |v| == |m| && j < |kept|
  {
    exists i :: 0 <= i < |m| && m[i] && Rank(m, i) == j && kept[j] == v[i]
  }

  /** Every kept row is a selected row, namely the one whose rank is its position. */
  lemma {:induction false} SelectFrom<T>(v: seq<T>, m: seq<bool>, j: nat)
    requires |v| == |m| && j < CountTrue(m)
    ensures FromSelectedRow(Select(v, m), v, m, j)
  {
    var p, q := v[..|v| - 1], m[..|m| - 1];
    if j < CountTrue(q) {
      SelectFrom(p, q, j);
      var i :| 0 <= i < |q| && q[i] && Rank(q, i) == j && Select(p, q)[j] == p[i];
      assert m[..i] == q[..i];
      assert m[i] && Rank(m, i) == j && v[i] == p[i];
    } else {
      assert m[..|m| - 1] == q;
      assert m[|m| - 1] && Rank(m, |m| - 1) == j && Select(v, m)[j] == v[|v| - 1];
    }
  }

  /** `column == 1`, row by row (the mask of users who signed up). */
  function EqualsOne(cells: seq<Value>): (m: seq<bool>)
    ensures |m| == |cells| && forall i :: 0 <= i < |m| ==> (m[i] <==> NumEq(cells[i], 1))
  {
    seq(|cells|, i requires 0 <= i < |cells| => NumEq(cells[i], 1))
  }

  /** `df[mask]`: the rows a mask keeps, with all columns. */
  function FilterRows(f: Frame, m: seq<bool>): (g: Frame)
    requires f.Valid() && |m| == f.height
    ensures g.Valid() && g.height == CountTrue(m) && g.cols.Keys == f.cols.Keys
    ensures forall c | c in f.cols :: g.cols[c] == Select(f.cols[c], m)
  {
    Frame(CountTrue(m), map c | c in f.cols :: Select(f.cols[c], m))
  }

  /** `df[mask]` holds exactly the selected rows, in their order: as many rows as are
      selected; selected row i, with every cell, at position `Rank(m, i)`; and every kept
      cell the cell of the selected row whose rank is its position (`RankIncreasing` gives
      the order). */
  lemma FilterRowsKeeps(f: Frame, m: seq<bool>)
    requires f.Valid() && |m| == f.height
    ensures FilterRows(f, m).height == |Selected(m)|
    ensures forall c, i :: c in f.cols && 0 <= i < |m| && m[i] ==>
              FilterRows(f, m).cols[c][Rank(m, i)] == f.cols[c][i]
    ensures forall c, j :: c in f.cols && 0 <= j < FilterRows(f, m).height ==>
              FromSelectedRow(FilterRows(f, m).cols[c], f.cols[c], m, j)
  {
    CountTrueIsCardinality(m);
    forall c, i | c in f.cols && 0 <= i < |m| && m[i]
      ensures FilterRows(f, m).cols[c][Rank(m, i)] == f.cols[c][i]
    {
      SelectAt(f.cols[c], m, i);
    }
    forall c, j | c in f.cols && 0 <= j < FilterRows(f, m).height
      ensures FromSelectedRow(FilterRows(f, m).cols[c], f.cols[c], m, j)
    {
      SelectFrom(f.cols[c], m, j);
    }
  }

  /** A loop that appends one result per step and raises at the first error: the error
      of the first failing step, or every value in order. */
  function Collect<T>(rs: seq<Result<T>>): (r: Result<seq<T>>)
    ensures r.Ok? ==> |r.value| == |rs|
  {
    if rs == [] then Ok([])
    else
      var rest := Collect(rs[..|rs| - 1]);
      if rest.Err? then Err(rest.error)
      else if rs[|rs| - 1].Err? then Err(rs[|rs| - 1].error)
      else Ok(rest.value + [rs[|rs| - 1].value])
  }

  /** Collecting succeeds exactly when every step does, and then keeps each step's value
      at its position. */
  lemma {:induction false} CollectRows<T>(rs: seq<Result<T>>)
    ensures Collect(rs).Ok? <==> forall j :: 0 <= j < |rs| ==> rs[j].Ok?
    ensures Collect(rs).Ok? ==> forall j :: 0 <= j < |rs| ==> Collect(rs).value[j] == rs[j].value
  {
    if rs != [] {
      var prefix := rs[..|rs| - 1];
      CollectRows(prefix);
      assert forall j :: 0 <= j < |prefix| ==> prefix[j] == rs[j];
    }
  }

  /** Once a step has failed, later steps change nothing. */
  lemma {:induction false} CollectStopsAtError<T>(p: seq<Result<T>>, q: seq<Result<T>>)
    requires Collect(p).Err?
    ensures Collect(p + q) == Collect(p)
  {
    if q != [] {
      CollectStopsAtError(p, q[..|q| - 1]);
      assert (p + q)[..|p + q| - 1] == p + q[..|q| - 1];
    } else {
      assert p + q == p;
    }
  }

  /** The first failing step decides: when every step before position p went through and
      step p fails, the whole loop raises step p's error. */
  lemma CollectFirstError<T>(rs: seq<Result<T>>, p: nat)
    requires p < |rs| && Collect(rs[..p]).Ok? && rs[p].Err?
    ensures Collect(rs) == Err(rs[p].error)
  {
    var head := rs[..p + 1];
    assert head[..p] == rs[..p];
    CollectStopsAtError(head, rs[p + 1..]);
    assert head + rs[p + 1..] == rs;
  }
}
