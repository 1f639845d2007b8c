/// The keyset: which rows a page request selects, given where the last page ended.
module Keyset {
  import Lex

  /** A row as it arrives: a column that is null is absent. Values are compared as the server orders them. */
  type Row = map<string, int>

  /** Where a pull has got to: the watermark, and the tiebreaks of the last row taken. */
  type Position = map<string, int>

  const EPOCH := 0

  datatype Entity = Entity(
    cursorColumn: string, tiebreaks: seq<string>, storedColumns: seq<string>, localKey: seq<string>)

  function Columns(e: Entity): seq<string> { [e.cursorColumn] + e.tiebreaks }

  datatype Test = Eq(column: string, value: int) | Gt(column: string, value: int)

  /** A null passes no comparison. */
  predicate Passes(row: Row, t: Test) {
    match t
    case Eq(c, v) => c in row && row[c] == v
    case Gt(c, v) => c in row && row[c] > v
  }

  /** A conjunction, as the filter writes it: `and(...)`. */
  type Clause = seq<Test>

  predicate PassesAll(row: Row, clause: Clause) {
    forall k :: 0 <= k < |clause| ==> Passes(row, clause[k])
  }

  /** The filter is a disjunction of clauses: `or=(...)`. */
  predicate Selected(row: Row, filter: seq<Clause>) {
    exists k :: 0 <= k < |filter| && PassesAll(row, filter[k])
  }

  // ---- What the filter is meant to say ----

  function PresentIn(columns: seq<string>, position: Position): (r: seq<string>)
    ensures forall c :: c in r <==> c in columns && c in position
    ensures |r| <= |columns|
  {
    if columns == [] then []
    else
      var n := |columns| - 1;
      PresentIn(columns[..n], position) + if columns[n] in position then [columns[n]] else []
  }

  function Watermark(e: Entity, position: Position): int {
    if e.cursorColumn in position then position[e.cursorColumn] else EPOCH
  }

  /** The columns a position can be compared on. */
  function Used(e: Entity, position: Position): (r: seq<string>)
    ensures r != [] && r[0] == e.cursorColumn
  {
    [e.cursorColumn] + PresentIn(e.tiebreaks, position)
  }

  predicate HasAll(row: Row, columns: seq<string>) {
    forall k :: 0 <= k < |columns| ==> columns[k] in row
  }

  function Values(row: Row, columns: seq<string>): (r: seq<int>)
    requires HasAll(row, columns)
    ensures |r| == |columns|
  {
    seq(|columns|, k requires 0 <= k < |columns| => row[columns[k]])
  }

  function PositionValues(e: Entity, position: Position): (r: seq<int>)
    ensures |r| == |Used(e, position)|
  {
    var tiebreaks := PresentIn(e.tiebreaks, position);
    [Watermark(e, position)] + seq(|tiebreaks|, k requires 0 <= k < |tiebreaks| => position[tiebreaks[k]])
  }

  /** Strictly after a position, lexicographically, on the columns the position has. */
  predicate After(e: Entity, position: Position, row: Row)
    requires HasAll(row, Columns(e))
  {
    UsedIsHad(e, position, row);
    Lex.Less(PositionValues(e, position), Values(row, Used(e, position)))
  }

  lemma UsedIsHad(e: Entity, position: Position, row: Row)
    requires HasAll(row, Columns(e))
    ensures HasAll(row, Used(e, position))
  {
    assert row.Keys >= {Columns(e)[0]};
    forall k | 0 <= k < |Used(e, position)| ensures Used(e, position)[k] in row {
      if k > 0 {
        assert Used(e, position)[k] in PresentIn(e.tiebreaks, position);
        var j :| 0 <= j < |e.tiebreaks| && e.tiebreaks[j] == Used(e, position)[k];
        assert Columns(e)[j + 1] == e.tiebreaks[j];
      }
    }
  }

  // ---- Building it ----

  /** Equal on the first `n` columns. */
  function Equalities(columns: seq<string>, values: seq<int>, n: nat): (r: seq<Test>)
    requires n <= |columns| && |values| == |columns|
    ensures |r| == n
  {
    seq(n, k requires 0 <= k < n => Eq(columns[k], values[k]))
  }

  /** Equal up to one column, and greater there. */
  function BreaksAt(columns: seq<string>, values: seq<int>, n: nat): Clause
    requires n < |columns| && |values| == |columns|
  {
    Equalities(columns, values, n) + [Gt(columns[n], values[n])]
  }

  function Pairs(columns: seq<string>, position: Position): seq<(string, int)> {
    if columns == [] then []
    else
      var n := |columns| - 1;
      Pairs(columns[..n], position) + if columns[n] in position then [(columns[n], position[columns[n]])] else []
  }

  lemma {:induction false} PairsOf(columns: seq<string>, position: Position)
    ensures |Pairs(columns, position)| == |PresentIn(columns, position)|
    ensures forall j :: 0 <= j < |Pairs(columns, position)| ==>
      var c := PresentIn(columns, position)[j]; c in position && Pairs(columns, position)[j] == (c, position[c])
  {
    if columns != [] { PairsOf(columns[..|columns| - 1], position); }
  }

  /** The tiebreaks the position has a value for. */
  method Tiebreaks(e: Entity, position: Position) returns (tiebreaks: seq<(string, int)>)
    ensures |tiebreaks| == |PresentIn(e.tiebreaks, position)|
    ensures forall j :: 0 <= j < |tiebreaks| ==>
      tiebreaks[j] == (Used(e, position)[j + 1], PositionValues(e, position)[j + 1])
  {
    hide Used, PositionValues, PresentIn;
    tiebreaks := [];
    for k := 0 to |e.tiebreaks|
      invariant tiebreaks == Pairs(e.tiebreaks[..k], position)
    {
      assert e.tiebreaks[..k + 1][..k] == e.tiebreaks[..k];
      if e.tiebreaks[k] in position { tiebreaks := tiebreaks + [(e.tiebreaks[k], position[e.tiebreaks[k]])]; }
    }
    assert e.tiebreaks[..|e.tiebreaks|] == e.tiebreaks;
    PairsAreUsed(e, position);
  }

  lemma PairsAreUsed(e: Entity, position: Position)
    ensures |Pairs(e.tiebreaks, position)| == |PresentIn(e.tiebreaks, position)|
    ensures forall j :: 0 <= j < |Pairs(e.tiebreaks, position)| ==>
      Pairs(e.tiebreaks, position)[j] == (Used(e, position)[j + 1], PositionValues(e, position)[j + 1])
  {
    hide PresentIn, Pairs;
    PairsOf(e.tiebreaks, position);
  }

  method Clauses(cursorColumn: string, watermark: int, tiebreaks: seq<(string, int)>,
                 ghost columns: seq<string>, ghost values: seq<int>)
    returns (filter: seq<Clause>)
    requires |columns| == |values| == |tiebreaks| + 1 && columns[0] == cursorColumn && values[0] == watermark
    requires forall j :: 0 <= j < |tiebreaks| ==> tiebreaks[j] == (columns[j + 1], values[j + 1])
    ensures |filter| == |columns|
    ensures forall j :: 0 <= j < |filter| ==> filter[j] == BreaksAt(columns, values, j)
  {
    filter := [[Gt(cursorColumn, watermark)]];
    assert filter[0] == BreaksAt(columns, values, 0);
    for k := 0 to |tiebreaks|
      invariant |filter| == k + 1
      invariant forall j :: 0 <= j <= k ==> filter[j] == BreaksAt(columns, values, j)
    {
      var clause := [Eq(cursorColumn, watermark)];
      for j := 0 to k
        invariant clause == Equalities(columns, values, j + 1)
      {
        clause := clause + [Eq(tiebreaks[j].0, tiebreaks[j].1)];
      }
      clause := clause + [Gt(tiebreaks[k].0, tiebreaks[k].1)];
      assert clause == BreaksAt(columns, values, k + 1);
      filter := filter + [clause];
    }
  }

  /**
    * Selects exactly the rows after the position.  A position that is a watermark and
    * nothing more gives a filter of one comparison.
    */
  method KeysetFilter(e: Entity, position: Position) returns (filter: seq<Clause>)
    ensures forall row: Row :: HasAll(row, Columns(e)) ==> (Selected(row, filter) <==> After(e, position, row))
  {
    var tiebreaks := Tiebreaks(e, position);
    ghost var columns, values := Used(e, position), PositionValues(e, position);
    filter := Clauses(e.cursorColumn, Watermark(e, position), tiebreaks, columns, values);
    hide PresentIn, BreaksAt, Used, PositionValues, Selected, Lex.Less;
    forall row: Row | HasAll(row, Columns(e)) ensures Selected(row, filter) <==> After(e, position, row) {
      UsedIsHad(e, position, row);
      SelectedIsAfter(row, columns, values, filter);
    }
  }

  lemma {:induction false} LessByIndex(a: seq<int>, b: seq<int>)
    requires |a| == |b|
    ensures Lex.Less(a, b) <==> exists i :: 0 <= i < |a| && BreakAt(a, b, i)
  {
    if a != [] {
      LessByIndex(a[1..], b[1..]);
      if Lex.Less(a, b) {
        if a[0] < b[0] {
          assert BreakAt(a, b, 0);
        } else {
          var i :| 0 <= i < |a[1..]| && BreakAt(a[1..], b[1..], i);
          BreakShifts(a, b, i);
        }
      }
      if i :| 0 <= i < |a| && BreakAt(a, b, i) && i > 0 {
        assert a[0] == b[0];
        BreakShifts(a, b, i - 1);
      }
    }
  }

  predicate BreakAt(a: seq<int>, b: seq<int>, i: int)
    requires |a| == |b| && 0 <= i < |a|
  {
    a[i] < b[i] && a[..i] == b[..i]
  }

  lemma BreakShifts(a: seq<int>, b: seq<int>, i: nat)
    requires |a| == |b| && a != [] && a[0] == b[0] && i < |a| - 1
    ensures BreakAt(a[1..], b[1..], i) <==> BreakAt(a, b, i + 1)
  {
    assert a[..i + 1] == [a[0]] + a[1..][..i] && b[..i + 1] == [b[0]] + b[1..][..i];
    assert a[..i + 1][1..] == a[1..][..i] && b[..i + 1][1..] == b[1..][..i];
  }

  lemma ClauseIsBreak(row: Row, columns: seq<string>, values: seq<int>, n: nat)
    requires HasAll(row, columns) && |values| == |columns| && n < |columns|
    ensures PassesAll(row, BreaksAt(columns, values, n)) <==> BreakAt(values, Values(row, columns), n)
  {
    var clause, b := BreaksAt(columns, values, n), Values(row, columns);
    assert forall k :: 0 <= k < n ==> clause[k] == Eq(columns[k], values[k]);
    assert clause[n] == Gt(columns[n], values[n]);
    if PassesAll(row, clause) {
      forall k | 0 <= k < n ensures values[k] == b[k] { assert Passes(row, clause[k]); }
      assert Passes(row, clause[n]);
      assert values[..n] == b[..n];
    }
    if BreakAt(values, b, n) {
      forall k | 0 <= k < |clause| ensures Passes(row, clause[k]) {
        if k < n { assert values[..n][k] == b[..n][k]; }
      }
    }
  }

  lemma SelectedIsAfter(row: Row, columns: seq<string>, values: seq<int>, filter: seq<Clause>)
    requires HasAll(row, columns) && |values| == |columns| == |filter|
    requires forall j :: 0 <= j < |filter| ==> filter[j] == BreaksAt(columns, values, j)
    ensures Selected(row, filter) <==> Lex.Less(values, Values(row, columns))
  {
    LessByIndex(values, Values(row, columns));
    forall n | 0 <= n < |filter| ensures PassesAll(row, filter[n]) <==> BreakAt(values, Values(row, columns), n) {
      ClauseIsBreak(row, columns, values, n);
    }
  }
}
