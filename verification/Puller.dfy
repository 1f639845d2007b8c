/// Pulling a table page by page into the local copy, surviving a kill between any two writes.
module Puller {
  import opened Wrappers
  import Lex
  import opened Keyset

  predicate Keyed(e: Entity, row: Row) {
    e.cursorColumn in row && HasAll(row, Columns(e)) && HasAll(row, e.localKey)
  }

  function KeyOf(e: Entity, row: Row): seq<int>
    requires Keyed(e, row)
  {
    Values(row, Columns(e))
  }

  function LocalKeyOf(e: Entity, row: Row): seq<int>
    requires Keyed(e, row)
  {
    Values(row, e.localKey)
  }

  /** The columns the terminal keeps. */
  function Project(e: Entity, row: Row): Row {
    map c | c in row && c in e.storedColumns :: row[c]
  }

  /** A table as the server orders it: keys unique, and one local row for each. */
  ghost predicate IsTable(e: Entity, remote: seq<Row>) {
    && (forall k :: 0 <= k < |remote| ==> Keyed(e, remote[k]))
    && (forall j, k :: 0 <= j < k < |remote| ==> Lex.Less(KeyOf(e, remote[j]), KeyOf(e, remote[k])))
    && (forall j, k :: 0 <= j < k < |remote| ==> LocalKeyOf(e, remote[j]) != LocalKeyOf(e, remote[k]))
  }

  /** A cursor this build wrote, with every tiebreak, or an older build's bare watermark. */
  predicate Usable(e: Entity, position: Position) {
    || (forall c :: c in e.tiebreaks ==> c in position)
    || (forall c :: c in e.tiebreaks ==> c !in position)
  }

  // ---- Rows after a position are a suffix ----

  lemma {:induction false} AllPresent(columns: seq<string>, position: Position)
    ensures (forall c :: c in columns ==> c in position) ==> PresentIn(columns, position) == columns
    ensures (forall c :: c in columns ==> c !in position) ==> PresentIn(columns, position) == []
  {
    if columns != [] {
      var n := |columns| - 1;
      assert columns == columns[..n] + [columns[n]];
      AllPresent(columns[..n], position);
    }
  }

  lemma LessSingle(a: int, b: int)
    ensures Lex.Less([a], [b]) <==> a < b
  {
    assert [a][1..] == [] && [b][1..] == [];
  }

  lemma AfterMeans(e: Entity, position: Position, row: Row)
    requires Keyed(e, row)
    ensures (forall c :: c in e.tiebreaks ==> c in position) ==>
      (After(e, position, row) <==> Lex.Less(PositionValues(e, position), KeyOf(e, row)))
    ensures (forall c :: c in e.tiebreaks ==> c !in position) ==>
      (After(e, position, row) <==> row[e.cursorColumn] > Watermark(e, position))
  {
    AllPresent(e.tiebreaks, position);
    assert Columns(e)[0] in row;
    UsedIsHad(e, position, row);
    if forall c :: c in e.tiebreaks ==> c !in position {
      assert PositionValues(e, position) == [Watermark(e, position)];
      assert Values(row, Used(e, position)) == [row[e.cursorColumn]];
      LessSingle(Watermark(e, position), row[e.cursorColumn]);
    }
  }

  lemma AfterLater(e: Entity, position: Position, a: Row, b: Row)
    requires Usable(e, position) && Keyed(e, a) && Keyed(e, b) && Lex.Less(KeyOf(e, a), KeyOf(e, b))
    requires After(e, position, a)
    ensures After(e, position, b)
  {
    AfterMeans(e, position, a);
    AfterMeans(e, position, b);
    assert KeyOf(e, a)[0] == a[e.cursorColumn] && KeyOf(e, b)[0] == b[e.cursorColumn];
    if forall c :: c in e.tiebreaks ==> c in position {
      Lex.Transitive(PositionValues(e, position), KeyOf(e, a), KeyOf(e, b));
    }
  }

  /** How many leading rows a position has passed. */
  function Start(e: Entity, remote: seq<Row>, position: Position): (n: nat)
    requires forall k :: 0 <= k < |remote| ==> Keyed(e, remote[k])
    ensures n <= |remote|
  {
    if remote == [] || (assert Keyed(e, remote[0]); After(e, position, remote[0])) then 0 else 1 + Start(e, remote[1..], position)
  }

  lemma {:induction false} StartParts(e: Entity, remote: seq<Row>, position: Position)
    requires IsTable(e, remote) && Usable(e, position)
    ensures forall k :: 0 <= k < |remote| ==> (After(e, position, remote[k]) <==> k >= Start(e, remote, position))
    decreases |remote|
  {
    hide After, KeyOf, LocalKeyOf, Usable, Lex.Less;
    if remote != [] {
      if After(e, position, remote[0]) {
        forall k | 0 < k < |remote| ensures After(e, position, remote[k]) {
          AfterLater(e, position, remote[0], remote[k]);
        }
      } else {
        StartParts(e, remote[1..], position);
        forall k | 0 < k < |remote| ensures After(e, position, remote[k]) <==> k - 1 >= Start(e, remote[1..], position) {
          assert remote[k] == remote[1..][k - 1];
        }
      }
    }
  }

  // ---- The server ----

  function SelectedRows(remote: seq<Row>, filter: seq<Clause>): seq<Row> {
    if remote == [] then []
    else (if Selected(remote[0], filter) then [remote[0]] else []) + SelectedRows(remote[1..], filter)
  }

  /** What a request returns: the selected rows in order, cut at the page size. */
  function Answer(remote: seq<Row>, filter: seq<Clause>, pageSize: nat): seq<Row> {
    var rows := SelectedRows(remote, filter);
    if |rows| <= pageSize then rows else rows[..pageSize]
  }

  lemma {:induction false} SelectedFrom(remote: seq<Row>, filter: seq<Clause>, n: nat)
    requires n <= |remote|
    requires forall k :: 0 <= k < |remote| ==> (Selected(remote[k], filter) <==> k >= n)
    ensures SelectedRows(remote, filter) == remote[n..]
    decreases |remote|
  {
    if remote != [] {
      assert forall k :: 0 <= k < |remote[1..]| ==> remote[1..][k] == remote[k + 1];
      SelectedFrom(remote[1..], filter, if n == 0 then 0 else n - 1);
      if n == 0 { assert remote == [remote[0]] + remote[1..]; }
    }
  }

  lemma AnswerIsSlice(e: Entity, remote: seq<Row>, position: Position, filter: seq<Clause>, pageSize: nat)
    requires IsTable(e, remote) && Usable(e, position)
    requires forall row: Row :: HasAll(row, Columns(e)) ==> (Selected(row, filter) <==> After(e, position, row))
    ensures var n := Start(e, remote, position);
      Answer(remote, filter, pageSize) == if |remote| - n <= pageSize then remote[n..] else remote[n..n + pageSize]
  {
    hide After, Selected, Usable, KeyOf, LocalKeyOf;
    StartParts(e, remote, position);
    SelectedFrom(remote, filter, Start(e, remote, position));
  }

  // ---- The cursor a page leaves ----

  function Tied(row: Row, columns: seq<string>): Option<Position> {
    if columns == [] then Some(map[])
    else
      var n := |columns| - 1;
      match Tied(row, columns[..n])
      case None => None
      case Some(p) => if columns[n] in row then Some(p[columns[n] := row[columns[n]]]) else None
  }

  /** None for a row without one of the key columns. */
  function PositionFromRow(e: Entity, row: Row): Option<Position> {
    Tied(row, Columns(e))
  }

  lemma {:induction false} TiedOf(row: Row, columns: seq<string>)
    requires HasAll(row, columns)
    ensures Tied(row, columns).Some?
    ensures forall c :: c in columns ==> c in Tied(row, columns).value && Tied(row, columns).value[c] == row[c]
  {
    if columns != [] {
      var n := |columns| - 1;
      assert columns == columns[..n] + [columns[n]];
      TiedOf(row, columns[..n]);
    }
  }

  lemma PositionOf(e: Entity, row: Row)
    requires Keyed(e, row)
    ensures PositionFromRow(e, row).Some?
    ensures var p := PositionFromRow(e, row).value;
      Usable(e, p) && (forall c :: c in e.tiebreaks ==> c in p) && PositionValues(e, p) == KeyOf(e, row)
  {
    TiedOf(row, Columns(e));
    var p := PositionFromRow(e, row).value;
    assert Columns(e)[0] in Columns(e);
    forall c | c in e.tiebreaks ensures c in Columns(e) && c in p && p[c] == row[c] {
    }
    AllPresent(e.tiebreaks, p);
  }

  /** Past a row's own position lie exactly the rows behind it. */
  lemma StartOf(e: Entity, remote: seq<Row>, k: nat)
    requires IsTable(e, remote) && k < |remote|
    ensures PositionFromRow(e, remote[k]).Some?
    ensures var p := PositionFromRow(e, remote[k]).value; Usable(e, p) && Start(e, remote, p) == k + 1
  {
    PositionOf(e, remote[k]);
    var p := PositionFromRow(e, remote[k]).value;
    StartParts(e, remote, p);
    forall j | 0 <= j < |remote| ensures After(e, p, remote[j]) <==> j > k {
      AfterMeans(e, p, remote[j]);
      Lex.Irreflexive(KeyOf(e, remote[k]));
      if j < k && Lex.Less(KeyOf(e, remote[k]), KeyOf(e, remote[j])) {
        Lex.Transitive(KeyOf(e, remote[k]), KeyOf(e, remote[j]), KeyOf(e, remote[k]));
      }
    }
    var n := Start(e, remote, p);
    assert n < |remote| ==> After(e, p, remote[n]);
    if k + 1 < |remote| { assert After(e, p, remote[k + 1]); }
  }

  // ---- The local copy ----

  type Local = map<seq<int>, Row>

  ghost predicate Stored(e: Entity, local: Local, row: Row)
    requires Keyed(e, row)
  {
    LocalKeyOf(e, row) in local && local[LocalKeyOf(e, row)] == Project(e, row)
  }

  /** None of the first `n` rows is kept under this key. */
  ghost predicate Elsewhere(e: Entity, rows: seq<Row>, n: nat, key: seq<int>)
    requires n <= |rows| && forall k :: 0 <= k < |rows| ==> Keyed(e, rows[k])
  {
    forall k :: 0 <= k < n ==> LocalKeyOf(e, rows[k]) != key
  }

  ghost predicate SameAt(local: Local, local': Local, key: seq<int>) {
    (key in local <==> key in local') && (key in local ==> local[key] == local'[key])
  }

  /** A cursor only ever moves to a row of the table. */
  ghost predicate CursorFrom(e: Entity, remote: seq<Row>, was: Position, cursor: Position) {
    cursor == was || exists k :: 0 <= k < |remote| && PositionFromRow(e, remote[k]) == Some(cursor)
  }

  /** One row: stored if the cursor has passed it, as it was if the cursor began past it. */
  ghost predicate RowStep(e: Entity, a: Mirror, b: Mirror, row: Row)
    requires Keyed(e, row)
  {
    && (After(e, b.cursor, row) ==> After(e, a.cursor, row))
    && if !After(e, a.cursor, row) then SameAt(a.local, b.local, LocalKeyOf(e, row))
       else if After(e, b.cursor, row) then SameAt(a.local, b.local, LocalKeyOf(e, row)) || Stored(e, b.local, row)
       else Stored(e, b.local, row)
  }

  /** What one pull, however it ended, did to the mirror of a fixed table. */
  ghost predicate PullStep(e: Entity, remote: seq<Row>, a: Mirror, b: Mirror)
    requires IsTable(e, remote)
  {
    && Usable(e, b.cursor) && CursorFrom(e, remote, a.cursor, b.cursor)
    && (forall k :: 0 <= k < |remote| ==> RowStep(e, a, b, remote[k]))
    && (forall key :: Elsewhere(e, remote, |remote|, key) ==> SameAt(a.local, b.local, key))
  }

  datatype Mirror = Mirror(local: Local, cursor: Position)

  // ---- Progress through the table, by index ----

  /** Rows from `lo` up to `hi` have been stored; every other key holds what it held. */
  ghost predicate Progress(e: Entity, remote: seq<Row>, was: Local, local: Local, lo: nat, hi: nat)
    requires IsTable(e, remote)
  {
    && lo <= hi <= |remote|
    && (forall k :: 0 <= k < |remote| ==>
          if lo <= k < hi then Stored(e, local, remote[k]) else SameAt(was, local, LocalKeyOf(e, remote[k])))
    && (forall key :: Elsewhere(e, remote, |remote|, key) ==> SameAt(was, local, key))
  }

  lemma PageWritten(e: Entity, remote: seq<Row>, was: Local, before: Local, local: Local, lo: nat, hi: nat, rows: seq<Row>)
    requires IsTable(e, remote) && Progress(e, remote, was, before, lo, hi)
    requires hi + |rows| <= |remote| && rows == remote[hi..hi + |rows|]
    requires forall k :: 0 <= k < |rows| ==> Keyed(e, rows[k])
    requires forall k :: 0 <= k < |rows| ==> Stored(e, local, rows[k])
    requires forall key :: Elsewhere(e, rows, |rows|, key) ==> SameAt(before, local, key)
    ensures Progress(e, remote, was, local, lo, hi + |rows|)
  {
    hide Lex.Less, LocalKeyOf, KeyOf, Project, Keyed;
    forall k | 0 <= k < |remote|
      ensures if lo <= k < hi + |rows| then Stored(e, local, remote[k]) else SameAt(was, local, LocalKeyOf(e, remote[k]))
    {
      if hi <= k < hi + |rows| {
        assert remote[k] == rows[k - hi];
      } else {
        forall j | 0 <= j < |rows| ensures LocalKeyOf(e, rows[j]) != LocalKeyOf(e, remote[k]) {
          assert rows[j] == remote[hi + j];
        }
        assert Elsewhere(e, rows, |rows|, LocalKeyOf(e, remote[k]));
      }
    }
    forall key | Elsewhere(e, remote, |remote|, key) ensures SameAt(was, local, key) {
      forall j | 0 <= j < |rows| ensures LocalKeyOf(e, rows[j]) != key { assert rows[j] == remote[hi + j]; }
      assert Elsewhere(e, rows, |rows|, key);
    }
  }

  /** Between pages: everything the cursor has passed since the start is stored. */
  ghost predicate Midway(e: Entity, remote: seq<Row>, was: Mirror, now: Mirror) {
    && IsTable(e, remote) && Usable(e, was.cursor) && Usable(e, now.cursor)
    && CursorFrom(e, remote, was.cursor, now.cursor)
    && Start(e, remote, was.cursor) <= Start(e, remote, now.cursor)
    && Progress(e, remote, was.local, now.local, Start(e, remote, was.cursor), Start(e, remote, now.cursor))
  }

  /** Stopped with rows up to `hi` written and the cursor at or before it. */
  lemma Ended(e: Entity, remote: seq<Row>, a: Mirror, b: Mirror, hi: nat)
    requires IsTable(e, remote) && Usable(e, a.cursor) && Usable(e, b.cursor)
    requires Progress(e, remote, a.local, b.local, Start(e, remote, a.cursor), hi)
    requires Start(e, remote, a.cursor) <= Start(e, remote, b.cursor) <= hi
    requires CursorFrom(e, remote, a.cursor, b.cursor)
    ensures PullStep(e, remote, a, b)
  {
    hide After, Usable, KeyOf, LocalKeyOf, Stored, SameAt, Start, Lex.Less, Keyed, CursorFrom, PositionFromRow;
    StartParts(e, remote, a.cursor);
    StartParts(e, remote, b.cursor);
  }

  /** The page has been written and the cursor has not moved yet. */
  ghost predicate Written(e: Entity, remote: seq<Row>, was: Mirror, now: Mirror, n: nat) {
    && IsTable(e, remote) && Usable(e, was.cursor) && Usable(e, now.cursor)
    && CursorFrom(e, remote, was.cursor, now.cursor)
    && Start(e, remote, was.cursor) <= Start(e, remote, now.cursor)
    && Progress(e, remote, was.local, now.local, Start(e, remote, was.cursor), Start(e, remote, now.cursor) + n)
  }

  ghost predicate IsNextPage(e: Entity, remote: seq<Row>, position: Position, rows: seq<Row>)
    requires IsTable(e, remote)
  {
    var n := Start(e, remote, position);
    n + |rows| <= |remote| && rows == remote[n..n + |rows|]
  }

  lemma WrittenEnds(e: Entity, remote: seq<Row>, was: Mirror, now: Mirror, n: nat)
    requires Written(e, remote, was, now, n)
    ensures PullStep(e, remote, was, now)
  {
    Ended(e, remote, was, now, Start(e, remote, now.cursor) + n);
  }

  lemma LastOfPage(e: Entity, remote: seq<Row>, position: Position, rows: seq<Row>)
    requires IsTable(e, remote) && rows != [] && IsNextPage(e, remote, position, rows)
    ensures PositionFromRow(e, rows[|rows| - 1]).Some?
    ensures Start(e, remote, PositionFromRow(e, rows[|rows| - 1]).value) == Start(e, remote, position) + |rows|
  {
    StartOf(e, remote, Start(e, remote, position) + |rows| - 1);
  }

  lemma Advances(e: Entity, remote: seq<Row>, was: Mirror, now: Mirror, rows: seq<Row>, position: Position)
    requires rows != [] && Written(e, remote, was, now, |rows|) && IsNextPage(e, remote, now.cursor, rows)
    requires PositionFromRow(e, rows[|rows| - 1]) == Some(position)
    ensures Midway(e, remote, was, now.(cursor := position))
  {
    hide Progress, KeyOf, LocalKeyOf;
    LastOfPage(e, remote, now.cursor, rows);
    StartOf(e, remote, Start(e, remote, now.cursor) + |rows| - 1);
  }

  lemma MidwayEnds(e: Entity, remote: seq<Row>, a: Mirror, b: Mirror)
    requires Midway(e, remote, a, b)
    ensures PullStep(e, remote, a, b)
  {
    Ended(e, remote, a, b, Start(e, remote, b.cursor));
  }

  lemma Passed(e: Entity, remote: seq<Row>, position: Position)
    requires IsTable(e, remote) && Usable(e, position)
    ensures Start(e, remote, position) == |remote| ==> forall k :: 0 <= k < |remote| ==> !After(e, position, remote[k])
  {
    StartParts(e, remote, position);
  }

  /** What can befall one turn.  Each write and each advance is one transaction. */
  datatype Fault = Fine | NoToken | FetchFails | DiesBeforeAdvance | DiesAfterAdvance

  /** A pull returns, warns that it is stuck and returns, or never gets to return. */
  datatype Outcome = Returned | Stalled | CutShort

  class Puller {
    const e: Entity
    const pageSize: nat
    var local: Local
    var cursor: Position

    constructor (e: Entity, pageSize: nat)
      ensures this.e == e && this.pageSize == pageSize
      ensures State() == Mirror(map[], map[e.cursorColumn := EPOCH])
    {
      this.e, this.pageSize := e, pageSize;
      local, cursor := map[], map[e.cursorColumn := EPOCH];
    }

    ghost function State(): Mirror
      reads this
    {
      Mirror(local, cursor)
    }

    /** Server wins, always: every row of the page replaces what its local key held. */
    method Write(rows: seq<Row>)
      requires forall k :: 0 <= k < |rows| ==> Keyed(e, rows[k])
      requires forall j, k :: 0 <= j < k < |rows| ==> LocalKeyOf(e, rows[j]) != LocalKeyOf(e, rows[k])
      modifies `local
      ensures forall k :: 0 <= k < |rows| ==> Stored(e, local, rows[k])
      ensures forall key :: Elsewhere(e, rows, |rows|, key) ==> SameAt(old(local), local, key)
    {
      hide LocalKeyOf, Project;
      for n := 0 to |rows|
        invariant forall k :: 0 <= k < n ==> Stored(e, local, rows[k])
        invariant forall key :: Elsewhere(e, rows, n, key) ==> SameAt(old(local), local, key)
      {
        ghost var before := local;
        local := local[LocalKeyOf(e, rows[n]) := Project(e, rows[n])];
        forall key | Elsewhere(e, rows, n + 1, key) ensures SameAt(old(local), local, key) {
          assert Elsewhere(e, rows, n, key) && SameAt(old(local), before, key);
        }
      }
    }

    /** Writes the page that comes next. */
    method Extend(remote: seq<Row>, rows: seq<Row>, ghost was: Mirror, ghost at: Position)
      requires Midway(e, remote, was, Mirror(local, at)) && IsNextPage(e, remote, at, rows)
      modifies `local
      ensures Written(e, remote, was, Mirror(local, at), |rows|)
    {
      ghost var before, hi := local, Start(e, remote, at);
      hide IsTable, Progress, Stored, SameAt, LocalKeyOf, Usable, Start, CursorFrom;
      Write(rows);
      PageWritten(e, remote, was.local, before, local, Start(e, remote, was.cursor), hi, rows);
    }

    /** The next page: rows after the cursor, in order, no more than fit.  Signed out, no rows at all. */
    method Fetch(remote: seq<Row>, signedIn: bool) returns (rows: seq<Row>)
      requires IsTable(e, remote) && Usable(e, cursor)
      ensures var n := Start(e, remote, cursor);
        rows == if !signedIn then [] else if |remote| - n <= pageSize then remote[n..] else remote[n..n + pageSize]
    {
      if !signedIn { return []; }
      var filter := KeysetFilter(e, cursor);
      rows := Answer(remote, filter, pageSize);
      AnswerIsSlice(e, remote, cursor, filter, pageSize);
    }

    /** Stores a page that is not empty and moves the cursor past it. */
    method Take(remote: seq<Row>, rows: seq<Row>, fault: Fault, ghost was: Mirror) returns (ended: Option<Outcome>)
      requires Midway(e, remote, was, Mirror(local, cursor)) && IsTable(e, remote)
      requires rows != [] && IsNextPage(e, remote, cursor, rows)
      requires |rows| < pageSize ==> Start(e, remote, cursor) + |rows| == |remote|
      modifies this
      ensures ended.None? ==>
        Midway(e, remote, was, Mirror(local, cursor)) && Start(e, remote, old(cursor)) < Start(e, remote, cursor)
      ensures ended.Some? ==> PullStep(e, remote, was, Mirror(local, cursor)) && ended.value != Stalled
      ensures ended == Some(Returned) ==> Start(e, remote, cursor) == |remote|
      ensures fault == Fine ==> ended.None? || ended.value == Returned
    {
      hide *;
      var advanced := PositionFromRow(e, rows[|rows| - 1]);
      LastOfPage(e, remote, cursor, rows);
      Extend(remote, rows, was, cursor);
      if advanced == None || advanced.value == cursor { return Some(Stalled); }
      if fault == DiesBeforeAdvance {
        WrittenEnds(e, remote, was, Mirror(local, cursor), |rows|);
        return Some(CutShort);
      }
      Advances(e, remote, was, Mirror(local, cursor), rows, advanced.value);
      cursor := advanced.value;
      MidwayEnds(e, remote, was, Mirror(local, cursor));
      if fault == DiesAfterAdvance { return Some(CutShort); }
      if |rows| < pageSize { return Some(Returned); }
      ended := None;
    }

    /** One turn of the loop; none when there is another to come. */
    method Page(remote: seq<Row>, fault: Fault, ghost was: Mirror) returns (ended: Option<Outcome>)
      requires pageSize > 0 && Midway(e, remote, was, Mirror(local, cursor))
      modifies this
      ensures ended.None? ==>
        Midway(e, remote, was, Mirror(local, cursor)) && Start(e, remote, old(cursor)) < Start(e, remote, cursor)
      ensures ended.Some? ==> PullStep(e, remote, was, Mirror(local, cursor)) && ended.value != Stalled
      ensures ended == Some(Returned) && fault != NoToken ==> Start(e, remote, cursor) == |remote|
      ensures fault == Fine ==> ended.None? || ended.value == Returned
      ensures fault == FetchFails ==> ended == Some(CutShort)
      ensures fault == NoToken ==> ended == Some(Returned) && local == old(local) && cursor == old(cursor)
    {
      MidwayEnds(e, remote, was, Mirror(local, cursor));
      assert IsTable(e, remote) && Usable(e, cursor);
      hide Usable, Keyed, Start, Midway, PullStep;
      if fault == FetchFails { return Some(CutShort); }
      var rows := Fetch(remote, fault != NoToken);
      if rows == [] { return Some(Returned); }
      ended := Take(remote, rows, fault, was);
    }

    /**
      * Pages forward from the stored cursor until a short page, or an empty one.  However it ends,
      * what it passed is stored, and it never stalls.  Returning means that nothing lies beyond the
      * cursor only if there was a token for the fetch it ended on: `last` is what befell that turn.
      */
    method Pull(remote: seq<Row>, weather: seq<Fault>) returns (outcome: Outcome, ghost last: Fault)
      requires pageSize > 0 && IsTable(e, remote) && Usable(e, cursor)
      modifies this
      ensures PullStep(e, remote, old(State()), State())
      ensures outcome != Stalled && (last == Fine || last in weather)
      ensures last == Fine || last == NoToken ==> outcome == Returned
      ensures last == FetchFails ==> outcome == CutShort
      ensures outcome == Returned && last != NoToken ==> forall k :: 0 <= k < |remote| ==> !After(e, cursor, remote[k])
      ensures weather != [] && weather[0] == NoToken ==> last == NoToken && State() == old(State())
    {
      ghost var was := State();
      assert forall k :: 0 <= k < |remote| ==> Keyed(e, remote[k]);
      var n := 0;
      while true
        invariant Midway(e, remote, was, Mirror(local, cursor))
        invariant n == 0 ==> State() == was
        invariant n > 0 && weather != [] ==> weather[0] != NoToken
        decreases |remote| - Start(e, remote, cursor)
      {
        hide Usable, Keyed, Start, PullStep, IsTable, Progress, CursorFrom;
        var fault := if n < |weather| then weather[n] else Fine;
        assert n < |weather| ==> weather[n] in weather;
        var ended := Page(remote, fault, was);
        if ended.Some? {
          Passed(e, remote, cursor);
          return ended.value, fault;
        }
        n := n + 1;
      }
    }
  }

  // ---- Any number of pulls ----

  ghost predicate Pulls(e: Entity, remote: seq<Row>, path: seq<Mirror>)
    requires IsTable(e, remote)
  {
    && path != [] && Usable(e, path[0].cursor)
    && forall k :: 0 <= k < |path| - 1 ==> PullStep(e, remote, path[k], path[k + 1])
  }

  lemma RowStepJoin(e: Entity, a: Mirror, b: Mirror, c: Mirror, row: Row)
    requires Keyed(e, row) && RowStep(e, a, b, row) && RowStep(e, b, c, row)
    ensures RowStep(e, a, c, row)
  {
    hide After, LocalKeyOf, Project, Keyed;
  }

  lemma PullStepJoin(e: Entity, remote: seq<Row>, a: Mirror, b: Mirror, c: Mirror)
    requires IsTable(e, remote) && PullStep(e, remote, a, b) && PullStep(e, remote, b, c)
    ensures PullStep(e, remote, a, c)
  {
    assert forall k :: 0 <= k < |remote| ==> Keyed(e, remote[k]);
    hide IsTable, Usable, RowStep, Keyed, PositionFromRow, Elsewhere;
    forall k | 0 <= k < |remote| ensures RowStep(e, a, c, remote[k]) { RowStepJoin(e, a, b, c, remote[k]); }
    forall key | Elsewhere(e, remote, |remote|, key) ensures SameAt(a.local, c.local, key) {
      assert SameAt(a.local, b.local, key) && SameAt(b.local, c.local, key);
    }
  }

  /** Killed anywhere and rerun any number of times, the pulls together are one pull. */
  lemma {:induction false} PullsJoin(e: Entity, remote: seq<Row>, path: seq<Mirror>)
    requires IsTable(e, remote) && Pulls(e, remote, path)
    ensures |path| > 1 ==> PullStep(e, remote, path[0], path[|path| - 1])
    decreases |path|
  {
    hide IsTable, PullStep;
    if |path| > 1 {
      var n := |path| - 1;
      assert Pulls(e, remote, path[..n]);
      PullsJoin(e, remote, path[..n]);
      assert PullStep(e, remote, path[n - 1], path[n]);
      if n > 1 { PullStepJoin(e, remote, path[0], path[n - 1], path[n]); }
    }
  }

  /**
    * Keyset pull is complete.  Over a fixed table, once some pull of a run has completed, every
    * row after the cursor the run began with is stored, however many rows share a watermark and
    * wherever the earlier pulls were killed.  A row not after it is exactly as it was.
    */
  lemma KeysetPullIsComplete(e: Entity, remote: seq<Row>, path: seq<Mirror>, k: nat)
    requires IsTable(e, remote) && Pulls(e, remote, path) && |path| > 1 && k < |remote|
    requires forall j :: 0 <= j < |remote| ==> !After(e, path[|path| - 1].cursor, remote[j])
    ensures if After(e, path[0].cursor, remote[k]) then Stored(e, path[|path| - 1].local, remote[k])
            else SameAt(path[0].local, path[|path| - 1].local, LocalKeyOf(e, remote[k]))
  {
    hide IsTable;
    PullsJoin(e, remote, path);
  }

  /**
    * A bare watermark left by an older build skips ties for good: no run of pulls ever touches a
    * row that shares it, and a completed one stores exactly the rows with a greater watermark.
    */
  lemma BareCursorSkipsTies(e: Entity, remote: seq<Row>, path: seq<Mirror>, k: nat)
    requires IsTable(e, remote) && Pulls(e, remote, path) && |path| > 1 && k < |remote|
    requires forall c :: c in e.tiebreaks ==> c !in path[0].cursor
    requires LocalKeyOf(e, remote[k]) !in path[0].local
    requires forall j :: 0 <= j < |remote| ==> !After(e, path[|path| - 1].cursor, remote[j])
    ensures Keyed(e, remote[k]) && e.cursorColumn in remote[k]
    ensures Stored(e, path[|path| - 1].local, remote[k]) <==> remote[k][e.cursorColumn] > Watermark(e, path[0].cursor)
  {
    KeysetPullIsComplete(e, remote, path, k);
    AfterMeans(e, path[0].cursor, remote[k]);
    assert Columns(e)[0] in remote[k];
  }
}
