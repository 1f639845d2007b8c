/// Facts about the queue that the drain loop uses: what is pending after a batch is
/// handled, and what sending every row alone, oldest first, would have done.
module Queue {
  import opened Wrappers
  import opened SyncStore

  // ---- The pending rows are determined by their set ----

  ghost predicate Ascending(xs: seq<nat>) {
    forall j, k :: 0 <= j < k < |xs| ==> xs[j] < xs[k]
  }

  lemma AscendingLast(a: seq<nat>, b: seq<nat>)
    requires Ascending(a) && Ascending(b) && a != [] && b != []
    requires forall x :: x in a ==> x in b
    ensures a[|a| - 1] <= b[|b| - 1]
  {
    assert a[|a| - 1] in a;
    var i :| 0 <= i < |b| && b[i] == a[|a| - 1];
  }

  lemma {:induction false} AscendingUnique(a: seq<nat>, b: seq<nat>)
    requires Ascending(a) && Ascending(b)
    requires forall x :: x in a <==> x in b
    ensures a == b
    decreases |a|
  {
    assert (a != [] ==> a[0] in a) && (b != [] ==> b[0] in b);
    if a != [] && b != [] {
      AscendingLast(a, b);
      AscendingLast(b, a);
      var last, a', b' := a[|a| - 1], a[..|a| - 1], b[..|b| - 1];
      assert a == a' + [last] && b == b' + [last];
      assert last !in a' && last !in b';
      forall z ensures z in a' <==> z in b' {
        assert z in a <==> z in a' || z == last;
        assert z in b <==> z in b' || z == last;
      }
      AscendingUnique(a', b');
    }
  }

  lemma PendingAfter(outbox: seq<OutboxRow>, ids: seq<nat>, rest: seq<nat>)
    requires Ascending(rest)
    requires forall i :: i in rest <==> i in Pending(outbox) && i !in ids
    ensures Pending(Mark(outbox, ids)) == rest
  {
    AscendingUnique(Pending(Mark(outbox, ids)), rest);
  }

  /** Joining an ascending part of the front to the untouched back. */
  lemma AscendingJoin(p: seq<nat>, n: nat, front: seq<nat>)
    requires Ascending(p) && n <= |p| && Ascending(front)
    requires forall i :: i in front ==> i in p[..n]
    ensures Ascending(front + p[n..])
  {
    forall j, k | 0 <= j < |front| && n <= k < |p| ensures front[j] < p[k] {
      assert front[j] in p[..n];
      var m :| 0 <= m < n && p[m] == front[j];
    }
  }

  /** Taking `gone` out of the front of the queue leaves `kept` and the back. */
  lemma PendingAfterSplit(outbox: seq<OutboxRow>, n: nat, gone: seq<nat>, kept: seq<nat>)
    requires n <= |Pending(outbox)| && Ascending(kept)
    requires forall i :: i in Pending(outbox)[..n] <==> i in kept || i in gone
    requires forall i :: i in kept ==> i !in gone
    ensures Pending(Mark(outbox, gone)) == kept + Pending(outbox)[n..]
  {
    hide Pending, Mark;
    var p := Pending(outbox);
    AscendingJoin(p, n, kept);
    assert p == p[..n] + p[n..];
    forall i | i in p[n..] ensures i !in p[..n] {
      var k :| n <= k < |p| && p[k] == i;
    }
    PendingAfter(outbox, gone, kept + p[n..]);
  }

  /** Handling the oldest rows leaves exactly the others. */
  lemma PendingAfterPrefix(outbox: seq<OutboxRow>, ids: seq<nat>)
    requires ids <= Pending(outbox)
    ensures Pending(Mark(outbox, ids)) == Pending(outbox)[|ids|..]
  {
    PendingAfterSplit(outbox, |ids|, ids, []);
  }

  lemma PendingAfterBump(outbox: seq<OutboxRow>, ids: seq<nat>)
    ensures Pending(Bump(outbox, ids)) == Pending(outbox)
  {
    AscendingUnique(Pending(Bump(outbox, ids)), Pending(outbox));
  }

  // ---- Building ----

  predicate NamesTerminal(entity: Entity) {
    entity == Sale || entity == StockMovement || entity == UnknownScan || entity == RegisterSession
  }

  /** None is a `PayloadError`: no builder, no record, or no identity to name the till by. */
  function Build(t: Tables, identity: bool, i: nat): Option<Envelope>
    requires i < |t.outbox|
  {
    var row := t.outbox[i];
    if row.entity == Unsupported || row.Key() !in t.records || (NamesTerminal(row.entity) && !identity) then None
    else Some(EnvelopeOf(t, i))
  }

  predicate Buildable(t: Tables, identity: bool, ids: seq<nat>) {
    forall k :: 0 <= k < |ids| ==> ids[k] < |t.outbox| && Build(t, identity, ids[k]).Some?
  }

  /** The same rows and records, whatever has been marked. */
  ghost predicate SameDocuments(a: Tables, b: Tables) {
    && a.ledger == b.ledger && a.records == b.records
    && a.clientSeq == b.clientSeq && a.cached == b.cached
    && |a.outbox| == |b.outbox|
    && forall i :: 0 <= i < |a.outbox| ==>
         a.outbox[i].Key() == b.outbox[i].Key() && a.outbox[i].clientSeq == b.outbox[i].clientSeq
  }

  // ---- The server's verdict ----

  type Accepts = (Cloud, Envelope) -> bool

  /** One item: a no-op when already held, refused when the server will not have it. */
  function TryOne(accepts: Accepts, c: Cloud, e: Envelope): Option<Cloud> {
    if e.key in c.held then Some(c)
    else if accepts(c, e) then Some(Admit(c, e)) else None
  }

  /** One request is one transaction: any refusal rolls back the lot. */
  function TryAll(accepts: Accepts, c: Cloud, es: seq<Envelope>): Option<Cloud>
    decreases |es|
  {
    if es == [] then Some(c)
    else
      match TryOne(accepts, c, es[0])
      case None => None
      case Some(c') => TryAll(accepts, c', es[1..])
  }

  lemma {:induction false} AcceptedAdmits(accepts: Accepts, c: Cloud, es: seq<Envelope>)
    requires TryAll(accepts, c, es).Some?
    ensures TryAll(accepts, c, es).value == AdmitAll(c, es)
    decreases |es|
  {
    if es != [] { AcceptedAdmits(accepts, Admit(c, es[0]), es[1..]); }
  }

  lemma {:induction false} InsertHeld(c: Cloud, deltas: seq<LedgerRow>)
    ensures InsertDeltas(c, deltas).held == c.held
    decreases |deltas|
  {
    if deltas != [] { InsertHeld(InsertDelta(c, deltas[0]), deltas[1..]); }
  }

  lemma {:induction false} AdmittedHeld(c: Cloud, es: seq<Envelope>)
    ensures c.held <= AdmitAll(c, es).held
    ensures forall e :: e in es ==> e.key in AdmitAll(c, es).held
    decreases |es|
  {
    if es != [] {
      InsertHeld(c.(held := c.held + {es[0].key}), es[0].deltas);
      AdmittedHeld(Admit(c, es[0]), es[1..]);
      assert es == [es[0]] + es[1..];
    }
  }

  // ---- Every row sent alone ----

  datatype Outcome = Outcome(cloud: Cloud, refused: set<nat>)

  /** The reference: every row alone, in order, with no network fault. */
  function Alone(accepts: Accepts, t: Tables, identity: bool, c: Cloud, ids: seq<nat>): Outcome
    requires AllRows(t, ids)
    decreases |ids|
  {
    if ids == [] then Outcome(c, {})
    else
      var sent := match Build(t, identity, ids[0])
        case None => None
        case Some(e) => TryOne(accepts, c, e);
      match sent
      case Some(c') => Alone(accepts, t, identity, c', ids[1..])
      case None =>
        var rest := Alone(accepts, t, identity, c, ids[1..]);
        Outcome(rest.cloud, {ids[0]} + rest.refused)
  }

  lemma {:induction false} AloneStable(accepts: Accepts, a: Tables, b: Tables, identity: bool, c: Cloud, ids: seq<nat>)
    requires AllRows(a, ids) && SameDocuments(a, b)
    ensures Alone(accepts, a, identity, c, ids) == Alone(accepts, b, identity, c, ids)
    decreases |ids|
  {
    if ids != [] {
      assert Build(a, identity, ids[0]) == Build(b, identity, ids[0]);
      match Build(a, identity, ids[0])
      case None => AloneStable(accepts, a, b, identity, c, ids[1..]);
      case Some(e) =>
        match TryOne(accepts, c, e)
        case None => AloneStable(accepts, a, b, identity, c, ids[1..]);
        case Some(c') => AloneStable(accepts, a, b, identity, c', ids[1..]);
    }
  }

  /** A batch the server takes whole is what each of its rows sent alone comes to. */
  lemma {:induction false} WholeBatch(accepts: Accepts, t: Tables, identity: bool, c: Cloud, ids: seq<nat>, rest: seq<nat>)
    requires AllRows(t, ids) && AllRows(t, ids + rest) && Buildable(t, identity, ids)
    requires TryAll(accepts, c, EnvelopesOf(t, ids)).Some?
    ensures AllRows(t, rest)
    ensures Alone(accepts, t, identity, c, ids + rest)
         == Alone(accepts, t, identity, TryAll(accepts, c, EnvelopesOf(t, ids)).value, rest)
    decreases |ids|
  {
    assert forall k :: 0 <= k < |rest| ==> rest[k] == (ids + rest)[|ids| + k];
    if ids == [] {
      assert ids + rest == rest;
    } else {
      var es := EnvelopesOf(t, ids);
      assert es[1..] == EnvelopesOf(t, ids[1..]);
      assert (ids + rest)[1..] == ids[1..] + rest;
      WholeBatch(accepts, t, identity, TryOne(accepts, c, es[0]).value, ids[1..], rest);
    }
  }

  /** A row refused when sent alone, ahead of the rest. */
  lemma RefusedFirst(accepts: Accepts, t: Tables, identity: bool, c: Cloud, i: nat, rest: seq<nat>)
    requires AllRows(t, [i] + rest) && AllRows(t, rest) && AllRows(t, [i]) && Buildable(t, identity, [i])
    requires TryAll(accepts, c, EnvelopesOf(t, [i])).None?
    ensures var after := Alone(accepts, t, identity, c, rest);
      Alone(accepts, t, identity, c, [i] + rest) == Outcome(after.cloud, {i} + after.refused)
  {
    assert ([i] + rest)[1..] == rest && ([i] + rest)[0] == [i][0] == i;
    assert EnvelopesOf(t, [i])[1..] == [];
  }

  // ---- Splitting a batch into what can be built and what cannot ----

  function Built(t: Tables, identity: bool, ids: seq<nat>): (built: seq<nat>)
    requires AllRows(t, ids)
    ensures forall i :: i in built <==> i in ids && Build(t, identity, i).Some?
    ensures Buildable(t, identity, built)
  {
    if ids == [] then []
    else if Build(t, identity, ids[0]).Some? then [ids[0]] + Built(t, identity, ids[1..])
    else Built(t, identity, ids[1..])
  }

  function Unbuilt(t: Tables, identity: bool, ids: seq<nat>): (unbuilt: seq<nat>)
    requires AllRows(t, ids)
    ensures forall i :: i in unbuilt <==> i in ids && Build(t, identity, i).None?
    ensures AllRows(t, unbuilt)
    ensures |unbuilt| + |Built(t, identity, ids)| == |ids|
  {
    if ids == [] then []
    else if Build(t, identity, ids[0]).None? then [ids[0]] + Unbuilt(t, identity, ids[1..])
    else Unbuilt(t, identity, ids[1..])
  }

  lemma {:induction false} BuiltAscending(t: Tables, identity: bool, ids: seq<nat>)
    requires AllRows(t, ids) && Ascending(ids)
    ensures Ascending(Built(t, identity, ids))
    decreases |ids|
  {
    if ids != [] {
      BuiltAscending(t, identity, ids[1..]);
      forall i | i in Built(t, identity, ids[1..]) ensures ids[0] < i {
        assert i in ids[1..];
        var k :| 0 <= k < |ids[1..]| && ids[1..][k] == i;
        assert ids[k + 1] == i;
      }
    }
  }

  function AsSet(ids: seq<nat>): set<nat> { set i | i in ids }

  lemma AloneCons(accepts: Accepts, t: Tables, identity: bool, c: Cloud, i: nat, tail: seq<nat>)
    requires AllRows(t, [i]) && AllRows(t, tail)
    ensures AllRows(t, [i] + tail)
    ensures i < |t.outbox|
    ensures var sent := match Build(t, identity, i) case None => None case Some(e) => TryOne(accepts, c, e);
      var all := Alone(accepts, t, identity, c, [i] + tail);
      match sent
      case Some(c') => all == Alone(accepts, t, identity, c', tail)
      case None =>
        var rest := Alone(accepts, t, identity, c, tail);
        all == Outcome(rest.cloud, {i} + rest.refused)
  {
    hide TryOne, Build;
    assert [i][0] == i;
    forall k | 0 <= k < |[i] + tail| ensures ([i] + tail)[k] < |t.outbox| {
      if k > 0 { assert ([i] + tail)[k] == tail[k - 1]; }
    }
    assert ([i] + tail)[1..] == tail;
  }

  lemma SplitRows(t: Tables, ids: seq<nat>, rest: seq<nat>)
    requires ids != [] && AllRows(t, ids) && AllRows(t, rest)
    ensures AllRows(t, ids[1..]) && AllRows(t, [ids[0]]) && AllRows(t, ids[1..] + rest)
    ensures ids + rest == [ids[0]] + (ids[1..] + rest)
  {
    forall k | 0 <= k < |ids[1..] + rest| ensures (ids[1..] + rest)[k] < |t.outbox| {
      if k < |ids| - 1 { assert (ids[1..] + rest)[k] == ids[k + 1]; }
    }
  }

  lemma SplitBuilt(t: Tables, identity: bool, ids: seq<nat>, rest: seq<nat>)
    requires ids != [] && AllRows(t, ids) && AllRows(t, ids[1..])
    ensures Built(t, identity, ids) + rest
         == if Build(t, identity, ids[0]).Some? then [ids[0]] + (Built(t, identity, ids[1..]) + rest)
            else Built(t, identity, ids[1..]) + rest
  {
    hide Build, Buildable;
  }

  /** The same cloud, and the same refusals once some rows are counted as refused. */
  ghost predicate SameBut(all: Outcome, built: Outcome, gone: set<nat>) {
    all.cloud == built.cloud && all.refused == built.refused + gone
  }

  /** Setting the unbuildable rows aside first refuses them and changes nothing else. */
  lemma {:induction false} UnbuiltFirst(accepts: Accepts, t: Tables, identity: bool, c: Cloud, ids: seq<nat>, rest: seq<nat>)
    requires AllRows(t, ids) && AllRows(t, rest) && AllRows(t, ids + rest) && AllRows(t, Built(t, identity, ids) + rest)
    ensures SameBut(Alone(accepts, t, identity, c, ids + rest),
                    Alone(accepts, t, identity, c, Built(t, identity, ids) + rest),
                    AsSet(Unbuilt(t, identity, ids)))
    decreases |ids|
  {
    if ids == [] {
      assert ids + rest == rest && Built(t, identity, ids) + rest == rest;
      assert AsSet(Unbuilt(t, identity, ids)) == {};
    } else {
      SplitRows(t, ids, rest);
      SplitBuilt(t, identity, ids, rest);
      assert {} + AsSet(Unbuilt(t, identity, ids[1..])) == AsSet(Unbuilt(t, identity, ids[1..]));
      hide TryOne, Build, Built, Unbuilt, Alone, AllRows, AsSet, SameBut;
      var i, e := ids[0], Build(t, identity, ids[0]);
      var sent := if e.Some? then TryOne(accepts, c, e.value) else None;
      var c' := if sent.Some? then sent.value else c;
      AloneCons(accepts, t, identity, c, i, ids[1..] + rest);
      UnbuiltFirst(accepts, t, identity, c', ids[1..], rest);
      var built := Alone(accepts, t, identity, c', Built(t, identity, ids[1..]) + rest);
      if e.Some? { AloneCons(accepts, t, identity, c, i, Built(t, identity, ids[1..]) + rest); }
    }
  }
}
