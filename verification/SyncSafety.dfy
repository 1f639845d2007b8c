/// What every step of the sync machine keeps: nothing is lost, no delta is counted
/// twice, and with no manual retry the cloud never holds a row ahead of an earlier one.
module SyncSafety {
  import opened Wrappers
  import opened SyncStore

  // ---- Sums over the ledger ----

  function SumWhere(ledger: seq<LedgerRow>, p: Product, keep: LedgerRow -> bool): int {
    if ledger == [] then 0
    else
      var n := |ledger| - 1;
      SumWhere(ledger[..n], p, keep)
      + (if ledger[n].product == p && keep(ledger[n]) then ledger[n].delta else 0)
  }

  function InSet(ids: set<Id>): LedgerRow -> bool {
    (l: LedgerRow) => l.id in ids
  }

  lemma {:induction false} SumSame(ledger: seq<LedgerRow>, p: Product, a: LedgerRow -> bool, b: LedgerRow -> bool)
    requires forall l :: l in ledger && l.product == p ==> a(l) == b(l)
    ensures SumWhere(ledger, p, a) == SumWhere(ledger, p, b)
  {
    if ledger != [] {
      SumSame(ledger[..|ledger| - 1], p, a, b);
    }
  }

  lemma {:induction false} SumExtended(ledger: seq<LedgerRow>, rows: seq<LedgerRow>, p: Product, keep: LedgerRow -> bool)
    requires forall l :: l in rows ==> !keep(l)
    ensures SumWhere(ledger + rows, p, keep) == SumWhere(ledger, p, keep)
  {
    if rows == [] {
      assert ledger + rows == ledger;
    } else {
      var n := |rows| - 1;
      assert (ledger + rows)[..|ledger + rows| - 1] == ledger + rows[..n];
      SumExtended(ledger, rows[..n], p, keep);
    }
  }

  /** Counting one more row, by its unique id, adds exactly that row's delta. */
  lemma {:induction false} SumOneMore(ledger: seq<LedgerRow>, p: Product, ids: set<Id>, l: LedgerRow)
    requires UniqueIds(ledger)
    requires l in ledger && l.product == p && l.id !in ids
    ensures SumWhere(ledger, p, InSet(ids + {l.id})) == SumWhere(ledger, p, InSet(ids)) + l.delta
  {
    var n := |ledger| - 1;
    assert ledger == ledger[..n] + [ledger[n]];
    if ledger[n] == l {
      SumSame(ledger[..n], p, InSet(ids + {l.id}), InSet(ids));
    } else {
      SumOneMore(ledger[..n], p, ids, l);
    }
  }

  lemma SumOtherProduct(ledger: seq<LedgerRow>, p: Product, ids: set<Id>, l: LedgerRow)
    requires UniqueIds(ledger)
    requires l in ledger && l.product != p
    ensures SumWhere(ledger, p, InSet(ids + {l.id})) == SumWhere(ledger, p, InSet(ids))
  {
    SumSame(ledger, p, InSet(ids + {l.id}), InSet(ids));
  }

  // ---- The invariant ----

  predicate UniqueIds(ledger: seq<LedgerRow>) {
    forall j, k :: 0 <= j < k < |ledger| ==> ledger[j].id != ledger[k].id
  }

  /** The outbox row a ledger row travels with. */
  function Owner(l: LedgerRow): Key {
    match l.sale
    case Some(sale) => (Sale, sale)
    case None => (StockMovement, l.id)
  }

  /** Every record is queued exactly once, in the order of `client_seq`. */
  ghost predicate Queued(db: Tables) {
    && (forall i :: 0 <= i < |db.outbox| ==> db.outbox[i].Key() in db.records)
    && (forall key :: key in db.records ==> HasRow(db, key))
    && (forall i, j :: 0 <= i < j < |db.outbox| ==> db.outbox[i].Key() != db.outbox[j].Key())
    && (forall i, j :: 0 <= i < j < |db.outbox| ==> db.outbox[i].clientSeq < db.outbox[j].clientSeq)
    && (forall i :: 0 <= i < |db.outbox| ==> db.outbox[i].clientSeq <= db.clientSeq)
  }

  ghost predicate Owned(db: Tables) {
    && UniqueIds(db.ledger)
    && (forall l :: l in db.ledger ==> Owner(l) in db.records)
    && (forall l :: l in db.ledger && l.sale.Some? ==> (StockMovement, l.id) !in db.records)
    && (forall id: Id :: (StockMovement, id) in db.records ==> exists l :: l in db.ledger && l.id == id)
  }

  /** The cloud has a ledger row exactly when it holds the record the row travels with. */
  ghost predicate Landed(w: World) {
    && w.cloud.held <= w.db.records
    && (forall id :: id in w.cloud.ledger ==> exists l :: l in w.db.ledger && l.id == id)
    && (forall l :: l in w.db.ledger ==> (l.id in w.cloud.ledger <==> Owner(l) in w.cloud.held))
  }

  ghost predicate Levelled(w: World) {
    forall p: Product ::
      At(w.cloud.levels, p) == At(w.cloud.elsewhere, p) + SumWhere(w.db.ledger, p, InSet(w.cloud.ledger))
  }

  ghost predicate CachedFaithfully(w: World) {
    forall p :: p in w.db.cached ==>
      && w.db.cached[p].counted <= w.cloud.ledger
      && w.db.cached[p].onHand
         == w.db.cached[p].elsewhere + SumWhere(w.db.ledger, p, InSet(w.db.cached[p].counted))
  }

  /** Some failure of this row that nobody has retried yet. */
  ghost predicate SetAside(db: Tables, i: nat) {
    exists f :: 0 <= f < |db.failures| && db.failures[f] == Failure(Some(i), false)
  }

  ghost predicate Kept(w: World) {
    forall i :: 0 <= i < |w.db.outbox| ==>
      !w.db.outbox[i].synced || w.db.outbox[i].Key() in w.cloud.held || SetAside(w.db, i)
  }

  ghost predicate Inv(w: World) {
    && Queued(w.db) && Owned(w.db) && Landed(w) && Levelled(w) && CachedFaithfully(w) && Kept(w)
  }

  // ---- Steps of the terminal ----

  ghost predicate HasRow(db: Tables, key: Key) {
    exists i :: 0 <= i < |db.outbox| && db.outbox[i].Key() == key
  }

  lemma EnqueueHas(db: Tables, key: Key, k: Key)
    requires HasRow(db, k) || k == key
    ensures HasRow(Enqueue(db, key), k)
  {
    var db', n := Enqueue(db, key), |db.outbox|;
    if HasRow(db, k) {
      var i :| 0 <= i < n && db.outbox[i].Key() == k;
      assert db'.outbox[i].Key() == k;
    } else {
      assert db'.outbox[n].Key() == key;
    }
  }

  lemma EnqueueQueued(db: Tables, key: Key)
    requires Queued(db) && key !in db.records
    ensures Queued(Enqueue(db, key))
  {
    hide HasRow;
    var db', n := Enqueue(db, key), |db.outbox|;
    assert forall i :: 0 <= i < n ==> db'.outbox[i] == db.outbox[i];
    assert db'.outbox[n].Key() == key && db'.outbox[n].clientSeq == db.clientSeq + 1;
    forall k | k in db'.records ensures HasRow(db', k) { EnqueueHas(db, key, k); }
  }

  function WithRows(db: Tables, rows: seq<LedgerRow>, key: Key): Tables {
    Enqueue(db.(ledger := db.ledger + rows), key)
  }

  /** New ledger rows, and the new key of the one outbox row that carries them. */
  ghost predicate NewDocument(db: Tables, rows: seq<LedgerRow>, key: Key) {
    && key !in db.records && FreshIds(db, rows)
    && (key.0 == StockMovement ==> rows != [] && rows[0].id == key.1)
    && (forall l :: l in rows ==> Owner(l) == key)
  }

  lemma FreshRow(w: World, rows: seq<LedgerRow>, l: LedgerRow)
    requires Owned(w.db) && Landed(w) && FreshIds(w.db, rows) && l in rows
    ensures l.id !in w.cloud.ledger && (StockMovement, l.id) !in w.db.records && l !in w.db.ledger
  {
    var k :| 0 <= k < |rows| && rows[k] == l;
  }

  lemma AddRowsOwned(w: World, rows: seq<LedgerRow>, key: Key)
    requires Owned(w.db) && Landed(w) && NewDocument(w.db, rows, key)
    ensures Owned(WithRows(w.db, rows, key))
  {
    var db' := WithRows(w.db, rows, key);
    forall l | l in rows && l.sale.Some? ensures (StockMovement, l.id) !in db'.records {
      FreshRow(w, rows, l);
    }
    forall id: Id | (StockMovement, id) in db'.records
      ensures exists l :: l in db'.ledger && l.id == id
    {
      if (StockMovement, id) in w.db.records {
        var l :| l in w.db.ledger && l.id == id;
        assert l in db'.ledger;
      } else {
        assert rows[0] in db'.ledger;
      }
    }
  }

  lemma AddRowsLanded(w: World, rows: seq<LedgerRow>, key: Key)
    requires Owned(w.db) && Landed(w) && NewDocument(w.db, rows, key)
    ensures Landed(World(WithRows(w.db, rows, key), w.cloud))
  {
    var db' := WithRows(w.db, rows, key);
    forall id | id in w.cloud.ledger ensures exists l :: l in db'.ledger && l.id == id {
      var l :| l in w.db.ledger && l.id == id;
      assert l in db'.ledger;
    }
    forall l | l in rows ensures l.id !in w.cloud.ledger && Owner(l) !in w.cloud.held {
      FreshRow(w, rows, l);
    }
  }

  lemma AddRowsSums(w: World, rows: seq<LedgerRow>, key: Key)
    requires Owned(w.db) && Landed(w) && Levelled(w) && CachedFaithfully(w) && NewDocument(w.db, rows, key)
    ensures Levelled(World(WithRows(w.db, rows, key), w.cloud))
    ensures CachedFaithfully(World(WithRows(w.db, rows, key), w.cloud))
  {
    forall p: Product, ids: set<Id> | ids <= w.cloud.ledger
      ensures SumWhere(w.db.ledger + rows, p, InSet(ids)) == SumWhere(w.db.ledger, p, InSet(ids))
    {
      forall l | l in rows ensures !InSet(ids)(l) { FreshRow(w, rows, l); }
      SumExtended(w.db.ledger, rows, p, InSet(ids));
    }
  }

  lemma AddRows(w: World, rows: seq<LedgerRow>, key: Key)
    requires Inv(w) && NewDocument(w.db, rows, key)
    ensures Inv(World(WithRows(w.db, rows, key), w.cloud))
  {
    EnqueueQueued(w.db, key);
    assert Queued(WithRows(w.db, rows, key)) by {
      assert WithRows(w.db, rows, key).outbox == Enqueue(w.db, key).outbox;
    }
    AddRowsOwned(w, rows, key);
    AddRowsLanded(w, rows, key);
    AddRowsSums(w, rows, key);
    KeptByFlags(w, World(WithRows(w.db, rows, key), w.cloud));
  }

  /** Rows keep their identity and failures only accumulate, so nothing that was kept is lost. */
  lemma KeptByFlags(w: World, w': World)
    requires Kept(w)
    requires |w.db.outbox| <= |w'.db.outbox| && w.cloud.held <= w'.cloud.held
    requires w.db.failures <= w'.db.failures
    requires forall i :: 0 <= i < |w.db.outbox| ==>
      w'.db.outbox[i].Key() == w.db.outbox[i].Key() && (w'.db.outbox[i].synced ==> w.db.outbox[i].synced)
    requires forall i :: |w.db.outbox| <= i < |w'.db.outbox| ==> !w'.db.outbox[i].synced
    ensures Kept(w')
  {
    forall i | 0 <= i < |w'.db.outbox|
      ensures !w'.db.outbox[i].synced || w'.db.outbox[i].Key() in w'.cloud.held || SetAside(w'.db, i)
    {
      if i < |w.db.outbox| && SetAside(w.db, i) {
        var f :| 0 <= f < |w.db.failures| && w.db.failures[f] == Failure(Some(i), false);
        assert w'.db.failures[f] == w.db.failures[f];
      }
    }
  }

  lemma FlagsQueued(db: Tables, db': Tables)
    requires Queued(db) && SameRows(db.outbox, db'.outbox) && db'.records == db.records && db'.clientSeq == db.clientSeq
    ensures Queued(db')
  {
    forall key | key in db'.records ensures HasRow(db', key) {
      assert HasRow(db, key);
      var i :| 0 <= i < |db.outbox| && db.outbox[i].Key() == key;
      assert db'.outbox[i].Key() == key;
    }
  }

  lemma FlagsOnly(w: World, db': Tables)
    requires Inv(w)
    requires db' == w.db.(outbox := db'.outbox, failures := db'.failures)
    requires SameRows(w.db.outbox, db'.outbox)
    requires Kept(World(db', w.cloud))
    ensures Inv(World(db', w.cloud))
  {
    hide SameRows, SumWhere, HasRow, Queued, Kept;
    FlagsQueued(w.db, db');
  }

  lemma QuarantineKeeps(w: World, ids: seq<nat>)
    requires Inv(w) && Enabled(w, Quarantine(ids))
    ensures Kept(Apply(w, Quarantine(ids)))
  {
    hide Queued, Owned, Landed, Levelled, CachedFaithfully;
    var w' := Apply(w, Quarantine(ids));
    forall i | 0 <= i < |w'.db.outbox|
      ensures !w'.db.outbox[i].synced || w'.db.outbox[i].Key() in w'.cloud.held || SetAside(w'.db, i)
    {
      if i in ids {
        var k :| 0 <= k < |ids| && ids[k] == i;
        assert w'.db.failures[|w.db.failures| + k] == Failure(Some(i), false);
      } else if SetAside(w.db, i) {
        var f :| 0 <= f < |w.db.failures| && w.db.failures[f] == Failure(Some(i), false);
        assert w'.db.failures[f] == w.db.failures[f];
      }
    }
  }

  lemma RetryKeeps(w: World, which: Option<seq<nat>>)
    requires Inv(w)
    ensures Kept(Apply(w, RetryFailures(which)))
  {
    var w' := Apply(w, RetryFailures(which));
    forall i | 0 <= i < |w'.db.outbox|
      ensures !w'.db.outbox[i].synced || w'.db.outbox[i].Key() in w'.cloud.held || SetAside(w'.db, i)
    {
      if SetAside(w.db, i) {
        var f :| 0 <= f < |w.db.failures| && w.db.failures[f] == Failure(Some(i), false);
        if Chosen(w.db.failures, which, f) {
          assert i in ChosenRows(w.db.failures, which);
        } else {
          assert w'.db.failures[f] == w.db.failures[f];
        }
      }
    }
  }

  // ---- Steps of the cloud ----

  lemma {:induction false} InsertKeepsLevels(db: Tables, c: Cloud, deltas: seq<LedgerRow>)
    requires UniqueIds(db.ledger) && Levelled(World(db, c))
    requires forall l :: l in deltas ==> l in db.ledger
    ensures Levelled(World(db, InsertDeltas(c, deltas)))
    ensures InsertDeltas(c, deltas).held == c.held && InsertDeltas(c, deltas).elsewhere == c.elsewhere
    ensures InsertDeltas(c, deltas).ledger == c.ledger + set l | l in deltas :: l.id
    decreases |deltas|
  {
    if deltas != [] {
      var l := deltas[0];
      var c' := InsertDelta(c, l);
      if l.id !in c.ledger {
        forall p: Product
          ensures At(c'.levels, p) == At(c'.elsewhere, p) + SumWhere(db.ledger, p, InSet(c'.ledger))
        {
          if l.product == p {
            SumOneMore(db.ledger, p, c.ledger, l);
          } else {
            SumOtherProduct(db.ledger, p, c.ledger, l);
          }
          assert At(c.levels, p) == At(c.elsewhere, p) + SumWhere(db.ledger, p, InSet(c.ledger));
        }
      }
      InsertKeepsLevels(db, c', deltas[1..]);
      assert deltas == [l] + deltas[1..];
    }
  }

  /** Given the invariant, the only queued record that carries a ledger row is its owner. */
  lemma CarriedByOwner(db: Tables, key: Key, l: LedgerRow)
    requires Owned(db) && key in db.records && l in db.ledger
    ensures Carries(key, l) <==> key == Owner(l)
  {
  }

  lemma AdmitKeeps(db: Tables, c: Cloud, i: nat)
    requires Queued(db) && Owned(db) && Landed(World(db, c)) && Levelled(World(db, c))
    requires i < |db.outbox|
    ensures Landed(World(db, Admit(c, EnvelopeOf(db, i)))) && Levelled(World(db, Admit(c, EnvelopeOf(db, i))))
    ensures Admit(c, EnvelopeOf(db, i)).held == c.held + {db.outbox[i].Key()}
    ensures Admit(c, EnvelopeOf(db, i)).elsewhere == c.elsewhere
    ensures c.ledger <= Admit(c, EnvelopeOf(db, i)).ledger
  {
    var e := EnvelopeOf(db, i);
    if e.key !in c.held {
      var c1 := c.(held := c.held + {e.key});
      assert Levelled(World(db, c1)) by { assert Levelled(World(db, c)); }
      InsertKeepsLevels(db, c1, e.deltas);
      var c' := Admit(c, e);
      forall l | l in db.ledger
        ensures l.id in c'.ledger <==> Owner(l) in c'.held
      {
        CarriedByOwner(db, e.key, l);
        forall x | x in e.deltas && x.id == l.id ensures x == l {
          var j :| 0 <= j < |db.ledger| && db.ledger[j] == x;
          var k :| 0 <= k < |db.ledger| && db.ledger[k] == l;
        }
      }
      forall id | id in c'.ledger
        ensures exists l :: l in db.ledger && l.id == id
      {
        if id !in c.ledger {
          var l :| l in e.deltas && l.id == id;
          assert l in db.ledger;
        }
      }
    }
  }

  function KeysOf(db: Tables, ids: seq<nat>): (keys: set<Key>)
    requires AllRows(db, ids)
  {
    set k | 0 <= k < |ids| :: db.outbox[ids[k]].Key()
  }

  lemma KeysOfTail(db: Tables, ids: seq<nat>)
    requires AllRows(db, ids) && ids != []
    ensures KeysOf(db, ids) == {db.outbox[ids[0]].Key()} + KeysOf(db, ids[1..])
  {
    forall key | key in KeysOf(db, ids) ensures key in {db.outbox[ids[0]].Key()} + KeysOf(db, ids[1..]) {
      var k :| 0 <= k < |ids| && db.outbox[ids[k]].Key() == key;
      if k > 0 { assert ids[1..][k - 1] == ids[k]; }
    }
    forall key | key in KeysOf(db, ids[1..]) ensures key in KeysOf(db, ids) {
      var k :| 0 <= k < |ids[1..]| && db.outbox[ids[1..][k]].Key() == key;
      assert ids[k + 1] == ids[1..][k];
    }
  }

  lemma {:induction false} AdmitAllKeeps(db: Tables, c: Cloud, ids: seq<nat>)
    requires Queued(db) && Owned(db) && Landed(World(db, c)) && Levelled(World(db, c))
    requires AllRows(db, ids)
    ensures Landed(World(db, AdmitAll(c, EnvelopesOf(db, ids)))) && Levelled(World(db, AdmitAll(c, EnvelopesOf(db, ids))))
    ensures AdmitAll(c, EnvelopesOf(db, ids)).held == c.held + KeysOf(db, ids)
    ensures c.ledger <= AdmitAll(c, EnvelopesOf(db, ids)).ledger
    decreases |ids|
  {
    if ids != [] {
      AdmitKeeps(db, c, ids[0]);
      assert EnvelopesOf(db, ids)[1..] == EnvelopesOf(db, ids[1..]);
      AdmitAllKeeps(db, Admit(c, EnvelopeOf(db, ids[0])), ids[1..]);
      KeysOfTail(db, ids);
    }
  }

  // ---- Every step keeps the invariant ----

  lemma LandKeeps(w: World, ids: seq<nat>)
    requires Inv(w) && AllRows(w.db, ids)
    ensures Inv(Apply(w, Land(ids)))
  {
    AdmitAllKeeps(w.db, w.cloud, ids);
    KeptByFlags(w, Apply(w, Land(ids)));
  }

  lemma PullKeeps(w: World, p: Product)
    requires Inv(w)
    ensures Inv(Apply(w, PullLevel(p)))
  {
    hide SumWhere;
    assert At(w.cloud.levels, p) == At(w.cloud.elsewhere, p) + SumWhere(w.db.ledger, p, InSet(w.cloud.ledger));
  }

  lemma ElsewhereKeeps(w: World, p: Product, delta: int)
    requires Inv(w)
    ensures Inv(Apply(w, Elsewhere(p, delta)))
  {
    var w' := Apply(w, Elsewhere(p, delta));
    forall q: Product
      ensures At(w'.cloud.levels, q) == At(w'.cloud.elsewhere, q) + SumWhere(w'.db.ledger, q, InSet(w'.cloud.ledger))
    {
      assert At(w.cloud.levels, q) == At(w.cloud.elsewhere, q) + SumWhere(w.db.ledger, q, InSet(w.cloud.ledger));
    }
  }

  lemma WriteKeeps(w: World, step: Step)
    requires Inv(w) && Enabled(w, step) && (step.PostSale? || step.RecordMovement? || step.QueueDocument?)
    ensures Inv(Apply(w, step))
  {
    match step
    case PostSale(id, deltas) => AddRows(w, deltas, (Sale, id));
    case RecordMovement(row) =>
      forall l | l in w.db.ledger ensures l.id != row.id { assert [row][0] == row; }
      AddRows(w, [row], (StockMovement, row.id));
    case QueueDocument(key) =>
      assert w.db.(ledger := w.db.ledger + []) == w.db;
      AddRows(w, [], key);
  }

  lemma MarkKeeps(w: World, ids: seq<nat>)
    requires Inv(w) && Enabled(w, MarkSynced(ids))
    ensures Inv(Apply(w, MarkSynced(ids)))
  {
    forall i | 0 <= i < |w.db.outbox| && i in ids ensures w.db.outbox[i].Key() in w.cloud.held {
      var k :| 0 <= k < |ids| && ids[k] == i;
    }
    FlagsOnly(w, Apply(w, MarkSynced(ids)).db);
  }

  lemma AttemptKeeps(w: World, ids: seq<nat>)
    requires Inv(w) && Enabled(w, RecordAttempt(ids))
    ensures Inv(Apply(w, RecordAttempt(ids)))
  {
    hide Queued, Owned, Landed, Levelled, CachedFaithfully, SetAside;
    KeptByFlags(w, Apply(w, RecordAttempt(ids)));
    FlagsOnly(w, Apply(w, RecordAttempt(ids)).db);
  }

  lemma FailureKeeps(w: World, step: Step)
    requires Inv(w) && Enabled(w, step) && (step.Quarantine? || step.RetryFailures?)
    ensures Inv(Apply(w, step))
  {
    hide Queued, Owned, Landed, Levelled, CachedFaithfully, Kept;
    match step
    case Quarantine(ids) =>
      QuarantineKeeps(w, ids);
      FlagsOnly(w, Apply(w, step).db);
    case RetryFailures(which) =>
      RetryKeeps(w, which);
      FlagsOnly(w, Apply(w, step).db);
  }

  lemma {:induction false} StepKeeps(w: World, step: Step)
    requires Inv(w) && Enabled(w, step)
    ensures Inv(Apply(w, step))
  {
    hide Inv;
    match step
    case PostSale(_, _) => WriteKeeps(w, step);
    case RecordMovement(_) => WriteKeeps(w, step);
    case QueueDocument(_) => WriteKeeps(w, step);
    case Land(ids) => LandKeeps(w, ids);
    case MarkSynced(ids) => MarkKeeps(w, ids);
    case RecordAttempt(ids) => AttemptKeeps(w, ids);
    case Quarantine(_) => FailureKeeps(w, step);
    case RetryFailures(_) => FailureKeeps(w, step);
    case PullLevel(p) => PullKeeps(w, p);
    case Elsewhere(p, delta) => ElsewhereKeeps(w, p, delta);
  }

  lemma {:induction false} PathKeeps(w: World, steps: seq<Step>, w': World)
    requires Inv(w) && Path(w, steps, w')
    ensures Inv(w')
    decreases |steps|
  {
    if steps != [] {
      StepKeeps(w, steps[0]);
      PathKeeps(Apply(w, steps[0]), steps[1..], w');
    }
  }

  /** A new terminal in front of a cloud that holds nothing of it. */
  predicate Fresh(w: World) {
    w.db == NEW_TERMINAL && w.cloud.held == {} && w.cloud.ledger == {} && w.cloud.levels == w.cloud.elsewhere
  }

  lemma FreshInv(w: World)
    requires Fresh(w)
    ensures Inv(w)
  {
  }

  // ---- Nothing lost, nothing doubled ----

  /**
    * In every state any run reaches, an outbox row is still queued, is in the cloud, or stands
    * in the failures list waiting for a person.
    */
  lemma NothingLost(w: World, steps: seq<Step>, w': World, i: nat)
    requires Fresh(w) && Path(w, steps, w')
    requires i < |w'.db.outbox|
    ensures || i in Pending(w'.db.outbox)
            || w'.db.outbox[i].Key() in w'.cloud.held
            || exists f :: 0 <= f < |w'.db.failures| && w'.db.failures[f] == Failure(Some(i), false)
  {
    FreshInv(w);
    PathKeeps(w, steps, w');
  }

  /** Every ledger delta travels in exactly one envelope, whatever has been sent or retried. */
  lemma OneEnvelope(w: World, steps: seq<Step>, w': World, l: LedgerRow)
    requires Fresh(w) && Path(w, steps, w')
    requires l in w'.db.ledger
    ensures exists i :: 0 <= i < |w'.db.outbox| && l in EnvelopeOf(w'.db, i).deltas
    ensures forall i, j | 0 <= i < |w'.db.outbox| && 0 <= j < |w'.db.outbox| ::
      l in EnvelopeOf(w'.db, i).deltas && l in EnvelopeOf(w'.db, j).deltas ==> i == j
  {
    FreshInv(w);
    PathKeeps(w, steps, w');
    var i :| 0 <= i < |w'.db.outbox| && w'.db.outbox[i].Key() == Owner(l);
    assert l in EnvelopeOf(w'.db, i).deltas;
    forall a | 0 <= a < |w'.db.outbox| && l in EnvelopeOf(w'.db, a).deltas
      ensures a == i
    {
      CarriedByOwner(w'.db, w'.db.outbox[a].Key(), l);
    }
  }

  /**
    * The cloud's level is what other tills moved plus each local delta once if it landed and
    * not at all if it did not, so sending a record twice moves no stock.
    */
  lemma CountedOnce(w: World, steps: seq<Step>, w': World, p: Product)
    requires Fresh(w) && Path(w, steps, w')
    ensures At(w'.cloud.levels, p)
         == At(w'.cloud.elsewhere, p) + SumWhere(w'.db.ledger, p, InSet(w'.cloud.ledger))
    ensures UniqueIds(w'.db.ledger)
    ensures forall l :: l in w'.db.ledger ==> (l.id in w'.cloud.ledger <==> Owner(l) in w'.cloud.held)
  {
    FreshInv(w);
    PathKeeps(w, steps, w');
  }

  // ---- What the day-close check is told ----

  /** Outbox positions of the sales of one shift. */
  function ShiftRows(db: Tables, sales: set<Id>): set<nat> {
    set i | 0 <= i < |db.outbox| && db.outbox[i].entity == Sale && db.outbox[i].entityId in sales
  }

  function Waiting(db: Tables, sales: set<Id>): set<nat> {
    set i | i in ShiftRows(db, sales) && !db.outbox[i].synced
  }

  /** Rows with any failure at all: the query does not look at `acknowledged`. */
  function Quarantined(db: Tables, sales: set<Id>): set<nat> {
    set i | i in ShiftRows(db, sales) && exists f :: 0 <= f < |db.failures| && db.failures[f].outboxId == Some(i)
  }

  function Missing(w: World, sales: set<Id>): set<nat> {
    set i | i in ShiftRows(w.db, sales) && w.db.outbox[i].Key() !in w.cloud.held
  }

  lemma MissingIsReported(w: World, sales: set<Id>)
    requires Kept(w)
    ensures Missing(w, sales) <= Waiting(w.db, sales) + Quarantined(w.db, sales)
  {
    forall i | i in Missing(w, sales) ensures i in Waiting(w.db, sales) + Quarantined(w.db, sales) {
      if w.db.outbox[i].synced {
        assert SetAside(w.db, i);
      }
    }
  }

  lemma CoverSize(missing: set<nat>, a: set<nat>, b: set<nat>)
    requires missing <= a + b
    ensures |a| + |b| == |missing| + |a * b| + |a + b - missing|
  {
    assert |a + b| + |a * b| == |a| + |b|;
    var over := a + b - missing;
    assert a + b == missing + over;
    assert |a + b| == |missing| + |over|;
  }

  ghost predicate HasFailure(db: Tables, i: nat) {
    exists f :: 0 <= f < |db.failures| && db.failures[f].outboxId == Some(i)
  }

  /** Some failure of this row that a retry has acknowledged. */
  ghost predicate Retried(db: Tables, i: nat) {
    exists f :: 0 <= f < |db.failures| && db.failures[f] == Failure(Some(i), true)
  }

  /** A row with a failure behind it is queued only if it was put back by a retry. */
  ghost predicate QueuedAgain(db: Tables) {
    && (forall f :: 0 <= f < |db.failures| && db.failures[f].outboxId.Some? ==> db.failures[f].outboxId.value < |db.outbox|)
    && (forall i :: 0 <= i < |db.outbox| && !db.outbox[i].synced && HasFailure(db, i) ==> Retried(db, i))
  }

  lemma RetryQueuesAgain(w: World, which: Option<seq<nat>>)
    requires QueuedAgain(w.db)
    ensures QueuedAgain(Apply(w, RetryFailures(which)).db)
  {
    var db' := Apply(w, RetryFailures(which)).db;
    forall i | 0 <= i < |db'.outbox| && !db'.outbox[i].synced && HasFailure(db', i) ensures Retried(db', i) {
      if i in ChosenRows(w.db.failures, which) {
        var f :| 0 <= f < |w.db.failures| && Chosen(w.db.failures, which, f) && w.db.failures[f].outboxId == Some(i);
        assert db'.failures[f] == Failure(Some(i), true);
      } else {
        var f :| 0 <= f < |db'.failures| && db'.failures[f].outboxId == Some(i);
        assert w.db.failures[f].outboxId == Some(i);
        assert HasFailure(w.db, i);
        var g :| 0 <= g < |w.db.failures| && w.db.failures[g] == Failure(Some(i), true);
        assert db'.failures[g] == Failure(Some(i), true);
      }
    }
  }

  lemma SetAsideAgain(failures: seq<Failure>, ids: seq<nat>, f: nat)
    requires f < |failures| + |ids|
    ensures (failures + FailuresFor(ids))[f] == if f < |failures| then failures[f] else Failure(Some(ids[f - |failures|]), false)
  {
  }

  lemma QuarantineQueuesAgain(w: World, ids: seq<nat>)
    requires QueuedAgain(w.db) && AllRows(w.db, ids)
    ensures QueuedAgain(Apply(w, Quarantine(ids)).db)
  {
    var db' := Apply(w, Quarantine(ids)).db;
    var n := |w.db.failures|;
    assert |db'.failures| == n + |ids| && db'.failures == w.db.failures + FailuresFor(ids);
    hide FailuresFor, Apply, HasFailure;
    forall f | 0 <= f < |db'.failures| && db'.failures[f].outboxId.Some?
      ensures db'.failures[f].outboxId.value < |db'.outbox|
    {
      SetAsideAgain(w.db.failures, ids, f);
    }
    forall i | 0 <= i < |db'.outbox| && !db'.outbox[i].synced && HasFailure(db', i) ensures Retried(db', i) {
      var f := FailureOf(db', i);
      SetAsideAgain(w.db.failures, ids, f);
      assert f < n;
      HasFailureAt(w.db, i, f);
      var g :| 0 <= g < n && w.db.failures[g] == Failure(Some(i), true);
      assert db'.failures[g] == Failure(Some(i), true);
    }
  }

  lemma FailureOf(db: Tables, i: nat) returns (f: nat)
    requires HasFailure(db, i)
    ensures f < |db.failures| && db.failures[f].outboxId == Some(i)
  {
    f :| 0 <= f < |db.failures| && db.failures[f].outboxId == Some(i);
  }

  lemma HasFailureAt(db: Tables, i: nat, f: nat)
    requires f < |db.failures| && db.failures[f].outboxId == Some(i)
    ensures HasFailure(db, i)
  {
  }

  /** Steps that add rows, or set flags of rows, and leave the failures alone. */
  lemma SameFailuresQueueAgain(db: Tables, db': Tables)
    requires QueuedAgain(db) && db'.failures == db.failures && |db.outbox| <= |db'.outbox|
    requires forall i :: 0 <= i < |db.outbox| && db.outbox[i].synced ==> db'.outbox[i].synced
    ensures QueuedAgain(db')
  {
    forall i | 0 <= i < |db'.outbox| && !db'.outbox[i].synced && HasFailure(db', i) ensures Retried(db', i) {
      assert HasFailure(db, i);
    }
  }

  lemma StepQueuesAgain(w: World, step: Step)
    requires QueuedAgain(w.db) && Enabled(w, step)
    ensures QueuedAgain(Apply(w, step).db)
  {
    hide QueuedAgain;
    match step
    case RetryFailures(which) => RetryQueuesAgain(w, which);
    case Quarantine(ids) => QuarantineQueuesAgain(w, ids);
    case _ => SameFailuresQueueAgain(w.db, Apply(w, step).db);
  }

  lemma {:induction false} PathQueuesAgain(w: World, steps: seq<Step>, w': World)
    requires QueuedAgain(w.db) && Path(w, steps, w')
    ensures QueuedAgain(w'.db)
    decreases |steps|
  {
    hide QueuedAgain;
    if steps != [] {
      StepQueuesAgain(w, steps[0]);
      PathQueuesAgain(Apply(w, steps[0]), steps[1..], w');
    }
  }

  /**
    * `undelivered_sales` never undercounts: waiting plus quarantined covers every missing sale.  What
    * it counts over them is exactly each sale that is both, requeued by a retry whose acknowledged
    * failure it still finds, and each that the cloud holds already.
    */
  lemma {:induction false} NeverUndercounts(w: World, steps: seq<Step>, w': World, sales: set<Id>)
    requires Fresh(w) && Path(w, steps, w')
    ensures var waiting, quarantined, missing := Waiting(w'.db, sales), Quarantined(w'.db, sales), Missing(w', sales);
      && |waiting| + |quarantined| == |missing| + |waiting * quarantined| + |waiting + quarantined - missing|
      && (forall i :: i in waiting * quarantined ==> Retried(w'.db, i))
      && (forall i :: i in waiting + quarantined - missing ==> i < |w'.db.outbox| && w'.db.outbox[i].Key() in w'.cloud.held)
  {
    FreshInv(w);
    PathKeeps(w, steps, w');
    MissingIsReported(w', sales);
    CoverSize(Missing(w', sales), Waiting(w'.db, sales), Quarantined(w'.db, sales));
    PathQueuesAgain(w, steps, w');
    hide Inv, Path;
    forall i | i in Waiting(w'.db, sales) * Quarantined(w'.db, sales) ensures Retried(w'.db, i) {
      assert HasFailure(w'.db, i);
    }
  }

  /** A sale set aside and retried is waiting, and still counted as quarantined: two for the one that is missing. */
  lemma {:induction false} RetriedCountsTwice(w: World) returns (steps: seq<Step>, w': World)
    requires Fresh(w)
    ensures Path(w, steps, w')
    ensures Missing(w', {1}) == {0} && Waiting(w'.db, {1}) == {0} && Quarantined(w'.db, {1}) == {0}
  {
    var a := Apply(w, PostSale(1, []));
    var b := Apply(a, Quarantine([0]));
    var c := Apply(b, RetryFailures(None));
    assert c.db.outbox == [OutboxRow(Sale, 1, 1, false, 0)] by {
      assert Chosen(b.db.failures, None, 0) && b.db.failures[0].outboxId == Some(0);
    }
    assert c.db.failures[0].outboxId == Some(0);
    PathOfThree(w, PostSale(1, []), Quarantine([0]), RetryFailures(None));
    steps, w' := [PostSale(1, []), Quarantine([0]), RetryFailures(None)], c;
    assert c.db.outbox[0].Key() == (Sale, 1);
  }

  lemma PathOfThree(w: World, s: Step, t: Step, u: Step)
    requires Enabled(w, s) && Enabled(Apply(w, s), t) && Enabled(Apply(Apply(w, s), t), u)
    ensures Path(w, [s, t, u], Apply(Apply(Apply(w, s), t), u))
  {
    hide Enabled, Apply;
    var end := Apply(Apply(Apply(w, s), t), u);
    assert Path(end, [], end) && [u][1..] == [] && [t, u][1..] == [u] && [s, t, u][1..] == [t, u];
    assert Path(Apply(Apply(w, s), t), [u], end);
    assert Path(Apply(w, s), [t, u], end);
  }

  // ---- Causal delivery ----

  /** No row is in the cloud ahead of an earlier one, unless that one was set aside. */
  ghost predicate Causal(w: World) {
    forall i, j :: 0 <= i < j < |w.db.outbox| && w.db.outbox[j].Key() in w.cloud.held ==>
      w.db.outbox[i].Key() in w.cloud.held || HasFailure(w.db, i)
  }

  lemma NewlyLanded(db: Tables, ids: seq<nat>, j: nat)
    requires Queued(db) && AllRows(db, ids) && j < |db.outbox|
    requires db.outbox[j].Key() in KeysOf(db, ids)
    ensures j in ids
  {
    var k :| 0 <= k < |ids| && db.outbox[ids[k]].Key() == db.outbox[j].Key();
  }

  /** In a run of the oldest unsent rows, nothing unsent and older is left out. */
  lemma OlderGoesToo(db: Tables, ids: seq<nat>, i: nat, j: nat)
    requires ids <= Pending(db.outbox) && AllRows(db, ids)
    requires i < j < |db.outbox| && j in ids && !db.outbox[i].synced
    ensures db.outbox[i].Key() in KeysOf(db, ids)
  {
    var pending := Pending(db.outbox);
    var k :| 0 <= k < |ids| && ids[k] == j;
    var m :| 0 <= m < |pending| && pending[m] == i;
    assert pending[k] == j;
    assert ids[m] == i;
  }

  lemma LandCausal(w: World, ids: seq<nat>)
    requires Inv(w) && Causal(w) && Enabled(w, Land(ids)) && Orderly(w, Land(ids))
    ensures Causal(Apply(w, Land(ids)))
  {
    var w' := Apply(w, Land(ids));
    AdmitAllKeeps(w.db, w.cloud, ids);
    hide AdmitAll, Pending, Queued, Owned, Landed, Levelled, CachedFaithfully, KeysOf, EnvelopesOf;
    forall i, j | 0 <= i < j < |w.db.outbox| && w.db.outbox[j].Key() in w'.cloud.held
      ensures w.db.outbox[i].Key() in w'.cloud.held || HasFailure(w.db, i)
    {
      if w.db.outbox[j].Key() !in w.cloud.held {
        NewlyLanded(w.db, ids, j);
        if !w.db.outbox[i].synced { OlderGoesToo(w.db, ids, i, j); }
      }
    }
  }

  /** Writing new rows, marking old ones and adding failures put nothing ahead of anything. */
  lemma StillCausal(w: World, w': World)
    requires Inv(w) && Causal(w)
    requires |w.db.outbox| <= |w'.db.outbox| && w'.cloud.held == w.cloud.held
    requires w.db.failures <= w'.db.failures
    requires forall i :: 0 <= i < |w.db.outbox| ==> w'.db.outbox[i].Key() == w.db.outbox[i].Key()
    requires forall i :: |w.db.outbox| <= i < |w'.db.outbox| ==> w'.db.outbox[i].Key() !in w.db.records
    ensures Causal(w')
  {
    forall i, j | 0 <= i < j < |w'.db.outbox| && w'.db.outbox[j].Key() in w'.cloud.held
      ensures w'.db.outbox[i].Key() in w'.cloud.held || HasFailure(w'.db, i)
    {
      if HasFailure(w.db, i) {
        var f :| 0 <= f < |w.db.failures| && w.db.failures[f].outboxId == Some(i);
        assert w'.db.failures[f] == w.db.failures[f];
      }
    }
  }

  lemma StepCausal(w: World, step: Step)
    requires Inv(w) && Causal(w) && Enabled(w, step) && Orderly(w, step)
    ensures Causal(Apply(w, step))
  {
    hide AdmitAll, Pending, Causal, Levelled, CachedFaithfully, Kept, Requeue, Acknowledge;
    match step
    case Land(ids) => LandCausal(w, ids);
    case PostSale(_, _) => StillCausal(w, Apply(w, step));
    case RecordMovement(row) =>
      forall l | l in w.db.ledger ensures l.id != row.id { assert [row][0] == row; }
      StillCausal(w, Apply(w, step));
    case QueueDocument(_) => StillCausal(w, Apply(w, step));
    case MarkSynced(_) => StillCausal(w, Apply(w, step));
    case RecordAttempt(_) => StillCausal(w, Apply(w, step));
    case Quarantine(_) => StillCausal(w, Apply(w, step));
    case RetryFailures(_) => assert false;
    case PullLevel(_) => StillCausal(w, Apply(w, step));
    case Elsewhere(_, _) => StillCausal(w, Apply(w, step));
  }

  lemma {:induction false} CausalDelivery(w: World, steps: seq<Step>, w': World)
    requires Inv(w) && Causal(w) && OrderlyPath(w, steps, w')
    ensures Inv(w') && Causal(w')
    decreases |steps|
  {
    if steps != [] {
      StepKeeps(w, steps[0]);
      StepCausal(w, steps[0]);
      CausalDelivery(Apply(w, steps[0]), steps[1..], w');
    }
  }

  lemma CausalFromFresh(w: World, steps: seq<Step>, w': World)
    requires Fresh(w) && OrderlyPath(w, steps, w')
    ensures Inv(w') && Causal(w')
  {
    FreshInv(w);
    assert Causal(w);
    hide Inv, Causal;
    CausalDelivery(w, steps, w');
  }

  lemma SeqOrder(db: Tables, i: nat, j: nat)
    requires Queued(db) && i < |db.outbox| && j < |db.outbox| && db.outbox[i].clientSeq < db.outbox[j].clientSeq
    ensures i < j
  {
  }

  /**
    * With one drain at a time and no manual retry, whenever a record is in the cloud every
    * record the terminal wrote before it, by `client_seq`, is in the cloud or was quarantined.
    */
  lemma ParentsFirst(w: World, steps: seq<Step>, w': World, i: nat, j: nat)
    requires Fresh(w) && OrderlyPath(w, steps, w')
    requires i < |w'.db.outbox| && j < |w'.db.outbox|
    requires w'.db.outbox[i].clientSeq < w'.db.outbox[j].clientSeq
    requires w'.db.outbox[j].Key() in w'.cloud.held
    ensures i < j
    ensures || w'.db.outbox[i].Key() in w'.cloud.held
            || exists f :: 0 <= f < |w'.db.failures| && w'.db.failures[f].outboxId == Some(i)
  {
    hide Fresh, OrderlyPath, Queued, Owned, Landed, Levelled, CachedFaithfully, Kept;
    CausalFromFresh(w, steps, w');
    SeqOrder(w'.db, i, j);
  }
}
