/// The terminal's tables and the cloud's, as values, and every atomic step that
/// changes them.  A step is one committed `db.write()` block on the terminal or one
/// committed request on the server, so a process that dies anywhere leaves exactly
/// the state reached by a prefix of its steps.
module SyncStore {
  import opened Wrappers

  /** An id drawn by the terminal. */
  type Id = nat

  type Product = int

  datatype Entity =
    | Sale | SaleReview | StockMovement | UnknownScan | Override | Audit
    | RegisterSession | CashMovement | ShiftClose
    | Unsupported

  type Key = (Entity, Id)

  /** A row of `stock_ledger`; `sale` is `ref_id` when `ref_type` is `sale`. */
  datatype LedgerRow = LedgerRow(id: Id, product: Product, delta: int, sale: Option<Id>)

  /** A row of `outbox`.  Its id is its position: the key is AUTOINCREMENT and nothing is deleted. */
  datatype OutboxRow = OutboxRow(entity: Entity, entityId: Id, clientSeq: nat, synced: bool, attempts: nat)
  {
    function Key(): Key { (entity, entityId) }
  }

  /** A row of `sync_failures`, whose id is likewise its position. */
  datatype Failure = Failure(outboxId: Option<nat>, acknowledged: bool)

  /**
    * A row of the terminal's `stock_levels`.  The terminal stores `onHand` alone; the other
    * two fields say which deltas the cloud had counted when it sent that number.
    */
  datatype CachedLevel = CachedLevel(onHand: int, counted: set<Id>, elsewhere: int)

  datatype Tables = Tables(
    outbox: seq<OutboxRow>,
    failures: seq<Failure>,
    ledger: seq<LedgerRow>,
    records: set<Key>,
    clientSeq: nat,
    cached: map<Product, CachedLevel>)

  /** The cloud: records held, ledger rows inserted, and levels kept by a trigger on insert. */
  datatype Cloud = Cloud(
    held: set<Key>,
    ledger: set<Id>,
    levels: map<Product, int>,
    elsewhere: map<Product, int>)

  /** What travels: the record an outbox row points at, with the ledger rows that go with it. */
  datatype Envelope = Envelope(key: Key, clientSeq: nat, deltas: seq<LedgerRow>)

  datatype World = World(db: Tables, cloud: Cloud)

  function At(m: map<Product, int>, p: Product): int {
    if p in m then m[p] else 0
  }

  // ---- Building an envelope from a pointer ----

  /** The ledger rows an envelope of this kind selects. */
  predicate Carries(key: Key, l: LedgerRow) {
    || (key.0 == Sale && l.sale == Some(key.1))
    || (key.0 == StockMovement && l.id == key.1)
  }

  function DeltasFor(key: Key, ledger: seq<LedgerRow>): (deltas: seq<LedgerRow>)
    ensures forall l :: l in deltas <==> l in ledger && Carries(key, l)
  {
    if ledger == [] then []
    else
      var rest := DeltasFor(key, ledger[..|ledger| - 1]);
      assert ledger == ledger[..|ledger| - 1] + [ledger[|ledger| - 1]];
      if Carries(key, ledger[|ledger| - 1]) then rest + [ledger[|ledger| - 1]] else rest
  }

  function EnvelopeOf(db: Tables, i: nat): Envelope
    requires i < |db.outbox|
  {
    Envelope(db.outbox[i].Key(), db.outbox[i].clientSeq, DeltasFor(db.outbox[i].Key(), db.ledger))
  }

  // ---- The cloud ----

  /** The insert, which skips an id it has, and the trigger behind it. */
  function InsertDelta(c: Cloud, l: LedgerRow): Cloud {
    if l.id in c.ledger then c
    else c.(ledger := c.ledger + {l.id}, levels := c.levels[l.product := At(c.levels, l.product) + l.delta])
  }

  function InsertDeltas(c: Cloud, deltas: seq<LedgerRow>): Cloud
    decreases |deltas|
  {
    if deltas == [] then c else InsertDeltas(InsertDelta(c, deltas[0]), deltas[1..])
  }

  /** One accepted item: a no-op for a record the cloud already holds. */
  function Admit(c: Cloud, e: Envelope): Cloud {
    if e.key in c.held then c else InsertDeltas(c.(held := c.held + {e.key}), e.deltas)
  }

  function AdmitAll(c: Cloud, es: seq<Envelope>): Cloud
    decreases |es|
  {
    if es == [] then c else AdmitAll(Admit(c, es[0]), es[1..])
  }

  // ---- The terminal's writes ----

  /** The same records with the same numbers, row for row. */
  ghost predicate SameRows(a: seq<OutboxRow>, b: seq<OutboxRow>) {
    |a| == |b| && forall i :: 0 <= i < |a| ==> a[i].Key() == b[i].Key() && a[i].clientSeq == b[i].clientSeq
  }

  function Mark(outbox: seq<OutboxRow>, ids: seq<nat>): (marked: seq<OutboxRow>)
    ensures |marked| == |outbox|
  {
    seq(|outbox|, i requires 0 <= i < |outbox| =>
      if i in ids then outbox[i].(synced := true) else outbox[i])
  }

  function Bump(outbox: seq<OutboxRow>, ids: seq<nat>): (bumped: seq<OutboxRow>)
    ensures |bumped| == |outbox|
  {
    seq(|outbox|, i requires 0 <= i < |outbox| =>
      if i in ids then outbox[i].(attempts := outbox[i].attempts + 1) else outbox[i])
  }

  function Requeue(outbox: seq<OutboxRow>, ids: set<nat>): (requeued: seq<OutboxRow>)
    ensures |requeued| == |outbox|
  {
    seq(|outbox|, i requires 0 <= i < |outbox| =>
      if i in ids then outbox[i].(synced := false, attempts := 0) else outbox[i])
  }

  function FailuresFor(ids: seq<nat>): (fs: seq<Failure>)
    ensures |fs| == |ids|
  {
    seq(|ids|, k requires 0 <= k < |ids| => Failure(Some(ids[k]), false))
  }

  /** The failures a retry picks: unacknowledged, and named when names were given. */
  predicate Chosen(failures: seq<Failure>, which: Option<seq<nat>>, f: nat)
    requires f < |failures|
  {
    !failures[f].acknowledged && (which.Some? ==> f in which.value)
  }

  function ChosenRows(failures: seq<Failure>, which: Option<seq<nat>>): set<nat> {
    set f | 0 <= f < |failures| && Chosen(failures, which, f) && failures[f].outboxId.Some?
      :: failures[f].outboxId.value
  }

  function Acknowledge(failures: seq<Failure>, which: Option<seq<nat>>): (fs: seq<Failure>)
    ensures |fs| == |failures|
  {
    seq(|failures|, f requires 0 <= f < |failures| =>
      if Chosen(failures, which, f) then failures[f].(acknowledged := true) else failures[f])
  }

  /** One outbox row, numbered from the counter every repository shares. */
  function Enqueue(db: Tables, key: Key): Tables {
    db.(outbox := db.outbox + [OutboxRow(key.0, key.1, db.clientSeq + 1, false, 0)],
        records := db.records + {key},
        clientSeq := db.clientSeq + 1)
  }

  /** A document of stock movements: one ledger row and one outbox row each. */
  function RecordAll(db: Tables, rows: seq<LedgerRow>): Tables
    decreases |rows|
  {
    if rows == [] then db
    else RecordAll(RecordOne(db, rows[0]), rows[1..])
  }

  function RecordOne(db: Tables, l: LedgerRow): Tables {
    Enqueue(db.(ledger := db.ledger + [l]), (StockMovement, l.id))
  }

  // ---- Steps ----

  datatype Step =
    | PostSale(id: Id, deltas: seq<LedgerRow>)
    | RecordMovement(row: LedgerRow)
    | QueueDocument(key: Key)
    | Land(ids: seq<nat>)
    | MarkSynced(ids: seq<nat>)
    | RecordAttempt(ids: seq<nat>)
    | Quarantine(ids: seq<nat>)
    | RetryFailures(which: Option<seq<nat>>)
    | PullLevel(product: Product)
    | Elsewhere(product: Product, delta: int)

  predicate FreshIds(db: Tables, rows: seq<LedgerRow>) {
    && (forall k :: 0 <= k < |rows| ==> forall l :: l in db.ledger ==> l.id != rows[k].id)
    && (forall j, k :: 0 <= j < k < |rows| ==> rows[j].id != rows[k].id)
  }

  /** Client-generated ids for rows about to be written: none taken, none twice. */
  predicate FreshFor(db: Tables, ids: seq<Id>) {
    && (forall k :: 0 <= k < |ids| ==> forall l :: l in db.ledger ==> l.id != ids[k])
    && (forall j, k :: 0 <= j < k < |ids| ==> ids[j] != ids[k])
  }

  predicate AllRows(db: Tables, ids: seq<nat>) {
    forall k :: 0 <= k < |ids| ==> ids[k] < |db.outbox|
  }

  predicate Enabled(w: World, step: Step) {
    match step
    case PostSale(id, deltas) =>
      && (Sale, id) !in w.db.records
      && FreshIds(w.db, deltas)
      && forall l :: l in deltas ==> l.sale == Some(id)
    case RecordMovement(row) => FreshIds(w.db, [row]) && row.sale == None
    case QueueDocument(key) => key !in w.db.records && key.0 != Sale && key.0 != StockMovement
    case Land(ids) => AllRows(w.db, ids)
    // Nothing is acknowledged that the cloud does not hold.
    case MarkSynced(ids) =>
      AllRows(w.db, ids) && forall k :: 0 <= k < |ids| ==> w.db.outbox[ids[k]].Key() in w.cloud.held
    case RecordAttempt(ids) => AllRows(w.db, ids)
    case Quarantine(ids) => AllRows(w.db, ids)
    case RetryFailures(_) => true
    case PullLevel(_) => true
    case Elsewhere(_, _) => true
  }

  function EnvelopesOf(db: Tables, ids: seq<nat>): (es: seq<Envelope>)
    requires AllRows(db, ids)
    ensures |es| == |ids|
    ensures forall k :: 0 <= k < |ids| ==> ids[k] < |db.outbox| && es[k] == EnvelopeOf(db, ids[k])
  {
    seq(|ids|, k requires 0 <= k < |ids| && AllRows(db, ids) => EnvelopeOf(db, ids[k]))
  }

  function Apply(w: World, step: Step): World
    requires Enabled(w, step)
  {
    var db, c := w.db, w.cloud;
    match step
    case PostSale(id, deltas) => World(Enqueue(db.(ledger := db.ledger + deltas), (Sale, id)), c)
    case RecordMovement(row) => World(RecordOne(db, row), c)
    case QueueDocument(key) => World(Enqueue(db, key), c)
    case Land(ids) => World(db, AdmitAll(c, EnvelopesOf(db, ids)))
    case MarkSynced(ids) => World(db.(outbox := Mark(db.outbox, ids)), c)
    case RecordAttempt(ids) => World(db.(outbox := Bump(db.outbox, ids)), c)
    case Quarantine(ids) =>
      World(db.(outbox := Mark(db.outbox, ids), failures := db.failures + FailuresFor(ids)), c)
    case RetryFailures(which) =>
      World(db.(outbox := Requeue(db.outbox, ChosenRows(db.failures, which)),
                failures := Acknowledge(db.failures, which)), c)
    case PullLevel(p) =>
      World(db.(cached := db.cached[p := CachedLevel(At(c.levels, p), c.ledger, At(c.elsewhere, p))]), c)
    case Elsewhere(p, delta) =>
      World(db, c.(levels := c.levels[p := At(c.levels, p) + delta],
                   elsewhere := c.elsewhere[p := At(c.elsewhere, p) + delta]))
  }

  /** A local transaction that is a step, whatever the cloud is like. */
  ghost predicate Takes(a: Tables, step: Step, b: Tables) {
    forall c: Cloud :: Enabled(World(a, c), step) && Apply(World(a, c), step) == World(b, c)
  }

  // ---- The queue ----

  /** Positions of the unsent rows, oldest first. */
  function Pending(outbox: seq<OutboxRow>): (ids: seq<nat>)
    ensures forall i :: i in ids <==> 0 <= i < |outbox| && !outbox[i].synced
    ensures forall k :: 0 <= k < |ids| ==> ids[k] < |outbox| && !outbox[ids[k]].synced
    ensures forall j, k :: 0 <= j < k < |ids| ==> ids[j] < ids[k]
  {
    if outbox == [] then []
    else
      var n := |outbox| - 1;
      var rest := Pending(outbox[..n]);
      if outbox[n].synced then rest else rest + [n]
  }

  /** Steps a drain may take: it sends the oldest unsent rows and never retries by itself. */
  predicate Orderly(w: World, step: Step) {
    && !step.RetryFailures?
    && (step.Land? ==> step.ids <= Pending(w.db.outbox))
  }

  // ---- Runs ----

  ghost predicate Path(w: World, steps: seq<Step>, w': World)
    decreases |steps|
  {
    if steps == [] then w' == w
    else Enabled(w, steps[0]) && Path(Apply(w, steps[0]), steps[1..], w')
  }

  ghost predicate OrderlyPath(w: World, steps: seq<Step>, w': World)
    decreases |steps|
  {
    if steps == [] then w' == w
    else Enabled(w, steps[0]) && Orderly(w, steps[0]) && OrderlyPath(Apply(w, steps[0]), steps[1..], w')
  }

  const NEW_TERMINAL := Tables([], [], [], {}, 0, map[])

  lemma {:induction false} OrderlyJoin(w: World, steps: seq<Step>, mid: World, more: seq<Step>, w': World)
    requires OrderlyPath(w, steps, mid) && OrderlyPath(mid, more, w')
    ensures OrderlyPath(w, steps + more, w')
    decreases |steps|
  {
    hide Enabled, Orderly, Apply;
    if steps == [] {
      assert steps + more == more;
    } else {
      OrderlyJoin(Apply(w, steps[0]), steps[1..], mid, more, w');
      assert (steps + more)[1..] == steps[1..] + more;
    }
  }

  lemma OrderlyStep(w: World, step: Step)
    requires Enabled(w, step) && Orderly(w, step)
    ensures OrderlyPath(w, [step], Apply(w, step))
  {
    assert OrderlyPath(Apply(w, step), [], Apply(w, step));
    assert [step][1..] == [];
  }

  lemma {:induction false} OrderlyIsPath(w: World, steps: seq<Step>, w': World)
    requires OrderlyPath(w, steps, w')
    ensures Path(w, steps, w')
    decreases |steps|
  {
    if steps != [] { OrderlyIsPath(Apply(w, steps[0]), steps[1..], w'); }
  }

  /** A process killed after any of its atomic steps leaves the state those steps reached. */
  lemma {:induction false} CrashIsPrefix(w: World, steps: seq<Step>, w': World, k: nat) returns (mid: World)
    requires OrderlyPath(w, steps, w')
    requires k <= |steps|
    ensures OrderlyPath(w, steps[..k], mid)
    decreases |steps|
  {
    if k == 0 {
      mid := w;
    } else {
      mid := CrashIsPrefix(Apply(w, steps[0]), steps[1..], w', k - 1);
      assert steps[..k][1..] == steps[1..][..k - 1];
    }
  }
}
