/// Writing the stock ledger: one transaction per document, and the stock count, whose
/// reading of the shelf happens before its write transaction opens.
module Inventory {
  import opened Wrappers
  import opened SyncStore
  import opened SyncSafety
  import opened Stock
  import opened OutboxRepository

  const QUANTITY_SCALE := 1000

  /** What a ledger row will say, numbered only when it is written.  A movement of zero cannot be made. */
  datatype Movement = Movement(product: Product, delta: int)

  datatype RefType = Receipt | Count | Adjustment | SaleDocument

  datatype Error =
    | ReservedRefType | ZeroMovement | NegativeCount | NoPacks | BadPackSize | NothingToReceive | NoReason
    | UnknownProduct(product: Product, withdrawn: bool)

  // ---- The three ways a delta is arrived at ----

  function MovementOf(product: Product, delta: int): Result<Movement, Error> {
    if delta == 0 then Err(ZeroMovement) else Ok(Movement(product, delta))
  }

  /** So many packs of so many units each, in thousandths of a unit. */
  function ReceiptOf(product: Product, packs: int, packSize: int): Result<Movement, Error> {
    if packs < 1 then Err(NoPacks)
    else if packSize < 1 then Err(BadPackSize)
    else MovementOf(product, packs * packSize * QUANTITY_SCALE)
  }

  function CountOf(product: Product, counted: int, expected: int): Result<Movement, Error> {
    if counted < 0 then Err(NegativeCount) else MovementOf(product, counted - expected)
  }

  // ---- Recording a document ----

  function RowsFor(movements: seq<Movement>, ids: seq<Id>): (rows: seq<LedgerRow>)
    requires |ids| == |movements|
    ensures |rows| == |movements|
  {
    seq(|movements|, k requires 0 <= k < |movements| =>
      LedgerRow(ids[k], movements[k].product, movements[k].delta, None))
  }

  lemma {:induction false} RecordAllAppend(db: Tables, rows: seq<LedgerRow>, l: LedgerRow)
    ensures RecordAll(db, rows + [l]) == RecordOne(RecordAll(db, rows), l)
    decreases |rows|
  {
    if rows == [] {
      assert [l][1..] == [] && rows + [l] == [l];
    } else {
      assert (rows + [l])[1..] == rows[1..] + [l];
      RecordAllAppend(RecordOne(db, rows[0]), rows[1..], l);
    }
  }

  class InventoryRepository {
    const db: Database

    constructor (db: Database)
      ensures this.db == db
    {
      this.db := db;
    }

    /** Writes movements and queues each; a document is committed whole or not at all. */
    method Record(movements: seq<Movement>, refType: RefType, ids: seq<Id>) returns (r: Result<seq<Id>, Error>)
      requires |ids| == |movements| && FreshFor(db.T(), ids)
      modifies db
      ensures refType == SaleDocument ==> r == Err(ReservedRefType) && db.T() == old(db.T())
      ensures refType != SaleDocument ==>
        r == Ok(ids) && db.T() == RecordAll(old(db.T()), RowsFor(movements, ids))
    {
      if refType == SaleDocument {
        return Err(ReservedRefType);
      }
      if movements == [] {
        return Ok([]);
      }
      ghost var was, rows := db.T(), RowsFor(movements, ids);
      var written: seq<Id> := [];
      for k := 0 to |movements|
        invariant written == ids[..k]
        invariant db.T() == RecordAll(was, rows[..k])
      {
        db.ledger := db.ledger + [LedgerRow(ids[k], movements[k].product, movements[k].delta, None)];
        db.clientSeq := db.clientSeq + 1;
        db.outbox := db.outbox + [OutboxRow(StockMovement, ids[k], db.clientSeq, false, 0)];
        db.records := db.records + {(StockMovement, ids[k])};
        written := written + [ids[k]];
        RecordAllAppend(was, rows[..k], rows[k]);
        assert rows[..k + 1] == rows[..k] + [rows[k]];
      }
      assert rows[..|movements|] == rows && ids[..|movements|] == ids;
      return Ok(written);
    }
  }

  // ---- The count ----

  datatype Counted = Counted(product: Product, milli: int)

  predicate OncePerProduct(counts: seq<Counted>) {
    forall j, k :: 0 <= j < k < |counts| ==> counts[j].product != counts[k].product
  }

  predicate NoneNegative(counts: seq<Counted>) {
    forall k :: 0 <= k < |counts| ==> counts[k].milli >= 0
  }

  /** One reading of one shelf: the level is one query and what is queued another, and the queue may move between. */
  datatype Shelf = Shelf(level: Tables, queue: Tables)

  function Seen(shelf: Shelf, p: Product): int {
    CachedFor(shelf.level, p).onHand + PendingStock(shelf.queue, p)
  }

  /** The corrections a count writes, against each shelf as it was read. */
  function Corrections(shelves: seq<Shelf>, counts: seq<Counted>): (ms: seq<Movement>)
    requires |shelves| == |counts|
  {
    if counts == [] then []
    else
      var n := |counts| - 1;
      var rest := Corrections(shelves[..n], counts[..n]);
      var delta := counts[n].milli - Seen(shelves[n], counts[n].product);
      if delta == 0 then rest else rest + [Movement(counts[n].product, delta)]
  }

  /** What the till's catalogue says of a product: withdrawn or not, its tax code known, an open price. */
  datatype Listing = Listing(deleted: bool, taxed: bool, priced: bool)

  type Catalogue = map<Product, Listing>

  /** Found only if it can be sold; what is there but cannot be counts as withdrawn, the unpriced included. */
  function RequireProduct(catalogue: Catalogue, p: Product): Option<Error> {
    if p in catalogue && !catalogue[p].deleted && catalogue[p].taxed && catalogue[p].priced then None
    else Some(UnknownProduct(p, p in catalogue))
  }

  /** The first product of a count that is refused. */
  ghost predicate FirstRefused(catalogue: Catalogue, counts: seq<Counted>, k: nat) {
    && k < |counts| && RequireProduct(catalogue, counts[k].product).Some?
    && forall j :: 0 <= j < k ==> RequireProduct(catalogue, counts[j].product).None?
  }

  /** One scanned line of a delivery; a case carries its pack size. */
  datatype DeliveryLine = DeliveryLine(product: Product, packs: int, packSize: int)
  {
    predicate IsGood() { packs >= 1 && packSize >= 1 }

    function Milli(): int { packs * packSize * QUANTITY_SCALE }
  }

  function Deliveries(lines: seq<DeliveryLine>): (ms: seq<Movement>)
    ensures |ms| == |lines|
  {
    seq(|lines|, k requires 0 <= k < |lines| => Movement(lines[k].product, lines[k].Milli()))
  }

  class InventoryService {
    const inventory: InventoryRepository
    const catalogue: Catalogue

    constructor (inventory: InventoryRepository, catalogue: Catalogue)
      ensures this.inventory == inventory && this.catalogue == catalogue
    {
      this.inventory, this.catalogue := inventory, catalogue;
    }

    /** Commits a delivery: every line, or none of them. */
    method Receive(lines: seq<DeliveryLine>, ids: seq<Id>) returns (r: Result<seq<Id>, Error>)
      requires |ids| == |lines| && FreshFor(inventory.db.T(), ids)
      modifies inventory.db
      ensures r.Ok? <==> lines != [] && forall k :: 0 <= k < |lines| ==> lines[k].IsGood()
      ensures r.Err? ==> inventory.db.T() == old(inventory.db.T())
      ensures r.Ok? ==> r.value == ids && inventory.db.T() == RecordAll(old(inventory.db.T()), RowsFor(Deliveries(lines), ids))
    {
      if lines == [] { return Err(NothingToReceive); }
      var movements: seq<Movement> := [];
      for k := 0 to |lines|
        invariant forall j :: 0 <= j < k ==> lines[j].IsGood()
        invariant movements == Deliveries(lines)[..k]
        invariant inventory.db.T() == old(inventory.db.T())
      {
        match ReceiptOf(lines[k].product, lines[k].packs, lines[k].packSize) {
          case Err(e) => return Err(e);
          case Ok(m) => movements := movements + [m];
        }
      }
      assert movements == Deliveries(lines);
      r := inventory.Record(movements, Receipt, ids);
    }

    /** One correction by hand, of something the till knows, with a reason and a size. */
    method Adjust(product: Product, delta: int, note: string, id: Id) returns (r: Result<seq<Id>, Error>)
      requires FreshFor(inventory.db.T(), [id])
      modifies inventory.db
      ensures r ==
        if product !in catalogue || catalogue[product].deleted || !catalogue[product].taxed || !catalogue[product].priced
        then Err(UnknownProduct(product, product in catalogue))
        else if note == "" then Err(NoReason)
        else if delta == 0 then Err(ZeroMovement)
        else Ok([id])
      ensures r.Err? ==> inventory.db.T() == old(inventory.db.T())
      ensures r.Ok? ==> inventory.db.T() == RecordOne(old(inventory.db.T()), LedgerRow(id, product, delta, None))
    {
      var refused := RequireProduct(catalogue, product);
      if refused.Some? { return Err(refused.value); }
      if note == "" { return Err(NoReason); }
      match MovementOf(product, delta) {
        case Err(e) => return Err(e);
        case Ok(m) =>
          ghost var was := inventory.db.T();
          r := inventory.Record([m], Adjustment, [id]);
          assert RowsFor([m], [id]) == [LedgerRow(id, product, delta, None)];
          assert RecordAll(was, [LedgerRow(id, product, delta, None)]) == RecordOne(was, LedgerRow(id, product, delta, None));
      }
    }

    /**
      * The first half of a count: every product is looked up before any shelf is read, then each is
      * read in turn.  `shelves` is what the two queries of each reading found.
      */
    method ReadCount(counts: seq<Counted>, shelves: seq<Shelf>) returns (r: Result<seq<Movement>, Error>)
      requires |shelves| == |counts|
      ensures forall k: nat :: FirstRefused(catalogue, counts, k) ==>
        r == Err(UnknownProduct(counts[k].product, counts[k].product in catalogue))
      ensures (forall k: nat :: !FirstRefused(catalogue, counts, k)) ==>
        r == if NoneNegative(counts) then Ok(Corrections(shelves, counts)) else Err(NegativeCount)
    {
      for k := 0 to |counts|
        invariant forall j :: 0 <= j < k ==> RequireProduct(catalogue, counts[j].product).None?
      {
        var refused := RequireProduct(catalogue, counts[k].product);
        if refused.Some? {
          assert FirstRefused(catalogue, counts, k);
          return Err(refused.value);
        }
      }
      var movements: seq<Movement> := [];
      for k := 0 to |counts|
        invariant forall j :: 0 <= j < k ==> counts[j].milli >= 0
        invariant movements == Corrections(shelves[..k], counts[..k])
      {
        assert counts[..k + 1][..k] == counts[..k] && shelves[..k + 1][..k] == shelves[..k];
        match CountOf(counts[k].product, counts[k].milli, Seen(shelves[k], counts[k].product)) {
          case Ok(m) => movements := movements + [m];
          case Err(ZeroMovement) =>
          case Err(e) => return Err(e);
        }
      }
      assert counts[..|counts|] == counts && shelves[..|counts|] == shelves;
      return Ok(movements);
    }

    /** The second half: write what was worked out. */
    method WriteCount(movements: seq<Movement>, ids: seq<Id>) returns (written: seq<Id>)
      requires |ids| == |movements| && FreshFor(inventory.db.T(), ids)
      modifies inventory.db
      ensures written == ids
      ensures inventory.db.T() == RecordAll(old(inventory.db.T()), RowsFor(movements, ids))
    {
      var r := inventory.Record(movements, Count, ids);
      written := r.value;
    }
  }

  // ---- What a recorded document does to the shelf ----

  function DeltaIn(movements: seq<Movement>, p: Product): int {
    if movements == [] then 0
    else
      var last := movements[|movements| - 1];
      DeltaIn(movements[..|movements| - 1], p) + if last.product == p then last.delta else 0
  }

  /** A new row is pending the moment it is written, and no other row changes. */
  lemma RecordOneOnHand(db: Tables, l: LedgerRow, p: Product)
    requires l.sale == None
    requires forall x :: x in db.ledger ==> x.id != l.id
    ensures OnHand(RecordOne(db, l), p) == OnHand(db, p) + if l.product == p then l.delta else 0
  {
    var db' := RecordOne(db, l);
    var n := |db.outbox|;
    assert db'.ledger[..|db.ledger|] == db.ledger;
    assert db'.outbox[n].Key() == (StockMovement, l.id) && !db'.outbox[n].synced;
    assert IsPending(db', l);
    forall x | x in db.ledger ensures IsPending(db, x) == IsPending(db', x) {
      if IsPending(db, x) {
        var i :| 0 <= i < n && !db.outbox[i].synced && Carries(db.outbox[i].Key(), x);
        assert db'.outbox[i] == db.outbox[i];
      }
    }
    SumSame(db.ledger, p, PendingRows(db), PendingRows(db'));
  }

  lemma {:induction false} RecordAllOnHand(db: Tables, movements: seq<Movement>, ids: seq<Id>, p: Product)
    requires |ids| == |movements| && FreshFor(db, ids)
    ensures OnHand(RecordAll(db, RowsFor(movements, ids)), p) == OnHand(db, p) + DeltaIn(movements, p)
    ensures RecordAll(db, RowsFor(movements, ids)).ledger == db.ledger + RowsFor(movements, ids)
    decreases |movements|
  {
    hide OnHand;
    var rows := RowsFor(movements, ids);
    if movements != [] {
      var n := |movements| - 1;
      var before := RecordAll(db, rows[..n]);
      assert rows[..n] == RowsFor(movements[..n], ids[..n]);
      RecordAllOnHand(db, movements[..n], ids[..n], p);
      RecordAllAppend(db, rows[..n], rows[n]);
      assert rows == rows[..n] + [rows[n]];
      forall x | x in before.ledger ensures x.id != rows[n].id {
        if x in rows[..n] { var k :| 0 <= k < n && rows[k] == x; }
      }
      RecordOneOnHand(before, rows[n], p);
    }
  }

  function Delivered(lines: seq<DeliveryLine>, p: Product): int {
    if lines == [] then 0
    else
      var last := lines[|lines| - 1];
      Delivered(lines[..|lines| - 1], p) + if last.product == p then last.Milli() else 0
  }

  lemma {:induction false} DeliveredDelta(lines: seq<DeliveryLine>, p: Product)
    ensures DeltaIn(Deliveries(lines), p) == Delivered(lines, p)
  {
    if lines != [] {
      var n := |lines| - 1;
      assert Deliveries(lines)[..n] == Deliveries(lines[..n]);
      DeliveredDelta(lines[..n], p);
    }
  }

  /** A delivery raises the belief by exactly what was delivered of each product, at once. */
  lemma DeliveryLands(db: Tables, lines: seq<DeliveryLine>, ids: seq<Id>, p: Product)
    requires |ids| == |lines| && FreshFor(db, ids)
    ensures OnHand(RecordAll(db, RowsFor(Deliveries(lines), ids)), p) == OnHand(db, p) + Delivered(lines, p)
  {
    RecordAllOnHand(db, Deliveries(lines), ids, p);
    DeliveredDelta(lines, p);
  }

  lemma {:induction false} CorrectionFor(shelves: seq<Shelf>, counts: seq<Counted>, p: Product)
    requires |shelves| == |counts| && OncePerProduct(counts)
    ensures (forall k :: 0 <= k < |counts| ==> counts[k].product != p) ==> DeltaIn(Corrections(shelves, counts), p) == 0
    ensures forall k :: 0 <= k < |counts| && counts[k].product == p ==>
      DeltaIn(Corrections(shelves, counts), p) == counts[k].milli - Seen(shelves[k], p)
    decreases |counts|
  {
    if counts != [] {
      var n := |counts| - 1;
      CorrectionFor(shelves[..n], counts[..n], p);
      var rest := Corrections(shelves[..n], counts[..n]);
      var m := Movement(counts[n].product, counts[n].milli - Seen(shelves[n], counts[n].product));
      assert (rest + [m])[..|rest|] == rest;
    }
  }

  /**
    * A count reads each shelf at some moment and writes later.  It leaves the terminal's belief at
    * the counted figure plus whatever the belief differs by from what was read.
    */
  lemma {:induction false} CountLands(shelves: seq<Shelf>, write: Tables, counts: seq<Counted>, ids: seq<Id>, k: nat)
    requires |shelves| == |counts| && OncePerProduct(counts) && k < |counts|
    requires |ids| == |Corrections(shelves, counts)| && FreshFor(write, ids)
    ensures
      var after := RecordAll(write, RowsFor(Corrections(shelves, counts), ids));
      OnHand(after, counts[k].product)
        == counts[k].milli + (OnHand(write, counts[k].product) - Seen(shelves[k], counts[k].product))
  {
    RecordAllOnHand(write, Corrections(shelves, counts), ids, counts[k].product);
    CorrectionFor(shelves, counts, counts[k].product);
  }

  // ---- Documents written while a count is under way ----

  predicate IsDocument(step: Step) {
    step.PostSale? || step.RecordMovement? || step.QueueDocument?
  }

  /** A new document leaves pending just what was pending, and its own rows. */
  lemma DocumentPending(w: World, step: Step, rows: seq<LedgerRow>)
    requires Inv(w) && Enabled(w, step) && IsDocument(step) && rows == RowsOfDocument(step)
    ensures Apply(w, step).db.ledger == w.db.ledger + rows
    ensures forall x :: x in w.db.ledger ==> IsPending(w.db, x) == IsPending(Apply(w, step).db, x)
    ensures forall x :: x in rows ==> IsPending(Apply(w, step).db, x)
  {
    hide Landed, Levelled, CachedFaithfully, Kept;
    var w' := Apply(w, step);
    var n := |w.db.outbox|;
    var key := w'.db.outbox[n].Key();
    assert w'.db.ledger == w.db.ledger + rows;
    if step.RecordMovement? { assert [step.row][0] == step.row; }
    forall x | x in w.db.ledger ensures IsPending(w.db, x) == IsPending(w'.db, x) {
      if IsPending(w.db, x) {
        var i :| 0 <= i < n && !w.db.outbox[i].synced && Carries(w.db.outbox[i].Key(), x);
        assert w'.db.outbox[i] == w.db.outbox[i];
      }
      assert !Carries(key, x);
    }
    forall x | x in rows ensures IsPending(w'.db, x) {
      assert Carries(w'.db.outbox[n].Key(), x) && !w'.db.outbox[n].synced;
    }
  }

  function RowsOfDocument(step: Step): seq<LedgerRow> {
    match step
    case PostSale(_, deltas) => deltas
    case RecordMovement(row) => [row]
    case _ => []
  }

  lemma DocumentOnHand(w: World, step: Step, p: Product)
    requires Inv(w) && Enabled(w, step) && IsDocument(step)
    ensures var w' := Apply(w, step);
      OnHand(w'.db, p) - OnHand(w.db, p)
        == SumWhere(w'.db.ledger, p, AllRowsOf()) - SumWhere(w.db.ledger, p, AllRowsOf())
  {
    var w', rows := Apply(w, step), RowsOfDocument(step);
    DocumentPending(w, step, rows);
    assert w'.db.cached == w.db.cached;
    hide Inv, Enabled, Apply, SumWhere, IsPending;
    SumSame(w.db.ledger, p, PendingRows(w.db), PendingRows(w'.db));
    SumBothGrow(w.db.ledger, rows, p, PendingRows(w'.db));
  }

  lemma {:induction false} SumBothGrow(ledger: seq<LedgerRow>, rows: seq<LedgerRow>, p: Product, keep: LedgerRow -> bool)
    requires forall l :: l in rows ==> keep(l)
    ensures SumWhere(ledger + rows, p, keep) - SumWhere(ledger, p, keep)
         == SumWhere(ledger + rows, p, AllRowsOf()) - SumWhere(ledger, p, AllRowsOf())
    decreases |rows|
  {
    if rows == [] {
      assert ledger + rows == ledger;
    } else {
      var n := |rows| - 1;
      assert (ledger + rows)[..|ledger + rows| - 1] == ledger + rows[..n];
      SumBothGrow(ledger, rows[..n], p, keep);
    }
  }

  lemma {:induction false} DocumentsOnHand(w: World, steps: seq<Step>, w': World, p: Product)
    requires Inv(w) && Path(w, steps, w')
    requires forall k :: 0 <= k < |steps| ==> IsDocument(steps[k])
    ensures OnHand(w'.db, p) - OnHand(w.db, p)
         == SumWhere(w'.db.ledger, p, AllRowsOf()) - SumWhere(w.db.ledger, p, AllRowsOf())
    decreases |steps|
  {
    if steps != [] {
      var mid := Apply(w, steps[0]);
      DocumentOnHand(w, steps[0], p);
      StepKeeps(w, steps[0]);
      DocumentsOnHand(mid, steps[1..], w', p);
    }
  }

  lemma {:induction false} DocumentsCache(w: World, steps: seq<Step>, w': World)
    requires Path(w, steps, w') && forall k :: 0 <= k < |steps| ==> IsDocument(steps[k])
    ensures w'.db.cached == w.db.cached
    decreases |steps|
  {
    if steps != [] { DocumentsCache(Apply(w, steps[0]), steps[1..], w'); }
  }

  /** So a sale posted while a count is under way is added to it, not reversed. */
  lemma {:induction false} CountWithSalesBetween(w: World, before: seq<Step>, level: World, gap: seq<Step>, queue: World,
                              between: seq<Step>, write: World,
                              shelves: seq<Shelf>, counts: seq<Counted>, ids: seq<Id>, k: nat)
    requires Fresh(w) && Path(w, before, level) && Path(level, gap, queue) && Path(queue, between, write)
    requires forall j :: 0 <= j < |gap| ==> IsDocument(gap[j])
    requires forall j :: 0 <= j < |between| ==> IsDocument(between[j])
    requires |shelves| == |counts| && OncePerProduct(counts) && k < |counts|
    requires shelves[k] == Shelf(level.db, queue.db)
    requires |ids| == |Corrections(shelves, counts)| && FreshFor(write.db, ids)
    ensures
      var p := counts[k].product;
      var after := RecordAll(write.db, RowsFor(Corrections(shelves, counts), ids));
      OnHand(after, p) == counts[k].milli
        + SumWhere(write.db.ledger, p, AllRowsOf()) - SumWhere(queue.db.ledger, p, AllRowsOf())
  {
    FreshInv(w);
    PathKeeps(w, before, level);
    PathKeeps(level, gap, queue);
    DocumentsCache(level, gap, queue);
    hide Inv, Path, IsDocument, Corrections, SumWhere;
    DocumentsOnHand(queue, between, write, counts[k].product);
    CountLands(shelves, write.db, counts, ids, k);
  }

  // ---- Anything at all happening while a count is under way ----

  /** What the belief leaves out of the ledger, less what it has from other tills. */
  function LeftOut(w: World, p: Product): int {
    SumWhere(w.db.ledger, p, Unread(w, p)) + SumWhere(w.db.ledger, p, Absent(w))
    - SumWhere(w.db.ledger, p, CountedTwice(w, p)) - CachedFor(w.db, p).elsewhere
  }

  /**
    * Sends, lost answers, pulls, rows set aside and other tills' moves in between as well, and between
    * the two queries of one reading.  The count still adds what was recorded in between, and is off by
    * exactly what the belief came to leave out meanwhile, as when a sale is acknowledged and not yet
    * pulled, and by what a pull moved the level between the two queries.
    */
  lemma {:induction false} CountWithAnythingBetween(w: World, before: seq<Step>, level: World, gap: seq<Step>, queue: World,
                                 between: seq<Step>, write: World,
                                 shelves: seq<Shelf>, counts: seq<Counted>, ids: seq<Id>, k: nat)
    requires Fresh(w) && Path(w, before, level) && Path(level, gap, queue) && Path(queue, between, write)
    requires |shelves| == |counts| && OncePerProduct(counts) && k < |counts|
    requires shelves[k] == Shelf(level.db, queue.db)
    requires |ids| == |Corrections(shelves, counts)| && FreshFor(write.db, ids)
    ensures
      var p := counts[k].product;
      var after := RecordAll(write.db, RowsFor(Corrections(shelves, counts), ids));
      OnHand(after, p) == counts[k].milli
        + SumWhere(write.db.ledger, p, AllRowsOf()) - SumWhere(queue.db.ledger, p, AllRowsOf())
        - (LeftOut(write, p) - LeftOut(queue, p))
        + (CachedFor(queue.db, p).onHand - CachedFor(level.db, p).onHand)
  {
    var p := counts[k].product;
    hide Unread, Absent, CountedTwice, Path, Corrections, SumWhere;
    PathJoin(w, before, level, gap, queue);
    StockAgreement(w, before + gap, queue, p);
    PathJoin(w, before + gap, queue, between, write);
    StockAgreement(w, before + gap + between, write, p);
    CountLands(shelves, write.db, counts, ids, k);
  }

  lemma {:induction false} RecordedSum(db: Tables, movements: seq<Movement>, ids: seq<Id>, p: Product)
    requires |ids| == |movements| && FreshFor(db, ids)
    ensures SumWhere(RecordAll(db, RowsFor(movements, ids)).ledger, p, AllRowsOf())
         == SumWhere(db.ledger, p, AllRowsOf()) + DeltaIn(movements, p)
  {
    RecordAllOnHand(db, movements, ids, p);
    RowsSum(db.ledger, movements, ids, p);
  }

  lemma {:induction false} RowsSum(ledger: seq<LedgerRow>, movements: seq<Movement>, ids: seq<Id>, p: Product)
    requires |ids| == |movements|
    ensures SumWhere(ledger + RowsFor(movements, ids), p, AllRowsOf()) == SumWhere(ledger, p, AllRowsOf()) + DeltaIn(movements, p)
    decreases |movements|
  {
    var rows := RowsFor(movements, ids);
    if movements == [] {
      assert ledger + rows == ledger;
    } else {
      var n := |movements| - 1;
      RowsSum(ledger, movements[..n], ids[..n], p);
      assert rows[..n] == RowsFor(movements[..n], ids[..n]);
      assert (ledger + rows)[..|ledger + rows| - 1] == ledger + rows[..n];
    }
  }

  /**
    * But nothing that happened in between is wrong for good.  The truth the count leaves, which the
    * belief comes to once all is sent and pulled, is the counted figure, plus everything that moved
    * since, plus whatever the reading was already short by.
    */
  lemma {:induction false} TruthAfterCount(queue: World, write: World, shelves: seq<Shelf>, counts: seq<Counted>, ids: seq<Id>, k: nat)
    requires |shelves| == |counts| && OncePerProduct(counts) && k < |counts|
    requires |ids| == |Corrections(shelves, counts)| && FreshFor(write.db, ids)
    ensures
      var p := counts[k].product;
      var after := World(RecordAll(write.db, RowsFor(Corrections(shelves, counts), ids)), write.cloud);
      Truth(after, p) == counts[k].milli + (Truth(write, p) - Truth(queue, p)) + (Truth(queue, p) - Seen(shelves[k], p))
  {
    RecordedSum(write.db, Corrections(shelves, counts), ids, counts[k].product);
    CorrectionFor(shelves, counts, counts[k].product);
  }
}
