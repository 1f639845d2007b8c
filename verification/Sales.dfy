/// Posting a sale: the rows one transaction writes, and whether what landed adds up.
module Sales {
  import opened Wrappers
  import opened Money
  import opened Pricing
  import opened Payments
  import R = Register
  import C = Cart
  import Y = SyncStore
  import O = OutboxRepository

  datatype Status = Completed | RequiresReview

  datatype SaleRow = SaleRow(
    id: nat, createdAt: int, status: Status, subtotal: Paise, discountTotal: Paise, taxTotal: Paise,
    rounding: Paise, grandTotal: Paise)

  datatype LineRow = LineRow(
    saleId: nat, lineNo: nat, product: nat, description: string, unitPrice: Paise, qtyMilli: int,
    discount: Paise, tax: Paise, lineTotal: Paise, taxCode: string, rateBp: nat)

  datatype PaymentRow = PaymentRow(saleId: nat, means: Method, amount: Paise, verified: bool)

  /** Every attempt is kept, whatever became of it. */
  datatype AttemptRow = AttemptRow(saleId: nat, id: nat, means: Method, amount: Paise, state: State, expiresAt: Option<int>)

  datatype AuditRow = AuditRow(saleId: nat, grandTotal: Paise, rounding: Paise, lines: nat, status: Status)

  // ---- What one sale writes, as values ----

  function TaxTotalOf(c: C.Cart): Paise { C.SumOf(c.lines, (p: PricedLine) => p.taxAmount) }

  function SaleRowOf(id: nat, openedAt: int, s: R.CartState): (row: SaleRow)
    ensures row.id == id
  {
    SaleRow(id, openedAt, if NeedsReview(s.attempts) then RequiresReview else Completed,
            s.cart.Subtotal(), s.cart.Discounts(), TaxTotalOf(s.cart), s.Adjustment(), s.RoundedTotal())
  }

  function LineRowOf(id: nat, lineNo: nat, p: PricedLine): LineRow {
    LineRow(id, lineNo, p.line.product, p.line.description, p.line.unitPrice, p.line.qtyMilli,
            p.DiscountTotal(), p.taxAmount, p.lineTotal, p.line.taxCode.code, p.line.taxCode.rateBp)
  }

  function LineRowsOf(id: nat, c: C.Cart): (rows: seq<LineRow>)
    requires |c.lines| == |c.lineNumbers|
    ensures |rows| == |c.lines|
  {
    seq(|c.lines|, k requires 0 <= k < |c.lines| => LineRowOf(id, c.lineNumbers[k], c.lines[k]))
  }

  /** Stock moves only for products the catalogue tracks; one it has never seen is not tracked. */
  predicate Tracked(tracks: map<nat, bool>, product: nat) {
    product in tracks && tracks[product]
  }

  /** One ledger row a tracked line, each with an id of its own. */
  function StockRowsOf(id: nat, lines: seq<PricedLine>, tracks: map<nat, bool>, ids: seq<nat>): seq<Y.LedgerRow>
    requires |ids| == |lines|
  {
    if lines == [] then []
    else
      var n := |lines| - 1;
      StockRowsOf(id, lines[..n], tracks, ids[..n])
        + if Tracked(tracks, lines[n].line.product)
          then [Y.LedgerRow(ids[n], lines[n].line.product, -lines[n].line.qtyMilli, Some(id))] else []
  }

  function AttemptRowsOf(id: nat, attempts: seq<Attempt>): (rows: seq<AttemptRow>)
    ensures |rows| == |attempts|
  {
    seq(|attempts|, k requires 0 <= k < |attempts| =>
      AttemptRow(id, attempts[k].id, attempts[k].means, attempts[k].amount, attempts[k].state, attempts[k].expiresAt))
  }

  function AuditRowOf(id: nat, s: R.CartState): AuditRow {
    var sale := SaleRowOf(id, 0, s);
    AuditRow(id, sale.grandTotal, sale.rounding, |s.cart.lines|, sale.status)
  }

  function PaymentRowsOf(id: nat, attempts: seq<Attempt>): seq<PaymentRow> {
    if attempts == [] then []
    else
      var n := |attempts| - 1;
      var a := attempts[n];
      PaymentRowsOf(id, attempts[..n])
        + if a.state == Approved then [PaymentRow(id, a.means, a.amount, a.means == Cash)] else []
  }

  /** The tables a receipt is read back from. */
  datatype Store = Store(sales: seq<SaleRow>, lines: seq<LineRow>, payments: seq<PaymentRow>)

  function Posted(t: Store, id: nat, openedAt: int, s: R.CartState): Store
    requires |s.cart.lines| == |s.cart.lineNumbers|
  {
    Store(t.sales + [SaleRowOf(id, openedAt, s)], t.lines + LineRowsOf(id, s.cart),
          t.payments + PaymentRowsOf(id, s.attempts))
  }

  // ---- The repository ----

  datatype PostError = SaleNotSettled | NoOpenShift | DuplicateSale

  function SaleFor(rows: seq<SaleRow>, id: nat): (r: Option<SaleRow>)
    ensures r.Some? ==> r.value in rows && r.value.id == id
    ensures r.None? ==> forall k :: 0 <= k < |rows| ==> rows[k].id != id
  {
    if rows == [] then None
    else
      match SaleFor(rows[..|rows| - 1], id)
      case Some(row) => Some(row)
      case None => if rows[|rows| - 1].id == id then Some(rows[|rows| - 1]) else None
  }

  /** Sales are numbered apart, each is on a shift, and every payment is of one of them. */
  ghost predicate Sound(sales: seq<SaleRow>, sessionOf: map<nat, nat>, payments: seq<PaymentRow>) {
    && (forall j, k :: 0 <= j < k < |sales| ==> sales[j].id != sales[k].id)
    && (forall k :: 0 <= k < |sales| ==> sales[k].id in sessionOf)
    && (forall k :: 0 <= k < |payments| ==> payments[k].saleId in sessionOf)
    && (forall id :: id in sessionOf ==> exists k :: 0 <= k < |sales| && sales[k].id == id)
  }

  lemma {:induction false} PaymentsAreOf(id: nat, attempts: seq<Attempt>)
    ensures forall k :: 0 <= k < |PaymentRowsOf(id, attempts)| ==> PaymentRowsOf(id, attempts)[k].saleId == id
  {
    if attempts != [] { PaymentsAreOf(id, attempts[..|attempts| - 1]); }
  }

  lemma SoundPosted(sales: seq<SaleRow>, sessionOf: map<nat, nat>, payments: seq<PaymentRow>, row: SaleRow,
                    session: nat, attempts: seq<Attempt>)
    requires Sound(sales, sessionOf, payments) && forall k :: 0 <= k < |sales| ==> sales[k].id != row.id
    ensures Sound(sales + [row], sessionOf[row.id := session], payments + PaymentRowsOf(row.id, attempts))
  {
    PaymentsAreOf(row.id, attempts);
    hide PaymentRowsOf;
    var after, on := sales + [row], sessionOf[row.id := session];
    forall id | id in on ensures exists k :: 0 <= k < |after| && after[k].id == id {
      if id == row.id {
        assert after[|sales|].id == id;
      } else {
        var k :| 0 <= k < |sales| && sales[k].id == id;
        assert after[k].id == id;
      }
    }
  }

  class SalesRepository {
    const db: O.Database
    var sales: seq<SaleRow>
    /** The `session_id` each sale was posted with. */
    var sessionOf: map<nat, nat>
    var lines: seq<LineRow>
    var payments: seq<PaymentRow>
    var attempts: seq<AttemptRow>
    var audit: seq<AuditRow>
    const tracks: map<nat, bool>

    constructor (db: O.Database, tracks: map<nat, bool>)
      requires forall id: nat :: (Y.Sale, id) !in db.records
      ensures Valid() && this.db == db && this.tracks == tracks
      ensures Contents() == Store([], [], []) && attempts == [] && audit == [] && sessionOf == map[]
    {
      this.db, this.tracks := db, tracks;
      sales, lines, payments, attempts, audit, sessionOf := [], [], [], [], [], map[];
    }

    ghost function Contents(): Store
      reads this
    {
      Store(sales, lines, payments)
    }

    predicate Has(id: nat)
      reads `sales
    {
      exists k :: 0 <= k < |sales| && sales[k].id == id
    }

    /** The sales there are to send are the sales there are. */
    ghost predicate Valid()
      reads this, db
    {
      && Sound(sales, sessionOf, payments)
      && forall id: nat :: (Y.Sale, id) in db.records <==> Has(id)
    }

    /**
      * One transaction: every row of the sale and its outbox row, or nothing at all.  To the sync
      * machine it is the one step that posts a sale, with its ledger rows its own.
      */
    method PostSale(id: nat, openedAt: int, s: R.CartState, session: nat, ids: seq<nat>) returns (refused: Option<PostError>)
      requires |s.cart.lines| == |s.cart.lineNumbers| == |ids|
      requires Valid() && Y.FreshFor(db.T(), ids)
      modifies this, db
      ensures Valid()
      ensures refused == if old(Has(id)) then Some(DuplicateSale) else None
      ensures refused.Some? ==>
        && Contents() == old(Contents()) && attempts == old(attempts) && audit == old(audit) && db.T() == old(db.T())
        && sessionOf == old(sessionOf)
      ensures refused.None? ==>
        && Contents() == Posted(old(Contents()), id, openedAt, s) && sessionOf == old(sessionOf)[id := session]
        && attempts == old(attempts) + AttemptRowsOf(id, s.attempts)
        && audit == old(audit) + [AuditRowOf(id, s)]
        && Y.Takes(old(db.T()), Y.PostSale(id, StockRowsOf(id, s.cart.lines, tracks, ids)), db.T())
    {
      hide LineRowsOf, StockRowsOf, PaymentRowsOf, AttemptRowsOf, SaleRowOf, AuditRowOf, Y.Takes, Y.FreshFor, Sound;
      if Has(id) { return Some(DuplicateSale); }
      ghost var was := db.T();
      SoundPosted(sales, sessionOf, payments, SaleRowOf(id, openedAt, s), session, s.attempts);
      sales, sessionOf := sales + [SaleRowOf(id, openedAt, s)], sessionOf[id := session];
      InsertLines(id, s.cart, ids);
      InsertAttempts(id, s.attempts);
      audit := audit + [AuditRowOf(id, s)];
      QueueSale(id);
      TakesPost(was, id, s.cart.lines, tracks, ids);
      forall other: nat ensures (Y.Sale, other) in db.records <==> Has(other) {
        assert sales[|old(sales)|].id == id;
        if k :| 0 <= k < |old(sales)| && old(sales)[k].id == other { assert sales[k].id == other; }
      }
      refused := None;
    }

    method QueueSale(id: nat)
      modifies db
      ensures db.T() == Y.Enqueue(old(db.T()), (Y.Sale, id))
    {
      db.clientSeq := db.clientSeq + 1;
      db.outbox := db.outbox + [Y.OutboxRow(Y.Sale, id, db.clientSeq, false, 0)];
      db.records := db.records + {(Y.Sale, id)};
    }

    method InsertLines(id: nat, c: C.Cart, ids: seq<nat>)
      requires |c.lines| == |c.lineNumbers| == |ids|
      modifies `lines, db`ledger
      ensures lines == old(lines) + LineRowsOf(id, c)
      ensures db.T() == old(db.T()).(ledger := old(db.ledger) + StockRowsOf(id, c.lines, tracks, ids))
    {
      for k := 0 to |c.lines|
        invariant lines == old(lines) + LineRowsOf(id, c)[..k]
        invariant db.T() == old(db.T()).(ledger := old(db.ledger) + StockRowsOf(id, c.lines[..k], tracks, ids[..k]))
      {
        assert LineRowsOf(id, c)[..k + 1] == LineRowsOf(id, c)[..k] + [LineRowOf(id, c.lineNumbers[k], c.lines[k])];
        assert c.lines[..k + 1][..k] == c.lines[..k] && ids[..k + 1][..k] == ids[..k];
        lines := lines + [LineRowOf(id, c.lineNumbers[k], c.lines[k])];
        var product := c.lines[k].line.product;
        if product in tracks && tracks[product] {
          db.ledger := db.ledger + [Y.LedgerRow(ids[k], product, -c.lines[k].line.qtyMilli, Some(id))];
        }
      }
      assert c.lines[..|c.lines|] == c.lines && ids[..|c.lines|] == ids;
      assert LineRowsOf(id, c)[..|c.lines|] == LineRowsOf(id, c);
    }

    /** Every attempt, and a payment for each that was approved. */
    method InsertAttempts(id: nat, tried: seq<Attempt>)
      modifies `attempts, `payments
      ensures attempts == old(attempts) + AttemptRowsOf(id, tried)
      ensures payments == old(payments) + PaymentRowsOf(id, tried)
    {
      for k := 0 to |tried|
        invariant attempts == old(attempts) + AttemptRowsOf(id, tried)[..k]
        invariant payments == old(payments) + PaymentRowsOf(id, tried[..k])
      {
        assert tried[..k + 1][..k] == tried[..k];
        assert AttemptRowsOf(id, tried)[..k + 1] == AttemptRowsOf(id, tried)[..k] + [AttemptRowsOf(id, tried)[k]];
        var a := tried[k];
        attempts := attempts + [AttemptRow(id, a.id, a.means, a.amount, a.state, a.expiresAt)];
        if a.state == Approved {
          payments := payments + [PaymentRow(id, a.means, a.amount, a.means == Cash)];
        }
      }
      assert tried[..|tried|] == tried;
      assert AttemptRowsOf(id, tried)[..|tried|] == AttemptRowsOf(id, tried);
    }
  }

  /** The sale's ledger rows are new, numbered apart, and say which sale they are of. */
  lemma {:induction false} StockRowsFresh(id: nat, lines: seq<PricedLine>, tracks: map<nat, bool>, ids: seq<nat>, db: Y.Tables)
    requires |ids| == |lines| && Y.FreshFor(db, ids)
    ensures var rows := StockRowsOf(id, lines, tracks, ids);
      && Y.FreshIds(db, rows)
      && (forall l :: l in rows ==> l.sale == Some(id))
      && (forall l :: l in rows ==> l.id in ids)
    decreases |lines|
  {
    if lines != [] {
      var n := |lines| - 1;
      StockRowsFresh(id, lines[..n], tracks, ids[..n], db);
      var before := StockRowsOf(id, lines[..n], tracks, ids[..n]);
      forall l | l in before ensures l.id != ids[n] {
        var j :| 0 <= j < n && ids[..n][j] == l.id;
        assert ids[j] != ids[n];
      }
      assert forall l :: l in before ==> l.id in ids[..n] && l.id in ids;
    }
  }

  lemma TakesPost(was: Y.Tables, id: nat, lines: seq<PricedLine>, tracks: map<nat, bool>, ids: seq<nat>)
    requires |ids| == |lines| && Y.FreshFor(was, ids) && (Y.Sale, id) !in was.records
    ensures var rows := StockRowsOf(id, lines, tracks, ids);
      Y.Takes(was, Y.PostSale(id, rows), Y.Enqueue(was.(ledger := was.ledger + rows), (Y.Sale, id)))
  {
    StockRowsFresh(id, lines, tracks, ids, was);
    hide Y.FreshIds, StockRowsOf;
  }

  // ---- What the rows come to ----

  function AmountOf(payments: seq<PaymentRow>): Paise {
    if payments == [] then 0 else AmountOf(payments[..|payments| - 1]) + payments[|payments| - 1].amount
  }

  function CashOf(payments: seq<PaymentRow>): Paise {
    if payments == [] then 0
    else CashOf(payments[..|payments| - 1]) + if payments[|payments| - 1].means == Cash then payments[|payments| - 1].amount else 0
  }

  function LinesTotal(rows: seq<LineRow>): Paise {
    if rows == [] then 0 else LinesTotal(rows[..|rows| - 1]) + rows[|rows| - 1].lineTotal
  }

  /** Lines and rounding make the total, and the payments reach it; they may exceed it. */
  predicate TotalsBalance(sale: SaleRow, lines: seq<LineRow>, payments: seq<PaymentRow>) {
    LinesTotal(lines) + sale.rounding == sale.grandTotal && AmountOf(payments) >= sale.grandTotal
  }

  lemma {:induction false} PaymentsAmount(id: nat, attempts: seq<Attempt>)
    ensures AmountOf(PaymentRowsOf(id, attempts)) == ApprovedTotal(attempts)
    ensures CashOf(PaymentRowsOf(id, attempts)) == CashOwed(attempts)
  {
    if attempts != [] {
      var n := |attempts| - 1;
      PaymentsAmount(id, attempts[..n]);
      var before := PaymentRowsOf(id, attempts[..n]);
      if attempts[n].state == Approved {
        assert PaymentRowsOf(id, attempts)[..|before|] == before;
      } else {
        assert PaymentRowsOf(id, attempts) == before;
      }
    }
  }

  lemma {:induction false} LinesAmount(id: nat, c: C.Cart)
    requires |c.lines| == |c.lineNumbers|
    ensures LinesTotal(LineRowsOf(id, c)) == c.Total()
    decreases |c.lines|
  {
    if c.lines != [] {
      var n := |c.lines| - 1;
      var front := C.Cart(c.lines[..n], c.lineNumbers[..n], c.nextLineNo);
      assert LineRowsOf(id, c)[..n] == LineRowsOf(id, front);
      LinesAmount(id, front);
    }
  }

  /** What a cart posts adds up exactly when it was settled, which is when it may post. */
  lemma PostedBalances(id: nat, openedAt: int, s: R.CartState)
    requires |s.cart.lines| == |s.cart.lineNumbers|
    ensures TotalsBalance(SaleRowOf(id, openedAt, s), LineRowsOf(id, s.cart), PaymentRowsOf(id, s.attempts)) <==> s.IsSettled()
  {
    PaymentsAmount(id, s.attempts);
    LinesAmount(id, s.cart);
  }

  // ---- Stock leaves with the goods ----

  function MovedFor(rows: seq<Y.LedgerRow>, product: nat): int {
    if rows == [] then 0
    else MovedFor(rows[..|rows| - 1], product) + if rows[|rows| - 1].product == product then rows[|rows| - 1].delta else 0
  }

  function SoldOf(lines: seq<PricedLine>, product: nat): int {
    if lines == [] then 0
    else SoldOf(lines[..|lines| - 1], product)
         + if lines[|lines| - 1].line.product == product then lines[|lines| - 1].line.qtyMilli else 0
  }

  /** A sale moves exactly what it sold of every tracked product, and nothing of any other. */
  lemma {:induction false} StockLeaves(id: nat, lines: seq<PricedLine>, tracks: map<nat, bool>, ids: seq<nat>, product: nat)
    requires |ids| == |lines|
    ensures MovedFor(StockRowsOf(id, lines, tracks, ids), product)
         == if Tracked(tracks, product) then -SoldOf(lines, product) else 0
    decreases |lines|
  {
    if lines != [] {
      var n := |lines| - 1;
      StockLeaves(id, lines[..n], tracks, ids[..n], product);
      var before := StockRowsOf(id, lines[..n], tracks, ids[..n]);
      if Tracked(tracks, lines[n].line.product) {
        assert StockRowsOf(id, lines, tracks, ids)[..|before|] == before;
      } else {
        assert StockRowsOf(id, lines, tracks, ids) == before;
      }
    }
  }
}
