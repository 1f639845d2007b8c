/// Receipts: built from the cart at the counter, and rebuilt from stored rows for a reprint.
module Receipts {
  import opened Wrappers
  import opened Money
  import opened Tax
  import opened TaxLaws
  import opened Payments
  import opened Sales
  import R = Register
  import C = Cart

  datatype ReceiptLine = ReceiptLine(
    lineNo: nat, description: string, qtyMilli: int, unitPrice: Paise, discount: Paise, lineTotal: Paise)

  datatype ReceiptPayment = ReceiptPayment(means: Method, amount: Paise, verified: bool)

  datatype Receipt = Receipt(
    saleId: nat, issuedAt: int, lines: seq<ReceiptLine>, tax: seq<TaxComponent>,
    subtotal: Paise, discountTotal: Paise, beforeRounding: Paise, rounding: Paise, grandTotal: Paise,
    payments: seq<ReceiptPayment>, changeDue: Paise, isReprint: bool, requiresReview: bool)
  {
    /** Its parts add up to its totals, block by block and over all. */
    predicate Reconciles() {
      && subtotal - discountTotal == beforeRounding
      && beforeRounding + rounding == grandTotal
      && TaxableTotal(tax) + TaxTotal(tax) == beforeRounding
    }
  }

  datatype Refusal = MixedRates | DoesNotReconcile | NoSuchSale

  datatype Printed = Printed(receipt: Receipt) | Refused(reason: Refusal)

  // ---- At the counter ----

  function CartLines(c: C.Cart): (r: seq<ReceiptLine>)
    requires |c.lines| == |c.lineNumbers|
    ensures |r| == |c.lines|
  {
    seq(|c.lines|, k requires 0 <= k < |c.lines| =>
      var p := c.lines[k];
      ReceiptLine(c.lineNumbers[k], p.line.description, p.line.qtyMilli, p.line.unitPrice, p.DiscountTotal(), p.lineTotal))
  }

  function CartPayments(attempts: seq<Attempt>): seq<ReceiptPayment> {
    if attempts == [] then []
    else
      var n := |attempts| - 1;
      CartPayments(attempts[..n])
        + if attempts[n].state == Approved
          then [ReceiptPayment(attempts[n].means, attempts[n].amount, attempts[n].means == Cash)] else []
  }

  ghost predicate IsReceipt(id: nat, postedAt: int, s: R.CartState, r: Receipt)
    requires |s.cart.lines| == |s.cart.lineNumbers|
  {
    && IsBreakdown(s.cart.Items(), r.tax)
    && r == Receipt(id, postedAt, CartLines(s.cart), r.tax, s.cart.Subtotal(), s.cart.Discounts(), s.cart.Total(),
                    s.Adjustment(), s.RoundedTotal(), CartPayments(s.attempts), s.ChangeFor(), false,
                    NeedsReview(s.attempts))
  }

  /**
    * Refuses only a basket in which one tax code appears at two rates.  The other refusal, over
    * figures that disagree, would come after the sale has committed, and cannot happen.
    */
  method BuildReceipt(id: nat, postedAt: int, s: R.CartState, changeDue: Paise) returns (p: Printed)
    requires |s.cart.lines| == |s.cart.lineNumbers| && changeDue == s.ChangeFor()
    ensures p.Printed? <==> OneRatePerCode(s.cart.Items())
    ensures p.Printed? ==> IsReceipt(id, postedAt, s, p.receipt) && p.receipt.Reconciles()
    ensures p.Refused? ==> p.reason == MixedRates
  {
    hide IsBreakdown, OneRatePerCode;
    var block := Breakdown(s.cart.Items());
    if block.Err? { return Refused(MixedRates); }
    var r := Receipt(id, postedAt, CartLines(s.cart), block.value, s.cart.Subtotal(), s.cart.Discounts(), s.cart.Total(),
                     s.Adjustment(), s.RoundedTotal(), CartPayments(s.attempts), changeDue, false, NeedsReview(s.attempts));
    C.TotalsAgree(s.cart);
    C.ItemsTotal(s.cart);
    BlockConserves(s.cart.Items(), block.value);
    if !r.Reconciles() { return Refused(DoesNotReconcile); }
    return Printed(r);
  }

  // ---- From stored rows ----

  /** Rows come back in line-number order. */
  function InLineOrder(rows: seq<LineRow>, row: LineRow): seq<LineRow> {
    if rows == [] || rows[|rows| - 1].lineNo <= row.lineNo then rows + [row]
    else InLineOrder(rows[..|rows| - 1], row) + [rows[|rows| - 1]]
  }

  function LinesFor(rows: seq<LineRow>, id: nat): seq<LineRow> {
    if rows == [] then []
    else
      var before := LinesFor(rows[..|rows| - 1], id);
      if rows[|rows| - 1].saleId == id then InLineOrder(before, rows[|rows| - 1]) else before
  }

  function PaymentsFor(rows: seq<PaymentRow>, id: nat): seq<PaymentRow> {
    if rows == [] then []
    else PaymentsFor(rows[..|rows| - 1], id) + if rows[|rows| - 1].saleId == id then [rows[|rows| - 1]] else []
  }

  function StoredLines(rows: seq<LineRow>): (r: seq<ReceiptLine>)
    ensures |r| == |rows|
  {
    seq(|rows|, k requires 0 <= k < |rows| =>
      ReceiptLine(rows[k].lineNo, rows[k].description, rows[k].qtyMilli, rows[k].unitPrice, rows[k].discount, rows[k].lineTotal))
  }

  /** A line stored without a tax code is read back as the zero-rated one, at whatever rate it has. */
  function StoredCode(row: LineRow): TaxCode {
    TaxCode(if row.taxCode == "" then "GST0" else row.taxCode, row.rateBp)
  }

  function StoredItems(rows: seq<LineRow>): (items: seq<Item>)
    ensures |items| == |rows|
  {
    seq(|rows|, k requires 0 <= k < |rows| => Item(StoredCode(rows[k]), rows[k].lineTotal))
  }

  function StoredPayments(rows: seq<PaymentRow>): (r: seq<ReceiptPayment>)
    ensures |r| == |rows|
  {
    seq(|rows|, k requires 0 <= k < |rows| => ReceiptPayment(rows[k].means, rows[k].amount, rows[k].verified))
  }

  ghost predicate IsReprint(sale: SaleRow, rows: seq<LineRow>, paid: seq<PaymentRow>, r: Receipt) {
    && IsBreakdown(StoredItems(rows), r.tax)
    && r == Receipt(sale.id, sale.createdAt, StoredLines(rows), r.tax, sale.subtotal, sale.discountTotal,
                    sale.grandTotal - sale.rounding, sale.rounding, sale.grandTotal, StoredPayments(paid), 0, true,
                    sale.status == RequiresReview)
  }

  /** The stored figures of a sale agree with each other and with its lines. */
  predicate FiguresAgree(sale: SaleRow, rows: seq<LineRow>) {
    sale.subtotal - sale.discountTotal == sale.grandTotal - sale.rounding == LinesTotal(rows)
  }

  lemma {:induction false} StoredItemsTotal(rows: seq<LineRow>)
    ensures TotalOf(StoredItems(rows), GrossOf()) == LinesTotal(rows)
  {
    if rows != [] {
      var n := |rows| - 1;
      assert StoredItems(rows)[..n] == StoredItems(rows[..n]);
      StoredItemsTotal(rows[..n]);
    }
  }

  method ReceiptForSale(db: SalesRepository, id: nat) returns (p: Printed)
    ensures p == Refused(NoSuchSale) <==> !db.Has(id)
    ensures db.Has(id) ==>
      var sale, rows := SaleFor(db.sales, id).value, LinesFor(db.lines, id);
      && (p.Printed? <==> OneRatePerCode(StoredItems(rows)) && FiguresAgree(sale, rows))
      && (p.Printed? ==> IsReprint(sale, rows, PaymentsFor(db.payments, id), p.receipt) && p.receipt.Reconciles())
  {
    hide IsBreakdown, OneRatePerCode, LinesFor;
    var found := SaleFor(db.sales, id);
    if found == None { return Refused(NoSuchSale); }
    var sale, rows := found.value, LinesFor(db.lines, id);
    var block := Breakdown(StoredItems(rows));
    if block.Err? { return Refused(MixedRates); }
    var r := Receipt(id, sale.createdAt, StoredLines(rows), block.value, sale.subtotal, sale.discountTotal,
                     sale.grandTotal - sale.rounding, sale.rounding, sale.grandTotal,
                     StoredPayments(PaymentsFor(db.payments, id)), 0, true, sale.status == RequiresReview);
    BlockConserves(StoredItems(rows), block.value);
    StoredItemsTotal(rows);
    if !r.Reconciles() { return Refused(DoesNotReconcile); }
    return Printed(r);
  }

  // ---- What is stored stays what it was ----

  lemma {:induction false} LinesOfOthers(rows: seq<LineRow>, more: seq<LineRow>, id: nat)
    requires forall k :: 0 <= k < |more| ==> more[k].saleId != id
    ensures LinesFor(rows + more, id) == LinesFor(rows, id)
  {
    if more == [] {
      assert rows + more == rows;
    } else {
      assert (rows + more)[..|rows + more| - 1] == rows + more[..|more| - 1];
      LinesOfOthers(rows, more[..|more| - 1], id);
    }
  }

  lemma {:induction false} LinesOfOwn(rows: seq<LineRow>, own: seq<LineRow>, id: nat)
    requires forall k :: 0 <= k < |rows| ==> rows[k].saleId != id
    requires forall k :: 0 <= k < |own| ==> own[k].saleId == id
    requires forall j, k :: 0 <= j < k < |own| ==> own[j].lineNo < own[k].lineNo
    ensures LinesFor(rows + own, id) == own
  {
    if own == [] {
      LinesOfOthers([], rows, id);
      assert rows + own == rows && [] + rows == rows;
    } else {
      var n := |own| - 1;
      assert (rows + own)[..|rows + own| - 1] == rows + own[..n];
      LinesOfOwn(rows, own[..n], id);
      assert own == own[..n] + [own[n]];
    }
  }

  lemma {:induction false} PaymentsOfOthers(rows: seq<PaymentRow>, more: seq<PaymentRow>, id: nat)
    requires forall k :: 0 <= k < |more| ==> more[k].saleId != id
    ensures PaymentsFor(rows + more, id) == PaymentsFor(rows, id)
  {
    if more == [] {
      assert rows + more == rows;
    } else {
      assert (rows + more)[..|rows + more| - 1] == rows + more[..|more| - 1];
      PaymentsOfOthers(rows, more[..|more| - 1], id);
    }
  }

  lemma {:induction false} PaymentsOfOwn(rows: seq<PaymentRow>, own: seq<PaymentRow>, id: nat)
    requires forall k :: 0 <= k < |rows| ==> rows[k].saleId != id
    requires forall k :: 0 <= k < |own| ==> own[k].saleId == id
    ensures PaymentsFor(rows + own, id) == own
  {
    if own == [] {
      PaymentsOfOthers([], rows, id);
      assert rows + own == rows && [] + rows == rows;
    } else {
      var n := |own| - 1;
      assert (rows + own)[..|rows + own| - 1] == rows + own[..n];
      PaymentsOfOwn(rows, own[..n], id);
      assert own == own[..n] + [own[n]];
    }
  }

  lemma {:induction false} PaymentRowsOwned(id: nat, attempts: seq<Attempt>)
    ensures forall k :: 0 <= k < |PaymentRowsOf(id, attempts)| ==> PaymentRowsOf(id, attempts)[k].saleId == id
  {
    if attempts != [] { PaymentRowsOwned(id, attempts[..|attempts| - 1]); }
  }

  /** Lines and payments reference a sale that is there. */
  ghost predicate References(t: Store) {
    && (forall k :: 0 <= k < |t.lines| ==> SaleFor(t.sales, t.lines[k].saleId).Some?)
    && (forall k :: 0 <= k < |t.payments| ==> SaleFor(t.sales, t.payments[k].saleId).Some?)
  }

  lemma SaleForAppended(sales: seq<SaleRow>, row: SaleRow, id: nat)
    ensures SaleFor(sales + [row], id)
         == if SaleFor(sales, id).Some? then SaleFor(sales, id) else if row.id == id then Some(row) else None
  {
    assert (sales + [row])[..|sales|] == sales;
  }

  /** Posting stores exactly this sale under its id, and leaves what is stored under any other. */
  lemma PostStores(t: Store, id: nat, openedAt: int, s: R.CartState)
    requires References(t) && SaleFor(t.sales, id) == None && C.Valid(s.cart)
    ensures var t' := Posted(t, id, openedAt, s);
      && References(t')
      && SaleFor(t'.sales, id) == Some(SaleRowOf(id, openedAt, s))
      && LinesFor(t'.lines, id) == LineRowsOf(id, s.cart)
      && PaymentsFor(t'.payments, id) == PaymentRowsOf(id, s.attempts)
      && forall other :: other != id ==>
        && SaleFor(t'.sales, other) == SaleFor(t.sales, other)
        && LinesFor(t'.lines, other) == LinesFor(t.lines, other)
        && PaymentsFor(t'.payments, other) == PaymentsFor(t.payments, other)
  {
    hide InLineOrder, LinesFor, PaymentsFor, PaymentRowsOf, SaleFor, C.Cart.Subtotal, C.Cart.Total, C.Cart.Discounts;
    forall other { SaleForAppended(t.sales, SaleRowOf(id, openedAt, s), other); }
    PaymentRowsOwned(id, s.attempts);
    LinesOfOwn(t.lines, LineRowsOf(id, s.cart), id);
    PaymentsOfOwn(t.payments, PaymentRowsOf(id, s.attempts), id);
    forall other: nat | other != id
      ensures LinesFor(t.lines + LineRowsOf(id, s.cart), other) == LinesFor(t.lines, other)
      ensures PaymentsFor(t.payments + PaymentRowsOf(id, s.attempts), other) == PaymentsFor(t.payments, other)
    {
      LinesOfOthers(t.lines, LineRowsOf(id, s.cart), other);
      PaymentsOfOthers(t.payments, PaymentRowsOf(id, s.attempts), other);
    }
  }

  // ---- The reprint against the original ----

  lemma {:induction false} SamePayments(id: nat, attempts: seq<Attempt>)
    ensures StoredPayments(PaymentRowsOf(id, attempts)) == CartPayments(attempts)
  {
    if attempts != [] {
      var n := |attempts| - 1;
      SamePayments(id, attempts[..n]);
      var before := StoredPayments(PaymentRowsOf(id, attempts[..n]));
      var a := attempts[n];
      if a.state == Approved {
        assert StoredPayments(PaymentRowsOf(id, attempts)) == before + [ReceiptPayment(a.means, a.amount, a.means == Cash)];
      }
    }
  }

  predicate EveryCodeNamed(items: seq<Item>) {
    forall k :: 0 <= k < |items| ==> items[k].code.code != ""
  }

  lemma SameItems(id: nat, c: C.Cart)
    requires |c.lines| == |c.lineNumbers| && EveryCodeNamed(c.Items())
    ensures StoredItems(LineRowsOf(id, c)) == c.Items()
  {
    forall k | 0 <= k < |c.lines| ensures StoredItems(LineRowsOf(id, c))[k] == c.Items()[k] {
      assert c.Items()[k].code.code != "";
    }
  }

  /** A basket with a nameless code has a nameless row, and no reprint ever does. */
  lemma NamelessRow(items: seq<Item>, block: seq<TaxComponent>, rows: seq<LineRow>, again: seq<TaxComponent>)
    requires IsBreakdown(items, block) && IsBreakdown(StoredItems(rows), again) && !EveryCodeNamed(items)
    ensures block != again
  {
    var k :| 0 <= k < |items| && items[k].code.code == "";
    assert HasRow(block, "");
    var c :| c in block && c.code == "";
    assert !IsRow(StoredItems(rows), c);
  }

  /**
    * A reprint says what the original said, except: it carries the time the cart was opened, it
    * is marked as a reprint and it has lost the change.  The GST block is the same just when
    * every line has a tax code to read back.
    */
  lemma ReprintAgrees(id: nat, openedAt: int, postedAt: int, s: R.CartState, a: Receipt, b: Receipt)
    requires C.Valid(s.cart) && OneRatePerCode(s.cart.Items())
    requires IsReceipt(id, postedAt, s, a)
    requires IsReprint(SaleRowOf(id, openedAt, s), LineRowsOf(id, s.cart), PaymentRowsOf(id, s.attempts), b)
    ensures b == a.(issuedAt := openedAt, isReprint := true, changeDue := 0, tax := b.tax)
    ensures b.tax == a.tax <==> EveryCodeNamed(s.cart.Items())
  {
    hide IsBreakdown, OneRatePerCode, PaymentRowsOf, CartPayments;
    SamePayments(id, s.attempts);
    assert StoredLines(LineRowsOf(id, s.cart)) == CartLines(s.cart);
    if EveryCodeNamed(s.cart.Items()) {
      SameItems(id, s.cart);
      BreakdownUnique(s.cart.Items(), a.tax, b.tax);
    } else {
      NamelessRow(s.cart.Items(), a.tax, LineRowsOf(id, s.cart), b.tax);
    }
  }

  /** A nameless code reads back as the zero-rated one, so it must not carry another rate than that does. */
  predicate NamelessAgree(items: seq<Item>) {
    forall i, j :: 0 <= i < |items| && 0 <= j < |items| && items[i].code.code == "" && items[j].code.code == "GST0" ==>
      items[i].code.rateBp == items[j].code.rateBp
  }

  /** A reprint of a posted sale is refused exactly over its tax codes, never over its figures. */
  lemma {:induction false} ReprintRefusedOverCodes(id: nat, openedAt: int, s: R.CartState)
    requires C.Valid(s.cart)
    ensures FiguresAgree(SaleRowOf(id, openedAt, s), LineRowsOf(id, s.cart))
    ensures OneRatePerCode(StoredItems(LineRowsOf(id, s.cart)))
       <==> OneRatePerCode(s.cart.Items()) && NamelessAgree(s.cart.Items())
  {
    LinesAmount(id, s.cart);
    C.TotalsAgree(s.cart);
    var items, stored := s.cart.Items(), StoredItems(LineRowsOf(id, s.cart));
    forall k | 0 <= k < |items|
      ensures stored[k].code == TaxCode(if items[k].code.code == "" then "GST0" else items[k].code.code, items[k].code.rateBp)
    {
    }
  }

}
