/// The arithmetic of a shift's report, from its sales, payments and cash movements.
module Shift {
  import opened Wrappers
  import opened Money
  import opened Payments
  import Sales

  datatype Status = Completed | UnderReview | Voided

  datatype Outcome = Paid | NotPaid

  datatype SaleRow = SaleRow(id: nat, status: Status, grandTotal: Paise, rounding: Paise, review: Option<Outcome>)

  datatype Tender = Known(means: Method) | Other(name: string)

  datatype PaymentRow = PaymentRow(saleId: nat, tender: Tender, amount: Paise, verified: bool)

  datatype Direction = In | Out | Sideways(name: string)

  datatype Movement = Movement(direction: Direction, amount: Paise)

  datatype ShiftError = UnknownSale(id: nat) | NoSuchTender(name: string) | NoSuchDirection(name: string)

  datatype Figures = Figures(
    openingFloat: Paise, cashSales: Paise, upiAttested: Paise, upiVerified: Paise, cashIn: Paise, cashOut: Paise,
    rounding: Paise, underReviewCount: nat, underReviewTotal: Paise, salesCount: nat)
  {
    function ExpectedCash(): Paise { openingFloat + cashSales + cashIn - cashOut }

    function Takings(): Paise { cashSales + upiAttested + upiVerified }

    /** Above zero there is too much in the drawer. */
    function Variance(counted: Paise): Paise { counted - ExpectedCash() }
  }

  datatype Report = Report(figures: Figures) | Refused(error: ShiftError)

  /** A stored sale as the report reads it, with its review if there is one. */
  function AsSale(row: Sales.SaleRow, review: Option<Outcome>): SaleRow {
    SaleRow(row.id, if row.status == Sales.RequiresReview then UnderReview else Completed, row.grandTotal, row.rounding, review)
  }

  function AsPayment(p: Sales.PaymentRow): PaymentRow {
    PaymentRow(p.saleId, Known(p.means), p.amount, p.verified)
  }

  /** Which sales are in the figures: those completed, and those reviewed as paid. */
  predicate Counts(s: SaleRow) {
    match s.status
    case Completed => true
    case UnderReview => s.review == Some(Paid)
    case Voided => false
  }

  predicate StillUnderReview(s: SaleRow) { s.status == UnderReview && s.review == None }

  // ---- The dictionary of sales, in insertion order ----

  /** Storing under an id already there replaces the row where it stands. */
  function Put(rows: seq<SaleRow>, s: SaleRow): seq<SaleRow> {
    if rows == [] then [s]
    else if rows[0].id == s.id then [s] + rows[1..]
    else [rows[0]] + Put(rows[1..], s)
  }

  function ById(sales: seq<SaleRow>): seq<SaleRow> {
    if sales == [] then [] else Put(ById(sales[..|sales| - 1]), sales[|sales| - 1])
  }

  function Lookup(rows: seq<SaleRow>, id: nat): (r: Option<SaleRow>)
    ensures r.Some? ==> r.value in rows && r.value.id == id
    ensures r.None? <==> forall k :: 0 <= k < |rows| ==> rows[k].id != id
  {
    if rows == [] then None else if rows[0].id == id then Some(rows[0]) else Lookup(rows[1..], id)
  }

  predicate CountsIn(rows: seq<SaleRow>, id: nat) {
    Lookup(rows, id).Some? && Counts(Lookup(rows, id).value)
  }

  // ---- The figures as sums ----

  /** The payments of counting sales that some test picks out. */
  function PaidBy(rows: seq<SaleRow>, payments: seq<PaymentRow>, pick: PaymentRow -> bool): Paise {
    if payments == [] then 0
    else
      var p := payments[|payments| - 1];
      PaidBy(rows, payments[..|payments| - 1], pick) + if CountsIn(rows, p.saleId) && pick(p) then p.amount else 0
  }

  function InCash(): PaymentRow -> bool { (p: PaymentRow) => p.tender == Known(Cash) }

  function ByUpi(verified: bool): PaymentRow -> bool { (p: PaymentRow) => p.tender == Known(Upi) && p.verified == verified }

  function RoundingOf(rows: seq<SaleRow>): Paise {
    if rows == [] then 0
    else RoundingOf(rows[..|rows| - 1]) + if Counts(rows[|rows| - 1]) then rows[|rows| - 1].rounding else 0
  }

  function CountingOf(rows: seq<SaleRow>): nat {
    if rows == [] then 0 else CountingOf(rows[..|rows| - 1]) + if Counts(rows[|rows| - 1]) then 1 else 0
  }

  function UnderReviewOf(rows: seq<SaleRow>): (r: (nat, Paise)) {
    if rows == [] then (0, 0)
    else
      var before, s := UnderReviewOf(rows[..|rows| - 1]), rows[|rows| - 1];
      if StillUnderReview(s) then (before.0 + 1, before.1 + s.grandTotal) else before
  }

  function Moved(movements: seq<Movement>, direction: Direction): Paise {
    if movements == [] then 0
    else
      var m := movements[|movements| - 1];
      Moved(movements[..|movements| - 1], direction) + if m.direction == direction then m.amount else 0
  }

  /** A payment the report can place: its sale is known and, if it counts, so is its tender. */
  predicate Placeable(rows: seq<SaleRow>, p: PaymentRow) {
    Lookup(rows, p.saleId).Some? && (CountsIn(rows, p.saleId) ==> p.tender.Known?)
  }

  function FiguresOf(openingFloat: Paise, sales: seq<SaleRow>, payments: seq<PaymentRow>, movements: seq<Movement>): Figures {
    var rows := ById(sales);
    var review := UnderReviewOf(rows);
    Figures(openingFloat, PaidBy(rows, payments, InCash()), PaidBy(rows, payments, ByUpi(false)),
            PaidBy(rows, payments, ByUpi(true)), Moved(movements, In), Moved(movements, Out),
            RoundingOf(rows), review.0, review.1, CountingOf(rows))
  }

  predicate Reportable(sales: seq<SaleRow>, payments: seq<PaymentRow>, movements: seq<Movement>) {
    && (forall k :: 0 <= k < |payments| ==> Placeable(ById(sales), payments[k]))
    && (forall k :: 0 <= k < |movements| ==> !movements[k].direction.Sideways?)
  }

  // ---- The loops ----

  method IndexSales(sales: seq<SaleRow>) returns (rows: seq<SaleRow>)
    ensures rows == ById(sales)
  {
    rows := [];
    for k := 0 to |sales|
      invariant rows == ById(sales[..k])
    {
      assert sales[..k + 1][..k] == sales[..k];
      rows := Put(rows, sales[k]);
    }
    assert sales[..|sales|] == sales;
  }

  method SumPayments(rows: seq<SaleRow>, payments: seq<PaymentRow>)
    returns (cash: Paise, attested: Paise, verified: Paise, error: Option<ShiftError>)
    ensures error.None? <==> forall k :: 0 <= k < |payments| ==> Placeable(rows, payments[k])
    ensures error.None? ==>
      && cash == PaidBy(rows, payments, InCash())
      && attested == PaidBy(rows, payments, ByUpi(false)) && verified == PaidBy(rows, payments, ByUpi(true))
  {
    hide Lookup;
    cash, attested, verified := 0, 0, 0;
    for k := 0 to |payments|
      invariant forall j :: 0 <= j < k ==> Placeable(rows, payments[j])
      invariant cash == PaidBy(rows, payments[..k], InCash())
      invariant attested == PaidBy(rows, payments[..k], ByUpi(false))
      invariant verified == PaidBy(rows, payments[..k], ByUpi(true))
    {
      assert payments[..k + 1][..k] == payments[..k];
      var p := payments[k];
      if Lookup(rows, p.saleId) == None {
        assert !Placeable(rows, payments[k]);
        return 0, 0, 0, Some(UnknownSale(p.saleId));
      }
      if CountsIn(rows, p.saleId) {
        match p.tender {
          case Known(Cash) => cash := cash + p.amount;
          case Known(Upi) =>
            if p.verified { verified := verified + p.amount; } else { attested := attested + p.amount; }
          case Other(name) =>
            assert !Placeable(rows, payments[k]);
            return 0, 0, 0, Some(NoSuchTender(name));
        }
      }
    }
    assert payments[..|payments|] == payments;
    error := None;
  }

  method SumMovements(movements: seq<Movement>) returns (cashIn: Paise, cashOut: Paise, error: Option<ShiftError>)
    ensures error.None? <==> forall k :: 0 <= k < |movements| ==> !movements[k].direction.Sideways?
    ensures error.None? ==> cashIn == Moved(movements, In) && cashOut == Moved(movements, Out)
  {
    cashIn, cashOut := 0, 0;
    for k := 0 to |movements|
      invariant forall j :: 0 <= j < k ==> !movements[j].direction.Sideways?
      invariant cashIn == Moved(movements[..k], In) && cashOut == Moved(movements[..k], Out)
    {
      assert movements[..k + 1][..k] == movements[..k];
      match movements[k].direction {
        case In => cashIn := cashIn + movements[k].amount;
        case Out => cashOut := cashOut + movements[k].amount;
        case Sideways(name) => return 0, 0, Some(NoSuchDirection(name));
      }
    }
    assert movements[..|movements|] == movements;
    error := None;
  }

  method SumSales(rows: seq<SaleRow>) returns (rounding: Paise, counting: nat, review: (nat, Paise))
    ensures rounding == RoundingOf(rows) && counting == CountingOf(rows) && review == UnderReviewOf(rows)
  {
    rounding, counting, review := 0, 0, (0, 0);
    for k := 0 to |rows|
      invariant rounding == RoundingOf(rows[..k]) && counting == CountingOf(rows[..k]) && review == UnderReviewOf(rows[..k])
    {
      assert rows[..k + 1][..k] == rows[..k];
      if Counts(rows[k]) { rounding, counting := rounding + rows[k].rounding, counting + 1; }
      if StillUnderReview(rows[k]) { review := (review.0 + 1, review.1 + rows[k].grandTotal); }
    }
    assert rows[..|rows|] == rows;
  }

  /** The Z-report: refused for a row it cannot place, and otherwise the sums over what counts. */
  method Compute(openingFloat: Paise, sales: seq<SaleRow>, payments: seq<PaymentRow>, movements: seq<Movement>)
    returns (r: Report)
    ensures r.Report? <==> Reportable(sales, payments, movements)
    ensures r.Report? ==> r.figures == FiguresOf(openingFloat, sales, payments, movements)
  {
    var rows := IndexSales(sales);
    var cash, attested, verified, unplaced := SumPayments(rows, payments);
    if unplaced.Some? { return Refused(unplaced.value); }
    var rounding, counting, review := SumSales(rows);
    var cashIn, cashOut, misdirected := SumMovements(movements);
    if misdirected.Some? { return Refused(misdirected.value); }
    return Report(Figures(openingFloat, cash, attested, verified, cashIn, cashOut, rounding, review.0, review.1, counting));
  }

  // ---- Facts about the sums ----

  ghost predicate DistinctIds(sales: seq<SaleRow>) {
    forall j, k :: 0 <= j < k < |sales| ==> sales[j].id != sales[k].id
  }

  lemma {:induction false} PutNew(rows: seq<SaleRow>, s: SaleRow)
    requires forall k :: 0 <= k < |rows| ==> rows[k].id != s.id
    ensures Put(rows, s) == rows + [s]
  {
    if rows != [] {
      PutNew(rows[1..], s);
      assert rows == [rows[0]] + rows[1..];
    }
  }

  /** The table's primary key makes the dictionary the table. */
  lemma {:induction false} ByIdDistinct(sales: seq<SaleRow>)
    requires DistinctIds(sales)
    ensures ById(sales) == sales
  {
    if sales != [] {
      ByIdDistinct(sales[..|sales| - 1]);
      PutNew(sales[..|sales| - 1], sales[|sales| - 1]);
    }
  }

  lemma {:induction false} LookupAt(rows: seq<SaleRow>, k: nat)
    requires DistinctIds(rows) && k < |rows|
    ensures Lookup(rows, rows[k].id) == Some(rows[k])
  {
    if k > 0 {
      assert rows[0].id != rows[k].id;
      LookupAt(rows[1..], k - 1);
    }
  }

  lemma {:induction false} PaidByAppend(rows: seq<SaleRow>, a: seq<PaymentRow>, b: seq<PaymentRow>, pick: PaymentRow -> bool)
    ensures PaidBy(rows, a + b, pick) == PaidBy(rows, a, pick) + PaidBy(rows, b, pick)
  {
    if b == [] {
      assert a + b == a;
    } else {
      assert (a + b)[..|a + b| - 1] == a + b[..|b| - 1];
      PaidByAppend(rows, a, b[..|b| - 1], pick);
    }
  }
}
