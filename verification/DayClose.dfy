/// The rows a shift leaves in the tables, and the variance its close stores over them.
module DayClose {
  import opened Wrappers
  import opened Money
  import opened Payments
  import R = Register
  import S = Shift
  import opened ShiftService
  import Sales
  import D = Drawer

  /** The tables a close reads, of this shift and of every other. */
  datatype Rows = Rows(
    sales: seq<Sales.SaleRow>, sessionOf: map<nat, nat>, payments: seq<Sales.PaymentRow>,
    reviews: map<nat, S.Outcome>, movements: seq<(nat, S.Movement)>)
  {
    function SalesOf(session: nat): seq<S.SaleRow> { SalesFor(sales, sessionOf, reviews, session) }

    function PaymentsOf(session: nat): seq<S.PaymentRow> { PaymentsFor(payments, sessionOf, session) }

    function MovementsOf(session: nat): seq<S.Movement> { MovementsFor(movements, session) }
  }

  // ---- What each step writes ----

  function WithSale(r: Rows, session: nat, id: nat, openedAt: int, s: R.CartState): Rows {
    r.(sales := r.sales + [Sales.SaleRowOf(id, openedAt, s)], sessionOf := r.sessionOf[id := session],
       payments := r.payments + Sales.PaymentRowsOf(id, s.attempts))
  }

  /**
    * What a step of the shift writes: posting and reviewing as the sales tables take them, a cash
    * movement under the open session, and the rest nothing.
    */
  ghost function Written(r: Rows, session: nat, t: D.Till, a: D.Step, openedAt: int): Rows
    requires D.WellFormed(t) && D.Allowed(t, a)
  {
    match a
    case Post(k, now) => WithSale(r, session, t.carts[k].id, openedAt, R.Looked(t.carts[k].state, now))
    case Review(k, outcome) => r.(reviews := r.reviews[t.sales[k].id := outcome])
    case MoveCash(direction, amount) => r.(movements := r.movements + [(session, S.Movement(direction, amount))])
    case _ => r
  }

  // ---- The tables tell of the shift what the shift is ----

  ghost predicate Tells(r: Rows, session: nat, t: D.Till) {
    && r.SalesOf(session) == D.RowsOf(t.sales)
    && r.PaymentsOf(session) == D.AllPayments(t.sales)
    && r.MovementsOf(session) == t.movements
  }

  /** The tables are sound, only stored sales are reviewed, and no open cart has been posted. */
  ghost predicate InStep(r: Rows, session: nat, t: D.Till) {
    && Sales.Sound(r.sales, r.sessionOf, r.payments)
    && (forall id :: id in r.reviews ==> id in r.sessionOf)
    && (forall k :: 0 <= k < |t.carts| ==> t.carts[k].id !in r.sessionOf)
    && Tells(r, session, t)
  }

  lemma {:induction false} SalesAppended(sales: seq<Sales.SaleRow>, sessionOf: map<nat, nat>, reviews: map<nat, S.Outcome>,
                                         session: nat, id: nat)
    requires forall k :: 0 <= k < |sales| ==> sales[k].id != id
    ensures SalesFor(sales, sessionOf[id := session], reviews, session) == SalesFor(sales, sessionOf, reviews, session)
  {
    if sales != [] { SalesAppended(sales[..|sales| - 1], sessionOf, reviews, session, id); }
  }

  lemma {:induction false} SalesReviewed(sales: seq<Sales.SaleRow>, sessionOf: map<nat, nat>, reviews: map<nat, S.Outcome>,
                                         session: nat, id: nat, outcome: S.Outcome)
    ensures var before := SalesFor(sales, sessionOf, reviews, session);
      var after := SalesFor(sales, sessionOf, reviews[id := outcome], session);
      && |after| == |before|
      && forall k :: 0 <= k < |after| ==> after[k] == if before[k].id == id then before[k].(review := Some(outcome)) else before[k]
  {
    if sales != [] { SalesReviewed(sales[..|sales| - 1], sessionOf, reviews, session, id, outcome); }
  }

  lemma {:induction false} PaymentsKept(payments: seq<Sales.PaymentRow>, sessionOf: map<nat, nat>, session: nat, id: nat)
    requires forall k :: 0 <= k < |payments| ==> payments[k].saleId != id
    ensures PaymentsFor(payments, sessionOf[id := session], session) == PaymentsFor(payments, sessionOf, session)
  {
    if payments != [] { PaymentsKept(payments[..|payments| - 1], sessionOf, session, id); }
  }

  /** A sale's own payments, behind the rest. */
  lemma {:induction false} PaymentsAppended(payments: seq<Sales.PaymentRow>, sessionOf: map<nat, nat>, session: nat,
                                            id: nat, attempts: seq<Attempt>)
    requires OnShift(sessionOf, id, session)
    ensures PaymentsFor(payments + Sales.PaymentRowsOf(id, attempts), sessionOf, session)
         == PaymentsFor(payments, sessionOf, session) + D.PaymentsOf(id, attempts)
    decreases |attempts|
  {
    if attempts == [] {
      assert payments + Sales.PaymentRowsOf(id, attempts) == payments;
      assert D.PaymentsOf(id, attempts) == [];
    } else {
      var n := |attempts| - 1;
      PaymentsAppended(payments, sessionOf, session, id, attempts[..n]);
      var before, rows := Sales.PaymentRowsOf(id, attempts[..n]), Sales.PaymentRowsOf(id, attempts);
      if attempts[n].state == Approved {
        assert (payments + rows)[..|payments + rows| - 1] == payments + before;
        assert D.PaymentsOf(id, attempts) == D.PaymentsOf(id, attempts[..n]) + [S.AsPayment(rows[|rows| - 1])];
      } else {
        assert rows == before;
        assert D.PaymentsOf(id, attempts) == D.PaymentsOf(id, attempts[..n]);
      }
    }
  }

  lemma SoldRow(id: nat, openedAt: int, s: R.CartState)
    ensures S.AsSale(Sales.SaleRowOf(id, openedAt, s), None) == D.Sale(id, s, None).Row()
  {
  }

  /** A sale posted on the shift, behind those already there. */
  lemma SoldTells(r: Rows, session: nat, sales: seq<D.Sale>, id: nat, openedAt: int, s: R.CartState)
    requires Sales.Sound(r.sales, r.sessionOf, r.payments) && id !in r.sessionOf && id !in r.reviews
    requires r.SalesOf(session) == D.RowsOf(sales)
    ensures WithSale(r, session, id, openedAt, s).SalesOf(session) == D.RowsOf(sales + [D.Sale(id, s, None)])
  {
    SoldRow(id, openedAt, s);
    NotStored(r, id);
    hide Sales.PaymentRowsOf, Sales.SaleRowOf, D.Sale.Row, Sales.Sound, SalesFor, S.AsSale, D.RowsOf;
    SalesAppended(r.sales, r.sessionOf, r.reviews, session, id);
    OneSaleMore(r.sales, r.sessionOf[id := session], r.reviews, session, Sales.SaleRowOf(id, openedAt, s));
    OneRowMore(sales, D.Sale(id, s, None));
  }

  lemma OneSaleMore(sales: seq<Sales.SaleRow>, sessionOf: map<nat, nat>, reviews: map<nat, S.Outcome>, session: nat, row: Sales.SaleRow)
    requires OnShift(sessionOf, row.id, session)
    ensures SalesFor(sales + [row], sessionOf, reviews, session)
         == SalesFor(sales, sessionOf, reviews, session) + [S.AsSale(row, ReviewOf(reviews, row.id))]
  {
    assert (sales + [row])[..|sales|] == sales;
  }

  lemma OneRowMore(sales: seq<D.Sale>, sale: D.Sale)
    ensures D.RowsOf(sales + [sale]) == D.RowsOf(sales) + [sale.Row()]
  {
  }

  lemma PaidTells(r: Rows, session: nat, sales: seq<D.Sale>, id: nat, openedAt: int, s: R.CartState)
    requires Sales.Sound(r.sales, r.sessionOf, r.payments) && id !in r.sessionOf
    requires r.PaymentsOf(session) == D.AllPayments(sales)
    ensures WithSale(r, session, id, openedAt, s).PaymentsOf(session) == D.AllPayments(sales + [D.Sale(id, s, None)])
  {
    PaymentsKept(r.payments, r.sessionOf, session, id);
    hide D.PaymentsOf, Sales.PaymentRowsOf, Sales.SaleRowOf, Sales.Sound, PaymentsFor;
    PaymentsAppended(r.payments, r.sessionOf[id := session], session, id, s.attempts);
    assert (sales + [D.Sale(id, s, None)])[..|sales|] == sales;
  }

  lemma PostTells(r: Rows, session: nat, t: D.Till, k: nat, now: int, openedAt: int)
    requires D.WellFormed(t) && D.Allowed(t, D.Post(k, now)) && InStep(r, session, t)
    ensures Tells(Written(r, session, t, D.Post(k, now), openedAt), session, D.Next(t, D.Post(k, now)))
  {
    hide D.WellFormed, R.Looked, R.CartState.IsSettled, R.CartState.ChangeFor, D.PaymentsOf, Sales.PaymentRowsOf, Sales.SaleRowOf,
      SalesFor, PaymentsFor, D.RowsOf, D.AllPayments, Sales.Sound, D.Without;
    SoldTells(r, session, t.sales, t.carts[k].id, openedAt, R.Looked(t.carts[k].state, now));
    PaidTells(r, session, t.sales, t.carts[k].id, openedAt, R.Looked(t.carts[k].state, now));
  }

  lemma {:induction false} PaymentsUnreviewed(sales: seq<D.Sale>, k: nat, outcome: S.Outcome)
    requires k < |sales|
    ensures D.AllPayments(sales[k := sales[k].(review := Some(outcome))]) == D.AllPayments(sales)
  {
    var n := |sales| - 1;
    var reviewed := sales[k := sales[k].(review := Some(outcome))];
    if k == n {
      assert reviewed[..n] == sales[..n];
    } else {
      assert reviewed[..n] == sales[..n][k := sales[k].(review := Some(outcome))];
      PaymentsUnreviewed(sales[..n], k, outcome);
    }
  }

  lemma ReviewTells(r: Rows, session: nat, t: D.Till, k: nat, outcome: S.Outcome)
    requires D.WellFormed(t) && D.Allowed(t, D.Review(k, outcome)) && InStep(r, session, t)
    ensures Tells(r.(reviews := r.reviews[t.sales[k].id := outcome]), session, D.Next(t, D.Review(k, outcome)))
  {
    hide R.Inv, R.CartState.IsSettled, SalesFor, PaymentsFor, MovementsFor, D.AllPayments, Sales.Sound;
    SalesReviewed(r.sales, r.sessionOf, r.reviews, session, t.sales[k].id, outcome);
    PaymentsUnreviewed(t.sales, k, outcome);
    var t' := D.Next(t, D.Review(k, outcome));
    forall j | 0 <= j < |t.sales|
      ensures D.RowsOf(t'.sales)[j] == if t.sales[j].id == t.sales[k].id then D.RowsOf(t.sales)[j].(review := Some(outcome)) else D.RowsOf(t.sales)[j]
    {
    }
  }

  lemma MovementTells(r: Rows, session: nat, t: D.Till, m: S.Movement)
    requires r.MovementsOf(session) == t.movements
    ensures MovementsFor(r.movements + [(session, m)], session) == t.movements + [m]
  {
    assert (r.movements + [(session, m)])[..|r.movements|] == r.movements;
  }

  lemma PostShape(r: Rows, session: nat, t: D.Till, k: nat, now: int, openedAt: int)
    requires D.WellFormed(t) && D.Allowed(t, D.Post(k, now))
    ensures Written(r, session, t, D.Post(k, now), openedAt)
         == WithSale(r, session, t.carts[k].id, openedAt, R.Looked(t.carts[k].state, now))
    ensures D.Next(t, D.Post(k, now)).carts == D.Without(t.carts, k)
  {
    hide D.WellFormed, R.Looked, R.CartState.IsSettled, R.CartState.ChangeFor, WithSale, D.Without;
  }

  lemma PostInStep(r: Rows, session: nat, t: D.Till, k: nat, now: int, openedAt: int)
    requires D.WellFormed(t) && D.Allowed(t, D.Post(k, now)) && InStep(r, session, t)
    ensures InStep(Written(r, session, t, D.Post(k, now), openedAt), session, D.Next(t, D.Post(k, now)))
  {
    assert k < |t.carts| && t.carts[k].id !in r.sessionOf && Sales.Sound(r.sales, r.sessionOf, r.payments);
    RestUnposted(r, t, k);
    hide *;
    PostShape(r, session, t, k, now, openedAt);
    PostTells(r, session, t, k, now, openedAt);
    WithSaleSound(r, session, t.carts[k].id, openedAt, R.Looked(t.carts[k].state, now));
    StillInStep(r, Written(r, session, t, D.Post(k, now), openedAt), session, t, D.Next(t, D.Post(k, now)), t.carts[k].id);
  }

  lemma StillInStep(r: Rows, r': Rows, session: nat, t: D.Till, t': D.Till, id: nat)
    requires InStep(r, session, t) && Tells(r', session, t') && Sales.Sound(r'.sales, r'.sessionOf, r'.payments)
    requires r'.sessionOf == r.sessionOf[id := session] && r'.reviews == r.reviews
    requires forall j :: 0 <= j < |t'.carts| ==> t'.carts[j].id !in r.sessionOf && t'.carts[j].id != id
    ensures InStep(r', session, t')
  {
    hide Tells, Sales.Sound;
  }

  lemma WithSaleSound(r: Rows, session: nat, id: nat, openedAt: int, s: R.CartState)
    requires Sales.Sound(r.sales, r.sessionOf, r.payments) && id !in r.sessionOf
    ensures var r' := WithSale(r, session, id, openedAt, s);
      Sales.Sound(r'.sales, r'.sessionOf, r'.payments) && r'.sessionOf == r.sessionOf[id := session] && r'.reviews == r.reviews
  {
    hide Sales.SaleRowOf, Sales.PaymentRowsOf;
    NotStored(r, id);
    hide Sales.Sound;
    Sales.SoundPosted(r.sales, r.sessionOf, r.payments, Sales.SaleRowOf(id, openedAt, s), session, s.attempts);
  }

  lemma NotStored(r: Rows, id: nat)
    requires Sales.Sound(r.sales, r.sessionOf, r.payments) && id !in r.sessionOf
    ensures forall j :: 0 <= j < |r.sales| ==> r.sales[j].id != id
  {
  }

  lemma RestUnposted(r: Rows, t: D.Till, k: nat)
    requires D.WellFormed(t) && k < |t.carts| && forall j :: 0 <= j < |t.carts| ==> t.carts[j].id !in r.sessionOf
    ensures forall j :: 0 <= j < |D.Without(t.carts, k)| ==>
      D.Without(t.carts, k)[j].id !in r.sessionOf && D.Without(t.carts, k)[j].id != t.carts[k].id
  {
    D.WithoutKeeps(t, k);
    hide D.WellFormed, D.Without;
    var rest := D.Without(t.carts, k);
    forall j | 0 <= j < |rest| ensures rest[j].id !in r.sessionOf { assert rest[j] in t.carts; }
  }

  lemma ReviewInStep(r: Rows, session: nat, t: D.Till, k: nat, outcome: S.Outcome)
    requires D.WellFormed(t) && D.Allowed(t, D.Review(k, outcome)) && InStep(r, session, t)
    ensures InStep(r.(reviews := r.reviews[t.sales[k].id := outcome]), session, D.Next(t, D.Review(k, outcome)))
  {
    ReviewTells(r, session, t, k, outcome);
    Stored(r, session, t, k);
    hide D.WellFormed, Tells, Sales.Sound, D.Sale.NeedsReview;
  }

  /** A sale of the shift is on it in the tables. */
  lemma Stored(r: Rows, session: nat, t: D.Till, k: nat)
    requires Tells(r, session, t) && k < |t.sales|
    ensures OnShift(r.sessionOf, t.sales[k].id, session)
  {
    hide R.CartState.ChangeFor, SalesFor;
    assert r.SalesOf(session)[k].id == t.sales[k].id;
    AllOnShift(r.sales, r.sessionOf, r.reviews, session);
  }

  lemma {:induction false} AllOnShift(sales: seq<Sales.SaleRow>, sessionOf: map<nat, nat>, reviews: map<nat, S.Outcome>, session: nat)
    ensures forall k :: 0 <= k < |SalesFor(sales, sessionOf, reviews, session)| ==>
      OnShift(sessionOf, SalesFor(sales, sessionOf, reviews, session)[k].id, session)
  {
    if sales != [] { AllOnShift(sales[..|sales| - 1], sessionOf, reviews, session); }
  }

  /** Every step of the shift, written down as the services write it, keeps the tables telling of it. */
  lemma {:induction false} StepTells(r: Rows, session: nat, t: D.Till, a: D.Step, openedAt: int)
    requires D.WellFormed(t) && D.Allowed(t, a) && InStep(r, session, t)
    requires a.Begin? ==> a.id !in r.sessionOf
    ensures InStep(Written(r, session, t, a, openedAt), session, D.Next(t, a))
  {
    match a
    case Post(k, now) => PostInStep(r, session, t, k, now, openedAt);
    case Review(k, outcome) => ReviewInStep(r, session, t, k, outcome);
    case MoveCash(direction, amount) =>
      MovementTells(r, session, t, S.Movement(direction, amount));
      hide D.WellFormed, Sales.Sound, SalesFor, PaymentsFor, MovementsFor, D.RowsOf, D.AllPayments;
    case _ => OtherInStep(r, session, t, a);
  }

  lemma OtherInStep(r: Rows, session: nat, t: D.Till, a: D.Step)
    requires D.WellFormed(t) && D.Allowed(t, a) && InStep(r, session, t)
    requires (a.Begin? && a.id !in r.sessionOf) || a.AtCart? || a.Discard?
    ensures InStep(r, session, D.Next(t, a))
  {
    if a.AtCart? { D.CartSound(t, a.k); }
    if a.Discard? { RestUnposted(r, t, a.k); }
    hide D.WellFormed, Sales.Sound, Tells, R.Act, D.CashTaken, CashHanded, R.FreshId, D.UsesId, D.Without;
    var t' := D.Next(t, a);
    assert t'.sales == t.sales && t'.movements == t.movements;
    assert Tells(r, session, t') by { SameTale(r, session, t, t'); }
  }

  lemma SameTale(r: Rows, session: nat, t: D.Till, t': D.Till)
    requires Tells(r, session, t) && t'.sales == t.sales && t'.movements == t.movements
    ensures Tells(r, session, t')
  {
  }

  // ---- A day of it ----

  /** A step of this shift, or a review of a sale of an earlier one. */
  datatype Turn = OfShift(step: D.Step, openedAt: int) | OfAnother(sale: nat, outcome: S.Outcome)

  datatype Day = Day(rows: Rows, till: D.Till)

  ghost predicate Sound(d: Day, session: nat) {
    D.WellFormed(d.till) && D.Conserved(d.till) && InStep(d.rows, session, d.till)
  }

  ghost predicate Allowed(d: Day, session: nat, turn: Turn)
    requires D.WellFormed(d.till)
  {
    match turn
    case OfShift(a, _) => D.Allowed(d.till, a) && (a.Begin? ==> a.id !in d.rows.sessionOf)
    case OfAnother(sale, _) => sale in d.rows.sessionOf && d.rows.sessionOf[sale] != session
  }

  ghost function Next(d: Day, session: nat, turn: Turn): Day
    requires D.WellFormed(d.till) && Allowed(d, session, turn)
  {
    match turn
    case OfShift(a, openedAt) => Day(Written(d.rows, session, d.till, a, openedAt), D.Next(d.till, a))
    case OfAnother(sale, outcome) => d.(rows := d.rows.(reviews := d.rows.reviews[sale := outcome]))
  }

  lemma AnotherTells(r: Rows, session: nat, t: D.Till, sale: nat, outcome: S.Outcome)
    requires InStep(r, session, t) && sale in r.sessionOf && r.sessionOf[sale] != session
    ensures InStep(r.(reviews := r.reviews[sale := outcome]), session, t)
  {
    AllOnShift(r.sales, r.sessionOf, r.reviews, session);
    SalesReviewed(r.sales, r.sessionOf, r.reviews, session, sale, outcome);
    hide SalesFor, PaymentsFor, MovementsFor, Sales.Sound, D.AllPayments;
  }

  lemma FloatStays(d: Day, session: nat, turn: Turn)
    requires D.WellFormed(d.till) && Allowed(d, session, turn)
    ensures Next(d, session, turn).till.openingFloat == d.till.openingFloat
  {
    hide D.WellFormed, Written, R.Act, R.Looked, R.FreshId, D.CashTaken, R.CartState.IsSettled, D.Without;
  }

  lemma {:induction false} TurnKeeps(d: Day, session: nat, turn: Turn)
    requires Sound(d, session) && Allowed(d, session, turn)
    ensures Sound(Next(d, session, turn), session)
    ensures Next(d, session, turn).till.openingFloat == d.till.openingFloat
  {
    FloatStays(d, session, turn);
    hide D.WellFormed, D.Conserved, InStep;
    match turn
    case OfShift(a, openedAt) =>
      D.StepKeeps(d.till, a);
      StepTells(d.rows, session, d.till, a, openedAt);
    case OfAnother(sale, outcome) => AnotherTells(d.rows, session, d.till, sale, outcome);
  }

  ghost predicate Run(d: Day, session: nat, turns: seq<Turn>, d': Day)
    requires Sound(d, session)
    decreases |turns|
  {
    if turns == [] then d' == d
    else Allowed(d, session, turns[0]) && (TurnKeeps(d, session, turns[0]); Run(Next(d, session, turns[0]), session, turns[1..], d'))
  }

  lemma {:induction false} RunKeeps(d: Day, session: nat, turns: seq<Turn>, d': Day)
    requires Sound(d, session) && Run(d, session, turns, d')
    ensures Sound(d', session) && d'.till.openingFloat == d.till.openingFloat
    decreases |turns|
  {
    assert D.WellFormed(d.till);
    hide D.WellFormed, Sound, Allowed, Next;
    if turns != [] {
      TurnKeeps(d, session, turns[0]);
      RunKeeps(Next(d, session, turns[0]), session, turns[1..], d');
    }
  }

  /** A shift just opened, over whatever tables the earlier ones left. */
  lemma {:induction false} OpenedSound(r: Rows, session: nat, openingFloat: Paise)
    requires Sales.Sound(r.sales, r.sessionOf, r.payments) && forall id :: id in r.reviews ==> id in r.sessionOf
    requires forall id :: id in r.sessionOf ==> r.sessionOf[id] != session
    requires forall k :: 0 <= k < |r.movements| ==> r.movements[k].0 != session
    ensures Sound(Day(r, D.Till(openingFloat, [], [], [], openingFloat, 0)), session)
  {
    NothingYet(r, session);
    D.OpeningConserved(openingFloat);
    hide SalesFor, PaymentsFor, MovementsFor, Sales.Sound;
  }

  lemma NothingYet(r: Rows, session: nat)
    requires forall id :: id in r.sessionOf ==> r.sessionOf[id] != session
    requires forall k :: 0 <= k < |r.movements| ==> r.movements[k].0 != session
    ensures r.SalesOf(session) == [] && r.PaymentsOf(session) == [] && r.MovementsOf(session) == []
  {
    NoSales(r.sales, r.sessionOf, r.reviews, session);
    NoPayments(r.payments, r.sessionOf, session);
    NoMovements(r.movements, session);
  }

  lemma {:induction false} NoSales(sales: seq<Sales.SaleRow>, sessionOf: map<nat, nat>, reviews: map<nat, S.Outcome>, session: nat)
    requires forall id :: id in sessionOf ==> sessionOf[id] != session
    ensures SalesFor(sales, sessionOf, reviews, session) == []
  {
    if sales != [] { NoSales(sales[..|sales| - 1], sessionOf, reviews, session); }
  }

  lemma {:induction false} NoPayments(payments: seq<Sales.PaymentRow>, sessionOf: map<nat, nat>, session: nat)
    requires forall id :: id in sessionOf ==> sessionOf[id] != session
    ensures PaymentsFor(payments, sessionOf, session) == []
  {
    if payments != [] { NoPayments(payments[..|payments| - 1], sessionOf, session); }
  }

  lemma {:induction false} NoMovements(movements: seq<(nat, S.Movement)>, session: nat)
    requires forall k :: 0 <= k < |movements| ==> movements[k].0 != session
    ensures MovementsFor(movements, session) == []
  {
    if movements != [] { NoMovements(movements[..|movements| - 1], session); }
  }

  /** The figures a close works out from the tables. */
  function FiguresFrom(r: Rows, session: nat, openingFloat: Paise): S.Figures {
    S.FiguresOf(openingFloat, r.SalesOf(session), r.PaymentsOf(session), r.MovementsOf(session))
  }

  /**
    * The variance a close stores over an honest count, from the rows that posting, reviewing and moving
    * cash left, is what carts hold or were discarded with, plus what is disputed, less what was handed
    * back and what was handed short; and such a close is never refused.
    */
  lemma {:induction false} StoredVariance(d: Day, session: nat, turns: seq<Turn>, d': Day)
    requires Sound(d, session) && Run(d, session, turns, d')
    ensures S.Reportable(d'.rows.SalesOf(session), d'.rows.PaymentsOf(session), d'.rows.MovementsOf(session))
    ensures var t := d'.till;
      FiguresFrom(d'.rows, session, d.till.openingFloat).Variance(t.drawer)
        == D.HeldByCarts(t.carts) + t.abandoned + D.Disputed(t.sales) - D.HandedBack(t.sales) - D.Short(t.sales)
  {
    RunKeeps(d, session, turns, d');
    assert D.Run(d'.till, [], d'.till);
    hide D.WellFormed, D.Conserved, D.Run, S.FiguresOf, S.Reportable;
    D.DrawerConservation(d'.till, [], d'.till);
    D.AlwaysReportable(d'.till, [], d'.till);
    assert FiguresFrom(d'.rows, session, d.till.openingFloat) == D.FiguresOf(d'.till);
  }
}
