/// The physical drawer over a whole shift, against what the report expects of it.
module Drawer {
  import opened Wrappers
  import opened Money
  import opened Payments
  import R = Register
  import C = Cart
  import S = Shift
  import Sales

  datatype OpenCart = OpenCart(id: nat, state: R.CartState)

  datatype Sale = Sale(id: nat, state: R.CartState, review: Option<S.Outcome>)
  {
    predicate NeedsReview() { Payments.NeedsReview(state.attempts) }

    function Row(): S.SaleRow {
      S.SaleRow(id, if NeedsReview() then S.UnderReview else S.Completed, state.RoundedTotal(), state.Adjustment(), review)
    }

    predicate Counts() { S.Counts(Row()) }

    /** Cash that stayed in the drawer from this sale. */
    function NetCash(): Paise { CashHanded(state.attempts) - state.ChangeFor() }
  }

  /** One shift: its carts, sales and movements, the coins themselves, and those left by carts since discarded. */
  datatype Till = Till(
    openingFloat: Paise, carts: seq<OpenCart>, sales: seq<Sale>, movements: seq<S.Movement>, drawer: Paise, abandoned: Paise)

  // ---- What the shift's queries return ----

  function RowsOf(sales: seq<Sale>): (rows: seq<S.SaleRow>)
    ensures |rows| == |sales|
    ensures forall k :: 0 <= k < |rows| ==> rows[k] == sales[k].Row()
  {
    seq(|sales|, k requires 0 <= k < |sales| => sales[k].Row())
  }

  function PaymentsOf(id: nat, attempts: seq<Attempt>): (rows: seq<S.PaymentRow>)
    ensures |rows| == |Sales.PaymentRowsOf(id, attempts)|
  {
    var stored := Sales.PaymentRowsOf(id, attempts);
    seq(|stored|, k requires 0 <= k < |stored| => S.AsPayment(stored[k]))
  }

  function AllPayments(sales: seq<Sale>): seq<S.PaymentRow> {
    if sales == [] then []
    else AllPayments(sales[..|sales| - 1]) + PaymentsOf(sales[|sales| - 1].id, sales[|sales| - 1].state.attempts)
  }

  function FiguresOf(t: Till): S.Figures {
    S.FiguresOf(t.openingFloat, RowsOf(t.sales), AllPayments(t.sales), t.movements)
  }

  // ---- The terms that part the drawer from the report ----

  function HeldByCarts(carts: seq<OpenCart>): Paise {
    if carts == [] then 0 else HeldByCarts(carts[..|carts| - 1]) + CashHanded(carts[|carts| - 1].state.attempts)
  }

  /** Net cash of posted sales that do not count. */
  function Disputed(sales: seq<Sale>): Paise {
    if sales == [] then 0
    else Disputed(sales[..|sales| - 1]) + if sales[|sales| - 1].Counts() then 0 else sales[|sales| - 1].NetCash()
  }

  /** Change handed back for overpaid balances on counting sales: the cash cost of a transfer that came over. */
  function HandedBack(sales: seq<Sale>): Paise {
    if sales == [] then 0
    else HandedBack(sales[..|sales| - 1]) + if sales[|sales| - 1].Counts() then sales[|sales| - 1].state.Overpaid() else 0
  }

  /** What one sale's hand-over fell short of the cash it was asked for. */
  function ShortOf(attempts: seq<Attempt>): Paise {
    if CashHanded(attempts) < CashOwed(attempts) then CashOwed(attempts) - CashHanded(attempts) else 0
  }

  /** And all counting sales': no more is checked of a tender than that it names an amount. */
  function Short(sales: seq<Sale>): Paise {
    if sales == [] then 0
    else Short(sales[..|sales| - 1]) + if sales[|sales| - 1].Counts() then ShortOf(sales[|sales| - 1].state.attempts) else 0
  }

  // ---- The machine ----

  datatype Step =
    | Begin(id: nat)
    | AtCart(k: nat, event: R.Event, now: int)
    | Post(k: nat, now: int)
    | Review(k: nat, outcome: S.Outcome)
    | MoveCash(direction: S.Direction, amount: Paise)
    | Discard(k: nat, returned: Paise)

  /** Coins that cross the counter when an event is accepted: what was handed over for a cash tender. */
  function CashTaken(s: R.CartState, e: R.Event, now: int): Paise
    requires |s.cart.lines| == |s.cart.lineNumbers|
  {
    if e.Tender? && e.means == Cash && R.Act(s, e, now).refused.None? then
      if e.tendered.Some? then e.tendered.value else CashAsked(s, now)
    else 0
  }

  /** The rounded amount the register asks for when cash is chosen. */
  function CashAsked(s: R.CartState, now: int): Paise {
    match R.WithRounding(R.Looked(s, now), Cash)
    case Ok(rounded) => rounded.Outstanding()
    case Err(_) => 0
  }

  predicate UsesId(t: Till, id: nat) {
    || (exists k :: 0 <= k < |t.carts| && t.carts[k].id == id)
    || (exists k :: 0 <= k < |t.sales| && t.sales[k].id == id)
  }

  /**
    * The steps the till accepts: ids are new, a sale posts settled and is reviewed once.  A tender may
    * name any hand-over, and a cart may be discarded with cash in it, some of which may be given back.
    */
  ghost predicate Allowed(t: Till, a: Step)
    requires WellFormed(t)
  {
    match a
    case Begin(id) => !UsesId(t, id)
    case AtCart(k, e, now) =>
      k < |t.carts| && R.FreshId(t.carts[k].state, e)
    case Post(k, now) => k < |t.carts| && R.Looked(t.carts[k].state, now).IsSettled()
    case Review(k, _) => k < |t.sales| && t.sales[k].NeedsReview() && t.sales[k].review == None
    case MoveCash(direction, amount) => !direction.Sideways? && amount > 0
    case Discard(k, _) => k < |t.carts|
  }

  function Without(carts: seq<OpenCart>, k: nat): (r: seq<OpenCart>)
    requires k < |carts|
    ensures |r| == |carts| - 1
    ensures forall c :: c in r ==> c in carts
  {
    carts[..k] + carts[k + 1..]
  }

  ghost function Next(t: Till, a: Step): Till
    requires WellFormed(t) && Allowed(t, a)
  {
    match a
    case Begin(id) => t.(carts := t.carts + [OpenCart(id, R.NEW_CART)])
    case AtCart(k, e, now) =>
      var s := t.carts[k].state;
      t.(carts := t.carts[k := OpenCart(t.carts[k].id, R.Act(s, e, now).state)], drawer := t.drawer + CashTaken(s, e, now))
    case Post(k, now) =>
      var s := R.Looked(t.carts[k].state, now);
      t.(carts := Without(t.carts, k), sales := t.sales + [Sale(t.carts[k].id, s, None)], drawer := t.drawer - s.ChangeFor())
    case Review(k, outcome) => t.(sales := t.sales[k := t.sales[k].(review := Some(outcome))])
    case MoveCash(direction, amount) =>
      t.(movements := t.movements + [S.Movement(direction, amount)],
         drawer := if direction == S.In then t.drawer + amount else t.drawer - amount)
    case Discard(k, returned) =>
      t.(carts := Without(t.carts, k), drawer := t.drawer - returned,
         abandoned := t.abandoned + CashHanded(t.carts[k].state.attempts) - returned)
  }

  // ---- What every step keeps ----

  ghost predicate WellFormed(t: Till) {
    && (forall k :: 0 <= k < |t.carts| ==> R.Inv(t.carts[k].state))
    && (forall j, k :: 0 <= j < k < |t.carts| ==> t.carts[j].id != t.carts[k].id)
    && (forall k :: 0 <= k < |t.sales| ==> t.sales[k].state.IsSettled())
    && (forall j, k :: 0 <= j < k < |t.sales| ==> t.sales[j].id != t.sales[k].id)
    && (forall j, k :: 0 <= j < |t.sales| && 0 <= k < |t.carts| ==> t.sales[j].id != t.carts[k].id)
    && (forall k :: 0 <= k < |t.movements| ==> !t.movements[k].direction.Sideways?)
  }

  function NetOf(sales: seq<Sale>): Paise {
    if sales == [] then 0 else NetOf(sales[..|sales| - 1]) + sales[|sales| - 1].NetCash()
  }

  /** Every coin in the drawer came from somewhere. */
  ghost predicate Conserved(t: Till) {
    t.drawer == t.openingFloat + S.Moved(t.movements, S.In) - S.Moved(t.movements, S.Out) 
      + HeldByCarts(t.carts) + t.abandoned + NetOf(t.sales)
  }

  lemma {:induction false} HeldUpdate(carts: seq<OpenCart>, k: nat, c: OpenCart)
    requires k < |carts|
    ensures HeldByCarts(carts[k := c]) == HeldByCarts(carts) - CashHanded(carts[k].state.attempts) + CashHanded(c.state.attempts)
  {
    var n := |carts| - 1;
    if k == n {
      assert carts[k := c][..n] == carts[..n];
    } else {
      assert carts[k := c][..n] == carts[..n][k := c];
      HeldUpdate(carts[..n], k, c);
    }
  }

  lemma {:induction false} HeldWithout(carts: seq<OpenCart>, k: nat)
    requires k < |carts|
    ensures HeldByCarts(Without(carts, k)) == HeldByCarts(carts) - CashHanded(carts[k].state.attempts)
  {
    var n := |carts| - 1;
    if k == n {
      assert Without(carts, k) == carts[..n];
    } else {
      assert Without(carts, k)[..n - 1] == Without(carts[..n], k);
      assert Without(carts, k)[n - 1] == carts[n];
      HeldWithout(carts[..n], k);
    }
  }

  lemma {:induction false} NetUpdate(sales: seq<Sale>, k: nat, s: Sale)
    requires k < |sales| && s.state == sales[k].state
    ensures NetOf(sales[k := s]) == NetOf(sales)
  {
    var n := |sales| - 1;
    if k == n {
      assert sales[k := s][..n] == sales[..n];
    } else {
      assert sales[k := s][..n] == sales[..n][k := s];
      NetUpdate(sales[..n], k, s);
    }
  }

  lemma LookedSame(s: R.CartState, now: int)
    ensures CashHanded(R.Looked(s, now).attempts) == CashHanded(s.attempts)
    ensures CashOwed(R.Looked(s, now).attempts) == CashOwed(s.attempts)
  {
    SumSame(s.attempts, R.Looked(s, now).attempts, CashHandedOf());
    SumSame(s.attempts, R.Looked(s, now).attempts, CashOwedOf());
  }

  lemma ReplacedMovesNoCash(attempts: seq<Attempt>, k: nat, a: Attempt)
    requires k < |attempts| && a.id == attempts[k].id && a.means == attempts[k].means != Cash
    requires forall i, j :: 0 <= i < j < |attempts| ==> attempts[i].id != attempts[j].id
    ensures CashHanded(R.Replaced(attempts, a)) == CashHanded(attempts)
    ensures CashOwed(R.Replaced(attempts, a)) == CashOwed(attempts)
  {
    var after := R.Replaced(attempts, a);
    forall i | 0 <= i < |attempts| ensures after[i] == attempts[i] || (i == k && after[i].means != Cash) {
      assert attempts[i].id == attempts[k].id ==> i == k;
    }
    SumSame(attempts, after, CashHandedOf());
    SumSame(attempts, after, CashOwedOf());
  }

  /** An answer is only ever about a transfer: cash is settled the moment it is taken. */
  lemma AnswerMovesNoCash(s: R.CartState, id: nat, answer: R.Answer, now: int)
    requires R.Inv(s)
    ensures var after := R.ResolveAttempt(s, id, answer, now).state.attempts;
      CashHanded(after) == CashHanded(s.attempts) && CashOwed(after) == CashOwed(s.attempts)
  {
    hide CashHanded, CashOwed, C.Valid, R.Looked, R.CartState.IsSettled, SumOf;
    LookedSame(s, now);
    R.LookedKeeps(s, now);
    var looked := R.Looked(s, now);
    if R.Find(s.attempts, id).Some? {
      R.AnsweredIsPending(s, id, answer, now);
      var k := R.Find(s.attempts, id).value;
      if R.Resolve(looked.attempts[k], answer).Ok? {
        assert looked.attempts[k].means != Cash;
        ReplacedMovesNoCash(looked.attempts, k, R.Resolve(looked.attempts[k], answer).value);
      }
    }
  }

  /** A cash tender that names what was handed over names at least what was asked; of a transfer nothing is. */
  predicate HandsOverEnough(s: R.CartState, e: R.Event, now: int) {
    e.Tender? && e.means == Cash && e.tendered.Some? ==> e.tendered.value >= CashAsked(s, now)
  }

  lemma TenderMovesCash(s: R.CartState, means: Method, tendered: Option<Paise>, id: nat, now: int)
    requires R.Inv(s)
    ensures var e := R.Tender(means, tendered, id);
      var after := R.TakePayment(s, means, tendered, now, id).state.attempts;
      && CashHanded(after) == CashHanded(s.attempts) + CashTaken(s, e, now)
      && (ShortOf(s.attempts) == 0 && HandsOverEnough(s, e, now) ==> ShortOf(after) == 0)
  {
    hide R.Inv, CashHanded, CashOwed, RoundToRupee, C.Cart.Total, ApprovedTotal, R.Looked, SumOf;
    LookedSame(s, now);
    var looked := R.Looked(s, now);
    if !looked.cart.IsEmpty() && R.WithRounding(looked, means).Ok? {
      var rounded := R.WithRounding(looked, means).value;
      if rounded.Outstanding() > 0 {
        AttemptAdds(rounded.attempts, R.NewAttempt(rounded, means, tendered, now, id));
      }
    }
  }

  lemma AttemptAdds(attempts: seq<Attempt>, a: Attempt)
    ensures CashHanded(attempts + [a]) == CashHanded(attempts) + CashHandedOf()(a)
    ensures CashOwed(attempts + [a]) == CashOwed(attempts) + CashOwedOf()(a)
  {
    SumAppended(attempts, a, CashHandedOf());
    SumAppended(attempts, a, CashOwedOf());
  }

  lemma EventMovesCash(s: R.CartState, e: R.Event, now: int)
    requires R.Inv(s)
    ensures CashHanded(R.Act(s, e, now).state.attempts) == CashHanded(s.attempts) + CashTaken(s, e, now)
    ensures ShortOf(s.attempts) == 0 && HandsOverEnough(s, e, now) ==> ShortOf(R.Act(s, e, now).state.attempts) == 0
  {
    hide CashHanded, CashOwed, R.TakePayment, R.ResolveAttempt, CashAsked;
    match e
    case Tender(means, tendered, id) => TenderMovesCash(s, means, tendered, id, now);
    case Answer(id, answer) => AnswerMovesNoCash(s, id, answer, now);
    case Edit(op) => LookedSame(s, now);
  }

  lemma ReplacedKeeps(t: Till, k: nat, after: R.CartState)
    requires WellFormed(t) && k < |t.carts| && R.Inv(after)
    ensures WellFormed(t.(carts := t.carts[k := OpenCart(t.carts[k].id, after)]))
  {
    hide R.Inv, R.CartState.IsSettled;
  }

  lemma CartSound(t: Till, k: nat)
    requires WellFormed(t) && k < |t.carts|
    ensures var s := t.carts[k].state; |s.cart.lines| == |s.cart.lineNumbers| && R.Inv(s)
  {
  }

  lemma AtCartKeeps(t: Till, a: Step)
    requires WellFormed(t) && Conserved(t) && Allowed(t, a) && a.AtCart?
    ensures WellFormed(Next(t, a)) && Conserved(Next(t, a))
  {
    CartSound(t, a.k);
    hide WellFormed, R.Act, R.Inv, R.Onward, R.IsLocked, R.Looked, CashTaken, CashAsked, CashHanded, R.FreshId, NetOf,
      HeldByCarts, S.Moved;
    var s := t.carts[a.k].state;
    R.ActKeeps(s, a.event, a.now);
    EventMovesCash(s, a.event, a.now);
    var after := R.Act(s, a.event, a.now).state;
    HeldUpdate(t.carts, a.k, OpenCart(t.carts[a.k].id, after));
    ReplacedKeeps(t, a.k, after);
    var t' := Next(t, a);
    WellFormedDespiteDrawer(t.(carts := t'.carts), t'.drawer, t'.abandoned);
  }

  lemma WellFormedDespiteDrawer(t: Till, drawer: Paise, abandoned: Paise)
    ensures WellFormed(t) ==> WellFormed(t.(drawer := drawer, abandoned := abandoned))
  {
    hide R.Inv;
  }

  lemma WithoutKeeps(t: Till, k: nat)
    requires WellFormed(t) && k < |t.carts|
    ensures WellFormed(t.(carts := Without(t.carts, k)))
    ensures forall j :: 0 <= j < |Without(t.carts, k)| ==> Without(t.carts, k)[j].id != t.carts[k].id
  {
    hide R.Inv;
    var rest := Without(t.carts, k);
    forall j | 0 <= j < |rest| ensures rest[j] == if j < k then t.carts[j] else t.carts[j + 1] {
    }
  }

  lemma SoldKeeps(t: Till, sale: Sale)
    requires WellFormed(t) && sale.state.IsSettled()
    requires forall k :: 0 <= k < |t.carts| ==> t.carts[k].id != sale.id
    requires forall k :: 0 <= k < |t.sales| ==> t.sales[k].id != sale.id
    ensures WellFormed(t.(sales := t.sales + [sale]))
    ensures NetOf(t.sales + [sale]) == NetOf(t.sales) + sale.NetCash()
  {
    hide R.Inv, R.CartState.IsSettled, Sale.NetCash;
    var sold := t.sales + [sale];
    assert sold[..|t.sales|] == t.sales;
  }

  lemma Postable(t: Till, k: nat, now: int)
    requires WellFormed(t) && k < |t.carts|
    ensures var s := R.Looked(t.carts[k].state, now);
      CashHanded(s.attempts) == CashHanded(t.carts[k].state.attempts) && ShortOf(s.attempts) == ShortOf(t.carts[k].state.attempts)
    ensures forall j :: 0 <= j < |t.sales| ==> t.sales[j].id != t.carts[k].id
  {
    hide R.Inv, R.Looked, CashHanded, CashOwed;
    LookedSame(t.carts[k].state, now);
  }

  lemma PostKeeps(t: Till, k: nat, now: int)
    requires WellFormed(t) && Conserved(t) && Allowed(t, Post(k, now))
    ensures WellFormed(Next(t, Post(k, now))) && Conserved(Next(t, Post(k, now)))
  {
    hide WellFormed, R.Inv, R.Looked, R.CartState.IsSettled, R.CartState.ChangeFor, CashHanded, CashOwed, NetOf,
      HeldByCarts, S.Moved, Without;
    var s := R.Looked(t.carts[k].state, now);
    Postable(t, k, now);
    WithoutKeeps(t, k);
    HeldWithout(t.carts, k);
    var sale := Sale(t.carts[k].id, s, None);
    var rest := t.(carts := Without(t.carts, k));
    SoldKeeps(rest, sale);
    var t' := Next(t, Post(k, now));
    assert t' == rest.(sales := t.sales + [sale], drawer := t.drawer - s.ChangeFor());
    WellFormedDespiteDrawer(rest.(sales := t.sales + [sale]), t'.drawer, t'.abandoned);
  }

  lemma BegunWellFormed(t: Till, c: OpenCart)
    requires WellFormed(t) && !UsesId(t, c.id) && R.Inv(c.state)
    ensures WellFormed(t.(carts := t.carts + [c]))
  {
    hide R.Inv, R.CartState.IsSettled;
  }

  lemma BeginKeeps(t: Till, a: Step)
    requires WellFormed(t) && Conserved(t) && Allowed(t, a) && a.Begin?
    ensures WellFormed(Next(t, a)) && Conserved(Next(t, a))
  {
    hide WellFormed, R.Inv, CashHanded, UsesId, NetOf, S.Moved;
    var c := OpenCart(a.id, R.NEW_CART);
    NewCartInv();
    BegunWellFormed(t, c);
    assert (t.carts + [c])[..|t.carts|] == t.carts;
  }

  lemma ReviewKeeps(t: Till, k: nat, outcome: S.Outcome)
    requires WellFormed(t) && Conserved(t) && Allowed(t, Review(k, outcome))
    ensures WellFormed(Next(t, Review(k, outcome))) && Conserved(Next(t, Review(k, outcome)))
  {
    hide R.Inv, CashHanded, R.CartState.ChangeFor, R.CartState.IsSettled, NetOf, HeldByCarts, S.Moved;
    NetUpdate(t.sales, k, t.sales[k].(review := Some(outcome)));
  }

  lemma MoveCashKeeps(t: Till, direction: S.Direction, amount: Paise)
    requires WellFormed(t) && Conserved(t) && Allowed(t, MoveCash(direction, amount))
    ensures WellFormed(Next(t, MoveCash(direction, amount))) && Conserved(Next(t, MoveCash(direction, amount)))
  {
    hide R.Inv, CashHanded, R.CartState.ChangeFor, R.CartState.IsSettled, NetOf, HeldByCarts;
    var moved := t.movements + [S.Movement(direction, amount)];
    assert moved[..|t.movements|] == t.movements;
  }

  lemma DiscardKeeps(t: Till, k: nat, returned: Paise)
    requires WellFormed(t) && Conserved(t) && Allowed(t, Discard(k, returned))
    ensures WellFormed(Next(t, Discard(k, returned))) && Conserved(Next(t, Discard(k, returned)))
  {
    hide WellFormed, R.Inv, CashHanded, NetOf, HeldByCarts, S.Moved, Without;
    WithoutKeeps(t, k);
    HeldWithout(t.carts, k);
    var t' := Next(t, Discard(k, returned));
    WellFormedDespiteDrawer(t.(carts := t'.carts), t'.drawer, t'.abandoned);
  }

  lemma NewCartInv()
    ensures R.Inv(R.NEW_CART) && CashHanded(R.NEW_CART.attempts) == 0
  {
  }

  lemma {:induction false} StepKeeps(t: Till, a: Step)
    requires WellFormed(t) && Conserved(t) && Allowed(t, a)
    ensures WellFormed(Next(t, a)) && Conserved(Next(t, a))
  {
    match a
    case AtCart(_, _, _) => AtCartKeeps(t, a);
    case Post(k, now) => PostKeeps(t, k, now);
    case Begin(_) => BeginKeeps(t, a);
    case Review(k, outcome) => ReviewKeeps(t, k, outcome);
    case MoveCash(direction, amount) => MoveCashKeeps(t, direction, amount);
    case Discard(k, returned) => DiscardKeeps(t, k, returned);
  }

  ghost predicate Run(t: Till, steps: seq<Step>, t': Till)
    requires WellFormed(t) && Conserved(t)
    decreases |steps|
  {
    if steps == [] then t' == t
    else Allowed(t, steps[0]) && (StepKeeps(t, steps[0]); Run(Next(t, steps[0]), steps[1..], t'))
  }

  lemma {:induction false} RunKeeps(t: Till, steps: seq<Step>, t': Till)
    requires WellFormed(t) && Conserved(t) && Run(t, steps, t')
    ensures WellFormed(t') && Conserved(t')
    decreases |steps|
  {
    hide WellFormed, Conserved;
    if steps != [] {
      StepKeeps(t, steps[0]);
      RunKeeps(Next(t, steps[0]), steps[1..], t');
    }
  }

  // ---- What the report makes of it ----

  lemma {:induction false} PaidByOne(rows: seq<S.SaleRow>, id: nat, attempts: seq<Attempt>)
    ensures S.PaidBy(rows, PaymentsOf(id, attempts), S.InCash()) == if S.CountsIn(rows, id) then CashOwed(attempts) else 0
    ensures S.PaidBy(rows, PaymentsOf(id, attempts), S.ByUpi(false)) == if S.CountsIn(rows, id) then UpiAttested(attempts) else 0
    ensures S.PaidBy(rows, PaymentsOf(id, attempts), S.ByUpi(true)) == 0
  {
    hide S.Lookup;
    if attempts != [] {
      var n := |attempts| - 1;
      PaidByOne(rows, id, attempts[..n]);
      if attempts[n].state == Approved {
        assert PaymentsOf(id, attempts)[..|PaymentsOf(id, attempts)| - 1] == PaymentsOf(id, attempts[..n]);
      } else {
        assert PaymentsOf(id, attempts) == PaymentsOf(id, attempts[..n]);
      }
    }
  }

  function CountingCash(sales: seq<Sale>): Paise {
    if sales == [] then 0
    else CountingCash(sales[..|sales| - 1]) + if sales[|sales| - 1].Counts() then CashOwed(sales[|sales| - 1].state.attempts) else 0
  }

  function CountingUpi(sales: seq<Sale>): Paise {
    if sales == [] then 0
    else
      var last := sales[|sales| - 1];
      CountingUpi(sales[..|sales| - 1]) + if last.Counts() then UpiAttested(last.state.attempts) else 0
  }

  lemma {:induction false} PaidBySales(rows: seq<S.SaleRow>, sales: seq<Sale>)
    requires forall k :: 0 <= k < |sales| ==> S.CountsIn(rows, sales[k].id) == sales[k].Counts()
    ensures S.PaidBy(rows, AllPayments(sales), S.InCash()) == CountingCash(sales)
    ensures S.PaidBy(rows, AllPayments(sales), S.ByUpi(false)) == CountingUpi(sales)
    ensures S.PaidBy(rows, AllPayments(sales), S.ByUpi(true)) == 0
  {
    hide S.CountsIn, PaymentsOf, S.PaidBy, Sale.Counts;
    if sales == [] {
      NothingPaid(rows);
    } else {
      var n := |sales| - 1;
      PaidBySales(rows, sales[..n]);
      var own := PaymentsOf(sales[n].id, sales[n].state.attempts);
      PaidByOne(rows, sales[n].id, sales[n].state.attempts);
      S.PaidByAppend(rows, AllPayments(sales[..n]), own, S.InCash());
      S.PaidByAppend(rows, AllPayments(sales[..n]), own, S.ByUpi(false));
      S.PaidByAppend(rows, AllPayments(sales[..n]), own, S.ByUpi(true));
    }
  }

  lemma NothingPaid(rows: seq<S.SaleRow>)
    ensures forall pick :: S.PaidBy(rows, [], pick) == 0
  {
  }

  lemma CountsAgree(t: Till)
    requires WellFormed(t)
    ensures S.ById(RowsOf(t.sales)) == RowsOf(t.sales)
    ensures forall k :: 0 <= k < |t.sales| ==> S.CountsIn(RowsOf(t.sales), t.sales[k].id) == t.sales[k].Counts()
  {
    hide R.Inv;
    assert S.DistinctIds(RowsOf(t.sales));
    S.ByIdDistinct(RowsOf(t.sales));
    forall k | 0 <= k < |t.sales| ensures S.CountsIn(RowsOf(t.sales), t.sales[k].id) == t.sales[k].Counts() {
      S.LookupAt(RowsOf(t.sales), k);
    }
  }

  lemma {:induction false} NetSplits(sales: seq<Sale>)
    ensures NetOf(sales) == CountingCash(sales) + Disputed(sales) - HandedBack(sales) - Short(sales)
  {
    if sales != [] { NetSplits(sales[..|sales| - 1]); }
  }

  /**
    * Drawer conservation.  Over every run of a shift the drawer holds what the report expects, plus
    * cash held by carts not yet posted and left by carts discarded, plus the net cash of posted sales
    * that do not count, less the change handed back for overpaid balances on sales that do, and less
    * what those were handed too little.
    */
  lemma {:induction false} DrawerConservation(t: Till, steps: seq<Step>, t': Till)
    requires WellFormed(t) && Conserved(t) && Run(t, steps, t')
    ensures t'.drawer == FiguresOf(t').ExpectedCash() + HeldByCarts(t'.carts) + t'.abandoned + Disputed(t'.sales)
                         - HandedBack(t'.sales) - Short(t'.sales)
    ensures FiguresOf(t').Variance(t'.drawer) == 0
       <==> HeldByCarts(t'.carts) + t'.abandoned + Disputed(t'.sales) == HandedBack(t'.sales) + Short(t'.sales)
  {
    RunKeeps(t, steps, t');
    CountsAgree(t');
    PaidBySales(RowsOf(t'.sales), t'.sales);
    NetSplits(t'.sales);
  }

  /** A shift opened on an empty till starts conserved. */
  lemma OpeningConserved(openingFloat: Paise)
    ensures var t := Till(openingFloat, [], [], [], openingFloat, 0); WellFormed(t) && Conserved(t) && NothingShort(t)
  {
  }

  // ---- A shift on which nobody slips ----

  /** Cash tenders name enough, and a discarded cart has none or gives it all back. */
  ghost predicate Honest(t: Till, a: Step)
    requires WellFormed(t) && Allowed(t, a)
  {
    match a
    case AtCart(k, e, now) => HandsOverEnough(t.carts[k].state, e, now)
    case Discard(k, returned) => returned == CashHanded(t.carts[k].state.attempts)
    case _ => true
  }

  ghost predicate HonestRun(t: Till, steps: seq<Step>)
    requires WellFormed(t) && Conserved(t)
    decreases |steps|
  {
    steps != [] ==>
      && Allowed(t, steps[0]) && Honest(t, steps[0])
      && (StepKeeps(t, steps[0]); HonestRun(Next(t, steps[0]), steps[1..]))
  }

  ghost predicate NothingShort(t: Till) {
    && (forall k :: 0 <= k < |t.carts| ==> ShortOf(t.carts[k].state.attempts) == 0)
    && (forall k :: 0 <= k < |t.sales| ==> ShortOf(t.sales[k].state.attempts) == 0)
    && t.abandoned == 0
  }

  lemma HonestKeeps(t: Till, a: Step)
    requires WellFormed(t) && NothingShort(t) && Allowed(t, a) && Honest(t, a)
    ensures NothingShort(Next(t, a))
  {
    if a.AtCart? {
      CartSound(t, a.k);
      hide WellFormed, R.Act, R.Inv, R.FreshId, CashTaken, HandsOverEnough, ShortOf, CashHanded;
      EventMovesCash(t.carts[a.k].state, a.event, a.now);
    } else if a.Post? {
      Postable(t, a.k, a.now);
      hide WellFormed, R.Looked, R.CartState.IsSettled, ShortOf, CashHanded;
    } else {
      hide WellFormed, R.Inv, UsesId, CashHanded, CashOwed;
      NewCartInv();
    }
  }

  lemma {:induction false} NoneShort(sales: seq<Sale>)
    requires forall k :: 0 <= k < |sales| ==> ShortOf(sales[k].state.attempts) == 0
    ensures Short(sales) == 0
  {
    if sales != [] { NoneShort(sales[..|sales| - 1]); }
  }

  lemma {:induction false} HonestRunKeeps(t: Till, steps: seq<Step>, t': Till)
    requires WellFormed(t) && Conserved(t) && NothingShort(t) && Run(t, steps, t') && HonestRun(t, steps)
    ensures NothingShort(t')
    decreases |steps|
  {
    hide WellFormed, Conserved, NothingShort;
    if steps != [] {
      StepKeeps(t, steps[0]);
      HonestKeeps(t, steps[0]);
      HonestRunKeeps(Next(t, steps[0]), steps[1..], t');
    }
  }

  /** Then three terms are left: what carts hold, what is disputed, and what was handed back. */
  lemma {:induction false} HonestShift(t: Till, steps: seq<Step>, t': Till)
    requires WellFormed(t) && Conserved(t) && NothingShort(t) && Run(t, steps, t') && HonestRun(t, steps)
    ensures t'.drawer == FiguresOf(t').ExpectedCash() + HeldByCarts(t'.carts) + Disputed(t'.sales) - HandedBack(t'.sales)
  {
    HonestRunKeeps(t, steps, t');
    DrawerConservation(t, steps, t');
    NoneShort(t'.sales);
  }

  lemma {:induction false} PaymentsPlaceable(rows: seq<S.SaleRow>, sales: seq<Sale>)
    requires forall k :: 0 <= k < |sales| ==> S.Lookup(rows, sales[k].id).Some?
    ensures forall k :: 0 <= k < |AllPayments(sales)| ==> S.Placeable(rows, AllPayments(sales)[k])
  {
    hide S.Lookup;
    if sales != [] {
      var n := |sales| - 1;
      PaymentsPlaceable(rows, sales[..n]);
      OwnedPayments(sales[n].id, sales[n].state.attempts);
    }
  }

  lemma {:induction false} OwnedPayments(id: nat, attempts: seq<Attempt>)
    ensures forall k :: 0 <= k < |PaymentsOf(id, attempts)| ==>
      PaymentsOf(id, attempts)[k].saleId == id && PaymentsOf(id, attempts)[k].tender.Known?
  {
    if attempts != [] {
      var n := |attempts| - 1;
      OwnedPayments(id, attempts[..n]);
      var stored := Sales.PaymentRowsOf(id, attempts);
      forall k | 0 <= k < |stored| ensures stored[k].saleId == id {
        if k < |PaymentsOf(id, attempts[..n])| { assert PaymentsOf(id, attempts[..n])[k].saleId == id; }
      }
    }
  }

  /** A shift's report is never refused: the till writes no row the report cannot place. */
  lemma AlwaysReportable(t: Till, steps: seq<Step>, t': Till)
    requires WellFormed(t) && Conserved(t) && Run(t, steps, t')
    ensures S.Reportable(RowsOf(t'.sales), AllPayments(t'.sales), t'.movements)
  {
    RunKeeps(t, steps, t');
    CountsAgree(t');
    var rows := RowsOf(t'.sales);
    forall k | 0 <= k < |t'.sales| ensures S.Lookup(rows, t'.sales[k].id).Some? { S.LookupAt(rows, k); }
    PaymentsPlaceable(rows, t'.sales);
  }

  // ---- Takings against the sales ----

  function GrandTotals(sales: seq<Sale>): Paise {
    if sales == [] then 0
    else GrandTotals(sales[..|sales| - 1]) + if sales[|sales| - 1].Counts() then sales[|sales| - 1].state.RoundedTotal() else 0
  }

  lemma {:induction false} TakenIsTotals(sales: seq<Sale>)
    requires forall k :: 0 <= k < |sales| ==> sales[k].state.IsSettled()
    ensures CountingCash(sales) + CountingUpi(sales) == GrandTotals(sales) + HandedBack(sales)
  {
    if sales != [] {
      TakenIsTotals(sales[..|sales| - 1]);
      ApprovedSplits(sales[|sales| - 1].state.attempts);
    }
  }

  /** Takings are the counting sales' totals, and whatever transfers came over them. */
  lemma {:induction false} TakingsExplained(t: Till, steps: seq<Step>, t': Till)
    requires WellFormed(t) && Conserved(t) && Run(t, steps, t')
    ensures FiguresOf(t').Takings() == GrandTotals(t'.sales) + HandedBack(t'.sales)
    ensures FiguresOf(t').upiVerified == 0
  {
    RunKeeps(t, steps, t');
    CountsAgree(t');
    PaidBySales(RowsOf(t'.sales), t'.sales);
    TakenIsTotals(t'.sales);
  }
}
