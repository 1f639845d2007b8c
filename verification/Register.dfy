/// Taking payment against a basket: the balance loop, on values.
module Register {
  import opened Wrappers
  import opened Money
  import opened Pricing
  import Tax
  import opened Payments
  import C = Cart

  /** An open cart: its basket, what has been tried, and the rounding if cash was chosen. */
  datatype CartState = CartState(cart: C.Cart, attempts: seq<Attempt>, rounding: Option<CashRounding>)
  {
    function Adjustment(): Paise { if rounding.Some? then rounding.value.adjustment else 0 }

    function RoundedTotal(): Paise { cart.Total() + Adjustment() }

    /** The rounded total less what was approved; a cart is settled when none is left. */
    function Outstanding(): Paise { RoundedTotal() - ApprovedTotal(attempts) }

    predicate IsSettled() { Outstanding() <= 0 }

    /** By how much the approved attempts overshoot the total. */
    function Overpaid(): Paise { if Outstanding() < 0 then -Outstanding() else 0 }

    /** Handed over in cash beyond the amount asked for. */
    function Surplus(): Paise {
      if CashHanded(attempts) > CashOwed(attempts) then CashHanded(attempts) - CashOwed(attempts) else 0
    }

    function ChangeFor(): Paise { Surplus() + Overpaid() }
  }

  const NEW_CART := CartState(C.EMPTY, [], None)

  /** What an operation leaves behind, and the refusal if it was refused. */
  datatype Outcome = Outcome(state: CartState, refused: Option<Error>)

  /** Looking a cart up expires its stale attempts first. */
  function Looked(s: CartState, now: int): CartState {
    s.(attempts := ExpireStale(s.attempts, now))
  }

  // ---- Taking payment ----

  /** The first choice of cash makes the rounding, out of what is owed just then; later ones keep it. */
  function WithRounding(s: CartState, means: Method): Result<CartState, Error> {
    if means == Cash && s.rounding == None then
      match RoundCashTender(s.cart.Total() - ApprovedTotal(s.attempts))
      case Ok(r) => Ok(s.(rounding := Some(r)))
      case Err(e) => Err(e)
    else Ok(s)
  }

  function NewAttempt(s: CartState, means: Method, tendered: Option<Paise>, now: int, id: nat): Attempt {
    match means
    case Cash => Attempt(id, Cash, s.Outstanding(), Approved, None, tendered)
    case Upi => Attempt(id, Upi, s.Outstanding(), Pending, Some(now + ATTEMPT_TTL), tendered)
  }

  function TakePayment(s: CartState, means: Method, tendered: Option<Paise>, now: int, id: nat): Outcome {
    var looked := Looked(s, now);
    if looked.cart.IsEmpty() then Outcome(looked, Some(EmptyBasket))
    else
      match WithRounding(looked, means)
      case Err(e) => Outcome(looked, Some(e))
      case Ok(rounded) =>
        // The rounding stays even when there turns out to be nothing to collect.
        if rounded.Outstanding() <= 0 then Outcome(rounded, Some(NothingLeftToPay))
        else
          var attempt := NewAttempt(rounded, means, tendered, now, id);
          Outcome(rounded.(attempts := rounded.attempts + [attempt]), None)
  }

  // ---- Resolving an attempt ----

  function Find(attempts: seq<Attempt>, id: nat): (r: Option<nat>)
    ensures r.Some? ==> r.value < |attempts| && attempts[r.value].id == id
    ensures r.None? ==> forall i :: 0 <= i < |attempts| ==> attempts[i].id != id
  {
    if attempts == [] then None
    else if attempts[0].id == id then Some(0)
    else
      match Find(attempts[1..], id)
      case Some(k) => Some(k + 1)
      case None =>
        assert forall i :: 1 <= i < |attempts| ==> attempts[i] == attempts[1..][i - 1];
        None
  }

  function Replaced(attempts: seq<Attempt>, a: Attempt): (r: seq<Attempt>)
    ensures |r| == |attempts|
    ensures forall i :: 0 <= i < |r| ==> r[i] == if attempts[i].id == a.id then a else attempts[i]
  {
    seq(|attempts|, i requires 0 <= i < |attempts| => if attempts[i].id == a.id then a else attempts[i])
  }

  datatype Answer = Attested(amount: Option<Paise>) | CannotTell | Abandon

  function Resolve(a: Attempt, answer: Answer): Result<Attempt, Error> {
    match answer
    case Attested(amount) => Attest(a, amount)
    case CannotTell => To(a, Unknown)
    case Abandon => CancelAttempt(a)
  }

  function ResolveAttempt(s: CartState, id: nat, answer: Answer, now: int): Outcome {
    var looked := Looked(s, now);
    match Find(s.attempts, id)
    case None => Outcome(s, Some(AttemptNotFound))
    case Some(k) =>
      match Resolve(looked.attempts[k], answer)
      case Err(e) => Outcome(looked, Some(e))
      case Ok(a) => Outcome(looked.(attempts := Replaced(looked.attempts, a)), None)
  }

  // ---- Changing the basket ----

  /** Nothing in the basket may move while an attempt is pending or any money is approved. */
  predicate IsLocked(attempts: seq<Attempt>) {
    ApprovedTotal(attempts) > 0 || HasPending(attempts)
  }

  /** Asking more off a line than its total is refused here, for one kind only; pricing caps it for any. */
  predicate DiscountTooLarge(c: C.Cart, op: C.Operation) {
    && op.GiveDiscount? && op.discount.kind == Fixed
    && |c.lines| == |c.lineNumbers|
    && (var k := C.IndexOf(c.lineNumbers, op.lineNo); k.Some? && op.discount.value > c.lines[k.value].lineTotal)
  }

  function EditBasket(s: CartState, op: C.Operation, now: int): Outcome
    requires |s.cart.lines| == |s.cart.lineNumbers|
  {
    var looked := Looked(s, now);
    if IsLocked(looked.attempts) then Outcome(looked, Some(BasketLocked))
    else if DiscountTooLarge(s.cart, op) then Outcome(looked, Some(DiscountExceedsLine))
    else
      match C.Attempted(s.cart, op)
      case Ok(c) => Outcome(looked.(cart := c), None)
      case Err(_) => Outcome(looked, Some(BasketRefused))
  }

  /**
    * A face value, once accepted, never takes more than itself off the total last shown.  It takes
    * exactly itself if and only if it fits, and either a supervisor gives it or no percentage given
    * by hand on that line moves under it.  One that does not fit is refused for its size if and only
    * if it is `Fixed` and the basket is open.  A refused one moves nothing.
    */
  lemma {:induction false} AcceptedDiscountIsExact(s: CartState, lineNo: nat, d: Discount, now: int)
    requires C.Valid(s.cart) && d.kind != Percentage && lineNo in s.cart.lineNumbers
    ensures var r := EditBasket(s, C.GiveDiscount(lineNo, d), now);
      var k := C.IndexOf(s.cart.lineNumbers, lineNo).value;
      var shown := s.cart.lines[k];
      var tooLarge := !IsLocked(Looked(s, now).attempts) && d.kind == Fixed && d.value > shown.lineTotal;
      var exact := d.value <= shown.lineTotal && (d.source == Manual || ManualCutsStand(shown.line, d.value));
      && (r.refused == Some(DiscountExceedsLine) <==> tooLarge)
      && if r.refused == None then
           && (r.state.cart.Total() == s.cart.Total() - d.value <==> exact)
           && s.cart.Total() - d.value <= r.state.cart.Total()
           && (shown.lineTotal >= 0 ==> r.state.cart.Total() <= s.cart.Total())
           && s.cart.Total() - r.state.cart.Total() == shown.lineTotal - r.state.cart.lines[k].lineTotal
         else r.state.cart == s.cart
  {
    hide IsLocked, Priced, C.IndexOf, ManualCutsStand;
    var k := C.IndexOf(s.cart.lineNumbers, lineNo).value;
    var line := s.cart.lines[k].line;
    assert s.cart.lines[k] == Priced(line);
    FaceValueComesOff(line, d);
    var raw: RawLine := line;
    var after := Priced(raw.(discounts := raw.discounts + [d]));
    C.SumOfUpdate(s.cart.lines, k, after, (p: PricedLine) => p.lineTotal);
  }

  /** Fifteen rupees off a line of ten: refused as `Fixed`, and as `Amount` accepted for ten of them. */
  lemma {:induction false} OversizedAmountIsAccepted(now: int)
    ensures
      var line: LineInput := LineInput(0, "", 1000, 1000, Tax.TaxCode("", 0), [], None);
      var s := NEW_CART.(cart := C.Append(C.EMPTY, line));
      var asAmount, asFixed: Discount := Discount(Amount, 1500, Manual), Discount(Fixed, 1500, Manual);
      var r := EditBasket(s, C.GiveDiscount(1, asAmount), now);
      && s.cart.Total() == 1000 && r.refused == None && r.state.cart.Total() == 0
      && EditBasket(s, C.GiveDiscount(1, asFixed), now).refused == Some(DiscountExceedsLine)
  {
    var line: LineInput := LineInput(0, "", 1000, 1000, Tax.TaxCode("", 0), [], None);
    var s := NEW_CART.(cart := C.Append(C.EMPTY, line));
    var asAmount: Discount := Discount(Amount, 1500, Manual);
    assert Looked(s, now).attempts == [] && !IsLocked([]);
    assert C.IndexOf([1], 1) == Some(0);
    RoundExact(1000, QUANTITY_SCALE);
    hide RoundHalfUp, Tax.ExtractInclusiveTax, AppliedIn;
    assert Ordered(line.discounts) == [];
    assert Priced(line).lineTotal == 1000;
    ManualComesOffWhatIsShown(line, asAmount);
    var raw: RawLine := line;
    var after := Priced(raw.(discounts := raw.discounts + [asAmount]));
    assert after.lineTotal == 0;
    var c := s.cart;
    var shown := Priced(line);
    assert c.lines == [shown] && c.lineNumbers == [1] && shown.lineTotal == 1000;
    assert c.lines[0 := after] == [after] && [after][..0] == [] && [shown][..0] == [];
    hide Priced, IsLocked;
    assert C.SumOf([shown], (p: PricedLine) => p.lineTotal) == 1000;
    assert c.Total() == 1000;
    assert C.Attempted(c, C.GiveDiscount(1, asAmount)) == Ok(c.(lines := [after]));
    assert c.(lines := [after]).Total() == 0;
    assert !IsLocked(Looked(s, now).attempts);
  }

  // ---- Any run on one cart ----

  datatype Event =
    | Tender(means: Method, tendered: Option<Paise>, id: nat)
    | Answer(id: nat, answer: Answer)
    | Edit(op: C.Operation)

  function Act(s: CartState, e: Event, now: int): Outcome
    requires |s.cart.lines| == |s.cart.lineNumbers|
  {
    match e
    case Tender(means, tendered, id) => TakePayment(s, means, tendered, now, id)
    case Answer(id, answer) => ResolveAttempt(s, id, answer, now)
    case Edit(op) => EditBasket(s, op, now)
  }

  /** Attempt ids are client-generated and new. */
  predicate FreshId(s: CartState, e: Event) {
    e.Tender? ==> forall i :: 0 <= i < |s.attempts| ==> s.attempts[i].id != e.id
  }

  ghost predicate CashIsFinal(s: CartState) {
    && (forall i :: 0 <= i < |s.attempts| && s.attempts[i].means == Cash ==>
          && s.attempts[i].state == Approved
          && s.IsSettled())
    && (forall i, j :: 0 <= i < j < |s.attempts| ==> !(s.attempts[i].means == Cash && s.attempts[j].means == Cash))
  }

  ghost predicate Sound(attempts: seq<Attempt>) {
    && (forall i :: 0 <= i < |attempts| ==> attempts[i].amount > 0)
    && (forall i, j :: 0 <= i < j < |attempts| ==> attempts[i].id != attempts[j].id)
  }

  ghost predicate Inv(s: CartState) {
    && C.Valid(s.cart)
    && Sound(s.attempts)
    && Abs(s.Adjustment()) <= RUPEE / 2
    && RoundedOnce(s.rounding)
    && CashIsFinal(s)
  }

  /** The rounding a cart carries is the one made of the balance it names. */
  ghost predicate RoundedOnce(rounding: Option<CashRounding>) {
    rounding.Some? ==> rounding.value.outstanding >= 0 && RoundCashTender(rounding.value.outstanding) == Ok(rounding.value)
  }

  lemma {:induction false} ApprovedSum(attempts: seq<Attempt>)
    requires forall i :: 0 <= i < |attempts| ==> attempts[i].amount > 0
    ensures ApprovedTotal(attempts) >= 0
    ensures ApprovedTotal(attempts) > 0 <==> exists i :: 0 <= i < |attempts| && attempts[i].state == Approved
    decreases |attempts|
  {
    if attempts != [] {
      var n := |attempts| - 1;
      ApprovedSum(attempts[..n]);
      if i :| 0 <= i < n && attempts[i].state == Approved { assert attempts[..n][i].state == Approved; }
      if i :| 0 <= i < n && attempts[..n][i].state == Approved { assert attempts[i].state == Approved; }
    }
  }

  lemma LookedKeeps(s: CartState, now: int)
    requires Inv(s)
    ensures Inv(Looked(s, now))
    ensures ApprovedTotal(Looked(s, now).attempts) == ApprovedTotal(s.attempts)
    ensures Looked(s, now).Outstanding() == s.Outstanding()
  {
    SumSame(s.attempts, Looked(s, now).attempts, ApprovedAmount());
  }

  /** What every operation keeps, between two states of one cart. */
  ghost predicate Onward(s: CartState, s': CartState) {
    && |s.attempts| <= |s'.attempts|
    && (forall i :: 0 <= i < |s.attempts| && s.attempts[i].state == Approved ==> s'.attempts[i] == s.attempts[i])
    && (ApprovedTotal(s.attempts) > 0 ==> s'.cart == s.cart)
    && ApprovedTotal(s.attempts) <= ApprovedTotal(s'.attempts)
    && (s.rounding.Some? ==> s'.rounding == s.rounding)
  }

  lemma TenderKeeps(s: CartState, means: Method, tendered: Option<Paise>, now: int, id: nat)
    requires Inv(s) && FreshId(s, Tender(means, tendered, id))
    ensures var s' := TakePayment(s, means, tendered, now, id).state;
      Inv(s') && Onward(s, s') && s'.cart == s.cart
  {
    hide RoundCashTender, C.Cart.Total, SumOf, C.Valid;
    LookedKeeps(s, now);
    var looked := Looked(s, now);
    if !looked.cart.IsEmpty() && WithRounding(looked, means).Ok? {
      var rounded := WithRounding(looked, means).value;
      if rounded != looked { RoundingKeeps(looked, means); }
      if rounded.Outstanding() > 0 {
        AppendKeeps(rounded, NewAttempt(rounded, means, tendered, now, id));
      }
    }
  }

  /** Choosing cash settles the rounding; a cash attempt cannot already exist when it is unset. */
  lemma RoundingKeeps(s: CartState, means: Method)
    requires Inv(s) && s.rounding == None && WithRounding(s, means).Ok?
    ensures Inv(WithRounding(s, means).value)
  {
    if means == Cash {
      var owed := s.cart.Total() - ApprovedTotal(s.attempts);
      RoundingBound(owed);
      if i :| 0 <= i < |s.attempts| && s.attempts[i].means == Cash {
        assert s.Outstanding() == owed;
        assert RoundToRupee(0) == 0;
      }
    }
  }

  lemma AppendKeeps(s: CartState, a: Attempt)
    requires Inv(s) && s.Outstanding() > 0 && a.amount == s.Outstanding()
    requires forall i :: 0 <= i < |s.attempts| ==> s.attempts[i].id != a.id
    requires if a.means == Cash then a.state == Approved else a.state == Pending
    ensures Inv(s.(attempts := s.attempts + [a]))
    ensures ApprovedTotal(s.attempts) <= ApprovedTotal(s.attempts + [a])
  {
    SumAppended(s.attempts, a, ApprovedAmount());
    hide C.Valid, C.Cart.Total, SumOf, Abs;
  }

  /** Only a pending attempt can be answered, and its answer is about the same attempt. */
  lemma AnsweredIsPending(s: CartState, id: nat, answer: Answer, now: int)
    requires Find(s.attempts, id).Some?
    ensures var k := Find(s.attempts, id).value;
      var was := Looked(s, now).attempts[k];
      && |Looked(s, now).attempts| == |s.attempts|
      && (Resolve(was, answer).Ok? ==>
            var a := Resolve(was, answer).value;
            && was.id == id && was.state == Pending
            && a.id == id && a.means == was.means && (was.amount > 0 ==> a.amount > 0))
  {
  }

  lemma AnswerKeeps(s: CartState, id: nat, answer: Answer, now: int)
    requires Inv(s)
    ensures var s' := ResolveAttempt(s, id, answer, now).state;
      Inv(s') && Onward(s, s') && s'.cart == s.cart
  {
    hide Find, Resolve, ApprovedTotal, CashIsFinal, C.Valid, Abs, CartState.Adjustment;
    LookedKeeps(s, now);
    var looked := Looked(s, now);
    if Find(s.attempts, id).Some? {
      AnsweredIsPending(s, id, answer, now);
      var k := Find(s.attempts, id).value;
      if Resolve(looked.attempts[k], answer).Ok? {
        ReplaceKeeps(looked, k, Resolve(looked.attempts[k], answer).value);
      }
    }
  }

  lemma ReplaceKeeps(s: CartState, k: nat, a: Attempt)
    requires Inv(s) && k < |s.attempts| && s.attempts[k].state == Pending
    requires a.id == s.attempts[k].id && a.means == s.attempts[k].means && a.amount > 0
    ensures var after := Replaced(s.attempts, a);
      && Inv(s.(attempts := after))
      && ApprovedTotal(s.attempts) <= ApprovedTotal(after)
      && (forall i :: 0 <= i < |after| && i != k ==> after[i] == s.attempts[i])
  {
    var after := Replaced(s.attempts, a);
    forall i | 0 <= i < |after| && i != k ensures after[i] == s.attempts[i] {
      assert s.attempts[i].id != s.attempts[k].id;
    }
    SumNotLess(s.attempts, after, ApprovedAmount());
  }

  /** With nothing approved there is no cash, and so nothing the basket's total could unsettle. */
  lemma EditedKeeps(s: CartState, c: C.Cart)
    requires Inv(s) && C.Valid(c) && ApprovedTotal(s.attempts) <= 0
    ensures Inv(s.(cart := c))
  {
    hide C.Valid, CartState.IsSettled, ApprovedTotal;
    ApprovedSum(s.attempts);
  }

  lemma LookedOnward(s: CartState, now: int, c: C.Cart)
    requires Inv(s) && (c == s.cart || ApprovedTotal(s.attempts) <= 0)
    ensures Onward(s, Looked(s, now).(cart := c))
  {
    LookedKeeps(s, now);
    hide Inv, ApprovedTotal;
  }

  lemma EditKeeps(s: CartState, op: C.Operation, now: int)
    requires Inv(s)
    ensures var s' := EditBasket(s, op, now).state;
      && Inv(s') && Onward(s, s')
      && (IsLocked(Looked(s, now).attempts) ==> s'.cart == s.cart)
  {
    LookedKeeps(s, now);
    C.PerformKeeps(s.cart, op);
    assert |s.cart.lines| == |s.cart.lineNumbers|;
    var looked := Looked(s, now);
    hide Inv, ApprovedTotal, C.Valid, Onward, C.Attempted, DiscountTooLarge, HasPending, CartState.Outstanding;
    LookedOnward(s, now, s.cart);
    if !IsLocked(looked.attempts) {
      EditedKeeps(looked, C.Perform(s.cart, op));
      LookedOnward(s, now, C.Perform(s.cart, op));
    }
    assert looked.(cart := s.cart) == looked;
  }

  lemma {:induction false} ActKeeps(s: CartState, e: Event, now: int)
    requires Inv(s) && FreshId(s, e)
    ensures Inv(Act(s, e, now).state) && Onward(s, Act(s, e, now).state)
    ensures IsLocked(Looked(s, now).attempts) ==> Act(s, e, now).state.cart == s.cart
  {
    match e
    case Tender(means, tendered, id) => TenderKeeps(s, means, tendered, now, id);
    case Answer(id, answer) => AnswerKeeps(s, id, answer, now);
    case Edit(op) => EditKeeps(s, op, now);
  }

  datatype Timed = Timed(event: Event, now: int)

  ghost predicate Run(s: CartState, events: seq<Timed>, s': CartState)
    requires Inv(s)
    decreases |events|
  {
    if events == [] then s' == s
    else
      && FreshId(s, events[0].event)
      && (ActKeeps(s, events[0].event, events[0].now);
          Run(Act(s, events[0].event, events[0].now).state, events[1..], s'))
  }

  /**
    * In every cart any run reaches: the adjustment is at most fifty paise; what was approved is
    * unchanged; once money is approved the basket never moves again; and there is at most one
    * cash attempt.
    */
  lemma {:induction false} BalanceLoop(s: CartState, events: seq<Timed>, s': CartState)
    requires Inv(s) && Run(s, events, s')
    ensures Inv(s') && Onward(s, s')
    decreases |events|
  {
    if events != [] {
      ActKeeps(s, events[0].event, events[0].now);
      var mid := Act(s, events[0].event, events[0].now).state;
      BalanceLoop(mid, events[1..], s');
    }
  }

  /** A cash attempt settles the cart for good. */
  lemma {:induction false} CashSettlesForGood(s: CartState, events: seq<Timed>, s': CartState, i: nat)
    requires Inv(s) && Run(s, events, s')
    requires i < |s.attempts| && s.attempts[i].means == Cash
    ensures s'.IsSettled() && s'.cart == s.cart && i < |s'.attempts| && s'.attempts[i] == s.attempts[i]
    ensures forall j :: 0 <= j < |s'.attempts| && s'.attempts[j].means == Cash ==> j == i
  {
    BalanceLoop(s, events, s');
    ApprovedSum(s.attempts);
    assert s'.attempts[i] == s.attempts[i];
  }

  // ---- At posting ----

  /**
    * What the customer parted with, less the change, is the rounded total, just when the cash
    * handed over covers the cash asked for; otherwise it is short by exactly the difference.
    */
  lemma PostingBalances(s: CartState)
    requires s.IsSettled()
    ensures CashHanded(s.attempts) + UpiAttested(s.attempts) - s.ChangeFor() == s.RoundedTotal()
       <==> CashHanded(s.attempts) >= CashOwed(s.attempts)
    ensures CashHanded(s.attempts) < CashOwed(s.attempts) ==>
      s.RoundedTotal() - (CashHanded(s.attempts) + UpiAttested(s.attempts) - s.ChangeFor())
        == CashOwed(s.attempts) - CashHanded(s.attempts)
  {
    ApprovedSplits(s.attempts);
  }

  // ---- Rounding that outlives a refusal ----

  /**
    * Choosing cash can be refused and still leave its rounding on the cart: just when none had
    * been made and the balance is under fifty paise, a basket given away for nothing included.
    */
  lemma {:induction false} RefusedCashLeavesRounding(s: CartState, tendered: Option<Paise>, now: int, id: nat)
    requires Inv(s) && !s.cart.IsEmpty()
    ensures var r := TakePayment(s, Cash, tendered, now, id);
      && (r.refused.Some? && r.state.rounding != s.rounding <==> s.rounding == None && 0 <= s.Outstanding() < RUPEE / 2)
      && (r.refused.Some? && r.state.rounding != s.rounding ==>
            && r.refused == Some(NothingLeftToPay) && r.state.attempts == ExpireStale(s.attempts, now)
            && r.state.cart == s.cart
            && r.state.rounding == Some(CashRounding(s.Outstanding(), 0, -s.Outstanding())))
  {
    hide C.Cart.Total, SumOf, CashIsFinal, Sound, C.Valid, ExpireStale, RoundToRupee;
    LookedKeeps(s, now);
    var owed := s.cart.Total() - ApprovedTotal(s.attempts);
    if s.rounding == None && owed >= 0 { NearestRupee(owed); }
  }

  lemma NearestRupee(amount: Paise)
    requires amount >= 0
    ensures RoundToRupee(amount) == 0 <==> amount < RUPEE / 2
    ensures RoundToRupee(amount) >= 0
  {
  }

  /**
    * Cash is asked for in whole rupees when its rounding is made there and then; under a rounding
    * made earlier, just when the balance has moved by whole rupees since.
    */
  lemma {:induction false} CashAskedWhole(s: CartState, tendered: Option<Paise>, now: int, id: nat)
    requires Inv(s) && TakePayment(s, Cash, tendered, now, id).refused == None
    ensures var after := TakePayment(s, Cash, tendered, now, id).state;
      var balance := s.cart.Total() - ApprovedTotal(s.attempts);
      var asked := after.attempts[|s.attempts|];
      && |after.attempts| == |s.attempts| + 1 && asked.means == Cash && asked.state == Approved
      && asked.amount == balance + after.Adjustment()
      && (asked.amount % RUPEE == 0 <==> s.rounding == None || (balance - s.rounding.value.outstanding) % RUPEE == 0)
  {
    hide C.Cart.Total, SumOf, CashIsFinal, Sound, C.Valid, RoundToRupee;
    LookedKeeps(s, now);
    var looked := Looked(s, now);
    var rounded := WithRounding(looked, Cash).value;
    WholeRupees(rounded.rounding.value.outstanding);
    var r := rounded.rounding.value;
    assert r.collected % RUPEE == 0 && r.adjustment == r.collected - r.outstanding;
  }

  lemma WholeRupees(outstanding: Paise)
    requires outstanding >= 0
    ensures RoundCashTender(outstanding).Ok? && RoundCashTender(outstanding).value.collected % RUPEE == 0
  {
  }

  /**
    * So a rounding left by a refusal is used on whatever any run makes of the cart: the cash then asked
    * for is the new balance less the old one, and whole just when they differ by whole rupees.
    */
  lemma {:induction false} StaleRoundingIsReused(s: CartState, first: int, events: seq<Timed>, later: CartState, second: int,
                                                tendered: Option<Paise>, ids: (nat, nat))
    requires Inv(s) && !s.cart.IsEmpty() && s.rounding == None && 0 <= s.Outstanding() < RUPEE / 2
    requires FreshId(s, Tender(Cash, tendered, ids.0))
    requires (TenderKeeps(s, Cash, tendered, first, ids.0);
              Run(TakePayment(s, Cash, tendered, first, ids.0).state, events, later))
    ensures
      var balance := later.cart.Total() - ApprovedTotal(later.attempts);
      var r := TakePayment(later, Cash, tendered, second, ids.1);
      r.refused == None ==>
        && |r.state.attempts| == |later.attempts| + 1
        && r.state.attempts[|later.attempts|].amount == balance - s.Outstanding()
        && (r.state.attempts[|later.attempts|].amount % RUPEE == 0 <==> (balance - s.Outstanding()) % RUPEE == 0)
  {
    hide Inv, TakePayment, Run, C.Cart.Total, C.Cart.IsEmpty, ApprovedTotal, CartState.Outstanding, FreshId;
    TenderKeeps(s, Cash, tendered, first, ids.0);
    RefusedCashLeavesRounding(s, tendered, first, ids.0);
    BalanceLoop(TakePayment(s, Cash, tendered, first, ids.0).state, events, later);
    if TakePayment(later, Cash, tendered, second, ids.1).refused == None {
      CashAskedWhole(later, tendered, second, ids.1);
      CashKeepsRounding(later, tendered, second, ids.1);
    }
  }

  lemma CashKeepsRounding(s: CartState, tendered: Option<Paise>, now: int, id: nat)
    ensures s.rounding.Some? ==> TakePayment(s, Cash, tendered, now, id).state.rounding == s.rounding
  {
  }
}
