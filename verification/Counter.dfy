/// The open cart as the services change it: every method against its specification on values.
module Counter {
  import opened Wrappers
  import opened Money
  import opened Payments
  import R = Register
  import C = Cart
  import opened Sales
  import Y = SyncStore

  class OpenCart {
    var cart: C.Cart
    var attempts: seq<Attempt>
    var rounding: Option<CashRounding>

    constructor ()
      ensures State() == R.NEW_CART
    {
      cart, attempts, rounding := C.EMPTY, [], None;
    }

    ghost function State(): R.CartState
      reads this
    {
      R.CartState(cart, attempts, rounding)
    }

    function Outstanding(): Paise
      reads this
    {
      R.CartState(cart, attempts, rounding).Outstanding()
    }

    /**
      * Every lookup of a cart times out its stale attempts first: each pending one that is overdue and
      * no other.  None is overdue afterwards, and what is owed and what was approved are as they were.
      */
    method Expire(now: int)
      modifies `attempts
      ensures State() == R.Looked(old(State()), now)
      ensures |attempts| == |old(attempts)|
      ensures forall i :: 0 <= i < |attempts| ==> !IsExpiredAt(attempts[i], now) && (attempts[i] != old(attempts)[i] ==>
        IsExpiredAt(old(attempts)[i], now) && attempts[i] == old(attempts)[i].(state := Expired))
      ensures State().Outstanding() == old(State().Outstanding()) && ApprovedTotal(attempts) == ApprovedTotal(old(attempts))
    {
      SumSame(attempts, ExpireStale(attempts, now), ApprovedAmount());
      attempts := ExpireStale(attempts, now);
    }

    method TakePayment(means: Method, tendered: Option<Paise>, now: int, id: nat) returns (refused: Option<Error>)
      modifies `attempts, `rounding
      ensures R.Outcome(State(), refused) == R.TakePayment(old(State()), means, tendered, now, id)
    {
      Expire(now);
      if cart.IsEmpty() { return Some(EmptyBasket); }
      if means == Cash && rounding == None {
        var quoted := RoundCashTender(cart.Total() - ApprovedTotal(attempts));
        match quoted {
          case Err(e) => return Some(e);
          case Ok(r) => rounding := Some(r);
        }
      }
      var outstanding := Outstanding();
      if outstanding <= 0 { return Some(NothingLeftToPay); }
      var begun := Attempt(id, means, outstanding, Pending, if means == Cash then None else Some(now + ATTEMPT_TTL), tendered);
      // A cash attempt starts out approved; a transfer stays pending until somebody answers for it.
      if means == Cash { begun := begun.(state := Approved); }
      attempts := attempts + [begun];
      refused := None;
    }

    /** What the cashier says about an attempt: the money came, nobody can tell, or give it up. */
    method Settle(id: nat, answer: R.Answer, now: int) returns (refused: Option<Error>)
      modifies `attempts
      ensures R.Outcome(State(), refused) == R.ResolveAttempt(old(State()), id, answer, now)
    {
      var found := R.Find(attempts, id);
      if found == None { return Some(AttemptNotFound); }
      Expire(now);
      match R.Resolve(attempts[found.value], answer) {
        case Err(e) => return Some(e);
        case Ok(resolved) => attempts := R.Replaced(attempts, resolved);
      }
      refused := None;
    }

    method Change(op: C.Operation, now: int) returns (refused: Option<Error>)
      requires |cart.lines| == |cart.lineNumbers|
      modifies `attempts, `cart
      ensures R.Outcome(State(), refused) == R.EditBasket(old(State()), op, now)
    {
      Expire(now);
      if R.IsLocked(attempts) { return Some(BasketLocked); }
      if R.DiscountTooLarge(cart, op) { return Some(DiscountExceedsLine); }
      match C.Attempted(cart, op) {
        case Err(_) => return Some(BasketRefused);
        case Ok(c) => cart := c;
      }
      refused := None;
    }

    /** Change owed: cash handed over beyond what was asked, and anything collected beyond the balance. */
    method ChangeFor(now: int) returns (change: Paise)
      modifies `attempts
      ensures State() == R.Looked(old(State()), now) && change == State().ChangeFor()
    {
      Expire(now);
      var handed, owed := 0, 0;
      for k := 0 to |attempts|
        invariant handed == CashHanded(attempts[..k]) && owed == CashOwed(attempts[..k])
      {
        assert attempts[..k + 1][..k] == attempts[..k];
        var a := attempts[k];
        if a.means == Cash && a.state == Approved {
          owed := owed + a.amount;
          handed := handed + if a.tendered.Some? then a.tendered.value else a.amount;
        }
      }
      assert attempts[..|attempts|] == attempts;
      change := (if handed > owed then handed - owed else 0) + if Outstanding() < 0 then -Outstanding() else 0;
    }
  }

  /**
    * Commits a settled cart to the open shift in one transaction.  An UNKNOWN attempt does not
    * let an unsettled one through; it only changes the status of the sale it is part of.
    */
  method Post(open: OpenCart, db: SalesRepository, id: nat, openedAt: int, shift: Option<nat>, now: int, ids: seq<nat>)
    returns (refused: Option<PostError>, change: Paise)
    requires |open.cart.lines| == |open.cart.lineNumbers| == |ids|
    requires db.Valid() && Y.FreshFor(db.db.T(), ids)
    modifies open`attempts, db, db.db
    ensures db.Valid() && open.State() == R.Looked(old(open.State()), now)
    ensures refused ==
      if !open.State().IsSettled() then Some(SaleNotSettled)
      else if shift == None then Some(NoOpenShift)
      else if old(db.Has(id)) then Some(DuplicateSale)
      else None
    ensures refused.Some? ==>
      && db.Contents() == old(db.Contents()) && db.attempts == old(db.attempts) && db.audit == old(db.audit)
      && db.sessionOf == old(db.sessionOf) && db.db.T() == old(db.db.T())
    ensures refused.None? ==>
      && change == open.State().ChangeFor()
      && db.Contents() == Posted(old(db.Contents()), id, openedAt, open.State())
      && db.sessionOf == old(db.sessionOf)[id := shift.value]
      && TotalsBalance(SaleRowOf(id, openedAt, open.State()), LineRowsOf(id, open.cart), PaymentRowsOf(id, open.attempts))
      && db.attempts == old(db.attempts) + AttemptRowsOf(id, open.attempts)
      && Y.Takes(old(db.db.T()), Y.PostSale(id, StockRowsOf(id, open.cart.lines, db.tracks, ids)), db.db.T())
  {
    change := 0;
    open.Expire(now);
    if open.Outstanding() > 0 { return Some(SaleNotSettled), 0; }
    if shift == None { return Some(NoOpenShift), 0; }
    change := open.ChangeFor(now);
    var s := R.CartState(open.cart, open.attempts, open.rounding);
    PostedBalances(id, openedAt, s);
    refused := db.PostSale(id, openedAt, s, shift.value, ids);
  }
}
