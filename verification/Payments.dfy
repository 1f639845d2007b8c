/// Payment attempts, cash rounding and the balance: the pure pieces of taking payment.
module Payments {
  import opened Wrappers
  import opened Money

  datatype Method = Cash | Upi

  datatype State = Pending | Approved | Declined | Cancelled | Expired | Unknown

  /** One try at collecting money for a cart.  Times are whole seconds. */
  datatype Attempt = Attempt(
    id: nat, means: Method, amount: Paise, state: State, expiresAt: Option<int>, tendered: Option<Paise>)

  datatype Error =
    | IllegalTransition | AmountNotPositive | AttemptNotFound | AlreadyTaken
    | EmptyBasket | NothingLeftToPay | NegativeTender | BasketLocked | DiscountExceedsLine | BasketRefused

  const ATTEMPT_TTL := 300

  // ---- Cash rounding ----

  datatype CashRounding = CashRounding(outstanding: Paise, collected: Paise, adjustment: Paise)

  function RoundToRupee(amount: Paise): Paise {
    RoundHalfUp(amount, RUPEE) * RUPEE
  }

  function RoundCashTender(outstanding: Paise): Result<CashRounding, Error> {
    if outstanding < 0 then Err(NegativeTender)
    else Ok(CashRounding(outstanding, RoundToRupee(outstanding), RoundToRupee(outstanding) - outstanding))
  }

  /** Nearest-rupee rounding moves an amount by at most fifty paise, and up on a tie. */
  lemma RoundingBound(outstanding: Paise)
    requires outstanding >= 0
    ensures var r := RoundCashTender(outstanding).value;
      && r.collected % RUPEE == 0 && r.collected >= 0
      && r.outstanding + r.adjustment == r.collected
      && Abs(r.adjustment) <= RUPEE / 2
      && (Abs(r.adjustment) == RUPEE / 2 ==> r.adjustment > 0)
  {
    RoundNonNegative(outstanding, RUPEE);
  }

  // ---- Transitions ----

  predicate CanTransition(current: State, target: State) {
    current == Pending && target != Pending
  }

  function To(a: Attempt, target: State): Result<Attempt, Error> {
    if CanTransition(a.state, target) then Ok(a.(state := target)) else Err(IllegalTransition)
  }

  /** Somebody says a transfer came, and may name another amount. */
  function Attest(a: Attempt, amount: Option<Paise>): Result<Attempt, Error> {
    var paid := if amount.Some? then amount.value else a.amount;
    if paid <= 0 then Err(AmountNotPositive)
    else
      match To(a, Approved)
      case Ok(b) => Ok(b.(amount := paid))
      case Err(e) => Err(e)
  }

  /** Both providers refuse to cancel money already taken. */
  function CancelAttempt(a: Attempt): Result<Attempt, Error> {
    if a.state == Approved then Err(AlreadyTaken) else To(a, Cancelled)
  }

  predicate IsExpiredAt(a: Attempt, when: int) {
    a.state == Pending && a.expiresAt.Some? && when >= a.expiresAt.value
  }

  function ExpireStale(attempts: seq<Attempt>, now: int): (r: seq<Attempt>)
    ensures |r| == |attempts|
    ensures forall i :: 0 <= i < |r| ==>
      r[i] == if IsExpiredAt(attempts[i], now) then attempts[i].(state := Expired) else attempts[i]
  {
    seq(|attempts|, i requires 0 <= i < |attempts| =>
      if IsExpiredAt(attempts[i], now) then attempts[i].(state := Expired) else attempts[i])
  }

  // ---- What the attempts come to ----

  function SumOf(attempts: seq<Attempt>, f: Attempt -> int): int {
    if attempts == [] then 0 else SumOf(attempts[..|attempts| - 1], f) + f(attempts[|attempts| - 1])
  }

  function ApprovedAmount(): Attempt -> int {
    (a: Attempt) => if a.state == Approved then a.amount else 0
  }

  /** Cash asked for, cash handed over, and transfers attested. */
  function CashOwedOf(): Attempt -> int {
    (a: Attempt) => if a.means == Cash && a.state == Approved then a.amount else 0
  }

  function CashHandedOf(): Attempt -> int {
    (a: Attempt) => if a.means == Cash && a.state == Approved
                    then if a.tendered.Some? then a.tendered.value else a.amount
                    else 0
  }

  function UpiAttestedOf(): Attempt -> int {
    (a: Attempt) => if a.means == Upi && a.state == Approved then a.amount else 0
  }

  function ApprovedTotal(attempts: seq<Attempt>): Paise { SumOf(attempts, ApprovedAmount()) }

  function CashOwed(attempts: seq<Attempt>): Paise { SumOf(attempts, CashOwedOf()) }

  function CashHanded(attempts: seq<Attempt>): Paise { SumOf(attempts, CashHandedOf()) }

  function UpiAttested(attempts: seq<Attempt>): Paise { SumOf(attempts, UpiAttestedOf()) }

  predicate HasPending(attempts: seq<Attempt>) {
    exists i :: 0 <= i < |attempts| && attempts[i].state == Pending
  }

  predicate NeedsReview(attempts: seq<Attempt>) {
    exists i :: 0 <= i < |attempts| && attempts[i].state == Unknown
  }

  lemma {:induction false} ApprovedSplits(attempts: seq<Attempt>)
    ensures ApprovedTotal(attempts) == CashOwed(attempts) + UpiAttested(attempts)
  {
    if attempts != [] { ApprovedSplits(attempts[..|attempts| - 1]); }
  }

  lemma {:induction false} SumSame(a: seq<Attempt>, b: seq<Attempt>, f: Attempt -> int)
    requires |a| == |b| && forall i :: 0 <= i < |a| ==> f(a[i]) == f(b[i])
    ensures SumOf(a, f) == SumOf(b, f)
  {
    if a != [] { SumSame(a[..|a| - 1], b[..|b| - 1], f); }
  }

  lemma {:induction false} SumNotLess(a: seq<Attempt>, b: seq<Attempt>, f: Attempt -> int)
    requires |a| == |b| && forall i :: 0 <= i < |a| ==> f(a[i]) <= f(b[i])
    ensures SumOf(a, f) <= SumOf(b, f)
  {
    if a != [] { SumNotLess(a[..|a| - 1], b[..|b| - 1], f); }
  }

  lemma SumAppended(a: seq<Attempt>, x: Attempt, f: Attempt -> int)
    ensures SumOf(a + [x], f) == SumOf(a, f) + f(x)
  {
    assert (a + [x])[..|a|] == a;
  }
}
