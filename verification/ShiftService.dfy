/// Opening, running and closing a shift: the tables behind the Z-report.
module ShiftService {
  import opened Wrappers
  import opened Money
  import opened Shift
  import Y = SyncStore
  import Sales

  datatype Session = Session(id: nat, openedBy: nat, openingFloat: Paise, isOpen: bool)

  /** A close holds the figures of its moment, and nothing works them out again. */
  datatype Close = Close(sessionId: nat, counted: Paise, expected: Paise, variance: Paise, figures: Figures)

  datatype Refusal =
    | NegativeFloat | AlreadyOpen(openedBy: nat) | NoOpenShift | NotInOrOut | NoAmount | NoReason
    | NegativeCount | CannotReport(error: ShiftError) | NoSuchSale | NotAwaitingReview | AlreadyReviewed

  /** The open session, if there is one. */
  function OpenIn(sessions: seq<Session>): (r: Option<Session>)
    ensures r.Some? ==> r.value in sessions && r.value.isOpen
    ensures r.None? <==> forall k :: 0 <= k < |sessions| ==> !sessions[k].isOpen
  {
    if sessions == [] then None else if sessions[0].isOpen then Some(sessions[0]) else OpenIn(sessions[1..])
  }

  function Closed(sessions: seq<Session>, id: nat): (r: seq<Session>)
    ensures |r| == |sessions|
    ensures forall k :: 0 <= k < |r| ==> r[k] == if sessions[k].id == id then sessions[k].(isOpen := false) else sessions[k]
  {
    seq(|sessions|, k requires 0 <= k < |sessions| =>
      if sessions[k].id == id then sessions[k].(isOpen := false) else sessions[k])
  }

  function CloseFor(closes: seq<Close>, session: nat): Option<Close> {
    if closes == [] then None else if closes[0].sessionId == session then Some(closes[0]) else CloseFor(closes[1..], session)
  }

  ghost predicate HasSession(sessions: seq<Session>, id: nat) {
    exists k :: 0 <= k < |sessions| && sessions[k].id == id
  }

  /** Sessions are numbered apart, one at most is open, and each that is not has exactly one close. */
  ghost predicate InOrder(sessions: seq<Session>, closes: seq<Close>) {
    && (forall j, k :: 0 <= j < k < |sessions| ==> sessions[j].id != sessions[k].id)
    && (forall j, k :: 0 <= j < k < |sessions| ==> !(sessions[j].isOpen && sessions[k].isOpen))
    && (forall k :: 0 <= k < |sessions| ==> (sessions[k].isOpen <==> CloseFor(closes, sessions[k].id) == None))
    && (forall k :: 0 <= k < |closes| ==> HasSession(sessions, closes[k].sessionId))
    && (forall j, k :: 0 <= j < k < |closes| ==> closes[j].sessionId != closes[k].sessionId)
  }

  predicate OnShift(sessionOf: map<nat, nat>, sale: nat, session: nat) {
    sale in sessionOf && sessionOf[sale] == session
  }

  function ReviewOf(reviews: map<nat, Outcome>, sale: nat): Option<Outcome> {
    if sale in reviews then Some(reviews[sale]) else None
  }

  /** The shift's sales, each with its review if a supervisor has made one. */
  function SalesFor(sales: seq<Sales.SaleRow>, sessionOf: map<nat, nat>, reviews: map<nat, Outcome>, session: nat): seq<SaleRow> {
    if sales == [] then []
    else
      var n := |sales| - 1;
      SalesFor(sales[..n], sessionOf, reviews, session)
        + if OnShift(sessionOf, sales[n].id, session) then [AsSale(sales[n], ReviewOf(reviews, sales[n].id))] else []
  }

  /** The payments of the shift's sales. */
  function PaymentsFor(payments: seq<Sales.PaymentRow>, sessionOf: map<nat, nat>, session: nat): seq<PaymentRow> {
    if payments == [] then []
    else
      var n := |payments| - 1;
      PaymentsFor(payments[..n], sessionOf, session)
        + if OnShift(sessionOf, payments[n].saleId, session) then [AsPayment(payments[n])] else []
  }

  function MovementsFor(movements: seq<(nat, Movement)>, session: nat): seq<Movement> {
    if movements == [] then []
    else
      var n := |movements| - 1;
      MovementsFor(movements[..n], session) + if movements[n].0 == session then [movements[n].1] else []
  }

  class ShiftService {
    var sessions: seq<Session>
    var closes: seq<Close>
    var movements: seq<(nat, Movement)>
    var reviews: map<nat, Outcome>
    /** The sales tables, and the database behind them. */
    const store: Sales.SalesRepository

    constructor (store: Sales.SalesRepository)
      ensures Valid() && sessions == [] && closes == [] && movements == [] && reviews == map[] && this.store == store
    {
      sessions, closes, movements, reviews := [], [], [], map[];
      this.store := store;
    }

    ghost predicate Valid()
      reads this
    {
      InOrder(sessions, closes)
    }

    /** What the report of a session would say now. */
    ghost function FiguresNow(s: Session): Figures
      reads this, store
    {
      FiguresOf(s.openingFloat, SalesFor(store.sales, store.sessionOf, reviews, s.id),
                PaymentsFor(store.payments, store.sessionOf, s.id), MovementsFor(movements, s.id))
    }

    ghost predicate CanReport(s: Session)
      reads this, store
    {
      Reportable(SalesFor(store.sales, store.sessionOf, reviews, s.id),
                 PaymentsFor(store.payments, store.sessionOf, s.id), MovementsFor(movements, s.id))
    }

    /** One outbox row under the next shared number: the sync machine's step that queues a document. */
    method Queue(key: Y.Key)
      requires key !in store.db.records && key.0 != Y.Sale && key.0 != Y.StockMovement
      modifies store.db
      ensures Y.Takes(old(store.db.T()), Y.QueueDocument(key), store.db.T())
      ensures old(store.Valid()) ==> store.Valid()
    {
      store.db.clientSeq := store.db.clientSeq + 1;
      store.db.outbox := store.db.outbox + [Y.OutboxRow(key.0, key.1, store.db.clientSeq, false, 0)];
      store.db.records := store.db.records + {key};
    }

    /** Opens the day: one shift at a time on a terminal. */
    method Open(id: nat, user: nat, openingFloat: Paise) returns (refused: Option<Refusal>)
      requires Valid() && (forall k :: 0 <= k < |sessions| ==> sessions[k].id != id) && (Y.RegisterSession, id) !in store.db.records
      modifies `sessions, store.db
      ensures Valid()
      ensures refused ==
        if openingFloat < 0 then Some(NegativeFloat)
        else match OpenIn(old(sessions)) case Some(s) => Some(AlreadyOpen(s.openedBy)) case None => None
      ensures refused.Some? ==> sessions == old(sessions) && store.db.T() == old(store.db.T())
      ensures refused.None? ==>
        && sessions == old(sessions) + [Session(id, user, openingFloat, true)]
        && Y.Takes(old(store.db.T()), Y.QueueDocument((Y.RegisterSession, id)), store.db.T())
    {
      if openingFloat < 0 { return Some(NegativeFloat); }
      match OpenIn(sessions) {
        case Some(s) => return Some(AlreadyOpen(s.openedBy));
        case None =>
      }
      OpeningKeepsOrder(sessions, closes, Session(id, user, openingFloat, true));
      sessions := sessions + [Session(id, user, openingFloat, true)];
      Queue((Y.RegisterSession, id));
      refused := None;
    }

    /** A payout or a top-up, on the open shift. */
    method MoveCash(id: nat, direction: Direction, amount: Paise, reason: string) returns (refused: Option<Refusal>)
      requires (Y.CashMovement, id) !in store.db.records
      modifies `movements, store.db
      ensures refused ==
        if direction.Sideways? then Some(NotInOrOut)
        else if amount <= 0 then Some(NoAmount)
        else if reason == "" then Some(NoReason)
        else if OpenIn(sessions) == None then Some(NoOpenShift)
        else None
      ensures refused.Some? ==> movements == old(movements) && store.db.T() == old(store.db.T())
      ensures refused.None? ==>
        && movements == old(movements) + [(OpenIn(sessions).value.id, Movement(direction, amount))]
        && Y.Takes(old(store.db.T()), Y.QueueDocument((Y.CashMovement, id)), store.db.T())
    {
      if direction.Sideways? { return Some(NotInOrOut); }
      if amount <= 0 { return Some(NoAmount); }
      if reason == "" { return Some(NoReason); }
      var current := OpenIn(sessions);
      if current == None { return Some(NoOpenShift); }
      movements := movements + [(current.value.id, Movement(direction, amount))];
      Queue((Y.CashMovement, id));
      refused := None;
    }

    /** A supervisor settles a sale under review, once.  What a close already says stays said. */
    method ResolveReview(id: nat, sale: nat, outcome: Outcome) returns (refused: Option<Refusal>)
      requires (Y.SaleReview, id) !in store.db.records
      modifies `reviews, store.db
      ensures refused ==
        match Sales.SaleFor(store.sales, sale)
        case None => Some(NoSuchSale)
        case Some(row) =>
          if row.status != Sales.RequiresReview then Some(NotAwaitingReview)
          else if sale in old(reviews) then Some(AlreadyReviewed)
          else None
      ensures refused.Some? ==> reviews == old(reviews) && store.db.T() == old(store.db.T())
      ensures refused.None? ==>
        && reviews == old(reviews)[sale := outcome]
        && Y.Takes(old(store.db.T()), Y.QueueDocument((Y.SaleReview, id)), store.db.T())
    {
      var row := Sales.SaleFor(store.sales, sale);
      if row == None { return Some(NoSuchSale); }
      if row.value.status != Sales.RequiresReview { return Some(NotAwaitingReview); }
      if sale in reviews { return Some(AlreadyReviewed); }
      reviews := reviews[sale := outcome];
      Queue((Y.SaleReview, id));
      refused := None;
    }

    /** Counts the drawer against what the shift's rows come to at this moment, and stores both. */
    method CloseShift(id: nat, counted: Paise) returns (refused: Option<Refusal>)
      requires Valid() && (Y.ShiftClose, id) !in store.db.records
      modifies `sessions, `closes, store.db
      ensures Valid()
      ensures counted < 0 ==> refused == Some(NegativeCount)
      ensures counted >= 0 && OpenIn(old(sessions)) == None ==> refused == Some(NoOpenShift)
      ensures counted >= 0 && OpenIn(old(sessions)).Some? ==>
        (refused.None? <==> old(CanReport(OpenIn(sessions).value))) && (refused.Some? ==> refused.value.CannotReport?)
      ensures refused.Some? ==>
        sessions == old(sessions) && closes == old(closes) && store.db.T() == old(store.db.T())
      ensures refused.None? ==>
        var s := OpenIn(old(sessions)).value;
        var figures := old(FiguresNow(s));
        && OpenIn(sessions) == None && sessions == Closed(old(sessions), s.id)
        && closes == old(closes) + [Close(s.id, counted, figures.ExpectedCash(), counted - figures.ExpectedCash(), figures)]
        && CloseFor(closes, s.id) == Some(closes[|closes| - 1])
        && Y.Takes(old(store.db.T()), Y.QueueDocument((Y.ShiftClose, id)), store.db.T())
    {
      if counted < 0 { return Some(NegativeCount); }
      var current := OpenIn(sessions);
      if current == None { return Some(NoOpenShift); }
      var s := current.value;
      var report := Compute(s.openingFloat, SalesFor(store.sales, store.sessionOf, reviews, s.id),
                            PaymentsFor(store.payments, store.sessionOf, s.id), MovementsFor(movements, s.id));
      if report.Refused? { return Some(CannotReport(report.error)); }
      var f := report.figures;
      hide InOrder, FiguresOf, SalesFor, PaymentsFor, MovementsFor, Reportable, OpenIn, CloseFor, Closed;
      var close := Close(s.id, counted, f.ExpectedCash(), f.Variance(counted), f);
      ClosingKeepsOrder(sessions, closes, s, close);
      closes := closes + [close];
      sessions := Closed(sessions, s.id);
      Queue((Y.ShiftClose, id));
      refused := None;
    }
  }

  lemma {:induction false} CloseForAppended(closes: seq<Close>, c: Close, session: nat)
    ensures CloseFor(closes + [c], session)
         == if CloseFor(closes, session).Some? then CloseFor(closes, session)
            else if c.sessionId == session then Some(c) else None
  {
    if closes != [] {
      assert (closes + [c])[1..] == closes[1..] + [c];
      CloseForAppended(closes[1..], c, session);
    }
  }

  lemma {:induction false} NoCloseFor(closes: seq<Close>, session: nat)
    ensures CloseFor(closes, session) == None <==> forall k :: 0 <= k < |closes| ==> closes[k].sessionId != session
  {
    if closes != [] {
      NoCloseFor(closes[1..], session);
      assert forall k :: 1 <= k < |closes| ==> closes[k] == closes[1..][k - 1];
    }
  }

  lemma OpeningKeepsOrder(sessions: seq<Session>, closes: seq<Close>, s: Session)
    requires InOrder(sessions, closes) && OpenIn(sessions) == None && s.isOpen
    requires forall k :: 0 <= k < |sessions| ==> sessions[k].id != s.id
    ensures InOrder(sessions + [s], closes)
  {
    NoCloseFor(closes, s.id);
    var after := sessions + [s];
    forall k | 0 <= k < |closes| ensures HasSession(after, closes[k].sessionId) {
      SameSessions(sessions, after, closes[k].sessionId);
    }
  }

  lemma SameSessions(a: seq<Session>, b: seq<Session>, id: nat)
    requires |a| <= |b| && (forall k :: 0 <= k < |a| ==> a[k].id == b[k].id) && HasSession(a, id)
    ensures HasSession(b, id)
  {
    var k :| 0 <= k < |a| && a[k].id == id;
    assert b[k].id == id;
  }

  lemma ClosingKeepsOrder(sessions: seq<Session>, closes: seq<Close>, s: Session, c: Close)
    requires InOrder(sessions, closes) && s in sessions && s.isOpen && c.sessionId == s.id
    ensures InOrder(Closed(sessions, s.id), closes + [c])
    ensures OpenIn(Closed(sessions, s.id)) == None && CloseFor(closes + [c], s.id) == Some(c)
  {
    var i :| 0 <= i < |sessions| && sessions[i] == s;
    NoCloseFor(closes, s.id);
    forall k | 0 <= k < |sessions| ensures CloseFor(closes + [c], sessions[k].id)
        == if k == i then Some(c) else CloseFor(closes, sessions[k].id)
    {
      CloseForAppended(closes, c, sessions[k].id);
      if k != i { assert sessions[k].id != sessions[i].id; }
    }
    var after := Closed(sessions, s.id);
    assert after[i].id == c.sessionId;
    assert HasSession(after, c.sessionId);
    forall k | 0 <= k < |closes| ensures HasSession(after, closes[k].sessionId) {
      SameSessions(sessions, after, closes[k].sessionId);
    }
    hide HasSession, CloseFor;
  }
}
