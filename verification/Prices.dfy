/// Prices: opened and closed in the cloud, pulled by the till, and never pulled twice.
module Prices {
  import opened Wrappers
  import Lex
  import opened Keyset
  import opened Puller

  /** A price is open while it has no `validTo`. */
  datatype Price = Price(id: int, product: int, paise: int, validFrom: int, validTo: Option<int>)
  {
    predicate IsOpen() { validTo == None }
  }

  /** The price table pages by `valid_from`, and closing a row leaves that alone. */
  const PRICES := Entity("valid_from", ["id"], ["id", "product_id", "price", "valid_from", "valid_to"], ["id"])

  function RowOf(p: Price): Row {
    var row: Row := map["id" := p.id, "product_id" := p.product, "price" := p.paise, "valid_from" := p.validFrom];
    if p.validTo.Some? then row["valid_to" := p.validTo.value] else row
  }

  function RowsOf(prices: seq<Price>): (rows: seq<Row>)
    ensures |rows| == |prices|
    ensures forall k :: 0 <= k < |rows| ==> rows[k] == RowOf(prices[k])
  {
    seq(|prices|, k requires 0 <= k < |prices| => RowOf(prices[k]))
  }

  // ---- Setting a price ----

  /** Closes every open price of a product but one. */
  function CloseOthers(prices: seq<Price>, product: int, keep: int, now: int): (r: seq<Price>)
    ensures |r| == |prices|
    ensures forall k :: 0 <= k < |prices| ==>
      r[k] == if prices[k].product == product && prices[k].IsOpen() && prices[k].id != keep
              then prices[k].(validTo := Some(now)) else prices[k]
  {
    seq(|prices|, k requires 0 <= k < |prices| =>
      if prices[k].product == product && prices[k].IsOpen() && prices[k].id != keep
      then prices[k].(validTo := Some(now)) else prices[k])
  }

  /** Two calls with no transaction across them: the second may never happen. */
  function AfterSetPrice(prices: seq<Price>, id: int, product: int, paise: int, now: int, completes: bool): seq<Price> {
    var both := prices + [Price(id, product, paise, now, None)];
    if completes then CloseOthers(both, product, id, now) else both
  }

  // ---- A run of price changes and pulls ----

  /** The cloud's table and the till's mirror of it. */
  datatype World = World(prices: seq<Price>, mirror: Mirror)

  datatype Step =
    | SetPrice(id: int, product: int, paise: int, now: int, completes: bool)
    | Pulled(mirror: Mirror)

  /** Ids are new, and a later price has a later `validFrom`. */
  predicate IsFresh(prices: seq<Price>, id: int, now: int) {
    now > EPOCH && forall k :: 0 <= k < |prices| ==> prices[k].id != id && prices[k].validFrom < now
  }

  ghost predicate InOrder(prices: seq<Price>) {
    && (forall k :: 0 <= k < |prices| ==> prices[k].validFrom > EPOCH)
    && (forall j, k :: 0 <= j < k < |prices| ==> prices[j].validFrom < prices[k].validFrom)
    && (forall j, k :: 0 <= j < k < |prices| ==> prices[j].id != prices[k].id)
  }

  lemma RowFacts(p: Price)
    ensures Keyed(PRICES, RowOf(p)) && Project(PRICES, RowOf(p)) == RowOf(p)
    ensures KeyOf(PRICES, RowOf(p)) == [p.validFrom, p.id] && LocalKeyOf(PRICES, RowOf(p)) == [p.id]
    ensures RowOf(p)["valid_from"] == p.validFrom
  {
    assert Columns(PRICES) == ["valid_from", "id"];
  }

  lemma RowDetermines(p: Price, q: Price)
    requires RowOf(p) == RowOf(q)
    ensures p == q
  {
    assert RowOf(p)["id"] == p.id && RowOf(p)["product_id"] == p.product && RowOf(p)["price"] == p.paise;
    assert RowOf(p)["valid_from"] == p.validFrom && ("valid_to" in RowOf(p) <==> p.validTo.Some?);
    assert p.validTo.Some? ==> RowOf(p)["valid_to"] == p.validTo.value;
  }

  lemma PriceTableIsTable(prices: seq<Price>)
    requires InOrder(prices)
    ensures IsTable(PRICES, RowsOf(prices))
  {
    hide RowOf, Keyed, KeyOf, LocalKeyOf;
    var rows := RowsOf(prices);
    forall k | 0 <= k < |rows| ensures Keyed(PRICES, rows[k]) { RowFacts(prices[k]); }
    forall j, k | 0 <= j < k < |rows|
      ensures Lex.Less(KeyOf(PRICES, rows[j]), KeyOf(PRICES, rows[k]))
      ensures LocalKeyOf(PRICES, rows[j]) != LocalKeyOf(PRICES, rows[k])
    {
      RowFacts(prices[j]);
      RowFacts(prices[k]);
      assert LocalKeyOf(PRICES, rows[j])[0] != LocalKeyOf(PRICES, rows[k])[0];
    }
  }

  // ---- What a run keeps ----

  /** Only a price that a later one of its product supersedes is ever closed. */
  ghost predicate NewestOpen(prices: seq<Price>) {
    forall k :: 0 <= k < |prices| ==> prices[k].IsOpen() || Superseded(prices, k)
  }

  ghost predicate Superseded(prices: seq<Price>, k: nat)
    requires k < |prices|
  {
    exists j :: k < j < |prices| && prices[j].product == prices[k].product
  }

  /** A local row is its price as some pull saw it: it may not know of a later closing. */
  predicate IsCopy(row: Row, p: Price) {
    row == RowOf(p) || row == RowOf(p.(validTo := None))
  }

  ghost predicate Unseen(cursor: Position, p: Price) {
    Keyed(PRICES, RowOf(p)) && After(PRICES, cursor, RowOf(p))
  }

  ghost predicate Mirrored(local: Local, cursor: Position, p: Price) {
    if [p.id] in local then IsCopy(local[[p.id]], p) else Unseen(cursor, p)
  }

  ghost predicate Listed(prices: seq<Price>, key: seq<int>) {
    exists k :: 0 <= k < |prices| && key == [prices[k].id]
  }

  ghost predicate Mirrors(prices: seq<Price>, m: Mirror) {
    && (forall k :: 0 <= k < |prices| ==> Mirrored(m.local, m.cursor, prices[k]))
    && (forall key :: key in m.local ==> Listed(prices, key))
  }

  /** A cursor is where the till started or a price it has seen, so anything newer is after it. */
  ghost predicate CursorKnown(prices: seq<Price>, cursor: Position) {
    && Usable(PRICES, cursor)
    && (Watermark(PRICES, cursor) == EPOCH
        || exists k :: 0 <= k < |prices| && prices[k].validFrom == Watermark(PRICES, cursor))
  }

  ghost predicate Inv(w: World) {
    InOrder(w.prices) && NewestOpen(w.prices) && CursorKnown(w.prices, w.mirror.cursor) && Mirrors(w.prices, w.mirror)
  }

  ghost predicate Allowed(w: World, s: Step)
    requires InOrder(w.prices)
  {
    match s
    case SetPrice(id, _, _, now, _) => IsFresh(w.prices, id, now)
    case Pulled(b) =>
      PriceTableIsTable(w.prices);
      PullStep(PRICES, RowsOf(w.prices), w.mirror, b)
  }

  function Next(w: World, s: Step): World {
    match s
    case SetPrice(id, product, paise, now, completes) =>
      w.(prices := AfterSetPrice(w.prices, id, product, paise, now, completes))
    case Pulled(b) => w.(mirror := b)
  }

  lemma ClosingUnseen(cursor: Position, p: Price, when: Option<int>)
    requires Usable(PRICES, cursor) && Unseen(cursor, p)
    ensures Unseen(cursor, p.(validTo := when))
  {
    RowFacts(p);
    RowFacts(p.(validTo := when));
    AfterMeans(PRICES, cursor, RowOf(p));
    AfterMeans(PRICES, cursor, RowOf(p.(validTo := when)));
  }

  lemma OpenedKeeps(w: World, p: Price)
    requires Inv(w) && IsFresh(w.prices, p.id, p.validFrom) && p.IsOpen()
    ensures Inv(w.(prices := w.prices + [p]))
  {
    hide Usable, Mirrored, Watermark;
    var prices := w.prices + [p];
    assert forall k :: 0 <= k < |w.prices| ==> prices[k] == w.prices[k];
    forall k | 0 <= k < |prices| ensures prices[k].IsOpen() || Superseded(prices, k) {
      if !prices[k].IsOpen() {
        assert Superseded(w.prices, k);
        var j :| k < j < |w.prices| && w.prices[j].product == w.prices[k].product;
        assert prices[j].product == prices[k].product;
      }
    }
    forall key | key in w.mirror.local ensures Listed(prices, key) {
      var k :| 0 <= k < |w.prices| && key == [w.prices[k].id];
      assert key == [prices[k].id];
    }
    if Watermark(PRICES, w.mirror.cursor) != EPOCH {
      var k :| 0 <= k < |w.prices| && w.prices[k].validFrom == Watermark(PRICES, w.mirror.cursor);
      assert prices[k].validFrom == Watermark(PRICES, w.mirror.cursor);
    }
    assert [p.id] !in w.mirror.local;
    UnseenIsMirrored(w.mirror, p);
  }

  lemma UnseenIsMirrored(m: Mirror, p: Price)
    requires [p.id] !in m.local && Unseen(m.cursor, p)
    ensures Mirrored(m.local, m.cursor, p)
  {
  }

  lemma ClosedNewestOpen(prices: seq<Price>, product: int, now: int)
    requires NewestOpen(prices) && InOrder(prices) && prices != [] && prices[|prices| - 1].product == product
    ensures NewestOpen(CloseOthers(prices, product, prices[|prices| - 1].id, now))
  {
    var keep := |prices| - 1;
    var closed := CloseOthers(prices, product, prices[keep].id, now);
    forall k | 0 <= k < |closed| ensures closed[k].IsOpen() || Superseded(closed, k) {
      if !prices[k].IsOpen() {
        assert Superseded(prices, k);
        var j :| k < j < |prices| && prices[j].product == prices[k].product;
        assert closed[j].product == closed[k].product;
      } else if !closed[k].IsOpen() {
        assert closed[keep].product == closed[k].product;
      }
    }
  }

  lemma ClosedMirrored(local: Local, cursor: Position, p: Price, now: int)
    requires Usable(PRICES, cursor) && Mirrored(local, cursor, p) && p.IsOpen()
    ensures Mirrored(local, cursor, p.(validTo := Some(now)))
  {
    hide Usable, Unseen, RowOf;
    assert p.(validTo := Some(now)).(validTo := None) == p;
    if [p.id] !in local { ClosingUnseen(cursor, p, Some(now)); }
  }

  lemma SameIds(a: seq<Price>, b: seq<Price>, m: Mirror)
    requires |a| == |b|
    requires forall k :: 0 <= k < |a| ==> a[k].id == b[k].id && a[k].validFrom == b[k].validFrom
    ensures forall key :: Listed(a, key) ==> Listed(b, key)
    ensures InOrder(a) ==> InOrder(b)
    ensures CursorKnown(a, m.cursor) ==> CursorKnown(b, m.cursor)
  {
    hide Usable, Watermark;
    forall key | Listed(a, key) ensures Listed(b, key) {
      var k :| 0 <= k < |a| && key == [a[k].id];
      assert key == [b[k].id];
    }
    if CursorKnown(a, m.cursor) && Watermark(PRICES, m.cursor) != EPOCH {
      var k :| 0 <= k < |a| && a[k].validFrom == Watermark(PRICES, m.cursor);
      assert b[k].validFrom == Watermark(PRICES, m.cursor);
    }
  }

  lemma ClosedKeeps(w: World, product: int, now: int)
    requires Inv(w) && w.prices != [] && w.prices[|w.prices| - 1].product == product
    ensures Inv(w.(prices := CloseOthers(w.prices, product, w.prices[|w.prices| - 1].id, now)))
  {
    hide NewestOpen, InOrder, Mirrored, Listed, Usable;
    var closed := CloseOthers(w.prices, product, w.prices[|w.prices| - 1].id, now);
    ClosedNewestOpen(w.prices, product, now);
    SameIds(w.prices, closed, w.mirror);
    forall k | 0 <= k < |closed| ensures Mirrored(w.mirror.local, w.mirror.cursor, closed[k]) {
      assert Mirrored(w.mirror.local, w.mirror.cursor, w.prices[k]);
      if closed[k] != w.prices[k] { ClosedMirrored(w.mirror.local, w.mirror.cursor, w.prices[k], now); }
    }
  }

  lemma PulledMirrored(a: Mirror, b: Mirror, p: Price)
    requires Mirrored(a.local, a.cursor, p)
    requires Keyed(PRICES, RowOf(p)) && LocalKeyOf(PRICES, RowOf(p)) == [p.id] && Project(PRICES, RowOf(p)) == RowOf(p)
    requires RowStep(PRICES, a, b, RowOf(p))
    ensures Mirrored(b.local, b.cursor, p)
  {
    hide After, RowOf, Keyed, LocalKeyOf, Project;
  }

  lemma PulledMirrors(w: World, b: Mirror)
    requires Inv(w) && Allowed(w, Pulled(b))
    ensures Mirrors(w.prices, b)
  {
    PriceTableIsTable(w.prices);
    var rows := RowsOf(w.prices);
    hide After, Usable, CursorFrom, IsTable, NewestOpen, CursorKnown, RowOf, RowsOf, KeyOf, LocalKeyOf, Project, Keyed, Mirrored,
      Stored, RowStep;
    forall k | 0 <= k < |w.prices| ensures Mirrored(b.local, b.cursor, w.prices[k]) {
      RowFacts(w.prices[k]);
      assert rows[k] == RowOf(w.prices[k]);
      PulledMirrored(w.mirror, b, w.prices[k]);
    }
    forall key | !Listed(w.prices, key) ensures key !in b.local {
      forall k | 0 <= k < |rows| ensures LocalKeyOf(PRICES, rows[k]) != key { RowFacts(w.prices[k]); }
      assert Elsewhere(PRICES, rows, |rows|, key);
    }
  }

  lemma PulledCursor(w: World, b: Mirror)
    requires Inv(w) && Allowed(w, Pulled(b))
    ensures CursorKnown(w.prices, b.cursor)
  {
    PriceTableIsTable(w.prices);
    hide After, Usable, IsTable, NewestOpen, Mirrors, PositionFromRow, Stored, SameAt, RowOf;
    if b.cursor != w.mirror.cursor {
      var k :| 0 <= k < |w.prices| && PositionFromRow(PRICES, RowsOf(w.prices)[k]) == Some(b.cursor);
      RowFacts(w.prices[k]);
      PositionOf(PRICES, RowsOf(w.prices)[k]);
      assert PositionValues(PRICES, b.cursor)[0] == Watermark(PRICES, b.cursor);
    }
  }

  lemma StepKeeps(w: World, s: Step)
    requires Inv(w) && Allowed(w, s)
    ensures Inv(Next(w, s))
  {
    hide InOrder, NewestOpen, CursorKnown, Mirrors, PullStep;
    match s
    case SetPrice(id, product, paise, now, completes) =>
      var p := Price(id, product, paise, now, None);
      OpenedKeeps(w, p);
      if completes { ClosedKeeps(w.(prices := w.prices + [p]), product, now); }
    case Pulled(b) =>
      PulledMirrors(w, b);
      PulledCursor(w, b);
  }

  ghost predicate Run(w: World, steps: seq<Step>, w': World)
    requires Inv(w)
    decreases |steps|
  {
    if steps == [] then w' == w
    else Allowed(w, steps[0]) && (StepKeeps(w, steps[0]); Run(Next(w, steps[0]), steps[1..], w'))
  }

  lemma {:induction false} RunKeeps(w: World, steps: seq<Step>, w': World)
    requires Inv(w) && Run(w, steps, w')
    ensures Inv(w')
    decreases |steps|
  {
    if steps != [] {
      StepKeeps(w, steps[0]);
      hide Inv, Allowed, Next;
      RunKeeps(Next(w, steps[0]), steps[1..], w');
    }
  }

  // ---- What is charged ----

  /** The cloud's newest open price of a product. */
  ghost predicate CloudCharges(prices: seq<Price>, product: int, p: Price) {
    && p in prices && p.product == product && p.IsOpen()
    && forall q :: q in prices && q.product == product && q.IsOpen() ==> q.validFrom <= p.validFrom
  }

  /** Whether or not the old prices were closed, the new one is charged and no other product is touched. */
  lemma NewPriceCharged(prices: seq<Price>, p: Price, completes: bool)
    requires InOrder(prices) && IsFresh(prices, p.id, p.validFrom) && p.IsOpen()
    ensures var after := AfterSetPrice(prices, p.id, p.product, p.paise, p.validFrom, completes);
      && CloudCharges(after, p.product, p)
      && (completes ==> forall q :: q in after && q.product == p.product && q.IsOpen() ==> q == p)
      && forall other, q :: other != p.product ==> (CloudCharges(after, other, q) <==> CloudCharges(prices, other, q))
  {
    var after := AfterSetPrice(prices, p.id, p.product, p.paise, p.validFrom, completes);
    assert after[|prices|] == p;
    forall q: Price | q.product != p.product ensures q in after <==> q in prices {
      if q in prices { var k :| 0 <= k < |prices| && prices[k] == q; assert after[k] == q; }
      if q in after { var k :| 0 <= k < |after| && after[k] == q; assert k < |prices| && prices[k] == q; }
    }
  }

  class AdminService {
    var prices: seq<Price>

    /**
      * Opens the new price, then closes the old ones.  Cut off between the two, the product still
      * has a price and it is the new one: an overlap, never a gap.
      */
    method SetPrice(id: int, product: int, paise: int, now: int, completes: bool)
      modifies this
      ensures prices == AfterSetPrice(old(prices), id, product, paise, now, completes)
      ensures InOrder(old(prices)) && IsFresh(old(prices), id, now) ==>
        && CloudCharges(prices, product, Price(id, product, paise, now, None))
        && (completes ==> forall q :: q in prices && q.product == product && q.IsOpen() ==> q.id == id)
        && forall other, q :: other != product ==> (CloudCharges(prices, other, q) <==> CloudCharges(old(prices), other, q))
    {
      if InOrder(prices) && IsFresh(prices, id, now) {
        NewPriceCharged(prices, Price(id, product, paise, now, None), completes);
      }
      prices := prices + [Price(id, product, paise, now, None)];
      if !completes { return; }
      prices := CloseOthers(prices, product, id, now);
    }
  }

  ghost predicate Holds(local: Local, p: Price) { RowOf(p) in local.Values }

  /** The till's: what the catalogue query reads out of the local rows. */
  ghost predicate TillCharges(local: Local, product: int, p: Price) {
    && Holds(local, p) && p.product == product && p.IsOpen()
    && forall q :: Holds(local, q) && q.product == product && q.IsOpen() ==> q.validFrom <= p.validFrom
  }

  /** Nothing lies beyond the cursor: what a completed pull leaves. */
  ghost predicate UpToDate(w: World) {
    forall k :: 0 <= k < |w.prices| ==> !Unseen(w.mirror.cursor, w.prices[k])
  }

  /** An open price the till holds is some cloud price, perhaps since closed. */
  lemma HeldIsCopy(w: World, p: Price) returns (k: nat)
    requires Inv(w) && Holds(w.mirror.local, p) && p.IsOpen()
    ensures k < |w.prices| && p == w.prices[k].(validTo := None)
  {
    hide RowOf, Unseen, CursorKnown, NewestOpen, InOrder;
    var key :| key in w.mirror.local && w.mirror.local[key] == RowOf(p);
    assert Listed(w.prices, key);
    k :| 0 <= k < |w.prices| && key == [w.prices[k].id];
    assert Mirrored(w.mirror.local, w.mirror.cursor, w.prices[k]);
    if RowOf(p) == RowOf(w.prices[k]) {
      RowDetermines(p, w.prices[k]);
    } else {
      RowDetermines(p, w.prices[k].(validTo := None));
    }
  }

  lemma {:induction false} LastFor(prices: seq<Price>, product: int, k: nat) returns (last: nat)
    requires k < |prices| && prices[k].product == product
    ensures k <= last < |prices| && prices[last].product == product
    ensures forall j :: last < j < |prices| ==> prices[j].product != product
    decreases |prices| - k
  {
    if j :| k < j < |prices| && prices[j].product == product {
      last := LastFor(prices, product, j);
    } else {
      last := k;
    }
  }

  /** A product's last price is open, is what the cloud charges, and is what the till charges. */
  lemma LastIsCharged(w: World, product: int, last: nat)
    requires Inv(w) && UpToDate(w) && last < |w.prices| && w.prices[last].product == product
    requires forall j :: last < j < |w.prices| ==> w.prices[j].product != product
    ensures CloudCharges(w.prices, product, w.prices[last]) && TillCharges(w.mirror.local, product, w.prices[last])
  {
    hide RowOf, Unseen, CursorKnown;
    var p := w.prices[last];
    assert p.IsOpen() by { assert !Superseded(w.prices, last); }
    assert Mirrored(w.mirror.local, w.mirror.cursor, p);
    assert p == p.(validTo := None);
    assert w.mirror.local[[p.id]] in w.mirror.local.Values;
    forall q | Holds(w.mirror.local, q) && q.product == product && q.IsOpen() ensures q.validFrom <= p.validFrom {
      var k := HeldIsCopy(w, q);
      assert w.prices[k].product == product;
    }
  }

  lemma TillChargesOne(w: World, product: int, p: Price, q: Price)
    requires Inv(w) && TillCharges(w.mirror.local, product, p) && TillCharges(w.mirror.local, product, q)
    ensures p == q
  {
    hide RowOf, Unseen, CursorKnown, NewestOpen, Mirrors, Holds;
    assert p.validFrom == q.validFrom;
    var j := HeldIsCopy(w, p);
    var k := HeldIsCopy(w, q);
    assert w.prices[j].validFrom == w.prices[k].validFrom;
  }

  /**
    * The till charges the cloud's price.  Over every run of price changes, whether or not they
    * got as far as closing the old price, and of pulls that may be killed anywhere: whenever a
    * pull has completed since, the till charges a price exactly when the cloud does.
    */
  lemma TillChargesCloudPrice(w: World, steps: seq<Step>, w': World, product: int, p: Price)
    requires Inv(w) && Run(w, steps, w') && UpToDate(w')
    ensures TillCharges(w'.mirror.local, product, p) <==> CloudCharges(w'.prices, product, p)
  {
    RunKeeps(w, steps, w');
    hide CursorKnown, Mirrors, NewestOpen, Holds, UpToDate, Unseen;
    if TillCharges(w'.mirror.local, product, p) {
      var k := HeldIsCopy(w', p);
      var last := LastFor(w'.prices, product, k);
      LastIsCharged(w', product, last);
      TillChargesOne(w', product, p, w'.prices[last]);
    }
    if CloudCharges(w'.prices, product, p) {
      var k :| 0 <= k < |w'.prices| && w'.prices[k] == p;
      var last := LastFor(w'.prices, product, k);
      LastIsCharged(w', product, last);
      assert w'.prices[last] in w'.prices;
      assert k == last;
    }
  }

  /** A till that has never pulled, against an empty table, is where a run may start. */
  lemma StartingPoint()
    ensures Inv(World([], Mirror(map[], map["valid_from" := EPOCH])))
  {
  }
}
