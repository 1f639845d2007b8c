/// Pricing a line: gross once, discounts in a fixed order, tax out of what is left.
module Pricing {
  import opened Wrappers
  import opened Lists
  import opened Money
  import opened Tax

  /** The two declared kinds, and the one the register's route sends, which is neither. */
  datatype DiscountKind = Percentage | Amount | Fixed

  datatype Source = Promotion | Manual

  datatype RawDiscount = Discount(kind: DiscountKind, value: int, source: Source)

  /** The constructor refuses a price increase and a percentage over one hundred. */
  type Discount = d: RawDiscount | d.value >= 0 && (d.kind == Percentage ==> d.value <= BASIS_POINTS)
    witness Discount(Fixed, 0, Promotion)

  datatype RawLine = LineInput(
    product: nat, description: string, unitPrice: Paise, qtyMilli: int, taxCode: TaxCode,
    discounts: seq<Discount>, overriddenBy: Option<nat>)

  /** A quantity of zero cannot be made into a line. */
  type LineInput = l: RawLine | l.qtyMilli != 0
    witness LineInput(0, "", 0, 1, TaxCode("", 0), [], None)

  datatype Applied = Applied(discount: Discount, amount: Paise)

  datatype PricedLine = PricedLine(
    line: LineInput, gross: Paise, applied: seq<Applied>, lineTotal: Paise, taxAmount: Paise, taxableBase: Paise)
  {
    function DiscountTotal(): Paise { gross - lineTotal }
  }

  function Against(d: Discount, running: Paise): Paise {
    if d.kind == Percentage then PercentageOf(running, d.value) else d.value
  }

  /** What a discount really takes: never more than is left. */
  function Taken(d: Discount, running: Paise): Paise {
    if Against(d, running) > running then running else Against(d, running)
  }

  function From(source: Source, ds: seq<Discount>): (r: seq<Discount>)
    ensures forall d :: d in r ==> d.source == source
  {
    if ds == [] then []
    else if ds[0].source == source then [ds[0]] + From(source, ds[1..])
    else From(source, ds[1..])
  }

  /** The order they are taken in: every promotion ahead of everything given by hand. */
  function Ordered(ds: seq<Discount>): seq<Discount> {
    From(Promotion, ds) + From(Manual, ds)
  }

  /** What is left of a line after some discounts, in the order given. */
  function After(gross: Paise, ds: seq<Discount>): Paise {
    if ds == [] then gross
    else
      var before := After(gross, ds[..|ds| - 1]);
      before - Taken(ds[|ds| - 1], before)
  }

  function AppliedIn(gross: Paise, ds: seq<Discount>): seq<Applied> {
    if ds == [] then []
    else
      var n := |ds| - 1;
      var amount := Taken(ds[n], After(gross, ds[..n]));
      AppliedIn(gross, ds[..n]) + if amount == 0 then [] else [Applied(ds[n], amount)]
  }

  function GrossOfLine(line: LineInput): Paise {
    MultiplyByQuantity(line.unitPrice, line.qtyMilli)
  }

  /** The priced line, as a value: what `PriceLine` computes. */
  function Priced(line: LineInput): PricedLine {
    var gross := GrossOfLine(line);
    var total := After(gross, Ordered(line.discounts));
    var tax := ExtractInclusiveTax(total, line.taxCode.rateBp);
    PricedLine(line, gross, AppliedIn(gross, Ordered(line.discounts)), total, tax, total - tax)
  }

  method PriceLine(line: LineInput) returns (priced: PricedLine)
    ensures priced == Priced(line)
  {
    var gross := MultiplyByQuantity(line.unitPrice, line.qtyMilli);
    var running := gross;
    var applied: seq<Applied> := [];
    var ds := Ordered(line.discounts);
    for k := 0 to |ds|
      invariant running == After(gross, ds[..k])
      invariant applied == AppliedIn(gross, ds[..k])
    {
      assert ds[..k + 1][..k] == ds[..k];
      var amount := Against(ds[k], running);
      if amount > running { amount := running; }
      if amount != 0 {
        applied := applied + [Applied(ds[k], amount)];
        running := running - amount;
      }
    }
    assert ds[..|ds|] == ds;
    var tax := ExtractInclusiveTax(running, line.taxCode.rateBp);
    priced := PricedLine(line, gross, applied, running, tax, running - tax);
  }

  // ---- Discount stacking ----

  function AmountsOf(applied: seq<Applied>): (amounts: seq<int>)
    ensures |amounts| == |applied|
  {
    seq(|applied|, k requires 0 <= k < |applied| => applied[k].amount)
  }

  lemma TakenWithin(d: Discount, running: Paise)
    requires running >= 0
    ensures 0 <= Taken(d, running) <= running
  {
    if d.kind == Percentage {
      MulOrder(d.value, BASIS_POINTS, running);
      assert running * d.value == d.value * running && running * BASIS_POINTS == BASIS_POINTS * running;
      MulOrder(0, running, d.value);
      RoundWithin(running * d.value, BASIS_POINTS, running);
    }
  }

  lemma {:induction false} AppliedSum(gross: Paise, ds: seq<Discount>)
    ensures Sum(AmountsOf(AppliedIn(gross, ds))) == gross - After(gross, ds)
    decreases |ds|
  {
    if ds != [] {
      var n := |ds| - 1;
      AppliedSum(gross, ds[..n]);
      var before, amount := AppliedIn(gross, ds[..n]), Taken(ds[n], After(gross, ds[..n]));
      if amount == 0 {
        assert AppliedIn(gross, ds) == before;
      } else {
        assert AmountsOf(AppliedIn(gross, ds)) == AmountsOf(before) + [amount];
        assert AmountsOf(AppliedIn(gross, ds))[..|before|] == AmountsOf(before);
      }
    }
  }

  lemma {:induction false} AfterWithin(gross: Paise, ds: seq<Discount>)
    requires gross >= 0
    ensures 0 <= After(gross, ds) <= gross
    ensures forall a :: a in AppliedIn(gross, ds) ==> a.amount > 0
    decreases |ds|
  {
    if ds != [] {
      var n := |ds| - 1;
      AfterWithin(gross, ds[..n]);
      TakenWithin(ds[n], After(gross, ds[..n]));
    }
  }

  /** A sold line never pays the customer, and its discounts account for what came off. */
  lemma LineBounds(line: LineInput)
    requires GrossOfLine(line) >= 0
    ensures var p := Priced(line);
      && 0 <= p.lineTotal <= p.gross
      && 0 <= p.taxAmount <= p.lineTotal
      && (forall a :: a in p.applied ==> a.amount > 0)
      && Sum(AmountsOf(p.applied)) == p.gross - p.lineTotal
      && p.taxableBase + p.taxAmount == p.lineTotal
  {
    AfterWithin(GrossOfLine(line), Ordered(line.discounts));
    AppliedSum(GrossOfLine(line), Ordered(line.discounts));
    TaxIsRounded(Priced(line).lineTotal, line.taxCode.rateBp);
  }

  lemma {:induction false} FromJoin(source: Source, a: seq<Discount>, b: seq<Discount>)
    ensures From(source, a + b) == From(source, a) + From(source, b)
    decreases |a|
  {
    if a == [] {
      assert a + b == b;
    } else {
      assert (a + b)[1..] == a[1..] + b;
      FromJoin(source, a[1..], b);
    }
  }

  lemma {:induction false} FromSame(source: Source, ds: seq<Discount>)
    requires forall d :: d in ds ==> d.source == source
    ensures From(source, ds) == ds
    ensures forall other :: other != source ==> From(other, ds) == []
    decreases |ds|
  {
    if ds != [] { FromSame(source, ds[1..]); }
  }

  /** The price depends on the discounts only through promotions-then-manual. */
  lemma OrderOfArrival(line: LineInput, ds: seq<Discount>)
    requires From(Promotion, ds) == From(Promotion, line.discounts)
    requires From(Manual, ds) == From(Manual, line.discounts)
    ensures Priced(line.(discounts := ds)) == Priced(line).(line := line.(discounts := ds))
    ensures Ordered(Ordered(line.discounts)) == Ordered(line.discounts)
  {
    hide From, After, AppliedIn, ExtractInclusiveTax, MultiplyByQuantity;
    var p, m := From(Promotion, line.discounts), From(Manual, line.discounts);
    FromJoin(Promotion, p, m);
    FromJoin(Manual, p, m);
    FromSame(Promotion, p);
    FromSame(Manual, m);
  }

  /**
    * A manual discount goes last, on the figure the supervisor was looking at.  A face value no
    * larger than that figure comes off it exactly; a larger one takes it all.
    */
  lemma ManualComesOffWhatIsShown(line: LineInput, d: Discount)
    requires d.source == Manual
    ensures Priced(line.(discounts := line.discounts + [d])).lineTotal
         == Priced(line).lineTotal - Taken(d, Priced(line).lineTotal)
    ensures d.kind != Percentage && d.value <= Priced(line).lineTotal ==>
      Priced(line.(discounts := line.discounts + [d])).lineTotal == Priced(line).lineTotal - d.value
  {
    FromJoin(Promotion, line.discounts, [d]);
    FromJoin(Manual, line.discounts, [d]);
    var before := Ordered(line.discounts);
    assert Ordered(line.discounts + [d]) == before + [d];
    assert (before + [d])[..|before|] == before;
  }

  // ---- A promotion that arrives after a manual discount ----

  lemma {:induction false} AfterJoin(gross: Paise, a: seq<Discount>, b: seq<Discount>)
    ensures After(gross, a + b) == After(After(gross, a), b)
    decreases |b|
  {
    if b == [] {
      assert a + b == a;
    } else {
      var n := |b| - 1;
      AfterJoin(gross, a, b[..n]);
      assert (a + b)[..|a| + n] == a + b[..n];
    }
  }

  /** Every percentage among these would take the same of its figure less `off` as it takes of its figure. */
  ghost predicate CutsStand(gross: Paise, ds: seq<Discount>, off: Paise) {
    forall k :: 0 <= k < |ds| && ds[k].kind == Percentage ==>
      PercentageOf(After(gross, ds[..k]) - off, ds[k].value) == PercentageOf(After(gross, ds[..k]), ds[k].value)
  }

  /** One discount never widens a gap, and keeps it just when it takes as much of either figure. */
  lemma LeavesNoMore(d: Discount, less: Paise, more: Paise)
    requires 0 <= less <= more
    ensures 0 <= Taken(d, more) - Taken(d, less) <= more - less
  {
    if d.kind == Percentage {
      PercentageMonotone(less, more, d.value);
      PercentageWithin(d, less);
      PercentageWithin(d, more);
    }
  }

  lemma PercentageWithin(d: Discount, running: Paise)
    requires running >= 0 && d.kind == Percentage
    ensures Taken(d, running) == PercentageOf(running, d.value)
  {
    hide RoundHalfUp;
    RoundZero(BASIS_POINTS);
    assert 0 * d.value == 0;
    PercentageMonotone(0, running, d.value);
  }

  lemma {:induction false} CutsStandPrefix(gross: Paise, ds: seq<Discount>, off: Paise)
    requires ds != []
    ensures var n := |ds| - 1;
      CutsStand(gross, ds, off) <==>
        && CutsStand(gross, ds[..n], off)
        && (ds[n].kind == Percentage ==>
              PercentageOf(After(gross, ds[..n]) - off, ds[n].value) == PercentageOf(After(gross, ds[..n]), ds[n].value))
  {
    hide After, PercentageOf;
    var n := |ds| - 1;
    assert forall k :: 0 <= k < n ==> ds[..n][k] == ds[k] && ds[..n][..k] == ds[..k];
  }

  /** Something taken off first comes off the end as well, whole if and only if no percentage moved. */
  lemma {:induction false} TakenOffFirst(gross: Paise, ds: seq<Discount>, off: Paise)
    requires 0 <= off <= After(gross, ds) && gross >= 0
    ensures off <= gross && After(gross, ds) - off <= After(gross - off, ds) <= After(gross, ds)
    ensures After(gross - off, ds) == After(gross, ds) - off <==> CutsStand(gross, ds, off)
    decreases |ds|
  {
    if ds != [] {
      var n := |ds| - 1;
      AfterWithin(gross, ds[..n]);
      var d, more := ds[n], After(gross, ds[..n]);
      TakenWithin(d, more);
      TakenOffFirst(gross, ds[..n], off);
      var less := After(gross - off, ds[..n]);
      CutsStandPrefix(gross, ds, off);
      hide PercentageOf, CutsStand;
      LeavesNoMore(d, less, more);
      if d.kind == Percentage {
        PercentageWithin(d, more);
        PercentageWithin(d, more - off);
      }
    }
  }

  /** Starting from less leaves no more. */
  lemma {:induction false} AfterMonotone(less: Paise, more: Paise, ds: seq<Discount>)
    requires 0 <= less <= more
    ensures 0 <= After(less, ds) <= After(more, ds)
    decreases |ds|
  {
    if ds != [] {
      var n := |ds| - 1;
      AfterMonotone(less, more, ds[..n]);
      LeavesNoMore(ds[n], After(less, ds[..n]), After(more, ds[..n]));
      TakenWithin(ds[n], After(less, ds[..n]));
    }
  }

  /** With no sale below zero, what any discount leaves of a return is nothing. */
  lemma {:induction false} ReturnsLeaveNothing(gross: Paise, ds: seq<Discount>)
    requires gross < 0
    ensures After(gross, ds) == if ds == [] then gross else 0
    decreases |ds|
  {
    if ds != [] {
      var n := |ds| - 1;
      ReturnsLeaveNothing(gross, ds[..n]);
      var d, before := ds[n], After(gross, ds[..n]);
      if d.kind == Percentage {
        if before == 0 { PercentageWithin(d, 0); TakenWithin(d, 0); }
      }
    }
  }

  /** Every manual percentage on a line takes as much of what it was taken of with `off` gone first. */
  ghost predicate ManualCutsStand(line: LineInput, off: Paise) {
    CutsStand(After(GrossOfLine(line), From(Promotion, line.discounts)), From(Manual, line.discounts), off)
  }

  lemma ReorderedWith(ds: seq<Discount>, d: Discount)
    ensures var ps, ms := From(Promotion, ds), From(Manual, ds);
      Ordered(ds + [d]) == if d.source == Promotion then ps + [d] + ms else ps + ms + [d]
  {
    hide From;
    FromJoin(Promotion, ds, [d]);
    FromJoin(Manual, ds, [d]);
    FromSame(d.source, [d]);
  }

  lemma NoManualMoves(line: LineInput)
    ensures forall off: Paise :: (forall d :: d in line.discounts ==> d.source == Promotion || d.kind != Percentage) ==> ManualCutsStand(line, off)
  {
    FromAmong(Manual, line.discounts);
  }

  lemma {:induction false} FromAmong(source: Source, ds: seq<Discount>)
    ensures forall d :: d in From(source, ds) ==> d in ds && d.source == source
    decreases |ds|
  {
    if ds != [] { FromAmong(source, ds[1..]); }
  }

  /**
    * A face value, of whatever size, never takes more than itself off the total shown.  It takes
    * exactly itself if and only if it fits, and is manual or leaves every manual percentage on the
    * line taking as much of what it was taken of with the promotion already off.
    */
  lemma {:induction false} FaceValueComesOff(line: LineInput, d: Discount)
    requires d.kind != Percentage
    ensures var shown, now := Priced(line).lineTotal, Priced(line.(discounts := line.discounts + [d])).lineTotal;
      && shown - d.value <= now && (shown >= 0 ==> 0 <= now <= shown)
      && (now == shown - d.value <==> d.value <= shown && (d.source == Manual || ManualCutsStand(line, d.value)))
  {
    if d.source == Manual { ManualComesOffWhatIsShown(line, d); } else { PromotionComesOff(line, d); }
  }

  lemma PromotionComesOff(line: LineInput, d: Discount)
    requires d.kind != Percentage && d.source == Promotion
    ensures var shown, now := Priced(line).lineTotal, Priced(line.(discounts := line.discounts + [d])).lineTotal;
      && shown - d.value <= now && (shown >= 0 ==> 0 <= now <= shown)
      && (now == shown - d.value <==> d.value <= shown && ManualCutsStand(line, d.value))
  {
    hide From, ExtractInclusiveTax, MultiplyByQuantity, CutsStand, After, AppliedIn;
    ReorderedWith(line.discounts, d);
    NothingOffStands(line);
    FaceValueFirst(GrossOfLine(line), From(Promotion, line.discounts), From(Manual, line.discounts), d);
  }

  lemma NothingOffStands(line: LineInput)
    ensures ManualCutsStand(line, 0)
  {
  }

  lemma FaceValueFirst(gross: Paise, ps: seq<Discount>, ms: seq<Discount>, d: Discount)
    requires d.kind != Percentage
    ensures var shown, now := After(gross, ps + ms), After(gross, ps + [d] + ms);
      && shown - d.value <= now && (shown >= 0 ==> 0 <= now <= shown)
      && (now == shown - d.value <==> d.value <= shown && (d.value == 0 || CutsStand(After(gross, ps), ms, d.value)))
  {
    hide CutsStand;
    AfterJoin(gross, ps, ms);
    if gross >= 0 {
      AfterJoin(gross, ps + [d], ms);
      AfterJoin(gross, ps, [d]);
      AfterWithin(gross, ps);
      assert [d][..0] == [];
      var left := After(gross, ps);
      AfterMonotone(if d.value > left then 0 else left - d.value, left, ms);
      if d.value <= After(left, ms) { TakenOffFirst(left, ms, d.value); }
    } else {
      ReturnsLeaveNothing(gross, ps + ms);
      ReturnsLeaveNothing(gross, ps + [d] + ms);
    }
  }

  /** So with no manual percentage on the line a face value comes off it exactly just when it fits, whatever else is there. */
  lemma {:induction false} NoPercentageIsExact(line: LineInput, d: Discount)
    requires d.kind != Percentage
    requires forall e :: e in line.discounts ==> e.source == Promotion || e.kind != Percentage
    ensures Priced(line.(discounts := line.discounts + [d])).lineTotal == Priced(line).lineTotal - d.value
       <==> d.value <= Priced(line).lineTotal
  {
    hide Priced, ManualCutsStand;
    NoManualMoves(line);
    FaceValueComesOff(line, d);
  }

  /** And one that does not: ten per cent given by hand, then ten rupees of promotion taking nine. */
  lemma {:induction false} LatePromotionJumpsTheQueue()
    ensures
      var tenPercent: Discount := Discount(Percentage, 1000, Manual);
      var line: LineInput := LineInput(0, "", 10000, 1000, TaxCode("", 0), [tenPercent], None);
      var off: Discount := Discount(Fixed, 1000, Promotion);
      Priced(line).lineTotal == 9000 && Priced(line.(discounts := [tenPercent, off])).lineTotal == 8100
  {
    hide RoundHalfUp, ExtractInclusiveTax, AppliedIn;
    var tenPercent: Discount := Discount(Percentage, 1000, Manual);
    var off: Discount := Discount(Fixed, 1000, Promotion);
    RoundExact(10000, QUANTITY_SCALE);
    RoundExact(1000, BASIS_POINTS);
    RoundExact(900, BASIS_POINTS);
    OrderedPair(tenPercent, off);
    assert [tenPercent][..0] == [] && [off, tenPercent][..1] == [off] && [off][..0] == [];
    assert After(10000, []) == 10000;
    assert After(10000, [tenPercent]) == 9000;
    assert After(10000, [off]) == 9000;
    assert After(10000, [off, tenPercent]) == 8100;
  }

  lemma OrderedPair(manual: Discount, promotion: Discount)
    requires manual.source == Manual && promotion.source == Promotion
    ensures Ordered([manual]) == [manual] && Ordered([manual, promotion]) == [promotion, manual]
  {
    FromSame(Manual, [manual]);
    FromSame(Promotion, [promotion]);
    FromJoin(Manual, [manual], [promotion]);
    FromJoin(Promotion, [manual], [promotion]);
    assert [manual] + [promotion] == [manual, promotion];
  }
}
