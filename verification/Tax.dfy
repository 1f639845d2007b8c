/// GST taken out of prices that include it, in halves, and the block of it on a receipt.
module Tax {
  import opened Wrappers
  import opened Lists
  import opened Money
  import opened Allocation
  import opened AllocationLaws
  import Lex

  /** A GST rate.  The constructor refuses a negative one. */
  datatype TaxCode = TaxCode(code: string, rateBp: nat)

  datatype TaxComponent = TaxComponent(
    code: string, rateBp: nat, taxableBase: Paise, taxAmount: Paise, cgst: Paise, sgst: Paise)
  {
    function Gross(): Paise { taxableBase + taxAmount }
  }

  datatype Item = Item(code: TaxCode, gross: Paise)

  datatype Error = TwoRates(code: string)

  function ExtractInclusiveTax(gross: Paise, rateBp: nat): Paise {
    if rateBp == 0 then 0 else RoundHalfUp(gross * rateBp, BASIS_POINTS + rateBp)
  }

  /** The tax is the rounded share of the gross, at any rate including zero. */
  lemma {:induction false} TaxIsRounded(gross: Paise, rateBp: nat)
    ensures IsRounded(gross * rateBp, BASIS_POINTS + rateBp, ExtractInclusiveTax(gross, rateBp))
    ensures gross >= 0 ==> 0 <= ExtractInclusiveTax(gross, rateBp) <= gross
  {
    var den := BASIS_POINTS + rateBp;
    if rateBp == 0 {
      assert gross * rateBp == 0;
    } else {
      RoundIsRounded(gross * rateBp, den);
      if gross >= 0 {
        MulOrder(rateBp, den, gross);
        assert gross * rateBp == rateBp * gross && gross * den == den * gross;
        MulOrder(0, gross, rateBp);
        RoundWithin(gross * rateBp, den, gross);
      }
    }
  }

  /** The two halves of a tax: the odd paisa goes to the central one. */
  function Component(code: TaxCode, gross: Paise): TaxComponent {
    var tax := ExtractInclusiveTax(gross, code.rateBp);
    var cgst := RoundHalfUp(tax, 2);
    TaxComponent(code.code, code.rateBp, gross - tax, tax, cgst, tax - cgst)
  }

  /** Largest remainder over two equal weights: the first half is the larger, by at most a paisa. */
  method SplitCgstSgst(tax: Paise) returns (cgst: Paise, sgst: Paise)
    ensures cgst + sgst == tax
    ensures cgst == RoundHalfUp(tax, 2)
    ensures Abs(cgst) - Abs(sgst) == Abs(tax) % 2
  {
    TwoWeights();
    var r := Allocate(tax, [1, 1]);
    cgst, sgst := r.value[0], r.value[1];
    ghost var winners :| IsAllocation(tax, [1, 1], r.value, winners);
    PartsSumToWhole(tax, [1, 1], r.value, winners);
    HalvesOf(tax, r.value, winners);
  }

  lemma TwoWeights()
    ensures Sum([1, 1]) == 2
  {
    assert [1, 1][..1] == [1] && [1][..0] == [];
    assert Sum([1]) == 1 && Sum([1, 1]) == Sum([1]) + 1;
  }

  lemma HalvesOf(tax: Paise, shares: seq<Paise>, winners: set<nat>)
    requires Sum([1, 1]) == 2 && IsAllocation(tax, [1, 1], shares, winners)
    ensures |shares| == 2 && shares[0] + shares[1] == tax
    ensures shares[0] == RoundHalfUp(tax, 2)
  {
    var b0, r0 := Part(tax, [1, 1], shares, winners, 0);
    var b1, r1 := Part(tax, [1, 1], shares, winners, 1);
    PartsSumToWhole(tax, [1, 1], shares, winners);
    assert shares == [shares[0], shares[1]];
    assert shares[..1] == [shares[0]] && [shares[0]][..0] == [];
    assert Sum(shares[..1]) == shares[0] && Sum(shares) == Sum(shares[..1]) + shares[1];
    var rems := Rems(tax, [1, 1], 2);
    assert rems[0] == r0 && rems[1] == r1;
    assert 1 in winners && 0 !in winners ==> Beats(rems, 1, 0);
  }

  method ComponentFor(code: TaxCode, gross: Paise) returns (c: TaxComponent)
    ensures c == Component(code, gross)
    ensures c.Gross() == gross && c.cgst + c.sgst == c.taxAmount
  {
    var tax := ExtractInclusiveTax(gross, code.rateBp);
    var cgst, sgst := SplitCgstSgst(tax);
    c := TaxComponent(code.code, code.rateBp, gross - tax, tax, cgst, sgst);
  }

  // ---- Grouping ----

  /** The sum of some figure over the items of one code. */
  function GroupSum(items: seq<Item>, code: string, f: Item -> int): int {
    if items == [] then 0
    else
      var n := |items| - 1;
      GroupSum(items[..n], code, f) + if items[n].code.code == code then f(items[n]) else 0
  }

  function TotalOf(items: seq<Item>, f: Item -> int): int {
    if items == [] then 0 else TotalOf(items[..|items| - 1], f) + f(items[|items| - 1])
  }

  function GrossOf(): Item -> int { (i: Item) => i.gross }

  function TaxOf(): Item -> int { (i: Item) => ExtractInclusiveTax(i.gross, i.code.rateBp) }

  function One(): Item -> int { (i: Item) => 1 }

  predicate OneRatePerCode(items: seq<Item>) {
    forall i, j :: 0 <= i < |items| && 0 <= j < |items| && items[i].code.code == items[j].code.code ==>
      items[i].code == items[j].code
  }

  /** Ascending rate, then code: the order the rows are read in. */
  predicate Before(a: TaxComponent, b: TaxComponent) {
    a.rateBp < b.rateBp || (a.rateBp == b.rateBp && Lex.Less(Lex.CodePoints(a.code), Lex.CodePoints(b.code)))
  }

  ghost predicate Sorted(cs: seq<TaxComponent>) {
    forall i, j :: 0 <= i < j < |cs| ==> Before(cs[i], cs[j])
  }

  /** The row of one code: its tax computed once, on the group's total. */
  ghost predicate IsRow(items: seq<Item>, c: TaxComponent) {
    exists i :: 0 <= i < |items| && c == Component(items[i].code, GroupSum(items, items[i].code.code, GrossOf()))
  }

  /** The reference: one row per code present, in order. */
  ghost predicate IsBreakdown(items: seq<Item>, cs: seq<TaxComponent>) {
    && Sorted(cs)
    && (forall c :: c in cs ==> IsRow(items, c))
    && (forall i :: 0 <= i < |items| ==> HasRow(cs, items[i].code.code))
  }

  ghost predicate HasRow(cs: seq<TaxComponent>, code: string) {
    exists c :: c in cs && c.code == code
  }

  // ---- The method ----

  function InsertRow(cs: seq<TaxComponent>, c: TaxComponent): (r: seq<TaxComponent>)
    ensures forall x :: x in r <==> x == c || x in cs
  {
    if cs == [] || Before(c, cs[0]) then [c] + cs else [cs[0]] + InsertRow(cs[1..], c)
  }

  lemma BeforeTotal(a: TaxComponent, b: TaxComponent)
    ensures Before(a, b) || Before(b, a) || (a.rateBp == b.rateBp && a.code == b.code)
    ensures !(Before(a, b) && Before(b, a))
  {
    var s, t := Lex.CodePoints(a.code), Lex.CodePoints(b.code);
    Lex.Total(s, t);
    if Lex.Less(s, t) && Lex.Less(t, s) {
      Lex.Transitive(s, t, s);
      Lex.Irreflexive(s);
    }
    Lex.Irreflexive(s);
  }

  lemma BeforeTransitive(a: TaxComponent, b: TaxComponent, c: TaxComponent)
    requires Before(a, b) && Before(b, c)
    ensures Before(a, c)
  {
    if a.rateBp == c.rateBp { Lex.Transitive(Lex.CodePoints(a.code), Lex.CodePoints(b.code), Lex.CodePoints(c.code)); }
  }

  lemma {:induction false} InsertSorted(cs: seq<TaxComponent>, c: TaxComponent)
    requires Sorted(cs) && forall x :: x in cs ==> x.code != c.code
    ensures Sorted(InsertRow(cs, c))
    decreases |cs|
  {
    if cs != [] {
      BeforeTotal(c, cs[0]);
      if Before(c, cs[0]) {
        forall j | 1 <= j < |cs| ensures Before(c, cs[j]) { BeforeTransitive(c, cs[0], cs[j]); }
      } else {
        InsertSorted(cs[1..], c);
        var tail := InsertRow(cs[1..], c);
        forall j | 0 <= j < |tail| ensures Before(cs[0], tail[j]) {
          assert tail[j] in tail;
          if tail[j] != c { var k :| 0 <= k < |cs[1..]| && cs[1..][k] == tail[j]; }
        }
      }
    }
  }

  ghost predicate Present(items: seq<Item>, code: TaxCode) {
    exists i :: 0 <= i < |items| && items[i].code == code
  }

  /** What the dictionary holds: per code, the code as first seen and the gross so far. */
  ghost predicate Grouped(items: seq<Item>, grouped: map<string, Item>) {
    && (forall code :: code in grouped ==>
          && grouped[code].code.code == code
          && grouped[code].gross == GroupSum(items, code, GrossOf())
          && Present(items, grouped[code].code))
    && (forall i :: 0 <= i < |items| ==>
          items[i].code.code in grouped && grouped[items[i].code.code].code == items[i].code)
  }

  /** The dictionary's insertion order. */
  ghost predicate Keys(order: seq<string>, grouped: map<string, Item>) {
    && (forall code :: code in order <==> code in grouped)
    && (forall j, k :: 0 <= j < k < |order| ==> order[j] != order[k])
  }

  lemma {:induction false} NoGroup(items: seq<Item>, code: string, f: Item -> int)
    requires forall i :: 0 <= i < |items| ==> items[i].code.code != code
    ensures GroupSum(items, code, f) == 0
  {
    if items != [] { NoGroup(items[..|items| - 1], code, f); }
  }

  lemma PresentNext(items: seq<Item>, k: nat, code: TaxCode)
    requires k < |items| && Present(items[..k], code)
    ensures Present(items[..k + 1], code) && Present(items, code)
  {
    var i :| 0 <= i < k && items[..k][i].code == code;
    assert items[..k + 1][i].code == code && items[i].code == code;
  }

  lemma GroupedAgain(items: seq<Item>, k: nat, grouped: map<string, Item>, code: string)
    requires k < |items| && Grouped(items[..k], grouped)
    requires code in grouped && grouped[code].code == items[k].code
    ensures Grouped(items[..k + 1], grouped[code := grouped[code].(gross := grouped[code].gross + items[k].gross)])
  {
    hide Present;
    var next := items[..k + 1];
    assert next[..k] == items[..k] && next[k] == items[k];
    forall c | c in grouped ensures Present(next, grouped[c].code) { PresentNext(items, k, grouped[c].code); }
  }

  lemma GroupedNew(items: seq<Item>, k: nat, grouped: map<string, Item>, code: string)
    requires k < |items| && Grouped(items[..k], grouped)
    requires code == items[k].code.code && code !in grouped
    ensures Grouped(items[..k + 1], grouped[code := items[k]])
  {
    var next := items[..k + 1];
    assert next[..k] == items[..k] && next[k] == items[k];
    NoGroup(items[..k], code, GrossOf());
    forall c | c in grouped ensures Present(next, grouped[c].code) { PresentNext(items, k, grouped[c].code); }
    assert Present(next, items[k].code);
  }

  lemma TwoRatesFound(items: seq<Item>, k: nat, grouped: map<string, Item>, code: string)
    requires k < |items| && Grouped(items[..k], grouped)
    requires code == items[k].code.code && code in grouped && grouped[code].code != items[k].code
    ensures !OneRatePerCode(items)
  {
    var i :| 0 <= i < k && items[..k][i].code == grouped[code].code;
    assert items[i].code != items[k].code && items[i].code.code == code;
  }

  lemma OneRateFound(items: seq<Item>, grouped: map<string, Item>)
    requires Grouped(items, grouped)
    ensures OneRatePerCode(items)
  {
  }

  /** Groups by code as the receipt does; refuses a code that appears with two rates. */
  method Group(items: seq<Item>) returns (r: Result<(seq<string>, map<string, Item>), Error>)
    ensures r.Ok? <==> OneRatePerCode(items)
    ensures r.Ok? ==> Keys(r.value.0, r.value.1) && Grouped(items, r.value.1)
  {
    hide Grouped, OneRatePerCode;
    var order: seq<string>, grouped: map<string, Item> := [], map[];
    NothingGrouped(items);
    for k := 0 to |items|
      invariant Keys(order, grouped) && Grouped(items[..k], grouped)
    {
      var code := items[k].code.code;
      GroupedCodes(items[..k], grouped);
      if code in grouped {
        if grouped[code].code.rateBp != items[k].code.rateBp {
          TwoRatesFound(items, k, grouped, code);
          return Err(TwoRates(code));
        }
        GroupedAgain(items, k, grouped, code);
        grouped := grouped[code := grouped[code].(gross := grouped[code].gross + items[k].gross)];
      } else {
        GroupedNew(items, k, grouped, code);
        order, grouped := order + [code], grouped[code := items[k]];
      }
    }
    assert items[..|items|] == items;
    OneRateFound(items, grouped);
    return Ok((order, grouped));
  }

  lemma NothingGrouped(items: seq<Item>)
    ensures Grouped(items[..0], map[])
  {
  }

  lemma GroupedCodes(items: seq<Item>, grouped: map<string, Item>)
    requires Grouped(items, grouped)
    ensures forall code :: code in grouped ==> grouped[code].code.code == code
  {
  }

  /** The GST block of a receipt. */
  method Breakdown(items: seq<Item>) returns (r: Result<seq<TaxComponent>, Error>)
    ensures r.Ok? <==> OneRatePerCode(items)
    ensures r.Ok? ==> IsBreakdown(items, r.value)
  {
    hide OneRatePerCode, RowsFor, Grouped, IsBreakdown;
    var groups := Group(items);
    match groups {
      case Err(e) => return Err(e);
      case Ok((order, grouped)) =>
        var rows: seq<TaxComponent> := [];
        NoRowsYet(items);
        assert order[..0] == [];
        for k := 0 to |order|
          invariant RowsFor(items, rows, order[..k])
        {
          var g := grouped[order[k]];
          var c := ComponentFor(g.code, g.gross);
          RowOfGroup(items, grouped, order[k]);
          assert order[..k + 1] == order[..k] + [order[k]];
          RowsForNext(items, rows, order[..k], c);
          rows := InsertRow(rows, c);
        }
        assert order[..|order|] == order;
        RowsForAll(items, rows, order, grouped);
        return Ok(rows);
    }
  }

  ghost predicate RowsFor(items: seq<Item>, rows: seq<TaxComponent>, done: seq<string>) {
    && Sorted(rows)
    && (forall c :: c in rows ==> IsRow(items, c) && c.code in done)
    && (forall code :: code in done ==> HasRow(rows, code))
  }

  lemma NoRowsYet(items: seq<Item>)
    ensures RowsFor(items, [], [])
  {
  }

  lemma RowsForNext(items: seq<Item>, rows: seq<TaxComponent>, done: seq<string>, c: TaxComponent)
    requires RowsFor(items, rows, done) && IsRow(items, c) && c.code !in done
    ensures RowsFor(items, InsertRow(rows, c), done + [c.code])
  {
    hide Before, IsRow;
    InsertSorted(rows, c);
    forall code | code in done ensures HasRow(InsertRow(rows, c), code) {
      var x :| x in rows && x.code == code;
    }
    assert c in InsertRow(rows, c);
  }

  lemma RowsForAll(items: seq<Item>, rows: seq<TaxComponent>, order: seq<string>, grouped: map<string, Item>)
    requires RowsFor(items, rows, order) && Keys(order, grouped) && Grouped(items, grouped)
    ensures IsBreakdown(items, rows)
  {
  }

  lemma RowOfGroup(items: seq<Item>, grouped: map<string, Item>, code: string)
    requires Grouped(items, grouped) && code in grouped
    ensures IsRow(items, Component(grouped[code].code, grouped[code].gross))
    ensures grouped[code].code.code == code
  {
    var i :| 0 <= i < |items| && items[i].code == grouped[code].code;
  }
}
