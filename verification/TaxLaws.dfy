/// The GST block: what it conserves, that the order of the lines cannot change it, and how
/// far grouping first can move the tax.
module TaxLaws {
  import opened Lists
  import opened Money
  import opened Tax

  // ---- The block is determined by the basket ----

  lemma RowFacts(items: seq<Item>, cs: seq<TaxComponent>, c: TaxComponent)
    requires OneRatePerCode(items) && IsBreakdown(items, cs) && c in cs
    ensures forall i :: 0 <= i < |items| && items[i].code.code == c.code ==>
      c == Component(items[i].code, GroupSum(items, items[i].code.code, GrossOf()))
  {
    assert IsRow(items, c);
  }

  lemma SameRowsOf(items: seq<Item>, a: seq<TaxComponent>, b: seq<TaxComponent>, c: TaxComponent)
    requires OneRatePerCode(items) && IsBreakdown(items, a) && IsBreakdown(items, b) && c in a
    ensures c in b
  {
    assert IsRow(items, c);
    var i :| 0 <= i < |items| && c == Component(items[i].code, GroupSum(items, items[i].code.code, GrossOf()));
    assert HasRow(b, items[i].code.code);
    var d :| d in b && d.code == items[i].code.code;
    RowFacts(items, b, d);
  }

  lemma {:induction false} SortedUnique(a: seq<TaxComponent>, b: seq<TaxComponent>)
    requires Sorted(a) && Sorted(b)
    requires forall c :: c in a <==> c in b
    ensures a == b
    decreases |a|
  {
    hide Before;
    assert (a != [] ==> a[0] in a) && (b != [] ==> b[0] in b);
    if a != [] && b != [] {
      if a[0] != b[0] {
        var j :| 0 <= j < |b| && b[j] == a[0];
        var k :| 0 <= k < |a| && a[k] == b[0];
        BeforeTotal(a[0], b[0]);
        assert false;
      }
      forall c ensures c in a[1..] <==> c in b[1..] {
        BeforeIrreflexive(a[0]);
        assert a == [a[0]] + a[1..] && b == [b[0]] + b[1..];
        assert a[0] !in a[1..] && a[0] !in b[1..];
        assert (c in a <==> c == a[0] || c in a[1..]) && (c in b <==> c == a[0] || c in b[1..]);
      }
      SortedUnique(a[1..], b[1..]);
    }
  }

  lemma BeforeIrreflexive(c: TaxComponent)
    ensures !Before(c, c)
  {
    BeforeTotal(c, c);
  }

  /** A basket has one GST block. */
  lemma BreakdownUnique(items: seq<Item>, a: seq<TaxComponent>, b: seq<TaxComponent>)
    requires OneRatePerCode(items) && IsBreakdown(items, a) && IsBreakdown(items, b)
    ensures a == b
  {
    forall c ensures c in a <==> c in b {
      if c in a { SameRowsOf(items, a, b, c); }
      if c in b { SameRowsOf(items, b, a, c); }
    }
    SortedUnique(a, b);
  }

  // ---- Reordering the lines ----

  lemma {:induction false} GroupSumRemove(items: seq<Item>, k: nat, code: string, f: Item -> int)
    requires k < |items|
    ensures GroupSum(items, code, f)
         == GroupSum(items[..k] + items[k + 1..], code, f) + if items[k].code.code == code then f(items[k]) else 0
  {
    var n := |items| - 1;
    if k == n {
      assert items[..k] + items[k + 1..] == items[..n];
    } else {
      var rest := items[..k] + items[k + 1..];
      assert rest[..|rest| - 1] == items[..n][..k] + items[..n][k + 1..];
      assert rest[|rest| - 1] == items[n];
      GroupSumRemove(items[..n], k, code, f);
    }
  }

  lemma WithoutOne(b: seq<Item>, k: nat)
    requires k < |b|
    ensures multiset(b) == multiset(b[..k] + b[k + 1..]) + multiset{b[k]}
  {
    assert b == b[..k] + [b[k]] + b[k + 1..];
  }

  lemma RemoveFromBoth(a: seq<Item>, b: seq<Item>, k: nat)
    requires multiset(a) == multiset(b) && a != [] && k < |b| && b[k] == a[|a| - 1]
    ensures multiset(a[..|a| - 1]) == multiset(b[..k] + b[k + 1..])
  {
    var n := |a| - 1;
    WithoutOne(a, n);
    WithoutOne(b, k);
    assert a[..n] + a[n + 1..] == a[..n];
    SameLess(multiset(a[..n]), multiset(b[..k] + b[k + 1..]), b[k]);
  }

  lemma SameLess(a: multiset<Item>, b: multiset<Item>, x: Item)
    requires a + multiset{x} == b + multiset{x}
    ensures a == b
  {
    assert a == a + multiset{x} - multiset{x};
    assert b == b + multiset{x} - multiset{x};
  }

  lemma {:induction false} GroupSumReordered(a: seq<Item>, b: seq<Item>, code: string, f: Item -> int)
    requires multiset(a) == multiset(b)
    ensures GroupSum(a, code, f) == GroupSum(b, code, f)
    decreases |a|
  {
    if a == [] {
      assert |multiset(b)| == |b| && |multiset(a)| == 0;
    } else {
      var k := InBoth(a, b, |a| - 1);
      RemoveFromBoth(a, b, k);
      GroupSumReordered(a[..|a| - 1], b[..k] + b[k + 1..], code, f);
      GroupSumRemove(b, k, code, f);
    }
  }

  lemma InBoth(a: seq<Item>, b: seq<Item>, i: nat) returns (j: nat)
    requires multiset(a) == multiset(b) && i < |a|
    ensures j < |b| && b[j] == a[i]
  {
    assert a[i] in multiset(a);
    assert a[i] in b;
    j :| 0 <= j < |b| && b[j] == a[i];
  }

  lemma ReorderedOneRate(a: seq<Item>, b: seq<Item>)
    requires multiset(a) == multiset(b) && OneRatePerCode(a)
    ensures OneRatePerCode(b)
  {
    forall i, j | 0 <= i < |b| && 0 <= j < |b| && b[i].code.code == b[j].code.code
      ensures b[i].code == b[j].code
    {
      var x := InBoth(b, a, i);
      var y := InBoth(b, a, j);
    }
  }

  lemma ReorderedBlock(a: seq<Item>, b: seq<Item>, cs: seq<TaxComponent>)
    requires multiset(a) == multiset(b) && IsBreakdown(a, cs)
    ensures IsBreakdown(b, cs)
  {
    hide Sorted;
    forall c | c in cs ensures IsRow(b, c) {
      assert IsRow(a, c);
      var i :| 0 <= i < |a| && c == Component(a[i].code, GroupSum(a, a[i].code.code, GrossOf()));
      var j := InBoth(a, b, i);
      GroupSumReordered(a, b, a[i].code.code, GrossOf());
    }
    forall j | 0 <= j < |b| ensures HasRow(cs, b[j].code.code) {
      var i := InBoth(b, a, j);
      assert HasRow(cs, a[i].code.code);
    }
  }

  /** Ringing the same lines in any order prints the same GST block, or is refused either way. */
  lemma OrderDoesNotMatter(a: seq<Item>, b: seq<Item>)
    requires multiset(a) == multiset(b)
    ensures OneRatePerCode(a) <==> OneRatePerCode(b)
    ensures forall x, y :: OneRatePerCode(a) && IsBreakdown(a, x) && IsBreakdown(b, y) ==> x == y
  {
    if OneRatePerCode(a) { ReorderedOneRate(a, b); }
    if OneRatePerCode(b) { ReorderedOneRate(b, a); }
    forall x, y | OneRatePerCode(a) && IsBreakdown(a, x) && IsBreakdown(b, y) ensures x == y {
      ReorderedBlock(a, b, x);
      BreakdownUnique(b, x, y);
    }
  }

  // ---- Summing over the rows ----

  function GroupSums(items: seq<Item>, codes: seq<string>, f: Item -> int): (sums: seq<int>)
    ensures |sums| == |codes|
  {
    seq(|codes|, k requires 0 <= k < |codes| => GroupSum(items, codes[k], f))
  }

  ghost predicate Distinct(codes: seq<string>) {
    forall j, k :: 0 <= j < k < |codes| ==> codes[j] != codes[k]
  }

  /** Groups cover the lines: summing any figure by code and then over codes loses nothing. */
  lemma {:induction false} GroupsCover(items: seq<Item>, codes: seq<string>, f: Item -> int)
    requires Distinct(codes)
    requires forall i :: 0 <= i < |items| ==> items[i].code.code in codes
    ensures Sum(GroupSums(items, codes, f)) == TotalOf(items, f)
    decreases |items|
  {
    if items == [] {
      SumZeros(GroupSums(items, codes, f));
    } else {
      var n := |items| - 1;
      GroupsCover(items[..n], codes, f);
      var k :| 0 <= k < |codes| && codes[k] == items[n].code.code;
      var before := GroupSums(items[..n], codes, f);
      assert GroupSums(items, codes, f) == before[k := before[k] + f(items[n])];
      SumUpdate(before, k, before[k] + f(items[n]));
    }
  }

  lemma {:induction false} SumZeros(xs: seq<int>)
    requires forall i :: 0 <= i < |xs| ==> xs[i] == 0
    ensures Sum(xs) == 0
  {
    if xs != [] { SumZeros(xs[..|xs| - 1]); }
  }

  function CodesOf(cs: seq<TaxComponent>): (codes: seq<string>)
    ensures |codes| == |cs|
  {
    seq(|cs|, k requires 0 <= k < |cs| => cs[k].code)
  }

  lemma CodesDistinct(items: seq<Item>, cs: seq<TaxComponent>)
    requires OneRatePerCode(items) && IsBreakdown(items, cs)
    ensures Distinct(CodesOf(cs))
    ensures forall i :: 0 <= i < |items| ==> items[i].code.code in CodesOf(cs)
  {
    forall j, k | 0 <= j < k < |cs| ensures cs[j].code != cs[k].code {
      if cs[j].code == cs[k].code {
        assert IsRow(items, cs[j]) && IsRow(items, cs[k]);
        RowFacts(items, cs, cs[j]);
        RowFacts(items, cs, cs[k]);
        BeforeIrreflexive(cs[j]);
      }
    }
    forall i | 0 <= i < |items| ensures items[i].code.code in CodesOf(cs) {
      assert HasRow(cs, items[i].code.code);
      var c :| c in cs && c.code == items[i].code.code;
      var k :| 0 <= k < |cs| && cs[k] == c;
      assert CodesOf(cs)[k] == c.code;
    }
  }

  function GrossTotal(cs: seq<TaxComponent>): Paise {
    if cs == [] then 0 else GrossTotal(cs[..|cs| - 1]) + cs[|cs| - 1].Gross()
  }

  function TaxTotal(cs: seq<TaxComponent>): Paise {
    if cs == [] then 0 else TaxTotal(cs[..|cs| - 1]) + cs[|cs| - 1].taxAmount
  }

  function TaxableTotal(cs: seq<TaxComponent>): Paise {
    if cs == [] then 0 else TaxableTotal(cs[..|cs| - 1]) + cs[|cs| - 1].taxableBase
  }

  lemma RowGross(items: seq<Item>, c: TaxComponent)
    requires IsRow(items, c)
    ensures c.Gross() == GroupSum(items, c.code, GrossOf()) && c.cgst + c.sgst == c.taxAmount
    ensures c.taxAmount == ExtractInclusiveTax(GroupSum(items, c.code, GrossOf()), c.rateBp)
  {
  }

  lemma {:induction false} GrossOfRows(items: seq<Item>, cs: seq<TaxComponent>)
    requires forall c :: c in cs ==> IsRow(items, c)
    ensures GrossTotal(cs) == Sum(GroupSums(items, CodesOf(cs), GrossOf()))
    ensures TaxableTotal(cs) + TaxTotal(cs) == GrossTotal(cs)
    decreases |cs|
  {
    if cs != [] {
      var n := |cs| - 1;
      assert cs == cs[..n] + [cs[n]];
      GrossOfRows(items, cs[..n]);
      assert CodesOf(cs)[..n] == CodesOf(cs[..n]);
      assert GroupSums(items, CodesOf(cs), GrossOf())[..n] == GroupSums(items, CodesOf(cs[..n]), GrossOf());
      RowGross(items, cs[n]);
    }
  }

  /** The block accounts for every paisa of the basket, and its halves for every paisa of tax. */
  lemma BlockConserves(items: seq<Item>, cs: seq<TaxComponent>)
    requires OneRatePerCode(items) && IsBreakdown(items, cs)
    ensures TaxableTotal(cs) + TaxTotal(cs) == TotalOf(items, GrossOf())
    ensures forall c :: c in cs ==> c.cgst + c.sgst == c.taxAmount
  {
    GrossOfRows(items, cs);
    CodesDistinct(items, cs);
    GroupsCover(items, CodesOf(cs), GrossOf());
    forall c | c in cs ensures c.cgst + c.sgst == c.taxAmount { RowGross(items, c); }
  }

  // ---- How far grouping first can move the tax ----

  lemma MissGrows(den: int, rate: int, t: int, g: int, c: int, tax: int, gross: int)
    requires 2 * Abs(den * t - g * rate) <= den * c
    requires 2 * Abs(tax * den - gross * rate) <= den
    ensures 2 * Abs(den * (t + tax) - (g + gross) * rate) <= den * (c + 1)
  {
    assert den * (t + tax) == den * t + tax * den;
    assert (g + gross) * rate == g * rate + gross * rate;
    assert den * (c + 1) == den * c + den;
  }

  /** The sum of some line taxes is within half a paisa a line of the exact tax on their gross. */
  predicate MissWithin(rate: nat, gross: int, taxes: int, lines: int) {
    2 * Abs((BASIS_POINTS + rate) * taxes - gross * rate) <= (BASIS_POINTS + rate) * lines
  }

  lemma {:induction false} GroupMiss(items: seq<Item>, code: TaxCode)
    requires forall i :: 0 <= i < |items| && items[i].code.code == code.code ==> items[i].code == code
    ensures MissWithin(code.rateBp, GroupSum(items, code.code, GrossOf()), GroupSum(items, code.code, TaxOf()),
                       GroupSum(items, code.code, One()))
  {
    if items == [] {
      assert 0 * code.rateBp == 0;
    } else {
      hide ExtractInclusiveTax, Abs;
      var n := |items| - 1;
      GroupMiss(items[..n], code);
      if items[n].code.code == code.code {
        TaxIsRounded(items[n].gross, code.rateBp);
        MissGrows(BASIS_POINTS + code.rateBp, code.rateBp,
                  GroupSum(items[..n], code.code, TaxOf()), GroupSum(items[..n], code.code, GrossOf()),
                  GroupSum(items[..n], code.code, One()),
                  ExtractInclusiveTax(items[n].gross, code.rateBp), items[n].gross);
      }
    }
  }

  lemma MissesMeet(den: int, exact: int, tax: int, taxes: int, lines: int)
    requires den > 0
    requires 2 * Abs(tax * den - exact) <= den && 2 * Abs(den * taxes - exact) <= den * lines
    ensures 2 * Abs(tax - taxes) <= lines + 1
  {
    assert (tax - taxes) * den == tax * den - den * taxes;
    assert (lines + 1) * den == den * lines + den;
    ScaledBound(tax - taxes, lines + 1, den);
  }

  lemma ScaledBound(d: int, n: int, den: int)
    requires den > 0 && 2 * Abs(d * den) <= n * den
    ensures 2 * Abs(d) <= n
  {
    assert 2 * d * den == 2 * (d * den) && -2 * d * den == -2 * (d * den);
    if 2 * d > n { MulStep(n, 2 * d, den); }
    if -2 * d > n { MulStep(n, -2 * d, den); }
  }

  lemma RoundedMeets(rate: nat, gross: int, tax: int, taxes: int, lines: int)
    requires IsRounded(gross * rate, BASIS_POINTS + rate, tax)
    requires MissWithin(rate, gross, taxes, lines)
    ensures 2 * Abs(tax - taxes) <= lines + 1
  {
    MissesMeet(BASIS_POINTS + rate, gross * rate, tax, taxes, lines);
  }

  /** One group's tax against the sum of its lines' taxes. */
  lemma GroupDifference(items: seq<Item>, code: TaxCode)
    requires forall i :: 0 <= i < |items| && items[i].code.code == code.code ==> items[i].code == code
    ensures 2 * Abs(ExtractInclusiveTax(GroupSum(items, code.code, GrossOf()), code.rateBp) - GroupSum(items, code.code, TaxOf()))
         <= GroupSum(items, code.code, One()) + 1
  {
    hide ExtractInclusiveTax, GroupSum, IsRounded, MissWithin;
    var gross := GroupSum(items, code.code, GrossOf());
    TaxIsRounded(gross, code.rateBp);
    GroupMiss(items, code);
    RoundedMeets(code.rateBp, gross, ExtractInclusiveTax(gross, code.rateBp),
                 GroupSum(items, code.code, TaxOf()), GroupSum(items, code.code, One()));
  }

  lemma SumsOfLast(items: seq<Item>, cs: seq<TaxComponent>, f: Item -> int)
    requires cs != []
    ensures var n := |cs| - 1;
      Sum(GroupSums(items, CodesOf(cs), f)) == Sum(GroupSums(items, CodesOf(cs[..n]), f)) + GroupSum(items, cs[n].code, f)
  {
    hide GroupSum;
    var n := |cs| - 1;
    assert GroupSums(items, CodesOf(cs), f)[..n] == GroupSums(items, CodesOf(cs[..n]), f);
  }

  lemma RowDifference(items: seq<Item>, c: TaxComponent)
    requires OneRatePerCode(items) && IsRow(items, c)
    ensures 2 * Abs(c.taxAmount - GroupSum(items, c.code, TaxOf())) <= GroupSum(items, c.code, One()) + 1
  {
    hide GroupSum, ExtractInclusiveTax, Abs;
    var i :| 0 <= i < |items| && c == Component(items[i].code, GroupSum(items, items[i].code.code, GrossOf()));
    GroupDifference(items, items[i].code);
  }

  lemma {:induction false} RowsDifference(items: seq<Item>, cs: seq<TaxComponent>)
    requires OneRatePerCode(items) && forall c :: c in cs ==> IsRow(items, c)
    ensures 2 * Abs(TaxTotal(cs) - Sum(GroupSums(items, CodesOf(cs), TaxOf())))
         <= Sum(GroupSums(items, CodesOf(cs), One())) + |cs|
    decreases |cs|
  {
    if cs == [] {
      assert GroupSums(items, CodesOf(cs), TaxOf()) == [] && GroupSums(items, CodesOf(cs), One()) == [];
    } else {
      hide OneRatePerCode, GroupSum, IsRow, Sum, GroupSums, CodesOf;
      var n := |cs| - 1;
      assert cs == cs[..n] + [cs[n]];
      RowsDifference(items, cs[..n]);
      SumsOfLast(items, cs, TaxOf());
      SumsOfLast(items, cs, One());
      RowDifference(items, cs[n]);
    }
  }

  lemma {:induction false} CountIsLength(items: seq<Item>)
    ensures TotalOf(items, One()) == |items|
  {
    if items != [] { CountIsLength(items[..|items| - 1]); }
  }

  /** Grouping first moves the tax by at most half a paisa per line and half a paisa per row. */
  lemma {:induction false} GroupingMovesLittle(items: seq<Item>, cs: seq<TaxComponent>)
    requires OneRatePerCode(items) && IsBreakdown(items, cs)
    ensures 2 * Abs(TaxTotal(cs) - TotalOf(items, TaxOf())) <= |items| + |cs|
  {
    hide ExtractInclusiveTax, Abs, OneRatePerCode, GroupSum, TaxTotal, Sum, TotalOf, GroupSums;
    RowsDifference(items, cs);
    CodesDistinct(items, cs);
    GroupsCover(items, CodesOf(cs), TaxOf());
    GroupsCover(items, CodesOf(cs), One());
    CountIsLength(items);
  }
}
