/// Splitting an amount across weights by largest remainder.
module Allocation {
  import opened Wrappers
  import opened Lists
  import opened Money

  datatype Error = NoWeights | NegativeWeight

  /** Decimal `//`: the quotient truncated toward zero. */
  function Trunc(x: int, y: int): int
    requires y > 0
  {
    if x >= 0 then x / y else -(-x / y)
  }

  /** One share, truncated, and what was cut off it. */
  function BaseOf(amount: int, weight: int, whole: int): int
    requires whole > 0
  {
    Trunc(amount * weight, whole)
  }

  function RemOf(amount: int, weight: int, whole: int): int
    requires whole > 0
  {
    amount * weight - BaseOf(amount, weight, whole) * whole
  }

  function Bases(amount: int, weights: seq<int>, whole: int): (bs: seq<int>)
    requires whole > 0
    ensures |bs| == |weights|
  {
    if weights == [] then []
    else Bases(amount, weights[..|weights| - 1], whole) + [BaseOf(amount, weights[|weights| - 1], whole)]
  }

  function Rems(amount: int, weights: seq<int>, whole: int): (rs: seq<int>)
    requires whole > 0
    ensures |rs| == |weights|
  {
    if weights == [] then []
    else Rems(amount, weights[..|weights| - 1], whole) + [RemOf(amount, weights[|weights| - 1], whole)]
  }

  lemma {:induction false} At(amount: int, weights: seq<int>, whole: int, i: nat)
    requires whole > 0 && i < |weights|
    ensures Bases(amount, weights, whole)[i] == BaseOf(amount, weights[i], whole)
    ensures Rems(amount, weights, whole)[i] == RemOf(amount, weights[i], whole)
    decreases |weights|
  {
    hide BaseOf, RemOf;
    if i < |weights| - 1 { At(amount, weights[..|weights| - 1], whole, i); }
  }

  function Leftover(amount: int, weights: seq<int>, whole: int): int
    requires whole > 0
  {
    amount - Sum(Bases(amount, weights, whole))
  }

  /** The sort key: larger remainders first, then earlier lines. */
  predicate Beats(rems: seq<int>, i: nat, j: nat)
    requires i < |rems| && j < |rems|
  {
    rems[i] > rems[j] || (rems[i] == rems[j] && i < j)
  }

  /** `winners` are the shares that receive one of the left-over paise. */
  ghost predicate AreWinners(rems: seq<int>, winners: set<nat>) {
    && (forall i :: i in winners ==> i < |rems|)
    && (forall i, j :: i in winners && 0 <= j < |rems| && j !in winners ==> Beats(rems, i, j))
  }

  /** The reference: every share truncated, and one paisa more for each winner. */
  ghost predicate IsAllocation(amount: int, weights: seq<int>, shares: seq<int>, winners: set<nat>)
    requires Sum(weights) > 0
  {
    var whole := Sum(weights);
    var bases, rems := Bases(amount, weights, whole), Rems(amount, weights, whole);
    var leftover := Leftover(amount, weights, whole);
    && |shares| == |weights|
    && AreWinners(rems, winners)
    && |winners| == Abs(leftover)
    && forall i :: 0 <= i < |weights| ==>
         shares[i] == bases[i] + if i !in winners then 0 else if leftover >= 0 then 1 else -1
  }

  predicate ValidWeights(weights: seq<int>) {
    weights != [] && forall i :: 0 <= i < |weights| ==> weights[i] >= 0
  }

  // ---- Sorting by remainder ----

  function Insert(rems: seq<int>, order: seq<nat>, i: nat): (r: seq<nat>)
    requires i < |rems| && forall k :: 0 <= k < |order| ==> order[k] < |rems|
    ensures |r| == |order| + 1
    ensures forall x :: x in r <==> x == i || x in order
    ensures forall k :: 0 <= k < |r| ==> r[k] < |rems|
  {
    if order == [] || Beats(rems, i, order[0]) then [i] + order
    else [order[0]] + Insert(rems, order[1..], i)
  }

  function ByRemainder(rems: seq<int>, upTo: nat): (order: seq<nat>)
    requires upTo <= |rems|
    ensures |order| == upTo
    ensures forall x: nat :: x in order <==> x < upTo
    ensures forall k :: 0 <= k < |order| ==> order[k] < |rems|
  {
    if upTo == 0 then [] else Insert(rems, ByRemainder(rems, upTo - 1), upTo - 1)
  }

  ghost predicate InOrder(rems: seq<int>, order: seq<nat>) {
    && (forall k :: 0 <= k < |order| ==> order[k] < |rems|)
    && forall j, k :: 0 <= j < k < |order| ==> Beats(rems, order[j], order[k])
  }

  lemma {:induction false} InsertInOrder(rems: seq<int>, order: seq<nat>, i: nat)
    requires InOrder(rems, order) && i < |rems| && i !in order
    ensures InOrder(rems, Insert(rems, order, i))
    decreases |order|
  {
    if order != [] && !Beats(rems, i, order[0]) {
      InsertInOrder(rems, order[1..], i);
      var tail := Insert(rems, order[1..], i);
      forall k | 0 <= k < |tail| ensures Beats(rems, order[0], tail[k]) {
        assert tail[k] in tail;
        if tail[k] != i { var m :| 0 <= m < |order[1..]| && order[1..][m] == tail[k]; }
      }
    }
  }

  lemma {:induction false} ByRemainderInOrder(rems: seq<int>, upTo: nat)
    requires upTo <= |rems|
    ensures InOrder(rems, ByRemainder(rems, upTo))
  {
    if upTo > 0 {
      ByRemainderInOrder(rems, upTo - 1);
      InsertInOrder(rems, ByRemainder(rems, upTo - 1), upTo - 1);
    }
  }

  // ---- The leftover is what the remainders add up to ----

  lemma Distribute(a: int, b: int, c: int)
    ensures (a + b) * c == a * c + b * c && c * (a + b) == c * a + c * b
  {
  }

  lemma {:induction false} ShareSums(amount: int, weights: seq<int>, whole: int)
    requires whole > 0
    ensures Sum(Bases(amount, weights, whole)) * whole + Sum(Rems(amount, weights, whole)) == amount * Sum(weights)
  {
    if weights != [] {
      var n := |weights| - 1;
      ShareSums(amount, weights[..n], whole);
      assert Bases(amount, weights, whole)[..n] == Bases(amount, weights[..n], whole);
      assert Rems(amount, weights, whole)[..n] == Rems(amount, weights[..n], whole);
      Distribute(Sum(Bases(amount, weights[..n], whole)), BaseOf(amount, weights[n], whole), whole);
      Distribute(Sum(weights[..n]), weights[n], amount);
    }
  }

  lemma RemRange(amount: int, weight: int, whole: int)
    requires whole > 0 && weight >= 0
    ensures var rem := RemOf(amount, weight, whole);
      if amount >= 0 then 0 <= rem < whole else -whole < rem <= 0
  {
    var x := amount * weight;
    if amount >= 0 {
      assert x >= 0;
    } else {
      assert x <= 0;
      assert Trunc(x, whole) * whole == -(-x / whole * whole);
    }
  }

  /** Every remainder on the amount's side of zero, and strictly inside one unit. */
  ghost predicate RemsInRange(amount: int, rems: seq<int>, whole: int) {
    forall i :: 0 <= i < |rems| ==> if amount >= 0 then 0 <= rems[i] < whole else -whole < rems[i] <= 0
  }

  lemma RemsRange(amount: int, weights: seq<int>, whole: int)
    requires whole > 0 && ValidWeights(weights)
    ensures RemsInRange(amount, Rems(amount, weights, whole), whole)
  {
    forall i | 0 <= i < |weights|
      ensures var rem := Rems(amount, weights, whole)[i];
        if amount >= 0 then 0 <= rem < whole else -whole < rem <= 0
    {
      At(amount, weights, whole, i);
      RemRange(amount, weights[i], whole);
    }
  }

  lemma {:induction false} SumRange(rems: seq<int>, lo: int, hi: int)
    requires forall i :: 0 <= i < |rems| ==> lo <= rems[i] <= hi
    ensures |rems| * lo <= Sum(rems) <= |rems| * hi
  {
    if rems != [] {
      var n := |rems| - 1;
      SumRange(rems[..n], lo, hi);
      assert |rems| * lo == n * lo + lo && |rems| * hi == n * hi + hi;
    }
  }

  lemma LeftoverTimesWhole(amount: int, weights: seq<int>)
    requires Sum(weights) > 0
    ensures Leftover(amount, weights, Sum(weights)) * Sum(weights) == Sum(Rems(amount, weights, Sum(weights)))
  {
    hide Bases, Rems, Sum;
    ShareSums(amount, weights, Sum(weights));
    Distribute(amount, -Sum(Bases(amount, weights, Sum(weights))), Sum(weights));
  }

  lemma LeftoverIs(amount: int, weights: seq<int>)
    requires ValidWeights(weights) && Sum(weights) > 0
    ensures amount >= 0 ==> 0 <= Leftover(amount, weights, Sum(weights)) < |weights|
    ensures amount < 0 ==> -|weights| < Leftover(amount, weights, Sum(weights)) <= 0
  {
    hide Bases, Rems, Sum, Leftover;
    LeftoverTimesWhole(amount, weights);
    RemsRange(amount, weights, Sum(weights));
    var whole := Sum(weights);
    var rems := Rems(amount, weights, whole);
    var k, n := Leftover(amount, weights, whole), |weights|;
    if amount >= 0 {
      SumRange(rems, 0, whole - 1);
      Between(k, n, whole);
    } else {
      SumRange(rems, 1 - whole, 0);
      Between(-k, n, whole);
    }
  }

  lemma Between(k: int, n: int, whole: int)
    requires whole > 0 && n > 0
    requires 0 <= k * whole <= n * (whole - 1)
    ensures 0 <= k < n
  {
    assert n * (whole - 1) == n * whole - n;
  }

  // ---- The algorithm ----

  function First(order: seq<nat>, k: nat): set<nat>
    requires k <= |order|
  {
    set m | 0 <= m < k :: order[m]
  }

  lemma TopAreWinners(rems: seq<int>, order: seq<nat>, k: nat)
    requires InOrder(rems, order) && k <= |order|
    requires forall x: nat :: x in order <==> x < |rems|
    ensures AreWinners(rems, First(order, k)) && |First(order, k)| == k
  {
    forall i, j: nat | i in First(order, k) && j < |rems| && j !in First(order, k) ensures Beats(rems, i, j) {
      var a :| 0 <= a < k && order[a] == i;
      assert j in order;
      var b :| 0 <= b < |order| && order[b] == j;
    }
    DistinctCount(rems, order, k);
  }

  lemma NotYet(rems: seq<int>, order: seq<nat>, k: nat)
    requires InOrder(rems, order) && k < |order|
    ensures order[k] !in First(order, k) && order[k] < |rems|
    ensures First(order, k + 1) == First(order, k) + {order[k]}
  {
  }

  lemma {:induction false} DistinctCount(rems: seq<int>, order: seq<nat>, k: nat)
    requires InOrder(rems, order) && k <= |order|
    ensures |First(order, k)| == k
  {
    if k > 0 {
      DistinctCount(rems, order, k - 1);
      NotYet(rems, order, k - 1);
    }
  }

  /** Floors (or truncates) every share and keeps what was cut off each. */
  method Truncate(amount: Paise, weights: seq<int>, whole: int) returns (shares: seq<int>, rems: seq<int>)
    requires whole > 0
    ensures shares == Bases(amount, weights, whole) && rems == Rems(amount, weights, whole)
  {
    shares, rems := [], [];
    for i := 0 to |weights|
      invariant shares == Bases(amount, weights[..i], whole)
      invariant rems == Rems(amount, weights[..i], whole)
    {
      assert weights[..i + 1][..i] == weights[..i];
      var exact := amount * weights[i];
      var share := Trunc(exact, whole);
      shares, rems := shares + [share], rems + [exact - share * whole];
    }
    assert weights[..|weights|] == weights;
  }

  lemma Wraps(k: nat, n: nat)
    requires k < n
    ensures k % n == k
  {
  }

  /** Hands out the left-over paise one at a time, down the sorted list. */
  method HandOut(bases: seq<int>, rems: seq<int>, order: seq<nat>, count: nat, step: int) returns (shares: seq<int>)
    requires |rems| == |bases| && |order| == |bases| && InOrder(rems, order) && count <= |order|
    ensures |shares| == |bases|
    ensures forall i :: 0 <= i < |bases| ==> shares[i] == bases[i] + if i in First(order, count) then step else 0
  {
    hide InOrder;
    shares := bases;
    for offset := 0 to count
      invariant |shares| == |bases|
      invariant forall i :: 0 <= i < |bases| ==>
        shares[i] == bases[i] + if i in First(order, offset) then step else 0
    {
      NotYet(rems, order, offset);
      Wraps(offset, |order|);
      var i := order[offset % |order|];
      shares := shares[i := shares[i] + step];
    }
  }

  method Allocate(amount: Paise, weights: seq<int>) returns (r: Result<seq<Paise>, Error>)
    ensures weights == [] ==> r == Err(NoWeights)
    ensures weights != [] && !ValidWeights(weights) ==> r == Err(NegativeWeight)
    ensures ValidWeights(weights) && Sum(weights) == 0 ==>
      r == Ok([amount] + seq(|weights| - 1, _ => 0))
    ensures ValidWeights(weights) && Sum(weights) > 0 ==>
      r.Ok? && exists winners: set<nat> :: IsAllocation(amount, weights, r.value, winners)
  {
    if weights == [] { return Err(NoWeights); }
    if exists i :: 0 <= i < |weights| && weights[i] < 0 { return Err(NegativeWeight); }
    var whole := Sum(weights);
    SumNonNegative(weights);
    if whole == 0 {
      return Ok([amount] + seq(|weights| - 1, _ => 0));
    }
    var bases, rems := Truncate(amount, weights, whole);
    var leftover := amount - Sum(bases);
    LeftoverIs(amount, weights);
    var order := ByRemainder(rems, |rems|);
    ByRemainderInOrder(rems, |rems|);
    var shares := HandOut(bases, rems, order, Abs(leftover), if leftover >= 0 then 1 else -1);
    TopAreWinners(rems, order, Abs(leftover));
    assert IsAllocation(amount, weights, shares, First(order, Abs(leftover)));
    return Ok(shares);
  }

  lemma {:induction false} SumNonNegative(xs: seq<int>)
    requires forall i :: 0 <= i < |xs| ==> xs[i] >= 0
    ensures Sum(xs) >= 0
  {
    if xs != [] { SumNonNegative(xs[..|xs| - 1]); }
  }
}
