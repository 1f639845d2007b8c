/// What splitting by largest remainder is for: nothing is lost, nobody is out by a paisa
/// more than need be, and no other split is closer.
module AllocationLaws {
  import opened Lists
  import opened Money
  import opened Allocation

  // ---- Nothing lost ----

  function Bonuses(n: nat, winners: set<nat>, step: int): (bs: seq<int>)
    ensures |bs| == n
  {
    seq(n, i requires 0 <= i < n => if i in winners then step else 0)
  }

  lemma MulSucc(a: int, b: int)
    ensures (a + 1) * b == a * b + b
  {
  }

  lemma {:induction false} SumBonuses(n: nat, winners: set<nat>, step: int)
    requires forall i :: i in winners ==> i < n
    ensures Sum(Bonuses(n, winners, step)) == |winners| * step
  {
    if n == 0 {
      assert winners == {};
    } else {
      var rest := winners - {n - 1};
      assert Bonuses(n, winners, step)[..n - 1] == Bonuses(n - 1, rest, step);
      SumBonuses(n - 1, rest, step);
      MulSucc(|rest|, step);
    }
  }

  lemma {:induction false} SumPointwise(a: seq<int>, b: seq<int>, c: seq<int>)
    requires |a| == |b| == |c|
    requires forall i :: 0 <= i < |a| ==> c[i] == a[i] + b[i]
    ensures Sum(c) == Sum(a) + Sum(b)
  {
    if a != [] {
      var n := |a| - 1;
      SumPointwise(a[..n], b[..n], c[..n]);
    }
  }

  /** The parts always add up to the whole, whatever the sign of the amount. */
  lemma {:induction false} PartsSumToWhole(amount: Paise, weights: seq<int>, shares: seq<Paise>, winners: set<nat>)
    requires Sum(weights) > 0 && IsAllocation(amount, weights, shares, winners)
    ensures Sum(shares) == amount
  {
    var whole := Sum(weights);
    var leftover := Leftover(amount, weights, whole);
    var step := if leftover >= 0 then 1 else -1;
    SumBonuses(|weights|, winners, step);
    SumPointwise(Bases(amount, weights, whole), Bonuses(|weights|, winners, step), shares);
  }

  // ---- The result is determined ----

  lemma OneBeatsOther(rems: seq<int>, a: set<nat>, b: set<nat>, i: nat, j: nat)
    requires AreWinners(rems, a) && AreWinners(rems, b)
    ensures !(i in a - b && j in b - a)
  {
  }

  lemma WinnersUnique(rems: seq<int>, a: set<nat>, b: set<nat>)
    requires AreWinners(rems, a) && AreWinners(rems, b) && |a| == |b|
    ensures a == b
  {
    hide AreWinners;
    assert a == (a * b) + (a - b) && b == (a * b) + (b - a);
    assert |a - b| == |b - a|;
    forall i: nat, j: nat ensures !(i in a - b && j in b - a) { OneBeatsOther(rems, a, b, i, j); }
    assert a - b == {} || b - a == {};
  }

  /** There is only one allocation: on equal remainders the line that comes first is topped up. */
  lemma {:induction false} SharesUnique(amount: Paise, weights: seq<int>, s: seq<Paise>, a: set<nat>, t: seq<Paise>, b: set<nat>)
    requires Sum(weights) > 0 && IsAllocation(amount, weights, s, a) && IsAllocation(amount, weights, t, b)
    ensures s == t
  {
    WinnersUnique(Rems(amount, weights, Sum(weights)), a, b);
  }

  // ---- Each part on its own ----

  /** How far a part is from its exact share, in units of one paisa over the total weight. */
  function Miss(amount: int, weight: int, whole: int, share: int): nat {
    Abs(share * whole - amount * weight)
  }

  /** One part of an allocation: its truncated share, what was cut off, and its bonus. */
  lemma Part(amount: Paise, weights: seq<int>, shares: seq<Paise>, winners: set<nat>, i: nat) returns (base: int, rem: int)
    requires ValidWeights(weights) && Sum(weights) > 0
    requires IsAllocation(amount, weights, shares, winners) && i < |weights|
    ensures |shares| == |weights|
    ensures base == Bases(amount, weights, Sum(weights))[i] && rem == Rems(amount, weights, Sum(weights))[i]
    ensures base * Sum(weights) + rem == amount * weights[i]
    ensures if amount >= 0 then 0 <= rem < Sum(weights) else -Sum(weights) < rem <= 0
    ensures shares[i] == base + if i !in winners then 0 else if amount >= 0 then 1 else -1
  {
    var whole := Sum(weights);
    base, rem := Bases(amount, weights, whole)[i], Rems(amount, weights, whole)[i];
    At(amount, weights, whole, i);
    RemRange(amount, weights[i], whole);
    LeftoverIs(amount, weights);
    if i in winners { assert winners != {}; }
  }

  lemma MissFrom(amount: int, weight: int, whole: int, base: int, rem: int, share: int)
    requires base * whole + rem == amount * weight
    ensures Miss(amount, weight, whole, share) == Abs((share - base) * whole - rem)
  {
    assert (share - base) * whole == share * whole - base * whole;
  }

  /** Someone who is topped up was cut: a winner's remainder is not zero. */
  lemma WinnerWasCut(amount: Paise, weights: seq<int>, shares: seq<Paise>, winners: set<nat>, i: nat)
    requires amount >= 0 && ValidWeights(weights) && Sum(weights) > 0
    requires IsAllocation(amount, weights, shares, winners) && i in winners && i < |weights|
    ensures Rems(amount, weights, Sum(weights))[i] > 0
  {
    hide Bases, Rems, Leftover, Trunc;
    var whole := Sum(weights);
    var rems := Rems(amount, weights, whole);
    RemsRange(amount, weights, whole);
    LeftoverTimesWhole(amount, weights);
    LeftoverIs(amount, weights);
    SomeoneElsePays(rems, winners, i, whole, Leftover(amount, weights, whole));
  }

  lemma SomeoneElsePays(rems: seq<int>, winners: set<nat>, i: nat, whole: int, k: int)
    requires AreWinners(rems, winners) && i in winners
    requires whole > 0 && |winners| == k && k * whole == Sum(rems)
    requires forall j :: 0 <= j < |rems| ==> 0 <= rems[j] < whole
    ensures rems[i] > 0
  {
    var rest := winners - {i};
    assert |rest| == k - 1;
    assert (k - 1) * (whole - 1) == k * whole - k - whole + 1;
    if rems[i] == 0 {
      forall j | 0 <= j < |rems| ensures rems[j] <= if j in rest then whole - 1 else 0 {
        if j !in winners { assert Beats(rems, i, j); }
      }
      SumAtMost(rems, rest, whole - 1);
    }
  }

  lemma {:induction false} SumAtMost(rems: seq<int>, some: set<nat>, most: int)
    requires most >= 0
    requires forall j :: j in some ==> j < |rems|
    requires forall j :: 0 <= j < |rems| ==> rems[j] <= if j in some then most else 0
    ensures Sum(rems) <= |some| * most
  {
    if rems == [] {
      assert some == {};
    } else {
      var n := |rems| - 1;
      var rest := some - {n};
      SumAtMost(rems[..n], rest, most);
      MulSucc(|rest|, most);
    }
  }

  /** At either sign no part is out by more than a paisa. */
  lemma {:induction false} WithinOnePaisa(amount: Paise, weights: seq<int>, shares: seq<Paise>, winners: set<nat>, i: nat)
    requires ValidWeights(weights) && Sum(weights) > 0
    requires IsAllocation(amount, weights, shares, winners) && i < |weights|
    ensures Miss(amount, weights[i], Sum(weights), shares[i]) <= Sum(weights)
    ensures Miss(amount, weights[i], Sum(weights), shares[i]) == Sum(weights)
       <==> i in winners && Rems(amount, weights, Sum(weights))[i] == 0
  {
    hide IsAllocation, Bases, Rems, Miss, Trunc;
    var base, rem := Part(amount, weights, shares, winners, i);
    MissFrom(amount, weights[i], Sum(weights), base, rem, shares[i]);
    OnePaisa(amount, Sum(weights), rem, shares[i] - base, i in winners);
  }

  lemma OnePaisa(amount: int, whole: int, rem: int, c: int, won: bool)
    requires whole > 0 && if amount >= 0 then 0 <= rem < whole else -whole < rem <= 0
    requires c == if !won then 0 else if amount >= 0 then 1 else -1
    ensures Abs(c * whole - rem) <= whole
    ensures Abs(c * whole - rem) == whole <==> won && rem == 0
  {
  }

  /** No share that divides evenly is moved: either nothing is left over, or every share was cut. */
  ghost predicate EveryShareCut(amount: int, weights: seq<int>)
    requires Sum(weights) > 0
  {
    || Leftover(amount, weights, Sum(weights)) == 0
    || forall i :: 0 <= i < |weights| ==> Rems(amount, weights, Sum(weights))[i] != 0
  }

  /** Every part is the floor or the ceiling of its exact share. */
  ghost predicate AllNear(amount: int, weights: seq<int>, shares: seq<int>)
    requires |shares| == |weights|
  {
    forall i :: 0 <= i < |weights| ==> Miss(amount, weights[i], Sum(weights), shares[i]) < Sum(weights)
  }

  /**
    * Every part is the floor or the ceiling of its exact share, just when the amount is not
    * negative, or there is nothing left over, or no share divides evenly.
    */
  lemma {:induction false} FloorOrCeiling(amount: Paise, weights: seq<int>, shares: seq<Paise>, winners: set<nat>)
    requires ValidWeights(weights) && Sum(weights) > 0
    requires IsAllocation(amount, weights, shares, winners)
    ensures |shares| == |weights|
    ensures AllNear(amount, weights, shares) <==> amount >= 0 || EveryShareCut(amount, weights)
  {
    AllocationShape(amount, weights, shares, winners);
    hide IsAllocation, Bases, Rems, Miss, Trunc, Leftover;
    var rems := Rems(amount, weights, Sum(weights));
    forall i | 0 <= i < |weights|
      ensures Miss(amount, weights[i], Sum(weights), shares[i]) < Sum(weights) <==> !(i in winners && rems[i] == 0)
    {
      WithinOnePaisa(amount, weights, shares, winners, i);
    }
    if amount >= 0 {
      forall i | 0 <= i < |weights| ensures !(i in winners && rems[i] == 0) {
        if i in winners { WinnerWasCut(amount, weights, shares, winners, i); }
      }
    } else {
      RemsRange(amount, weights, Sum(weights));
    }
  }

  lemma AllocationShape(amount: Paise, weights: seq<int>, shares: seq<Paise>, winners: set<nat>)
    requires Sum(weights) > 0 && IsAllocation(amount, weights, shares, winners)
    ensures |shares| == |weights| && AreWinners(Rems(amount, weights, Sum(weights)), winners)
    ensures |winners| == Abs(Leftover(amount, weights, Sum(weights)))
  {
  }

  // ---- Lines that weigh nothing ----

  /** The lines before `i` whose shares divide evenly. */
  function EvenBefore(rems: seq<int>, i: nat): set<nat>
    requires i < |rems|
  {
    set j: nat | 0 <= j < i && rems[j] == 0
  }

  /** A share that divides evenly is moved just when fewer such shares stand before it than there are moves. */
  lemma EvenWinner(rems: seq<int>, winners: set<nat>, i: nat)
    requires AreWinners(rems, winners) && (forall j :: 0 <= j < |rems| ==> rems[j] <= 0)
    requires i < |rems| && rems[i] == 0
    ensures i in winners <==> |EvenBefore(rems, i)| < |winners|
  {
    var before := EvenBefore(rems, i);
    if i in winners {
      forall j | j in before ensures j in winners { assert j !in winners ==> Beats(rems, i, j); }
      assert before < winners by { assert i !in before; }
      SmallerSize(before + {i}, winners);
    } else {
      forall w | w in winners ensures w in before { assert Beats(rems, w, i); }
      SmallerSize(winners, before);
    }
  }

  lemma SmallerSize(a: set<nat>, b: set<nat>)
    requires a <= b
    ensures |a| <= |b|
  {
    assert b == a + (b - a);
  }

  /**
    * A line that weighs nothing is left alone by an amount of money, and by a refund is charged
    * a paisa just when fewer earlier lines divide evenly than there are paise left over.
    */
  lemma {:induction false} WeightlessCharged(amount: Paise, weights: seq<int>, shares: seq<Paise>, winners: set<nat>, i: nat)
    requires ValidWeights(weights) && Sum(weights) > 0
    requires IsAllocation(amount, weights, shares, winners) && i < |weights| && weights[i] == 0
    ensures amount >= 0 ==> shares[i] == 0
    ensures amount < 0 ==>
      var fewer := |EvenBefore(Rems(amount, weights, Sum(weights)), i)| < Abs(Leftover(amount, weights, Sum(weights)));
      shares[i] == if fewer then -1 else 0
  {
    hide IsAllocation, Bases, Rems, Trunc, Leftover;
    var base, rem := Part(amount, weights, shares, winners, i);
    AllocationShape(amount, weights, shares, winners);
    RemsRange(amount, weights, Sum(weights));
    if amount >= 0 {
      if i in winners { WinnerWasCut(amount, weights, shares, winners, i); }
    } else {
      EvenWinner(Rems(amount, weights, Sum(weights)), winners, i);
    }
  }

  /** Larger remainders win, and among equal ones the earlier line. */
  lemma LargerRemainderWins(amount: Paise, weights: seq<int>, shares: seq<Paise>, winners: set<nat>, i: nat, j: nat)
    requires amount >= 0 && ValidWeights(weights) && Sum(weights) > 0
    requires IsAllocation(amount, weights, shares, winners) && i < |weights| && j < |weights|
    requires Beats(Rems(amount, weights, Sum(weights)), i, j)
    requires shares[j] == Bases(amount, weights, Sum(weights))[j] + 1
    ensures shares[i] == Bases(amount, weights, Sum(weights))[i] + 1
  {
    var _, _ := Part(amount, weights, shares, winners, i);
    var _, _ := Part(amount, weights, shares, winners, j);
    assert j in winners;
    assert i in winners by {
      assert i !in winners ==> Beats(Rems(amount, weights, Sum(weights)), j, i);
    }
  }

  // ---- Optimality ----

  function Misses(amount: int, weights: seq<int>, whole: int, shares: seq<int>): (ms: seq<int>)
    requires |shares| == |weights|
    ensures |ms| == |weights|
  {
    seq(|weights|, i requires 0 <= i < |weights| => Miss(amount, weights[i], whole, shares[i]))
  }

  /** The total absolute error of a split. */
  function TotalMiss(amount: int, weights: seq<int>, shares: seq<int>): int
    requires |shares| == |weights|
  {
    Sum(Misses(amount, weights, Sum(weights), shares))
  }

  /**
    * The supporting line of the error of one part: with `rho` between the remainders of those
    * topped up and those not, moving `e - c` paise costs at least `(e - c)(whole - 2 rho)`.
    */
  lemma Supporting(whole: int, rem: int, rho: int, c: int, e: int)
    requires whole > 0 && 0 <= rem < whole && 0 <= rho <= whole
    requires (c == 1 && rem >= rho) || (c == 0 && rem <= rho)
    ensures Abs(e * whole - rem) >= Abs(c * whole - rem) + (e - c) * (whole - 2 * rho)
  {
    var d := if e > c then e - c else c - e;
    Expanded(whole, rho, c, e, d);
    if d > 0 {
      MulOrder(1, d, whole);
      MulOrder(1, d, rho);
      MulOrder(1, d, whole - rho);
      assert d * (whole - rho) == d * whole - d * rho;
    }
  }

  lemma Expanded(whole: int, rho: int, c: int, e: int, d: int)
    requires d == (if e > c then e - c else c - e) && (c == 0 || c == 1)
    ensures e * whole == c * whole + if e > c then d * whole else -(d * whole)
    ensures (e - c) * (whole - 2 * rho) == if e > c then d * whole - 2 * (d * rho) else 2 * (d * rho) - d * whole
    ensures c * whole == if c == 0 then 0 else whole
  {
    if e > c {
      assert e * whole == (c + d) * whole == c * whole + d * whole;
      assert d * (whole - 2 * rho) == d * whole - 2 * (d * rho);
    } else {
      assert e * whole == (c - d) * whole == c * whole - d * whole;
      assert (e - c) * (whole - 2 * rho) == -(d * (whole - 2 * rho)) == 2 * (d * rho) - d * whole;
    }
  }

  lemma SupportingDown(whole: int, rem: int, rho: int, base: int, share: int, other: int)
    requires whole > 0 && -whole < rem <= 0 && 0 <= rho <= whole
    requires (share == base - 1 && -rem >= rho) || (share == base && -rem <= rho)
    ensures Abs((other - base) * whole - rem) >= Abs((share - base) * whole - rem) + (other - share) * (2 * rho - whole)
  {
    Supporting(whole, -rem, rho, base - share, base - other);
    assert (base - other) * whole == -((other - base) * whole);
    assert (base - share) * whole == -((share - base) * whole);
    assert (share - other) * (whole - 2 * rho) == (other - share) * (2 * rho - whole);
  }

  function Slope(amount: int, whole: int, rho: int): int {
    if amount >= 0 then whole - 2 * rho else 2 * rho - whole
  }

  /** One part, seen through the sign of the amount. */
  lemma SupportingShare(amount: int, weights: seq<int>, shares: seq<int>, winners: set<nat>, other: int, rho: int, i: nat)
    requires ValidWeights(weights) && Sum(weights) > 0 && IsAllocation(amount, weights, shares, winners)
    requires |shares| == |weights| && i < |weights| && 0 <= rho <= Sum(weights)
    requires var r := Abs(Rems(amount, weights, Sum(weights))[i]); if i in winners then r >= rho else r <= rho
    ensures Miss(amount, weights[i], Sum(weights), other)
      >= Miss(amount, weights[i], Sum(weights), shares[i]) + (other - shares[i]) * Slope(amount, Sum(weights), rho)
  {
    hide IsAllocation, Rems, Bases, Trunc, Miss, Sum;
    var whole := Sum(weights);
    var base, rem := Part(amount, weights, shares, winners, i);
    MissFrom(amount, weights[i], whole, base, rem, other);
    MissFrom(amount, weights[i], whole, base, rem, shares[i]);
    if amount >= 0 {
      Supporting(whole, rem, rho, shares[i] - base, other - base);
    } else {
      SupportingDown(whole, rem, rho, base, shares[i], other);
    }
  }

  lemma {:induction false} SumSupported(a: seq<int>, b: seq<int>, s: seq<int>, t: seq<int>, slope: int)
    requires |a| == |b| == |s| == |t|
    requires forall i :: 0 <= i < |a| ==> b[i] >= a[i] + (t[i] - s[i]) * slope
    ensures Sum(b) >= Sum(a) + (Sum(t) - Sum(s)) * slope
  {
    if a != [] {
      var n := |a| - 1;
      SumSupported(a[..n], b[..n], s[..n], t[..n], slope);
    }
  }

  /** `rho` separates the remainders of those topped up from those not. */
  ghost predicate Separates(rems: seq<int>, winners: set<nat>, rho: int) {
    forall i :: 0 <= i < |rems| ==> if i in winners then Abs(rems[i]) >= rho else Abs(rems[i]) <= rho
  }

  lemma SeparatedIsOptimal(amount: int, weights: seq<int>, shares: seq<int>, winners: set<nat>, rho: int, other: seq<int>)
    requires ValidWeights(weights) && Sum(weights) > 0 && IsAllocation(amount, weights, shares, winners)
    requires |shares| == |weights|
    requires 0 <= rho <= Sum(weights) && Separates(Rems(amount, weights, Sum(weights)), winners, rho)
    requires |other| == |weights| && Sum(other) == amount
    ensures TotalMiss(amount, weights, shares) <= TotalMiss(amount, weights, other)
  {
    hide IsAllocation, Rems, Bases, Miss, Trunc, Separates;
    var whole := Sum(weights);
    var slope := Slope(amount, whole, rho);
    PartsSumToWhole(amount, weights, shares, winners);
    forall i | 0 <= i < |weights|
      ensures Miss(amount, weights[i], whole, other[i])
        >= Miss(amount, weights[i], whole, shares[i]) + (other[i] - shares[i]) * slope
    {
      AtIndex(Rems(amount, weights, whole), winners, rho, i);
      SupportingShare(amount, weights, shares, winners, other[i], rho, i);
    }
    SumSupported(Misses(amount, weights, whole, shares), Misses(amount, weights, whole, other), shares, other, slope);
  }

  lemma AtIndex(rems: seq<int>, winners: set<nat>, rho: int, i: nat)
    requires Separates(rems, winners, rho) && i < |rems|
    ensures if i in winners then Abs(rems[i]) >= rho else Abs(rems[i]) <= rho
  {
  }

  /** Among non-negative remainders the winners' smallest separates. */
  lemma SeparatorExists(rems: seq<int>, winners: set<nat>, whole: int) returns (rho: int)
    requires AreWinners(rems, winners) && forall i :: 0 <= i < |rems| ==> 0 <= rems[i] < whole
    requires whole > 0
    ensures 0 <= rho <= whole && Separates(rems, winners, rho)
  {
    rho := whole;
    for i := 0 to |rems|
      invariant 0 <= rho <= whole
      invariant forall k :: 0 <= k < i && k in winners ==> rho <= rems[k]
      invariant rho == whole || exists k :: 0 <= k < i && k in winners && rho == rems[k]
    {
      if i in winners && rems[i] < rho { rho := rems[i]; }
    }
    if rho != whole {
      var k :| 0 <= k < |rems| && k in winners && rho == rems[k];
      forall j | 0 <= j < |rems| && j !in winners ensures rems[j] <= rho { assert Beats(rems, k, j); }
    }
  }

  ghost predicate AllEqual(rems: seq<int>) {
    forall i, j :: 0 <= i < |rems| && 0 <= j < |rems| ==> rems[i] == rems[j]
  }

  /** No other split of the amount is closer to the exact shares. */
  ghost predicate Optimal(amount: int, weights: seq<int>, shares: seq<int>)
    requires |shares| == |weights|
  {
    forall other: seq<int> :: |other| == |weights| && Sum(other) == amount ==>
      TotalMiss(amount, weights, shares) <= TotalMiss(amount, weights, other)
  }

  /** Moving one paisa from `i` to `j` changes the total by what it changes at those two. */
  lemma TransferMiss(amount: int, weights: seq<int>, shares: seq<int>, i: nat, j: nat)
    requires |shares| == |weights| && i < |weights| && j < |weights| && i != j
    ensures var other := shares[i := shares[i] + 1][j := shares[j] - 1];
      var whole := Sum(weights);
      && Sum(other) == Sum(shares)
      && TotalMiss(amount, weights, other) == TotalMiss(amount, weights, shares)
           - Miss(amount, weights[i], whole, shares[i]) - Miss(amount, weights[j], whole, shares[j])
           + Miss(amount, weights[i], whole, shares[i] + 1) + Miss(amount, weights[j], whole, shares[j] - 1)
  {
    var whole := Sum(weights);
    var half := shares[i := shares[i] + 1];
    var other := half[j := shares[j] - 1];
    SumUpdate(shares, i, shares[i] + 1);
    SumUpdate(half, j, shares[j] - 1);
    var ms := Misses(amount, weights, whole, shares);
    var mid := ms[i := Miss(amount, weights[i], whole, shares[i] + 1)];
    assert Misses(amount, weights, whole, half) == mid;
    assert Misses(amount, weights, whole, other) == mid[j := Miss(amount, weights[j], whole, shares[j] - 1)];
    SumUpdate(ms, i, Miss(amount, weights[i], whole, shares[i] + 1));
    SumUpdate(mid, j, Miss(amount, weights[j], whole, shares[j] - 1));
  }

  /** For a negative amount the one cut least is charged, which is never the best choice. */
  lemma NegativeNotOptimal(amount: int, weights: seq<int>, shares: seq<int>, winners: set<nat>)
    requires amount < 0 && ValidWeights(weights) && Sum(weights) > 0
    requires IsAllocation(amount, weights, shares, winners)
    requires !AllEqual(Rems(amount, weights, Sum(weights)))
    ensures !Optimal(amount, weights, shares)
  {
    hide IsAllocation, Rems, Bases, Miss, Trunc, Misses;
    var whole := Sum(weights);
    var i, j := WronglyCharged(amount, weights, shares, winners);
    var bi, ri := Part(amount, weights, shares, winners, i);
    var bj, rj := Part(amount, weights, shares, winners, j);
    TransferMiss(amount, weights, shares, i, j);
    PartsSumToWhole(amount, weights, shares, winners);
    MissFrom(amount, weights[i], whole, bi, ri, bi - 1);
    MissFrom(amount, weights[i], whole, bi, ri, bi);
    MissFrom(amount, weights[j], whole, bj, rj, bj - 1);
    MissFrom(amount, weights[j], whole, bj, rj, bj);
    var other := shares[i := shares[i] + 1][j := shares[j] - 1];
    assert TotalMiss(amount, weights, other) < TotalMiss(amount, weights, shares);
  }

  lemma WronglyCharged(amount: int, weights: seq<int>, shares: seq<int>, winners: set<nat>) returns (i: nat, j: nat)
    requires amount < 0 && ValidWeights(weights) && Sum(weights) > 0
    requires IsAllocation(amount, weights, shares, winners)
    requires !AllEqual(Rems(amount, weights, Sum(weights)))
    ensures |shares| == |weights| && i < |weights| && j < |weights| && i in winners && j !in winners
    ensures Rems(amount, weights, Sum(weights))[i] > Rems(amount, weights, Sum(weights))[j]
  {
    hide Rems, Bases, Leftover, Trunc;
    RemsRange(amount, weights, Sum(weights));
    LeftoverIs(amount, weights);
    LeftoverTimesWhole(amount, weights);
    i, j := Uneven(Rems(amount, weights, Sum(weights)), winners, Leftover(amount, weights, Sum(weights)), Sum(weights));
  }

  /** Some winner was cut strictly less than some loser, when not all were cut the same. */
  lemma Uneven(rems: seq<int>, winners: set<nat>, leftover: int, whole: int) returns (i: nat, j: nat)
    requires AreWinners(rems, winners) && !AllEqual(rems)
    requires forall k :: 0 <= k < |rems| ==> rems[k] <= 0
    requires leftover * whole == Sum(rems) && -|rems| < leftover <= 0 && |winners| == -leftover
    ensures i < |rems| && j < |rems| && i in winners && j !in winners && rems[i] > rems[j]
  {
    if winners == {} { SumZero(rems); }
    var w :| w in winners;
    if forall k: nat :: k < |rems| ==> k in winners { AllIndices(winners, |rems|); }
    var l :| 0 <= l < |rems| && l !in winners;
    assert Beats(rems, w, l);
    if forall k :: 0 <= k < |rems| ==> rems[k] == if k in winners then rems[w] else rems[l] {
      i, j := w, l;
    } else {
      var k :| 0 <= k < |rems| && rems[k] != if k in winners then rems[w] else rems[l];
      if k in winners {
        assert Beats(rems, k, l);
        i, j := if rems[w] > rems[l] then w else k, l;
      } else {
        assert Beats(rems, w, k);
        i, j := w, if rems[w] > rems[l] then l else k;
      }
    }
  }

  lemma {:induction false} SumZero(rems: seq<int>)
    requires Sum(rems) == 0 && forall i :: 0 <= i < |rems| ==> rems[i] <= 0
    ensures forall i :: 0 <= i < |rems| ==> rems[i] == 0
  {
    if rems != [] {
      SumRange(rems[..|rems| - 1], MinOf(rems), 0);
      SumZero(rems[..|rems| - 1]);
    }
  }

  function MinOf(xs: seq<int>): (m: int)
    ensures forall i :: 0 <= i < |xs| ==> m <= xs[i]
  {
    if xs == [] then 0
    else
      var rest := MinOf(xs[..|xs| - 1]);
      if xs[|xs| - 1] < rest then xs[|xs| - 1] else rest
  }

  lemma {:induction false} AllIndices(s: set<nat>, n: nat)
    requires forall i: nat :: i in s <==> i < n
    ensures |s| == n
  {
    if n > 0 {
      assert s == (s - {n - 1}) + {n - 1};
      AllIndices(s - {n - 1}, n - 1);
    }
  }

  /**
    * The split is the closest there is just when the amount is not negative, or every share was
    * cut by the same amount.  Which of the two halves of an equal split is charged does not
    * matter, so halving a tax refund is still exact.
    */
  lemma {:induction false} OptimalIff(amount: Paise, weights: seq<int>, shares: seq<Paise>, winners: set<nat>)
    requires ValidWeights(weights) && Sum(weights) > 0
    requires IsAllocation(amount, weights, shares, winners)
    ensures Optimal(amount, weights, shares) <==> (amount >= 0 || AllEqual(Rems(amount, weights, Sum(weights))))
  {
    var whole := Sum(weights);
    var rems := Rems(amount, weights, whole);
    RemsRange(amount, weights, whole);
    if amount < 0 && !AllEqual(rems) {
      NegativeNotOptimal(amount, weights, shares, winners);
    } else {
      var rho;
      if amount >= 0 {
        rho := SeparatorExists(rems, winners, whole);
      } else {
        rho := Abs(rems[0]);
      }
      forall other: seq<int> | |other| == |weights| && Sum(other) == amount
        ensures TotalMiss(amount, weights, shares) <= TotalMiss(amount, weights, other)
      {
        SeparatedIsOptimal(amount, weights, shares, winners, rho, other);
      }
    }
  }

  lemma SumOfThree(a: int, b: int, c: int)
    ensures Sum([a, b, c]) == a + b + c
  {
    assert [a, b, c][..2] == [a, b] && [a, b][..1] == [a] && [a][..0] == [];
    assert Sum([a]) == a && Sum([a, b]) == Sum([a]) + b && Sum([a, b, c]) == Sum([a, b]) + c;
  }

  lemma RefundParts()
    ensures Bases(-1, [1, 1, 0], 2) == [0, 0, 0] && Rems(-1, [1, 1, 0], 2) == [-1, -1, 0]
  {
    hide Bases, Rems, BaseOf, RemOf;
    At(-1, [1, 1, 0], 2, 0);
    At(-1, [1, 1, 0], 2, 1);
    At(-1, [1, 1, 0], 2, 2);
    Truncated();
  }

  lemma Truncated()
    ensures BaseOf(-1, 1, 2) == 0 && RemOf(-1, 1, 2) == -1 && BaseOf(-1, 0, 2) == 0 && RemOf(-1, 0, 2) == 0
  {
  }

  /** A refund of one paisa over weights 1, 1 and 0 is charged to the line that weighs nothing. */
  lemma NegativeChargesZeroWeight()
    ensures Sum([1, 1, 0]) == 2 && IsAllocation(-1, [1, 1, 0], [0, 0, -1], {2})
  {
    hide Bases, Rems, Sum;
    SumOfThree(1, 1, 0);
    SumOfThree(0, 0, 0);
    RefundParts();
    assert AreWinners([-1, -1, 0], {2});
    assert Leftover(-1, [1, 1, 0], 2) == -1;
  }
}
