/// The basket: an immutable value of priced lines whose numbers are never handed out twice.
module Cart {
  import opened Wrappers
  import opened Money
  import opened Tax
  import opened Pricing

  datatype Error = NoSuchLine | NoQuantity

  datatype Cart = Cart(lines: seq<PricedLine>, lineNumbers: seq<nat>, nextLineNo: nat)
  {
    predicate IsEmpty() { lines == [] }

    function Subtotal(): Paise { SumOf(lines, (p: PricedLine) => p.gross) }

    function Discounts(): Paise { SumOf(lines, (p: PricedLine) => p.DiscountTotal()) }

    function Total(): Paise { SumOf(lines, (p: PricedLine) => p.lineTotal) }

    /** What the GST block is built from. */
    function Items(): (items: seq<Item>)
      ensures |items| == |lines|
    {
      seq(|lines|, k requires 0 <= k < |lines| => Item(lines[k].line.taxCode, lines[k].lineTotal))
    }
  }

  const EMPTY := Cart([], [], 1)

  function SumOf(lines: seq<PricedLine>, f: PricedLine -> int): int {
    if lines == [] then 0 else SumOf(lines[..|lines| - 1], f) + f(lines[|lines| - 1])
  }

  /** Numbers ascend, stay below the next one, and every line is priced from its own input. */
  ghost predicate Valid(c: Cart) {
    && |c.lines| == |c.lineNumbers|
    && (forall j, k :: 0 <= j < k < |c.lineNumbers| ==> c.lineNumbers[j] < c.lineNumbers[k])
    && (forall k :: 0 <= k < |c.lineNumbers| ==> c.lineNumbers[k] < c.nextLineNo)
    && (forall k :: 0 <= k < |c.lines| ==> c.lines[k] == Priced(c.lines[k].line))
  }

  // ---- Operations ----

  function IndexOf(numbers: seq<nat>, n: nat): (r: Option<nat>)
    ensures r.Some? ==> r.value < |numbers| && numbers[r.value] == n
    ensures r.None? <==> n !in numbers
  {
    if numbers == [] then None
    else if numbers[0] == n then Some(0)
    else
      match IndexOf(numbers[1..], n)
      case Some(k) => Some(k + 1)
      case None => None
  }

  /** Two lines that are genuinely the same thing, with nothing anyone chose deliberately. */
  predicate Mergeable(current: LineInput, line: LineInput) {
    && current.product == line.product && current.unitPrice == line.unitPrice && current.taxCode == line.taxCode
    && current.discounts == [] && line.discounts == []
    && current.overriddenBy == None && line.overriddenBy == None
  }

  function MergeIndex(lines: seq<PricedLine>, line: LineInput): (r: Option<nat>)
    ensures r.Some? ==> r.value < |lines| && Mergeable(lines[r.value].line, line)
    ensures r.Some? ==> forall k :: 0 <= k < r.value ==> !Mergeable(lines[k].line, line)
    ensures r.None? ==> forall k :: 0 <= k < |lines| ==> !Mergeable(lines[k].line, line)
  {
    if lines == [] then None
    else if Mergeable(lines[0].line, line) then Some(0)
    else
      match MergeIndex(lines[1..], line)
      case Some(k) => Some(k + 1)
      case None =>
        assert forall k :: 1 <= k < |lines| ==> lines[k] == lines[1..][k - 1];
        None
  }

  /** Re-prices one line from a changed input; a quantity of zero is refused by the input itself. */
  function Replace(c: Cart, k: nat, raw: RawLine): Result<Cart, Error>
    requires k < |c.lines|
  {
    if raw.qtyMilli == 0 then Err(NoQuantity) else Ok(c.(lines := c.lines[k := Priced(raw)]))
  }

  function Append(c: Cart, line: LineInput): Cart {
    Cart(c.lines + [Priced(line)], c.lineNumbers + [c.nextLineNo], c.nextLineNo + 1)
  }

  function Add(c: Cart, line: LineInput, merge: bool): Result<Cart, Error> {
    if merge then
      match MergeIndex(c.lines, line)
      case Some(k) =>
        var current: RawLine := c.lines[k].line;
        Replace(c, k, current.(qtyMilli := current.qtyMilli + line.qtyMilli))
      case None => Ok(Append(c, line))
    else Ok(Append(c, line))
  }

  function VoidLine(c: Cart, n: nat): Result<Cart, Error>
    requires |c.lines| == |c.lineNumbers|
  {
    match IndexOf(c.lineNumbers, n)
    case None => Err(NoSuchLine)
    case Some(k) =>
      Ok(c.(lines := c.lines[..k] + c.lines[k + 1..], lineNumbers := c.lineNumbers[..k] + c.lineNumbers[k + 1..]))
  }

  function ChangeQuantity(c: Cart, n: nat, qtyMilli: int): Result<Cart, Error>
    requires |c.lines| == |c.lineNumbers|
  {
    match IndexOf(c.lineNumbers, n)
    case None => Err(NoSuchLine)
    case Some(k) =>
      var current: RawLine := c.lines[k].line;
      Replace(c, k, current.(qtyMilli := qtyMilli))
  }

  function ApplyDiscount(c: Cart, n: nat, d: Discount): Result<Cart, Error>
    requires |c.lines| == |c.lineNumbers|
  {
    match IndexOf(c.lineNumbers, n)
    case None => Err(NoSuchLine)
    case Some(k) =>
      var current: RawLine := c.lines[k].line;
      Replace(c, k, current.(discounts := current.discounts + [d]))
  }

  // ---- Any run of operations ----

  datatype Operation =
    | AddLine(line: LineInput, merge: bool)
    | Void(lineNo: nat)
    | SetQuantity(lineNo: nat, qtyMilli: int)
    | GiveDiscount(lineNo: nat, discount: Discount)

  function Attempted(c: Cart, op: Operation): Result<Cart, Error>
    requires |c.lines| == |c.lineNumbers|
  {
    match op
    case AddLine(line, merge) => Add(c, line, merge)
    case Void(n) => VoidLine(c, n)
    case SetQuantity(n, q) => ChangeQuantity(c, n, q)
    case GiveDiscount(n, d) => ApplyDiscount(c, n, d)
  }

  /** An operation that is refused leaves the basket as it was. */
  function Perform(c: Cart, op: Operation): Cart
    requires |c.lines| == |c.lineNumbers|
  {
    match Attempted(c, op)
    case Ok(c') => c'
    case Err(_) => c
  }

  lemma ReplaceKeeps(c: Cart, k: nat, raw: RawLine)
    requires Valid(c) && k < |c.lines|
    ensures match Replace(c, k, raw)
      case Ok(c') => Valid(c') && c'.lineNumbers == c.lineNumbers && c'.nextLineNo == c.nextLineNo
      case Err(_) => true
  {
  }

  lemma AppendKeeps(c: Cart, line: LineInput)
    requires Valid(c)
    ensures Valid(Append(c, line))
  {
    assert Priced(line).line == line;
  }

  lemma {:induction false} PerformKeeps(c: Cart, op: Operation)
    requires Valid(c)
    ensures Valid(Perform(c, op))
    ensures c.nextLineNo <= Perform(c, op).nextLineNo
    ensures forall n :: n in Perform(c, op).lineNumbers ==> n in c.lineNumbers || n == c.nextLineNo
  {
    hide Priced, MergeIndex, IndexOf, Mergeable;
    match op
    case AddLine(line, merge) =>
      if merge && MergeIndex(c.lines, line).Some? {
        var k := MergeIndex(c.lines, line).value;
        var current: RawLine := c.lines[k].line;
        ReplaceKeeps(c, k, current.(qtyMilli := current.qtyMilli + line.qtyMilli));
      } else {
        AppendKeeps(c, line);
      }
    case Void(n) =>
    case SetQuantity(n, q) =>
      if IndexOf(c.lineNumbers, n).Some? {
        var k := IndexOf(c.lineNumbers, n).value;
        var current: RawLine := c.lines[k].line;
        ReplaceKeeps(c, k, current.(qtyMilli := q));
      }
    case GiveDiscount(n, d) =>
      if IndexOf(c.lineNumbers, n).Some? {
        var k := IndexOf(c.lineNumbers, n).value;
        var current: RawLine := c.lines[k].line;
        ReplaceKeeps(c, k, current.(discounts := current.discounts + [d]));
      }
  }

  ghost predicate Reaches(c: Cart, ops: seq<Operation>, c': Cart)
    requires Valid(c)
    decreases |ops|
  {
    if ops == [] then c' == c
    else
      PerformKeeps(c, ops[0]);
      Reaches(Perform(c, ops[0]), ops[1..], c')
  }

  /** A number that has been given out and voided never names a line again. */
  lemma {:induction false} NumbersAreNotReused(c: Cart, ops: seq<Operation>, c': Cart, n: nat)
    requires Valid(c) && Reaches(c, ops, c')
    requires n < c.nextLineNo && n !in c.lineNumbers
    ensures Valid(c') && n !in c'.lineNumbers
    decreases |ops|
  {
    if ops != [] {
      PerformKeeps(c, ops[0]);
      NumbersAreNotReused(Perform(c, ops[0]), ops[1..], c', n);
    }
  }

  // ---- Totals ----

  lemma {:induction false} TotalsAgreeOn(lines: seq<PricedLine>)
    ensures SumOf(lines, (p: PricedLine) => p.gross) - SumOf(lines, (p: PricedLine) => p.DiscountTotal())
         == SumOf(lines, (p: PricedLine) => p.lineTotal)
  {
    if lines != [] { TotalsAgreeOn(lines[..|lines| - 1]); }
  }

  lemma TotalsAgree(c: Cart)
    ensures c.Subtotal() - c.Discounts() == c.Total()
  {
    TotalsAgreeOn(c.lines);
  }

  lemma {:induction false} ItemsTotal(c: Cart)
    ensures TotalOf(c.Items(), GrossOf()) == c.Total()
    decreases |c.lines|
  {
    if c.lines != [] {
      var front := c.(lines := c.lines[..|c.lines| - 1]);
      assert c.Items()[..|c.lines| - 1] == front.Items();
      ItemsTotal(front);
    }
  }

  lemma {:induction false} SumOfUpdate(lines: seq<PricedLine>, k: nat, p: PricedLine, f: PricedLine -> int)
    requires k < |lines|
    ensures SumOf(lines[k := p], f) == SumOf(lines, f) - f(lines[k]) + f(p)
  {
    var n := |lines| - 1;
    if k == n {
      assert lines[k := p][..n] == lines[..n];
    } else {
      assert lines[k := p][..n] == lines[..n][k := p];
      SumOfUpdate(lines[..n], k, p, f);
    }
  }

  /** Scanning a thing again adds its quantity to the line that has it, and to nothing else. */
  lemma MergeConservesUnits(c: Cart, line: LineInput)
    requires Valid(c) && MergeIndex(c.lines, line).Some?
    ensures var k := MergeIndex(c.lines, line).value;
      match Add(c, line, true)
      case Err(e) => e == NoQuantity && c.lines[k].line.qtyMilli == -line.qtyMilli
      case Ok(c') =>
        && c'.lineNumbers == c.lineNumbers && |c'.lines| == |c.lines|
        && c'.lines[k].line.qtyMilli == c.lines[k].line.qtyMilli + line.qtyMilli
        && c'.lines[k].line.discounts == [] && c.lines[k].line.discounts == []
        && c'.lines[k].lineTotal == MultiplyByQuantity(line.unitPrice, c'.lines[k].line.qtyMilli)
        && forall j :: 0 <= j < |c.lines| && j != k ==> c'.lines[j] == c.lines[j]
  {
    assert Ordered([]) == [];
  }
}
