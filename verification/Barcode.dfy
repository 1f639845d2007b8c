/// Barcodes: the GS1 check digit, what a code means, and the codes this till makes itself.
module Barcode {
  import opened Wrappers

  predicate IsDigit(c: char) { '0' <= c <= '9' }

  function DigitOf(c: char): int { c as int - '0' as int }

  /** At least one character, and all of them digits. */
  predicate IsNumeric(s: string) { s != "" && AllDigits(s) }

  predicate AllDigits(s: string) { forall k :: 0 <= k < |s| ==> IsDigit(s[k]) }

  // ---- Check digits ----

  /** Weights alternate from the right, beginning with `w`. */
  function Weighted(s: string, w: int): int {
    if s == "" then 0 else DigitOf(s[|s| - 1]) * w + Weighted(s[..|s| - 1], 4 - w)
  }

  /** The weight of one place, counted from the right. */
  function WeightAt(fromRight: nat, w: int): int { if fromRight % 2 == 0 then w else 4 - w }

  /** The digit that brings the weighted sum to a multiple of ten. */
  method CheckDigit(digits: string) returns (d: Option<int>)
    ensures d.None? <==> !IsNumeric(digits)
    ensures d.Some? ==> 0 <= d.value <= 9 && (Weighted(digits, 3) + d.value) % 10 == 0
  {
    if !IsNumeric(digits) { return None; }
    var total := 0;
    var n := |digits|;
    assert digits[..n] == digits;
    for index := 0 to n
      invariant total + Weighted(digits[..n - index], WeightAt(index, 3)) == Weighted(digits, 3)
    {
      assert digits[..n - index][..n - index - 1] == digits[..n - index - 1];
      total := total + DigitOf(digits[n - 1 - index]) * (if index % 2 == 0 then 3 else 1);
    }
    return Some((10 - total % 10) % 10);
  }

  /** A payload with the digit that completes it. */
  function Completed(payload: string): (code: string)
    requires IsNumeric(payload)
    ensures IsNumeric(code) && |code| == |payload| + 1 && code[..|payload|] == payload && Checks(code)
  {
    var d := (10 - Weighted(payload, 3) % 10) % 10;
    var code := payload + [Digit(d)];
    assert code[..|payload|] == payload;
    code
  }

  function Digit(d: int): (c: char)
    requires 0 <= d <= 9
    ensures IsDigit(c) && DigitOf(c) == d
  {
    '0' + d as char
  }

  /** The last digit is the check digit of the rest: the whole weighs a multiple of ten. */
  predicate Checks(code: string) { Weighted(code, 1) % 10 == 0 }

  predicate GtinLength(n: nat) { n == 8 || n == 12 || n == 13 || n == 14 }

  method IsValidGtin(code: string) returns (valid: bool)
    ensures valid <==> GtinLength(|code|) && IsNumeric(code) && Checks(code)
  {
    if !GtinLength(|code|) || !IsNumeric(code) { return false; }
    var n := |code| - 1;
    var d := CheckDigit(code[..n]);
    assert DigitOf(code[n]) * 1 == DigitOf(code[n]);
    assert Weighted(code, 1) == Weighted(code[..n], 3) + DigitOf(code[n]);
    return d.value == DigitOf(code[n]);
  }

  // ---- What the check digit catches ----

  lemma {:induction false} WeightedUpdate(s: string, k: nat, c: char, w: int)
    requires k < |s|
    ensures Weighted(s[k := c], w) - Weighted(s, w) == (DigitOf(c) - DigitOf(s[k])) * WeightAt(|s| - 1 - k, w)
  {
    hide DigitOf;
    var n := |s| - 1;
    if k == n {
      assert s[k := c][..n] == s[..n];
    } else {
      assert s[k := c][..n] == s[..n][k := c];
      WeightedUpdate(s[..n], k, c, 4 - w);
      assert WeightAt(n - 1 - k, 4 - w) == WeightAt(n - k, w);
    }
  }

  lemma MultipleOfTen(a: int, b: int, difference: int)
    requires b == a + difference && a % 10 == 0
    ensures b % 10 == 0 <==> difference % 10 == 0
  {
  }

  /** Every single-digit error is caught, at any length. */
  lemma SingleErrorCaught(code: string, k: nat, c: char)
    requires AllDigits(code) && k < |code| && IsDigit(c) && c != code[k] && Checks(code)
    ensures !Checks(code[k := c])
  {
    WeightedUpdate(code, k, c, 1);
    var d := DigitOf(c) - DigitOf(code[k]);
    MultipleOfTen(Weighted(code, 1), Weighted(code[k := c], 1), d * WeightAt(|code| - 1 - k, 1));
    assert d != 0 && -9 <= d <= 9;
  }

  lemma SwapArithmetic(a: int, b: int, w: int)
    requires 0 <= a <= 9 && 0 <= b <= 9 && (w == 1 || w == 3)
    ensures ((b - a) * w + (a - b) * (4 - w)) % 10 == 0 <==> a == b || a - b == 5 || b - a == 5
  {
    assert (b - a) * w + (a - b) * (4 - w) == if w == 1 then 2 * (a - b) else 2 * (b - a);
  }

  /** Swapping two neighbours is missed exactly when they are equal or differ by five. */
  lemma SwapMissed(code: string, k: nat)
    requires AllDigits(code) && k + 1 < |code| && Checks(code)
    ensures var a, b := DigitOf(code[k]), DigitOf(code[k + 1]);
      Checks(code[k := code[k + 1]][k + 1 := code[k]]) <==> a == b || a - b == 5 || b - a == 5
  {
    var a, b := DigitOf(code[k]), DigitOf(code[k + 1]);
    var once := code[k := code[k + 1]];
    WeightedUpdate(code, k, code[k + 1], 1);
    WeightedUpdate(once, k + 1, code[k], 1);
    var w := WeightAt(|code| - 1 - k, 1);
    assert WeightAt(|code| - 2 - k, 1) == 4 - w && (w == 1 || w == 3);
    hide WeightAt, Weighted;
    MultipleOfTen(Weighted(code, 1), Weighted(once[k + 1 := code[k]], 1), (b - a) * w + (a - b) * (4 - w));
    SwapArithmetic(a, b, w);
  }

  // ---- What a code means ----

  datatype Symbology = Ean13 | Ean8 | UpcA | Itf14 | Internal | Weighed | Unknown

  datatype Problem = NothingEntered | WrongCheckDigit | UnconfiguredPrefix | NoQuantity

  datatype Scan =
    | Usable(symbology: Symbology, lookupKey: string, qtyMilli: Option<int>, isCase: bool)
    | Unusable(symbology: Symbology, problem: Problem)
    | ApplicationIdentifiers(code: string)

  datatype StoreRules = StoreRules(internalPrefix: string, weighedPrefix: string, allowInvalidCheckDigit: bool)

  const INTERNAL_PREFIX := "21"
  const WEIGHED_PREFIX := "22"
  const DEFAULT_RULES := StoreRules(INTERNAL_PREFIX, WEIGHED_PREFIX, false)

  const GROUP_SEPARATOR := 0x1d as char

  predicate LooksLikeGs1(code: string) {
    GROUP_SEPARATOR in code || ("01" <= code && |code| > 14 && IsNumeric(code))
  }

  predicate InStore(prefix: string) {
    |prefix| == 2 && prefix[0] == '2' && IsDigit(prefix[1])
  }

  function SymbologyFor(length: nat): Symbology {
    if length == 8 then Ean8 else if length == 12 then UpcA else if length == 13 then Ean13
    else if length == 14 then Itf14 else Unknown
  }

  /** The value of a run of digits. */
  function Number(s: string): int {
    if s == "" then 0 else Number(s[..|s| - 1]) * 10 + DigitOf(s[|s| - 1])
  }

  /** Two for the prefix, five for the item, five for the grams, one to check. */
  function ParseWeighed(code: string): Scan
    requires |code| == 13
  {
    var qty := Number(code[7..12]);
    if qty == 0 then Unusable(Weighed, NoQuantity) else Usable(Weighed, code[2..7], Some(qty), false)
  }

  /** A code as entered, with surrounding space already gone. */
  function Parse(code: string, rules: StoreRules): Scan {
    if code == "" then Unusable(Unknown, NothingEntered)
    else if LooksLikeGs1(code) then ApplicationIdentifiers(code)
    else if !IsNumeric(code) then Usable(Unknown, code, None, false)
    else if !GtinLength(|code|) then Usable(Unknown, code, None, false)
    else if !Checks(code) && !rules.allowInvalidCheckDigit then Unusable(SymbologyFor(|code|), WrongCheckDigit)
    else if |code| == 14 then Usable(Itf14, code, None, true)
    else if |code| == 13 then
      if code[..2] == rules.weighedPrefix then ParseWeighed(code)
      else if code[..2] == rules.internalPrefix then Usable(Internal, code, None, false)
      else if InStore(code[..2]) then Unusable(Ean13, UnconfiguredPrefix)
      else Usable(Ean13, code, None, false)
    else Usable(SymbologyFor(|code|), code, None, false)
  }

  /** A code that passes is refused with any one digit mistyped, whatever it was. */
  lemma TypoRefused(code: string, k: nat, c: char)
    requires GtinLength(|code|) && IsNumeric(code) && Checks(code)
    requires k < |code| && IsDigit(c) && c != code[k]
    ensures Parse(code[k := c], DEFAULT_RULES) == Unusable(SymbologyFor(|code|), WrongCheckDigit)
  {
    SingleErrorCaught(code, k, c);
  }

  // ---- Codes this till makes ----

  function Power(n: nat): nat { if n == 0 then 1 else Power(n - 1) * 10 }

  /** Zero-padded to a width. */
  function Padded(value: nat, width: nat): (s: string)
    ensures |s| == width && AllDigits(s)
    decreases width
  {
    if width == 0 then "" else Padded(value / 10, width - 1) + [Digit(value % 10)]
  }

  lemma {:induction false} PaddedIsNumber(value: nat, width: nat)
    requires value < Power(width)
    ensures Number(Padded(value, width)) == value
    decreases width
  {
    if width > 0 {
      PaddedIsNumber(value / 10, width - 1);
      assert Padded(value, width)[..width - 1] == Padded(value / 10, width - 1);
    }
  }

  lemma {:induction false} NumberIsPadded(s: string)
    requires AllDigits(s)
    ensures 0 <= Number(s) < Power(|s|) && Padded(Number(s), |s|) == s
  {
    if s != "" {
      var n := |s| - 1;
      NumberIsPadded(s[..n]);
      assert s == s[..n] + [s[n]];
      assert Number(s) / 10 == Number(s[..n]) && Number(s) % 10 == DigitOf(s[n]);
    }
  }

  lemma FiveDigits()
    ensures Power(5) == 100_000 && Power(10) == 10_000_000_000
  {
    assert Power(3) == 1000 && Power(5) == Power(3) * 100;
    assert Power(7) == Power(5) * 100 && Power(9) == Power(7) * 100;
  }

  datatype Refusal = ItemCodeTooLong | QuantityOutOfRange

  datatype Made = Made(code: string) | Refused(why: Refusal)

  /** A label printed at the scale: item and quantity are both digits of it. */
  function WeighedBarcode(item: int, qtyMilli: int): (r: Made)
    ensures r.Made? <==> 0 <= item <= 99_999 && 1 <= qtyMilli <= 99_999
  {
    if !(0 <= item <= 99_999) then Refused(ItemCodeTooLong)
    else if !(1 <= qtyMilli <= 99_999) then Refused(QuantityOutOfRange)
    else Made(Completed(WEIGHED_PREFIX + Padded(item, 5) + Padded(qtyMilli, 5)))
  }

  /** A permanent identity for a product no manufacturer has numbered. */
  function InternalBarcode(item: int): (r: Made)
    ensures r.Made? <==> 0 <= item <= 9_999_999_999
  {
    if !(0 <= item <= 9_999_999_999) then Refused(ItemCodeTooLong)
    else Made(Completed(INTERNAL_PREFIX + Padded(item, 10)))
  }

  /** What was weighed reads back as the item it was and the quantity it was. */
  lemma WeighedRoundTrip(item: int, qtyMilli: int)
    requires WeighedBarcode(item, qtyMilli).Made?
    ensures Parse(WeighedBarcode(item, qtyMilli).code, DEFAULT_RULES) == Usable(Weighed, Padded(item, 5), Some(qtyMilli), false)
    ensures Number(Padded(item, 5)) == item
  {
    hide Weighted, Number, Padded, LooksLikeGs1;
    FiveDigits();
    PaddedIsNumber(item, 5);
    PaddedIsNumber(qtyMilli, 5);
    var payload := WEIGHED_PREFIX + Padded(item, 5) + Padded(qtyMilli, 5);
    var code := Completed(payload);
    assert |payload| == 12 && |code| == 13;
    assert code[..2] == code[..12][..2] == WEIGHED_PREFIX;
    assert code[2..7] == code[..12][2..7] == Padded(item, 5);
    assert code[7..12] == code[..12][7..12] == Padded(qtyMilli, 5);
    NotGs1(code);
  }

  lemma NotGs1(code: string)
    requires AllDigits(code) && |code| <= 14
    ensures !LooksLikeGs1(code)
  {
  }

  /** And every weighed code that reads is one this till would have made. */
  lemma WeighedIsOurs(code: string)
    requires |code| == 13 && IsNumeric(code) && Checks(code) && code[..2] == WEIGHED_PREFIX
    ensures match Parse(code, DEFAULT_RULES)
      case Usable(s, key, qty, isCase) =>
        s == Weighed && !isCase && qty.Some? && WeighedBarcode(Number(key), qty.value) == Made(code)
      case Unusable(s, problem) => s == Weighed && problem == NoQuantity && Number(code[7..12]) == 0
      case ApplicationIdentifiers(_) => false
  {
    hide Weighted, Number, Padded, LooksLikeGs1, Power;
    NotGs1(code);
    FiveDigits();
    NumberIsPadded(code[2..7]);
    NumberIsPadded(code[7..12]);
    if Number(code[7..12]) != 0 {
      var payload := WEIGHED_PREFIX + code[2..7] + code[7..12];
      assert payload == code[..12];
      CompletedIs(code);
    }
  }

  lemma CompletedIs(code: string)
    requires IsNumeric(code) && |code| > 1 && Checks(code)
    ensures IsNumeric(code[..|code| - 1]) && Completed(code[..|code| - 1]) == code
  {
    var n := |code| - 1;
    assert code == code[..n] + [code[n]];
    var made := Completed(code[..n]);
    assert Weighted(made, 1) == Weighted(code[..n], 3) + DigitOf(made[n]);
    assert Weighted(code, 1) == Weighted(code[..n], 3) + DigitOf(code[n]);
    assert made == made[..n] + [made[n]];
  }

  /** An internal code looks itself up. */
  lemma InternalRoundTrip(item: int)
    requires InternalBarcode(item).Made?
    ensures var code := InternalBarcode(item).code;
      Parse(code, DEFAULT_RULES) == Usable(Internal, code, None, false) && Number(code[2..12]) == item
  {
    hide Weighted, Number, Padded, LooksLikeGs1, Power;
    FiveDigits();
    PaddedIsNumber(item, 10);
    var payload := INTERNAL_PREFIX + Padded(item, 10);
    var code := Completed(payload);
    assert |payload| == 12 && |code| == 13;
    assert code[..2] == code[..12][..2] == INTERNAL_PREFIX;
    assert code[2..12] == code[..12][2..12] == Padded(item, 10);
    NotGs1(code);
  }
}
