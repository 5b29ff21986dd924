/**
 `OrderService.CalculateOrder`: a discount from a threshold table, bonus
 points per whole hundred, and the discounted total, all in C# `int`
 arithmetic. That arithmetic is unchecked 32-bit: products wrap around and
 `/` truncates toward zero, and both are written out here.
 */
module OrderService {

  const Int32Min: int := -0x8000_0000
  const Int32Max: int := 0x7FFF_FFFF
  const Two32: int := 0x1_0000_0000

  predicate IsInt32(x: int) {
    Int32Min <= x <= Int32Max
  }

  /** Unchecked 32-bit arithmetic: the value modulo 2^32, read back as a
      signed number. */
  function Wrap32(x: int): (r: int)
    ensures IsInt32(r)
    ensures (x - r) % Two32 == 0
    ensures IsInt32(x) ==> r == x
  {
    var m := x % Two32;
    assert x == Two32 * (x / Two32) + m;
    if m > Int32Max then m - Two32 else m
  }

  /** C#'s integer `/ 100`: the quotient truncated toward zero, so the
      remainder takes the sign of the dividend. */
  function DivTrunc100(a: int): (q: int)
    ensures 0 <= a ==> 0 <= q * 100 <= a < q * 100 + 100
    ensures a < 0 ==> q * 100 - 100 < a <= q * 100 <= 0
  {
    if a >= 0 then a / 100 else -((-a) / 100)
  }

  /** What a successful calculation returns. */
  datatype DiscountResult = DiscountResult(discountPercent: int, finalAmount: int, bonusPoints: int)

  /** `new ArgumentException(message, paramName)`. */
  datatype ArgumentException = ArgumentException(message: string, paramName: string)

  /** The calculation either returns a result or throws. */
  datatype OrderOutcome = Calculated(result: DiscountResult) | Rejected(error: ArgumentException)

  const NegativeAmountMessage: string := "Amount must be non-negative"
  const TotalAmountParam: string := "totalAmount"

  /** The discount table: both thresholds are strict. */
  function Discount(totalAmount: int, isMember: bool): (d: int)
    ensures d in {0, 5, 10, 15}
    ensures isMember ==> d >= 10
    ensures !isMember ==> d <= 5
    ensures d == 15 <==> isMember && totalAmount > 1000
    ensures d == 10 <==> isMember && totalAmount <= 1000
    ensures d == 5 <==> !isMember && totalAmount > 5000
    ensures d == 0 <==> !isMember && totalAmount <= 5000
  {
    if isMember && totalAmount > 1000 then 15
    else if isMember then 10
    else if totalAmount > 5000 then 5
    else 0
  }

  /** Bonus points: one per whole hundred, doubled for members. */
  function BonusPoints(totalAmount: int, isMember: bool): (points: int)
    requires IsInt32(totalAmount) && totalAmount >= 0
    ensures IsInt32(points) && points >= 0
    ensures points == (totalAmount / 100) * (if isMember then 2 else 1)
    ensures points * 100 <= totalAmount * (if isMember then 2 else 1)
  {
    Wrap32(DivTrunc100(totalAmount) * (if isMember then 2 else 1))
  }

  /** The discounted total exactly as the code computes it: the product in
      unchecked 32-bit arithmetic, then divided by 100 toward zero. */
  function FinalAmount32(totalAmount: int, discount: int): (amount: int)
    requires IsInt32(totalAmount) && totalAmount >= 0 && discount in {0, 5, 10, 15}
    ensures IsInt32(amount)
    ensures totalAmount * (100 - discount) <= Int32Max ==>
      amount == totalAmount * (100 - discount) / 100 && 0 <= amount <= totalAmount
  {
    DivTrunc100(Wrap32(totalAmount * (100 - discount)))
  }

  /** `CalculateOrder(totalAmount, isMember, itemsCount)` as written. A
      negative total throws; otherwise the discount comes from the table,
      the points from the whole hundreds, and the final amount from the
      wrapped product. `itemsCount` takes no part. */
  function CalculateOrder(totalAmount: int, isMember: bool, itemsCount: int): (o: OrderOutcome)
    requires IsInt32(totalAmount) && IsInt32(itemsCount)
    ensures o.Rejected? <==> totalAmount < 0
    ensures o.Rejected? ==> o.error == ArgumentException(NegativeAmountMessage, TotalAmountParam)
    ensures o.Calculated? ==>
      && o.result.discountPercent == Discount(totalAmount, isMember)
      && o.result.bonusPoints == (totalAmount / 100) * (if isMember then 2 else 1)
      && IsInt32(o.result.finalAmount)
    ensures o.Calculated? && totalAmount * (100 - o.result.discountPercent) <= Int32Max ==>
      && o.result.finalAmount == totalAmount * (100 - o.result.discountPercent) / 100
      && 0 <= o.result.finalAmount <= totalAmount
  {
    if totalAmount < 0 then
      Rejected(ArgumentException(NegativeAmountMessage, TotalAmountParam))
    else
      var discount := Discount(totalAmount, isMember);
      Calculated(DiscountResult(discount, FinalAmount32(totalAmount, discount), BonusPoints(totalAmount, isMember)))
  }

  /** The largest total for which no discount makes the product overflow. */
  const MaxExactTotal: int := Int32Max / 100

  /** Below `MaxExactTotal` the as-written result is exact: the final amount
      is the total less its discount, rounded down, and never exceeds the
      total. */
  lemma CalculateOrderExactBelowBound(totalAmount: int, isMember: bool, itemsCount: int)
    requires IsInt32(itemsCount) && 0 <= totalAmount <= MaxExactTotal
    ensures var o := CalculateOrder(totalAmount, isMember, itemsCount);
      && o.Calculated?
      && o.result.finalAmount == totalAmount * (100 - o.result.discountPercent) / 100
      && 0 <= o.result.finalAmount <= totalAmount
      && o.result.bonusPoints >= 0
  {
    var d := Discount(totalAmount, isMember);
    assert totalAmount * (100 - d) <= totalAmount * 100 <= Int32Max;
  }

  /** `itemsCount` has no effect on any field of the result. */
  lemma ItemsCountIsIgnored(totalAmount: int, isMember: bool, a: int, b: int)
    requires IsInt32(totalAmount) && IsInt32(a) && IsInt32(b)
    ensures CalculateOrder(totalAmount, isMember, a) == CalculateOrder(totalAmount, isMember, b)
  {
  }

  /** The product wraps for large totals: 30,000,000 for a non-member is
      discounted 5%, and 30,000,000 * 95 exceeds 2^31 - 1, so the reported
      final amount is negative. */
  lemma FinalAmountWrapsForLargeTotal()
    ensures CalculateOrder(30_000_000, false, 1).result.finalAmount == -14_449_672
    ensures CalculateOrder(30_000_000, false, 1).result.finalAmount < 0
  {
    assert Wrap32(30_000_000 * 95) == 2_850_000_000 - Two32;
  }

  /** The smallest totals that overflow: 25,264,514 for a member (times 85)
      and 22,605,092 for a non-member (times 95); one less is still exact. */
  lemma SmallestOverflowingTotals()
    ensures 25_264_513 * 85 <= Int32Max < 25_264_514 * 85
    ensures 22_605_091 * 95 <= Int32Max < 22_605_092 * 95
    ensures CalculateOrder(25_264_514, true, 1).result.finalAmount < 0
    ensures CalculateOrder(22_605_092, false, 1).result.finalAmount < 0
  {
    assert Wrap32(25_264_514 * 85) == 25_264_514 * 85 - Two32;
    assert Wrap32(22_605_092 * 95) == 22_605_092 * 95 - Two32;
  }

  /** The calculation with the product taken in 64-bit arithmetic, which
      holds it for every 32-bit total. */
  function CalculateOrderWide(totalAmount: int, isMember: bool, itemsCount: int): (o: OrderOutcome)
    requires IsInt32(totalAmount) && IsInt32(itemsCount)
    ensures o.Rejected? <==> totalAmount < 0
    ensures o.Rejected? ==> o.error == ArgumentException(NegativeAmountMessage, TotalAmountParam)
    ensures o.Calculated? ==>
      && o.result.discountPercent == Discount(totalAmount, isMember)
      && o.result.bonusPoints == (totalAmount / 100) * (if isMember then 2 else 1)
      && o.result.finalAmount == totalAmount * (100 - o.result.discountPercent) / 100
      && 0 <= o.result.finalAmount <= totalAmount
      && IsInt32(o.result.finalAmount)
  {
    if totalAmount < 0 then
      Rejected(ArgumentException(NegativeAmountMessage, TotalAmountParam))
    else
      var discount := Discount(totalAmount, isMember);
      var product := totalAmount * (100 - discount);
      assert 0 <= product <= totalAmount * 100 < 0x8000_0000_0000_0000;
      Calculated(DiscountResult(discount, DivTrunc100(product), BonusPoints(totalAmount, isMember)))
  }

  /** The widened calculation agrees with the code wherever the code's product
      does not overflow, and differs from it at the overflowing example. */
  lemma WideAgreesUnlessOverflow(totalAmount: int, isMember: bool, itemsCount: int)
    requires IsInt32(totalAmount) && IsInt32(itemsCount)
    requires totalAmount < 0 || totalAmount * (100 - Discount(totalAmount, isMember)) <= Int32Max
    ensures CalculateOrder(totalAmount, isMember, itemsCount) == CalculateOrderWide(totalAmount, isMember, itemsCount)
    ensures CalculateOrder(30_000_000, false, 1) != CalculateOrderWide(30_000_000, false, 1)
  {
    FinalAmountWrapsForLargeTotal();
  }

  /** The scenarios of the order tests, as the code computes them. A member
      with a total of 0 gets the member discount of 10 (one test expects 0). */
  lemma OrderScenarios()
    ensures CalculateOrder(0, true, 1) == Calculated(DiscountResult(10, 0, 0))
    ensures CalculateOrder(0, false, 1) == Calculated(DiscountResult(0, 0, 0))
    ensures CalculateOrder(1001, true, 1) == Calculated(DiscountResult(15, 850, 20))
    ensures CalculateOrder(5001, false, 1) == Calculated(DiscountResult(5, 4750, 50))
    ensures CalculateOrder(1000, true, 2) == Calculated(DiscountResult(10, 900, 20))
    ensures CalculateOrder(2500, true, 5) == Calculated(DiscountResult(15, 2125, 50))
    ensures CalculateOrder(6000, false, 3) == Calculated(DiscountResult(5, 5700, 60))
    ensures CalculateOrder(99, true, 1) == Calculated(DiscountResult(10, 89, 0))
    ensures CalculateOrder(-100, true, 5) == Rejected(ArgumentException("Amount must be non-negative", "totalAmount"))
  {
  }
}
