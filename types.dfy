/**
 * Data model shared by both generations of the customer rebate module:
 * rebate rules, cart entries, tax-rate summaries and the discount lines the
 * module hands back to the cart.
 *
 * Money is modelled as `real` (exact), tax rates as whole percentages
 * (fractional rates are not modelled), and dates as integer timestamps.
 */
module RebateTypes {

  datatype Option<T> = None | Some(value: T)

  type GroupId = nat
  type ProductGroupId = nat
  type MemberId = nat
  type TaxRate = nat

  /** The `Type` enum of a rebate rule: "absolute" (the default) or "percent". */
  datatype RebateType = Absolute | Percent

  /**
   * One rebate rule record. `productGroups` is the set that
   * `getRelatedProductGroups` yields (the directly related product groups,
   * or the translations of them); the empty set means "whole cart".
   */
  datatype Rebate = Rebate(
    groupId: GroupId,
    validFrom: int,
    validUntil: int,
    kind: RebateType,
    value: real,
    minimumOrderValue: real,
    restrictToNewsletterRecipients: bool,
    productGroups: set<ProductGroupId>)

  /** The product behind a cart position: its main group, its mirror groups and its tax rate. */
  datatype Product = Product(productGroupId: ProductGroupId, mirrorGroupIds: seq<ProductGroupId>, taxRate: TaxRate)

  /**
   * An entry of the cart's position list: either a discount position this
   * module injected earlier, or an ordinary product position with its price.
   */
  datatype CartEntry = RebateEntry | ProductEntry(price: real, product: Product)

  /**
   * A snapshot of the shopping cart. The two totals are what the cart's own
   * `getAmountTotalWithoutFees()` answers: without arguments (as asked while
   * valuing a rebate) and with the rebate class excluded (as asked while
   * checking the minimum order value).
   */
  datatype Cart = Cart(entries: seq<CartEntry>, amountTotalWithoutFees: real, amountTotalWithoutRebates: real)

  /** The member (customer) owning a cart: id, groups in membership order, newsletter flag. */
  datatype Member = Member(id: MemberId, groups: seq<GroupId>, subscribedToNewsletter: bool)

  /** One entry of the cart's tax-rate summary: the rate and its `AmountRaw`. */
  datatype TaxRateEntry = TaxRateEntry(rate: TaxRate, amountRaw: real)

  /**
   * A discount line produced by the tax split: the splitting position itself,
   * or a new piece carrying the split flag, the tax rate of its bucket and its
   * (negative) price.
   */
  datatype RebateLine = Original | Piece(isSplittedPosition: bool, taxRate: TaxRate, priceTotal: real)

  /** PHP's `round(x, 2)`: to the nearest cent, halves away from zero. */
  function Round2(x: real): (r: real)
    decreases if x < 0.0 then 1 else 0
  {
    if x >= 0.0 then ((x * 100.0 + 0.5).Floor as real) / 100.0 else -Round2(-x)
  }

  /** Rounding is symmetric about zero: halves go away from zero on both sides. */
  lemma Round2Symmetric(x: real)
    ensures Round2(-x) == -Round2(x)
  {
    if x == 0.0 {
      assert Round2(0.0) == 0.0 by {
        assert (0.0 * 100.0 + 0.5).Floor == 0;
      }
    }
  }

  lemma Round2Zero()
    ensures Round2(0.0) == 0.0
  {
    assert (0.0 * 100.0 + 0.5).Floor == 0;
  }

  /** Rounding moves a value by at most half a cent. */
  lemma Round2Close(x: real)
    ensures x - 0.005 <= Round2(x) <= x + 0.005
  {
    if x >= 0.0 {
      var f := (x * 100.0 + 0.5).Floor;
      assert f as real <= x * 100.0 + 0.5 < f as real + 1.0;
    } else {
      var f := (-x * 100.0 + 0.5).Floor;
      assert f as real <= -x * 100.0 + 0.5 < f as real + 1.0;
    }
  }

  /** Rounding keeps the sign: a non-positive amount rounds to a non-positive amount. */
  lemma Round2NonPositive(x: real)
    ensures x <= 0.0 ==> Round2(x) <= 0.0
  {
    if x < 0.0 {
      assert (-x * 100.0 + 0.5).Floor >= 0;
    } else if x == 0.0 {
      Round2Zero();
    }
  }
}
