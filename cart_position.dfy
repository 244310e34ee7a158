/**
 * The customer rebate's cart position: a discount line whose price total
 * is the negated, rounded rebate value, whose tax follows the price type,
 * and which splits itself across the cart's tax rates when its own rate
 * cannot absorb the discount's tax.
 *
 * What the position learns from the current member's rebate is passed in
 * as `rebateValue`: None when there is no rebate to ask (see
 * `CustomerRebateOfPosition`), otherwise the value that rebate's
 * `getRebateValueForShoppingCart` answers.
 */
module CartPositions {
  import opened RebateTypes
  import opened TaxSplit

  /**
   * `getCustomerRebate` of the position: the current member's rebate when
   * someone is logged in, nothing otherwise.
   */
  function CustomerRebateOfPosition<R>(loggedIn: bool, memberRebate: Option<R>): (r: Option<R>)
    ensures r.Some? <==> loggedIn && memberRebate.Some?
    ensures r.Some? ==> r == memberRebate
  {
    if loggedIn then memberRebate else None
  }

  /**
   * The older generation's `getCustomerRebate`: the member's rebate is only
   * looked up when the current locale is German.
   */
  function LegacyCustomerRebateOfPosition<R>(loggedIn: bool, locale: string, memberRebate: Option<R>): (r: Option<R>)
    ensures r.Some? <==> loggedIn && locale == "de_DE" && memberRebate.Some?
    ensures r.Some? ==> r == memberRebate
  {
    if loggedIn && locale == "de_DE" then memberRebate else None
  }

  /** Outside the German locale the older lookup never finds a rebate, so the position is worth nothing. */
  lemma LegacyRebateOnlyInGerman<R>(loggedIn: bool, locale: string, memberRebate: Option<R>)
    requires locale != "de_DE"
    ensures LegacyCustomerRebateOfPosition(loggedIn, locale, memberRebate).None?
    ensures loggedIn && memberRebate.Some? ==>
      LegacyCustomerRebateOfPosition(loggedIn, locale, memberRebate) != CustomerRebateOfPosition(loggedIn, memberRebate)
  {
  }

  /**
   * The price total computed on first request: the rebate value negated and
   * rounded to cents, 0 without a rebate. A non-negative rebate value gives
   * a discount within half a cent of it.
   */
  function FreshPriceTotal(rebateValue: Option<real>): (p: real)
    ensures rebateValue.None? ==> p == 0.0
    ensures rebateValue.Some? && rebateValue.value >= 0.0 ==>
      p <= 0.0 && -rebateValue.value - 0.005 <= p <= -rebateValue.value + 0.005
  {
    Round2Zero();
    var raw := if rebateValue.Some? then rebateValue.value * -1.0 else 0.0;
    Round2Close(raw);
    Round2NonPositive(raw);
    Round2(raw)
  }

  /** What `getPriceTotal` answers given the memoized total: the memo when set, else a fresh total. */
  function PriceTotalOf(memo: Option<real>, rebateValue: Option<real>): real
  {
    if memo.Some? then memo.value else FreshPriceTotal(rebateValue)
  }

  class ShoppingCartPosition {
    /** The position's tax rate (the `Tax` relation); None when it has none. */
    const tax: Option<TaxRate>
    var isSplittedPosition: bool
    /** Memoized `priceTotal`, `priceNetTotal` and split of the position. */
    var priceTotal: Option<real>
    var priceNetTotal: Option<real>
    var splittedPositions: Option<seq<RebateLine>>

    constructor (tax: Option<TaxRate>)
      ensures this.tax == tax && !isSplittedPosition
      ensures priceTotal.None? && priceNetTotal.None? && splittedPositions.None?
    {
      this.tax := tax;
      isSplittedPosition := false;
      priceTotal := None;
      priceNetTotal := None;
      splittedPositions := None;
    }

    /** `setPriceTotal`: fixes the price total; nothing else changes. */
    method SetPriceTotal(total: real)
      modifies this
      ensures priceTotal == Some(total)
      ensures priceNetTotal == old(priceNetTotal) && splittedPositions == old(splittedPositions)
      ensures isSplittedPosition == old(isSplittedPosition)
    {
      priceTotal := Some(total);
    }

    /** `getPriceTotal`: computed once, then answered from the memo. */
    method GetPriceTotal(rebateValue: Option<real>) returns (total: real)
      modifies this
      ensures total == PriceTotalOf(old(priceTotal), rebateValue)
      ensures old(priceTotal).Some? ==> total == old(priceTotal).value
      ensures priceTotal == Some(total)
      ensures priceNetTotal == old(priceNetTotal) && splittedPositions == old(splittedPositions)
      ensures isSplittedPosition == old(isSplittedPosition)
    {
      if priceTotal.None? {
        var raw := 0.0;
        if rebateValue.Some? {
          raw := rebateValue.value * -1.0;
        }
        SetPriceTotal(Round2(raw));
      }
      total := priceTotal.value;
    }

    /** `getTaxAmount`: the tax of the price total at the position's rate; the price is only asked for when there is a tax. */
    method GetTaxAmount(gross: bool, rebateValue: Option<real>) returns (amount: real)
      modifies this
      ensures amount == TaxAmount(tax, PriceTotalOf(old(priceTotal), rebateValue), gross)
      ensures priceTotal == if tax.Some? then Some(PriceTotalOf(old(priceTotal), rebateValue)) else old(priceTotal)
      ensures priceNetTotal == old(priceNetTotal) && splittedPositions == old(splittedPositions)
      ensures isSplittedPosition == old(isSplittedPosition)
    {
      amount := 0.0;
      if tax.Some? {
        var price := GetPriceTotal(rebateValue);
        amount := TaxAmount(tax, price, gross);
      }
    }

    /** `getPriceNetTotal`: the price total minus its tax, rounded to cents, computed once. */
    method GetPriceNetTotal(gross: bool, rebateValue: Option<real>) returns (net: real)
      modifies this
      ensures old(priceNetTotal).Some? ==> net == old(priceNetTotal).value && priceTotal == old(priceTotal)
      ensures old(priceNetTotal).None? ==>
        var total := PriceTotalOf(old(priceTotal), rebateValue);
        net == Round2(total - TaxAmount(tax, total, gross)) && priceTotal == Some(total)
      ensures priceNetTotal == Some(net)
      ensures splittedPositions == old(splittedPositions) && isSplittedPosition == old(isSplittedPosition)
    {
      if priceNetTotal.None? {
        var total := GetPriceTotal(rebateValue);
        var taxAmount := GetTaxAmount(gross, rebateValue);
        priceNetTotal := Some(Round2(total - taxAmount));
      }
      net := priceNetTotal.value;
    }

    /**
     * `splitForTaxRates`: on the first call the lines `SplitLines` describes
     * (the position itself, nothing, or the greedy pieces), memoized; later
     * calls answer the memo whatever their arguments.
     */
    method SplitForTaxRates(taxRates: seq<TaxRateEntry>, gross: bool, rebateValue: Option<real>, entries: seq<CartEntry>)
      returns (lines: seq<RebateLine>)
      modifies this
      ensures old(splittedPositions).Some? ==> lines == old(splittedPositions).value && priceTotal == old(priceTotal)
      ensures old(splittedPositions).None? ==>
        lines == SplitLines(taxRates, tax, gross, PriceTotalOf(old(priceTotal), rebateValue), rebateValue.Some?, entries)
        && priceTotal == if |taxRates| != 1 && tax.Some? then Some(PriceTotalOf(old(priceTotal), rebateValue)) else old(priceTotal)
      ensures splittedPositions == Some(lines)
      ensures priceNetTotal == old(priceNetTotal) && isSplittedPosition == old(isSplittedPosition)
    {
      if splittedPositions.Some? {
        lines := splittedPositions.value;
        return;
      }
      if |taxRates| == 1 {
        lines := [Original];
      } else {
        var taxAmount := GetTaxAmount(gross, rebateValue);
        if AmountRawOf(taxRates, tax) + taxAmount >= 0.0 {
          lines := [Original];
        } else if rebateValue.None? {
          lines := [];
        } else {
          var amounts := CollectTaxAmounts(entries);
          var sorted := SortDescending(amounts);
          var rebatePrice := GetPriceTotal(rebateValue);
          var remaining;
          lines, remaining := AllocateGreedily(sorted, rebatePrice);
        }
      }
      splittedPositions := Some(lines);
    }
  }

  /**
   * The net total of a discount lies between the discount and 0, within
   * half a cent (for gross prices, or net rates of at most 100 %).
   */
  lemma NetTotalOfDiscount(tax: Option<TaxRate>, total: real, gross: bool)
    requires total <= 0.0
    requires tax.Some? && !gross ==> tax.value <= 100
    ensures total - 0.005 <= Round2(total - TaxAmount(tax, total, gross)) <= 0.0
  {
    TaxOfDiscountBounds(tax, total, gross);
    Round2Close(total - TaxAmount(tax, total, gross));
    Round2NonPositive(total - TaxAmount(tax, total, gross));
  }

  /**
   * A split made with the cart's only tax rate, or whose own rate absorbs
   * the discount's tax, keeps the position as the single line; a split
   * without a rebate to ask yields nothing.
   */
  lemma SplitLinesUnsplit(taxRates: seq<TaxRateEntry>, tax: Option<TaxRate>, gross: bool, total: real,
                          hasCustomerRebate: bool, entries: seq<CartEntry>)
    ensures |taxRates| == 1 ==> SplitLines(taxRates, tax, gross, total, hasCustomerRebate, entries) == [Original]
    ensures tax.None? ==> SplitLines(taxRates, tax, gross, total, hasCustomerRebate, entries) == [Original]
    ensures |taxRates| != 1 && AmountRawOf(taxRates, tax) + TaxAmount(tax, total, gross) < 0.0 ==>
      SplitLines(taxRates, tax, gross, total, false, entries) == []
  {
  }

  /**
   * The worked example of a gross-priced cart with 60.00 at 19 % and 40.00
   * at 7 %: a discount of 70.00 takes the whole 19 % bucket and the
   * remaining 10.00 from the 7 % bucket.
   */
  lemma SplitExample()
    ensures var entries := [ProductEntry(60.0, Product(1, [], 19)), ProductEntry(40.0, Product(2, [], 7))];
      var taxRates := [TaxRateEntry(19, 9.58), TaxRateEntry(7, 2.62)];
      SplitLines(taxRates, Some(19), true, -70.0, true, entries)
        == [Piece(true, 19, -60.0), Piece(true, 7, -10.0)]
  {
    var entries := [ProductEntry(60.0, Product(1, [], 19)), ProductEntry(40.0, Product(2, [], 7))];
    assert entries[..1] == [entries[0]];
    assert BucketsOf(entries[..1]) == [Bucket(19, 60.0)];
    assert [Bucket(19, 60.0)][1..] == [];
    assert AddAmount([Bucket(19, 60.0)], 7, 40.0) == [Bucket(19, 60.0), Bucket(7, 40.0)];
    assert BucketsOf(entries) == [Bucket(19, 60.0), Bucket(7, 40.0)];
    var buckets := [Bucket(19, 60.0), Bucket(7, 40.0)];
    assert SortDescending(buckets) == buckets;
    assert TaxAmount(Some(19), -70.0, true) == -70.0 - (-70.0 / 119.0 * 100.0);
    assert Allocate(buckets[1..], -10.0) == Allocation([Piece(true, 7, -10.0)], 0.0);
  }
}
