/**
 * The customer rebate object of both generations: a rebate rule with the
 * re-entrancy flag `doNotCallThisAsShoppingCartPlugin`, the memo fields it
 * fills while valuing itself for the cart, and the shopping-cart plugin
 * hooks that hand its (tax-split) discount lines to the cart.
 *
 * The framework's answers are parameters: whether a member is logged in
 * (`loggedIn`), the current member's cart (`cart`, `currentCart`), whether
 * the page is a frontend page, the cart's tax-rate summary and most
 * valuable rate, the price type (`gross`), and the current member's own
 * rebate as the value it answers (`memberRebateValue`, None when the
 * member has none).
 */
module CustomerRebateModel {
  import opened RebateTypes
  import opened Valuation
  import opened TaxSplit
  import opened CartPositions

  /** The lines the plugin hands to the cart the first time it builds them. */
  function FirstRebateLines(entries: seq<CartEntry>, taxRates: seq<TaxRateEntry>, mostValuableRate: Option<TaxRate>,
                            gross: bool, positionRebateValue: Option<real>): seq<RebateLine>
  {
    SplitLines(taxRates, mostValuableRate, gross, FreshPriceTotal(positionRebateValue), positionRebateValue.Some?, entries)
  }

  /** The rebate of the namespaced generation. */
  class CustomerRebate {
    const rule: Rebate
    var doNotCallThisAsShoppingCartPlugin: bool
    var shoppingCart: Option<Cart>
    var rebatePositions: Option<seq<RebateLine>>
    var relatedProductGroups: Option<set<ProductGroupId>>

    /** Once filled, the memo of related product groups holds the rule's related set. */
    predicate Valid()
      reads this
    {
      relatedProductGroups.Some? ==> relatedProductGroups.value == rule.productGroups
    }

    constructor (rule: Rebate)
      ensures this.rule == rule && Valid()
      ensures !doNotCallThisAsShoppingCartPlugin
      ensures shoppingCart.None? && rebatePositions.None? && relatedProductGroups.None?
    {
      this.rule := rule;
      doNotCallThisAsShoppingCartPlugin := false;
      shoppingCart := None;
      rebatePositions := None;
      relatedProductGroups := None;
    }

    /** `getRelatedProductGroups`: looked up once, then answered from the memo. */
    method GetRelatedProductGroups() returns (groups: set<ProductGroupId>)
      requires Valid()
      modifies this
      ensures Valid() && groups == rule.productGroups
      ensures relatedProductGroups == Some(groups)
      ensures doNotCallThisAsShoppingCartPlugin == old(doNotCallThisAsShoppingCartPlugin)
      ensures shoppingCart == old(shoppingCart) && rebatePositions == old(rebatePositions)
    {
      if relatedProductGroups.None? {
        relatedProductGroups := Some(rule.productGroups);
      }
      groups := relatedProductGroups.value;
    }

    /** `positionIsMatchingWithRebate`: the product's group or one of its mirror groups is related. */
    method PositionIsMatchingWithRebate(product: Product) returns (matching: bool)
      requires Valid()
      modifies this
      ensures Valid() && matching == Matches(product, rule.productGroups)
      ensures relatedProductGroups == Some(rule.productGroups)
      ensures doNotCallThisAsShoppingCartPlugin == old(doNotCallThisAsShoppingCartPlugin)
      ensures shoppingCart == old(shoppingCart) && rebatePositions == old(rebatePositions)
    {
      var validProductGroups := GetRelatedProductGroups();
      matching := MatchPosition(product, validProductGroups);
    }

    /** `getRebatePositions`: the matching product positions, numbered by their place in the whole cart. */
    method GetRebatePositions(entries: seq<CartEntry>) returns (positions: seq<RebatePosition>)
      requires Valid()
      modifies this
      ensures Valid() && positions == MatchingPositions(entries, rule.productGroups)
      ensures doNotCallThisAsShoppingCartPlugin == old(doNotCallThisAsShoppingCartPlugin)
      ensures shoppingCart == old(shoppingCart) && rebatePositions == old(rebatePositions)
      ensures old(relatedProductGroups).Some? ==> relatedProductGroups == old(relatedProductGroups)
    {
      positions := [];
      var positionNum := 1;
      var i := 0;
      while i < |entries|
        invariant 0 <= i <= |entries| && positionNum == i + 1
        invariant Valid() && positions == MatchingPositions(entries[..i], rule.productGroups)
        invariant doNotCallThisAsShoppingCartPlugin == old(doNotCallThisAsShoppingCartPlugin)
        invariant shoppingCart == old(shoppingCart) && rebatePositions == old(rebatePositions)
        invariant old(relatedProductGroups).Some? ==> relatedProductGroups == old(relatedProductGroups)
      {
        assert entries[..i + 1][..i] == entries[..i];
        var entry := entries[i];
        if entry.RebateEntry? {
          positionNum := positionNum + 1;
          i := i + 1;
          continue;
        }
        var matching := PositionIsMatchingWithRebate(entry.product);
        if matching {
          positions := positions + [RebatePosition(positionNum, entry.price, entry.product)];
        }
        positionNum := positionNum + 1;
        i := i + 1;
      }
      assert entries[..i] == entries;
    }

    /** `getRebateValueForShoppingCartPositions`: the restricted rule's value for the cart's matching positions. */
    method GetRebateValueForShoppingCartPositions(entries: seq<CartEntry>) returns (value: real)
      requires Valid()
      modifies this
      ensures Valid() && value == RestrictedValue(rule.kind, rule.value, MatchingPositions(entries, rule.productGroups))
      ensures doNotCallThisAsShoppingCartPlugin == old(doNotCallThisAsShoppingCartPlugin)
      ensures shoppingCart == old(shoppingCart) && rebatePositions == old(rebatePositions)
      ensures old(relatedProductGroups).Some? ==> relatedProductGroups == old(relatedProductGroups)
    {
      var positions := GetRebatePositions(entries);
      value := AccumulateRebateValue(rule.kind, rule.value, positions);
    }

    /**
     * `getRebateValueForShoppingCart`: 0 and no effect while the flag is set
     * or nobody is logged in; otherwise the flag is raised for the
     * computation and, when the member has a cart, the rule's value for it is
     * returned and the flag lowered again. Without a cart the flag stays raised.
     */
    method GetRebateValueForShoppingCart(loggedIn: bool, cart: Option<Cart>) returns (value: real)
      requires Valid()
      modifies this
      ensures Valid()
      ensures old(doNotCallThisAsShoppingCartPlugin) || !loggedIn ==>
        value == 0.0 && doNotCallThisAsShoppingCartPlugin == old(doNotCallThisAsShoppingCartPlugin)
      ensures !old(doNotCallThisAsShoppingCartPlugin) && loggedIn && cart.Some? ==>
        value == RebateValueForCart(rule, cart.value) && !doNotCallThisAsShoppingCartPlugin
      ensures !old(doNotCallThisAsShoppingCartPlugin) && loggedIn && cart.None? ==>
        value == 0.0 && doNotCallThisAsShoppingCartPlugin
      ensures shoppingCart == old(shoppingCart) && rebatePositions == old(rebatePositions)
      ensures old(doNotCallThisAsShoppingCartPlugin) || !loggedIn || cart.None? ==>
        relatedProductGroups == old(relatedProductGroups)
      ensures !old(doNotCallThisAsShoppingCartPlugin) && loggedIn && cart.Some? ==>
        relatedProductGroups == Some(rule.productGroups)
    {
      value := 0.0;
      if !doNotCallThisAsShoppingCartPlugin {
        if loggedIn {
          doNotCallThisAsShoppingCartPlugin := true;
          if cart.Some? {
            var groups := GetRelatedProductGroups();
            if |groups| == 0 {
              var total := cart.value.amountTotalWithoutFees;
              if rule.kind == Absolute {
                value := rule.value;
              } else {
                value := (total / 100.0) * rule.value;
              }
              if total < value {
                value := total;
              }
            } else {
              value := GetRebateValueForShoppingCartPositions(cart.value.entries);
            }
            doNotCallThisAsShoppingCartPlugin := false;
          }
        }
      }
    }

    /** `getShoppingCart`: raises the flag and answers the memoized cart, asking for the current one while none is memoized. */
    method GetShoppingCart(current: Option<Cart>) returns (cart: Option<Cart>)
      modifies this
      ensures doNotCallThisAsShoppingCartPlugin
      ensures cart == (if old(shoppingCart).Some? then old(shoppingCart) else current) && shoppingCart == cart
      ensures rebatePositions == old(rebatePositions) && relatedProductGroups == old(relatedProductGroups)
    {
      doNotCallThisAsShoppingCartPlugin := true;
      if shoppingCart.None? {
        shoppingCart := current;
      }
      cart := shoppingCart;
    }

    /** `ShoppingCartInit`: false only when the flag is clear and the page is not a frontend page. */
    method ShoppingCartInit(isFrontendPage: bool) returns (result: bool)
      ensures result <==> doNotCallThisAsShoppingCartPlugin || isFrontendPage
    {
      result := true;
      if !doNotCallThisAsShoppingCartPlugin {
        if !isFrontendPage {
          result := false;
        }
      }
    }

    /**
     * `performShoppingCartConditionsCheck`: true exactly when the flag is
     * clear, the cart has positions and the member has a rebate; the flag
     * is clear on exit whenever it was clear on entry.
     */
    method PerformShoppingCartConditionsCheck(cartHasPositions: bool, memberHasRebate: bool) returns (result: bool)
      modifies this
      ensures result <==> !old(doNotCallThisAsShoppingCartPlugin) && cartHasPositions && memberHasRebate
      ensures doNotCallThisAsShoppingCartPlugin == old(doNotCallThisAsShoppingCartPlugin)
      ensures shoppingCart == old(shoppingCart) && rebatePositions == old(rebatePositions)
      ensures relatedProductGroups == old(relatedProductGroups)
    {
      result := false;
      if !doNotCallThisAsShoppingCartPlugin {
        if cartHasPositions && memberHasRebate {
          result := true;
        }
        doNotCallThisAsShoppingCartPlugin := false;
      }
    }

    /**
     * `ShoppingCartPositions`: nothing for non-taxable listings or while the
     * flag is set. Otherwise the cart is fetched (raising the flag); when it
     * has positions and the member has a rebate, the split lines of a new
     * position at the most valuable rate are built once, memoized and
     * returned on every later call, and the flag is lowered. An empty cart or
     * a member without rebate leaves the flag raised.
     */
    method ShoppingCartPositions(taxable: bool, currentCart: Cart, memberRebateValue: Option<real>,
                                 taxRates: seq<TaxRateEntry>, mostValuableRate: Option<TaxRate>, gross: bool)
      returns (lines: seq<RebateLine>)
      modifies this
      ensures old(doNotCallThisAsShoppingCartPlugin) || !taxable ==>
        lines == [] && doNotCallThisAsShoppingCartPlugin == old(doNotCallThisAsShoppingCartPlugin)
        && shoppingCart == old(shoppingCart) && rebatePositions == old(rebatePositions)
      ensures !old(doNotCallThisAsShoppingCartPlugin) && taxable ==>
        var cart := if old(shoppingCart).Some? then old(shoppingCart).value else currentCart;
        && shoppingCart == Some(cart)
        && (|cart.entries| == 0 || memberRebateValue.None? ==>
              lines == [] && doNotCallThisAsShoppingCartPlugin && rebatePositions == old(rebatePositions))
        && (|cart.entries| > 0 && memberRebateValue.Some? ==>
              && lines == (if old(rebatePositions).Some? then old(rebatePositions).value
                           else FirstRebateLines(cart.entries, taxRates, mostValuableRate, gross, memberRebateValue))
              && rebatePositions == Some(lines) && !doNotCallThisAsShoppingCartPlugin)
      ensures relatedProductGroups == old(relatedProductGroups)
    {
      lines := [];
      if !doNotCallThisAsShoppingCartPlugin && taxable {
        var cart := GetShoppingCart(Some(currentCart));
        if |cart.value.entries| > 0 && memberRebateValue.Some? {
          if rebatePositions.None? {
            var position := new ShoppingCartPosition(mostValuableRate);
            doNotCallThisAsShoppingCartPlugin := false;
            var split := position.SplitForTaxRates(taxRates, gross, CustomerRebateOfPosition(true, memberRebateValue), cart.value.entries);
            rebatePositions := Some(split);
          }
          doNotCallThisAsShoppingCartPlugin := false;
          lines := rebatePositions.value;
        }
      }
    }
  }

  /** The rebate of the older generation. */
  class SilvercartCustomerRebate {
    const rule: Rebate
    var doNotCallThisAsShoppingCartPlugin: bool
    var shoppingCart: Option<Cart>
    var rebatePositions: Option<seq<RebateLine>>
    var relatedProductGroups: Option<set<ProductGroupId>>

    constructor (rule: Rebate)
      ensures this.rule == rule && !doNotCallThisAsShoppingCartPlugin
      ensures shoppingCart.None? && rebatePositions.None? && relatedProductGroups.None?
    {
      this.rule := rule;
      doNotCallThisAsShoppingCartPlugin := false;
      shoppingCart := None;
      rebatePositions := None;
      relatedProductGroups := None;
    }

    /** `getRelatedProductGroups`: looks the related groups up afresh on every call and stores them. */
    method GetRelatedProductGroups() returns (groups: set<ProductGroupId>)
      modifies this
      ensures groups == rule.productGroups && relatedProductGroups == Some(groups)
      ensures doNotCallThisAsShoppingCartPlugin == old(doNotCallThisAsShoppingCartPlugin)
      ensures shoppingCart == old(shoppingCart) && rebatePositions == old(rebatePositions)
    {
      relatedProductGroups := Some(rule.productGroups);
      groups := relatedProductGroups.value;
    }

    /** `getRebatePositions`: the related groups are looked up once, the matching is done inside the numbering loop. */
    method GetRebatePositions(entries: seq<CartEntry>) returns (positions: seq<RebatePosition>)
      modifies this
      ensures positions == MatchingPositions(entries, rule.productGroups)
      ensures relatedProductGroups == Some(rule.productGroups)
      ensures doNotCallThisAsShoppingCartPlugin == old(doNotCallThisAsShoppingCartPlugin)
      ensures shoppingCart == old(shoppingCart) && rebatePositions == old(rebatePositions)
    {
      var validProductGroups := GetRelatedProductGroups();
      positions := CollectRebatePositions(entries, validProductGroups);
    }

    /** `getRebateValueForShoppingCartPositions`: the restricted rule's value for the cart's matching positions. */
    method GetRebateValueForShoppingCartPositions(entries: seq<CartEntry>) returns (value: real)
      modifies this
      ensures value == RestrictedValue(rule.kind, rule.value, MatchingPositions(entries, rule.productGroups))
      ensures relatedProductGroups == Some(rule.productGroups)
      ensures doNotCallThisAsShoppingCartPlugin == old(doNotCallThisAsShoppingCartPlugin)
      ensures shoppingCart == old(shoppingCart) && rebatePositions == old(rebatePositions)
    {
      var positions := GetRebatePositions(entries);
      value := AccumulateRebateValue(rule.kind, rule.value, positions);
    }

    /** `getRebateValueForShoppingCart`, with the same flag discipline as the namespaced generation. */
    method GetRebateValueForShoppingCart(loggedIn: bool, cart: Option<Cart>) returns (value: real)
      modifies this
      ensures old(doNotCallThisAsShoppingCartPlugin) || !loggedIn ==>
        value == 0.0 && doNotCallThisAsShoppingCartPlugin == old(doNotCallThisAsShoppingCartPlugin)
      ensures !old(doNotCallThisAsShoppingCartPlugin) && loggedIn && cart.Some? ==>
        value == RebateValueForCart(rule, cart.value) && !doNotCallThisAsShoppingCartPlugin
      ensures !old(doNotCallThisAsShoppingCartPlugin) && loggedIn && cart.None? ==>
        value == 0.0 && doNotCallThisAsShoppingCartPlugin
      ensures shoppingCart == old(shoppingCart) && rebatePositions == old(rebatePositions)
      ensures old(doNotCallThisAsShoppingCartPlugin) || !loggedIn || cart.None? ==>
        relatedProductGroups == old(relatedProductGroups)
      ensures !old(doNotCallThisAsShoppingCartPlugin) && loggedIn && cart.Some? ==>
        relatedProductGroups == Some(rule.productGroups)
    {
      value := 0.0;
      if !doNotCallThisAsShoppingCartPlugin {
        if loggedIn {
          doNotCallThisAsShoppingCartPlugin := true;
          if cart.Some? {
            var groups := GetRelatedProductGroups();
            if |groups| == 0 {
              var total := cart.value.amountTotalWithoutFees;
              if rule.kind == Absolute {
                value := rule.value;
              } else {
                value := (total / 100.0) * rule.value;
              }
              if total < value {
                value := total;
              }
            } else {
              value := GetRebateValueForShoppingCartPositions(cart.value.entries);
            }
            doNotCallThisAsShoppingCartPlugin := false;
          }
        }
      }
    }

    /** `getShoppingCart`: raises the flag and answers the memoized cart. */
    method GetShoppingCart(current: Option<Cart>) returns (cart: Option<Cart>)
      modifies this
      ensures doNotCallThisAsShoppingCartPlugin
      ensures cart == (if old(shoppingCart).Some? then old(shoppingCart) else current) && shoppingCart == cart
      ensures rebatePositions == old(rebatePositions) && relatedProductGroups == old(relatedProductGroups)
    {
      doNotCallThisAsShoppingCartPlugin := true;
      if shoppingCart.None? {
        shoppingCart := current;
      }
      cart := shoppingCart;
    }

    /** `ShoppingCartInit`: false when the flag is clear and the page is not a frontend page, otherwise null (None). */
    method ShoppingCartInit(isFrontendPage: bool) returns (result: Option<bool>)
      ensures result.Some? <==> !doNotCallThisAsShoppingCartPlugin && !isFrontendPage
      ensures result.Some? ==> !result.value
    {
      result := None;
      if !doNotCallThisAsShoppingCartPlugin {
        if !isFrontendPage {
          result := Some(false);
        }
      }
    }

    /**
     * `performShoppingCartConditionsCheck`: while the flag is clear, fetches
     * the memoized cart and answers whether it has positions and the
     * logged-in member has a rebate; the flag is clear again on exit.
     */
    method PerformShoppingCartConditionsCheck(currentCart: Cart, loggedIn: bool, memberHasRebate: bool) returns (result: bool)
      modifies this
      ensures old(doNotCallThisAsShoppingCartPlugin) ==> !result && shoppingCart == old(shoppingCart)
      ensures !old(doNotCallThisAsShoppingCartPlugin) ==>
        var cart := if old(shoppingCart).Some? then old(shoppingCart).value else currentCart;
        shoppingCart == Some(cart) && (result <==> |cart.entries| > 0 && loggedIn && memberHasRebate)
      ensures doNotCallThisAsShoppingCartPlugin == old(doNotCallThisAsShoppingCartPlugin)
      ensures rebatePositions == old(rebatePositions) && relatedProductGroups == old(relatedProductGroups)
    {
      result := false;
      if !doNotCallThisAsShoppingCartPlugin {
        var cart := GetShoppingCart(Some(currentCart));
        if |cart.value.entries| > 0 {
          doNotCallThisAsShoppingCartPlugin := false;
          if loggedIn {
            result := memberHasRebate;
          }
        }
        doNotCallThisAsShoppingCartPlugin := false;
      }
    }

    /**
     * `ShoppingCartPositions`, as in the namespaced generation, except that
     * the new position finds the member's rebate only in the German locale.
     */
    method ShoppingCartPositions(taxable: bool, currentCart: Cart, memberRebateValue: Option<real>, locale: string,
                                 taxRates: seq<TaxRateEntry>, mostValuableRate: Option<TaxRate>, gross: bool)
      returns (lines: seq<RebateLine>)
      modifies this
      ensures old(doNotCallThisAsShoppingCartPlugin) || !taxable ==>
        lines == [] && doNotCallThisAsShoppingCartPlugin == old(doNotCallThisAsShoppingCartPlugin)
        && shoppingCart == old(shoppingCart) && rebatePositions == old(rebatePositions)
      ensures !old(doNotCallThisAsShoppingCartPlugin) && taxable ==>
        var cart := if old(shoppingCart).Some? then old(shoppingCart).value else currentCart;
        && shoppingCart == Some(cart)
        && (|cart.entries| == 0 || memberRebateValue.None? ==>
              lines == [] && doNotCallThisAsShoppingCartPlugin && rebatePositions == old(rebatePositions))
        && (|cart.entries| > 0 && memberRebateValue.Some? ==>
              && lines == (if old(rebatePositions).Some? then old(rebatePositions).value
                           else FirstRebateLines(cart.entries, taxRates, mostValuableRate, gross,
                                                 LegacyCustomerRebateOfPosition(true, locale, memberRebateValue)))
              && rebatePositions == Some(lines) && !doNotCallThisAsShoppingCartPlugin)
      ensures relatedProductGroups == old(relatedProductGroups)
    {
      lines := [];
      if !doNotCallThisAsShoppingCartPlugin && taxable {
        var cart := GetShoppingCart(Some(currentCart));
        if |cart.value.entries| > 0 && memberRebateValue.Some? {
          if rebatePositions.None? {
            var position := new ShoppingCartPosition(mostValuableRate);
            doNotCallThisAsShoppingCartPlugin := false;
            var split := position.SplitForTaxRates(taxRates, gross,
              LegacyCustomerRebateOfPosition(true, locale, memberRebateValue), cart.value.entries);
            rebatePositions := Some(split);
          }
          doNotCallThisAsShoppingCartPlugin := false;
          lines := rebatePositions.value;
        }
      }
    }
  }

  /**
   * Outside the German locale the older generation's discount line is worth
   * nothing: with a single tax rate, or when the own rate's `AmountRaw` is
   * not negative, the plugin lists just an unsplit zero position.
   */
  lemma LegacyLinesOutsideGerman(entries: seq<CartEntry>, taxRates: seq<TaxRateEntry>, mostValuableRate: Option<TaxRate>,
                                 gross: bool, locale: string, memberRebateValue: Option<real>)
    requires locale != "de_DE"
    requires |taxRates| == 1 || AmountRawOf(taxRates, mostValuableRate) >= 0.0
    ensures var positionRebate := LegacyCustomerRebateOfPosition(true, locale, memberRebateValue);
      FreshPriceTotal(positionRebate) == 0.0
      && FirstRebateLines(entries, taxRates, mostValuableRate, gross, positionRebate) == [Original]
  {
    var positionRebate := LegacyCustomerRebateOfPosition(true, locale, memberRebateValue);
    assert positionRebate.None?;
    assert TaxAmount(mostValuableRate, 0.0, gross) == 0.0;
  }

  /**
   * End to end for an unrestricted absolute rule whose value the cart total
   * covers: the rebate is worth its value, the discount position's total is
   * that value negated and rounded to cents (-30.00 for a 30.00 rule on a
   * 100.00 cart), and with a single tax rate the plugin lists that position
   * unsplit.
   */
  lemma AbsoluteRebateLines(rule: Rebate, cart: Cart, taxRates: seq<TaxRateEntry>, mostValuableRate: Option<TaxRate>,
                            gross: bool)
    requires |rule.productGroups| == 0 && rule.kind == Absolute
    requires 0.0 <= rule.value <= cart.amountTotalWithoutFees
    ensures RebateValueForCart(rule, cart) == rule.value
    ensures FreshPriceTotal(Some(RebateValueForCart(rule, cart))) == Round2(-rule.value)
    ensures rule.value == 30.0 ==> FreshPriceTotal(Some(RebateValueForCart(rule, cart))) == -30.0
    ensures |taxRates| == 1 ==>
      FirstRebateLines(cart.entries, taxRates, mostValuableRate, gross, Some(RebateValueForCart(rule, cart))) == [Original]
  {
    UnrestrictedValueBounds(rule.kind, rule.value, cart.amountTotalWithoutFees);
    assert rule.value * -1.0 == -rule.value;
    if rule.value == 30.0 {
      assert Round2(30.0) == 30.0 by {
        assert (30.0 * 100.0 + 0.5).Floor == 3000;
      }
    }
  }
}
