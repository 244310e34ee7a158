/**
 * The member side of both generations: selecting the member's rebate
 * among their groups' valid rebates, checking its conditions, and caching
 * the outcome. The cart and the current time are parameters; the member
 * whose rebate is selected is taken to be the logged-in current member.
 */
module Members {
  import opened RebateTypes
  import opened RebateValidity
  import opened Valuation
  import RebateSelection

  /** The static flag `doNotCallThisAsShoppingCartPlugin`, shared by every member extension. */
  class PluginGuard {
    var doNotCallThisAsShoppingCartPlugin: bool

    constructor ()
      ensures !doNotCallThisAsShoppingCartPlugin
    {
      doNotCallThisAsShoppingCartPlugin := false;
    }
  }

  /** The member extension of the namespaced generation, with its cache keyed by the owner's id. */
  class MemberExtension {
    const owner: Member
    const guard: PluginGuard
    var customerRebate: map<MemberId, Option<Rebate>>

    constructor (owner: Member, guard: PluginGuard)
      ensures this.owner == owner && this.guard == guard && customerRebate == map[]
    {
      this.owner := owner;
      this.guard := guard;
      customerRebate := map[];
    }

    /**
     * `checkRebateConditions`: the rebate, or None when it fails a gate; the
     * shared flag is raised for the check and lowered after it.
     */
    method CheckRebateConditions(rebate: Option<Rebate>, cart: Cart) returns (checked: Option<Rebate>)
      modifies guard
      ensures checked == RebateSelection.CheckRebateConditions(rebate, cart, owner.subscribedToNewsletter)
      ensures guard.doNotCallThisAsShoppingCartPlugin == (rebate.None? && old(guard.doNotCallThisAsShoppingCartPlugin))
    {
      checked := rebate;
      if rebate.Some? {
        var rule := rebate.value;
        guard.doNotCallThisAsShoppingCartPlugin := true;
        if cart.amountTotalWithoutRebates < rule.minimumOrderValue {
          checked := None;
        } else if rule.restrictToNewsletterRecipients && !owner.subscribedToNewsletter {
          checked := None;
        } else if |rule.productGroups| > 0 {
          var positions := CollectRebatePositions(cart.entries, rule.productGroups);
          if |positions| == 0 {
            checked := None;
          }
        }
        guard.doNotCallThisAsShoppingCartPlugin := false;
      }
    }

    /**
     * `getCustomerRebate`: answered from the cache once the owner's id has an
     * entry; otherwise the best rebate of the owner's groups, checked, or None
     * while the shared flag is raised, and that answer (None included) is cached.
     */
    method GetCustomerRebate(rebates: seq<Rebate>, now: int, cart: Cart) returns (rebate: Option<Rebate>)
      modifies this, guard
      ensures owner.id in old(customerRebate) ==>
        rebate == old(customerRebate)[owner.id] && customerRebate == old(customerRebate)
      ensures owner.id !in old(customerRebate) ==>
        && rebate == (if old(guard.doNotCallThisAsShoppingCartPlugin) then None
                      else RebateSelection.CustomerRebateFor(rebates, owner, now, cart))
        && customerRebate == old(customerRebate)[owner.id := rebate]
      ensures guard.doNotCallThisAsShoppingCartPlugin == old(guard.doNotCallThisAsShoppingCartPlugin)
    {
      if owner.id !in customerRebate {
        rebate := None;
        if !guard.doNotCallThisAsShoppingCartPlugin {
          rebate := RebateSelection.SelectGreatestRebate(rebates, owner.groups, now, cart);
          rebate := CheckRebateConditions(rebate, cart);
        }
        customerRebate := customerRebate[owner.id := rebate];
      }
      rebate := customerRebate[owner.id];
    }

    /** `hasCustomerRebate`: whether `getCustomerRebate` answers a rebate. */
    method HasCustomerRebate(rebates: seq<Rebate>, now: int, cart: Cart) returns (has: bool)
      modifies this, guard
      ensures owner.id in customerRebate && (has <==> customerRebate[owner.id].Some?)
      ensures owner.id in old(customerRebate) ==> customerRebate == old(customerRebate)
      ensures owner.id !in old(customerRebate) ==>
        customerRebate == old(customerRebate)[owner.id := if old(guard.doNotCallThisAsShoppingCartPlugin) then None
                                                         else RebateSelection.CustomerRebateFor(rebates, owner, now, cart)]
      ensures guard.doNotCallThisAsShoppingCartPlugin == old(guard.doNotCallThisAsShoppingCartPlugin)
    {
      var rebate := GetCustomerRebate(rebates, now, cart);
      has := rebate.Some?;
    }
  }

  /** The member extension of the older generation: a single nullable cache field and an instance flag. */
  class SilvercartCustomerRebateCustomer {
    const owner: Member
    var customerRebate: Option<Rebate>
    var doNotCallThisAsShoppingCartPlugin: bool

    constructor (owner: Member)
      ensures this.owner == owner && customerRebate.None? && !doNotCallThisAsShoppingCartPlugin
    {
      this.owner := owner;
      customerRebate := None;
      doNotCallThisAsShoppingCartPlugin := false;
    }

    /** `checkRebateConditions`, raising and lowering the instance flag. */
    method CheckRebateConditions(rebate: Option<Rebate>, cart: Cart) returns (checked: Option<Rebate>)
      modifies this
      ensures checked == RebateSelection.CheckRebateConditions(rebate, cart, owner.subscribedToNewsletter)
      ensures doNotCallThisAsShoppingCartPlugin == (rebate.None? && old(doNotCallThisAsShoppingCartPlugin))
      ensures customerRebate == old(customerRebate)
    {
      checked := rebate;
      if rebate.Some? {
        var rule := rebate.value;
        doNotCallThisAsShoppingCartPlugin := true;
        if cart.amountTotalWithoutRebates < rule.minimumOrderValue {
          checked := None;
        } else if rule.restrictToNewsletterRecipients && !owner.subscribedToNewsletter {
          checked := None;
        } else if |rule.productGroups| > 0 {
          var positions := CollectRebatePositions(cart.entries, rule.productGroups);
          if |positions| == 0 {
            checked := None;
          }
        }
        doNotCallThisAsShoppingCartPlugin := false;
      }
    }

    /**
     * `getCustomerRebate`: a cached rebate is answered as it is; while
     * nothing is cached the selection runs again (None while the flag is
     * raised), so a None answer is never remembered.
     */
    method GetCustomerRebate(rebates: seq<Rebate>, now: int, cart: Cart) returns (rebate: Option<Rebate>)
      modifies this
      ensures old(customerRebate).Some? ==> rebate == old(customerRebate)
      ensures old(customerRebate).None? ==>
        rebate == (if old(doNotCallThisAsShoppingCartPlugin) then None
                   else RebateSelection.CustomerRebateFor(rebates, owner, now, cart))
      ensures customerRebate == rebate
      ensures doNotCallThisAsShoppingCartPlugin == old(doNotCallThisAsShoppingCartPlugin)
    {
      if customerRebate.None? {
        rebate := None;
        if !doNotCallThisAsShoppingCartPlugin {
          rebate := RebateSelection.SelectGreatestRebate(rebates, owner.groups, now, cart);
          rebate := CheckRebateConditions(rebate, cart);
        }
        customerRebate := rebate;
      }
      rebate := customerRebate;
    }

    /** `hasCustomerRebate`: whether `getCustomerRebate` answers a rebate. */
    method HasCustomerRebate(rebates: seq<Rebate>, now: int, cart: Cart) returns (has: bool)
      modifies this
      ensures has <==> customerRebate.Some?
      ensures old(customerRebate).Some? ==> customerRebate == old(customerRebate)
      ensures old(customerRebate).None? ==>
        customerRebate == (if old(doNotCallThisAsShoppingCartPlugin) then None
                           else RebateSelection.CustomerRebateFor(rebates, owner, now, cart))
      ensures doNotCallThisAsShoppingCartPlugin == old(doNotCallThisAsShoppingCartPlugin)
    {
      var rebate := GetCustomerRebate(rebates, now, cart);
      has := rebate.Some?;
    }
  }
}
