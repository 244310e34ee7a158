/**
 * Rebate selection for a customer: among the valid rebates of the
 * customer's groups the one worth strictly most for the cart wins (an
 * earlier group keeps its place on a tie), and the winner must then pass
 * the minimum-order, newsletter and product-group gates.
 */
module RebateSelection {
  import opened RebateTypes
  import opened Valuation
  import opened RebateValidity

  /** The valid rebate group `groups[j]` offers now. */
  function Candidate(rebates: seq<Rebate>, groups: seq<GroupId>, now: int, j: nat): Option<Rebate>
    requires j < |groups|
  {
    ValidCustomerRebate(rebates, groups[j], now)
  }

  /** Result of the best-so-far walk over the groups. */
  function BestRebate(rebates: seq<Rebate>, groups: seq<GroupId>, now: int, cart: Cart): Option<Rebate>
  {
    if groups == [] then None
    else
      var best := BestRebate(rebates, groups[..|groups| - 1], now, cart);
      var valid := ValidCustomerRebate(rebates, groups[|groups| - 1], now);
      if valid.Some? && (best.None? || RebateValueForCart(valid.value, cart) > RebateValueForCart(best.value, cart))
      then valid
      else best
  }

  /** The loop over the member's groups in `getCustomerRebate`. */
  method SelectGreatestRebate(rebates: seq<Rebate>, groups: seq<GroupId>, now: int, cart: Cart) returns (rebate: Option<Rebate>)
    ensures rebate == BestRebate(rebates, groups, now, cart)
  {
    rebate := None;
    var i := 0;
    while i < |groups|
      invariant 0 <= i <= |groups|
      invariant rebate == BestRebate(rebates, groups[..i], now, cart)
    {
      assert groups[..i + 1][..i] == groups[..i];
      var group := groups[i];
      if HasValidCustomerRebate(rebates, group, now) {
        var validRebate := ValidCustomerRebate(rebates, group, now);
        if rebate.None? || RebateValueForCart(validRebate.value, cart) > RebateValueForCart(rebate.value, cart) {
          rebate := validRebate;
        }
      }
      i := i + 1;
    }
    assert groups[..i] == groups;
  }

  /** A rebate is selected exactly when some group offers a valid one. */
  lemma {:induction false} BestRebateExists(rebates: seq<Rebate>, groups: seq<GroupId>, now: int, cart: Cart)
    ensures BestRebate(rebates, groups, now, cart).Some? <==>
      exists j :: 0 <= j < |groups| && Candidate(rebates, groups, now, j).Some?
  {
    if groups != [] {
      var n := |groups|;
      var front := groups[..n - 1];
      BestRebateExists(rebates, front, now, cart);
      forall j | 0 <= j < |front|
        ensures Candidate(rebates, front, now, j) == Candidate(rebates, groups, now, j)
      {
        assert front[j] == groups[j];
      }
      if Candidate(rebates, groups, now, n - 1).Some? {
        assert BestRebate(rebates, groups, now, cart).Some?;
      } else if exists j :: 0 <= j < |groups| && Candidate(rebates, groups, now, j).Some? {
        var j :| 0 <= j < |groups| && Candidate(rebates, groups, now, j).Some?;
        assert j < n - 1;
        assert Candidate(rebates, front, now, j).Some?;
      }
    }
  }

  /**
   * `best` is the candidate of group `k`, worth at least as much as every
   * candidate and strictly more than every candidate of an earlier group.
   */
  predicate FirstGreatestAt(rebates: seq<Rebate>, groups: seq<GroupId>, now: int, cart: Cart, best: Rebate, k: nat)
  {
    && k < |groups| && Candidate(rebates, groups, now, k) == Some(best)
    && (forall j :: 0 <= j < |groups| && Candidate(rebates, groups, now, j).Some? ==>
          RebateValueForCart(Candidate(rebates, groups, now, j).value, cart) <= RebateValueForCart(best, cart))
    && (forall j :: 0 <= j < k && Candidate(rebates, groups, now, j).Some? ==>
          RebateValueForCart(Candidate(rebates, groups, now, j).value, cart) < RebateValueForCart(best, cart))
  }

  /**
   * The selected rebate is offered by some group k, is worth at least as much
   * as every candidate, and strictly more than every candidate of an earlier group.
   */
  lemma {:induction false} BestRebateIsFirstGreatest(rebates: seq<Rebate>, groups: seq<GroupId>, now: int, cart: Cart)
    requires BestRebate(rebates, groups, now, cart).Some?
    ensures exists k: nat :: FirstGreatestAt(rebates, groups, now, cart, BestRebate(rebates, groups, now, cart).value, k)
  {
    var n := |groups|;
    var front := groups[..n - 1];
    var best := BestRebate(rebates, groups, now, cart).value;
    var prev := BestRebate(rebates, front, now, cart);
    var last := ValidCustomerRebate(rebates, groups[n - 1], now);
    CandidatesOfFront(rebates, groups, now);
    if prev.Some? && best == prev.value {
      BestRebateIsFirstGreatest(rebates, front, now, cart);
      var k: nat :| FirstGreatestAt(rebates, front, now, cart, best, k);
      KeepFirstGreatest(rebates, groups, now, cart, best, k);
    } else {
      assert last == Some(best);
      if prev.Some? {
        BestRebateIsFirstGreatest(rebates, front, now, cart);
        var k: nat :| FirstGreatestAt(rebates, front, now, cart, prev.value, k);
        LastFirstGreatest(rebates, groups, now, cart, prev.value, k);
      } else {
        BestRebateExists(rebates, front, now, cart);
        LastOnlyCandidate(rebates, groups, now, cart);
      }
    }
  }

  /** Dropping the last group leaves every other group's candidate as it is. */
  lemma CandidatesOfFront(rebates: seq<Rebate>, groups: seq<GroupId>, now: int)
    requires |groups| > 0
    ensures forall j :: 0 <= j < |groups| - 1 ==>
      Candidate(rebates, groups[..|groups| - 1], now, j) == Candidate(rebates, groups, now, j)
  {
  }

  /** The best of the front stays first-greatest when the last group's candidate is not worth more. */
  lemma KeepFirstGreatest(rebates: seq<Rebate>, groups: seq<GroupId>, now: int, cart: Cart, best: Rebate, k: nat)
    requires |groups| > 0
    requires FirstGreatestAt(rebates, groups[..|groups| - 1], now, cart, best, k)
    requires var last := Candidate(rebates, groups, now, |groups| - 1);
      last.Some? ==> RebateValueForCart(last.value, cart) <= RebateValueForCart(best, cart)
    ensures FirstGreatestAt(rebates, groups, now, cart, best, k)
  {
    CandidatesOfFront(rebates, groups, now);
  }

  /** A last candidate worth strictly more than the front's best is first-greatest. */
  lemma LastFirstGreatest(rebates: seq<Rebate>, groups: seq<GroupId>, now: int, cart: Cart, prev: Rebate, k: nat)
    requires |groups| > 0
    requires FirstGreatestAt(rebates, groups[..|groups| - 1], now, cart, prev, k)
    requires var last := Candidate(rebates, groups, now, |groups| - 1);
      last.Some? && RebateValueForCart(prev, cart) < RebateValueForCart(last.value, cart)
    ensures FirstGreatestAt(rebates, groups, now, cart, Candidate(rebates, groups, now, |groups| - 1).value, |groups| - 1)
  {
    CandidatesOfFront(rebates, groups, now);
  }

  /** When only the last group offers a rebate, it is first-greatest. */
  lemma LastOnlyCandidate(rebates: seq<Rebate>, groups: seq<GroupId>, now: int, cart: Cart)
    requires |groups| > 0
    requires forall j :: 0 <= j < |groups| - 1 ==> Candidate(rebates, groups, now, j).None?
    requires Candidate(rebates, groups, now, |groups| - 1).Some?
    ensures FirstGreatestAt(rebates, groups, now, cart, Candidate(rebates, groups, now, |groups| - 1).value, |groups| - 1)
  {
    CandidatesOfFront(rebates, groups, now);
  }

  /**
   * `checkRebateConditions`: a missing rebate stays missing; a rebate is
   * dropped when the cart total without rebates is below its minimum order
   * value, when it is for newsletter recipients and the member is not one,
   * or when it is restricted to product groups and no cart position matches.
   */
  function CheckRebateConditions(rebate: Option<Rebate>, cart: Cart, subscribedToNewsletter: bool): (r: Option<Rebate>)
    ensures r.Some? ==> r == rebate
  {
    match rebate
    case None => None
    case Some(rule) =>
      if cart.amountTotalWithoutRebates < rule.minimumOrderValue then None
      else if rule.restrictToNewsletterRecipients && !subscribedToNewsletter then None
      else if |rule.productGroups| > 0 && |MatchingPositions(cart.entries, rule.productGroups)| == 0 then None
      else rebate
  }

  /** Some cart entry is a product position the rule's product groups match. */
  predicate HasMatchingProduct(entries: seq<CartEntry>, related: set<ProductGroupId>)
  {
    exists i :: 0 <= i < |entries| && entries[i].ProductEntry? && Matches(entries[i].product, related)
  }

  /**
   * The gates in terms of the cart itself: a rebate passes exactly when the
   * total reaches the minimum order value (equality passes), the newsletter
   * restriction is met, and an unrestricted rule or some matching product
   * position is present.
   */
  lemma CheckRebateConditionsAccepts(rule: Rebate, cart: Cart, subscribedToNewsletter: bool)
    ensures CheckRebateConditions(Some(rule), cart, subscribedToNewsletter) == Some(rule) <==>
      && cart.amountTotalWithoutRebates >= rule.minimumOrderValue
      && (rule.restrictToNewsletterRecipients ==> subscribedToNewsletter)
      && (|rule.productGroups| > 0 ==> HasMatchingProduct(cart.entries, rule.productGroups))
  {
    var ps := MatchingPositions(cart.entries, rule.productGroups);
    if |ps| > 0 {
      MatchingPositionsSound(cart.entries, rule.productGroups, 0);
      assert cart.entries[ps[0].positionNum - 1].ProductEntry?;
    }
    if HasMatchingProduct(cart.entries, rule.productGroups) {
      var i :| 0 <= i < |cart.entries| && cart.entries[i].ProductEntry? && Matches(cart.entries[i].product, rule.productGroups);
      MatchingPositionsComplete(cart.entries, rule.productGroups, i);
    }
  }

  /** The rebate a member gets: the first-greatest candidate of their groups, if it passes the gates. */
  function CustomerRebateFor(rebates: seq<Rebate>, member: Member, now: int, cart: Cart): Option<Rebate>
  {
    CheckRebateConditions(BestRebate(rebates, member.groups, now, cart), cart, member.subscribedToNewsletter)
  }

  /**
   * A member's rebate belongs to one of their groups and is valid now, it is
   * the first-greatest candidate, and it passes the gates; a member none of
   * whose groups offers a valid rebate gets none.
   */
  lemma CustomerRebateForSound(rebates: seq<Rebate>, member: Member, now: int, cart: Cart)
    ensures var r := CustomerRebateFor(rebates, member, now, cart);
      && (r.Some? ==>
            && (exists k: nat :: FirstGreatestAt(rebates, member.groups, now, cart, r.value, k)
                  && ValidAt(r.value, member.groups[k], now))
            && cart.amountTotalWithoutRebates >= r.value.minimumOrderValue
            && (r.value.restrictToNewsletterRecipients ==> member.subscribedToNewsletter)
            && (|r.value.productGroups| > 0 ==> HasMatchingProduct(cart.entries, r.value.productGroups)))
      && ((forall j :: 0 <= j < |member.groups| ==> Candidate(rebates, member.groups, now, j).None?) ==> r.None?)
  {
    var best := BestRebate(rebates, member.groups, now, cart);
    BestRebateExists(rebates, member.groups, now, cart);
    var r := CustomerRebateFor(rebates, member, now, cart);
    if r.Some? {
      BestRebateIsFirstGreatest(rebates, member.groups, now, cart);
      var k: nat :| FirstGreatestAt(rebates, member.groups, now, cart, best.value, k);
      assert ValidAt(r.value, member.groups[k], now);
      CheckRebateConditionsAccepts(r.value, cart, member.subscribedToNewsletter);
    }
  }
}
