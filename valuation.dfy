/**
 * Rebate valuation: which cart positions a rebate rule applies to, and the
 * discount magnitude it grants, for an unrestricted rule (whole cart) and
 * for a rule restricted to product groups.
 */
module Valuation {
  import opened RebateTypes

  /** A cart position selected for a rebate, with its 1-based number in the whole cart. */
  datatype RebatePosition = RebatePosition(positionNum: nat, price: real, product: Product)

  /**
   * A product matches a rule restricted to `related` when its own product
   * group, or at least one of its mirror groups, is one of the related groups.
   */
  predicate Matches(product: Product, related: set<ProductGroupId>)
  {
    product.productGroupId in related
    || exists i :: 0 <= i < |product.mirrorGroupIds| && product.mirrorGroupIds[i] in related
  }

  /** The matching check: direct group first, then a search over the mirror groups that stops at the first hit. */
  method MatchPosition(product: Product, related: set<ProductGroupId>) returns (matching: bool)
    ensures matching == Matches(product, related)
  {
    matching := false;
    if product.productGroupId in related {
      matching := true;
    } else if |product.mirrorGroupIds| > 0 {
      var mirrors := product.mirrorGroupIds;
      var i := 0;
      while i < |mirrors|
        invariant 0 <= i <= |mirrors|
        invariant !matching
        invariant forall j :: 0 <= j < i ==> mirrors[j] !in related
      {
        if mirrors[i] in related {
          matching := true;
          break;
        }
        i := i + 1;
      }
    }
  }

  /**
   * The positions of `entries` a rule restricted to `related` applies to, in
   * cart order; a position's number is its 1-based index in the whole cart,
   * so discount entries are skipped but still counted.
   */
  function MatchingPositions(entries: seq<CartEntry>, related: set<ProductGroupId>): seq<RebatePosition>
  {
    if entries == [] then []
    else
      var n := |entries|;
      var last := entries[n - 1];
      MatchingPositions(entries[..n - 1], related)
      + (if last.ProductEntry? && Matches(last.product, related)
         then [RebatePosition(n, last.price, last.product)] else [])
  }

  /** The numbering loop of `getRebatePositions`. */
  method CollectRebatePositions(entries: seq<CartEntry>, related: set<ProductGroupId>) returns (positions: seq<RebatePosition>)
    ensures positions == MatchingPositions(entries, related)
  {
    positions := [];
    var positionNum := 1;
    var i := 0;
    while i < |entries|
      invariant 0 <= i <= |entries|
      invariant positionNum == i + 1
      invariant positions == MatchingPositions(entries[..i], related)
    {
      assert entries[..i + 1][..i] == entries[..i];
      var entry := entries[i];
      if entry.RebateEntry? {
        positionNum := positionNum + 1;
        i := i + 1;
        continue;
      }
      var matching := MatchPosition(entry.product, related);
      if matching {
        positions := positions + [RebatePosition(positionNum, entry.price, entry.product)];
      }
      positionNum := positionNum + 1;
      i := i + 1;
    }
    assert entries[..i] == entries;
  }

  /** Every selected position is a matching product entry of the cart, found at its own number. */
  lemma {:induction false} MatchingPositionsSound(entries: seq<CartEntry>, related: set<ProductGroupId>, k: nat)
    requires k < |MatchingPositions(entries, related)|
    ensures var p := MatchingPositions(entries, related)[k];
      1 <= p.positionNum <= |entries|
      && entries[p.positionNum - 1] == ProductEntry(p.price, p.product)
      && Matches(p.product, related)
  {
    var n := |entries|;
    var front := MatchingPositions(entries[..n - 1], related);
    if k < |front| {
      MatchingPositionsSound(entries[..n - 1], related, k);
    }
  }

  /** Every matching product entry of the cart is selected, under its 1-based index. */
  lemma {:induction false} MatchingPositionsComplete(entries: seq<CartEntry>, related: set<ProductGroupId>, i: nat)
    requires i < |entries| && entries[i].ProductEntry? && Matches(entries[i].product, related)
    ensures RebatePosition(i + 1, entries[i].price, entries[i].product) in MatchingPositions(entries, related)
  {
    var n := |entries|;
    if i < n - 1 {
      assert entries[..n - 1][i] == entries[i];
      MatchingPositionsComplete(entries[..n - 1], related, i);
    }
  }

  /** Selected positions keep cart order: their numbers strictly increase and never exceed the cart length. */
  lemma {:induction false} MatchingPositionsOrdered(entries: seq<CartEntry>, related: set<ProductGroupId>)
    ensures forall k :: 0 <= k < |MatchingPositions(entries, related)| ==>
      1 <= MatchingPositions(entries, related)[k].positionNum <= |entries|
    ensures forall j, k :: 0 <= j < k < |MatchingPositions(entries, related)| ==>
      MatchingPositions(entries, related)[j].positionNum < MatchingPositions(entries, related)[k].positionNum
  {
    if entries != [] {
      var n := |entries|;
      var last := entries[n - 1];
      MatchingPositionsOrdered(entries[..n - 1], related);
      var front := MatchingPositions(entries[..n - 1], related);
      var tail := if last.ProductEntry? && Matches(last.product, related)
        then [RebatePosition(n, last.price, last.product)] else [];
      var ps := MatchingPositions(entries, related);
      assert ps == front + tail;
      assert forall k :: 0 <= k < |front| ==> ps[k] == front[k] && 1 <= ps[k].positionNum <= n - 1;
      assert forall k :: |front| <= k < |ps| ==> ps[k].positionNum == n;
    }
  }

  /** The sum of the prices of the selected positions (the discount base of a restricted rule). */
  function PositionsTotal(positions: seq<RebatePosition>): real
  {
    if positions == [] then 0.0
    else PositionsTotal(positions[..|positions| - 1]) + positions[|positions| - 1].price
  }

  /** The percent rule's raw value for positions, added up position by position. */
  function PercentOfPositions(positions: seq<RebatePosition>, value: real): real
  {
    if positions == [] then 0.0
    else PercentOfPositions(positions[..|positions| - 1], value) + (positions[|positions| - 1].price / 100.0) * value
  }

  /** The cap both rules apply: the rebate never exceeds its base. */
  function Capped(raw: real, base: real): real
  {
    if base < raw then base else raw
  }

  /** Value of a rule without product groups, for the cart total without fees. */
  function UnrestrictedValue(kind: RebateType, value: real, total: real): real
  {
    Capped(if kind == Absolute then value else (total / 100.0) * value, total)
  }

  /** Value of a rule restricted to product groups, for its selected positions. */
  function RestrictedValue(kind: RebateType, value: real, positions: seq<RebatePosition>): real
  {
    Capped(if kind == Absolute then value else PercentOfPositions(positions, value), PositionsTotal(positions))
  }

  /** What a rebate with a clear re-entrancy flag answers for a present cart. */
  function RebateValueForCart(rule: Rebate, cart: Cart): real
  {
    if |rule.productGroups| == 0 then UnrestrictedValue(rule.kind, rule.value, cart.amountTotalWithoutFees)
    else RestrictedValue(rule.kind, rule.value, MatchingPositions(cart.entries, rule.productGroups))
  }

  /** The accumulation loop of `getRebateValueForShoppingCartPositions`. */
  method AccumulateRebateValue(kind: RebateType, value: real, positions: seq<RebatePosition>) returns (result: real)
    ensures result == RestrictedValue(kind, value, positions)
  {
    result := 0.0;
    var totalAmount := 0.0;
    if kind == Absolute {
      result := value;
    }
    var i := 0;
    while i < |positions|
      invariant 0 <= i <= |positions|
      invariant totalAmount == PositionsTotal(positions[..i])
      invariant result == if kind == Absolute then value else PercentOfPositions(positions[..i], value)
    {
      assert positions[..i + 1][..i] == positions[..i];
      totalAmount := totalAmount + positions[i].price;
      if kind == Percent {
        result := result + (positions[i].price / 100.0) * value;
      }
      i := i + 1;
    }
    assert positions[..i] == positions;
    if totalAmount < result {
      result := totalAmount;
    }
  }

  /** Adding the percentage position by position is the percentage of the positions' total. */
  lemma {:induction false} PercentOfPositionsScales(positions: seq<RebatePosition>, value: real)
    ensures PercentOfPositions(positions, value) == (PositionsTotal(positions) / 100.0) * value
  {
    if positions != [] {
      var front := positions[..|positions| - 1];
      var p := positions[|positions| - 1].price;
      PercentOfPositionsScales(front, value);
      calc {
        PercentOfPositions(positions, value);
        (PositionsTotal(front) / 100.0) * value + (p / 100.0) * value;
        ((PositionsTotal(front) + p) / 100.0) * value;
      }
    }
  }

  /** So a restricted percent rule is the unrestricted formula applied to the matching positions' total. */
  lemma RestrictedPercentIsPercentOfBase(value: real, positions: seq<RebatePosition>)
    ensures RestrictedValue(Percent, value, positions) == UnrestrictedValue(Percent, value, PositionsTotal(positions))
  {
    PercentOfPositionsScales(positions, value);
  }

  /**
   * With a non-negative rule value and base, the rebate lies between 0 and
   * the base; an absolute value within the base, and a percentage of at
   * most 100, is granted in full.
   */
  lemma UnrestrictedValueBounds(kind: RebateType, value: real, total: real)
    requires value >= 0.0 && total >= 0.0
    ensures 0.0 <= UnrestrictedValue(kind, value, total) <= total
    ensures kind == Absolute && value <= total ==> UnrestrictedValue(kind, value, total) == value
    ensures kind == Percent && value <= 100.0 ==> UnrestrictedValue(kind, value, total) == total * value / 100.0
  {
    if kind == Percent {
      assert (total / 100.0) * value >= 0.0;
      if value <= 100.0 {
        assert (total / 100.0) * value <= (total / 100.0) * 100.0;
      }
    }
  }

  /** The same bounds for a restricted rule, with the matching positions' total as base. */
  lemma {:induction false} RestrictedValueBounds(kind: RebateType, value: real, positions: seq<RebatePosition>)
    requires value >= 0.0
    requires forall k :: 0 <= k < |positions| ==> positions[k].price >= 0.0
    ensures 0.0 <= RestrictedValue(kind, value, positions) <= PositionsTotal(positions)
  {
    PositionsTotalNonNegative(positions);
    RestrictedPercentIsPercentOfBase(value, positions);
    UnrestrictedValueBounds(kind, value, PositionsTotal(positions));
  }

  lemma {:induction false} PositionsTotalNonNegative(positions: seq<RebatePosition>)
    requires forall k :: 0 <= k < |positions| ==> positions[k].price >= 0.0
    ensures PositionsTotal(positions) >= 0.0
  {
    if positions != [] {
      PositionsTotalNonNegative(positions[..|positions| - 1]);
    }
  }
}
