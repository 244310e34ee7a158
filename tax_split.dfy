/**
 * Tax splitting of a rebate position: the tax amount of a discount line,
 * the per-rate buckets of the cart, their descending order, and the greedy
 * allocation of one negative discount across them.
 */
module TaxSplit {
  import opened RebateTypes

  /**
   * The tax included in (gross prices) or added to (net prices) a price at
   * the position's tax; 0 when the position has no tax.
   */
  function TaxAmount(tax: Option<TaxRate>, price: real, gross: bool): real
  {
    match tax
    case None => 0.0
    case Some(rate) =>
      if gross then price - (price / (100 + rate) as real * 100.0)
      else price * ((rate as real) / 100.0)
  }

  /** For gross prices the tax is the rate's share `rate / (100 + rate)` of the price. */
  lemma GrossTaxIsShareOfPrice(rate: TaxRate, price: real)
    ensures TaxAmount(Some(rate), price, true) == price * (rate as real) / ((100 + rate) as real)
  {
    var d := (100 + rate) as real;
    calc {
      TaxAmount(Some(rate), price, true);
      price - price / d * 100.0;
      (price * d - price * 100.0) / d;
      price * (rate as real) / d;
    }
  }

  /**
   * The tax of a discount (a non-positive price) is non-positive and, for
   * gross prices or rates up to 100 %, no larger in magnitude than the discount.
   */
  lemma TaxOfDiscountBounds(tax: Option<TaxRate>, price: real, gross: bool)
    requires price <= 0.0
    requires tax.Some? && !gross ==> tax.value <= 100
    ensures price <= TaxAmount(tax, price, gross) <= 0.0
  {
    if tax.Some? {
      if gross {
        GrossTaxOfDiscount(tax.value, price);
      } else {
        NetTaxOfDiscount(tax.value, price);
      }
    }
  }

  lemma GrossTaxOfDiscount(rate: TaxRate, price: real)
    requires price <= 0.0
    ensures price <= TaxAmount(Some(rate), price, true) <= 0.0
  {
    var r := rate as real;
    var d := (100 + rate) as real;
    GrossTaxIsShareOfPrice(rate, price);
    assert 0.0 <= r / d <= 1.0;
    assert price * r / d == price * (r / d);
    ScaleDiscount(price, r / d);
  }

  lemma NetTaxOfDiscount(rate: TaxRate, price: real)
    requires price <= 0.0 && rate <= 100
    ensures price <= TaxAmount(Some(rate), price, false) <= 0.0
  {
    var f := (rate as real) / 100.0;
    assert TaxAmount(Some(rate), price, false) == price * f;
    assert 0.0 <= f <= 1.0;
    ScaleDiscount(price, f);
  }

  /** Scaling a discount by a factor between 0 and 1 keeps it between the discount and 0. */
  lemma ScaleDiscount(price: real, f: real)
    requires price <= 0.0 && 0.0 <= f <= 1.0
    ensures price <= price * f <= 0.0
  {
    assert price * f - price == price * (f - 1.0);
    NonPositiveProduct(price, f);
    NonNegativeProduct(price, f - 1.0);
  }

  lemma NonPositiveProduct(a: real, b: real)
    requires a <= 0.0 && b >= 0.0
    ensures a * b <= 0.0
  {
  }

  lemma NonNegativeProduct(a: real, b: real)
    requires a <= 0.0 && b <= 0.0
    ensures a * b >= 0.0
  {
  }

  /** The `AmountRaw` of the first entry of the tax-rate list with the given rate; 0 when there is none. */
  function AmountRawOf(taxRates: seq<TaxRateEntry>, tax: Option<TaxRate>): (amount: real)
    ensures (forall k :: 0 <= k < |taxRates| ==> Some(taxRates[k].rate) != tax) ==> amount == 0.0
    ensures forall k :: 0 <= k < |taxRates| && Some(taxRates[k].rate) == tax
                 && (forall j :: 0 <= j < k ==> Some(taxRates[j].rate) != tax)
                 ==> amount == taxRates[k].amountRaw
  {
    if taxRates == [] then 0.0
    else if Some(taxRates[0].rate) == tax then taxRates[0].amountRaw
    else AmountRawOf(taxRates[1..], tax)
  }

  /** The cart's price total at one tax rate. */
  datatype Bucket = Bucket(rate: TaxRate, amount: real)

  /** `$amounts[$rate] += $price`, creating the key with 0 first when it is missing. */
  function AddAmount(buckets: seq<Bucket>, rate: TaxRate, price: real): seq<Bucket>
  {
    if buckets == [] then [Bucket(rate, price)]
    else if buckets[0].rate == rate then [Bucket(rate, buckets[0].amount + price)] + buckets[1..]
    else [buckets[0]] + AddAmount(buckets[1..], rate, price)
  }

  /** The per-rate dictionary built from the cart's product positions, keys in first-seen order. */
  function BucketsOf(entries: seq<CartEntry>): seq<Bucket>
  {
    if entries == [] then []
    else
      var front := BucketsOf(entries[..|entries| - 1]);
      var last := entries[|entries| - 1];
      if last.RebateEntry? then front else AddAmount(front, last.product.taxRate, last.price)
  }

  /** The bucket-building loop of `splitForTaxRates`. */
  method CollectTaxAmounts(entries: seq<CartEntry>) returns (amounts: seq<Bucket>)
    ensures amounts == BucketsOf(entries)
  {
    amounts := [];
    var i := 0;
    while i < |entries|
      invariant 0 <= i <= |entries|
      invariant amounts == BucketsOf(entries[..i])
    {
      assert entries[..i + 1][..i] == entries[..i];
      var entry := entries[i];
      i := i + 1;
      if entry.RebateEntry? {
        continue;
      }
      amounts := AddAmount(amounts, entry.product.taxRate, entry.price);
    }
    assert entries[..i] == entries;
  }

  /** The total of all buckets with the given rate. */
  function AmountAt(buckets: seq<Bucket>, rate: TaxRate): real
  {
    if buckets == [] then 0.0
    else (if buckets[0].rate == rate then buckets[0].amount else 0.0) + AmountAt(buckets[1..], rate)
  }

  /** The cart's prices of product positions at the given rate. */
  function RateTotal(entries: seq<CartEntry>, rate: TaxRate): real
  {
    if entries == [] then 0.0
    else
      var last := entries[|entries| - 1];
      RateTotal(entries[..|entries| - 1], rate)
      + (if last.ProductEntry? && last.product.taxRate == rate then last.price else 0.0)
  }

  /** The set of rates that have a bucket. */
  function RatesOf(buckets: seq<Bucket>): set<TaxRate>
  {
    if buckets == [] then {} else {buckets[0].rate} + RatesOf(buckets[1..])
  }

  /** No rate has two buckets. */
  predicate DistinctRates(buckets: seq<Bucket>)
  {
    buckets == [] || (buckets[0].rate !in RatesOf(buckets[1..]) && DistinctRates(buckets[1..]))
  }

  /** The tax rates of the cart's product positions. */
  function ProductRates(entries: seq<CartEntry>): set<TaxRate>
  {
    if entries == [] then {}
    else
      var last := entries[|entries| - 1];
      ProductRates(entries[..|entries| - 1]) + (if last.ProductEntry? then {last.product.taxRate} else {})
  }

  lemma {:induction false} AddAmountAt(buckets: seq<Bucket>, rate: TaxRate, price: real, q: TaxRate)
    ensures AmountAt(AddAmount(buckets, rate, price), q) == AmountAt(buckets, q) + (if q == rate then price else 0.0)
  {
    if buckets != [] && buckets[0].rate != rate {
      AddAmountAt(buckets[1..], rate, price, q);
      assert AddAmount(buckets, rate, price)[1..] == AddAmount(buckets[1..], rate, price);
    } else if buckets != [] {
      assert AddAmount(buckets, rate, price)[1..] == buckets[1..];
    }
  }

  lemma {:induction false} AddAmountRates(buckets: seq<Bucket>, rate: TaxRate, price: real)
    requires DistinctRates(buckets)
    ensures DistinctRates(AddAmount(buckets, rate, price))
    ensures RatesOf(AddAmount(buckets, rate, price)) == RatesOf(buckets) + {rate}
  {
    if buckets != [] && buckets[0].rate != rate {
      AddAmountRates(buckets[1..], rate, price);
      assert AddAmount(buckets, rate, price)[1..] == AddAmount(buckets[1..], rate, price);
    } else if buckets != [] {
      assert AddAmount(buckets, rate, price)[1..] == buckets[1..];
    }
  }

  /** Each bucket holds the cart's price total for its rate. */
  lemma {:induction false} BucketsOfTotals(entries: seq<CartEntry>, rate: TaxRate)
    ensures AmountAt(BucketsOf(entries), rate) == RateTotal(entries, rate)
  {
    if entries != [] {
      var front := entries[..|entries| - 1];
      var last := entries[|entries| - 1];
      BucketsOfTotals(front, rate);
      if last.ProductEntry? {
        AddAmountAt(BucketsOf(front), last.product.taxRate, last.price, rate);
      }
    }
  }

  /** There is one bucket per rate, and exactly the rates of the cart's product positions have one. */
  lemma {:induction false} BucketsOfRates(entries: seq<CartEntry>)
    ensures DistinctRates(BucketsOf(entries))
    ensures RatesOf(BucketsOf(entries)) == ProductRates(entries)
  {
    if entries != [] {
      var front := entries[..|entries| - 1];
      var last := entries[|entries| - 1];
      BucketsOfRates(front);
      if last.ProductEntry? {
        AddAmountRates(BucketsOf(front), last.product.taxRate, last.price);
      }
    }
  }

  /** With non-negative product prices every bucket is non-negative. */
  lemma {:induction false} BucketsOfNonNegative(entries: seq<CartEntry>)
    requires forall i :: 0 <= i < |entries| && entries[i].ProductEntry? ==> entries[i].price >= 0.0
    ensures forall k :: 0 <= k < |BucketsOf(entries)| ==> BucketsOf(entries)[k].amount >= 0.0
  {
    if entries != [] {
      var front := entries[..|entries| - 1];
      var last := entries[|entries| - 1];
      BucketsOfNonNegative(front);
      if last.ProductEntry? {
        AddAmountNonNegative(BucketsOf(front), last.product.taxRate, last.price);
      }
    }
  }

  lemma {:induction false} AddAmountNonNegative(buckets: seq<Bucket>, rate: TaxRate, price: real)
    requires price >= 0.0 && forall k :: 0 <= k < |buckets| ==> buckets[k].amount >= 0.0
    ensures forall k :: 0 <= k < |AddAmount(buckets, rate, price)| ==> AddAmount(buckets, rate, price)[k].amount >= 0.0
  {
    if buckets != [] && buckets[0].rate != rate {
      AddAmountNonNegative(buckets[1..], rate, price);
    }
  }

  /** `arsort`: buckets by amount, largest first; equal amounts keep their order. */
  function SortDescending(buckets: seq<Bucket>): seq<Bucket>
  {
    if buckets == [] then [] else InsertDescending(buckets[0], SortDescending(buckets[1..]))
  }

  function InsertDescending(b: Bucket, sorted: seq<Bucket>): seq<Bucket>
  {
    if sorted == [] || b.amount >= sorted[0].amount then [b] + sorted
    else [sorted[0]] + InsertDescending(b, sorted[1..])
  }

  /** Each bucket's amount is at least that of the next one. */
  predicate Descending(buckets: seq<Bucket>)
  {
    |buckets| <= 1 || (buckets[0].amount >= buckets[1].amount && Descending(buckets[1..]))
  }

  lemma {:induction false} InsertDescendingCorrect(b: Bucket, sorted: seq<Bucket>)
    requires Descending(sorted)
    ensures Descending(InsertDescending(b, sorted))
    ensures multiset(InsertDescending(b, sorted)) == multiset(sorted) + multiset{b}
    ensures |InsertDescending(b, sorted)| == |sorted| + 1
    ensures InsertDescending(b, sorted)[0] == b || InsertDescending(b, sorted)[0] == sorted[0]
  {
    if sorted != [] && b.amount < sorted[0].amount {
      var rest := InsertDescending(b, sorted[1..]);
      InsertDescendingCorrect(b, sorted[1..]);
      assert sorted == [sorted[0]] + sorted[1..];
      var r := [sorted[0]] + rest;
      assert r[1..] == rest;
    }
  }

  /** The sorted buckets are in descending order and are a permutation of the dictionary. */
  lemma {:induction false} SortDescendingCorrect(buckets: seq<Bucket>)
    ensures Descending(SortDescending(buckets))
    ensures multiset(SortDescending(buckets)) == multiset(buckets)
    ensures |SortDescending(buckets)| == |buckets|
  {
    if buckets != [] {
      SortDescendingCorrect(buckets[1..]);
      InsertDescendingCorrect(buckets[0], SortDescending(buckets[1..]));
      assert buckets == [buckets[0]] + buckets[1..];
    }
  }

  /** The buckets with the given amount, in their order. */
  function WithAmount(buckets: seq<Bucket>, amount: real): seq<Bucket>
  {
    if buckets == [] then []
    else (if buckets[0].amount == amount then [buckets[0]] else []) + WithAmount(buckets[1..], amount)
  }

  /** Inserting a bucket puts it before every bucket of equal amount already there. */
  lemma {:induction false} InsertDescendingStable(b: Bucket, sorted: seq<Bucket>, amount: real)
    ensures WithAmount(InsertDescending(b, sorted), amount)
      == (if b.amount == amount then [b] else []) + WithAmount(sorted, amount)
  {
    var r := InsertDescending(b, sorted);
    if sorted == [] || b.amount >= sorted[0].amount {
      assert r[0] == b && r[1..] == sorted;
    } else {
      InsertDescendingStable(b, sorted[1..], amount);
      assert r[0] == sorted[0] && r[1..] == InsertDescending(b, sorted[1..]);
    }
  }

  /**
   * Stability: for every amount, the buckets holding it come out of the sort
   * in the same order as they went in, so a tie drains the rate seen first.
   */
  lemma {:induction false} SortDescendingStable(buckets: seq<Bucket>, amount: real)
    ensures WithAmount(SortDescending(buckets), amount) == WithAmount(buckets, amount)
  {
    if buckets != [] {
      SortDescendingStable(buckets[1..], amount);
      InsertDescendingStable(buckets[0], SortDescending(buckets[1..]), amount);
    }
  }

  /** The discount pieces of a split and the discount left over after the last bucket. */
  datatype Allocation = Allocation(pieces: seq<RebateLine>, remaining: real)

  /**
   * The greedy allocation: walking the buckets in order, a bucket that the
   * remaining discount would drive negative is consumed whole and the rest
   * carries on; otherwise the bucket takes the whole remainder and the walk
   * stops. Nothing is allocated once the remainder is 0.
   */
  function Allocate(buckets: seq<Bucket>, rebatePrice: real): Allocation
  {
    if buckets == [] || rebatePrice == 0.0 then Allocation([], rebatePrice)
    else
      var b := buckets[0];
      if b.amount + rebatePrice < 0.0 then
        var rest := Allocate(buckets[1..], b.amount + rebatePrice);
        Allocation([Piece(true, b.rate, b.amount * -1.0)] + rest.pieces, rest.remaining)
      else
        Allocation([Piece(true, b.rate, rebatePrice)], 0.0)
  }

  /** The allocation loop of `splitForTaxRates`. */
  method AllocateGreedily(amounts: seq<Bucket>, priceTotal: real) returns (pieces: seq<RebateLine>, rebatePrice: real)
    ensures Allocation(pieces, rebatePrice) == Allocate(amounts, priceTotal)
  {
    pieces := [];
    rebatePrice := priceTotal;
    var i := 0;
    while i < |amounts|
      invariant 0 <= i <= |amounts|
      invariant pieces + Allocate(amounts[i..], rebatePrice).pieces == Allocate(amounts, priceTotal).pieces
      invariant Allocate(amounts[i..], rebatePrice).remaining == Allocate(amounts, priceTotal).remaining
    {
      if rebatePrice == 0.0 {
        break;
      }
      var rate := amounts[i].rate;
      var amount := amounts[i].amount;
      assert amounts[i..][1..] == amounts[i + 1..];
      var piece;
      if amount + rebatePrice < 0.0 {
        piece := amount * -1.0;
        rebatePrice := amount + rebatePrice;
      } else {
        piece := rebatePrice;
        rebatePrice := 0.0;
      }
      pieces := pieces + [Piece(true, rate, piece)];
      i := i + 1;
    }
  }

  /** The total price of the pieces among a list of discount lines. */
  function PiecesTotal(lines: seq<RebateLine>): real
  {
    if lines == [] then 0.0
    else (if lines[0].Piece? then lines[0].priceTotal else 0.0) + PiecesTotal(lines[1..])
  }

  /** Conservation: the pieces plus what is left over add up to the discount being split. */
  lemma {:induction false} AllocateConserves(buckets: seq<Bucket>, rebatePrice: real)
    ensures PiecesTotal(Allocate(buckets, rebatePrice).pieces) + Allocate(buckets, rebatePrice).remaining == rebatePrice
  {
    if buckets != [] && rebatePrice != 0.0 && buckets[0].amount + rebatePrice < 0.0 {
      var a := Allocate(buckets, rebatePrice);
      AllocateConserves(buckets[1..], buckets[0].amount + rebatePrice);
      assert a.pieces[1..] == Allocate(buckets[1..], buckets[0].amount + rebatePrice).pieces;
    }
  }

  /**
   * Piece k is a split position at the rate of bucket k, and there are no
   * more pieces than buckets.
   */
  lemma {:induction false} AllocatePieceRates(buckets: seq<Bucket>, rebatePrice: real)
    ensures |Allocate(buckets, rebatePrice).pieces| <= |buckets|
    ensures forall k :: 0 <= k < |Allocate(buckets, rebatePrice).pieces| ==>
      Allocate(buckets, rebatePrice).pieces[k].Piece?
      && Allocate(buckets, rebatePrice).pieces[k].isSplittedPosition
      && Allocate(buckets, rebatePrice).pieces[k].taxRate == buckets[k].rate
  {
    if buckets != [] && rebatePrice != 0.0 && buckets[0].amount + rebatePrice < 0.0 {
      var ps := Allocate(buckets, rebatePrice).pieces;
      var rest := Allocate(buckets[1..], buckets[0].amount + rebatePrice).pieces;
      AllocatePieceRates(buckets[1..], buckets[0].amount + rebatePrice);
      assert forall k :: 1 <= k < |ps| ==> ps[k] == rest[k - 1];
    }
  }

  /**
   * For a discount (non-positive) and non-negative buckets: no piece drives
   * its bucket below zero, every piece is itself a discount, a remainder
   * stays only when every bucket is used up, and then it is what the whole
   * cart could not absorb.
   */
  lemma {:induction false} AllocateWithinBuckets(buckets: seq<Bucket>, rebatePrice: real)
    requires rebatePrice <= 0.0
    requires forall k :: 0 <= k < |buckets| ==> buckets[k].amount >= 0.0
    ensures forall k :: 0 <= k < |Allocate(buckets, rebatePrice).pieces| ==>
      k < |buckets| && Allocate(buckets, rebatePrice).pieces[k].Piece?
      && buckets[k].amount + Allocate(buckets, rebatePrice).pieces[k].priceTotal >= 0.0
      && Allocate(buckets, rebatePrice).pieces[k].priceTotal <= 0.0
    ensures Allocate(buckets, rebatePrice).remaining <= 0.0
    ensures Allocate(buckets, rebatePrice).remaining < 0.0 ==>
      |Allocate(buckets, rebatePrice).pieces| == |buckets|
      && Allocate(buckets, rebatePrice).remaining == rebatePrice + BucketsTotal(buckets)
  {
    if buckets != [] && rebatePrice != 0.0 && buckets[0].amount + rebatePrice < 0.0 {
      var next := buckets[0].amount + rebatePrice;
      var ps := Allocate(buckets, rebatePrice).pieces;
      var rest := Allocate(buckets[1..], next).pieces;
      AllocateWithinBuckets(buckets[1..], next);
      assert forall k :: 1 <= k < |ps| ==> ps[k] == rest[k - 1];
    }
  }

  function BucketsTotal(buckets: seq<Bucket>): real
  {
    if buckets == [] then 0.0 else buckets[0].amount + BucketsTotal(buckets[1..])
  }

  /** Non-negative buckets have a non-negative total. */
  lemma {:induction false} BucketsTotalNonNegative(buckets: seq<Bucket>)
    requires forall k :: 0 <= k < |buckets| ==> buckets[k].amount >= 0.0
    ensures BucketsTotal(buckets) >= 0.0
  {
    if buckets != [] {
      BucketsTotalNonNegative(buckets[1..]);
    }
  }

  /**
   * For a discount over non-negative buckets the remainder is 0 exactly when
   * the buckets together can absorb the discount, and otherwise the part of
   * the discount that exceeds them all.
   */
  lemma {:induction false} AllocateRemainder(buckets: seq<Bucket>, rebatePrice: real)
    requires rebatePrice <= 0.0
    requires forall k :: 0 <= k < |buckets| ==> buckets[k].amount >= 0.0
    ensures Allocate(buckets, rebatePrice).remaining ==
      if rebatePrice + BucketsTotal(buckets) >= 0.0 then 0.0 else rebatePrice + BucketsTotal(buckets)
  {
    if buckets != [] {
      BucketsTotalNonNegative(buckets[1..]);
      if rebatePrice != 0.0 && buckets[0].amount + rebatePrice < 0.0 {
        AllocateRemainder(buckets[1..], buckets[0].amount + rebatePrice);
      }
    }
  }

  /**
   * What `splitForTaxRates` yields on its first call, for a position at tax
   * `ownTax` whose price total is `priceTotal`: the position alone when the
   * cart has one tax rate or its own rate's tax amount stays non-negative;
   * nothing when there is no customer rebate; otherwise the greedy pieces
   * over the cart's per-rate buckets in descending order.
   */
  function SplitLines(taxRates: seq<TaxRateEntry>, ownTax: Option<TaxRate>, gross: bool, priceTotal: real,
                      hasCustomerRebate: bool, entries: seq<CartEntry>): seq<RebateLine>
  {
    if |taxRates| == 1 then [Original]
    else if AmountRawOf(taxRates, ownTax) + TaxAmount(ownTax, priceTotal, gross) >= 0.0 then [Original]
    else if !hasCustomerRebate then []
    else Allocate(SortDescending(BucketsOf(entries)), priceTotal).pieces
  }

  /**
   * Whenever the position is split, the pieces are split positions at rates
   * of the cart's product positions, no piece exceeds its bucket, and the
   * pieces account for the whole discount unless the entire cart is smaller.
   */
  lemma SplitLinesProperties(taxRates: seq<TaxRateEntry>, ownTax: Option<TaxRate>, gross: bool, priceTotal: real,
                             entries: seq<CartEntry>)
    requires priceTotal <= 0.0
    requires forall i :: 0 <= i < |entries| && entries[i].ProductEntry? ==> entries[i].price >= 0.0
    requires |taxRates| != 1 && AmountRawOf(taxRates, ownTax) + TaxAmount(ownTax, priceTotal, gross) < 0.0
    ensures var lines := SplitLines(taxRates, ownTax, gross, priceTotal, true, entries);
      var buckets := SortDescending(BucketsOf(entries));
      && |lines| <= |buckets|
      && (forall k :: 0 <= k < |lines| ==>
            lines[k].Piece? && lines[k].isSplittedPosition && lines[k].taxRate == buckets[k].rate
            && buckets[k].amount + lines[k].priceTotal >= 0.0)
      && PiecesTotal(lines) == if priceTotal + BucketsTotal(buckets) >= 0.0 then priceTotal else -BucketsTotal(buckets)
  {
    var buckets := SortDescending(BucketsOf(entries));
    SortDescendingCorrect(BucketsOf(entries));
    BucketsOfNonNegative(entries);
    forall k | 0 <= k < |buckets|
      ensures buckets[k].amount >= 0.0
    {
      assert buckets[k] in multiset(BucketsOf(entries));
    }
    AllocatePieceRates(buckets, priceTotal);
    AllocateWithinBuckets(buckets, priceTotal);
    AllocateConserves(buckets, priceTotal);
    AllocateRemainder(buckets, priceTotal);
  }
}
