/** The stock classification and reorder recommendation of
    `handle_get_inventory`, and the summary counts it reports. */
module Inventory {
  import opened Wrappers
  import opened Numbers

  datatype Status = OutOfStock | LowStock | InStock

  /** Python truthiness of an optional stock level: absent and 0 are false. */
  predicate Set(level: Option<int>) {
    level.Some? && level.value != 0
  }

  /** `warning_stock and stock_qty <= warning_stock` */
  predicate AtOrBelowWarning(quantity: int, warning: Option<int>) {
    Set(warning) && quantity <= warning.value
  }

  /** One inventory record; an absent `quantityOnHand` reads as 0. */
  datatype Item = Item(productId: string, quantity: int, warning: Option<int>, ideal: Option<int>)

  function Classify(quantity: int, warning: Option<int>): (s: Status)
    ensures s == OutOfStock <==> quantity <= 0
    ensures s == LowStock <==> 0 < quantity && AtOrBelowWarning(quantity, warning)
    ensures s == InStock <==> 0 < quantity && !AtOrBelowWarning(quantity, warning)
  {
    if quantity <= 0 then OutOfStock
    else if AtOrBelowWarning(quantity, warning) then LowStock
    else InStock
  }

  /** Units to reorder: up to the ideal level when one is set, otherwise
      twice the warning level and at least 10. */
  function Reorder(quantity: int, warning: Option<int>, ideal: Option<int>): (r: Option<int>)
    ensures r.Some? <==> AtOrBelowWarning(quantity, warning)
    ensures r.Some? && Set(ideal) ==> quantity + r.value == ideal.value
    ensures r.Some? && !Set(ideal) ==>
      r.value >= 10 && r.value >= 2 * warning.value && (r.value == 10 || r.value == 2 * warning.value)
  {
    if !AtOrBelowWarning(quantity, warning) then None
    else if Set(ideal) then Some(ideal.value - quantity)
    else Some(Max(warning.value * 2, 10))
  }

  /** A low-stock item always gets a recommendation; an in-stock one never does.
      An out-of-stock item gets one exactly when it is at or below a set warning level. */
  lemma RecommendationFollowsStatus(quantity: int, warning: Option<int>, ideal: Option<int>)
    ensures Classify(quantity, warning) == LowStock ==> Reorder(quantity, warning, ideal).Some?
    ensures Classify(quantity, warning) == InStock ==> Reorder(quantity, warning, ideal).None?
    ensures Classify(quantity, warning) == OutOfStock ==>
      (Reorder(quantity, warning, ideal).Some? <==> AtOrBelowWarning(quantity, warning))
  {
  }

  /** Only a positive warning level can make a stocked item low. */
  lemma LowStockNeedsPositiveWarning(quantity: int, warning: Option<int>)
    requires Classify(quantity, warning) == LowStock
    ensures warning.Some? && warning.value >= quantity > 0
  {
  }

  /** With an ideal level below the stock on hand, the recommendation is not positive. */
  lemma IdealBelowStockGivesNonPositiveReorder(quantity: int, warning: Option<int>, ideal: Option<int>)
    requires AtOrBelowWarning(quantity, warning) && Set(ideal) && ideal.value <= quantity
    ensures Reorder(quantity, warning, ideal).Some? && Reorder(quantity, warning, ideal).value <= 0
  {
  }

  function StatusOf(item: Item): Status {
    Classify(item.quantity, item.warning)
  }

  /** How many items have status `s`. */
  function CountOf(items: seq<Item>, s: Status): (n: nat)
    ensures n <= |items|
    decreases |items|
  {
    if items == [] then 0
    else CountOf(items[..|items| - 1], s) + (if StatusOf(items[|items| - 1]) == s then 1 else 0)
  }

  /** Every item has exactly one status, so the three counts add up to the total. */
  lemma {:induction false} CountsPartition(items: seq<Item>)
    ensures CountOf(items, OutOfStock) + CountOf(items, LowStock) + CountOf(items, InStock) == |items|
    decreases |items|
  {
    if items != [] {
      CountsPartition(items[..|items| - 1]);
    }
  }

  datatype Summary = Summary(total: nat, outOfStock: nat, lowStock: nat, inStock: int)

  /** The counting done by the `for item in inventory_data` loop; the in-stock
      figure is derived as total - low - out. */
  method Tally(items: seq<Item>) returns (summary: Summary)
    ensures summary.total == |items|
    ensures summary.outOfStock == CountOf(items, OutOfStock)
    ensures summary.lowStock == CountOf(items, LowStock)
    ensures summary.inStock == CountOf(items, InStock)
  {
    var low: nat := 0;
    var out: nat := 0;
    for i := 0 to |items|
      invariant out == CountOf(items[..i], OutOfStock)
      invariant low == CountOf(items[..i], LowStock)
    {
      assert items[..i + 1][..i] == items[..i];
      var quantity := items[i].quantity;
      if quantity <= 0 {
        out := out + 1;
      } else if AtOrBelowWarning(quantity, items[i].warning) {
        low := low + 1;
      }
    }
    assert items[..|items|] == items;
    CountsPartition(items);
    summary := Summary(|items|, out, low, |items| - low - out);
  }
}
