/**
 * Clients of the cart manager that exercise its contracts on concrete
 * sequences of calls.
 */
module CartScenarios {
  import opened CartItems
  import opened UseCart

  /**
   * Starting from an empty cart with a stock of 3 for product 5, three
   * additions give one entry of product 5 with quantity 3, and a fourth is
   * refused as out of stock, leaving the cart as it was. Reloading from the
   * stored snapshot gives back the same cart.
   */
  method AddUntilOutOfStock(info: ProductInfo) returns (items: seq<Product>, last: Outcome, reloaded: seq<Product>)
    requires info.id == 5
    ensures items == [Product(5, info.name, info.price, info.imageUrl, 3)]
    ensures last == OutOfStock
    ensures reloaded == items
  {
    var provider := new CartProvider(None);
    var o1 := provider.AddProduct(5, Some(3), Some(info), true);
    assert provider.cart == [NewEntry(info)];
    var o2 := provider.AddProduct(5, Some(3), Some(info), true);
    var o3 := provider.AddProduct(5, Some(3), Some(info), true);
    assert o1 == o2 == o3 == Ok;
    last := provider.AddProduct(5, Some(3), Some(info), true);
    items := provider.cart;
    var restarted := new CartProvider(provider.persisted);
    reloaded := restarted.cart;
  }

  /**
   * Quantities outside (0, stock] and unknown products never change the
   * cart: updating to 0 or -1 is ignored silently, above the stock is out
   * of stock, and removing or updating an absent product fails.
   */
  method RejectedUpdates(info: ProductInfo) returns (outcomes: seq<Outcome>, items: seq<Product>)
    requires info.id == 7
    ensures outcomes == [Ignored, Ignored, OutOfStock, UpdateFailed, RemoveFailed, Ok]
    ensures items == [Product(7, info.name, info.price, info.imageUrl, 4)]
  {
    var provider := new CartProvider(Some([NewEntry(info)]));
    var a := provider.UpdateProductAmount(7, 0, Some(10), true);
    var b := provider.UpdateProductAmount(7, -1, Some(10), true);
    var c := provider.UpdateProductAmount(7, 11, Some(10), true);
    var d := provider.UpdateProductAmount(8, 4, Some(10), true);
    var e := provider.RemoveProduct(8, true);
    var f := provider.UpdateProductAmount(7, 4, Some(10), true);
    outcomes := [a, b, c, d, e, f];
    items := provider.cart;
  }

  /**
   * A storage failure after an accepted change is reported with the
   * operation's error, yet the in-memory cart has already changed and the
   * stored snapshot is now stale.
   */
  method StorageFailureLeavesSnapshotStale(info: ProductInfo) returns (outcome: Outcome, items: seq<Product>, stored: Option<seq<Product>>)
    requires info.id == 3
    ensures outcome == AddFailed
    ensures items == [NewEntry(info)]
    ensures stored == Some([])
  {
    var provider := new CartProvider(Some([]));
    outcome := provider.AddProduct(3, Some(1), Some(info), false);
    items := provider.cart;
    stored := provider.persisted;
  }
}
