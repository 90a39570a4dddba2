/**
 * The cart manager: the in-memory cart, the snapshot kept in local storage
 * under '@RocketShoes:cart', and the three operations that change them.
 *
 * The collaborators are inputs of each operation: the stock the inventory
 * service reports (`None` when the request fails), the product metadata it
 * returns (`None` when that request fails) and whether writing the snapshot
 * to storage succeeds. Notifications are returned as an `Outcome`.
 */
module UseCart {
  import opened CartItems

  class CartProvider {
    /** The cart state the UI renders. */
    var cart: seq<Product>
    /** The stored snapshot; `None` while nothing has been stored. */
    var persisted: Option<seq<Product>>

    /** The snapshot and the cart agree. */
    predicate InSync()
      reads this
    {
      persisted == Some(cart)
    }

    /** Start from the stored cart when there is one, otherwise from the empty cart. */
    constructor (stored: Option<seq<Product>>)
      ensures stored.Some? ==> cart == stored.value && InSync()
      ensures stored.None? ==> cart == [] && persisted == None
    {
      persisted := stored;
      if stored.Some? {
        cart := stored.value;
      } else {
        cart := [];
      }
    }

    /** `setCart(updated)` followed by the storage write, which may fail after the cart has changed. */
    method Commit(updated: seq<Product>, storageOk: bool, failure: Outcome) returns (outcome: Outcome)
      modifies this
      ensures cart == updated
      ensures storageOk ==> outcome == Ok && persisted == Some(updated)
      ensures !storageOk ==> outcome == failure && persisted == old(persisted)
    {
      cart := updated;
      if storageOk {
        persisted := Some(updated);
        outcome := Ok;
      } else {
        outcome := failure;
      }
    }

    /**
     * Add one unit of a product: increment its entry when it is in the
     * cart, otherwise append a new entry with quantity 1, provided the
     * stock covers the new quantity.
     */
    method AddProduct(productId: int, stock: Option<int>, info: Option<ProductInfo>, storageOk: bool)
      returns (outcome: Outcome)
      modifies this
      // the stock request failed
      ensures stock.None? ==>
        outcome == AddFailed && cart == old(cart) && persisted == old(persisted)
      // the new quantity would exceed the stock
      ensures stock.Some? && CurrentAmount(old(cart), productId) + 1 > stock.value ==>
        outcome == OutOfStock && cart == old(cart) && persisted == old(persisted)
      // the product is in the cart: its entry goes up by one, in place
      ensures stock.Some? && CurrentAmount(old(cart), productId) + 1 <= stock.value &&
              FindIndex(old(cart), productId) >= 0 ==>
        var k := FindIndex(old(cart), productId);
        cart == SetAmount(old(cart), k, old(cart)[k].amount + 1) &&
        outcome == (if storageOk then Ok else AddFailed)
      // the product is not in the cart and its metadata could not be fetched
      ensures stock.Some? && 1 <= stock.value && FindIndex(old(cart), productId) < 0 && info.None? ==>
        outcome == AddFailed && cart == old(cart) && persisted == old(persisted)
      // the product is not in the cart: a new entry with quantity 1 goes at the end
      ensures stock.Some? && 1 <= stock.value && FindIndex(old(cart), productId) < 0 && info.Some? ==>
        cart == old(cart) + [NewEntry(info.value)] &&
        outcome == (if storageOk then Ok else AddFailed)
      // the snapshot follows the cart exactly when the outcome is Ok
      ensures outcome == Ok ==> persisted == Some(cart)
      ensures outcome != Ok ==> persisted == old(persisted)
      ensures outcome != Ok && storageOk ==> cart == old(cart)
      ensures outcome == Ok || outcome == AddFailed || outcome == OutOfStock
      // the cart invariant and the stock ceiling, when the metadata is the requested product's
      ensures WellFormed(old(cart)) &&
              (FindIndex(old(cart), productId) < 0 && info.Some? ==> info.value.id == productId) ==>
        WellFormed(cart)
      ensures stock.Some? && CurrentAmount(old(cart), productId) + 1 <= stock.value &&
              (FindIndex(old(cart), productId) >= 0 || (info.Some? && info.value.id == productId)) ==>
        CurrentAmount(cart, productId) == CurrentAmount(old(cart), productId) + 1
    {
      var updated := cart;
      var index := FindIndex(updated, productId);
      if stock.None? {
        return AddFailed;
      }
      var stockAmount := stock.value;
      var currentAmount := if index >= 0 then updated[index].amount else 0;
      var amount := currentAmount + 1;
      if amount > stockAmount {
        return OutOfStock;
      }
      if index >= 0 {
        updated := updated[index := updated[index].(amount := amount)];
        SetAmountFindsSame(cart, index, amount, productId);
        if WellFormed(cart) {
          SetAmountKeepsWellFormed(cart, index, amount);
        }
      } else {
        if info.None? {
          return AddFailed;
        }
        FindIndexAppend(updated, NewEntry(info.value), productId);
        if WellFormed(cart) && info.value.id == productId {
          AppendKeepsWellFormed(cart, info.value);
        }
        updated := updated + [NewEntry(info.value)];
      }
      outcome := Commit(updated, storageOk, AddFailed);
    }

    /** Remove a product's entry; an absent product is reported as a failure. */
    method RemoveProduct(productId: int, storageOk: bool) returns (outcome: Outcome)
      modifies this
      // the product is not in the cart
      ensures FindIndex(old(cart), productId) < 0 ==>
        outcome == RemoveFailed && cart == old(cart) && persisted == old(persisted)
      // the product is in the cart: exactly its first entry is spliced out
      ensures FindIndex(old(cart), productId) >= 0 ==>
        cart == RemoveAt(old(cart), FindIndex(old(cart), productId)) &&
        |cart| == |old(cart)| - 1 &&
        outcome == (if storageOk then Ok else RemoveFailed)
      ensures outcome == Ok ==> persisted == Some(cart)
      ensures outcome != Ok ==> persisted == old(persisted)
      ensures outcome != Ok && storageOk ==> cart == old(cart)
      ensures outcome == Ok || outcome == RemoveFailed
      ensures WellFormed(old(cart)) ==> WellFormed(cart)
      ensures WellFormed(old(cart)) && cart != old(cart) ==> FindIndex(cart, productId) < 0
    {
      var updated := cart;
      var index := FindIndex(updated, productId);
      if index >= 0 {
        RemoveAtShape(updated, index);
        if WellFormed(updated) {
          RemoveAtKeepsWellFormed(updated, index);
        }
        updated := updated[..index] + updated[index + 1..];
        outcome := Commit(updated, storageOk, RemoveFailed);
      } else {
        outcome := RemoveFailed;
      }
    }

    /**
     * Overwrite a product's quantity. A non-positive amount is ignored
     * silently; an amount above the stock is refused; an absent product is
     * reported as a failure.
     */
    method UpdateProductAmount(productId: int, amount: int, stock: Option<int>, storageOk: bool)
      returns (outcome: Outcome)
      modifies this
      // a non-positive amount: nothing happens, nothing is reported
      ensures amount <= 0 ==>
        outcome == Ignored && cart == old(cart) && persisted == old(persisted)
      // the stock request failed
      ensures amount > 0 && stock.None? ==>
        outcome == UpdateFailed && cart == old(cart) && persisted == old(persisted)
      // the amount exceeds the stock, whether or not the product is in the cart
      ensures amount > 0 && stock.Some? && amount > stock.value ==>
        outcome == OutOfStock && cart == old(cart) && persisted == old(persisted)
      // the product is not in the cart
      ensures amount > 0 && stock.Some? && amount <= stock.value &&
              FindIndex(old(cart), productId) < 0 ==>
        outcome == UpdateFailed && cart == old(cart) && persisted == old(persisted)
      // the product is in the cart: its quantity becomes exactly `amount`
      ensures amount > 0 && stock.Some? && amount <= stock.value &&
              FindIndex(old(cart), productId) >= 0 ==>
        cart == SetAmount(old(cart), FindIndex(old(cart), productId), amount) &&
        outcome == (if storageOk then Ok else UpdateFailed)
      ensures outcome == Ok ==> persisted == Some(cart)
      ensures outcome != Ok ==> persisted == old(persisted)
      ensures outcome != Ok && storageOk ==> cart == old(cart)
      ensures outcome in {Ok, Ignored, OutOfStock, UpdateFailed}
      ensures WellFormed(old(cart)) ==> WellFormed(cart)
      ensures amount > 0 && stock.Some? && amount <= stock.value &&
              FindIndex(old(cart), productId) >= 0 ==>
        CurrentAmount(cart, productId) == amount
    {
      if amount <= 0 {
        return Ignored;
      }
      if stock.None? {
        return UpdateFailed;
      }
      var stockAmount := stock.value;
      if amount > stockAmount {
        return OutOfStock;
      }
      var updated := cart;
      var index := FindIndex(updated, productId);
      if index >= 0 {
        SetAmountFindsSame(updated, index, amount, productId);
        if WellFormed(updated) {
          SetAmountKeepsWellFormed(updated, index, amount);
        }
        updated := updated[index := updated[index].(amount := amount)];
        outcome := Commit(updated, storageOk, UpdateFailed);
      } else {
        outcome := UpdateFailed;
      }
    }
  }
}
