/**
 * Values of the shopping cart: the products it holds, the outcomes an
 * operation reports, and the sequence edits the cart manager performs
 * (look up by id, overwrite an amount, splice an entry out, append an entry).
 */
module CartItems {

  datatype Option<T> = None | Some(value: T)

  /** Product metadata as the product query returns it. */
  datatype ProductInfo = ProductInfo(id: int, name: string, price: real, imageUrl: string)

  /** One cart entry: the product's metadata plus the quantity in the cart. */
  datatype Product = Product(id: int, name: string, price: real, imageUrl: string, amount: int)

  /**
   * What an operation reports. Every non-`Ok` value except `Ignored`
   * stands for one of the error notifications the cart shows.
   */
  datatype Outcome =
    | Ok
    | OutOfStock    // "Quantidade solicitada fora de estoque"
    | AddFailed     // "Erro na adição do produto"
    | RemoveFailed  // "Erro na remoção do produto"
    | UpdateFailed  // "Erro na alteração de quantidade do produto"
    | Ignored       // a non-positive amount: no change, no notification

  /** `{ ...info, amount: 1 }`: a fresh entry built from fetched metadata. */
  function NewEntry(info: ProductInfo): Product {
    Product(info.id, info.name, info.price, info.imageUrl, 1)
  }

  /** At most one entry per product id. */
  ghost predicate UniqueIds(s: seq<Product>) {
    forall i, j :: 0 <= i < j < |s| ==> s[i].id != s[j].id
  }

  /** No entry is kept with a zero or negative quantity. */
  ghost predicate PositiveAmounts(s: seq<Product>) {
    forall i :: 0 <= i < |s| ==> s[i].amount >= 1
  }

  /** The cart invariant the three operations keep. */
  ghost predicate WellFormed(s: seq<Product>) {
    UniqueIds(s) && PositiveAmounts(s)
  }

  /**
   * `findIndex(product => product.id === id)`: the position of the first
   * entry with this id, or -1 when there is none.
   */
  function FindIndex(s: seq<Product>, id: int): (r: int)
    ensures -1 <= r < |s|
    ensures r < 0 ==> forall j :: 0 <= j < |s| ==> s[j].id != id
    ensures r >= 0 ==> s[r].id == id && forall j :: 0 <= j < r ==> s[j].id != id
  {
    if |s| == 0 then -1
    else if s[0].id == id then 0
    else
      var k := FindIndex(s[1..], id);
      if k < 0 then -1 else k + 1
  }

  /**
   * The quantity of a product currently in the cart, 0 when it is absent
   * (`alreadyExists ? alreadyExists.amount : 0`).
   */
  function CurrentAmount(s: seq<Product>, id: int): int {
    var k := FindIndex(s, id);
    if k < 0 then 0 else s[k].amount
  }

  /** The cart with the quantity of entry `k` overwritten by `a`. */
  function SetAmount(s: seq<Product>, k: int, a: int): seq<Product>
    requires 0 <= k < |s|
  {
    s[k := s[k].(amount := a)]
  }

  /** `splice(k, 1)`: the cart without entry `k`. */
  function RemoveAt(s: seq<Product>, k: int): seq<Product>
    requires 0 <= k < |s|
  {
    s[..k] + s[k + 1..]
  }

  /** Two carts with the same ids at the same positions answer every lookup alike. */
  lemma FindIndexSameIds(s: seq<Product>, t: seq<Product>, id: int)
    requires |s| == |t|
    requires forall j :: 0 <= j < |s| ==> s[j].id == t[j].id
    ensures FindIndex(s, id) == FindIndex(t, id)
  {
  }

  /** Looking up in a cart with one entry appended. */
  lemma FindIndexAppend(s: seq<Product>, p: Product, id: int)
    ensures FindIndex(s + [p], id) ==
      if FindIndex(s, id) >= 0 then FindIndex(s, id)
      else if p.id == id then |s|
      else -1
  {
    var t := s + [p];
    var r, q := FindIndex(s, id), FindIndex(t, id);
    assert forall j :: 0 <= j < |s| ==> t[j] == s[j];
    if r >= 0 {
      assert t[r].id == id;
    } else if p.id == id {
      assert t[|s|].id == id;
    }
  }

  /**
   * Overwriting one quantity keeps the cart well formed when the new
   * quantity is positive, leaves every lookup where it was, and the
   * product at `k` then has exactly the new quantity.
   */
  lemma SetAmountKeepsWellFormed(s: seq<Product>, k: int, a: int)
    requires 0 <= k < |s|
    requires a >= 1
    requires WellFormed(s)
    ensures WellFormed(SetAmount(s, k, a))
    ensures CurrentAmount(SetAmount(s, k, a), s[k].id) == a
  {
    var t := SetAmount(s, k, a);
    FindIndexSameIds(s, t, s[k].id);
  }

  /** Lookups after an overwrite land on the same entry; at `k` the quantity is the new one. */
  lemma SetAmountFindsSame(s: seq<Product>, k: int, a: int, id: int)
    requires 0 <= k < |s|
    ensures FindIndex(SetAmount(s, k, a), id) == FindIndex(s, id)
    ensures FindIndex(s, id) == k ==> CurrentAmount(SetAmount(s, k, a), id) == a
  {
    FindIndexSameIds(s, SetAmount(s, k, a), id);
  }

  /** Putting the old quantity back undoes an overwrite. */
  lemma SetAmountUndo(s: seq<Product>, k: int, a: int)
    requires 0 <= k < |s|
    ensures SetAmount(SetAmount(s, k, a), k, s[k].amount) == s
  {
  }

  /**
   * Appending the entry for a product that is not in the cart keeps the
   * cart well formed, and the product is then found at the end with
   * quantity 1.
   */
  lemma AppendKeepsWellFormed(s: seq<Product>, info: ProductInfo)
    requires WellFormed(s)
    requires FindIndex(s, info.id) < 0
    ensures WellFormed(s + [NewEntry(info)])
    ensures FindIndex(s + [NewEntry(info)], info.id) == |s|
    ensures CurrentAmount(s + [NewEntry(info)], info.id) == 1
  {
    FindIndexAppend(s, NewEntry(info), info.id);
  }

  /**
   * Splicing out entry `k` drops exactly that entry: the cart is one
   * shorter, the entries before `k` stay, the entries after it move up by
   * one in the same order, and nothing else is lost.
   */
  lemma RemoveAtShape(s: seq<Product>, k: int)
    requires 0 <= k < |s|
    ensures |RemoveAt(s, k)| == |s| - 1
    ensures forall j :: 0 <= j < k ==> RemoveAt(s, k)[j] == s[j]
    ensures forall j :: k <= j < |s| - 1 ==> RemoveAt(s, k)[j] == s[j + 1]
    ensures multiset(RemoveAt(s, k)) + multiset{s[k]} == multiset(s)
  {
    assert s == s[..k] + [s[k]] + s[k + 1..];
  }

  /**
   * Removing from a well-formed cart keeps it well formed, and the removed
   * product's id no longer occurs in it.
   */
  lemma RemoveAtKeepsWellFormed(s: seq<Product>, k: int)
    requires 0 <= k < |s|
    requires WellFormed(s)
    ensures WellFormed(RemoveAt(s, k))
    ensures FindIndex(RemoveAt(s, k), s[k].id) < 0
  {
  }

  /** Removing a product that was just appended gives back the cart before the append. */
  lemma RemoveUndoesAppend(s: seq<Product>, info: ProductInfo)
    requires FindIndex(s, info.id) < 0
    ensures FindIndex(s + [NewEntry(info)], info.id) == |s|
    ensures RemoveAt(s + [NewEntry(info)], |s|) == s
  {
  }
}
