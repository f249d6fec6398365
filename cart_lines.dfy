/**
 * The line-item transformations behind the cart store: the bodies of the
 * `setItems` updaters (find-and-merge, filter, map) and the two `reduce`
 * sums, as pure functions over the ordered list of lines.
 */
module CartLines {
  import opened Wrappers

  /** The part of a catalog product the cart reads: its id and `metadata.price`. */
  datatype Product = Product(id: string, price: Option<int>)

  /** One cart line. The quantity is an int: nothing in the store forbids 0 or less. */
  datatype CartItem = CartItem(product: Product, quantity: int, selectedSize: Option<string>)

  /** A line's key is its product id and its size; an absent size is its own key. */
  predicate Matches(item: CartItem, id: string, size: Option<string>) {
    item.product.id == id && item.selectedSize == size
  }

  predicate SameKey(a: CartItem, b: CartItem) {
    Matches(a, b.product.id, b.selectedSize)
  }

  /** No two lines share a key. */
  ghost predicate Unique(items: seq<CartItem>) {
    forall i, j :: 0 <= i < j < |items| ==> !SameKey(items[i], items[j])
  }

  /** Every line holds at least one unit. */
  ghost predicate AllPositive(items: seq<CartItem>) {
    forall i :: 0 <= i < |items| ==> items[i].quantity >= 1
  }

  /** Number of lines carrying the key. */
  function CountMatches(items: seq<CartItem>, id: string, size: Option<string>): nat {
    if items == [] then 0
    else (if Matches(items[0], id, size) then 1 else 0) + CountMatches(items[1..], id, size)
  }

  /** Units held by the lines carrying the key. */
  function QuantityOf(items: seq<CartItem>, id: string, size: Option<string>): int {
    if items == [] then 0
    else (if Matches(items[0], id, size) then items[0].quantity else 0) + QuantityOf(items[1..], id, size)
  }

  /** `Array.prototype.findIndex`: the first line with the key, or -1. */
  function FindIndex(items: seq<CartItem>, id: string, size: Option<string>): (r: int)
    ensures -1 <= r < |items|
    ensures r == -1 <==> forall i :: 0 <= i < |items| ==> !Matches(items[i], id, size)
    ensures r >= 0 ==> Matches(items[r], id, size)
    ensures r >= 0 ==> forall i :: 0 <= i < r ==> !Matches(items[i], id, size)
  {
    if items == [] then -1
    else if Matches(items[0], id, size) then 0
    else
      var k := FindIndex(items[1..], id, size);
      if k == -1 then -1 else k + 1
  }

  /** The `addToCart` updater: merge into the first line with the key, or append. */
  function AddToCart(items: seq<CartItem>, product: Product, quantity: int, size: Option<string>): (r: seq<CartItem>)
    ensures var k := FindIndex(items, product.id, size);
      k >= 0 ==>
        && |r| == |items|
        && r[k].product == items[k].product
        && r[k].selectedSize == items[k].selectedSize
        && r[k].quantity == items[k].quantity + quantity
        && forall i :: 0 <= i < |items| && i != k ==> r[i] == items[i]
    ensures FindIndex(items, product.id, size) == -1 ==>
      && |r| == |items| + 1
      && r[..|items|] == items
      && r[|items|] == CartItem(product, quantity, size)
  {
    var k := FindIndex(items, product.id, size);
    if k > -1 then items[k := items[k].(quantity := items[k].quantity + quantity)]
    else items + [CartItem(product, quantity, size)]
  }

  /** The `removeFromCart` updater: `filter` keeping the lines without the key. */
  function RemoveFromCart(items: seq<CartItem>, id: string, size: Option<string>): (r: seq<CartItem>)
    ensures |r| == |items| - CountMatches(items, id, size)
    ensures forall i :: 0 <= i < |r| ==> !Matches(r[i], id, size)
    ensures forall x :: x in r <==> x in items && !Matches(x, id, size)
    ensures CountMatches(items, id, size) == 0 ==> r == items
  {
    if items == [] then []
    else if Matches(items[0], id, size) then RemoveFromCart(items[1..], id, size)
    else [items[0]] + RemoveFromCart(items[1..], id, size)
  }

  /** The `map` in `updateQuantity`: every line with the key gets the new quantity. */
  function SetQuantity(items: seq<CartItem>, id: string, quantity: int, size: Option<string>): (r: seq<CartItem>)
    ensures |r| == |items|
    ensures forall i :: 0 <= i < |items| ==>
      r[i] == if Matches(items[i], id, size) then items[i].(quantity := quantity) else items[i]
    ensures CountMatches(items, id, size) == 0 ==> r == items
  {
    if items == [] then []
    else
      [if Matches(items[0], id, size) then items[0].(quantity := quantity) else items[0]]
      + SetQuantity(items[1..], id, quantity, size)
  }

  /** `updateQuantity`: a quantity of 0 or less removes the key's lines. */
  function UpdateQuantity(items: seq<CartItem>, id: string, quantity: int, size: Option<string>): (r: seq<CartItem>)
    ensures quantity <= 0 ==> r == RemoveFromCart(items, id, size)
    ensures quantity > 0 ==> |r| == |items|
    ensures quantity > 0 ==> forall i :: 0 <= i < |r| ==>
      && (Matches(r[i], id, size) <==> Matches(items[i], id, size))
      && (Matches(r[i], id, size) ==> r[i].quantity == quantity && r[i].product == items[i].product)
      && (!Matches(items[i], id, size) ==> r[i] == items[i])
    ensures CountMatches(items, id, size) == 0 ==> r == items
  {
    if quantity <= 0 then RemoveFromCart(items, id, size) else SetQuantity(items, id, quantity, size)
  }

  /** `metadata?.price || 0`: a missing price (or 0) counts as 0. */
  function PriceOf(p: Product): int {
    match p.price
    case None => 0
    case Some(x) => x
  }

  function LineTotal(item: CartItem): int {
    PriceOf(item.product) * item.quantity
  }

  /** The value `getCartTotal` reduces to. */
  function CartTotal(items: seq<CartItem>): int {
    if items == [] then 0 else LineTotal(items[0]) + CartTotal(items[1..])
  }

  /** The value `getCartCount` reduces to: units, not lines. */
  function CartCount(items: seq<CartItem>): int {
    if items == [] then 0 else items[0].quantity + CartCount(items[1..])
  }
}
