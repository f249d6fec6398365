/**
 * The cart provider: the `items` and `isLoaded` state, the mount effect that
 * hydrates from the `'luxe-cart'` local-storage slot, the change effect that
 * writes the whole list back once loaded, and the operations it exposes.
 */
module CartContext {
  import opened Wrappers
  import opened CartLines
  import CartLaws

  /** The one local-storage key the cart uses. */
  const CartKey: string := "luxe-cart"

  /** What a local-storage slot holds, as far as `JSON.parse` is concerned. */
  datatype Snapshot =
    | Serialized(lines: seq<CartItem>)  // text that parses back to a list of lines
    | Unparsable                        // text that `JSON.parse` rejects
    | EmptyText                         // "", which the load step skips as falsy

  /** `JSON.stringify(items)`. */
  function Stringify(items: seq<CartItem>): (s: Snapshot)
    ensures Parse(s) == Some(items)
    ensures s != EmptyText
  {
    Serialized(items)
  }

  /** `JSON.parse`, with a throw as None. */
  function Parse(s: Snapshot): Option<seq<CartItem>> {
    match s
    case Serialized(lines) => Some(lines)
    case _ => None
  }

  /**
   * The lines after the mount effect has read `slots`: a missing or empty slot
   * and a snapshot that does not parse all leave the current lines in place.
   */
  function Hydrate(slots: map<string, Snapshot>, current: seq<CartItem>): (r: seq<CartItem>)
    ensures CartKey !in slots ==> r == current
    ensures CartKey in slots && Parse(slots[CartKey]) == None ==> r == current
    ensures CartKey in slots && Parse(slots[CartKey]).Some? ==> r == Parse(slots[CartKey]).value
  {
    if CartKey in slots && slots[CartKey] != EmptyText then
      match Parse(slots[CartKey])
      case Some(parsed) => parsed
      case None => current  // the error is logged; the lines stay
    else
      current
  }

  /** Local storage after the change effect ran: written only once loaded. */
  function AfterSave(slots: map<string, Snapshot>, loaded: bool, items: seq<CartItem>): (r: map<string, Snapshot>)
    ensures !loaded ==> r == slots
    ensures loaded ==> r.Keys == slots.Keys + {CartKey} && r[CartKey] == Stringify(items)
    ensures forall key :: key in slots && key != CartKey ==> key in r && r[key] == slots[key]
  {
    if loaded then slots[CartKey := Stringify(items)] else slots
  }

  /** A saved cart comes back unchanged when a later session hydrates from it. */
  lemma SaveThenHydrate(slots: map<string, Snapshot>, items: seq<CartItem>, current: seq<CartItem>)
    ensures Hydrate(AfterSave(slots, true, items), current) == items
  {
  }

  /** The `quantity: number = 1` default of `addToCart`. */
  function QuantityOrDefault(quantity: Option<int>): (q: int)
    ensures quantity.Some? ==> q == quantity.value
    ensures quantity == None ==> q == 1
  {
    match quantity
    case Some(n) => n
    case None => 1
  }

  /** The browser's local storage: string keys to saved snapshots. */
  class LocalStorage {
    var slots: map<string, Snapshot>

    constructor (slots: map<string, Snapshot>)
      ensures this.slots == slots
    {
      this.slots := slots;
    }
  }

  class CartProvider {
    var items: seq<CartItem>
    var isLoaded: bool
    const storage: LocalStorage

    /** Once loaded, the saved snapshot is exactly the current lines. */
    ghost predicate Valid()
      reads this, storage
    {
      isLoaded ==> CartKey in storage.slots && storage.slots[CartKey] == Stringify(items)
    }

    /** The first render: no lines, not yet loaded, nothing read or written. */
    constructor (storage: LocalStorage)
      ensures Valid()
      ensures this.storage == storage
      ensures items == [] && !isLoaded
      ensures storage.slots == old(storage.slots)
    {
      this.storage := storage;
      items := [];
      isLoaded := false;
    }

    /** The change effect: writes the full list to `'luxe-cart'`, but only once loaded. */
    method SaveEffect()
      modifies storage
      ensures storage.slots == AfterSave(old(storage.slots), isLoaded, items)
      ensures Valid()
    {
      if isLoaded {
        storage.slots := storage.slots[CartKey := Stringify(items)];
      }
    }

    /** The mount effect, followed by the change effect its `isLoaded` update triggers. */
    method Mount()
      modifies this, storage
      ensures Valid() && isLoaded
      ensures items == Hydrate(old(storage.slots), old(items))
      ensures storage.slots == old(storage.slots)[CartKey := Stringify(items)]
    {
      var saved := if CartKey in storage.slots then Some(storage.slots[CartKey]) else None;
      if saved.Some? && saved.value != EmptyText {
        var parsed := Parse(saved.value);
        if parsed.Some? {
          items := parsed.value;
        }
      }
      isLoaded := true;
      SaveEffect();
    }

    /** `addToCart(product, quantity = 1, selectedSize?)`. */
    method AddToCart(product: Product, quantity: Option<int>, selectedSize: Option<string>)
      requires Valid()
      modifies this`items, storage
      ensures Valid()
      ensures items == CartLines.AddToCart(old(items), product, QuantityOrDefault(quantity), selectedSize)
      ensures storage.slots == AfterSave(old(storage.slots), isLoaded, items)
      ensures old(Unique(items)) ==> Unique(items)
      ensures old(AllPositive(items)) && QuantityOrDefault(quantity) >= 1 ==> AllPositive(items)
      ensures CartCount(items) == old(CartCount(items)) + QuantityOrDefault(quantity)
    {
      var q := QuantityOrDefault(quantity);
      ghost var before := items;
      items := CartLines.AddToCart(items, product, q, selectedSize);
      if Unique(before) {
        CartLaws.AddToCartKeepsUnique(before, product, q, selectedSize);
      }
      if AllPositive(before) && q >= 1 {
        CartLaws.AddToCartKeepsPositive(before, product, q, selectedSize);
      }
      CartLaws.AddToCartCount(before, product, q, selectedSize);
      SaveEffect();
    }

    /** `removeFromCart(productId, selectedSize?)`. */
    method RemoveFromCart(productId: string, selectedSize: Option<string>)
      requires Valid()
      modifies this`items, storage
      ensures Valid()
      ensures items == CartLines.RemoveFromCart(old(items), productId, selectedSize)
      ensures storage.slots == AfterSave(old(storage.slots), isLoaded, items)
      ensures old(Unique(items)) ==> Unique(items)
      ensures old(AllPositive(items)) ==> AllPositive(items)
      ensures CartCount(items) == old(CartCount(items) - QuantityOf(items, productId, selectedSize))
    {
      ghost var before := items;
      items := CartLines.RemoveFromCart(items, productId, selectedSize);
      if Unique(before) {
        CartLaws.RemoveFromCartKeepsUnique(before, productId, selectedSize);
      }
      if AllPositive(before) {
        CartLaws.RemoveFromCartKeepsPositive(before, productId, selectedSize);
      }
      CartLaws.RemoveFromCartCount(before, productId, selectedSize);
      SaveEffect();
    }

    /** `updateQuantity(productId, quantity, selectedSize?)`: 0 or less is a removal. */
    method UpdateQuantity(productId: string, quantity: int, selectedSize: Option<string>)
      requires Valid()
      modifies this`items, storage
      ensures Valid()
      ensures items == CartLines.UpdateQuantity(old(items), productId, quantity, selectedSize)
      ensures storage.slots == AfterSave(old(storage.slots), isLoaded, items)
      ensures old(Unique(items)) ==> Unique(items)
      ensures old(AllPositive(items)) ==> AllPositive(items)
    {
      ghost var before := items;
      if Unique(before) {
        CartLaws.UpdateQuantityKeepsUnique(before, productId, quantity, selectedSize);
      }
      if AllPositive(before) {
        CartLaws.UpdateQuantityKeepsPositive(before, productId, quantity, selectedSize);
      }
      if quantity <= 0 {
        RemoveFromCart(productId, selectedSize);
        return;
      }
      items := SetQuantity(items, productId, quantity, selectedSize);
      SaveEffect();
    }

    /** `clearCart()`. */
    method ClearCart()
      requires Valid()
      modifies this`items, storage
      ensures Valid()
      ensures items == [] && CartTotal(items) == 0 && CartCount(items) == 0
      ensures storage.slots == AfterSave(old(storage.slots), isLoaded, items)
    {
      items := [];
      SaveEffect();
    }

    /** `getCartTotal()`: the `reduce` over the lines, left to right. */
    method GetCartTotal() returns (total: int)
      ensures total == CartTotal(items)
    {
      total := 0;
      var i := 0;
      while i < |items|
        invariant 0 <= i <= |items|
        invariant total + CartTotal(items[i..]) == CartTotal(items)
      {
        assert items[i..][1..] == items[i + 1..];
        var price := PriceOf(items[i].product);
        total := total + price * items[i].quantity;
        i := i + 1;
      }
    }

    /** `getCartCount()`: units summed over the lines, not the number of lines. */
    method GetCartCount() returns (count: int)
      ensures count == CartCount(items)
    {
      count := 0;
      var i := 0;
      while i < |items|
        invariant 0 <= i <= |items|
        invariant count + CartCount(items[i..]) == CartCount(items)
      {
        assert items[i..][1..] == items[i + 1..];
        count := count + items[i].quantity;
        i := i + 1;
      }
    }
  }

  /**
   * One session adds two units of a product to an empty cart; a later session
   * over the same storage hydrates exactly that one line.
   */
  method ReloadAfterAdd(storage: LocalStorage, product: Product) returns (reloaded: CartProvider)
    requires CartKey !in storage.slots || Parse(storage.slots[CartKey]) == None
    modifies storage
    ensures reloaded.items == [CartItem(product, 2, None)]
    ensures reloaded.isLoaded && reloaded.storage == storage
  {
    var first := new CartProvider(storage);
    first.Mount();
    first.AddToCart(product, Some(2), None);
    reloaded := new CartProvider(storage);
    reloaded.Mount();
  }
}
