/**
 * What the cart operations guarantee: the sums move as the operations say,
 * no two lines ever share a key, quantities stay at least 1 when callers add
 * at least 1, removal keeps the other lines in order, and repeated adds of one
 * key merge into a single line.
 */
module CartLaws {
  import opened Wrappers
  import opened CartLines

  // ---------------------------------------------------------------------------
  // The two sums

  lemma {:induction false} CartCountAppend(a: seq<CartItem>, b: seq<CartItem>)
    ensures CartCount(a + b) == CartCount(a) + CartCount(b)
  {
    if a != [] {
      assert (a + b)[1..] == a[1..] + b;
      CartCountAppend(a[1..], b);
    } else {
      assert a + b == b;
    }
  }

  lemma {:induction false} CartTotalAppend(a: seq<CartItem>, b: seq<CartItem>)
    ensures CartTotal(a + b) == CartTotal(a) + CartTotal(b)
  {
    if a != [] {
      assert (a + b)[1..] == a[1..] + b;
      CartTotalAppend(a[1..], b);
    } else {
      assert a + b == b;
    }
  }

  /** Replacing one line changes the count by the difference in its quantity. */
  lemma {:induction false} CartCountReplace(items: seq<CartItem>, k: nat, x: CartItem)
    requires k < |items|
    ensures CartCount(items[k := x]) == CartCount(items) - items[k].quantity + x.quantity
  {
    if k > 0 {
      assert items[k := x][1..] == items[1..][k - 1 := x];
      CartCountReplace(items[1..], k - 1, x);
    } else {
      assert items[k := x][1..] == items[1..];
    }
  }

  /** Replacing one line changes the total by the difference in its line total. */
  lemma {:induction false} CartTotalReplace(items: seq<CartItem>, k: nat, x: CartItem)
    requires k < |items|
    ensures CartTotal(items[k := x]) == CartTotal(items) - LineTotal(items[k]) + LineTotal(x)
  {
    if k > 0 {
      assert items[k := x][1..] == items[1..][k - 1 := x];
      CartTotalReplace(items[1..], k - 1, x);
    } else {
      assert items[k := x][1..] == items[1..];
    }
  }

  /** Adding q units raises the unit count by exactly q, merged or appended. */
  lemma AddToCartCount(items: seq<CartItem>, product: Product, quantity: int, size: Option<string>)
    ensures CartCount(AddToCart(items, product, quantity, size)) == CartCount(items) + quantity
  {
    var k := FindIndex(items, product.id, size);
    if k >= 0 {
      CartCountReplace(items, k, items[k].(quantity := items[k].quantity + quantity));
    } else {
      CartCountAppend(items, [CartItem(product, quantity, size)]);
    }
  }

  /**
   * Adding q units raises the total by q times the price of the line that
   * receives them: the existing line's product when merging (its stored
   * record, not the one passed in), the new product when appending.
   */
  lemma AddToCartTotal(items: seq<CartItem>, product: Product, quantity: int, size: Option<string>)
    ensures var k := FindIndex(items, product.id, size);
      CartTotal(AddToCart(items, product, quantity, size))
        == CartTotal(items) + PriceOf(if k >= 0 then items[k].product else product) * quantity
  {
    var k := FindIndex(items, product.id, size);
    if k >= 0 {
      var x := items[k].(quantity := items[k].quantity + quantity);
      CartTotalReplace(items, k, x);
      assert LineTotal(x) == LineTotal(items[k]) + PriceOf(items[k].product) * quantity by {
        var p := PriceOf(items[k].product);
        assert p * (items[k].quantity + quantity) == p * items[k].quantity + p * quantity;
      }
    } else {
      CartTotalAppend(items, [CartItem(product, quantity, size)]);
    }
  }

  /** Removing a key lowers the unit count by exactly the units that key held. */
  lemma {:induction false} RemoveFromCartCount(items: seq<CartItem>, id: string, size: Option<string>)
    ensures CartCount(RemoveFromCart(items, id, size)) == CartCount(items) - QuantityOf(items, id, size)
  {
    if items != [] {
      RemoveFromCartCount(items[1..], id, size);
    }
  }

  /** Setting a positive quantity replaces, line by line, the key's units by the new quantity. */
  lemma {:induction false} UpdateQuantityCount(items: seq<CartItem>, id: string, quantity: int, size: Option<string>)
    requires quantity > 0
    ensures CartCount(UpdateQuantity(items, id, quantity, size))
      == CartCount(items) - QuantityOf(items, id, size) + quantity * CountMatches(items, id, size)
  {
    if items != [] {
      UpdateQuantityCount(items[1..], id, quantity, size);
      var r := SetQuantity(items, id, quantity, size);
      assert r[1..] == SetQuantity(items[1..], id, quantity, size);
      var n := CountMatches(items[1..], id, size);
      if Matches(items[0], id, size) {
        assert quantity * (1 + n) == quantity + quantity * n;
      }
    }
  }

  /** Under uniqueness a key names at most one line, so removal drops at most one. */
  lemma {:induction false} UniqueKeyAtMostOnce(items: seq<CartItem>, id: string, size: Option<string>)
    requires Unique(items)
    ensures CountMatches(items, id, size) <= 1
  {
    if items != [] {
      assert Unique(items[1..]) by {
        forall i, j | 0 <= i < j < |items[1..]| ensures !SameKey(items[1..][i], items[1..][j]) {
          assert items[1..][i] == items[i + 1] && items[1..][j] == items[j + 1];
        }
      }
      UniqueKeyAtMostOnce(items[1..], id, size);
      if Matches(items[0], id, size) {
        NoOtherMatch(items, id, size);
      }
    }
  }

  lemma {:induction false} NoOtherMatch(items: seq<CartItem>, id: string, size: Option<string>)
    requires Unique(items) && items != [] && Matches(items[0], id, size)
    ensures CountMatches(items[1..], id, size) == 0
  {
    var rest := items[1..];
    forall i | 0 <= i < |rest| ensures !Matches(rest[i], id, size) {
      assert rest[i] == items[i + 1];
      assert !SameKey(items[0], items[i + 1]);
    }
    NoneMatchCountsZero(rest, id, size);
  }

  lemma {:induction false} NoneMatchCountsZero(items: seq<CartItem>, id: string, size: Option<string>)
    requires forall i :: 0 <= i < |items| ==> !Matches(items[i], id, size)
    ensures CountMatches(items, id, size) == 0
  {
    if items != [] {
      NoneMatchCountsZero(items[1..], id, size);
    }
  }

  // ---------------------------------------------------------------------------
  // Removal keeps the other lines in order

  /**
   * Filtering distributes over concatenation: the kept lines of a + b are the
   * kept lines of a followed by those of b. With the one-line case (a line is
   * kept iff it lacks the key) this fixes the result, order included.
   */
  lemma {:induction false} RemoveFromCartConcat(a: seq<CartItem>, b: seq<CartItem>, id: string, size: Option<string>)
    ensures RemoveFromCart(a + b, id, size) == RemoveFromCart(a, id, size) + RemoveFromCart(b, id, size)
  {
    if a == [] {
      assert a + b == b;
    } else {
      var ab := a + b;
      assert ab[0] == a[0];
      assert ab[1..] == a[1..] + b;
      RemoveFromCartConcat(a[1..], b, id, size);
      var rest := RemoveFromCart(a[1..], id, size) + RemoveFromCart(b, id, size);
      if Matches(a[0], id, size) {
        assert RemoveFromCart(ab, id, size) == rest;
      } else {
        assert RemoveFromCart(ab, id, size) == [a[0]] + rest;
        assert [a[0]] + rest == ([a[0]] + RemoveFromCart(a[1..], id, size)) + RemoveFromCart(b, id, size);
      }
    }
  }

  // ---------------------------------------------------------------------------
  // Key uniqueness (no two lines share a key)

  lemma AddToCartKeepsUnique(items: seq<CartItem>, product: Product, quantity: int, size: Option<string>)
    requires Unique(items)
    ensures Unique(AddToCart(items, product, quantity, size))
  {
    var r := AddToCart(items, product, quantity, size);
    var k := FindIndex(items, product.id, size);
    if k >= 0 {
      forall i, j | 0 <= i < j < |r| ensures !SameKey(r[i], r[j]) {
        assert SameKey(r[i], r[j]) == SameKey(items[i], items[j]);
      }
    } else {
      forall i, j | 0 <= i < j < |r| ensures !SameKey(r[i], r[j]) {
        assert r[i] == items[i];
        if j < |items| {
          assert r[j] == items[j];
        }
      }
    }
  }

  lemma {:induction false} RemoveFromCartKeepsUnique(items: seq<CartItem>, id: string, size: Option<string>)
    requires Unique(items)
    ensures Unique(RemoveFromCart(items, id, size))
  {
    if items != [] {
      var rest := items[1..];
      assert Unique(rest) by {
        forall i, j | 0 <= i < j < |rest| ensures !SameKey(rest[i], rest[j]) {
          assert rest[i] == items[i + 1] && rest[j] == items[j + 1];
        }
      }
      RemoveFromCartKeepsUnique(rest, id, size);
      if !Matches(items[0], id, size) {
        var tail := RemoveFromCart(rest, id, size);
        var r := [items[0]] + tail;
        forall i, j | 0 <= i < j < |r| ensures !SameKey(r[i], r[j]) {
          if i == 0 {
            assert r[j] in rest;
            var m :| 0 <= m < |rest| && rest[m] == r[j];
            assert items[m + 1] == r[j];
          } else {
            assert r[i] == tail[i - 1] && r[j] == tail[j - 1];
          }
        }
      }
    }
  }

  lemma UpdateQuantityKeepsUnique(items: seq<CartItem>, id: string, quantity: int, size: Option<string>)
    requires Unique(items)
    ensures Unique(UpdateQuantity(items, id, quantity, size))
  {
    if quantity <= 0 {
      RemoveFromCartKeepsUnique(items, id, size);
    } else {
      var r := SetQuantity(items, id, quantity, size);
      forall i, j | 0 <= i < j < |r| ensures !SameKey(r[i], r[j]) {
        assert SameKey(r[i], r[j]) == SameKey(items[i], items[j]);
      }
    }
  }

  // ---------------------------------------------------------------------------
  // Quantities stay at least 1

  /** `addToCart` has no guard: only adds of at least 1 keep every line positive. */
  lemma AddToCartKeepsPositive(items: seq<CartItem>, product: Product, quantity: int, size: Option<string>)
    requires AllPositive(items) && quantity >= 1
    ensures AllPositive(AddToCart(items, product, quantity, size))
  {
  }

  lemma RemoveFromCartKeepsPositive(items: seq<CartItem>, id: string, size: Option<string>)
    requires AllPositive(items)
    ensures AllPositive(RemoveFromCart(items, id, size))
  {
    var r := RemoveFromCart(items, id, size);
    forall i | 0 <= i < |r| ensures r[i].quantity >= 1 {
      assert r[i] in items;
    }
  }

  /** Whatever quantity is asked for: 0 or less removes, more than 0 is kept. */
  lemma UpdateQuantityKeepsPositive(items: seq<CartItem>, id: string, quantity: int, size: Option<string>)
    requires AllPositive(items)
    ensures AllPositive(UpdateQuantity(items, id, quantity, size))
  {
    if quantity <= 0 {
      RemoveFromCartKeepsPositive(items, id, size);
    }
  }

  // ---------------------------------------------------------------------------
  // Repeated adds of one key

  /**
   * The cart after adding qs[0] units of ps[0], qs[1] of ps[1], ... in that
   * order, all with one size. The product records may differ (a price may
   * change between adds); callers pass records that share one id.
   */
  function AddAll(items: seq<CartItem>, ps: seq<Product>, qs: seq<int>, size: Option<string>): seq<CartItem>
    requires |ps| == |qs|
  {
    if qs == [] then items
    else AddToCart(AddAll(items, ps[..|ps| - 1], qs[..|qs| - 1], size), ps[|ps| - 1], qs[|qs| - 1], size)
  }

  function Sum(qs: seq<int>): int {
    if qs == [] then 0 else Sum(qs[..|qs| - 1]) + qs[|qs| - 1]
  }

  /**
   * Starting from a cart without the key, any non-empty run of adds of that key
   * (records sharing the id, perhaps differing in price) leaves the old lines in
   * place and exactly one line for the key, at the end, holding the first
   * record added and the sum of the requested quantities.
   */
  lemma {:induction false} RepeatedAddsMerge(items: seq<CartItem>, id: string, ps: seq<Product>, qs: seq<int>, size: Option<string>)
    requires FindIndex(items, id, size) == -1
    requires |qs| > 0 && |ps| == |qs|
    requires forall i :: 0 <= i < |ps| ==> ps[i].id == id
    ensures var r := AddAll(items, ps, qs, size);
      && |r| == |items| + 1
      && r[..|items|] == items
      && r[|items|] == CartItem(ps[0], Sum(qs), size)
      && forall i :: 0 <= i < |r| ==> (Matches(r[i], id, size) <==> i == |items|)
  {
    var initP, initQ := ps[..|ps| - 1], qs[..|qs| - 1];
    var last := qs[|qs| - 1];
    if initQ == [] {
      assert AddAll(items, initP, initQ, size) == items;
      assert Sum(qs) == last;
    } else {
      assert forall i :: 0 <= i < |initP| ==> initP[i] == ps[i];
      RepeatedAddsMerge(items, id, initP, initQ, size);
      var prev := AddAll(items, initP, initQ, size);
      assert FindIndex(prev, id, size) == |items| by {
        assert Matches(prev[|items|], id, size);
      }
      var r := AddToCart(prev, ps[|ps| - 1], last, size);
      assert r[..|items|] == items by {
        forall i | 0 <= i < |items| ensures r[i] == items[i] {
          assert r[i] == prev[i] && prev[i] == prev[..|items|][i];
        }
      }
    }
  }

  // ---------------------------------------------------------------------------
  // Worked cases

  /** Two lines, 100 x 2 and 50 x 1: total 250, count 3. */
  lemma TotalsExample()
    ensures var p := Product("a", Some(100));
      var q := Product("b", Some(50));
      var items := [CartItem(p, 2, None), CartItem(q, 1, None)];
      CartTotal(items) == 250 && CartCount(items) == 3
  {
    var p := Product("a", Some(100));
    var q := Product("b", Some(50));
    var items := [CartItem(p, 2, None), CartItem(q, 1, None)];
    assert items[1..] == [CartItem(q, 1, None)];
    assert items[1..][1..] == [];
    assert CartTotal(items[1..]) == 50;
    assert CartCount(items[1..]) == 1;
  }

  /** Sizes "M" and "L" of one product are two separate lines. */
  lemma VariantsStayApart(product: Product)
    ensures AddToCart(AddToCart([], product, 1, Some("M")), product, 1, Some("L"))
      == [CartItem(product, 1, Some("M")), CartItem(product, 1, Some("L"))]
  {
  }
}
