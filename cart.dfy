/** The cart updaters of src/context/StoreContext.tsx as pure previous-state-to-next-state
    functions, and what they promise: the stored total is the recomputed sum, at most one line
    per product id, line order kept.

    Each updater is split in two: a function on the list of lines (AddLines, RemoveLines,
    SetQuantity) and `WithTotal`, which pairs the new lines with their recomputed total, as
    every updater of the source does before it returns the new cart. */
module CartEngine {
  import opened StoreTypes

  function LineTotal(item: CartItem): real {
    item.product.price * item.quantity as real
  }

  predicate NonNegativePrices(items: seq<CartItem>) {
    forall i :: 0 <= i < |items| ==> items[i].product.price >= 0.0
  }

  /** `calculateTotal`: a left-to-right reduce, from 0, of price × quantity. */
  function CalculateTotal(items: seq<CartItem>): real {
    if items == [] then 0.0
    else CalculateTotal(items[..|items| - 1]) + LineTotal(items[|items| - 1])
  }

  /** The reduce inside `getTotalItems`: the sum of the line quantities. */
  function TotalItems(items: seq<CartItem>): nat {
    if items == [] then 0
    else TotalItems(items[..|items| - 1]) + items[|items| - 1].quantity
  }

  predicate HasLine(items: seq<CartItem>, productId: string) {
    exists i :: 0 <= i < |items| && items[i].product.id == productId
  }

  /** At most one line per product id. */
  predicate UniqueIds(items: seq<CartItem>) {
    forall i, j :: 0 <= i < j < |items| ==> items[i].product.id != items[j].product.id
  }

  /** What every state reached through the updaters satisfies. */
  predicate CartInvariant(cart: Cart) {
    cart.total == CalculateTotal(cart.items) && UniqueIds(cart.items)
  }

  /** The new cart every updater returns: the given lines and their recomputed total. */
  function WithTotal(items: seq<CartItem>): Cart {
    Cart(items, CalculateTotal(items))
  }

  // ---------------------------------------------------------------------------------------
  // The updaters on the list of lines

  /** The `map` in addToCart: every line of the product id gets `quantity` more. */
  function MergeInto(items: seq<CartItem>, productId: string, quantity: nat): (r: seq<CartItem>)
    ensures |r| == |items|
    ensures forall i :: 0 <= i < |r| ==> r[i].product == items[i].product
  {
    seq(|items|, i requires 0 <= i < |items| =>
      if items[i].product.id == productId
      then items[i].(quantity := items[i].quantity + quantity)
      else items[i])
  }

  /** addToCart on the lines: when a line of the product id is found, merge into it;
      otherwise append `{product, quantity}`. */
  function AddLines(items: seq<CartItem>, product: Product, quantity: nat): seq<CartItem> {
    if HasLine(items, product.id) then MergeInto(items, product.id, quantity)
    else items + [CartItem(product, quantity)]
  }

  /** `items.filter(item => item.product.id !== productId)` */
  function RemoveLines(items: seq<CartItem>, productId: string): (r: seq<CartItem>)
    ensures forall x :: x in r <==> x in items && x.product.id != productId
    ensures |r| <= |items|
    ensures !HasLine(items, productId) ==> r == items
  {
    if items == [] then []
    else
      var rest := RemoveLines(items[1..], productId);
      assert !HasLine(items, productId) ==> !HasLine(items[1..], productId);
      if items[0].product.id != productId then [items[0]] + rest else rest
  }

  /** The `map` in updateQuantity: the lines of the product id get the new quantity, zero
      included (the line stays). */
  function SetQuantity(items: seq<CartItem>, productId: string, quantity: nat): (r: seq<CartItem>)
    ensures |r| == |items|
    ensures forall i :: 0 <= i < |r| ==> r[i].product == items[i].product
  {
    seq(|items|, i requires 0 <= i < |items| =>
      if items[i].product.id == productId then items[i].(quantity := quantity) else items[i])
  }

  // ---------------------------------------------------------------------------------------
  // The updaters on the cart

  /** addToCart */
  function CartAdd(cart: Cart, product: Product, quantity: nat): Cart {
    WithTotal(AddLines(cart.items, product, quantity))
  }

  /** removeFromCart */
  function CartRemove(cart: Cart, productId: string): Cart {
    WithTotal(RemoveLines(cart.items, productId))
  }

  /** updateQuantity */
  function CartUpdate(cart: Cart, productId: string, quantity: nat): Cart {
    WithTotal(SetQuantity(cart.items, productId, quantity))
  }

  /** clearCart */
  function CartClear(): (r: Cart)
    ensures r.items == [] && r.total == 0.0 && CartInvariant(r)
  {
    Cart([], 0.0)
  }

  // ---------------------------------------------------------------------------------------
  // Sums

  lemma {:induction false} TotalAppend(a: seq<CartItem>, b: seq<CartItem>)
    ensures CalculateTotal(a + b) == CalculateTotal(a) + CalculateTotal(b)
    ensures TotalItems(a + b) == TotalItems(a) + TotalItems(b)
    decreases |b|
  {
    if b == [] {
      assert a + b == a;
    } else {
      var b' := b[..|b| - 1];
      TotalAppend(a, b');
      assert (a + b)[..|a + b| - 1] == a + b';
      assert b[..|b| - 1] == b';
    }
  }

  lemma SingleLine(x: CartItem)
    ensures CalculateTotal([x]) == LineTotal(x) && TotalItems([x]) == x.quantity
  {
    assert [x][..0] == [];
  }

  /** With no negative price the total is never negative. */
  lemma {:induction false} TotalNonNegative(items: seq<CartItem>)
    requires NonNegativePrices(items)
    ensures CalculateTotal(items) >= 0.0
    decreases |items|
  {
    if items != [] {
      var last := items[|items| - 1];
      TotalNonNegative(items[..|items| - 1]);
      assert last.product.price >= 0.0;
      assert LineTotal(last) >= 0.0;
    }
  }

  /** Replacing one line changes the sums by exactly that line's difference. */
  lemma TotalReplace(items: seq<CartItem>, k: nat, x: CartItem)
    requires k < |items|
    ensures CalculateTotal(items[k := x]) == CalculateTotal(items) - LineTotal(items[k]) + LineTotal(x)
    ensures TotalItems(items[k := x]) == TotalItems(items) - items[k].quantity + x.quantity
  {
    var pre, post := items[..k], items[k + 1..];
    var head, head' := items[..k + 1], items[k := x][..k + 1];
    assert head[..k] == pre && head'[..k] == pre && head'[k] == x;
    assert CalculateTotal(head) == CalculateTotal(pre) + LineTotal(items[k]);
    assert CalculateTotal(head') == CalculateTotal(pre) + LineTotal(x);
    assert TotalItems(head) == TotalItems(pre) + items[k].quantity;
    assert TotalItems(head') == TotalItems(pre) + x.quantity;
    assert items == head + post;
    assert items[k := x] == head' + post;
    TotalAppend(head, post);
    TotalAppend(head', post);
  }

  /** Removing one line changes the sums by exactly that line. */
  lemma TotalDelete(items: seq<CartItem>, k: nat)
    requires k < |items|
    ensures CalculateTotal(items[..k] + items[k + 1..]) == CalculateTotal(items) - LineTotal(items[k])
    ensures TotalItems(items[..k] + items[k + 1..]) == TotalItems(items) - items[k].quantity
  {
    var pre, post := items[..k], items[k + 1..];
    var head := items[..k + 1];
    assert head[..k] == pre;
    assert CalculateTotal(head) == CalculateTotal(pre) + LineTotal(items[k]);
    assert TotalItems(head) == TotalItems(pre) + items[k].quantity;
    assert items == head + post;
    TotalAppend(head, post);
    TotalAppend(pre, post);
  }

  lemma LineTotalGrows(line: CartItem, quantity: nat)
    ensures LineTotal(CartItem(line.product, line.quantity + quantity))
         == LineTotal(line) + line.product.price * quantity as real
  {
    var p, a, b := line.product.price, line.quantity as real, quantity as real;
    assert (line.quantity + quantity) as real == a + b;
    assert p * (a + b) == p * a + p * b;
  }

  /** Growing one line's quantity grows the sums by that line's unit price × the growth. */
  lemma TotalGrow(items: seq<CartItem>, k: nat, quantity: nat)
    requires k < |items|
    ensures CalculateTotal(items[k := CartItem(items[k].product, items[k].quantity + quantity)])
         == CalculateTotal(items) + items[k].product.price * quantity as real
    ensures TotalItems(items[k := CartItem(items[k].product, items[k].quantity + quantity)])
         == TotalItems(items) + quantity
  {
    TotalReplace(items, k, CartItem(items[k].product, items[k].quantity + quantity));
    LineTotalGrows(items[k], quantity);
  }

  // ---------------------------------------------------------------------------------------
  // The line-list updaters, one line at a time

  lemma MergeIntoSingle(items: seq<CartItem>, productId: string, quantity: nat, k: nat)
    requires UniqueIds(items)
    requires k < |items| && items[k].product.id == productId
    ensures MergeInto(items, productId, quantity)
         == items[k := CartItem(items[k].product, items[k].quantity + quantity)]
  {
  }

  lemma AddLinesExisting(items: seq<CartItem>, product: Product, quantity: nat, k: nat)
    requires UniqueIds(items)
    requires k < |items| && items[k].product.id == product.id
    ensures AddLines(items, product, quantity)
         == items[k := CartItem(items[k].product, items[k].quantity + quantity)]
  {
    MergeIntoSingle(items, product.id, quantity, k);
  }

  lemma AddLinesHasLine(items: seq<CartItem>, product: Product, quantity: nat)
    ensures HasLine(AddLines(items, product, quantity), product.id)
  {
    var r := AddLines(items, product, quantity);
    if HasLine(items, product.id) {
      var k :| 0 <= k < |items| && items[k].product.id == product.id;
      assert r[k].product.id == product.id;
    } else {
      assert r[|items|].product.id == product.id;
    }
  }

  lemma AddLinesKeepsUnique(items: seq<CartItem>, product: Product, quantity: nat)
    requires UniqueIds(items)
    ensures UniqueIds(AddLines(items, product, quantity))
  {
  }

  lemma UniqueIdsTail(items: seq<CartItem>)
    requires UniqueIds(items) && items != []
    ensures UniqueIds(items[1..])
  {
    var rest := items[1..];
    forall i, j | 0 <= i < j < |rest| ensures rest[i].product.id != rest[j].product.id {
      assert rest[i] == items[i + 1] && rest[j] == items[j + 1];
    }
  }

  lemma UniqueIdsCons(head: CartItem, rest: seq<CartItem>)
    requires UniqueIds(rest)
    requires forall x :: x in rest ==> x.product.id != head.product.id
    ensures UniqueIds([head] + rest)
  {
    var s := [head] + rest;
    forall i, j | 0 <= i < j < |s| ensures s[i].product.id != s[j].product.id {
      assert s[j] == rest[j - 1] && rest[j - 1] in rest;
      if i > 0 {
        assert s[i] == rest[i - 1];
      }
    }
  }

  /** Filtering keeps "at most one line per product id". */
  lemma {:induction false} RemoveLinesKeepsUnique(items: seq<CartItem>, productId: string)
    requires UniqueIds(items)
    ensures UniqueIds(RemoveLines(items, productId))
    decreases |items|
  {
    if items != [] {
      var head, rest := items[0], items[1..];
      UniqueIdsTail(items);
      RemoveLinesKeepsUnique(rest, productId);
      if head.product.id != productId {
        var r := RemoveLines(rest, productId);
        forall x | x in r ensures x.product.id != head.product.id {
          var j :| 0 <= j < |rest| && rest[j] == x;
          assert items[j + 1] == x;
        }
        UniqueIdsCons(head, r);
      }
    }
  }

  lemma RemoveHeadLine(items: seq<CartItem>)
    requires UniqueIds(items) && items != []
    ensures RemoveLines(items, items[0].product.id) == items[1..]
  {
    var rest := items[1..];
    forall j | 0 <= j < |rest| ensures rest[j].product.id != items[0].product.id {
      assert rest[j] == items[j + 1];
    }
  }

  lemma {:induction false} RemoveLinesSingle(items: seq<CartItem>, productId: string, k: nat)
    requires UniqueIds(items)
    requires k < |items| && items[k].product.id == productId
    ensures RemoveLines(items, productId) == items[..k] + items[k + 1..]
    decreases k
  {
    if k == 0 {
      RemoveHeadLine(items);
      assert items[..0] + items[1..] == items[1..];
    } else {
      var rest := items[1..];
      UniqueIdsTail(items);
      assert rest[k - 1] == items[k];
      assert items[0].product.id != productId;
      RemoveLinesSingle(rest, productId, k - 1);
      SpliceAfterHead(items, k);
    }
  }

  lemma SpliceAfterHead<T>(s: seq<T>, k: nat)
    requires 0 < k < |s|
    ensures [s[0]] + (s[1..][..k - 1] + s[1..][k..]) == s[..k] + s[k + 1..]
  {
    var a, b := s[1..k], s[k + 1..];
    assert s[1..][..k - 1] == a && s[1..][k..] == b;
    assert [s[0]] + a == s[..k];
  }

  lemma RemoveLinesGone(items: seq<CartItem>, productId: string)
    ensures !HasLine(RemoveLines(items, productId), productId)
  {
    var r := RemoveLines(items, productId);
    forall i | 0 <= i < |r| ensures r[i].product.id != productId {
      assert r[i] in r;
    }
  }

  lemma SetQuantitySingle(items: seq<CartItem>, productId: string, quantity: nat, k: nat)
    requires UniqueIds(items)
    requires k < |items| && items[k].product.id == productId
    ensures SetQuantity(items, productId, quantity)
         == items[k := CartItem(items[k].product, quantity)]
  {
  }

  // ---------------------------------------------------------------------------------------
  // addToCart

  /** Adding a product that already has a line: same number of lines, only that line's
      quantity grows by `quantity` (it keeps its own product snapshot), every other line is
      unchanged and in place; the total grows by the stored unit price × quantity. */
  lemma CartAddExisting(cart: Cart, product: Product, quantity: nat, k: nat)
    requires UniqueIds(cart.items)
    requires k < |cart.items| && cart.items[k].product.id == product.id
    ensures CartAdd(cart, product, quantity).items
         == cart.items[k := CartItem(cart.items[k].product, cart.items[k].quantity + quantity)]
    ensures CartAdd(cart, product, quantity).total
         == CalculateTotal(cart.items) + cart.items[k].product.price * quantity as real
    ensures TotalItems(CartAdd(cart, product, quantity).items) == TotalItems(cart.items) + quantity
  {
    var grown := cart.items[k := CartItem(cart.items[k].product, cart.items[k].quantity + quantity)];
    AddLinesExisting(cart.items, product, quantity, k);
    CartAddOfLines(cart, product, quantity, grown);
    TotalGrow(cart.items, k, quantity);
  }

  lemma CartAddOfLines(cart: Cart, product: Product, quantity: nat, lines: seq<CartItem>)
    requires AddLines(cart.items, product, quantity) == lines
    ensures CartAdd(cart, product, quantity) == Cart(lines, CalculateTotal(lines))
  {
  }

  /** Adding a product without a line appends exactly one line `{product, quantity}` and
      leaves the existing lines as they were. */
  lemma CartAddNew(cart: Cart, product: Product, quantity: nat)
    requires !HasLine(cart.items, product.id)
    ensures CartAdd(cart, product, quantity).items == cart.items + [CartItem(product, quantity)]
    ensures CartAdd(cart, product, quantity).total
         == CalculateTotal(cart.items) + product.price * quantity as real
    ensures TotalItems(CartAdd(cart, product, quantity).items) == TotalItems(cart.items) + quantity
  {
    var x := CartItem(product, quantity);
    TotalAppend(cart.items, [x]);
    SingleLine(x);
  }

  /** addToCart keeps the invariant and leaves a line of the product id. */
  lemma CartAddKeepsInvariant(cart: Cart, product: Product, quantity: nat)
    requires CartInvariant(cart)
    ensures CartInvariant(CartAdd(cart, product, quantity))
    ensures HasLine(CartAdd(cart, product, quantity).items, product.id)
  {
    AddLinesKeepsUnique(cart.items, product, quantity);
    AddLinesHasLine(cart.items, product, quantity);
  }

  function Sum(qs: seq<nat>): nat {
    if qs == [] then 0 else qs[0] + Sum(qs[1..])
  }

  /** A sequence of `addToCart(product, q)` calls, one per quantity, in order. */
  function AddAll(cart: Cart, product: Product, qs: seq<nat>): Cart
    decreases |qs|
  {
    if qs == [] then cart else AddAll(CartAdd(cart, product, qs[0]), product, qs[1..])
  }

  lemma {:induction false} AddAllOntoLine(c: Cart, pre: seq<CartItem>, product: Product, s: nat, qs: seq<nat>)
    requires UniqueIds(pre) && !HasLine(pre, product.id)
    requires c.items == pre + [CartItem(product, s)]
    ensures AddAll(c, product, qs).items == pre + [CartItem(product, s + Sum(qs))]
    decreases |qs|
  {
    if qs != [] {
      var merged := pre + [CartItem(product, s + qs[0])];
      assert UniqueIds(c.items);
      AddLinesExisting(c.items, product, qs[0], |pre|);
      assert c.items[|pre| := CartItem(product, s + qs[0])] == merged;
      CartAddOfLines(c, product, qs[0], merged);
      AddAllOntoLine(CartAdd(c, product, qs[0]), pre, product, s + qs[0], qs[1..]);
    }
  }

  lemma {:induction false} AddAllKeepsInvariant(cart: Cart, product: Product, qs: seq<nat>)
    requires CartInvariant(cart)
    ensures CartInvariant(AddAll(cart, product, qs))
    decreases |qs|
  {
    if qs != [] {
      CartAddKeepsInvariant(cart, product, qs[0]);
      AddAllKeepsInvariant(CartAdd(cart, product, qs[0]), product, qs[1..]);
    }
  }

  /** Repeated adds of one product id starting from a cart without it give exactly one line
      for it, at the end, whose quantity is the sum of the requested quantities; the earlier
      lines stay as they were. */
  lemma RepeatedAddsMerge(cart: Cart, product: Product, qs: seq<nat>)
    requires CartInvariant(cart) && !HasLine(cart.items, product.id) && qs != []
    ensures AddAll(cart, product, qs).items == cart.items + [CartItem(product, Sum(qs))]
  {
    var first := CartAdd(cart, product, qs[0]);
    CartAddOfLines(cart, product, qs[0], cart.items + [CartItem(product, qs[0])]);
    AddAllOntoLine(first, cart.items, product, qs[0], qs[1..]);
    assert AddAll(cart, product, qs) == AddAll(first, product, qs[1..]);
  }

  // ---------------------------------------------------------------------------------------
  // removeFromCart

  /** Removing a product that has a line drops exactly that line, keeps the other lines in
      their order, and lowers the sums by that line. */
  lemma CartRemovePresent(cart: Cart, productId: string, k: nat)
    requires UniqueIds(cart.items)
    requires k < |cart.items| && cart.items[k].product.id == productId
    ensures CartRemove(cart, productId).items == cart.items[..k] + cart.items[k + 1..]
    ensures CartRemove(cart, productId).total == CalculateTotal(cart.items) - LineTotal(cart.items[k])
    ensures TotalItems(CartRemove(cart, productId).items) == TotalItems(cart.items) - cart.items[k].quantity
  {
    RemoveLinesSingle(cart.items, productId, k);
    TotalDelete(cart.items, k);
  }

  /** removeFromCart keeps the invariant, leaves no line of the product id, and returns the
      same cart when there was none. */
  lemma CartRemoveKeepsInvariant(cart: Cart, productId: string)
    requires CartInvariant(cart)
    ensures CartInvariant(CartRemove(cart, productId))
    ensures !HasLine(CartRemove(cart, productId).items, productId)
    ensures !HasLine(cart.items, productId) ==> CartRemove(cart, productId) == cart
  {
    RemoveLinesKeepsUnique(cart.items, productId);
    RemoveLinesGone(cart.items, productId);
  }

  // ---------------------------------------------------------------------------------------
  // updateQuantity

  /** Updating a product that has a line sets that line's quantity, zero included, and keeps
      every line, in order; the sums move by the difference. */
  lemma CartUpdatePresent(cart: Cart, productId: string, quantity: nat, k: nat)
    requires UniqueIds(cart.items)
    requires k < |cart.items| && cart.items[k].product.id == productId
    ensures CartUpdate(cart, productId, quantity).items
         == cart.items[k := CartItem(cart.items[k].product, quantity)]
    ensures CartUpdate(cart, productId, quantity).total
         == CalculateTotal(cart.items) - LineTotal(cart.items[k])
            + cart.items[k].product.price * quantity as real
    ensures TotalItems(CartUpdate(cart, productId, quantity).items)
         == TotalItems(cart.items) - cart.items[k].quantity + quantity
  {
    SetQuantitySingle(cart.items, productId, quantity, k);
    TotalReplace(cart.items, k, CartItem(cart.items[k].product, quantity));
  }

  /** Updating a line to quantity 0 keeps the line, but the cart then sums to what it sums
      to with the line removed. */
  lemma UpdateToZeroKeepsLine(cart: Cart, productId: string, k: nat)
    requires UniqueIds(cart.items)
    requires k < |cart.items| && cart.items[k].product.id == productId
    ensures HasLine(CartUpdate(cart, productId, 0).items, productId)
    ensures |CartUpdate(cart, productId, 0).items| == |CartRemove(cart, productId).items| + 1
    ensures CartUpdate(cart, productId, 0).total == CartRemove(cart, productId).total
    ensures TotalItems(CartUpdate(cart, productId, 0).items) == TotalItems(CartRemove(cart, productId).items)
  {
    CartUpdatePresent(cart, productId, 0, k);
    CartRemovePresent(cart, productId, k);
    var updated := cart.items[k := CartItem(cart.items[k].product, 0)];
    assert CartUpdate(cart, productId, 0).items == updated;
    assert cart.items[k].product.price * (0 as real) == 0.0;
    assert updated[k].product.id == productId;
  }

  /** updateQuantity keeps the invariant and every product line, and returns the same cart
      when the product id has no line. */
  lemma CartUpdateKeepsInvariant(cart: Cart, productId: string, quantity: nat)
    requires CartInvariant(cart)
    ensures CartInvariant(CartUpdate(cart, productId, quantity))
    ensures forall id :: HasLine(CartUpdate(cart, productId, quantity).items, id) <==> HasLine(cart.items, id)
    ensures !HasLine(cart.items, productId) ==> CartUpdate(cart, productId, quantity) == cart
  {
    var r := SetQuantity(cart.items, productId, quantity);
    forall id ensures HasLine(r, id) <==> HasLine(cart.items, id) {
      if HasLine(r, id) {
        var i :| 0 <= i < |r| && r[i].product.id == id;
        assert cart.items[i].product.id == id;
      }
      if HasLine(cart.items, id) {
        var i :| 0 <= i < |cart.items| && cart.items[i].product.id == id;
        assert r[i].product.id == id;
      }
    }
    if !HasLine(cart.items, productId) {
      assert r == cart.items;
    }
  }

  // ---------------------------------------------------------------------------------------
  // Any sequence of cart actions

  datatype CartAction =
    | Add(product: Product, quantity: nat)
    | Remove(productId: string)
    | Update(productId: string, newQuantity: nat)
    | Clear

  function Apply(cart: Cart, action: CartAction): Cart {
    match action
    case Add(p, q) => CartAdd(cart, p, q)
    case Remove(id) => CartRemove(cart, id)
    case Update(id, q) => CartUpdate(cart, id, q)
    case Clear => CartClear()
  }

  function Run(cart: Cart, actions: seq<CartAction>): Cart
    decreases |actions|
  {
    if actions == [] then cart else Run(Apply(cart, actions[0]), actions[1..])
  }

  /** After every sequence of cart actions from a cart that keeps the invariant (the empty
      cart included) the stored total is the sum of price × quantity over the lines, and no
      product id has two lines. */
  lemma {:induction false} RunKeepsInvariant(cart: Cart, actions: seq<CartAction>)
    requires CartInvariant(cart)
    ensures CartInvariant(Run(cart, actions))
    decreases |actions|
  {
    if actions != [] {
      match actions[0] {
        case Add(p, q) => CartAddKeepsInvariant(cart, p, q);
        case Remove(id) => CartRemoveKeepsInvariant(cart, id);
        case Update(id, q) => CartUpdateKeepsInvariant(cart, id, q);
        case Clear =>
      }
      RunKeepsInvariant(Apply(cart, actions[0]), actions[1..]);
    }
  }

  // ---------------------------------------------------------------------------------------
  // Worked scenarios

  function SampleProduct(id: string, price: real): Product {
    Product(id, "Sample", price, None, "/images/sample.jpg", [], "", "bolsas",
            Some(true), None, None, None)
  }

  /** Adding A (89.99) once and then twice more gives one line of quantity 3, total 269.97. */
  lemma ScenarioMergeSameProduct()
    ensures var a := SampleProduct("A", 89.99);
      var r := CartAdd(CartAdd(CartClear(), a, 1), a, 2);
      r.items == [CartItem(a, 3)] && r.total == 269.97
  {
    var a := SampleProduct("A", 89.99);
    CartAddNew(CartClear(), a, 1);
    CartAddExisting(CartAdd(CartClear(), a, 1), a, 2, 0);
  }

  /** Adding A and B and then removing A leaves B's line alone, with B's own total. */
  lemma ScenarioRemoveOne()
    ensures var a := SampleProduct("A", 89.99);
      var b := SampleProduct("B", 149.5);
      var r := CartRemove(CartAdd(CartAdd(CartClear(), a, 1), b, 2), "A");
      r.items == [CartItem(b, 2)] && r.total == 299.0
  {
    var a := SampleProduct("A", 89.99);
    var b := SampleProduct("B", 149.5);
    var c1 := CartAdd(CartClear(), a, 1);
    CartAddNew(CartClear(), a, 1);
    assert !HasLine(c1.items, "B");
    CartAddNew(c1, b, 2);
    var c2 := CartAdd(c1, b, 2);
    CartRemovePresent(c2, "A", 0);
    SingleLine(CartItem(b, 2));
  }
}
