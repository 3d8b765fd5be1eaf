/** The provider of src/context/StoreContext.tsx: it holds the cart and the favorites and each
    of its actions replaces one of them wholesale with the next state computed by the pure
    updaters of CartEngine and FavoritesEngine. React's deferred state updates are modelled as
    taking effect at once, in call order. */
module StoreContext {
  import opened StoreTypes
  import opened CartEngine
  import opened FavoritesEngine

  class StoreProvider {
    var cart: Cart
    var favorites: seq<FavoriteItem>

    /** What every state reached through the actions satisfies. */
    ghost predicate Valid()
      reads this
    {
      CartInvariant(cart) && FavoritesInvariant(favorites)
    }

    /** The initial state: an empty cart with total 0 and no favorites. */
    constructor ()
      ensures cart == Cart([], 0.0) && favorites == []
      ensures Valid()
    {
      cart := Cart([], 0.0);
      favorites := [];
    }

    /** addToCart, with the source's default quantity of 1. */
    method AddToCart(product: Product, quantity: nat := 1)
      modifies this
      ensures cart == CartAdd(old(cart), product, quantity)
      ensures favorites == old(favorites)
      ensures old(Valid()) ==> Valid()
      ensures HasLine(cart.items, product.id)
    {
      ghost var wasValid := Valid();
      if wasValid {
        CartAddKeepsInvariant(cart, product, quantity);
      }
      AddLinesHasLine(cart.items, product, quantity);
      cart := CartAdd(cart, product, quantity);
    }

    method RemoveFromCart(productId: string)
      modifies this
      ensures cart == CartRemove(old(cart), productId)
      ensures favorites == old(favorites)
      ensures old(Valid()) ==> Valid()
      ensures !HasLine(cart.items, productId)
    {
      RemoveLinesGone(cart.items, productId);
      ghost var wasValid := Valid();
      if wasValid {
        CartRemoveKeepsInvariant(cart, productId);
      }
      cart := CartRemove(cart, productId);
    }

    method UpdateQuantity(productId: string, quantity: nat)
      modifies this
      ensures cart == CartUpdate(old(cart), productId, quantity)
      ensures favorites == old(favorites)
      ensures old(Valid()) ==> Valid()
    {
      ghost var wasValid := Valid();
      if wasValid {
        CartUpdateKeepsInvariant(cart, productId, quantity);
      }
      cart := CartUpdate(cart, productId, quantity);
    }

    method ClearCart()
      modifies this
      ensures cart == CartClear()
      ensures favorites == old(favorites)
      ensures old(Valid()) ==> Valid()
    {
      cart := CartClear();
    }

    /** getTotalItems: the `reduce` over the lines, accumulating the quantities. */
    method GetTotalItems() returns (n: nat)
      ensures n == TotalItems(cart.items)
    {
      var items := cart.items;
      n := 0;
      var i := 0;
      while i < |items|
        invariant 0 <= i <= |items|
        invariant n == TotalItems(items[..i])
      {
        assert items[..i + 1][..i] == items[..i];
        n := n + items[i].quantity;
        i := i + 1;
      }
      assert items[..i] == items;
    }

    method AddToFavorites(product: Product, now: nat)
      modifies this
      ensures favorites == FavoritesAdd(old(favorites), product, now)
      ensures cart == old(cart)
      ensures old(Valid()) ==> Valid()
    {
      ghost var wasValid := Valid();
      if wasValid {
        FavoritesAddKeepsInvariant(favorites, product, now);
      }
      favorites := FavoritesAdd(favorites, product, now);
    }

    method RemoveFromFavorites(id: string)
      modifies this
      ensures favorites == FavoritesRemove(old(favorites), id)
      ensures cart == old(cart)
      ensures old(Valid()) ==> Valid()
    {
      ghost var wasValid := Valid();
      if wasValid {
        FavoritesRemoveKeepsInvariant(favorites, id);
      }
      favorites := FavoritesRemove(favorites, id);
    }

    /** toggleFavorite: look the product up in the current favorites and either remove the
        found entry by its id or add the product. */
    method ToggleFavorite(product: Product, now: nat)
      modifies this
      ensures favorites == FavoritesToggle(old(favorites), product, now)
      ensures cart == old(cart)
      ensures old(Valid()) ==> Valid()
      ensures old(Valid()) ==>
        (IsFavorite(favorites, product.id) <==> !IsFavorite(old(favorites), product.id))
    {
      ghost var wasValid := Valid();
      if wasValid {
        ToggleFlips(favorites, product, now);
      }
      var found := FindFavorite(favorites, product.id);
      if found.Some? {
        RemoveFromFavorites(favorites[found.value].id);
      } else {
        AddToFavorites(product, now);
      }
    }

    /** isFavorite: `some` over the favorites. */
    method IsFavoriteProduct(productId: string) returns (b: bool)
      ensures b <==> IsFavorite(favorites, productId)
    {
      b := false;
      var i := 0;
      while i < |favorites| && !b
        invariant 0 <= i <= |favorites|
        invariant b <==> exists j :: 0 <= j < i && favorites[j].product.id == productId
      {
        b := favorites[i].product.id == productId;
        i := i + 1;
      }
    }
  }
}
