/** The favorites updaters of src/context/StoreContext.tsx as pure previous-state-to-next-state
    functions. An entry's id is the product id, a dash and the clock reading in decimal digits;
    `now` stands for both `Date.now()` and `new Date()`, read once per call. */
module FavoritesEngine {
  import opened StoreTypes
  import opened Text

  /** `${product.id}-${Date.now()}` */
  function FavoriteId(productId: string, now: nat): string {
    productId + "-" + NatToDecimal(now)
  }

  /** The entry addToFavorites appends. */
  function NewFavorite(product: Product, now: nat): FavoriteItem {
    FavoriteItem(FavoriteId(product.id, now), product, now)
  }

  /** `favorites.some(item => item.product.id === productId)` */
  predicate IsFavorite(favorites: seq<FavoriteItem>, productId: string) {
    exists i :: 0 <= i < |favorites| && favorites[i].product.id == productId
  }

  /** The entry's id is its product's id, a dash and decimal digits. */
  predicate IdNamesProduct(f: FavoriteItem) {
    var n := |f.product.id|;
    n < |f.id| && f.id[..n + 1] == f.product.id + "-" && AllDigits(f.id[n + 1..])
  }

  /** At most one entry per product id. */
  predicate UniqueProducts(favorites: seq<FavoriteItem>) {
    forall i, j :: 0 <= i < j < |favorites| ==> favorites[i].product.id != favorites[j].product.id
  }

  /** What every list reached through the updaters satisfies. */
  predicate FavoritesInvariant(favorites: seq<FavoriteItem>) {
    (forall f :: f in favorites ==> IdNamesProduct(f)) && UniqueProducts(favorites)
  }

  /** `favorites.find(item => item.product.id === productId)`, as the index of the first match. */
  function FindFavorite(favorites: seq<FavoriteItem>, productId: string): (r: Option<nat>)
    ensures r.None? <==> !IsFavorite(favorites, productId)
    ensures r.Some? ==> r.value < |favorites| && favorites[r.value].product.id == productId
    ensures r.Some? ==> forall j :: 0 <= j < r.value ==> favorites[j].product.id != productId
  {
    if favorites == [] then None
    else if favorites[0].product.id == productId then Some(0)
    else match FindFavorite(favorites[1..], productId)
      case None => None
      case Some(k) =>
        assert favorites[k + 1] == favorites[1..][k];
        Some(k + 1)
  }

  /** addToFavorites: nothing changes when the product id is already favorited; otherwise one
      new entry is appended. */
  function FavoritesAdd(favorites: seq<FavoriteItem>, product: Product, now: nat): (r: seq<FavoriteItem>)
    ensures IsFavorite(r, product.id)
    ensures forall pid :: IsFavorite(r, pid) <==> IsFavorite(favorites, pid) || pid == product.id
    ensures |favorites| <= |r| <= |favorites| + 1 && r[..|favorites|] == favorites
    ensures IsFavorite(favorites, product.id) ==> r == favorites
    ensures !IsFavorite(favorites, product.id) ==>
      r == favorites + [FavoriteItem(product.id + "-" + NatToDecimal(now), product, now)]
  {
    if FindFavorite(favorites, product.id).Some? then favorites
    else
      var r := favorites + [NewFavorite(product, now)];
      assert r[|favorites|].product.id == product.id;
      r
  }

  /** `favorites.filter(item => item.id !== id)` */
  function FavoritesRemove(favorites: seq<FavoriteItem>, id: string): (r: seq<FavoriteItem>)
    ensures forall f :: f in r <==> f in favorites && f.id != id
    ensures |r| <= |favorites|
    ensures (forall f :: f in favorites ==> f.id != id) ==> r == favorites
  {
    if favorites == [] then []
    else
      var rest := FavoritesRemove(favorites[1..], id);
      if favorites[0].id != id then [favorites[0]] + rest else rest
  }

  /** toggleFavorite: remove the found entry by its id, or add the product. */
  function FavoritesToggle(favorites: seq<FavoriteItem>, product: Product, now: nat): seq<FavoriteItem> {
    match FindFavorite(favorites, product.id)
    case Some(k) => FavoritesRemove(favorites, favorites[k].id)
    case None => FavoritesAdd(favorites, product, now)
  }

  // ---------------------------------------------------------------------------------------
  // Entry ids

  lemma NewFavoriteNamesProduct(product: Product, now: nat)
    ensures IdNamesProduct(NewFavorite(product, now))
  {
    var n := |product.id|;
    var id := FavoriteId(product.id, now);
    assert id[..n + 1] == product.id + "-";
    assert id[n + 1..] == NatToDecimal(now);
  }

  /** Entries of different products never share an id, whatever the clock said. */
  lemma IdsOfDifferentProducts(f: FavoriteItem, g: FavoriteItem)
    requires IdNamesProduct(f) && IdNamesProduct(g)
    requires f.product.id != g.product.id
    ensures f.id != g.id
  {
    if f.id == g.id {
      var df := f.id[|f.product.id| + 1..];
      var dg := g.id[|g.product.id| + 1..];
      assert f.id == f.product.id + "-" + df by {
        assert f.id == f.id[..|f.product.id| + 1] + df;
      }
      assert g.id == g.product.id + "-" + dg by {
        assert g.id == g.id[..|g.product.id| + 1] + dg;
      }
      SplitAtLastDash(f.product.id, df, g.product.id, dg);
    }
  }

  /** In a list that keeps the invariant every entry id is unique. */
  lemma DistinctIds(favorites: seq<FavoriteItem>, i: nat, j: nat)
    requires FavoritesInvariant(favorites)
    requires i < |favorites| && j < |favorites| && i != j
    ensures favorites[i].id != favorites[j].id
  {
    assert favorites[i] in favorites && favorites[j] in favorites;
    if i < j {
      IdsOfDifferentProducts(favorites[i], favorites[j]);
    } else {
      IdsOfDifferentProducts(favorites[j], favorites[i]);
    }
  }

  // ---------------------------------------------------------------------------------------
  // The updaters keep the invariant

  lemma FavoritesAddKeepsInvariant(favorites: seq<FavoriteItem>, product: Product, now: nat)
    requires FavoritesInvariant(favorites)
    ensures FavoritesInvariant(FavoritesAdd(favorites, product, now))
  {
    NewFavoriteNamesProduct(product, now);
  }

  lemma UniqueProductsTail(favorites: seq<FavoriteItem>)
    requires UniqueProducts(favorites) && favorites != []
    ensures UniqueProducts(favorites[1..])
  {
    var rest := favorites[1..];
    forall i, j | 0 <= i < j < |rest| ensures rest[i].product.id != rest[j].product.id {
      assert rest[i] == favorites[i + 1] && rest[j] == favorites[j + 1];
    }
  }

  lemma UniqueProductsCons(head: FavoriteItem, rest: seq<FavoriteItem>)
    requires UniqueProducts(rest)
    requires forall f :: f in rest ==> f.product.id != head.product.id
    ensures UniqueProducts([head] + rest)
  {
    var s := [head] + rest;
    forall i, j | 0 <= i < j < |s| ensures s[i].product.id != s[j].product.id {
      assert s[j] == rest[j - 1] && rest[j - 1] in rest;
      if i > 0 {
        assert s[i] == rest[i - 1];
      }
    }
  }

  /** Filtering keeps "at most one entry per product id". */
  lemma {:induction false} RemoveKeepsUniqueProducts(favorites: seq<FavoriteItem>, id: string)
    requires UniqueProducts(favorites)
    ensures UniqueProducts(FavoritesRemove(favorites, id))
    decreases |favorites|
  {
    if favorites != [] {
      var head, rest := favorites[0], favorites[1..];
      UniqueProductsTail(favorites);
      RemoveKeepsUniqueProducts(rest, id);
      if head.id != id {
        var r := FavoritesRemove(rest, id);
        forall f | f in r ensures f.product.id != head.product.id {
          var j :| 0 <= j < |rest| && rest[j] == f;
          assert favorites[j + 1] == f;
        }
        UniqueProductsCons(head, r);
      }
    }
  }

  lemma FavoritesRemoveKeepsInvariant(favorites: seq<FavoriteItem>, id: string)
    requires FavoritesInvariant(favorites)
    ensures FavoritesInvariant(FavoritesRemove(favorites, id))
  {
    RemoveKeepsUniqueProducts(favorites, id);
  }

  lemma RemoveHeadEntry(favorites: seq<FavoriteItem>)
    requires favorites != []
    requires forall j :: 0 < j < |favorites| ==> favorites[j].id != favorites[0].id
    ensures FavoritesRemove(favorites, favorites[0].id) == favorites[1..]
  {
    var rest := favorites[1..];
    forall f | f in rest ensures f.id != favorites[0].id {
      var j :| 0 <= j < |rest| && rest[j] == f;
      assert favorites[j + 1] == f;
    }
  }

  /** Removing an entry's id takes out exactly that entry, when ids are unique. */
  lemma {:induction false} RemoveOnlyEntry(favorites: seq<FavoriteItem>, k: nat)
    requires k < |favorites|
    requires forall j :: 0 <= j < |favorites| && j != k ==> favorites[j].id != favorites[k].id
    ensures FavoritesRemove(favorites, favorites[k].id) == favorites[..k] + favorites[k + 1..]
    decreases k
  {
    var id := favorites[k].id;
    if k == 0 {
      RemoveHeadEntry(favorites);
    } else {
      var rest := favorites[1..];
      assert rest[k - 1] == favorites[k];
      forall j | 0 <= j < |rest| && j != k - 1 ensures rest[j].id != id {
        assert rest[j] == favorites[j + 1];
      }
      RemoveOnlyEntry(rest, k - 1);
      var a, b := favorites[1..k], favorites[k + 1..];
      assert rest[..k - 1] == a && rest[k..] == b;
      calc {
        FavoritesRemove(favorites, id);
        [favorites[0]] + FavoritesRemove(rest, id);
        [favorites[0]] + (a + b);
        ([favorites[0]] + a) + b;
        { assert [favorites[0]] + a == favorites[..k]; }
        favorites[..k] + b;
      }
    }
  }

  lemma FavoritedWithoutAt(favorites: seq<FavoriteItem>, k: nat, pid: string)
    requires UniqueProducts(favorites) && k < |favorites|
    ensures IsFavorite(favorites[..k] + favorites[k + 1..], pid)
        <==> IsFavorite(favorites, pid) && pid != favorites[k].product.id
  {
    var pre, post := favorites[..k], favorites[k + 1..];
    var r := pre + post;
    if IsFavorite(r, pid) {
      var i :| 0 <= i < |r| && r[i].product.id == pid;
      if i < k {
        assert r[i] == pre[i] == favorites[i];
      } else {
        assert r[i] == post[i - k] == favorites[i + 1];
      }
    }
    if IsFavorite(favorites, pid) && pid != favorites[k].product.id {
      var j :| 0 <= j < |favorites| && favorites[j].product.id == pid;
      if j < k {
        assert r[j] == pre[j] == favorites[j];
      } else {
        assert r[j - 1] == post[j - 1 - k] == favorites[j];
      }
    }
  }

  /** Taking out the entry at `k` unfavorites exactly its product, when no other entry has it. */
  lemma FavoritedWithout(favorites: seq<FavoriteItem>, k: nat)
    requires UniqueProducts(favorites) && k < |favorites|
    ensures forall pid :: IsFavorite(favorites[..k] + favorites[k + 1..], pid)
                      <==> IsFavorite(favorites, pid) && pid != favorites[k].product.id
  {
    forall pid
      ensures IsFavorite(favorites[..k] + favorites[k + 1..], pid)
          <==> IsFavorite(favorites, pid) && pid != favorites[k].product.id
    {
      FavoritedWithoutAt(favorites, k, pid);
    }
  }

  /** Removing the id of the entry at `k` from a list that keeps the invariant takes out
      exactly that entry and unfavorites exactly its product. */
  lemma RemoveEntry(favorites: seq<FavoriteItem>, k: nat)
    requires FavoritesInvariant(favorites) && k < |favorites|
    ensures FavoritesRemove(favorites, favorites[k].id) == favorites[..k] + favorites[k + 1..]
    ensures forall pid :: IsFavorite(FavoritesRemove(favorites, favorites[k].id), pid)
                      <==> IsFavorite(favorites, pid) && pid != favorites[k].product.id
  {
    forall j | 0 <= j < |favorites| && j != k
      ensures favorites[j].id != favorites[k].id
    {
      DistinctIds(favorites, j, k);
    }
    RemoveOnlyEntry(favorites, k);
    FavoritedWithout(favorites, k);
  }

  // ---------------------------------------------------------------------------------------
  // toggleFavorite

  /** toggleFavorite flips whether the product is a favorite, leaves every other product id as
      it was, and keeps the invariant. */
  lemma ToggleFlips(favorites: seq<FavoriteItem>, product: Product, now: nat)
    requires FavoritesInvariant(favorites)
    ensures FavoritesInvariant(FavoritesToggle(favorites, product, now))
    ensures IsFavorite(FavoritesToggle(favorites, product, now), product.id)
        <==> !IsFavorite(favorites, product.id)
    ensures forall pid :: pid != product.id ==>
              (IsFavorite(FavoritesToggle(favorites, product, now), pid) <==> IsFavorite(favorites, pid))
  {
    match FindFavorite(favorites, product.id)
    case Some(k) =>
      RemoveEntry(favorites, k);
      FavoritesRemoveKeepsInvariant(favorites, favorites[k].id);
    case None =>
      FavoritesAddKeepsInvariant(favorites, product, now);
  }

  /** Toggling a product that is not a favorite twice gives back the very same list: the entry
      the first toggle appends is the only one the second toggle removes. */
  lemma ToggleTwiceFromAbsent(favorites: seq<FavoriteItem>, product: Product, now1: nat, now2: nat)
    requires FavoritesInvariant(favorites) && !IsFavorite(favorites, product.id)
    ensures FavoritesToggle(FavoritesToggle(favorites, product, now1), product, now2) == favorites
  {
    var once := FavoritesToggle(favorites, product, now1);
    assert once == favorites + [NewFavorite(product, now1)];
    FavoritesAddKeepsInvariant(favorites, product, now1);
    var k := |favorites|;
    assert once[k].product.id == product.id;
    assert FindFavorite(once, product.id) == Some(k);
    RemoveEntry(once, k);
    assert once[..k] + once[k + 1..] == favorites;
  }

  /** Toggling a favorited product twice keeps the same favorited product ids, but its entry
      moves to the end with a new id and date. */
  lemma ToggleTwiceFromPresent(favorites: seq<FavoriteItem>, product: Product, now1: nat, now2: nat, k: nat)
    requires FavoritesInvariant(favorites)
    requires k < |favorites| && favorites[k].product.id == product.id
    ensures FavoritesToggle(FavoritesToggle(favorites, product, now1), product, now2)
         == favorites[..k] + favorites[k + 1..] + [NewFavorite(product, now2)]
    ensures forall pid :: IsFavorite(FavoritesToggle(FavoritesToggle(favorites, product, now1), product, now2), pid)
                      <==> IsFavorite(favorites, pid)
  {
    var found := FindFavorite(favorites, product.id);
    assert found == Some(k);
    RemoveEntry(favorites, k);
    var once := favorites[..k] + favorites[k + 1..];
    assert !IsFavorite(once, product.id);
    assert FavoritesToggle(favorites, product, now1) == once;
    assert FavoritesToggle(once, product, now2) == once + [NewFavorite(product, now2)];
  }

  // ---------------------------------------------------------------------------------------
  // Worked scenario

  /** Favoriting product "7" at clock reading 2024 gives the entry id "7-2024". */
  lemma ScenarioEntryId()
    ensures FavoriteId("7", 2024) == "7-2024"
  {
    assert NatToDecimal(2) == "2";
    assert NatToDecimal(20) == "20";
    assert NatToDecimal(202) == "202";
  }
}
