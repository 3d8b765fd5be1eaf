/** The records of src/types/index.ts. Prices are exact decimals (`real`); quantities are
    natural numbers; a clock reading is a natural number of milliseconds. */
module StoreTypes {

  datatype Option<+T> = None | Some(value: T)

  datatype Product = Product(
    id: string,
    name: string,
    price: real,
    originalPrice: Option<real>,
    image: string,
    images: seq<string>,
    description: string,
    category: string,
    inStock: Option<bool>,
    isNew: Option<bool>,
    isBestSeller: Option<bool>,
    stripeProductId: Option<string>)

  /** One cart line: a snapshot of the product and how many of it. */
  datatype CartItem = CartItem(product: Product, quantity: nat)

  /** The cart state: its lines in insertion order and the stored total. */
  datatype Cart = Cart(items: seq<CartItem>, total: real)

  /** A favorite: its own entry id, the product snapshot and when it was added. */
  datatype FavoriteItem = FavoriteItem(id: string, product: Product, addedAt: nat)
}
