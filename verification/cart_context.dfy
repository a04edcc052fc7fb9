/**
 * The cart container and its access hook (src/hooks/cart.tsx): the state
 * `products`, the snapshot persisted under the storage key
 * '@GoMarket:products', the three operations that replace both, the restore
 * on mount, and the `useCart` guard against a missing provider.
 */
module CartContext {
  import opened CartOps

  /**
   * The provider's state. `products` is the in-memory list; `stored` is the
   * device-storage entry for '@GoMarket:products', `None` while the key is
   * absent. A snapshot is held as the list itself (its JSON text is not modelled).
   * Calls run one after another, each on the state the previous one left.
   */
  class CartProvider {
    var products: seq<Product>
    var stored: Option<seq<Product>>

    /** Mounting: the list starts empty; storage holds whatever an earlier session left. */
    constructor (storage: Option<seq<Product>>)
      ensures products == [] && stored == storage
    {
      products := [];
      stored := storage;
    }

    /** `loadProducts`: a stored snapshot replaces the list; with none, the list is kept. */
    method LoadProducts()
      modifies this
      ensures stored == old(stored)
      ensures old(stored).Some? ==> products == old(stored).value
      ensures old(stored).None? ==> products == old(products)
    {
      if stored.Some? {
        products := stored.value;
      }
    }

    /**
     * `addToCart`: the list becomes `Added(products, item)`, but the snapshot
     * written to storage is the list captured before the update, so the stored
     * cart is one `addToCart` behind the displayed one.
     */
    method AddToCart(item: NewProduct)
      modifies this
      ensures products == Added(old(products), item)
      ensures stored == Some(old(products))
      ensures stored.value != products
      ensures UniqueIds(old(products)) ==> UniqueIds(products) && UniqueIds(stored.value)
    {
      var before := products;
      products := Added(products, item);
      stored := Some(before);
      AddedChanges(before, item);
      if UniqueIds(before) {
        AddedKeepsIdsUnique(before, item);
      }
    }

    /** `increment`: the list and the stored snapshot both become the incremented list. */
    method Increment(id: string)
      modifies this
      ensures products == Incremented(old(products), id)
      ensures stored == Some(products)
      ensures UniqueIds(products) <==> UniqueIds(old(products))
    {
      var handled := Incremented(products, id);
      AdjustKeepsIdsUnique(products, id);
      products := handled;
      stored := Some(handled);
    }

    /** `decrement`: the list and the stored snapshot both become the decremented list. */
    method Decrement(id: string)
      modifies this
      ensures products == Decremented(old(products), id)
      ensures stored == Some(products)
      ensures UniqueIds(products) <==> UniqueIds(old(products))
    {
      var handled := Decremented(products, id);
      AdjustKeepsIdsUnique(products, id);
      products := handled;
      stored := Some(handled);
    }
  }

  /** The outcome of `useCart`: the enclosing provider, or the error it throws. */
  datatype CartLookup = Found(cart: CartProvider) | MissingProvider(message: string)

  const MissingProviderMessage: string := "useCart must be used within a CartProvider"

  /**
   * `useCart`: `context` is the nearest enclosing provider, `None` outside any.
   * It yields that provider, and fails exactly when there is none.
   */
  function UseCart(context: Option<CartProvider>): (r: CartLookup)
    ensures r.Found? <==> context.Some?
    ensures r.Found? ==> r.cart == context.value
    ensures r.MissingProvider? ==> r.message == MissingProviderMessage
  {
    match context
    case Some(cart) => Found(cart)
    case None => MissingProvider(MissingProviderMessage)
  }
}
