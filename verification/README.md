# Shopping-cart state container, modelled in Dafny

This project models the cart of a mobile storefront app (`src/hooks/cart.tsx`).
The cart holds an ordered list of line items `{id, title, image_url, price, quantity}`.
Three operations change the list:

- `addToCart(item)` merges the item into an existing entry with the same id, or appends it with quantity 1.
- `increment(id)` adds one to the quantity of every entry with that id.
- `decrement(id)` subtracts one from the quantity of every entry with that id. There is no floor.

After every operation the provider replaces its state and writes a snapshot to device storage under the key `@GoMarket:products`.
In `addToCart` the snapshot written is the list as it was *before* the call, because the callback writes the array it captured, not the new one.
`increment` and `decrement` write the new list.
On mount a stored snapshot, when present, replaces the initially empty list.
`useCart` returns the enclosing provider and throws when there is none.

Two modules:

- `CartOps` (`cart_ops.dfy`) holds the line-item datatypes and the transformations as pure recursive functions: `Find`, `AdjustWhere` (shared by `Incremented` and `Decremented`), `MergeInto` and `Added`. It also holds the lemmas about them. `QuantityOf(ps, id)`, the total number of units held under an id, is a view used to state what each operation does to the cart's contents.
- `CartContext` (`cart_context.dfy`) holds the class `CartProvider`. Its fields are `products` and `stored`; `stored` is the storage entry, `None` while the key is absent. Its methods mirror the provider's callbacks. The module also holds `UseCart`, which models the provider guard as a result value: `Found(cart)` or `MissingProvider(message)`.

## Model

| member | source | states |
|---|---|---|
| CartOps.Find | src/hooks/cart.tsx:57 | `find` yields nothing exactly when no entry has the id; otherwise it yields the first entry carrying it |
| CartOps.AdjustWhereAt | src/hooks/cart.tsx:78-82 | the increment/decrement map keeps the length; at each position a matching entry has its quantity moved by delta and every other entry is unchanged |
| CartOps.MergeIntoAt | src/hooks/cart.tsx:61-63 | the addToCart map keeps the length; each matching entry becomes the incoming item with the old quantity plus one, and every other entry is unchanged |
| CartOps.AdjustWhere | src/hooks/cart.tsx:78-82 | the map shared by increment and decrement keeps the length of the list (its element-wise meaning is AdjustWhereAt) |
| CartOps.Incremented | src/hooks/cart.tsx:78-82 | increment keeps length and order and raises each matching quantity by exactly 1, other fields kept; other entries are identical; with no match the list is unchanged |
| CartOps.Decremented | src/hooks/cart.tsx:98-102 | decrement keeps length and order and lowers each matching quantity by exactly 1 with no floor; other entries are identical; with no match the list is unchanged |
| CartOps.IncrementDecrementCancel | src/hooks/cart.tsx:78-102 | decrement after increment, and increment after decrement, both give back exactly the original list |
| CartOps.AdjustKeepsIdsUnique | src/hooks/cart.tsx:78-102 | increment and decrement leave ids untouched, so the result has unique ids if and only if the input did |
| CartOps.IncrementedKeepsPositive | src/hooks/cart.tsx:78-82 | if every quantity is at least 1 before increment, it still is afterwards |
| CartOps.DecrementedReachesZero | src/hooks/cart.tsx:98-102 | decrementing a single entry of quantity 1 gives quantity 0, so positivity is not kept |
| CartOps.AdjustWhereQuantity | src/hooks/cart.tsx:78-102 | on unique ids, the map moves the id's total by delta exactly when the id is present, and leaves every other id's total alone |
| CartOps.AdjustQuantityOf | src/hooks/cart.tsx:78-102 | on unique ids, increment adds one unit of a present product and decrement removes one; other products keep their totals |
| CartOps.MergeInto | src/hooks/cart.tsx:61-63 | the addToCart map keeps the length of the list (its element-wise meaning is MergeIntoAt) |
| CartOps.Added | src/hooks/cart.tsx:57-66 | with the id absent the result is the list plus the item with quantity 1; with it present, length and order are kept, matching entries take the incoming fields with old quantity plus one, others are unchanged |
| CartOps.AddedHasId | src/hooks/cart.tsx:57-66 | after addToCart the cart contains an entry with the item's id |
| CartOps.AddedKeepsIdsUnique | src/hooks/cart.tsx:57-66 | if ids are unique before addToCart, they are unique afterwards |
| CartOps.AddedKeepsPositive | src/hooks/cart.tsx:57-66 | if every quantity is at least 1 before addToCart, it still is afterwards |
| CartOps.AddedChanges | src/hooks/cart.tsx:57-71 | addToCart always changes the list, so the snapshot it persists never equals the list it displays |
| CartOps.MergeIntoAbsent | src/hooks/cart.tsx:60-64 | merging an item whose id is absent leaves the list unchanged |
| CartOps.AppendQuantity | src/hooks/cart.tsx:66 | appending an entry adds its quantity to its own id's total and to no other |
| CartOps.MergeIntoQuantity | src/hooks/cart.tsx:60-64 | on unique ids with the id present, merging adds one unit to that id's total and none to any other |
| CartOps.AddedQuantityOf | src/hooks/cart.tsx:57-66 | on unique ids, addToCart adds exactly one unit of the item's product, present or not, and leaves other products' totals alone |
| CartContext.CartProvider.constructor | src/hooks/cart.tsx:28-29 | a mounted provider starts with an empty list; storage keeps what an earlier session left |
| CartContext.CartProvider.LoadProducts | src/hooks/cart.tsx:31-41 | a present snapshot replaces the list exactly; an absent one leaves the list as it was; storage is not written |
| CartContext.CartProvider.AddToCart | src/hooks/cart.tsx:43-74 | the list becomes the addToCart result; the stored snapshot becomes the list from before the call and differs from the new list; unique ids are kept in both |
| CartContext.CartProvider.Increment | src/hooks/cart.tsx:76-94 | the list becomes the increment result and the stored snapshot equals the new list; unique ids are kept |
| CartContext.CartProvider.Decrement | src/hooks/cart.tsx:96-114 | the list becomes the decrement result and the stored snapshot equals the new list; unique ids are kept |
| CartContext.UseCart | src/hooks/cart.tsx:124-132 | yields the enclosing provider when there is one, and the missing-provider error, with its message, exactly when there is none |

## Left out

- Device-storage I/O and its asynchrony (`getItem`, `setItem` and their `await`). Storage is the field `stored`, written synchronously; storage failures are not modelled.
- JSON serialisation and parsing. A snapshot is the list itself, so a malformed stored payload cannot be expressed.
- React plumbing: `createContext`, `useState`, `useEffect`, `useCallback`, `useMemo` and the rendering of the provider. The provider's state is a class whose methods replace it, and the context value handed out by `useCart` is the provider object.
- The lost update between two calls issued before a re-render. It depends on event-loop interleaving; the model runs calls strictly one after another, each on the state left by the previous one.
- `quantity` is a JavaScript number, modelled as an unbounded `int`. The app only ever writes small whole numbers to it (1 on insertion, then steps of one). Fractional quantities and quantities of 2^53 and above, where floating-point `+ 1` and `- 1` round, are not modelled.
- IncrementDecrementCancel: holds for integer quantities only; with floating-point quantities (0.1, or 2^53 and above) increment followed by decrement need not give back the original list.
- AddedChanges: holds for integer quantities only; at a quantity of 2^53 or above, floating-point `+ 1` rounds back, so addToCart of an item matching a stored entry field for field can leave the list unchanged.
- `price` arithmetic. The price is a JavaScript number that is only copied. It is kept as an `int`, and nothing numeric is stated about it.
- The commented-out earlier implementation of `addToCart` and the commented-out `find` calls. They are dead code.
