# Shopping-cart line-item store

A Dafny model of the cart provider of the GoMarketPlace mobile storefront
(`src/hooks/cart.tsx`). The cart is an ordered list of products, each with an
id, title, image URL, price and quantity. Three operations change it:

- `addToCart(product)` looks the product up by id. A product already in the
  cart has its quantity raised by one, and its stored fields are kept. A new
  product is appended with quantity 1.
- `increment(id)` raises the quantity of the entry with that id by one. It
  throws `Product Id not found` when no entry has the id.
- `decrement(id)` lowers the quantity when it is above 1 and removes the entry
  otherwise. It throws the same error for an unknown id.

All of it lives in `cart.dfy`, module `Cart`:

- Pure specification functions describe each operation on a value of the
  cart. `IndexOf` is the lookup that `find` followed by `indexOf` performs.
  `Added`, `Incremented` and `Decremented` give the cart after each operation.
  Each throw becomes a `Failure` carrying the same message.
- Lemmas state what the operations promise. Only the targeted entry changes.
  Order is kept. Removal happens at quantity 1 or below. Ids stay unique and
  quantities stay at least 1. Some operations undo others.
- Class `CartStore` holds the provider's state array as a `products` field.
  Its methods `AddToCart`, `Increment` and `Decrement` update it in place. They
  use a linear search (`FindIndex`), then an index update, an append or a
  removal. Each method's postcondition ties the new `products` to the
  specification function of the old one. Each method also keeps `Valid()`:
  unique ids and positive quantities.

The methods do not require `Valid()`. The source accepts whatever array
hydration loaded. The model accepts any array whose quantities are natural
numbers, including duplicate ids and entries with quantity 0. With
duplicates, the first matching entry is the one changed, because `indexOf` of
the object `find` returned is the first index with that id. An entry stored
with quantity 0 is removed by `decrement`, because the source only lowers
quantities that are above 1.

`Fresh` (the pushed literal at src/hooks/cart.tsx:57) and `Bumped` (the
spread that raises the quantity at src/hooks/cart.tsx:52-55 and 77-80) are
helpers without contracts of their own. `AddedAbsent`, `AddedPresent` and
`IncrementedPresent` state what they produce.

`price` is a JavaScript number that is never computed with. The model keeps
it as an opaque `int`.

## Model

| member | source | states |
|---|---|---|
| `Cart.IndexOf` | src/hooks/cart.tsx:47-51 | result is -1 exactly when no entry has the id, otherwise the index of the first entry with that id |
| `Cart.Incremented` | src/hooks/cart.tsx:72-75 | fails exactly when the id is absent, and the failure carries "Product Id not found" |
| `Cart.Added` | src/hooks/cart.tsx:47-58 | afterwards the id is in the cart; the length is unchanged when the id was present and one larger when it was new; every entry with a different id keeps its index and value (`AddedAbsent` and `AddedPresent` state the two cases exactly) |
| `Cart.Decremented` | src/hooks/cart.tsx:94-97 | fails exactly when the id is absent, and the failure carries "Product Id not found" |
| `Cart.AddedAbsent` | src/hooks/cart.tsx:56-57 | a new id appends exactly one entry at the end, with the supplied fields and quantity 1; the prior entries are unchanged and in order |
| `Cart.AddedPresent` | src/hooks/cart.tsx:47-55 | a known id keeps the length; the first matching entry's quantity rises by exactly 1; its stored id, title, image URL and price are kept; no other index changes |
| `Cart.AddedKeepsUnique` | src/hooks/cart.tsx:47-58 | if no two entries share an id before `addToCart`, none do after it |
| `Cart.AddedKeepsPositive` | src/hooks/cart.tsx:47-58 | `addToCart` keeps every quantity at least 1 |
| `Cart.AddedAllKeepsInvariant` | src/hooks/cart.tsx:43-66 | any sequence of `addToCart` calls keeps ids unique and quantities at least 1 |
| `Cart.AddedTwice` | src/hooks/cart.tsx:47-57 | adding a new product twice yields the prior cart plus one entry with the supplied fields and quantity 2 |
| `Cart.AddedPresentIsIncrement` | src/hooks/cart.tsx:50-55 | on an id already in the cart, `addToCart` changes the cart exactly as `increment` does |
| `Cart.IncrementedAbsent` | src/hooks/cart.tsx:72-75 | `increment` of an absent id fails with "Product Id not found" (a corollary of the `Incremented` contract, written as one equation) |
| `Cart.IncrementedPresent` | src/hooks/cart.tsx:76-80 | `increment` of a present id raises the first match's quantity by 1 at the same index; the length and every other entry are unchanged |
| `Cart.IncrementedKeepsInvariant` | src/hooks/cart.tsx:72-80 | `increment` keeps ids unique and quantities at least 1 |
| `Cart.DecrementedAbsent` | src/hooks/cart.tsx:94-97 | `decrement` of an absent id fails with "Product Id not found" (a corollary of the `Decremented` contract, written as one equation) |
| `Cart.DecrementedAboveOne` | src/hooks/cart.tsx:100-104 | when the first match's quantity is above 1, `decrement` lowers it by exactly 1; nothing else changes |
| `Cart.DecrementedRemoves` | src/hooks/cart.tsx:105-107 | when the first match's quantity is at most 1, `decrement` deletes exactly that index; the length drops by 1 and the other entries keep their relative order |
| `Cart.DecrementedKeepsInvariant` | src/hooks/cart.tsx:94-107 | `decrement` keeps ids unique and quantities at least 1 |
| `Cart.DecrementUndoesIncrement` | src/hooks/cart.tsx:76-80 | on a cart whose quantities are all at least 1, `decrement` after a successful `increment` of the same id restores the cart |
| `Cart.DecrementUndoesFreshAdd` | src/hooks/cart.tsx:56-57 | `decrement` of a product just added under a new id restores the prior cart |
| `Cart.CartStore.constructor` | src/hooks/cart.tsx:29 | the store starts with an empty product list, which satisfies the invariant |
| `Cart.CartStore.FindIndex` | src/hooks/cart.tsx:47-51 | the linear search returns the index `IndexOf` describes |
| `Cart.CartStore.AddToCart` | src/hooks/cart.tsx:43-66 | the new product list is `Added` of the old one; unique ids and positive quantities are preserved |
| `Cart.CartStore.Increment` | src/hooks/cart.tsx:68-88 | an absent id reports "Product Id not found" and leaves the list unchanged; otherwise the new list is `Incremented` of the old one; the invariant is preserved |
| `Cart.CartStore.Decrement` | src/hooks/cart.tsx:90-115 | an absent id reports "Product Id not found" and leaves the list unchanged; otherwise the new list is `Decremented` of the old one; the invariant is preserved |

## Left out

- Hydration from AsyncStorage and `JSON.parse` (src/hooks/cart.tsx:31-41). This is asynchronous I/O through a foreign key-value library, so the hydration round trip is not modelled. The model starts from whatever `products` holds.
- Persisting with `AsyncStorage.setItem` and `JSON.stringify` after each operation (src/hooks/cart.tsx:60-63, 82-85, 109-112). This is I/O. Line 111 serialises `products` where the other two serialise `cartProducts`. Both names refer to the same array, so the sequential model is unaffected.
- React plumbing (src/hooks/cart.tsx:26-28, 59, 81, 108, 117-122): the context, the `setProducts` re-render notification, `useCallback`/`useMemo` and the provider markup. The `useState` hook (src/hooks/cart.tsx:29) is not modelled either, apart from its initial `[]`, which the constructor models. The copy handed to `setProducts` holds the same entries as the `products` field in the model.
- `useCart`'s "must be used within a CartProvider" check (src/hooks/cart.tsx:125-133). It is a framework context lookup with no cart logic.
- The lost-update race between overlapping asynchronous calls that captured a stale `products`. This is concurrency, and the model runs operations one at a time.
- `quantity` as a JavaScript number: the model's `nat` leaves out the negative or fractional quantities that hydration could load (1.5 is lowered to 0.5 and then removed; -1 is raised to 0). It also leaves out the inexact `+ 1` from 2^53 upwards, so `AddedPresent`, `IncrementedPresent` and the store methods promise an exact increment that the source stops delivering at that size. `DecrementUndoesIncrement` fails in the source at that size too: the increment leaves 2^53 unchanged and the decrement then yields 2^53 - 1.
- `price` as a floating-point number. It is never computed with, so the model keeps it opaque as an `int`.
- Extra fields a caller might spread into `addToCart`'s argument. The model's `NewProduct` carries exactly the four declared fields.
