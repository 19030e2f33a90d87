# Shopping cart: a Dafny model

This project models a small shopping-cart domain made of two classes.

- `CartItem` is one cart line. It pairs an article id with a quantity and a unit price. Its `total` is quantity times price.
- `Cart` holds a list of such items, or no list at all. From that list it computes the price total and the item count. Its `updateCart` operation reconciles the list with a newly supplied one.

The repository has two versions of the cart:

- `src/Cart/Cart.js`, the current one, with `count` and `updateCart`;
- `src/Cart.js`, an earlier one, with only the `items` getter and `totalPrice`.

Both versions are modelled.

Modules:

- `Errors`: one tag per exception the classes throw (`InvalidArticleId`, `EmptyCart`, `UpdateCart`).
  - `Result` and `Outcome` carry those tags back to the caller.
  - `Option` gives the two states of a cart's list: `None` is the source's `null`, `Some(xs)` a present list, possibly empty.
- `Items`: class `CartItem`.
  - `articleId` is a `const nat`. It is set once and never below zero.
  - `quantity` and `price` are mutable fields. The source's getters are plain reads of these fields.
  - The static method `Create` is the source's checking constructor. The anonymous constructor is the part that runs after the check has passed.
- `ItemLists`: the two aggregates over a list of items.
  - `SumTotals` is the sum of `quantity * price`. `SumQuantities` is the sum of quantities.
  - Lemmas prove that both sums are additive over concatenation and do not depend on the order of the items.
- `Reconciliation`: the list merge that `updateCart` performs when the cart already holds a list.
  - It is generic in the entry type, because the only comparison is membership (`Array.prototype.includes`). For cart items, which are objects, membership means reference identity. A Dafny class gives exactly that.
  - `Kept` and `Added` are the two `filter` calls. `Reconcile` is their concatenation.
- `CurrentCart`: class `Cart` of `src/Cart/Cart.js`.
- `EarlyCart`: class `Cart` of `src/Cart.js`.

Notes on the behaviour modelled:

- `Reconcile(current, incoming)` is always a rearrangement of `incoming`.
  - The entries the cart already held come first, then the new ones, each group in `incoming`'s order.
  - The cart's previous list only decides the order. Any entry not in `incoming` is dropped.
  - So a second `updateCart` with the same list sets the list to exactly that list. The price total and the count after an update always equal those of the given list.
- The item constructor rejects only a negative article id, so an id of 0 is accepted. Its doc comment and error message speak of ids "smaller than 1". The model follows the code.
- The doc comment of `updateCart` promises to update quantities and to remove lines whose quantity becomes 0. The code only keeps, adds and drops whole entries by membership, and the model follows the code.
- `count(true)` counts list entries, not distinct items: the same `CartItem` listed twice counts 2, whatever the parameter name `distinct` suggests. The model follows the code.
- Quantities and prices are unbounded integers, e.g. a price in centimes. Totals are therefore exact sums and products.

## Model

| member | source | states |
|---|---|---|
| `Items.CartItem.Create` | src/CartItem.js:33-39 | fails with InvalidArticleId exactly when the article id is negative (so 0 is accepted); on success the new item's id, quantity and price are the arguments, with no check on quantity or price |
| `Items.CartItem.constructor` | src/CartItem.js:36-38 | the article id, quantity and price read back by the getters are exactly the constructor arguments |
| `Items.CartItem.Total` | src/CartItem.js:83-85 | the current quantity times the current price, recomputed from the fields on every read |
| `Items.CartItem.SetQuantity` | src/CartItem.js:60-62 | any value is accepted; afterwards quantity is that value, price and article id are unchanged, and the total is the new quantity times the old price |
| `Items.CartItem.SetPrice` | src/CartItem.js:76-78 | any value is accepted; afterwards price is that value, quantity and article id are unchanged, and the total is the old quantity times the new price |
| `ItemLists.SumTotalsAppend` | src/Cart/Cart.js:45-49 | the price total of two lists joined is the sum of their price totals |
| `ItemLists.SumQuantitiesAppend` | src/Cart/Cart.js:56-62 | the quantity total of two lists joined is the sum of their quantity totals |
| `ItemLists.SumTotalsPermutation` | src/Cart/Cart.js:45-49 | two lists holding the same items with the same multiplicities have the same price total |
| `ItemLists.SumQuantitiesPermutation` | src/Cart/Cart.js:56-62 | two lists holding the same items with the same multiplicities have the same quantity total |
| `Reconciliation.Kept` | src/Cart/Cart.js:81 | no more entries than the new list; an entry is kept if and only if it is in both the new list and the current list |
| `Reconciliation.Added` | src/Cart/Cart.js:82 | no more entries than the new list; an entry is added if and only if it is in the new list and not in the current list |
| `Reconciliation.PartsPartitionIncoming` | src/Cart/Cart.js:81-82 | kept and added entries together are the new list's entries with their multiplicities |
| `Reconciliation.Reconcile` | src/Cart/Cart.js:83-84 | the kept entries followed by the added ones; always a permutation of the new list: same multiset, same length |
| `Reconciliation.ReconcileMembership` | src/Cart/Cart.js:81-84 | an entry is in the reconciled list if and only if it is in the new list; a current entry absent from the new list is dropped |
| `Reconciliation.ReconcileOrder` | src/Cart/Cart.js:83-84 | the reconciled list is a prefix of entries all found in the current list followed by a suffix of entries none of which is |
| `Reconciliation.KeptAll` | src/Cart/Cart.js:81 | when every new entry is already in the cart, the kept part is the whole new list in its order |
| `Reconciliation.AddedNone` | src/Cart/Cart.js:82 | when every new entry is already in the cart, nothing is added |
| `Reconciliation.ReconcileKnownEntries` | src/Cart/Cart.js:81-84 | when every new entry is already in the cart, the result is exactly the new list |
| `Reconciliation.ReconcileUnknownEntries` | src/Cart/Cart.js:81-84 | when no new entry is in the cart, the result is exactly the new list |
| `Reconciliation.ReconcileTwice` | src/Cart/Cart.js:81-84 | reconciling with a list right after reconciling with it sets the list to exactly that list |
| `Reconciliation.ReconcileExample` | src/Cart/Cart.js:81-84 | holding [a, b] and updating with [b, c] gives [b, c]: b kept, a dropped, c added |
| `Reconciliation.ReconcileReorders` | src/Cart/Cart.js:81-84 | holding [b] and updating with [a, b] gives [b, a], not [a, b]: a first reconciling update can reorder the given list |
| `CurrentCart.Cart.constructor` | src/Cart/Cart.js:26-28 | the list is the argument as given; with no argument the list is absent |
| `CurrentCart.Cart.Items` | src/Cart/Cart.js:34-38 | fails with EmptyCart if and only if the list is absent; otherwise returns the stored list unchanged |
| `CurrentCart.Cart.TotalPrice` | src/Cart/Cart.js:45-49 | fails with EmptyCart on an absent list; otherwise the sum of quantity * price over the items, 0 for a present empty list |
| `CurrentCart.Cart.Count` | src/Cart/Cart.js:56-62 | fails with EmptyCart on an absent list; with distinct, the number of entries; otherwise the sum of the quantities |
| `CurrentCart.Cart.UpdateCart` | src/Cart/Cart.js:71-87 | an absent argument fails with UpdateCart and leaves the list as it was; an absent list becomes the argument verbatim; a present list becomes the kept entries followed by the added ones; after any success the list is a permutation of the argument |
| `CurrentCart.ReconcileKeepsAggregates` | src/Cart/Cart.js:81-84 | the reconciled list has the same price total, quantity total and length as the new list |
| `EarlyCart.Cart.constructor` | src/Cart.js:23-25 | the list is the argument as given; with no argument the list is absent |
| `EarlyCart.Cart.Items` | src/Cart.js:31-35 | fails with EmptyCart if and only if the list is absent; otherwise returns the stored list unchanged |
| `EarlyCart.Cart.TotalPrice` | src/Cart.js:41-45 | fails with EmptyCart on an absent list, through the items getter; otherwise the sum of quantity * price over the items, 0 for a present empty list |

## Left out

- Floating point: JS numbers are doubles, and `totalPrice` starts from `0.`. The model uses exact integers, so rounding is not modelled.
- Aliasing of the list: the constructor, and `updateCart` on a cart with no list, store the caller's array itself (src/Cart/Cart.js:27, 78; src/Cart.js:24). The reconciling branch stores a new array built by `concat` (src/Cart/Cart.js:84). The `items` getter returns the internal array itself (src/Cart/Cart.js:37; src/Cart.js:34), so a caller pushing onto it changes the cart. The model stores and returns `seq` values, so it captures none of this array sharing. Aliasing of the items themselves is captured: the aggregates read the current fields of the shared `CartItem` objects.
- The private helpers `#exists`, `#updateQuantity` and `#removeCartItem` (src/Cart/Cart.js:92-102) are not modelled. They only throw and are never called.
- The quantity update and remove-on-zero behaviour described in the `updateCart` doc comment is not modelled, because the code does not do it.
- The quantity and price checks promised in the CartItem doc comments (InvalidQuantityException, InvalidPriceException) are not modelled, because no code throws them.
- The exception classes are not part of this model: each one is an error tag. Their messages are not modelled.
- Dynamic typing is not modelled: non-array arguments, `undefined` in place of `null`, and non-integer article ids.
