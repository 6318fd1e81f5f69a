# RocketShoes cart state machine in Dafny

This project models the shopping cart of the RocketShoes store front. The cart is
held by `CartProvider` in `src/hooks/useCart.tsx`. It is an ordered list of line
items, each a catalogue product with an `id` and a wanted `amount`. Three entry
points change it:

- `addProduct` adds one unit of a product, checked against the product's stock.
- `removeProduct` drops a product's line.
- `updateProductAmount` sets a line's quantity, also checked against stock.

Every failure leaves the cart as it was and shows a toast. There is one message per
operation and one out-of-stock message that add and update share. After each render
the provider writes the cart to `localStorage` if a new cart array was committed since
the previous render. At start-up it reloads the stored cart.

Layout:

- `cart_logic.dfy` (module `CartLogic`) holds the data model and the three
  transitions as pure functions. Each function takes the cart and the answers of the
  remote lookups, and returns the cart to commit and the outcome (`Step`).
- `cart_properties.dfy` (module `CartProperties`) holds the lemmas about those
  transitions:
  - what each success does, and what each error path does;
  - the stock ceiling;
  - the consistency rules (distinct ids, quantities of at least 1), over one call and over any sequence of calls;
  - undoing an add or an update;
  - the worked scenarios.
- `cart_provider.dfy` (module `CartStore`) holds the imperative provider:
  - the class `CartProvider`, with the committed `cart`, the cart seen at the previous persistence pass (`lastPersisted`), whether a commit happened since then (`committed`) and the stored snapshot (`storage`);
  - its entry points, each proved to compute exactly the matching transition;
  - the persistence pass;
  - the `findIndex` search as a loop.

Modelling choices:

- **Lookups.** The HTTP lookups (`/stock/:id` and `/products/:id`) are parameters of
  type `Option`. `None` means the request failed.
- **Toasts.** A toast is the returned `Outcome`. `Message` gives its text.
- **Items are values.** The source writes the new amount into the found line object.
  That object is also in the previous state array. When calls do not overlap, nothing
  reads that array again except a reference comparison. So with value items the model
  observes the same thing. The model never alters the cart it started from.
- **New lines.** A new line is the fetched product with `amount` set to 1. Its `id`
  therefore comes from the product lookup, as in the source. Ids stay distinct when
  the lookup answers with the product that was asked for (`CatalogAnswers`).
- **The loaded cart.** It is not checked against stock or for consistency, so the
  consistency rules are stated as "preserved from a consistent cart", not as a class
  invariant.

Reading and writing the storage:

- **Unreadable snapshot.** An unreadable snapshot is not caught. `JSON.parse`
  (src/hooks/useCart.tsx:29) throws during the first render, so the provider cannot
  start. `LoadCart` gives `None` for such a snapshot, and the constructor requires a
  readable one.
- **Persistence compares references.** The write decision compares array references
  (src/hooks/useCart.tsx:41-44). Every commit hands `setCart` a new array. So the pass
  writes after every commit, even one whose contents equal the previous cart's (an
  update to the quantity a line already has). It does not write after a render without
  a commit. The model records commits in the field `committed`, and the pass writes
  exactly when it is set.

## Model

| member | source | states |
|---|---|---|
| CartLogic.Message | src/hooks/useCart.tsx:70-139 | an outcome has a toast exactly when it is a failure |
| CartLogic.FirstIndex | src/hooks/useCart.tsx:98 | the result is -1 exactly when no line has the id, otherwise the position of the first line that has it |
| CartLogic.CurrentAmount | src/hooks/useCart.tsx:55-63 | 0 when the product is absent, otherwise the quantity of the first line with that id |
| CartLogic.Add | src/hooks/useCart.tsx:49-93 | add ends in Ok, OutOfStock or AddFailed, and any outcome other than Ok leaves the cart unchanged |
| CartLogic.Remove | src/hooks/useCart.tsx:95-109 | remove succeeds exactly when the id is in the cart, and a failure leaves the cart unchanged |
| CartLogic.UpdateAmount | src/hooks/useCart.tsx:111-141 | update ends in Ok, OutOfStock or UpdateFailed, and any outcome other than Ok leaves the cart unchanged |
| CartProperties.MessagesDistinct | src/hooks/useCart.tsx:70-139 | the four failure outcomes show four different messages |
| CartProperties.LookupFailureChangesNothing | src/hooks/useCart.tsx:58-92 | a failed stock lookup makes add report its generic error and update (positive amount) report its own, with the cart unchanged |
| CartProperties.AddOutOfStock | src/hooks/useCart.tsx:60-72 | when the held quantity (0 if absent) plus one exceeds the stock, add reports out of stock and changes nothing |
| CartProperties.AddExisting | src/hooks/useCart.tsx:74-87 | adding a product already in the cart raises its first line by exactly one and keeps the length, the id order and every other line; the product lookup is not consulted |
| CartProperties.AddNew | src/hooks/useCart.tsx:76-92 | adding an absent product appends the fetched product with quantity 1 after all existing lines; a failed product lookup is an add failure with no change |
| CartProperties.RemoveFirstMatch | src/hooks/useCart.tsx:97-102 | removing an id in the cart drops exactly its first line; the lines before and after keep their order and the multiset loses only that line |
| CartProperties.RemoveLeavesNoMatch | src/hooks/useCart.tsx:98-101 | in a cart with distinct ids, no line with the removed id is left |
| CartProperties.UpdateNonPositiveIgnored | src/hooks/useCart.tsx:116-118 | a quantity of 0 or less leaves the cart unchanged with no error, whatever the stock lookup would answer |
| CartProperties.UpdateDecisionOrder | src/hooks/useCart.tsx:120-137 | for a positive quantity: beyond stock means out of stock even when the line is absent; within stock, an absent line is an update failure and a present one gets exactly that quantity, everything else unchanged |
| CartProperties.AddWithinStock | src/hooks/useCart.tsx:60-87 | a successful add saw a stock value, every new or changed line is within it, and the cart grows by at most one line |
| CartProperties.UpdateWithinStock | src/hooks/useCart.tsx:120-134 | a successful update saw a stock value; the only changed line holds the quantity asked for, which is within that stock |
| CartProperties.AddPreservesWellFormed | src/hooks/useCart.tsx:55-87 | from a cart with distinct ids and quantities of at least 1, add keeps both (when the product lookup answers with the requested id) |
| CartProperties.RemovePreservesWellFormed | src/hooks/useCart.tsx:97-102 | remove keeps ids distinct and quantities at least 1 |
| CartProperties.UpdatePreservesWellFormed | src/hooks/useCart.tsx:116-134 | update keeps ids distinct and quantities at least 1 |
| CartProperties.AddThenRemove | src/hooks/useCart.tsx:76-102 | removing a product just added as a new line restores the cart from before the add |
| CartProperties.UpdateThenRestore | src/hooks/useCart.tsx:129-134 | setting a line back to its previous quantity undoes an update |
| CartProperties.UpdateIdempotent | src/hooks/useCart.tsx:111-141 | repeating an update with the same quantity and stock changes nothing more and repeats the outcome |
| CartProperties.RunPreservesWellFormed | src/hooks/useCart.tsx:49-141 | any sequence of add, remove and update calls keeps ids distinct and quantities at least 1 |
| CartProperties.FailedRunChangesNothing | src/hooks/useCart.tsx:49-141 | a sequence of calls that all fail leaves the cart exactly as it was |
| CartProperties.ScenarioAddToEmpty | src/hooks/useCart.tsx:76-87 | empty cart, 5 in stock: adding product 1 gives one line of it with quantity 1 |
| CartProperties.ScenarioAddBeyondStock | src/hooks/useCart.tsx:60-72 | one unit held, one in stock: adding another is out of stock and the cart is unchanged |
| CartProperties.ScenarioUpdateToZero | src/hooks/useCart.tsx:116-118 | setting quantity 0 on a line of 2 changes nothing and reports no error |
| CartProperties.ScenarioRemoveLast | src/hooks/useCart.tsx:97-102 | removing the only line empties the cart |
| CartStore.LoadCart | src/hooks/useCart.tsx:25-33 | nothing stored gives the empty cart, a snapshot gives its items, and only unreadable text gives no cart |
| CartStore.FindIndex | src/hooks/useCart.tsx:98 | the loop finds the first line with the id, or -1 exactly when the id is absent |
| CartStore.CartProvider.constructor | src/hooks/useCart.tsx:25-41 | the cart starts as the loaded snapshot or empty, is taken as already persisted with no commit pending, and the storage reloads to it |
| CartStore.CartProvider.AddProduct | src/hooks/useCart.tsx:49-93 | the new cart and the outcome are exactly those of Add on the old cart, and a commit is recorded exactly when add succeeds |
| CartStore.CartProvider.RemoveProduct | src/hooks/useCart.tsx:95-109 | the new cart and the outcome are exactly those of Remove on the old cart, and a commit is recorded exactly when remove succeeds |
| CartStore.CartProvider.UpdateProductAmount | src/hooks/useCart.tsx:111-141 | the new cart and the outcome are exactly those of UpdateAmount on the old cart, and a commit is recorded exactly when a positive quantity is set |
| CartStore.CartProvider.PersistIfChanged | src/hooks/useCart.tsx:35-47 | writes exactly when a commit happened since the previous pass, even one with equal contents; afterwards no commit is pending and the storage reloads to the current cart |
| CartStore.ScenarioRemoveAndPersist | src/hooks/useCart.tsx:95-109 | a stored cart of one line of product 2: removing it succeeds, and the next pass writes the empty cart |
| CartStore.ScenarioUpdateSameAmount | src/hooks/useCart.tsx:129-134 | setting a line to the quantity it already has succeeds, leaves an equal cart, and the next pass still writes |
| CartStore.ScenarioAddTwice | src/hooks/useCart.tsx:49-93 | with 1 in stock: a failed product lookup is an add failure, the next add appends one unit, and the one after is out of stock |

## Left out

- React plumbing: the context, `useContext`, `useState`, `useRef`, the scheduling of `useEffect` and the JSX provider. One pass of the two effects is the method `PersistIfChanged`.
- The HTTP client: the stock and product lookups are `Option` parameters, and a failed request is `None`.
- A stock answer without an `amount` field: the source would compare with `undefined` and let the change through. The model's stock answer is always a number.
- `toast.error`: it is replaced by the returned `Outcome`, and `Message` gives its text.
- JSON serialisation and `localStorage`: the stored value is a `Stored` datatype. It is absent, a parsed list of items, or unreadable. A stored `null` and other non-list JSON are not modelled.
- A `localStorage.setItem` that throws: this is not modelled, and the pass always writes.
- Overlapping asynchronous calls: each source operation reads `cart` before awaiting its lookups, so two calls in flight can race. The model runs one operation at a time. This also leaves out an effect of the in-place amount write: two `addProduct` calls for the same product from one render share the found line object, so the second sees the first's write and both units are counted.
- Catalogue data other than `id` and `amount`: title and image are opaque strings, and the price, a floating-point number, is not modelled.
- Quantities and stock figures that are not whole numbers: the source's `number` is modelled as `int`.
- CartLogic.Add: the model does not record which remote lookups a call makes. It states instead that add on an existing line gives the same result whatever the product lookup answered.
- CartLogic.UpdateAmount: the model does not record that a non-positive quantity skips the stock lookup. It states instead that such an update gives the same result whatever the stock lookup answered.
