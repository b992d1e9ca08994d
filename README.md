# Shopping-cart store, modelled in Dafny

This project models the cart store behind the storefront's `CartProvider` (`src/hooks/useCart.tsx`).
The store owns one piece of state, the cart. The cart is an ordered sequence of line items (`Product`,
with its `amount` in the cart), unique by product id. Every committed change is mirrored wholesale
to the `@RocketShoes:cart` storage slot. Three operations change the cart under the stock rules:

- `addProduct` is meant to bump an existing line item by one unit when the stock is strictly
  larger than its amount; line 50 as written keeps the amount (see Findings). Otherwise it reports
  stock-insufficient. It appends a new line item with one unit when
  the stock is positive, and silently does nothing when the stock is zero.
- `removeProduct` filters the id out, or reports remove-failure when the id is absent.
- `updateProductAmount` rejects an amount below one or above the stock. It then sets the amount
  exactly, or reports update-failure when the id is absent.

Files:

- `wrappers.dfy`: module `Wrappers`, the `Option` type. `None` is an absent storage slot or a
  lookup that threw.
- `cart.dfy`: module `Cart`, with these parts:
  - the datatypes `Product`, `Stock` and `Outcome`. `Outcome` replaces the toast notifications.
  - the pure cart values mirroring `find`, `map` and `filter`: `Find`, `Increment`, `WithAmount`
    and `RemoveId`.
  - lemmas about those values.
  - the class `CartStore`, whose methods commit new values to `cart` and to the ghost slot `stored`.
  - `Walkthrough`, a client of `CartStore`. It follows a single product through add, add, update,
    a refused update and remove. It is a worked example of the store's contracts in use, not part
    of the store, and models no function of the source.

The class invariant is `Synced()`: a store initialised afresh from the slot (`LoadCart(stored)`)
sees exactly the in-memory cart. This is the round trip between writing the cart to storage and
reading it back. Every operation keeps it. Each operation also keeps the cart invariant
`WellFormed` (unique ids, every amount at least one). For `addProduct` this needs the fetched
record to have the requested id.

The HTTP lookups are parameters: `product: Option<Product>` and `stock: Option<Stock>`. `None`
means the call threw, which is the catch path.

## Model

| member | source | states |
|---|---|---|
| `Cart.Find` | src/hooks/useCart.tsx:43 | `find` gives `None` exactly when no line item has the id. Otherwise it gives a line item with that id, and no earlier line item has the id. |
| `Cart.FindAt` | src/hooks/useCart.tsx:43 | With unique ids, `find` gives the one line item at the index carrying the id. |
| `Cart.Increment` | src/hooks/useCart.tsx:47-52 | The existing-item `map` with the increment by one that the guard at line 46 intends. It has no contract of its own; `IncrementAt` and `IncrementPreserves` characterise it. |
| `Cart.IncrementAsWritten` | src/hooks/useCart.tsx:47-52 | The same `map` with line 50 as written (the copy takes the value of `product.amount++`, the old amount). It has no contract of its own; `AsWrittenAddKeepsAmount` characterises it. |
| `Cart.IncrementAt` | src/hooks/useCart.tsx:46-52 | With unique ids, the existing-item map changes only the entry with the id, raising its amount by one. Length, order and all other entries stay the same. |
| `Cart.IncrementPreserves` | src/hooks/useCart.tsx:47-52 | Bumping an amount keeps ids unique and every amount at least one. |
| `Cart.AppendPreserves` | src/hooks/useCart.tsx:59-61 | Appending a product whose id is new, with amount one, keeps ids unique and every amount at least one. |
| `Cart.WithAmount` | src/hooks/useCart.tsx:116-121 | The `map` of `updateProductAmount`. It has no contract of its own; `WithAmountAt` and `WithAmountPreserves` characterise it. |
| `Cart.WithAmountAt` | src/hooks/useCart.tsx:116-121 | With unique ids, the update map sets exactly the entry with the id to the requested amount, not incremented. All other entries stay the same. |
| `Cart.WithAmountPreserves` | src/hooks/useCart.tsx:102-121 | Setting an amount of at least one keeps the cart invariant. |
| `Cart.RemoveId` | src/hooks/useCart.tsx:79 | The filter keeps exactly the line items of the cart whose id differs. It shrinks the cart when the id is present. |
| `Cart.RemoveAbsent` | src/hooks/useCart.tsx:79 | Filtering an absent id leaves the cart as it is. |
| `Cart.RemoveAt` | src/hooks/useCart.tsx:75-81 | With unique ids, removing a present id takes out exactly that one line item. The rest keep their relative order. |
| `Cart.TailPreserves` | src/hooks/useCart.tsx:79 | Dropping the first line item keeps the cart invariant. This is a step of `RemovePreserves`. |
| `Cart.ConsPreserves` | src/hooks/useCart.tsx:79 | A line item whose id occurs in no other item, put in front of a well-formed cart, keeps the invariant. This is a step of `RemovePreserves`. |
| `Cart.RemovePreserves` | src/hooks/useCart.tsx:79-81 | Filtering keeps ids unique and every amount at least one. |
| `Cart.AsWrittenAddKeepsAmount` | src/hooks/useCart.tsx:47-52 | As written, the bump of line 50 leaves every cart exactly as it was. When the id is present, this differs from the intended increment (see Findings). |
| `Cart.LoadCart` | src/hooks/useCart.tsx:25-35 | The `useState` initialiser: the stored sequence, or `[]` for an absent slot. It has no contract of its own; the `CartStore` constructor's contract and the invariant `Synced()` characterise it. |
| `Cart.CartStore.constructor` | src/hooks/useCart.tsx:25-35 | The initial cart is the stored sequence, or `[]` when the slot is absent. The store starts synced with its slot. |
| `Cart.CartStore.Commit` | src/hooks/useCart.tsx:53-54 | `setCart` and the storage write install the same sequence in memory and in the slot. |
| `Cart.CartStore.AddProduct` | src/hooks/useCart.tsx:37-70 | A failed lookup gives add-failure with nothing changed. For an existing id, the amount rises by one iff stock > amount, else stock-insufficient with nothing changed. For a new id, the product is appended with amount 1 iff stock > 0, else a silent no-op. A commit writes the same cart to the slot. The invariant is kept, given the fetched record has the requested id. After an Ok, the item's amount is at most the stock. |
| `Cart.CartStore.RemoveProduct` | src/hooks/useCart.tsx:72-92 | For a present id, the cart becomes the filtered cart and is written to the slot. With unique ids, exactly one item goes and order is kept. An absent id gives remove-failure with nothing changed. Afterwards the id is absent. The invariant is kept. |
| `Cart.CartStore.UpdateProductAmount` | src/hooks/useCart.tsx:94-135 | A failed stock lookup gives update-failure. `amount < 1` or stock < amount gives stock-insufficient, even for an absent id. Otherwise a present id has its amount set to exactly `amount`, committed to the slot; an absent id gives update-failure. Every failure leaves cart and slot unchanged. The invariant is kept. |

## Left out

- React wiring: `createContext`, the `CartProvider` JSX and `useCart`/`useContext` (lines 22, 137-150). They hold no cart rules.
- The HTTP lookups (`api.get`, lines 40-41, 100): their results are the `Option` parameters of the methods. Such a lookup can also return a record whose `id` differs from the one asked for. The source never checks this, so the model appends what it was given, and `AddProduct` promises uniqueness of ids only when ids do match.
- `toast.error`: the returned `Outcome`. The notification texts are not modelled.
- `JSON.parse`/`JSON.stringify` and the `localStorage` medium: the slot is the ghost `Option<seq<Product>>` field `stored`, holding the parsed sequence. An empty string in the slot is falsy in the source and so becomes the empty cart; the model folds it into `None`. The exception `JSON.parse` throws on unparsable data (line 30) is not modelled.
- The catch block of `removeProduct` (lines 88-91): the only statement in its body that can throw is the storage write at line 81, covered by the next line, so the model has no other failure input for it.
- A failing storage write: `localStorage.setItem` can throw, for example on a full quota, at lines 54, 61, 81 and 124. `setCart` has already run there, so the source shows the failure notification while memory holds the new cart and the slot the old one. The model treats the write as infallible, so `Commit` cannot fail. It does not capture this divergence of memory and slot, nor the failure outcome after a change in memory.
- Async interleaving across `await`, including closures that see a stale `cart`: the model runs each operation to completion on the current state.
- `price`, `title` and `image` are carried unchanged; `price` is a JavaScript float and is modelled as `real` with no arithmetic. Amounts and ids are unbounded integers; non-integer amounts are not modelled.
- The in-place mutation of the OLD cart's object by `product.amount++` (line 50): that array is discarded after the commit, so only the committed copy is modelled.
- `Cart.CartStore.AddProduct`: models the increment by one that the guard at line 46 intends, not the as-written line 50 (see Findings).

## Findings

| source | as written | input that shows it | evidently intended | confidence | as-written member | corrected member |
|---|---|---|---|---|---|---|
| src/hooks/useCart.tsx:50 | `amount: product.amount++` puts the value before the postfix increment into the copy, so the committed cart keeps the old amount. The increment lands on the discarded old object. | cart `[{id: 1, amount: 1}]`, stock `{id: 1, amount: 5}`, `addProduct(1)`: the cart stays at amount 1 and no notification is shown. | the amount of that line item rises by one, to 2, as the stock guard at line 46 checks for | not executed; follows from JavaScript's postfix `++` | `Cart.AsWrittenAddKeepsAmount` | `Cart.IncrementAt` |
