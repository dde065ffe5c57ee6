# Amana Bookstore cart bookkeeping, in Dafny

This project models the shopping-cart logic of the Amana Bookstore storefront.
That logic is spread over two page components that share one browser storage
slot, `cart`, and one broadcast event, `cartUpdated`:

- The home page's add-to-cart handler (`src/app/page.tsx`) works like this:
  - It looks the book up in the catalog.
  - It loads the stored cart. An absent key counts as an empty list.
  - It bumps the first line for the book, or pushes a new line with quantity 1.
  - It saves the list and raises the event.
- The cart page (`src/app/cart/page.tsx`) works like this:
  - On mount, it loads the stored lines and joins them to the catalog. Orphan lines are dropped, and an unparsable value gives an empty cart.
  - `updateQuantity` ignores quantities below 1. Otherwise it rewrites the matching rows, then saves every row back with fresh ids and timestamps and raises the event.
  - `removeItem` filters rows out, saves and notifies.
  - `clearCart` empties the rows, deletes the key and notifies.
  - The total is the sum of price × quantity over the rows.

Modules:

- `CartTypes` (cart_types.dfy): books, cart lines, the storage slot's state, rows, and the catalog lookup.
  - The slot's state is `Absent | Lines(lines) | Corrupt`, where `Corrupt` stands for a value that does not parse or is JSON but not an array.
- `CartStorage` (cart_storage.dfy): class `CartStore`, which holds the slot (`stored`) and the number of `cartUpdated` events raised (`notifications`).
- `Home` (home_page.dfy): class `HomePage` with `HandleAddToCart`, the pure description `AddLine` of what one add does to the list, and the lemmas about adds.
- `Cart` (cart_page.dfy): class `CartPage` with field `rows`, its handlers, the pure join/rewrite/filter/total functions, and the lemmas about them.

The catalog (the `books` data module) is not part of this model. Each page takes it as a constant `seq<Book>`.

Prices are whole cents. The clock readings behind the `id` and `addedAt` fields are parameters:
- `HandleAddToCart` takes `now`.
- The cart page's saves take `clock`, where `clock(k)` is the reading used for the k-th saved line.

Nothing here claims those fields are stable.

## Model

| member | source | states |
|---|---|---|
| CartTypes.FindBook | src/app/page.tsx:16-17 | finds a book exactly when one with that id is in the catalog, and then it is the first such book |
| Home.IndexOf | src/app/page.tsx:31 | -1 exactly when no line holds the book; otherwise the position of the first line for it |
| CartStorage.CartStore.SetItem | src/app/page.tsx:42 | the slot holds exactly the given lines; the event count is unchanged |
| CartStorage.CartStore.RemoveItem | src/app/cart/page.tsx:104 | the slot is absent afterwards; the event count is unchanged |
| CartStorage.CartStore.DispatchCartUpdated | src/app/page.tsx:45 | the event count goes up by exactly one; the slot is unchanged |
| Home.NewLine | src/app/page.tsx:19-24 | the pushed line is for the book, has quantity 1, and takes its id and timestamp from the clock reading |
| Home.CurrentLines | src/app/page.tsx:27-28 | an absent key reads as an empty cart; a stored list is used as it is |
| Home.AddLine | src/app/page.tsx:31-39 | after an add the book is in the cart; the length grows by one only when the book was absent; lines of other books are untouched |
| Home.HomePage.HandleAddToCart | src/app/page.tsx:15-46 | unknown id: storage and event count unchanged; corrupt stored value: the handler throws before any write; otherwise the list becomes `AddLine` of the stored list (absent = empty), is saved, and exactly one event is raised |
| Home.AddIncrementsFirstLine | src/app/page.tsx:31-35 | when the book is in the cart, the first line for it gains exactly one and every other line and the length are unchanged |
| Home.AddAppendsNewLine | src/app/page.tsx:36-39 | when the book is not in the cart, one line for it with quantity 1 is appended and the earlier lines are unchanged |
| Home.AddKeepsCartWellFormed | src/app/page.tsx:31-39 | one line per book and quantities of at least 1 are kept by every add |
| Home.AddIncrementsTotalQuantity | src/app/page.tsx:33-39 | every valid add raises the number of copies in the cart by exactly one |
| Home.RepeatedAddFromEmpty | src/app/page.tsx:27-39 | adding the same book n >= 1 times to an empty cart gives exactly one line for it, with quantity n |
| Cart.Join | src/app/cart/page.tsx:44-51 | the joined rows are no more than the lines, and each row carries the catalog's own record for its book |
| Cart.KnownLines | src/app/cart/page.tsx:44-51 | the reference filter: keeps a stored line exactly when its book is in the catalog |
| Cart.JoinKeepsKnownLines | src/app/cart/page.tsx:44-51 | the joined rows match the known lines position by position (book id and quantity), so order is kept |
| Cart.JoinDropsOnlyOrphans | src/app/cart/page.tsx:44-51 | when every stored line's book is in the catalog, no line is dropped |
| Cart.LoadRows | src/app/cart/page.tsx:38-60 | an absent key or an unparsable value gives no rows and no error; a stored list gives at most as many rows as lines, all from the catalog |
| Cart.CartPage.Mount | src/app/cart/page.tsx:32-60 | the mounted page shows exactly the loaded rows and is in sync with storage |
| Cart.SetQuantity | src/app/cart/page.tsx:66-68 | same length and books in the same order; the rows of the book get the new quantity and the other rows keep theirs |
| Cart.SetQuantityIdempotent | src/app/cart/page.tsx:66-68 | rewriting the same quantity twice is the same as once |
| Cart.ToStorage | src/app/cart/page.tsx:72-77 | the saved lines match the rows position by position in book id and quantity |
| Cart.CartPage.UpdateQuantity | src/app/cart/page.tsx:62-82 | quantity below 1: rows, storage and event count unchanged; otherwise rows are rewritten, the saved lines mirror them, one event is raised, and a reload gives the same rows |
| Cart.RemoveBook | src/app/cart/page.tsx:86 | no remaining row holds the book; a row remains exactly when it was there and is for another book |
| Cart.RemoveAbsentBook | src/app/cart/page.tsx:86 | removing a book that no row holds leaves the rows unchanged |
| Cart.RemoveBookKeepsOrder | src/app/cart/page.tsx:86 | the filter distributes over concatenation, so the remaining rows keep their order |
| Cart.CartPage.RemoveItem | src/app/cart/page.tsx:84-100 | rows lose the book, the saved lines mirror them, one event is raised, and a reload gives the same rows |
| Cart.CartPage.ClearCart | src/app/cart/page.tsx:102-106 | rows are empty, the key is removed, one event is raised, and a reload gives no rows |
| Cart.ReloadAfterSave | src/app/cart/page.tsx:72-78 | lines saved from catalog rows load back as exactly those rows |
| Cart.TotalPrice | src/app/cart/page.tsx:108-111 | 0 for an empty cart; never negative when prices and quantities are not |
| Cart.TotalPriceAppend | src/app/cart/page.tsx:108-111 | the total of a concatenation is the sum of the totals |
| Cart.RemoveNeverRaisesTotal | src/app/cart/page.tsx:86 | with non-negative prices and quantities, removing a book never raises the total |
| Cart.TotalPriceExample | src/app/cart/page.tsx:108-111 | stored lines b1 × 2 at 1000 cents and b2 × 1 at 500 cents total 2500 cents |

## Left out

- Rendering is not modelled: the JSX, `TrashIcon`, `Link`, `BookGrid`, `CartItem` and the `isLoading` flag. src/app/layout.tsx is not part of this model either; it holds no cart logic.
- The `books` data module is not part of this model. The catalog is a constant parameter of each page.
- JSON text is not modelled. The storage slot is `Absent`, `Lines(...)` or `Corrupt`.
  - A JSON array whose elements are not cart lines has no state of its own. On the home page `[1]` does not throw (`findIndex` gives -1, a line is pushed and `[1,{...}]` is written), while `[null]` throws at `findIndex`; the model covers neither case.
  - A stored empty string is falsy in the source and reads as absent. The handlers never write one, so the model has no state for it.
- `Date.now()` and `new Date().toISOString()` become caller-supplied readings. One reading per line supplies both the id's milliseconds and the timestamp.
- `console.error` on a parse failure is not modelled (logging).
- The event's delivery to listeners, such as the navigation bar re-reading storage, is not modelled. The event is only counted.
- Prices are integer cents rather than floating-point dollars. `toFixed(2)` formatting is left out.
- Quantities are integers. The source's `number` could carry a fraction, which the model does not represent.
- Storage-write failures (quota exceeded) are not modelled. The source does not handle them either.
- The last-writer-wins race between two mounted components is not modelled. It is a matter of interleaving across components, which this sequential model does not represent.
- Home.HomePage.HandleAddToCart: on a corrupt stored value the source throws out of the handler before writing (`JSON.parse` at src/app/page.tsx:28 on text that does not parse, or `findIndex` at line 31 on JSON that is not an array) and leaves storage as it was. The model returns `ParseFailed` with nothing changed; the exception itself is not modelled.
