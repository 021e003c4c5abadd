# Quote cart of the product catalog page

This project models the client-side quote cart of the storefront catalog page
(`src/components/ProductTable.tsx`). A visitor sees the products fetched from
the shop platform, picks a quantity per row with a selector that never goes
below 1, and adds products to an ordered cart. The cart holds at most one entry
per product number: adding a product that is already there raises that entry's
quantity. Entries can be removed, their quantities adjusted (floored at 1), and
the cart cleared. The page derives the total amount (the sum of price times
quantity) and the total quantity. Submitting a quote checks that name, email
and phone are filled in. It then assembles a quote request whose line items
carry the product names with markup tags stripped, plus their subtotals. Last,
it resets the cart, the form, the dialog and the in-progress flag. The category
tabs keep only top-level (depth 1) categories.

Files and modules:

- `catalog.dfy`, module `Catalog`: products, categories, cart entries and the
  quote form as datatypes. Prices are integer amounts in won.
- `categories.dfy`, module `Categories`: the depth-1 category filter.
- `cart.dfy`, module `Cart`: the row selector map, the cart list updaters as
  pure functions, the totals as left folds (`Total`, `TotalQuantity`), and the
  selector initialisation loop as a method.
- `markup.dfy`, module `Markup`: the global replace of `<[^>]*>` by the empty
  string, as `StripTags`.
- `quote.dfy`, module `Quote`: the presence check (`IsComplete`), line items
  and the quote request.
- `product_table.dfy`, module `ProductTableState`: class `ProductTable`, with
  one field per state variable of the component (`products`, `categories`,
  `loading`, `quantities`, `cart`, `isModalOpen`, `formData`, `isSubmitting`)
  and one method per handler. `Valid()` is the cart invariant: product numbers
  are unique, and every quantity in the cart and in the selectors is at least 1.
  `State()` gathers all fields, so each method states its whole new state as
  an update of `old(State())`.
  Two example sessions sit beside the class. `AddTwiceSession` adds a product
  twice, and `AddRemoveSession` adds one and then removes it. Each drives a
  fresh table through the handlers' contracts.

The submit handler awaits a simulated delay, and other handlers can run while it
waits. So it is modelled as `BeginSubmitQuote` (the check, the in-progress
flag and the assembled quote) and `FinishSubmitQuote` (the reset).
`SubmitQuote` runs both in a row. The request date comes from the clock, so it
is a parameter. Fetch results are parameters too: `Some(list)` when the
response carries the list, and `None` when it does not or the fetch failed.

Three details of the code that the model keeps:

- `quantities[id] || 1` reads a stored 0 as 1 too, not only a missing entry.
- When a product already in the cart is added again, the entry keeps the
  product object it was first added with. Only its quantity changes, so totals
  use the stored entry's price (`TotalAfterMerge`).
- A category response with an empty list still replaces the tabs, because an
  empty array is truthy in the source.

## Model

| member | source | states |
|---|---|---|
| Cart.SelectedQuantity | src/components/ProductTable.tsx:114 | the quantity a row adds is never 0; it is the stored value whenever that is non-zero (a negative one is truthy too), and 1 when the row has no entry or a stored 0; with all selectors at least 1 it is at least 1 |
| Cart.UpdateQuantity | src/components/ProductTable.tsx:105-110 | the row's new quantity is max(1, current-or-1 + delta), so never below 1; the map gains at most that key; every other row keeps its value; selectors all at least 1 stay so |
| Cart.InitialQuantities | src/components/ProductTable.tsx:92-96 | after a fetch the selector map has exactly the fetched product numbers as keys, every value is 1, and every fetched product's row reads 1 |
| Cart.Find | src/components/ProductTable.tsx:117 | finds an entry exactly when the cart has one for the product; the entry found is the first one with that product number (no earlier entry has it), and in a cart with unique ids it is the only such entry |
| Cart.IncreaseQuantity | src/components/ProductTable.tsx:119-123 | same length and products; entries for the product grow by the quantity, every other entry is unchanged |
| Cart.AddToCart | src/components/ProductTable.tsx:116-126 | present product: length unchanged, its entry grows by the chosen quantity, others unchanged; absent product: exactly one entry appended at the end, earlier entries in place; afterwards the product is in the cart; unique ids and positive quantities are preserved |
| Cart.RemoveFromCart | src/components/ProductTable.tsx:134 | the result holds exactly the entries of the cart whose product is not the given one, and is no longer than the cart |
| Cart.RemoveKeepsInvariant | src/components/ProductTable.tsx:133-135 | no entry for the removed product is left; unique ids and positive quantities are preserved |
| Cart.RemoveKeepsUnique | src/components/ProductTable.tsx:133-135 | removal keeps product numbers unique |
| Cart.RemoveAbsent | src/components/ProductTable.tsx:133-135 | removing a product that has no entry leaves the cart unchanged |
| Cart.RemovePresent | src/components/ProductTable.tsx:133-135 | in a cart with unique ids, removing entry i's product yields the cart without entry i, everything else in order |
| Cart.RemoveAppend | src/components/ProductTable.tsx:134 | removal distributes over concatenation, so the kept entries keep their relative order |
| Cart.UpdateCartQuantity | src/components/ProductTable.tsx:138-146 | same length and products; the matching entry's quantity becomes max(1, q + delta), never below 1; non-matching entries unchanged; absent product leaves the cart unchanged; invariant preserved |
| Cart.Subtotal | src/components/ProductTable.tsx:150 | one entry's price times its quantity, the summand of the total; SubtotalGrowth, SetEntryTotal and the Total lemmas state how it moves |
| Cart.Total | src/components/ProductTable.tsx:149-152 | the total amount as a left fold over the cart; TotalAppend, TotalSplit, SetEntryTotal, the TotalAfter lemmas and Quote.LineItemsTotal state its properties |
| Cart.TotalQuantity | src/components/ProductTable.tsx:345 | the total quantity as a left fold over the cart; TotalQuantityAppend and TotalQuantityAtLeastCount state its properties |
| Cart.TotalAppend | src/components/ProductTable.tsx:149-152 | the total amount of a concatenation is the sum of the parts' totals |
| Cart.TotalQuantityAppend | src/components/ProductTable.tsx:345 | the total quantity of a concatenation is the sum of the parts' total quantities |
| Cart.TotalQuantityAtLeastCount | src/components/ProductTable.tsx:345 | with every quantity at least 1, the total quantity is at least the number of entries |
| Cart.TotalSplit | src/components/ProductTable.tsx:149-152 | the total amount is the total before entry i, plus entry i's subtotal, plus the total after it |
| Cart.SetEntryTotal | src/components/ProductTable.tsx:149-152 | replacing one entry moves the total amount by the new entry's subtotal minus the old one's, and by nothing else |
| Cart.SubtotalGrowth | src/components/ProductTable.tsx:149-152 | raising an entry's quantity by q raises its subtotal by its price times q; TotalAfterMerge uses it |
| Cart.GrowEntryTotal | src/components/ProductTable.tsx:149-152 | raising one entry's quantity by q raises the total amount by that entry's price times q |
| Cart.MergePresent | src/components/ProductTable.tsx:116-126 | in a cart with unique ids, adding the product of entry i changes entry i alone, raising its quantity by the chosen quantity and keeping its stored product |
| Cart.IncreasePresent | src/components/ProductTable.tsx:119-123 | in a cart with unique ids, raising entry i's product changes entry i alone |
| Cart.UpdatePresent | src/components/ProductTable.tsx:138-146 | in a cart with unique ids, adjusting entry i's product changes entry i alone, to quantity max(1, q + delta) |
| Cart.TotalAfterMerge | src/components/ProductTable.tsx:113-152 | in a cart with unique ids, adding a present product changes the total by the merged entry's new subtotal minus its old one, so the total rises by the chosen quantity times the stored entry's price |
| Cart.TotalAfterAppend | src/components/ProductTable.tsx:113-152 | adding an absent product raises the total by the chosen quantity times the product's price |
| Cart.TotalAfterRemove | src/components/ProductTable.tsx:133-152 | in a cart with unique ids, removing a present product lowers the total by exactly that entry's subtotal |
| Cart.TotalAfterUpdate | src/components/ProductTable.tsx:138-152 | in a cart with unique ids, adjusting a present entry changes the total by its new subtotal, at quantity max(1, q + delta), minus its old one |
| Cart.AddTwiceMerges | src/components/ProductTable.tsx:113-130 | adding an absent product with q1 and then with q2 leaves one new entry at the end with quantity q1 + q2 |
| Cart.ScenarioTotal | src/components/ProductTable.tsx:149-152 | a cart of 1000 won times 2 and 2500 won times 1 totals 4500 |
| Cart.ScenarioAddTwice | src/components/ProductTable.tsx:113-130 | a 500 won product added with 3 and then 2 to an empty cart gives one entry of 5 with subtotal 2500 |
| Categories.TopLevel | src/components/ProductTable.tsx:63 | the kept categories are exactly those of depth 1, and there are no more of them than the input |
| Categories.TopLevelAppend | src/components/ProductTable.tsx:63 | the filter distributes over concatenation, so the order is kept |
| Categories.TopLevelKeepsTopLevel | src/components/ProductTable.tsx:63 | a list of depth-1 categories passes the filter unchanged |
| Markup.StripTags | src/components/ProductTable.tsx:167 | the stripped name is no longer than the input and uses only characters of the input (multiset inclusion) |
| Markup.StripTagsIsTagFree | src/components/ProductTable.tsx:167 | the stripped name has no `<` followed later by `>`, so no tag is left |
| Markup.StripTagsAlwaysTagFree | src/components/ProductTable.tsx:167 | the same, for every input at once |
| Markup.StripTagsKeepsTagFree | src/components/ProductTable.tsx:167 | a name without tags, in particular one without `<`, is left unchanged |
| Markup.StripTagsIdempotent | src/components/ProductTable.tsx:167 | stripping twice equals stripping once |
| Markup.StripTagsText | src/components/ProductTable.tsx:167 | a character other than `<` is kept and the scan continues after it |
| Markup.StripTagsTag | src/components/ProductTable.tsx:167 | a complete tag `<...>` with no `>` inside is dropped and the scan resumes after it |
| Quote.IsComplete | src/components/ProductTable.tsx:156 | the form passes exactly when name, email and phone are all non-empty; BeginSubmitQuote and SubmitQuote state what each outcome does |
| Quote.LineItem | src/components/ProductTable.tsx:165-172 | one line item of the quote; Quote.LineItems states its fields entry by entry |
| Quote.LineItems | src/components/ProductTable.tsx:165-172 | one line item per entry in cart order, with the entry's number, code, price and quantity, the tag-stripped name (tag-free and no longer than the original) and subtotal price times quantity |
| Quote.LineItemsTotal | src/components/ProductTable.tsx:163-175 | the line items' subtotals add up to the cart's total amount |
| Quote.BuildQuote | src/components/ProductTable.tsx:163-175 | the quote carries the customer form, the request date and the cart's line items; its total equals both the cart total and the sum of the line subtotals |
| ProductTableState.ProductTable.constructor | src/components/ProductTable.tsx:38-54 | the initial state: nothing fetched, loading, empty selectors and cart, dialog closed, empty form, not submitting |
| ProductTableState.ProductTable.ReceiveCategories | src/components/ProductTable.tsx:57-71 | a response with a list sets the tabs to its top-level categories; otherwise nothing changes |
| ProductTableState.ProductTable.BeginProductFetch | src/components/ProductTable.tsx:82 | only the loading flag changes, to true |
| ProductTableState.ProductTable.ReceiveProducts | src/components/ProductTable.tsx:88-102 | a response with a list replaces the products and resets the selectors to 1 for exactly those products; loading ends either way; nothing else changes |
| ProductTableState.ProductTable.UpdateQuantity | src/components/ProductTable.tsx:105-110 | only the selector map changes, as Cart.UpdateQuantity says; the invariant is kept |
| ProductTableState.ProductTable.AddToCart | src/components/ProductTable.tsx:113-130 | the cart becomes Cart.AddToCart with the row's selected quantity, which is at least 1; that row's selector is reset to 1; nothing else changes; the invariant is kept |
| ProductTableState.ProductTable.RemoveFromCart | src/components/ProductTable.tsx:133-135 | only the cart changes, as Cart.RemoveFromCart says; no entry for the product remains; the invariant is kept |
| ProductTableState.ProductTable.UpdateCartQuantity | src/components/ProductTable.tsx:138-146 | only the cart changes, as Cart.UpdateCartQuantity says; the invariant is kept |
| ProductTableState.ProductTable.ClearCart | src/components/ProductTable.tsx:353-358 | only the cart changes, to empty, with total amount and total quantity 0 |
| ProductTableState.ProductTable.OpenQuoteModal | src/components/ProductTable.tsx:335-365 | while the cart has an entry, only the dialog flag changes, to open |
| ProductTableState.ProductTable.CloseQuoteModal | src/components/ProductTable.tsx:378-383 | only the dialog flag changes, to closed |
| ProductTableState.ProductTable.EditForm | src/components/ProductTable.tsx:463-505 | only the edited form field changes, to the typed value |
| ProductTableState.ProductTable.BeginSubmitQuote | src/components/ProductTable.tsx:155-177 | with name, email or phone empty no state changes and no quote is produced; otherwise only the in-progress flag is set and the quote for the current form and cart is returned |
| ProductTableState.ProductTable.FinishSubmitQuote | src/components/ProductTable.tsx:184-188 | cart empty, form empty, dialog closed, not submitting; products, categories, selectors and loading unchanged |
| ProductTableState.ProductTable.SubmitQuote | src/components/ProductTable.tsx:155-189 | an incomplete form changes nothing; a complete one returns the quote of the cart as it was and ends with cart and form empty, dialog closed and not submitting |

## Left out

- The two proxy routes (`src/app/api/products/route.ts`, `src/app/api/categories/route.ts`): they only forward requests to the external shop client and relay its response or error status.
- The network fetches themselves, and the query parameters of the product fetch (`keyword` and `category` are sent only when truthy): I/O. Their results enter as `Option` parameters of `ReceiveProducts` and `ReceiveCategories`.
- The search box, the category tab selection, and the 300 ms debounce with its timer: timing. So is the race in which the last product response to arrive wins; the model takes responses in the order it is given them.
- The 1 s simulated delay, `alert`, `console.log` and `new Date().toISOString()`: side effects and the clock. The request date is a parameter of the submit methods.
- `Number(price)` parsing and floating-point arithmetic: prices are integers, and totals are exact unbounded integers.
- Currency formatting (`toLocaleString`, `Intl.NumberFormat`), all rendering, and the unescaped insertion of product names.
- React's asynchronous, batched state updates: each handler is one atomic method over the current state.
