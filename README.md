# Admin dashboard: order and product bookkeeping

This project models the state logic of the storefront's admin dashboard page
(`src/app/dashboard/page.tsx`). The page lists the orders and products held in
a hosted content store. An operator can filter orders by status, change an
order's status, delete orders and products, and edit a product's fields,
including uploading a new image.

The model has two layers.

- **Pure functions and lemmas** (`Sequences`, `OrderFilter`, `OrderMetrics`,
  `ProductEdits`, over the records in `Records`):
  - the summary metrics: revenue, order count, distinct customer emails and pending deliveries;
  - the status filter of the order table;
  - the local removal of a deleted order;
  - the spread-merge of staged product fields into the product list.
- **The component state** (`AdminPanel.Dashboard`): a class whose fields are
  the page's state (`orders`, `products`, `metrics`, the status filter,
  `editProductId`, `editProductData`, the staged image file). Each event
  handler is a method.
  - The user's answer to a confirmation dialog and the outcome of each call to
    the content store are method parameters. An outcome is success or failure,
    the fetched list, or the uploaded asset's id.
  - Each handler returns the store calls it issued, in order, and the alert it
    shows at the end.

Points where the model follows the code closely:

- `handleSaveProduct` returns early when `editProductId` is falsy. The empty
  string is falsy too, so an edit whose id is `""` saves nothing.
- `handleEditProduct` stages the product object that the list itself holds.
  Line 103 then writes the uploaded asset id into that object in place. If no
  field was edited first, that write reaches the listed product before the
  patch is sent. So after a failed patch the listed product already carries
  the new image. The model tracks this with `stagedAlias`, the index of the
  listed product that the staged fields still are. Editing a field replaces
  the staged object (`{...editProductData, key: value}`) and breaks the alias.
  So does refetching the products, or a successful save.
- A save never clears the staged image file. The next save uploads the same
  file again.
- `handleDeleteOrder` removes the order locally and does not recompute the
  metrics. `DeleteLeavesMetricsStale` shows they then disagree with the list.
- `handleStatusUpdate` and `handleDeleteProduct` do not catch a failed write,
  so the handler ends there with no alert. `fetchOrders` catches a failed
  query, and the list stays as it was.
- The status filter compares strings. A `null` status never matches a filter
  other than "all". A status outside the three offered values shows only under
  "all".

Integer amounts stand in for JavaScript numbers. Strings are compared
exactly, with no normalisation.

## Model

| member | source | states |
|---|---|---|
| OrderMetrics.SumTotals | src/app/dashboard/page.tsx:120 | the `reduce` over no orders is its starting value; with non-negative totals it never falls below the starting value |
| OrderMetrics.Revenue | src/app/dashboard/page.tsx:120 | revenue is 0 for no orders and the order's total for one order; it is non-negative when every total is |
| OrderMetrics.Emails | src/app/dashboard/page.tsx:122 | the customer set holds every order's email and nothing that is not some order's email |
| OrderMetrics.DistinctEmailsAppend | src/app/dashboard/page.tsx:122 | appending an order keeps the emails distinct iff they were distinct and its email is new |
| OrderMetrics.CalculateMetrics | src/app/dashboard/page.tsx:119-132 | totalOrders is the number of orders; totalCustomers and pendingDeliveries never exceed it; totalCustomers is 0 exactly for the empty list |
| OrderMetrics.MetricsOfEmpty | src/app/dashboard/page.tsx:119-131 | the empty order list gives all four metrics 0 |
| OrderMetrics.SumTotalsShift | src/app/dashboard/page.tsx:120 | the `reduce` accumulator only shifts the sum: folding from `acc` is `acc` plus folding from 0 |
| OrderMetrics.RevenueAppend | src/app/dashboard/page.tsx:120 | revenue is additive over concatenation |
| OrderMetrics.RevenueSingle | src/app/dashboard/page.tsx:120 | one order contributes exactly its total |
| OrderMetrics.EmailsAppend | src/app/dashboard/page.tsx:122 | adding an order adds exactly its email to the customer set |
| OrderMetrics.CustomersAtMostOrders | src/app/dashboard/page.tsx:122 | distinct emails never outnumber orders; they equal the order count iff no email repeats, so a repeated email counts once; they are 0 iff there are no orders |
| OrderMetrics.PendingCountsPending | src/app/dashboard/page.tsx:123-125 | pendingDeliveries is the number of positions whose status is exactly "pending", and the length of the "pending" filter's result |
| OrderMetrics.MetricsAppend | src/app/dashboard/page.tsx:119-131 | appending an order raises revenue by its total and the order count by 1; customers rise by 1 iff its email is new; pending rises by 1 iff its status is "pending" |
| OrderMetrics.MetricsExample | src/app/dashboard/page.tsx:119-131 | three orders (100 pending a@x.com, 50 success a@x.com, 25 pending b@x.com) give metrics 175/3/2/2, and the "pending" filter gives the first and third |
| Sequences.Filter | src/app/dashboard/page.tsx:209-211 | a filter is never longer than its input |
| Sequences.FilterCounts | src/app/dashboard/page.tsx:209-211 | filtering keeps each satisfying element exactly as often as the input holds it and nothing else; membership iff in input and satisfying |
| Sequences.FilterIsSubsequence | src/app/dashboard/page.tsx:209-211 | filtering keeps the original relative order |
| Sequences.SubsequenceMultiset | src/app/dashboard/page.tsx:209-211 | a subsequence holds no element more often than its source |
| Sequences.FilterUnique | src/app/dashboard/page.tsx:209-211 | a subsequence with exactly the satisfying elements, at their multiplicities, is the filter's result |
| Sequences.FilterKeepsAll | src/app/dashboard/page.tsx:209-211 | a predicate true of every element returns the input unchanged |
| Sequences.FilterAppend | src/app/dashboard/page.tsx:123-125 | filtering distributes over concatenation |
| Sequences.FilterLengthCounts | src/app/dashboard/page.tsx:123-125 | the filter's length is the number of satisfying positions |
| OrderFilter.StatusIs | src/app/dashboard/page.tsx:124 | an order matches iff its status is exactly the given string; a null status never matches |
| OrderFilter.Selects | src/app/dashboard/page.tsx:210 | under "all" every order is shown; under any other filter an order is shown iff its status is exactly the filter's string |
| OrderFilter.IdIsNot | src/app/dashboard/page.tsx:229 | an order is kept iff its id differs from the deleted id |
| OrderFilter.FilteredOrders | src/app/dashboard/page.tsx:209-211 | the table never shows more orders than are loaded |
| OrderFilter.FilterAllIsIdentity | src/app/dashboard/page.tsx:209-211 | filter "all" shows the order list unchanged |
| OrderFilter.FilterIsStatusMatch | src/app/dashboard/page.tsx:209-211 | any other filter selects by exact status equality with the filter's string |
| OrderFilter.FilterSelectsExactly | src/app/dashboard/page.tsx:209-211 | any other filter gives a subsequence of the orders holding exactly those with that status, each as often as in the input; an order is shown iff it is loaded and has that status, so null never shows |
| OrderFilter.FilteredOrdersUnique | src/app/dashboard/page.tsx:209-211 | those properties determine the table: any list meeting them is the filter's result |
| OrderFilter.RemoveOrder | src/app/dashboard/page.tsx:229 | removal never lengthens the order list |
| OrderFilter.RemoveOrderExactly | src/app/dashboard/page.tsx:229 | after removal no order has the id; every other order stays, as often as before and in the same relative order |
| OrderFilter.RemoveOrderShrinks | src/app/dashboard/page.tsx:229 | the list shrinks iff some order had the id |
| OrderFilter.RemoveOrderIdempotent | src/app/dashboard/page.tsx:229 | removing an id twice is removing it once |
| Records.Merge | src/app/dashboard/page.tsx:108 | field by field: a key present in the staged fields gives the merged value, an absent key keeps the product's |
| ProductEdits.FromProduct | src/app/dashboard/page.tsx:95 | staging a product carries its id, and merging it back onto that product gives the product unchanged; merged onto any product it imposes the name, price, stock and tags |
| ProductEdits.ApplyEdit | src/app/dashboard/page.tsx:485-528 | an input sets exactly its own key (name, description, price or stock) and leaves every other staged key, including id and image, as it was |
| ProductEdits.MergeIntoProducts | src/app/dashboard/page.tsx:106-110 | the list keeps its length; a product with the saved id becomes the spread-merge of it with the staged fields; every other product is unchanged, in place |
| ProductEdits.MergeNoFields | src/app/dashboard/page.tsx:108 | spreading the empty object changes nothing |
| ProductEdits.MergeStaged | src/app/dashboard/page.tsx:93-96 | saving a staged product without edits writes it back: its keys win, and only an absent description or image keeps the target's |
| ProductEdits.MergeIdempotent | src/app/dashboard/page.tsx:108 | merging the same fields twice equals merging once |
| ProductEdits.EditTakesEffect | src/app/dashboard/page.tsx:485-528 | an input of the edit dialog sets its own field of the merged product and leaves every other field as the staged fields gave it |
| ProductEdits.UploadedImageWins | src/app/dashboard/page.tsx:101-108 | with the uploaded asset id written into the staged fields, the merged product's image is that asset id |
| ProductEdits.MergeKeepsIds | src/app/dashboard/page.tsx:106-110 | when the staged id is absent or the saved id, no product's id changes |
| ProductEdits.MergeMissingId | src/app/dashboard/page.tsx:106-110 | saving an id no listed product has leaves the list unchanged |
| ProductEdits.MergeIntoProductsIdempotent | src/app/dashboard/page.tsx:106-110 | repeating any save changes nothing more |
| AdminPanel.Dashboard.constructor | src/app/dashboard/page.tsx:59-78 | initial state: no orders or products, zero metrics (consistent with the empty list), filter "all", nothing staged |
| AdminPanel.Dashboard.VisibleOrders | src/app/dashboard/page.tsx:209-211 | under "all" the table shows the orders; otherwise a subsequence of them, in original order, holding each order with the filter's status exactly as often as loaded and no other order |
| AdminPanel.Dashboard.SetStatusFilter | src/app/dashboard/page.tsx:310 | sets the filter and changes nothing else |
| AdminPanel.Dashboard.FetchProducts | src/app/dashboard/page.tsx:139-143 | issues one product query; on success the list is the result; a failed query changes nothing; orders untouched |
| AdminPanel.Dashboard.FetchOrders | src/app/dashboard/page.tsx:144-170 | issues one order query; on success the list is the result and metrics are recomputed from it; a failed query changes nothing |
| AdminPanel.Dashboard.StatusUpdate | src/app/dashboard/page.tsx:172-190 | declined: no call and no change. Confirmed: a status patch, then a refetch; the orders become the refetched list and the metrics are recomputed. A failed patch ends the handler with no further call and no change. Products untouched |
| AdminPanel.Dashboard.DeleteOrder | src/app/dashboard/page.tsx:214-235 | declined: no call and no change. Confirmed: one delete call. On success the orders are the removal of that id, with the "Deleted" alert. On failure the orders are unchanged and an error alert shows. Metrics are never recomputed |
| AdminPanel.Dashboard.DeleteProduct | src/app/dashboard/page.tsx:192-207 | declined: no call and no change. Confirmed: a delete, then a product query; the products become the refetched list. A failed delete ends the handler with no change |
| AdminPanel.Dashboard.EditProduct | src/app/dashboard/page.tsx:93-96 | stages the listed product: the edited id is its id, the staged fields are all its keys, and they are the listed object itself |
| AdminPanel.Dashboard.EditField | src/app/dashboard/page.tsx:485-528 | the staged fields become a new object with the edited key set; the edited id is unchanged |
| AdminPanel.Dashboard.ChooseImage | src/app/dashboard/page.tsx:529-535 | stages the chosen file (or none) |
| AdminPanel.Dashboard.CancelEdit | src/app/dashboard/page.tsx:538 | clears only the edited id; the staged fields and file stay |
| AdminPanel.Dashboard.SaveProduct | src/app/dashboard/page.tsx:98-117 | a null or empty edited id is a no-op. Otherwise a staged file is uploaded before the patch, and the patch carries the uploaded asset id as image. On success only products with that id change, to the merge; ids are kept; the edit is cleared. A failed upload changes nothing. A failed patch keeps the edit, with the asset id written, and the listed product it aliases |
| AdminPanel.ImageWriteAbsorbed | src/app/dashboard/page.tsx:103-108 | writing the asset id into the aliased product before the merge does not change the merge's result |
| AdminPanel.DeleteLeavesMetricsStale | src/app/dashboard/page.tsx:229 | once an order with the deleted id was listed, the metrics of the remaining orders differ from the unchanged metrics (fewer orders) |

## Left out

- Calls to the content store's client (`fetch`, `patch().set().commit()`, `delete`, `assets.upload`) and the query strings: network and SDK code. Only their outcomes appear, as method parameters.
- The store itself: the model does not relate a patched status to the refetched list. The refetched list is whatever the store returns.
- Confirmation dialogs and alerts. A dialog is the boolean `confirmed`. An alert is the `Toast` a handler returns. Console logging is not modelled.
- JSX rendering, image URLs, `next/image` and date formatting: presentation and locale-dependent library code. So is the active tab switch.
- The `selectedProduct` state and the product detail modal it opens: nothing ever sets it to a product (the only live write sets it to `null`), so the modal is unreachable.
- The logout handler (local storage and navigation) and the route guard: I/O and routing.
- `handleOrderClick` and the order-detail state it sets: that state is never rendered.
- Overlapping handlers, such as a double-clicked delete, and the unawaited refetch inside a handler: each handler is one atomic step here.
- JavaScript number semantics: `total`, `discount`, `price` and `stock_quantity` are unbounded integers, and `Number(...)` parsing in the edit inputs is not modelled.
- A staged key present with the value `undefined` is not modelled: a staged key is either absent or holds a value.
- Object identity beyond the one alias described above. Products and orders are values.
- AdminPanel.Dashboard.EditProduct: it takes the product's index in the list rather than the product object. The page only ever passes a listed product.
