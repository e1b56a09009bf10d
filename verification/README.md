# Restaurant QR ordering front end: order board, billing list and stock switches

This project models the small pieces of logic in three page components of a
restaurant QR-ordering front end, and proves properties about them in Dafny:

- **Kitchen order board** (`kitchen.js`). Each cart record (one table's order:
  line items and combos, each with a status) is sorted into one of three id
  lists: `all`, `few` or `none`, by how much of it is served. The list an id
  is in decides its card colour. "Mark as Served" sends a request and, on
  success, patches the order in place.
- **Table order list** (`TableOrderList.jsx`). It selects the records of one
  table (or all of them) and flattens their entries. `aggregateItems` merges
  the entries by name and sums their counts. "Mark as Paid" is enabled only
  when every merged entry is served.
- **Kitchen stock page** (`kitchenStocks.js`). It maps server records to
  cards, flips availability between `"available"` and `"not available"`, and
  patches one card by id after a successful request.

Each component is a class whose fields are its React state variables. Its
handlers are methods. The reply to each HTTP request is a method parameter:
`Response<T>` is `Success(body)` or `Failure(message)`. The pure parts are
functions with lemmas: the classification, the patches, the toggle and the
response mapping. Two loops are methods proved against a specification
function:

- the bucketing `forEach` (`Kitchen.ComputeBuckets`);
- the `reduce` into a mutated accumulator object (`TableOrders.AggregateItems`).
  The accumulator is modelled as an insertion-ordered map: the keys in
  insertion order plus a map.

Files:

- `common.dfy`: `Option` and `Response`.
- `cart_records.dfy`: the cart record and entry types. Line items and combos
  share one `Entry` type, because the code reads the same keys of both.
- `kitchen.dfy`: the kitchen order board.
- `table_orders.dfy`: the table order list.
- `kitchen_stocks.dfy`: the stock page.

The model follows what the code does, including in these places:

- A reply to the table list's fetch that is not a list does not count as an
  empty result. It sets the error and leaves `data` and `filteredData` as
  they were. The error is never cleared afterwards.
- The "mark served" handler does not check whether the entry is already
  served. Only the rendering hides the button for served entries.
- The bucket lists are lists, not sets. If two records share an id, that id
  appears more than once. The partition is therefore stated on multisets.

## Model

| member | source | states |
|---|---|---|
| `CartRecords.AllEntries` | frontend/src/Kitchen/Components/KitchenPage/kitchen.js:37 | an order's entries are its line items followed by its combos, and nothing else |
| `Kitchen.Classify` | frontend/src/Kitchen/Components/KitchenPage/kitchen.js:37-47 | the progress of one order from its entries' statuses; `ClassifyCharacterised` and `EmptyOrderIsAllServed` state what each of the three answers means |
| `Kitchen.ClassifyCharacterised` | frontend/src/Kitchen/Components/KitchenPage/kitchen.js:37-47 | an order is all-served iff every entry is served; some-served iff at least one entry is served and at least one is not; none-served iff it has entries and none is served |
| `Kitchen.EmptyOrderIsAllServed` | frontend/src/Kitchen/Components/KitchenPage/kitchen.js:37-45 | an order with no items and no combos goes to `all` (`every` over an empty list is true) |
| `Kitchen.IdsOf` | frontend/src/Kitchen/Components/KitchenPage/kitchen.js:36-48 | the ids the `forEach` pushes onto the list of one progress, in record order; `IdsOfAppend`, `InBucketIff` and `BucketsPartition` characterise it |
| `Kitchen.Bucketed` | frontend/src/Kitchen/Components/KitchenPage/kitchen.js:34-48 | the three lists the effect stores in `itemStatuses`; `BucketedSnoc`, `BucketsSizes` and `ComputeBuckets` relate it to the loop |
| `Kitchen.IdsOfAppend` | frontend/src/Kitchen/Components/KitchenPage/kitchen.js:36-48 | the list for records `a + b` is the list for `a` followed by the list for `b`, so ids keep their records' relative order |
| `Kitchen.BucketedSnoc` | frontend/src/Kitchen/Components/KitchenPage/kitchen.js:45-47 | bucketing one more record pushes its id onto the end of exactly the list of its progress |
| `Kitchen.BucketsPartition` | frontend/src/Kitchen/Components/KitchenPage/kitchen.js:36-48 | the three lists together hold exactly the records' ids, each as often as the records do (as multisets) |
| `Kitchen.BucketsSizes` | frontend/src/Kitchen/Components/KitchenPage/kitchen.js:36-48 | every record pushes exactly one id: the three list lengths sum to the number of records |
| `Kitchen.InBucketIff` | frontend/src/Kitchen/Components/KitchenPage/kitchen.js:36-48 | an id is in the list for progress `p` iff some record with that id has progress `p` |
| `Kitchen.OnlyOwnBucket` | frontend/src/Kitchen/Components/KitchenPage/kitchen.js:45-47 | with distinct order ids, each id is in the list of its own order's progress and in no other |
| `Kitchen.CardClass` | frontend/src/Kitchen/Components/KitchenPage/kitchen.js:104-109 | the colour of the first list (all, then few, then none) that holds the id; `""` iff no list holds it |
| `Kitchen.CardClassOfRecord` | frontend/src/Kitchen/Components/KitchenPage/kitchen.js:104-109 | with distinct order ids, each order's card gets the colour of that order's own progress |
| `Kitchen.ServeIfTarget` | frontend/src/Kitchen/Components/KitchenPage/kitchen.js:79-84 | one entry after the patch: "Served" when its id is the target, unchanged otherwise; `ServeInEntries` states it over a list |
| `Kitchen.ServeIn` | frontend/src/Kitchen/Components/KitchenPage/kitchen.js:79-84 | the patch over one list of entries; `ServeInEntries` states that an entry is served after it iff it was served or is the target |
| `Kitchen.ServeInCart` | frontend/src/Kitchen/Components/KitchenPage/kitchen.js:74-88 | the state update after a successful PUT; `ServeInCartFrame`, `ServeInCartIdempotent`, `ServedOrderAfterPatch` and `PatchIsMonotone` characterise it |
| `Kitchen.ServeInCartFrame` | frontend/src/Kitchen/Components/KitchenPage/kitchen.js:74-88 | only records with the selected id change; in them every item and every combo with the target id gets status "Served", everything else (other entries, fields, list lengths) is unchanged |
| `Kitchen.ServeInCartIdempotent` | frontend/src/Kitchen/Components/KitchenPage/kitchen.js:74-88 | applying the patch twice equals applying it once |
| `Kitchen.ServeInEntries` | frontend/src/Kitchen/Components/KitchenPage/kitchen.js:79-84 | after the patch an entry is served iff it was served or has the target id |
| `Kitchen.ServedOrderAfterPatch` | frontend/src/Kitchen/Components/KitchenPage/kitchen.js:74-88 | after the patch the order is all-served iff every entry other than the target was served: serving the last unserved entry moves the order to `all` |
| `Kitchen.PatchIsMonotone` | frontend/src/Kitchen/Components/KitchenPage/kitchen.js:74-88 | the patch never moves any order backwards in none, few, all |
| `Kitchen.ComputeBuckets` | frontend/src/Kitchen/Components/KitchenPage/kitchen.js:34-48 | the `forEach` loop returns exactly the three lists of the classification |
| `Kitchen.KitchenPage.constructor` | frontend/src/Kitchen/Components/KitchenPage/kitchen.js:8-16 | the initial state: no records, no selection, three empty lists, no error |
| `Kitchen.KitchenPage.RefreshStatuses` | frontend/src/Kitchen/Components/KitchenPage/kitchen.js:32-52 | with records, the lists become the classification of `cartItems`; with none, the previous lists are kept |
| `Kitchen.KitchenPage.LoadCart` | frontend/src/Kitchen/Components/KitchenPage/kitchen.js:18-30 | a successful fetch replaces `cartItems` and recomputes the lists; a failed one keeps them and stores the error message |
| `Kitchen.KitchenPage.HandleCardClick` | frontend/src/Kitchen/Components/KitchenPage/kitchen.js:102 | the clicked card's index becomes the selection |
| `Kitchen.KitchenPage.HandleFinishClick` | frontend/src/Kitchen/Components/KitchenPage/kitchen.js:54-100 | with no selection, an index past the end, no entry at the index of the list chosen by `isCombo`, or a failed request, nothing changes; on success `cartItems` becomes the patch for the selected order and the chosen entry's id, and the lists are recomputed |
| `Kitchen.KitchenPage.GetCardClass` | frontend/src/Kitchen/Components/KitchenPage/kitchen.js:104-109 | one of the three colours or `""`, and the success colour iff the id is in `all` |
| `TableOrders.Aggregate` | src/Admin/Components/TableOrdetList/TableOrderList.jsx:75-90 | one merged entry per distinct kept name, in first-occurrence order, each count the total of that name's counts |
| `TableOrders.First` | src/Admin/Components/TableOrdetList/TableOrderList.jsx:85 | the copied first occurrence carries the name it is stored under |
| `TableOrders.AggregateItems` | src/Admin/Components/TableOrdetList/TableOrderList.jsx:75-90 | the `reduce` into an insertion-ordered accumulator, followed by `Object.values`, returns exactly `Aggregate` |
| `TableOrders.TotalOfAbsent` | src/Admin/Components/TableOrdetList/TableOrderList.jsx:82-86 | a name not yet seen has contributed no count |
| `TableOrders.NamesDistinct` | src/Admin/Components/TableOrdetList/TableOrderList.jsx:82-89 | merged names are pairwise distinct |
| `TableOrders.NamesAreTheKeptNames` | src/Admin/Components/TableOrdetList/TableOrderList.jsx:77-89 | a name is merged iff some entry that is present and has a non-empty name carries it: null and nameless entries are skipped |
| `TableOrders.NamesNoLonger` | src/Admin/Components/TableOrdetList/TableOrderList.jsx:76-89 | the output is never longer than the input |
| `TableOrders.NamesOfPrefix` | src/Admin/Components/TableOrdetList/TableOrderList.jsx:76-89 | the names merged from any prefix of the input are a prefix of the output: names come in order of first occurrence |
| `TableOrders.TotalAppend` | src/Admin/Components/TableOrdetList/TableOrderList.jsx:83 | the count total for a name over `a + b` is its total over `a` plus its total over `b` |
| `TableOrders.FirstIsFirstOccurrence` | src/Admin/Components/TableOrdetList/TableOrderList.jsx:82-86 | the entry kept for a name is the one at the first index that carries it |
| `TableOrders.MergedFromFirstOccurrence` | src/Admin/Components/TableOrdetList/TableOrderList.jsx:82-86 | the merged entry is the first occurrence with all its other fields, and its count is the first occurrence's count plus the counts of all later same-named entries |
| `TableOrders.FirstOccurs` | src/Admin/Components/TableOrdetList/TableOrderList.jsx:85 | every merged entry (its count aside) is one of the kept input entries |
| `TableOrders.AggregateConservesCount` | src/Admin/Components/TableOrdetList/TableOrderList.jsx:82-86 | the merged counts sum to the sum of the counts of all kept entries |
| `TableOrders.DuplicateNamesAreSummed` | src/Admin/Components/TableOrdetList/TableOrderList.jsx:82-86 | `[Rice x2, Rice x3]` merges into `[Rice x5]` |
| `TableOrders.Select` | src/Admin/Components/TableOrdetList/TableOrderList.jsx:23-28 | the records of the chosen table, or all of them; `SelectAll` and `SelectTable` characterise it |
| `TableOrders.ItemsOf` | src/Admin/Components/TableOrdetList/TableOrderList.jsx:24 | the `flatMap` of the records' line items, record by record; `AllTablesFlattenIsReordering` relates it to `EntriesOf` |
| `TableOrders.CombosOf` | src/Admin/Components/TableOrdetList/TableOrderList.jsx:50 | the `flatMap` of the records' combos, record by record; `AllTablesFlattenIsReordering` relates it to `EntriesOf` |
| `TableOrders.EntriesOf` | src/Admin/Components/TableOrdetList/TableOrderList.jsx:55 | each record's line items followed by its combos, record by record; `AllTablesFlattenIsReordering` states it holds the same entries as items-then-combos |
| `TableOrders.FilterView` | src/Admin/Components/TableOrdetList/TableOrderList.jsx:18-33 | the merged line items of the chosen records (no combos), the value `HandleFilterChange` stores |
| `TableOrders.FetchView` | src/Admin/Components/TableOrdetList/TableOrderList.jsx:47-58 | the merged entries `fetchData` stores: all items then all combos for all tables, each record's items and combos for one table; `FetchData` and `ClickMarkAsPaid` store it |
| `TableOrders.SelectAll` | src/Admin/Components/TableOrdetList/TableOrderList.jsx:23-25 | with no table chosen, every record is used |
| `TableOrders.SelectTable` | src/Admin/Components/TableOrdetList/TableOrderList.jsx:27-29 | with a table chosen, exactly the records with that table number are used |
| `TableOrders.AllTablesFlattenIsReordering` | src/Admin/Components/TableOrdetList/TableOrderList.jsx:48-56 | all items and then all combos are the same entries as the record-by-record flattening, in another order |
| `TableOrders.TableNumbers` | src/Admin/Components/TableOrdetList/TableOrderList.jsx:44 | a table is marked as having data iff some record has that table number |
| `TableOrders.AllServed` | src/Admin/Components/TableOrdetList/TableOrderList.jsx:118-120 | every entry has status "Served"; `AllServedSurvivesMerge` and `LaterUnservedDuplicateIsHidden` relate it to the merge |
| `TableOrders.AllServedSurvivesMerge` | src/Admin/Components/TableOrdetList/TableOrderList.jsx:118-120 | if every kept entry is served, every merged entry is served, so the pay guard holds |
| `TableOrders.LaterUnservedDuplicateIsHidden` | src/Admin/Components/TableOrdetList/TableOrderList.jsx:118-120 | the converse fails: a served entry followed by an unserved one of the same name merges into an all-served list |
| `TableOrders.TableOrderList.constructor` | src/Admin/Components/TableOrdetList/TableOrderList.jsx:8-14 | the initial state: no data, list hidden, no table chosen, loading, no error, no tables with data |
| `TableOrders.TableOrderList.HandleFilterChange` | src/Admin/Components/TableOrdetList/TableOrderList.jsx:18-33 | the chosen table is stored, and the shown list is the merge of the line items (without combos) of the selected records |
| `TableOrders.TableOrderList.FetchData` | src/Admin/Components/TableOrdetList/TableOrderList.jsx:35-69 | a list reply replaces `data`, sets the tables with data to exactly its table numbers, and shows the merge of items and combos; a non-list or failed reply changes only the error |
| `TableOrders.TableOrderList.HandleToggle` | src/Admin/Components/TableOrdetList/TableOrderList.jsx:92-94 | the table view flips between shown and hidden |
| `TableOrders.TableOrderList.AreAllItemsFinished` | src/Admin/Components/TableOrdetList/TableOrderList.jsx:118-120 | `AllServed` of the shown list; `ClickMarkAsPaid` states a request is sent only when it holds |
| `TableOrders.TableOrderList.PaidButtonShown` | src/Admin/Components/TableOrdetList/TableOrderList.jsx:171-190 | the render path reaches the button: not loading, no error, list open, a table chosen, entries shown |
| `TableOrders.TableOrderList.PaidButtonEnabled` | src/Admin/Components/TableOrdetList/TableOrderList.jsx:212-215 | the button is shown and not disabled; `ClickMarkAsPaid` sends a request iff it holds |
| `TableOrders.TableOrderList.ClickMarkAsPaid` | src/Admin/Components/TableOrdetList/TableOrderList.jsx:96-116 | a request is sent iff the button is shown (table chosen, list non-empty) and enabled (every shown entry served); it carries the table number and the shown entries; without a request or on a failed POST nothing changes; after a successful POST the refetch reply gives the state `FetchData` gives for it: a list replaces the records, the tables with data and the shown list, a non-list or a failure keeps them and sets the matching error, and loading ends |
| `KitchenStocks.Toggle` | src/Kitchen/Components/KitchenStocks/kitchenStocks.js:139-140 | the requested status; `ToggleFlipsSwitch`, `ToggleInvolution` and `ToggleNormalisesOthers` characterise it |
| `KitchenStocks.Checked` | src/Kitchen/Components/KitchenStocks/kitchenStocks.js:37 | the switch is on iff the availability is "available"; `ToggleFlipsSwitch` states each toggle flips it |
| `KitchenStocks.ToggleFlipsSwitch` | src/Kitchen/Components/KitchenStocks/kitchenStocks.js:138-142 | the new status is "available" or "not available", and the checkbox state flips |
| `KitchenStocks.ToggleInvolution` | src/Kitchen/Components/KitchenStocks/kitchenStocks.js:139-140 | toggling twice from "available" or "not available" returns the original value |
| `KitchenStocks.ToggleNormalisesOthers` | src/Kitchen/Components/KitchenStocks/kitchenStocks.js:139-140 | any other stored value toggles to "available" and, a second time, to "not available" |
| `KitchenStocks.ImageIdOf` | src/Kitchen/Components/KitchenStocks/kitchenStocks.js:102 | the image id is what follows the fixed prefix in a card's URL |
| `KitchenStocks.ToFoodCards` | src/Kitchen/Components/KitchenStocks/kitchenStocks.js:100-109 | the food cards built from `/menu/stocks`; `FoodCardsFromRecords` characterises them |
| `KitchenStocks.ToComboCards` | src/Kitchen/Components/KitchenStocks/kitchenStocks.js:117-124 | the combo cards built from `/combos/combo`; `ComboCardsFromRecords` characterises them |
| `KitchenStocks.FoodCardsFromRecords` | src/Kitchen/Components/KitchenStocks/kitchenStocks.js:100-109 | mapping keeps length and order; `typeId` is the server `_id`, availability and name are copied, the URL is the prefix followed by `imageId`, which can be read back |
| `KitchenStocks.ComboCardsFromRecords` | src/Kitchen/Components/KitchenStocks/kitchenStocks.js:117-124 | the same for combos: `comboId` is `_id`, the URL is the combo prefix followed by `comboImage` |
| `KitchenStocks.SetFoodAvailability` | src/Kitchen/Components/KitchenStocks/kitchenStocks.js:159-163 | the food list after a successful PATCH; `SetFoodAvailabilityFrame`, `SetAvailabilityIdempotent` and `ToggleTwiceRestoresFood` characterise it |
| `KitchenStocks.SetComboAvailability` | src/Kitchen/Components/KitchenStocks/kitchenStocks.js:153-157 | the combo list after a successful PATCH; `SetComboAvailabilityFrame` and `SetAvailabilityIdempotent` characterise it |
| `KitchenStocks.SetFoodAvailabilityFrame` | src/Kitchen/Components/KitchenStocks/kitchenStocks.js:159-163 | only cards whose `typeId` is the id change, and only their availability; length and order stay |
| `KitchenStocks.SetComboAvailabilityFrame` | src/Kitchen/Components/KitchenStocks/kitchenStocks.js:153-157 | only combos whose `comboId` is the id change, and only their availability |
| `KitchenStocks.SetAvailabilityIdempotent` | src/Kitchen/Components/KitchenStocks/kitchenStocks.js:152-164 | setting the same status twice equals setting it once |
| `KitchenStocks.ToggleTwiceRestoresFood` | src/Kitchen/Components/KitchenStocks/kitchenStocks.js:138-163 | two successful flips of a two-valued card, each from the status then shown, restore the list |
| `KitchenStocks.KitchenStocksPage.constructor` | src/Kitchen/Components/KitchenStocks/kitchenStocks.js:87-90 | the initial state: no cards, loading, no error |
| `KitchenStocks.KitchenStocksPage.FetchFoodItemsImages` | src/Kitchen/Components/KitchenStocks/kitchenStocks.js:92-132 | the error is reset; the food reply becomes cards, then the combo reply does; a failure sets the error and stops, keeping what was already set |
| `KitchenStocks.KitchenStocksPage.UpdateAvailability` | src/Kitchen/Components/KitchenStocks/kitchenStocks.js:144-169 | on success `isCombo` selects the patched list and the other is untouched; on failure both are unchanged and the error is set |
| `KitchenStocks.KitchenStocksPage.HandleToggleChange` | src/Kitchen/Components/KitchenStocks/kitchenStocks.js:138-142 | requests the toggled status of the card's current one, with the effects of `UpdateAvailability` |

## Left out

- HTTP requests and endpoint URLs: each reply is a parameter of the handler
  that waits for it. Console logging and `alert` are left out; their
  branches are modelled.
- The `loading` flags are modelled only by their value after a handler
  finishes. Out-of-order completion of overlapping requests is left out: it
  is event-loop interleaving, not sequential logic.
- JSX rendering and CSS classes other than `getCardClass`. The Redux
  `dispatch` of the food cards (`kitchenStocks.js:110`) is left out. The
  render guards of "Mark as Paid" are kept: `PaidButtonShown` and
  `PaidButtonEnabled`.
- `parseFloat` on prices, the `toFixed` price display, and the
  `toLocaleTimeString`/`toLocaleDateString` fields of the paid request.
  They are floating-point and locale/clock dependent. Prices are carried as
  opaque strings.
- The table select value is a `Selection`: all tables, or one table number.
  The select only offers `""` and `"1"` to `"10"`, so `parseInt` is not
  modelled as string parsing.
- Plain-object quirks of the `aggregateItems` accumulator are left out:
  integer-like names being reordered, and names that collide with
  `Object.prototype` members.
- `TableOrders.Aggregate`: every entry has an integer `count`. Missing
  counts are not modelled. A first occurrence without a `count` that has no
  later duplicate is copied unchanged, so its merged entry has no count and
  the page shows "-". If a later entry of the same name follows, the sum is
  `undefined + n`, which is `NaN`. A later entry without a `count` adds 0.
  A missing `name` is modelled as the empty string, since both are skipped.
- `Kitchen.KitchenPage.LoadCart`: the reply body is always a list of cart
  records. The kitchen fetch stores `response.data` whatever its shape, with
  no list check. An object body leaves the three lists as they were, since
  its `length > 0` is false. A non-empty string makes the bucketing
  `forEach` throw. Neither case is modelled.
- Records with missing `items`/`combos`, or null entries inside a record's
  lists, are left out. In the source they make the kitchen board throw.
  Null entries are modelled only at the input of `aggregateItems`, which
  skips them.
- The input of `aggregateItems` is a sequence of values, so "the input
  entries are not modified" holds by construction. The source copies each
  first occurrence to get the same effect.
- The table list runs `fetchData` again whenever the chosen table changes,
  through its `useCallback` dependency. The model leaves this to the caller,
  which calls `FetchData` after `HandleFilterChange`.
- `Eg.jsx` (a logging stub and rendering), `EditBox.jsx` (form plumbing and a
  POST), `appRoutes.js` and `kitchenNavbar.js` (routing and navigation) are
  not part of this model.
