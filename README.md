# Belle Parfumerie storefront — a Dafny model of its core

Belle Parfumerie is a perfume shop's storefront. Its core is made of four parts, and this project models each one and proves properties of the model:

- **The cart** (`src/lib/CartContext.tsx`):
  - wholesale price tiers;
  - the per-tier effective price;
  - the id-keyed cart store and its add, remove and set-quantity operations;
  - the WhatsApp order message;
  - the localStorage wrapper that expires the cart after 30 days;
  - migration of carts saved by older versions.
- **The catalogue page** (`src/app/catalogo/page.tsx`):
  - a search and eight attribute filters;
  - a stock partition, with in-stock products first;
  - six sort keys;
  - the filter option lists built from the products;
  - the active-filter count;
  - lazy loading in batches of 12;
  - the modal's quantity steppers and its "add qty copies" loop.
- **The offers carousel** (`src/components/sections/Ofertas.tsx`):
  - promotional prices and badge labels;
  - the endless carousel drawn over three copies of the products on offer, with its wrap-around correction;
  - drag-end snapping;
  - the modal's add-to-cart.
- **The product chips** (`src/components/ui/ProductChips.tsx`): the ordered list of attribute chips. A chip is modelled as its label and the attribute it came from; its class list is `Style` of that attribute, and `StyleInjective` shows the two determine each other.

The files are:

| File | Module | Contents |
|---|---|---|
| `prelude.dfy` | Prelude | `Option`, the locale helpers, `Keep` (`Array.prototype.filter`), decimal printing and parsing |
| `products.dfy` | Products | the product record |
| `cart.dfy` | Cart | the cart |
| `storage.dfy` | ExpiringStorage | the expiring storage |
| `catalog_sort.dfy` | CatalogSort | the catalogue's sort keys and comparators |
| `catalog_filter.dfy` | CatalogFilter | the filter pipeline |
| `catalog_options.dfy` | CatalogOptions | the filter option lists |
| `catalog_page.dfy` | CatalogPage | the page state |
| `ofertas.dfy` | Ofertas | the offers section |
| `chips.dfy` | ProductChips | the chip list |

Modelling choices:

- **Locale helpers.** `toLowerCase`, `localeCompare(…, "es")` and `toLocaleString("es-AR")` are the three function values of a `Locale` parameter.
  - `lower` stands for `toLowerCase`.
  - `collate` maps a string to a real number. `localeCompare` is the sign of the difference of two such keys, so it is an arbitrary total preorder on strings.
  - `format` stands for `toLocaleString("es-AR")`.
- **Clock, window and DOM.** The clock `Date.now()` is an explicit `now` parameter. Whether the code runs in a browser (`typeof window`) is an explicit `inBrowser` flag, and whether the carousel's track element is mounted is a `trackMounted` flag.
- **Products.** The products come from a live feed (`useProducts`), which the model takes as an input sequence. A stock that is absent or not a number is `None`.
- **Prices.** Prices and percentages are integers.
- **Sorting.** `Array.prototype.sort` is modelled as an in-place insertion sort over an `array`, proved to leave the array ordered and a permutation of its input.
- **React state.** Each component's state is a `class`:
  - every `useState`/`useRef` slot is a field;
  - every handler is a method that names what it modifies;
  - the cart store is the `CartStore` class.
  - Loops in the source are `while` loops in methods: `handleAddFromModal` on both pages, and the chip pushes.

The model follows the code where the written description of the system disagrees with it:

- **No decant lines.** The cart has no decant lines and no `itemType`. `useCart` returns no `addDecant`, so the catalogue's decant button reaches a missing function. This is modelled as the outcome `AddDecantUnavailable`, and no line is added.
- **Message format.** The order message follows the template at `src/lib/CartContext.tsx:83`.

## Model

| member | source | states |
|---|---|---|
| Prelude.LocaleCompare | src/app/catalogo/page.tsx:275-279 | `localeCompare` is negative exactly when the first string collates before the second, and zero exactly when they collate together |
| Prelude.DecimalRoundTrip | src/lib/CartContext.tsx:55-64 | the timestamp written with `String(Date.now())` reads back with `Number(ts)` as the same number |
| Prelude.DecimalInjective | src/lib/CartContext.tsx:64 | different times give different timestamp strings |
| Prelude.Keep | src/app/catalogo/page.tsx:255-266 | `filter` returns only elements that pass and never lengthens the list |
| Prelude.KeepCount | src/app/catalogo/page.tsx:255-266 | `filter` keeps each passing element exactly as often as it occurs and drops every other |
| Prelude.KeepMembership | src/app/catalogo/page.tsx:255-266 | an element survives `filter` if and only if it occurs in the list and passes |
| Cart.GetPriceTier | src/lib/CartContext.tsx:25-29 | the tier is mayorista_10 if and only if the quantity is at least 10, mayorista_3 if and only if it is 3 to 9, and unitario if and only if it is below 3 |
| Cart.PriceTierMonotone | src/lib/CartContext.tsx:25-29 | a larger quantity never gives a lower tier |
| Cart.TierLabelInjective | src/lib/CartContext.tsx:31-37 | different tiers have different labels: "Mayorista 10+", "Mayorista 3+" and "Unitario" |
| Cart.FallbackChainUnfolds | src/lib/CartContext.tsx:39-45 | at mayorista_10 the price falls back from mayorista_10 to mayorista_3 to unitario; at mayorista_3 it falls back from mayorista_3 to unitario; at unitario it is unitario |
| Cart.GetEffectivePrice | src/lib/CartContext.tsx:39-45 | a missing price table gives 0; otherwise the price is the first present entry of the tier's fallback chain |
| Cart.EffectivePriceIgnoresHigherTiers | src/lib/CartContext.tsx:39-45 | the unitario tier never reads either wholesale price, and the mayorista_3 tier never reads mayorista_10 |
| Cart.EffectivePriceMonotone | src/lib/CartContext.tsx:39-45 | on a table whose wholesale prices do not exceed the unit price, a higher tier never charges more per unit |
| Cart.AddLineEffect | src/lib/CartContext.tsx:106-114 | adding an id already present turns that line into the same line with one more unit (name, marca, prices, image and legacy price unchanged) and leaves its position and every other line alone; a new id is appended with quantity 1 |
| Cart.ReAddKeepsFirstSnapshot | src/lib/CartContext.tsx:108-112 | adding the same id twice keeps the first call's name and prices, with quantity 2 |
| Cart.AddLinePreserves | src/lib/CartContext.tsx:106-114 | adding keeps ids unique, quantities positive and every line priced, and the id is then present |
| Cart.RemoveLinesEffect | src/lib/CartContext.tsx:116 | removing drops every line with the id, keeps every other line with its multiplicity, and preserves well-formedness and the price tables |
| Cart.SetQtyLinesEffect | src/lib/CartContext.tsx:118-124 | a quantity of 0 or less is the same as removing the id; otherwise the matching line gets exactly that quantity and nothing else changes |
| Cart.AddRepeatedExisting | src/lib/CartContext.tsx:106-110 | `n` adds of an id already present raise that one line by `n` and leave the others alone |
| Cart.AddRepeatedNew | src/lib/CartContext.tsx:111-113 | `n ≥ 1` adds of a new id append one line holding `n` units |
| Cart.AddLineCountsOne | src/lib/CartContext.tsx:106-114 | every add raises the item count by exactly one |
| Cart.ReduceQtyIsSum | src/lib/CartContext.tsx:131 | `reduce((s, i) => s + i.qty, 0)` is the sum of the quantities |
| Cart.ReduceTotalIsSum | src/lib/CartContext.tsx:81 | the total reduce is the sum of effective price times quantity |
| Cart.TotalQty | src/lib/CartContext.tsx:165 | the count is the sum of the line quantities |
| Cart.CartTotal | src/lib/CartContext.tsx:166-167 | the total is the sum of the line amounts at the tier of the count |
| Cart.OrderLinesInCartOrder | src/lib/CartContext.tsx:75-80 | one order line per cart line, in cart order |
| Cart.BuildWhatsAppMessage | src/lib/CartContext.tsx:73-84 | the message is built from the order lines at the tier of the quantity, the tier's label, the quantity, and the total of the line amounts |
| Cart.MigrateItemsEffect | src/lib/CartContext.tsx:141-150 | after migration every line has prices; a legacy line gets `{unitario: price ?? 0, mayorista_3: null, mayorista_10: null}` and nothing else about it changes; lines with prices are untouched; migration is idempotent |
| Cart.MigrateItemsPreserves | src/lib/CartContext.tsx:144-149 | migration keeps unique ids, positive quantities and the count |
| Cart.CartStore.constructor | src/lib/CartContext.tsx:101-102 | the store starts empty and closed |
| Cart.CartStore.SetIsOpen | src/lib/CartContext.tsx:104 | sets the drawer flag and nothing else |
| Cart.CartStore.AddItem | src/lib/CartContext.tsx:106-114 | the lines become `AddLine` of the old lines, the drawer opens, and the store invariant is kept |
| Cart.CartStore.RemoveItem | src/lib/CartContext.tsx:116 | the lines become `RemoveLines` of the old lines and the drawer flag is kept |
| Cart.CartStore.UpdateQty | src/lib/CartContext.tsx:118-124 | the lines become `SetQtyLines` of the old lines and the drawer flag is kept |
| Cart.CartStore.UseCart | src/lib/CartContext.tsx:156-170 | count, tier and total are recomputed from the current lines |
| Cart.CartStore.Checkout | src/lib/CartContext.tsx:128-135 | an empty cart gives no message; otherwise the message carries the same lines, tier, count and total that `useCart` shows, and the cart is unchanged |
| Cart.PersistRoundTrip | src/lib/CartContext.tsx:140-150 | lines that all carry price tables survive `partialize` and the migration on load unchanged |
| Cart.CartStore.Partialize | src/lib/CartContext.tsx:140 | only the lines are persisted, and on a valid store (every line priced) migrating them on load gives the same lines back |
| Cart.CartStore.Rehydrate | src/lib/CartContext.tsx:141-150 | the persisted lines come back migrated and the drawer flag is not restored; without a state nothing changes; a well-formed saved cart gives a valid store |
| ExpiringStorage.ExpiryWindow | src/lib/CartContext.tsx:48-58 | against a timestamp written at time t, the cart expires if and only if more than 30 days have passed; at exactly 30 days it is still valid |
| ExpiringStorage.NoTimestampNeverExpires | src/lib/CartContext.tsx:54-55 | without a timestamp nothing expires |
| ExpiringStorage.GetItem | src/lib/CartContext.tsx:52-61 | outside a browser it returns null; on expiry it deletes the value and the timestamp and returns null; otherwise it returns the stored value and changes nothing |
| ExpiringStorage.SetItem | src/lib/CartContext.tsx:62-65 | writes the value and refreshes the timestamp to `now` |
| ExpiringStorage.RemoveItem | src/lib/CartContext.tsx:66-69 | deletes the value and the timestamp |
| ExpiringStorage.WriteThenRead | src/lib/CartContext.tsx:52-65 | a value read back within 30 days of its write is returned unchanged; after that it is gone, together with the timestamp |
| CatalogSort.ParseSort | src/app/catalogo/page.tsx:268-285 | each of the six option labels selects its own comparator, and every other key (including "Relevancia") selects none |
| CatalogSort.CompareFlip | src/app/catalogo/page.tsx:268-285 | whenever a comparator puts `b` first, it puts `b` before `a` |
| CatalogSort.CompareTrans | src/app/catalogo/page.tsx:268-285 | every comparator's order is transitive |
| CatalogSort.SortedMeaning | src/app/catalogo/page.tsx:268-285 | a sorted list has unitario ascending or descending, nombre A-Z or Z-A, marca then nombre, or stock descending, according to the key |
| CatalogSort.SortProducts | src/app/catalogo/page.tsx:268-285 | the array ends up ordered by the key's comparator and holds the same products; the key that selects no comparator leaves it as it is |
| CatalogSort.InsertAt | src/app/catalogo/page.tsx:268-285 | one insertion step extends the ordered prefix by one element and keeps the array a permutation |
| CatalogFilter.PassesAllIsSelected | src/app/catalogo/page.tsx:245-262 | passing all nine steps means matching the search (a substring of lowercased nombre, marca, concentracion or notas) and every filter not at "Todas": equality for the four scalar fields, membership for the arrays, and a missing array excludes |
| CatalogFilter.FilterStep | src/app/catalogo/page.tsx:245-262 | filtering the output of the first n steps with step n gives the output of the first n + 1 steps |
| CatalogFilter.SkipStep | src/app/catalogo/page.tsx:245-262 | an inactive step (an empty search, or a filter at "Todas") changes nothing |
| CatalogFilter.MatchingEffect | src/app/catalogo/page.tsx:245-262 | the pipeline keeps exactly the selected products, each with its multiplicity |
| CatalogFilter.MatchingAppend | src/app/catalogo/page.tsx:245-262 | filtering runs element by element, so it distributes over concatenation and keeps the catalogue order |
| CatalogFilter.NoFilterKeepsAll | src/app/catalogo/page.tsx:243-262 | with no search and every filter at "Todas", every product is kept |
| CatalogFilter.MissingStockDropsOut | src/app/catalogo/page.tsx:265-266 | a product whose stock is not a number is in neither part |
| CatalogFilter.PartitionSplits | src/app/catalogo/page.tsx:265-266 | for numeric stocks the two parts together are a permutation of the filtered products |
| CatalogFilter.Filtered | src/app/catalogo/page.tsx:242-288 | every in-stock product comes before every out-of-stock one; each part is a permutation of its filtered part and is ordered by the sort key; unknown keys keep the filter order; a product is listed exactly when it matches and has a numeric stock |
| CatalogFilter.ListingMember | src/app/catalogo/page.tsx:287 | the concatenated list holds exactly the products of the two parts |
| CatalogFilter.ApplyFilters | src/app/catalogo/page.tsx:243-262 | the nine conditional filters give exactly the pipeline's specification |
| CatalogFilter.ApplyScalarFilters | src/app/catalogo/page.tsx:245-258 | the search and the four single-valued filters give the pipeline's first five steps |
| CatalogFilter.FilterWhen | src/app/catalogo/page.tsx:255-262 | one `if (f !== "Todas") items = items.filter(…)` advances the pipeline by one step |
| CatalogFilter.SortByStock | src/app/catalogo/page.tsx:264-287 | the split is the size of the in-stock part; each part is sorted and a permutation of its filter part |
| CatalogFilter.SortPart | src/app/catalogo/page.tsx:268-287 | `sortFn` on a copy returns it ordered and a permutation of its input, and unchanged for unknown keys |
| CatalogOptions.TruthyMembers | src/app/catalogo/page.tsx:55 | `filter(Boolean)` keeps exactly the present, non-empty strings |
| CatalogOptions.DedupEffect | src/app/catalogo/page.tsx:55 | `new Set` keeps each value once and loses none |
| CatalogOptions.SortEffect | src/app/catalogo/page.tsx:55 | the `localeCompare` sort gives a collation-sorted list holding the same values |
| CatalogOptions.UniqueShape | src/app/catalogo/page.tsx:54-55 | each option list is "Todas" followed by exactly the distinct non-empty values, without repetition, in collation order |
| CatalogOptions.FlatValuesMembers | src/app/catalogo/page.tsx:56-57 | `flatMap(a => a ?? [])` holds exactly the elements of the present arrays |
| CatalogOptions.FlatUniqueShape | src/app/catalogo/page.tsx:56-57 | for the array attributes, "Todas" followed by the distinct non-empty elements of any product's array, in collation order |
| CatalogOptions.OfferedGeneroMatches | src/app/catalogo/page.tsx:59 | choosing an offered gender alone leaves at least one product |
| CatalogOptions.OfferedTemporadaMatches | src/app/catalogo/page.tsx:63 | choosing an offered season alone leaves at least one product |
| CatalogPage.WithFilterEffect | src/app/catalogo/page.tsx:37-44 | a filter setter changes its own selection and no other |
| CatalogPage.KeepCountsActive | src/app/catalogo/page.tsx:70 | the filtered length counts the selections not at "Todas" one by one |
| CatalogPage.ActiveFilterCountIs | src/app/catalogo/page.tsx:70 | `activeFilterCount` is the number of the eight selections not at "Todas" |
| CatalogPage.ActiveFilterCountZero | src/app/catalogo/page.tsx:70 | the count is at most 8, and it is 0 exactly when every filter is at "Todas" |
| CatalogPage.BatchingClosedForm | src/app/catalogo/page.tsx:291-311 | after a reset and k sentinel hits, min(12·(k+1), length) products are visible |
| CatalogPage.AfterHitsFrom | src/app/catalogo/page.tsx:302 | each hit adds a batch of 12 up to the list length |
| CatalogPage.KeepsFull | src/app/catalogo/page.tsx:302 | once the whole list is visible, further hits change nothing |
| CatalogPage.BadgeVersusPartition | src/app/catalogo/page.tsx:265-266 | every out-of-stock product shows "Sin stock", as does an in-stock one without a unit price; an in-stock one with a non-zero unit price does not |
| CatalogPage.CatalogLineCharges | src/app/catalogo/page.tsx:197-203 | at every tier the cart charges a catalogue line the product's own price for that tier: 10+, else 3+, else the unit price (0 when absent) |
| CatalogPage.CatalogPageState.constructor | src/app/catalogo/page.tsx:30-49 | starts with an empty search, every filter at "Todas", "Relevancia", 12 visible and both steppers at 1 |
| CatalogPage.CatalogPageState.SetSearch | src/app/catalogo/page.tsx:30 | sets the search text only |
| CatalogPage.CatalogPageState.SetSort | src/app/catalogo/page.tsx:448 | sets the sort key only |
| CatalogPage.CatalogPageState.SetFilter | src/app/catalogo/page.tsx:37-44 | sets one filter only |
| CatalogPage.CatalogPageState.ClearFilters | src/app/catalogo/page.tsx:72-76 | resets all eight filters and the search, keeps the sort, and leaves no filter active |
| CatalogPage.CatalogPageState.ResetVisible | src/app/catalogo/page.tsx:291-293 | a change of the list resets the visible count to 12 |
| CatalogPage.CatalogPageState.SentinelHit | src/app/catalogo/page.tsx:300-303 | a sentinel hit sets the count to min(previous + 12, length) |
| CatalogPage.CatalogPageState.VisibleProducts | src/app/catalogo/page.tsx:311 | the visible list is the first min(visibleCount, length) products of the list |
| CatalogPage.CatalogPageState.Listing | src/app/catalogo/page.tsx:242-311 | the page lists exactly the matching products with a numeric stock, in-stock ones first, each part sorted by the chosen key and a permutation of its products, and shows the visible prefix |
| CatalogPage.CatalogPageState.OpenFlip | src/app/catalogo/page.tsx:111-116 | opening the modal resets both steppers to 1 |
| CatalogPage.CatalogPageState.CloseFlip | src/app/catalogo/page.tsx:189-192 | closing clears the modal's product and keeps the steppers |
| CatalogPage.CatalogPageState.DecQty | src/app/catalogo/page.tsx:880 | "−" lowers the quantity but never below 1 |
| CatalogPage.CatalogPageState.IncQty | src/app/catalogo/page.tsx:889 | "+" raises the quantity by one |
| CatalogPage.CatalogPageState.DecDecantQty | src/app/catalogo/page.tsx:921 | "−" lowers the decant quantity but never below 1 |
| CatalogPage.CatalogPageState.IncDecantQty | src/app/catalogo/page.tsx:930 | "+" raises the decant quantity by one |
| CatalogPage.CatalogPageState.HandleAddFromModal | src/app/catalogo/page.tsx:194-205 | `addItem` is called exactly `qty` times with the open product (none when `qty` is below 1), and nothing happens without one |
| CatalogPage.CatalogPageState.HandleAddDecantFromModal | src/app/catalogo/page.tsx:207-220 | the missing `addDecant` is reached if and only if a product is open and it has a decant price |
| CatalogPage.QuickAdd | src/app/catalogo/page.tsx:521-535 | the row or card button adds one unit unless the product shows as out of stock |
| CatalogPage.ModalAddEffect | src/app/catalogo/page.tsx:194-205 | adding q ≥ 1 copies raises the count by q and keeps the cart well-formed; for a new product it appends one line of q units |
| CatalogPage.ModalAddCounts | src/app/catalogo/page.tsx:202-204 | every loop iteration adds one unit |
| Ofertas.Discounted | src/components/sections/Ofertas.tsx:37 | `Math.round(x·(1 − d/100))` is the integer nearest to x·(100 − d)/100, with a tie rounding up |
| Ofertas.DiscountedBounds | src/components/sections/Ofertas.tsx:37 | 0% keeps the price, 100% makes it 0, and a percentage in [0, 100] keeps a non-negative price between 0 and itself |
| Ofertas.DiscountedMonotone | src/components/sections/Ofertas.tsx:286-298 | the same percentage keeps the order of two prices |
| Ofertas.GetOfferPrice | src/components/sections/Ofertas.tsx:34-40 | `precioOferta` wins when set; otherwise the rounded discount of unitario when both are set; otherwise `unitario ?? 0` |
| Ofertas.OfferPriceAtMostList | src/components/sections/Ofertas.tsx:34-40 | without an absolute price, the offer price is between 0 and the list price, and equals it when there is no percentage |
| Ofertas.GetOfferLabel | src/components/sections/Ofertas.tsx:42-44 | a non-empty etiqueta wins; otherwise "<d>% OFF" for a non-zero percentage; otherwise "OFERTA" |
| Ofertas.OfferLabelReadsBack | src/components/sections/Ofertas.tsx:42-44 | the badge is never empty, and a percentage badge parses back to its percentage |
| Ofertas.GetOfferPrices | src/components/sections/Ofertas.tsx:286-298 | each wholesale price is null exactly when the base is null; with a percentage each is discounted independently; without one they are copied; unitario is the offer price |
| Ofertas.OfferPricesKeepTierOrder | src/components/sections/Ofertas.tsx:286-298 | a percentage offer keeps the order unit ≥ mayorista_3 ≥ mayorista_10 of the table |
| Ofertas.InlinePricesAgree | src/components/sections/Ofertas.tsx:464-471 | the card button builds the same price table as `getOfferPrices` |
| Ofertas.OfferItemWithoutDiscount | src/components/sections/Ofertas.tsx:302-311 | without a promotional price or percentage the modal adds exactly the catalogue's line |
| Ofertas.OfferLineNeverDearer | src/components/sections/Ofertas.tsx:302-311 | with a percentage of at most 100 and non-negative prices, the cart never charges an offer line more than the catalogue line, at any tier |
| Ofertas.TrackIndex | src/components/sections/Ofertas.tsx:60 | card i of the tripled track is card i mod n of the source |
| Ofertas.TrackShape | src/components/sections/Ofertas.tsx:59-60 | the track shows exactly the products with an active offer, three times over, and is empty when no product is on offer |
| Ofertas.TrackPeriodic | src/components/sections/Ofertas.tsx:60 | every card recurs one set later |
| Ofertas.SetLen | src/components/sections/Ofertas.tsx:61 | `setLen` is at least 1, and equals the number of offers when there are any |
| Ofertas.CorrectLoopShift | src/components/sections/Ofertas.tsx:76-87 | the correction moves by exactly one set width or not at all, and leaves the offset alone exactly inside the band between the two thresholds |
| Ofertas.InitialOffsetFixed | src/components/sections/Ofertas.tsx:70-87 | the initial offset −setLen·STEP needs no correction exactly when setLen ≥ 2 |
| Ofertas.CorrectLoopShowsSameCard | src/components/sections/Ofertas.tsx:59-87 | from any card position of the track, the corrected offset is again a card position of the track showing the same product, so the jump is invisible |
| Ofertas.CorrectLoopKeepsBand | src/components/sections/Ofertas.tsx:76-112 | from inside the band, one step, or a move of up to setLen − 1 cards, lands back inside the band after correction |
| Ofertas.InitialOffsetInBand | src/components/sections/Ofertas.tsx:70 | the initial offset lies in the band |
| Ofertas.DragCards | src/components/sections/Ofertas.tsx:152 | `Math.round(|dx|/STEP) \|\| 1` is at least 1 |
| Ofertas.DragEndTarget | src/components/sections/Ofertas.tsx:149-156 | a drag of at most 70 px (CARD_W·0.25) returns to the start; a longer one moves a whole number of cards in the drag's direction |
| Ofertas.DragSnapsToNearestCard | src/components/sections/Ofertas.tsx:150-153 | a long drag snaps to the whole number of cards nearest the distance, a half card rounding up, and never to fewer than one card |
| Ofertas.Carousel.constructor | src/components/sections/Ofertas.tsx:59-74 | the carousel starts at the initial offset, not animating, with no drag, no modal, and a modal quantity of 1 |
| Ofertas.Carousel.AnimateTo | src/components/sections/Ofertas.tsx:89-95 | ignored while animating; otherwise it slides to the target and arms the settle timer |
| Ofertas.Carousel.Settle | src/components/sections/Ofertas.tsx:96-107 | the timer jumps to the corrected offset when the target needs correcting and the track is mounted, and always ends the animation |
| Ofertas.Carousel.GoNext | src/components/sections/Ofertas.tsx:111 | targets offset − STEP, unless an animation is running |
| Ofertas.Carousel.GoPrev | src/components/sections/Ofertas.tsx:112 | targets offset + STEP, unless an animation is running |
| Ofertas.Carousel.DragStart | src/components/sections/Ofertas.tsx:129-135 | ignored while animating; otherwise records the start and clears `didDrag` |
| Ofertas.Carousel.DragMove | src/components/sections/Ofertas.tsx:137-142 | the track follows the pointer, and more than 4 px of movement marks a drag |
| Ofertas.Carousel.DragEnd | src/components/sections/Ofertas.tsx:144-158 | ends the drag and animates to `DragEndTarget` |
| Ofertas.Carousel.OpenFlip | src/components/sections/Ofertas.tsx:198-203 | suppressed after a drag; otherwise opens the product with quantity 1 |
| Ofertas.Carousel.CloseFlip | src/components/sections/Ofertas.tsx:281-284 | closing clears the product |
| Ofertas.Carousel.DecModalQty | src/components/sections/Ofertas.tsx:729 | "−" never takes the quantity below 1 |
| Ofertas.Carousel.IncModalQty | src/components/sections/Ofertas.tsx:738 | "+" raises the quantity by one |
| Ofertas.Carousel.HandleAddFromModal | src/components/sections/Ofertas.tsx:300-313 | `addItem` is called exactly `modalQty` times with the `getOfferPrices` table (none when `modalQty` is below 1), and nothing happens without an open product |
| Ofertas.CardAdd | src/components/sections/Ofertas.tsx:456-475 | the card button adds one unit with the modal's table, unless the stock is ≤ 0 |
| ProductChips.StyleReadsBack | src/components/ui/ProductChips.tsx:7-14 | each style decodes back to its own attribute |
| ProductChips.StyleInjective | src/components/ui/ProductChips.tsx:7-14 | a chip's style is determined by, and determines, the attribute it came from |
| ProductChips.Labelled | src/components/ui/ProductChips.tsx:21-24 | one chip per label |
| ProductChips.LabelledAt | src/components/ui/ProductChips.tsx:21-24 | the k-th chip carries the k-th label and the attribute, so its class list is that attribute's style |
| ProductChips.ChipCount | src/components/ui/ProductChips.tsx:19-24 | the chip count is [genero non-empty] + [estilo non-empty] + the lengths of the four arrays, with absent arrays counting 0 |
| ProductChips.UptoAt | src/components/ui/ProductChips.tsx:19-24 | once an attribute's chips are pushed, its k-th chip stays at the attribute's offset plus k whatever is pushed later |
| ProductChips.UptoLength | src/components/ui/ProductChips.tsx:19-24 | later pushes never shorten the list below the end of an earlier attribute's block |
| ProductChips.ChipPosition | src/components/ui/ProductChips.tsx:19-24 | the k-th value of an attribute is the chip at that attribute's offset plus k, in the attribute's style: genero, then estilo, then each array in its own order |
| ProductChips.OffsetsOrdered | src/components/ui/ProductChips.tsx:19-24 | the chip blocks follow the attribute order |
| ProductChips.OtherFieldsIgnored | src/components/ui/ProductChips.tsx:19-24 | no field other than the six chip attributes changes the chips |
| ProductChips.NoChips | src/components/ui/ProductChips.tsx:19-26 | there are no chips exactly when genero and estilo are empty or absent and the four arrays are empty or absent |
| ProductChips.PushAll | src/components/ui/ProductChips.tsx:21-24 | a `forEach` push appends one chip per element, in order |
| ProductChips.BuildChips | src/components/ui/ProductChips.tsx:17-24 | the pushes build exactly the chip list |
| ProductChips.Render | src/components/ui/ProductChips.tsx:26-37 | renders nothing exactly when there are no chips, and otherwise renders the chips |

## Left out

- The card-flip modal's phase machine and geometry are not modelled. This covers the timers, `requestAnimationFrame`, DOM style writes, the viewport arithmetic with `clamp` and body-scroll locking. `CloseFlip` on both pages stands for the end of the closing animation.
- Autoplay is not modelled. This covers the 4-second interval, the `isPaused` flag and the 600 ms resume timeout after a drag. Mouse and touch handlers are not modelled separately; they only forward `clientX` to `DragStart`, `DragMove` and `DragEnd`.
- The carousel's initial render at offset 0 is not modelled; `Ofertas.Carousel.constructor` models the state after the mount effect. So does a change of the offer list after mount.
- `window.open` and the WhatsApp URL with `encodeURIComponent` are not modelled. `Checkout` returns the message instead.
- JSON serialisation, and zustand's `persist`/`createJSONStorage` machinery, are not modelled. `Partialize` and `Rehydrate` model what is stored and how it is migrated.
- Floating-point rounding is not modelled:
  - Ofertas.Discounted: rounds the exact rational x·(100 − d)/100; when the floating-point product lands just below a .5 boundary, `Math.round` can round down.
  - Percentages are whole numbers.
- `Number(ts)` is modelled only on the optional minus sign and decimal digits that `String(Date.now())` writes. Other numeric forms (spaces, exponents, hexadecimal, fractions) read as not a number.
- Decant lines, `itemType` and `addDecant` are not modelled, because the cart store defines none of them. The catalogue's decant button ends at `AddDecantUnavailable`.
- CatalogSort.SortProducts: states that the result is ordered and a permutation, but not that the sort is stable.
- CatalogSort.StockKey: treats an absent stock as 0. Products reach the sort only with a numeric stock, so this never matters.
- CatalogFilter.Filtered: a product whose stock is not a number is dropped, as in the code; `MissingStockDropsOut` states this.
- The product feed (`useProducts`, Firebase) is a parameter. `src/types/product.ts` is not part of this model; the `Product` record holds only the fields the core reads.
- `toLowerCase`, `localeCompare(…, "es")` and `toLocaleString("es-AR")` are function parameters, not their real Unicode behaviour.
- Ofertas.CorrectLoopKeepsBand: covers steps and moves of up to setLen − 1 cards. A longer drag can leave the band, as it can in the code.
- The chips' markup is not modelled: the wrapping `div`, the `key` strings and the layout classes. `ProductChips.Render` returns the chip list it would draw.
- CatalogPage.CatalogPageState.ResetVisible: the `useEffect` on `filtered` is a separate method; `SetSearch`, `SetFilter`, `SetSort` and `ClearFilters` keep `visibleCount`, and the caller must run `ResetVisible` after each of them, as React does after the re-render.
