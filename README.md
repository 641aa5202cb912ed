# shopDirect admin dashboard — a verified model of its logic

shopDirect is a React admin dashboard for an online shop. This project models, in Dafny, the
deterministic logic that sits between its HTTP calls and its screens, and proves properties of it.
One module per source file, plus shared helpers:

- **Analytics** (`src/services/apiAnalytics.js`) and **Dashboard** (`src/services/apiDashboard.js`):
  revenue totals, month-over-month changes with their divide-by-zero guard, the 12- and 7-month
  series, the category breakdown with its product-count fallback, top-product rankings, customer
  segments, recent-order digests and the "time ago" buckets. "Now" is a parameter. A calendar month is
  the number `year * 12 + month`.
- **ProductForm** (`src/components/ProductForm.jsx`), **ProductsPage** (`src/pages/Products.jsx`) and
  **Cache**: the field rules and the optimistic create, update and delete transforms on the
  `['products']` query cache. Each transform takes a snapshot, writes the optimistic list, restores
  the snapshot on failure and swaps in the server result on success. ProductsPage also covers the
  page-number window, the page resets and the image load/error sets.
- **Toasts**, **ToastMessages** and **Theme**: the toast list, the notification-text table with its
  fallbacks, and the theme-mode cycle.
- **OrdersPage**, **OrderDetailsPage**, **CustomersPage**, **CustomerDetailsPage** and
  **ProductDetailsPage**: the status classifiers, each file with its own mapping, plus filters,
  sorts, statistics, the order timeline and the image carousel.
- **ProductApi** (`src/services/apiProduct.js`), **ProductMetrics**
  (`src/features/products/useProductDetails.js`) and **Validation**: query parameters, the page count,
  form fields and per-product metrics. Validation holds the Signup and Login rules, with the two
  regular expressions written out as character-class predicates.
- **SettingsPage** (`src/pages/Settings.jsx`) and **FileInput** (`src/components/ui/FileInput.jsx`):
  form guards, resets and switches, and the file-list handlers.
- Helpers: **Seqs** (`filter`, sums, `slice`, `new Set`), **Tally** (a JavaScript object used as a
  counter, with insertion-ordered keys), **Sorting** (`Array.prototype.sort`, which is stable,
  modelled as insertion sort, both on a copy and in place on an array), **Text** (ASCII case, substring
  search, initials, code-point order, decimal rendering), **Numbers**, **Display**, **Entities** and
  **Wrappers**.

Where a component updates state step by step (the query cache, the toast list, the theme, the
settings forms, the carousel, the product list page), the model is a class whose methods state the
whole new state. Pure helpers are functions with lemmas relating them to independent definitions.

## Model

| member | source | states |
|---|---|---|
| Analytics.Round | src/services/apiAnalytics.js:211 | `Math.round` lands within half a unit of its argument, halves going up |
| Analytics.RoundTenth | src/services/apiAnalytics.js:250-252 | a change rounded to one decimal lies within 0.05 of the exact change |
| Analytics.ChangePercent | src/services/apiAnalytics.js:83-92 | with no previous value the change is 0 (the divide-by-zero guard); otherwise change × previous = (current − previous) × 100, positive exactly when current grew and 0 exactly when it stayed |
| Analytics.CreatedInMonth | src/services/apiAnalytics.js:56-62 | testing a date's month index and full year is the same as testing its month `year*12+month`; a missing date is in no month |
| Analytics.PreviousMonth | src/services/apiAnalytics.js:66-67 | the previous month's index is in 0..11 and it is exactly one month earlier |
| Analytics.PreviousMonthWraps | src/services/apiAnalytics.js:64-72 | the month before January is December of the year before: the "last month" filter tests month `now − 1` |
| Analytics.TotalProducts | src/services/apiAnalytics.js:47-50 | a non-zero numeric `total` wins, else a non-zero numeric `results`, else the number listed; the result is 0 only when nothing is listed |
| Analytics.ComputeStats | src/services/apiAnalytics.js:244-254 | the stats carry the sum of all order totals as revenue, the number of orders and customers, the given product count, and a products change of 0 |
| Analytics.StatsCompareAdjacentMonths | src/services/apiAnalytics.js:52-92 | the order, revenue and new-customer changes compare month `now` with month `now − 1`, also across a year boundary, rounded to one decimal |
| Analytics.StatsNoPreviousOrders | src/services/apiAnalytics.js:83-92 | with no order in the previous month both the order change and the revenue change are 0 |
| Analytics.RevenueNonNegative | src/services/apiAnalytics.js:41-44 | when no order has a negative price the total revenue is not negative |
| Analytics.Series | src/services/apiAnalytics.js:123-157 | a series over `n` months has exactly `n` points |
| Analytics.SeriesAt | src/services/apiAnalytics.js:123-128 | point `k` of a series is the point of month `first + k`: one point per month, oldest first |
| Analytics.SalesData | src/services/apiAnalytics.js:121-157 | the loop builds the twelve points ending with the current month, which comes last |
| Analytics.WindowStep | src/services/apiAnalytics.js:131-142 | widening a window by one month adds exactly that month's orders and revenue |
| Analytics.SeriesCountsWindow | src/services/apiAnalytics.js:131-154 | the order counts of the series add up to the number of orders created within its months: no order counts twice |
| Analytics.SeriesSalesWindow | src/services/apiAnalytics.js:139-153 | the monthly sales of the series add up to the revenue of the orders created within its months |
| Analytics.FoldItems | src/services/apiAnalytics.js:161-180 | the nested `forEach` over orders and their items folds the step over every line item in order |
| Analytics.CategoryBreakdown | src/services/apiAnalytics.js:159-196 | the loops produce the category totals: revenue per category, or product counts when no item had a product |
| Analytics.CategorySalesPerKey | src/services/apiAnalytics.js:163-177 | each category's value is the summed price × quantity of exactly the items whose product is in that category |
| Analytics.CategorySalesKeys | src/services/apiAnalytics.js:160-180 | categories are listed once each, and a category is listed exactly when some item with a product belongs to it |
| Analytics.CategorySalesTotal | src/services/apiAnalytics.js:175-176 | the category values add up to the revenue of all items that have a product |
| Analytics.CategoryFallbackExactly | src/services/apiAnalytics.js:182-196 | the revenue map is empty, and the product-count fallback taken, exactly when no line item has a product |
| Analytics.CategoryCountTotal | src/services/apiAnalytics.js:184-195 | in the fallback every product counts once: the counts add up to the number of products |
| Analytics.ChartSlices | src/services/apiAnalytics.js:198-214 | one slice per category in order, its value the rounded total and its colour `colors[k mod 8]` |
| Analytics.TopTallyPerName | src/services/apiAnalytics.js:217-230 | names are tallied once each; a name's units and revenue are those of exactly the items under it, items without a product name pooled under "Unknown Product" |
| Analytics.TopEntries | src/services/apiAnalytics.js:232-237 | one ranked entry per tallied name, in tally order, carrying that name, its units and its revenue; names stay distinct when the tally's keys are |
| Analytics.TopProducts | src/services/apiAnalytics.js:217-239 | the loop tallies every line item and then ranks the tally |
| Analytics.RankTopOrdered | src/services/apiAnalytics.js:238-239 | the ranking has min(10, names) entries in non-increasing revenue order, drawn from the tallied entries without repeats beyond them, the first earning the most of all and none left out earning more than the last one kept |
| Analytics.Percentage | src/services/apiAnalytics.js:301 | a segment's percentage is 0 when there are no customers and lies in 0..100 otherwise |
| Analytics.CustomerSegments | src/services/apiAnalytics.js:267-315 | three segments "New Customers", "Returning", "Loyal" counting customers with 0, 1–2 and ≥3 orders; the counts add up to the number of customers; each percentage is of that number |
| Analytics.NoOrdersAllNew | src/services/apiAnalytics.js:284-293 | with no orders every customer is new |
| Analytics.MatchStepSums | src/services/apiAnalytics.js:420-432 | the per-product loop adds up the units and revenue of exactly the items that reference the product |
| Analytics.ProductAnalytics | src/services/apiAnalytics.js:404-446 | exactly min(10, products) records, in non-increasing revenue order, drawn from the products' records without repeats beyond them, each the tally of one of the products, and no product left out earned more than the last one kept |
| Analytics.BestTenOrdered | src/services/apiAnalytics.js:443-446 | sorting by revenue and keeping ten keeps min(10, n) records, best first, drawn from the input, with nothing left out earning more than the last kept |
| Analytics.FoldsArePerformances | src/services/apiAnalytics.js:420-431 | the per-product folds over the orders' items equal the matched-item tallies |
| Analytics.TallyEach | src/services/apiAnalytics.js:415-439 | the loop builds, product by product, the record holding the units and revenue of exactly the order items that match that product |
| Dashboard.RankedSpec | src/services/apiDashboard.js:275-298 | filter, stable sort and slice keep `limit` of the kept elements (all when fewer), in comparator order, drawn from the kept elements without repeats beyond them; with a transitive comparator every kept element left out may follow the last one kept |
| Dashboard.RankedSorted | src/services/apiDashboard.js:292-298 | a filtered, sorted and sliced list is in comparator order |
| Dashboard.RankedFirst | src/services/apiDashboard.js:292-298 | the first element of a non-empty ranking may stand before every kept element of the input |
| Dashboard.TimeAgo | src/services/apiDashboard.js:491-522 | an invalid date gives "Unknown time", a future date "Just now"; otherwise the amount is the number of whole units elapsed, in the largest unit (60 s, 3600 s, 86400 s, 30 days, 365 days) that fits |
| Dashboard.RenderReadsBack | src/services/apiDashboard.js:508-517 | a label starts with the decimal digits of its amount, and those digits read back as the amount |
| Dashboard.SalesSeries | src/services/apiDashboard.js:149-175 | a chart over `n` months has exactly `n` bars |
| Dashboard.SalesSeriesAt | src/services/apiDashboard.js:149-160 | bar `k` is the bar of month `first + k`: oldest first, one per month |
| Dashboard.SalesData | src/services/apiDashboard.js:137-175 | the loop builds the seven bars ending with the current month, which comes last |
| Dashboard.SalesSeriesMatchesAnalytics | src/services/apiDashboard.js:149-175 | the seven bars agree in month, revenue and order count with the last seven points of the analytics page's twelve-month series |
| Dashboard.OrderLabel | src/services/apiDashboard.js:334 | "#" followed by the last eight characters of the id (all of a shorter id), upper-cased |
| Dashboard.CustomerName | src/services/apiDashboard.js:304-313 | never empty; "Unknown Customer" when the order has no user |
| Dashboard.StatusLabel | src/services/apiDashboard.js:316-325 | never empty, and one of the payment status, the order status, "Delivered", "Paid" or "Pending" |
| Dashboard.StatusPriority | src/services/apiDashboard.js:316-325 | the label follows the priority payment status, then order status, then delivered, then paid, then pending |
| Dashboard.ItemCountNonNegative | src/services/apiDashboard.js:328-331 | when no quantity is negative the item count is not negative |
| Dashboard.RecentOrders | src/services/apiDashboard.js:264-346 | one digest per selected order, in selection order, each with that order's label, customer name, total, status label, relative time and item count |
| Dashboard.RecentSelectionSpec | src/services/apiDashboard.js:275-298 | only orders with an id and a valid date are kept; `limit` of them (all when fewer), newest first, starting with the newest listable order of all |
| Dashboard.NewerFirstOrder | src/services/apiDashboard.js:291-296 | the newest-first comparator is total and transitive |
| Dashboard.RecentSelectionBest | src/services/apiDashboard.js:275-298 | the selection is drawn from the listable orders without repeats beyond them, and no listable order left out is newer than the last one selected |
| Dashboard.FindProduct | src/services/apiDashboard.js:419 | a found product is in the list and has the id as `_id` or `id`; nothing is found exactly when no product has it |
| Dashboard.PopTallyDistinct | src/services/apiDashboard.js:398-445 | the tally has one entry per product key |
| Dashboard.PopStepGet | src/services/apiDashboard.js:400-445 | one line item adds its units and revenue to the entry of its own product key and to no other |
| Dashboard.PopTallyPerKey | src/services/apiDashboard.js:398-445 | each product key's entry holds the units and revenue of exactly the items counted under that key |
| Dashboard.PopFallbackExactly | src/services/apiDashboard.js:447 | the tally is empty, and the rating fallback taken, exactly when no line item has a product |
| Dashboard.RatingCardList | src/services/apiDashboard.js:453-461 | one rating card per product, in order, each with the product's name, view count, rating and relative time, and without sales figures |
| Dashboard.SalesCardList | src/services/apiDashboard.js:469-477 | one sales card per tally entry, in order, each with the entry's name, views, rating, relative time, units sold and revenue |
| Dashboard.PopularProducts | src/services/apiDashboard.js:378-479 | the loop tallies every line item and then builds the cards |
| Dashboard.ByRatingTotal | src/services/apiDashboard.js:451 | the rating comparator orders any two products one way or the other, and transitively |
| Dashboard.ByPopRevenueTotal | src/services/apiDashboard.js:467 | the revenue comparator orders any two entries one way or the other, and transitively |
| Dashboard.RatingCardsSpec | src/services/apiDashboard.js:448-462 | exactly min(`limit`, named products) fallback cards, each the card of a named product other than "Unknown Product", drawn without repeats beyond the list, and no named product left out is rated above the last card |
| Dashboard.RatingCardsOrdered | src/services/apiDashboard.js:451 | the fallback cards come best rated first |
| Dashboard.SalesCardsSpec | src/services/apiDashboard.js:465-478 | exactly min(`limit`, named entries) sales cards, each the card of a tally entry with a real name, carrying its sales and revenue, drawn without repeats beyond the tally, and no named entry left out earned more than the last card |
| Dashboard.SalesCardsOrdered | src/services/apiDashboard.js:467 | the sales cards come highest revenue first |
| Dashboard.SalesCardListOrdered | src/services/apiDashboard.js:467-477 | cards made from entries in revenue order are in revenue order |
| Dashboard.PopularCardsChoice | src/services/apiDashboard.js:447-479 | the rating fallback is used exactly when no line item of any order has a product; otherwise the cards come from the sales tally |
| Display.FullInitials | src/pages/Customers.jsx:362-365 | "U" for an empty name; otherwise no longer than the name and with no lower-case letter |
| Display.ShortInitials | src/pages/OrderDetails.jsx:631-634 | at most two characters: "U" for an empty name, otherwise the first two of the full initials |
| Display.InitialsOfTwoWords | src/pages/Settings.jsx:427-430 | a two-word name gives the upper-cased first letter of each word, with or without the two-letter cap |
| Display.ShortInitialsDropThird | src/pages/CustomerDetails.jsx:353-356 | a three-word name has three full initials, of which the capped form keeps the first two |
| Display.ImageUrl | src/pages/OrderDetails.jsx:624-628 | nothing for a missing or empty path; a path starting with "http" unchanged; otherwise host, `/img/`, type and path |
| Display.ImageUrlIdempotent | src/pages/Customers.jsx:367-371 | a built URL passed through again comes back unchanged |
| Entities.MonthFields | src/services/apiAnalytics.js:131-137 | two months have equal year and month index exactly when they are the same month |
| ProductApi.KeysAppendIf | src/services/apiProduct.js:26 | a guarded append adds its parameter name at the end exactly when its condition holds |
| ProductApi.BuildQuery | src/services/apiProduct.js:25-31 | the successive `append` calls build the query parameters |
| ProductApi.QueryParamsKeys | src/services/apiProduct.js:25-31 | the names sent are those of the parameters that differ from the server's default, in append order |
| ProductApi.QueryKeysMembers | src/services/apiProduct.js:26-31 | each of page, limit, category, sort is present exactly when its condition holds, and "search" never is |
| ProductApi.QueryKeysOrdered | src/services/apiProduct.js:26-31 | the names present come in the order page, limit, category, sort |
| ProductApi.QueryParamsSent | src/services/apiProduct.js:26-31 | page is sent iff it is beyond 1, limit iff it is not 10, category iff it is non-empty and not "all", sort iff non-empty; search never |
| ProductApi.QueryParamsOrder | src/services/apiProduct.js:26-31 | the parameters are appended in the order page, limit, category, sort |
| ProductApi.QueryPageReadsBack | src/services/apiProduct.js:26 | a page beyond the first is the first parameter, written in digits that read back as the page |
| ProductApi.TotalPages | src/services/apiProduct.js:44 | no page count without a total or with a zero limit; otherwise the smallest count of `limit`-sized pages that holds the total |
| ProductApi.PagesCoverAll | src/services/apiProduct.js:39-45 | the response echoes the page asked for; every product lies on one of the counted pages and the last page is not empty |
| ProductApi.ImageFields | src/services/apiProduct.js:77-81 | one "images" entry per additional file |
| ProductApi.BuildForm | src/services/apiProduct.js:64-81 | the successive `append` calls build the multipart form |
| ProductApi.FilesUnderAppend | src/services/apiProduct.js:77-81 | the files sent under a name in a concatenated form are those of each part, in order |
| ProductApi.ImageFieldsFiles | src/services/apiProduct.js:77-81 | the image entries send exactly the additional files, in order, and no cover |
| ProductApi.NoFilesUnder | src/services/apiProduct.js:67-70 | a form without file entries sends no file under any name |
| ProductApi.FormFieldsSpec | src/services/apiProduct.js:101-115 | create and update send name, description, price and category first; the first cover file as the only cover; every additional image in order |
| Cache.Restore | src/components/ProductForm.jsx:443-445 | a snapshot that existed is written back to its key; other keys are untouched; with no snapshot nothing changes |
| Cache.RestoreUndoes | src/components/ProductForm.jsx:441-445 | restoring the snapshot taken of a key undoes any write that touched that key alone |
| Cache.QueryCache.Get | src/components/ProductForm.jsx:419 | `getQueryData` finds an entry exactly when the key is cached |
| Cache.QueryCache.Set | src/components/ProductForm.jsx:497 | `setQueryData` replaces the entry under its key and nothing else |
| Cache.QueryCache.SetList | src/components/ProductForm.jsx:433-436 | an updater's list becomes the `['products']` entry; an updater returning `undefined` changes nothing |
| Cache.QueryCache.RestoreFrom | src/components/ProductForm.jsx:504-509 | the cache afterwards is the restored cache |
| CustomerDetailsPage.RecentOrdersSpec | src/pages/CustomerDetails.jsx:456-458 | the recent orders are the first min(5, n) orders in their original order |
| CustomerDetailsPage.AverageOrder | src/pages/CustomerDetails.jsx:560 | the average order is 0 when there are no orders |
| CustomerDetailsPage.AverageTimesCount | src/pages/CustomerDetails.jsx:560 | the average times the number of orders gives back the total spend |
| CustomerDetailsPage.AverageNonNegative | src/pages/CustomerDetails.jsx:560 | with no negative order total the average is not negative |
| CustomersPage.TotalSpent | src/pages/Customers.jsx:387-390 | 0 for missing or empty orders, otherwise the sum of the order totals with a missing total as 0 |
| CustomersPage.TotalSpentNonNegative | src/pages/Customers.jsx:387-390 | with no negative order total the spend is not negative |
| CustomersPage.CustomerStatus | src/pages/Customers.jsx:403-417 | "active" exactly when some order is less than thirty days old, otherwise (no orders included) "inactive" |
| CustomersPage.LastOrderDate | src/pages/Customers.jsx:392-401 | no date for missing or empty orders |
| CustomersPage.LastOrderDateIsLatest | src/pages/Customers.jsx:392-401 | when every order has a date, the last order date is one of them and no order is later |
| CustomersPage.FilterCustomersSpec | src/pages/Customers.jsx:420-434 | a customer is listed iff it has a name and an email, its name or email contains the search case-insensitively, and the status filter is "all" or its status; nothing for a non-array |
| CustomersPage.CustomerLeTotal | src/pages/Customers.jsx:437-455 | every sort key's comparator orders any two customers one way or the other |
| CustomersPage.FilteredCustomers | src/pages/Customers.jsx:420-458 | the in-place sort leaves the same customers as the filter, in the order the sort key asks for; an unknown key keeps the filtered order |
| CustomersPage.Stats | src/pages/Customers.jsx:461-491 | all zero for a non-array; otherwise the total is the number of customers, `active` counts the customers whose status is "active", `newThisMonth` counts those who joined within thirty days of now, and neither count exceeds the total |
| CustomersPage.StatsCounts | src/pages/Customers.jsx:472-484 | the two filtered counts are the numbers of positions holding an active customer and a customer who joined within thirty days |
| CustomersPage.RevenueIsOrderTotal | src/pages/Customers.jsx:474 | the revenue figure is the sum of the totals of every customer's orders |
| Numbers.CeilDiv | src/features/products/useProductDetails.js:65 | `Math.ceil(n / d)` for a positive divisor is the least integer `r` with `n <= d * r` |
| OrderDetailsPage.DetailStatus | src/pages/OrderDetails.jsx:594-599 | "delivered" iff delivered; else "shipped" iff paid, "pending" iff payment pending, "processing" for any other payment status |
| OrderDetailsPage.StatusNamesCorrespond | src/pages/OrderDetails.jsx:594-599 | the list and the details agree on "delivered"; the list's "cancelled" is the details' "pending"; the list's "processing" is "shipped" or "processing" here |
| OrderDetailsPage.TotalItems | src/pages/OrderDetails.jsx:693 | 0 with no items, and 0 when some item lacks a quantity (the sum is NaN, which the fallback to 0 replaces) |
| OrderDetailsPage.TotalItemsMatchesDashboard | src/pages/OrderDetails.jsx:693 | when every item has a quantity the count equals the sum of quantities the dashboard shows |
| OrderDetailsPage.TimelineInOrder | src/pages/OrderDetails.jsx:862-886 | delivery lit implies shipping lit implies payment lit; payment is dark iff the order is undelivered with payment pending; shipping is lit iff delivered or paid |
| OrderDetailsPage.Toggled | src/pages/OrderDetails.jsx:651-656 | the toggled section flips (an unknown one becomes open) and every other section is unchanged |
| OrderDetailsPage.ToggleTwice | src/pages/OrderDetails.jsx:651-656 | toggling a known section twice restores the sections |
| OrderDetailsPage.OrderView.constructor | src/pages/OrderDetails.jsx:641-648 | every section starts open and no image has failed |
| OrderDetailsPage.OrderView.ToggleSection | src/pages/OrderDetails.jsx:651-656 | the sections become the toggled sections; the failed images are unchanged |
| OrderDetailsPage.OrderView.ImageFailed | src/pages/OrderDetails.jsx:787 | the image's key joins the failed set; the sections are unchanged |
| OrdersPage.ListStatus | src/pages/Orders.jsx:327-332 | "delivered" iff delivered; else "cancelled" iff payment pending, and "processing" otherwise (paid included) |
| OrdersPage.Statuses | src/pages/Orders.jsx:346 | one status per order, the i-th being the status the list shows for the i-th order |
| OrdersPage.UniqueStatuses | src/pages/Orders.jsx:344-348 | the options always start with "all" |
| OrdersPage.UniqueStatusesSpec | src/pages/Orders.jsx:344-348 | no orders give `["all"]`; after "all" each status some order shows appears exactly once, in first-occurrence order |
| OrdersPage.StatsSpec | src/pages/Orders.jsx:399-402 | every order shows exactly one status so the counts add up to the total; "delivered" orders are the delivered figure; "cancelled" ones are among the pending figure |
| OrdersPage.FilterSame | src/pages/Orders.jsx:405-414 | two conditions that agree on every order filter alike |
| OrdersPage.FilterOrdersSpec | src/pages/Orders.jsx:405-414 | an order is listed iff it matches the search on id, `_id`, user name or email and the status filter; an empty search with "all" lists every order with an `_id`, in order |
| OrdersPage.OrderLeTotal | src/pages/Orders.jsx:417-428 | every sort key's comparator orders any two orders one way or the other |
| OrdersPage.SortOrdersSpec | src/pages/Orders.jsx:417-428 | sorting is a permutation of the filtered list, in the chosen order, and an unknown key keeps the list as it was |
| OrdersPage.SortByDateNewestFirst | src/pages/Orders.jsx:418-419 | when every order is dated, sorting by date puts the newest first |
| ProductDetailsPage.AllImages | src/pages/ProductDetails.jsx:569 | the gallery is the cover followed by the other images |
| ProductDetailsPage.ArrowsShownIff | src/pages/ProductDetails.jsx:649-658 | the arrows are drawn exactly when the product has at least one image besides the cover |
| ProductDetailsPage.ArrowsInverse | src/pages/ProductDetails.jsx:514-526 | within `0 .. images.length − 1` Next and Previous stay in range and undo each other |
| ProductDetailsPage.LastImageSkipped | src/pages/ProductDetails.jsx:521-526 | as written, the arrows never reach the last gallery image, and Next from it moves past the end |
| ProductDetailsPage.SecondImageNeverShown | src/pages/ProductDetails.jsx:521-526 | with a cover and one image, Next from the cover stays on the cover |
| ProductDetailsPage.IntendedNext | src/pages/ProductDetails.jsx:521-526 | the corrected Next stays within the gallery |
| ProductDetailsPage.IntendedPrevious | src/pages/ProductDetails.jsx:514-519 | the corrected Previous stays within the gallery and the corrected Next undoes it |
| ProductDetailsPage.NextTimes | src/pages/ProductDetails.jsx:521-526 | repeated corrected Next presses stay within the gallery |
| ProductDetailsPage.IntendedVisitsAll | src/pages/ProductDetails.jsx:521-526 | with the corrected wrap, `k` presses from the cover show image `k`, and a full round returns to the cover |
| ProductDetailsPage.Gallery.constructor | src/pages/ProductDetails.jsx:498 | the gallery starts on the cover |
| ProductDetailsPage.Gallery.Next | src/pages/ProductDetails.jsx:521-526 | no change without an `images` field; otherwise the as-written Next step |
| ProductDetailsPage.Gallery.Previous | src/pages/ProductDetails.jsx:514-519 | no change without an `images` field; otherwise the as-written Previous step |
| ProductDetailsPage.Gallery.Select | src/pages/ProductDetails.jsx:510-512 | picking a thumbnail moves to its index |
| ProductDetailsPage.Gallery.Current | src/pages/ProductDetails.jsx:570 | an image is shown exactly when the index lies within the gallery |
| ProductDetailsPage.AnalyticsShown | src/pages/ProductDetails.jsx:573-582 | the hook's figures when present; otherwise zero counters, the stock level, and a reorder point of ceil(stock × 0.2) |
| ProductForm.Submit | src/components/ProductForm.jsx:542-557 | a create without a cover image is stopped; the form updates iff the edited product has an `_id`, sending that id and the data; otherwise it creates, with a cover |
| ProductForm.NameError | src/components/ProductForm.jsx:580-590 | the name passes iff it has 3 to 100 characters; an empty name reports "Product name is required" |
| ProductForm.DescriptionError | src/components/ProductForm.jsx:647-657 | the description passes iff it has 10 to 1000 characters; an empty one reports "Description is required" |
| ProductForm.CategoryError | src/components/ProductForm.jsx:598-600 | the category passes iff one is chosen |
| ProductForm.PriceError | src/components/ProductForm.jsx:619-626 | the price passes iff it is given and at least 0.01; an empty field reports "Price is required" |
| ProductForm.FieldsValidMeans | src/components/ProductForm.jsx:578-657 | the form passes its rules iff name has 3–100 characters, a category is chosen, the price is at least 0.01 and the description has 10–1000 characters |
| ProductForm.Prepend | src/components/ProductForm.jsx:433-436 | the new record comes first, followed by the cached list, or alone when none was cached |
| ProductForm.ReplaceFlagged | src/components/ProductForm.jsx:452-457 | an absent list becomes the created product alone; otherwise every flagged record becomes the created product and every other record is kept, in place |
| ProductForm.ReplaceById | src/components/ProductForm.jsx:491-493 | the list keeps its length; every record with the id is replaced and every other record kept, in place |
| ProductForm.ReplaceByIdTwice | src/components/ProductForm.jsx:514-521 | replacing by id with a record that keeps the id, then replacing again, is one replacement with the second record |
| ProductForm.OptimisticCreate | src/components/ProductForm.jsx:422-430 | the optimistic record is flagged, has zero ratings and the creation time, a `temp-` id unless the submission has an `_id`, and every other submitted field |
| ProductForm.OptimisticUpdate | src/components/ProductForm.jsx:482-486 | the optimistic record is flagged; every other field comes from the patch when it has one, else from the edited product |
| ProductForm.OptimisticUpdateKeepsId | src/components/ProductForm.jsx:482-493 | a patch without an `_id` keeps the edited product's id, so the record lands where the list held it |
| ProductForm.CreateRollback | src/components/ProductForm.jsx:441-445 | a failed create restores the cached list exactly; when no list was cached the optimistic record stays as a one-element list |
| ProductForm.CreateThenSucceed | src/components/ProductForm.jsx:433-457 | a create that succeeds after its optimistic write leaves the server's product in front of the earlier list (or alone) |
| ProductForm.UpdateKeepsOthers | src/components/ProductForm.jsx:488-497 | an update leaves an absent list absent, writes the record to `['product', id]`, and touches no other entry |
| ProductForm.UpdateRollback | src/components/ProductForm.jsx:502-509 | a failed update with both snapshots restores the cache exactly |
| ProductForm.UpdateThenSucceed | src/components/ProductForm.jsx:514-523 | success after the optimistic write is the same as writing the server's product once |
| ProductForm.CreateOnMutate | src/components/ProductForm.jsx:414-440 | the context holds the snapshot and the optimistic record, which is put in front of the list |
| ProductForm.CreateOnError | src/components/ProductForm.jsx:441-445 | the list snapshot is restored when there was one |
| ProductForm.CreateOnSuccess | src/components/ProductForm.jsx:450-457 | flagged records become the server's product |
| ProductForm.UpdateOnMutate | src/components/ProductForm.jsx:472-501 | the context holds both snapshots and the optimistic record, written to the list and to `['product', id]` |
| ProductForm.UpdateOnError | src/components/ProductForm.jsx:502-509 | each snapshot that existed is restored |
| ProductForm.UpdateOnSuccess | src/components/ProductForm.jsx:514-523 | the server's product is written to the list and to `['product', id]` |
| ProductMetrics.ReorderPoint | src/features/products/useProductDetails.js:65 | a fifth of the stock rounded up: the least `r` with stock ≤ 5r |
| ProductMetrics.FindByName | src/features/products/useProductDetails.js:45-47 | a found entry is the first one whose name equals the product's; nothing is found iff no entry has that name |
| ProductMetrics.ConversionRate | src/features/products/useProductDetails.js:54-59 | 0 without views; otherwise rate × views = sales × 100 |
| ProductMetrics.AverageOrderValue | src/features/products/useProductDetails.js:60-63 | 0 without sales; otherwise average × sales = revenue |
| ProductMetrics.DaysInStock | src/features/products/useProductDetails.js:66-69 | 0 without stock; otherwise ceil(sales / 30) |
| ProductMetrics.ProductAnalytics | src/features/products/useProductDetails.js:42-84 | null iff the product or the analytics list is missing; the stock level and reorder point come from the product in both branches |
| ProductMetrics.MatchedFigures | src/features/products/useProductDetails.js:49-70 | with a matching entry the figures are that entry's, with the derived rates |
| ProductMetrics.UnmatchedFigures | src/features/products/useProductDetails.js:73-83 | without a match the views are the rating count and sales, revenue, rates and days are 0 |
| ProductsPage.RemoveByIdSpec | src/pages/Products.jsx:610-613 | a record stays iff its id differs, and as many records go as carried the id |
| ProductsPage.RemoveByIdIdempotent | src/pages/Products.jsx:612 | deleting twice is deleting once; a list without the id is unchanged |
| ProductsPage.DeleteRollback | src/pages/Products.jsx:618-622 | a failed delete restores the cached list exactly; an absent list was never written |
| ProductsPage.DeleteOnMutate | src/pages/Products.jsx:604-617 | returns the snapshot and removes the id from the cached list |
| ProductsPage.DeleteOnError | src/pages/Products.jsx:618-622 | the list snapshot is restored when there was one |
| ProductsPage.UniqueCategories | src/pages/Products.jsx:497-506 | the options start with "All Categories" |
| ProductsPage.UniqueCategoriesSpec | src/pages/Products.jsx:497-506 | "All Categories" first, then one option per category in input order; a missing list gives the first option alone |
| ProductsPage.OrOne | src/pages/Products.jsx:704 | falling back to 1 on a falsy value never yields 0 |
| ProductsPage.PageWindow | src/pages/Products.jsx:924-934 | the window has min(5, totalPages) numbers |
| ProductsPage.PageWindowSpec | src/pages/Products.jsx:924-934 | min(5, totalPages) consecutive numbers, all within 1..totalPages, including the current page whenever it is a real page |
| ProductsPage.PreviousNextStayInRange | src/pages/Products.jsx:916-951 | Previous is disabled exactly on page 1 and Next exactly on the last page; an enabled button leads to a real page |
| ProductsPage.PageState.constructor | src/pages/Products.jsx:511-515 | page 1 of 10, no search, all categories, newest first |
| ProductsPage.PageState.ChangePage | src/pages/Products.jsx:646-650 | the page changes and nothing else |
| ProductsPage.PageState.ChangeLimit | src/pages/Products.jsx:652-656 | the limit changes and the page goes back to 1 |
| ProductsPage.PageState.ChangeSearch | src/pages/Products.jsx:658-661 | the search changes and the page goes back to 1 |
| ProductsPage.PageState.ChangeCategory | src/pages/Products.jsx:663-666 | the category changes and the page goes back to 1 |
| ProductsPage.PageState.ChangeSort | src/pages/Products.jsx:668-671 | the sort changes and the page goes back to 1 |
| ProductsPage.ImageSets.constructor | src/pages/Products.jsx:516-517 | nothing loading and nothing failed |
| ProductsPage.ImageSets.LoadStart | src/pages/Products.jsx:535-542 | the id is loading and no longer failed |
| ProductsPage.ImageSets.LoadSuccess | src/pages/Products.jsx:545-556 | the id is neither loading nor failed |
| ProductsPage.ImageSets.LoadError | src/pages/Products.jsx:559-564 | the id is no longer loading; the failure is not yet recorded |
| ProductsPage.ImageSets.ErrorDelayElapsed | src/pages/Products.jsx:567-569 | two seconds later the id is recorded as failed |
| ProductsPage.ImageSets.ClearError | src/pages/Products.jsx:573-579 | the id is no longer failed |
| Toasts.WithoutSpec | src/contexts/ToastContext.jsx:36-38 | removing an id keeps exactly the toasts with another id; the id is gone and every other id stays |
| Toasts.AddThenRemove | src/contexts/ToastContext.jsx:29-38 | showing a toast under a fresh id and then dismissing that id gives back the list as it was |
| Toasts.ToastList.constructor | src/contexts/ToastContext.jsx:27 | the provider starts with no toasts |
| Toasts.ToastList.AddToast | src/contexts/ToastContext.jsx:29-34 | the toast is appended after the existing ones under the given id, and that id is returned |
| Toasts.ToastList.RemoveToast | src/contexts/ToastContext.jsx:36-38 | the new list is the old one without the toasts carrying that id (see WithoutSpec) |
| Toasts.ToastList.ShowToast | src/contexts/ToastContext.jsx:40-42 | appends a toast of the given type, title and message, with a display time of 5000 when none is given |
| Toasts.ToastList.Success | src/contexts/ToastContext.jsx:44-46 | appends a toast of type "success" |
| Toasts.ToastList.Error | src/contexts/ToastContext.jsx:48-50 | appends a toast of type "error" |
| Toasts.ToastList.Warning | src/contexts/ToastContext.jsx:52-54 | appends a toast of type "warning" |
| Toasts.ToastList.Info | src/contexts/ToastContext.jsx:56-58 | appends a toast of type "info" |
| Toasts.ToastList.ClearAll | src/contexts/ToastContext.jsx:60-62 | no toast is left |
| Theme.InitialMode | src/contexts/ThemeContext.jsx:166-173 | the first mode is always a known mode: the saved one when it is "light", "dark" or "auto", otherwise "auto" |
| Theme.NextMode | src/contexts/ThemeContext.jsx:245-251 | a toggle always lands on a known mode |
| Theme.ToggleCycle | src/contexts/ThemeContext.jsx:245-251 | toggling cycles light, dark, auto: three toggles return to the start and one or two never do |
| Theme.Resolve | src/contexts/ThemeContext.jsx:175-196 | the dark theme shows exactly when the mode is "dark", or "auto" while the system prefers dark |
| Theme.ReloadKeepsMode | src/contexts/ThemeContext.jsx:166-173 | a saved known mode is read back unchanged on the next load |
| Theme.ThemeState.constructor | src/contexts/ThemeContext.jsx:166-185 | mounting picks the initial mode, shows the theme it resolves to and keeps local storage in step with the mode |
| Theme.ThemeState.Toggle | src/contexts/ThemeContext.jsx:188-213 | the mode moves to the next one, the theme follows it and local storage is updated |
| Theme.ThemeState.SetTheme | src/contexts/ThemeContext.jsx:253-257 | a known mode is taken, shown and stored; any other value leaves mode, theme and storage unchanged |
| Theme.ThemeState.SystemChange | src/contexts/ThemeContext.jsx:200-207 | a change of the system preference moves the theme only in "auto" mode; the mode and storage stay |
| ToastMessages.Find | src/utils/toastMessages.js:279 | a key lookup finds an entry listed under that key, and finds nothing exactly when no entry has that key |
| ToastMessages.GetToastMessage | src/utils/toastMessages.js:276-290 | the table entry when the category, operation and level all exist, the generic "Operation Completed" text otherwise |
| ToastMessages.GetErrorMessage | src/utils/toastMessages.js:293-304 | the error entry's title is always kept; a non-empty custom error replaces its message, otherwise the entry is returned unchanged |
| ToastMessages.ProductCreateMessages | src/utils/toastMessages.js:5-16 | creating a product yields "Product Created", and a custom error keeps the "Creation Failed" title |
| ToastMessages.DirectCategoryFallsBack | src/utils/toastMessages.js:276-283 | in a category whose entries hold a title and message directly, a success or error lookup gives the generic text |
| ToastMessages.DirectEntriesFallBack | src/utils/toastMessages.js:239-273 | the network and validation categories never answer a success or error lookup with their own text |
| ToastMessages.LogoutErrorFallsBack | src/utils/toastMessages.js:118-123 | logging out has no error entry, so its error message is the generic text |
| ToastMessages.UnknownCategoryFallsBack | src/utils/toastMessages.js:276-283 | an unknown category yields the generic text whatever the operation and level |
| SettingsPage.OrEmpty | src/pages/Settings.jsx:478-479 | a missing name or e-mail becomes the empty string; a present one is kept |
| SettingsPage.ToggleChannel | src/pages/Settings.jsx:680-710 | a switch click flips that one notification channel and leaves the other three as they were |
| SettingsPage.ToggleChannelInverse | src/pages/Settings.jsx:680-710 | flipping a switch twice restores all switches, and two different switches can be flipped in either order |
| SettingsPage.ButtonsMatchGuards | src/pages/Settings.jsx:652 | each update button is disabled exactly when an update is in flight or its submit handler would return early |
| SettingsPage.PasswordGuardNeedsAgreement | src/pages/Settings.jsx:522-523 | a password change is only sent with a non-empty new password that equals its confirmation |
| SettingsPage.SettingsState.constructor | src/pages/Settings.jsx:451-468 | empty profile and password forms, no avatar, both panels hidden, and e-mail and SMS notifications on |
| SettingsPage.SettingsState.UserLoaded | src/pages/Settings.jsx:476-481 | a loaded user fills the e-mail and name fields (empty when missing); without a user nothing changes |
| SettingsPage.SettingsState.Toggle | src/pages/Settings.jsx:680-710 | only the notification switches change, by ToggleChannel |
| SettingsPage.SettingsState.SubmitProfile | src/pages/Settings.jsx:485-498 | an update of e-mail, name and avatar is sent exactly when not all three are empty |
| SettingsPage.SettingsState.ProfileUpdated | src/pages/Settings.jsx:492-495 | after a saved update the avatar choice is dropped and its upload hidden; the rest stays |
| SettingsPage.SettingsState.CancelProfile | src/pages/Settings.jsx:500-505 | the profile form goes back to the user's e-mail and name (empty without a user), with no avatar |
| SettingsPage.SettingsState.AvatarChosen | src/pages/Settings.jsx:507-512 | the first picked file becomes the avatar; picking nothing keeps the current one |
| SettingsPage.SettingsState.RemoveAvatar | src/pages/Settings.jsx:514-517 | the avatar is dropped and its upload hidden; the rest stays |
| SettingsPage.SettingsState.SubmitPassword | src/pages/Settings.jsx:520-536 | a change is sent exactly when all three fields are filled and the new password equals its confirmation |
| SettingsPage.SettingsState.PasswordChanged | src/pages/Settings.jsx:528-533 | after a saved change the three password fields are empty and the form hidden; the profile is untouched |
| SettingsPage.SettingsState.CancelPassword | src/pages/Settings.jsx:538-543 | cancelling clears the three password fields and hides the form; the profile is untouched |
| FileInput.SafeValue | src/components/ui/FileInput.jsx:234 | a value that is not an array is shown as the empty list; an array is kept |
| FileInput.PickedFiles | src/components/ui/FileInput.jsx:236-239 | the picked files are passed on as a list, the empty list when there are none |
| FileInput.WithoutIndexSpec | src/components/ui/FileInput.jsx:243 | filtering out position `index` removes exactly that file and keeps the others in order; an index out of range removes nothing |
| FileInput.HandleRemove | src/components/ui/FileInput.jsx:241-245 | with an `onChange` the list without the removed position is passed on, without one nothing is passed |
| FileInput.RemoveFromNonArray | src/components/ui/FileInput.jsx:234-244 | removing from a value that is not an array passes on the empty list |
| FileInput.RemoveShortens | src/components/ui/FileInput.jsx:241-244 | an in-range removal shortens the list by one, keeping the files before and shifting those after |
| Validation.LengthError | src/components/ProductForm.jsx:582 | a text field with required, minimum and maximum length passes exactly when it is non-empty and its length is within the bounds |
| Validation.RequiredError | src/pages/Login.jsx:269-271 | a required field passes exactly when it is non-empty, and otherwise reports its message |
| Validation.FirstIndex | src/pages/Signup.jsx:276 | the position of the first occurrence of a character, or none when it does not occur |
| Validation.LastIndex | src/pages/Signup.jsx:276 | the position of the last occurrence of a character, or none when it does not occur |
| Validation.IsEmail | src/pages/Signup.jsx:276 | the decision procedure agrees with the e-mail pattern: local part, '@', domain, '.', two or more letters, any letter case |
| Validation.EmailSplitIsCanonical | src/pages/Signup.jsx:276 | any way the pattern splits an address is at its first '@' and its last '.' |
| Validation.EmailError | src/pages/Signup.jsx:273-279 | no error exactly for addresses of the pattern's shape; an empty field reports "Email is required", any other misfit the invalid-address message |
| Validation.EmailAccepted | src/pages/Login.jsx:248-254 | an ordinary address passes the e-mail rule |
| Validation.EmailSingleAt | src/pages/Signup.jsx:276 | an accepted address holds exactly one '@' |
| Validation.EmailTwoAtsRejected | src/pages/Signup.jsx:276-277 | any text with two '@' is refused with the invalid-address message |
| Validation.EmailShortDomainRejected | src/pages/Signup.jsx:276-277 | a domain without a top-level part of at least two letters is refused |
| Validation.LineEnd | src/pages/Signup.jsx:301 | the end of the first line: every character before it is not a line terminator, and it stops at one or at the end |
| Validation.LineEndAtLeast | src/pages/Signup.jsx:301 | the first line reaches past any leading run without line terminators |
| Validation.SignupPasswordError | src/pages/Signup.jsx:294-303 | no error exactly when the password has 8 characters or more and matches the pattern; otherwise the first failing rule's message, in the order required, length, pattern |
| Validation.PasswordAnyTail | src/pages/Signup.jsx:300-303 | an uppercase, lowercase, digit and special character in front pass the pattern whatever at least four characters follow, since the pattern is anchored only at the start |
| Validation.PasswordBadFirstRejected | src/pages/Signup.jsx:301 | a first character outside letters, digits and the special set fails the pattern |
| Validation.PasswordWithoutUpperRejected | src/pages/Signup.jsx:300-303 | a password with no uppercase letter fails with the pattern message |
| Validation.FullNameError | src/pages/Signup.jsx:248-258 | no error exactly for 2 to 50 characters; otherwise the required, minimum or maximum message |
| Validation.ConfirmError | src/pages/Signup.jsx:326-330 | no error exactly when the confirmation is filled and equals the password; otherwise the required or mismatch message |
| Validation.SignupAccepts | src/pages/Signup.jsx:248-330 | the sign-up form submits exactly when the name, e-mail, password and confirmation rules all hold |
| Validation.LoginAccepts | src/pages/Login.jsx:248-271 | the login form submits exactly when the e-mail has the pattern's shape and a password is given; any password the sign-up form accepts passes the login rule |
| Sorting.Insert | src/pages/Orders.jsx:417-427 | inserting adds exactly that one element: one more in length and the same elements plus it |
| Sorting.Sort | src/pages/Orders.jsx:417-427 | `[...s].sort(cmp)` keeps the same elements with the same multiplicities |
| Sorting.InsertSorted | src/pages/Orders.jsx:417-427 | inserting into an ordered run keeps it ordered, and the new head is either the inserted element or the old head |
| Sorting.SortSorted | src/pages/Orders.jsx:417-427 | with a total comparator the sorted copy is in order |
| Sorting.SortAllTies | src/pages/Customers.jsx:448-449 | a comparator that returns 0 for every pair leaves the order unchanged, since the sort is stable |
| Sorting.SortedFirst | src/services/apiAnalytics.js:238 | in a sequence ordered by a transitive order the first element may precede every element, so the top entry comes first |
| Sorting.SortedPrefix | src/services/apiAnalytics.js:238-239 | the first n elements of an ordered sequence are still ordered |
| Sorting.TotalReflexive | src/services/apiAnalytics.js:238 | a total comparator lets every element precede itself |
| Sorting.SortedPair | src/services/apiAnalytics.js:238 | in a sequence ordered by a transitive, reflexive order any earlier element may precede any later one |
| Sorting.PrefixRest | src/services/apiAnalytics.js:239 | `slice(0, n)` keeps a sub-multiset, and what it drops is exactly the rest of the sequence |
| Sorting.SuffixFollows | src/services/apiAnalytics.js:238-239 | in an ordered sequence every element after position n may follow the element at n − 1 |
| Sorting.SortedTop | src/services/apiAnalytics.js:238-239 | the first n of a sorted copy are in order, drawn from the input without repeats beyond it, and every element left out may follow the last one kept |
| Sorting.SortedJoin | src/pages/Customers.jsx:437 | two ordered runs whose boundary is in order form one ordered run |
| Sorting.InsertAgrees | src/pages/Orders.jsx:417-427 | insertion depends only on how the comparator treats the inserted element against the others |
| Sorting.SortAgrees | src/pages/Customers.jsx:437-455 | two comparators that agree on the elements present sort them the same way |
| Sorting.SortedCons | src/pages/Customers.jsx:437 | an element that may precede the head of an ordered run extends it at the front |
| Sorting.SwapPermutes | src/pages/Customers.jsx:437 | swapping two neighbours keeps the same elements |
| Sorting.SwapStep | src/pages/Customers.jsx:437 | one swap moves the inserted element one place left and keeps the in-place insertion's invariant |
| Sorting.InsertLast | src/pages/Customers.jsx:437 | the ordered prefix grows by one element, the array keeps the same elements, and with all-ties comparisons nothing moves |
| Sorting.SortInPlace | src/pages/Customers.jsx:437-455 | `filtered.sort(cmp)` in place: the array ends in order, holds the same elements, and is untouched when the comparator returns 0 for every pair |
| Text.ToUpper | src/services/apiDashboard.js:334 | upper-casing keeps the length, turns each lower-case ASCII letter into the upper-case letter it came from, and keeps every other character |
| Text.ToLower | src/pages/Customers.jsx:427-428 | lower-casing keeps the length, turns each upper-case ASCII letter into the lower-case letter it came from, and keeps every other character |
| Text.ContainsEmpty | src/pages/Customers.jsx:427-428 | every string contains the empty string, so an empty search matches everything |
| Text.LastChars | src/services/apiDashboard.js:334 | `slice(-n)` gives the last n characters, or the whole string when it is shorter |
| Text.InitialsFrom | src/pages/Customers.jsx:364 | the initials are no longer than the name and are drawn from its characters other than the space |
| Text.InitialsInsideWord | src/pages/Customers.jsx:364 | inside a word no further initial is taken |
| Text.InitialsOfWords | src/pages/Customers.jsx:364 | a word followed by a space contributes exactly its first letter |
| Text.InitialsOfWord | src/pages/Customers.jsx:364 | a single word contributes exactly its first letter |
| Text.LexLeTotal | src/pages/Customers.jsx:441 | the name order compares any two names, so the comparator given to the sort is total |
| Text.LexLeTransitive | src/pages/Customers.jsx:441 | the name order is transitive |
| Text.NatToString | src/services/apiProduct.js:26-27 | a number renders as a non-empty run of decimal digits |
| Text.DecimalRoundTrip | src/services/apiProduct.js:26-27 | reading the rendered digits back gives the number, so the rendering loses nothing |
| Cache.QueryCache.constructor | src/App.jsx:78 | the query client starts with no cached entries |
| Seqs.Filter | src/contexts/ToastContext.jsx:37 | `filter` keeps no more elements than it was given, and only ones that satisfy the predicate |
| Seqs.FilterMember | src/contexts/ToastContext.jsx:37 | an element is in the filtered list exactly when it is in the input and satisfies the predicate |
| Seqs.FilterAppend | src/contexts/ToastContext.jsx:37 | filtering a concatenation is the concatenation of the filtered parts |
| Seqs.CountIndices | src/pages/Customers.jsx:472 | `filter(p).length` is the number of positions whose element satisfies `p` |
| Seqs.SliceEnd | src/services/apiDashboard.js:298 | `slice(0, end)` stops at `end` capped by the length, and a negative end counts back from the length, never below 0 |
| Seqs.Dedup | src/pages/Orders.jsx:347 | `[...new Set(s)]` holds each element of `s` and nothing else, each exactly once |
| Seqs.DedupHead | src/pages/Orders.jsx:347 | the first element of the input comes first after de-duplication, since a Set keeps insertion order |
| Tally.BumpKeys | src/services/apiAnalytics.js:176 | adding to a tally keeps the existing keys in place and appends a key that was not there yet |
| Tally.BumpDistinct | src/services/apiAnalytics.js:176 | adding to a tally keeps every key unique |
| Tally.BumpGet | src/services/apiAnalytics.js:176 | adding v to a category total adds v to the value under k, from 0 for a new key, and leaves every other key alone |

## Left out

- HTTP requests (`axios`/`fetch`), their errors and retries: the fetched data and server responses are parameters; success and error callbacks are separate operations.
- react-query mechanics beyond the cache entries (query cancellation, invalidation, refetching, loading flags): they belong to the library, not to this code.
- `Date.now()`, `Math.random()` and toast ids: the current time and a fresh id are parameters.
- Timers (`setTimeout`), the DOM, CSS variables, `console` output and rendering: no logic to prove.
- `localStorage` and `matchMedia`: the saved theme mode and the system's dark-scheme preference are parameters.
- Date parsing, time zones and locale formatting (`toLocaleDateString`, `Intl`): timestamps are given as seconds plus a calendar-month number.
- Floating-point rounding: money is an exact `real`; `Math.round` and the one-decimal rounding of the analytics changes are modelled on exact values, but the `toFixed` calls of the product metrics are not modelled at all.
- ProductMetrics.ConversionRate: the `toFixed(1)` rounding and its string result are not modelled; the contract states the exact rate.
- ProductMetrics.AverageOrderValue: the `toFixed(0)` rounding and its string result are not modelled; the contract states the exact average.
- Text.ToUpper: ASCII letters only; JavaScript maps all of Unicode (for example "ß" becomes "SS", which changes the length).
- Text.ToLower: ASCII letters only; JavaScript maps all of Unicode.
- Prototype keys (such as `constructor` or `__proto__`) used as a category, product or customer name in the analytics tallies: every tally is a plain association list of the names it saw.
- `new Date(null)` is the epoch in JavaScript: a missing date is modelled as absent, and the places where it would count as 1970 take 0 seconds.
- A `null` item quantity adds 0 in JavaScript arithmetic while only `undefined` gives `NaN`: the model has a single "missing" case.
- `localeCompare` is modelled as code-point order: locale collation is not modelled.
- Dates that parse to `NaN` compare as ties in the sorts, which is one of the engine-dependent outcomes JavaScript allows.
- "30 days" is 30 × 86400 seconds: calendar-aware durations are not modelled.
- URL encoding of query parameters, and the exact text `toString` gives for non-integer prices.
- Prototype keys (such as `constructor`) looked up in the notification-text table: only the table's own keys are modelled.
- Object keys that look like integers, which JavaScript orders first: every tally keeps insertion order.
- String lengths count characters, not UTF-16 code units.
- Settings' `getImageUrl`, FileInput's `formatFileSize` and the `onRemove` callback: display-only or external.
- A toast whose own `id` field overrides the generated one (`{ id, ...toast }`): callers in this code never pass one.
- CustomersPage.LastOrderDate: its contract is weaker when some orders lack a date, since the JavaScript comparator then compares `NaN`.

## Findings

| source | as written | input that shows it | evidently intended | confidence | as-written member | corrected member |
|---|---|---|---|---|---|---|
| src/pages/ProductDetails.jsx:514-526 | the carousel arrows wrap at `images.length - 1`, but the gallery shows the cover followed by the images, so it has `images.length + 1` entries | any product with at least one image; with a cover and one image, Next from index 0 stays at 0 | the arrows wrap at the last index of the whole gallery | not executed | ProductDetailsPage.LastImageSkipped | ProductDetailsPage.IntendedVisitsAll |
