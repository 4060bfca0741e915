# Product catalog client: caches, form checks and statistics view-model

This project models the client side of a product catalog manager, a React/Redux
front end. The catalog server it talks to is not part of this code base, so the
model covers only the logic the client runs itself:

- **The four Redux slices** (products, categories, materials, statistics). Each is a
  class whose fields are the slice's state: `items`, `totalProducts`, `loading`,
  `error`, or `data`. Each reducer case is a method that updates those fields in
  place. A fetch goes pending, then fulfilled or rejected. Create appends. Update
  replaces the first item with the same `_id`. Delete drops every item with that
  `_id`. The product fetch builds its query with `page`/`limit` defaults. The
  taxonomy creates send the trimmed name.
- **The product form** (`ProductForm`). This covers the SKU duplicate check, the
  block on submit while that check reports an error, and normalisation of the
  payload (`material_ids` as strings, price defaulting to 0). It also covers the
  choice between create and update, the guard that ignores blank category and
  material names, and the values filled in when a product is edited.
- **The statistics view-model** (`StatisticsView`). This covers the fixed
  three-bucket price histogram and when its chart is shown, the
  products-without-media table, and the category price table sorted by highest
  price.

Two small modules hold the JavaScript semantics these rely on. `Js` covers
absent values, the `x || d` idiom and `String(n)`. `Text` covers `String.prototype.trim`.
Prices and counts are integers (a price in hundredths of the currency unit);
no floating point is involved.

Files: `js.dfy`, `text.dfy`, `catalog.dfy` (the server records as the client
sees them), `product_slice.dfy`, `category_slice.dfy`, `material_slice.dfy`,
`statistics_slice.dfy`, `product_form.dfy`, `statistics_view.dfy`.

What the client does and does not do:

- SKU uniqueness, referential integrity, filtering, sorting, pagination and
  the aggregation of statistics happen on the catalog server. That server is
  not in this code base and is not modelled.
- Creating a category or material appends whatever the server returns. There
  is no get-or-create and no duplicate-name check on the client.
- The SKU check is advisory. It compares against the `productsData` list the
  form is given. The application's only use of the form (`src/App.js`) passes
  no such list, so in this application the SKU error is never set.
- Editing a product prefills each populated material with its `_id`, while the
  material select offers `material_id` values. Submitting an edit unchanged
  therefore sends the `_id`s back (ResubmitKeepsMaterialIds), where picking the
  materials afresh would send `material_id`s. Which of the two the server
  expects is not visible in this code base, so the model keeps both as written.
- The client sorts the category table by highest price only. The sort is
  stable, so ties keep the order of the payload.

## Model

| member | source | states |
|---|---|---|
| ProductSlice.PageParam | src/redux/slices/productSlice.js:12 | `page` is the table's current page when it is present and non-zero, and 1 otherwise; never 0 |
| ProductSlice.LimitParam | src/redux/slices/productSlice.js:13 | `limit` is the page size when it is present and non-zero, and 10 otherwise; never 0 |
| ProductSlice.FetchQuery | src/redux/slices/productSlice.js:11-15 | the query has exactly the filter keys plus `page` and `limit`; every filter value is sent as given (so a filter named `page` or `limit` wins); otherwise `page`/`limit` are the decimal text of the defaulted values |
| ProductSlice.FetchQueryPage | src/redux/slices/productSlice.js:11-16 | reading the `page` parameter back as a number gives the defaulted page |
| ProductSlice.FindIndex | src/redux/slices/productSlice.js:103 | -1 exactly when no item has the id; otherwise the index of the first item with it |
| ProductSlice.RemoveId | src/redux/slices/productSlice.js:110 | no item left has the id, every item without it is kept, and the list never grows |
| ProductSlice.RemoveIdCounts | src/redux/slices/productSlice.js:110 | each item without the id occurs as often as before; each item with it occurs 0 times |
| ProductSlice.RemoveIdAppend | src/redux/slices/productSlice.js:110 | removal distributes over concatenation, so kept items stay in their relative order |
| ProductSlice.RemoveIdAbsent | src/redux/slices/productSlice.js:110 | deleting an id no item has leaves the list unchanged |
| ProductSlice.RemoveIdIdempotent | src/redux/slices/productSlice.js:109-111 | deleting the same id twice is the same as deleting it once |
| ProductSlice.ProductState.constructor | src/redux/slices/productSlice.js:74-79 | initial state: no items, total 0, not loading, no error |
| ProductSlice.ProductState.FetchPending | src/redux/slices/productSlice.js:84-87 | loading set, error cleared, items and total unchanged |
| ProductSlice.ProductState.FetchFulfilled | src/redux/slices/productSlice.js:88-92 | loading cleared; items and total replaced by the payload's; error unchanged |
| ProductSlice.ProductState.FetchRejected | src/redux/slices/productSlice.js:93-96 | loading cleared, error is the rejection's message, items and total unchanged |
| ProductSlice.ProductState.CreateFulfilled | src/redux/slices/productSlice.js:98-100 | the created product is appended; all earlier items, the total, loading and error are unchanged |
| ProductSlice.ProductState.UpdateFulfilled | src/redux/slices/productSlice.js:102-107 | length unchanged; the first item with the payload's id is replaced and every other position is kept; no match leaves items unchanged |
| ProductSlice.ProductState.DeleteFulfilled | src/redux/slices/productSlice.js:109-111 | items become the old items without that id; other fields unchanged |
| Text.Trim | src/redux/slices/categorySlice.js:22 | the result is a slice of the input with only whitespace outside it, and it neither starts nor ends with whitespace (ECMAScript's whitespace and line terminators) |
| Text.TrimmedEmpty | src/redux/slices/categorySlice.js:22 | a trimmed string is empty exactly when the input is all whitespace |
| Text.TrimmedUnique | src/redux/slices/categorySlice.js:22 | that characterisation of trimming has only one solution |
| Text.TrimIdempotent | src/redux/slices/categorySlice.js:22 | trimming twice equals trimming once |
| Text.IsBlank | src/components/ProductForm.js:95 | `!name.trim()` holds exactly when every character is whitespace |
| CategorySlice.CreateCategoryRequest | src/redux/slices/categorySlice.js:21-23 | the posted `category_name` is the typed name with surrounding whitespace removed |
| CategorySlice.RequestNameNonEmpty | src/redux/slices/categorySlice.js:21-23 | a non-blank name is still non-empty after the request trims it |
| CategorySlice.CategoryState.constructor | src/redux/slices/categorySlice.js:37-41 | initial state: no items, not loading, no error |
| CategorySlice.CategoryState.FetchPending | src/redux/slices/categorySlice.js:45-48 | loading set, error cleared, items unchanged |
| CategorySlice.CategoryState.FetchFulfilled | src/redux/slices/categorySlice.js:49-52 | loading cleared and items replaced wholesale by the payload |
| CategorySlice.CategoryState.FetchRejected | src/redux/slices/categorySlice.js:53-56 | loading cleared, error recorded, items unchanged |
| CategorySlice.CategoryState.CreateFulfilled | src/redux/slices/categorySlice.js:57-59 | the payload is appended with no duplicate-name check; loading and error unchanged |
| MaterialSlice.CreateMaterialRequest | src/redux/slices/materialSlice.js:21-23 | the posted `material_name` is the typed name with surrounding whitespace removed |
| MaterialSlice.RequestNameNonEmpty | src/redux/slices/materialSlice.js:21-23 | a non-blank name is still non-empty after the request trims it |
| MaterialSlice.MaterialState.constructor | src/redux/slices/materialSlice.js:37-41 | initial state: no items, not loading, no error |
| MaterialSlice.MaterialState.FetchPending | src/redux/slices/materialSlice.js:45-48 | loading set, error cleared, items unchanged |
| MaterialSlice.MaterialState.FetchFulfilled | src/redux/slices/materialSlice.js:49-52 | loading cleared and items replaced by the payload |
| MaterialSlice.MaterialState.FetchRejected | src/redux/slices/materialSlice.js:53-56 | loading cleared, error recorded, items unchanged |
| MaterialSlice.MaterialState.CreateFulfilled | src/redux/slices/materialSlice.js:57-59 | the payload is appended with no duplicate check; loading and error unchanged |
| StatisticsSlice.InitialData | src/redux/slices/statisticsSlice.js:6-17 | zero totals and empty lists under the initial state's own key names; the payload keys the view reads are absent |
| StatisticsSlice.StatisticsState.constructor | src/redux/slices/statisticsSlice.js:6-17 | initial data, not loading, no error |
| StatisticsSlice.StatisticsState.Pending | src/redux/slices/statisticsSlice.js:33-36 | loading set, error cleared, previous data kept |
| StatisticsSlice.StatisticsState.Fulfilled | src/redux/slices/statisticsSlice.js:37-40 | loading cleared and data replaced wholesale by the payload |
| StatisticsSlice.StatisticsState.Rejected | src/redux/slices/statisticsSlice.js:41-44 | loading cleared, error recorded, previous data kept |
| StatisticsSlice.SuccessfulFetch | src/redux/slices/statisticsSlice.js:33-40 | pending then fulfilled always ends idle, with no error and holding the payload |
| StatisticsSlice.FailedFetch | src/redux/slices/statisticsSlice.js:33-44 | pending then rejected ends idle with the error and the data held before the fetch |
| ProductForm.Conflicts | src/components/ProductForm.js:61 | a product clashes iff its SKU is exactly the typed one and either no product is being edited or its `_id` differs from the edited one; the edited product never clashes with itself |
| ProductForm.EditedId | src/components/ProductForm.js:61 | `product?._id`: present exactly when a product is being edited, and then its `_id` |
| ProductForm.FirstConflict | src/components/ProductForm.js:60-62 | no result exactly when no product clashes; otherwise the first product with an equal SKU and a different `_id` |
| ProductForm.FindSkuConflict | src/components/ProductForm.js:60-62 | a clash is found iff the product list is present and some product has exactly the SKU (case-sensitive) and a different id; the product being edited never clashes with itself |
| ProductForm.FieldString | src/components/ProductForm.js:78 | `String(v)`: a string is kept, a number becomes its decimal text, a record becomes "[object Object]" |
| ProductForm.NormalizeFormData | src/components/ProductForm.js:76-80 | other fields pass through; `material_ids` has the same length and order with each entry stringified, `[]` when absent; price is the entered value, or 0 when absent |
| ProductForm.NormalizeKeepsStringIds | src/components/ProductForm.js:78 | material ids that are already strings are sent unchanged and in order |
| ProductForm.PrefillMaterial | src/components/ProductForm.js:47 | a populated material with a non-empty `_id` becomes that id; one without stays the record; a bare id stays itself |
| ProductForm.Prefill | src/components/ProductForm.js:44-49 | the product's fields, with `category_id` flattened to the nested id (absent unless populated) and each material mapped as above, same length and order |
| ProductForm.ResubmitKeepsMaterialIds | src/components/ProductForm.js:44-80 | editing a product whose materials carry ids and submitting unchanged sends exactly those ids, in order |
| ProductForm.ResubmitKeepsCategory | src/components/ProductForm.js:44-80 | editing a product with a populated category and submitting unchanged keeps its category id |
| ProductForm.ProductFormComponent.constructor | src/components/ProductForm.js:25-30 | the props are kept; the new-name inputs and the SKU error start empty |
| ProductForm.ProductFormComponent.HandleSkuChange | src/components/ProductForm.js:53-68 | empty input clears the error; otherwise the error is the duplicate message iff FindSkuConflict finds a clash, and empty if not |
| ProductForm.ProductFormComponent.HandleFinish | src/components/ProductForm.js:70-86 | with an SKU error nothing is dispatched; otherwise an update with the edited product's id iff a product was given, else a create, carrying the normalised payload |
| ProductForm.ProductFormComponent.SetNewCategoryName | src/components/ProductForm.js:174 | the category input holds what was typed |
| ProductForm.ProductFormComponent.SetNewMaterialName | src/components/ProductForm.js:212 | the material input holds what was typed |
| ProductForm.ProductFormComponent.AddNewCategory | src/components/ProductForm.js:94-102 | a blank name dispatches nothing and changes nothing; otherwise the name as typed is dispatched, and the input is cleared only if the create succeeded |
| ProductForm.ProductFormComponent.AddNewMaterial | src/components/ProductForm.js:104-112 | the same guard and reset for materials |
| StatisticsView.ShowsError | src/components/Statistics.js:16-28 | the error card replaces the page exactly when the error is present and non-empty |
| StatisticsView.SummaryCards | src/components/Statistics.js:124-148 | each card shows the payload's value, or 0 when it is missing |
| StatisticsView.FirstCount | src/components/Statistics.js:32-34 | the optional chain yields a count exactly when the map, the key, a first element and its count are all present |
| StatisticsView.BucketCount | src/components/Statistics.js:32-34 | a bucket's count is the reported one, and 0 when any step of the chain is missing |
| StatisticsView.PriceRangeData | src/components/Statistics.js:31-35 | always three bars in the fixed order 0-500, 501-1000, 1000+, each with its bucket's count |
| StatisticsView.AnyPositive | src/components/Statistics.js:156 | `some(count > 0)` holds iff some bar has a positive count |
| StatisticsView.ChartShown | src/components/Statistics.js:156 | the chart is drawn iff at least one of the three bucket counts is positive |
| StatisticsView.CategoryLabel | src/components/Statistics.js:107 | the populated category's name when present and non-empty, else "N/A" |
| StatisticsView.MediaRowOf | src/components/Statistics.js:103-108 | a row carries the product's id as key, its SKU, its name and its category label |
| StatisticsView.NoMediaRows | src/components/Statistics.js:103-108 | one row per product without media, same length and order; no rows when the key is missing |
| StatisticsView.CategoryStatLabel | src/components/Statistics.js:113 | the first embedded category's name when present and non-empty, else "N/A" |
| StatisticsView.PriceRowOf | src/components/Statistics.js:111-115 | missing highest price and product count read as 0 |
| StatisticsView.PriceRows | src/components/Statistics.js:111-115 | one row per category entry, in payload order |
| StatisticsView.InsertByPrice | src/components/Statistics.js:116 | inserting into a list with non-increasing prices keeps it non-increasing; the first row is the inserted one or the old head |
| StatisticsView.InsertByPriceCount | src/components/Statistics.js:116 | inserting adds exactly that row: the result's multiset is the old one plus the row |
| StatisticsView.SortByPriceDesc | src/components/Statistics.js:116 | the result has non-increasing highest price and is a permutation of the input |
| StatisticsView.InsertByPriceStable | src/components/Statistics.js:116 | inserting a row puts it ahead of every row with its own price |
| StatisticsView.SortByPriceDescStable | src/components/Statistics.js:116 | rows with equal highest price keep their payload order |
| StatisticsView.CategoryPriceData | src/components/Statistics.js:111-116 | the table is sorted by highest price, largest first, and is a permutation of the mapped entries; it is empty when the key is missing |
| StatisticsView.InitialViewIsEmpty | src/components/Statistics.js:31-116 | on the slice's initial data all three buckets are 0, no chart is drawn and both tables are empty |
| Js.NumberOr | src/redux/slices/productSlice.js:12-13 | `x \|\| d` for a number: the value when present and non-zero, otherwise the default |
| Js.TextOr | src/components/Statistics.js:107 | `x \|\| d` for a string: the value when present and non-empty, otherwise the default |
| Js.ListOr | src/components/Statistics.js:103-108 | `x \|\| d` for an array: the array whenever present (even empty), otherwise the default |
| Js.NumberString | src/components/ProductForm.js:78 | `String(n)` for an integer: a leading '-' exactly for negatives, followed by a canonical numeral (digits, no leading zero, never "-0") |
| Js.NatString | src/components/ProductForm.js:78 | a canonical numeral: digits only, one digit exactly for values below 10, starting with '0' exactly for 0 |
| Js.NatStringUnique | src/components/ProductForm.js:78 | NatString(n) is the only canonical numeral worth `n` |
| Js.NumberStringUnique | src/components/ProductForm.js:78 | `String(n)` is the only signed canonical numeral worth `n` |
| Js.NatStringRoundTrip | src/components/ProductForm.js:78 | reading the digits of a natural number back gives the number |
| Js.NumberStringRoundTrip | src/components/ProductForm.js:78 | reading `String(n)` back as a number gives `n` |
| Js.NumberStringInjective | src/components/ProductForm.js:78 | distinct numbers give distinct strings |

## Left out

- The thunks' network calls (the GET, POST, PUT and DELETE requests), the `message` toasts and the console logging are not modelled. Each thunk's result enters the model only as the fulfilled or rejected action given to a reducer method.
- Whether a create in the form succeeds is a parameter (`created`) of AddNewCategory and AddNewMaterial, because it depends on the server. Other events may happen while the request is in flight; the model does not capture that interleaving.
- HandleFinish returns what it would dispatch. The request's outcome and the later `onSubmit` callback or failure toast are not modelled.
- The server itself is not modelled: SKU uniqueness, referential integrity, filtering, sorting, pagination and the computation of statistics all live there.
- `src/App.js` is not part of this model. It is a UI component that mixes HTTP calls, hooks and table/modal wiring. Neither are `src/redux/store.js`, `src/index.js` or `src/config/api.js`, which are library wiring, bootstrap and URL constants.
- Currency and number formatting are not modelled. This covers the `₹` formatter and parser of the price input and the `toFixed(2)` rendering.
- Form field validation rules (`required`, `type: "url"`) are not modelled. They belong to the UI library.
- Rendering is not modelled. This covers the JSX and the charts.
- The tables' column sorters are not modelled. The Category, SKU and Product Name sorters compare with `localeCompare`, which depends on the locale (src/components/Statistics.js:62, 86, 92, 98). The Highest Price and Product Count sorters subtract numbers (src/components/Statistics.js:69, 76).
- The Highest Price column sorts descending by default (src/components/Statistics.js:70). The table may therefore display rows in its own order rather than in the order CategoryPriceData gives it.
- Prices are integers (hundredths). The source's floating-point prices and the `NaN` case of `||` are not modelled.
- Js.NumberString: models `String(n)` for integers written in plain decimal. It does not model the exponent notation JavaScript uses from 10^21 on, or fractional numbers.
- ProductSlice.FetchQuery: gives the query as a map from name to text. It leaves out the order of the parameters in the URL, percent-encoding, and filter values that are not strings.
- The statistics payload is typed. Values of unexpected JSON types under the keys the view reads are not modelled. The keys of the initial state are never read, and are typed like their neighbours.
