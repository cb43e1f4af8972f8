# dentalFirst product catalogue pipeline, in Dafny

A model of the catalogue pipeline of the dentalFirst Android app. A bundled
`products.json` document is a tree of categories, subcategories and products
plus a flat list of top-level products. The product store (`ProductRepository`)
loads it once, flattens it into runtime `Product` records and publishes the
list. Two views read that list. The catalogue view (`CatalogViewModel`) turns
it into `Loading`, `Success(list)` or `Error(message)`. The product view
(`ProductDetailsViewModel`) looks a product up by id.

Files, one module each:

- `wrappers.dfy` (`Wrappers`): `Option`, for Kotlin's nullable values.
- `decimal.dfy` (`Decimal`): Kotlin `Long`, its `toString()` rendering, and a parser that reads it back.
- `json_model.dfy` (`JsonModel`): the raw document. Kotlin's `= emptyList()` defaults become constructor defaults.
- `product.dfy` (`ProductModel`): the immutable runtime record.
- `flatten.dfy` (`Flattening`): the visiting order of the loader, as a reference function `Flatten`, with length and position lemmas.
- `repository.dfy` (`Repository`): per-product conversion, the class `ProductRepository` with `parseJson` and the load-once gate.
- `catalog_view_model.dfy` (`CatalogView`): the list-to-state mapping and the class `CatalogViewModel`.
- `details_view_model.dfy` (`ProductDetails`): the first-match lookup.
- `scenarios.dfy` (`Scenarios`): a one-product document and an undecodable asset, end to end.

How the source maps onto the model:

- Each `forEach` of `parseJson` is a loop. The category loop is in `ParseJson`. The subcategory loop is `AddSubCategories`. The product loop is `AddProducts`, which also serves the top-level product list. Each is proved against `Flatten`.
- Reading and decoding the asset happen outside the model. The store's constructor takes their outcome, `asset: Option<ProductsJsonResponse>`. `None` stands for a missing asset or a document that does not decode.
- The three drawables are constructor parameters, because their resource ids are generated at build time. `productsDrawableRes.random()` is `PickImage`, an arbitrary element of the pool.
- The ghost field `parseCount` counts parses. The store's invariant `Valid()` pins it to 1 once loaded and to 0 before.
- The catalogue view's collector is a StateFlow collector. It gets the current list when it subscribes. After that it gets only lists that differ from the previous one. Each view-model method runs to completion and then delivers whatever the store published meanwhile.

Three consequences of the code are worth knowing:

- A failed or empty first load never leaves the list screen in `Error`. The first collected value is the initial empty list. It maps to `Error`, but `loadProducts` overwrites it with `Loading` right away, because `viewModelScope` dispatches immediately on the main thread. An empty load result equals that initial list, so StateFlow does not deliver it, and the screen stays in `Loading`. The constructor of `CatalogViewModel` and its `LoadProducts` both prove `!uiState.Error?`.
- After a completed load, `retry()` leaves the screen in `Loading`. The store's gate makes the load a no-op, nothing new is published, and the collector is not run again (`Retry`'s last ensures).
- With duplicate ids, `find` returns the first match in flattened order (`Find`, `FindLoaded`).

Prices are rendered without grouping (`"₽12500"`), as the loader does. The hand-written preview fixtures use another format and are not modelled.

## Model

| member | source | states |
|---|---|---|
| Decimal.NatToDecimal | app/src/main/java/com/tomtom/dentalfirst/data/repository/ProductRepository.kt:45 | a rendered magnitude is non-empty, starts with a digit and has no leading zero |
| Decimal.LongToStringShape | app/src/main/java/com/tomtom/dentalfirst/data/repository/ProductRepository.kt:47 | a rendered `Long` starts with '-' exactly when negative and is otherwise digits only, so a price has no separators or decimals |
| Decimal.LongRoundTrip | app/src/main/java/com/tomtom/dentalfirst/data/repository/ProductRepository.kt:45 | the numeric id (and price) can be read back from its rendering |
| Decimal.LongToStringInjective | app/src/main/java/com/tomtom/dentalfirst/data/repository/ProductRepository.kt:45 | two ids render to the same string exactly when they are equal, so string lookup compares numeric ids |
| JsonModel.OmittedListsAreEmpty | app/src/main/java/com/tomtom/dentalfirst/data/model/ProductsJsonModel.kt:3-22 | a document, category or subcategory built without its list has an empty one |
| ProductModel.DescriptionDefaultsToAbsent | app/src/main/java/com/tomtom/dentalfirst/data/model/Product.kt:5-11 | a product built without a description has none |
| Flattening.FlattenLength | app/src/main/java/com/tomtom/dentalfirst/data/repository/ProductRepository.kt:38-67 | the flattened length is the number of nested products plus the number of top-level ones: nothing is filtered or merged |
| Flattening.FlattenNestedAt | app/src/main/java/com/tomtom/dentalfirst/data/repository/ProductRepository.kt:40-54 | item k of subcategory s of category c sits at the prefix count of products before it |
| Flattening.FlattenTopAt | app/src/main/java/com/tomtom/dentalfirst/data/repository/ProductRepository.kt:56-66 | top-level product i sits after all nested products, at offset i |
| Flattening.FlattenOrder | app/src/main/java/com/tomtom/dentalfirst/data/repository/ProductRepository.kt:40-66 | positions follow (category, subcategory, item) order lexicographically, and every nested product precedes every top-level one |
| Repository.ToProductFields | app/src/main/java/com/tomtom/dentalfirst/data/repository/ProductRepository.kt:44-50 | a built product's id and price (after the '₽') read back as the raw numbers; name and description are copied verbatim; the drawable is the one chosen |
| Repository.ParsesAgreeUpToImages | app/src/main/java/com/tomtom/dentalfirst/data/repository/ProductRepository.kt:38-67 | two parses of the same asset are equal except for the randomly chosen drawables |
| Repository.EmptyDocumentLikeFailure | app/src/main/java/com/tomtom/dentalfirst/data/repository/ProductRepository.kt:29-72 | a document with no lists and an undecodable asset both parse to exactly the empty list |
| Repository.PickImage | app/src/main/java/com/tomtom/dentalfirst/data/repository/ProductRepository.kt:48 | the chosen drawable is one of the pool's handles |
| Repository.AddProducts | app/src/main/java/com/tomtom/dentalfirst/data/repository/ProductRepository.kt:56-66 | appends every given raw product, converted, in order, keeping what was already in the list |
| Repository.AddSubCategories | app/src/main/java/com/tomtom/dentalfirst/data/repository/ProductRepository.kt:41-53 | appends the products of every subcategory, converted, in subcategory order, keeping what was already in the list |
| Repository.ProductRepository.ParseJson | app/src/main/java/com/tomtom/dentalfirst/data/repository/ProductRepository.kt:29-72 | an undecodable asset yields the empty list; otherwise the result is `Flatten` of the document converted product by product, each with a pool drawable; each call counts as one parse |
| Repository.ProductRepository.constructor | app/src/main/java/com/tomtom/dentalfirst/data/repository/ProductRepository.kt:15-21 | a new store has published nothing, is not loaded and holds the three drawables |
| Repository.ProductRepository.LoadProducts | app/src/main/java/com/tomtom/dentalfirst/data/repository/ProductRepository.kt:23-27 | the first call parses exactly once and publishes the result, even an empty one; later calls change nothing and parse nothing |
| CatalogView.StateFor | app/src/main/java/com/tomtom/dentalfirst/viewmodel/CatalogViewModel.kt:31-37 | an empty list maps to `Error("Товары не найдены")`, any other list to `Success` of that same list, never to `Loading` |
| CatalogView.CatalogViewModel.constructor | app/src/main/java/com/tomtom/dentalfirst/viewmodel/CatalogViewModel.kt:18-27 | subscribes, then loads; the screen ends in `Loading` unless the load published a different list, then in `Success` of it; never in `Error` |
| CatalogView.CatalogViewModel.ObserveProducts | app/src/main/java/com/tomtom/dentalfirst/viewmodel/CatalogViewModel.kt:29-39 | the collector's first delivery shows the state for the store's current list |
| CatalogView.CatalogViewModel.LoadProducts | app/src/main/java/com/tomtom/dentalfirst/viewmodel/CatalogViewModel.kt:41-46 | sets `Loading`, runs the store's load; the state changes again only if the published list changed |
| CatalogView.CatalogViewModel.Retry | app/src/main/java/com/tomtom/dentalfirst/viewmodel/CatalogViewModel.kt:48-50 | the same as `LoadProducts`; after a completed load it leaves the screen in `Loading` and the store untouched |
| ProductDetails.Find | app/src/main/java/com/tomtom/dentalfirst/viewmodel/ProductDetailsViewModel.kt:20 | absent exactly when no product has the id; otherwise the earliest product with that id |
| ProductDetails.ProductFlow | app/src/main/java/com/tomtom/dentalfirst/viewmodel/ProductDetailsViewModel.kt:19-23 | absent before a list is observed; afterwards a member of the latest list with the requested id, absent exactly when none has it |
| ProductDetails.FindListed | app/src/main/java/com/tomtom/dentalfirst/viewmodel/ProductDetailsViewModel.kt:20 | the id of any listed product finds a product with that id, and that very product when ids are unique |
| ProductDetails.FindLoaded | app/src/main/java/com/tomtom/dentalfirst/viewmodel/ProductDetailsViewModel.kt:19-21 | in a loaded list, looking up the rendered id n finds the product built from the first raw product with id n, and nothing when there is none |
| Scenarios.GauzeLoads | app/src/main/java/com/tomtom/dentalfirst/data/repository/ProductRepository.kt:56-66 | a document holding only product 7 (price 500) loads as one product "7" priced "₽500", lists as `Success` and is found by "7" but not by "99" |

## Left out

- Reading `products.json` and Gson decoding are foreign calls. They are the `asset` parameter. Gson can leave a Kotlin default unapplied, so a missing list arrives as null and the loop fails. The model does not capture this. The source would then also publish the empty list.
- A missing or null `description`, which Gson leaves null despite the non-null Kotlin type, is not modelled. A built product always carries `Some(description)`.
- Exceptions during traversal are not modelled. The modelled traversal cannot fail, and only decoding fails.
- `printStackTrace` logging is left out: it is output only.
- The random choice is modelled only as "some handle of the pool", with no distribution.
- `imageRes` is an unbounded `int`, not a 32-bit `Int`. Handles are opaque and never computed with.
- Coroutines are not modelled: `Dispatchers.IO`, `viewModelScope.launch`, `WhileSubscribed(5000)` lifetimes and the non-atomic read-then-set of `isLoaded`. Each method runs atomically, so the double parse the race allows cannot happen in the model.
- Only one catalogue view's collector is modelled per call. Other subscribers of the same store are not.
- The `getInstance` singleton is left out: the store is one explicitly constructed object.
- The Compose screens, navigation, the view-model factory and the preview fixtures are presentation only.
- Category and subcategory ids, names, images and descriptions, and a raw product's `image`, are kept in the datatypes. The loader never reads them.
