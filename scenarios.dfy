/** Two end-to-end runs of the pipeline: a one-product document, and an
    asset that cannot be decoded. */
module Scenarios {
  import opened Wrappers
  import opened Decimal
  import opened JsonModel
  import opened ProductModel
  import opened Flattening
  import opened Repository
  import opened CatalogView
  import opened ProductDetails

  function GauzeDocument(): ProductsJsonResponse {
    ProductsJsonResponse(catalog := [], products := [JsonProduct(7, "Gauze", "x", 500, "d")])
  }

  /** A document holding only product 7 loads as one product with id "7" and
      price "₽500", lists as a success, and is found by "7" but not by "99". */
  lemma GauzeLoads(loaded: seq<Product>, pool: seq<int>)
    requires IsParseResult(Some(GauzeDocument()), loaded, pool)
    ensures |loaded| == 1 && loaded[0].imageRes in pool
    ensures loaded[0] == Product("7", "Gauze", "₽500", loaded[0].imageRes, Some("d"))
    ensures StateFor(loaded) == Success(loaded)
    ensures Find(loaded, "7") == Some(loaded[0]) && Find(loaded, "99") == None
  {
    var raw := JsonProduct(7, "Gauze", "x", 500, "d");
    assert Flatten(GauzeDocument()) == [raw];
    assert LoadedFrom(loaded, [raw], pool);
    var image := loaded[0].imageRes;
    assert loaded[0] == ToProduct(raw, image);
    GauzeRendering();
    assert loaded == [Product("7", "Gauze", "₽500", image, Some("d"))];
  }

  lemma GauzeRendering()
    ensures LongToString(7) == "7" && [RubleSign] + LongToString(500) == "₽500"
  {
    assert NatToDecimal(5) == "5";
    assert NatToDecimal(50) == "50";
    assert NatToDecimal(500) == "500";
  }

  /** A store whose asset does not decode publishes nothing; the list screen
      then stays in `Loading` (the empty result equals the initial empty list,
      so its collector is not run again), a retry changes nothing and parses
      nothing, and no product can be found. */
  method MalformedAsset(first: int, second: int, third: int)
  {
    var store := new ProductRepository(None, first, second, third);
    var view := new CatalogViewModel(store);
    assert store.products == [] && store.parseCount == 1;
    assert view.uiState == Loading;
    view.Retry();
    assert view.uiState == Loading && store.products == [] && store.parseCount == 1;
    assert ProductFlow(Some(store.products), "7") == None;
  }
}
