/**
 * The product store: loads the bundled catalogue document once, flattens it
 * into runtime products and publishes the result.
 *
 * Reading `products.json` and decoding it are outside the model: the store is
 * given their outcome as `asset`, where `None` stands for a missing asset or a
 * document that does not decode.
 */
module Repository {
  import opened Wrappers
  import opened Decimal
  import opened JsonModel
  import opened ProductModel
  import opened Flattening

  /** The currency sign put in front of every price. */
  const RubleSign: char := '₽'

  /** The runtime record built for one raw product, shown with drawable `imageRes`. */
  function ToProduct(raw: JsonProduct, imageRes: int): Product {
    Product(
      id := LongToString(raw.id),
      name := raw.name,
      price := [RubleSign] + LongToString(raw.price),
      imageRes := imageRes,
      description := Some(raw.description))
  }

  /** What a built product still tells about its raw product: the numeric id
      and price can be read back, name and description are verbatim. */
  lemma ToProductFields(raw: JsonProduct, imageRes: int)
    ensures ParseLong(ToProduct(raw, imageRes).id) == Some(raw.id as int)
    ensures |ToProduct(raw, imageRes).price| >= 2 && ToProduct(raw, imageRes).price[0] == RubleSign
    ensures ParseLong(ToProduct(raw, imageRes).price[1..]) == Some(raw.price as int)
    ensures ToProduct(raw, imageRes).name == raw.name
    ensures ToProduct(raw, imageRes).description == Some(raw.description)
    ensures ToProduct(raw, imageRes).imageRes == imageRes
  {
    LongRoundTrip(raw.id);
    LongRoundTrip(raw.price);
    assert ToProduct(raw, imageRes).price[1..] == LongToString(raw.price);
  }

  /** `loaded` is `raw` converted product by product, in the same order, each
      shown with one of the drawables of `pool`. */
  ghost predicate LoadedFrom(loaded: seq<Product>, raw: seq<JsonProduct>, pool: seq<int>) {
    |loaded| == |raw| &&
    forall i :: 0 <= i < |raw| ==>
      loaded[i].imageRes in pool && loaded[i] == ToProduct(raw[i], loaded[i].imageRes)
  }

  /** The outcome of one parse: nothing when the asset could not be read or
      decoded, otherwise every product of the document, flattened. */
  ghost predicate IsParseResult(asset: Option<ProductsJsonResponse>, loaded: seq<Product>, pool: seq<int>) {
    match asset
    case None => loaded == []
    case Some(doc) => LoadedFrom(loaded, Flatten(doc), pool)
  }

  lemma LoadedFromSnoc(loaded: seq<Product>, raw: seq<JsonProduct>, pool: seq<int>, item: JsonProduct, imageRes: int)
    requires LoadedFrom(loaded, raw, pool) && imageRes in pool
    ensures LoadedFrom(loaded + [ToProduct(item, imageRes)], raw + [item], pool)
  {
    var l, r := loaded + [ToProduct(item, imageRes)], raw + [item];
    forall i | 0 <= i < |r|
      ensures l[i].imageRes in pool && l[i] == ToProduct(r[i], l[i].imageRes)
    {
      if i < |raw| {
        assert l[i] == loaded[i] && r[i] == raw[i];
      }
    }
  }

  /** Two parses of the same asset agree on everything except the randomly
      chosen drawables. */
  lemma ParsesAgreeUpToImages(asset: Option<ProductsJsonResponse>, a: seq<Product>, b: seq<Product>, pool: seq<int>)
    requires IsParseResult(asset, a, pool) && IsParseResult(asset, b, pool)
    ensures |a| == |b|
    ensures forall i :: 0 <= i < |a| ==> a[i].(imageRes := b[i].imageRes) == b[i]
  {
  }

  /** A document that lists no product and an asset that fails to load are
      indistinguishable: both parse to the empty list. */
  lemma EmptyDocumentLikeFailure(loaded: seq<Product>, pool: seq<int>)
    ensures IsParseResult(Some(ProductsJsonResponse()), loaded, pool) <==> loaded == []
    ensures IsParseResult(None, loaded, pool) <==> loaded == []
  {
  }

  /** `productsDrawableRes.random()`: any one of the pool's handles. */
  method PickImage(pool: seq<int>) returns (handle: int)
    requires pool != []
    ensures handle in pool
  {
    var i :| 0 <= i < |pool|;
    handle := pool[i];
  }

  /** One `forEach` over raw products: appends each converted product to
      `loaded`, in order. `done` names the raw products `loaded` came from. */
  method AddProducts(loaded: seq<Product>, ghost done: seq<JsonProduct>, items: seq<JsonProduct>, pool: seq<int>)
    returns (added: seq<Product>)
    requires pool != [] && LoadedFrom(loaded, done, pool)
    ensures LoadedFrom(added, done + items, pool)
    ensures added[..|loaded|] == loaded
  {
    added := loaded;
    var k := 0;
    while k < |items|
      invariant 0 <= k <= |items|
      invariant LoadedFrom(added, done + items[..k], pool)
      invariant added[..|loaded|] == loaded
    {
      var image := PickImage(pool);
      LoadedFromSnoc(added, done + items[..k], pool, items[k], image);
      added := added + [ToProduct(items[k], image)];
      assert done + items[..k + 1] == done + items[..k] + [items[k]];
      k := k + 1;
    }
    assert items[..k] == items;
  }

  /** `category.items.forEach`: the products of every subcategory, in order. */
  method AddSubCategories(loaded: seq<Product>, ghost done: seq<JsonProduct>, subs: seq<SubCategory>, pool: seq<int>)
    returns (added: seq<Product>)
    requires pool != [] && LoadedFrom(loaded, done, pool)
    ensures LoadedFrom(added, done + SubCategoryProducts(subs), pool)
    ensures added[..|loaded|] == loaded
  {
    added := loaded;
    ghost var visited := done;
    var s := 0;
    while s < |subs|
      invariant 0 <= s <= |subs|
      invariant visited == done + SubCategoryProducts(subs[..s])
      invariant LoadedFrom(added, visited, pool)
      invariant added[..|loaded|] == loaded
    {
      ghost var prefix := added;
      added := AddProducts(added, visited, subs[s].items, pool);
      assert added[..|loaded|] == prefix[..|loaded|];
      SubCategoryProductsStep(subs, s);
      visited := visited + subs[s].items;
      s := s + 1;
    }
    assert subs[..s] == subs;
  }

  class ProductRepository {
    /** The outcome of reading and decoding the bundled `products.json`. */
    const asset: Option<ProductsJsonResponse>
    /** The three placeholder drawables products are shown with. */
    const productsDrawableRes: seq<int>
    /** The published list (`_products.value`). */
    var products: seq<Product>
    var isLoaded: bool
    /** How many times the document has been parsed. */
    ghost var parseCount: nat

    /** Until the first load the published list is empty; afterwards it is the
        result of the one and only parse. */
    ghost predicate Valid()
      reads this
    {
      |productsDrawableRes| == 3 &&
      parseCount == (if isLoaded then 1 else 0) &&
      (!isLoaded ==> products == []) &&
      (isLoaded ==> IsParseResult(asset, products, productsDrawableRes))
    }

    constructor (asset: Option<ProductsJsonResponse>, first: int, second: int, third: int)
      ensures Valid()
      ensures this.asset == asset && productsDrawableRes == [first, second, third]
      ensures products == [] && !isLoaded
    {
      this.asset := asset;
      productsDrawableRes := [first, second, third];
      products := [];
      isLoaded := false;
      parseCount := 0;
    }

    /** `loadProducts`: the first call parses and publishes, whatever the
        outcome; every later call changes nothing. */
    method LoadProducts()
      requires Valid()
      modifies this`products, this`isLoaded, this`parseCount
      ensures Valid() && isLoaded
      ensures old(isLoaded) ==> products == old(products) && parseCount == old(parseCount)
      ensures !old(isLoaded) ==> IsParseResult(asset, products, productsDrawableRes)
    {
      if isLoaded {
        return;
      }
      products := ParseJson();
      isLoaded := true;
    }

    /** `parseJson`: every nested product, then every top-level product, each
        converted; nothing at all when the asset could not be decoded. Each
        call is one more parse. */
    method ParseJson() returns (loaded: seq<Product>)
      requires |productsDrawableRes| == 3
      modifies this`parseCount
      ensures IsParseResult(asset, loaded, productsDrawableRes)
      ensures parseCount == old(parseCount) + 1
    {
      parseCount := parseCount + 1;
      if asset.None? {
        return [];
      }
      var response := asset.value;
      loaded := [];
      // `done` is the raw products converted so far, in visiting order.
      ghost var done: seq<JsonProduct> := [];
      var c := 0;
      while c < |response.catalog|
        invariant 0 <= c <= |response.catalog|
        invariant parseCount == old(parseCount) + 1
        invariant done == CatalogProducts(response.catalog[..c])
        invariant LoadedFrom(loaded, done, productsDrawableRes)
      {
        loaded := AddSubCategories(loaded, done, response.catalog[c].items, productsDrawableRes);
        CatalogProductsStep(response.catalog, c);
        done := done + SubCategoryProducts(response.catalog[c].items);
        c := c + 1;
      }
      assert response.catalog[..c] == response.catalog;
      loaded := AddProducts(loaded, done, response.products, productsDrawableRes);
    }
  }
}
