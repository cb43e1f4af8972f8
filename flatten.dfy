/**
 * Reference definition of the order in which the loader visits raw products:
 * every product nested in the catalogue (category by category, subcategory by
 * subcategory, item by item), then every top-level product. The counts are
 * defined independently of the traversal, so that the length and position
 * lemmas below say something about it.
 */
module Flattening {
  import opened JsonModel

  /** The products of `subs`, subcategory by subcategory. */
  function SubCategoryProducts(subs: seq<SubCategory>): seq<JsonProduct>
    decreases |subs|
  {
    if |subs| == 0 then [] else SubCategoryProducts(subs[..|subs| - 1]) + subs[|subs| - 1].items
  }

  /** The products nested in `cats`, category by category. */
  function CatalogProducts(cats: seq<Category>): seq<JsonProduct>
    decreases |cats|
  {
    if |cats| == 0 then [] else CatalogProducts(cats[..|cats| - 1]) + SubCategoryProducts(cats[|cats| - 1].items)
  }

  /** Every raw product of the document, in the order the loader emits them. */
  function Flatten(doc: ProductsJsonResponse): seq<JsonProduct> {
    CatalogProducts(doc.catalog) + doc.products
  }

  /** Number of products held by `subs`. */
  function SubCount(subs: seq<SubCategory>): nat {
    if |subs| == 0 then 0 else |subs[0].items| + SubCount(subs[1..])
  }

  /** Number of products nested in `cats`. */
  function CatalogCount(cats: seq<Category>): nat {
    if |cats| == 0 then 0 else SubCount(cats[0].items) + CatalogCount(cats[1..])
  }

  /** Index in `Flatten(doc)` of item `k` of subcategory `s` of category `c`. */
  function NestedPosition(doc: ProductsJsonResponse, c: nat, s: nat, k: nat): nat
    requires c < |doc.catalog| && s <= |doc.catalog[c].items|
  {
    CatalogCount(doc.catalog[..c]) + SubCount(doc.catalog[c].items[..s]) + k
  }

  /** Index in `Flatten(doc)` of top-level product `i`. */
  function TopPosition(doc: ProductsJsonResponse, i: nat): nat {
    CatalogCount(doc.catalog) + i
  }

  /** Lexicographic order on (category, subcategory, item) coordinates. */
  predicate LexBefore(c: nat, s: nat, k: nat, c': nat, s': nat, k': nat) {
    c < c' || (c == c' && (s < s' || (s == s' && k < k')))
  }

  lemma {:induction false} SubCountAppend(a: seq<SubCategory>, b: seq<SubCategory>)
    ensures SubCount(a + b) == SubCount(a) + SubCount(b)
    decreases |a|
  {
    if |a| == 0 {
      assert a + b == b;
    } else {
      assert (a + b)[1..] == a[1..] + b;
      SubCountAppend(a[1..], b);
    }
  }

  lemma {:induction false} CatalogCountAppend(a: seq<Category>, b: seq<Category>)
    ensures CatalogCount(a + b) == CatalogCount(a) + CatalogCount(b)
    decreases |a|
  {
    if |a| == 0 {
      assert a + b == b;
    } else {
      assert (a + b)[1..] == a[1..] + b;
      CatalogCountAppend(a[1..], b);
    }
  }

  /** Counting a prefix one subcategory longer adds that subcategory's items. */
  lemma SubCountStep(subs: seq<SubCategory>, s: nat)
    requires s < |subs|
    ensures SubCount(subs[..s + 1]) == SubCount(subs[..s]) + |subs[s].items|
  {
    assert subs[..s + 1] == subs[..s] + [subs[s]];
    SubCountAppend(subs[..s], [subs[s]]);
  }

  lemma CatalogCountStep(cats: seq<Category>, c: nat)
    requires c < |cats|
    ensures CatalogCount(cats[..c + 1]) == CatalogCount(cats[..c]) + SubCount(cats[c].items)
  {
    assert cats[..c + 1] == cats[..c] + [cats[c]];
    CatalogCountAppend(cats[..c], [cats[c]]);
  }

  /** Visiting one more subcategory appends its items. */
  lemma SubCategoryProductsStep(subs: seq<SubCategory>, s: nat)
    requires s < |subs|
    ensures SubCategoryProducts(subs[..s + 1]) == SubCategoryProducts(subs[..s]) + subs[s].items
  {
    assert subs[..s + 1][..s] == subs[..s];
  }

  /** Visiting one more category appends its subcategories' items. */
  lemma CatalogProductsStep(cats: seq<Category>, c: nat)
    requires c < |cats|
    ensures CatalogProducts(cats[..c + 1]) == CatalogProducts(cats[..c]) + SubCategoryProducts(cats[c].items)
  {
    assert cats[..c + 1][..c] == cats[..c];
  }

  lemma SubCountMonotone(subs: seq<SubCategory>, i: nat, j: nat)
    requires i <= j <= |subs|
    ensures SubCount(subs[..i]) <= SubCount(subs[..j])
  {
    assert subs[..j] == subs[..i] + subs[i..j];
    SubCountAppend(subs[..i], subs[i..j]);
  }

  lemma CatalogCountMonotone(cats: seq<Category>, i: nat, j: nat)
    requires i <= j <= |cats|
    ensures CatalogCount(cats[..i]) <= CatalogCount(cats[..j])
  {
    assert cats[..j] == cats[..i] + cats[i..j];
    CatalogCountAppend(cats[..i], cats[i..j]);
  }

  lemma {:induction false} SubCategoryProductsAppend(a: seq<SubCategory>, b: seq<SubCategory>)
    ensures SubCategoryProducts(a + b) == SubCategoryProducts(a) + SubCategoryProducts(b)
    decreases |b|
  {
    if |b| == 0 {
      assert a + b == a;
    } else {
      var ab, init := a + b, b[..|b| - 1];
      assert ab[..|ab| - 1] == a + init && ab[|ab| - 1] == b[|b| - 1];
      SubCategoryProductsAppend(a, init);
      calc {
        SubCategoryProducts(ab);
        SubCategoryProducts(a + init) + b[|b| - 1].items;
        (SubCategoryProducts(a) + SubCategoryProducts(init)) + b[|b| - 1].items;
        SubCategoryProducts(a) + (SubCategoryProducts(init) + b[|b| - 1].items);
      }
    }
  }

  lemma {:induction false} CatalogProductsAppend(a: seq<Category>, b: seq<Category>)
    ensures CatalogProducts(a + b) == CatalogProducts(a) + CatalogProducts(b)
    decreases |b|
  {
    if |b| == 0 {
      assert a + b == a;
    } else {
      var ab, init := a + b, b[..|b| - 1];
      assert ab[..|ab| - 1] == a + init && ab[|ab| - 1] == b[|b| - 1];
      CatalogProductsAppend(a, init);
      calc {
        CatalogProducts(ab);
        CatalogProducts(a + init) + SubCategoryProducts(b[|b| - 1].items);
        (CatalogProducts(a) + CatalogProducts(init)) + SubCategoryProducts(b[|b| - 1].items);
        CatalogProducts(a) + (CatalogProducts(init) + SubCategoryProducts(b[|b| - 1].items));
      }
    }
  }

  lemma {:induction false} SubCategoryProductsLength(subs: seq<SubCategory>)
    ensures |SubCategoryProducts(subs)| == SubCount(subs)
    decreases |subs|
  {
    if |subs| > 0 {
      var n := |subs|;
      SubCategoryProductsLength(subs[..n - 1]);
      SubCountStep(subs, n - 1);
      assert subs[..n] == subs;
    }
  }

  lemma {:induction false} CatalogProductsLength(cats: seq<Category>)
    ensures |CatalogProducts(cats)| == CatalogCount(cats)
    decreases |cats|
  {
    if |cats| > 0 {
      var n := |cats|;
      CatalogProductsLength(cats[..n - 1]);
      SubCategoryProductsLength(cats[n - 1].items);
      CatalogCountStep(cats, n - 1);
      assert cats[..n] == cats;
    }
  }

  /** No product is dropped or merged: the flattened length is the number of
      nested products plus the number of top-level products. */
  lemma FlattenLength(doc: ProductsJsonResponse)
    ensures |Flatten(doc)| == CatalogCount(doc.catalog) + |doc.products|
  {
    CatalogProductsLength(doc.catalog);
  }

  lemma SubCategoryProductAt(subs: seq<SubCategory>, s: nat, k: nat)
    requires s < |subs| && k < |subs[s].items|
    ensures SubCount(subs[..s]) + k < |SubCategoryProducts(subs)|
    ensures SubCategoryProducts(subs)[SubCount(subs[..s]) + k] == subs[s].items[k]
  {
    var front, rest := subs[..s + 1], subs[s + 1..];
    assert subs == front + rest;
    SubCategoryProductsAppend(front, rest);
    assert front[..s] == subs[..s];
    SubCategoryProductsLength(subs[..s]);
  }

  lemma CatalogProductAt(cats: seq<Category>, c: nat, s: nat, k: nat)
    requires c < |cats| && s < |cats[c].items| && k < |cats[c].items[s].items|
    ensures CatalogCount(cats[..c]) + SubCount(cats[c].items[..s]) + k < |CatalogProducts(cats)|
    ensures CatalogProducts(cats)[CatalogCount(cats[..c]) + SubCount(cats[c].items[..s]) + k]
         == cats[c].items[s].items[k]
  {
    var front, rest := cats[..c + 1], cats[c + 1..];
    assert cats == front + rest;
    CatalogProductsAppend(front, rest);
    assert front[..c] == cats[..c];
    CatalogProductsLength(cats[..c]);
    SubCategoryProductAt(cats[c].items, s, k);
  }

  /** Where each nested raw product lands: item k of subcategory s of
      category c is at `NestedPosition(doc, c, s, k)`. */
  lemma FlattenNestedAt(doc: ProductsJsonResponse, c: nat, s: nat, k: nat)
    requires c < |doc.catalog| && s < |doc.catalog[c].items| && k < |doc.catalog[c].items[s].items|
    ensures NestedPosition(doc, c, s, k) < |Flatten(doc)|
    ensures Flatten(doc)[NestedPosition(doc, c, s, k)] == doc.catalog[c].items[s].items[k]
  {
    CatalogProductAt(doc.catalog, c, s, k);
  }

  /** Where each top-level raw product lands: product i is at `TopPosition(doc, i)`. */
  lemma FlattenTopAt(doc: ProductsJsonResponse, i: nat)
    requires i < |doc.products|
    ensures TopPosition(doc, i) < |Flatten(doc)|
    ensures Flatten(doc)[TopPosition(doc, i)] == doc.products[i]
  {
    CatalogProductsLength(doc.catalog);
  }

  /** The positions keep document order: nested products in lexicographic
      (category, subcategory, item) order, all of them before every top-level
      product, and top-level products in their own order. */
  lemma FlattenOrder(doc: ProductsJsonResponse, c: nat, s: nat, k: nat, c': nat, s': nat, k': nat)
    requires c < |doc.catalog| && s < |doc.catalog[c].items| && k < |doc.catalog[c].items[s].items|
    requires c' < |doc.catalog| && s' < |doc.catalog[c'].items| && k' < |doc.catalog[c'].items[s'].items|
    ensures LexBefore(c, s, k, c', s', k') ==> NestedPosition(doc, c, s, k) < NestedPosition(doc, c', s', k')
    ensures forall i :: NestedPosition(doc, c, s, k) < TopPosition(doc, i)
  {
    var cats := doc.catalog;
    var subs := cats[c].items;
    // Item (c, s, k) lies inside the block of category c.
    SubCountStep(subs, s);
    SubCountMonotone(subs, s + 1, |subs|);
    assert subs[..|subs|] == subs;
    CatalogCountStep(cats, c);
    CatalogCountMonotone(cats, c + 1, |cats|);
    assert cats[..|cats|] == cats;
    assert NestedPosition(doc, c, s, k) < CatalogCount(cats[..c + 1]);
    if c < c' {
      CatalogCountMonotone(cats, c + 1, c');
    } else if c == c' && s < s' {
      SubCountMonotone(subs, s + 1, s');
    }
  }
}
