/**
 * The product screen's lookup: the first product of the store's published
 * list whose id is the requested one, recomputed from every list the store
 * publishes.
 */
module ProductDetails {
  import opened Wrappers
  import opened Decimal
  import opened JsonModel
  import opened ProductModel
  import opened Repository

  /** `list.find { it.id == productId }`. */
  function Find(list: seq<Product>, productId: string): (r: Option<Product>)
    ensures r.None? <==> forall i :: 0 <= i < |list| ==> list[i].id != productId
    ensures r.Some? ==>
      exists i :: 0 <= i < |list| && list[i] == r.value && list[i].id == productId &&
        forall j :: 0 <= j < i ==> list[j].id != productId
    decreases |list|
  {
    if |list| == 0 then None
    else if list[0].id == productId then Some(list[0])
    else Find(list[1..], productId)
  }

  /** The screen's value: absent until the store's list has been observed,
      then the lookup in the latest list, with nothing kept from earlier lists. */
  function ProductFlow(observed: Option<seq<Product>>, productId: string): (r: Option<Product>)
    ensures observed.None? ==> r.None?
    ensures r.Some? ==> observed.Some? && r.value in observed.value && r.value.id == productId
    ensures observed.Some? ==> (r.None? <==> forall p :: p in observed.value ==> p.id != productId)
  {
    match observed
    case None => None
    case Some(list) => Find(list, productId)
  }

  /** Looking up a listed product's id finds a product with that id; when ids
      are unique it finds that very product. */
  lemma FindListed(list: seq<Product>, k: nat)
    requires k < |list|
    ensures Find(list, list[k].id).Some? && Find(list, list[k].id).value.id == list[k].id
    ensures (forall i, j :: 0 <= i < j < |list| ==> list[i].id != list[j].id) ==>
      Find(list, list[k].id) == Some(list[k])
  {
  }

  /** Looking up the rendered id `n` in a freshly loaded list finds the product
      built from the first raw product with numeric id `n`, and nothing when no
      raw product has that id. */
  lemma FindLoaded(loaded: seq<Product>, raw: seq<JsonProduct>, pool: seq<int>, n: Long)
    requires LoadedFrom(loaded, raw, pool)
    ensures Find(loaded, LongToString(n)).None? <==> forall i :: 0 <= i < |raw| ==> raw[i].id != n
    ensures Find(loaded, LongToString(n)).Some? ==>
      exists i :: 0 <= i < |raw| && raw[i].id == n && (forall j :: 0 <= j < i ==> raw[j].id != n) &&
        Find(loaded, LongToString(n)) == Some(ToProduct(raw[i], loaded[i].imageRes))
  {
    forall i | 0 <= i < |raw|
      ensures loaded[i].id == LongToString(n) <==> raw[i].id == n
    {
      LongToStringInjective(raw[i].id, n);
    }
  }
}
