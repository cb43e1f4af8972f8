/** The runtime product record the screens display. */
module ProductModel {
  import opened Wrappers

  /**
   * Every field is immutable once built. `id` is the rendered numeric id,
   * `price` a ready-to-show string, `imageRes` an opaque drawable handle and
   * `description` absent unless given.
   */
  datatype Product = Product(
    id: string,
    name: string,
    price: string,
    imageRes: int,
    description: Option<string> := None
  )

  /** A product built without a description has none. */
  lemma DescriptionDefaultsToAbsent()
    ensures forall id, name, price, imageRes: int ::
      Product(id, name, price, imageRes).description == None
  {
  }
}
