/**
 * The shape of the bundled `products.json` document: a three-level catalogue
 * (category, subcategory, product) and a flat list of top-level products.
 * The Kotlin default arguments (`= emptyList()`) are the constructors'
 * default values, so a document or node built without a list has an empty one.
 */
module JsonModel {
  import opened Decimal

  datatype JsonProduct = JsonProduct(
    id: Long,
    name: string,
    image: string,
    price: Long,
    description: string
  )

  datatype SubCategory = SubCategory(
    id: Long,
    name: string,
    image: string,
    description: string,
    items: seq<JsonProduct> := []
  )

  datatype Category = Category(
    id: Long,
    name: string,
    image: string,
    description: string,
    items: seq<SubCategory> := []
  )

  datatype ProductsJsonResponse = ProductsJsonResponse(
    catalog: seq<Category> := [],
    products: seq<JsonProduct> := []
  )

  /** A document that supplies neither list holds no product at all. */
  lemma OmittedListsAreEmpty()
    ensures ProductsJsonResponse().catalog == [] && ProductsJsonResponse().products == []
    ensures forall id: Long, name, image, description ::
      Category(id, name, image, description).items == []
    ensures forall id: Long, name, image, description ::
      SubCategory(id, name, image, description).items == []
  {
  }
}
