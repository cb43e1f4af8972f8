/**
 * The catalogue screen's state holder. It shows `Loading` while a load is in
 * progress and otherwise maps the store's published list: an empty list to an
 * error, any other list to a success carrying it.
 *
 * The collector of the store's list is a StateFlow collector: it receives the
 * current list when it subscribes and afterwards only lists that differ from
 * the last one it received. Each method below runs to completion, delivering
 * to the collector what the store published meanwhile.
 */
module CatalogView {
  import opened ProductModel
  import opened Repository

  datatype CatalogUiState = Loading | Success(products: seq<Product>) | Error(message: string)

  /** The message shown when there is nothing to list ("no products found"). */
  const NotFoundMessage: string := "Товары не найдены"

  /** The state the collector shows for a published list. */
  function StateFor(products: seq<Product>): (state: CatalogUiState)
    ensures !state.Loading?
    ensures state.Error? <==> products == []
    ensures state.Success? ==> state.products == products
    ensures state.Error? ==> state.message == NotFoundMessage
  {
    if |products| == 0 then Error(NotFoundMessage) else Success(products)
  }

  class CatalogViewModel {
    const repository: ProductRepository
    var uiState: CatalogUiState

    /** Subscribes to the store, then starts a load. A load that publishes
        nothing new leaves the screen in `Loading`; in particular an error is
        never what remains shown. */
    constructor (repository: ProductRepository)
      requires repository.Valid()
      modifies repository
      ensures this.repository == repository
      ensures repository.Valid() && repository.isLoaded
      ensures old(repository.isLoaded) ==> repository.products == old(repository.products)
      ensures !old(repository.isLoaded) ==>
        IsParseResult(repository.asset, repository.products, repository.productsDrawableRes)
      ensures uiState == if repository.products == old(repository.products) then Loading
                         else StateFor(repository.products)
      ensures !uiState.Error?
    {
      this.repository := repository;
      uiState := Loading;
      new;
      ObserveProducts();
      LoadProducts();
    }

    /** The collector's first delivery: the list the store holds right now. */
    method ObserveProducts()
      modifies this`uiState
      ensures uiState == StateFor(repository.products)
    {
      uiState := StateFor(repository.products);
    }

    /** Shows `Loading`, runs the store's load, and lets the collector see the
        published list if it changed. */
    method LoadProducts()
      requires repository.Valid()
      modifies this`uiState, repository
      ensures repository.Valid() && repository.isLoaded
      ensures old(repository.isLoaded) ==>
        repository.products == old(repository.products) && repository.parseCount == old(repository.parseCount)
      ensures !old(repository.isLoaded) ==>
        IsParseResult(repository.asset, repository.products, repository.productsDrawableRes)
      ensures uiState == if repository.products == old(repository.products) then Loading
                         else StateFor(repository.products)
      ensures !uiState.Error?
      ensures old(repository.isLoaded) ==> uiState == Loading
    {
      uiState := Loading;
      var previous := repository.products;
      repository.LoadProducts();
      if repository.products != previous {
        uiState := StateFor(repository.products);
      }
    }

    /** Exactly `LoadProducts`: the store's gate is not reset, so once a load
        has completed a retry leaves the screen in `Loading`. */
    method Retry()
      requires repository.Valid()
      modifies this`uiState, repository
      ensures repository.Valid() && repository.isLoaded
      ensures old(repository.isLoaded) ==>
        repository.products == old(repository.products) && repository.parseCount == old(repository.parseCount)
      ensures !old(repository.isLoaded) ==>
        IsParseResult(repository.asset, repository.products, repository.productsDrawableRes)
      ensures uiState == if repository.products == old(repository.products) then Loading
                         else StateFor(repository.products)
      ensures old(repository.isLoaded) ==> uiState == Loading
    {
      LoadProducts();
    }
  }
}
