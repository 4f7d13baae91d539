/** The shared product selection (contexts/ProductContext.tsx): the product list in
    ascending `order`, the current product, the current top-navigation item, and the id of
    the current product remembered in local storage. */
module ProductContext {
  import opened Types
  import Ordering
  import Storage

  function HasProductId(id: string): Product -> bool {
    (p: Product) => p.id == id
  }

  /** The current product after a refresh: the remembered one when it is listed, else the
      first listed one; an empty list keeps whatever was current. */
  function Refreshed(products: seq<Product>, storedId: Option<string>, current: Option<Product>): (r: Option<Product>)
    ensures products == [] ==> r == current
    ensures products != [] ==> r.Some? && r.value in products
    ensures products != [] && storedId.Some? && (exists k :: 0 <= k < |products| && products[k].id == storedId.value) ==>
      r.value.id == storedId.value
    ensures products != [] && (storedId.None? || forall k :: 0 <= k < |products| ==> products[k].id != storedId.value) ==>
      r == Some(products[0])
  {
    if products == [] then current
    else
      var found := if storedId.Some? then Find(products, HasProductId(storedId.value)) else None;
      if found.Some? then found else Some(products[0])
  }

  class ProductContextState {
    const store: Storage.ContentStore
    var products: seq<Product>
    var currentProduct: Option<Product>
    var currentTopNavId: Option<string>
    /** The product id kept in local storage across visits. */
    var storedProductId: Option<string>

    /** The provider mounts with nothing chosen and refreshes once. */
    constructor (store: Storage.ContentStore, storedProductId: Option<string>)
      ensures this.store == store && this.storedProductId == storedProductId
      ensures products == Ordering.SortBy(store.products, ProductOrder)
      ensures currentProduct == Refreshed(products, storedProductId, None)
      ensures currentTopNavId == None
    {
      this.store := store;
      this.storedProductId := storedProductId;
      currentProduct := None;
      currentTopNavId := None;
      new;
      RefreshProducts();
    }

    /** `refreshProducts` */
    method RefreshProducts()
      modifies this`products, this`currentProduct
      ensures products == Ordering.SortBy(store.products, ProductOrder)
      ensures currentProduct == Refreshed(products, storedProductId, old(currentProduct))
    {
      products := Ordering.SortBy(store.products, ProductOrder);
      if |products| > 0 {
        var found := if storedProductId.Some? then Find(products, HasProductId(storedProductId.value)) else None;
        currentProduct := if found.Some? then found else Some(products[0]);
      }
    }

    /** `setProductId`: a listed id becomes current and is remembered, and the top-navigation
        choice is dropped; an unlisted id changes nothing. */
    method SetProductId(id: string)
      modifies this`currentProduct, this`storedProductId, this`currentTopNavId
      ensures (forall k :: 0 <= k < |products| ==> products[k].id != id) ==>
        currentProduct == old(currentProduct) && storedProductId == old(storedProductId)
        && currentTopNavId == old(currentTopNavId)
      ensures (exists k :: 0 <= k < |products| && products[k].id == id) ==>
        && currentProduct.Some? && currentProduct.value in products && currentProduct.value.id == id
        && currentProduct == Find(products, HasProductId(id))
        && storedProductId == Some(id) && currentTopNavId == None
    {
      var found := Find(products, HasProductId(id));
      if found.Some? {
        assert products[FirstIndex(products, HasProductId(id))].id == id;
        currentProduct := found;
        storedProductId := Some(found.value.id);
        currentTopNavId := None;
      }
    }

    /** `setTopNavId`: only the top-navigation choice changes. */
    method SetTopNavId(id: string)
      modifies this`currentTopNavId
      ensures currentTopNavId == Some(id)
    {
      currentTopNavId := Some(id);
    }
  }
}
