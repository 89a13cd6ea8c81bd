/**
 * The admin products page (`admin/products/page.tsx`): the fetched list, the
 * delete-with-confirmation state (`selectedProduct`, `isModalOpen`), the
 * stock badge, the thumbnail choice and the summary totals.
 */
module ProductsPage {
  import opened Wrappers
  import opened Js
  import opened Types
  import opened Backend
  import opened Collections

  // ---------------------------------------------------------------------------
  // Stock badge and summary

  datatype StockStatus = OutOfStock | LowStock | InStock {
    function Label(): string {
      match this
      case OutOfStock => "Out of Stock"
      case LowStock => "Low Stock"
      case InStock => "In Stock"
    }

    function ColorClass(): string {
      match this
      case OutOfStock => "text-red-600 bg-red-50"
      case LowStock => "text-yellow-600 bg-yellow-50"
      case InStock => "text-green-600 bg-green-50"
    }
  }

  /** `StockStatus`: `0` is out of stock, anything else up to `10` (negatives included) is low, more is in stock. */
  function StockStatusOf(quantity: int): (s: StockStatus)
    ensures s == OutOfStock <==> quantity == 0
    ensures s == LowStock <==> quantity != 0 && quantity <= 10
    ensures s == InStock <==> quantity > 10
  {
    if quantity == 0 then OutOfStock
    else if quantity <= 10 then LowStock
    else InStock
  }

  /** `p.total_quantity || 0` and `p.total_orders || 0`. */
  function StockOf(p: Product): int { p.totalQuantity.GetOr(0) }
  function OrdersOf(p: Product): int { p.totalOrders.GetOr(0) }

  /** The "Total Stock" figure: the quantities summed, a missing one counting as 0. */
  function TotalStock(ps: seq<Product>): (r: int)
    ensures (forall i :: 0 <= i < |ps| ==> StockOf(ps[i]) >= 0) ==> r >= 0
    ensures (forall i :: 0 <= i < |ps| ==> StockOf(ps[i]) == 0) ==> r == 0
    ensures |ps| == 1 ==> r == StockOf(ps[0])
  {
    if ps == [] then 0
    else
      assert forall i :: 1 <= i < |ps| ==> ps[1..][i - 1] == ps[i];
      StockOf(ps[0]) + TotalStock(ps[1..])
  }

  /** The "Total Orders" figure: the order counts summed, a missing one counting as 0. */
  function TotalOrders(ps: seq<Product>): (r: int)
    ensures (forall i :: 0 <= i < |ps| ==> OrdersOf(ps[i]) >= 0) ==> r >= 0
    ensures (forall i :: 0 <= i < |ps| ==> OrdersOf(ps[i]) == 0) ==> r == 0
    ensures |ps| == 1 ==> r == OrdersOf(ps[0])
  {
    if ps == [] then 0
    else
      assert forall i :: 1 <= i < |ps| ==> ps[1..][i - 1] == ps[i];
      OrdersOf(ps[0]) + TotalOrders(ps[1..])
  }

  function NoStock(): Product -> bool {
    (p: Product) => StockOf(p) == 0
  }

  /**
   * The "Out of Stock" figure: how many products have quantity 0 (or none).
   * It is at most the number of products, 0 when every product has stock and
   * all of them when none has.
   */
  function OutOfStockCount(ps: seq<Product>): (r: nat)
    ensures r <= |ps|
    ensures (forall i :: 0 <= i < |ps| ==> StockOf(ps[i]) != 0) ==> r == 0
    ensures (forall i :: 0 <= i < |ps| ==> StockOf(ps[i]) == 0) ==> r == |ps|
  {
    var kept := Filter(ps, NoStock());
    assert (forall i :: 0 <= i < |ps| ==> StockOf(ps[i]) != 0) ==> kept == [] by {
      if forall i :: 0 <= i < |ps| ==> StockOf(ps[i]) != 0 {
        FilterDropsAll(ps, NoStock());
      }
    }
    assert (forall i :: 0 <= i < |ps| ==> StockOf(ps[i]) == 0) ==> kept == ps by {
      if forall i :: 0 <= i < |ps| ==> StockOf(ps[i]) == 0 {
        FilterKeepsAll(ps, NoStock());
      }
    }
    |kept|
  }

  /** The four summary cards: products, stock, orders and out-of-stock products. */
  datatype Summary = Summary(totalProducts: nat, totalStock: int, totalOrders: int, outOfStock: nat)

  /**
   * The summary row is shown once loading is over and there is at least one
   * product; the out-of-stock card never exceeds the product card.
   */
  function SummaryCards(loading: bool, ps: seq<Product>): (r: Option<Summary>)
    ensures r.Some? <==> !loading && |ps| > 0
    ensures r.Some? ==> r.value.totalProducts == |ps| && r.value.outOfStock <= r.value.totalProducts
    ensures r.Some? && (forall i :: 0 <= i < |ps| ==> StockOf(ps[i]) >= 0) ==> r.value.totalStock >= 0
    ensures r.Some? && (forall i :: 0 <= i < |ps| ==> StockOf(ps[i]) == 0) ==>
      r.value.totalStock == 0 && r.value.outOfStock == r.value.totalProducts
  {
    if !loading && |ps| > 0 then
      Some(Summary(|ps|, TotalStock(ps), TotalOrders(ps), OutOfStockCount(ps)))
    else None
  }

  /** The totals add up over any split of the list into two parts. */
  lemma {:induction false} TotalsAppend(a: seq<Product>, b: seq<Product>)
    ensures TotalStock(a + b) == TotalStock(a) + TotalStock(b)
    ensures TotalOrders(a + b) == TotalOrders(a) + TotalOrders(b)
  {
    if a == [] {
      assert a + b == b;
    } else {
      assert (a + b)[1..] == a[1..] + b;
      TotalsAppend(a[1..], b);
    }
  }

  /** The stock of the products a filter keeps and of those it drops add up to the total stock. */
  lemma {:induction false} TotalStockSplits(ps: seq<Product>, keep: Product -> bool)
    ensures TotalStock(Filter(ps, keep)) + TotalStock(Filter(ps, p => !keep(p))) == TotalStock(ps)
  {
    if ps != [] {
      TotalStockSplits(ps[1..], keep);
      var k := if keep(ps[0]) then [ps[0]] else [];
      var d := if keep(ps[0]) then [] else [ps[0]];
      TotalsAppend(k, Filter(ps[1..], keep));
      TotalsAppend(d, Filter(ps[1..], p => !keep(p)));
    }
  }

  /** The "Out of Stock" figure counts exactly the rows whose badge reads "Out of Stock". */
  lemma OutOfStockCountMatchesBadges(ps: seq<Product>)
    ensures OutOfStockCount(ps) == |Filter(ps, p => StockStatusOf(StockOf(p)) == OutOfStock)|
    ensures OutOfStockCount(ps) <= |ps|
  {
    FilterCongruent(ps, NoStock(), p => StockStatusOf(StockOf(p)) == OutOfStock);
  }

  /** `ProductImage`: the first element of a non-empty `images` array, drawn only when it is truthy. */
  function ShownImage(images: JsValue): (r: Option<JsValue>)
    ensures r.Some? <==> images.Arr? && |images.items| > 0 && Truthy(images.items[0])
    ensures r.Some? ==> r.value == images.items[0]
  {
    var imageUrl := if images.Arr? && |images.items| > 0 then images.items[0] else Null;
    if Truthy(imageUrl) then Some(imageUrl) else None
  }

  // ---------------------------------------------------------------------------
  // Delete

  function IdIsNot(id: string): Product -> bool {
    (p: Product) => p.id != id
  }

  /** `products.filter((p) => p.id !== id)`. */
  function WithoutId(ps: seq<Product>, id: string): seq<Product> {
    Filter(ps, IdIsNot(id))
  }

  /**
   * Removing an id keeps exactly the other products, in their order, and
   * leaves a list without that id as it is.
   */
  lemma WithoutIdRemovesExactly(ps: seq<Product>, id: string, q: Product, rest: seq<Product>)
    ensures q in WithoutId(ps, id) <==> q in ps && q.id != id
    ensures WithoutId(ps + rest, id) == WithoutId(ps, id) + WithoutId(rest, id)
    ensures (forall i :: 0 <= i < |ps| ==> ps[i].id != id) ==> WithoutId(ps, id) == ps
  {
    FilterMembership(ps, IdIsNot(id), q);
    FilterAppend(ps, rest, IdIsNot(id));
    if forall i :: 0 <= i < |ps| ==> ps[i].id != id {
      FilterKeepsAll(ps, IdIsNot(id));
    }
  }

  const DeletedMessage := "Product deleted successfully"
  const DeleteFailedMessage := "Failed to delete product"
  const LoadFailedMessage := "Failed to load products"

  /** The page's state. */
  class ProductsPage {
    var products: seq<Product>
    var error: Option<string>
    var loading: bool
    var isModalOpen: bool
    var selectedProduct: Option<Product>

    /** The modal is open exactly while a product is selected. */
    ghost predicate Valid()
      reads this
    {
      isModalOpen <==> selectedProduct.Some?
    }

    constructor ()
      ensures Valid()
      ensures products == [] && error == None && loading && !isModalOpen && selectedProduct == None
    {
      products := [];
      error := None;
      loading := true;
      isModalOpen := false;
      selectedProduct := None;
    }

    /** `fetchProducts`: a `null` list is empty; an error leaves the list; loading ends on every path. */
    method FetchProducts(response: QueryResponse<seq<Product>>) returns (notice: Notice)
      modifies this`products, this`error, this`loading
      ensures !loading
      ensures response.QueryResult? && response.error.None? ==>
        products == response.data.GetOr([]) && error == old(error) && notice == NoToast
      ensures response.QueryResult? && response.error.Some? ==>
        products == old(products) && error == Some(LoadFailedMessage) && notice == ErrorToast(LoadFailedMessage)
      ensures response.QueryThrew? ==>
        products == old(products) && error == Some(UnexpectedError) && notice == ErrorToast(UnexpectedError)
    {
      notice := NoToast;
      match response {
        case QueryResult(data, err) =>
          if err.Some? {
            error := Some(LoadFailedMessage);
            notice := ErrorToast(LoadFailedMessage);
          } else {
            products := data.GetOr([]);
          }
        case QueryThrew(_) =>
          error := Some(UnexpectedError);
          notice := ErrorToast(UnexpectedError);
      }
      loading := false;
    }

    /** `openDeleteModal`: select the row's product and open the modal. */
    method OpenDeleteModal(product: Product)
      modifies this`isModalOpen, this`selectedProduct
      ensures Valid() && isModalOpen && selectedProduct == Some(product)
    {
      selectedProduct := Some(product);
      isModalOpen := true;
    }

    /** `closeModal`: close the modal and drop the selection. */
    method CloseModal()
      modifies this`isModalOpen, this`selectedProduct
      ensures Valid() && !isModalOpen && selectedProduct == None
    {
      isModalOpen := false;
      selectedProduct := None;
    }

    /**
     * `handleDeleteProduct`: without a selection, nothing happens. Otherwise
     * the delete's outcome decides the list (only a success removes the
     * selected id) and the notification, and whatever the outcome the modal
     * is closed and the selection dropped, so a second confirm does nothing.
     */
    method HandleDeleteProduct(response: MutationResponse) returns (notice: Notice)
      requires Valid()
      modifies this`products, this`isModalOpen, this`selectedProduct
      ensures Valid()
      ensures old(selectedProduct).None? ==>
        products == old(products) && !isModalOpen && selectedProduct == None && notice == NoToast
      ensures old(selectedProduct).Some? ==> !isModalOpen && selectedProduct == None
      ensures old(selectedProduct).Some? && response == MutationResult(None) ==>
        products == WithoutId(old(products), old(selectedProduct).value.id) && notice == SuccessToast(DeletedMessage)
      ensures old(selectedProduct).Some? && response.MutationResult? && response.error.Some? ==>
        products == old(products) && notice == ErrorToast(DeleteFailedMessage)
      ensures old(selectedProduct).Some? && response.MutationThrew? ==>
        products == old(products) && notice == ErrorToast(UnexpectedError)
    {
      if selectedProduct.None? {
        return NoToast;
      }
      var id := selectedProduct.value.id;
      match response {
        case MutationResult(err) =>
          if err.Some? {
            notice := ErrorToast(DeleteFailedMessage);
          } else {
            products := WithoutId(products, id);
            notice := SuccessToast(DeletedMessage);
          }
        case MutationThrew(_) =>
          notice := ErrorToast(UnexpectedError);
      }
      // finally
      isModalOpen := false;
      selectedProduct := None;
    }
  }
}
