/**
 * The products page: the loaded list, the search over it and the stock
 * figures shown above the table.
 */
module ProductPage {
  import opened Text
  import opened ListOps
  import opened Wrappers

  /**
   * A row of `GET /products`; prices and stocks are whole numbers here. The
   * backend sends `description`, `categoryId` and `categoryName` as null for
   * a product saved without a description or without a category.
   */
  datatype ProductRow = ProductRow(
    id: int, name: string, description: Option<string>, categoryId: Option<int>,
    categoryName: Option<string>, stock: int, price: int)

  /**
   * The search callback as JavaScript evaluates it: the four `includes` tests
   * left to right, stopping at the first hit. `None` is the TypeError thrown
   * by `toLowerCase` on a null category name or description it reaches.
   */
  function MatchTest(p: ProductRow, needle: string): (r: Option<bool>)
    ensures p.categoryName.Some? && p.description.Some? ==>
              r == Some(Includes(ToLower(p.name), needle) || Includes(ToLower(p.categoryName.value), needle)
                        || Includes(ToLower(p.description.value), needle) || Includes(IntToString(p.id), needle))
    ensures r.Some? ==> (r.value <==> (
      || Includes(ToLower(p.name), needle)
      || (p.categoryName.Some? && Includes(ToLower(p.categoryName.value), needle))
      || (p.categoryName.Some? && p.description.Some? && Includes(ToLower(p.description.value), needle))
      || (p.categoryName.Some? && p.description.Some? && Includes(IntToString(p.id), needle))))
    ensures r.None? <==> !Includes(ToLower(p.name), needle)
                         && (p.categoryName.None? || (!Includes(ToLower(p.categoryName.value), needle) && p.description.None?))
  {
    if Includes(ToLower(p.name), needle) then Some(true)
    else match p.categoryName
      case None => None
      case Some(category) =>
        if Includes(ToLower(category), needle) then Some(true)
        else match p.description
          case None => None
          case Some(description) => Some(Includes(ToLower(description), needle) || Includes(IntToString(p.id), needle))
  }

  /** The search test where it does not throw: the callback answered true. */
  predicate Matches(p: ProductRow, needle: string) {
    MatchTest(p, needle) == Some(true)
  }

  /**
   * `onSearch`'s result: `None` when the filter callback throws on some
   * product, in which case `filteredProducts` is never assigned.
   */
  function SearchProducts(products: seq<ProductRow>, term: string): (r: Option<seq<ProductRow>>)
    ensures IsBlank(term) ==> r == Some(products)
    ensures r.None? <==> !IsBlank(term) && exists i :: 0 <= i < |products| && MatchTest(products[i], ToLower(term)).None?
    ensures !IsBlank(term) && r.Some? ==> r.value == Filter(products, (p: ProductRow) => Matches(p, ToLower(term)))
    ensures r.Some? ==> IsSubsequence(r.value, products)
  {
    if IsBlank(term) then
      IsSubsequenceReflexive(products);
      Some(products)
    else
      FilterOrThrow(products, (p: ProductRow) => MatchTest(p, ToLower(term)), (p: ProductRow) => Matches(p, ToLower(term)))
  }

  function StockOf(p: ProductRow): int {
    p.stock
  }

  predicate OutOfStock(p: ProductRow) {
    p.stock == 0
  }

  /** `totalStock`: the reduce over the list, which is the sum of the stocks. */
  function TotalStock(products: seq<ProductRow>): (t: int)
    ensures t == Sum(products, StockOf)
  {
    ReduceIsSum(products, StockOf, 0);
    Reduce(products, StockOf, 0)
  }

  /** `outOfStockCount`: the products whose stock is exactly 0. */
  function OutOfStockCount(products: seq<ProductRow>): (n: nat)
    ensures n <= |products|
    ensures n == |Filter(products, OutOfStock)|
  {
    Count(products, OutOfStock)
  }

  /** With no negative stock, the total is 0 exactly when every product is out of stock. */
  lemma NoStockMeansAllOut(products: seq<ProductRow>)
    requires forall i :: 0 <= i < |products| ==> products[i].stock >= 0
    ensures TotalStock(products) >= 0
    ensures TotalStock(products) == 0 <==> OutOfStockCount(products) == |products|
  {
    SumOfNonNegative(products, StockOf);
    CountAll(products, OutOfStock);
  }

  class ProductList {
    var products: seq<ProductRow>
    var filteredProducts: seq<ProductRow>
    var resultsLength: nat
    var searchTerm: string
    var totalStock: int
    var outOfStockCount: nat
    var isLoading: bool
    /** The `getProducts` requests sent. */
    var loads: nat
    var alerts: seq<string>

    constructor ()
      ensures products == [] && filteredProducts == [] && resultsLength == 0 && searchTerm == []
      ensures totalStock == 0 && outOfStockCount == 0 && !isLoading && loads == 0 && alerts == []
    {
      products := [];
      filteredProducts := [];
      resultsLength := 0;
      searchTerm := [];
      totalStock := 0;
      outOfStockCount := 0;
      isLoading := false;
      loads := 0;
      alerts := [];
    }

    /** `loadProducts` sends the request. */
    method LoadProducts()
      modifies this`isLoading, this`loads
      ensures isLoading && loads == old(loads) + 1
    {
      isLoading := true;
      loads := loads + 1;
    }

    /** The list arrived: it is shown whole, counted, and the figures recomputed. */
    method OnProductsLoaded(data: seq<ProductRow>)
      modifies this`products, this`filteredProducts, this`resultsLength, this`totalStock, this`outOfStockCount, this`isLoading
      ensures products == data && filteredProducts == data && resultsLength == |data|
      ensures totalStock == TotalStock(data) && outOfStockCount == OutOfStockCount(data)
      ensures !isLoading
    {
      products := data;
      filteredProducts := data;
      resultsLength := |data|;
      CalculateStats();
      isLoading := false;
    }

    /** The request failed: the error dialog opens. */
    method OnLoadError()
      modifies this`isLoading, this`alerts
      ensures !isLoading && alerts == old(alerts) + ["Error!"]
    {
      isLoading := false;
      alerts := alerts + ["Error!"];
    }

    /** The error dialog closed: "Retry" loads again, "Cancel" does nothing. */
    method OnErrorDialogClosed(retry: bool)
      modifies this`isLoading, this`loads
      ensures retry ==> isLoading && loads == old(loads) + 1
      ensures !retry ==> isLoading == old(isLoading) && loads == old(loads)
    {
      if retry {
        LoadProducts();
      }
    }

    /** `calculateStats` on the integer figures. */
    method CalculateStats()
      modifies this`totalStock, this`outOfStockCount
      ensures totalStock == TotalStock(products) && outOfStockCount == OutOfStockCount(products)
    {
      totalStock := Reduce(products, StockOf, 0);
      outOfStockCount := |Filter(products, OutOfStock)|;
    }

    /** The search box is bound to `searchTerm`. */
    method SetSearchTerm(term: string)
      modifies this`searchTerm
      ensures searchTerm == term
    {
      searchTerm := term;
    }

    /**
     * `onSearch`: the result is a subsequence of the list; `resultsLength` is
     * left as it was. When the filter throws, the shown list stays as it was.
     */
    method OnSearch()
      modifies this`filteredProducts
      ensures SearchProducts(products, searchTerm).Some? ==> filteredProducts == SearchProducts(products, searchTerm).value
      ensures SearchProducts(products, searchTerm).None? ==> filteredProducts == old(filteredProducts)
    {
      match SearchProducts(products, searchTerm)
      case Some(shown) => filteredProducts := shown;
      case None =>
    }

    /** `clearSearch`: no term, and the whole list. */
    method ClearSearch()
      modifies this`searchTerm, this`filteredProducts
      ensures searchTerm == [] && filteredProducts == products
    {
      searchTerm := [];
      filteredProducts := products;
    }
  }
}
