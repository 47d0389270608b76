/**
 * The orders page: the loaded list, the search over it, the order count and
 * the number of pieces in an order.
 */
module OrdersPage {
  import opened Text
  import opened ListOps

  datatype ItemRow = ItemRow(productName: string, quantity: int)

  /** A row of `GET /orders`; amounts and dates are not part of this model. */
  datatype OrderRow = OrderRow(id: int, userName: string, items: seq<ItemRow>)

  function QuantityOf(item: ItemRow): int {
    item.quantity
  }

  /** `getTotalItems`: the reduce over the lines, which is the sum of their quantities. */
  function GetTotalItems(order: OrderRow): (n: int)
    ensures n == Sum(order.items, QuantityOf)
  {
    ReduceIsSum(order.items, QuantityOf, 0);
    Reduce(order.items, QuantityOf, 0)
  }

  /** An order of lines with positive quantities holds at least one piece per line. */
  lemma {:induction false} TotalItemsAtLeastLines(items: seq<ItemRow>)
    requires forall i :: 0 <= i < |items| ==> items[i].quantity > 0
    ensures Sum(items, QuantityOf) >= |items|
    decreases |items|
  {
    if items != [] {
      assert forall i :: 0 <= i < |items[1..]| ==> items[1..][i].quantity == items[i + 1].quantity;
      TotalItemsAtLeastLines(items[1..]);
    }
  }

  /** `order.items.some(item => item.productName.toLowerCase().includes(needle))`. */
  predicate SomeItemMatches(items: seq<ItemRow>, needle: string) {
    exists i :: 0 <= i < |items| && Includes(ToLower(items[i].productName), needle)
  }

  /** The search test over the customer's name, the id and the items' product names. */
  predicate Matches(o: OrderRow, needle: string) {
    Includes(ToLower(o.userName), needle) || Includes(IntToString(o.id), needle) || SomeItemMatches(o.items, needle)
  }

  /** `onSearch`'s result. */
  function SearchOrders(orders: seq<OrderRow>, term: string): (r: seq<OrderRow>)
    ensures IsBlank(term) ==> r == orders
    ensures !IsBlank(term) ==> r == Filter(orders, (o: OrderRow) => Matches(o, ToLower(term)))
    ensures IsSubsequence(r, orders)
    ensures forall o :: o in r <==> o in orders && (IsBlank(term) || Matches(o, ToLower(term)))
  {
    Search(orders, term, (o: OrderRow) => Matches(o, ToLower(term)))
  }

  /** An order without items is found only by its customer's name or its id. */
  lemma EmptyOrderMatchesOnHeader(o: OrderRow, needle: string)
    requires o.items == []
    ensures Matches(o, needle) <==> Includes(ToLower(o.userName), needle) || Includes(IntToString(o.id), needle)
  {
  }

  class OrderList {
    var orders: seq<OrderRow>
    var filteredOrders: seq<OrderRow>
    var searchTerm: string
    var totalOrders: nat
    var isLoading: bool
    var loads: nat
    var alerts: seq<string>

    constructor ()
      ensures orders == [] && filteredOrders == [] && searchTerm == [] && totalOrders == 0
      ensures !isLoading && loads == 0 && alerts == []
    {
      orders := [];
      filteredOrders := [];
      searchTerm := [];
      totalOrders := 0;
      isLoading := false;
      loads := 0;
      alerts := [];
    }

    /** `loadOrders` sends the request. */
    method LoadOrders()
      modifies this`isLoading, this`loads
      ensures isLoading && loads == old(loads) + 1
    {
      isLoading := true;
      loads := loads + 1;
    }

    /** The list arrived: it is shown whole and counted. */
    method OnOrdersLoaded(data: seq<OrderRow>)
      modifies this`orders, this`filteredOrders, this`totalOrders, this`isLoading
      ensures orders == data && filteredOrders == data && totalOrders == |data| && !isLoading
    {
      orders := data;
      filteredOrders := data;
      CalculateStats();
      isLoading := false;
    }

    /** The request failed: the error dialog opens. */
    method OnLoadError()
      modifies this`isLoading, this`alerts
      ensures !isLoading && alerts == old(alerts) + ["Error!"]
    {
      isLoading := false;
      alerts := alerts + ["Error!"];
    }

    /** The error dialog closed: "Retry" loads again, "Cancel" does nothing. */
    method OnErrorDialogClosed(retry: bool)
      modifies this`isLoading, this`loads
      ensures retry ==> isLoading && loads == old(loads) + 1
      ensures !retry ==> isLoading == old(isLoading) && loads == old(loads)
    {
      if retry {
        LoadOrders();
      }
    }

    /** `calculateStats` on the order count. */
    method CalculateStats()
      modifies this`totalOrders
      ensures totalOrders == |orders|
    {
      totalOrders := |orders|;
    }

    method SetSearchTerm(term: string)
      modifies this`searchTerm
      ensures searchTerm == term
    {
      searchTerm := term;
    }

    /** `onSearch`. */
    method OnSearch()
      modifies this`filteredOrders
      ensures filteredOrders == SearchOrders(orders, searchTerm)
    {
      filteredOrders := SearchOrders(orders, searchTerm);
    }

    /** `clearSearch`: no term, and the whole list. */
    method ClearSearch()
      modifies this`searchTerm, this`filteredOrders
      ensures searchTerm == [] && filteredOrders == orders
    {
      searchTerm := [];
      filteredOrders := orders;
    }

    /** `clearFilters` does what `clearSearch` does, and so also undoes a date filter. */
    method ClearFilters()
      modifies this`searchTerm, this`filteredOrders
      ensures searchTerm == [] && filteredOrders == orders
    {
      searchTerm := [];
      filteredOrders := orders;
    }
  }
}
