/** `OrderItem.toResponse` and `Order.toResponse`. */
module OrderMapper {
  import opened Wrappers
  import opened Entities
  import opened Repositories
  import opened UserModel
  import ProductMapper

  datatype OrderItemResponse = OrderItemResponse(
    productName: Option<string>,
    unitPrice: Money,
    quantity: int,
    totalPrice: Money)

  /** `orderDate` is the order's timestamp; its text formatting is not modelled. */
  datatype OrderResponse = OrderResponse(
    id: Option<int>,
    userName: string,
    items: seq<OrderItemResponse>,
    totalAmount: Money,
    orderDate: int)

  /** A line's price: unit price times quantity. */
  function LineTotal(item: OrderItem): Money {
    item.unitPrice * item.quantity
  }

  /** The sum of the line prices of `items`. */
  function SumLines(items: seq<OrderItem>): Money {
    if items == [] then 0 else SumLines(items[..|items| - 1]) + LineTotal(items[|items| - 1])
  }

  /** The sum of the stored `totalPrice` columns of `items`. */
  function SumStoredTotals(items: seq<OrderItem>): Money {
    if items == [] then 0 else SumStoredTotals(items[..|items| - 1]) + items[|items| - 1].totalPrice
  }

  /** Fails when the item has no product ("Product is null.") or its product is no longer stored. */
  function ItemToResponse(item: OrderItem, products: seq<Product>): (r: Result<OrderItemResponse, string>)
    ensures item.product.None? ==> r == Err("Product is null.")
    ensures r.Ok? <==> item.product.Some? && ProductIndex(products, item.product.value).Some?
    ensures r.Ok? ==> r.value.productName == products[ProductIndex(products, item.product.value).value].name
    ensures r.Ok? ==> r.value.unitPrice == item.unitPrice && r.value.quantity == item.quantity
    ensures r.Ok? ==> r.value.totalPrice == LineTotal(item)
  {
    match item.product
    case None => Err("Product is null.")
    case Some(pid) =>
      match ProductIndex(products, pid)
      case None => Err(ProductMapper.Unresolved("Product", pid))
      case Some(k) => Ok(OrderItemResponse(products[k].name, item.unitPrice, item.quantity, item.unitPrice * item.quantity))
  }

  /** `items.map { it.toResponse() }`: fails at the first item that fails. */
  function ItemsToResponse(items: seq<OrderItem>, products: seq<Product>): (r: Result<seq<OrderItemResponse>, string>)
    ensures r.Ok? <==> forall i :: 0 <= i < |items| ==> ItemToResponse(items[i], products).Ok?
    ensures r.Ok? ==> |r.value| == |items|
    ensures r.Ok? ==> forall i :: 0 <= i < |items| ==> r.value[i] == ItemToResponse(items[i], products).value
  {
    if items == [] then Ok([])
    else
      match ItemToResponse(items[0], products)
      case Err(e) => Err(e)
      case Ok(head) =>
        match ItemsToResponse(items[1..], products)
        case Err(e) =>
          assert forall i :: 1 <= i < |items| ==> items[i] == items[1..][i - 1];
          Err(e)
        case Ok(tail) =>
          assert forall i :: 1 <= i < |items| ==> items[i] == items[1..][i - 1];
          Ok([head] + tail)
  }


  /**
   * Fails when the order has no user ("User is null."), then when it has no
   * id, then when its user is no longer stored, then when an item fails.
   * Otherwise the total is the sum of the items' stored totals.
   */
  function ToResponse(o: Order, users: seq<User>, products: seq<Product>): (r: Result<OrderResponse, string>)
    ensures o.user.None? ==> r == Err("User is null.")
    ensures r.Ok? <==> o.user.Some? && o.id.Some? && UserIndex(users, o.user.value).Some?
                       && ItemsToResponse(o.items, products).Ok?
    ensures r.Ok? ==> r.value.id == o.id && r.value.orderDate == o.orderDate
    ensures r.Ok? ==> r.value.userName == users[UserIndex(users, o.user.value).value].username
    ensures r.Ok? ==> r.value.items == ItemsToResponse(o.items, products).value
    ensures r.Ok? ==> r.value.totalAmount == SumStoredTotals(o.items)
  {
    if o.user.None? then Err("User is null.")
    else if o.id.None? then Err("NullPointerException")
    else
      match UserIndex(users, o.user.value)
      case None => Err(ProductMapper.Unresolved("User", o.user.value))
      case Some(k) =>
        match ItemsToResponse(o.items, products)
        case Err(e) => Err(e)
        case Ok(items) => Ok(OrderResponse(o.id, users[k].username, items, SumStoredTotals(o.items), o.orderDate))
  }

  /** The sum of the `totalPrice` fields of item responses. */
  function SumResponseTotals(rs: seq<OrderItemResponse>): Money {
    if rs == [] then 0 else SumResponseTotals(rs[..|rs| - 1]) + rs[|rs| - 1].totalPrice
  }

  /** The item responses' totals add up to the order's line prices. */
  lemma {:induction false} ResponseTotalsAreLineTotals(items: seq<OrderItem>, products: seq<Product>)
    requires ItemsToResponse(items, products).Ok?
    ensures SumResponseTotals(ItemsToResponse(items, products).value) == SumLines(items)
  {
    if items != [] {
      var n := |items| - 1;
      ResponseTotalsAreLineTotals(items[..n], products);
      var rs := ItemsToResponse(items, products).value;
      var front := ItemsToResponse(items[..n], products).value;
      assert rs[..n] == front;
    }
  }

  /**
   * The stored totals add up to the line prices when every item's stored
   * total is its line price; `totalAmount` then equals the order's line sum.
   */
  lemma {:induction false} StoredTotalsAreLineTotals(items: seq<OrderItem>)
    requires forall i :: 0 <= i < |items| ==> items[i].totalPrice == LineTotal(items[i])
    ensures SumStoredTotals(items) == SumLines(items)
  {
    if items != [] {
      StoredTotalsAreLineTotals(items[..|items| - 1]);
    }
  }

  lemma {:induction false} SumLinesAppend(items: seq<OrderItem>, item: OrderItem)
    ensures SumLines(items + [item]) == SumLines(items) + LineTotal(item)
  {
    assert (items + [item])[..|items|] == items;
  }

  lemma {:induction false} SumStoredTotalsAppend(items: seq<OrderItem>, item: OrderItem)
    ensures SumStoredTotals(items + [item]) == SumStoredTotals(items) + item.totalPrice
  {
    assert (items + [item])[..|items|] == items;
  }
}
