/**
 * `OrderServiceImpl`: order lookup, creation (one item per request line,
 * priced from the product), and adding and removing items of a stored order.
 * Each operation runs in one transaction: when it fails, nothing is stored.
 */
module OrderServiceImpl {
  import opened Wrappers
  import opened Text
  import opened UserModel
  import opened Entities
  import opened Repositories
  import opened OrderMapper
  import ListOps

  datatype OrderItemRequest = OrderItemRequest(productId: Option<int>, quantity: int)

  datatype OrderRequest = OrderRequest(userId: int, items: seq<OrderItemRequest>)

  /**
   * The value the `OrderItem` entity gives its `totalPrice` column when it is
   * built from a unit price and a quantity.
   */
  type ItemTotal = (Money, int) -> Money

  /** The item entity computes its total as unit price times quantity. */
  ghost predicate TotalIsLinePrice(itemTotal: ItemTotal) {
    forall price, quantity :: itemTotal(price, quantity) == price * quantity
  }

  function OrderNotFound(id: int): string {
    "Order not found with id " + IntToString(id)
  }

  /** The message of `requireNotNull(item.productId)`; the id prints as "null". */
  const NullProductId: string := "Product not found with id null"

  /** The item built for one request line, or why the line is refused. */
  function BuildItem(products: seq<Product>, line: OrderItemRequest, itemTotal: ItemTotal): (r: Result<OrderItem, string>)
    ensures line.productId.None? ==> r == Err(NullProductId)
    ensures line.productId.Some? && ProductIndex(products, line.productId.value).None? ==> r == Err("Product not found")
    ensures r.Ok? ==>
      var k := ProductIndex(products, line.productId.value).value;
      && r.value == OrderItem(None, line.productId, products[k].price, line.quantity, itemTotal(products[k].price, line.quantity))
  {
    match line.productId
    case None => Err(NullProductId)
    case Some(pid) =>
      match ProductIndex(products, pid)
      case None => Err("Product not found")
      case Some(k) =>
        var price := products[k].price;
        Ok(OrderItem(None, Some(pid), price, line.quantity, itemTotal(price, line.quantity)))
  }

  /** The items built for the request lines in order, or the first line's refusal. */
  function BuildItems(products: seq<Product>, lines: seq<OrderItemRequest>, itemTotal: ItemTotal)
    : (r: Result<seq<OrderItem>, string>)
    ensures r.Ok? <==> forall i :: 0 <= i < |lines| ==> BuildItem(products, lines[i], itemTotal).Ok?
    ensures r.Ok? ==> |r.value| == |lines|
    ensures r.Ok? ==> forall i :: 0 <= i < |lines| ==> r.value[i] == BuildItem(products, lines[i], itemTotal).value
  {
    if lines == [] then Ok([])
    else
      var n := |lines| - 1;
      assert forall i :: 0 <= i < n ==> lines[..n][i] == lines[i];
      match BuildItems(products, lines[..n], itemTotal)
      case Err(e) => Err(e)
      case Ok(front) =>
        match BuildItem(products, lines[n], itemTotal)
        case Err(e) => Err(e)
        case Ok(item) => Ok(front + [item])
  }

  /** One more request line: its item is appended, or its refusal becomes the outcome. */
  lemma BuildItemsSnoc(products: seq<Product>, lines: seq<OrderItemRequest>, itemTotal: ItemTotal, i: nat)
    requires i < |lines|
    ensures BuildItems(products, lines[..i + 1], itemTotal) ==
      match BuildItems(products, lines[..i], itemTotal)
      case Err(e) => Err(e)
      case Ok(front) =>
        match BuildItem(products, lines[i], itemTotal)
        case Err(e) => Err(e)
        case Ok(item) => Ok(front + [item])
  {
    assert lines[..i + 1][..i] == lines[..i] && lines[..i + 1][i] == lines[i];
  }

  /** Once a prefix of the lines is refused, the whole request is refused with the same message. */
  lemma {:induction false} BuildItemsFailureSticks(products: seq<Product>, lines: seq<OrderItemRequest>,
                                                   itemTotal: ItemTotal, i: nat)
    requires i <= |lines| && BuildItems(products, lines[..i], itemTotal).Err?
    ensures BuildItems(products, lines, itemTotal) == BuildItems(products, lines[..i], itemTotal)
    decreases |lines| - i
  {
    if i < |lines| {
      assert lines[..i + 1][..i] == lines[..i];
      BuildItemsFailureSticks(products, lines, itemTotal, i + 1);
    } else {
      assert lines[..i] == lines;
    }
  }

  lemma NumberingKeepsTotals(items: seq<OrderItem>, start: int, products: seq<Product>)
    ensures SumLines(NumberItems(items, start)) == SumLines(items)
    ensures SumStoredTotals(NumberItems(items, start)) == SumStoredTotals(items)
    ensures ItemsToResponse(NumberItems(items, start), products) == ItemsToResponse(items, products)
  {
    SumsAgree(NumberItems(items, start), items);
  }

  /** Two item lists that agree on product, price, quantity and stored total agree on sums. */
  lemma {:induction false} SumsAgree(a: seq<OrderItem>, b: seq<OrderItem>)
    requires |a| == |b|
    requires forall i :: 0 <= i < |a| ==> a[i].(id := b[i].id) == b[i]
    ensures SumLines(a) == SumLines(b) && SumStoredTotals(a) == SumStoredTotals(b)
  {
    if a != [] {
      SumsAgree(a[..|a| - 1], b[..|b| - 1]);
    }
  }

  /** Items built from request lines can be answered, and their stored totals are their line totals. */
  lemma BuiltItemsRespond(products: seq<Product>, lines: seq<OrderItemRequest>, itemTotal: ItemTotal, items: seq<OrderItem>)
    requires BuildItems(products, lines, itemTotal) == Ok(items)
    ensures ItemsToResponse(items, products).Ok?
    ensures TotalIsLinePrice(itemTotal) ==> SumStoredTotals(items) == SumLines(items)
  {
    forall i | 0 <= i < |items| ensures ItemToResponse(items[i], products).Ok? {
      assert BuildItem(products, lines[i], itemTotal).Ok?;
    }
    if TotalIsLinePrice(itemTotal) {
      forall i | 0 <= i < |items| ensures items[i].totalPrice == LineTotal(items[i]) {
        assert BuildItem(products, lines[i], itemTotal).Ok?;
      }
      StoredTotalsAreLineTotals(items);
    }
  }

  /** The order `createOrder` saves can always be answered: its user and its products are stored. */
  lemma SavedOrderResponds(users: seq<User>, products: seq<Product>, lines: seq<OrderItemRequest>,
                           itemTotal: ItemTotal, o: Order, items: seq<OrderItem>, nextItemId: int)
    requires BuildItems(products, lines, itemTotal) == Ok(items)
    requires o.id.Some? && o.user.Some? && UserIndex(users, o.user.value).Some?
    requires o.items == NumberItems(items, nextItemId) && o.totalPrice == SumLines(items)
    ensures ToResponse(o, users, products).Ok?
    ensures TotalIsLinePrice(itemTotal) ==> ToResponse(o, users, products).value.totalAmount == o.totalPrice
  {
    BuiltItemsRespond(products, lines, itemTotal, items);
    NumberingKeepsTotals(items, nextItemId, products);
  }

  /**
   * The `forEach` of `createOrder`: builds one item per request line, in
   * order, and stops at the first line whose product id is null or unknown.
   */
  method CollectItems(products: seq<Product>, lines: seq<OrderItemRequest>, itemTotal: ItemTotal)
    returns (r: Result<seq<OrderItem>, string>)
    ensures r == BuildItems(products, lines, itemTotal)
  {
    var items: seq<OrderItem> := [];
    var i := 0;
    while i < |lines|
      invariant 0 <= i <= |lines|
      invariant BuildItems(products, lines[..i], itemTotal) == Ok(items)
    {
      var line := lines[i];
      BuildItemsSnoc(products, lines, itemTotal, i);
      if line.productId.None? {
        BuildItemsFailureSticks(products, lines, itemTotal, i + 1);
        return Err(NullProductId);
      }
      var found := ProductIndex(products, line.productId.value);
      if found.None? {
        BuildItemsFailureSticks(products, lines, itemTotal, i + 1);
        return Err("Product not found");
      }
      var product := products[found.value];
      items := items + [OrderItem(None, line.productId, product.price, line.quantity, itemTotal(product.price, line.quantity))];
      i := i + 1;
    }
    assert lines[..i] == lines;
    r := Ok(items);
  }

  /**
   * `createOrder`: refuses an unknown user, then the first line with a null
   * or unknown product; otherwise stores the order for `now` with one item
   * per line and the sum of the line prices as its total.
   */
  method CreateOrder(db: Database, req: OrderRequest, now: int, itemTotal: ItemTotal) returns (r: Result<OrderResponse, string>)
    requires db.Valid()
    modifies db`orders, db`nextOrderId, db`nextItemId
    ensures db.Valid()
    ensures UserIndex(db.users, req.userId).None? ==> r == Err("User not found")
    ensures UserIndex(db.users, req.userId).Some? && BuildItems(db.products, req.items, itemTotal).Err? ==>
      r == Err(BuildItems(db.products, req.items, itemTotal).error)
    ensures r.Err? ==> db.orders == old(db.orders) && db.nextOrderId == old(db.nextOrderId) && db.nextItemId == old(db.nextItemId)
    ensures UserIndex(db.users, req.userId).Some? && BuildItems(db.products, req.items, itemTotal).Ok? ==>
      var items := BuildItems(db.products, req.items, itemTotal).value;
      var o := Order(Some(old(db.nextOrderId)), Some(req.userId), NumberItems(items, old(db.nextItemId)), now, SumLines(items));
      && db.orders == old(db.orders) + [o]
      && db.nextOrderId == old(db.nextOrderId) + 1
      && db.nextItemId == old(db.nextItemId) + |items|
      && r == ToResponse(o, db.users, db.products) && r.Ok?
      && (TotalIsLinePrice(itemTotal) ==> r.value.totalAmount == o.totalPrice)
  {
    if UserIndex(db.users, req.userId).None? {
      return Err("User not found");
    }
    var built := CollectItems(db.products, req.items, itemTotal);
    if built.Err? {
      return Err(built.error);
    }
    var items := built.value;
    ghost var firstItemId := db.nextItemId;
    var order := db.InsertOrder(req.userId, items, now, SumLines(items));
    SavedOrderResponds(db.users, db.products, req.items, itemTotal, order, items, firstItemId);
    r := ToResponse(order, db.users, db.products);
  }

  /** What `addItem` stores and answers: the row changed, its new value, and the response. */
  datatype Effect = Effect(index: nat, order: Order, response: OrderResponse)

  /**
   * `addItem(productId, orderId, quantity)`: refuses an unknown order, then
   * an unknown product; otherwise appends one item priced from the product.
   * The order's stored total is left as it was. A response that cannot be
   * built rolls the change back.
   */
  function AddItemSpec(orders: seq<Order>, products: seq<Product>, users: seq<User>, nextItemId: int,
                       productId: int, orderId: int, quantity: int, itemTotal: ItemTotal): Result<Effect, string>
  {
    match OrderIndex(orders, orderId)
    case None => Err("Order not found")
    case Some(k) =>
      match ProductIndex(products, productId)
      case None => Err("Product not found")
      case Some(j) =>
        var price := products[j].price;
        var item := OrderItem(Some(nextItemId), Some(productId), price, quantity, itemTotal(price, quantity));
        var o := orders[k].(items := orders[k].items + [item]);
        match ToResponse(o, users, products)
        case Err(e) => Err(e)
        case Ok(resp) => Ok(Effect(k, o, resp))
  }

  /**
   * The order is looked up before the product; a success changes the row of
   * that order id by one new last item, numbered `nextItemId` and priced from
   * the product, keeps its id, customer and stored total, and answers the
   * mapped new row.
   */
  lemma AddItemSpecMeaning(orders: seq<Order>, products: seq<Product>, users: seq<User>, nextItemId: int,
                           productId: int, orderId: int, quantity: int, itemTotal: ItemTotal)
    ensures var r := AddItemSpec(orders, products, users, nextItemId, productId, orderId, quantity, itemTotal);
      && (OrderIndex(orders, orderId).None? ==> r == Err("Order not found"))
      && (OrderIndex(orders, orderId).Some? && ProductIndex(products, productId).None? ==> r == Err("Product not found"))
      && (r.Ok? ==>
        && OrderIndex(orders, orderId) == Some(r.value.index)
        && ProductIndex(products, productId).Some?
        && var old_ := orders[r.value.index];
        && var p := products[ProductIndex(products, productId).value];
        && r.value.order == old_.(items := old_.items + [OrderItem(Some(nextItemId), Some(productId), p.price, quantity, itemTotal(p.price, quantity))])
        && r.value.order.id == Some(orderId)
        && r.value.order.totalPrice == old_.totalPrice
        && Ok(r.value.response) == ToResponse(r.value.order, users, products))
  {
  }

  /**
   * `addItem`: the row of `orderId` gains the new item and the item counter
   * moves on, or nothing changes and the refusal is answered.
   */
  method AddItem(db: Database, productId: int, orderId: int, quantity: int, itemTotal: ItemTotal)
    returns (r: Result<OrderResponse, string>)
    requires db.Valid()
    modifies db`orders, db`nextItemId
    ensures db.Valid()
    ensures match AddItemSpec(old(db.orders), db.products, db.users, old(db.nextItemId), productId, orderId, quantity, itemTotal)
      case Err(e) => r == Err(e) && db.orders == old(db.orders) && db.nextItemId == old(db.nextItemId)
      case Ok(eff) => r == Ok(eff.response) && db.orders == old(db.orders)[eff.index := eff.order]
                      && db.nextItemId == old(db.nextItemId) + 1
  {
    var outcome := AddItemSpec(db.orders, db.products, db.users, db.nextItemId, productId, orderId, quantity, itemTotal);
    match outcome
    case Err(e) =>
      r := Err(e);
    case Ok(eff) =>
      AddItemSpecMeaning(db.orders, db.products, db.users, db.nextItemId, productId, orderId, quantity, itemTotal);
      var price := db.products[ProductIndex(db.products, productId).value].price;
      var item := OrderItem(Some(db.nextItemId), Some(productId), price, quantity, itemTotal(price, quantity));
      db.AppendItem(eff.index, item);
      r := Ok(eff.response);
  }

  /** `items.removeIf { it.id == itemId }`: the items, in order, without those of that id. */
  function RemoveWhereId(items: seq<OrderItem>, itemId: int): (r: seq<OrderItem>)
    ensures forall x :: x in r <==> x in items && x.id != Some(itemId)
    ensures |r| <= |items|
    ensures (forall i :: 0 <= i < |items| ==> items[i].id != Some(itemId)) ==> r == items
  {
    if items == [] then []
    else if items[0].id == Some(itemId) then RemoveWhereId(items[1..], itemId)
    else [items[0]] + RemoveWhereId(items[1..], itemId)
  }

  /**
   * `removeIf` keeps the other items in their order: the result is the
   * filter of the list by "the id differs".
   */
  lemma {:induction false} RemoveWhereIdIsFilter(items: seq<OrderItem>, itemId: int)
    ensures RemoveWhereId(items, itemId) == ListOps.Filter(items, (x: OrderItem) => x.id != Some(itemId))
    decreases |items|
  {
    if items != [] {
      RemoveWhereIdIsFilter(items[1..], itemId);
    }
  }

  /** Removing the same id twice removes nothing more. */
  lemma RemoveIdempotent(items: seq<OrderItem>, itemId: int)
    ensures RemoveWhereId(RemoveWhereId(items, itemId), itemId) == RemoveWhereId(items, itemId)
  {
    var once := RemoveWhereId(items, itemId);
    assert forall i :: 0 <= i < |once| ==> once[i] in once;
  }

  /**
   * `removeItem`: refuses an unknown order; otherwise drops the order's items
   * with this id. The stored total is left as it was.
   */
  method RemoveItem(db: Database, orderId: int, itemId: int) returns (r: Result<OrderResponse, string>)
    requires db.Valid()
    modifies db`orders, db`nextItemId
    ensures db.Valid() && db.nextItemId == old(db.nextItemId)
    ensures OrderIndex(old(db.orders), orderId).None? ==> r == Err("Order not found") && db.orders == old(db.orders)
    ensures OrderIndex(old(db.orders), orderId).Some? ==>
      var k := OrderIndex(old(db.orders), orderId).value;
      var o := old(db.orders)[k].(items := RemoveWhereId(old(db.orders)[k].items, itemId));
      && r == ToResponse(o, db.users, db.products)
      && db.orders == if r.Ok? then old(db.orders)[k := o] else old(db.orders)
  {
    var found := OrderIndex(db.orders, orderId);
    if found.None? {
      return Err("Order not found");
    }
    var k := found.value;
    var order := db.orders[k].(items := RemoveWhereId(db.orders[k].items, itemId));
    assert forall i :: 0 <= i < |order.items| ==> order.items[i] in db.orders[k].items;
    r := ToResponse(order, db.users, db.products);
    if r.Ok? {
      db.UpdateOrder(k, order, db.nextItemId);
    }
  }

  /** `findById`: the response for the order with this id. */
  function FindById(orders: seq<Order>, users: seq<User>, products: seq<Product>, id: int): (r: Result<OrderResponse, string>)
    ensures (forall j :: 0 <= j < |orders| ==> orders[j].id != Some(id)) ==> r == Err(OrderNotFound(id))
    ensures r.Ok? ==> r.value.id == Some(id)
    ensures r.Ok? ==> exists j :: 0 <= j < |orders| && Ok(r.value) == ToResponse(orders[j], users, products)
    ensures OrderIndex(orders, id).Some? ==> r == ToResponse(orders[OrderIndex(orders, id).value], users, products)
  {
    match OrderIndex(orders, id)
    case None => Err(OrderNotFound(id))
    case Some(k) => ToResponse(orders[k], users, products)
  }

  /** `findAll`: one response per stored order, in table order. */
  function FindAll(orders: seq<Order>, users: seq<User>, products: seq<Product>): (r: Result<seq<OrderResponse>, string>)
    ensures r.Ok? <==> forall i :: 0 <= i < |orders| ==> ToResponse(orders[i], users, products).Ok?
    ensures r.Ok? ==> |r.value| == |orders|
    ensures r.Ok? ==> forall i :: 0 <= i < |orders| ==> r.value[i] == ToResponse(orders[i], users, products).value
  {
    MapAll(orders, (o: Order) => ToResponse(o, users, products))
  }

  /** After `addItem`, an order whose total was its line sum no longer is, unless the new line is free. */
  lemma AddedItemLeavesTotalStale(o: Order, item: OrderItem)
    requires o.totalPrice == SumLines(o.items) && LineTotal(item) != 0
    ensures o.(items := o.items + [item]).totalPrice != SumLines(o.items + [item])
  {
    SumLinesAppend(o.items, item);
  }
}
