/**
 * `OrderController.addItem`: `POST /api/v1/orders/{orderId}/items` with the
 * product id and the quantity as request parameters; the service's answer is
 * sent with status 200 and its exception, if any, escapes the handler.
 *
 * The service's parameters are `(productId, orderId, quantity)`. The handler
 * as written passes `(orderId, productId, quantity)`; `AddItemAsWritten`
 * models that call and `AddItem` the one the route evidently means.
 */
module OrderController {
  import opened Wrappers
  import opened UserModel
  import opened Entities
  import opened Repositories
  import opened OrderMapper
  import opened OrderServiceImpl

  /** What the handler as written asks of the service: the two ids change places. */
  function AsWrittenOutcome(orders: seq<Order>, products: seq<Product>, users: seq<User>, nextItemId: int,
                            orderId: int, productId: int, quantity: int, itemTotal: ItemTotal): Result<Effect, string>
  {
    AddItemSpec(orders, products, users, nextItemId, orderId, productId, quantity, itemTotal)
  }

  /** What the route means: add product `productId` to order `orderId`. */
  function IntendedOutcome(orders: seq<Order>, products: seq<Product>, users: seq<User>, nextItemId: int,
                           orderId: int, productId: int, quantity: int, itemTotal: ItemTotal): Result<Effect, string>
  {
    AddItemSpec(orders, products, users, nextItemId, productId, orderId, quantity, itemTotal)
  }

  /**
   * A request that names an existing order and an existing product, whose
   * product id is no order's id, is refused by the handler as written with
   * "Order not found", while the intended call adds the item to that order.
   */
  lemma {:induction false} SwappedIdsRefuseValidRequest()
    ensures var orders := [Order(Some(1), Some(7), [], 0, 0)];
            var products := [Product(Some(2), Some("Pen"), None, 5, 10, None)];
            var users := [User(7, "ann", None, "ann@example.com", "female", {RoleUser}, None)];
            var total: ItemTotal := (price: Money, quantity: int) => price * quantity;
            && AsWrittenOutcome(orders, products, users, 1, 1, 2, 3, total) == Err("Order not found")
            && IntendedOutcome(orders, products, users, 1, 1, 2, 3, total).Ok?
            && IntendedOutcome(orders, products, users, 1, 1, 2, 3, total).value.order.items
               == [OrderItem(Some(1), Some(2), 5, 3, 15)]
  {
    var orders := [Order(Some(1), Some(7), [], 0, 0)];
    var products := [Product(Some(2), Some("Pen"), None, 5, 10, None)];
    var users := [User(7, "ann", None, "ann@example.com", "female", {RoleUser}, None)];
    var total: ItemTotal := (price: Money, quantity: int) => price * quantity;
    assert OrderIndex(orders, 2).None?;
    assert OrderIndex(orders, 1) == Some(0);
    assert ProductIndex(products, 2) == Some(0);
    var o := orders[0].(items := [OrderItem(Some(1), Some(2), 5, 3, 15)]);
    assert UserIndex(users, 7) == Some(0);
    assert ItemToResponse(o.items[0], products).Ok?;
    assert ItemsToResponse(o.items, products).Ok?;
    assert ToResponse(o, users, products).Ok?;
  }

  /** `addItem` as written: the path's order id goes where the service takes the product id. */
  method AddItemAsWritten(db: Database, orderId: int, productId: int, quantity: int, itemTotal: ItemTotal)
    returns (r: Result<OrderResponse, string>)
    requires db.Valid()
    modifies db`orders, db`nextItemId
    ensures db.Valid()
    ensures match old(AsWrittenOutcome(db.orders, db.products, db.users, db.nextItemId, orderId, productId, quantity, itemTotal))
      case Err(e) => r == Err(e) && db.orders == old(db.orders) && db.nextItemId == old(db.nextItemId)
      case Ok(eff) => r == Ok(eff.response) && db.orders == old(db.orders)[eff.index := eff.order]
                      && db.nextItemId == old(db.nextItemId) + 1
  {
    r := OrderServiceImpl.AddItem(db, orderId, productId, quantity, itemTotal);
  }

  /** `addItem` with the ids passed in the service's order: the item goes to order `orderId`. */
  method AddItem(db: Database, orderId: int, productId: int, quantity: int, itemTotal: ItemTotal)
    returns (r: Result<OrderResponse, string>)
    requires db.Valid()
    modifies db`orders, db`nextItemId
    ensures db.Valid()
    ensures match old(IntendedOutcome(db.orders, db.products, db.users, db.nextItemId, orderId, productId, quantity, itemTotal))
      case Err(e) => r == Err(e) && db.orders == old(db.orders) && db.nextItemId == old(db.nextItemId)
      case Ok(eff) => r == Ok(eff.response) && db.orders == old(db.orders)[eff.index := eff.order]
                      && db.orders[eff.index].id == Some(orderId)
                      && db.nextItemId == old(db.nextItemId) + 1
  {
    r := OrderServiceImpl.AddItem(db, productId, orderId, quantity, itemTotal);
  }
}
