/**
 * The four JPA repositories as one database: each table is a sequence of
 * rows, and each table draws ids from its own identity counter. Lookups by
 * id or by a unique column return the first matching row.
 */
module Repositories {
  import opened Wrappers
  import opened UserModel
  import opened Entities

  /** The index of the first row satisfying `p`, if there is one. */
  function IndexWhere<T>(rows: seq<T>, p: T -> bool): (r: Option<nat>)
    ensures r.Some? ==> r.value < |rows| && p(rows[r.value])
    ensures r.Some? ==> forall j :: 0 <= j < r.value ==> !p(rows[j])
    ensures r.None? <==> forall j :: 0 <= j < |rows| ==> !p(rows[j])
  {
    if rows == [] then None
    else if p(rows[0]) then Some(0)
    else
      match IndexWhere(rows[1..], p)
      case None => None
      case Some(k) => Some(k + 1)
  }

  function UserIndex(users: seq<User>, id: int): (r: Option<nat>)
    ensures r.Some? ==> r.value < |users| && users[r.value].id == id
    ensures r.None? <==> forall j :: 0 <= j < |users| ==> users[j].id != id
  {
    IndexWhere(users, (u: User) => u.id == id)
  }

  function UsernameIndex(users: seq<User>, username: string): (r: Option<nat>)
    ensures r.Some? ==> r.value < |users| && users[r.value].username == username
    ensures r.None? <==> forall j :: 0 <= j < |users| ==> users[j].username != username
  {
    IndexWhere(users, (u: User) => u.username == username)
  }

  function CategoryIndex(categories: seq<Category>, id: int): (r: Option<nat>)
    ensures r.Some? ==> r.value < |categories| && categories[r.value].id == id
    ensures r.None? <==> forall j :: 0 <= j < |categories| ==> categories[j].id != id
  {
    IndexWhere(categories, (c: Category) => c.id == id)
  }

  function ProductIndex(products: seq<Product>, id: int): (r: Option<nat>)
    ensures r.Some? ==> r.value < |products| && products[r.value].id == Some(id)
    ensures r.Some? ==> forall j :: 0 <= j < r.value ==> products[j].id != Some(id)
    ensures r.None? <==> forall j :: 0 <= j < |products| ==> products[j].id != Some(id)
  {
    IndexWhere(products, (p: Product) => p.id == Some(id))
  }

  function OrderIndex(orders: seq<Order>, id: int): (r: Option<nat>)
    ensures r.Some? ==> r.value < |orders| && orders[r.value].id == Some(id)
    ensures r.Some? ==> forall j :: 0 <= j < r.value ==> orders[j].id != Some(id)
    ensures r.None? <==> forall j :: 0 <= j < |orders| ==> orders[j].id != Some(id)
  {
    IndexWhere(orders, (o: Order) => o.id == Some(id))
  }

  /** The ids the database gives the items of a new order, counting up from `start`. */
  function NumberItems(items: seq<OrderItem>, start: int): (r: seq<OrderItem>)
    ensures |r| == |items|
    ensures forall i :: 0 <= i < |items| ==> r[i] == items[i].(id := Some(start + i))
  {
    if items == [] then [] else [items[0].(id := Some(start))] + NumberItems(items[1..], start + 1)
  }

  /** No two users share a username: the `unique = true` column. */
  ghost predicate UniqueUsernames(users: seq<User>) {
    forall i, j :: 0 <= i < j < |users| ==> users[i].username != users[j].username
  }

  /** No two users share an email (the column itself is not unique). */
  ghost predicate UniqueEmails(users: seq<User>) {
    forall i, j :: 0 <= i < j < |users| ==> users[i].email != users[j].email
  }

  ghost predicate UserIdsValid(users: seq<User>, next: int) {
    (forall i :: 0 <= i < |users| ==> 1 <= users[i].id < next)
    && (forall i, j :: 0 <= i < j < |users| ==> users[i].id != users[j].id)
  }

  ghost predicate CategoryIdsValid(categories: seq<Category>, next: int) {
    (forall i :: 0 <= i < |categories| ==> 1 <= categories[i].id < next)
    && (forall i, j :: 0 <= i < j < |categories| ==> categories[i].id != categories[j].id)
  }

  ghost predicate ProductIdsValid(products: seq<Product>, next: int) {
    (forall i :: 0 <= i < |products| ==> products[i].id.Some? && 1 <= products[i].id.value < next)
    && (forall i, j :: 0 <= i < j < |products| ==> products[i].id != products[j].id)
  }

  ghost predicate OrderIdsValid(orders: seq<Order>, next: int, nextItem: int) {
    (forall i :: 0 <= i < |orders| ==> orders[i].id.Some? && 1 <= orders[i].id.value < next)
    && (forall i, j :: 0 <= i < j < |orders| ==> orders[i].id != orders[j].id)
    && (forall i, k :: 0 <= i < |orders| && 0 <= k < |orders[i].items| ==>
          orders[i].items[k].id.Some? && 1 <= orders[i].items[k].id.value < nextItem)
  }

  /** Replacing an order by one with the same id and items numbered below the item counter keeps the ids valid. */
  lemma ReplaceOrderKeepsIds(orders: seq<Order>, next: int, nextItem: int, k: int, o: Order, nextItem': int)
    requires OrderIdsValid(orders, next, nextItem) && 0 <= k < |orders| && o.id == orders[k].id
    requires nextItem <= nextItem'
    requires forall m :: 0 <= m < |o.items| ==> o.items[m].id.Some? && 1 <= o.items[m].id.value < nextItem'
    ensures OrderIdsValid(orders[k := o], next, nextItem')
  {
    var r := orders[k := o];
    forall i, j | 0 <= i < j < |r| ensures r[i].id != r[j].id {
      assert r[i].id == orders[i].id && r[j].id == orders[j].id;
    }
  }

  class Database {
    var users: seq<User>
    var categories: seq<Category>
    var products: seq<Product>
    var orders: seq<Order>
    var nextUserId: int
    var nextCategoryId: int
    var nextProductId: int
    var nextOrderId: int
    var nextItemId: int

    /** Every stored row has an id from its table's counter, no id twice, no username twice. */
    ghost predicate Valid()
      reads this
    {
      nextUserId >= 1 && nextCategoryId >= 1 && nextProductId >= 1 && nextOrderId >= 1 && nextItemId >= 1
      && UserIdsValid(users, nextUserId) && UniqueUsernames(users)
      && CategoryIdsValid(categories, nextCategoryId)
      && ProductIdsValid(products, nextProductId)
      && OrderIdsValid(orders, nextOrderId, nextItemId)
    }

    /** An empty database whose counters start at 1. */
    constructor ()
      ensures Valid()
      ensures users == [] && categories == [] && products == [] && orders == []
      ensures nextUserId == 1 && nextCategoryId == 1 && nextProductId == 1
      ensures nextOrderId == 1 && nextItemId == 1
    {
      users, categories, products, orders := [], [], [], [];
      nextUserId, nextCategoryId, nextProductId, nextOrderId, nextItemId := 1, 1, 1, 1, 1;
    }

    /**
     * Saves a new order: the order takes the next order id and its items
     * the next item ids, in order.
     */
    method InsertOrder(userId: int, items: seq<OrderItem>, orderDate: int, totalPrice: Money) returns (o: Order)
      requires Valid()
      modifies this`orders, this`nextOrderId, this`nextItemId
      ensures Valid()
      ensures o == Order(Some(old(nextOrderId)), Some(userId), NumberItems(items, old(nextItemId)), orderDate, totalPrice)
      ensures orders == old(orders) + [o]
      ensures nextOrderId == old(nextOrderId) + 1 && nextItemId == old(nextItemId) + |items|
    {
      o := Order(Some(nextOrderId), Some(userId), NumberItems(items, nextItemId), orderDate, totalPrice);
      orders, nextOrderId, nextItemId := orders + [o], nextOrderId + 1, nextItemId + |items|;
    }

    /**
     * Commits a changed order: the row keeps its id, its items carry ids
     * below the new item counter, and the counter moves to that value.
     */
    method UpdateOrder(k: nat, o: Order, newNextItemId: int)
      requires Valid() && k < |orders| && o.id == orders[k].id && nextItemId <= newNextItemId
      requires forall m :: 0 <= m < |o.items| ==> o.items[m].id.Some? && 1 <= o.items[m].id.value < newNextItemId
      modifies this`orders, this`nextItemId
      ensures Valid()
      ensures orders == old(orders)[k := o] && nextItemId == newNextItemId
    {
      ReplaceOrderKeepsIds(orders, nextOrderId, nextItemId, k, o, newNextItemId);
      orders, nextItemId := orders[k := o], newNextItemId;
    }

    /** Saves an order that gained one item at its end: the item takes the next item id. */
    method AppendItem(k: nat, item: OrderItem)
      requires Valid() && k < |orders| && item.id == Some(nextItemId)
      modifies this`orders, this`nextItemId
      ensures Valid()
      ensures orders == old(orders)[k := old(orders)[k].(items := old(orders)[k].items + [item])]
      ensures nextItemId == old(nextItemId) + 1
    {
      var o := orders[k].(items := orders[k].items + [item]);
      assert forall m :: 0 <= m < |orders[k].items| ==> o.items[m] == orders[k].items[m];
      UpdateOrder(k, o, nextItemId + 1);
    }
  }
}
