/**
 * The product, category and order entities as rows of their tables. A
 * reference to another entity (`ManyToOne`) is held as that entity's id, the
 * foreign key; it is resolved against the referenced table when a response
 * is built. `BigDecimal` amounts are integers in the currency's smallest unit.
 */
module Entities {
  import opened Wrappers

  type Money = int

  /** `Category`: `id` keeps its declared default 0 until the database assigns one. */
  datatype Category = Category(id: int, name: Option<string>, description: Option<string>)

  /** `Product`: `id` is null until saved; `category` is the category's id. */
  datatype Product = Product(
    id: Option<int>,
    name: Option<string>,
    description: Option<string>,
    price: Money,
    stock: int,
    category: Option<int>)

  /** `OrderItem`: `product` is the product's id; `totalPrice` is a stored column. */
  datatype OrderItem = OrderItem(
    id: Option<int>,
    product: Option<int>,
    unitPrice: Money,
    quantity: int,
    totalPrice: Money)

  /** `Order`: `user` is the user's id; `orderDate` is a timestamp in milliseconds. */
  datatype Order = Order(
    id: Option<int>,
    user: Option<int>,
    items: seq<OrderItem>,
    orderDate: int,
    totalPrice: Money)
}
