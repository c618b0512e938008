/**
  The `OrderItem` holder: one requested line of an order. The same three
  columns make up a persisted row of `order_items`, so the database state in
  module Inventory reuses this datatype for its rows.
 */
module OrderItems {

  /** The order the line belongs to, the product it names and the quantity asked for. */
  datatype OrderItem = OrderItem(orderId: int, productId: int, qty: int)

  /** The no-argument constructor: every field keeps Java's default `0`. */
  function Blank(): (item: OrderItem)
    ensures item.orderId == 0 && item.productId == 0 && item.qty == 0
  {
    OrderItem(0, 0, 0)
  }

  /** The three-argument constructor stores its arguments as given. */
  function New(orderId: int, productId: int, qty: int): (item: OrderItem)
    ensures item.orderId == orderId && item.productId == productId && item.qty == qty
  {
    OrderItem(orderId, productId, qty)
  }

  /** `setOrderId`: replaces the order id and nothing else. */
  function SetOrderId(item: OrderItem, orderId: int): (r: OrderItem)
    ensures r.orderId == orderId
    ensures r.productId == item.productId && r.qty == item.qty
  {
    item.(orderId := orderId)
  }

  /** `setProductId`: replaces the product id and nothing else. */
  function SetProductId(item: OrderItem, productId: int): (r: OrderItem)
    ensures r.productId == productId
    ensures r.orderId == item.orderId && r.qty == item.qty
  {
    item.(productId := productId)
  }

  /** `setQty`: replaces the quantity and nothing else. */
  function SetQty(item: OrderItem, qty: int): (r: OrderItem)
    ensures r.qty == qty
    ensures r.orderId == item.orderId && r.productId == item.productId
  {
    item.(qty := qty)
  }

  /** Every item is the one the full constructor builds from its own fields,
      and the constructor keeps distinct argument triples apart. */
  lemma NewIsFaithful(item: OrderItem, orderId: int, productId: int, qty: int)
    ensures New(item.orderId, item.productId, item.qty) == item
    ensures New(orderId, productId, qty) == item <==>
              orderId == item.orderId && productId == item.productId && qty == item.qty
  {
  }

  /** A setter followed by another call of the same setter keeps only the last
      value, and setting a field to the value it already holds changes nothing. */
  lemma SettersLastWriteWins(item: OrderItem, a: int, b: int)
    ensures SetOrderId(SetOrderId(item, a), b) == SetOrderId(item, b)
    ensures SetProductId(SetProductId(item, a), b) == SetProductId(item, b)
    ensures SetQty(SetQty(item, a), b) == SetQty(item, b)
    ensures SetOrderId(item, item.orderId) == item
    ensures SetProductId(item, item.productId) == item
    ensures SetQty(item, item.qty) == item
  {
  }

  /** Setters of different fields do not interfere: their order does not matter. */
  lemma SettersCommute(item: OrderItem, o: int, p: int, q: int)
    ensures SetProductId(SetOrderId(item, o), p) == SetOrderId(SetProductId(item, p), o)
    ensures SetQty(SetOrderId(item, o), q) == SetOrderId(SetQty(item, q), o)
    ensures SetQty(SetProductId(item, p), q) == SetProductId(SetQty(item, q), p)
    ensures SetQty(SetProductId(SetOrderId(Blank(), o), p), q) == New(o, p, q)
  {
  }
}
