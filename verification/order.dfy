/**
  The `Order` holder: an id (assigned by the database, `0` until then), an
  optional creation time and the ordered list of requested items.
 */
module Orders {
  import opened Wrappers
  import opened OrderItems

  /** A point in time; `LocalDateTime` is not interpreted by the model. */
  type Timestamp = int

  datatype Order = Order(id: int, createdAt: Option<Timestamp>, items: seq<OrderItem>)

  /** Sum of the quantities of `items`. */
  function QtySum(items: seq<OrderItem>): int
  {
    if |items| == 0 then 0 else items[0].qty + QtySum(items[1..])
  }

  /** `getTotalItems`: the number of items in the list. */
  function TotalItems(o: Order): nat
  {
    |o.items|
  }

  /** `getTotalQuantity`: the sum of the items' quantities. */
  function TotalQuantity(o: Order): int
  {
    QtySum(o.items)
  }

  /** `new Order()`: id `0`, no creation time, no items. */
  function Empty(): (o: Order)
    ensures o.id == 0 && o.createdAt == None
    ensures o.items == [] && TotalItems(o) == 0 && TotalQuantity(o) == 0
  {
    Order(0, None, [])
  }

  /** `new Order(id)`: the given id, no creation time, no items. */
  function WithId(id: int): (o: Order)
    ensures o.id == id && o.createdAt == None
    ensures o.items == [] && TotalItems(o) == 0 && TotalQuantity(o) == 0
  {
    Order(id, None, [])
  }

  /** `new Order(id, createdAt)`: the given id and time, no items. A null time
      is `None`. */
  function WithIdAt(id: int, createdAt: Option<Timestamp>): (o: Order)
    ensures o.id == id && o.createdAt == createdAt
    ensures o.items == [] && TotalItems(o) == 0 && TotalQuantity(o) == 0
  {
    Order(id, createdAt, [])
  }

  /** Appending one item adds its quantity to the running sum. */
  lemma {:induction false} QtySumAppend(items: seq<OrderItem>, item: OrderItem)
    ensures QtySum(items + [item]) == QtySum(items) + item.qty
  {
    if |items| > 0 {
      assert (items + [item])[1..] == items[1..] + [item];
      QtySumAppend(items[1..], item);
    }
  }

  /** `addItem(item)`: `item` goes at the end, earlier items stay where they were,
      the item count grows by one and the quantity total by `item.qty`. */
  function AddItem(o: Order, item: OrderItem): (r: Order)
    ensures |r.items| == |o.items| + 1
    ensures r.items[..|o.items|] == o.items && r.items[|o.items|] == item
    ensures r.id == o.id && r.createdAt == o.createdAt
    ensures TotalItems(r) == TotalItems(o) + 1
    ensures TotalQuantity(r) == TotalQuantity(o) + item.qty
  {
    QtySumAppend(o.items, item);
    o.(items := o.items + [item])
  }

  /** `addItem(productId, qty)`: appends a new item that carries the order's
      current id (`0` for an order the database has not numbered yet). */
  function AddProduct(o: Order, productId: int, qty: int): (r: Order)
    ensures |r.items| == |o.items| + 1 && r.items[..|o.items|] == o.items
    ensures r.items[|o.items|].orderId == o.id
    ensures r.items[|o.items|].productId == productId && r.items[|o.items|].qty == qty
    ensures r.id == o.id && r.createdAt == o.createdAt
    ensures TotalQuantity(r) == TotalQuantity(o) + qty
  {
    AddItem(o, New(o.id, productId, qty))
  }

  /** `setId`: replaces the id; the items and the creation time are kept. */
  function SetId(o: Order, id: int): (r: Order)
    ensures r.id == id
    ensures r.createdAt == o.createdAt && r.items == o.items
    ensures TotalItems(r) == TotalItems(o) && TotalQuantity(r) == TotalQuantity(o)
  {
    o.(id := id)
  }

  /** `setCreatedAt`: replaces the creation time only. */
  function SetCreatedAt(o: Order, createdAt: Option<Timestamp>): (r: Order)
    ensures r.createdAt == createdAt
    ensures r.id == o.id && r.items == o.items
  {
    o.(createdAt := createdAt)
  }

  /** `setItems`: the new list replaces the old one wholesale, so the totals are
      those of the new list whatever the old one held. */
  function SetItems(o: Order, items: seq<OrderItem>): (r: Order)
    ensures r.items == items
    ensures r.id == o.id && r.createdAt == o.createdAt
    ensures TotalItems(r) == |items| && TotalQuantity(r) == QtySum(items)
  {
    o.(items := items)
  }

  /** Building an order by successive `addItem` calls: the result holds exactly
      the added items, in the order they were added. */
  function AddAll(o: Order, items: seq<OrderItem>): (r: Order)
    decreases |items|
  {
    if |items| == 0 then o else AddAll(AddItem(o, items[0]), items[1..])
  }

  lemma {:induction false} AddAllAppends(o: Order, items: seq<OrderItem>)
    ensures AddAll(o, items).items == o.items + items
    ensures AddAll(o, items).id == o.id && AddAll(o, items).createdAt == o.createdAt
    ensures TotalItems(AddAll(o, items)) == TotalItems(o) + |items|
    ensures TotalQuantity(AddAll(o, items)) == TotalQuantity(o) + QtySum(items)
    decreases |items|
  {
    if |items| > 0 {
      var o1 := AddItem(o, items[0]);
      AddAllAppends(o1, items[1..]);
      assert o1.items + items[1..] == o.items + items;
    }
  }
}
