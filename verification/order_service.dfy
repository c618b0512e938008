/**
  `OrderService.createOrder` as a pure transition over the database state.

  Within one transaction the routine inserts the order row, verifies every item
  against the stock table, deducts every item's quantity, stamps the order id
  on every item and batch-inserts the line items, then commits. Any exception
  rolls the transaction back and is re-thrown unchanged; rolling back restores
  every table the call started from, while the id generator keeps any id the
  order insert drew.

  What the code cannot see of the database is a parameter, `Storage`: whether
  `INSERT ... RETURNING id` yields a row, and which statement, if any, throws
  an SQL exception.
 */
module OrderService {
  import opened Wrappers
  import opened OrderItems
  import opened Orders
  import opened Inventory

  /** The statement that throws an SQL exception. */
  datatype Fault =
    | ConnectFault      // obtaining the connection
    | InsertOrderFault  // the order insert
    | BatchFault        // `executeBatch` of the line items
    | CommitFault       // `commit`

  /** The database behaviour the routine depends on but does not control. */
  datatype Storage = Storage(returnsRow: bool, fault: Option<Fault>)

  /** Whether the statement `f` throws. */
  predicate Throws(env: Storage, f: Fault)
  {
    env.fault.Some? && env.fault.value == f
  }

  /** A database that answers every statement normally. */
  const Normal := Storage(true, None)

  /** What the caller sees thrown: a rejected item or an SQL exception. */
  datatype Error = Rejected(shortfall: Shortfall) | SqlError(at: Fault)

  /** The returned order id or the thrown error, the database afterwards, and
      the caller's order, whose items the routine mutates in place. */
  datatype Outcome = Outcome(result: Result<int, Error>, db: Db, order: Order)

  /** The verification pass used: as written (`PerItem`) or the reserving one. */
  datatype Check = PerItem | Reserving

  /** The id read back from the order insert, and the database after it. */
  datatype Allocation = Allocation(orderId: int, db: Db)

  /** The id returned when the order insert yields no row. */
  const NoId := -1

  /** `INSERT INTO orders ... RETURNING id`. When a row comes back, the new order
      gets the next generated id; when none does, the local id keeps its initial
      `-1`, no row was inserted, and the routine carries on regardless. */
  function InsertOrder(db: Db, returnsRow: bool): (a: Allocation)
    ensures a.db.stock == db.stock && a.db.lineItems == db.lineItems
    ensures returnsRow ==> a.orderId == db.nextId && a.db.nextId == db.nextId + 1
    ensures returnsRow ==> a.db.orders == db.orders + {a.orderId}
    ensures !returnsRow ==> a.orderId == NoId && a.db == db
    ensures Valid(db) ==> Valid(a.db)
    ensures Valid(db) && returnsRow ==>
              a.orderId >= 1 && forall id :: id in db.orders ==> id < a.orderId
  {
    if returnsRow then
      Allocation(db.nextId, db.(orders := db.orders + {db.nextId}, nextId := db.nextId + 1))
    else
      Allocation(NoId, db)
  }

  /** `rollback`: every table goes back to `pre`; the id generator stays where
      the transaction left it. */
  function Rollback(pre: Db, current: Db): (r: Db)
    requires current.nextId >= pre.nextId
    ensures RolledBack(pre, r) && r.nextId == current.nextId
  {
    pre.(nextId := current.nextId)
  }

  function Verify(check: Check, stock: Stock, items: seq<OrderItem>): Option<Shortfall>
  {
    match check
    case PerItem => FirstShortfall(stock, items)
    case Reserving => FirstShortfallReserving(stock, items)
  }

  /** The loop that calls `item.setOrderId(orderId)` on every item before adding it to the batch. */
  function AssignOrderId(items: seq<OrderItem>, orderId: int): (r: seq<OrderItem>)
    ensures |r| == |items|
    ensures forall i :: 0 <= i < |r| ==>
              r[i].orderId == orderId && r[i].productId == items[i].productId && r[i].qty == items[i].qty
  {
    seq(|items|, i requires 0 <= i < |items| => SetOrderId(items[i], orderId))
  }

  /** Stamping the order id changes neither the number of items nor the total quantity. */
  lemma {:induction false} AssignOrderIdKeepsTotals(items: seq<OrderItem>, orderId: int)
    ensures |AssignOrderId(items, orderId)| == |items|
    ensures QtySum(AssignOrderId(items, orderId)) == QtySum(items)
  {
    if |items| > 0 {
      AssignOrderIdKeepsTotals(items[1..], orderId);
      assert AssignOrderId(items, orderId)[1..] == AssignOrderId(items[1..], orderId);
    }
  }

  /**
    The transaction, step by step. A connection failure happens before there is
    a transaction, so there is nothing to roll back. Every later failure is
    followed by a rollback, so the result carries the tables the call started
    from; an id the order insert drew stays drawn. The items are stamped with the
    order id in memory, which a rollback does not undo: a failure of the batch
    or of the commit leaves the caller's items stamped.
   */
  function Run(check: Check, db: Db, order: Order, env: Storage): (out: Outcome)
    ensures out.result.Failure? ==> RolledBack(db, out.db)
    ensures out.db.nextId ==
              if Throws(env, ConnectFault) || Throws(env, InsertOrderFault) || !env.returnsRow
              then db.nextId else db.nextId + 1
    ensures Valid(db) ==> Valid(out.db)
    ensures out.result.Success? <==> env.fault.None? && Verify(check, db.stock, order.items).None?
    ensures out.result.Failure? && out.result.error.SqlError? ==> Throws(env, out.result.error.at)
    ensures out.result.Failure? && out.result.error.Rejected? ==>
              out.order == order && Verify(check, db.stock, order.items) == Some(out.result.error.shortfall)
    ensures out.order.id == order.id && out.order.createdAt == order.createdAt
  {
    if Throws(env, ConnectFault) then
      Outcome(Failure(SqlError(ConnectFault)), db, order)
    else if Throws(env, InsertOrderFault) then
      Outcome(Failure(SqlError(InsertOrderFault)), db, order)
    else
      var alloc := InsertOrder(db, env.returnsRow);
      match Verify(check, alloc.db.stock, order.items)
      case Some(s) =>
        Outcome(Failure(Rejected(s)), Rollback(db, alloc.db), order)
      case None =>
        var deducted := alloc.db.(stock := DeductAll(alloc.db.stock, order.items));
        var stamped := order.(items := AssignOrderId(order.items, alloc.orderId));
        if Throws(env, BatchFault) then
          Outcome(Failure(SqlError(BatchFault)), Rollback(db, alloc.db), stamped)
        else
          var inserted := deducted.(lineItems := deducted.lineItems + stamped.items);
          if Throws(env, CommitFault) then
            Outcome(Failure(SqlError(CommitFault)), Rollback(db, alloc.db), stamped)
          else
            Outcome(Success(alloc.orderId), inserted, stamped)
  }

  /**
    `createOrder` as written. It succeeds exactly when no statement throws and
    every item, compared with the stock as it was before the call, names an
    existing product whose stock is at least the quantity. A rejection names
    the first rejected item, leaves every table as it was and leaves the
    caller's items untouched.
   */
  function CreateOrder(db: Db, order: Order, env: Storage): (out: Outcome)
    ensures out.result.Failure? ==> RolledBack(db, out.db)
    ensures out.db.nextId ==
              if Throws(env, ConnectFault) || Throws(env, InsertOrderFault) || !env.returnsRow
              then db.nextId else db.nextId + 1
    ensures Valid(db) ==> Valid(out.db)
    ensures out.result.Success? <==> env.fault.None? && AllPass(db.stock, order.items)
    ensures out.result.Failure? && out.result.error.Rejected? ==>
              && out.order == order
              && exists k :: 0 <= k < |order.items|
                   && CheckItem(db.stock, order.items[k]) == Some(out.result.error.shortfall)
                   && AllPass(db.stock, order.items[..k])
    ensures out.result.Failure? && out.result.error.SqlError? ==> Throws(env, out.result.error.at)
    ensures !Throws(env, ConnectFault) && !Throws(env, InsertOrderFault) && !AllPass(db.stock, order.items) ==>
              out.result.Failure? && out.result.error.Rejected?
  {
    Run(PerItem, db, order, env)
  }

  // ---------------------------------------------------------------------------
  // Failure: nothing changes
  // ---------------------------------------------------------------------------

  /** An item naming a product that does not exist makes the call fail, with the
      stock, the orders and the line items as they were, the order row inserted
      earlier in the transaction included; only the id it drew stays drawn. */
  lemma MissingProductRollsBack(db: Db, order: Order, env: Storage, i: int)
    requires 0 <= i < |order.items| && order.items[i].productId !in db.stock
    ensures CreateOrder(db, order, env).result.Failure?
    ensures RolledBack(db, CreateOrder(db, order, env).db)
    ensures CreateOrder(db, order, env).order == order
  {
    assert !Passes(db.stock, order.items[i]);
  }

  /** An item asking strictly more than its product's stock makes the call fail
      with nothing changed; asking exactly the stock passes that item's check. */
  lemma ShortfallRollsBack(db: Db, order: Order, env: Storage, i: int)
    requires 0 <= i < |order.items| && order.items[i].productId in db.stock
    requires db.stock[order.items[i].productId] < order.items[i].qty
    ensures CreateOrder(db, order, env).result.Failure?
    ensures RolledBack(db, CreateOrder(db, order, env).db)
    ensures CreateOrder(db, order, env).order == order
  {
    assert !Passes(db.stock, order.items[i]);
  }

  lemma ExactStockPasses(stock: Stock, item: OrderItem)
    requires item.productId in stock && stock[item.productId] == item.qty
    ensures CheckItem(stock, item) == None
  {
  }

  /** No stock moves unless every item passed verification against the stock
      the call started from. */
  lemma NoDeductionUnlessAllPass(db: Db, order: Order, env: Storage)
    ensures CreateOrder(db, order, env).db.stock != db.stock ==>
              env.fault.None? && AllPass(db.stock, order.items)
  {
  }

  // ---------------------------------------------------------------------------
  // Success: what the committed transaction wrote
  // ---------------------------------------------------------------------------

  /** Each product's stock goes down by the sum of the quantities of the items
      naming it; products the order does not name keep their stock. */
  lemma SuccessDeductsDemand(db: Db, order: Order, env: Storage)
    requires CreateOrder(db, order, env).result.Success?
    ensures CreateOrder(db, order, env).db.stock.Keys == db.stock.Keys
    ensures forall p :: p in db.stock ==>
              CreateOrder(db, order, env).db.stock[p] == db.stock[p] - Demand(order.items, p)
    ensures forall p :: p in db.stock && !Names(order.items, p) ==>
              CreateOrder(db, order, env).db.stock[p] == db.stock[p]
  {
    var after := CreateOrder(db, order, env).db.stock;
    assert after == DeductAll(db.stock, order.items);
    forall p | p in db.stock
      ensures after[p] == db.stock[p] - Demand(order.items, p)
    {
      DeductAllSubtractsDemand(db.stock, order.items, p);
    }
    forall p | p in db.stock && !Names(order.items, p)
      ensures after[p] == db.stock[p]
    {
      DemandOfUnnamed(order.items, p);
    }
  }

  /** One line item is appended per order item, in item order, each carrying the
      returned id; the caller's items carry that id too and are otherwise unchanged. */
  lemma SuccessInsertsLineItems(db: Db, order: Order, env: Storage)
    requires CreateOrder(db, order, env).result.Success?
    ensures var out := CreateOrder(db, order, env);
            && |out.db.lineItems| == |db.lineItems| + |order.items|
            && out.db.lineItems[..|db.lineItems|] == db.lineItems
            && out.db.lineItems[|db.lineItems|..] == out.order.items
            && |out.order.items| == |order.items|
            && forall i :: 0 <= i < |order.items| ==>
                 && out.order.items[i] == OrderItem(out.result.value, order.items[i].productId, order.items[i].qty)
                 && out.db.lineItems[|db.lineItems| + i] == out.order.items[i]
  {
    var out := CreateOrder(db, order, env);
    assert out.db.lineItems == db.lineItems + out.order.items;
  }

  /** The returned id is the one the order insert produced: a fresh id above every
      existing one when a row came back, and `-1` exactly when none did. */
  lemma SuccessAllocatesOrder(db: Db, order: Order, env: Storage)
    requires Valid(db)
    requires CreateOrder(db, order, env).result.Success?
    ensures var out := CreateOrder(db, order, env);
            && Valid(out.db)
            && (out.result.value == NoId <==> !env.returnsRow)
            && (env.returnsRow ==>
                  && out.result.value == db.nextId
                  && out.result.value !in db.orders
                  && out.db.orders == db.orders + {out.result.value})
            && (!env.returnsRow ==> out.db.orders == db.orders && out.db.nextId == db.nextId)
  {
  }

  /** An order without items succeeds on any database whose statements all go
      through: it creates the order row and no line item, and leaves every stock
      as it was. */
  lemma EmptyOrderSucceeds(db: Db, order: Order)
    requires order.items == []
    ensures var out := CreateOrder(db, order, Normal);
            && out.result == Success(db.nextId)
            && out.db.orders == db.orders + {db.nextId}
            && out.db.lineItems == db.lineItems
            && out.db.stock == db.stock
  {
    assert AllPass(db.stock, order.items);
  }

  // ---------------------------------------------------------------------------
  // Stock non-negativity
  // ---------------------------------------------------------------------------

  /** When no two items name the same product, a successful call keeps every
      stock non-negative, whatever the sign of the quantities. */
  lemma DistinctProductsKeepStockNonNegative(db: Db, order: Order, env: Storage)
    requires NonNegative(db.stock)
    requires DistinctProducts(order.items)
    ensures NonNegative(CreateOrder(db, order, env).db.stock)
  {
    var out := CreateOrder(db, order, env);
    if out.result.Success? {
      assert out.db.stock == DeductAll(db.stock, order.items);
      DeductAllNonNegative(db.stock, order.items);
    }
  }

  /** Without distinct product ids the verification as written lets an order
      through that oversells: two items for a product with stock 5, each asking
      3, both pass, and the stock ends at -1. */
  lemma DuplicateProductOversells()
    ensures var db := Db(map[1 := 5], {}, [], 1);
            var order := Order(0, None, [OrderItem(0, 1, 3), OrderItem(0, 1, 3)]);
            var out := CreateOrder(db, order, Normal);
            && NonNegative(db.stock)
            && out.result == Success(1)
            && out.db.stock[1] == -1
  {
    var db := Db(map[1 := 5], {}, [], 1);
    var items := [OrderItem(0, 1, 3), OrderItem(0, 1, 3)];
    assert AllPass(db.stock, items) by {
      assert Passes(db.stock, items[0]) && Passes(db.stock, items[1]);
    }
    DeductAllSubtractsDemand(db.stock, items, 1);
    assert Demand(items, 1) == 6 by {
      assert items[1..] == [OrderItem(0, 1, 3)];
      assert items[1..][1..] == [];
    }
  }

  /** `createOrder` with a verification pass that compares each item with the
      stock left by the items before it: it never drives a stock below zero,
      with or without repeated products. It succeeds exactly when no statement
      throws and every item passes against that stock; a rejection names the
      first item that does not, rolls back and leaves the caller's items alone. */
  function CreateOrderReserving(db: Db, order: Order, env: Storage): (out: Outcome)
    ensures NonNegative(db.stock) ==> NonNegative(out.db.stock)
    ensures out.result.Failure? ==> RolledBack(db, out.db)
    ensures out.result.Success? <==> env.fault.None? && AllPassReserving(db.stock, order.items)
    ensures out.result.Failure? && out.result.error.Rejected? ==>
              && out.order == order
              && exists k :: 0 <= k < |order.items|
                   && CheckItem(Reserved(db.stock, order.items, k), order.items[k]) == Some(out.result.error.shortfall)
                   && PassReservingBefore(db.stock, order.items, k)
    ensures out.result.Failure? && out.result.error.SqlError? ==> Throws(env, out.result.error.at)
  {
    ReservingVerdict(db.stock, order.items);
    var out := Run(Reserving, db, order, env);
    // The stock moves only on success, which is when the pass accepted the items.
    assert NonNegative(db.stock) ==> NonNegative(out.db.stock) by {
      if out.result.Success? {
        ReservingKeepsNonNegative(db.stock, order.items);
      }
    }
    out
  }

  /** The reserving routine draws order ids as the routine as written does: the
      sequence advances exactly when the order insert returns a row, and order
      ids stay well formed. */
  lemma ReservingAllocatesOrder(db: Db, order: Order, env: Storage)
    ensures var out := CreateOrderReserving(db, order, env);
            && out.db.nextId ==
                 (if Throws(env, ConnectFault) || Throws(env, InsertOrderFault) || !env.returnsRow
                  then db.nextId else db.nextId + 1)
            && (Valid(db) ==> Valid(out.db))
  {
  }

  /** What the reserving routine commits, repeated products included: each
      product's stock drops by the total quantity requested of it, which never
      exceeds a non-negative stock; one line item per order item is appended, in
      item order, carrying the returned id. */
  lemma ReservingSuccessEffects(db: Db, order: Order, env: Storage)
    requires CreateOrderReserving(db, order, env).result.Success?
    ensures var out := CreateOrderReserving(db, order, env);
            && out.result.value == (if env.returnsRow then db.nextId else NoId)
            && out.db.stock.Keys == db.stock.Keys
            && (forall p :: p in db.stock ==> out.db.stock[p] == db.stock[p] - Demand(order.items, p))
            && (NonNegative(db.stock) ==> forall p :: p in db.stock ==> Demand(order.items, p) <= db.stock[p])
            && out.db.lineItems == db.lineItems + out.order.items
            && out.order.items == AssignOrderId(order.items, out.result.value)
  {
    var out := CreateOrderReserving(db, order, env);
    assert out.db.stock == DeductAll(db.stock, order.items);
    forall p | p in db.stock
      ensures out.db.stock[p] == db.stock[p] - Demand(order.items, p)
    {
      DeductAllSubtractsDemand(db.stock, order.items, p);
    }
  }

  /** On orders whose product ids are distinct the reserving routine and the
      routine as written are indistinguishable. */
  lemma ReservingMatchesOnDistinct(db: Db, order: Order, env: Storage)
    requires DistinctProducts(order.items)
    ensures CreateOrderReserving(db, order, env) == CreateOrder(db, order, env)
  {
    ReservingAgreesOnDistinct(db.stock, order.items);
    SameVerdictSameOutcome(db, order, env);
  }

  /** The transaction depends on the verification pass only through its verdict. */
  lemma SameVerdictSameOutcome(db: Db, order: Order, env: Storage)
    requires Verify(Reserving, db.stock, order.items) == Verify(PerItem, db.stock, order.items)
    ensures Run(Reserving, db, order, env) == Run(PerItem, db, order, env)
  {
  }

  /** The reserving routine rejects the overselling order the routine as written accepts. */
  lemma ReservingRejectsOversell()
    ensures var db := Db(map[1 := 5], {}, [], 1);
            var order := Order(0, None, [OrderItem(0, 1, 3), OrderItem(0, 1, 3)]);
            var out := CreateOrderReserving(db, order, Normal);
            && out.result == Failure(Rejected(InsufficientStock(1, 2, 3)))
            && out.db == db.(nextId := 2)
  {
    var stock := map[1 := 5];
    var items := [OrderItem(0, 1, 3), OrderItem(0, 1, 3)];
    var s1 := UpdateStock(stock, 1, 3).stock;
    assert s1 == map[1 := 2];
    assert items[1..] == [OrderItem(0, 1, 3)];
    assert FirstShortfallReserving(s1, items[1..]) == Some(InsufficientStock(1, 2, 3));
  }

  // ---------------------------------------------------------------------------
  // A sequence of calls
  // ---------------------------------------------------------------------------

  /** The database after submitting the orders one after another, each call
      starting from the state the previous one left. */
  function RunAll(db: Db, calls: seq<(Order, Storage)>): Db
    decreases |calls|
  {
    if |calls| == 0 then db
    else RunAll(CreateOrder(db, calls[0].0, calls[0].1).db, calls[1..])
  }

  /** Over any sequence of calls whose orders each name distinct products, stock
      that starts non-negative stays non-negative and order ids stay well formed. */
  lemma {:induction false} RunAllKeepsInvariants(db: Db, calls: seq<(Order, Storage)>)
    requires Valid(db) && NonNegative(db.stock)
    requires forall i :: 0 <= i < |calls| ==> DistinctProducts(calls[i].0.items)
    ensures Valid(RunAll(db, calls)) && NonNegative(RunAll(db, calls).stock)
    decreases |calls|
  {
    if |calls| > 0 {
      var out := CreateOrder(db, calls[0].0, calls[0].1);
      DistinctProductsKeepStockNonNegative(db, calls[0].0, calls[0].1);
      assert forall i :: 0 <= i < |calls[1..]| ==> calls[1..][i] == calls[i + 1];
      RunAllKeepsInvariants(out.db, calls[1..]);
    }
  }
}
