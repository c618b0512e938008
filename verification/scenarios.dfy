/**
  The two orders of the demo program, placed one after the other on the same
  database, plus an order that names a product the database does not have.
 */
module Scenarios {
  import opened Wrappers
  import opened OrderItems
  import opened Orders
  import opened Inventory
  import opened OrderService

  /** The stock the demo's comments give for the products its orders name. */
  const InitialStock: Stock := map[1 := 10, 2 := 25, 3 := 15, 4 := 50, 5 := 8, 7 := 30]

  /** The demo does not say which id its first order receives. The model starts
      from a fresh database: no orders yet and the id sequence at 1. */
  const InitialDb := Db(InitialStock, {}, [], 1)

  /** Built as the demo builds it: `new Order()`, then `addItem(new OrderItem(0, p, q))` per line. */
  function Build(lines: seq<(int, int)>): (o: Order)
    ensures o.id == 0 && |o.items| == |lines|
    ensures forall i :: 0 <= i < |lines| ==> o.items[i] == OrderItem(0, lines[i].0, lines[i].1)
  {
    var items := seq(|lines|, i requires 0 <= i < |lines| => New(0, lines[i].0, lines[i].1));
    AddAllAppends(Empty(), items);
    AddAll(Empty(), items)
  }

  /** Case 1: two laptops, five phones and ten earbuds are in stock; the order
      commits as order 1, the three stocks drop by the quantities and three line
      items for order 1 are written. */
  lemma SuccessCase()
    ensures var out := CreateOrder(InitialDb, Build([(1, 2), (2, 5), (4, 10)]), Normal);
            && out.result == Success(1)
            && out.db.stock == map[1 := 8, 2 := 20, 3 := 15, 4 := 40, 5 := 8, 7 := 30]
            && out.db.orders == {1}
            && out.db.nextId == 2
            && out.db.lineItems == [OrderItem(1, 1, 2), OrderItem(1, 2, 5), OrderItem(1, 4, 10)]
  {
    var order := Build([(1, 2), (2, 5), (4, 10)]);
    var items := [OrderItem(0, 1, 2), OrderItem(0, 2, 5), OrderItem(0, 4, 10)];
    assert order.items == items;
    assert AllPass(InitialStock, items) by {
      assert Passes(InitialStock, items[0]);
      assert Passes(InitialStock, items[1]);
      assert Passes(InitialStock, items[2]);
    }
    SuccessCaseStock(items);
    SuccessInsertsLineItems(InitialDb, order, Normal);
  }

  /** The deduction pass of the first case, product by product. */
  lemma SuccessCaseStock(items: seq<OrderItem>)
    requires items == [OrderItem(0, 1, 2), OrderItem(0, 2, 5), OrderItem(0, 4, 10)]
    ensures DeductAll(InitialStock, items) == map[1 := 8, 2 := 20, 3 := 15, 4 := 40, 5 := 8, 7 := 30]
  {
    var after := DeductAll(InitialStock, items);
    assert DistinctProducts(items);
    forall p | p in InitialStock
      ensures after[p] == InitialStock[p] - Demand(items, p)
    {
      DeductAllSubtractsDemand(InitialStock, items, p);
    }
    DemandOfDistinct(items, 0);
    DemandOfDistinct(items, 1);
    DemandOfDistinct(items, 2);
    assert !Names(items, 3) && !Names(items, 5) && !Names(items, 7);
    DemandOfUnnamed(items, 3);
    DemandOfUnnamed(items, 5);
    DemandOfUnnamed(items, 7);
    assert after.Keys == InitialStock.Keys;
  }

  /** The database the second case starts from: the one the first case committed. */
  const AfterSuccess := CreateOrder(InitialDb, Build([(1, 2), (2, 5), (4, 10)]), Normal).db

  /** Case 2: twenty tablets are asked for but only eight are in stock; the call
      fails on product 5 and every table is left as the first case left it,
      including the stock of product 3, whose item had already passed; the id
      its order row drew, 2, is not handed out again. */
  lemma FailureCase()
    ensures var out := CreateOrder(AfterSuccess, Build([(3, 5), (5, 20), (7, 10)]), Normal);
            && out.result == Failure(Rejected(InsufficientStock(5, 8, 20)))
            && out.db == AfterSuccess.(nextId := 3)
            && out.db.stock[3] == 15 && out.db.stock[5] == 8 && out.db.stock[7] == 30
  {
    SuccessCase();
    var order := Build([(3, 5), (5, 20), (7, 10)]);
    var stock := AfterSuccess.stock;
    assert CheckItem(stock, order.items[0]) == None;
    assert CheckItem(stock, order.items[1]) == Some(InsufficientStock(5, 8, 20));
    assert order.items[1..][0] == order.items[1];
    assert FirstShortfall(stock, order.items[1..]) == Some(InsufficientStock(5, 8, 20));
    assert FirstShortfall(stock, order.items) == Some(InsufficientStock(5, 8, 20));
  }

  /** An order naming a product id the database does not have fails with
      `ProductNotFound`, and no table changes; only id 1 is used up. */
  lemma MissingProductCase()
    ensures var out := CreateOrder(InitialDb, Build([(1, 1), (99, 1)]), Normal);
            && out.result == Failure(Rejected(ProductNotFound(99)))
            && out.db == InitialDb.(nextId := 2)
  {
    var order := Build([(1, 1), (99, 1)]);
    assert CheckItem(InitialStock, order.items[0]) == None;
    assert order.items[1..][0] == order.items[1];
    assert FirstShortfall(InitialStock, order.items[1..]) == Some(ProductNotFound(99));
  }
}
