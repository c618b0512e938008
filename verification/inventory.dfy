/**
  The database the order-creation transaction works on, and the two passes it
  makes over the stock table: the verification pass (a read per item) and the
  deduction pass (one `UPDATE products SET stock = stock - qty WHERE id = ?`
  per item).
 */
module Inventory {
  import opened Wrappers
  import opened OrderItems

  /** The `products` table reduced to what the transaction touches: product id to stock. */
  type Stock = map<int, int>

  /**
    The three relations plus the generator behind `orders.id`:
    - `stock`: the `products` table;
    - `orders`: the ids of the `orders` rows;
    - `lineItems`: the `order_items` rows, in insertion order;
    - `nextId`: the id the next order insert is given.
   */
  datatype Db = Db(stock: Stock, orders: set<int>, lineItems: seq<OrderItem>, nextId: int)

  /** `post` holds the tables of `pre`: a rollback undoes every row written by the
      transaction. The id generator is not part of the rollback: a PostgreSQL
      sequence never gives back a value it has handed out. */
  ghost predicate RolledBack(pre: Db, post: Db)
  {
    && post.stock == pre.stock
    && post.orders == pre.orders
    && post.lineItems == pre.lineItems
    && post.nextId >= pre.nextId
  }

  /** Order ids are generated from 1 upwards: every existing id lies below the next one. */
  ghost predicate Valid(db: Db)
  {
    && db.nextId >= 1
    && forall id :: id in db.orders ==> 1 <= id < db.nextId
  }

  ghost predicate NonNegative(stock: Stock)
  {
    forall p :: p in stock ==> stock[p] >= 0
  }

  /** Why the verification pass rejects an item. */
  datatype Shortfall =
    | ProductNotFound(productId: int)
    | InsufficientStock(productId: int, available: int, requested: int)

  // ---------------------------------------------------------------------------
  // Verification pass
  // ---------------------------------------------------------------------------

  /** The item's product exists and its stock is at least the quantity asked for. */
  ghost predicate Passes(stock: Stock, item: OrderItem)
  {
    item.productId in stock && item.qty <= stock[item.productId]
  }

  ghost predicate AllPass(stock: Stock, items: seq<OrderItem>)
  {
    forall i :: 0 <= i < |items| ==> Passes(stock, items[i])
  }

  /** One iteration of the verification loop: the lookup by product id, then the
      comparison `currentStock < qty`, which rejects only a strict shortfall. */
  function CheckItem(stock: Stock, item: OrderItem): (r: Option<Shortfall>)
    ensures r.None? <==> Passes(stock, item)
    ensures r.Some? ==> r.value.productId == item.productId
    ensures r == Some(ProductNotFound(item.productId)) <==> item.productId !in stock
    ensures r.Some? && item.productId in stock ==>
              r.value == InsufficientStock(item.productId, stock[item.productId], item.qty)
  {
    if item.productId !in stock then Some(ProductNotFound(item.productId))
    else if stock[item.productId] < item.qty then
      Some(InsufficientStock(item.productId, stock[item.productId], item.qty))
    else None
  }

  /** The verification loop as written: every item is compared with the same,
      not yet deducted, stock table, and the first rejected item stops the loop. */
  function FirstShortfall(stock: Stock, items: seq<OrderItem>): (r: Option<Shortfall>)
    ensures r.None? <==> AllPass(stock, items)
    ensures r.Some? ==>
              exists k :: 0 <= k < |items| && CheckItem(stock, items[k]) == r && AllPass(stock, items[..k])
  {
    if |items| == 0 then None
    else match CheckItem(stock, items[0])
      case Some(s) =>
        assert AllPass(stock, items[..0]);
        Some(s)
      case None =>
        var r := FirstShortfall(stock, items[1..]);
        assert forall i :: 1 <= i < |items| ==> items[i] == items[1..][i - 1];
        assert r.Some? ==>
                 exists k :: 0 <= k < |items| && CheckItem(stock, items[k]) == r && AllPass(stock, items[..k]) by {
          if r.Some? {
            var k :| 0 <= k < |items[1..]| && CheckItem(stock, items[1..][k]) == r && AllPass(stock, items[1..][..k]);
            assert items[..k + 1] == [items[0]] + items[1..][..k];
            assert AllPass(stock, items[..k + 1]);
          }
        }
        r
  }

  // ---------------------------------------------------------------------------
  // Deduction pass
  // ---------------------------------------------------------------------------

  /** The result of one `UPDATE`: how many rows it matched and the table afterwards. */
  datatype Update = Update(rowsAffected: nat, stock: Stock)

  /** `UPDATE products SET stock = stock - qty WHERE id = productId`: matches one row
      when the product exists and none otherwise; a missing product is no error. */
  function UpdateStock(stock: Stock, productId: int, qty: int): (u: Update)
    ensures u.stock.Keys == stock.Keys
    ensures u.rowsAffected == (if productId in stock then 1 else 0)
    ensures productId in stock ==> u.stock[productId] == stock[productId] - qty
    ensures forall p :: p in stock && p != productId ==> u.stock[p] == stock[p]
    ensures u.rowsAffected == 0 ==> u.stock == stock
  {
    if productId in stock then Update(1, stock[productId := stock[productId] - qty])
    else Update(0, stock)
  }

  /** The deduction loop: one `UPDATE` per item, in item order; the row count
      each returns is only printed, so an update that matched nothing is ignored. */
  function DeductAll(stock: Stock, items: seq<OrderItem>): (r: Stock)
    ensures r.Keys == stock.Keys
  {
    if |items| == 0 then stock
    else DeductAll(UpdateStock(stock, items[0].productId, items[0].qty).stock, items[1..])
  }

  /** Total quantity the items ask of product `p`. */
  function Demand(items: seq<OrderItem>, p: int): int
  {
    if |items| == 0 then 0
    else (if items[0].productId == p then items[0].qty else 0) + Demand(items[1..], p)
  }

  ghost predicate Names(items: seq<OrderItem>, p: int)
  {
    exists i :: 0 <= i < |items| && items[i].productId == p
  }

  /** No two items name the same product. */
  ghost predicate DistinctProducts(items: seq<OrderItem>)
  {
    forall i, j :: 0 <= i < j < |items| ==> items[i].productId != items[j].productId
  }

  /** After the deduction pass every product's stock has gone down by exactly
      the total the items ask of it. */
  lemma {:induction false} DeductAllSubtractsDemand(stock: Stock, items: seq<OrderItem>, p: int)
    requires p in stock
    ensures DeductAll(stock, items)[p] == stock[p] - Demand(items, p)
  {
    if |items| > 0 {
      var s1 := UpdateStock(stock, items[0].productId, items[0].qty).stock;
      DeductAllSubtractsDemand(s1, items[1..], p);
    }
  }

  /** A product no item names is asked for nothing. */
  lemma {:induction false} DemandOfUnnamed(items: seq<OrderItem>, p: int)
    requires !Names(items, p)
    ensures Demand(items, p) == 0
  {
    if |items| > 0 {
      assert items[0].productId != p;
      assert forall i :: 0 <= i < |items[1..]| ==> items[1..][i] == items[i + 1];
      DemandOfUnnamed(items[1..], p);
    }
  }

  /** With distinct product ids, the demand on an item's product is that item's quantity. */
  lemma {:induction false} DemandOfDistinct(items: seq<OrderItem>, k: int)
    requires DistinctProducts(items)
    requires 0 <= k < |items|
    ensures Demand(items, items[k].productId) == items[k].qty
  {
    var p := items[k].productId;
    if k == 0 {
      assert forall i :: 0 <= i < |items[1..]| ==> items[1..][i] == items[i + 1];
      DemandOfUnnamed(items[1..], p);
    } else {
      assert items[0].productId != p;
      assert items[1..][k - 1] == items[k];
      DemandOfDistinct(items[1..], k - 1);
    }
  }

  /** The deduction pass leaves the stock of every product no item names as it was. */
  lemma {:induction false} DeductAllKeepsUnnamed(stock: Stock, items: seq<OrderItem>, p: int)
    requires p in stock && !Names(items, p)
    ensures DeductAll(stock, items)[p] == stock[p]
  {
    DeductAllSubtractsDemand(stock, items, p);
    DemandOfUnnamed(items, p);
  }

  /** With distinct product ids and non-negative starting stock, items that
      pass verification cannot drive any stock below zero. */
  lemma {:induction false} DeductAllNonNegative(stock: Stock, items: seq<OrderItem>)
    requires NonNegative(stock)
    requires DistinctProducts(items)
    requires AllPass(stock, items)
    ensures NonNegative(DeductAll(stock, items))
  {
    forall p | p in DeductAll(stock, items)
      ensures DeductAll(stock, items)[p] >= 0
    {
      DeductAllSubtractsDemand(stock, items, p);
      if Names(items, p) {
        var k :| 0 <= k < |items| && items[k].productId == p;
        DemandOfDistinct(items, k);
        assert Passes(stock, items[k]);
      } else {
        DemandOfUnnamed(items, p);
      }
    }
  }

  // ---------------------------------------------------------------------------
  // Verification that accounts for earlier items of the same order
  // ---------------------------------------------------------------------------

  /** The stock left once the deduction pass has run over the first `k` items. */
  function Reserved(stock: Stock, items: seq<OrderItem>, k: nat): Stock
    requires k <= |items|
  {
    DeductAll(stock, items[..k])
  }

  /** The first `k` items each pass against the stock left by the items before them. */
  ghost predicate PassReservingBefore(stock: Stock, items: seq<OrderItem>, k: int)
  {
    forall j :: 0 <= j < k && j < |items| ==> Passes(Reserved(stock, items, j), items[j])
  }

  /** Every item passes against the stock left by the items before it. */
  ghost predicate AllPassReserving(stock: Stock, items: seq<OrderItem>)
  {
    PassReservingBefore(stock, items, |items|)
  }

  /** Deducting the first item and then `k - 1` more is deducting the first `k`. */
  lemma ReservedStep(stock: Stock, items: seq<OrderItem>, k: nat)
    requires 1 <= k <= |items|
    ensures Reserved(stock, items, k)
              == Reserved(UpdateStock(stock, items[0].productId, items[0].qty).stock, items[1..], k - 1)
  {
    assert items[..k][1..] == items[1..][..k - 1];
  }

  /** Nothing is deducted before the first item. */
  lemma ReservedNone(stock: Stock, items: seq<OrderItem>)
    ensures Reserved(stock, items, 0) == stock
  {
    assert items[..0] == [];
  }

  /** Once the first item passes, the items after it pass against the stock it
      leaves exactly as they pass, one position later, in the whole list. */
  lemma PassReservingShift(stock: Stock, items: seq<OrderItem>, k: nat)
    requires 0 < |items| && k < |items|
    requires Passes(stock, items[0])
    ensures PassReservingBefore(stock, items, k + 1) <==>
              PassReservingBefore(UpdateStock(stock, items[0].productId, items[0].qty).stock, items[1..], k)
  {
    var s1 := UpdateStock(stock, items[0].productId, items[0].qty).stock;
    var rest := items[1..];
    ReservedNone(stock, items);
    forall j | 1 <= j <= |items|
      ensures Reserved(stock, items, j) == Reserved(s1, rest, j - 1)
    {
      ReservedStep(stock, items, j);
    }
    assert forall j :: 1 <= j < |items| ==> items[j] == rest[j - 1];
    if PassReservingBefore(s1, rest, k) {
      forall j | 0 <= j < k + 1 && j < |items|
        ensures Passes(Reserved(stock, items, j), items[j])
      {
        if j > 0 {
          assert Passes(Reserved(s1, rest, j - 1), rest[j - 1]);
        }
      }
    }
    if PassReservingBefore(stock, items, k + 1) {
      forall j | 0 <= j < k && j < |rest|
        ensures Passes(Reserved(s1, rest, j), rest[j])
      {
        assert Passes(Reserved(stock, items, j + 1), items[j + 1]);
      }
    }
  }

  /** The verdict on item `k + 1` of the whole list is the verdict on item `k` of
      the rest, checked against the stock the first item leaves. */
  lemma CheckReservingShift(stock: Stock, items: seq<OrderItem>, k: nat)
    requires k + 1 < |items|
    ensures CheckItem(Reserved(stock, items, k + 1), items[k + 1])
              == CheckItem(Reserved(UpdateStock(stock, items[0].productId, items[0].qty).stock, items[1..], k), items[1..][k])
  {
    ReservedStep(stock, items, k + 1);
  }

  /** The inductive step of the reserving pass, acceptance: when the first item
      passes, the whole list passes against the running stock exactly when the
      rest passes against the stock the first item leaves. */
  lemma ReservingStepAccepts(stock: Stock, items: seq<OrderItem>)
    requires 0 < |items| && Passes(stock, items[0])
    ensures AllPassReserving(UpdateStock(stock, items[0].productId, items[0].qty).stock, items[1..]) <==>
              AllPassReserving(stock, items)
  {
    PassReservingShift(stock, items, |items| - 1);
  }

  /** The inductive step of the reserving pass, rejection: when the first item
      passes, the first rejected item of the rest is, one position later, the
      first rejected item of the whole list. */
  lemma ReservingStepRejects(stock: Stock, items: seq<OrderItem>, s: Shortfall, k: nat)
    requires 0 < |items| && Passes(stock, items[0]) && k < |items| - 1
    requires var s1 := UpdateStock(stock, items[0].productId, items[0].qty).stock;
             && CheckItem(Reserved(s1, items[1..], k), items[1..][k]) == Some(s)
             && PassReservingBefore(s1, items[1..], k)
    ensures CheckItem(Reserved(stock, items, k + 1), items[k + 1]) == Some(s)
    ensures PassReservingBefore(stock, items, k + 1)
  {
    CheckReservingShift(stock, items, k);
    PassReservingShift(stock, items, k);
  }

  /** A verification pass that compares each item with the stock left after the
      items before it: the check the deduction pass actually needs. What it
      accepts and which item it reports is stated by `ReservingVerdict`. */
  function FirstShortfallReserving(stock: Stock, items: seq<OrderItem>): (r: Option<Shortfall>)
    ensures r.Some? ==> Names(items, r.value.productId)
  {
    if |items| == 0 then None
    else match CheckItem(stock, items[0])
      case Some(s) => Some(s)
      case None =>
        var r := FirstShortfallReserving(UpdateStock(stock, items[0].productId, items[0].qty).stock, items[1..]);
        assert r.Some? ==> Names(items, r.value.productId) by {
          if r.Some? {
            var i :| 0 <= i < |items[1..]| && items[1..][i].productId == r.value.productId;
            assert items[i + 1].productId == r.value.productId;
          }
        }
        r
  }

  /** The reserving pass accepts exactly the lists whose every item passes
      against the stock left by the items before it; otherwise it reports the
      first item that does not, and every item before that one passed. */
  lemma {:induction false} ReservingVerdict(stock: Stock, items: seq<OrderItem>)
    ensures FirstShortfallReserving(stock, items).None? <==> AllPassReserving(stock, items)
    ensures var r := FirstShortfallReserving(stock, items);
            r.Some? ==>
              exists k :: 0 <= k < |items|
                && CheckItem(Reserved(stock, items, k), items[k]) == r
                && PassReservingBefore(stock, items, k)
    decreases |items|
  {
    if |items| == 0 {
    } else if CheckItem(stock, items[0]).Some? {
      ReservedNone(stock, items);
      assert PassReservingBefore(stock, items, 0);
      assert !Passes(Reserved(stock, items, 0), items[0]);
    } else {
      var s1 := UpdateStock(stock, items[0].productId, items[0].qty).stock;
      var r := FirstShortfallReserving(s1, items[1..]);
      ReservingVerdict(s1, items[1..]);
      ReservingStepAccepts(stock, items);
      if r.Some? {
        var k :| 0 <= k < |items[1..]|
               && CheckItem(Reserved(s1, items[1..], k), items[1..][k]) == r
               && PassReservingBefore(s1, items[1..], k);
        ReservingStepRejects(stock, items, r.value, k);
      }
    }
  }

  /** Items the reserving check accepts never drive a stock below zero. */
  lemma {:induction false} ReservingKeepsNonNegative(stock: Stock, items: seq<OrderItem>)
    requires FirstShortfallReserving(stock, items).None?
    ensures NonNegative(stock) ==> NonNegative(DeductAll(stock, items))
  {
    if |items| > 0 && NonNegative(stock) {
      var s1 := UpdateStock(stock, items[0].productId, items[0].qty).stock;
      assert Passes(stock, items[0]);
      ReservingKeepsNonNegative(s1, items[1..]);
    }
  }

  /** Both tables have product `p` with the same stock, or neither has it. */
  ghost predicate AgreeOn(s: Stock, t: Stock, p: int)
  {
    (p in s <==> p in t) && (p in s ==> s[p] == t[p])
  }

  /** Two stock tables that agree on every product the items name give the same
      verification verdict. */
  lemma {:induction false} FirstShortfallFrame(s: Stock, t: Stock, items: seq<OrderItem>)
    requires forall i :: 0 <= i < |items| ==> AgreeOn(s, t, items[i].productId)
    ensures FirstShortfall(s, items) == FirstShortfall(t, items)
  {
    if |items| > 0 {
      assert CheckItem(s, items[0]) == CheckItem(t, items[0]);
      assert forall i :: 0 <= i < |items[1..]| ==> items[1..][i] == items[i + 1];
      FirstShortfallFrame(s, t, items[1..]);
    }
  }

  /** When no two items name the same product, the reserving check and the
      check as written reach the same verdict. */
  lemma {:induction false} ReservingAgreesOnDistinct(stock: Stock, items: seq<OrderItem>)
    requires DistinctProducts(items)
    ensures FirstShortfallReserving(stock, items) == FirstShortfall(stock, items)
  {
    if |items| > 0 && CheckItem(stock, items[0]).None? {
      var rest := items[1..];
      var s1 := UpdateStock(stock, items[0].productId, items[0].qty).stock;
      assert forall i :: 0 <= i < |rest| ==> rest[i] == items[i + 1];
      assert DistinctProducts(rest);
      ReservingAgreesOnDistinct(s1, rest);
      assert forall i :: 0 <= i < |rest| ==> rest[i].productId != items[0].productId;
      FirstShortfallFrame(s1, stock, rest);
    }
  }
}
