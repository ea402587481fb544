/** Properties that span several requests. Each method opens a fresh store
    over the given tables, runs a sequence of calls against it and states
    what the sequence answers and leaves behind; everything it proves comes
    from the contracts of `FlashSale.Store`. */
module Scenarios {
  import opened Domain
  import opened Ledger
  import opened Events
  import opened FlashSale

  /** A second webhook call with the same order and key, whatever outcome,
      payload and time it carries, answers the status recorded by the first
      applied call and changes nothing. */
  method ReplayChangesNothing(
    t: Tables, orderId: OrderId, key: string,
    outcome: Outcome, rawPayload: string, now: int,
    outcome2: Outcome, rawPayload2: string, now2: int)
    returns (first: Result<Settlement, Error>, second: Result<Settlement, Error>,
             afterFirst: Tables, afterSecond: Tables)
    requires UniqueKeys(t.events)
    ensures first.Ok? && first.value.Handled? ==> second == Ok(AlreadyProcessed(outcome))
    ensures first.Ok? && first.value.AlreadyProcessed? ==> second == first
    ensures first.Err? ==> second == first && afterFirst == t
    ensures afterSecond == afterFirst
  {
    var store := new Store(t);
    first := store.Settle(orderId, outcome, key, rawPayload, now);
    afterFirst := store.Snapshot();
    second := store.Settle(orderId, outcome2, key, rawPayload2, now2);
    afterSecond := store.Snapshot();
  }

  /** A hold converts into at most one order: once an order has been made
      from it, the next attempt is refused because the hold is used. */
  method SecondOrderOnHoldFails(t: Tables, holdId: HoldId, now: int, now2: int)
    returns (first: Result<OrderTicket, Error>, second: Result<OrderTicket, Error>,
             afterFirst: Tables, afterSecond: Tables)
    requires UniqueKeys(t.events)
    ensures first.Ok? ==> second == Err(HoldNotActive) && afterSecond == afterFirst
    ensures first.Ok? ==> |afterFirst.orders| == |t.orders| + 1
  {
    var store := new Store(t);
    first := store.CreateOrder(holdId, now);
    afterFirst := store.Snapshot();
    second := store.CreateOrder(holdId, now2);
    afterSecond := store.Snapshot();
  }

  /** The happy path: hold `qty` units, order them before the hold runs out,
      pay. The product has sold `qty` more units, the hold is completed and
      the order is paid. */
  method HoldOrderPay(
    t: Tables, pid: ProductId, qty: nat, now: int, orderTime: int,
    key: string, rawPayload: string, payTime: int)
    returns (hold: Result<HoldTicket, Error>, order: Result<OrderTicket, Error>,
             paid: Result<Settlement, Error>, after: Tables)
    requires UniqueKeys(t.events)
    requires pid in t.products && qty >= 1 && Available(t.products[pid], pid, t.holds, now) >= qty
    requires now <= orderTime < now + HoldTtl
    requires !Blank(key) && FindByKey(t.events, key).None?
    ensures hold.Ok? && order.Ok? && paid == Ok(Handled(Paid))
    ensures pid in after.products && after.products[pid].stockSold == t.products[pid].stockSold + qty
    ensures hold.value.holdId < |after.holds| && after.holds[hold.value.holdId].status == Completed
    ensures order.value.orderId < |after.orders| && after.orders[order.value.orderId].status == Paid
  {
    var store := new Store(t);
    hold := store.CreateHold(pid, qty, now);
    order := store.CreateOrder(hold.value.holdId, orderTime);
    paid := store.Settle(order.value.orderId, Success, key, rawPayload, payTime);
    after := store.Snapshot();
  }

  /** Holding and then ordering leaves the product's availability where it
      was: a used hold no longer reserves stock, and nothing is sold until
      payment. */
  method HoldThenOrder(t: Tables, pid: ProductId, qty: nat, now: int)
    returns (hold: Result<HoldTicket, Error>, order: Result<OrderTicket, Error>, after: Tables)
    requires UniqueKeys(t.events)
    requires pid in t.products && qty >= 1 && Available(t.products[pid], pid, t.holds, now) >= qty
    ensures hold == Ok(HoldTicket(|t.holds|, now + HoldTtl))
    ensures order == Ok(OrderTicket(|t.orders|, Pending))
    ensures after.products == t.products && after.events == t.events
    ensures after.orders == t.orders + [Order(pid, |t.holds|, qty, t.products[pid].price * qty, Pending)]
    ensures after.holds == t.holds + [Hold(pid, qty, Used, now + HoldTtl, now)]
    ensures Available(after.products[pid], pid, after.holds, now) == Available(t.products[pid], pid, t.holds, now)
  {
    var store := new Store(t);
    hold := store.CreateHold(pid, qty, now);
    order := store.CreateOrder(|t.holds|, now);
    after := store.Snapshot();
  }

  /** Used holds do not count against availability and stock is only sold
      on payment, so the stock a hold protected is free again from the
      moment its order is placed. Two buyers, one after the other and within
      the same second, can each hold and order the last unit, and both
      orders can then be paid: two units are sold of one. */
  method OversellTrace()
    returns (o1: Result<OrderTicket, Error>, o2: Result<OrderTicket, Error>,
             p1: Result<Settlement, Error>, p2: Result<Settlement, Error>, sold: nat, total: nat)
    ensures o1.Ok? && o2.Ok? && p1 == Ok(Handled(Paid)) && p2 == Ok(Handled(Paid))
    ensures sold == 2 && total == 1
  {
    var t0 := Tables(map[0 := Product(1, 0, 500)], [], [], []);
    assert Available(t0.products[0], 0, t0.holds, 0) == 1;
    var h1, t1, h2, t2;
    h1, o1, t1 := HoldThenOrder(t0, 0, 1, 0);
    h2, o2, t2 := HoldThenOrder(t1, 0, 1, 0);
    assert t2.orders == [Order(0, 0, 1, 500, Pending), Order(0, 1, 1, 500, Pending)];
    assert !Blank("first") && !Blank("second") by {
      assert "first"[0] == 'f' && "second"[0] == 's';
    }
    var t3, t4;
    p1, t3 := PayUnpaid(t2, 0, "first", 1);
    assert t3.orders[1] == Order(0, 1, 1, 500, Pending) && t3.events[0].key == "first";
    p2, t4 := PayUnpaid(t3, 1, "second", 1);
    sold, total := t4.products[0].stockSold, t4.products[0].stockTotal;
  }

  /** A successful payment under a fresh key on an order not yet paid: the
      order becomes paid, its product sells exactly the order's quantity
      more, and the call is recorded; no other order or product changes. */
  method PayUnpaid(t: Tables, orderId: OrderId, key: string, now: int)
    returns (r: Result<Settlement, Error>, after: Tables)
    requires UniqueKeys(t.events)
    requires orderId < |t.orders| && t.orders[orderId].productId in t.products
    requires t.orders[orderId].status != Paid
    requires !Blank(key) && FindByKey(t.events, key).None?
    ensures r == Ok(Handled(Paid))
    ensures UniqueKeys(after.events)
    ensures var o := t.orders[orderId];
            var p := t.products[o.productId];
            && after.orders == t.orders[orderId := o.(status := Paid)]
            && after.products == t.products[o.productId := p.(stockSold := p.stockSold + o.qty)]
            && after.events == t.events + [PaymentEvent(orderId, key, Success, "", now)]
  {
    var store := new Store(t);
    r := store.Settle(orderId, Success, key, "", now);
    after := store.Snapshot();
  }

  /** The settlement guard looks only at the order's current status, so with
      fresh keys an order can go paid, canceled and paid again, and its
      quantity is sold twice. */
  method PaidCanceledPaid(
    t: Tables, orderId: OrderId, k1: string, k2: string, k3: string, now: int)
    returns (r1: Result<Settlement, Error>, r2: Result<Settlement, Error>,
             r3: Result<Settlement, Error>, after: Tables)
    requires UniqueKeys(t.events)
    requires orderId < |t.orders| && t.orders[orderId].productId in t.products
    requires t.orders[orderId].status != Paid
    requires !Blank(k1) && !Blank(k2) && !Blank(k3) && k1 != k2 && k2 != k3 && k1 != k3
    requires FindByKey(t.events, k1).None? && FindByKey(t.events, k2).None? && FindByKey(t.events, k3).None?
    ensures r1 == Ok(Handled(Paid)) && r2 == Ok(Handled(OrderStatus.Canceled)) && r3 == Ok(Handled(Paid))
    ensures var pid := t.orders[orderId].productId;
            pid in after.products
            && after.products[pid].stockSold == t.products[pid].stockSold + 2 * t.orders[orderId].qty
  {
    var store := new Store(t);
    var o, pid := t.orders[orderId], t.orders[orderId].productId;
    var sold := t.products[pid].stockSold;
    assert store.Applies(orderId, k1);
    r1 := store.Settle(orderId, Success, k1, "", now);
    assert store.orders[orderId] == o.(status := Paid);
    assert store.products[pid].stockSold == sold + o.qty;
    assert FindByKey(store.events, k2).None? by {
      assert store.events == t.events + [store.events[|t.events|]] && store.events[|t.events|].key == k1;
    }
    assert store.Applies(orderId, k2);
    r2 := store.Settle(orderId, Failure, k2, "", now);
    assert store.orders[orderId] == o.(status := OrderStatus.Canceled);
    assert store.products[pid].stockSold == sold + o.qty;
    assert FindByKey(store.events, k3).None? by {
      assert store.events == t.events + [store.events[|t.events|], store.events[|t.events| + 1]];
      assert store.events[|t.events|].key == k1 && store.events[|t.events| + 1].key == k2;
    }
    assert store.Applies(orderId, k3);
    r3 := store.Settle(orderId, Success, k3, "", now);
    assert store.products[pid].stockSold == sold + 2 * o.qty;
    after := store.Snapshot();
  }
}
