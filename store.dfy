/** The reservation and settlement engine over one in-memory store. Each
    request handler of the shop becomes one method of `Store`; each method is
    one atomic, sequential update of the four tables. */
module FlashSale {
  import opened Domain
  import opened Ledger
  import opened Expiry
  import opened Events

  class Store {
    var products: map<ProductId, Product>
    var holds: seq<Hold>
    var orders: seq<Order>
    var events: seq<PaymentEvent>

    /** The unique index on the payment events' idempotency key. */
    ghost predicate Valid()
      reads this
    {
      UniqueKeys(events)
    }

    /** Opens the store over existing tables. */
    constructor (t: Tables)
      requires UniqueKeys(t.events)
      ensures Valid()
      ensures Snapshot() == t
    {
      products, holds, orders, events := t.products, t.holds, t.orders, t.events;
    }

    /** The four tables as one value. */
    function Snapshot(): Tables
      reads this
    {
      Tables(products, holds, orders, events)
    }

    /** Availability of a stored product at `now`. */
    function AvailableAt(pid: ProductId, now: int): int
      reads this
      requires pid in products
    {
      Available(products[pid], pid, holds, now)
    }

    /** Reserves `qty` units of product `productId` for two minutes. */
    method CreateHold(productId: ProductId, qty: int, now: int) returns (r: Result<HoldTicket, Error>)
      requires Valid()
      modifies this
      ensures Valid()
      ensures products == old(products) && orders == old(orders) && events == old(events)
      // the refusals, in the order the request is checked
      ensures productId !in old(products) ==> r == Err(ProductNotFound)
      ensures productId in old(products) && qty < 1 ==> r == Err(InvalidQty)
      ensures productId in old(products) && qty >= 1 && old(AvailableAt(productId, now)) < qty
              ==> r == Err(InsufficientStock)
      ensures r.Err? ==> holds == old(holds)
      // success: one active hold appended
      ensures r.Ok? <==> productId in old(products) && qty >= 1 && old(AvailableAt(productId, now)) >= qty
      ensures r.Ok? ==> holds == old(holds) + [Hold(productId, qty as nat, Active, now + HoldTtl, now)]
      ensures r.Ok? ==> r.value == HoldTicket(|old(holds)|, now + HoldTtl)
      // the availability bound
      ensures r.Ok? ==> AvailableAt(productId, now) == old(AvailableAt(productId, now)) - qty >= 0
      ensures forall q :: q in products && q != productId ==> AvailableAt(q, now) == old(AvailableAt(q, now))
    {
      if productId !in products {
        return Err(ProductNotFound);
      }
      if qty < 1 {
        return Err(InvalidQty);
      }
      var product := products[productId];
      var activeHoldsQty := ReservedQty(holds, productId, now);
      var available := product.stockTotal - product.stockSold - activeHoldsQty;
      if available < qty {
        return Err(InsufficientStock);
      }
      var hold := Hold(productId, qty as nat, Active, now + HoldTtl, now);
      forall q | q in products {
        ReservedAppend(holds, hold, q, now);
      }
      holds := holds + [hold];
      r := Ok(HoldTicket(|holds| - 1, hold.expiresAt));
    }

    /** Turns a live hold into a pending order and consumes the hold. */
    method CreateOrder(holdId: HoldId, now: int) returns (r: Result<OrderTicket, Error>)
      requires Valid()
      modifies this
      ensures Valid()
      ensures products == old(products) && events == old(events)
      // the refusals, in the order the request is checked
      ensures holdId >= |old(holds)| ==> r == Err(HoldNotFound)
      ensures holdId < |old(holds)| && old(holds[holdId]).status != Active ==> r == Err(HoldNotActive)
      ensures holdId < |old(holds)| && old(holds[holdId]).status == Active && old(holds[holdId]).expiresAt <= now
              ==> r == Err(HoldExpired)
      ensures holdId < |old(holds)| && old(holds[holdId]).status == Active && old(holds[holdId]).expiresAt > now
              && old(holds[holdId]).productId !in old(products)
              ==> r == Err(ProductNotFound)
      ensures r.Err? ==> holds == old(holds) && orders == old(orders)
      // success: one pending order appended, the hold marked used
      ensures r.Ok? <==> holdId < |old(holds)| && Reserves(old(holds[holdId]), old(holds[holdId]).productId, now)
                         && old(holds[holdId]).productId in old(products)
      ensures r.Ok? ==>
                var h := old(holds[holdId]);
                && orders == old(orders) + [Order(h.productId, holdId, h.qty, old(products)[h.productId].price * h.qty, Pending)]
                && holds == old(holds)[holdId := h.(status := Used)]
                && r.value == OrderTicket(|old(orders)|, Pending)
      // a used hold no longer reserves stock: the product's availability goes back up
      ensures r.Ok? ==>
                var pid := old(holds[holdId]).productId;
                AvailableAt(pid, now) == old(AvailableAt(pid, now)) + old(holds[holdId]).qty
      ensures forall q :: q in products && (holdId >= |old(holds)| || q != old(holds[holdId]).productId)
                ==> AvailableAt(q, now) == old(AvailableAt(q, now))
    {
      if holdId >= |holds| {
        return Err(HoldNotFound);
      }
      var hold := holds[holdId];
      if hold.status != Active {
        return Err(HoldNotActive);
      }
      if hold.expiresAt <= now {
        return Err(HoldExpired);
      }
      if hold.productId !in products {
        return Err(ProductNotFound);
      }
      var product := products[hold.productId];
      var totalPrice := product.price * hold.qty;
      orders := orders + [Order(hold.productId, holdId, hold.qty, totalPrice, Pending)];
      forall q | q in products {
        ReservedUpdate(holds, holdId, hold.(status := Used), q, now);
      }
      holds := holds[holdId := hold.(status := Used)];
      r := Ok(OrderTicket(|orders| - 1, Pending));
    }

    /** Whether a webhook call for `orderId` under `key` gets past every
        check and is applied: the order exists, the key is not blank and not
        yet recorded, and the order's product exists. */
    predicate Applies(orderId: OrderId, key: string)
      reads this
    {
      orderId < |orders| && !Blank(key) && FindByKey(events, key).None?
      && orders[orderId].productId in products
    }

    /** The payment webhook: applies `outcome` to order `orderId` at most once
        per idempotency key, and records the call. */
    method Settle(orderId: OrderId, outcome: Outcome, key: string, rawPayload: string, now: int)
      returns (r: Result<Settlement, Error>)
      requires Valid()
      modifies this
      ensures Valid()
      // the refusals and the replay, in the order the request is checked
      ensures orderId >= |old(orders)| ==> r == Err(OrderNotFound)
      ensures orderId < |old(orders)| && Blank(key) ==> r == Err(MissingKey)
      ensures orderId < |old(orders)| && !Blank(key) && FindByKey(old(events), key).Some?
              ==> r == Ok(AlreadyProcessed(old(events)[FindByKey(old(events), key).value].status))
      ensures orderId < |old(orders)| && !Blank(key) && FindByKey(old(events), key).None?
              && old(orders[orderId]).productId !in old(products)
              ==> r == Err(ProductNotFound)
      ensures !old(Applies(orderId, key)) ==> Snapshot() == old(Snapshot())
      // an applied call records its event and answers the order's final status
      ensures old(Applies(orderId, key)) <==> r.Ok? && r.value.Handled?
      ensures old(Applies(orderId, key)) ==>
                && events == old(events) + [PaymentEvent(orderId, key, outcome, rawPayload, now)]
                && FindByKey(events, key) == Some(|old(events)|)
                && r == Ok(Handled(if outcome == Success then Paid else OrderStatus.Canceled))
      // success on an order not yet paid: paid, sold once more, hold completed
      ensures old(Applies(orderId, key)) && outcome == Success && old(orders[orderId]).status != Paid ==>
                var o := old(orders[orderId]);
                var p := old(products[o.productId]);
                && orders == old(orders)[orderId := o.(status := Paid)]
                && products == old(products)[o.productId := p.(stockSold := p.stockSold + o.qty)]
                && holds == if o.holdId < |old(holds)| && old(holds[o.holdId]).status != Completed
                            then old(holds)[o.holdId := old(holds[o.holdId]).(status := Completed)]
                            else old(holds)
      // success on an order already paid: nothing but the event
      ensures old(Applies(orderId, key)) && outcome == Success && old(orders[orderId]).status == Paid ==>
                orders == old(orders) && products == old(products) && holds == old(holds)
      // failure: no stock effect, order canceled, an active or used hold canceled
      ensures old(Applies(orderId, key)) && outcome == Failure ==>
                var o := old(orders[orderId]);
                && products == old(products)
                && orders == old(orders)[orderId := o.(status := OrderStatus.Canceled)]
                && holds == if o.holdId < |old(holds)| && old(holds[o.holdId]).status in {Active, Used}
                            then old(holds)[o.holdId := old(holds[o.holdId]).(status := HoldStatus.Canceled)]
                            else old(holds)
    {
      if orderId >= |orders| {
        return Err(OrderNotFound);
      }
      if Blank(key) {
        return Err(MissingKey);
      }
      var existing := FindByKey(events, key);
      if existing.Some? {
        return Ok(AlreadyProcessed(events[existing.value].status));
      }
      var order := orders[orderId];
      var holdFound := order.holdId < |holds|;
      if order.productId !in products {
        return Err(ProductNotFound);
      }
      var product := products[order.productId];

      if outcome == Success {
        if order.status != Paid {
          order := order.(status := Paid);
          orders := orders[orderId := order];
          product := product.(stockSold := product.stockSold + order.qty);
          products := products[order.productId := product];
          if holdFound && holds[order.holdId].status != Completed {
            holds := holds[order.holdId := holds[order.holdId].(status := Completed)];
          }
        }
      } else {
        if order.status != OrderStatus.Canceled {
          order := order.(status := OrderStatus.Canceled);
          orders := orders[orderId := order];
        }
        if holdFound && holds[order.holdId].status in {Active, Used} {
          holds := holds[order.holdId := holds[order.holdId].(status := HoldStatus.Canceled)];
        }
      }

      var event := PaymentEvent(orderId, key, outcome, rawPayload, now);
      RecordFresh(events, event);
      events := events + [event];
      r := Ok(Handled(order.status));
    }

    /** The expiration sweep: demotes every active hold whose time is up. */
    method SweepExpired(now: int)
      requires Valid()
      modifies this
      ensures Valid()
      ensures products == old(products) && orders == old(orders) && events == old(events)
      ensures holds == SweptAll(old(holds), now)
      ensures forall pid :: pid in products ==> AvailableAt(pid, now) == old(AvailableAt(pid, now))
    {
      var due := DueIndices(holds, now);
      for j := 0 to |due|
        invariant products == old(products) && orders == old(orders) && events == old(events)
        invariant |holds| == |old(holds)|
        invariant forall k :: 0 <= k < |holds| ==>
                    holds[k] == if k in due[..j] then Swept(old(holds)[k], now) else old(holds)[k]
      {
        var id := due[j];
        assert id in due;
        assert due[..j + 1] == due[..j] + [id];
        holds := holds[id := holds[id].(status := Expired)];
      }
      assert due[..|due|] == due;
      assert forall k :: 0 <= k < |holds| ==> holds[k] == SweptAll(old(holds), now)[k];
      forall pid | pid in products {
        SweepKeepsAvailable(products[pid], pid, old(holds), now, now);
      }
    }
  }
}
