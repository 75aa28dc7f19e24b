/** The orders database: order rows, saga rows and the ids of consumed events. */
module OrderStore {
  import opened Types

  datatype OrderDb = OrderDb(
    orders: map<OrderId, Order>,
    sagas: map<SagaId, Saga>,
    processed: set<MsgId>)

  // ----- what consuming an event means, as one table -----

  /** Where an effective event leaves its saga and its order; None leaves a column as it is. */
  datatype Target = Target(step: SagaStep, status: Option<SagaStatus>, order: Option<OrderStatus>)

  function TargetOf(ev: Message): Target
    requires ev.IsEvent()
  {
    match ev
    case InventoryReserved(_, _, _, _, ok) =>
      if ok then Target(ProcessingPayment, None, Some(OrderInventoryReserved))
      else Target(Done, Some(Failed), Some(OrderFailed))
    case PaymentProcessed(_, _, _, ok) =>
      if ok then Target(Done, Some(Completed), Some(OrderConfirmed))
      else Target(ReleasingInventory, Some(Compensating), Some(OrderFailed))
    case InventoryReleased(_, _, _, _, ok) =>
      if ok then Target(Done, Some(Compensated), Some(OrderCompensated))
      else Target(Done, Some(Failed), None)
  }

  /** The saga is at the step this event answers. */
  predicate Awaits(saga: Saga, ev: Message)
    requires ev.IsEvent()
  {
    saga.step == ev.Answers() && (ev.InventoryReleased? ==> saga.status == Compensating)
  }

  /** The transaction loads the order row, to compose the next command from it. */
  predicate LoadsOrder(ev: Message)
    requires ev.IsEvent()
  {
    (ev.InventoryReserved? && ev.success) || (ev.PaymentProcessed? && !ev.success)
  }

  datatype Verdict = Skipped | Applied | Rejected(error: Error)

  function Judge(db: OrderDb, id: MsgId, ev: Message): Verdict
    requires ev.IsEvent()
  {
    if id in db.processed then Skipped
    else if ev.saga !in db.sagas then Rejected(SagaNotFound)
    else if !Awaits(db.sagas[ev.saga], ev) then Skipped
    else if LoadsOrder(ev) && ev.order !in db.orders then Rejected(OrderNotFound)
    else Applied
  }

  function WithStatus(orders: map<OrderId, Order>, o: OrderId, status: OrderStatus): map<OrderId, Order> {
    if o in orders then orders[o := orders[o].(status := status)] else orders
  }

  /** The database after the transaction for one delivery; skipped and rolled back deliveries leave it alone. */
  function Consume(db: OrderDb, id: MsgId, ev: Message): OrderDb
    requires ev.IsEvent()
  {
    if Judge(db, id, ev).Applied? then
      var t, saga := TargetOf(ev), db.sagas[ev.saga];
      OrderDb(
        if t.order.Some? then WithStatus(db.orders, ev.order, t.order.value) else db.orders,
        db.sagas[ev.saga := saga.(step := t.step, status := if t.status.Some? then t.status.value else saga.status,
                                  lastEvent := Some(id))],
        db.processed + {id})
    else db
  }

  // ----- the repository -----

  datatype ReservedOutcome = ReservedOutcome(skip: bool, failed: bool, amount: int)
  datatype PaymentOutcome = PaymentOutcome(skip: bool, compensate: bool, product: ProductId, quantity: int)
  datatype ReleasedOutcome = ReleasedOutcome(skip: bool, failed: bool)

  class SagaRepository {
    var orders: map<OrderId, Order>
    var sagas: map<SagaId, Saga>
    var processed: set<MsgId>

    function Db(): OrderDb
      reads this
    {
      OrderDb(orders, sagas, processed)
    }

    constructor ()
      ensures Db() == OrderDb(map[], map[], {})
    {
      orders, sagas, processed := map[], map[], {};
    }

    method CreateOrder(id: OrderId, order: Order) returns (r: Result<()>)
      modifies this
      ensures r.Ok? <==> id !in old(orders)
      ensures r.Ok? ==> Db() == old(Db()).(orders := old(orders)[id := order.(status := OrderPending)])
      ensures r.Err? ==> Db() == old(Db())
    {
      if id in orders { return Err(DuplicateKey); }
      orders := orders[id := order.(status := OrderPending)];
      r := Ok(());
    }

    /** Saga ids are the primary key; order_id carries a unique index. */
    method Create(id: SagaId, saga: Saga) returns (r: Result<()>)
      modifies this
      ensures r.Ok? <==> id !in old(sagas) && forall s :: s in old(sagas) ==> old(sagas)[s].order != saga.order
      ensures r.Ok? ==> Db() == old(Db()).(sagas := old(sagas)[id := saga])
      ensures r.Err? ==> Db() == old(Db())
    {
      if id in sagas || exists s :: s in sagas && sagas[s].order == saga.order { return Err(DuplicateKey); }
      sagas := sagas[id := saga];
      r := Ok(());
    }

    method GetById(id: OrderId) returns (r: Result<Order>)
      ensures r == if id in orders then Ok(orders[id]) else Err(OrderNotFound)
    {
      if id in orders { return Ok(orders[id]); }
      r := Err(OrderNotFound);
    }

    method ListByStatus(status: SagaStatus) returns (rows: map<SagaId, Saga>)
      ensures forall s :: s in rows <==> s in sagas && sagas[s].status == status
      ensures forall s :: s in rows ==> rows[s] == sagas[s]
    {
      rows := map s | s in sagas && sagas[s].status == status :: sagas[s];
    }

    method CommitInventoryReserved(id: MsgId, ev: Message) returns (r: Result<ReservedOutcome>)
      requires ev.InventoryReserved?
      modifies this
      ensures Db() == Consume(old(Db()), id, ev)
      ensures match Judge(old(Db()), id, ev)
              case Skipped => r.Ok? && r.value.skip
              case Rejected(e) => r == Err(e)
              case Applied => r.Ok? && !r.value.skip && r.value.failed == !ev.success &&
                              (ev.success ==> r.value.amount == old(orders)[ev.order].amount)
    {
      if id in processed { return Ok(ReservedOutcome(true, false, 0)); }
      if ev.saga !in sagas { return Err(SagaNotFound); }
      var state := sagas[ev.saga];
      if state.step != ReservingInventory { return Ok(ReservedOutcome(true, false, 0)); }
      if !ev.success {
        orders := WithStatus(orders, ev.order, OrderFailed);
        sagas := sagas[ev.saga := state.(step := Done, status := Failed, lastEvent := Some(id))];
        r := Ok(ReservedOutcome(false, true, 0));
      } else {
        var updated := WithStatus(orders, ev.order, OrderInventoryReserved);
        if ev.order !in updated { return Err(OrderNotFound); } // rolls the status update back
        orders := updated;
        sagas := sagas[ev.saga := state.(step := ProcessingPayment, lastEvent := Some(id))];
        r := Ok(ReservedOutcome(false, false, orders[ev.order].amount));
      }
      processed := processed + {id};
    }

    method CommitPaymentProcessed(id: MsgId, ev: Message) returns (r: Result<PaymentOutcome>)
      requires ev.PaymentProcessed?
      modifies this
      ensures Db() == Consume(old(Db()), id, ev)
      ensures match Judge(old(Db()), id, ev)
              case Skipped => r.Ok? && r.value.skip
              case Rejected(e) => r == Err(e)
              case Applied => r.Ok? && !r.value.skip && r.value.compensate == !ev.success &&
                              (!ev.success ==> r.value.product == old(orders)[ev.order].product &&
                                               r.value.quantity == old(orders)[ev.order].quantity)
    {
      if id in processed { return Ok(PaymentOutcome(true, false, 0, 0)); }
      if ev.saga !in sagas { return Err(SagaNotFound); }
      var state := sagas[ev.saga];
      if state.step != ProcessingPayment { return Ok(PaymentOutcome(true, false, 0, 0)); }
      if !ev.success {
        if ev.order !in orders { return Err(OrderNotFound); }
        r := Ok(PaymentOutcome(false, true, orders[ev.order].product, orders[ev.order].quantity));
        orders := WithStatus(orders, ev.order, OrderFailed);
        sagas := sagas[ev.saga := state.(step := ReleasingInventory, status := Compensating, lastEvent := Some(id))];
      } else {
        orders := WithStatus(orders, ev.order, OrderConfirmed);
        sagas := sagas[ev.saga := state.(step := Done, status := Completed, lastEvent := Some(id))];
        r := Ok(PaymentOutcome(false, false, 0, 0));
      }
      processed := processed + {id};
    }

    method CommitInventoryReleased(id: MsgId, ev: Message) returns (r: Result<ReleasedOutcome>)
      requires ev.InventoryReleased?
      modifies this
      ensures Db() == Consume(old(Db()), id, ev)
      ensures match Judge(old(Db()), id, ev)
              case Skipped => r.Ok? && r.value.skip
              case Rejected(e) => r == Err(e)
              case Applied => r == Ok(ReleasedOutcome(false, !ev.success))
    {
      if id in processed { return Ok(ReleasedOutcome(true, false)); }
      if ev.saga !in sagas { return Err(SagaNotFound); }
      var state := sagas[ev.saga];
      if state.status != Compensating || state.step != ReleasingInventory { return Ok(ReleasedOutcome(true, false)); }
      if ev.success {
        orders := WithStatus(orders, ev.order, OrderCompensated);
        sagas := sagas[ev.saga := state.(step := Done, status := Compensated, lastEvent := Some(id))];
        r := Ok(ReleasedOutcome(false, false));
      } else {
        sagas := sagas[ev.saga := state.(step := Done, status := Failed, lastEvent := Some(id))];
        r := Ok(ReleasedOutcome(false, true));
      }
      processed := processed + {id};
    }
  }
}
