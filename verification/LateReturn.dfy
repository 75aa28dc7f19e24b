/**
 * "A saga that failed during its release has no release entry" is not a property of the code either: the release
 * command delivered again finds no entry and commits. One order, one unit: the payment is declined, the release
 * reports an error, the saga fails, and the redelivered command then gives the unit back.
 */
module LateReturn {
  import opened Types
  import opened OrderStore
  import opened InventoryStore
  import opened PaymentStore
  import opened Protocol
  import opened Runs
  import opened LateGrant

  const TheOrder := Order(0, 1, 100, OrderPending)
  const Reserve1 := ReserveInventory(0, 0, 0, 1)
  const Reserved1 := InventoryReserved(0, 0, 0, 1, true)
  const Pay1 := ProcessPayment(0, 0, 100)
  const Declined1 := PaymentProcessed(0, 0, 7, false)
  const Release1 := ReleaseInventory(0, 0, 0, 1)
  const NotReleased1 := InventoryReleased(0, 0, 0, 1, false)

  ghost predicate Idle(w: World) {
    w.reserving == map[] && w.releasing == map[] && w.paying == map[]
  }

  lemma OneOrder() returns (w: World)
    ensures Reachable(w) && w.budget == 1 && Idle(w)
    ensures w.st.orderDb == OrderDb(map[0 := TheOrder], map[0 := Saga(0, ReservingInventory, InProgress, None)], {})
    ensures w.st.inv == InventoryDb(map[0 := Inventory(1, 0, 0)], []) && w.st.pay == PaymentDb(map[], {})
    ensures w.sent == map[0 := Reserve1] && w.owed == multiset{} && w.st.supply == map[0 := 1]
  {
    hide Reachable;
    w := Initial(1);
    Start(w);
    w := Reach(w, CreateSku(0, 1));
    w := Reach(w, CreateOrder(0, 0, 1, 100));
    w := Reach(w, StartSaga(0, 0));
    w := Reach(w, Send(Reserve1, 0));
  }

  const Taken := InventoryDb(map[0 := Inventory(0, 1, 1)], [LogEntry(0, 0, Reserve, 1)])

  lemma Granted() returns (w: World)
    ensures Reachable(w) && Idle(w)
    ensures w.st.orderDb == OrderDb(map[0 := TheOrder], map[0 := Saga(0, ReservingInventory, InProgress, None)], {})
    ensures w.st.inv == Taken && w.st.pay == PaymentDb(map[], {}) && w.st.supply == map[0 := 1]
    ensures w.sent == map[0 := Reserve1] && Publish(Reserved1) in w.owed
  {
    hide Reachable;
    w := OneOrder();
    w := Reach(w, ReserveStart(0));
    w := Reach(w, ReserveRead(0));
    w := Reach(w, ReserveWrite(0));
    assert w.st.inv.logs == [LogEntry(0, 0, Reserve, 1)];
  }

  lemma Charging() returns (w: World)
    ensures Reachable(w) && Idle(w)
    ensures w.st.orderDb.orders.Keys == {0} && w.st.orderDb.orders[0] == TheOrder.(status := OrderInventoryReserved)
    ensures w.st.orderDb.sagas == map[0 := Saga(0, ProcessingPayment, InProgress, Some(1))] &&
      w.st.orderDb.processed == {1}
    ensures w.st.inv == Taken && w.st.pay == PaymentDb(map[], {}) && w.st.supply == map[0 := 1]
    ensures w.sent == map[0 := Reserve1, 1 := Reserved1, 2 := Pay1]
  {
    hide Reachable;
    w := Granted();
    w := Reach(w, Send(Reserved1, 1));
    w := Reach(w, HandleEvent(1));
    w := Reach(w, Send(Pay1, 2));
  }

  lemma Refusing() returns (w: World)
    ensures Reachable(w) && Idle(w)
    ensures w.st.orderDb.orders.Keys == {0} && w.st.orderDb.orders[0] == TheOrder.(status := OrderInventoryReserved)
    ensures w.st.orderDb.sagas == map[0 := Saga(0, ProcessingPayment, InProgress, Some(1))] &&
      w.st.orderDb.processed == {1}
    ensures w.st.inv == Taken && 0 in w.st.pay.payments && w.st.supply == map[0 := 1]
    ensures w.sent == map[0 := Reserve1, 1 := Reserved1, 2 := Pay1] && Publish(Declined1) in w.owed
  {
    hide Reachable;
    w := Charging();
    w := Reach(w, PayStart(0, 2));
    w := Reach(w, PayRead(0));
    w := Reach(w, PayWrite(0, 7, false));
  }

  /** The payment was declined and the release command is out. */
  lemma Returning() returns (w: World)
    ensures Reachable(w) && Idle(w)
    ensures 0 in w.st.orderDb.orders && 0 in w.st.pay.payments
    ensures w.st.orderDb.sagas == map[0 := Saga(0, ReleasingInventory, Compensating, Some(3))] &&
      w.st.orderDb.processed == {1, 3}
    ensures w.st.inv == Taken && w.st.supply == map[0 := 1]
    ensures w.sent == map[0 := Reserve1, 1 := Reserved1, 2 := Pay1, 3 := Declined1, 4 := Release1]
  {
    hide Reachable;
    w := Refusing();
    w := Reach(w, Send(Declined1, 3));
    w := Reach(w, HandleEvent(3));
    w := Reach(w, Send(Release1, 4));
  }

  lemma Erring() returns (w: World)
    ensures Reachable(w) && Idle(w)
    ensures 0 in w.st.orderDb.orders && 0 in w.st.pay.payments
    ensures w.st.orderDb.sagas == map[0 := Saga(0, ReleasingInventory, Compensating, Some(3))] &&
      w.st.orderDb.processed == {1, 3}
    ensures w.st.inv == Taken && w.sent.Keys == {0, 1, 2, 3, 4} && w.sent[4] == Release1 &&
      Publish(NotReleased1) in w.owed
  {
    hide Reachable;
    w := Returning();
    w := Reach(w, ReleaseStart(4));
    w := Reach(w, ReleaseError(0));
  }

  lemma NotReturned() returns (w: World)
    ensures Reachable(w) && Idle(w)
    ensures 0 in w.st.orderDb.orders && 0 in w.st.pay.payments
    ensures w.st.orderDb.sagas == map[0 := Saga(0, Done, SagaStatus.Failed, Some(5))]
    ensures w.st.inv == Taken && 4 in w.sent && w.sent[4] == Release1
  {
    hide Reachable;
    w := Erring();
    w := Reach(w, Send(NotReleased1, 5));
    w := Reach(w, HandleEvent(5));
  }

  /** A reachable world with a saga that failed during its release and whose order has a release entry. */
  lemma StuckSagaCanHaveReturned() returns (w: World)
    ensures Reachable(w)
    ensures 0 in w.st.orderDb.sagas && w.st.orderDb.sagas[0].order == 0 && 0 in w.st.pay.payments
    ensures w.st.orderDb.sagas[0].step == Done && w.st.orderDb.sagas[0].status == SagaStatus.Failed
    ensures LogEntry(0, 0, Reserve, 1) in w.st.inv.logs && LogEntry(0, 0, Release, 1) in w.st.inv.logs
  {
    hide Reachable;
    w := NotReturned();
    w := Reach(w, ReleaseStart(4));
    w := Reach(w, ReleaseWrite(0));
    assert w.st.inv.logs == [LogEntry(0, 0, Reserve, 1)] + [LogEntry(0, 0, Release, 1)];
  }

  /** A reachable world with an order that has no saga: the service died between placing it and starting one. */
  lemma OrderCanLackSaga() returns (w: World)
    ensures Reachable(w) && 0 in w.st.orderDb.orders && w.st.orderDb.sagas == map[]
  {
    hide Reachable;
    w := Initial(1);
    Start(w);
    w := Reach(w, CreateOrder(0, 0, 1, 100));
  }
}
