/** Every change a step makes to the three databases keeps them consistent and only adds facts. */
module StoreSteps {
  import opened Types
  import opened OrderStore
  import opened InventoryStore
  import opened PaymentStore
  import opened Protocol
  import opened Invariant

  ghost predicate Kept(a: Stores, b: Stores, budget: int) {
    StoresOk(b, budget) && Grows(a, b)
  }

  // ----- shared arguments, one per part of the invariant -----

  ghost predicate SameSagas(a: Stores, b: Stores) {
    && b.orderDb.sagas == a.orderDb.sagas
    && forall o :: o in a.orderDb.orders ==>
         o in b.orderDb.orders && b.orderDb.orders[o].status == a.orderDb.orders[o].status
  }

  lemma RowsKept(a: Stores, b: Stores)
    requires RowsOk(a) && b.orderDb.sagas.Keys == a.orderDb.sagas.Keys
    requires forall s :: s in a.orderDb.sagas ==> b.orderDb.sagas[s].order == a.orderDb.sagas[s].order
    requires forall o :: o in b.orderDb.orders ==>
      && b.orderDb.orders[o].quantity >= 1
      && (o !in Owners(a.orderDb) ==> b.orderDb.orders[o].status == OrderPending)
    requires b.pay.payments.Keys <= Owners(a.orderDb) && Logged(b.inv.logs, Reserve) <= Owners(a.orderDb)
    ensures RowsOk(b)
  {
    assert Owners(b.orderDb) == Owners(a.orderDb);
  }

  /** A saga whose own rows did not change stays consistent when facts are only added. */
  lemma SagaKept(a: Stores, b: Stores, s: SagaId)
    requires FactsGrow(a, b) && s in a.orderDb.sagas && SagaOk(a, s)
    requires s in b.orderDb.sagas && b.orderDb.sagas[s] == a.orderDb.sagas[s]
    requires var o := a.orderDb.sagas[s].order;
      && (o in a.orderDb.orders ==> o in b.orderDb.orders && b.orderDb.orders[o].status == a.orderDb.orders[o].status)
      && (GaveBack(b, o) ==> GaveBack(a, o) || Late(a, s))
      && (o in b.pay.payments ==> o in a.pay.payments || a.orderDb.sagas[s].step == ProcessingPayment)
    ensures SagaOk(b, s) && SagaGrows(a, b, s)
  {
    var o := a.orderDb.sagas[s].order;
    if Refused(a, o) {
      var i :| 0 <= i < |a.answers[o]| && !a.answers[o][i];
      assert !b.answers[o][i];
    }
  }

  lemma SagasKept(a: Stores, b: Stores)
    requires SagasOk(a) && FactsGrow(a, b) && SameSagas(a, b)
    requires forall s :: s in a.orderDb.sagas ==>
      var o := a.orderDb.sagas[s].order;
      && (o in Logged(b.inv.logs, Release) ==> o in Logged(a.inv.logs, Release) || Late(a, s))
      && (o in b.pay.payments ==> o in a.pay.payments || a.orderDb.sagas[s].step == ProcessingPayment)
    ensures SagasOk(b) && SagasGrow(a, b)
  {
    forall s | s in a.orderDb.sagas ensures SagaOk(b, s) && SagaGrows(a, b, s) {
      assert SagaOk(a, s);
      SagaKept(a, b, s);
    }
  }

  lemma PaymentsKept(a: Stores, b: Stores)
    requires PaymentsOk(a) && FactsGrow(a, b)
    requires forall o :: o in b.pay.payments ==> o in a.pay.payments || Charged(b, o) || Declined(b, o)
    requires forall o :: o in Logged(b.inv.logs, Release) ==>
      o in Logged(a.inv.logs, Release) || (Holds(b, o) && Declined(b, o))
    ensures PaymentsOk(b)
  {}

  /** The ledger and the answers read only the immutable columns of an order. */
  lemma LedgerKept(a: Stores, b: Stores, budget: int)
    requires StockOk(a) && AnswersOk(a) && RefusalsOk(a, budget) && OrdersGrow(a, b)
    requires b.inv == a.inv && b.supply == a.supply && b.answers == a.answers
    ensures StockOk(b) && AnswersOk(b) && RefusalsOk(b, budget)
  {
    LogOkMonotone(a.inv.logs, a.orderDb.orders, b.orderDb.orders);
    forall o | Refused(b, o) ensures RefusalFair(b, budget, o) {
      assert RefusalFair(a, budget, o);
    }
  }

  // ----- a new product -----

  lemma SkuStock(a: Stores, b: Stores, budget: int, p: ProductId, qty: int)
    requires RowsOk(a) && StockOk(a) && AnswersOk(a) && RefusalsOk(a, budget) && p !in a.inv.rows && qty >= 0
    requires b == a.(inv := a.inv.(rows := a.inv.rows[p := Inventory(qty, 0, 0)]), supply := a.supply[p := qty])
    ensures StockOk(b) && AnswersOk(b) && RefusalsOk(b, budget)
    ensures OrdersGrow(a, b) && FactsGrow(a, b) && StockGrows(a, b)
  {
    hide RefusalsOk, Net, Count;
    SkuRefusals(a, b, budget, p, qty);
  }

  lemma SkuRefusals(a: Stores, b: Stores, budget: int, p: ProductId, qty: int)
    requires RowsOk(a) && StockOk(a) && RefusalsOk(a, budget) && p !in a.inv.rows && qty >= 0
    requires b == a.(inv := a.inv.(rows := a.inv.rows[p := Inventory(qty, 0, 0)]), supply := a.supply[p := qty])
    ensures RefusalsOk(b, budget)
  {
    hide LogOk, Net, Count;
    forall o | Refused(b, o) ensures RefusalFair(b, budget, o) {
      assert RefusalFair(a, budget, o);
    }
  }

  lemma SkuStep(a: Stores, b: Stores, budget: int, p: ProductId, qty: int)
    requires StoresOk(a, budget) && p !in a.inv.rows && qty >= 0
    requires b == a.(inv := a.inv.(rows := a.inv.rows[p := Inventory(qty, 0, 0)]), supply := a.supply[p := qty])
    ensures Kept(a, b, budget)
  {
    hide StockOk, AnswersOk, RefusalsOk, PaymentsOk, SagasOk, SagasGrow;
    SkuStock(a, b, budget, p, qty);
    RowsKept(a, b);
    SagasKept(a, b);
    PaymentsKept(a, b);
  }

  // ----- a new order -----

  lemma OrderStep(a: Stores, b: Stores, budget: int, o: OrderId, order: Order)
    requires StoresOk(a, budget) && o !in a.orderDb.orders && order.quantity >= 1 && order.status == OrderPending
    requires b == a.(orderDb := a.orderDb.(orders := a.orderDb.orders[o := order]))
    ensures Kept(a, b, budget)
  {
    hide StockOk, AnswersOk, RefusalsOk, PaymentsOk, SagasOk;
    LedgerKept(a, b, budget);
    RowsKept(a, b);
    SagasKept(a, b);
    PaymentsKept(a, b);
  }

  // ----- a new saga -----

  lemma NewSagaRows(a: Stores, b: Stores, s: SagaId, o: OrderId)
    requires RowsOk(a) && s !in a.orderDb.sagas && o !in Owners(a.orderDb)
    requires b == a.(orderDb := a.orderDb.(
      sagas := a.orderDb.sagas[s := Saga(o, ReservingInventory, InProgress, None)]))
    ensures RowsOk(b)
  {
    forall t | t in a.orderDb.sagas
      ensures b.orderDb.sagas[t].order in Owners(b.orderDb) && b.orderDb.sagas[t].order != o
    {
      assert a.orderDb.sagas[t].order in Owners(a.orderDb);
    }
  }

  lemma NewSagaOk(a: Stores, b: Stores, s: SagaId, o: OrderId)
    requires RowsOk(a) && PaymentsOk(a) && o in a.orderDb.orders && o !in Owners(a.orderDb)
    requires b == a.(orderDb := a.orderDb.(
      sagas := a.orderDb.sagas[s := Saga(o, ReservingInventory, InProgress, None)]))
    ensures SagaOk(b, s)
  {}

  lemma NewSagaStep(a: Stores, b: Stores, budget: int, s: SagaId, o: OrderId)
    requires StoresOk(a, budget) && s !in a.orderDb.sagas && o in a.orderDb.orders && o !in Owners(a.orderDb)
    requires b == a.(orderDb := a.orderDb.(
      sagas := a.orderDb.sagas[s := Saga(o, ReservingInventory, InProgress, None)]))
    ensures Kept(a, b, budget)
  {
    hide RowsOk, StockOk, AnswersOk, RefusalsOk, PaymentsOk, SagaOk, SagaGrows;
    LedgerKept(a, b, budget);
    NewSagaRows(a, b, s, o);
    NewSagaOk(a, b, s, o);
    PaymentsKept(a, b);
    forall t | t in a.orderDb.sagas ensures SagaOk(b, t) && SagaGrows(a, b, t) {
      SagaKept(a, b, t);
    }
  }

  // ----- a consumed event -----

  lemma EventSaga(a: Stores, b: Stores, id: MsgId, ev: Message, s: SagaId)
    requires RowsOk(a) && SagasOk(a) && PaymentsOk(a) && FactsGrow(a, b) && s in a.orderDb.sagas
    requires ev.IsEvent() && Justified(a, ev) && Judge(a.orderDb, id, ev).Applied?
    requires b == a.(orderDb := Consume(a.orderDb, id, ev))
    ensures s in b.orderDb.sagas && SagaOk(b, s) && SagaGrows(a, b, s)
  {
    assert SagaOk(a, s) && SagaOk(a, ev.saga);
    if s != ev.saga {
      assert a.orderDb.sagas[s].order != ev.order;
      SagaKept(a, b, s);
    }
  }

  lemma EventRows(a: Stores, b: Stores, id: MsgId, ev: Message)
    requires RowsOk(a) && ev.IsEvent() && ev.order in Owners(a.orderDb) && Judge(a.orderDb, id, ev).Applied?
    requires b == a.(orderDb := Consume(a.orderDb, id, ev))
    ensures RowsOk(b) && OrdersGrow(a, b) && FactsGrow(a, b) && StockGrows(a, b)
    ensures b.orderDb.sagas.Keys == a.orderDb.sagas.Keys
  {
    RowsKept(a, b);
  }

  lemma EventStep(a: Stores, b: Stores, budget: int, id: MsgId, ev: Message)
    requires StoresOk(a, budget) && ev.IsEvent() && Justified(a, ev) && Judge(a.orderDb, id, ev).Applied?
    requires b == a.(orderDb := Consume(a.orderDb, id, ev))
    ensures Kept(a, b, budget)
  {
    hide RowsOk, StockOk, AnswersOk, RefusalsOk, PaymentsOk, SagaOk, SagaGrows;
    hide OrdersGrow, FactsGrow, StockGrows;
    assert a.orderDb.sagas[ev.saga].order == ev.order;
    EventRows(a, b, id, ev);
    PaymentsKept(a, b);
    LedgerKept(a, b, budget);
    forall s | s in a.orderDb.sagas ensures SagaOk(b, s) && SagaGrows(a, b, s) {
      EventSaga(a, b, id, ev, s);
    }
  }

  // ----- an answer to a reserve command -----

  lemma RisingAppend(xs: seq<bool>, x: bool)
    requires Rising(xs) && (true in xs ==> x)
    ensures Rising(xs + [x])
    ensures (false in xs + [x] <==> false in xs || !x) && (true in xs + [x] <==> true in xs || x)
  {}

  lemma AnswerAnswers(a: Stores, b: Stores, budget: int, o: OrderId, ok: bool)
    requires AnswersOk(a) && RefusalsOk(a, budget) && o in a.orderDb.orders
    requires if ok then Holds(a, o) else !Holds(a, o) && RefusalFair(a, budget, o)
    requires b == a.(answers := a.answers[o := Protocol.Append(a.answers, o, ok)])
    ensures AnswersOk(b) && RefusalsOk(b, budget) && (!ok ==> Refused(b, o))
    ensures OrdersGrow(a, b) && FactsGrow(a, b) && StockGrows(a, b)
  {
    RisingAppend(if o in a.answers then a.answers[o] else [], ok);
    forall q | Refused(b, q) ensures RefusalFair(b, budget, q) {
      assert RefusalFair(a, budget, q);
    }
  }

  lemma AnswerStock(a: Stores, b: Stores)
    requires StockOk(a) && b.inv == a.inv && b.orderDb == a.orderDb && b.supply == a.supply
    ensures StockOk(b)
  {}

  lemma AnswerStep(a: Stores, b: Stores, budget: int, o: OrderId, ok: bool)
    requires StoresOk(a, budget) && o in a.orderDb.orders
    requires if ok then Holds(a, o) else !Holds(a, o) && RefusalFair(a, budget, o)
    requires b == a.(answers := a.answers[o := Protocol.Append(a.answers, o, ok)])
    ensures Kept(a, b, budget)
    ensures !ok ==> Refused(b, o)
  {
    hide StockOk, AnswersOk, RefusalsOk, PaymentsOk, SagasOk, SagasGrow, OrdersGrow, FactsGrow, StockGrows;
    AnswerAnswers(a, b, budget, o, ok);
    AnswerStock(a, b);
    RowsKept(a, b);
    SagasKept(a, b);
    PaymentsKept(a, b);
  }

  // ----- a granted reservation, with its answer -----

  lemma ReserveStock(a: Stores, b: Stores, p: ProductId, o: OrderId, version: int, qty: int)
    requires RowsOk(a) && StockOk(a) && Copies(a, o, p, qty) && !Holds(a, o)
    requires CanReserve(a.inv, p, version, qty)
    requires b.orderDb == a.orderDb && b.supply == a.supply && b.inv == ReserveIn(a.inv, p, o, version, qty)
    ensures StockOk(b) && StockGrows(a, b)
    ensures Logged(b.inv.logs, Reserve) == Logged(a.inv.logs, Reserve) + {o}
    ensures Logged(b.inv.logs, Release) == Logged(a.inv.logs, Release)
  {
    var e := LogEntry(p, o, Reserve, qty);
    LoggedAppend(a.inv.logs, e, Reserve);
    LoggedAppend(a.inv.logs, e, Release);
    AppendOk(a.inv.logs, e, a.orderDb.orders);
    forall q ensures Net(b.inv.logs, q) == Net(a.inv.logs, q) + (if q == p then qty else 0)
              && Count(b.inv.logs, q) == Count(a.inv.logs, q) + (if q == p then 1 else 0) {
      EntryAppended(a.inv.logs, e, q);
    }
    forall q | q in b.inv.rows ensures RowOk(b, q) {
      assert RowOk(a, q);
    }
  }

  lemma ReserveRefusals(a: Stores, b: Stores, budget: int, p: ProductId, o: OrderId, version: int, qty: int)
    requires AnswersOk(a) && RefusalsOk(a, budget) && o in a.orderDb.orders && qty >= 1
    requires CanReserve(a.inv, p, version, qty)
    requires b == a.(inv := ReserveIn(a.inv, p, o, version, qty),
                     answers := a.answers[o := Protocol.Append(a.answers, o, true)])
    requires Logged(b.inv.logs, Reserve) == Logged(a.inv.logs, Reserve) + {o}
    ensures AnswersOk(b) && RefusalsOk(b, budget)
  {
    RisingAppend(if o in a.answers then a.answers[o] else [], true);
    forall q | Refused(b, q) ensures RefusalFair(b, budget, q) {
      assert RefusalFair(a, budget, q);
      var r := a.orderDb.orders[q].product;
      if NoReleases(b.inv.logs, r) {
        forall i | 0 <= i < |a.inv.logs| && a.inv.logs[i].product == r ensures a.inv.logs[i].action == Reserve {
          assert b.inv.logs[i] == a.inv.logs[i];
        }
      }
    }
  }

  lemma ReserveFacts(a: Stores, b: Stores, budget: int, p: ProductId, o: OrderId, version: int, qty: int)
    requires CanReserve(a.inv, p, version, qty)
    requires b == a.(inv := ReserveIn(a.inv, p, o, version, qty),
                     answers := a.answers[o := Protocol.Append(a.answers, o, true)])
    ensures FactsGrow(a, b)
  {
    LoggedPrefix(a.inv.logs, b.inv.logs, Reserve);
    LoggedPrefix(a.inv.logs, b.inv.logs, Release);
  }

  lemma ReserveStep(a: Stores, b: Stores, budget: int, p: ProductId, o: OrderId, version: int, qty: int)
    requires StoresOk(a, budget) && o in Owners(a.orderDb) && Copies(a, o, p, qty) && !Holds(a, o)
    requires CanReserve(a.inv, p, version, qty)
    requires b == a.(inv := ReserveIn(a.inv, p, o, version, qty),
                     answers := a.answers[o := Protocol.Append(a.answers, o, true)])
    ensures Kept(a, b, budget)
  {
    hide AnswersOk, StockOk, StockGrows, FactsGrow, RefusalsOk, PaymentsOk, SagasOk, SagasGrow;
    ReserveFacts(a, b, budget, p, o, version, qty);
    ReserveStock(a, b, p, o, version, qty);
    ReserveRefusals(a, b, budget, p, o, version, qty);
    RowsKept(a, b);
    SagasKept(a, b);
    PaymentsKept(a, b);
  }

  // ----- a release -----

  lemma ReleaseStock(a: Stores, b: Stores, p: ProductId, o: OrderId, qty: int)
    requires RowsOk(a) && StockOk(a) && Copies(a, o, p, qty) && Holds(a, o) && !GaveBack(a, o)
    requires b == a.(inv := ReleaseIn(a.inv, p, o, qty))
    ensures StockOk(b) && StockGrows(a, b)
    ensures b.inv.logs == a.inv.logs + [LogEntry(p, o, Release, qty)]
    ensures Logged(b.inv.logs, Release) == Logged(a.inv.logs, Release) + {o}
    ensures Logged(b.inv.logs, Reserve) == Logged(a.inv.logs, Reserve)
  {
    var e := LogEntry(p, o, Release, qty);
    LoggedAppend(a.inv.logs, e, Reserve);
    LoggedAppend(a.inv.logs, e, Release);
    AppendOk(a.inv.logs, e, a.orderDb.orders);
    NetCovers(a.inv.logs, a.orderDb.orders, o);
    forall q ensures Net(b.inv.logs, q) == Net(a.inv.logs, q) - (if q == p then qty else 0)
              && Count(b.inv.logs, q) == Count(a.inv.logs, q) + (if q == p then 1 else 0) {
      EntryAppended(a.inv.logs, e, q);
    }
    forall q | q in b.inv.rows ensures RowOk(b, q) {
      assert RowOk(a, q);
    }
  }

  lemma ReleaseAnswers(a: Stores, b: Stores, budget: int, p: ProductId, o: OrderId, qty: int)
    requires AnswersOk(a) && RefusalsOk(a, budget)
    requires p in a.inv.rows && b == a.(inv := ReleaseIn(a.inv, p, o, qty))
    requires Logged(b.inv.logs, Reserve) == Logged(a.inv.logs, Reserve)
    ensures AnswersOk(b) && RefusalsOk(b, budget)
  {
    assert b.inv.logs[|a.inv.logs|] == LogEntry(p, o, Release, qty);
    forall q | Refused(b, q) ensures RefusalFair(b, budget, q) {
      assert RefusalFair(a, budget, q);
      var r := a.orderDb.orders[q].product;
      if NoReleases(b.inv.logs, r) {
        forall i | 0 <= i < |a.inv.logs| && a.inv.logs[i].product == r ensures a.inv.logs[i].action == Reserve {
          assert b.inv.logs[i] == a.inv.logs[i];
        }
      }
    }
  }

  /** Only a saga on the compensation branch releases, so what it releases is there to release. */
  lemma ReleaseGround(a: Stores, budget: int, s: SagaId, o: OrderId)
    requires StoresOk(a, budget) && Addressed(a, s, o) && Late(a, s)
    ensures Holds(a, o) && Declined(a, o) && a.orderDb.orders[o].product in a.inv.rows
    ensures forall t :: t in a.orderDb.sagas && a.orderDb.sagas[t].order == o ==> t == s
  {
    hide StockOk, AnswersOk, RefusalsOk, PaymentsOk;
    assert SagaOk(a, s);
    HeldProduct(a, o);
  }

  lemma HeldProduct(a: Stores, o: OrderId)
    requires StockOk(a) && Holds(a, o)
    ensures o in a.orderDb.orders && a.orderDb.orders[o].product in a.inv.rows
  {}

  lemma ReleaseStep(a: Stores, b: Stores, budget: int, s: SagaId, p: ProductId, o: OrderId, qty: int)
    requires StoresOk(a, budget) && Addressed(a, s, o) && Copies(a, o, p, qty) && Late(a, s) && !GaveBack(a, o)
    requires b == a.(inv := ReleaseIn(a.inv, p, o, qty))
    ensures Kept(a, b, budget) && p in a.inv.rows && GaveBack(b, o)
  {
    hide StockOk, AnswersOk, StockGrows, RefusalsOk, PaymentsOk, SagasOk, SagasGrow;
    ReleaseGround(a, budget, s, o);
    ReleaseStock(a, b, p, o, qty);
    ReleaseAnswers(a, b, budget, p, o, qty);
    RowsKept(a, b);
    PaymentsKept(a, b);
    SagasKept(a, b);
  }

  // ----- a release answered as failed -----

  lemma RefuseReleaseStep(a: Stores, b: Stores, budget: int, o: OrderId)
    requires StoresOk(a, budget)
    requires b == a.(releaseRefused := a.releaseRefused + {o})
    ensures Kept(a, b, budget)
  {
    hide StockOk, AnswersOk, RefusalsOk, PaymentsOk, SagasOk, SagasGrow;
    LedgerKept(a, b, budget);
    RowsKept(a, b);
    SagasKept(a, b);
    PaymentsKept(a, b);
  }

  // ----- a payment -----

  /** An order without a payment row that is past its reservation is being paid for. */
  lemma PayGround(a: Stores, s: SagaId, o: OrderId)
    requires RowsOk(a) && SagasOk(a) && Addressed(a, s, o) && Past(a, s) && o !in a.pay.payments
    ensures o in Owners(a.orderDb)
    ensures forall t :: t in a.orderDb.sagas && a.orderDb.sagas[t].order == o ==>
      a.orderDb.sagas[t].step == ProcessingPayment
  {
    assert SagaOk(a, s);
  }

  lemma PayStep(a: Stores, b: Stores, budget: int, s: SagaId, o: OrderId, row: Payment, id: MsgId)
    requires StoresOk(a, budget) && Addressed(a, s, o) && Past(a, s) && CanCreate(a.pay, o, id)
    requires row.status == PaymentSuccess || row.status == PaymentFailed
    requires b == a.(pay := CreateIn(a.pay, o, row, id))
    ensures Kept(a, b, budget)
  {
    hide StockOk, AnswersOk, RefusalsOk, PaymentsOk, SagasOk, SagasGrow;
    LedgerKept(a, b, budget);
    PayGround(a, s, o);
    RowsKept(a, b);
    PaymentsKept(a, b);
    SagasKept(a, b);
  }
}
