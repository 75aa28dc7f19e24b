/**
 * "A failed saga holds no stock" is not a property of the code: a refusal leaves no log entry, so a reserve
 * command delivered again can succeed after the refusal has failed the saga. Two orders, two units, one attempt
 * per handler: order 0 loses its only attempt to order 1, is refused, its saga fails, and the redelivered
 * command then takes the second unit.
 */
module LateGrant {
  import opened Types
  import opened OrderStore
  import opened InventoryStore
  import opened Protocol
  import opened Invariant
  import opened Runs

  const First := ReserveInventory(0, 0, 0, 1)
  const Second := ReserveInventory(1, 1, 0, 1)
  const Refusal := InventoryReserved(0, 0, 0, 1, false)

  const Awaiting := Saga(0, ReservingInventory, InProgress, None)
  const AwaitingToo := Saga(1, ReservingInventory, InProgress, None)

  lemma Reach(w: World, a: Act) returns (v: World)
    requires Reachable(w) && Enabled(w, a)
    ensures Reachable(v) && v == Apply(w, a)
  {
    hide Enabled, Apply;
    var budget, acts :| Path(Initial(budget), acts, w);
    PathStep(w, a);
    v := Apply(w, a);
    PathConcat(Initial(budget), acts, w, [a], v);
  }

  ghost predicate Rows(w: World, rows: map<ProductId, Inventory>, logs: seq<LogEntry>) {
    w.budget == 1 && w.st.inv == InventoryDb(rows, logs)
  }

  ghost predicate Waiting(db: OrderDb) {
    && db.orders == map[0 := Order(0, 1, 100, OrderPending), 1 := Order(0, 1, 100, OrderPending)]
    && db.sagas == map[0 := Awaiting, 1 := AwaitingToo]
    && db.processed == {}
  }

  lemma Ordered() returns (w: World)
    ensures Reachable(w) && Rows(w, map[0 := Inventory(2, 0, 0)], [])
    ensures w.st.orderDb ==
      OrderDb(map[0 := Order(0, 1, 100, OrderPending), 1 := Order(0, 1, 100, OrderPending)], map[], {})
    ensures w.sent == map[] && w.reserving == map[]
  {
    hide Reachable;
    w := Initial(1);
    Start(w);
    w := Reach(w, CreateSku(0, 2));
    w := Reach(w, CreateOrder(0, 0, 1, 100));
    w := Reach(w, CreateOrder(1, 0, 1, 100));
  }

  lemma Start(w: World)
    requires w == Initial(1)
    ensures Reachable(w)
  {
    assert Path(Initial(1), [], w);
  }

  lemma Started() returns (w: World)
    ensures Reachable(w) && Rows(w, map[0 := Inventory(2, 0, 0)], []) && Waiting(w.st.orderDb)
    ensures w.sent == map[] && w.reserving == map[] && Publish(First) in w.owed && Publish(Second) in w.owed
  {
    hide Reachable;
    w := Ordered();
    w := Reach(w, StartSaga(0, 0));
    w := Reach(w, StartSaga(1, 1));
  }

  lemma Commanded() returns (w: World)
    ensures Reachable(w) && Rows(w, map[0 := Inventory(2, 0, 0)], []) && Waiting(w.st.orderDb)
    ensures w.sent == map[0 := First, 1 := Second] && w.reserving == map[]
  {
    hide Reachable, Waiting;
    w := Started();
    w := Reach(w, Send(First, 0));
    w := Reach(w, Send(Second, 1));
  }

  /** Both handlers have read the same row. */
  lemma BothRead() returns (w: World)
    ensures Reachable(w) && Rows(w, map[0 := Inventory(2, 0, 0)], []) && Waiting(w.st.orderDb)
    ensures w.sent == map[0 := First, 1 := Second]
    ensures w.reserving ==
      map[0 := ReserveJob(First, 0, HasRead(0, 2, 0), 0), 1 := ReserveJob(Second, 0, HasRead(0, 2, 0), 0)]
  {
    hide Reachable, Waiting;
    w := Commanded();
    w := Reach(w, ReserveStart(0));
    w := Reach(w, ReserveRead(0));
    w := Reach(w, ReserveStart(1));
    w := Reach(w, ReserveRead(1));
  }

  /** Order 1 commits between order 0's read and its write. */
  lemma Overtaken() returns (w: World)
    ensures Reachable(w) && Rows(w, map[0 := Inventory(1, 1, 1)], [LogEntry(0, 1, Reserve, 1)]) && Waiting(w.st.orderDb)
    ensures w.sent == map[0 := First, 1 := Second] && w.reserving == map[0 := ReserveJob(First, 0, HasRead(0, 2, 0), 0)]
  {
    hide Reachable, Waiting;
    w := BothRead();
    w := Reach(w, ReserveWrite(1));
  }

  /** Order 0's write finds a newer version, and its budget of one attempt is spent. */
  lemma Beaten() returns (w: World)
    ensures Reachable(w) && Rows(w, map[0 := Inventory(1, 1, 1)], [LogEntry(0, 1, Reserve, 1)]) && Waiting(w.st.orderDb)
    ensures w.sent == map[0 := First, 1 := Second] && w.reserving == map[] && Publish(Refusal) in w.owed
  {
    hide Reachable, Waiting;
    w := Overtaken();
    w := Reach(w, ReserveWrite(0));
    w := Reach(w, ReserveExhausted(0));
    assert w.reserving == map[];
  }

  lemma Failed() returns (w: World)
    ensures Reachable(w) && Rows(w, map[0 := Inventory(1, 1, 1)], [LogEntry(0, 1, Reserve, 1)])
    ensures 0 in w.st.orderDb.sagas && w.st.orderDb.sagas[0] == Saga(0, Done, SagaStatus.Failed, Some(2))
    ensures 0 in w.sent && w.sent[0] == First && w.reserving == map[]
  {
    hide Reachable;
    w := Beaten();
    w := Reach(w, Send(Refusal, 2));
    w := Reach(w, HandleEvent(2));
  }

  /** A reachable world with a failed saga whose order holds stock: the answers were no, then yes. */
  lemma FailedSagaCanHoldStock() returns (w: World)
    ensures Reachable(w)
    ensures 0 in w.st.orderDb.sagas && w.st.orderDb.sagas[0].order == 0
    ensures w.st.orderDb.sagas[0].step == Done && w.st.orderDb.sagas[0].status == SagaStatus.Failed
    ensures LogEntry(0, 0, Reserve, 1) in w.st.inv.logs && !GaveBack(w.st, 0)
  {
    hide Reachable;
    w := Failed();
    w := Reach(w, ReserveStart(0));
    w := Reach(w, ReserveRead(0));
    w := Reach(w, ReserveWrite(0));
    assert w.st.inv.logs == [LogEntry(0, 1, Reserve, 1)] + [LogEntry(0, 0, Reserve, 1)];
    LoggedAppend([LogEntry(0, 1, Reserve, 1)], LogEntry(0, 0, Reserve, 1), Release);
  }
}
