/** What holds in every reachable world, stated component by component, and what no step undoes. */
module Invariant {
  import opened Types
  import opened OrderStore
  import opened InventoryStore
  import opened Protocol

  // ----- facts about one saga -----

  /** The saga is past its reservation: it did not stop at a refused one. */
  ghost predicate Past(st: Stores, s: SagaId)
    requires s in st.orderDb.sagas
  {
    var saga := st.orderDb.sagas[s];
    saga.step != ReservingInventory && (saga.status == Failed ==> saga.order in st.pay.payments)
  }

  /** The saga took the compensation branch. */
  ghost predicate Late(st: Stores, s: SagaId)
    requires s in st.orderDb.sagas
  {
    var saga := st.orderDb.sagas[s];
    || saga.status == Compensating || saga.status == Compensated
    || (saga.status == Failed && saga.order in st.pay.payments)
  }

  ghost predicate Holds(st: Stores, o: OrderId) { o in Logged(st.inv.logs, Reserve) }
  ghost predicate GaveBack(st: Stores, o: OrderId) { o in Logged(st.inv.logs, Release) }
  ghost predicate Charged(st: Stores, o: OrderId) {
    o in st.pay.payments && st.pay.payments[o].status == PaymentSuccess
  }
  ghost predicate Declined(st: Stores, o: OrderId) {
    o in st.pay.payments && st.pay.payments[o].status == PaymentFailed
  }
  ghost predicate Refused(st: Stores, o: OrderId) { o in st.answers && false in st.answers[o] }

  /** The six consistent (step, status, order status) combinations, each with what it implies elsewhere. */
  ghost predicate SagaOk(st: Stores, s: SagaId)
    requires s in st.orderDb.sagas
  {
    var saga := st.orderDb.sagas[s];
    var o := saga.order;
    && o in st.orderDb.orders
    && match (saga.step, saga.status, st.orderDb.orders[o].status)
       case (ReservingInventory, InProgress, OrderPending) => o !in st.pay.payments && !GaveBack(st, o)
       case (ProcessingPayment, InProgress, OrderInventoryReserved) => Holds(st, o) && !GaveBack(st, o)
       case (Done, Completed, OrderConfirmed) => Holds(st, o) && !GaveBack(st, o) && Charged(st, o)
       case (ReleasingInventory, Compensating, OrderFailed) => Holds(st, o) && Declined(st, o)
       case (Done, Compensated, OrderCompensated) => Holds(st, o) && GaveBack(st, o) && Declined(st, o)
       case (Done, Failed, OrderFailed) =>
         if o in st.pay.payments then Holds(st, o) && Declined(st, o) && o in st.releaseRefused
         else !GaveBack(st, o) && Refused(st, o)
       case _ => false
  }

  // ----- facts about one message, task, listed row or handler -----

  ghost predicate Addressed(st: Stores, s: SagaId, o: OrderId) {
    s in st.orderDb.sagas && st.orderDb.sagas[s].order == o && o in st.orderDb.orders
  }

  ghost predicate Copies(st: Stores, o: OrderId, p: ProductId, qty: int) {
    o in st.orderDb.orders && st.orderDb.orders[o].product == p && st.orderDb.orders[o].quantity == qty
  }

  /** A message agrees with its saga's own order, and what it claims or asks for has its cause. */
  ghost predicate Justified(st: Stores, m: Message) {
    Addressed(st, m.saga, m.order) &&
    match m
    case ReserveInventory(s, o, p, qty) => Copies(st, o, p, qty)
    case InventoryReserved(s, o, p, qty, ok) => Copies(st, o, p, qty) && if ok then Holds(st, o) else Refused(st, o)
    case ProcessPayment(s, o, amount) => st.orderDb.orders[o].amount == amount && Past(st, s)
    case PaymentProcessed(s, o, tx, ok) =>
      Past(st, s) && o in st.pay.payments && st.pay.payments[o].tx == tx && (ok <==> Charged(st, o))
    case ReleaseInventory(s, o, p, qty) => Copies(st, o, p, qty) && Late(st, s)
    case InventoryReleased(s, o, p, qty, ok) =>
      Copies(st, o, p, qty) && Late(st, s) && if ok then GaveBack(st, o) else o in st.releaseRefused
  }

  ghost predicate Terminal(st: Stores, s: SagaId, status: SagaStatus) {
    s in st.orderDb.sagas && st.orderDb.sagas[s].step == Done && st.orderDb.sagas[s].status == status
  }

  ghost predicate TaskOk(st: Stores, t: Task) {
    match t
    case Publish(m) => Justified(st, m)
    case Record(s, status) => Terminal(st, s, status)
  }

  ghost predicate ItemOk(st: Stores, item: Snapshot) {
    && Addressed(st, item.id, item.saga.order)
    && var cmd := RecoveryCommand(item, st.orderDb.orders[item.saga.order]);
       cmd.Some? && Justified(st, cmd.value)
  }

  /** The handler of order o: the order has no log entry yet, each failed write had its rival, and a row
      read at the current version is still accurate. */
  ghost predicate ReserveJobOk(st: Stores, o: OrderId, job: ReserveJob) {
    && job.cmd.ReserveInventory? && job.cmd.order == o && Justified(st, job.cmd)
    && !Holds(st, o)
    && var logs, p := st.inv.logs, job.cmd.product;
    && job.mark <= |logs|
    && match job.phase
       case Ready => job.attempt <= Count(logs, p) - Count(logs[..job.mark], p)
       case HasRead(version, available, at) =>
         && p in st.inv.rows && available >= job.cmd.quantity
         && job.mark <= at <= |logs|
         && version == Count(logs[..at], p) <= st.inv.rows[p].version
         && (version == st.inv.rows[p].version ==> available == st.inv.rows[p].available)
         && job.attempt <= Count(logs[..at], p) - Count(logs[..job.mark], p)
  }

  ghost predicate ReleaseJobOk(st: Stores, o: OrderId, cmd: Message) {
    cmd.ReleaseInventory? && cmd.order == o && Justified(st, cmd) && !GaveBack(st, o)
  }

  ghost predicate PayJobOk(w: World, job: PayJob) {
    job.cmd.ProcessPayment? && Justified(w.st, job.cmd) && job.id in w.sent && w.sent[job.id] == job.cmd
  }

  // ----- the invariant -----

  ghost function Owners(db: OrderDb): set<OrderId> {
    set s | s in db.sagas :: db.sagas[s].order
  }

  ghost predicate RowsOk(st: Stores) {
    && (forall s, t :: s in st.orderDb.sagas && t in st.orderDb.sagas && s != t ==>
          st.orderDb.sagas[s].order != st.orderDb.sagas[t].order)
    && (forall o :: o in st.orderDb.orders ==>
          && st.orderDb.orders[o].quantity >= 1
          && (o !in Owners(st.orderDb) ==> st.orderDb.orders[o].status == OrderPending))
    && st.pay.payments.Keys <= Owners(st.orderDb)
    && Logged(st.inv.logs, Reserve) <= Owners(st.orderDb)
  }

  ghost predicate SagasOk(st: Stores) {
    forall s :: s in st.orderDb.sagas ==> SagaOk(st, s)
  }

  ghost predicate RowOk(st: Stores, p: ProductId)
    requires p in st.inv.rows && p in st.supply
  {
    var row := st.inv.rows[p];
    && row.reserved == Net(st.inv.logs, p)
    && row.available >= 0
    && row.available + row.reserved == st.supply[p]
    && row.version == Count(st.inv.logs, p)
  }

  /** The stock ledger: each row is what its log and its supply say. */
  ghost predicate StockOk(st: Stores) {
    && LogOk(st.inv.logs, st.orderDb.orders)
    && st.inv.rows.Keys == st.supply.Keys
    && (forall p :: p in st.inv.rows ==> RowOk(st, p))
    && (forall p :: p !in st.inv.rows ==> Net(st.inv.logs, p) == 0 && Count(st.inv.logs, p) == 0)
    && (forall o :: o in Logged(st.inv.logs, Reserve) ==>
         o in st.orderDb.orders && st.orderDb.orders[o].product in st.inv.rows)
  }

  ghost predicate PaymentsOk(st: Stores) {
    && (forall o :: o in st.pay.payments ==> Charged(st, o) || Declined(st, o))
    && (forall o :: o in Logged(st.inv.logs, Release) ==> Holds(st, o) && Declined(st, o))
  }

  ghost predicate Rising(answers: seq<bool>) {
    forall i, j :: 0 <= i < j < |answers| && answers[i] ==> answers[j]
  }

  /** An order has been answered yes exactly when it has a reserve entry, and never no after yes. */
  ghost predicate AnswersOk(st: Stores) {
    && (forall o :: o in st.answers ==> o in st.orderDb.orders && Rising(st.answers[o]))
    && (forall o :: o in st.answers && true in st.answers[o] ==> Holds(st, o))
    && (forall o :: o in Logged(st.inv.logs, Reserve) ==> o in st.answers && true in st.answers[o])
  }

  /** Once refused, with no release and budget for the whole supply, the order asks for more than is left.
      An unknown product is refused only by a budget of no attempts. */
  ghost predicate RefusalFair(st: Stores, budget: int, o: OrderId) {
    && o in st.orderDb.orders
    && var p := st.orderDb.orders[o].product;
       if p in st.inv.rows && p in st.supply then
         NoReleases(st.inv.logs, p) && budget >= st.supply[p] ==>
           st.inv.rows[p].available < st.orderDb.orders[o].quantity
       else budget <= 0
  }

  ghost predicate RefusalsOk(st: Stores, budget: int) {
    forall o :: o in st.answers && false in st.answers[o] ==> RefusalFair(st, budget, o)
  }

  ghost predicate StoresOk(st: Stores, budget: int) {
    RowsOk(st) && SagasOk(st) && StockOk(st) && PaymentsOk(st) && AnswersOk(st) && RefusalsOk(st, budget)
  }

  ghost predicate MessagesOk(w: World) {
    && (forall id :: id in w.sent ==> Justified(w.st, w.sent[id]))
    && (forall t :: t in w.owed ==> TaskOk(w.st, t))
    && (forall item :: item in w.listed ==> ItemOk(w.st, item))
  }

  ghost predicate JobsOk(w: World) {
    && (forall o :: o in w.reserving ==> ReserveJobOk(w.st, o, w.reserving[o]))
    && (forall o :: o in w.releasing ==> ReleaseJobOk(w.st, o, w.releasing[o]))
    && (forall k :: k in w.paying ==> PayJobOk(w, w.paying[k]))
  }

  /** A consumed event's saga has left the step it answers; a consumed command has its payment row. */
  ghost predicate ConsumedOk(w: World) {
    && (forall id :: id in w.st.orderDb.processed ==>
          && id in w.sent && w.sent[id].IsEvent() && w.sent[id].saga in w.st.orderDb.sagas
          && Rank(w.st.orderDb.sagas[w.sent[id].saga].step) < Rank(w.sent[id].Answers()))
    && (forall id :: id in w.st.pay.processed ==>
          id in w.sent && w.sent[id].ProcessPayment? && w.sent[id].order in w.st.pay.payments)
  }

  ghost predicate RecordsOk(w: World) {
    && (forall s, status :: w.owed[Record(s, status)] + w.recorded[(s, status)] <= 1)
    && (forall r :: r in w.recorded ==> Terminal(w.st, r.0, r.1))
  }

  ghost predicate Inv(w: World) {
    StoresOk(w.st, w.budget) && MessagesOk(w) && JobsOk(w) && ConsumedOk(w) && RecordsOk(w)
  }

  // ----- what no step undoes -----

  ghost predicate OrdersGrow(a: Stores, b: Stores) {
    forall o :: o in a.orderDb.orders ==>
      && o in b.orderDb.orders
      && b.orderDb.orders[o].product == a.orderDb.orders[o].product
      && b.orderDb.orders[o].quantity == a.orderDb.orders[o].quantity
      && b.orderDb.orders[o].amount == a.orderDb.orders[o].amount
  }

  ghost predicate SagaGrows(a: Stores, b: Stores, s: SagaId)
    requires s in a.orderDb.sagas
  {
    && s in b.orderDb.sagas
    && var before, after := a.orderDb.sagas[s], b.orderDb.sagas[s];
       && after.order == before.order
       && Rank(after.step) <= Rank(before.step)
       && (after.step == before.step ==> after == before)
       && (Past(a, s) ==> Past(b, s))
       && (Late(a, s) ==> Late(b, s))
  }

  ghost predicate SagasGrow(a: Stores, b: Stores) {
    forall s :: s in a.orderDb.sagas ==> SagaGrows(a, b, s)
  }

  ghost predicate FactsGrow(a: Stores, b: Stores) {
    && a.inv.logs <= b.inv.logs
    && Logged(a.inv.logs, Reserve) <= Logged(b.inv.logs, Reserve)
    && Logged(a.inv.logs, Release) <= Logged(b.inv.logs, Release)
    && (forall o :: o in a.pay.payments ==> o in b.pay.payments && b.pay.payments[o] == a.pay.payments[o])
    && (forall o :: o in a.answers ==> o in b.answers && a.answers[o] <= b.answers[o])
    && a.releaseRefused <= b.releaseRefused
    && a.orderDb.processed <= b.orderDb.processed && a.pay.processed <= b.pay.processed
    && (forall p :: p in a.supply ==> p in b.supply && b.supply[p] == a.supply[p])
  }

  /** A row that changed has a higher version. */
  ghost predicate StockGrows(a: Stores, b: Stores) {
    forall p :: p in a.inv.rows ==>
      && p in b.inv.rows
      && (b.inv.rows[p] == a.inv.rows[p] || b.inv.rows[p].version > a.inv.rows[p].version)
  }

  ghost predicate Grows(a: Stores, b: Stores) {
    OrdersGrow(a, b) && SagasGrow(a, b) && FactsGrow(a, b) && StockGrows(a, b)
  }

  ghost predicate Mono(w: World, v: World) {
    && Grows(w.st, v.st)
    && (forall id :: id in w.sent ==> id in v.sent && v.sent[id] == w.sent[id])
    && w.recorded <= v.recorded
    && v.budget == w.budget
  }

  lemma MonoTransitive(u: World, v: World, w: World)
    requires Mono(u, v) && Mono(v, w)
    ensures Mono(u, w)
  {
    forall s | s in u.st.orderDb.sagas ensures SagaGrows(u.st, w.st, s) {
      assert SagaGrows(u.st, v.st, s) && SagaGrows(v.st, w.st, s);
    }
  }

  lemma JustifiedGrows(a: Stores, b: Stores, m: Message)
    requires Grows(a, b) && Justified(a, m)
    ensures Justified(b, m)
  {
    assert SagaGrows(a, b, m.saga);
    if Refused(a, m.order) {
      var i :| 0 <= i < |a.answers[m.order]| && a.answers[m.order][i] == false;
      assert b.answers[m.order][i] == false;
    }
  }

  lemma TaskGrows(a: Stores, b: Stores, t: Task)
    requires Grows(a, b) && TaskOk(a, t)
    ensures TaskOk(b, t)
  {
    match t {
      case Publish(m) => JustifiedGrows(a, b, m);
      case Record(s, status) => assert SagaGrows(a, b, s);
    }
  }

  lemma ItemGrows(a: Stores, b: Stores, item: Snapshot)
    requires Grows(a, b) && ItemOk(a, item)
    ensures ItemOk(b, item)
  {
    assert SagaGrows(a, b, item.id);
    var cmd := RecoveryCommand(item, a.orderDb.orders[item.saga.order]);
    JustifiedGrows(a, b, cmd.value);
    assert RecoveryCommand(item, b.orderDb.orders[item.saga.order]) == cmd;
  }
}
