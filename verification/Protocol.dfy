/**
 * The three services as one labelled state machine. Every transaction, every read that a later
 * write depends on and every publish is a step of its own, and a handler can die between any two.
 * A sent message may be handled any number of times, in any order, or never.
 */
module Protocol {
  import opened Types
  import opened OrderStore
  import opened InventoryStore
  import opened PaymentStore

  /** Work a handler owes after its commit: a message to publish or a terminal state to record. */
  datatype Task = Publish(message: Message) | Record(saga: SagaId, status: SagaStatus)

  /** A saga row as a recovery pass read it. */
  datatype Snapshot = Snapshot(id: SagaId, saga: Saga)

  /** Where a reserve handler stands in its attempt loop. `at` is the log length when the row was read. */
  datatype ReservePhase = Ready | HasRead(version: int, available: int, at: nat)

  /** `attempt` counts failed writes; `mark` is the log length when the handler started. */
  datatype ReserveJob = ReserveJob(cmd: Message, attempt: nat, phase: ReservePhase, mark: nat)

  datatype PayPhase = Unread | NoRow
  datatype PayJob = PayJob(id: MsgId, cmd: Message, phase: PayPhase)

  /**
   * The three databases, with bookkeeping that no step reads: the stock supplied, the answers reserve
   * handlers decided per order, and the orders with a refused release.
   */
  datatype Stores = Stores(
    orderDb: OrderDb,
    inv: InventoryDb,
    pay: PaymentDb,
    supply: map<ProductId, int>,
    answers: map<OrderId, seq<bool>>,
    releaseRefused: set<OrderId>)

  /**
   * The stores, what was published, what is owed, what recovery has listed and the handlers in flight.
   * `budget` is the configured number of reserve attempts, `recorded` the terminal states recorded.
   */
  datatype World = World(
    st: Stores,
    budget: int,
    sent: map<MsgId, Message>,
    owed: multiset<Task>,
    listed: multiset<Snapshot>,
    reserving: map<OrderId, ReserveJob>,
    releasing: map<OrderId, Message>,
    paying: map<nat, PayJob>,
    recorded: multiset<(SagaId, SagaStatus)>)

  function Initial(budget: int): World {
    World(Stores(OrderDb(map[], map[], {}), InventoryDb(map[], []), PaymentDb(map[], {}), map[], map[], {}),
          budget, map[], multiset{}, multiset{}, map[], map[], map[], multiset{})
  }

  datatype Act =
    // order service
    | CreateSku(product: ProductId, qty: int)
    | CreateOrder(order: OrderId, product: ProductId, qty: int, amount: int)
    | StartSaga(saga: SagaId, order: OrderId)
    | HandleEvent(id: MsgId)
    // publishing and recording
    | Send(message: Message, id: MsgId)
    | RecordTerminal(saga: SagaId, status: SagaStatus)
    | Drop(task: Task)
    // recovery
    | List(status: SagaStatus)
    | RecoverItem(item: Snapshot)
    | SkipItem(item: Snapshot)
    // inventory service
    | ReserveStart(id: MsgId)
    | ReserveRead(order: OrderId)
    | ReserveWrite(order: OrderId)
    | ReserveExhausted(order: OrderId)
    | ReserveAbort(order: OrderId)
    | ReleaseStart(id: MsgId)
    | ReleaseWrite(order: OrderId)
    | ReleaseError(order: OrderId)
    | ReleaseAbort(order: OrderId)
    // payment service
    | PayStart(worker: nat, id: MsgId)
    | PayRead(worker: nat)
    | PayWrite(worker: nat, tx: TxId, ok: bool)
    | PayAbort(worker: nat)

  // ----- order service -----

  function DoCreateSku(w: World, p: ProductId, qty: int): (v: World)
    ensures v.st.orderDb == w.st.orderDb && v.st.inv.logs == w.st.inv.logs && v.st.pay == w.st.pay
  {
    w.(st := w.st.(inv := w.st.inv.(rows := w.st.inv.rows[p := Inventory(qty, 0, 0)]),
                   supply := w.st.supply[p := qty]))
  }

  function DoCreateOrder(w: World, o: OrderId, p: ProductId, qty: int, amount: int): (v: World)
    ensures v.st == w.st.(orderDb := w.st.orderDb.(orders := v.st.orderDb.orders))
  {
    w.(st := w.st.(orderDb := w.st.orderDb.(orders := w.st.orderDb.orders[o := Order(p, qty, amount, OrderPending)])))
  }

  function DoStartSaga(w: World, s: SagaId, o: OrderId): World
    requires o in w.st.orderDb.orders
  {
    var order := w.st.orderDb.orders[o];
    w.(st := w.st.(orderDb := w.st.orderDb.(
                     sagas := w.st.orderDb.sagas[s := Saga(o, ReservingInventory, InProgress, None)])),
       owed := w.owed + multiset{Publish(ReserveInventory(s, o, order.product, order.quantity))})
  }

  /** What the orchestrator does after an effective commit. */
  function Followup(db: OrderDb, ev: Message): Task
    requires ev.IsEvent()
    requires LoadsOrder(ev) ==> ev.order in db.orders
  {
    match ev
    case InventoryReserved(s, o, _, _, ok) =>
      if ok then Publish(ProcessPayment(s, o, db.orders[o].amount)) else Record(s, Failed)
    case PaymentProcessed(s, o, _, ok) =>
      if ok then Record(s, Completed) else Publish(ReleaseInventory(s, o, db.orders[o].product, db.orders[o].quantity))
    case InventoryReleased(s, _, _, _, ok) =>
      if ok then Record(s, Compensated) else Record(s, Failed)
  }

  function DoHandleEvent(w: World, id: MsgId, ev: Message): World
    requires ev.IsEvent()
  {
    if Judge(w.st.orderDb, id, ev).Applied? then
      w.(st := w.st.(orderDb := Consume(w.st.orderDb, id, ev)), owed := w.owed + multiset{Followup(w.st.orderDb, ev)})
    else w
  }

  /** The command recovery composes from a listed row and the order it loads; None for an unexpected step. */
  function RecoveryCommand(item: Snapshot, order: Order): Option<Message> {
    var o := item.saga.order;
    if item.saga.status == InProgress then
      match item.saga.step
      case ReservingInventory => Some(ReserveInventory(item.id, o, order.product, order.quantity))
      case ProcessingPayment => Some(ProcessPayment(item.id, o, order.amount))
      case _ => None
    else if item.saga.status == Compensating && item.saga.step == ReleasingInventory then
      Some(ReleaseInventory(item.id, o, order.product, order.quantity))
    else None
  }

  function Listing(db: OrderDb, status: SagaStatus): set<Snapshot> {
    set s | s in db.sagas && db.sagas[s].status == status :: Snapshot(s, db.sagas[s])
  }

  function DoSend(w: World, m: Message, id: MsgId): (v: World)
    ensures v.st == w.st
  {
    w.(sent := w.sent[id := m], owed := w.owed - multiset{Publish(m)})
  }

  function DoRecordTerminal(w: World, s: SagaId, status: SagaStatus): (v: World)
    ensures v.st == w.st
  {
    w.(owed := w.owed - multiset{Record(s, status)}, recorded := w.recorded + multiset{(s, status)})
  }

  function DoList(w: World, status: SagaStatus): (v: World)
    ensures v.st == w.st
  {
    w.(listed := w.listed + multiset(Listing(w.st.orderDb, status)))
  }

  function DoRecoverItem(w: World, item: Snapshot): (v: World)
    requires item.saga.order in w.st.orderDb.orders
    ensures v.st == w.st
  {
    var cmd := RecoveryCommand(item, w.st.orderDb.orders[item.saga.order]);
    w.(listed := w.listed - multiset{item},
       owed := w.owed + if cmd.Some? then multiset{Publish(cmd.value)} else multiset{})
  }

  // ----- inventory service -----

  function Append<T>(m: map<OrderId, seq<T>>, o: OrderId, x: T): seq<T> {
    (if o in m then m[o] else []) + [x]
  }

  /** A reserve handler decides its answer and leaves the in-flight table. */
  function AnswerReserve(w: World, cmd: Message, ok: bool): (v: World)
    requires cmd.ReserveInventory?
    ensures v.st == w.st.(answers := v.st.answers)
  {
    w.(owed := w.owed + multiset{Publish(InventoryReserved(cmd.saga, cmd.order, cmd.product, cmd.quantity, ok))},
       st := w.st.(answers := w.st.answers[cmd.order := Append(w.st.answers, cmd.order, ok)]),
       reserving := w.reserving - {cmd.order})
  }

  function AnswerRelease(w: World, cmd: Message, ok: bool): (v: World)
    requires cmd.ReleaseInventory?
    ensures v.st == w.st.(releaseRefused := v.st.releaseRefused)
  {
    w.(owed := w.owed + multiset{Publish(InventoryReleased(cmd.saga, cmd.order, cmd.product, cmd.quantity, ok))},
       st := w.st.(releaseRefused := w.st.releaseRefused + if ok then {} else {cmd.order}),
       releasing := w.releasing - {cmd.order})
  }

  function DoReserveStart(w: World, cmd: Message): (v: World)
    requires cmd.ReserveInventory?
    ensures v.st == w.st.(answers := v.st.answers)
  {
    if cmd.order in Logged(w.st.inv.logs, Reserve) then AnswerReserve(w, cmd, true)
    else w.(reserving := w.reserving[cmd.order := ReserveJob(cmd, 0, Ready, |w.st.inv.logs|)])
  }

  function DoReserveRead(w: World, job: ReserveJob): (v: World)
    requires job.cmd.ReserveInventory? && job.cmd.product in w.st.inv.rows
    ensures v.st == w.st.(answers := v.st.answers)
  {
    var row := w.st.inv.rows[job.cmd.product];
    if row.available < job.cmd.quantity then AnswerReserve(w, job.cmd, false)
    else w.(reserving := w.reserving[job.cmd.order :=
              job.(phase := HasRead(row.version, row.available, |w.st.inv.logs|))])
  }

  function DoReserveWrite(w: World, job: ReserveJob): World
    requires job.cmd.ReserveInventory? && job.phase.HasRead?
  {
    var cmd := job.cmd;
    if CanReserve(w.st.inv, cmd.product, job.phase.version, cmd.quantity) then
      var inv := ReserveIn(w.st.inv, cmd.product, cmd.order, job.phase.version, cmd.quantity);
      AnswerReserve(w.(st := w.st.(inv := inv)), cmd, true)
    else
      w.(reserving := w.reserving[cmd.order := job.(attempt := job.attempt + 1, phase := Ready)])
  }

  function DoReleaseStart(w: World, cmd: Message): (v: World)
    requires cmd.ReleaseInventory?
    ensures v.st == w.st.(releaseRefused := v.st.releaseRefused)
  {
    if cmd.order in Logged(w.st.inv.logs, Release) then AnswerRelease(w, cmd, true)
    else w.(releasing := w.releasing[cmd.order := cmd])
  }

  /** No row updated means the product was not found, which is answered as a failure. */
  function DoReleaseWrite(w: World, cmd: Message): World
    requires cmd.ReleaseInventory?
  {
    var inv := ReleaseIn(w.st.inv, cmd.product, cmd.order, cmd.quantity);
    AnswerRelease(w.(st := w.st.(inv := inv)), cmd, cmd.product in w.st.inv.rows)
  }

  // ----- payment service -----

  function PaymentAnswer(cmd: Message, row: Payment): Message
    requires cmd.ProcessPayment?
  {
    PaymentProcessed(cmd.saga, cmd.order, row.tx, row.status == PaymentSuccess)
  }

  /** A command id already marked is acknowledged without an answer. */
  function DoPayStart(w: World, worker: nat, id: MsgId, cmd: Message): (v: World)
    ensures v.st == w.st
  {
    if id in w.st.pay.processed then w
    else w.(paying := w.paying[worker := PayJob(id, cmd, Unread)])
  }

  function DoPayRead(w: World, worker: nat, job: PayJob): (v: World)
    requires job.cmd.ProcessPayment?
    ensures v.st == w.st
  {
    if job.cmd.order in w.st.pay.payments then
      w.(owed := w.owed + multiset{Publish(PaymentAnswer(job.cmd, w.st.pay.payments[job.cmd.order]))},
         paying := w.paying - {worker})
    else w.(paying := w.paying[worker := job.(phase := NoRow)])
  }

  /** On a unique-key clash the handler returns an error and owes nothing. */
  function DoPayWrite(w: World, worker: nat, job: PayJob, tx: TxId, ok: bool): World
    requires job.cmd.ProcessPayment?
  {
    var row := Payment(job.cmd.amount, if ok then PaymentSuccess else PaymentFailed, tx);
    var done := w.(st := w.st.(pay := CreateIn(w.st.pay, job.cmd.order, row, job.id)), paying := w.paying - {worker});
    if CanCreate(w.st.pay, job.cmd.order, job.id) then
      done.(owed := w.owed + multiset{Publish(PaymentAnswer(job.cmd, row))})
    else done
  }

  // ----- the step relation -----

  predicate Enabled(w: World, a: Act) {
    match a
    case CreateSku(p, qty) => p !in w.st.inv.rows && p !in w.st.supply && qty >= 0
    case CreateOrder(o, _, qty, _) => o !in w.st.orderDb.orders && qty >= 1
    case StartSaga(s, o) =>
      && s !in w.st.orderDb.sagas && o in w.st.orderDb.orders
      && forall t :: t in w.st.orderDb.sagas ==> w.st.orderDb.sagas[t].order != o
    case HandleEvent(id) => id in w.sent && w.sent[id].IsEvent()
    case Send(m, id) => Publish(m) in w.owed && id !in w.sent
    case RecordTerminal(s, status) => Record(s, status) in w.owed
    case Drop(task) => task in w.owed
    case List(status) => status == InProgress || status == Compensating
    case RecoverItem(item) => item in w.listed && item.saga.order in w.st.orderDb.orders
    case SkipItem(item) => item in w.listed
    case ReserveStart(id) => id in w.sent && w.sent[id].ReserveInventory? && w.sent[id].order !in w.reserving
    case ReserveRead(o) =>
      && o in w.reserving && w.reserving[o].cmd.ReserveInventory? && w.reserving[o].cmd.order == o
      && w.reserving[o].phase.Ready? && w.reserving[o].attempt < w.budget
      && w.reserving[o].cmd.product in w.st.inv.rows
    case ReserveWrite(o) =>
      && o in w.reserving && w.reserving[o].cmd.ReserveInventory? && w.reserving[o].cmd.order == o
      && w.reserving[o].phase.HasRead?
    case ReserveExhausted(o) =>
      && o in w.reserving && w.reserving[o].cmd.ReserveInventory? && w.reserving[o].cmd.order == o
      && w.reserving[o].phase.Ready? && w.reserving[o].attempt >= w.budget
    case ReserveAbort(o) => o in w.reserving
    case ReleaseStart(id) => id in w.sent && w.sent[id].ReleaseInventory? && w.sent[id].order !in w.releasing
    case ReleaseWrite(o) => o in w.releasing && w.releasing[o].ReleaseInventory? && w.releasing[o].order == o
    case ReleaseError(o) => o in w.releasing && w.releasing[o].ReleaseInventory? && w.releasing[o].order == o
    case ReleaseAbort(o) => o in w.releasing
    case PayStart(k, id) => k !in w.paying && id in w.sent && w.sent[id].ProcessPayment?
    case PayRead(k) => k in w.paying && w.paying[k].cmd.ProcessPayment? && w.paying[k].phase.Unread?
    case PayWrite(k, _, _) => k in w.paying && w.paying[k].cmd.ProcessPayment? && w.paying[k].phase.NoRow?
    case PayAbort(k) => k in w.paying
  }

  function Apply(w: World, a: Act): World
    requires Enabled(w, a)
  {
    match a
    case CreateSku(p, qty) => DoCreateSku(w, p, qty)
    case CreateOrder(o, p, qty, amount) => DoCreateOrder(w, o, p, qty, amount)
    case StartSaga(s, o) => DoStartSaga(w, s, o)
    case HandleEvent(id) => DoHandleEvent(w, id, w.sent[id])
    case Send(m, id) => DoSend(w, m, id)
    case RecordTerminal(s, status) => DoRecordTerminal(w, s, status)
    case Drop(task) => w.(owed := w.owed - multiset{task})
    case List(status) => DoList(w, status)
    case RecoverItem(item) => DoRecoverItem(w, item)
    case SkipItem(item) => w.(listed := w.listed - multiset{item})
    case ReserveStart(id) => DoReserveStart(w, w.sent[id])
    case ReserveRead(o) => DoReserveRead(w, w.reserving[o])
    case ReserveWrite(o) => DoReserveWrite(w, w.reserving[o])
    case ReserveExhausted(o) => AnswerReserve(w, w.reserving[o].cmd, false)
    case ReserveAbort(o) => w.(reserving := w.reserving - {o})
    case ReleaseStart(id) => DoReleaseStart(w, w.sent[id])
    case ReleaseWrite(o) => DoReleaseWrite(w, w.releasing[o])
    case ReleaseError(o) => AnswerRelease(w, w.releasing[o], false)
    case ReleaseAbort(o) => w.(releasing := w.releasing - {o})
    case PayStart(k, id) => DoPayStart(w, k, id, w.sent[id])
    case PayRead(k) => DoPayRead(w, k, w.paying[k])
    case PayWrite(k, tx, ok) => DoPayWrite(w, k, w.paying[k], tx, ok)
    case PayAbort(k) => w.(paying := w.paying - {k})
  }

  /** A sequence of steps leads from one world to another. */
  ghost predicate Path(from: World, acts: seq<Act>, to: World)
    decreases |acts|
  {
    if acts == [] then from == to
    else Enabled(from, acts[0]) && Path(Apply(from, acts[0]), acts[1..], to)
  }

  lemma {:induction false} PathConcat(a: World, xs: seq<Act>, b: World, ys: seq<Act>, c: World)
    requires Path(a, xs, b) && Path(b, ys, c)
    ensures Path(a, xs + ys, c)
    decreases |xs|
  {
    hide Enabled, Apply;
    if xs == [] {
      assert xs + ys == ys;
    } else {
      PathConcat(Apply(a, xs[0]), xs[1..], b, ys, c);
      assert (xs + ys)[1..] == xs[1..] + ys;
    }
  }

  lemma PathStep(w: World, a: Act)
    requires Enabled(w, a)
    ensures Path(w, [a], Apply(w, a))
  {
    assert [a][1..] == [];
  }
}
