/**
 * What is marked as processed, and under which id: an event's mark says that it changed a saga, a payment command's
 * mark that it created its order's row.
 */
module Marks {
  import opened Types
  import opened OrderStore
  import opened InventoryStore
  import opened PaymentStore
  import opened Protocol
  import opened Invariant
  import opened Runs
  import opened Claims

  // ----- one delivery to the orders database -----

  /** The database changes exactly when the id is new, the saga waits for this event and its order can be loaded. */
  lemma EffectiveIff(db: OrderDb, id: MsgId, ev: Message)
    requires ev.IsEvent()
    ensures Consume(db, id, ev) != db <==>
      && id !in db.processed && ev.saga in db.sagas
      && match ev
         case InventoryReserved(s, o, _, _, ok) =>
           db.sagas[s].step == ReservingInventory && (ok ==> o in db.orders)
         case PaymentProcessed(s, o, _, ok) =>
           db.sagas[s].step == ProcessingPayment && (!ok ==> o in db.orders)
         case InventoryReleased(s, _, _, _, _) =>
           db.sagas[s].step == ReleasingInventory && db.sagas[s].status == Compensating
  {}

  /** Once a delivery has changed the database, no delivery under its id does, whatever event it carries and
      whatever is delivered in between. */
  lemma SameIdNeverTwice(db: OrderDb, id: MsgId, ev: Message, later: OrderDb, other: Message)
    requires ev.IsEvent() && other.IsEvent() && Consume(db, id, ev) != db
    requires Consume(db, id, ev).processed <= later.processed
    ensures Consume(later, id, other) == later
  {}

  // ----- over runs: the events -----

  /** The step delivers this event id and changes the saga's row. */
  ghost predicate ChangesSaga(w: World, a: Act, id: MsgId, s: SagaId)
    requires Enabled(w, a)
  {
    && a == HandleEvent(id) && s in w.st.orderDb.sagas
    && (s in Apply(w, a).st.orderDb.sagas ==> Apply(w, a).st.orderDb.sagas[s] != w.st.orderDb.sagas[s])
  }

  /** Some step of the run delivers this event id and changes a saga. */
  ghost predicate TookEffect(w: World, acts: seq<Act>, v: World, id: MsgId)
    requires Path(w, acts, v)
    decreases |acts|
  {
    acts != [] &&
    ((exists s :: ChangesSaga(w, acts[0], id, s)) || TookEffect(Apply(w, acts[0]), acts[1..], v, id))
  }

  /** The id under which the last event of the run that changed this saga was delivered. */
  ghost function LastChange(w: World, acts: seq<Act>, v: World, s: SagaId): Option<MsgId>
    requires Path(w, acts, v)
    decreases |acts|
  {
    if acts == [] then None
    else
      var later := LastChange(Apply(w, acts[0]), acts[1..], v, s);
      if later.Some? then later
      else if acts[0].HandleEvent? && ChangesSaga(w, acts[0], acts[0].id, s) then Some(acts[0].id)
      else None
  }

  function LastEvent(db: OrderDb, s: SagaId): Option<MsgId> {
    if s in db.sagas then db.sagas[s].lastEvent else None
  }

  lemma ConsumeMarks(db: OrderDb, id: MsgId, ev: Message)
    requires ev.IsEvent()
    ensures var now := Consume(db, id, ev);
      && now.sagas.Keys == db.sagas.Keys
      && now.processed == db.processed + (if now.sagas != db.sagas then {id} else {})
      && (now.sagas != db.sagas ==> exists s :: s in db.sagas && now.sagas[s] != db.sagas[s])
      && forall s :: s in db.sagas ==>
           LastEvent(now, s) == if now.sagas[s] != db.sagas[s] then Some(id) else LastEvent(db, s)
  {
    if Judge(db, id, ev).Applied? {
      var now := Consume(db, id, ev);
      assert now.sagas[ev.saga].step != db.sagas[ev.saga].step;
    }
  }

  /** Only payment workers and the order service touch the databases that carry marks. */
  lemma InventoryMarksNothing(w: World, a: Act)
    requires Enabled(w, a) && OfAHandler(a) && !a.PayWrite?
    ensures Apply(w, a).st.orderDb == w.st.orderDb && Apply(w, a).st.pay == w.st.pay
  {
    hide Logged, CanReserve, ReserveIn, ReleaseIn, PaymentAnswer, Append;
  }

  lemma PayWriteMarks(w: World, k: nat, tx: TxId, ok: bool)
    requires Enabled(w, PayWrite(k, tx, ok))
    ensures var v, job := Apply(w, PayWrite(k, tx, ok)), w.paying[k];
      var row := Payment(job.cmd.amount, if ok then PaymentSuccess else PaymentFailed, tx);
      v.st == w.st.(pay := CreateIn(w.st.pay, job.cmd.order, row, job.id)) && v.sent == w.sent
  {
    hide CreateIn, CanCreate, PaymentAnswer;
  }

  lemma TrafficMarksNothing(w: World, a: Act)
    requires Enabled(w, a) && !OfAHandler(a) && !a.HandleEvent? && !a.CreateOrder? && !a.StartSaga?
    ensures Apply(w, a).st.orderDb == w.st.orderDb && Apply(w, a).st.pay == w.st.pay
  {
    hide RecoveryCommand, Listing;
  }

  lemma StartMarksNothing(w: World, a: Act)
    requires Enabled(w, a) && (a.CreateOrder? || a.StartSaga?)
    ensures var now := Apply(w, a).st.orderDb;
      && Apply(w, a).st.pay == w.st.pay && now.processed == w.st.orderDb.processed
      && forall s :: LastEvent(now, s) == LastEvent(w.st.orderDb, s)
  {}

  lemma OrderServiceMarks(w: World, a: Act)
    requires Enabled(w, a) && !OfAHandler(a) && !a.HandleEvent?
    ensures var now := Apply(w, a).st.orderDb;
      && Apply(w, a).st.pay == w.st.pay && now.processed == w.st.orderDb.processed
      && forall s :: LastEvent(now, s) == LastEvent(w.st.orderDb, s)
  {
    hide Enabled, Apply, LastEvent, OfAHandler;
    if a.CreateOrder? || a.StartSaga? { StartMarksNothing(w, a); } else { TrafficMarksNothing(w, a); }
  }

  lemma OtherStepsMarkNothing(w: World, a: Act)
    requires Enabled(w, a) && !a.HandleEvent?
    ensures var now := Apply(w, a).st.orderDb;
      now.processed == w.st.orderDb.processed && forall s :: LastEvent(now, s) == LastEvent(w.st.orderDb, s)
  {
    hide Enabled, Apply, CreateIn, LastEvent;
    if a.PayWrite? {
      PayWriteMarks(w, a.worker, a.tx, a.ok);
    } else if OfAHandler(a) {
      InventoryMarksNothing(w, a);
    } else {
      OrderServiceMarks(w, a);
    }
  }

  lemma StepMarks(w: World, a: Act, id: MsgId, s: SagaId)
    requires Enabled(w, a)
    ensures var now := Apply(w, a).st.orderDb;
      && (id in now.processed <==> id in w.st.orderDb.processed || exists t :: ChangesSaga(w, a, id, t))
      && LastEvent(now, s) ==
           if a.HandleEvent? && ChangesSaga(w, a, a.id, s) then Some(a.id) else LastEvent(w.st.orderDb, s)
  {
    hide Judge, Consume, Followup, LastEvent;
    if a.HandleEvent? {
      HandleIsConsume(w, a.id);
      ConsumeMarks(w.st.orderDb, a.id, w.sent[a.id]);
      if s !in w.st.orderDb.sagas { NoRowNoEvent(w.st.orderDb, Apply(w, a).st.orderDb, s); }
      if id == a.id && Apply(w, a).st.orderDb.sagas != w.st.orderDb.sagas {
        var t :| t in w.st.orderDb.sagas && Apply(w, a).st.orderDb.sagas[t] != w.st.orderDb.sagas[t];
        assert ChangesSaga(w, a, id, t);
      }
    } else {
      OtherStepsMarkNothing(w, a);
    }
  }

  lemma NoRowNoEvent(db: OrderDb, now: OrderDb, s: SagaId)
    requires now.sagas.Keys == db.sagas.Keys && s !in db.sagas
    ensures LastEvent(now, s) == LastEvent(db, s)
  {}

  lemma HandleIsConsume(w: World, id: MsgId)
    requires Enabled(w, HandleEvent(id))
    ensures Apply(w, HandleEvent(id)).st == w.st.(orderDb := Consume(w.st.orderDb, id, w.sent[id]))
  {}

  /** An event id is marked exactly when some delivery of it changed a saga; and a saga's last event is the one
      that changed it last. */
  lemma {:induction false} MarkedIffTookEffect(w: World, acts: seq<Act>, v: World, id: MsgId, s: SagaId)
    requires Path(w, acts, v)
    ensures id in v.st.orderDb.processed <==> id in w.st.orderDb.processed || TookEffect(w, acts, v, id)
    ensures LastEvent(v.st.orderDb, s) ==
      if LastChange(w, acts, v, s).Some? then LastChange(w, acts, v, s) else LastEvent(w.st.orderDb, s)
    decreases |acts|
  {
    hide Enabled, Apply, ChangesSaga, LastEvent;
    if acts != [] {
      StepMarks(w, acts[0], id, s);
      MarkedIffTookEffect(Apply(w, acts[0]), acts[1..], v, id, s);
    }
  }

  // ----- over runs: the payment commands -----

  /** The step is the write of a worker with this command id, and it creates a payment row. */
  ghost predicate CreatesRow(w: World, a: Act, id: MsgId)
    requires Enabled(w, a)
  {
    && a.PayWrite? && w.paying[a.worker].id == id
    && Apply(w, a).st.pay.payments != w.st.pay.payments
  }

  /** Some step of the run creates a payment row under this command id. */
  ghost predicate RowCreatedUnder(w: World, acts: seq<Act>, v: World, id: MsgId)
    requires Path(w, acts, v)
    decreases |acts|
  {
    acts != [] && (CreatesRow(w, acts[0], id) || RowCreatedUnder(Apply(w, acts[0]), acts[1..], v, id))
  }

  /** In any payments database: row and mark are both new, exactly when neither key was taken, or nothing is. */
  lemma RowAndMarkTogether(db: PaymentDb, o: OrderId, row: Payment, id: MsgId)
    ensures var now := CreateIn(db, o, row, id);
      && (now.payments != db.payments <==> o !in db.payments && id !in db.processed)
      && (now.payments != db.payments ==> now.payments == db.payments[o := row])
      && now.processed == db.processed + (if now.payments != db.payments then {id} else {})
  {}

  lemma StepMarksPayment(w: World, a: Act, id: MsgId)
    requires Enabled(w, a)
    ensures id in Apply(w, a).st.pay.processed <==> id in w.st.pay.processed || CreatesRow(w, a, id)
  {
    hide CreateIn, CanCreate;
    if a.PayWrite? {
      PayWriteIs(w, a.worker, a.tx, a.ok);
    } else {
      OnlyPayWritesPay(w, a);
    }
  }

  lemma PayWriteIs(w: World, k: nat, tx: TxId, ok: bool)
    requires Enabled(w, PayWrite(k, tx, ok))
    ensures var v, job := Apply(w, PayWrite(k, tx, ok)), w.paying[k];
      && v.sent == w.sent
      && v.st.pay.processed ==
           w.st.pay.processed + (if v.st.pay.payments != w.st.pay.payments then {job.id} else {})
      && (v.st.pay.payments != w.st.pay.payments ==>
            && job.cmd.order !in w.st.pay.payments && job.id !in w.st.pay.processed
            && v.st.pay.payments == w.st.pay.payments[job.cmd.order :=
                 Payment(job.cmd.amount, if ok then PaymentSuccess else PaymentFailed, tx)])
  {
    hide Apply, CreateIn, CanCreate;
    PayWriteMarks(w, k, tx, ok);
    var job := w.paying[k];
    var row := Payment(job.cmd.amount, if ok then PaymentSuccess else PaymentFailed, tx);
    RowAndMarkTogether(w.st.pay, job.cmd.order, row, job.id);
  }

  lemma OnlyPayWritesPay(w: World, a: Act)
    requires Enabled(w, a) && !a.PayWrite?
    ensures Apply(w, a).st.pay == w.st.pay
  {
    hide Enabled, Apply, LastEvent, Consume;
    if a.HandleEvent? {
      HandleIsConsume(w, a.id);
    } else if OfAHandler(a) {
      InventoryMarksNothing(w, a);
    } else {
      OrderServiceMarks(w, a);
    }
  }

  /** A payment command's id is marked exactly when some write under it created a row. */
  lemma {:induction false} MarkedIffCreated(w: World, acts: seq<Act>, v: World, id: MsgId)
    requires Path(w, acts, v)
    ensures id in v.st.pay.processed <==> id in w.st.pay.processed || RowCreatedUnder(w, acts, v, id)
    decreases |acts|
  {
    hide Enabled, Apply, CreatesRow;
    if acts != [] {
      StepMarksPayment(w, acts[0], id);
      MarkedIffCreated(Apply(w, acts[0]), acts[1..], v, id);
    }
  }

  /** The order's row was created for this command: its id is marked and its amount was charged. */
  ghost predicate MadeFor(w: World, o: OrderId, id: MsgId) {
    && id in w.st.pay.processed && id in w.sent && w.sent[id].ProcessPayment? && w.sent[id].order == o
    && o in w.st.pay.payments && w.st.pay.payments[o].amount == w.sent[id].amount
  }

  ghost predicate RowsMadeFor(w: World) {
    forall o :: o in w.st.pay.payments ==> exists id :: MadeFor(w, o, id)
  }

  ghost predicate MarksDiffer(w: World) {
    forall i, j :: i in w.st.pay.processed && j in w.st.pay.processed && i in w.sent && j in w.sent ==>
      w.sent[i].order == w.sent[j].order ==> i == j
  }

  ghost predicate MarksOk(w: World) {
    RowsMadeFor(w) && MarksDiffer(w) && |w.st.pay.processed| == |w.st.pay.payments|
  }

  lemma CommandsConsumed(w: World, k: nat)
    requires Inv(w)
    ensures forall id :: id in w.st.pay.processed ==>
      id in w.sent && w.sent[id].ProcessPayment? && w.sent[id].order in w.st.pay.payments
    ensures k in w.paying ==> var job := w.paying[k];
      job.cmd.ProcessPayment? && job.id in w.sent && w.sent[job.id] == job.cmd
  {
    hide StoresOk, MessagesOk, RecordsOk, Justified;
    if k in w.paying { assert PayJobOk(w, w.paying[k]); }
  }

  lemma MadeForStays(w: World, v: World, o: OrderId, id: MsgId)
    requires MadeFor(w, o, id) && Within(w.sent, v.sent) && w.st.pay.processed <= v.st.pay.processed
    requires Within(w.st.pay.payments, v.st.pay.payments)
    ensures MadeFor(v, o, id)
  {}

  lemma QuietMarksOk(w: World, v: World)
    requires MarksOk(w) && v.st.pay == w.st.pay && Within(w.sent, v.sent)
    requires forall id :: id in w.st.pay.processed ==> id in w.sent
    ensures MarksOk(v)
  {
    hide MadeFor;
    forall o | o in v.st.pay.payments ensures exists id :: MadeFor(v, o, id) {
      var id :| MadeFor(w, o, id);
      MadeForStays(w, v, o, id);
    }
  }

  lemma NewRowIsMadeFor(w: World, v: World, o: OrderId, id: MsgId, row: Payment)
    requires id in w.sent && w.sent[id].ProcessPayment? && w.sent[id].order == o && v.sent == w.sent
    requires v.st.pay.payments == w.st.pay.payments[o := row] && id in v.st.pay.processed
    requires row.amount == w.sent[id].amount
    ensures MadeFor(v, o, id)
  {}

  lemma CreatedMarksOk(w: World, k: nat, tx: TxId, ok: bool)
    requires Inv(w) && MarksOk(w) && Enabled(w, PayWrite(k, tx, ok))
    ensures MarksOk(Apply(w, PayWrite(k, tx, ok)))
  {
    hide Inv, Apply, MadeFor;
    var v, job := Apply(w, PayWrite(k, tx, ok)), w.paying[k];
    PayWriteIs(w, k, tx, ok);
    CommandsConsumed(w, k);
    var o := job.cmd.order;
    if v.st.pay.payments == w.st.pay.payments {
      assert v.st.pay == w.st.pay;
      QuietMarksOk(w, v);
    } else {
      NewRowIsMadeFor(w, v, o, job.id, v.st.pay.payments[o]);
      forall x | x in v.st.pay.payments && x != o ensures exists id :: MadeFor(v, x, id) {
        var id :| MadeFor(w, x, id);
        MadeForStays(w, v, x, id);
      }
    }
  }

  lemma StepMarksOk(w: World, a: Act)
    requires Inv(w) && MarksOk(w) && Enabled(w, a)
    ensures MarksOk(Apply(w, a))
  {
    hide Inv, Enabled, Apply, MarksOk;
    if a.PayWrite? {
      CreatedMarksOk(w, a.worker, a.tx, a.ok);
    } else {
      OnlyPayWritesPay(w, a);
      SentStays(w, a);
      CommandsConsumed(w, 0);
      QuietMarksOk(w, Apply(w, a));
    }
  }

  lemma {:induction false} PathMarksOk(w: World, acts: seq<Act>, v: World)
    requires Inv(w) && MarksOk(w) && Path(w, acts, v)
    ensures MarksOk(v) && Inv(v)
    decreases |acts|
  {
    hide Inv, Enabled, Apply, MarksOk;
    if acts != [] {
      StepKeeps(w, acts[0]);
      StepMarksOk(w, acts[0]);
      PathMarksOk(Apply(w, acts[0]), acts[1..], v);
    }
  }

  /** Payment rows and marks correspond one to one: each row was created for the one command of its order whose id
      is marked, over the order's own amount. */
  lemma RowsAndMarksCorrespond(w: World)
    requires Reachable(w)
    ensures |w.st.pay.processed| == |w.st.pay.payments|
    ensures forall o :: o in w.st.pay.payments ==> exists id :: MadeFor(w, o, id)
    ensures forall o, i, j :: MadeFor(w, o, i) && MadeFor(w, o, j) ==> i == j
    ensures forall id :: id in w.st.pay.processed ==> id in w.sent && MadeFor(w, w.sent[id].order, id)
    ensures forall o :: o in w.st.pay.payments ==>
      o in w.st.orderDb.orders && w.st.pay.payments[o].amount == w.st.orderDb.orders[o].amount
  {
    hide Inv, Path;
    var budget, acts :| Path(Initial(budget), acts, w);
    InitialOk(budget);
    PathMarksOk(Initial(budget), acts, w);
    CommandsConsumed(w, 0);
    forall id | id in w.st.pay.processed ensures MadeFor(w, w.sent[id].order, id) {
      var i :| MadeFor(w, w.sent[id].order, i);
    }
    forall o | o in w.st.pay.payments
      ensures o in w.st.orderDb.orders && w.st.pay.payments[o].amount == w.st.orderDb.orders[o].amount
    {
      var id :| MadeFor(w, o, id);
      CommandAmount(w, id);
    }
  }

  lemma CommandAmount(w: World, id: MsgId)
    requires Inv(w) && id in w.sent && w.sent[id].ProcessPayment?
    ensures var cmd := w.sent[id];
      cmd.order in w.st.orderDb.orders && w.st.orderDb.orders[cmd.order].amount == cmd.amount
  {
    hide StoresOk, JobsOk, ConsumedOk, RecordsOk, Past;
  }

  /** Once a command has created its order's row, no later delivery of it does anything, at any worker. */
  lemma CreatedOnceForAll(w: World, k: nat, tx: TxId, ok: bool, acts: seq<Act>, v: World, worker: nat)
    requires Reachable(w) && Enabled(w, PayWrite(k, tx, ok)) && w.paying[k].cmd.order !in w.st.pay.payments
    requires Path(Apply(w, PayWrite(k, tx, ok)), acts, v) && worker !in v.paying
    ensures var u, job := Apply(w, PayWrite(k, tx, ok)), w.paying[k];
      && u.st.pay.payments == w.st.pay.payments[job.cmd.order :=
           Payment(job.cmd.amount, if ok then PaymentSuccess else PaymentFailed, tx)]
      && Enabled(v, PayStart(worker, job.id)) && Apply(v, PayStart(worker, job.id)) == v
  {
    hide Inv, Mono, Path, Reachable, Apply;
    var u, job := Apply(w, PayWrite(k, tx, ok)), w.paying[k];
    ReachableOk(w);
    CommandsConsumed(w, k);
    PayWriteMarks(w, k, tx, ok);
    StepKeeps(w, PayWrite(k, tx, ok));
    PathKeeps(u, acts, v);
    MarkStays(u, v, job.id);
    MarkedIsSkipped(v, worker, job.id);
  }

  lemma MarkStays(w: World, v: World, id: MsgId)
    requires Mono(w, v) && id in w.st.pay.processed && id in w.sent
    ensures id in v.st.pay.processed && id in v.sent && v.sent[id] == w.sent[id]
  {
    hide OrdersGrow, SagasGrow, StockGrows;
  }

  lemma MarkedIsSkipped(w: World, k: nat, id: MsgId)
    requires id in w.st.pay.processed && id in w.sent && w.sent[id].ProcessPayment? && k !in w.paying
    ensures Enabled(w, PayStart(k, id)) && Apply(w, PayStart(k, id)) == w
  {}
}
