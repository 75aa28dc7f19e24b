/** Every step of the state machine keeps the invariant and undoes nothing; so does every run. */
module Preservation {
  import opened Types
  import opened OrderStore
  import opened InventoryStore
  import opened PaymentStore
  import opened Protocol
  import opened Invariant
  import opened StoreSteps

  // ----- shared arguments, one per part of the invariant -----

  lemma GrowsReflexive(a: Stores)
    ensures Grows(a, a)
  {}

  lemma MessagesKept(w: World, v: World)
    requires MessagesOk(w) && Grows(w.st, v.st)
    requires forall id :: id in v.sent ==> (id in w.sent && w.sent[id] == v.sent[id]) || Justified(v.st, v.sent[id])
    requires forall t :: t in v.owed ==> t in w.owed || TaskOk(v.st, t)
    requires forall item :: item in v.listed ==> item in w.listed || ItemOk(v.st, item)
    ensures MessagesOk(v)
  {
    hide Grows, Justified, TaskOk, ItemOk;
    forall id | id in v.sent ensures Justified(v.st, v.sent[id]) {
      if id in w.sent && w.sent[id] == v.sent[id] { JustifiedGrows(w.st, v.st, v.sent[id]); }
    }
    forall t | t in v.owed ensures TaskOk(v.st, t) {
      if t in w.owed { TaskGrows(w.st, v.st, t); }
    }
    forall item | item in v.listed ensures ItemOk(v.st, item) {
      if item in w.listed { ItemGrows(w.st, v.st, item); }
    }
  }

  lemma ReserveJobKept(a: Stores, b: Stores, o: OrderId, job: ReserveJob)
    requires Grows(a, b) && ReserveJobOk(a, o, job)
    requires o in Logged(b.inv.logs, Reserve) ==> o in Logged(a.inv.logs, Reserve)
    ensures ReserveJobOk(b, o, job)
  {
    hide SagasGrow, OrdersGrow, Justified;
    JustifiedGrows(a, b, job.cmd);
    var p := job.cmd.product;
    CountPrefix(a.inv.logs, b.inv.logs, p);
    assert b.inv.logs[..job.mark] == a.inv.logs[..job.mark];
    if job.phase.HasRead? {
      assert b.inv.logs[..job.phase.at] == a.inv.logs[..job.phase.at];
    }
  }

  lemma JobsKept(w: World, v: World)
    requires JobsOk(w) && Grows(w.st, v.st)
    requires forall id :: id in w.sent ==> id in v.sent && v.sent[id] == w.sent[id]
    requires forall o :: o in v.reserving ==>
      || (o in w.reserving && w.reserving[o] == v.reserving[o] &&
          (o in Logged(v.st.inv.logs, Reserve) ==> o in Logged(w.st.inv.logs, Reserve)))
      || ReserveJobOk(v.st, o, v.reserving[o])
    requires forall o :: o in v.releasing ==>
      || (o in w.releasing && w.releasing[o] == v.releasing[o] &&
          (o in Logged(v.st.inv.logs, Release) ==> o in Logged(w.st.inv.logs, Release)))
      || ReleaseJobOk(v.st, o, v.releasing[o])
    requires forall k :: k in v.paying ==> (k in w.paying && w.paying[k] == v.paying[k]) || PayJobOk(v, v.paying[k])
    ensures JobsOk(v)
  {
    hide Grows, Justified, ReserveJobOk;
    forall o | o in v.reserving ensures ReserveJobOk(v.st, o, v.reserving[o]) {
      if o in w.reserving && w.reserving[o] == v.reserving[o] &&
         (o in Logged(v.st.inv.logs, Reserve) ==> o in Logged(w.st.inv.logs, Reserve)) {
        ReserveJobKept(w.st, v.st, o, v.reserving[o]);
      }
    }
    forall o | o in v.releasing ensures ReleaseJobOk(v.st, o, v.releasing[o]) {
      if o in w.releasing && w.releasing[o] == v.releasing[o] &&
         (o in Logged(v.st.inv.logs, Release) ==> o in Logged(w.st.inv.logs, Release)) {
        JustifiedGrows(w.st, v.st, v.releasing[o]);
      }
    }
    forall k | k in v.paying ensures PayJobOk(v, v.paying[k]) {
      if k in w.paying && w.paying[k] == v.paying[k] { JustifiedGrows(w.st, v.st, v.paying[k].cmd); }
    }
  }

  lemma ConsumedKept(w: World, v: World)
    requires ConsumedOk(w) && Grows(w.st, v.st)
    requires forall id :: id in w.sent ==> id in v.sent && v.sent[id] == w.sent[id]
    requires v.st.orderDb.processed == w.st.orderDb.processed && v.st.pay.processed == w.st.pay.processed
    ensures ConsumedOk(v)
  {
    hide OrdersGrow, StockGrows;
    forall id | id in v.st.orderDb.processed
      ensures Rank(v.st.orderDb.sagas[v.sent[id].saga].step) < Rank(v.sent[id].Answers())
    {
      assert SagaGrows(w.st, v.st, w.sent[id].saga);
    }
  }

  lemma RecordsKept(w: World, v: World)
    requires RecordsOk(w) && Grows(w.st, v.st)
    requires forall s, status ::
      v.owed[Record(s, status)] + v.recorded[(s, status)] <= w.owed[Record(s, status)] + w.recorded[(s, status)]
    requires forall r :: r in v.recorded ==> r in w.recorded || Terminal(v.st, r.0, r.1)
    ensures RecordsOk(v)
  {
    hide OrdersGrow, StockGrows, FactsGrow;
    forall r | r in v.recorded ensures Terminal(v.st, r.0, r.1) {
      if r in w.recorded { TaskGrows(w.st, v.st, Record(r.0, r.1)); }
    }
  }

  /** The stores did not change and nothing new is in circulation, apart from what is shown justified. */
  lemma TrafficKept(w: World, v: World)
    requires Inv(w) && v.st == w.st && v.budget == w.budget
    requires forall id :: id in w.sent ==> id in v.sent && v.sent[id] == w.sent[id]
    requires forall id :: id in v.sent ==> (id in w.sent && w.sent[id] == v.sent[id]) || Justified(v.st, v.sent[id])
    requires forall t :: t in v.owed ==> t in w.owed || TaskOk(v.st, t)
    requires forall item :: item in v.listed ==> item in w.listed || ItemOk(v.st, item)
    requires forall o :: o in v.reserving ==>
      (o in w.reserving && w.reserving[o] == v.reserving[o]) || ReserveJobOk(v.st, o, v.reserving[o])
    requires forall o :: o in v.releasing ==>
      (o in w.releasing && w.releasing[o] == v.releasing[o]) || ReleaseJobOk(v.st, o, v.releasing[o])
    requires forall k :: k in v.paying ==> (k in w.paying && w.paying[k] == v.paying[k]) || PayJobOk(v, v.paying[k])
    requires w.recorded <= v.recorded
    requires forall s, status ::
      v.owed[Record(s, status)] + v.recorded[(s, status)] <= w.owed[Record(s, status)] + w.recorded[(s, status)]
    requires forall r :: r in v.recorded ==> r in w.recorded || Terminal(v.st, r.0, r.1)
    ensures Inv(v) && Mono(w, v)
  {
    hide StoresOk, Grows, Justified, TaskOk, ItemOk, Terminal, MessagesOk, ConsumedOk, RecordsOk;
    GrowsReflexive(w.st);
    MessagesKept(w, v);
    JobsKept(w, v);
    ConsumedKept(w, v);
    RecordsKept(w, v);
  }

  /** The stores moved by one of the changes of StoreSteps; at most one more message is owed. */
  lemma StoresKept(w: World, v: World)
    requires Inv(w) && Kept(w.st, v.st, w.budget) && ConsumedOk(v)
    requires v.budget == w.budget && v.sent == w.sent && v.listed == w.listed && v.recorded == w.recorded
    requires forall t :: t in v.owed ==> t in w.owed || TaskOk(v.st, t)
    requires forall s, status :: v.owed[Record(s, status)] <= w.owed[Record(s, status)]
    requires forall o :: o in v.reserving ==>
      && o in w.reserving && w.reserving[o] == v.reserving[o]
      && (o in Logged(v.st.inv.logs, Reserve) ==> o in Logged(w.st.inv.logs, Reserve))
    requires forall o :: o in v.releasing ==>
      && o in w.releasing && w.releasing[o] == v.releasing[o]
      && (o in Logged(v.st.inv.logs, Release) ==> o in Logged(w.st.inv.logs, Release))
    requires forall k :: k in v.paying ==> k in w.paying && w.paying[k] == v.paying[k]
    ensures Inv(v) && Mono(w, v)
  {
    hide StoresOk, Grows, Justified, TaskOk, ItemOk, Terminal, MessagesOk, ConsumedOk, RecordsOk, JobsOk;
    MessagesKept(w, v);
    JobsKept(w, v);
    RecordsKept(w, v);
  }

  // ----- order service -----

  lemma CreateSkuKeeps(w: World, v: World, p: ProductId, qty: int)
    requires Inv(w) && p !in w.st.inv.rows && p !in w.st.supply && qty >= 0 && v == DoCreateSku(w, p, qty)
    ensures Inv(v) && Mono(w, v)
  {
    hide StoresOk, Grows, TaskOk, MessagesOk, ConsumedOk, RecordsOk, ReserveJobOk, PayJobOk;
    SkuStep(w.st, v.st, w.budget, p, qty);
    ConsumedKept(w, v);
    StoresKept(w, v);
  }

  lemma CreateOrderKeeps(w: World, v: World, o: OrderId, p: ProductId, qty: int, amount: int)
    requires Inv(w) && o !in w.st.orderDb.orders && qty >= 1 && v == DoCreateOrder(w, o, p, qty, amount)
    ensures Inv(v) && Mono(w, v)
  {
    hide StoresOk, Grows, TaskOk, MessagesOk, ConsumedOk, RecordsOk, ReserveJobOk, PayJobOk;
    OrderStep(w.st, v.st, w.budget, o, Order(p, qty, amount, OrderPending));
    ConsumedKept(w, v);
    StoresKept(w, v);
  }

  lemma StartSagaKeeps(w: World, v: World, s: SagaId, o: OrderId)
    requires Inv(w) && s !in w.st.orderDb.sagas && o in w.st.orderDb.orders && o !in Owners(w.st.orderDb)
    requires v == DoStartSaga(w, s, o)
    ensures Inv(v) && Mono(w, v)
  {
    hide StoresOk, Grows, MessagesOk, ConsumedOk, RecordsOk, ReserveJobOk, PayJobOk;
    NewSagaStep(w.st, v.st, w.budget, s, o);
    ConsumedKept(w, v);
    StoresKept(w, v);
  }

  lemma FollowupOk(a: Stores, b: Stores, budget: int, id: MsgId, ev: Message)
    requires StoresOk(a, budget) && Kept(a, b, budget)
    requires ev.IsEvent() && Justified(a, ev) && Judge(a.orderDb, id, ev).Applied?
    requires b == a.(orderDb := Consume(a.orderDb, id, ev))
    ensures TaskOk(b, Followup(a.orderDb, ev))
    ensures Rank(b.orderDb.sagas[ev.saga].step) < Rank(a.orderDb.sagas[ev.saga].step)
  {
    hide RowsOk, StockOk, PaymentsOk, AnswersOk, RefusalsOk, OrdersGrow, FactsGrow, StockGrows;
    assert SagaOk(a, ev.saga) && SagaOk(b, ev.saga);
  }

  lemma HandleEventConsumed(w: World, v: World, id: MsgId)
    requires ConsumedOk(w) && id in w.sent && w.sent[id].IsEvent() && Justified(w.st, w.sent[id])
    requires Judge(w.st.orderDb, id, w.sent[id]).Applied? && v == DoHandleEvent(w, id, w.sent[id])
    requires Grows(w.st, v.st)
    requires var s := w.sent[id].saga; Rank(v.st.orderDb.sagas[s].step) < Rank(w.st.orderDb.sagas[s].step)
    ensures ConsumedOk(v)
  {
    hide OrdersGrow, StockGrows;
    forall e | e in v.st.orderDb.processed
      ensures e in v.sent && v.sent[e].IsEvent() && v.sent[e].saga in v.st.orderDb.sagas
      ensures Rank(v.st.orderDb.sagas[v.sent[e].saga].step) < Rank(v.sent[e].Answers())
    {
      assert SagaGrows(w.st, v.st, w.sent[e].saga);
    }
  }

  /** A terminal state is owed only by the commit that reaches it. */
  lemma HandleEventRecords(w: World, v: World, id: MsgId)
    requires RecordsOk(w) && MessagesOk(w) && Grows(w.st, v.st)
    requires id in w.sent && w.sent[id].IsEvent() && Justified(w.st, w.sent[id])
    requires Judge(w.st.orderDb, id, w.sent[id]).Applied? && v == DoHandleEvent(w, id, w.sent[id])
    ensures RecordsOk(v)
  {
    hide OrdersGrow, StockGrows, FactsGrow, SagasGrow, Justified;
    var t := Followup(w.st.orderDb, w.sent[id]);
    if t.Record? {
      assert !Terminal(w.st, t.saga, t.status);
      assert !TaskOk(w.st, t) && t !in w.owed && (t.saga, t.status) !in w.recorded;
    }
    forall r | r in v.recorded ensures Terminal(v.st, r.0, r.1) {
      TaskGrows(w.st, v.st, Record(r.0, r.1));
    }
  }

  lemma EffectiveEventKeeps(w: World, v: World, id: MsgId)
    requires Inv(w) && id in w.sent && w.sent[id].IsEvent() && Judge(w.st.orderDb, id, w.sent[id]).Applied?
    requires v == DoHandleEvent(w, id, w.sent[id])
    ensures Inv(v) && Mono(w, v)
  {
    hide StoresOk, Grows, ReserveJobOk, ReleaseJobOk, PayJobOk, TaskOk, Justified, ConsumedOk, RecordsOk, Consume,
      Followup;
    var ev := w.sent[id];
    assert Justified(w.st, ev);
    EventStep(w.st, v.st, w.budget, id, ev);
    FollowupOk(w.st, v.st, w.budget, id, ev);
    HandleEventConsumed(w, v, id);
    HandleEventRecords(w, v, id);
    MessagesKept(w, v);
    JobsKept(w, v);
  }

  lemma HandleEventKeeps(w: World, v: World, id: MsgId)
    requires Inv(w) && id in w.sent && w.sent[id].IsEvent() && v == DoHandleEvent(w, id, w.sent[id])
    ensures Inv(v) && Mono(w, v)
  {
    hide Inv, Mono;
    if Judge(w.st.orderDb, id, w.sent[id]).Applied? {
      EffectiveEventKeeps(w, v, id);
    } else {
      NothingKept(w);
    }
  }

  lemma NothingKept(w: World)
    requires Inv(w)
    ensures Mono(w, w)
  {
    GrowsReflexive(w.st);
  }

  // ----- publishing and recovery: only traffic changes -----

  lemma SendKeeps(w: World, v: World, m: Message, id: MsgId)
    requires Inv(w) && Publish(m) in w.owed && id !in w.sent && v == DoSend(w, m, id)
    ensures Inv(v) && Mono(w, v)
  {
    hide StoresOk, ReserveJobOk, ReleaseJobOk, PayJobOk, Justified, ItemOk, ConsumedOk, RecordsOk, Mono;
    assert TaskOk(w.st, Publish(m));
    TrafficKept(w, v);
  }

  lemma RecordTerminalKeeps(w: World, v: World, s: SagaId, status: SagaStatus)
    requires Inv(w) && Record(s, status) in w.owed && v == DoRecordTerminal(w, s, status)
    ensures Inv(v) && Mono(w, v)
  {
    hide StoresOk, ReserveJobOk, ReleaseJobOk, PayJobOk, Justified, ItemOk, ConsumedOk, RecordsOk, Terminal, Mono;
    assert TaskOk(w.st, Record(s, status));
    TrafficKept(w, v);
  }

  lemma DropKeeps(w: World, v: World, t: Task)
    requires Inv(w) && v == w.(owed := w.owed - multiset{t})
    ensures Inv(v) && Mono(w, v)
  {
    hide StoresOk, ReserveJobOk, ReleaseJobOk, PayJobOk, Justified, ItemOk, TaskOk, ConsumedOk, RecordsOk, Mono;
    TrafficKept(w, v);
  }

  /** A listed row has a command to resend, and that command is justified. */
  lemma ListedOk(st: Stores, s: SagaId)
    requires s in st.orderDb.sagas && SagaOk(st, s)
    requires st.orderDb.sagas[s].status == InProgress || st.orderDb.sagas[s].status == Compensating
    ensures ItemOk(st, Snapshot(s, st.orderDb.sagas[s]))
  {}

  lemma ListKeeps(w: World, v: World, status: SagaStatus)
    requires Inv(w) && (status == InProgress || status == Compensating) && v == DoList(w, status)
    ensures Inv(v) && Mono(w, v)
  {
    hide RowsOk, StockOk, PaymentsOk, AnswersOk, RefusalsOk, SagaOk;
    hide ReserveJobOk, ReleaseJobOk, PayJobOk, Justified, ItemOk, TaskOk, ConsumedOk, RecordsOk, Mono;
    forall item | item in v.listed ensures item in w.listed || ItemOk(v.st, item) {
      if item in Listing(w.st.orderDb, status) { ListedOk(w.st, item.id); }
    }
    TrafficKept(w, v);
  }

  lemma RecoverItemKeeps(w: World, v: World, item: Snapshot)
    requires Inv(w) && item in w.listed && item.saga.order in w.st.orderDb.orders && v == DoRecoverItem(w, item)
    ensures Inv(v) && Mono(w, v)
  {
    hide StoresOk, ReserveJobOk, ReleaseJobOk, PayJobOk, Justified, ConsumedOk, RecordsOk, Mono;
    assert ItemOk(w.st, item);
    TrafficKept(w, v);
  }

  lemma SkipItemKeeps(w: World, v: World, item: Snapshot)
    requires Inv(w) && v == w.(listed := w.listed - multiset{item})
    ensures Inv(v) && Mono(w, v)
  {
    hide StoresOk, ReserveJobOk, ReleaseJobOk, PayJobOk, Justified, ItemOk, TaskOk, ConsumedOk, RecordsOk, Mono;
    TrafficKept(w, v);
  }

  // ----- inventory service: reserving -----

  /** Answering an order's reserve command keeps the invariant, whatever the reason for the answer. */
  lemma AnswerReserveKeeps(w: World, v: World, cmd: Message, ok: bool)
    requires Inv(w) && cmd.ReserveInventory? && Justified(w.st, cmd) && v == AnswerReserve(w, cmd, ok)
    requires if ok then Holds(w.st, cmd.order) else !Holds(w.st, cmd.order) && RefusalFair(w.st, w.budget, cmd.order)
    ensures Inv(v) && Mono(w, v)
  {
    hide StoresOk, Grows, ReserveJobOk, ReleaseJobOk, PayJobOk, MessagesOk, ConsumedOk, RecordsOk, RefusalFair, Mono;
    AnswerStep(w.st, v.st, w.budget, cmd.order, ok);
    JustifiedGrows(w.st, v.st, cmd);
    ConsumedKept(w, v);
    StoresKept(w, v);
  }

  lemma ReserveStartKeeps(w: World, v: World, id: MsgId)
    requires Inv(w) && id in w.sent && w.sent[id].ReserveInventory? && v == DoReserveStart(w, w.sent[id])
    ensures Inv(v) && Mono(w, v)
  {
    hide StoresOk, ReleaseJobOk, PayJobOk, ItemOk, TaskOk, ConsumedOk, RecordsOk, Mono;
    var cmd := w.sent[id];
    assert Justified(w.st, cmd);
    if Holds(w.st, cmd.order) {
      AnswerReserveKeeps(w, v, cmd, true);
    } else {
      assert w.st.inv.logs[..|w.st.inv.logs|] == w.st.inv.logs;
      TrafficKept(w, v);
    }
  }

  /** Too little stock at the read is a fair refusal. */
  lemma ShortIsFair(st: Stores, budget: int, o: OrderId, p: ProductId, qty: int)
    requires StoresOk(st, budget) && Copies(st, o, p, qty)
    requires p in st.inv.rows && st.inv.rows[p].available < qty
    ensures RefusalFair(st, budget, o)
  {}

  /** So is exhausting the budget: every failed attempt had a rival that took at least one unit. */
  lemma ExhaustedIsFair(st: Stores, budget: int, o: OrderId, job: ReserveJob)
    requires StoresOk(st, budget) && ReserveJobOk(st, o, job)
    requires job.phase.Ready? && job.attempt >= budget
    ensures RefusalFair(st, budget, o)
  {
    hide SagasOk, PaymentsOk, AnswersOk, RefusalsOk;
    var p := job.cmd.product;
    assert p in st.inv.rows ==> RowOk(st, p);
    if NoReleases(st.inv.logs, p) {
      NetAtLeastCount(st.inv.logs, st.orderDb.orders, p);
    }
  }

  lemma ReserveReadKeeps(w: World, v: World, o: OrderId)
    requires Inv(w) && o in w.reserving && w.reserving[o].cmd.ReserveInventory?
    requires w.reserving[o].phase.Ready? && w.reserving[o].cmd.product in w.st.inv.rows
    requires v == DoReserveRead(w, w.reserving[o])
    ensures Inv(v) && Mono(w, v)
  {
    hide RowsOk, SagasOk, PaymentsOk, AnswersOk, RefusalsOk, RefusalFair;
    hide ReleaseJobOk, PayJobOk, ItemOk, TaskOk, ConsumedOk, RecordsOk, Mono;
    var job := w.reserving[o];
    assert ReserveJobOk(w.st, o, job) && RowOk(w.st, job.cmd.product);
    if w.st.inv.rows[job.cmd.product].available < job.cmd.quantity {
      ShortIsFair(w.st, w.budget, o, job.cmd.product, job.cmd.quantity);
      AnswerReserveKeeps(w, v, job.cmd, false);
    } else {
      assert w.st.inv.logs[..|w.st.inv.logs|] == w.st.inv.logs;
      TrafficKept(w, v);
    }
  }

  lemma ReserveExhaustedKeeps(w: World, v: World, o: OrderId)
    requires Inv(w) && o in w.reserving && w.reserving[o].cmd.ReserveInventory?
    requires w.reserving[o].phase.Ready? && w.reserving[o].attempt >= w.budget
    requires v == AnswerReserve(w, w.reserving[o].cmd, false)
    ensures Inv(v) && Mono(w, v)
  {
    hide StoresOk, RefusalFair, ReleaseJobOk, PayJobOk, ItemOk, TaskOk, ConsumedOk, RecordsOk, Mono;
    assert ReserveJobOk(w.st, o, w.reserving[o]);
    ExhaustedIsFair(w.st, w.budget, o, w.reserving[o]);
    AnswerReserveKeeps(w, v, w.reserving[o].cmd, false);
  }

  lemma ReserveJobFacts(w: World, o: OrderId)
    requires Inv(w) && o in w.reserving
    ensures var cmd := w.reserving[o].cmd;
      && cmd.ReserveInventory? && cmd.order == o && Justified(w.st, cmd) && !Holds(w.st, o)
      && o in Owners(w.st.orderDb) && Copies(w.st, o, cmd.product, cmd.quantity)
  {
    hide StoresOk, MessagesOk, ConsumedOk, RecordsOk;
    assert ReserveJobOk(w.st, o, w.reserving[o]);
    assert w.st.orderDb.sagas[w.reserving[o].cmd.saga].order == o;
  }

  lemma ReleaseJobFacts(w: World, o: OrderId)
    requires Inv(w) && o in w.releasing
    ensures var cmd := w.releasing[o];
      && cmd.ReleaseInventory? && cmd.order == o && Justified(w.st, cmd) && !GaveBack(w.st, o)
  {
    hide StoresOk, MessagesOk, ConsumedOk, RecordsOk, Justified;
    assert ReleaseJobOk(w.st, o, w.releasing[o]);
  }

  lemma PayJobFacts(w: World, k: nat)
    requires Inv(w) && k in w.paying
    ensures PayJobOk(w, w.paying[k])
  {}

  /** The write that grants: row, log entry and answer move together. */
  lemma GrantKeeps(w: World, v: World, o: OrderId)
    requires Inv(w) && o in w.reserving && w.reserving[o].cmd.ReserveInventory?
    requires w.reserving[o].phase.HasRead? && v == DoReserveWrite(w, w.reserving[o])
    requires var job := w.reserving[o]; CanReserve(w.st.inv, job.cmd.product, job.phase.version, job.cmd.quantity)
    ensures Inv(v) && Mono(w, v) && Holds(v.st, o)
  {
    hide StoresOk, Grows, ReserveJobOk, ReleaseJobOk, PayJobOk, MessagesOk, ConsumedOk, RecordsOk, Mono, CanReserve;
    var job := w.reserving[o];
    var cmd := job.cmd;
    ReserveJobFacts(w, o);
    ReserveStep(w.st, v.st, w.budget, cmd.product, o, job.phase.version, cmd.quantity);
    GrantLogs(w.st, v.st, job.cmd, job.phase.version);
    JustifiedGrows(w.st, v.st, cmd);
    ConsumedKept(w, v);
    StoresKept(w, v);
  }

  lemma GrantLogs(a: Stores, b: Stores, cmd: Message, version: int)
    requires cmd.ReserveInventory? && CanReserve(a.inv, cmd.product, version, cmd.quantity)
    requires b.inv == ReserveIn(a.inv, cmd.product, cmd.order, version, cmd.quantity)
    ensures Logged(b.inv.logs, Reserve) == Logged(a.inv.logs, Reserve) + {cmd.order}
    ensures Logged(b.inv.logs, Release) == Logged(a.inv.logs, Release)
  {
    var e := LogEntry(cmd.product, cmd.order, Reserve, cmd.quantity);
    LoggedAppend(a.inv.logs, e, Reserve);
    LoggedAppend(a.inv.logs, e, Release);
  }

  /** A write that affects no row found a newer version, so a rival committed since the read. */
  lemma FailedWrite(st: Stores, budget: int, o: OrderId, job: ReserveJob)
    requires StoresOk(st, budget) && ReserveJobOk(st, o, job) && job.phase.HasRead?
    requires !CanReserve(st.inv, job.cmd.product, job.phase.version, job.cmd.quantity)
    ensures Count(st.inv.logs, job.cmd.product) > Count(st.inv.logs[..job.phase.at], job.cmd.product)
    ensures ReserveJobOk(st, o, job.(attempt := job.attempt + 1, phase := Ready))
  {
    hide RowsOk, SagasOk, PaymentsOk, AnswersOk, RefusalsOk, Justified;
    assert RowOk(st, job.cmd.product);
  }

  lemma ReserveWriteKeeps(w: World, v: World, o: OrderId)
    requires Inv(w) && o in w.reserving && w.reserving[o].cmd.ReserveInventory?
    requires w.reserving[o].phase.HasRead? && v == DoReserveWrite(w, w.reserving[o])
    ensures Inv(v) && Mono(w, v)
  {
    hide StoresOk, ReserveJobOk, ReleaseJobOk, PayJobOk, ItemOk, TaskOk, ConsumedOk, RecordsOk, Mono, CanReserve;
    var job := w.reserving[o];
    ReserveJobFacts(w, o);
    if CanReserve(w.st.inv, job.cmd.product, job.phase.version, job.cmd.quantity) {
      GrantKeeps(w, v, o);
    } else {
      FailedWrite(w.st, w.budget, o, job);
      TrafficKept(w, v);
    }
  }

  lemma ReserveAbortKeeps(w: World, v: World, o: OrderId)
    requires Inv(w) && v == w.(reserving := w.reserving - {o})
    ensures Inv(v) && Mono(w, v)
  {
    hide StoresOk, ReserveJobOk, ReleaseJobOk, PayJobOk, ItemOk, TaskOk, ConsumedOk, RecordsOk, Mono;
    TrafficKept(w, v);
  }

  // ----- inventory service: releasing -----

  lemma ReleaseStartKeeps(w: World, v: World, id: MsgId)
    requires Inv(w) && id in w.sent && w.sent[id].ReleaseInventory? && v == DoReleaseStart(w, w.sent[id])
    ensures Inv(v) && Mono(w, v)
  {
    hide StoresOk, ReserveJobOk, PayJobOk, ItemOk, ConsumedOk, RecordsOk, Mono, Late, Copies, Addressed;
    assert Justified(w.st, w.sent[id]);
    TrafficKept(w, v);
  }

  lemma ReleaseWriteKeeps(w: World, v: World, o: OrderId)
    requires Inv(w) && o in w.releasing && w.releasing[o].ReleaseInventory? && v == DoReleaseWrite(w, w.releasing[o])
    ensures Inv(v) && Mono(w, v) && w.releasing[o].product in w.st.inv.rows && GaveBack(v.st, o)
  {
    hide StoresOk, Grows, ReserveJobOk, ReleaseJobOk, PayJobOk, MessagesOk, ConsumedOk, RecordsOk, Mono;
    var cmd := w.releasing[o];
    ReleaseJobFacts(w, o);
    ReleaseStep(w.st, w.st.(inv := v.st.inv), w.budget, cmd.saga, cmd.product, o, cmd.quantity);
    assert v.st == w.st.(inv := v.st.inv);
    ReleaseLogs(w.st, v.st, cmd);
    JustifiedGrows(w.st, v.st, cmd);
    ConsumedKept(w, v);
    StoresKept(w, v);
  }

  lemma ReleaseLogs(a: Stores, b: Stores, cmd: Message)
    requires cmd.ReleaseInventory? && cmd.product in a.inv.rows
    requires b.inv == ReleaseIn(a.inv, cmd.product, cmd.order, cmd.quantity)
    ensures Logged(b.inv.logs, Reserve) == Logged(a.inv.logs, Reserve)
    ensures Logged(b.inv.logs, Release) == Logged(a.inv.logs, Release) + {cmd.order}
  {
    var e := LogEntry(cmd.product, cmd.order, Release, cmd.quantity);
    LoggedAppend(a.inv.logs, e, Reserve);
    LoggedAppend(a.inv.logs, e, Release);
  }

  lemma ReleaseErrorKeeps(w: World, v: World, o: OrderId)
    requires Inv(w) && o in w.releasing && w.releasing[o].ReleaseInventory? &&
      v == AnswerRelease(w, w.releasing[o], false)
    ensures Inv(v) && Mono(w, v)
  {
    hide StoresOk, Grows, ReserveJobOk, ReleaseJobOk, PayJobOk, MessagesOk, ConsumedOk, RecordsOk, Mono;
    var cmd := w.releasing[o];
    ReleaseJobFacts(w, o);
    RefuseReleaseStep(w.st, v.st, w.budget, o);
    JustifiedGrows(w.st, v.st, cmd);
    ConsumedKept(w, v);
    StoresKept(w, v);
  }

  lemma ReleaseAbortKeeps(w: World, v: World, o: OrderId)
    requires Inv(w) && v == w.(releasing := w.releasing - {o})
    ensures Inv(v) && Mono(w, v)
  {
    hide StoresOk, ReserveJobOk, ReleaseJobOk, PayJobOk, ItemOk, TaskOk, ConsumedOk, RecordsOk, Mono;
    TrafficKept(w, v);
  }

  // ----- payment service -----

  lemma PayStartKeeps(w: World, v: World, k: nat, id: MsgId)
    requires Inv(w) && id in w.sent && w.sent[id].ProcessPayment? && v == DoPayStart(w, k, id, w.sent[id])
    ensures Inv(v) && Mono(w, v)
  {
    hide StoresOk, ReserveJobOk, ReleaseJobOk, ItemOk, TaskOk, Justified, ConsumedOk, RecordsOk, Mono;
    TrafficKept(w, v);
  }

  lemma ReplayOk(st: Stores, budget: int, cmd: Message)
    requires StoresOk(st, budget) && cmd.ProcessPayment? && Justified(st, cmd) && cmd.order in st.pay.payments
    ensures Justified(st, PaymentAnswer(cmd, st.pay.payments[cmd.order]))
  {}

  lemma PayReadKeeps(w: World, v: World, k: nat)
    requires Inv(w) && k in w.paying && w.paying[k].cmd.ProcessPayment? && v == DoPayRead(w, k, w.paying[k])
    ensures Inv(v) && Mono(w, v)
  {
    hide StoresOk, ReserveJobOk, ReleaseJobOk, ItemOk, Justified, ConsumedOk, RecordsOk, Mono;
    PayJobFacts(w, k);
    if w.paying[k].cmd.order in w.st.pay.payments { ReplayOk(w.st, w.budget, w.paying[k].cmd); }
    TrafficKept(w, v);
  }

  lemma PayConsumed(w: World, v: World, k: nat, tx: TxId, ok: bool)
    requires ConsumedOk(w) && k in w.paying && PayJobOk(w, w.paying[k]) && Grows(w.st, v.st)
    requires v == DoPayWrite(w, k, w.paying[k], tx, ok)
    ensures ConsumedOk(v)
  {
    hide OrdersGrow, StockGrows, SagasGrow, Justified;
  }

  lemma ChargeKeeps(w: World, v: World, k: nat, tx: TxId, ok: bool)
    requires Inv(w) && k in w.paying && w.paying[k].cmd.ProcessPayment?
    requires CanCreate(w.st.pay, w.paying[k].cmd.order, w.paying[k].id)
    requires v == DoPayWrite(w, k, w.paying[k], tx, ok)
    ensures Inv(v) && Mono(w, v)
  {
    hide StoresOk, Grows, ReserveJobOk, ReleaseJobOk, MessagesOk, ConsumedOk, RecordsOk, Mono;
    var cmd := w.paying[k].cmd;
    var row := Payment(cmd.amount, if ok then PaymentSuccess else PaymentFailed, tx);
    PayJobFacts(w, k);
    PayStep(w.st, v.st, w.budget, cmd.saga, cmd.order, row, w.paying[k].id);
    JustifiedGrows(w.st, v.st, cmd);
    ReplayOk(v.st, w.budget, cmd);
    PayConsumed(w, v, k, tx, ok);
    StoresKept(w, v);
  }

  lemma PayWriteKeeps(w: World, v: World, k: nat, tx: TxId, ok: bool)
    requires Inv(w) && k in w.paying && w.paying[k].cmd.ProcessPayment?
    requires v == DoPayWrite(w, k, w.paying[k], tx, ok)
    ensures Inv(v) && Mono(w, v)
  {
    hide StoresOk, ReserveJobOk, ReleaseJobOk, PayJobOk, ItemOk, TaskOk, ConsumedOk, RecordsOk, Mono;
    if CanCreate(w.st.pay, w.paying[k].cmd.order, w.paying[k].id) {
      ChargeKeeps(w, v, k, tx, ok);
    } else {
      TrafficKept(w, v);
    }
  }

  lemma PayAbortKeeps(w: World, v: World, k: nat)
    requires Inv(w) && v == w.(paying := w.paying - {k})
    ensures Inv(v) && Mono(w, v)
  {
    hide StoresOk, ReserveJobOk, ReleaseJobOk, PayJobOk, ItemOk, TaskOk, ConsumedOk, RecordsOk, Mono;
    TrafficKept(w, v);
  }
}
