/** Safety over whole runs: agreement, exclusion, correlation, and what recovery resends. */
module Safety {
  import opened Types
  import opened OrderStore
  import opened InventoryStore
  import opened Protocol
  import opened Invariant
  import opened Runs

  /** A message that was published, or that some handler still owes. */
  ghost predicate InCirculation(w: World, m: Message) {
    m in w.sent.Values || Publish(m) in w.owed
  }

  lemma CirculatingOk(w: World, m: Message)
    requires Inv(w) && InCirculation(w, m)
    ensures Justified(w.st, m)
  {
    hide StoresOk, JobsOk, ConsumedOk, RecordsOk, Justified;
    if Publish(m) in w.owed {
      assert TaskOk(w.st, Publish(m));
    } else {
      var id :| id in w.sent && w.sent[id] == m;
    }
  }

  lemma SagaFacts(w: World, s: SagaId)
    requires Inv(w) && s in w.st.orderDb.sagas
    ensures SagaOk(w.st, s)
  {}

  lemma OneSaga(w: World, s: SagaId, t: SagaId)
    requires Inv(w) && s in w.st.orderDb.sagas && t in w.st.orderDb.sagas
    requires w.st.orderDb.sagas[s].order == w.st.orderDb.sagas[t].order
    ensures s == t
  {}

  lemma ReleasingFacts(w: World, o: OrderId)
    requires Inv(w) && o in w.releasing
    ensures w.releasing[o].ReleaseInventory? && w.releasing[o].order == o && Justified(w.st, w.releasing[o])
  {
    hide StoresOk, MessagesOk, ConsumedOk, RecordsOk, Justified;
    assert ReleaseJobOk(w.st, o, w.releasing[o]);
  }

  // ----- the log holds at most one entry per order and action, copied from the order -----

  lemma {:induction false} EntryOf(logs: seq<LogEntry>, orders: map<OrderId, Order>, o: OrderId, action: Action)
    requires LogOk(logs, orders) && o in Logged(logs, action)
    ensures o in orders
    ensures LogEntry(orders[o].product, o, action, orders[o].quantity) in logs
  {
    var n := |logs| - 1;
    if logs[n].order != o || logs[n].action != action {
      EntryOf(logs[..n], orders, o, action);
    }
  }

  lemma {:induction false} EntryLogged(logs: seq<LogEntry>, i: nat)
    requires i < |logs|
    ensures logs[i].order in Logged(logs, logs[i].action)
  {
    if i < |logs| - 1 {
      EntryLogged(logs[..|logs| - 1], i);
    }
  }

  lemma {:induction false} EntriesUnique(logs: seq<LogEntry>, orders: map<OrderId, Order>, i: nat, j: nat)
    requires LogOk(logs, orders) && i < j < |logs|
    ensures logs[i].order != logs[j].order || logs[i].action != logs[j].action
  {
    var n := |logs| - 1;
    if j == n {
      EntryLogged(logs[..n], i);
    } else {
      EntriesUnique(logs[..n], orders, i, j);
    }
  }

  // ----- payment agreement -----

  /** Every outcome ever published for an order, before or after, over all commands, retries and
      recoveries, carries the transaction id and the result of the one row, which never changes. */
  lemma PaymentAgreement(w: World, acts: seq<Act>, v: World, early: Message, late: Message)
    requires Reachable(w) && Path(w, acts, v)
    requires early.PaymentProcessed? && InCirculation(w, early)
    requires late.PaymentProcessed? && InCirculation(v, late)
    requires early.order == late.order
    ensures early.tx == late.tx && early.success == late.success && early.saga == late.saga
    ensures var o := early.order;
      && o in w.st.pay.payments && o in v.st.pay.payments
      && v.st.pay.payments[o] == w.st.pay.payments[o] && v.st.pay.payments[o].tx == late.tx
  {
    hide Inv, Mono, Path, Reachable, InCirculation, Addressed;
    ReachableOk(w);
    PathKeeps(w, acts, v);
    OutcomeFacts(w, early);
    OutcomeFacts(v, late);
    RowStays(w, v, early.order);
    SameOwner(w, v, early.saga, late.saga, early.order);
  }

  lemma OutcomeFacts(w: World, m: Message)
    requires Inv(w) && InCirculation(w, m) && m.PaymentProcessed?
    ensures Addressed(w.st, m.saga, m.order) && m.order in w.st.pay.payments
    ensures var row := w.st.pay.payments[m.order];
      row.tx == m.tx && (m.success <==> row.status == PaymentSuccess)
  {
    hide Inv, InCirculation, Past, Addressed;
    CirculatingOk(w, m);
  }

  lemma RowStays(w: World, v: World, o: OrderId)
    requires Mono(w, v) && o in w.st.pay.payments
    ensures o in v.st.pay.payments && v.st.pay.payments[o] == w.st.pay.payments[o]
  {
    hide OrdersGrow, SagasGrow, StockGrows;
  }

  lemma SameOwner(w: World, v: World, s: SagaId, t: SagaId, o: OrderId)
    requires Inv(v) && Mono(w, v) && Addressed(w.st, s, o) && Addressed(v.st, t, o)
    ensures s == t
  {
    hide SagasOk, StockOk, PaymentsOk, AnswersOk, RefusalsOk, MessagesOk, JobsOk, ConsumedOk, RecordsOk;
    assert SagaGrows(w.st, v.st, s);
  }

  // ----- a paid order is never released, a released order never paid -----

  /** Nothing of the compensation branch exists for the order. */
  ghost predicate NoCompensation(w: World, o: OrderId) {
    && !GaveBack(w.st, o) && o !in w.releasing
    && (forall m: Message :: InCirculation(w, m) && m.order == o ==> !m.ReleaseInventory? && !m.InventoryReleased?)
    && (forall s :: s in w.st.orderDb.sagas && w.st.orderDb.sagas[s].order == o ==>
          w.st.orderDb.sagas[s].status != Compensating && w.st.orderDb.sagas[s].status != Compensated)
  }

  lemma LateIsDeclined(w: World, s: SagaId)
    requires Inv(w) && s in w.st.orderDb.sagas && Late(w.st, s)
    ensures Declined(w.st, w.st.orderDb.sagas[s].order)
  {
    hide Inv;
    SagaFacts(w, s);
  }

  lemma GaveBackIsDeclined(w: World, o: OrderId)
    requires Inv(w) && GaveBack(w.st, o)
    ensures Declined(w.st, o)
  {}

  lemma ChargedMeansNoCompensation(w: World, o: OrderId)
    requires Inv(w) && Charged(w.st, o)
    ensures NoCompensation(w, o)
  {
    hide Inv, InCirculation;
    if GaveBack(w.st, o) { GaveBackIsDeclined(w, o); }
    forall s | s in w.st.orderDb.sagas && w.st.orderDb.sagas[s].order == o ensures !Late(w.st, s) {
      if Late(w.st, s) { LateIsDeclined(w, s); }
    }
    forall m: Message | InCirculation(w, m) && m.order == o ensures !m.ReleaseInventory? && !m.InventoryReleased? {
      CirculatingOk(w, m);
    }
    if o in w.releasing { ReleasingFacts(w, o); }
  }

  lemma PaidIsNeverReleased(w: World, acts: seq<Act>, v: World, o: OrderId)
    requires Reachable(w) && Path(w, acts, v) && Charged(w.st, o)
    ensures Charged(v.st, o) && NoCompensation(v, o)
  {
    hide Path, SagasGrow, OrdersGrow, StockGrows, Inv, Reachable, NoCompensation;
    ReachableOk(w);
    PathKeeps(w, acts, v);
    ChargedMeansNoCompensation(v, o);
  }

  lemma ReleasedIsNeverPaid(w: World, acts: seq<Act>, v: World, m: Message)
    requires Reachable(w) && Path(w, acts, v) && InCirculation(w, m) && m.ReleaseInventory?
    ensures Declined(v.st, m.order) && !Charged(v.st, m.order)
  {
    hide Inv, Mono, Path, Reachable, InCirculation;
    ReachableOk(w);
    ReleaseIsDeclined(w, m);
    PathKeeps(w, acts, v);
    RowStays(w, v, m.order);
  }

  lemma ReleaseIsDeclined(w: World, m: Message)
    requires Inv(w) && InCirculation(w, m) && m.ReleaseInventory?
    ensures Declined(w.st, m.order)
  {
    hide Inv, InCirculation, Late;
    CirculatingOk(w, m);
    LateIsDeclined(w, m.saga);
  }

  // ----- skipped deliveries -----

  /** An event never arrives before its step, never at a missing saga, and takes effect exactly when its
      saga is still at the step it answers: neither the step guard nor the processed-id guard ever drops
      an event that is needed. */
  lemma SkipsAreOnlyLate(w: World, id: MsgId)
    requires Reachable(w) && id in w.sent && w.sent[id].IsEvent()
    ensures var ev := w.sent[id];
      && ev.saga in w.st.orderDb.sagas
      && Rank(w.st.orderDb.sagas[ev.saga].step) <= Rank(ev.Answers())
      && !Judge(w.st.orderDb, id, ev).Rejected?
      && (Judge(w.st.orderDb, id, ev).Applied? <==> w.st.orderDb.sagas[ev.saga].step == ev.Answers())
  {
    hide Inv, Reachable;
    ReachableOk(w);
    OnlyLate(w, id);
  }

  lemma OnlyLate(w: World, id: MsgId)
    requires Inv(w) && id in w.sent && w.sent[id].IsEvent()
    ensures var ev := w.sent[id];
      && ev.saga in w.st.orderDb.sagas
      && Rank(w.st.orderDb.sagas[ev.saga].step) <= Rank(ev.Answers())
      && !Judge(w.st.orderDb, id, ev).Rejected?
      && (Judge(w.st.orderDb, id, ev).Applied? <==> w.st.orderDb.sagas[ev.saga].step == ev.Answers())
  {
    hide Inv;
    CirculatingOk(w, w.sent[id]);
    SagaFacts(w, w.sent[id].saga);
    if id in w.st.orderDb.processed { ConsumedIsPast(w, id); }
  }

  lemma ConsumedIsPast(w: World, id: MsgId)
    requires Inv(w) && id in w.st.orderDb.processed
    ensures id in w.sent && w.sent[id].IsEvent() && w.sent[id].saga in w.st.orderDb.sagas
    ensures Rank(w.st.orderDb.sagas[w.sent[id].saga].step) < Rank(w.sent[id].Answers())
  {}

  // ----- correlation -----

  /** Every message agrees with its saga's own order row, and handling an event changes exactly one
      matching pair of rows or nothing. */
  lemma Correlation(w: World, m: Message)
    requires Reachable(w) && InCirculation(w, m)
    ensures Addressed(w.st, m.saga, m.order)
    ensures (m.ReserveInventory? || m.InventoryReserved? || m.ReleaseInventory? || m.InventoryReleased?) ==>
      Copies(w.st, m.order, m.product, m.quantity)
    ensures m.ProcessPayment? ==> w.st.orderDb.orders[m.order].amount == m.amount
    ensures m.IsEvent() ==> forall id ::
      var db := Consume(w.st.orderDb, id, m);
      && (forall s :: s in w.st.orderDb.sagas && s != m.saga ==> s in db.sagas && db.sagas[s] == w.st.orderDb.sagas[s])
      && (forall o :: o in w.st.orderDb.orders && o != m.order ==>
           o in db.orders && db.orders[o] == w.st.orderDb.orders[o])
      && db.sagas.Keys == w.st.orderDb.sagas.Keys && db.orders.Keys == w.st.orderDb.orders.Keys
      && db.sagas[m.saga].order == m.order
  {
    hide Inv, Reachable;
    ReachableOk(w);
    CirculatingOk(w, m);
  }

  // ----- the saga state machine -----

  datatype SagaPhase = Reserving | Paying | DoneCompleted | Releasing | DoneCompensated | DoneFailed

  ghost predicate InPhase(saga: Saga, order: Order, phase: SagaPhase) {
    match phase
    case Reserving => saga.step == ReservingInventory && saga.status == InProgress && order.status == OrderPending
    case Paying => saga.step == ProcessingPayment && saga.status == InProgress && order.status == OrderInventoryReserved
    case DoneCompleted => saga.step == Done && saga.status == Completed && order.status == OrderConfirmed
    case Releasing => saga.step == ReleasingInventory && saga.status == Compensating && order.status == OrderFailed
    case DoneCompensated => saga.step == Done && saga.status == Compensated && order.status == OrderCompensated
    case DoneFailed => saga.step == Done && saga.status == Failed && order.status == OrderFailed
  }

  lemma SixCombinations(w: World, s: SagaId)
    requires Reachable(w) && s in w.st.orderDb.sagas
    ensures w.st.orderDb.sagas[s].order in w.st.orderDb.orders
    ensures exists phase :: InPhase(w.st.orderDb.sagas[s], w.st.orderDb.orders[w.st.orderDb.sagas[s].order], phase)
  {
    hide Inv, Reachable, InPhase;
    ReachableOk(w);
    InSomePhase(w, s);
  }

  lemma InSomePhase(w: World, s: SagaId)
    requires Inv(w) && s in w.st.orderDb.sagas
    ensures w.st.orderDb.sagas[s].order in w.st.orderDb.orders
    ensures exists phase :: InPhase(w.st.orderDb.sagas[s], w.st.orderDb.orders[w.st.orderDb.sagas[s].order], phase)
  {
    hide Inv;
    SagaFacts(w, s);
    var saga := w.st.orderDb.sagas[s];
    var phase := match (saga.step, saga.status)
      case (ReservingInventory, _) => Reserving
      case (ProcessingPayment, _) => Paying
      case (ReleasingInventory, _) => Releasing
      case (Done, Completed) => DoneCompleted
      case (Done, Compensated) => DoneCompensated
      case (Done, _) => DoneFailed;
    assert InPhase(saga, w.st.orderDb.orders[saga.order], phase);
  }

  lemma TerminalIsAbsorbing(w: World, acts: seq<Act>, v: World, s: SagaId)
    requires Reachable(w) && Path(w, acts, v) && s in w.st.orderDb.sagas && w.st.orderDb.sagas[s].step == Done
    ensures s in v.st.orderDb.sagas && v.st.orderDb.sagas[s] == w.st.orderDb.sagas[s]
  {
    hide Inv, Reachable, Path, OrdersGrow, FactsGrow, StockGrows;
    ReachableOk(w);
    PathKeeps(w, acts, v);
    assert SagaGrows(w.st, v.st, s);
  }

  /** Steps of a run that changed this saga's row. */
  ghost function Commits(w: World, acts: seq<Act>, v: World, s: SagaId): nat
    requires Path(w, acts, v)
    decreases |acts|
  {
    if acts == [] then 0
    else
      var u := Apply(w, acts[0]);
      (if s in w.st.orderDb.sagas &&
        (s !in u.st.orderDb.sagas || u.st.orderDb.sagas[s] != w.st.orderDb.sagas[s]) then 1 else 0)
      + Commits(u, acts[1..], v, s)
  }

  ghost function RankOf(w: World, s: SagaId): nat {
    if s in w.st.orderDb.sagas then Rank(w.st.orderDb.sagas[s].step) else 3
  }

  /** A saga has at most three effective commits, and spends its rank on them. */
  lemma AtMostThreeCommits(w: World, acts: seq<Act>, v: World, s: SagaId)
    requires Reachable(w) && Path(w, acts, v)
    ensures Commits(w, acts, v, s) + RankOf(v, s) <= RankOf(w, s) <= 3
  {
    hide Inv, Reachable, Path;
    ReachableOk(w);
    CommitsSpendRank(w, acts, v, s);
  }

  lemma {:induction false} CommitsSpendRank(w: World, acts: seq<Act>, v: World, s: SagaId)
    requires Inv(w) && Path(w, acts, v)
    ensures Commits(w, acts, v, s) + RankOf(v, s) <= RankOf(w, s) <= 3
    decreases |acts|
  {
    hide Inv, Enabled, Apply, OrdersGrow, FactsGrow, StockGrows;
    if acts != [] {
      var u := Apply(w, acts[0]);
      StepKeeps(w, acts[0]);
      CommitsSpendRank(u, acts[1..], v, s);
      if s in w.st.orderDb.sagas { assert SagaGrows(w.st, u.st, s); }
    }
  }

  /** A terminal state is recorded at most once per saga, with the saga's own status. */
  lemma RecordedOnce(w: World, s: SagaId, one: SagaStatus, other: SagaStatus)
    requires Reachable(w)
    ensures w.recorded[(s, one)] <= 1
    ensures (s, one) in w.recorded ==> Terminal(w.st, s, one)
    ensures (s, one) in w.recorded && (s, other) in w.recorded ==> one == other
  {
    ReachableOk(w);
    hide Reachable, StoresOk, MessagesOk, JobsOk, ConsumedOk;
    assert (s, one) in w.recorded ==> Terminal(w.st, (s, one).0, (s, one).1);
    assert (s, other) in w.recorded ==> Terminal(w.st, (s, other).0, (s, other).1);
  }

  // ----- reserve answers -----

  /** An order's answers are refusals followed only by successes; it has at most one reserve entry, and a
      success ever published is backed by the entry of exactly its order, product and quantity. */
  lemma ReserveAnswersRise(w: World, o: OrderId)
    requires Reachable(w)
    ensures o in w.st.answers ==> Rising(w.st.answers[o])
    ensures o in w.st.answers && true in w.st.answers[o] <==> Holds(w.st, o)
    ensures forall i, j ::
      0 <= i < j < |w.st.inv.logs| && w.st.inv.logs[i].order == o && w.st.inv.logs[j].order == o ==>
      w.st.inv.logs[i].action != w.st.inv.logs[j].action
  {
    ReachableOk(w);
    hide Reachable, RowsOk, SagasOk, PaymentsOk, RefusalsOk, MessagesOk, JobsOk, ConsumedOk, RecordsOk;
    var logs := w.st.inv.logs;
    forall i, j | 0 <= i < j < |logs| && logs[i].order == o && logs[j].order == o
      ensures logs[i].action != logs[j].action
    {
      EntriesUnique(logs, w.st.orderDb.orders, i, j);
    }
  }

  lemma SuccessIsBacked(w: World, m: Message)
    requires Reachable(w) && InCirculation(w, m) && m.InventoryReserved? && m.success
    ensures LogEntry(m.product, m.order, Reserve, m.quantity) in w.st.inv.logs
  {
    ReachableOk(w);
    hide Reachable, RowsOk, SagasOk, PaymentsOk, AnswersOk, RefusalsOk, JobsOk, ConsumedOk, RecordsOk;
    CirculatingOk(w, m);
    EntryOf(w.st.inv.logs, w.st.orderDb.orders, m.order, Reserve);
  }

  // ----- recovery -----

  /** Starting the saga, or an effective event, moved it into a step and owes this command. */
  ghost predicate EntryCommand(w: World, a: Act, s: SagaId, cmd: Message) {
    match a
    case StartSaga(t, o) =>
      && t == s && o in w.st.orderDb.orders
      && cmd == ReserveInventory(s, o, w.st.orderDb.orders[o].product, w.st.orderDb.orders[o].quantity)
    case HandleEvent(id) =>
      && id in w.sent && w.sent[id].IsEvent() && w.sent[id].saga == s
      && Judge(w.st.orderDb, id, w.sent[id]).Applied? && Followup(w.st.orderDb, w.sent[id]) == Publish(cmd)
    case _ => false
  }

  /** The command a saga at this step waits for an answer to, from its order row. */
  ghost function CommandFor(s: SagaId, o: OrderId, order: Order, step: SagaStep): Message
    requires step != Done
  {
    match step
    case ReservingInventory => ReserveInventory(s, o, order.product, order.quantity)
    case ProcessingPayment => ProcessPayment(s, o, order.amount)
    case ReleasingInventory => ReleaseInventory(s, o, order.product, order.quantity)
  }

  ghost predicate AwaitsAnswerTo(st: Stores, s: SagaId, cmd: Message) {
    && s in st.orderDb.sagas && st.orderDb.sagas[s].step != Done
    && var saga := st.orderDb.sagas[s];
       saga.order in st.orderDb.orders && cmd == CommandFor(s, saga.order, st.orderDb.orders[saga.order], saga.step)
  }

  lemma EventEntry(db: OrderDb, st: Stores, id: MsgId, ev: Message, cmd: Message)
    requires ev.IsEvent() && Justified(st, ev) && db == st.orderDb && Judge(db, id, ev).Applied?
    requires Followup(db, ev) == Publish(cmd)
    ensures AwaitsAnswerTo(st.(orderDb := Consume(db, id, ev)), ev.saga, cmd)
  {}

  lemma EntryIsCommandFor(w: World, a: Act, s: SagaId, cmd: Message)
    requires Inv(w) && Enabled(w, a) && EntryCommand(w, a, s, cmd)
    ensures AwaitsAnswerTo(Apply(w, a).st, s, cmd)
  {
    hide Inv, Consume, Followup, Judge, Justified;
    if a.HandleEvent? {
      CirculatingOk(w, w.sent[a.id]);
      EventEntry(w.st.orderDb, w.st, a.id, w.sent[a.id], cmd);
    }
  }

  lemma ListedIsCommandFor(st: Stores, item: Snapshot)
    requires ItemOk(st, item)
    ensures item.saga.step != Done
    ensures RecoveryCommand(item, st.orderDb.orders[item.saga.order]) ==
      Some(CommandFor(item.id, item.saga.order, st.orderDb.orders[item.saga.order], item.saga.step))
  {}

  /** However stale the listing and however many passes ran, recovery composes, but for the message id,
      the command whose publish followed the transition into the listed step. */
  lemma RecoveryResendsTheEntryCommand(w: World, a: Act, s: SagaId, cmd: Message, acts: seq<Act>, v: World,
                                       item: Snapshot)
    requires Reachable(w) && Enabled(w, a) && EntryCommand(w, a, s, cmd) && Path(Apply(w, a), acts, v)
    requires item in v.listed && item.id == s
    requires s in Apply(w, a).st.orderDb.sagas && item.saga.step == Apply(w, a).st.orderDb.sagas[s].step
    ensures item.saga.order in v.st.orderDb.orders
    ensures RecoveryCommand(item, v.st.orderDb.orders[item.saga.order]) == Some(cmd)
  {
    hide Reachable, Path, Enabled, Apply, EntryCommand, Inv, FactsGrow, StockGrows, RecoveryCommand;
    ReachableOk(w);
    var u := Apply(w, a);
    StepKeeps(w, a);
    EntryIsCommandFor(w, a, s, cmd);
    PathKeeps(u, acts, v);
    ListedFacts(v, item);
    assert SagaGrows(u.st, v.st, s);
    ListedIsCommandFor(v.st, item);
  }

  lemma ListedFacts(w: World, item: Snapshot)
    requires Inv(w) && item in w.listed
    ensures ItemOk(w.st, item)
  {}

  /** Recovery steps, like all others, leave the global invariant in place and take nothing back. */
  lemma RecoveryIsSafe(w: World, acts: seq<Act>, v: World)
    requires Reachable(w) && Path(w, acts, v)
    requires forall a :: a in acts ==> a.List? || a.RecoverItem? || a.SkipItem? || a.Send?
    ensures Inv(v) && v.st == w.st
  {
    hide Inv, Reachable;
    ReachableOk(w);
    PathKeeps(w, acts, v);
    RecoveryOnlyTalks(w, acts, v);
  }

  lemma {:induction false} RecoveryOnlyTalks(w: World, acts: seq<Act>, v: World)
    requires Path(w, acts, v)
    requires forall a :: a in acts ==> a.List? || a.RecoverItem? || a.SkipItem? || a.Send?
    ensures v.st == w.st
    decreases |acts|
  {
    if acts != [] {
      var u := Apply(w, acts[0]);
      assert acts[0] in acts;
      RecoveryOnlyTalks(u, acts[1..], v);
    }
  }
}
