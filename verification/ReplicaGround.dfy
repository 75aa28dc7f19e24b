/**
 * With any number of inventory replicas, a release command still exists only for an order that holds a reserve
 * entry, and every order with one has its product on record; so a release write always finds its row.
 */
module ReplicaGround {
  import opened Types
  import opened OrderStore
  import opened InventoryStore
  import opened PaymentStore
  import opened Protocol
  import opened Invariant
  import opened Claims
  import opened Stranding
  import opened Replicas
  import opened ReplicaFacts

  /** A message names its saga's own order; a granted reservation and a release have a reserve entry behind them. */
  ghost predicate Grounded(st: Stores, m: Message) {
    && Addressed(st, m.saga, m.order)
    && (m.ReleaseInventory? || (m.InventoryReserved? && m.success) ==> Holds(st, m.order))
  }

  ghost predicate SagaGrounded(st: Stores, saga: Saga) {
    && saga.order in st.orderDb.orders
    && (saga.step == ProcessingPayment || saga.step == ReleasingInventory ==> Holds(st, saga.order))
  }

  ghost predicate ItemGrounded(st: Stores, item: Snapshot) {
    Addressed(st, item.id, item.saga.order) && SagaGrounded(st, item.saga)
  }

  ghost predicate LogGrounded(st: Stores) {
    forall o :: o in Logged(st.inv.logs, Reserve) ==>
      o in st.orderDb.orders && st.orderDb.orders[o].product in st.inv.rows
  }

  ghost predicate OwedGrounded(w: World) {
    forall t :: t in w.owed && t.Publish? ==> Grounded(w.st, t.message)
  }

  ghost predicate SharedGrounded(w: World) {
    && (forall id :: id in w.sent ==> Grounded(w.st, w.sent[id]))
    && OwedGrounded(w)
    && (forall item :: item in w.listed ==> ItemGrounded(w.st, item))
    && (forall k :: k in w.paying ==> w.paying[k].cmd.ProcessPayment? && Grounded(w.st, w.paying[k].cmd))
    && (forall s :: s in w.st.orderDb.sagas ==> SagaGrounded(w.st, w.st.orderDb.sagas[s]))
    && LogGrounded(w.st)
  }

  ghost predicate TableGrounded(st: Stores, t: Table) {
    && (forall o :: o in t.reserving ==> Grounded(st, t.reserving[o].cmd))
    && (forall o :: o in t.releasing ==> Grounded(st, t.releasing[o]))
  }

  // ----- what no step undoes -----

  ghost predicate Deepens(a: Stores, b: Stores) {
    && a.orderDb.orders.Keys <= b.orderDb.orders.Keys
    && (forall s :: s in a.orderDb.sagas ==>
          s in b.orderDb.sagas && b.orderDb.sagas[s].order == a.orderDb.sagas[s].order)
    && Logged(a.inv.logs, Reserve) <= Logged(b.inv.logs, Reserve)
  }

  lemma SagasKeepOrders(w: World, a: Act, s: SagaId)
    requires Enabled(w, a) && s in w.st.orderDb.sagas
    ensures s in Apply(w, a).st.orderDb.sagas
    ensures Apply(w, a).st.orderDb.sagas[s].order == w.st.orderDb.sagas[s].order
  {
    hide DoReserveStart, DoReserveRead, DoReserveWrite, DoReleaseStart, DoReleaseWrite, Followup;
    match a {
      case HandleEvent(_) =>
      case StartSaga(_, _) =>
      case _ => OtherOwners(w, a);
    }
  }

  lemma LogsDeepen(w: World, a: Act)
    requires Enabled(w, a)
    ensures Logged(w.st.inv.logs, Reserve) <= Logged(Apply(w, a).st.inv.logs, Reserve)
  {
    hide Enabled, Apply, Logged, PassesGuard;
    match a {
      case ReserveWrite(o) => WriteLogged(w, o);
      case ReleaseWrite(o) => ReleaseLogged(w, o);
      case _ => OtherLogs(w, a);
    }
  }

  lemma StepDeepens(w: World, a: Act)
    requires Enabled(w, a)
    ensures Deepens(w.st, Apply(w, a).st)
  {
    hide Enabled, Apply, Logged;
    LogsDeepen(w, a);
    StepLater(w, a);
    forall s | s in w.st.orderDb.sagas
      ensures s in Apply(w, a).st.orderDb.sagas
      ensures Apply(w, a).st.orderDb.sagas[s].order == w.st.orderDb.sagas[s].order
    {
      SagasKeepOrders(w, a, s);
    }
  }

  lemma GroundedLater(a: Stores, b: Stores, m: Message)
    requires Deepens(a, b) && Grounded(a, m)
    ensures Grounded(b, m)
  {}

  // ----- what is newly owed -----

  ghost predicate OwesGrounded(w: World, v: World) {
    forall t :: t in v.owed && t.Publish? ==> t in w.owed || Grounded(v.st, t.message)
  }

  lemma ReserveAnswerGrounded(w: World, cmd: Message, ok: bool)
    requires cmd.ReserveInventory? && Grounded(w.st, cmd) && (ok ==> Holds(w.st, cmd.order))
    ensures OwesGrounded(w, AnswerReserve(w, cmd, ok))
  {}

  lemma GrantGrounded(w: World, o: OrderId)
    requires Enabled(w, ReserveWrite(o)) && Grounded(w.st, w.reserving[o].cmd)
    ensures OwesGrounded(w, Apply(w, ReserveWrite(o)))
  {
    hide AnswerReserve, Logged, CanReserve;
    var job := w.reserving[o];
    var cmd := job.cmd;
    if CanReserve(w.st.inv, cmd.product, job.phase.version, cmd.quantity) {
      var inv := ReserveIn(w.st.inv, cmd.product, o, job.phase.version, cmd.quantity);
      GrantIsLogged(w.st.inv, cmd, job.phase.version);
      ReserveAnswerGrounded(w.(st := w.st.(inv := inv)), cmd, true);
    }
  }

  lemma GrantIsLogged(db: InventoryDb, cmd: Message, version: int)
    requires cmd.ReserveInventory? && CanReserve(db, cmd.product, version, cmd.quantity)
    ensures cmd.order in Logged(ReserveIn(db, cmd.product, cmd.order, version, cmd.quantity).logs, Reserve)
  {
    LoggedAppend(db.logs, LogEntry(cmd.product, cmd.order, Reserve, cmd.quantity), Reserve);
  }

  lemma ReserveGrounded(w: World, a: Act)
    requires Enabled(w, a) && SharedGrounded(w) && TableGrounded(w.st, Own(w))
    requires a.ReserveStart? || a.ReserveRead? || a.ReserveWrite? || a.ReserveExhausted? || a.ReserveAbort?
    ensures OwesGrounded(w, Apply(w, a))
  {
    hide AnswerReserve, DoReserveWrite, Logged, Grounded, SagaGrounded, ItemGrounded, LogGrounded;
    match a {
      case ReserveStart(id) =>
        if w.sent[id].order in Logged(w.st.inv.logs, Reserve) { ReserveAnswerGrounded(w, w.sent[id], true); }
      case ReserveRead(o) => ReserveAnswerGrounded(w, w.reserving[o].cmd, false);
      case ReserveWrite(o) => GrantGrounded(w, o);
      case ReserveExhausted(o) => ReserveAnswerGrounded(w, w.reserving[o].cmd, false);
      case ReserveAbort(_) =>
    }
  }

  lemma ReleaseAnswerGrounded(w: World, cmd: Message, ok: bool)
    requires cmd.ReleaseInventory? && Addressed(w.st, cmd.saga, cmd.order)
    ensures OwesGrounded(w, AnswerRelease(w, cmd, ok))
  {}

  lemma ReleaseGrounded(w: World, a: Act)
    requires Enabled(w, a) && SharedGrounded(w) && TableGrounded(w.st, Own(w))
    requires a.ReleaseStart? || a.ReleaseWrite? || a.ReleaseError? || a.ReleaseAbort?
    ensures OwesGrounded(w, Apply(w, a))
  {
    hide AnswerRelease, Logged, ReleaseIn, SagaGrounded, ItemGrounded, LogGrounded;
    match a {
      case ReleaseStart(id) => ReleaseAnswerGrounded(w, w.sent[id], true);
      case ReleaseWrite(o) =>
        var cmd := w.releasing[o];
        var inv := ReleaseIn(w.st.inv, cmd.product, o, cmd.quantity);
        ReleaseAnswerGrounded(w.(st := w.st.(inv := inv)), cmd, cmd.product in w.st.inv.rows);
      case ReleaseError(o) => ReleaseAnswerGrounded(w, w.releasing[o], false);
      case ReleaseAbort(_) =>
    }
  }

  lemma PayGrounded(w: World, a: Act)
    requires Enabled(w, a) && (a.PayStart? || a.PayRead? || a.PayWrite? || a.PayAbort?)
    requires forall k :: k in w.paying ==> w.paying[k].cmd.ProcessPayment? && Grounded(w.st, w.paying[k].cmd)
    ensures OwesGrounded(w, Apply(w, a))
  {
    hide Logged, CanCreate, CreateIn;
  }

  lemma EventGrounded(w: World, id: MsgId)
    requires Enabled(w, HandleEvent(id)) && SharedGrounded(w)
    ensures OwesGrounded(w, DoHandleEvent(w, id, w.sent[id]))
  {
    hide Logged, LogGrounded, ItemGrounded;
    assert Grounded(w.st, w.sent[id]);
    assert SagaGrounded(w.st, w.st.orderDb.sagas[w.sent[id].saga]);
  }

  lemma StartGrounded(w: World, a: Act)
    requires Enabled(w, a) && a.StartSaga?
    ensures OwesGrounded(w, Apply(w, a))
  {
    hide Logged;
  }

  lemma RecoveryGrounded(w: World, a: Act)
    requires Enabled(w, a) && a.RecoverItem? && ItemGrounded(w.st, a.item)
    ensures OwesGrounded(w, Apply(w, a))
  {
    hide Logged;
  }

  lemma StepOwesGrounded(w: World, a: Act)
    requires Enabled(w, a) && SharedGrounded(w) && TableGrounded(w.st, Own(w))
    ensures OwesGrounded(w, Apply(w, a))
  {
    hide Grounded, SagaGrounded, ItemGrounded, LogGrounded, TableGrounded, DoHandleEvent, DoStartSaga, DoRecoverItem;
    hide DoSend, DoRecordTerminal, DoList;
    hide DoReserveStart, DoReserveRead, DoReserveWrite, AnswerReserve, DoReleaseStart, DoReleaseWrite, AnswerRelease;
    hide DoPayStart, DoPayRead, DoPayWrite;
    if a.HandleEvent? {
      EventGrounded(w, a.id);
    } else if a.StartSaga? {
      StartGrounded(w, a);
    } else if a.RecoverItem? {
      RecoveryGrounded(w, a);
    } else if a.PayStart? || a.PayRead? || a.PayWrite? || a.PayAbort? {
      PayGrounded(w, a);
    } else if a.ReleaseStart? || a.ReleaseWrite? || a.ReleaseError? || a.ReleaseAbort? {
      ReleaseGrounded(w, a);
    } else if OfAHandler(a) {
      ReserveGrounded(w, a);
    } else {
      forall t | t in Apply(w, a).owed && t.Publish? ensures t in w.owed { RestOwes(w, a, t); }
    }
  }

  // ----- the other parts -----

  lemma ListedFrom(w: World, a: Act, item: Snapshot)
    requires Enabled(w, a) && item in Apply(w, a).listed
    ensures item in w.listed || (item.id in w.st.orderDb.sagas && item.saga == w.st.orderDb.sagas[item.id])
  {
    hide Enabled, RecoveryCommand, DoReserveStart, DoReserveRead, DoReserveWrite, AnswerReserve;
    hide DoReleaseStart, DoReleaseWrite, AnswerRelease, DoPayStart, DoPayRead, DoPayWrite, DoHandleEvent;
    if OfAHandler(a) {
      HandlerListed(w, a);
    } else if a.HandleEvent? {
      EventListed(w, a.id);
    }
  }

  lemma ReserveListed(w: World, a: Act)
    requires Enabled(w, a)
    requires a.ReserveStart? || a.ReserveRead? || a.ReserveWrite? || a.ReserveExhausted? || a.ReserveAbort?
    ensures Apply(w, a).listed == w.listed
  {
    hide Logged, CanReserve, ReserveIn;
  }

  lemma ReleaseListed(w: World, a: Act)
    requires Enabled(w, a) && (a.ReleaseStart? || a.ReleaseWrite? || a.ReleaseError? || a.ReleaseAbort?)
    ensures Apply(w, a).listed == w.listed
  {
    hide Logged, ReleaseIn;
  }

  lemma PayListed(w: World, a: Act)
    requires Enabled(w, a) && (a.PayStart? || a.PayRead? || a.PayWrite? || a.PayAbort?)
    ensures Apply(w, a).listed == w.listed
  {
    hide PaymentAnswer, CanCreate, CreateIn;
  }

  lemma HandlerListed(w: World, a: Act)
    requires Enabled(w, a) && OfAHandler(a)
    ensures Apply(w, a).listed == w.listed
  {
    hide Enabled, Apply;
    if a.PayStart? || a.PayRead? || a.PayWrite? || a.PayAbort? {
      PayListed(w, a);
    } else if a.ReleaseStart? || a.ReleaseWrite? || a.ReleaseError? || a.ReleaseAbort? {
      ReleaseListed(w, a);
    } else {
      ReserveListed(w, a);
    }
  }

  lemma EventListed(w: World, id: MsgId)
    requires Enabled(w, HandleEvent(id))
    ensures DoHandleEvent(w, id, w.sent[id]).listed == w.listed
  {
    hide Consume, Followup;
  }

  lemma PayingFrom(w: World, a: Act, k: nat)
    requires Enabled(w, a) && k in Apply(w, a).paying
    ensures (k in w.paying && Apply(w, a).paying[k].cmd == w.paying[k].cmd)
            || (a.PayStart? && a.id in w.sent && w.sent[a.id].ProcessPayment?
                && Apply(w, a).paying[k].cmd == w.sent[a.id])
  {
    hide Enabled, Apply;
    if a.PayStart? || a.PayRead? || a.PayWrite? || a.PayAbort? {
      PayersFrom(w, a, k);
    } else {
      if OfAHandler(a) { HandlerFrame(w, a); } else { OrderFrame(w, a, Record(0, Failed), NoItem); }
    }
  }

  lemma PayersFrom(w: World, a: Act, k: nat)
    requires Enabled(w, a) && k in Apply(w, a).paying && (a.PayStart? || a.PayRead? || a.PayWrite? || a.PayAbort?)
    ensures (k in w.paying && Apply(w, a).paying[k].cmd == w.paying[k].cmd)
            || (a.PayStart? && a.id in w.sent && w.sent[a.id].ProcessPayment?
                && Apply(w, a).paying[k].cmd == w.sent[a.id])
  {
    hide PaymentAnswer, CanCreate, CreateIn;
  }

  lemma EventSagas(w: World, id: MsgId, s: SagaId)
    requires Enabled(w, HandleEvent(id)) && SharedGrounded(w)
    requires s in DoHandleEvent(w, id, w.sent[id]).st.orderDb.sagas
    ensures var v := DoHandleEvent(w, id, w.sent[id]); SagaGrounded(v.st, v.st.orderDb.sagas[s])
  {
    hide Logged, LogGrounded, ItemGrounded, Followup;
    assert Grounded(w.st, w.sent[id]);
    assert s in w.st.orderDb.sagas && SagaGrounded(w.st, w.st.orderDb.sagas[s]);
  }

  lemma SagasGrounded(w: World, a: Act, s: SagaId)
    requires Enabled(w, a) && SharedGrounded(w) && s in Apply(w, a).st.orderDb.sagas
    ensures SagaGrounded(Apply(w, a).st, Apply(w, a).st.orderDb.sagas[s])
  {
    hide SharedGrounded, DoHandleEvent, DoReserveStart, DoReserveRead, DoReserveWrite, DoReleaseStart, DoReleaseWrite;
    hide Logged, OwedGrounded;
    match a {
      case HandleEvent(id) => EventSagas(w, id, s);
      case StartSaga(_, _) => if s in w.st.orderDb.sagas { SagaIsGrounded(w, s); }
      case _ =>
        OtherOwners(w, a);
        SagaIsGrounded(w, s);
        StepDeepens(w, a);
    }
  }

  lemma SagaIsGrounded(w: World, s: SagaId)
    requires SharedGrounded(w) && s in w.st.orderDb.sagas
    ensures SagaGrounded(w.st, w.st.orderDb.sagas[s])
  {}

  lemma LogsGrounded(w: World, a: Act)
    requires Enabled(w, a) && LogGrounded(w.st) && TableOk(w.st, Own(w))
    ensures LogGrounded(Apply(w, a).st)
  {
    hide Enabled, Apply, Logged, TableOk;
    var v := Apply(w, a);
    StepLater(w, a);
    forall o | o in Logged(v.st.inv.logs, Reserve)
      ensures o in v.st.orderDb.orders && v.st.orderDb.orders[o].product in v.st.inv.rows
    {
      if o !in Logged(w.st.inv.logs, Reserve) {
        GrantedIffGuardPasses(w, a, o);
        GranteeIsKnown(w, o);
      }
    }
  }

  lemma GranteeIsKnown(w: World, o: OrderId)
    requires PassesGuard(w, o) && TableOk(w.st, Own(w))
    ensures o in w.st.orderDb.orders && w.st.orderDb.orders[o].product in w.st.inv.rows
  {
    assert JobOk(w.st, o, w.reserving[o]);
  }

  // ----- tables -----

  lemma ReservingFrom(w: World, a: Act, o: OrderId)
    requires Enabled(w, a) && o in Apply(w, a).reserving
    requires a.ReserveStart? || a.ReserveRead? || a.ReserveWrite? || a.ReserveExhausted? || a.ReserveAbort?
    ensures (o in w.reserving && Apply(w, a).reserving[o].cmd == w.reserving[o].cmd)
            || (a.ReserveStart? && a.id in w.sent && Apply(w, a).reserving[o].cmd == w.sent[a.id])
  {
    hide Logged, CanReserve, ReserveIn;
  }

  lemma OwnTableGrounded(w: World, a: Act)
    requires Enabled(w, a) && SharedGrounded(w) && TableGrounded(w.st, Own(w))
    ensures TableGrounded(Apply(w, a).st, Own(Apply(w, a)))
  {
    hide Enabled, Apply, Grounded, SagaGrounded, ItemGrounded, LogGrounded, Deepens;
    var v := Apply(w, a);
    StepDeepens(w, a);
    OthersInFlight(w, a);
    forall o | o in v.reserving ensures Grounded(v.st, v.reserving[o].cmd) {
      if v.reserving != w.reserving { ReservingFrom(w, a, o); }
      GroundedLater(w.st, v.st, if o in w.reserving && v.reserving[o].cmd == w.reserving[o].cmd
                                then w.reserving[o].cmd else w.sent[a.id]);
    }
    forall o | o in v.releasing ensures Grounded(v.st, v.releasing[o]) {
      if v.releasing != w.releasing { ReleaseTableChanges(w, a); }
      GroundedLater(w.st, v.st, if o in w.releasing && v.releasing[o] == w.releasing[o]
                                then w.releasing[o] else w.sent[a.id]);
    }
  }

  lemma TableStaysGrounded(a: Stores, b: Stores, t: Table)
    requires Deepens(a, b) && TableGrounded(a, t)
    ensures TableGrounded(b, t)
  {}

  lemma SharedStaysGrounded(w: World, a: Act)
    requires Enabled(w, a) && SharedGrounded(w) && TableGrounded(w.st, Own(w)) && TableOk(w.st, Own(w))
    ensures SharedGrounded(Apply(w, a))
  {
    hide Enabled, Apply, Grounded, SagaGrounded, Deepens, TableGrounded, TableOk, LogGrounded;
    var v := Apply(w, a);
    StepDeepens(w, a);
    forall id | id in v.sent ensures Grounded(v.st, v.sent[id]) {
      SentWasOwed(w, a, id);
      GroundedLater(w.st, v.st, v.sent[id]);
    }
    StepOwesGrounded(w, a);
    forall t | t in v.owed && t.Publish? ensures Grounded(v.st, t.message) {
      if t in w.owed { GroundedLater(w.st, v.st, t.message); }
    }
    forall item | item in v.listed ensures ItemGrounded(v.st, item) {
      ListedFrom(w, a, item);
      ItemLater(w, v, item);
    }
    forall k | k in v.paying ensures v.paying[k].cmd.ProcessPayment? && Grounded(v.st, v.paying[k].cmd) {
      PayingFrom(w, a, k);
      GroundedLater(w.st, v.st, v.paying[k].cmd);
    }
    forall s | s in v.st.orderDb.sagas ensures SagaGrounded(v.st, v.st.orderDb.sagas[s]) { SagasGrounded(w, a, s); }
    LogsGrounded(w, a);
  }

  lemma ItemLater(w: World, v: World, item: Snapshot)
    requires SharedGrounded(w) && Deepens(w.st, v.st)
    requires item in w.listed || (item.id in w.st.orderDb.sagas && item.saga == w.st.orderDb.sagas[item.id])
    ensures ItemGrounded(v.st, item)
  {
    hide Logged, LogGrounded, OwedGrounded;
    if item in w.listed { assert ItemGrounded(w.st, item); } else { SagaIsGrounded(w, item.id); }
  }

  // ----- the fleet -----

  ghost predicate FleetGrounded(c: Fleet) {
    SharedGrounded(c.w) && forall k :: TableGrounded(c.w.st, TableOf(c, k))
  }

  lemma TurnGrounded(c: Fleet, t: Turn)
    requires FleetOk(c) && FleetGrounded(c) && CanTake(c, t)
    ensures FleetGrounded(Next(c, t))
  {
    hide Enabled, Apply, TableOk, TableGrounded, CommandsOk, Deepens, OwedGrounded, Grounded;
    var w := View(c, t.replica);
    var v := Apply(w, t.act);
    assert TableOk(c.w.st, TableOf(c, t.replica)) && TableGrounded(c.w.st, TableOf(c, t.replica));
    SameShared(c, t.replica);
    SharedStaysGrounded(w, t.act);
    OwnTableGrounded(w, t.act);
    StepDeepens(w, t.act);
    forall k ensures TableGrounded(v.st, TableOf(Next(c, t), k)) {
      if k != t.replica { TableStaysGrounded(w.st, v.st, TableOf(c, k)); }
    }
  }

  lemma SameShared(c: Fleet, k: nat)
    ensures SharedGrounded(View(c, k)) <==> SharedGrounded(c.w)
  {}

  lemma {:induction false} CourseGrounded(c: Fleet, ts: seq<Turn>, d: Fleet)
    requires FleetOk(c) && FleetGrounded(c) && Course(c, ts, d)
    ensures FleetGrounded(d)
    decreases |ts|
  {
    hide FleetOk, FleetGrounded, CanTake, Next;
    if ts != [] {
      TurnKeeps(c, ts[0]);
      TurnGrounded(c, ts[0]);
      CourseGrounded(Next(c, ts[0]), ts[1..], d);
    }
  }

  lemma AttainableGrounded(c: Fleet)
    requires Attainable(c)
    ensures FleetGrounded(c)
  {
    hide Course;
    var budget, ts :| Course(Unstarted(budget), ts, c);
    CourseGrounded(Unstarted(budget), ts, c);
  }

  /** A release in flight anywhere has its order's reserve entry, and its product is on record. */
  lemma ReleasesHaveTheirReserve(c: Fleet, k: nat, o: OrderId)
    requires Attainable(c) && InFlight(c, k, o, Release)
    ensures var cmd := TableOf(c, k).releasing[o];
      && cmd.ReleaseInventory? && cmd.order == o && EntriesOf(c, o, Reserve) >= 1
      && cmd.product in c.w.st.inv.rows
  {
    hide Attainable, CommandsOk, OwedGrounded, Logged, Entries, JobOk;
    AttainableOk(c);
    AttainableGrounded(c);
    assert TableOk(c.w.st, TableOf(c, k)) && TableGrounded(c.w.st, TableOf(c, k));
    EntriesLogged(c.w.st.inv.logs, o, Reserve);
  }
}
