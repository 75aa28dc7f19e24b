/** What stays true of the shared services with any number of inventory replicas. */
module ReplicaFacts {
  import opened Types
  import opened OrderStore
  import opened InventoryStore
  import opened Protocol
  import opened Invariant
  import opened Claims
  import opened Replicas

  /** A command copies its order's product and quantity. */
  ghost predicate CommandOk(st: Stores, m: Message) {
    (m.ReserveInventory? || m.ReleaseInventory?) ==>
      Copies(st, m.order, m.product, m.quantity) && st.orderDb.orders[m.order].quantity >= 1
  }

  ghost predicate CommandsOk(w: World) {
    && (forall id :: id in w.sent ==> CommandOk(w.st, w.sent[id]))
    && (forall t :: t in w.owed && t.Publish? ==> CommandOk(w.st, t.message))
    && (forall o :: o in w.st.orderDb.orders ==> w.st.orderDb.orders[o].quantity >= 1)
  }

  /** A handler's own command, and no row read that is newer than the row. */
  ghost predicate JobOk(st: Stores, o: OrderId, job: ReserveJob) {
    && job.cmd.ReserveInventory? && job.cmd.order == o && CommandOk(st, job.cmd)
    && (job.phase.HasRead? ==>
          job.cmd.product in st.inv.rows && job.phase.version <= st.inv.rows[job.cmd.product].version)
  }

  ghost predicate TableOk(st: Stores, t: Table) {
    && (forall o :: o in t.reserving ==> JobOk(st, o, t.reserving[o]))
    && (forall o :: o in t.releasing ==>
          t.releasing[o].ReleaseInventory? && t.releasing[o].order == o && CommandOk(st, t.releasing[o]))
  }

  /** Orders keep what commands copy, and versions never go down. */
  ghost predicate Later(a: Stores, b: Stores) {
    && (forall o :: o in a.orderDb.orders ==>
          && o in b.orderDb.orders && b.orderDb.orders[o].product == a.orderDb.orders[o].product
          && b.orderDb.orders[o].quantity == a.orderDb.orders[o].quantity)
    && (forall p :: p in a.inv.rows ==> p in b.inv.rows && b.inv.rows[p].version >= a.inv.rows[p].version)
  }

  lemma EventLater(w: World, id: MsgId)
    requires Enabled(w, HandleEvent(id))
    ensures Later(w.st, DoHandleEvent(w, id, w.sent[id]).st)
  {
    hide Followup, Judge;
  }

  lemma WriteLater(w: World, o: OrderId)
    requires Enabled(w, ReserveWrite(o))
    ensures Later(w.st, Apply(w, ReserveWrite(o)).st)
  {}

  lemma ReleaseLater(w: World, o: OrderId)
    requires Enabled(w, ReleaseWrite(o))
    ensures Later(w.st, Apply(w, ReleaseWrite(o)).st)
  {}

  lemma CreateLater(w: World, a: Act)
    requires Enabled(w, a) && (a.CreateSku? || a.CreateOrder?)
    ensures Later(w.st, Apply(w, a).st)
  {}

  lemma StepLater(w: World, a: Act)
    requires Enabled(w, a)
    ensures Later(w.st, Apply(w, a).st)
  {
    hide Enabled, DoHandleEvent, DoReserveWrite, DoReleaseWrite;
    match a {
      case HandleEvent(id) => EventLater(w, id);
      case ReserveWrite(o) => WriteLater(w, o);
      case ReleaseWrite(o) => ReleaseLater(w, o);
      case CreateSku(_, _) => CreateLater(w, a);
      case CreateOrder(_, _, _, _) => CreateLater(w, a);
      case _ => if OfAHandler(a) { QuietHandler(w, a); } else { QuietService(w, a); }
    }
  }

  lemma TableLater(a: Stores, b: Stores, t: Table)
    requires Later(a, b) && TableOk(a, t)
    ensures TableOk(b, t)
  {
    forall o | o in t.reserving ensures JobOk(b, o, t.reserving[o]) {
      assert JobOk(a, o, t.reserving[o]);
    }
  }

  // ----- commands -----

  lemma EventOwes(w: World, id: MsgId, t: Task)
    requires Enabled(w, HandleEvent(id)) && CommandsOk(w) && t in DoHandleEvent(w, id, w.sent[id]).owed && t.Publish?
    ensures t in w.owed || CommandOk(w.st, t.message)
  {
    hide Consume;
  }

  /** All that is newly owed is an event. */
  ghost predicate OwesEvents(w: World, v: World) {
    forall t :: t in v.owed && t.Publish? ==> t in w.owed || t.message.IsEvent()
  }

  lemma ReserveAnswerOwes(w: World, cmd: Message, ok: bool)
    requires cmd.ReserveInventory?
    ensures OwesEvents(w, AnswerReserve(w, cmd, ok))
  {}

  lemma ReserveOwes(w: World, a: Act)
    requires Enabled(w, a)
    requires a.ReserveStart? || a.ReserveRead? || a.ReserveWrite? || a.ReserveExhausted? || a.ReserveAbort?
    ensures OwesEvents(w, Apply(w, a))
  {
    hide AnswerReserve, Logged, CanReserve, ReserveIn;
    match a {
      case ReserveStart(id) => ReserveAnswerOwes(w, w.sent[id], true);
      case ReserveRead(o) => ReserveAnswerOwes(w, w.reserving[o].cmd, false);
      case ReserveWrite(o) =>
        var job := w.reserving[o];
        var inv := ReserveIn(w.st.inv, job.cmd.product, o, job.phase.version, job.cmd.quantity);
        ReserveAnswerOwes(w.(st := w.st.(inv := inv)), job.cmd, true);
      case ReserveExhausted(o) => ReserveAnswerOwes(w, w.reserving[o].cmd, false);
      case ReserveAbort(_) =>
    }
  }

  lemma ReleaseAnswerOwes(w: World, cmd: Message, ok: bool)
    requires cmd.ReleaseInventory?
    ensures OwesEvents(w, AnswerRelease(w, cmd, ok))
  {}

  lemma ReleaseOwes(w: World, a: Act)
    requires Enabled(w, a) && (a.ReleaseStart? || a.ReleaseWrite? || a.ReleaseError? || a.ReleaseAbort?)
    ensures OwesEvents(w, Apply(w, a))
  {
    hide AnswerRelease, Logged, ReleaseIn;
    match a {
      case ReleaseStart(id) => ReleaseAnswerOwes(w, w.sent[id], true);
      case ReleaseWrite(o) =>
        var cmd := w.releasing[o];
        var inv := ReleaseIn(w.st.inv, cmd.product, o, cmd.quantity);
        ReleaseAnswerOwes(w.(st := w.st.(inv := inv)), cmd, cmd.product in w.st.inv.rows);
      case ReleaseError(o) => ReleaseAnswerOwes(w, w.releasing[o], false);
      case ReleaseAbort(_) =>
    }
  }

  lemma PayOwes(w: World, a: Act)
    requires Enabled(w, a) && (a.PayStart? || a.PayRead? || a.PayWrite? || a.PayAbort?)
    ensures OwesEvents(w, Apply(w, a))
  {}

  lemma AnswersAreNoCommands(w: World, a: Act, t: Task)
    requires Enabled(w, a) && OfAHandler(a) && t in Apply(w, a).owed && t.Publish?
    ensures t in w.owed || t.message.IsEvent()
  {
    hide Enabled, Apply;
    if a.PayStart? || a.PayRead? || a.PayWrite? || a.PayAbort? {
      PayOwes(w, a);
    } else if a.ReleaseStart? || a.ReleaseWrite? || a.ReleaseError? || a.ReleaseAbort? {
      ReleaseOwes(w, a);
    } else {
      ReserveOwes(w, a);
    }
  }

  lemma StartOwes(w: World, a: Act, t: Task)
    requires Enabled(w, a) && a.StartSaga? && CommandsOk(w) && t in Apply(w, a).owed && t.Publish?
    ensures t in w.owed || CommandOk(w.st, t.message)
  {}

  lemma RecoveryOwes(w: World, a: Act, t: Task)
    requires Enabled(w, a) && a.RecoverItem? && CommandsOk(w) && t in Apply(w, a).owed && t.Publish?
    ensures t in w.owed || CommandOk(w.st, t.message)
  {}

  lemma RestOwes(w: World, a: Act, t: Task)
    requires Enabled(w, a) && !OfAHandler(a) && !a.HandleEvent? && !a.StartSaga? && !a.RecoverItem?
    requires t in Apply(w, a).owed
    ensures t in w.owed
  {
    hide Listing;
  }

  lemma ServiceOwes(w: World, a: Act, t: Task)
    requires Enabled(w, a) && !OfAHandler(a) && CommandsOk(w) && t in Apply(w, a).owed && t.Publish?
    ensures t in w.owed || CommandOk(w.st, t.message)
  {
    hide DoHandleEvent, DoStartSaga, DoRecoverItem, DoSend, DoRecordTerminal, DoList, CommandsOk, CommandOk;
    match a {
      case HandleEvent(id) => EventOwes(w, id, t);
      case StartSaga(_, _) => StartOwes(w, a, t);
      case RecoverItem(_) => RecoveryOwes(w, a, t);
      case _ => RestOwes(w, a, t);
    }
  }

  lemma SentWasOwed(w: World, a: Act, id: MsgId)
    requires Enabled(w, a) && id in Apply(w, a).sent
    ensures (id in w.sent && Apply(w, a).sent[id] == w.sent[id]) || Publish(Apply(w, a).sent[id]) in w.owed
  {
    hide Enabled, Apply, OfAHandler, OfReserve, OfRelease, OfPayment;
    SentStays(w, a);
    if id !in w.sent { NewlySent(w, a, id); }
  }

  lemma NewlySent(w: World, a: Act, id: MsgId)
    requires Enabled(w, a) && a.Send? && a.id == id
    ensures id in Apply(w, a).sent && Publish(Apply(w, a).sent[id]) in w.owed
  {}

  lemma EventQuantities(w: World, id: MsgId, o: OrderId)
    requires Enabled(w, HandleEvent(id)) && CommandsOk(w) && o in Apply(w, HandleEvent(id)).st.orderDb.orders
    ensures Apply(w, HandleEvent(id)).st.orderDb.orders[o].quantity >= 1
  {
    hide Followup, Judge;
  }

  lemma NewQuantities(w: World, a: Act, o: OrderId)
    requires Enabled(w, a) && a.CreateOrder? && CommandsOk(w) && o in Apply(w, a).st.orderDb.orders
    ensures Apply(w, a).st.orderDb.orders[o].quantity >= 1
  {
    hide CommandOk;
  }

  lemma WritesKeepOrders(w: World, a: Act)
    requires Enabled(w, a) && (a.ReserveWrite? || a.ReleaseWrite? || a.CreateSku?)
    ensures Apply(w, a).st.orderDb == w.st.orderDb
  {
    hide CanReserve, ReserveIn, ReleaseIn;
  }

  lemma OrdersKeepQuantities(w: World, a: Act, o: OrderId)
    requires Enabled(w, a) && CommandsOk(w) && o in Apply(w, a).st.orderDb.orders
    ensures Apply(w, a).st.orderDb.orders[o].quantity >= 1
  {
    hide Enabled, Apply, CommandOk;
    match a {
      case HandleEvent(id) => EventQuantities(w, id, o);
      case CreateOrder(_, _, _, _) => NewQuantities(w, a, o);
      case CreateSku(_, _) => WritesKeepOrders(w, a);
      case ReserveWrite(_) => WritesKeepOrders(w, a);
      case ReleaseWrite(_) => WritesKeepOrders(w, a);
      case _ => if OfAHandler(a) { QuietHandler(w, a); } else { QuietService(w, a); }
    }
  }

  lemma CommandsKeep(w: World, a: Act)
    requires Enabled(w, a) && CommandsOk(w)
    ensures CommandsOk(Apply(w, a))
  {
    hide Enabled, Apply, OfAHandler;
    var v := Apply(w, a);
    StepLater(w, a);
    forall t | t in v.owed && t.Publish? ensures CommandOk(v.st, t.message) {
      if OfAHandler(a) { AnswersAreNoCommands(w, a, t); } else { ServiceOwes(w, a, t); }
    }
    forall id | id in v.sent ensures CommandOk(v.st, v.sent[id]) { SentWasOwed(w, a, id); }
    forall o | o in v.st.orderDb.orders ensures v.st.orderDb.orders[o].quantity >= 1 { OrdersKeepQuantities(w, a, o); }
  }

  // ----- tables -----

  function Own(w: World): Table { Table(w.reserving, w.releasing) }

  /** The in-flight records after a step: those before, one of them gone, and at most one new or changed. */
  ghost predicate Changes(w: World, v: World, o: OrderId) {
    && v.releasing == w.releasing
    && forall x :: x in v.reserving && x != o ==> x in w.reserving && v.reserving[x] == w.reserving[x]
  }

  lemma ReserveAnswerChanges(w: World, cmd: Message, ok: bool)
    requires cmd.ReserveInventory?
    ensures Changes(w, AnswerReserve(w, cmd, ok), cmd.order) && cmd.order !in AnswerReserve(w, cmd, ok).reserving
  {}

  lemma StartTable(w: World, cmd: Message)
    requires cmd.ReserveInventory? && CommandOk(w.st, cmd)
    ensures var v := DoReserveStart(w, cmd);
      Changes(w, v, cmd.order) && (cmd.order in v.reserving ==> JobOk(v.st, cmd.order, v.reserving[cmd.order]))
  {
    hide AnswerReserve, Logged;
    ReserveAnswerChanges(w, cmd, true);
  }

  lemma ReadTable(w: World, job: ReserveJob)
    requires JobOk(w.st, job.cmd.order, job) && job.cmd.product in w.st.inv.rows
    ensures var v, o := DoReserveRead(w, job), job.cmd.order;
      Changes(w, v, o) && (o in v.reserving ==> JobOk(v.st, o, v.reserving[o]))
  {
    hide AnswerReserve;
    ReserveAnswerChanges(w, job.cmd, false);
  }

  lemma WriteTable(w: World, job: ReserveJob)
    requires JobOk(w.st, job.cmd.order, job) && job.phase.HasRead?
    ensures var v, o := DoReserveWrite(w, job), job.cmd.order;
      Changes(w, v, o) && (o in v.reserving ==> JobOk(v.st, o, v.reserving[o]))
  {
    hide AnswerReserve, CanReserve, ReserveIn;
    var inv := ReserveIn(w.st.inv, job.cmd.product, job.cmd.order, job.phase.version, job.cmd.quantity);
    ReserveAnswerChanges(w.(st := w.st.(inv := inv)), job.cmd, true);
  }

  lemma ReserveTableChanges(w: World, a: Act) returns (o: OrderId)
    requires Enabled(w, a) && CommandsOk(w) && TableOk(w.st, Own(w))
    requires a.ReserveStart? || a.ReserveRead? || a.ReserveWrite? || a.ReserveExhausted? || a.ReserveAbort?
    ensures var v := Apply(w, a);
      Changes(w, v, o) && (o in v.reserving ==> JobOk(v.st, o, v.reserving[o]))
  {
    hide AnswerReserve, DoReserveStart, DoReserveRead, DoReserveWrite, CommandOk;
    match a {
      case ReserveStart(id) =>
        o := w.sent[id].order;
        StartTable(w, w.sent[id]);
      case ReserveRead(x) =>
        o := x;
        assert JobOk(w.st, o, w.reserving[o]);
        ReadTable(w, w.reserving[o]);
      case ReserveWrite(x) =>
        o := x;
        assert JobOk(w.st, o, w.reserving[o]);
        WriteTable(w, w.reserving[o]);
      case ReserveExhausted(x) =>
        o := x;
        ReserveAnswerChanges(w, w.reserving[o].cmd, false);
      case ReserveAbort(x) => o := x;
    }
  }

  lemma ReserveTableKeeps(w: World, a: Act)
    requires Enabled(w, a) && CommandsOk(w) && TableOk(w.st, Own(w))
    requires a.ReserveStart? || a.ReserveRead? || a.ReserveWrite? || a.ReserveExhausted? || a.ReserveAbort?
    ensures TableOk(Apply(w, a).st, Own(Apply(w, a)))
  {
    hide Enabled, Apply, CommandsOk, JobOk, CommandOk, Later;
    var o := ReserveTableChanges(w, a);
    StepLater(w, a);
    TableLater(w.st, Apply(w, a).st, Own(w));
  }

  lemma ReleaseTableKeeps(w: World, a: Act)
    requires Enabled(w, a) && CommandsOk(w) && TableOk(w.st, Own(w))
    requires a.ReleaseStart? || a.ReleaseWrite? || a.ReleaseError? || a.ReleaseAbort?
    ensures TableOk(Apply(w, a).st, Own(Apply(w, a)))
  {
    hide Enabled, Apply, CommandOk, JobOk, Later;
    StepLater(w, a);
    TableLater(w.st, Apply(w, a).st, Own(w));
    ReleaseTableChanges(w, a);
    if a.ReleaseStart? && a.id in w.sent { CommandLater(w.st, Apply(w, a).st, w.sent[a.id]); }
  }

  lemma CommandLater(a: Stores, b: Stores, m: Message)
    requires Later(a, b) && CommandOk(a, m)
    ensures CommandOk(b, m)
  {}

  lemma ReleaseTableChanges(w: World, a: Act)
    requires Enabled(w, a) && (a.ReleaseStart? || a.ReleaseWrite? || a.ReleaseError? || a.ReleaseAbort?)
    ensures var v := Apply(w, a);
      && v.reserving == w.reserving
      && forall o :: o in v.releasing ==>
           || (o in w.releasing && v.releasing[o] == w.releasing[o])
           || (a.ReleaseStart? && a.id in w.sent && v.releasing[o] == w.sent[a.id] &&
             w.sent[a.id].ReleaseInventory? && w.sent[a.id].order == o)
  {
    hide Logged, ReleaseIn;
  }

  lemma OtherTableKeeps(w: World, a: Act)
    requires Enabled(w, a) && (!OfAHandler(a) || a.PayStart? || a.PayRead? || a.PayWrite? || a.PayAbort?)
    ensures Own(Apply(w, a)) == Own(w)
  {
    hide Logged, DoHandleEvent, RecoveryCommand, Listing, PaymentAnswer;
    if a.HandleEvent? { HandleEventFrame(w, a.id, w.sent[a.id]); }
  }

  // ----- the fleet -----

  ghost predicate FleetOk(c: Fleet) {
    CommandsOk(c.w) && forall k :: TableOk(c.w.st, TableOf(c, k))
  }

  lemma OwnTableKeeps(w: World, a: Act)
    requires Enabled(w, a) && CommandsOk(w) && TableOk(w.st, Own(w))
    ensures TableOk(Apply(w, a).st, Own(Apply(w, a)))
  {
    hide Enabled, Apply, CommandsOk, TableOk, Own;
    if a.ReserveStart? || a.ReserveRead? || a.ReserveWrite? || a.ReserveExhausted? || a.ReserveAbort? {
      ReserveTableKeeps(w, a);
    } else if a.ReleaseStart? || a.ReleaseWrite? || a.ReleaseError? || a.ReleaseAbort? {
      ReleaseTableKeeps(w, a);
    } else {
      OtherTableKeeps(w, a);
      StepLater(w, a);
      TableLater(w.st, Apply(w, a).st, Own(w));
    }
  }

  lemma TurnKeeps(c: Fleet, t: Turn)
    requires FleetOk(c) && CanTake(c, t)
    ensures FleetOk(Next(c, t))
  {
    hide Enabled, Apply, TableOk, Later;
    var w := View(c, t.replica);
    var v := Apply(w, t.act);
    CommandsKeep(w, t.act);
    OwnTableKeeps(w, t.act);
    StepLater(w, t.act);
    forall k ensures TableOk(v.st, TableOf(Next(c, t), k)) {
      if k != t.replica { TableLater(w.st, v.st, TableOf(c, k)); }
    }
  }

  lemma {:induction false} CourseKeeps(c: Fleet, ts: seq<Turn>, d: Fleet)
    requires FleetOk(c) && Course(c, ts, d)
    ensures FleetOk(d)
    decreases |ts|
  {
    hide FleetOk, CanTake, Next;
    if ts != [] {
      TurnKeeps(c, ts[0]);
      CourseKeeps(Next(c, ts[0]), ts[1..], d);
    }
  }

  lemma AttainableOk(c: Fleet)
    requires Attainable(c)
    ensures FleetOk(c)
  {
    hide Course;
    var budget, ts :| Course(Unstarted(budget), ts, c);
    CourseKeeps(Unstarted(budget), ts, c);
  }
}
