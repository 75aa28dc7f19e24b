/**
 * One order's saga as an atomic process, and the proof that every run of the three services, seen from
 * one saga, is a run of that process with stuttering.
 */
module Refinement {
  import opened Types
  import opened OrderStore
  import opened InventoryStore
  import opened PaymentStore
  import opened Protocol
  import opened Invariant
  import opened Preservation
  import opened Runs
  import opened Safety

  // ----- the atomic process -----

  datatype Stage =
    | NotStarted | AwaitingStock | AwaitingPayment | AwaitingReturn
    | Fulfilled | Restored | TurnedAway | Stuck

  datatype Bill = Unpaid | PaidWith(tx: TxId) | DeclinedWith(tx: TxId)

  /** The stock taken and given back, each as product and quantity. */
  datatype Spec = Spec(stage: Stage, taken: Option<(ProductId, int)>, returned: Option<(ProductId, int)>, bill: Bill)

  const Fresh := Spec(NotStarted, None, None, Unpaid)

  datatype Move = Begin | Take | Grant | TurnAway | Charge | Complete | Compensate | Return | Finish | GetStuck

  predicate Can(x: Spec, m: Move, y: Spec) {
    match m
    case Begin => x == Fresh && y == x.(stage := AwaitingStock)
    case Take =>
      && (x.stage == AwaitingStock || x.stage == TurnedAway)
      && x.taken == None && y.taken.Some? && y == x.(taken := y.taken)
    case Grant => x.stage == AwaitingStock && x.taken.Some? && y == x.(stage := AwaitingPayment)
    case TurnAway => x.stage == AwaitingStock && y == x.(stage := TurnedAway)
    case Charge => x.stage == AwaitingPayment && x.bill == Unpaid && y.bill != Unpaid && y == x.(bill := y.bill)
    case Complete => x.stage == AwaitingPayment && x.bill.PaidWith? && y == x.(stage := Fulfilled)
    case Compensate => x.stage == AwaitingPayment && x.bill.DeclinedWith? && y == x.(stage := AwaitingReturn)
    case Return =>
      && (x.stage == AwaitingReturn || x.stage == Stuck)
      && x.returned == None && y == x.(returned := x.taken)
    case Finish => x.stage == AwaitingReturn && x.returned.Some? && y == x.(stage := Restored)
    case GetStuck => x.stage == AwaitingReturn && y == x.(stage := Stuck)
  }

  ghost predicate SpecNext(x: Spec, y: Spec) {
    exists m :: Can(x, m, y)
  }

  /** Consecutive states are equal or one move apart. */
  ghost predicate Behaviour(trace: seq<Spec>) {
    && trace != [] && trace[0] == Fresh
    && forall i :: 0 < i < |trace| ==> trace[i] == trace[i - 1] || SpecNext(trace[i - 1], trace[i])
  }

  ghost predicate SpecOk(x: Spec) {
    match x.stage
    case NotStarted => x == Fresh
    case AwaitingStock => x.returned == None && x.bill == Unpaid
    case TurnedAway => x.returned == None && x.bill == Unpaid
    case AwaitingPayment => x.taken.Some? && x.returned == None
    case Fulfilled => x.taken.Some? && x.returned == None && x.bill.PaidWith?
    case AwaitingReturn => x.taken.Some? && (x.returned == None || x.returned == x.taken) && x.bill.DeclinedWith?
    case Stuck => x.taken.Some? && (x.returned == None || x.returned == x.taken) && x.bill.DeclinedWith?
    case Restored => x.taken.Some? && x.returned == x.taken && x.bill.DeclinedWith?
  }

  lemma {:induction false} BehaviourOk(trace: seq<Spec>, i: nat)
    requires Behaviour(trace) && i < |trace|
    ensures SpecOk(trace[i])
  {
    if i > 0 {
      BehaviourOk(trace, i - 1);
      if trace[i] != trace[i - 1] {
        var m :| Can(trace[i - 1], m, trace[i]);
      }
    }
  }

  // ----- what one saga looks like from outside -----

  function EntryIn(logs: seq<LogEntry>, o: OrderId, action: Action): Option<(ProductId, int)> {
    if logs == [] then None
    else
      var e := logs[|logs| - 1];
      if e.order == o && e.action == action then Some((e.product, e.quantity))
      else EntryIn(logs[..|logs| - 1], o, action)
  }

  function StageOf(saga: Saga, billed: bool): Stage {
    match saga.step
    case ReservingInventory => AwaitingStock
    case ProcessingPayment => AwaitingPayment
    case ReleasingInventory => AwaitingReturn
    case Done =>
      match saga.status
      case Completed => Fulfilled
      case Compensated => Restored
      case _ => if billed then Stuck else TurnedAway
  }

  function BillOf(payments: map<OrderId, Payment>, o: OrderId): Bill {
    if o !in payments then Unpaid
    else if payments[o].status == PaymentSuccess then PaidWith(payments[o].tx) else DeclinedWith(payments[o].tx)
  }

  function Shape(sagas: map<SagaId, Saga>, logs: seq<LogEntry>, payments: map<OrderId, Payment>, s: SagaId): Spec {
    if s !in sagas then Fresh
    else
      var o := sagas[s].order;
      Spec(StageOf(sagas[s], o in payments), EntryIn(logs, o, Reserve), EntryIn(logs, o, Release), BillOf(payments, o))
  }

  function Project(w: World, s: SagaId): Spec {
    Shape(w.st.orderDb.sagas, w.st.inv.logs, w.st.pay.payments, s)
  }

  lemma {:induction false} EntryInLogged(logs: seq<LogEntry>, o: OrderId, action: Action)
    ensures EntryIn(logs, o, action).Some? <==> o in Logged(logs, action)
  {
    if logs != [] {
      EntryInLogged(logs[..|logs| - 1], o, action);
    }
  }

  lemma {:induction false} EntryInCopies(logs: seq<LogEntry>, orders: map<OrderId, Order>, o: OrderId, action: Action)
    requires LogOk(logs, orders) && o in Logged(logs, action)
    ensures o in orders && EntryIn(logs, o, action) == Some((orders[o].product, orders[o].quantity))
  {
    var n := |logs| - 1;
    if logs[n].order != o || logs[n].action != action {
      EntryInCopies(logs[..n], orders, o, action);
    }
  }

  lemma EntryInAppend(logs: seq<LogEntry>, e: LogEntry, o: OrderId, action: Action)
    ensures EntryIn(logs + [e], o, action) ==
      if e.order == o && e.action == action then Some((e.product, e.quantity)) else EntryIn(logs, o, action)
  {
    assert (logs + [e])[..|logs|] == logs;
  }

  // ----- the five steps that show -----

  ghost predicate StepOrStutter(x: Spec, y: Spec) {
    x == y || SpecNext(x, y)
  }

  lemma StartShows(w: World, s: SagaId, t: SagaId, o: OrderId)
    requires Inv(w) && t !in w.st.orderDb.sagas && o in w.st.orderDb.orders && o !in Owners(w.st.orderDb)
    ensures StepOrStutter(Project(w, s), Project(DoStartSaga(w, t, o), s))
  {
    if s == t {
      NewOrderIsBlank(w, o);
      EntryInLogged(w.st.inv.logs, o, Reserve);
      EntryInLogged(w.st.inv.logs, o, Release);
      assert Can(Project(w, s), Begin, Project(DoStartSaga(w, t, o), s)) by { hide Inv; }
    }
  }

  lemma NewOrderIsBlank(w: World, o: OrderId)
    requires Inv(w) && o !in Owners(w.st.orderDb)
    ensures !Holds(w.st, o) && !GaveBack(w.st, o) && o !in w.st.pay.payments
  {}

  lemma EventShows(w: World, s: SagaId, id: MsgId)
    requires Inv(w) && id in w.sent && w.sent[id].IsEvent()
    ensures StepOrStutter(Project(w, s), Project(DoHandleEvent(w, id, w.sent[id]), s))
  {
    hide Inv;
    var ev, v := w.sent[id], DoHandleEvent(w, id, w.sent[id]);
    CirculatingOk(w, ev);
    if ev.saga == s && Judge(w.st.orderDb, id, ev).Applied? {
      SagaFacts(w, s);
      EntryInLogged(w.st.inv.logs, ev.order, Reserve);
      EntryInLogged(w.st.inv.logs, ev.order, Release);
      var x, y := Project(w, s), Project(v, s);
      match ev {
        case InventoryReserved(_, _, _, _, ok) => assert Can(x, if ok then Grant else TurnAway, y);
        case PaymentProcessed(_, _, _, ok) => assert Can(x, if ok then Complete else Compensate, y);
        case InventoryReleased(_, _, _, _, ok) => assert Can(x, if ok then Finish else GetStuck, y);
      }
    }
  }

  lemma GrantShows(w: World, s: SagaId, o: OrderId)
    requires Inv(w) && o in w.reserving && w.reserving[o].cmd.ReserveInventory? && w.reserving[o].phase.HasRead?
    ensures StepOrStutter(Project(w, s), Project(DoReserveWrite(w, w.reserving[o]), s))
  {
    hide Inv;
    var cmd, v := w.reserving[o].cmd, DoReserveWrite(w, w.reserving[o]);
    ReserveJobFacts(w, o);
    if CanReserve(w.st.inv, cmd.product, w.reserving[o].phase.version, cmd.quantity) && s in w.st.orderDb.sagas {
      var mine, e := w.st.orderDb.sagas[s].order, LogEntry(cmd.product, o, Reserve, cmd.quantity);
      EntryInAppend(w.st.inv.logs, e, mine, Reserve);
      EntryInAppend(w.st.inv.logs, e, mine, Release);
      if mine == o {
        SagaFacts(w, s);
        EntryInLogged(w.st.inv.logs, o, Reserve);
        assert Can(Project(w, s), Take, Project(v, s));
      }
    }
  }

  lemma ReleaseShows(w: World, s: SagaId, o: OrderId)
    requires Inv(w) && o in w.releasing && w.releasing[o].ReleaseInventory?
    ensures StepOrStutter(Project(w, s), Project(DoReleaseWrite(w, w.releasing[o]), s))
  {
    hide Inv;
    var cmd, v := w.releasing[o], DoReleaseWrite(w, w.releasing[o]);
    ReleaseJobFacts(w, o);
    if cmd.product in w.st.inv.rows && s in w.st.orderDb.sagas {
      var mine, e := w.st.orderDb.sagas[s].order, LogEntry(cmd.product, o, Release, cmd.quantity);
      EntryInAppend(w.st.inv.logs, e, mine, Reserve);
      EntryInAppend(w.st.inv.logs, e, mine, Release);
      if mine == o {
        ReleasingSaga(w, s, cmd);
        EntryInLogged(w.st.inv.logs, o, Release);
        assert Can(Project(w, s), Return, Project(v, s));
      }
    }
  }

  lemma ReleasingSaga(w: World, s: SagaId, cmd: Message)
    requires Inv(w) && cmd.ReleaseInventory? && Justified(w.st, cmd) && !GaveBack(w.st, cmd.order)
    requires s in w.st.orderDb.sagas && w.st.orderDb.sagas[s].order == cmd.order
    ensures var saga := w.st.orderDb.sagas[s];
      saga.step == ReleasingInventory || (saga.step == Done && saga.status == Failed && saga.order in w.st.pay.payments)
    ensures EntryIn(w.st.inv.logs, cmd.order, Reserve) == Some((cmd.product, cmd.quantity))
  {
    hide RowsOk, StockOk, PaymentsOk, AnswersOk, RefusalsOk, MessagesOk, JobsOk, ConsumedOk, RecordsOk;
    OneSaga(w, s, cmd.saga);
    assert SagaOk(w.st, s);
    HeldEntry(w, cmd.order);
  }

  lemma HeldEntry(w: World, o: OrderId)
    requires Inv(w) && Holds(w.st, o)
    ensures o in w.st.orderDb.orders
    ensures EntryIn(w.st.inv.logs, o, Reserve) ==
      Some((w.st.orderDb.orders[o].product, w.st.orderDb.orders[o].quantity))
  {
    hide RowsOk, SagasOk, PaymentsOk, AnswersOk, RefusalsOk, MessagesOk, JobsOk, ConsumedOk, RecordsOk;
    EntryInCopies(w.st.inv.logs, w.st.orderDb.orders, o, Reserve);
  }

  lemma ChargeShows(w: World, s: SagaId, k: nat, tx: TxId, ok: bool)
    requires Inv(w) && k in w.paying && w.paying[k].cmd.ProcessPayment?
    ensures StepOrStutter(Project(w, s), Project(DoPayWrite(w, k, w.paying[k], tx, ok), s))
  {
    hide Inv;
    var cmd, v := w.paying[k].cmd, DoPayWrite(w, k, w.paying[k], tx, ok);
    PayJobFacts(w, k);
    if CanCreate(w.st.pay, cmd.order, w.paying[k].id) && s in w.st.orderDb.sagas &&
      w.st.orderDb.sagas[s].order == cmd.order {
      OneSaga(w, s, cmd.saga);
      SagaFacts(w, s);
      assert Can(Project(w, s), Charge, Project(v, s));
    }
  }

  // ----- refinement -----

  /** Every step of the three services is, for each saga, one move of the atomic process or none. */
  lemma StepRefines(w: World, a: Act, s: SagaId)
    requires Inv(w) && Enabled(w, a)
    ensures StepOrStutter(Project(w, s), Project(Apply(w, a), s))
  {
    hide Inv, Project, StepOrStutter;
    if a.StartSaga? {
      StartShows(w, s, a.saga, a.order);
    } else if a.HandleEvent? {
      EventShows(w, s, a.id);
    } else if a.ReserveWrite? {
      GrantShows(w, s, a.order);
    } else if a.ReleaseWrite? {
      ReleaseShows(w, s, a.order);
    } else if a.PayWrite? {
      ChargeShows(w, s, a.worker, a.tx, a.ok);
    } else {
      Quiet(w, a, s);
    }
  }

  /** No other step touches saga rows, the log or the payments. */
  lemma Quiet(w: World, a: Act, s: SagaId)
    requires Enabled(w, a)
    requires !a.StartSaga? && !a.HandleEvent? && !a.ReserveWrite? && !a.ReleaseWrite? && !a.PayWrite?
    ensures StepOrStutter(Project(w, s), Project(Apply(w, a), s))
  {
    hide SpecNext, Shape;
    hide DoCreateSku, DoCreateOrder, DoSend, DoRecordTerminal, DoList, DoRecoverItem, DoPayStart, DoPayRead;
    hide AnswerReserve, DoReserveStart, DoReserveRead, AnswerRelease, DoReleaseStart;
    var v := Apply(w, a);
    assert v.st.orderDb.sagas == w.st.orderDb.sagas && v.st.inv.logs == w.st.inv.logs
      && v.st.pay.payments == w.st.pay.payments;
  }

  /** A run, seen from one saga. */
  ghost function Shadow(w: World, acts: seq<Act>, v: World, s: SagaId): (trace: seq<Spec>)
    requires Path(w, acts, v)
    ensures |trace| == |acts| + 1 && trace[0] == Project(w, s)
    decreases |acts|
  {
    if acts == [] then [Project(w, s)]
    else [Project(w, s)] + Shadow(Apply(w, acts[0]), acts[1..], v, s)
  }

  lemma {:induction false} ShadowSteps(w: World, acts: seq<Act>, v: World, s: SagaId)
    requires Inv(w) && Path(w, acts, v)
    ensures var trace := Shadow(w, acts, v, s);
      && trace[|acts|] == Project(v, s)
      && forall i :: 0 < i < |trace| ==> StepOrStutter(trace[i - 1], trace[i])
    decreases |acts|
  {
    hide Inv, Mono, Enabled, Apply, Project, StepOrStutter;
    if acts != [] {
      var u := Apply(w, acts[0]);
      StepKeeps(w, acts[0]);
      StepRefines(w, acts[0], s);
      ShadowSteps(u, acts[1..], v, s);
      var trace, rest := Shadow(w, acts, v, s), Shadow(u, acts[1..], v, s);
      forall i | 0 < i < |trace| ensures StepOrStutter(trace[i - 1], trace[i]) {
        assert trace[i] == rest[i - 1];
        if i > 1 { assert trace[i - 1] == rest[i - 2]; }
      }
    }
  }

  /** Every run of the services, from the empty world, is a behaviour of the atomic process for each saga. */
  lemma RunRefines(budget: int, acts: seq<Act>, v: World, s: SagaId)
    requires Path(Initial(budget), acts, v)
    ensures Behaviour(Shadow(Initial(budget), acts, v, s))
    ensures Shadow(Initial(budget), acts, v, s)[|acts|] == Project(v, s)
  {
    hide Inv, Path, Enabled, Apply, SpecNext;
    InitialOk(budget);
    ShadowSteps(Initial(budget), acts, v, s);
    var trace := Shadow(Initial(budget), acts, v, s);
    forall i | 0 < i < |trace| ensures trace[i] == trace[i - 1] || SpecNext(trace[i - 1], trace[i]) {
      assert StepOrStutter(trace[i - 1], trace[i]);
    }
  }

  /** What a terminal saga leaves behind, read off the atomic process. */
  lemma TerminalFacts(w: World, s: SagaId)
    requires Reachable(w) && s in w.st.orderDb.sagas && w.st.orderDb.sagas[s].step == Done
    ensures var x, status := Project(w, s), w.st.orderDb.sagas[s].status;
      && (status == Completed ==> x.taken.Some? && x.returned == None && x.bill.PaidWith?)
      && (status == Compensated ==> x.taken.Some? && x.returned == x.taken && x.bill.DeclinedWith?)
      && (status == Failed && x.bill != Unpaid ==> x.taken.Some? && x.bill.DeclinedWith?)
      && (status == Failed && x.bill == Unpaid ==> x.returned == None)
  {
    hide Path;
    var budget, acts :| Path(Initial(budget), acts, w);
    RunRefines(budget, acts, w, s);
    BehaviourOk(Shadow(Initial(budget), acts, w, s), |acts|);
  }

  /** A refused reservation that takes effect turns its saga away. */
  lemma RefusalTurnsAway(w: World, id: MsgId)
    requires Inv(w) && id in w.sent && w.sent[id].InventoryReserved? && !w.sent[id].success
    requires Judge(w.st.orderDb, id, w.sent[id]).Applied?
    ensures var ev := w.sent[id];
      && Project(DoHandleEvent(w, id, ev), ev.saga).stage == TurnedAway
      && ev.saga in w.st.orderDb.sagas && w.st.orderDb.sagas[ev.saga].order == ev.order
  {
    hide Inv, EntryIn;
    CirculatingOk(w, w.sent[id]);
    SagaFacts(w, w.sent[id].saga);
  }

  /** Failed at reservation, that is by a refusal that took effect: no payment row in any later world. */
  lemma RefusedIsNeverBilled(w: World, id: MsgId, acts: seq<Act>, v: World)
    requires Reachable(w) && id in w.sent && w.sent[id].InventoryReserved? && !w.sent[id].success
    requires Judge(w.st.orderDb, id, w.sent[id]).Applied? && Path(DoHandleEvent(w, id, w.sent[id]), acts, v)
    ensures w.sent[id].order !in v.st.pay.payments && Project(v, w.sent[id].saga).stage == TurnedAway
  {
    hide Inv, Path, Reachable, Project, DoHandleEvent, Judge;
    ReachableOk(w);
    RefusalTurnsAway(w, id);
    var u, s := DoHandleEvent(w, id, w.sent[id]), w.sent[id].saga;
    PathStep(w, HandleEvent(id));
    ReachableFrom(w, [HandleEvent(id)], u);
    TurnedAwayIsNeverBilled(u, acts, v, s);
    HandleEventKeeps(w, u, id);
    PathKeeps(u, acts, v);
    UnbilledHasNoRow(w, u, v, s);
  }

  lemma UnbilledHasNoRow(w: World, u: World, v: World, s: SagaId)
    requires Mono(w, u) && Mono(u, v) && s in w.st.orderDb.sagas && Project(v, s).bill == Unpaid
    ensures w.st.orderDb.sagas[s].order !in v.st.pay.payments
  {
    hide OrdersGrow, FactsGrow, StockGrows, Past, Late, EntryIn;
    assert SagaGrows(w.st, u.st, s) && SagaGrows(u.st, v.st, s);
  }

  /** Once turned away, never billed: no payment row now or in any later world. */
  lemma TurnedAwayIsNeverBilled(w: World, acts: seq<Act>, v: World, s: SagaId)
    requires Reachable(w) && Project(w, s).stage == TurnedAway && Path(w, acts, v)
    ensures Project(v, s).stage == TurnedAway && Project(v, s).bill == Unpaid
  {
    hide Inv, Path, Reachable, Project;
    ReachableOk(w);
    ShadowSteps(w, acts, v, s);
    TurnedAwayStays(w, acts, v, s, |acts|);
  }

  lemma {:induction false} TurnedAwayStays(w: World, acts: seq<Act>, v: World, s: SagaId, i: nat)
    requires Inv(w) && Path(w, acts, v) && i <= |acts| && Project(w, s).stage == TurnedAway
    ensures Shadow(w, acts, v, s)[i].stage == TurnedAway && Shadow(w, acts, v, s)[i].bill == Unpaid
  {
    hide Inv, Path, SpecOk, Project, StepOrStutter, Shape;
    if i == 0 {
      BilledIsNotTurnedAway(w, s);
    } else {
      TurnedAwayStays(w, acts, v, s, i - 1);
      ShadowSteps(w, acts, v, s);
      var trace := Shadow(w, acts, v, s);
      TurnedAwayMove(trace[i - 1], trace[i]);
    }
  }

  lemma TurnedAwayMove(x: Spec, y: Spec)
    requires StepOrStutter(x, y) && x.stage == TurnedAway && x.bill == Unpaid
    ensures y.stage == TurnedAway && y.bill == Unpaid
  {}

  lemma BilledIsNotTurnedAway(w: World, s: SagaId)
    requires Project(w, s).stage == TurnedAway
    ensures Project(w, s).bill == Unpaid
  {}
}
