/**
 * No saga is ever stuck, under every schedule: take any interleaving of any steps in which no handler is
 * aborted and no owed publish is dropped. If in it each open saga's command is taken up by a handler, and at
 * its end the saga's handlers have finished, its answers are published and its events have been delivered,
 * then every saga that was open has moved on. Three such rounds settle them all.
 */
module FairRounds {
  import opened Types
  import opened OrderStore
  import opened InventoryStore
  import opened PaymentStore
  import opened Protocol
  import opened Invariant
  import opened Preservation
  import opened Runs
  import opened Safety
  import opened Progress
  import opened Claims

  predicate Faultless(a: Act) {
    !a.Drop? && !a.ReserveAbort? && !a.ReleaseAbort? && !a.PayAbort?
  }

  ghost predicate FaultlessPath(w: World, acts: seq<Act>, v: World) {
    Path(w, acts, v) && forall a :: a in acts ==> Faultless(a)
  }

  /** An answer to this step of the saga was published or is owed. */
  ghost predicate AnswerOut(w: World, s: SagaId, step: SagaStep) {
    exists ev: Message :: InCirculation(w, ev) && ev.IsEvent() && ev.saga == s && ev.Answers() == step
  }

  ghost predicate PaysFor(w: World, k: nat, o: OrderId) {
    && k in w.paying && w.paying[k].cmd.ProcessPayment? && w.paying[k].cmd.order == o
    && (w.paying[k].phase.Unread? || o !in w.st.pay.payments)
  }

  /** A handler that will answer this step of the order is in flight. */
  ghost predicate Working(w: World, o: OrderId, step: SagaStep) {
    match step
    case ReservingInventory => o in w.reserving
    case ProcessingPayment => exists k :: PaysFor(w, k, o)
    case ReleasingInventory => o in w.releasing
    case Done => false
  }

  ghost predicate Promised(w: World, s: SagaId, o: OrderId, step: SagaStep) {
    Working(w, o, step) || AnswerOut(w, s, step)
  }

  lemma CirculationStays(w: World, a: Act, m: Message)
    requires Enabled(w, a) && Faultless(a) && InCirculation(w, m)
    ensures InCirculation(Apply(w, a), m)
  {
    hide Enabled, Apply, InCirculation;
    InCirculationIs(w, m);
    InCirculationIs(Apply(w, a), m);
    SentStays(w, a);
    OwedStays(w, a, Publish(m));
    if a.Send? && a.message == m { SentNow(w, m, a.id); }
    if m in w.sent.Values {
      var id :| id in w.sent && w.sent[id] == m;
      assert Apply(w, a).sent[id] == m;
    }
  }

  lemma InCirculationIs(w: World, m: Message)
    ensures InCirculation(w, m) <==> m in w.sent.Values || w.owed[Publish(m)] > 0
  {}

  lemma SentNow(w: World, m: Message, id: MsgId)
    requires Enabled(w, Send(m, id))
    ensures m in Apply(w, Send(m, id)).sent.Values
  {
    assert Apply(w, Send(m, id)).sent[id] == m;
  }

  lemma ReserveWorkGoesOn(w: World, a: Act, s: SagaId, o: OrderId)
    requires Inv(w) && Enabled(w, a) && Faultless(a) && o in w.reserving
    requires s in w.st.orderDb.sagas && w.st.orderDb.sagas[s].order == o
    ensures Promised(Apply(w, a), s, o, ReservingInventory)
  {
    hide Inv, Logged, CanReserve, ReserveIn, DoHandleEvent, DoReserveStart, DoReleaseStart, DoReleaseWrite, DoPayWrite;
    InFlightIsMine(w, s, o);
    var v, cmd := Apply(w, a), w.reserving[o].cmd;
    if OfReserve(w, a, o) {
      var yes := InventoryReserved(s, o, cmd.product, cmd.quantity, true);
      var no := InventoryReserved(s, o, cmd.product, cmd.quantity, false);
      assert o in v.reserving || Publish(yes) in v.owed || Publish(no) in v.owed;
      assert o in v.reserving || InCirculation(v, yes) || InCirculation(v, no);
    } else {
      ReservingStays(w, a, o);
    }
  }

  lemma ReleaseWorkGoesOn(w: World, a: Act, s: SagaId, o: OrderId)
    requires Inv(w) && Enabled(w, a) && Faultless(a) && o in w.releasing
    requires s in w.st.orderDb.sagas && w.st.orderDb.sagas[s].order == o
    ensures Promised(Apply(w, a), s, o, ReleasingInventory)
  {
    hide Inv, Logged, CanReserve, ReserveIn, DoHandleEvent, DoReserveStart, DoReserveRead, DoReserveWrite, DoPayWrite;
    ReleaseIsMine(w, s, o);
    var v, cmd := Apply(w, a), w.releasing[o];
    if OfRelease(w, a, o) {
      var yes := InventoryReleased(s, o, cmd.product, cmd.quantity, true);
      var no := InventoryReleased(s, o, cmd.product, cmd.quantity, false);
      assert Publish(yes) in v.owed || Publish(no) in v.owed;
      assert InCirculation(v, yes) || InCirculation(v, no);
    } else {
      ReleasingStays(w, a, o);
    }
  }

  lemma PayJobIsMine(w: World, k: nat, s: SagaId, o: OrderId)
    requires Inv(w) && k in w.paying && w.paying[k].cmd.ProcessPayment? && w.paying[k].cmd.order == o
    requires s in w.st.orderDb.sagas && w.st.orderDb.sagas[s].order == o
    ensures w.paying[k].cmd.saga == s
    ensures w.paying[k].id in w.st.pay.processed ==> o in w.st.pay.payments
  {
    hide Inv;
    PayJobFacts(w, k);
    OneSaga(w, s, w.paying[k].cmd.saga);
    if w.paying[k].id in w.st.pay.processed { PaidWhenMarked(w, w.paying[k].id); }
  }

  lemma PaidWhenMarked(w: World, id: MsgId)
    requires Inv(w) && id in w.st.pay.processed
    ensures id in w.sent && w.sent[id].ProcessPayment? && w.sent[id].order in w.st.pay.payments
  {}

  lemma RowsComeFromWrites(w: World, a: Act, o: OrderId)
    requires Enabled(w, a) && o !in w.st.pay.payments && o in Apply(w, a).st.pay.payments
    ensures a.PayWrite? && w.paying[a.worker].cmd.order == o && CanCreate(w.st.pay, o, w.paying[a.worker].id)
  {
    hide Logged, Judge, Consume, CanReserve, ReserveIn, ReleaseIn, Followup, RecoveryCommand, Listing, PaymentAnswer;
    hide AnswerReserve, AnswerRelease, DoHandleEvent, DoReserveWrite, DoReleaseWrite;
    if a.ReserveWrite? || a.ReleaseWrite? || a.HandleEvent? { PaymentsApart(w, a); }
  }

  lemma PaymentsApart(w: World, a: Act)
    requires Enabled(w, a) && (a.ReserveWrite? || a.ReleaseWrite? || a.HandleEvent?)
    ensures Apply(w, a).st.pay == w.st.pay
  {
    hide Judge, Consume, CanReserve, ReserveIn, ReleaseIn, Followup;
  }

  lemma WriteAnswers(w: World, k: nat, tx: TxId, ok: bool, s: SagaId, o: OrderId)
    requires k in w.paying && w.paying[k].cmd.order == o && CanCreate(w.st.pay, o, w.paying[k].id)
    requires s in w.st.orderDb.sagas && w.st.orderDb.sagas[s].order == o
    requires Enabled(w, PayWrite(k, tx, ok)) && Inv(w)
    ensures AnswerOut(Apply(w, PayWrite(k, tx, ok)), s, ProcessingPayment)
  {
    hide Inv, Apply, CanCreate;
    PayJobIsMine(w, k, s, o);
    var ev := WriteOwes(w, k, tx, ok);
    assert InCirculation(Apply(w, PayWrite(k, tx, ok)), ev);
  }

  lemma WriteOwes(w: World, k: nat, tx: TxId, ok: bool) returns (ev: Message)
    requires Enabled(w, PayWrite(k, tx, ok)) && CanCreate(w.st.pay, w.paying[k].cmd.order, w.paying[k].id)
    ensures ev.PaymentProcessed? && ev.saga == w.paying[k].cmd.saga
    ensures Publish(ev) in Apply(w, PayWrite(k, tx, ok)).owed
  {
    hide CreateIn;
    ev := PaymentAnswer(w.paying[k].cmd, Payment(w.paying[k].cmd.amount, if ok then PaymentSuccess else PaymentFailed,
      tx));
  }

  lemma ReadGoesOn(w: World, k: nat, s: SagaId, o: OrderId)
    requires Inv(w) && Enabled(w, PayRead(k)) && PaysFor(w, k, o)
    requires s in w.st.orderDb.sagas && w.st.orderDb.sagas[s].order == o
    ensures Promised(Apply(w, PayRead(k)), s, o, ProcessingPayment)
  {
    hide Inv;
    PayJobIsMine(w, k, s, o);
    var v := Apply(w, PayRead(k));
    if o in w.st.pay.payments {
      assert InCirculation(v, PaymentAnswer(w.paying[k].cmd, w.st.pay.payments[o]));
    } else {
      assert PaysFor(v, k, o);
    }
  }

  lemma PayWorkGoesOn(w: World, a: Act, s: SagaId, o: OrderId, k: nat)
    requires Inv(w) && Enabled(w, a) && Faultless(a) && PaysFor(w, k, o)
    requires s in w.st.orderDb.sagas && w.st.orderDb.sagas[s].order == o
    ensures Promised(Apply(w, a), s, o, ProcessingPayment)
  {
    hide Inv, Apply, AnswerOut, PayJobOk, CanCreate;
    var v := Apply(w, a);
    if o !in w.st.pay.payments && o in v.st.pay.payments {
      RowsComeFromWrites(w, a, o);
      WriteAnswers(w, a.worker, a.tx, a.ok, s, o);
    } else if a == PayRead(k) {
      ReadGoesOn(w, k, s, o);
    } else if a.PayWrite? && a.worker == k {
      PayJobIsMine(w, k, s, o);
      CanCreateIs(w.st.pay, o, w.paying[k].id);
      WriteAnswers(w, k, a.tx, a.ok, s, o);
    } else {
      PayingStays(w, a, k);
      assert PaysFor(v, k, o);
    }
  }

  lemma CanCreateIs(db: PaymentDb, o: OrderId, id: MsgId)
    ensures CanCreate(db, o, id) <==> o !in db.payments && id !in db.processed
  {}

  /** A promised answer stays promised under every faultless step of anybody. */
  lemma PromiseStays(w: World, a: Act, s: SagaId, o: OrderId, step: SagaStep)
    requires Inv(w) && Enabled(w, a) && Faultless(a) && Promised(w, s, o, step)
    requires s in w.st.orderDb.sagas && w.st.orderDb.sagas[s].order == o
    ensures Promised(Apply(w, a), s, o, step)
  {
    hide Inv, Enabled, Apply, InCirculation, PaysFor;
    if AnswerOut(w, s, step) {
      var ev: Message :| InCirculation(w, ev) && ev.IsEvent() && ev.saga == s && ev.Answers() == step;
      CirculationStays(w, a, ev);
    } else {
      match step {
        case ReservingInventory => ReserveWorkGoesOn(w, a, s, o);
        case ReleasingInventory => ReleaseWorkGoesOn(w, a, s, o);
        case ProcessingPayment =>
          var k :| PaysFor(w, k, o);
          PayWorkGoesOn(w, a, s, o, k);
      }
    }
  }

  lemma {:induction false} PromiseHolds(w: World, acts: seq<Act>, v: World, s: SagaId, o: OrderId, step: SagaStep)
    requires Inv(w) && FaultlessPath(w, acts, v) && Promised(w, s, o, step)
    requires s in w.st.orderDb.sagas && w.st.orderDb.sagas[s].order == o
    ensures Promised(v, s, o, step)
    decreases |acts|
  {
    hide Inv, Enabled, Apply, Promised, OrdersGrow, FactsGrow, StockGrows, Past, Late;
    if acts != [] {
      var u := Apply(w, acts[0]);
      assert acts[0] in acts;
      StepKeeps(w, acts[0]);
      PromiseStays(w, acts[0], s, o, step);
      assert SagaGrows(w.st, u.st, s);
      PromiseHolds(u, acts[1..], v, s, o, step);
    }
  }

  // ----- a handler takes the command up -----

  /** The step takes up a command for this step of the saga; a payment command under an id not yet marked. */
  ghost predicate TakesUp(w: World, a: Act, s: SagaId, step: SagaStep) {
    Enabled(w, a) &&
    match a
    case ReserveStart(id) => step == ReservingInventory && w.sent[id].saga == s
    case ReleaseStart(id) => step == ReleasingInventory && w.sent[id].saga == s
    case PayStart(_, id) => step == ProcessingPayment && w.sent[id].saga == s && id !in w.st.pay.processed
    case _ => false
  }

  lemma TakenUp(w: World, a: Act, s: SagaId, o: OrderId, step: SagaStep)
    requires TakesUp(w, a, s, step) && w.sent[a.id].order == o
    ensures Promised(Apply(w, a), s, o, step)
  {
    var v, cmd := Apply(w, a), w.sent[a.id];
    match a {
      case ReserveStart(id) =>
        if o in Logged(w.st.inv.logs, Reserve) {
          assert InCirculation(v, InventoryReserved(cmd.saga, o, cmd.product, cmd.quantity, true));
        }
      case ReleaseStart(id) =>
        if o in Logged(w.st.inv.logs, Release) {
          assert InCirculation(v, InventoryReleased(cmd.saga, o, cmd.product, cmd.quantity, true));
        }
      case PayStart(k, id) => assert PaysFor(v, k, o);
    }
  }

  /** The saga's handlers have finished, its answers are published, and its events are delivered: to deliver
      one of them again would change nothing. */
  ghost predicate AllHeard(v: World, s: SagaId, o: OrderId) {
    && o !in v.reserving && o !in v.releasing && (forall k :: k in v.paying ==> v.paying[k].cmd.order != o)
    && (forall ev: Message :: ev.IsEvent() && ev.saga == s ==> Publish(ev) !in v.owed)
    && (forall id :: id in v.sent && v.sent[id].IsEvent() && v.sent[id].saga == s ==>
         DoHandleEvent(v, id, v.sent[id]) == v)
  }

  /** A promised answer that has been heard has moved the saga. */
  lemma HeardMeansMoved(v: World, s: SagaId, o: OrderId, step: SagaStep)
    requires Inv(v) && Promised(v, s, o, step) && AllHeard(v, s, o)
    ensures s in v.st.orderDb.sagas && Rank(v.st.orderDb.sagas[s].step) < Rank(step)
  {
    hide Inv, DoHandleEvent;
    var ev: Message :| InCirculation(v, ev) && ev.IsEvent() && ev.saga == s && ev.Answers() == step;
    var id :| id in v.sent && v.sent[id] == ev;
    EffectOfEvent(v, id);
  }

  /** Somewhere in the round, before which anything may happen, a handler takes up the command for the step
      that the saga was in at the start. */
  ghost predicate Served(w: World, acts: seq<Act>, v: World, s: SagaId)
    requires s in w.st.orderDb.sagas
  {
    exists before, u, a, after ::
      && Path(w, before, u) && TakesUp(u, a, s, w.st.orderDb.sagas[s].step)
      && FaultlessPath(Apply(u, a), after, v) && acts == before + [a] + after
  }

  ghost predicate FairRound(w: World, acts: seq<Act>, v: World) {
    forall s :: s in Open(w) ==> Served(w, acts, v, s) && AllHeard(v, s, w.st.orderDb.sagas[s].order)
  }

  lemma ServedMeansMoved(w: World, before: seq<Act>, u: World, a: Act, after: seq<Act>, v: World, s: SagaId)
    requires Inv(w) && s in w.st.orderDb.sagas && Path(w, before, u)
    requires TakesUp(u, a, s, w.st.orderDb.sagas[s].step) && FaultlessPath(Apply(u, a), after, v)
    requires AllHeard(v, s, w.st.orderDb.sagas[s].order)
    ensures s in v.st.orderDb.sagas && Rank(v.st.orderDb.sagas[s].step) < Rank(w.st.orderDb.sagas[s].step)
  {
    hide Inv, Path, Apply, Promised, AllHeard, OrdersGrow, FactsGrow, StockGrows, Past, Late, Rank, FaultlessPath;
    var saga := w.st.orderDb.sagas[s];
    PathKeeps(w, before, u);
    assert SagaGrows(w.st, u.st, s);
    StepKeeps(u, a);
    CommandIsMine(u, a, s, saga.step);
    TakenUp(u, a, s, saga.order, saga.step);
    assert SagaGrows(u.st, Apply(u, a).st, s);
    PromiseHolds(Apply(u, a), after, v, s, saga.order, saga.step);
    PathKeeps(Apply(u, a), after, v) by { FaultlessIsPath(Apply(u, a), after, v); }
    HeardMeansMoved(v, s, saga.order, saga.step);
  }

  lemma FaultlessIsPath(w: World, acts: seq<Act>, v: World)
    requires FaultlessPath(w, acts, v)
    ensures Path(w, acts, v)
  {}

  lemma CommandIsMine(w: World, a: Act, s: SagaId, step: SagaStep)
    requires Inv(w) && TakesUp(w, a, s, step) && s in w.st.orderDb.sagas
    ensures a.id in w.sent && w.sent[a.id].order == w.st.orderDb.sagas[s].order
  {
    hide Inv;
    CirculatingOk(w, w.sent[a.id]);
  }

  /** One fair round, whatever else happens in it, lowers the rank of every saga that was open. */
  lemma FairRoundMovesEverySaga(w: World, acts: seq<Act>, v: World)
    requires Reachable(w) && FairRound(w, acts, v)
    ensures forall s :: s in Open(w) ==> Lowered(w, v, s)
  {
    hide Inv, Reachable, Path, Enabled, Apply, AllHeard, FaultlessPath, Rank;
    ReachableOk(w);
    forall s | s in Open(w) ensures Lowered(w, v, s) {
      var before, u, a, after :|
        && Path(w, before, u) && TakesUp(u, a, s, w.st.orderDb.sagas[s].step)
        && FaultlessPath(Apply(u, a), after, v) && acts == before + [a] + after;
      ServedMeansMoved(w, before, u, a, after, v, s);
    }
  }

  /** Three fair rounds one after the other end every saga that existed at the start. */
  lemma ThreeFairRoundsSettle(w: World, xs: seq<Act>, t: World, ys: seq<Act>, u: World, zs: seq<Act>, v: World)
    requires Reachable(w) && Path(w, xs, t) && Path(t, ys, u) && Path(u, zs, v)
    requires FairRound(w, xs, t) && FairRound(t, ys, u) && FairRound(u, zs, v)
    ensures forall s :: s in w.st.orderDb.sagas ==> s in v.st.orderDb.sagas && v.st.orderDb.sagas[s].step == Done
  {
    hide Inv, Reachable, Path, FairRound, OrdersGrow, FactsGrow, StockGrows, Past, Late;
    ReachableFrom(w, xs, t);
    ReachableFrom(t, ys, u);
    FairRoundMovesEverySaga(w, xs, t);
    FairRoundMovesEverySaga(t, ys, u);
    FairRoundMovesEverySaga(u, zs, v);
    ReachableOk(w);
    PathKeeps(w, xs, t);
    PathKeeps(t, ys, u);
    PathKeeps(u, zs, v);
    forall s | s in w.st.orderDb.sagas ensures s in v.st.orderDb.sagas && v.st.orderDb.sagas[s].step == Done {
      assert SagaGrows(w.st, t.st, s);
      assert SagaGrows(t.st, u.st, s);
      assert SagaGrows(u.st, v.st, s);
      if s in Open(w) { assert Lowered(w, t, s); }
      if s in Open(t) { assert Lowered(t, u, s); }
      if s in Open(u) { assert Lowered(u, v, s); }
    }
  }
}
