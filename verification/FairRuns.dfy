/**
 * Fair rounds exist from every reachable world in which reservations can be decided, with any choice of payment
 * outcomes. All handlers in flight finish, recovery lists and sends each open saga's command, a handler takes it up
 * and answers, and then all answers are published and delivered.
 */
module FairRuns {
  import opened Types
  import opened InventoryStore
  import opened PaymentStore
  import opened Protocol
  import opened Invariant
  import opened Preservation
  import opened Runs
  import opened Safety
  import opened Progress
  import opened FairRounds
  import opened LateReturn

  /** Payment rows stay, and each new one turns out as chosen for its saga. */
  ghost predicate PaidAs(w: World, v: World, pays: SagaId -> bool) {
    && v.st.orderDb.sagas.Keys == w.st.orderDb.sagas.Keys
    && (forall s :: s in w.st.orderDb.sagas ==> v.st.orderDb.sagas[s].order == w.st.orderDb.sagas[s].order)
    && (forall o :: o in w.st.pay.payments ==> o in v.st.pay.payments && v.st.pay.payments[o] == w.st.pay.payments[o])
    && (forall s :: s in v.st.orderDb.sagas ==> NewRowPaidAs(w, v, s, pays))
  }

  ghost predicate NewRowPaidAs(w: World, v: World, s: SagaId, pays: SagaId -> bool)
    requires s in v.st.orderDb.sagas
  {
    var o := v.st.orderDb.sagas[s].order;
    o !in w.st.pay.payments && o in v.st.pay.payments ==> (Charged(v.st, o) <==> pays(s))
  }

  lemma PaidAsJoin(w: World, u: World, v: World, pays: SagaId -> bool)
    requires PaidAs(w, u, pays) && PaidAs(u, v, pays)
    ensures PaidAs(w, v, pays)
  {
    forall s | s in v.st.orderDb.sagas ensures NewRowPaidAs(w, v, s, pays) {
      assert NewRowPaidAs(w, u, s, pays) && NewRowPaidAs(u, v, s, pays);
    }
  }

  /** A fault-free run that leaves the orders database and the products as they were. */
  ghost predicate Meanwhile(w: World, acts: seq<Act>, v: World, pays: SagaId -> bool) {
    && FaultFreePath(w, acts, v) && Inv(v) && Decidable(v) && v.st.orderDb == w.st.orderDb
    && PaidAs(w, v, pays)
  }

  lemma MeanwhileJoin(w: World, xs: seq<Act>, u: World, ys: seq<Act>, v: World, pays: SagaId -> bool)
    requires Meanwhile(w, xs, u, pays) && Meanwhile(u, ys, v, pays)
    ensures Meanwhile(w, xs + ys, v, pays)
  {
    hide Inv, Decidable, FaultFreePath, PaidAs;
    Join(w, xs, u, ys, v);
    PaidAsJoin(w, u, v, pays);
  }

  lemma MeanwhileStep(w: World, a: Act, pays: SagaId -> bool)
    requires Inv(w) && Decidable(w) && Enabled(w, a) && FaultFree(a)
    requires Apply(w, a).st.orderDb == w.st.orderDb && w.st.inv.rows.Keys <= Apply(w, a).st.inv.rows.Keys
    requires PaidAs(w, Apply(w, a), pays)
    ensures Meanwhile(w, [a], Apply(w, a), pays)
  {
    hide Inv, Enabled, Apply, PaidAs, Grows;
    Stay(w);
    Extend(w, [], w, a);
    assert [] + [a] == [a];
    StepKeeps(w, a);
  }

  lemma NothingPaid(w: World, v: World, pays: SagaId -> bool)
    requires v.st.pay == w.st.pay && v.st.orderDb == w.st.orderDb
    ensures PaidAs(w, v, pays)
  {}

  // ----- handlers in flight finish -----

  lemma FinishReservation(w: World, o: OrderId, pays: SagaId -> bool) returns (acts: seq<Act>, v: World)
    requires Inv(w) && Decidable(w) && o in w.reserving
    ensures Meanwhile(w, acts, v, pays) && Cleared(w, v, o)
  {
    hide Inv, FaultFreePath, Cleared, Decidable, PaidAs;
    ReserveJobFacts(w, o);
    ProductOf(w, o);
    var ev;
    acts, v, ev := FinishReserve(w, o);
    StaysDecidable(w, v);
    NothingPaid(w, v, pays);
  }

  lemma FinishGivingBack(w: World, o: OrderId, pays: SagaId -> bool) returns (acts: seq<Act>, v: World)
    requires Inv(w) && Decidable(w) && o in w.releasing
    ensures Meanwhile(w, acts, v, pays)
    ensures v.reserving == w.reserving && v.releasing == w.releasing - {o} && v.paying == w.paying
    ensures v.listed == w.listed
  {
    hide Inv, Meanwhile, Decidable, Logged, PaidAs;
    ReleasingFacts(w, o);
    acts, v := [ReleaseWrite(o)], Apply(w, ReleaseWrite(o));
    NothingPaid(w, v, pays);
    MeanwhileStep(w, ReleaseWrite(o), pays);
  }

  lemma FinishPaying(w: World, k: nat, pays: SagaId -> bool) returns (acts: seq<Act>, v: World)
    requires Inv(w) && Decidable(w) && k in w.paying
    ensures Meanwhile(w, acts, v, pays)
    ensures v.reserving == w.reserving && v.releasing == w.releasing && v.paying == w.paying - {k}
    ensures v.listed == w.listed
  {
    hide Inv, Meanwhile, Decidable, Apply, PaidAs;
    PayJobIs(w, k);
    var ok := pays(w.paying[k].cmd.saga);
    if w.paying[k].phase.Unread? {
      var u := Apply(w, PayRead(k));
      PayReadEffect(w, k);
      NothingPaid(w, u, pays);
      MeanwhileStep(w, PayRead(k), pays);
      acts, v := [PayRead(k)], u;
      if w.paying[k].cmd.order !in w.st.pay.payments {
        MeanwhileIs(w, acts, u, pays);
        PayWriteEffect(u, k, ok);
        PayWritePaid(u, k, pays);
        MeanwhileStep(u, PayWrite(k, 0, ok), pays);
        v := Apply(u, PayWrite(k, 0, ok));
        MeanwhileJoin(w, [PayRead(k)], u, [PayWrite(k, 0, ok)], v, pays);
        acts := [PayRead(k)] + [PayWrite(k, 0, ok)];
      }
    } else {
      PayWriteEffect(w, k, ok);
      PayWritePaid(w, k, pays);
      MeanwhileStep(w, PayWrite(k, 0, ok), pays);
      acts, v := [PayWrite(k, 0, ok)], Apply(w, PayWrite(k, 0, ok));
    }
  }

  /** A new row belongs to the saga of the command, which is the only one of its order. */
  lemma PayWritePaid(w: World, k: nat, pays: SagaId -> bool)
    requires Inv(w) && k in w.paying && w.paying[k].cmd.ProcessPayment? && w.paying[k].phase.NoRow?
    requires Enabled(w, PayWrite(k, 0, pays(w.paying[k].cmd.saga)))
    ensures PaidAs(w, Apply(w, PayWrite(k, 0, pays(w.paying[k].cmd.saga))), pays)
  {
    hide Inv, Apply, Enabled;
    var v, o := Apply(w, PayWrite(k, 0, pays(w.paying[k].cmd.saga))), w.paying[k].cmd.order;
    PayWriteRows(w, k, pays(w.paying[k].cmd.saga));
    forall s | s in v.st.orderDb.sagas ensures NewRowPaidAs(w, v, s, pays) {
      if v.st.orderDb.sagas[s].order == o { PayJobIsMine(w, k, s, o); }
    }
  }

  lemma PayWriteRows(w: World, k: nat, ok: bool)
    requires k in w.paying && w.paying[k].cmd.ProcessPayment? && Enabled(w, PayWrite(k, 0, ok))
    ensures var v, o := Apply(w, PayWrite(k, 0, ok)), w.paying[k].cmd.order;
      && v.st.orderDb == w.st.orderDb
      && (v.st.pay.payments == w.st.pay.payments
          || (o !in w.st.pay.payments && o in v.st.pay.payments && (Charged(v.st, o) <==> ok)
              && v.st.pay.payments == w.st.pay.payments[o := v.st.pay.payments[o]]))
  {
    hide PaymentAnswer, CanCreate;
    var job := w.paying[k];
    var row := Payment(job.cmd.amount, if ok then PaymentSuccess else PaymentFailed, 0);
    RowAdded(w.st.pay, job.cmd.order, row, job.id);
  }

  lemma RowAdded(db: PaymentDb, o: OrderId, row: Payment, id: MsgId)
    ensures var rows := CreateIn(db, o, row, id).payments;
      rows == db.payments || (o !in db.payments && o in rows && rows[o] == row && rows == db.payments[o := row])
  {}

  lemma PayJobIs(w: World, k: nat)
    requires Inv(w) && k in w.paying
    ensures w.paying[k].cmd.ProcessPayment?
  {
    hide Inv;
    PayJobFacts(w, k);
  }

  lemma PayReadEffect(w: World, k: nat)
    requires k in w.paying && w.paying[k].cmd.ProcessPayment? && w.paying[k].phase.Unread?
    ensures Enabled(w, PayRead(k))
    ensures var v := Apply(w, PayRead(k));
      && v.st == w.st && v.listed == w.listed && v.reserving == w.reserving && v.releasing == w.releasing
      && if w.paying[k].cmd.order in w.st.pay.payments then v.paying == w.paying - {k}
         else v.paying == w.paying[k := w.paying[k].(phase := NoRow)]
  {}

  lemma PayWriteEffect(w: World, k: nat, ok: bool)
    requires k in w.paying && w.paying[k].cmd.ProcessPayment? && w.paying[k].phase.NoRow?
    ensures Enabled(w, PayWrite(k, 0, ok))
    ensures var v := Apply(w, PayWrite(k, 0, ok));
      && v.st.orderDb == w.st.orderDb && v.st.inv == w.st.inv && v.listed == w.listed
      && v.reserving == w.reserving && v.releasing == w.releasing && v.paying == w.paying - {k}
  {
    hide CanCreate, CreateIn, PaymentAnswer;
  }

  function HandlerCount(w: World): nat {
    |w.reserving| + |w.releasing| + |w.paying|
  }

  lemma Fewer<K, V>(m: map<K, V>, k: K)
    requires k in m
    ensures |m - {k}| < |m|
  {
    assert m.Keys == (m - {k}).Keys + {k};
  }

  lemma FinishOne(w: World, pays: SagaId -> bool) returns (acts: seq<Act>, v: World)
    requires Inv(w) && Decidable(w) && !Idle(w)
    ensures Meanwhile(w, acts, v, pays) && HandlerCount(v) < HandlerCount(w)
  {
    hide Inv, Decidable, Meanwhile;
    if o :| o in w.reserving {
      acts, v := FinishReservation(w, o, pays);
      Fewer(w.reserving, o);
    } else if o :| o in w.releasing {
      acts, v := FinishGivingBack(w, o, pays);
      Fewer(w.releasing, o);
    } else {
      var k :| k in w.paying;
      acts, v := FinishPaying(w, k, pays);
      Fewer(w.paying, k);
    }
  }

  lemma {:induction false} FinishAll(w: World, pays: SagaId -> bool) returns (acts: seq<Act>, v: World)
    requires Inv(w) && Decidable(w)
    ensures Meanwhile(w, acts, v, pays) && Idle(v)
    decreases HandlerCount(w)
  {
    hide Inv, Decidable, FaultFreePath, HandlerCount, Idle, PaidAs;
    if Idle(w) {
      NothingPaid(w, w, pays);
      Stay(w);
      acts, v := [], w;
    } else {
      var xs, u := FinishOne(w, pays);
      var ys;
      ys, v := FinishAll(u, pays);
      MeanwhileJoin(w, xs, u, ys, v, pays);
      acts := xs + ys;
    }
  }

  // ----- each open saga's command is taken up -----

  /** A handler takes up the command just sent, and answers. */
  lemma TakeUpReserve(w: World, m: MsgId, s: SagaId, pays: SagaId -> bool) returns (after: seq<Act>, v: World)
    requires Inv(w) && Decidable(w) && Idle(w) && m in w.sent && w.sent[m].ReserveInventory? && w.sent[m].saga == s
    ensures TakesUp(w, ReserveStart(m), s, ReservingInventory)
    ensures Meanwhile(Apply(w, ReserveStart(m)), after, v, pays) && Idle(v) &&
      Apply(w, ReserveStart(m)).st.orderDb == w.st.orderDb
    ensures Apply(w, ReserveStart(m)).st.pay == w.st.pay
    ensures Apply(w, ReserveStart(m)).listed == w.listed && v.listed == w.listed
  {
    hide Inv, FaultFreePath, Decidable, Logged, PaidAs, Grows;
    var a := ReserveStart(m);
    var u, o := Apply(w, a), w.sent[m].order;
    StepKeeps(w, a);
    StaysDecidable(w, u);
    if o in Logged(w.st.inv.logs, Reserve) {
      NothingPaid(u, u, pays);
      Stay(u);
      after, v := [], u;
      assert v.reserving == map[];
    } else {
      ReserveJobFacts(u, o);
      var ev;
      ProductOf(u, o);
      after, v, ev := FinishReserve(u, o);
      StaysDecidable(u, v);
      NothingPaid(u, v, pays);
    }
  }

  lemma StaysDecidable(w: World, v: World)
    requires Decidable(w) && v.st.orderDb == w.st.orderDb && v.budget == w.budget
    requires w.st.inv.rows.Keys <= v.st.inv.rows.Keys
    ensures Decidable(v)
  {}

  lemma ProductOf(w: World, o: OrderId)
    requires Decidable(w) && o in Owners(w.st.orderDb)
    ensures ProductKnown(w, o) || w.budget <= 0
  {}

  lemma TakeUpRelease(w: World, m: MsgId, s: SagaId, pays: SagaId -> bool) returns (after: seq<Act>, v: World)
    requires Inv(w) && Decidable(w) && Idle(w) && m in w.sent && w.sent[m].ReleaseInventory? && w.sent[m].saga == s
    ensures TakesUp(w, ReleaseStart(m), s, ReleasingInventory)
    ensures Meanwhile(Apply(w, ReleaseStart(m)), after, v, pays) && Idle(v) &&
      Apply(w, ReleaseStart(m)).st.orderDb == w.st.orderDb
    ensures Apply(w, ReleaseStart(m)).st.pay == w.st.pay
    ensures Apply(w, ReleaseStart(m)).listed == w.listed && v.listed == w.listed
  {
    hide Inv, FaultFreePath, Decidable, Logged, PaidAs, Grows;
    var a := ReleaseStart(m);
    var u, o := Apply(w, a), w.sent[m].order;
    StepKeeps(w, a);
    StaysDecidable(w, u);
    if o in Logged(w.st.inv.logs, Release) {
      NothingPaid(u, u, pays);
      Stay(u);
      after, v := [], u;
      assert v.releasing == map[];
    } else {
      after, v := FinishGivingBack(u, o, pays);
      assert v.releasing == map[];
    }
  }

  lemma TakeUpPayment(w: World, m: MsgId, s: SagaId, pays: SagaId -> bool) returns (after: seq<Act>, v: World)
    requires Inv(w) && Decidable(w) && Idle(w) && m in w.sent && w.sent[m].ProcessPayment? && w.sent[m].saga == s
    requires m !in w.st.pay.processed
    ensures TakesUp(w, PayStart(0, m), s, ProcessingPayment)
    ensures Meanwhile(Apply(w, PayStart(0, m)), after, v, pays) && Idle(v) &&
      Apply(w, PayStart(0, m)).st.orderDb == w.st.orderDb
    ensures Apply(w, PayStart(0, m)).st.pay == w.st.pay
    ensures Apply(w, PayStart(0, m)).listed == w.listed && v.listed == w.listed
  {
    hide Inv, FaultFreePath, Decidable, PaidAs, Grows;
    var a := PayStart(0, m);
    var u := Apply(w, a);
    StepKeeps(w, a);
    StaysDecidable(w, u);
    after, v := FinishPaying(u, 0, pays);
    assert v.paying == map[];
  }

  lemma TakeUp(w: World, m: MsgId, s: SagaId, pays: SagaId -> bool) returns (a: Act, after: seq<Act>, v: World)
    requires Inv(w) && Decidable(w) && Idle(w) && s in w.st.orderDb.sagas && w.st.orderDb.sagas[s].step != Done
    requires var saga := w.st.orderDb.sagas[s];
      && saga.order in w.st.orderDb.orders && m in w.sent && m !in w.st.pay.processed
      && w.sent[m] == CommandFor(s, saga.order, w.st.orderDb.orders[saga.order], saga.step)
    ensures TakesUp(w, a, s, w.st.orderDb.sagas[s].step) && FaultFree(a)
    ensures Meanwhile(Apply(w, a), after, v, pays) && Idle(v) && Apply(w, a).st.orderDb == w.st.orderDb
    ensures Apply(w, a).st.pay == w.st.pay
    ensures v.listed == w.listed
  {
    hide Inv, Decidable, Meanwhile, Apply, Idle, Enabled;
    match w.st.orderDb.sagas[s].step {
      case ReservingInventory =>
        a := ReserveStart(m);
        after, v := TakeUpReserve(w, m, s, pays);
      case ProcessingPayment =>
        a := PayStart(0, m);
        after, v := TakeUpPayment(w, m, s, pays);
      case ReleasingInventory =>
        a := ReleaseStart(m);
        after, v := TakeUpRelease(w, m, s, pays);
    }
  }

  /** Recovery sends the listed saga's command, and a handler takes it up and answers. */
  lemma ServeUp(w: World, s: SagaId, pays: SagaId -> bool) returns (acts: seq<Act>, v: World)
    requires Inv(w) && Decidable(w) && Idle(w) && Listed(w, s)
    ensures Meanwhile(w, acts, v, pays) && Idle(v)
    ensures v.listed == w.listed - multiset{Snapshot(s, w.st.orderDb.sagas[s])}
    ensures Served(w, acts, v, s)
  {
    hide Inv, Decidable, Path, FaultFreePath, FaultlessPath, RecoveryCommand, TakesUp, Apply, Meanwhile, Enabled,
      PaidAs;
    var saga := w.st.orderDb.sagas[s];
    var item := Snapshot(s, saga);
    ListedFacts(w, item);
    ListedIsCommandFor(w.st, item);
    var cmd := CommandFor(s, saga.order, w.st.orderDb.orders[saga.order], saga.step);
    var xs, u, m := Resend(w, item, cmd);
    StaysDecidable(w, u);
    var a, after;
    a, after, v := TakeUp(u, m, s, pays);
    acts := xs + [a] + after;
    NothingPaid(w, u, pays);
    IsMeanwhile(w, xs, u, pays);
    TakenIsEnabled(u, a, s, saga.step);
    StepIsMeanwhile(u, a, after, v, pays);
    MeanwhileJoin(u, [a], Apply(u, a), after, v, pays);
    MeanwhileJoin(w, xs, u, [a] + after, v, pays);
    assert xs + [a] + after == xs + ([a] + after);
    MeanwhileIs(w, xs, u, pays);
    MeanwhileIs(Apply(u, a), after, v, pays);
  }

  lemma IsMeanwhile(w: World, acts: seq<Act>, v: World, pays: SagaId -> bool)
    requires FaultFreePath(w, acts, v) && Inv(v) && Decidable(v) && v.st.orderDb == w.st.orderDb && PaidAs(w, v, pays)
    ensures Meanwhile(w, acts, v, pays)
  {}

  lemma TakenIsEnabled(w: World, a: Act, s: SagaId, step: SagaStep)
    requires TakesUp(w, a, s, step)
    ensures Enabled(w, a)
  {}

  lemma StepIsMeanwhile(w: World, a: Act, after: seq<Act>, v: World, pays: SagaId -> bool)
    requires Inv(w) && Decidable(w) && Enabled(w, a) && FaultFree(a)
    requires Apply(w, a).st.orderDb == w.st.orderDb && Apply(w, a).st.pay == w.st.pay
    requires Meanwhile(Apply(w, a), after, v, pays)
    ensures Meanwhile(w, [a], Apply(w, a), pays)
  {
    hide Inv, Enabled, Apply, Path, SagasGrow, FactsGrow, OrdersGrow, PaidAs;
    StepKeeps(w, a);
    NothingPaid(w, Apply(w, a), pays);
    MeanwhileStep(w, a, pays);
  }

  lemma ServedOn(w: World, xs: seq<Act>, u: World, ys: seq<Act>, v: World, s: SagaId)
    requires s in w.st.orderDb.sagas && Served(w, xs, u, s) && FaultlessPath(u, ys, v)
    ensures Served(w, xs + ys, v, s)
  {
    hide Path, Apply, Enabled;
    var before, t, a, after :|
      && Path(w, before, t) && TakesUp(t, a, s, w.st.orderDb.sagas[s].step)
      && FaultlessPath(Apply(t, a), after, u) && xs == before + [a] + after;
    PathConcat(Apply(t, a), after, u, ys, v);
    assert FaultlessPath(Apply(t, a), after + ys, v);
    assert xs + ys == before + [a] + (after + ys);
  }

  lemma ServedLater(w: World, xs: seq<Act>, u: World, ys: seq<Act>, v: World, s: SagaId)
    requires s in w.st.orderDb.sagas && u.st.orderDb == w.st.orderDb && Path(w, xs, u) && Served(u, ys, v, s)
    ensures Served(w, xs + ys, v, s)
  {
    hide Path, Apply, Enabled, FaultlessPath;
    var before, t, a, after :|
      && Path(u, before, t) && TakesUp(t, a, s, u.st.orderDb.sagas[s].step)
      && FaultlessPath(Apply(t, a), after, v) && ys == before + [a] + after;
    PathConcat(w, xs, u, before, t);
    assert xs + ys == (xs + before) + [a] + after;
  }

  lemma {:induction false} ServeAllUp(w: World, todo: set<SagaId>, pays: SagaId -> bool)
    returns (acts: seq<Act>, v: World)
    requires Inv(w) && Decidable(w) && Idle(w) && todo <= w.st.orderDb.sagas.Keys
    requires forall s :: s in todo ==> Listed(w, s)
    ensures Meanwhile(w, acts, v, pays) && Idle(v)
    ensures forall s :: s in todo ==> Served(w, acts, v, s)
    decreases |todo|
  {
    hide Inv, Decidable, FaultFreePath, Listed, Served, Path, Idle, PaidAs;
    if todo == {} {
      NothingPaid(w, w, pays);
      Stay(w);
      acts, v := [], w;
    } else {
      var s :| s in todo;
      assert Listed(w, s);
      IsListed(w, s);
      var xs, u := ServeUp(w, s, pays);
      forall t | t in todo - {s} ensures Listed(u, t) {
        assert Listed(w, t);
        IsListed(w, t);
        StillListed(w, u, s, t);
      }
      var ys;
      ys, v := ServeAllUp(u, todo - {s}, pays);
      MeanwhileJoin(w, xs, u, ys, v, pays);
      acts := xs + ys;
      MeanwhileIs(w, xs, u, pays);
      MeanwhileIs(u, ys, v, pays);
      forall t | t in todo ensures Served(w, acts, v, t) {
        if t == s { ServedOn(w, xs, u, ys, v, t); } else { ServedLater(w, xs, u, ys, v, t); }
      }
    }
  }

  lemma IsListed(w: World, s: SagaId)
    requires Listed(w, s)
    ensures s in w.st.orderDb.sagas
  {}

  // ----- answers are published and delivered -----

  ghost predicate NoAnswerOwed(w: World) {
    forall ev: Message :: ev.IsEvent() ==> Publish(ev) !in w.owed
  }

  lemma SendEffect(w: World, m: Message, id: MsgId)
    requires Publish(m) in w.owed && id !in w.sent
    ensures Enabled(w, Send(m, id))
    ensures var v := Apply(w, Send(m, id));
      v.st == w.st && (Idle(w) ==> Idle(v)) && |v.owed| < |w.owed|
  {}

  lemma {:induction false} PublishAll(w: World, pays: SagaId -> bool) returns (acts: seq<Act>, v: World)
    requires Inv(w) && Decidable(w) && Idle(w)
    ensures Meanwhile(w, acts, v, pays) && Idle(v) && NoAnswerOwed(v)
    decreases |w.owed|
  {
    hide Inv, Decidable, FaultFreePath, Apply, Enabled, Idle, PaidAs;
    if NoAnswerOwed(w) {
      NothingPaid(w, w, pays);
      Stay(w);
      acts, v := [], w;
    } else {
      var ev: Message :| ev.IsEvent() && Publish(ev) in w.owed;
      var id := FreshId(w.sent.Keys);
      SendEffect(w, ev, id);
      var a := Send(ev, id);
      NothingPaid(w, Apply(w, a), pays);
      MeanwhileStep(w, a, pays);
      var ys;
      ys, v := PublishAll(Apply(w, a), pays);
      MeanwhileJoin(w, [a], Apply(w, a), ys, v, pays);
      acts := [a] + ys;
    }
  }

  /** The saga is past the step that the event answers, so a delivery changes nothing. */
  ghost predicate Heard(w: World, id: MsgId) {
    && id in w.sent && w.sent[id].IsEvent() && w.sent[id].saga in w.st.orderDb.sagas
    && Rank(w.st.orderDb.sagas[w.sent[id].saga].step) < Rank(w.sent[id].Answers())
  }

  lemma HeardChangesNothing(w: World, id: MsgId)
    requires Heard(w, id)
    ensures DoHandleEvent(w, id, w.sent[id]) == w
  {}

  /** Delivering an event is enough for it to be heard, then and in every later world. */
  lemma DeliveredIsHeard(w: World, id: MsgId, after: seq<Act>, v: World)
    requires Reachable(w) && Enabled(w, HandleEvent(id)) && Path(Apply(w, HandleEvent(id)), after, v)
    ensures id in v.sent && v.sent[id] == w.sent[id] && DoHandleEvent(v, id, v.sent[id]) == v
  {
    hide Inv, Reachable, Path, DoHandleEvent, Heard;
    ReachableOk(w);
    DeliverEffect(w, id);
    StepKeeps(w, HandleEvent(id));
    PathKeeps(Apply(w, HandleEvent(id)), after, v);
    StillHeard(Apply(w, HandleEvent(id)), v, id);
    HeardChangesNothing(v, id);
  }

  lemma StillHeard(w: World, v: World, id: MsgId)
    requires Mono(w, v) && Heard(w, id)
    ensures Heard(v, id) && v.sent[id] == w.sent[id]
  {
    hide OrdersGrow, FactsGrow, StockGrows, Past, Late;
    assert SagaGrows(w.st, v.st, w.sent[id].saga);
  }

  lemma DeliverEffect(w: World, id: MsgId)
    requires Inv(w) && Enabled(w, HandleEvent(id))
    ensures var v := Apply(w, HandleEvent(id));
      && Heard(v, id) && v.sent == w.sent && v.st.inv == w.st.inv && (Idle(w) ==> Idle(v))
      && (NoAnswerOwed(w) ==> NoAnswerOwed(v))
      && (Decidable(w) ==> Decidable(v)) && v.st.pay == w.st.pay
      && v.st.orderDb.sagas.Keys == w.st.orderDb.sagas.Keys
      && forall s :: s in w.st.orderDb.sagas ==> v.st.orderDb.sagas[s].order == w.st.orderDb.sagas[s].order
  {
    hide Inv;
    EffectOfEvent(w, id);
  }

  function SentEvents(w: World): set<MsgId> {
    set id | id in w.sent && w.sent[id].IsEvent()
  }

  /** A fault-free run of deliveries. */
  ghost predicate Delivers(w: World, acts: seq<Act>, v: World) {
    && FaultFreePath(w, acts, v) && Inv(v) && Decidable(v) && v.sent == w.sent && Idle(v) && NoAnswerOwed(v)
    && v.st.pay == w.st.pay && v.st.orderDb.sagas.Keys == w.st.orderDb.sagas.Keys
    && forall s :: s in w.st.orderDb.sagas ==> v.st.orderDb.sagas[s].order == w.st.orderDb.sagas[s].order
  }

  lemma {:induction false} DeliverAll(w: World, todo: set<MsgId>) returns (acts: seq<Act>, v: World)
    requires Inv(w) && Decidable(w) && Idle(w) && NoAnswerOwed(w) && todo <= SentEvents(w)
    requires forall id :: id in SentEvents(w) && id !in todo ==> Heard(w, id)
    ensures Delivers(w, acts, v) && forall id :: id in SentEvents(v) ==> Heard(v, id)
    decreases |todo|
  {
    hide Inv, Decidable, FaultFreePath, Apply, Heard, Idle, NoAnswerOwed, Mono;
    if todo == {} {
      Stay(w);
      acts, v := [], w;
    } else {
      var id :| id in todo;
      var a := HandleEvent(id);
      var u := Apply(w, a);
      DeliverEffect(w, id);
      StepKeeps(w, a);
      Stay(w);
      Extend(w, [], w, a);
      forall e | e in SentEvents(u) && e !in todo - {id} ensures Heard(u, e) {
        if e != id { StillHeard(w, u, e); }
      }
      var ys;
      ys, v := DeliverAll(u, todo - {id});
      Join(w, [] + [a], u, ys, v);
      acts := [] + [a] + ys;
    }
  }

  lemma HeardByAll(v: World, s: SagaId, o: OrderId)
    requires Idle(v) && NoAnswerOwed(v) && forall id :: id in SentEvents(v) ==> Heard(v, id)
    ensures AllHeard(v, s, o)
  {
    hide DoHandleEvent, Heard;
    forall id | id in v.sent && v.sent[id].IsEvent() && v.sent[id].saga == s
      ensures DoHandleEvent(v, id, v.sent[id]) == v
    {
      assert id in SentEvents(v);
      HeardChangesNothing(v, id);
    }
  }

  lemma DeliveriesAreFaultless(w: World, acts: seq<Act>, v: World)
    requires Delivers(w, acts, v)
    ensures FaultlessPath(w, acts, v) && FaultFreePath(w, acts, v)
  {
    hide Path, Inv;
  }

  /** From every reachable world in which reservations can be decided, whatever was lost and whatever is in flight,
      there is a fair round without any fault; and for every choice of outcomes there is one in which each payment
      it creates turns out as chosen. */
  lemma FairRoundsExist(w: World, pays: SagaId -> bool) returns (acts: seq<Act>, v: World)
    requires Reachable(w) && Decidable(w)
    ensures FaultFreePath(w, acts, v) && FairRound(w, acts, v)
    ensures Decidable(v) && PaidAs(w, v, pays)
  {
    hide Inv, Reachable, Decidable, Path, FaultFreePath, FaultlessPath, Served, AllHeard, Listed, Idle,
      NoAnswerOwed, Heard, Meanwhile, Delivers, PaidAs;
    ReachableOk(w);
    var xs, t := FinishAll(w, pays);
    MeanwhileIs(w, xs, t, pays);
    var ls, u := ListBoth(t);
    ListingIsMeanwhile(t, ls, u, pays);
    MeanwhileJoin(w, xs, t, ls, u, pays);
    MeanwhileIs(w, xs + ls, u, pays);
    var ys, x := ServeAllUp(u, Open(u), pays);
    MeanwhileIs(u, ys, x, pays);
    var ps, y := PublishAll(x, pays);
    MeanwhileIs(x, ps, y, pays);
    var ds;
    ds, v := DeliverAll(y, SentEvents(y));
    DeliveriesAreFaultless(y, ds, v);
    DeliveriesEnd(y, ds, v, pays);
    MeanwhileJoin(u, ys, x, ps, y, pays);
    MeanwhileIs(u, ys + ps, y, pays);
    MeanwhileJoin(w, xs + ls, u, ys + ps, y, pays);
    MeanwhileIs(w, xs + ls + (ys + ps), y, pays);
    PaidAsJoin(w, y, v, pays);
    Join(w, xs + ls, u, ys + ps, y);
    Join(w, xs + ls + (ys + ps), y, ds, v);
    acts := xs + ls + (ys + ps) + ds;
    forall s | s in Open(w) ensures Served(w, acts, v, s) && AllHeard(v, s, w.st.orderDb.sagas[s].order) {
      ServedOn(u, ys, x, ps, y, s);
      ServedOn(u, ys + ps, y, ds, v, s);
      ServedLater(w, xs + ls, u, ys + ps + ds, v, s);
      assert xs + ls + (ys + ps + ds) == acts;
      HeardByAll(v, s, w.st.orderDb.sagas[s].order);
    }
  }

  lemma MeanwhileIs(w: World, acts: seq<Act>, v: World, pays: SagaId -> bool)
    requires Meanwhile(w, acts, v, pays)
    ensures FaultFreePath(w, acts, v) && FaultlessPath(w, acts, v) && Path(w, acts, v)
    ensures Inv(v) && Decidable(v) && v.st.orderDb == w.st.orderDb && PaidAs(w, v, pays)
  {
    hide Path, Inv;
  }

  lemma ListingIsMeanwhile(w: World, acts: seq<Act>, v: World, pays: SagaId -> bool)
    requires FaultFreePath(w, acts, v) && Inv(v) && v.st == w.st && SameHandlers(w, v) && Decidable(w) && Idle(w)
    requires v.budget == w.budget
    ensures Meanwhile(w, acts, v, pays) && Idle(v)
  {
    hide Inv, FaultFreePath;
  }

  lemma DeliveriesEnd(w: World, acts: seq<Act>, v: World, pays: SagaId -> bool)
    requires Delivers(w, acts, v)
    ensures Idle(v) && NoAnswerOwed(v) && Decidable(v) && PaidAs(w, v, pays)
  {
    hide Inv, FaultFreePath;
  }

  /** Not only vacuously: an order just placed is an open saga. */
  lemma AFairRound() returns (w: World, acts: seq<Act>, v: World)
    ensures Reachable(w) && Open(w) == {0} && FairRound(w, acts, v)
  {
    hide Reachable, FaultFreePath, FairRound;
    w := OneOrder();
    acts, v := FairRoundsExist(w, s => true);
  }
}
