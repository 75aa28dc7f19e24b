/** The saga orchestrator as it runs: event handlers that commit and then publish, and the recovery loop. */
module Orchestrator {
  import opened Types
  import opened OrderStore
  import opened Protocol
  import opened Invariant
  import opened Runs
  import opened Safety
  import opened Claims
  import opened Clusters

  /** The databases of the other services are as they were. */
  ghost predicate OthersSame(w: World, v: World) {
    v.st.inv == w.st.inv && v.st.pay == w.st.pay
  }

  function Due(t: Task): Mine {
    NoClaims.(owed := multiset{t})
  }

  /** Nothing in a run is ever early or misaddressed, so no event is rejected. */
  lemma NeverRejected(w: World, run: seq<Act>, id: MsgId)
    requires Path(Initial(w.budget), run, w) && id in w.sent && w.sent[id].IsEvent()
    ensures !Judge(w.st.orderDb, id, w.sent[id]).Rejected?
  {
    hide Path, Inv, Justified;
    assert Reachable(w);
    ReachableOk(w);
    CirculatingOk(w, w.sent[id]);
    AddressedRows(w.st, w.sent[id]);
  }

  lemma AddressedRows(st: Stores, m: Message)
    requires Justified(st, m)
    ensures m.saga in st.orderDb.sagas && m.order in st.orderDb.orders
  {}

  lemma DeliveryStep(w: World, run: seq<Act>, id: MsgId)
    requires Path(Initial(w.budget), run, w) && id in w.sent && w.sent[id].IsEvent()
    ensures Enabled(w, HandleEvent(id))
    ensures var ev, v := w.sent[id], Apply(w, HandleEvent(id));
      && OthersSame(w, v) && v.st.orderDb == Consume(w.st.orderDb, id, ev) && v.sent == w.sent
      && match Judge(w.st.orderDb, id, ev)
         case Skipped => v == w
         case Rejected(_) => false
         case Applied => (LoadsOrder(ev) ==>
           ev.order in w.st.orderDb.orders) && Held(Due(Followup(w.st.orderDb, ev)), v)
  {
    hide Path, Followup;
    NeverRejected(w, run, id);
  }

  lemma RecordStep(w: World, s: SagaId, status: SagaStatus)
    requires Held(Due(Record(s, status)), w)
    ensures Enabled(w, RecordTerminal(s, status))
    ensures var v := Apply(w, RecordTerminal(s, status)); v.st == w.st && (s, status) in v.recorded
  {}

  lemma DueIsOwing(m: Message, w: World)
    requires Held(Due(Publish(m)), w)
    ensures Held(Owing(NoClaims, m, {}), w)
  {
    assert NoClaims.owed + multiset{Publish(m)} == multiset{Publish(m)};
  }

  /**
   * What handling an event comes to, from world `w` to `v`: a skipped one changes nothing, an effective one is
   * followed by its command or its record, and the only error is a publish that did not go out.
   */
  ghost predicate EventOutcome(w: World, id: MsgId, ok: bool, v: World, net: Network) {
    && id in w.sent && w.sent[id].IsEvent()
    && var ev := w.sent[id];
    match Judge(w.st.orderDb, id, ev)
    case Skipped => ok && v == w
    case Rejected(_) => false
    case Applied =>
      (LoadsOrder(ev) ==> ev.order in w.st.orderDb.orders) &&
      match Followup(w.st.orderDb, ev)
      case Publish(cmd) => (ok <==> GoesOut(net)) && (ok || Reaches(net) ==> SentSince(w.sent.Keys, v, cmd))
      case Record(s, status) => ok && (s, status) in v.recorded
  }

  /** With nobody else about, the commit and what follows from it are the only steps. */
  ghost predicate EventAlone(w: World, id: MsgId, before: seq<Act>, after: seq<Act>, net: Network) {
    && id in w.sent && w.sent[id].IsEvent()
    && var ev, committed := w.sent[id], before + [Act.HandleEvent(id)];
    match Judge(w.st.orderDb, id, ev)
    case Skipped => after == committed
    case Rejected(_) => false
    case Applied =>
      (LoadsOrder(ev) ==> ev.order in w.st.orderDb.orders) &&
      match Followup(w.st.orderDb, ev)
      case Publish(cmd) => PublishedOnce(committed, after, net, cmd)
      case Record(s, status) => after == committed + [Act.RecordTerminal(s, status)]
  }

  class SagaOrchestrator {
    const c: Cluster

    constructor (c: Cluster)
      ensures this.c == c
    {
      this.c := c;
    }

    method RecordTerminal(s: SagaId, status: SagaStatus, meanwhile: seq<Act>)
      requires c.Valid() && Held(Due(Record(s, status)), c.world)
      modifies c.Parts()
      ensures c.Valid() && old(c.run) <= c.run && (s, status) in c.world.recorded
      ensures meanwhile == [] ==> c.run == old(c.run) + [Act.RecordTerminal(s, status)]
    {
      hide Enabled, Apply, Path, Held;
      c.Others(meanwhile, Due(Record(s, status)));
      RecordStep(c.world, s, status);
      c.Did(Act.RecordTerminal(s, status));
    }

    method Command(cmd: Message, meanwhile: seq<Act>, net: Network) returns (ok: bool)
      requires c.Valid() && Held(Due(Publish(cmd)), c.world)
      modifies c.Parts()
      ensures c.Valid() && old(c.run) <= c.run
      ensures ok <==> GoesOut(net)
      ensures ok || Reaches(net) ==> SentSince(old(c.world).sent.Keys, c.world, cmd)
      ensures meanwhile == [] && Alone(net) ==> PublishedOnce(old(c.run), c.run, net, cmd)
    {
      hide Enabled, Apply, Path, Held, GoesOut, Reaches, SentSince, PublishedOnce;
      ghost var known := c.world.sent.Keys;
      c.Others(meanwhile, Due(Publish(cmd)));
      DueIsOwing(cmd, c.world);
      ghost var since := c.world.sent.Keys;
      ok := c.Publish(cmd, net, NoClaims);
      if ok || Reaches(net) { SinceFewer(known, since, c.world, cmd); }
    }

    method OnInventoryReserved(id: MsgId, ev: Message, meanwhile: seq<Act>, net: Network) returns (ok: bool)
      requires c.Valid() && id in c.world.sent && c.world.sent[id] == ev && ev.InventoryReserved?
      modifies c.Parts()
      ensures c.Valid() && old(c.run) + [Act.HandleEvent(id)] <= c.run
      ensures EventOutcome(old(c.world), id, ok, c.world, net)
      ensures meanwhile == [] && Alone(net) ==> EventAlone(old(c.world), id, old(c.run), c.run, net)
    {
      hide Enabled, Apply, Path, Held, GoesOut, Reaches, SentSince, PublishedOnce, Judge, Consume;
      DeliveryStep(c.world, c.run, id);
      var r := c.sagaRepo.CommitInventoryReserved(id, ev);
      c.Did(Act.HandleEvent(id));
      if r.Err? { return false; }
      if r.value.skip { return true; }
      if r.value.failed {
        RecordTerminal(ev.saga, Failed, meanwhile);
        return true;
      }
      ok := Command(ProcessPayment(ev.saga, ev.order, r.value.amount), meanwhile, net);
    }

    method OnPaymentProcessed(id: MsgId, ev: Message, meanwhile: seq<Act>, net: Network) returns (ok: bool)
      requires c.Valid() && id in c.world.sent && c.world.sent[id] == ev && ev.PaymentProcessed?
      modifies c.Parts()
      ensures c.Valid() && old(c.run) + [Act.HandleEvent(id)] <= c.run
      ensures EventOutcome(old(c.world), id, ok, c.world, net)
      ensures meanwhile == [] && Alone(net) ==> EventAlone(old(c.world), id, old(c.run), c.run, net)
    {
      hide Enabled, Apply, Path, Held, GoesOut, Reaches, SentSince, PublishedOnce, Judge, Consume;
      DeliveryStep(c.world, c.run, id);
      var r := c.sagaRepo.CommitPaymentProcessed(id, ev);
      c.Did(Act.HandleEvent(id));
      if r.Err? { return false; }
      if r.value.skip { return true; }
      if !r.value.compensate {
        RecordTerminal(ev.saga, Completed, meanwhile);
        return true;
      }
      ok := Command(ReleaseInventory(ev.saga, ev.order, r.value.product, r.value.quantity), meanwhile, net);
    }

    method OnInventoryReleased(id: MsgId, ev: Message, meanwhile: seq<Act>, net: Network) returns (ok: bool)
      requires c.Valid() && id in c.world.sent && c.world.sent[id] == ev && ev.InventoryReleased?
      modifies c.Parts()
      ensures c.Valid() && old(c.run) + [Act.HandleEvent(id)] <= c.run
      ensures EventOutcome(old(c.world), id, ok, c.world, net)
      ensures meanwhile == [] && Alone(net) ==> EventAlone(old(c.world), id, old(c.run), c.run, net)
    {
      hide Enabled, Apply, Path, Held, GoesOut, Reaches, SentSince, PublishedOnce, Judge, Consume;
      DeliveryStep(c.world, c.run, id);
      var r := c.sagaRepo.CommitInventoryReleased(id, ev);
      c.Did(Act.HandleEvent(id));
      if r.Err? { return false; }
      if r.value.skip { return true; }
      RecordTerminal(ev.saga, if r.value.failed then Failed else Compensated, meanwhile);
      ok := true;
    }

    /** `meanwhile` is what everybody else does between the commit and the publish or record that follows it. */
    method HandleEvent(id: MsgId, meanwhile: seq<Act>, net: Network) returns (ok: bool)
      requires c.Valid() && id in c.world.sent && c.world.sent[id].IsEvent()
      modifies c.Parts()
      ensures c.Valid() && old(c.run) + [Act.HandleEvent(id)] <= c.run
      ensures EventOutcome(old(c.world), id, ok, c.world, net)
      ensures meanwhile == [] && Alone(net) ==> EventAlone(old(c.world), id, old(c.run), c.run, net)
    {
      hide Enabled, Apply, Path, Held, GoesOut, EventOutcome, EventAlone;
      var ev := c.world.sent[id];
      match ev {
        case InventoryReserved(_, _, _, _, _) => ok := OnInventoryReserved(id, ev, meanwhile, net);
        case PaymentProcessed(_, _, _, _) => ok := OnPaymentProcessed(id, ev, meanwhile, net);
        case InventoryReleased(_, _, _, _, _) => ok := OnInventoryReleased(id, ev, meanwhile, net);
      }
    }

    /** The saga id is fresh; the order has no saga yet. */
    method StartSaga(s: SagaId, o: OrderId, order: Order, meanwhile: seq<Act>, net: Network) returns (ok: bool)
      requires c.Valid() && Enabled(c.world, Act.StartSaga(s, o)) && c.sagaRepo.orders[o] == order
      modifies c.Parts()
      ensures c.Valid() && old(c.run) + [Act.StartSaga(s, o)] <= c.run
      ensures ok <==> GoesOut(net)
      ensures ok || Reaches(net) ==>
        SentSince(old(c.world).sent.Keys, c.world, ReserveInventory(s, o, order.product, order.quantity))
      ensures meanwhile == [] && Alone(net) ==>
        PublishedOnce(old(c.run) + [Act.StartSaga(s, o)], c.run, net,
                      ReserveInventory(s, o, order.product, order.quantity))
    {
      hide Enabled, Apply, Path, Held, GoesOut, Reaches, SentSince, PublishedOnce;
      SagaStartStep(c.world, s, o);
      var r := c.sagaRepo.Create(s, Saga(o, ReservingInventory, InProgress, None));
      c.Did(Act.StartSaga(s, o));
      ok := Command(ReserveInventory(s, o, order.product, order.quantity), meanwhile, net);
    }

    // ----- recovery -----

    /** Loads the order of a listed row and publishes the command of the listed step. */
    method Recover(item: Snapshot, left: multiset<Snapshot>, meanwhile: seq<Act>, net: Network) returns (ok: bool)
      requires c.Valid() && Held(Pending(left + multiset{item}), c.world)
      modifies c.Parts()
      ensures c.Valid() && Held(Pending(left), c.world) && old(c.run) <= c.run
      ensures ok <==> GoesOut(net)
      ensures ok || Reaches(net) ==> Resent(old(c.world).sent.Keys, c.world, item)
      ensures meanwhile == [] && Alone(net) ==> |c.run| == |old(c.run)| + 2
    {
      hide Enabled, Apply, Path, Held, GoesOut, Reaches, RecoveryCommand, Resent, SentSince, PublishedOnce, Inv;
      ghost var before, first := c.world, c.run;
      c.Others(meanwhile, Pending(left + multiset{item}));
      RecoverStep(c.world, c.run, item, left);
      var order := c.sagaRepo.GetById(item.saga.order);
      var cmd := RecoveryCommand(item, order.value).value;
      c.Did(RecoverItem(item));
      ghost var at, so := c.world, c.run;
      ok := c.Publish(cmd, net, Pending(left));
      if Alone(net) { OneStep(so, c.run, net, cmd); }
      if ok || Reaches(net) {
        SinceEarlier(c.budget, first, before, so, at, c.world, cmd);
        StillResent(c.budget, so, at, c.run, c.world, before.sent.Keys, item, cmd);
      }
    }

    /** One pass over the rows listed with a status. `nets(s)` is what the publish for saga `s` meets. */
    method RecoverAll(status: SagaStatus, meanwhile: SagaId -> seq<Act>, nets: SagaId -> Network)
      requires c.Valid() && (status == InProgress || status == Compensating)
      modifies c.Parts()
      ensures c.Valid() && old(c.run) + [List(status)] <= c.run
      ensures AllResent(old(c.world).sent.Keys, old(c.sagaRepo.sagas), status, nets, c.world)
      ensures NobodyElse(meanwhile, nets) ==>
        |c.run| == |old(c.run)| + 1 + 2 * |OfStatus(old(c.sagaRepo.sagas), status)|
    {
      hide Enabled, Apply, Path, Held, Reaches, Resent, ResentBut, AllResent, Alone, OfStatus, Inv;
      ghost var before, first, known := c.world, c.run, c.world.sent.Keys;
      var rows := c.sagaRepo.ListByStatus(status);
      ListStep(c.world, status, rows);
      c.Did(List(status));
      var left := rows.Keys;
      AllToResend(known, before.st.orderDb.sagas, status, rows, nets);
      while left != {}
        invariant left <= rows.Keys && c.Valid() && first + [List(status)] <= c.run
        invariant Held(Pending(Items(rows, left)), c.world)
        invariant NobodyElse(meanwhile, nets) ==>
          |c.run| == |first| + 1 + 2 * (|rows| - |left|)
        invariant ResentBut(known, rows, left, nets, c.world)
        decreases |left|
      {
        var s :| s in left;
        ghost var at, so := c.world, c.run;
        TakeItem(rows, left, s);
        var ok := Recover(Snapshot(s, rows[s]), Items(rows, left - {s}), meanwhile(s), nets(s));
        SoFarResent(c.budget, before, first, at, so, c.world, c.run, rows, left, s, nets);
        left := left - {s};
      }
    }

    /** Every saga that is open when the pass starts is sent its command again, unless none of its attempts reaches
        the broker or the saga ends first. `mid` is where the second listing is made, after the steps `so`; what
        happens after it is `meanwhile2` and `nets2`. */
    method RunRecovery(meanwhile: SagaId -> seq<Act>, nets: SagaId -> Network, between: seq<Act>,
                       meanwhile2: SagaId -> seq<Act>, nets2: SagaId -> Network)
      returns (ghost mid: World, ghost so: seq<Act>)
      requires c.Valid()
      modifies c.Parts()
      ensures c.Valid() && Path(Initial(c.budget), so, mid)
      ensures old(c.run) + [List(InProgress)] <= so && so + [List(Compensating)] <= c.run
      ensures AllResent(old(c.world).sent.Keys, old(c.sagaRepo.sagas), InProgress, nets, c.world)
      ensures AllResent(mid.sent.Keys, mid.st.orderDb.sagas, Compensating, nets2, c.world)
      ensures ResentOrDone(old(c.world).sent.Keys, old(c.sagaRepo.sagas), nets, nets2, c.world)
      ensures between == [] && NobodyElse(meanwhile, nets) && NobodyElse(meanwhile2, nets2) ==>
        |c.run| == |old(c.run)| + 2 + 2 * |OfStatus(old(c.sagaRepo.sagas), InProgress)|
                   + 2 * |OfStatus(mid.st.orderDb.sagas, Compensating)|
    {
      hide Path, Held, Reaches, Resent, Inv, ResentOrDone, AllResent, NobodyElse, OfStatus;
      ghost var before, first := c.world, c.run;
      RecoverAll(InProgress, meanwhile, nets);
      ghost var at, after := c.world, c.run;
      NothingHeld(c.world);
      c.Others(between, NoClaims);
      mid, so := c.world, c.run;
      RecoverAll(Compensating, meanwhile2, nets2);
      StillAllResent(c.budget, after, at, c.run, c.world, before.sent.Keys, before.st.orderDb.sagas, InProgress, nets);
      OpenIsResent(before, first, mid, so, c.world, c.run, nets, nets2);
    }
  }

  /** Of the listed rows, those that are not left have had their command sent again. */
  ghost predicate ResentBut(known: set<MsgId>, rows: map<SagaId, Saga>, left: set<SagaId>, nets: SagaId -> Network,
                            w: World)
  {
    forall s :: s in rows && s !in left && Reaches(nets(s)) ==> Resent(known, w, Snapshot(s, rows[s]))
  }

  lemma AllToResend(known: set<MsgId>, sagas: map<SagaId, Saga>, status: SagaStatus, rows: map<SagaId, Saga>,
                    nets: SagaId -> Network)
    requires forall s :: s in rows <==> s in sagas && sagas[s].status == status
    requires forall s :: s in rows ==> rows[s] == sagas[s]
    ensures rows.Keys == OfStatus(sagas, status)
    ensures forall w :: ResentBut(known, rows, rows.Keys, nets, w)
    ensures forall w :: ResentBut(known, rows, {}, nets, w) ==> AllResent(known, sagas, status, nets, w)
  {}

  /** Nobody else is about between the rows of a pass and while their commands are published. */
  ghost predicate NobodyElse(meanwhile: SagaId -> seq<Act>, nets: SagaId -> Network) {
    forall s :: meanwhile(s) == [] && Alone(nets(s))
  }

  lemma OneStep(before: seq<Act>, after: seq<Act>, net: Network, m: Message)
    requires PublishedOnce(before, after, net, m)
    ensures |after| == |before| + 1
  {}

  function OfStatus(sagas: map<SagaId, Saga>, status: SagaStatus): set<SagaId> {
    set s | s in sagas && sagas[s].status == status
  }

  lemma SoFarResent(budget: int, before: World, first: seq<Act>, at: World, so: seq<Act>, w: World, run: seq<Act>,
                    rows: map<SagaId, Saga>, left: set<SagaId>, s: SagaId, nets: SagaId -> Network)
    requires var b := Initial(budget);
      Path(b, first, before) && Path(b, so, at) && Path(b, run, w) && first <= so <= run
    requires left <= rows.Keys && s in left
    requires ResentBut(before.sent.Keys, rows, left, nets, at)
    requires Reaches(nets(s)) ==> Resent(at.sent.Keys, w, Snapshot(s, rows[s]))
    ensures ResentBut(before.sent.Keys, rows, left - {s}, nets, w)
  {
    hide Inv, Path, Reaches, Resent, Grows;
    InitialOk(budget);
    RunOnlyAdds(Initial(budget), first, before, so, at);
    if Reaches(nets(s)) { ResentFewer(before.sent.Keys, at.sent.Keys, w, Snapshot(s, rows[s])); }
    forall t | t in rows && t !in left && Reaches(nets(t)) ensures Resent(before.sent.Keys, w, Snapshot(t, rows[t])) {
      ResentStays(budget, so, at, run, w, before.sent.Keys, Snapshot(t, rows[t]));
    }
  }

  lemma ResentFewer(fewer: set<MsgId>, known: set<MsgId>, w: World, item: Snapshot)
    requires fewer <= known && Resent(known, w, item)
    ensures Resent(fewer, w, item)
  {}

  lemma StillAllResent(budget: int, so: seq<Act>, at: World, run: seq<Act>, w: World, known: set<MsgId>,
                       sagas: map<SagaId, Saga>, status: SagaStatus, nets: SagaId -> Network)
    requires Path(Initial(budget), so, at) && Path(Initial(budget), run, w) && so <= run
    requires AllResent(known, sagas, status, nets, at)
    ensures AllResent(known, sagas, status, nets, w)
  {
    hide Path, Reaches, Resent;
    forall s | s in sagas && sagas[s].status == status && Reaches(nets(s))
      ensures Resent(known, w, Snapshot(s, sagas[s]))
    {
      ResentStays(budget, so, at, run, w, known, Snapshot(s, sagas[s]));
    }
  }

  /** A compensating saga that the second listing no longer finds as it was has ended. */
  lemma OpenThen(before: World, mid: World, w: World, s: SagaId)
    requires Inv(before) && Mono(before, mid) && Mono(mid, w)
    requires s in before.st.orderDb.sagas && before.st.orderDb.sagas[s].step != Done
    ensures var saga := before.st.orderDb.sagas[s];
      || saga.status == InProgress
      || (saga.status == Compensating && s in mid.st.orderDb.sagas && mid.st.orderDb.sagas[s] == saga)
      || (saga.status == Compensating && Finished(w, s))
  {
    hide Inv, OrdersGrow, FactsGrow, StockGrows;
    SagaFacts(before, s);
    assert SagaGrows(before.st, mid.st, s) && SagaGrows(mid.st, w.st, s);
  }

  lemma OpenIsResent(before: World, first: seq<Act>, mid: World, so: seq<Act>, w: World, run: seq<Act>,
                     nets: SagaId -> Network, nets2: SagaId -> Network)
    requires var b := Initial(before.budget);
      Path(b, first, before) && Path(b, so, mid) && Path(b, run, w) && first <= so <= run
    requires AllResent(before.sent.Keys, before.st.orderDb.sagas, InProgress, nets, w)
    requires AllResent(mid.sent.Keys, mid.st.orderDb.sagas, Compensating, nets2, w)
    ensures ResentOrDone(before.sent.Keys, before.st.orderDb.sagas, nets, nets2, w)
  {
    hide Inv, Path, Reaches, Resent, Grows, Finished;
    InitialOk(before.budget);
    RunOnlyAdds(Initial(before.budget), first, before, so, mid);
    RunOnlyAdds(Initial(before.budget), so, mid, run, w);
    var sagas := before.st.orderDb.sagas;
    forall s | s in sagas && sagas[s].step != Done && Reaches(NetOf(sagas[s], nets(s), nets2(s)))
      ensures Resent(before.sent.Keys, w, Snapshot(s, sagas[s])) || Finished(w, s)
    {
      OpenThen(before, mid, w, s);
      if Resent(mid.sent.Keys, w, Snapshot(s, sagas[s])) {
        ResentFewer(before.sent.Keys, mid.sent.Keys, w, Snapshot(s, sagas[s]));
      }
    }
  }

  lemma NothingHeld(w: World)
    ensures Held(NoClaims, w)
  {}

  function Pending(items: multiset<Snapshot>): Mine {
    NoClaims.(listed := items)
  }

  function Items(rows: map<SagaId, Saga>, left: set<SagaId>): multiset<Snapshot>
    requires left <= rows.Keys
  {
    multiset(set s | s in left :: Snapshot(s, rows[s]))
  }

  /** The command for a listed row has been sent under an id that is not among these. */
  ghost predicate Resent(known: set<MsgId>, w: World, item: Snapshot) {
    && item.saga.order in w.st.orderDb.orders
    && var cmd := RecoveryCommand(item, w.st.orderDb.orders[item.saga.order]);
       cmd.Some? && SentSince(known, w, cmd.value)
  }

  /** Each listed saga's command has been sent again, unless no attempt to publish it reached the broker. */
  ghost predicate AllResent(known: set<MsgId>, sagas: map<SagaId, Saga>, status: SagaStatus, nets: SagaId -> Network,
                            w: World)
  {
    forall s ::
      s in sagas && sagas[s].status == status && Reaches(nets(s)) ==> Resent(known, w, Snapshot(s, sagas[s]))
  }

  ghost predicate Finished(w: World, s: SagaId) {
    s in w.st.orderDb.sagas && w.st.orderDb.sagas[s].step == Done
  }

  /** What the publish for a row meets, in the first half of a pass or in the second. */
  function NetOf(saga: Saga, net: Network, net2: Network): Network {
    if saga.status == InProgress then net else net2
  }

  /** Each saga that was open has its command sent again or has ended, unless no attempt reached the broker. */
  ghost predicate ResentOrDone(known: set<MsgId>, sagas: map<SagaId, Saga>, nets: SagaId -> Network,
                               nets2: SagaId -> Network, w: World)
  {
    forall s ::
      s in sagas && sagas[s].step != Done && Reaches(NetOf(sagas[s], nets(s), nets2(s))) ==>
      Resent(known, w, Snapshot(s, sagas[s])) || Finished(w, s)
  }

  lemma SagaStartStep(w: World, s: SagaId, o: OrderId)
    requires Enabled(w, StartSaga(s, o))
    ensures s !in w.st.orderDb.sagas && o in w.st.orderDb.orders
    ensures forall t :: t in w.st.orderDb.sagas ==> w.st.orderDb.sagas[t].order != o
    ensures var v, order := Apply(w, StartSaga(s, o)), w.st.orderDb.orders[o];
      && OthersSame(w, v) && v.sent == w.sent
      && v.st.orderDb == w.st.orderDb.(sagas := w.st.orderDb.sagas[s := Saga(o, ReservingInventory, InProgress, None)])
      && Held(Due(Publish(ReserveInventory(s, o, order.product, order.quantity))), v)
  {}

  lemma ListStep(w: World, status: SagaStatus, rows: map<SagaId, Saga>)
    requires status == InProgress || status == Compensating
    requires forall s :: s in rows <==> s in w.st.orderDb.sagas && w.st.orderDb.sagas[s].status == status
    requires forall s :: s in rows ==> rows[s] == w.st.orderDb.sagas[s]
    ensures Enabled(w, List(status))
    ensures var v := Apply(w, List(status)); v.st == w.st && Held(Pending(Items(rows, rows.Keys)), v)
  {
    var listing := set s | s in rows.Keys :: Snapshot(s, rows[s]);
    assert listing == Listing(w.st.orderDb, status);
  }

  lemma TakeItem(rows: map<SagaId, Saga>, left: set<SagaId>, s: SagaId)
    requires left <= rows.Keys && s in left
    ensures Items(rows, left) == Items(rows, left - {s}) + multiset{Snapshot(s, rows[s])}
  {
    var all, rest := set t | t in left :: Snapshot(t, rows[t]), set t | t in left - {s} :: Snapshot(t, rows[t]);
    assert all == rest + {Snapshot(s, rows[s])} && Snapshot(s, rows[s]) !in rest;
  }

  /** A listed row always has a command, and its order exists. */
  lemma RecoverStep(w: World, run: seq<Act>, item: Snapshot, left: multiset<Snapshot>)
    requires Path(Initial(w.budget), run, w) && Held(Pending(left + multiset{item}), w)
    ensures item.saga.order in w.st.orderDb.orders && Enabled(w, RecoverItem(item))
    ensures var cmd, v := RecoveryCommand(item, w.st.orderDb.orders[item.saga.order]), Apply(w, RecoverItem(item));
      cmd.Some? && v.st == w.st && Held(Owing(Pending(left), cmd.value, {}), v)
  {
    hide Path, Inv, RecoveryCommand;
    assert Reachable(w);
    ReachableOk(w);
    assert item in (left + multiset{item});
    ListedFacts(w, item);
    ListedHasCommand(w.st, item);
  }

  lemma ListedHasCommand(st: Stores, item: Snapshot)
    requires ItemOk(st, item)
    ensures item.saga.order in st.orderDb.orders && RecoveryCommand(item, st.orderDb.orders[item.saga.order]).Some?
  {}

  /** Order rows keep what a command is composed from. */
  lemma SameCommand(a: Stores, b: Stores, item: Snapshot)
    requires OrdersGrow(a, b) && item.saga.order in a.orderDb.orders
    ensures item.saga.order in b.orderDb.orders
    ensures RecoveryCommand(item, b.orderDb.orders[item.saga.order]) ==
      RecoveryCommand(item, a.orderDb.orders[item.saga.order])
  {}

  lemma StillResent(budget: int, so: seq<Act>, at: World, run: seq<Act>, w: World, known: set<MsgId>, item: Snapshot,
                    cmd: Message)
    requires Path(Initial(budget), so, at) && Path(Initial(budget), run, w) && so <= run
    requires item.saga.order in at.st.orderDb.orders && SentSince(known, w, cmd)
    requires RecoveryCommand(item, at.st.orderDb.orders[item.saga.order]) == Some(cmd)
    ensures Resent(known, w, item)
  {
    hide Inv, Path, OrdersGrow, SagasGrow, FactsGrow, StockGrows, RecoveryCommand, SentSince;
    InitialOk(budget);
    RunOnlyAdds(Initial(budget), so, at, run, w);
    SameCommand(at.st, w.st, item);
  }

  lemma ResentStays(budget: int, so: seq<Act>, at: World, run: seq<Act>, w: World, known: set<MsgId>, item: Snapshot)
    requires Path(Initial(budget), so, at) && Path(Initial(budget), run, w) && so <= run && Resent(known, at, item)
    ensures Resent(known, w, item)
  {
    hide Inv, Path, OrdersGrow, SagasGrow, FactsGrow, StockGrows, RecoveryCommand;
    InitialOk(budget);
    RunOnlyAdds(Initial(budget), so, at, run, w);
    SameCommand(at.st, w.st, item);
  }
}
