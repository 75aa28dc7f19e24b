/**
 * What moves sagas on: any delivered answer to a saga's current step moves it, in every interleaving; a handler
 * that runs alone answers; and recovery resends the command.
 */
module Progress {
  import opened Types
  import opened InventoryStore
  import opened Protocol
  import opened Invariant
  import opened Preservation
  import opened Runs
  import opened Safety

  // ----- demonic: an answer, once delivered, always moves the saga on -----

  /** Whatever happens before the answer to a saga's step is delivered and after, by then the saga has moved. */
  lemma DeliveredAnswerMovesTheSaga(w: World, before: seq<Act>, u: World, id: MsgId, after: seq<Act>, v: World,
                                    s: SagaId)
    requires Reachable(w) && s in w.st.orderDb.sagas && Path(w, before, u)
    requires id in u.sent && u.sent[id].IsEvent() && u.sent[id].saga == s
    requires u.sent[id].Answers() == w.st.orderDb.sagas[s].step
    requires Path(DoHandleEvent(u, id, u.sent[id]), after, v)
    ensures s in v.st.orderDb.sagas && Rank(v.st.orderDb.sagas[s].step) < Rank(w.st.orderDb.sagas[s].step)
  {
    hide Inv, Path, OrdersGrow, FactsGrow, StockGrows, Reachable, DoHandleEvent;
    ReachableOk(w);
    PathKeeps(w, before, u);
    assert SagaGrows(w.st, u.st, s);
    var t := DoHandleEvent(u, id, u.sent[id]);
    HandleEventKeeps(u, t, id);
    EffectOfEvent(u, id);
    PathKeeps(t, after, v);
    assert SagaGrows(u.st, t.st, s) && SagaGrows(t.st, v.st, s);
  }

  lemma EffectOfEvent(u: World, id: MsgId)
    requires Inv(u) && id in u.sent && u.sent[id].IsEvent()
    ensures var ev := u.sent[id];
      && ev.saga in u.st.orderDb.sagas
      && var now := DoHandleEvent(u, id, ev).st.orderDb.sagas;
         && now.Keys == u.st.orderDb.sagas.Keys
         && Rank(now[ev.saga].step) < Rank(ev.Answers())
         && forall s :: s in now && s != ev.saga ==> now[s] == u.st.orderDb.sagas[s]
  {
    hide Inv;
    var ev := u.sent[id];
    CirculatingOk(u, ev);
    SagaFacts(u, ev.saga);
    if id in u.st.orderDb.processed { ConsumedIsPast(u, id); }
  }

  /** A payment command retried under its own id after it was marked is acknowledged and gives no answer;
      the same command under a fresh id is answered from the row. */
  lemma OnlyAFreshIdReplays(w: World, k: nat, id: MsgId, again: MsgId)
    requires Reachable(w) && id in w.st.pay.processed && k !in w.paying
    requires id in w.sent && again in w.sent && w.sent[again] == w.sent[id] && again !in w.st.pay.processed
    ensures w.sent[id].ProcessPayment? && DoPayStart(w, k, id, w.sent[id]) == w
    ensures var job := PayJob(again, w.sent[id], Unread);
      && DoPayStart(w, k, again, w.sent[again]) == w.(paying := w.paying[k := job])
      && w.sent[id].order in w.st.pay.payments
      && Publish(PaymentAnswer(w.sent[id], w.st.pay.payments[w.sent[id].order])) in DoPayRead(w, k, job).owed
  {
    ReachableOk(w);
    hide Reachable, StoresOk, MessagesOk, JobsOk, RecordsOk;
  }

  // ----- constructive: fault-free runs -----

  /** Steps in which nothing is lost, aborted, refused by an error or newly ordered. */
  predicate FaultFree(a: Act) {
    || a.List? || a.RecoverItem? || a.Send? || a.HandleEvent?
    || a.ReserveStart? || a.ReserveRead? || a.ReserveWrite? || a.ReserveExhausted?
    || a.ReleaseStart? || a.ReleaseWrite?
    || a.PayStart? || a.PayRead? || a.PayWrite?
  }

  ghost predicate FaultFreePath(w: World, acts: seq<Act>, v: World) {
    Path(w, acts, v) && forall a :: a in acts ==> FaultFree(a)
  }

  lemma Stay(w: World)
    ensures FaultFreePath(w, [], w)
  {}

  lemma Extend(w: World, acts: seq<Act>, u: World, a: Act)
    requires FaultFreePath(w, acts, u) && Enabled(u, a) && FaultFree(a)
    ensures FaultFreePath(w, acts + [a], Apply(u, a))
  {
    hide Enabled, Apply, Path;
    PathStep(u, a);
    PathConcat(w, acts, u, [a], Apply(u, a));
  }

  lemma Join(w: World, xs: seq<Act>, u: World, ys: seq<Act>, v: World)
    requires FaultFreePath(w, xs, u) && FaultFreePath(u, ys, v)
    ensures FaultFreePath(w, xs + ys, v)
  {
    hide Path;
    PathConcat(w, xs, u, ys, v);
  }

  lemma FreshId(used: set<nat>) returns (id: nat)
    ensures id !in used && forall n :: n in used ==> n < id
    decreases |used|
  {
    if used == {} {
      id := 0;
    } else {
      var n :| n in used;
      var m := FreshId(used - {n});
      id := if m > n then m else n + 1;
      assert forall x :: x in used ==> x == n || x in used - {n};
    }
  }

  /** The order rows, saga rows, payments, listing and products are as they were. */
  ghost predicate Calm(w: World, v: World) {
    && v.st.orderDb == w.st.orderDb && v.st.pay == w.st.pay && v.listed == w.listed
    && v.st.inv.rows.Keys == w.st.inv.rows.Keys && v.budget == w.budget
  }

  ghost predicate SameHandlers(w: World, v: World) {
    v.reserving == w.reserving && v.releasing == w.releasing && v.paying == w.paying
  }

  /** The order's reserve handler is done, and the other handlers are as they were. */
  ghost predicate Cleared(w: World, v: World, o: OrderId) {
    v.reserving == w.reserving - {o} && v.releasing == w.releasing && v.paying == w.paying
  }

  // ----- a handler that runs alone answers -----

  /** The handler has decided, and owes its answer. */
  ghost predicate Decided(w: World, v: World, cmd: Message, ok: bool)
    requires cmd.ReserveInventory?
  {
    && Calm(w, v) && Cleared(w, v, cmd.order)
    && Publish(InventoryReserved(cmd.saga, cmd.order, cmd.product, cmd.quantity, ok)) in v.owed
  }

  lemma AnswerDecides(w: World, cmd: Message, ok: bool)
    requires cmd.ReserveInventory?
    ensures Decided(w, AnswerReserve(w, cmd, ok), cmd, ok)
  {}

  lemma ExhaustDecides(w: World, o: OrderId)
    requires Enabled(w, ReserveExhausted(o))
    ensures Decided(w, Apply(w, ReserveExhausted(o)), w.reserving[o].cmd, false)
  {
    hide AnswerReserve, Decided;
    AnswerDecides(w, w.reserving[o].cmd, false);
  }

  /** A read decides on a refusal, or leaves a handler whose write, coming next, will pass. */
  lemma ReadDecides(w: World, o: OrderId)
    requires Enabled(w, ReserveRead(o))
    ensures var cmd, u := w.reserving[o].cmd, Apply(w, ReserveRead(o));
      if w.st.inv.rows[cmd.product].available < cmd.quantity then Decided(w, u, cmd, false)
      else
        && Enabled(u, ReserveWrite(o)) && u.reserving[o].cmd == cmd && u.st == w.st && u.listed == w.listed
        && u.budget == w.budget
        && CanReserve(u.st.inv, cmd.product, u.reserving[o].phase.version, cmd.quantity)
        && u.reserving == w.reserving[o := u.reserving[o]] && u.releasing == w.releasing && u.paying == w.paying
  {
    hide AnswerReserve, Decided;
    AnswerDecides(w, w.reserving[o].cmd, false);
  }

  lemma WriteDecides(w: World, o: OrderId)
    requires Enabled(w, ReserveWrite(o))
    requires var job := w.reserving[o]; CanReserve(w.st.inv, job.cmd.product, job.phase.version, job.cmd.quantity)
    ensures Decided(w, Apply(w, ReserveWrite(o)), w.reserving[o].cmd, true)
  {
    hide AnswerReserve;
    var job := w.reserving[o];
    var inv := ReserveIn(w.st.inv, job.cmd.product, o, job.phase.version, job.cmd.quantity);
    AnswerDecides(w.(st := w.st.(inv := inv)), job.cmd, true);
  }

  lemma ReadThenWrite(w: World, u: World, v: World, cmd: Message)
    requires cmd.ReserveInventory? && u.st == w.st && u.listed == w.listed && cmd.order in u.reserving
    requires u.budget == w.budget
    requires u.reserving == w.reserving[cmd.order := u.reserving[cmd.order]]
    requires u.releasing == w.releasing && u.paying == w.paying && Decided(u, v, cmd, true)
    ensures Decided(w, v, cmd, true)
  {}

  lemma FinishReady(w: World, o: OrderId) returns (acts: seq<Act>, v: World, ev: Message)
    requires Inv(w) && o in w.reserving && w.reserving[o].phase.Ready?
    requires w.reserving[o].cmd.ReserveInventory? && w.reserving[o].cmd.order == o
    requires w.reserving[o].cmd.product in w.st.inv.rows || w.budget <= 0
    ensures FaultFreePath(w, acts, v) && Inv(v) && Calm(w, v) && Cleared(w, v, o)
    ensures ev.InventoryReserved? && ev.saga == w.reserving[o].cmd.saga && Publish(ev) in v.owed
  {
    hide Inv, Mono, Path, FaultFreePath, Apply, Calm, Cleared, CanReserve;
    var job := w.reserving[o];
    var cmd := job.cmd;
    Stay(w);
    if job.attempt >= w.budget {
      var a := ReserveExhausted(o);
      StepKeeps(w, a);
      Extend(w, [], w, a);
      ExhaustDecides(w, o);
      acts, v, ev := [] + [a], Apply(w, a), InventoryReserved(cmd.saga, o, cmd.product, cmd.quantity, false);
    } else {
      var a, b := ReserveRead(o), ReserveWrite(o);
      var u := Apply(w, a);
      StepKeeps(w, a);
      Extend(w, [], w, a);
      ReadDecides(w, o);
      if w.st.inv.rows[cmd.product].available < cmd.quantity {
        acts, v, ev := [] + [a], u, InventoryReserved(cmd.saga, o, cmd.product, cmd.quantity, false);
      } else {
        StepKeeps(u, b);
        Extend(w, [] + [a], u, b);
        WriteDecides(u, o);
        ReadThenWrite(w, u, Apply(u, b), cmd);
        acts, v, ev := [] + [a] + [b], Apply(u, b), InventoryReserved(cmd.saga, o, cmd.product, cmd.quantity, true);
      }
    }
  }

  /** A reserve handler already in flight finishes: its pending write lands, or it reads once more. */
  lemma FinishReserve(w: World, o: OrderId) returns (acts: seq<Act>, v: World, ev: Message)
    requires Inv(w) && o in w.reserving
    requires w.reserving[o].cmd.ReserveInventory? && w.reserving[o].cmd.order == o
    requires w.reserving[o].cmd.product in w.st.inv.rows || w.budget <= 0
    ensures FaultFreePath(w, acts, v) && Inv(v) && Calm(w, v) && Cleared(w, v, o)
    ensures ev.InventoryReserved? && ev.saga == w.reserving[o].cmd.saga && Publish(ev) in v.owed
  {
    hide Inv, Mono, Path, FaultFreePath;
    if w.reserving[o].phase.Ready? {
      acts, v, ev := FinishReady(w, o);
    } else {
      var job, a := w.reserving[o], ReserveWrite(o);
      var cmd, u := job.cmd, Apply(w, a);
      Stay(w);
      StepKeeps(w, a);
      Extend(w, [], w, a);
      if CanReserve(w.st.inv, cmd.product, job.phase.version, cmd.quantity) {
        acts, v, ev := [] + [a], u, InventoryReserved(cmd.saga, o, cmd.product, cmd.quantity, true);
      } else {
        var more;
        more, v, ev := FinishReady(u, o);
        Join(w, [] + [a], u, more, v);
        acts := [] + [a] + more;
      }
    }
  }

  lemma InFlightIsMine(w: World, s: SagaId, o: OrderId)
    requires Inv(w) && o in w.reserving && s in w.st.orderDb.sagas && w.st.orderDb.sagas[s].order == o
    ensures o in w.st.orderDb.orders
    ensures var cmd := w.reserving[o].cmd;
      cmd.ReserveInventory? && cmd.order == o && cmd.saga == s && cmd.product == w.st.orderDb.orders[o].product
  {
    hide Inv;
    ReserveJobFacts(w, o);
    OneSaga(w, s, w.reserving[o].cmd.saga);
  }

  lemma ReleaseIsMine(w: World, s: SagaId, o: OrderId)
    requires Inv(w) && o in w.releasing && s in w.st.orderDb.sagas && w.st.orderDb.sagas[s].order == o
    ensures w.releasing[o].ReleaseInventory? && w.releasing[o].order == o && w.releasing[o].saga == s
  {
    hide Inv;
    ReleasingFacts(w, o);
    OneSaga(w, s, w.releasing[o].saga);
  }

  // ----- recovery resends -----

  /** Recovery handles a listed row: it composes the command and publishes it under a fresh id. */
  lemma Resend(w: World, item: Snapshot, cmd: Message) returns (acts: seq<Act>, v: World, m: MsgId)
    requires Inv(w) && item in w.listed && item.saga.order in w.st.orderDb.orders
    requires RecoveryCommand(item, w.st.orderDb.orders[item.saga.order]) == Some(cmd)
    ensures FaultFreePath(w, acts, v) && Inv(v) && v.st == w.st && v.listed == w.listed - multiset{item}
    ensures SameHandlers(w, v) && v.budget == w.budget
    ensures m in v.sent && v.sent[m] == cmd && m !in v.st.pay.processed
  {
    hide Inv, Mono, Path, FaultFreePath, RecoveryCommand;
    m := FreshId(w.sent.Keys + w.st.pay.processed);
    var a, b := RecoverItem(item), Send(cmd, m);
    var u := Apply(w, a);
    Stay(w);
    StepKeeps(w, a);
    Extend(w, [], w, a);
    v := Apply(u, b);
    StepKeeps(u, b);
    Extend(w, [] + [a], u, b);
    acts := [] + [a] + [b];
  }

  /** A reserve handler can decide on every saga's order: it has no attempt to make, or the product is on record. */
  ghost predicate Decidable(w: World) {
    w.budget <= 0 || forall s :: s in w.st.orderDb.sagas ==> ProductKnown(w, w.st.orderDb.sagas[s].order)
  }

  ghost predicate ProductKnown(w: World, o: OrderId) {
    o in w.st.orderDb.orders && w.st.orderDb.orders[o].product in w.st.inv.rows
  }

  /** The saga is listed as it stands now, so recovery will act on it. */
  ghost predicate Listed(w: World, s: SagaId) {
    s in w.st.orderDb.sagas && w.st.orderDb.sagas[s].step != Done && Snapshot(s, w.st.orderDb.sagas[s]) in w.listed
  }

  // ----- what a round works on -----

  ghost function Open(w: World): set<SagaId> {
    set s | s in w.st.orderDb.sagas && w.st.orderDb.sagas[s].step != Done
  }

  ghost predicate Lowered(w: World, v: World, s: SagaId)
    requires s in w.st.orderDb.sagas
  {
    s in v.st.orderDb.sagas && Rank(v.st.orderDb.sagas[s].step) < Rank(w.st.orderDb.sagas[s].step)
  }

  lemma StillListed(w: World, u: World, s: SagaId, t: SagaId)
    requires Listed(w, s) && Listed(w, t) && t != s
    requires u.listed == w.listed - multiset{Snapshot(s, w.st.orderDb.sagas[s])}
    requires t in u.st.orderDb.sagas && u.st.orderDb.sagas[t] == w.st.orderDb.sagas[t]
    ensures Listed(u, t)
  {
    assert Snapshot(t, w.st.orderDb.sagas[t]) != Snapshot(s, w.st.orderDb.sagas[s]);
  }

  lemma ListBoth(w: World) returns (acts: seq<Act>, v: World)
    requires Inv(w)
    ensures FaultFreePath(w, acts, v) && Inv(v) && v.st == w.st && SameHandlers(w, v) && v.budget == w.budget
    ensures forall s :: s in Open(w) ==> Listed(v, s)
  {
    hide Inv, Mono, Path, FaultFreePath;
    var a, b := List(InProgress), List(Compensating);
    var u := Apply(w, a);
    Stay(w);
    StepKeeps(w, a);
    Extend(w, [], w, a);
    v := Apply(u, b);
    StepKeeps(u, b);
    Extend(w, [] + [a], u, b);
    acts := [] + [a] + [b];
    forall s | s in Open(w) ensures Listed(v, s) {
      SagaFacts(w, s);
      var item := Snapshot(s, w.st.orderDb.sagas[s]);
      assert item in Listing(w.st.orderDb, InProgress) || item in Listing(u.st.orderDb, Compensating);
    }
  }
}
