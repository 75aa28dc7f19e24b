/**
 * Which runs leave stock with failed sagas. A refusal leaves no log entry, so a write may still be granted to an
 * order that was refused; and a saga whose release failed may still see a later release go through. Each is
 * decided by the guard of one step of the run.
 */
module Stranding {
  import opened Types
  import opened OrderStore
  import opened InventoryStore
  import opened Protocol
  import opened Invariant
  import opened Preservation
  import opened Runs
  import opened Safety
  import opened Stock
  import opened Claims

  // ----- grants -----

  /** The order's handler is about to write, and the WHERE clause of that write holds. */
  ghost predicate PassesGuard(w: World, o: OrderId) {
    && o in w.reserving && w.reserving[o].cmd.ReserveInventory? && w.reserving[o].phase.HasRead?
    && var job := w.reserving[o];
       CanReserve(w.st.inv, job.cmd.product, job.phase.version, job.cmd.quantity)
  }

  /** An order comes to hold stock exactly by its own write passing its guard. */
  lemma GrantedIffGuardPasses(w: World, a: Act, o: OrderId)
    requires Enabled(w, a) && !Holds(w.st, o)
    ensures Holds(Apply(w, a).st, o) <==> a == ReserveWrite(o) && PassesGuard(w, o)
  {
    hide Enabled, Apply, Logged, PassesGuard;
    match a {
      case ReserveWrite(x) => WriteLogged(w, x);
      case ReleaseWrite(x) => ReleaseLogged(w, x);
      case _ => OtherLogs(w, a);
    }
  }

  lemma OtherLogs(w: World, a: Act)
    requires Enabled(w, a) && !a.ReserveWrite? && !a.ReleaseWrite?
    ensures Apply(w, a).st.inv.logs == w.st.inv.logs
  {
    hide Logged, Judge, Consume, Followup, RecoveryCommand, Listing, PaymentAnswer;
  }

  lemma WriteLogged(w: World, o: OrderId)
    requires Enabled(w, ReserveWrite(o))
    ensures Logged(Apply(w, ReserveWrite(o)).st.inv.logs, Reserve) ==
            Logged(w.st.inv.logs, Reserve) + if PassesGuard(w, o) then {o} else {}
    ensures Logged(Apply(w, ReserveWrite(o)).st.inv.logs, Release) == Logged(w.st.inv.logs, Release)
  {
    var cmd := w.reserving[o].cmd;
    var e := LogEntry(cmd.product, o, Reserve, cmd.quantity);
    LoggedAppend(w.st.inv.logs, e, Reserve);
    LoggedAppend(w.st.inv.logs, e, Release);
  }

  lemma ReleaseLogged(w: World, o: OrderId)
    requires Enabled(w, ReleaseWrite(o))
    ensures Logged(Apply(w, ReleaseWrite(o)).st.inv.logs, Reserve) == Logged(w.st.inv.logs, Reserve)
    ensures Logged(Apply(w, ReleaseWrite(o)).st.inv.logs, Release) ==
            Logged(w.st.inv.logs, Release) + if w.releasing[o].product in w.st.inv.rows then {o} else {}
  {
    var cmd := w.releasing[o];
    var e := LogEntry(cmd.product, o, Release, cmd.quantity);
    LoggedAppend(w.st.inv.logs, e, Reserve);
    LoggedAppend(w.st.inv.logs, e, Release);
  }

  /** Somewhere in the run a write passes its guard for an order that has already been refused. */
  ghost predicate GrantsRefused(w: World, acts: seq<Act>, v: World, o: OrderId)
    requires Path(w, acts, v)
    decreases |acts|
  {
    acts != [] &&
    (|| (acts[0] == ReserveWrite(o) && Refused(w.st, o) && PassesGuard(w, o))
     || GrantsRefused(Apply(w, acts[0]), acts[1..], v, o))
  }

  lemma {:induction false} HeldIsNotGranted(w: World, acts: seq<Act>, v: World, o: OrderId)
    requires Inv(w) && Holds(w.st, o) && Path(w, acts, v)
    ensures !GrantsRefused(w, acts, v, o)
    decreases |acts|
  {
    hide Inv, Apply, Enabled, Refused, OrdersGrow, SagasGrow, StockGrows;
    if acts != [] {
      StepKeeps(w, acts[0]);
      if o in w.reserving { ReserveJobFacts(w, o); }
      HeldIsNotGranted(Apply(w, acts[0]), acts[1..], v, o);
    }
  }

  /** An order that holds stock and was never refused never will be. */
  lemma HeldIsNotRefused(w: World, acts: seq<Act>, v: World, o: OrderId)
    requires Inv(w) && Path(w, acts, v) && Holds(w.st, o)
    ensures Refused(v.st, o) <==> Refused(w.st, o)
  {
    hide Inv, Path, OrdersGrow, SagasGrow, StockGrows;
    PathKeeps(w, acts, v);
    AnswersAre(w);
    AnswersAre(v);
    var before, after := w.st.answers[o], v.st.answers[o];
    if !Refused(w.st, o) {
      assert before[0] in before && after[0] == before[0];
    } else {
      var i :| 0 <= i < |before| && !before[i];
      assert !after[i];
    }
  }

  lemma AnswersAre(w: World)
    requires Inv(w)
    ensures AnswersOk(w.st)
  {}

  /** Refused and yet holding stock: exactly when a write passed its guard after the refusal. */
  lemma {:induction false} RefusedHoldsIff(w: World, acts: seq<Act>, v: World, o: OrderId)
    requires Inv(w) && Path(w, acts, v) && !Holds(w.st, o)
    ensures Refused(v.st, o) && Holds(v.st, o) <==> GrantsRefused(w, acts, v, o)
    decreases |acts|
  {
    hide Inv, Apply, Enabled, PassesGuard, OrdersGrow, SagasGrow, StockGrows, Holds, Refused;
    if acts != [] {
      var u := Apply(w, acts[0]);
      StepKeeps(w, acts[0]);
      GrantedIffGuardPasses(w, acts[0], o);
      if Holds(u.st, o) {
        HeldStaysHeld(u, acts[1..], v, o);
        HeldIsNotGranted(u, acts[1..], v, o);
        HeldIsNotRefused(u, acts[1..], v, o);
        GrantAnswersYes(w, o);
      } else {
        RefusedHoldsIff(u, acts[1..], v, o);
      }
    }
  }

  lemma HeldStaysHeld(w: World, acts: seq<Act>, v: World, o: OrderId)
    requires Inv(w) && Path(w, acts, v) && Holds(w.st, o)
    ensures Holds(v.st, o)
  {
    hide Inv, Path, OrdersGrow, SagasGrow, StockGrows;
    PathKeeps(w, acts, v);
  }

  lemma GrantAnswersYes(w: World, o: OrderId)
    requires Enabled(w, ReserveWrite(o)) && PassesGuard(w, o)
    ensures Refused(Apply(w, ReserveWrite(o)).st, o) <==> Refused(w.st, o)
  {
    hide Logged, ReserveIn;
  }

  predicate FailedUnpaid(w: World, s: SagaId) {
    && s in w.st.orderDb.sagas && w.st.orderDb.sagas[s].status == Failed
    && w.st.orderDb.sagas[s].order !in w.st.pay.payments
  }

  predicate FailedDeclined(w: World, s: SagaId) {
    && s in w.st.orderDb.sagas && w.st.orderDb.sagas[s].status == Failed
    && w.st.orderDb.sagas[s].order in w.st.pay.payments
  }

  lemma FailedFacts(w: World, s: SagaId)
    requires Inv(w) && s in w.st.orderDb.sagas && w.st.orderDb.sagas[s].status == Failed
    ensures var o := w.st.orderDb.sagas[s].order;
      && o in w.st.orderDb.orders
      && if o in w.st.pay.payments then Holds(w.st, o) else !GaveBack(w.st, o) && Refused(w.st, o)
  {
    hide Inv;
    SagaFacts(w, s);
  }

  /** A saga that failed at its reservation holds stock exactly when, in the run, a write passed its guard for
      its order after the order had been refused. */
  lemma FailedHoldsIff(w: World, acts: seq<Act>, v: World, s: SagaId)
    requires Reachable(w) && Path(w, acts, v) && FailedUnpaid(v, s) && !Holds(w.st, v.st.orderDb.sagas[s].order)
    ensures Holds(v.st, v.st.orderDb.sagas[s].order) <==> GrantsRefused(w, acts, v, v.st.orderDb.sagas[s].order)
  {
    hide Inv, Reachable, Path, Holds, Refused;
    ReachableOk(w);
    PathKeeps(w, acts, v);
    FailedFacts(v, s);
    RefusedHoldsIff(w, acts, v, v.st.orderDb.sagas[s].order);
  }

  /** With no release of the product and attempts for its whole supply, a refused order's write never passes. */
  lemma NoLateGrant(w: World, o: OrderId)
    requires Reachable(w) && Refused(w.st, o) && o in w.st.orderDb.orders
    requires var p := w.st.orderDb.orders[o].product;
      p in w.st.supply && NoReleases(w.st.inv.logs, p) && w.budget >= w.st.supply[p]
    ensures !PassesGuard(w, o)
  {
    hide Inv, Reachable, Refused, NoReleases;
    ReachableOk(w);
    if PassesGuard(w, o) {
      ReserveJobFacts(w, o);
      RefusedAsksForMoreThanRemains(w, o);
    }
  }

  lemma {:induction false} NoLateGrants(w: World, acts: seq<Act>, v: World, o: OrderId)
    requires Reachable(w) && Path(w, acts, v) && o in v.st.orderDb.orders
    requires var p := v.st.orderDb.orders[o].product;
      p in v.st.supply && NoReleases(v.st.inv.logs, p) && v.budget >= v.st.supply[p]
    ensures !GrantsRefused(w, acts, v, o)
    decreases |acts|
  {
    hide Inv, Reachable, Enabled, Apply, NoReleases, Refused, PassesGuard;
    if acts != [] {
      StepReaches(w, acts[0]);
      NoLateGrants(Apply(w, acts[0]), acts[1..], v, o);
      if Refused(w.st, o) && PassesGuard(w, o) {
        GuardedThenToo(w, acts, v, o);
        NoLateGrant(w, o);
      }
    }
  }

  /** What holds of the product at the end held of it when the write passed. */
  lemma GuardedThenToo(w: World, acts: seq<Act>, v: World, o: OrderId)
    requires Reachable(w) && Path(w, acts, v) && o in v.st.orderDb.orders && PassesGuard(w, o)
    requires var p := v.st.orderDb.orders[o].product;
      p in v.st.supply && NoReleases(v.st.inv.logs, p) && v.budget >= v.st.supply[p]
    ensures o in w.st.orderDb.orders
    ensures var p := w.st.orderDb.orders[o].product;
      p in w.st.supply && NoReleases(w.st.inv.logs, p) && w.budget >= w.st.supply[p]
  {
    hide Inv, Reachable, Path, SagasGrow, StockGrows, Logged;
    ReachableOk(w);
    PathKeeps(w, acts, v);
    ReserveJobFacts(w, o);
    StockLedger(w, w.reserving[o].cmd.product);
    assert forall i :: 0 <= i < |w.st.inv.logs| ==> w.st.inv.logs[i] == v.st.inv.logs[i];
  }

  /** What an operator can check: while a product has had no release and reserve handlers have attempts for its
      whole supply, no saga that failed at its reservation holds any of it. */
  lemma FailedHoldsNothingWithoutReleases(v: World, s: SagaId)
    requires Reachable(v) && FailedUnpaid(v, s) && v.st.orderDb.sagas[s].order in v.st.orderDb.orders
    requires var p := v.st.orderDb.orders[v.st.orderDb.sagas[s].order].product;
      p in v.st.supply && NoReleases(v.st.inv.logs, p) && v.budget >= v.st.supply[p]
    ensures !Holds(v.st, v.st.orderDb.sagas[s].order)
  {
    hide Path, NoReleases, GrantsRefused, Holds;
    var budget, acts :| Path(Initial(budget), acts, v);
    InitialIsReachable(budget);
    NothingHeldAtFirst(budget, v.st.orderDb.sagas[s].order);
    FailedHoldsIff(Initial(budget), acts, v, s);
    NoLateGrants(Initial(budget), acts, v, v.st.orderDb.sagas[s].order);
  }

  /** "A saga that failed at its reservation holds no stock" is true of exactly these runs. */
  lemma NoFailedSagaHoldsStockIff(budget: int, acts: seq<Act>, v: World)
    requires Path(Initial(budget), acts, v)
    ensures (forall s :: FailedUnpaid(v, s) ==> !Holds(v.st, v.st.orderDb.sagas[s].order)) <==>
            (forall s :: FailedUnpaid(v, s) ==> !GrantsRefused(Initial(budget), acts, v, v.st.orderDb.sagas[s].order))
  {
    hide Inv, Path, GrantsRefused, FailedUnpaid;
    InitialIsReachable(budget);
    forall s | FailedUnpaid(v, s)
      ensures s in v.st.orderDb.sagas
      ensures Holds(v.st, v.st.orderDb.sagas[s].order) <==>
              GrantsRefused(Initial(budget), acts, v, v.st.orderDb.sagas[s].order)
    {
      SagaExists(v, s);
      FailedHoldsIff(Initial(budget), acts, v, s);
    }
  }

  lemma SagaExists(v: World, s: SagaId)
    requires FailedUnpaid(v, s) || FailedDeclined(v, s)
    ensures s in v.st.orderDb.sagas
  {}

  lemma InitialIsReachable(budget: int)
    ensures Reachable(Initial(budget))
  {
    assert Path(Initial(budget), [], Initial(budget));
  }

  // ----- returns -----

  /** An order gives its stock back exactly by its own release write, which always finds its row. */
  lemma ReturnedIffReleaseWrites(w: World, a: Act, o: OrderId)
    requires Reachable(w) && Enabled(w, a) && !GaveBack(w.st, o)
    ensures GaveBack(Apply(w, a).st, o) <==> a == ReleaseWrite(o)
  {
    hide Reachable, Enabled, Apply, Logged, PassesGuard;
    match a {
      case ReserveWrite(x) => WriteLogged(w, x);
      case ReleaseWrite(x) =>
        ReleaseLogged(w, x);
        ReleaseNeverClamps(w, x);
      case _ => OtherLogs(w, a);
    }
  }

  lemma {:induction false} RunReturnsIff(w: World, acts: seq<Act>, v: World, o: OrderId)
    requires Reachable(w) && Path(w, acts, v) && !GaveBack(w.st, o)
    ensures GaveBack(v.st, o) <==> ReleaseWrite(o) in acts
    decreases |acts|
  {
    hide Reachable, Apply, Enabled, GaveBack, Inv;
    if acts != [] {
      var u := Apply(w, acts[0]);
      StepReaches(w, acts[0]);
      ReturnedIffReleaseWrites(w, acts[0], o);
      if GaveBack(u.st, o) {
        ReturnedStays(u, acts[1..], v, o);
      } else {
        RunReturnsIff(u, acts[1..], v, o);
        assert acts == [acts[0]] + acts[1..];
      }
    }
  }

  lemma StepReaches(w: World, a: Act)
    requires Reachable(w) && Enabled(w, a)
    ensures Reachable(Apply(w, a))
  {
    hide Enabled, Apply;
    PathStep(w, a);
    ReachableFrom(w, [a], Apply(w, a));
  }

  lemma ReturnedStays(w: World, acts: seq<Act>, v: World, o: OrderId)
    requires Reachable(w) && Path(w, acts, v) && GaveBack(w.st, o)
    ensures GaveBack(v.st, o)
  {
    hide Inv, Reachable, Path, OrdersGrow, SagasGrow, StockGrows;
    ReachableOk(w);
    PathKeeps(w, acts, v);
  }

  /** A saga that failed during its release has a release entry exactly when some release of its order wrote. */
  lemma StuckReturnedIff(budget: int, acts: seq<Act>, v: World, s: SagaId)
    requires Path(Initial(budget), acts, v) && FailedDeclined(v, s)
    ensures GaveBack(v.st, v.st.orderDb.sagas[s].order) <==> ReleaseWrite(v.st.orderDb.sagas[s].order) in acts
  {
    hide Path;
    InitialIsReachable(budget);
    RunReturnsIff(Initial(budget), acts, v, v.st.orderDb.sagas[s].order);
  }

  // ----- all or nothing, exactly -----

  /** The run strands the saga's stock: a late grant that nobody gives back, or a release that never wrote. */
  ghost predicate Strands(budget: int, acts: seq<Act>, v: World, s: SagaId)
    requires Path(Initial(budget), acts, v)
  {
    || (FailedUnpaid(v, s) && GrantsRefused(Initial(budget), acts, v, v.st.orderDb.sagas[s].order))
    || (FailedDeclined(v, s) && ReleaseWrite(v.st.orderDb.sagas[s].order) !in acts)
  }

  lemma StrandedIff(budget: int, acts: seq<Act>, v: World, s: SagaId)
    requires Path(Initial(budget), acts, v) && s in v.st.orderDb.sagas && v.st.orderDb.sagas[s].status == Failed
    ensures var o := v.st.orderDb.sagas[s].order;
      Holds(v.st, o) && !GaveBack(v.st, o) <==> Strands(budget, acts, v, s)
  {
    hide Inv, Path, GrantsRefused, Holds, GaveBack, Refused;
    InitialIsReachable(budget);
    assert Reachable(v);
    ReachableOk(v);
    FailedFacts(v, s);
    if FailedUnpaid(v, s) {
      NothingHeldAtFirst(budget, v.st.orderDb.sagas[s].order);
      FailedHoldsIff(Initial(budget), acts, v, s);
    } else {
      StuckReturnedIff(budget, acts, v, s);
    }
  }

  lemma NothingHeldAtFirst(budget: int, o: OrderId)
    ensures !Holds(Initial(budget).st, o) && !GaveBack(Initial(budget).st, o)
  {}

  /** All or nothing, exactly: once every saga is terminal, a product's reserved quantity is what its completed
      orders bought if and only if the run strands no failed saga of that product. */
  lemma AllOrNothingIff(budget: int, acts: seq<Act>, v: World, p: ProductId)
    requires Path(Initial(budget), acts, v) && Settled(v) && p in v.st.inv.rows
    ensures OrdersIn(v, p, Completed) <= v.st.orderDb.orders.Keys
    ensures v.st.inv.rows[p].reserved == SumQty(v.st.orderDb.orders, OrdersIn(v, p, Completed)) <==>
      forall s :: s in v.st.orderDb.sagas && v.st.orderDb.sagas[s].order in OrdersOf(v, p) ==>
        !Strands(budget, acts, v, s)
  {
    hide Inv, Path, Settled, OrdersOf, Strands, GrantsRefused, Holds, GaveBack;
    assert Reachable(v);
    SettledReservation(v, p);
    forall s | s in v.st.orderDb.sagas && v.st.orderDb.sagas[s].order in OrdersOf(v, p)
      ensures Strands(budget, acts, v, s) ==> v.st.orderDb.sagas[s].order in Stranded(v, p)
    {
      if Strands(budget, acts, v, s) {
        StrandsOnlyFailed(budget, acts, v, s);
        StrandedIff(budget, acts, v, s);
        ReachableOk(v);
        OutstandingFacts(v, p);
      }
    }
    if o :| o in Stranded(v, p) {
      var s :| s in v.st.orderDb.sagas && v.st.orderDb.sagas[s].status == Failed && v.st.orderDb.sagas[s].order == o;
      ReachableOk(v);
      OutstandingFacts(v, p);
      StrandedIff(budget, acts, v, s);
      assert Strands(budget, acts, v, s);
    }
  }

  lemma StrandsOnlyFailed(budget: int, acts: seq<Act>, v: World, s: SagaId)
    requires Path(Initial(budget), acts, v) && Strands(budget, acts, v, s)
    ensures s in v.st.orderDb.sagas && v.st.orderDb.sagas[s].status == Failed
  {
    hide Path, GrantsRefused;
  }

  // ----- orders without a saga -----

  lemma EventOwners(w: World, id: MsgId)
    requires Enabled(w, HandleEvent(id))
    ensures Owners(DoHandleEvent(w, id, w.sent[id]).st.orderDb) == Owners(w.st.orderDb)
  {
    hide Followup, WithStatus;
    var a, b := w.st.orderDb, DoHandleEvent(w, id, w.sent[id]).st.orderDb;
    forall o ensures o in Owners(a) <==> o in Owners(b) {
      if s :| s in a.sagas && a.sagas[s].order == o { assert b.sagas[s].order == o; }
      if s :| s in b.sagas && b.sagas[s].order == o { assert a.sagas[s].order == o; }
    }
  }

  lemma StartOwners(w: World, s: SagaId, o: OrderId)
    requires Enabled(w, StartSaga(s, o))
    ensures Owners(Apply(w, StartSaga(s, o)).st.orderDb) == Owners(w.st.orderDb) + {o}
  {
    var a, b := w.st.orderDb, Apply(w, StartSaga(s, o)).st.orderDb;
    assert b.sagas[s].order == o;
    forall x | x in Owners(a) ensures x in Owners(b) {
      var t :| t in a.sagas && a.sagas[t].order == x;
      assert b.sagas[t].order == x;
    }
  }

  lemma ReserveOwners(w: World, a: Act)
    requires Enabled(w, a)
    requires a.ReserveStart? || a.ReserveRead? || a.ReserveWrite? || a.ReserveExhausted? || a.ReserveAbort?
    ensures Apply(w, a).st.orderDb == w.st.orderDb
  {
    hide Logged, CanReserve, ReserveIn, AnswerReserve;
  }

  lemma ReleaseOwners(w: World, a: Act)
    requires Enabled(w, a) && (a.ReleaseStart? || a.ReleaseWrite? || a.ReleaseError? || a.ReleaseAbort?)
    ensures Apply(w, a).st.orderDb == w.st.orderDb
  {
    hide Logged, ReleaseIn, AnswerRelease;
  }

  lemma PayOwners(w: World, a: Act)
    requires Enabled(w, a) && (a.PayStart? || a.PayRead? || a.PayWrite? || a.PayAbort?)
    ensures Apply(w, a).st.orderDb == w.st.orderDb
  {
    hide PaymentAnswer;
  }

  lemma ServiceOwners(w: World, a: Act)
    requires Enabled(w, a) && !OfAHandler(a) && !a.StartSaga? && !a.HandleEvent?
    ensures Apply(w, a).st.orderDb.sagas == w.st.orderDb.sagas
  {
    hide RecoveryCommand, Listing;
  }

  lemma OtherOwners(w: World, a: Act)
    requires Enabled(w, a) && !a.StartSaga? && !a.HandleEvent?
    ensures Apply(w, a).st.orderDb.sagas == w.st.orderDb.sagas
  {
    hide Enabled, Apply;
    if a.ReserveStart? || a.ReserveRead? || a.ReserveWrite? || a.ReserveExhausted? || a.ReserveAbort? {
      ReserveOwners(w, a);
    } else if a.ReleaseStart? || a.ReleaseWrite? || a.ReleaseError? || a.ReleaseAbort? {
      ReleaseOwners(w, a);
    } else if a.PayStart? || a.PayRead? || a.PayWrite? || a.PayAbort? {
      PayOwners(w, a);
    } else {
      ServiceOwners(w, a);
    }
  }

  lemma StepOwners(w: World, a: Act, o: OrderId)
    requires Enabled(w, a)
    ensures o in Owners(Apply(w, a).st.orderDb) <==> o in Owners(w.st.orderDb) || (a.StartSaga? && a.order == o)
  {
    hide Enabled, DoHandleEvent, DoStartSaga, DoReserveWrite, DoReleaseWrite, DoReserveStart, DoReserveRead;
    match a {
      case HandleEvent(id) => EventOwners(w, id);
      case StartSaga(s, x) => StartOwners(w, s, x);
      case _ => OtherOwners(w, a);
    }
  }

  /** An order has a saga exactly when one was started for it: placing the order and starting its saga are two
      steps, and recovery knows only sagas. */
  lemma {:induction false} HasSagaIff(w: World, acts: seq<Act>, v: World, o: OrderId)
    requires Path(w, acts, v)
    ensures o in Owners(v.st.orderDb) <==>
      o in Owners(w.st.orderDb) || exists i :: 0 <= i < |acts| && acts[i].StartSaga? && acts[i].order == o
    decreases |acts|
  {
    hide Enabled, Apply, Owners;
    if acts != [] {
      var u, rest := Apply(w, acts[0]), acts[1..];
      StepOwners(w, acts[0], o);
      HasSagaIff(u, rest, v, o);
      if i :| 0 <= i < |acts| && acts[i].StartSaga? && acts[i].order == o {
        assert i == 0 || rest[i - 1] == acts[i];
      }
      if i :| 0 <= i < |rest| && rest[i].StartSaga? && rest[i].order == o {
        assert acts[i + 1] == rest[i];
      }
    }
  }
}
