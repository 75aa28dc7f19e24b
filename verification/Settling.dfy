/**
 * When every saga ends. A reservation for a product that is not on record is neither granted nor refused: its
 * handler reports an error each time, and recovery sends the command again for ever. That is the only way for a
 * saga to be stuck; otherwise three rounds without a fault settle everything, each payment turning out as chosen.
 */
module Settling {
  import opened Types
  import opened OrderStore
  import opened InventoryStore
  import opened Protocol
  import opened Invariant
  import opened Runs
  import opened Safety
  import opened Claims
  import opened Stock
  import opened Progress
  import opened FairRounds
  import opened FairRuns
  import opened LateGrant

  /** No saga waits for a reservation of a product that is not on record, or reserve handlers make no attempt. */
  ghost predicate NoneUnknown(w: World) {
    w.budget <= 0 || forall s ::
      s in w.st.orderDb.sagas && w.st.orderDb.sagas[s].step == ReservingInventory ==>
      ProductKnown(w, w.st.orderDb.sagas[s].order)
  }

  /** With an attempt to make, a saga gets past its reservation only if its product is on record. */
  lemma PastItsReservation(w: World, s: SagaId)
    requires Inv(w) && w.budget >= 1 && s in w.st.orderDb.sagas
    requires w.st.orderDb.sagas[s].step != ReservingInventory
    ensures ProductKnown(w, w.st.orderDb.sagas[s].order)
  {
    hide Inv, PaymentsOk, RowsOk;
    SagaFacts(w, s);
    LedgerFacts(w);
    var o := w.st.orderDb.sagas[s].order;
    if !Holds(w.st, o) { assert RefusalFair(w.st, w.budget, o); }
  }

  lemma DecidableIff(w: World)
    requires Inv(w)
    ensures Decidable(w) <==> NoneUnknown(w)
  {
    hide Inv, ProductKnown;
    if w.budget >= 1 {
      forall s | s in w.st.orderDb.sagas && w.st.orderDb.sagas[s].step != ReservingInventory
        ensures ProductKnown(w, w.st.orderDb.sagas[s].order)
      {
        PastItsReservation(w, s);
      }
    }
  }

  // ----- with every product known -----

  /** One fault-free recovery round strictly lowers every saga that is not terminal; each saga that was at its
      payment has a payment row then, and each new row turns out as chosen. */
  lemma RoundLowersEveryOpenSaga(w: World, pays: SagaId -> bool) returns (acts: seq<Act>, v: World)
    requires Reachable(w) && NoneUnknown(w)
    ensures FaultFreePath(w, acts, v) && Reachable(v) && NoneUnknown(v) && PaidAs(w, v, pays)
    ensures forall s :: s in Open(w) ==> Lowered(w, v, s)
    ensures forall s :: s in w.st.orderDb.sagas && s !in Open(w) ==> v.st.orderDb.sagas[s] == w.st.orderDb.sagas[s]
    ensures forall s :: s in w.st.orderDb.sagas && w.st.orderDb.sagas[s].step == ProcessingPayment ==>
      w.st.orderDb.sagas[s].order in v.st.pay.payments
  {
    hide Inv, Reachable, Decidable, NoneUnknown, Path, FairRound;
    ReachableOk(w);
    DecidableIff(w);
    acts, v := FairRoundsExist(w, pays);
    FairRoundMovesEverySaga(w, acts, v);
    ReachableFrom(w, acts, v);
    ReachableOk(v);
    DecidableIff(v);
    forall s | s in w.st.orderDb.sagas && s !in Open(w) ensures v.st.orderDb.sagas[s] == w.st.orderDb.sagas[s] {
      TerminalIsAbsorbing(w, acts, v, s);
    }
    forall s | s in w.st.orderDb.sagas && w.st.orderDb.sagas[s].step == ProcessingPayment
      ensures w.st.orderDb.sagas[s].order in v.st.pay.payments
    {
      assert s in Open(w) && Lowered(w, v, s);
      PastItsPayment(w, acts, v, s);
    }
  }

  lemma PastItsPayment(w: World, acts: seq<Act>, v: World, s: SagaId)
    requires Inv(w) && Path(w, acts, v) && s in w.st.orderDb.sagas && s in v.st.orderDb.sagas
    requires w.st.orderDb.sagas[s].step == ProcessingPayment && Rank(v.st.orderDb.sagas[s].step) < 2
    ensures w.st.orderDb.sagas[s].order in v.st.pay.payments
  {
    hide Inv, Path, OrdersGrow, FactsGrow, StockGrows, Late;
    PathKeeps(w, acts, v);
    SagaFacts(v, s);
    assert SagaGrows(w.st, v.st, s);
    assert Past(w.st, s) by { SagaFacts(w, s); }
  }

  ghost predicate RankAtMost(w: World, n: nat) {
    forall s :: s in w.st.orderDb.sagas ==> Rank(w.st.orderDb.sagas[s].step) <= n
  }

  lemma RoundLowersTheMaximum(w: World, n: nat, pays: SagaId -> bool) returns (acts: seq<Act>, v: World)
    requires Reachable(w) && NoneUnknown(w) && RankAtMost(w, n + 1)
    ensures FaultFreePath(w, acts, v) && Reachable(v) && NoneUnknown(v) && RankAtMost(v, n) && PaidAs(w, v, pays)
  {
    hide Reachable, FaultFreePath, NoneUnknown;
    acts, v := RoundLowersEveryOpenSaga(w, pays);
    forall s | s in v.st.orderDb.sagas ensures Rank(v.st.orderDb.sagas[s].step) <= n {
      if s in Open(w) { assert Lowered(w, v, s); }
    }
  }

  /** How a saga that was started ends: completed exactly when it was billed and its payment went through, where
      a bill that is new since `w` goes through exactly as chosen. */
  ghost predicate EndsAsPaid(w: World, v: World, s: SagaId, pays: SagaId -> bool)
    requires s in w.st.orderDb.sagas
  {
    && s in v.st.orderDb.sagas && v.st.orderDb.sagas[s].step == Done
    && var o := w.st.orderDb.sagas[s].order;
       if o in w.st.pay.payments then v.st.orderDb.sagas[s].status == Completed <==> Charged(w.st, o)
       else v.st.orderDb.sagas[s].status == Completed <==> o in v.st.pay.payments && pays(s)
  }

  lemma SettledEndsAsPaid(w: World, v: World, s: SagaId, pays: SagaId -> bool)
    requires Inv(v) && Settled(v) && PaidAs(w, v, pays) && s in w.st.orderDb.sagas
    ensures EndsAsPaid(w, v, s, pays)
  {
    hide Inv;
    assert NewRowPaidAs(w, v, s, pays);
    SagaFacts(v, s);
  }

  /** From every reachable world without an unknown product, whatever was lost before, three fault-free rounds
      settle every saga, and each ends as its payment, chosen freely unless it exists already, turns out. */
  lemma ThreeRoundsSettleAllSagas(w: World, pays: SagaId -> bool) returns (acts: seq<Act>, v: World)
    requires Reachable(w) && NoneUnknown(w)
    ensures FaultFreePath(w, acts, v) && Settled(v)
    ensures forall s :: s in w.st.orderDb.sagas ==> EndsAsPaid(w, v, s, pays)
  {
    hide Inv, Reachable, FaultFreePath, NoneUnknown, PaidAs, EndsAsPaid;
    ReachableOk(w);
    RankIsAtMostThree(w);
    var xs, t := RoundLowersTheMaximum(w, 2, pays);
    var ys, u := RoundLowersTheMaximum(t, 1, pays);
    var zs;
    zs, v := RoundLowersTheMaximum(u, 0, pays);
    Join(w, xs, t, ys, u);
    Join(w, xs + ys, u, zs, v);
    acts := xs + ys + zs;
    PaidAsJoin(w, t, u, pays);
    PaidAsJoin(w, u, v, pays);
    ReachableOk(v);
    forall s | s in w.st.orderDb.sagas ensures EndsAsPaid(w, v, s, pays) { SettledEndsAsPaid(w, v, s, pays); }
  }

  lemma RankIsAtMostThree(w: World)
    ensures RankAtMost(w, 3)
  {}

  // ----- with an unknown product -----

  lemma ServiceRows(w: World, a: Act)
    requires Enabled(w, a) && !a.CreateSku? && !a.ReserveWrite? && !a.ReleaseWrite?
    ensures Apply(w, a).st.inv.rows == w.st.inv.rows
  {
    hide Judge, Consume, Followup;
    match a {
      case HandleEvent(_) =>
      case CreateOrder(_, _, _, _) =>
      case _ => if OfAHandler(a) { QuietHandler(w, a); } else { QuietService(w, a); }
    }
  }

  lemma WriteRows(w: World, a: Act)
    requires Enabled(w, a) && (a.ReserveWrite? || a.ReleaseWrite?)
    ensures Apply(w, a).st.inv.rows.Keys == w.st.inv.rows.Keys
  {
    hide Logged;
  }

  lemma {:induction false} RowsAreCreated(w: World, acts: seq<Act>, v: World, p: ProductId)
    requires Path(w, acts, v) && p !in w.st.inv.rows
    requires forall i :: 0 <= i < |acts| && acts[i].CreateSku? ==> acts[i].product != p
    ensures p !in v.st.inv.rows
    decreases |acts|
  {
    hide Enabled, DoReserveWrite, DoReleaseWrite, DoHandleEvent;
    if acts != [] {
      var a := acts[0];
      if !a.CreateSku? {
        if a.ReserveWrite? || a.ReleaseWrite? { WriteRows(w, a); } else { ServiceRows(w, a); }
      }
      RowsAreCreated(Apply(w, a), acts[1..], v, p);
    }
  }

  /** However many attempts recovery makes, and whatever else happens: until its product is put on record, a saga
      stays at its reservation. */
  lemma UnknownProductStays(w: World, acts: seq<Act>, v: World, s: SagaId, p: ProductId)
    requires Reachable(w) && Path(w, acts, v) && w.budget >= 1 && s in w.st.orderDb.sagas
    requires w.st.orderDb.sagas[s].order in w.st.orderDb.orders
    requires p == w.st.orderDb.orders[w.st.orderDb.sagas[s].order].product && p !in w.st.inv.rows
    requires forall i :: 0 <= i < |acts| && acts[i].CreateSku? ==> acts[i].product != p
    ensures s in v.st.orderDb.sagas && v.st.orderDb.sagas[s].step == ReservingInventory
  {
    hide Inv, Reachable, Path, FactsGrow, StockGrows, Past, Late;
    ReachableOk(w);
    PathKeeps(w, acts, v);
    RowsAreCreated(w, acts, v, p);
    assert SagaGrows(w.st, v.st, s);
    if v.st.orderDb.sagas[s].step != ReservingInventory { PastItsReservation(v, s); }
  }

  lemma FaultFreeCreatesNothing(w: World, acts: seq<Act>, v: World)
    requires FaultFreePath(w, acts, v)
    ensures Path(w, acts, v) && forall i :: 0 <= i < |acts| ==> !acts[i].CreateSku?
  {
    hide Path;
    forall i | 0 <= i < |acts| ensures !acts[i].CreateSku? { assert acts[i] in acts; }
  }

  /** No saga is ever stuck, exactly: from a reachable world some fault-free run settles every saga if and only if
      none waits for a reservation of an unknown product. */
  lemma SettlesIff(w: World)
    requires Reachable(w)
    ensures (exists acts, v :: FaultFreePath(w, acts, v) && Settled(v)) <==> NoneUnknown(w)
  {
    hide Inv, Reachable, FaultFreePath, Path;
    if NoneUnknown(w) {
      var acts, v := ThreeRoundsSettleAllSagas(w, s => true);
    } else {
      var s :| s in w.st.orderDb.sagas && w.st.orderDb.sagas[s].step == ReservingInventory &&
               !ProductKnown(w, w.st.orderDb.sagas[s].order);
      ReachableOk(w);
      SagaFacts(w, s);
      var p := w.st.orderDb.orders[w.st.orderDb.sagas[s].order].product;
      assert p !in w.st.inv.rows;
      forall acts, v | FaultFreePath(w, acts, v) ensures !Settled(v) {
        FaultFreeCreatesNothing(w, acts, v);
        UnknownProductStays(w, acts, v, s, p);
      }
    }
  }

  /** Such a world: one order, for a product that nobody put on record, and its saga. */
  lemma UnknownProduct() returns (w: World)
    ensures Reachable(w) && w.budget == 1 && Open(w) == {0} && !NoneUnknown(w)
  {
    hide Reachable;
    w := Initial(1);
    Start(w);
    w := Reach(w, CreateOrder(0, 0, 1, 100));
    w := Reach(w, StartSaga(0, 0));
  }
}
