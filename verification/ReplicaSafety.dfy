/**
 * What does not need the assumption that one inventory handler at a time works on an order: with any number of
 * replicas, on every course, the guarantees of the orders and payments side hold as they do in Safety.
 */
module ReplicaSafety {
  import opened Types
  import opened OrderStore
  import opened InventoryStore
  import opened Protocol
  import opened Invariant
  import opened Safety
  import opened Replicas
  import opened ReplicaFacts
  import opened ReplicaFollow

  lemma Reflected(c: Fleet) returns (x: World)
    requires Attainable(c)
    ensures Inv(x) && Looks(c.w, x) && Covers(c.w.st, x.st)
  {
    hide Inv, Mirrored;
    var y, supply;
    x, y, supply := MirrorsOf(c, [], c);
    MirroredHasInv(c, x, supply);
  }

  lemma SameCirculation(w: World, x: World, m: Message)
    requires Looks(w, x)
    ensures InCirculation(w, m) <==> InCirculation(x, m)
  {}

  /** All payment events of an order, at any two moments of a course, carry its one row. */
  lemma FleetPaymentAgreement(c: Fleet, ts: seq<Turn>, d: Fleet, early: Message, late: Message)
    requires Attainable(c) && Course(c, ts, d)
    requires early.PaymentProcessed? && InCirculation(c.w, early)
    requires late.PaymentProcessed? && InCirculation(d.w, late)
    requires early.order == late.order
    ensures early.tx == late.tx && early.success == late.success && early.saga == late.saga
    ensures var o := early.order;
      && o in c.w.st.pay.payments && o in d.w.st.pay.payments
      && d.w.st.pay.payments[o] == c.w.st.pay.payments[o] && d.w.st.pay.payments[o].tx == late.tx
  {
    hide Inv, Course, Attainable, Mirrored, SagasGrow, OrdersGrow, StockGrows, InCirculation;
    var x, y, supply := MirrorsOf(c, ts, d);
    MirroredHasInv(c, x, supply);
    MirroredHasInv(d, y, supply);
    SameCirculation(c.w, x, early);
    SameCirculation(d.w, y, late);
    CirculatingOk(x, early);
    CirculatingOk(y, late);
    SameOwner(x, y, early.saga, late.saga, early.order);
  }

  lemma PaymentsStay(x: World, y: World, o: OrderId)
    requires Mono(x, y) && o in x.st.pay.payments
    ensures o in y.st.pay.payments && y.st.pay.payments[o] == x.st.pay.payments[o]
  {
    hide OrdersGrow, SagasGrow, StockGrows;
  }

  /** No replica has a release in flight for an order that was paid. */
  lemma NoReleaseOfPaid(d: Fleet, y: World, supply: int, o: OrderId, k: nat)
    requires FleetOk(d) && Mirrored(d, y, supply) && Charged(y.st, o)
    ensures o !in TableOf(d, k).releasing
  {
    hide CommandsOk, Mirrors, JobOk, CommandOk, Inv;
    MirroredHasInv(d, y, supply);
    assert TableOk(d.w.st, TableOf(d, k)) && TableJustified(y.st, TableOf(d, k));
    if o in TableOf(d, k).releasing { LateIsDeclined(y, TableOf(d, k).releasing[o].saga); }
  }

  /** Once an order is paid, at no later moment of any course does a release command or answer, a release entry, a
      release in flight at any replica or a compensating saga exist for it. */
  lemma FleetPaidIsNeverReleased(c: Fleet, ts: seq<Turn>, d: Fleet, o: OrderId)
    requires Attainable(c) && Course(c, ts, d) && Charged(c.w.st, o)
    ensures Charged(d.w.st, o) && !GaveBack(d.w.st, o) && forall k :: o !in TableOf(d, k).releasing
    ensures forall m: Message :: InCirculation(d.w, m) && m.order == o ==> !m.ReleaseInventory? && !m.InventoryReleased?
    ensures forall s :: s in d.w.st.orderDb.sagas && d.w.st.orderDb.sagas[s].order == o ==>
      d.w.st.orderDb.sagas[s].status != Compensating && d.w.st.orderDb.sagas[s].status != Compensated
  {
    hide Inv, Mono, Course, Attainable, Mirrored, FleetOk, InCirculation, Logged;
    var x, y, supply := MirrorsOf(c, ts, d);
    MirroredHasInv(c, x, supply);
    MirroredHasInv(d, y, supply);
    PaymentsStay(x, y, o);
    ChargedMeansNoCompensation(y, o);
    LaterIsAttainable(c, ts, d);
    AttainableOk(d);
    forall m: Message | InCirculation(d.w, m) ensures InCirculation(y, m) { SameCirculation(d.w, y, m); }
    forall k ensures o !in TableOf(d, k).releasing { NoReleaseOfPaid(d, y, supply, o, k); }
  }

  lemma LaterIsAttainable(c: Fleet, ts: seq<Turn>, d: Fleet)
    requires Attainable(c) && Course(c, ts, d)
    ensures Attainable(d)
  {
    hide Course;
    var budget, before :| Course(Unstarted(budget), before, c);
    CourseConcat(Unstarted(budget), before, c, ts, d);
  }

  /** Once a release command exists, the payment is declined, and stays so. */
  lemma FleetReleasedIsNeverPaid(c: Fleet, ts: seq<Turn>, d: Fleet, m: Message)
    requires Attainable(c) && Course(c, ts, d) && InCirculation(c.w, m) && m.ReleaseInventory?
    ensures Declined(d.w.st, m.order) && !Charged(d.w.st, m.order)
  {
    hide Inv, Mono, Course, Attainable, Mirrored, InCirculation, Logged;
    var x, y, supply := MirrorsOf(c, ts, d);
    MirroredHasInv(c, x, supply);
    MirroredHasInv(d, y, supply);
    SameCirculation(c.w, x, m);
    CirculatingOk(x, m);
    LateIsDeclined(x, m.saga);
    PaymentsStay(x, y, m.order);
  }

  /** Every event in circulation belongs to a saga at or past its step, and takes effect exactly at its step. */
  lemma FleetSkipsAreOnlyLate(c: Fleet, id: MsgId)
    requires Attainable(c) && id in c.w.sent && c.w.sent[id].IsEvent()
    ensures var db, ev := c.w.st.orderDb, c.w.sent[id];
      && ev.saga in db.sagas && Rank(db.sagas[ev.saga].step) <= Rank(ev.Answers())
      && !Judge(db, id, ev).Rejected?
      && (Judge(db, id, ev).Applied? <==> db.sagas[ev.saga].step == ev.Answers())
  {
    hide Inv, Attainable, Judge;
    var x := Reflected(c);
    OnlyLate(x, id);
  }

  /** Every message agrees with its saga's own order row. */
  lemma FleetCorrelation(c: Fleet, m: Message)
    requires Attainable(c) && InCirculation(c.w, m)
    ensures Addressed(c.w.st, m.saga, m.order)
    ensures (m.ReserveInventory? || m.InventoryReserved? || m.ReleaseInventory? || m.InventoryReleased?) ==>
      Copies(c.w.st, m.order, m.product, m.quantity)
    ensures m.ProcessPayment? ==> c.w.st.orderDb.orders[m.order].amount == m.amount
  {
    hide Inv, Attainable, InCirculation;
    var x := Reflected(c);
    SameCirculation(c.w, x, m);
    CirculatingOk(x, m);
  }

  lemma FleetSixCombinations(c: Fleet, s: SagaId)
    requires Attainable(c) && s in c.w.st.orderDb.sagas
    ensures c.w.st.orderDb.sagas[s].order in c.w.st.orderDb.orders
    ensures exists phase ::
      InPhase(c.w.st.orderDb.sagas[s], c.w.st.orderDb.orders[c.w.st.orderDb.sagas[s].order], phase)
  {
    hide Inv, Attainable, InPhase;
    var x := Reflected(c);
    InSomePhase(x, s);
  }

  lemma FleetTerminalIsAbsorbing(c: Fleet, ts: seq<Turn>, d: Fleet, s: SagaId)
    requires Attainable(c) && Course(c, ts, d) && s in c.w.st.orderDb.sagas && c.w.st.orderDb.sagas[s].step == Done
    ensures s in d.w.st.orderDb.sagas && d.w.st.orderDb.sagas[s] == c.w.st.orderDb.sagas[s]
  {
    hide Inv, Course, Attainable, Mirrored, OrdersGrow, FactsGrow, StockGrows;
    var x, y, supply := MirrorsOf(c, ts, d);
    MirroredHasInv(c, x, supply);
    MirroredHasInv(d, y, supply);
    assert SagaGrows(x.st, y.st, s);
  }

  /** A terminal state is recorded at most once per saga. */
  lemma FleetRecordedOnce(c: Fleet, s: SagaId, one: SagaStatus, other: SagaStatus)
    requires Attainable(c)
    ensures c.w.recorded[(s, one)] <= 1
    ensures (s, one) in c.w.recorded && (s, other) in c.w.recorded ==> one == other
  {
    hide Attainable, StoresOk, MessagesOk, JobsOk, ConsumedOk;
    var x := Reflected(c);
    assert (s, one) in x.recorded ==> Terminal(x.st, (s, one).0, (s, one).1);
    assert (s, other) in x.recorded ==> Terminal(x.st, (s, other).0, (s, other).1);
  }
}
