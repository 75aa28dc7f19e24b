/** Stock over every interleaving: the ledger, contention, admission and what settled sagas leave reserved. */
module Stock {
  import opened Types
  import opened InventoryStore
  import opened Protocol
  import opened Invariant
  import opened Runs
  import opened Safety

  lemma LedgerFacts(w: World)
    requires Inv(w)
    ensures StockOk(w.st) && RefusalsOk(w.st, w.budget) && AnswersOk(w.st) && SagasOk(w.st) && RowsOk(w.st)
  {}

  // ----- the ledger -----

  /** Nothing is ever created, lost or oversold. */
  lemma StockLedger(w: World, p: ProductId)
    requires Reachable(w) && p in w.st.inv.rows
    ensures p in w.st.supply
    ensures var row := w.st.inv.rows[p];
      && row.reserved == Net(w.st.inv.logs, p) >= 0
      && row.available >= 0
      && row.available + row.reserved == w.st.supply[p]
      && row.version == Count(w.st.inv.logs, p)
  {
    hide Inv, Reachable, SagasOk, RowsOk, AnswersOk, RefusalsOk;
    ReachableOk(w);
    LedgerFacts(w);
    assert RowOk(w.st, p);
    NetNonNegative(w.st.inv.logs, w.st.orderDb.orders, p);
  }

  /** A release command exists only for an order with a reserve entry of the same product and quantity. */
  lemma ReleaseHasItsReserve(w: World, m: Message)
    requires Reachable(w) && InCirculation(w, m) && m.ReleaseInventory?
    ensures LogEntry(m.product, m.order, Reserve, m.quantity) in w.st.inv.logs
  {
    hide Inv, Reachable, StockOk, RowsOk, AnswersOk, RefusalsOk, InCirculation;
    ReachableOk(w);
    CirculatingOk(w, m);
    SagaFacts(w, m.saga);
    LedgerEntry(w, m.order);
  }

  lemma LedgerEntry(w: World, o: OrderId)
    requires Inv(w) && Holds(w.st, o)
    ensures o in w.st.orderDb.orders
    ensures LogEntry(w.st.orderDb.orders[o].product, o, Reserve, w.st.orderDb.orders[o].quantity) in w.st.inv.logs
  {
    hide Inv, SagasOk, RowsOk, AnswersOk, RefusalsOk;
    LedgerFacts(w);
    EntryOf(w.st.inv.logs, w.st.orderDb.orders, o, Reserve);
  }

  /** The release that is about to commit takes back no more than is reserved: GREATEST never clamps. */
  lemma ReleaseNeverClamps(w: World, o: OrderId)
    requires Reachable(w) && Enabled(w, ReleaseWrite(o))
    ensures var cmd := w.releasing[o];
      && cmd.product in w.st.inv.rows && w.st.inv.rows[cmd.product].reserved >= cmd.quantity
      && ReleaseIn(w.st.inv, cmd.product, o, cmd.quantity).rows[cmd.product].reserved
           == w.st.inv.rows[cmd.product].reserved - cmd.quantity
      && LogEntry(cmd.product, o, Reserve, cmd.quantity) in w.st.inv.logs
      && LogEntry(cmd.product, o, Release, cmd.quantity) !in w.st.inv.logs
  {
    hide Inv, Reachable, SagasOk, RowsOk, AnswersOk, RefusalsOk;
    ReachableOk(w);
    NotYetReleased(w, o);
    ReleasingFacts(w, o);
    SagaFacts(w, w.releasing[o].saga);
    LedgerEntry(w, o);
    LedgerFacts(w);
    NetCovers(w.st.inv.logs, w.st.orderDb.orders, o);
    assert RowOk(w.st, w.releasing[o].product);
    var entry := LogEntry(w.releasing[o].product, o, Release, w.releasing[o].quantity);
    if entry in w.st.inv.logs {
      var i :| 0 <= i < |w.st.inv.logs| && w.st.inv.logs[i] == entry;
      EntryLogged(w.st.inv.logs, i);
    }
  }

  lemma NotYetReleased(w: World, o: OrderId)
    requires Inv(w) && o in w.releasing
    ensures !GaveBack(w.st, o)
  {
    hide StoresOk, MessagesOk, ConsumedOk, RecordsOk, Justified;
    assert ReleaseJobOk(w.st, o, w.releasing[o]);
  }

  // ----- contention -----

  /** The commits on a product by other orders, from a point of the log on. */
  ghost function Rivals(logs: seq<LogEntry>, from: nat, p: ProductId, o: OrderId): set<nat> {
    set i: nat | from <= i < |logs| && logs[i].product == p && logs[i].order != o
  }

  lemma {:induction false} NoEntries(logs: seq<LogEntry>, orders: map<OrderId, Order>, o: OrderId)
    requires LogOk(logs, orders) && o !in Logged(logs, Reserve)
    ensures forall i :: 0 <= i < |logs| ==> logs[i].order != o
  {
    if logs != [] {
      NoEntries(logs[..|logs| - 1], orders, o);
    }
  }

  lemma {:induction false} CountIsRivals(logs: seq<LogEntry>, from: nat, p: ProductId, o: OrderId)
    requires from <= |logs| && forall i :: 0 <= i < |logs| ==> logs[i].order != o
    ensures |Rivals(logs, from, p, o)| == Count(logs, p) - Count(logs[..from], p)
  {
    var n := |logs| - 1;
    if from == |logs| {
      assert logs[..from] == logs;
      assert Rivals(logs, from, p, o) == {};
    } else {
      CountIsRivals(logs[..n], from, p, o);
      assert logs[..n][..from] == logs[..from];
      var before := Rivals(logs[..n], from, p, o);
      assert Rivals(logs, from, p, o) == before + if logs[n].product == p then {n} else {};
    }
  }

  lemma ReservingFacts(w: World, o: OrderId)
    requires Inv(w) && o in w.reserving
    ensures ReserveJobOk(w.st, o, w.reserving[o])
  {}

  /** Every failed attempt of a handler was beaten by its own distinct commit of another order. */
  lemma FailedAttemptsHaveRivals(w: World, o: OrderId)
    requires Reachable(w) && o in w.reserving
    ensures var job := w.reserving[o];
      job.cmd.ReserveInventory? && |Rivals(w.st.inv.logs, job.mark, job.cmd.product, o)| >= job.attempt
  {
    hide Inv, Reachable, SagasOk, RowsOk, AnswersOk, RefusalsOk, Justified;
    ReachableOk(w);
    ReservingFacts(w, o);
    LedgerFacts(w);
    var job := w.reserving[o];
    NoEntries(w.st.inv.logs, w.st.orderDb.orders, o);
    CountIsRivals(w.st.inv.logs, job.mark, job.cmd.product, o);
    if job.phase.HasRead? {
      assert w.st.inv.logs[..job.phase.at] <= w.st.inv.logs;
      CountPrefix(w.st.inv.logs[..job.phase.at], w.st.inv.logs, job.cmd.product);
    }
  }

  /** The commit that beats a write lies inside that attempt's own window, between its read and its write. */
  lemma FailedWriteHasRivalInWindow(w: World, o: OrderId)
    requires Reachable(w) && Enabled(w, ReserveWrite(o))
    requires var job := w.reserving[o];
      !CanReserve(w.st.inv, job.cmd.product, job.phase.version, job.cmd.quantity)
    ensures var job := w.reserving[o];
      |Rivals(w.st.inv.logs, job.phase.at, job.cmd.product, o)| >= 1 && job.mark <= job.phase.at <= |w.st.inv.logs|
  {
    hide Inv, Reachable, SagasOk, RowsOk, AnswersOk, RefusalsOk, Justified;
    ReachableOk(w);
    ReservingFacts(w, o);
    LedgerFacts(w);
    var job := w.reserving[o];
    assert RowOk(w.st, job.cmd.product);
    NoEntries(w.st.inv.logs, w.st.orderDb.orders, o);
    CountIsRivals(w.st.inv.logs, job.phase.at, job.cmd.product, o);
  }

  /** Fewer rival commits than the budget: never refused for contention. */
  lemma ContentionRefusalNeedsBudgetRivals(w: World, o: OrderId)
    requires Reachable(w) && Enabled(w, ReserveExhausted(o))
    ensures |Rivals(w.st.inv.logs, w.reserving[o].mark, w.reserving[o].cmd.product, o)| >= w.budget
  {
    hide Reachable;
    FailedAttemptsHaveRivals(w, o);
  }

  // ----- admission -----

  /** What is granted and not returned never exceeds the supply, and is exactly what left the shelf. */
  lemma GrantsFitTheSupply(w: World, p: ProductId)
    requires Reachable(w) && p in w.st.inv.rows
    ensures p in w.st.supply && Outstanding(w.st.inv.logs, p) <= w.st.orderDb.orders.Keys
    ensures SumQty(w.st.orderDb.orders, Outstanding(w.st.inv.logs, p)) == w.st.supply[p] - w.st.inv.rows[p].available
    ensures SumQty(w.st.orderDb.orders, Outstanding(w.st.inv.logs, p)) <= w.st.supply[p]
  {
    hide Inv, Reachable, SagasOk, RowsOk, AnswersOk, RefusalsOk;
    ReachableOk(w);
    LedgerFacts(w);
    assert RowOk(w.st, p);
    NetIsOutstanding(w.st.inv.logs, w.st.orderDb.orders, p);
  }

  /** With no release of the product and a budget of at least its supply, every order ever refused asks
      for more than is left. */
  lemma RefusedAsksForMoreThanRemains(w: World, o: OrderId)
    requires Reachable(w) && Refused(w.st, o)
    ensures o in w.st.orderDb.orders
    ensures var p := w.st.orderDb.orders[o].product;
      p in w.st.inv.rows && NoReleases(w.st.inv.logs, p) && p in w.st.supply && w.budget >= w.st.supply[p] ==>
        w.st.orderDb.orders[o].quantity > w.st.inv.rows[p].available
  {
    hide Inv, Reachable, SagasOk, RowsOk, AnswersOk, StockOk, NoReleases;
    ReachableOk(w);
    LedgerFacts(w);
    assert RefusalFair(w.st, w.budget, o);
  }

  ghost function OrdersOf(w: World, p: ProductId): set<OrderId> {
    set o | o in w.st.orderDb.orders && w.st.orderDb.orders[o].product == p
  }

  function Min(a: int, b: int): int {
    if a <= b then a else b
  }

  /** Unit orders, all answered: exactly min(n, S) of n orders hold stock, whatever the interleaving. */
  lemma ExactlyMinSucceed(w: World, p: ProductId)
    requires Reachable(w) && p in w.st.inv.rows && p in w.st.supply
    requires NoReleases(w.st.inv.logs, p) && w.budget >= w.st.supply[p]
    requires forall o :: o in OrdersOf(w, p) ==>
      w.st.orderDb.orders[o].quantity == 1 && o in w.st.answers && w.st.answers[o] != []
    ensures |Outstanding(w.st.inv.logs, p)| == Min(|OrdersOf(w, p)|, w.st.supply[p])
    ensures forall o :: o in Outstanding(w.st.inv.logs, p) <==> o in OrdersOf(w, p) && Holds(w.st, o)
    ensures w.st.inv.rows[p].available == w.st.supply[p] - Min(|OrdersOf(w, p)|, w.st.supply[p])
  {
    hide Inv, Reachable, SagasOk, RowsOk, StockOk, RefusalsOk;
    var all, held := OrdersOf(w, p), Outstanding(w.st.inv.logs, p);
    HeldOrders(w, p);
    GrantsFitTheSupply(w, p);
    StockLedger(w, p);
    SumQtyAtLeast(w.st.orderDb.orders, held);
    CardinalityMonotone(held, all);
    ReachableOk(w);
    LedgerFacts(w);
    if o :| o in all && Refused(w.st, o) {
      RefusedAsksForMoreThanRemains(w, o);
    } else {
      forall o | o in all ensures o in held {
        var first := w.st.answers[o][0];
        assert first in w.st.answers[o];
        assert first;
      }
      assert held == all;
    }
  }

  lemma {:induction false} CardinalityMonotone<T>(a: set<T>, b: set<T>)
    requires a <= b
    ensures |a| <= |b|
  {
    assert b == a + (b - a);
  }

  lemma {:induction false} ReleasesAreEntries(logs: seq<LogEntry>, orders: map<OrderId, Order>, p: ProductId,
                                              o: OrderId)
    requires LogOk(logs, orders) && NoReleases(logs, p) && o in Logged(logs, Release)
    ensures o in orders && orders[o].product != p
  {
    EntryOf(logs, orders, o, Release);
    var i :| 0 <= i < |logs| && logs[i] == LogEntry(orders[o].product, o, Release, orders[o].quantity);
  }

  lemma HeldOrders(w: World, p: ProductId)
    requires Reachable(w) && NoReleases(w.st.inv.logs, p)
    ensures forall o :: o in Outstanding(w.st.inv.logs, p) <==> o in OrdersOf(w, p) && Holds(w.st, o)
  {
    hide Inv, Reachable, SagasOk, RowsOk, AnswersOk, RefusalsOk, NoReleases;
    ReachableOk(w);
    LedgerFacts(w);
    OutstandingIs(w.st.inv.logs, w.st.orderDb.orders, p);
    forall o | o in OrdersOf(w, p) && Holds(w.st, o) ensures !GaveBack(w.st, o) {
      if GaveBack(w.st, o) { ReleasesAreEntries(w.st.inv.logs, w.st.orderDb.orders, p, o); }
    }
  }

  // ----- what settled sagas leave reserved -----

  ghost predicate Settled(w: World) {
    forall s :: s in w.st.orderDb.sagas ==> w.st.orderDb.sagas[s].step == Done
  }

  ghost function OrdersIn(w: World, p: ProductId, status: SagaStatus): set<OrderId> {
    set s | s in w.st.orderDb.sagas && w.st.orderDb.sagas[s].status == status
            && w.st.orderDb.sagas[s].order in OrdersOf(w, p) :: w.st.orderDb.sagas[s].order
  }

  /** Orders of failed sagas that still hold stock. */
  ghost function Stranded(w: World, p: ProductId): set<OrderId> {
    OrdersIn(w, p, Failed) * Outstanding(w.st.inv.logs, p)
  }

  lemma OutstandingFacts(w: World, p: ProductId)
    requires Inv(w)
    ensures forall o :: o in Outstanding(w.st.inv.logs, p) <==>
      o in OrdersOf(w, p) && Holds(w.st, o) && !GaveBack(w.st, o)
    ensures forall o :: Holds(w.st, o) ==> o in Owners(w.st.orderDb)
  {
    hide Inv, SagasOk, AnswersOk, RefusalsOk;
    LedgerFacts(w);
    OutstandingIs(w.st.inv.logs, w.st.orderDb.orders, p);
  }

  lemma SettledHolders(w: World, p: ProductId)
    requires Reachable(w) && Settled(w)
    ensures Outstanding(w.st.inv.logs, p) == OrdersIn(w, p, Completed) + Stranded(w, p)
    ensures OrdersIn(w, p, Completed) !! Stranded(w, p)
  {
    hide Inv, Reachable;
    ReachableOk(w);
    OutstandingFacts(w, p);
    forall o | o in Outstanding(w.st.inv.logs, p) ensures o in OrdersIn(w, p, Completed) + Stranded(w, p) {
      var s :| s in w.st.orderDb.sagas && w.st.orderDb.sagas[s].order == o;
      SagaFacts(w, s);
    }
    forall o | o in OrdersIn(w, p, Completed)
      ensures o in Outstanding(w.st.inv.logs, p) && o !in OrdersIn(w, p, Failed)
    {
      var s :| s in w.st.orderDb.sagas && w.st.orderDb.sagas[s].status == Completed && w.st.orderDb.sagas[s].order == o;
      SagaFacts(w, s);
      forall t | t in w.st.orderDb.sagas && w.st.orderDb.sagas[t].order == o ensures t == s {
        OneSaga(w, s, t);
      }
    }
  }

  lemma {:induction false} SumQtySplit(orders: map<OrderId, Order>, a: set<OrderId>, b: set<OrderId>)
    requires a + b <= orders.Keys && a !! b
    ensures SumQty(orders, a + b) == SumQty(orders, a) + SumQty(orders, b)
  {
    if b == {} {
      assert a + b == a;
    } else {
      var o :| o in b;
      SumQtyRemove(orders, a + b, o);
      SumQtyRemove(orders, b, o);
      SumQtySplit(orders, a, b - {o});
      assert a + b - {o} == a + (b - {o});
    }
  }

  /** Once every saga is terminal, a product's reserved quantity is what its completed orders bought plus
      what failed sagas hold; it is exactly the former if and only if no failed saga holds any. */
  lemma SettledReservation(w: World, p: ProductId)
    requires Reachable(w) && Settled(w) && p in w.st.inv.rows
    ensures OrdersIn(w, p, Completed) + Stranded(w, p) <= w.st.orderDb.orders.Keys
    ensures w.st.inv.rows[p].reserved ==
      SumQty(w.st.orderDb.orders, OrdersIn(w, p, Completed)) + SumQty(w.st.orderDb.orders, Stranded(w, p))
    ensures w.st.inv.rows[p].reserved == SumQty(w.st.orderDb.orders, OrdersIn(w, p, Completed)) <==>
      Stranded(w, p) == {}
  {
    hide Inv, Reachable, Settled, SagasOk, RefusalsOk, AnswersOk, OrdersIn, Stranded;
    SettledHolders(w, p);
    GrantsFitTheSupply(w, p);
    StockLedger(w, p);
    ReachableOk(w);
    LedgerFacts(w);
    SumQtySplit(w.st.orderDb.orders, OrdersIn(w, p, Completed), Stranded(w, p));
    SumQtyAtLeast(w.st.orderDb.orders, Stranded(w, p));
  }

  /** All or nothing: if no order of the product was granted stock after a refusal and no release of one was
      answered as failed, settled sagas leave reserved exactly what the completed orders bought. */
  lemma AllOrNothing(w: World, p: ProductId)
    requires Reachable(w) && Settled(w) && p in w.st.inv.rows
    requires forall o :: o in OrdersOf(w, p) && o in w.st.answers && false in w.st.answers[o] ==>
      true !in w.st.answers[o]
    requires OrdersOf(w, p) !! w.st.releaseRefused
    ensures OrdersIn(w, p, Completed) <= w.st.orderDb.orders.Keys
    ensures w.st.inv.rows[p].reserved == SumQty(w.st.orderDb.orders, OrdersIn(w, p, Completed))
  {
    hide Inv, Reachable, Settled, OrdersIn, SumQty;
    SettledReservation(w, p);
    ReachableOk(w);
    if o :| o in Stranded(w, p) {
      StrandedReason(w, p, o);
      assert false;
    }
  }

  /** A failed saga's order holds stock only after a late grant or a refused release. */
  lemma StrandedReason(w: World, p: ProductId, o: OrderId)
    requires Inv(w) && o in Stranded(w, p)
    ensures o in OrdersOf(w, p) && ((Refused(w.st, o) && true in w.st.answers[o]) || o in w.st.releaseRefused)
  {
    hide Inv, RefusalsOk, StockOk, RowsOk, SagasOk;
    OutstandingFacts(w, p);
    LedgerFacts(w);
    var s :| s in w.st.orderDb.sagas && w.st.orderDb.sagas[s].status == Failed && w.st.orderDb.sagas[s].order == o;
    SagaFacts(w, s);
  }
}
