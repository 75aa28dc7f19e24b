/**
 * What the orders and payments side can tell apart: with any number of inventory replicas, every course looks, to the
 * orders database, the payments database and everything in circulation, like a world that keeps the invariant of
 * Invariant. In the mirror each order is refused before it is granted and fails to give back before it does, so
 * that every answer any replica may give is accounted for, and stock is supplied for all orders at once.
 */
module ReplicaMirror {
  import opened Types
  import opened InventoryStore
  import opened Protocol
  import opened Invariant
  import opened Preservation
  import opened Stock

  // ----- changing the stock side of the mirror only -----

  /** Only stock records, answers and refused releases differ. */
  ghost predicate StockOnly(w: World, v: World) {
    v == w.(st := w.st.(inv := v.st.inv, supply := v.st.supply, answers := v.st.answers,
                        releaseRefused := v.st.releaseRefused))
  }

  /** Each product in the mirror has the same supply, enough for all orders. */
  ghost predicate Ample(w: World, supply: int) {
    && w.budget == -1 && supply >= 0
    && (forall p :: p in w.st.supply ==> w.st.supply[p] == supply)
    && SumQty(w.st.orderDb.orders, w.st.orderDb.orders.Keys) <= supply
  }

  /** An order that holds stock was refused before, and one that gave it back had failed to before. */
  ghost predicate Hedged(st: Stores) {
    && (forall o :: o in Logged(st.inv.logs, Reserve) ==> o in st.answers && false in st.answers[o])
    && (forall o :: o in Logged(st.inv.logs, Release) ==> o in st.releaseRefused)
  }

  ghost predicate Prepared(w: World, v: World, supply: int) {
    Inv(v) && Mono(w, v) && StockOnly(w, v) && Ample(v, supply) && Hedged(v.st)
  }

  lemma {:induction false} SumQtyGrows(
    a: map<OrderId, Order>, sa: set<OrderId>, b: map<OrderId, Order>, sb: set<OrderId>)
    requires sa <= sb && sa <= a.Keys && sb <= b.Keys
    requires forall o :: o in sa ==> a[o].quantity == b[o].quantity
    requires forall o :: o in sb ==> b[o].quantity >= 1
    ensures SumQty(a, sa) <= SumQty(b, sb)
    decreases |sa|
  {
    if sa == {} {
      SumQtyAtLeast(b, sb);
    } else {
      var o :| o in sa;
      SumQtyRemove(a, sa, o);
      SumQtyRemove(b, sb, o);
      SumQtyGrows(a, sa - {o}, b, sb - {o});
    }
  }

  /** An order that holds nothing still fits. */
  lemma Fits(w: World, o: OrderId, supply: int)
    requires Inv(w) && Ample(w, supply) && o in w.st.orderDb.orders && !Holds(w.st, o)
    requires w.st.orderDb.orders[o].product in w.st.inv.rows
    ensures w.st.inv.rows[w.st.orderDb.orders[o].product].available >= w.st.orderDb.orders[o].quantity
  {
    hide Inv, SagasOk, AnswersOk, RefusalsOk, PaymentsOk;
    LedgerFacts(w);
    var orders, p := w.st.orderDb.orders, w.st.orderDb.orders[o].product;
    var held := Outstanding(w.st.inv.logs, p);
    assert RowOk(w.st, p);
    OutstandingIs(w.st.inv.logs, orders, p);
    NetIsOutstanding(w.st.inv.logs, orders, p);
    SumQtyRemove(orders, held + {o}, o);
    assert held + {o} - {o} == held;
    SumQtyGrows(orders, held + {o}, orders, orders.Keys);
  }

  /** The message was answered and its publish dropped: nothing of it remains but the answer. */
  lemma DropAnswer(w: World, v: World, m: Message) returns (u: World)
    requires Inv(v) && Mono(w, v) && v.owed == w.owed + multiset{Publish(m)}
    ensures u == v.(owed := w.owed) && Inv(u) && Mono(w, u)
  {
    hide Inv, Mono;
    u := v.(owed := v.owed - multiset{Publish(m)});
    assert u.owed == w.owed;
    DropKeeps(v, u, Publish(m));
    MonoTransitive(w, v, u);
  }

  lemma Refuse(w: World, cmd: Message, supply: int) returns (v: World)
    requires Inv(w) && Ample(w, supply) && Hedged(w.st) && w.reserving == map[]
    requires cmd.ReserveInventory? && Justified(w.st, cmd)
    ensures Prepared(w, v, supply) && Refused(v.st, cmd.order) && v.st.inv == w.st.inv
  {
    hide Inv, Mono, Logged, Justified;
    if Refused(w.st, cmd.order) {
      v := w;
      NothingKept(w);
    } else {
      JustifiedHasOrder(w.st, cmd);
      FairWithoutBudget(w, cmd.order);
      var u := AnswerReserve(w, cmd, false);
      AnswerReserveKeeps(w, u, cmd, false);
      v := DropAnswer(w, u, InventoryReserved(cmd.saga, cmd.order, cmd.product, cmd.quantity, false));
      AnswerAppended(w, cmd);
    }
  }

  lemma JustifiedHasOrder(st: Stores, m: Message)
    requires Justified(st, m)
    ensures m.order in st.orderDb.orders
    ensures (m.ReserveInventory? || m.ReleaseInventory?) ==> Copies(st, m.order, m.product, m.quantity)
  {}

  lemma FairWithoutBudget(w: World, o: OrderId)
    requires Inv(w) && w.budget == -1 && o in w.st.orderDb.orders
    requires forall p :: p in w.st.supply ==> w.st.supply[p] >= 0
    ensures RefusalFair(w.st, w.budget, o)
  {
    hide Inv;
  }

  lemma AnswerAppended(w: World, cmd: Message)
    requires cmd.ReserveInventory?
    ensures var v := AnswerReserve(w, cmd, false);
      && Refused(v.st, cmd.order) && v.st.inv == w.st.inv && (Hedged(w.st) ==> Hedged(v.st))
      && StockOnly(w, v.(owed := w.owed, reserving := w.reserving))
  {
    hide Logged;
    var answers := AnswerReserve(w, cmd, false).st.answers[cmd.order];
    assert answers[|answers| - 1] == false;
  }

  lemma PutOnRecord(w: World, p: ProductId, supply: int) returns (v: World)
    requires Inv(w) && Ample(w, supply) && Hedged(w.st)
    ensures Prepared(w, v, supply) && p in v.st.inv.rows && v.st.inv.logs == w.st.inv.logs
    ensures v.st.answers == w.st.answers
  {
    hide Inv, Mono, Logged;
    if p in w.st.inv.rows {
      v := w;
      NothingKept(w);
    } else {
      SuppliedTogether(w);
      v := DoCreateSku(w, p, supply);
      CreateSkuKeeps(w, v, p, supply);
    }
  }

  lemma SuppliedTogether(w: World)
    requires Inv(w)
    ensures w.st.inv.rows.Keys == w.st.supply.Keys
  {}

  /** A handler that has just read the row. */
  function Reader(w: World, cmd: Message): ReserveJob
    requires cmd.ReserveInventory? && cmd.product in w.st.inv.rows
  {
    var row := w.st.inv.rows[cmd.product];
    ReserveJob(cmd, 0, HasRead(row.version, row.available, |w.st.inv.logs|), |w.st.inv.logs|)
  }

  lemma AddReader(w: World, cmd: Message) returns (v: World)
    requires Inv(w) && w.reserving == map[] && cmd.ReserveInventory? && Justified(w.st, cmd) && !Holds(w.st, cmd.order)
    requires cmd.product in w.st.inv.rows && w.st.inv.rows[cmd.product].available >= cmd.quantity
    ensures v == w.(reserving := map[cmd.order := Reader(w, cmd)]) && Inv(v) && Mono(w, v)
  {
    hide SagasOk, PaymentsOk, AnswersOk, RefusalsOk, RowsOk;
    hide ReleaseJobOk, PayJobOk, ItemOk, TaskOk, ConsumedOk, RecordsOk, Mono, Justified;
    v := w.(reserving := map[cmd.order := Reader(w, cmd)]);
    assert RowOk(w.st, cmd.product);
    assert w.st.inv.logs[..|w.st.inv.logs|] == w.st.inv.logs;
    TrafficKept(w, v);
  }

  lemma WriteIsStockOnly(w: World, cmd: Message)
    requires w.reserving == map[] && cmd.ReserveInventory? && cmd.product in w.st.inv.rows
    requires w.st.inv.rows[cmd.product].available >= cmd.quantity
    ensures var v := DoReserveWrite(w.(reserving := map[cmd.order := Reader(w, cmd)]), Reader(w, cmd));
      && v.owed == w.owed + multiset{Publish(InventoryReserved(cmd.saga, cmd.order, cmd.product, cmd.quantity, true))}
      && StockOnly(w, v.(owed := w.owed)) && v.st.supply == w.st.supply
      && Logged(v.st.inv.logs, Reserve) == Logged(w.st.inv.logs, Reserve) + {cmd.order}
      && Logged(v.st.inv.logs, Release) == Logged(w.st.inv.logs, Release)
      && (Refused(w.st, cmd.order) && Hedged(w.st) ==> Refused(v.st, cmd.order) && Hedged(v.st))
  {
    hide Logged;
    var e := LogEntry(cmd.product, cmd.order, Reserve, cmd.quantity);
    LoggedAppend(w.st.inv.logs, e, Reserve);
    LoggedAppend(w.st.inv.logs, e, Release);
    if Refused(w.st, cmd.order) {
      var i :| 0 <= i < |w.st.answers[cmd.order]| && !w.st.answers[cmd.order][i];
      assert !(w.st.answers[cmd.order] + [true])[i];
    }
  }

  lemma GrantRefused(w: World, cmd: Message, supply: int) returns (v: World)
    requires Inv(w) && Ample(w, supply) && Hedged(w.st) && w.reserving == map[] && Refused(w.st, cmd.order)
    requires cmd.ReserveInventory? && Justified(w.st, cmd) && !Holds(w.st, cmd.order)
    requires cmd.product in w.st.inv.rows
    ensures Prepared(w, v, supply) && Holds(v.st, cmd.order)
  {
    hide Inv, Mono, Logged, Justified, DoReserveWrite;
    JustifiedHasOrder(w.st, cmd);
    Fits(w, cmd.order, supply);
    var u := AddReader(w, cmd);
    var t := DoReserveWrite(u, Reader(w, cmd));
    GrantKeeps(u, t, cmd.order);
    MonoTransitive(w, u, t);
    WriteIsStockOnly(w, cmd);
    v := DropAnswer(w, t, InventoryReserved(cmd.saga, cmd.order, cmd.product, cmd.quantity, true));
  }

  lemma PreparedThen(w: World, u: World, v: World, supply: int)
    requires Prepared(w, u, supply) && Prepared(u, v, supply)
    ensures Prepared(w, v, supply)
  {
    hide Inv, Mono, Hedged;
    MonoTransitive(w, u, v);
  }

  /** After this the order has been refused and holds stock. */
  lemma Grant(w: World, cmd: Message, supply: int) returns (v: World)
    requires Inv(w) && Ample(w, supply) && Hedged(w.st) && w.reserving == map[]
    requires cmd.ReserveInventory? && Justified(w.st, cmd)
    ensures Prepared(w, v, supply) && Holds(v.st, cmd.order)
  {
    hide Inv, Mono, Hedged, Ample, Justified, Holds, Refused, Grows;
    var u := Refuse(w, cmd, supply);
    if Holds(u.st, cmd.order) {
      v := u;
    } else {
      var t := PutOnRecord(u, cmd.product, supply);
      PreparedThen(w, u, t, supply);
      JustifiedLater(w, t, cmd);
      SameLogs(u.st, t.st, cmd.order);
      v := GrantRefused(t, cmd, supply);
      PreparedThen(w, t, v, supply);
    }
  }

  lemma JustifiedLater(w: World, v: World, m: Message)
    requires Mono(w, v) && Justified(w.st, m)
    ensures Justified(v.st, m)
  {
    hide Grows, Justified;
    JustifiedGrows(w.st, v.st, m);
  }

  lemma SameLogs(a: Stores, b: Stores, o: OrderId)
    requires a.inv.logs == b.inv.logs && a.answers == b.answers
    ensures Holds(a, o) <==> Holds(b, o)
    ensures Refused(a, o) <==> Refused(b, o)
  {}

  // ----- giving back -----

  lemma AddReleaser(w: World, cmd: Message) returns (v: World)
    requires Inv(w) && w.releasing == map[] && cmd.ReleaseInventory? && Justified(w.st, cmd)
    requires !GaveBack(w.st, cmd.order)
    ensures v == w.(releasing := map[cmd.order := cmd]) && Inv(v) && Mono(w, v)
  {
    hide StoresOk, ReserveJobOk, PayJobOk, ItemOk, TaskOk, ConsumedOk, RecordsOk, Mono, Justified, Logged;
    v := w.(releasing := map[cmd.order := cmd]);
    TrafficKept(w, v);
  }

  lemma ErrorIsStockOnly(w: World, cmd: Message)
    requires w.releasing == map[] && cmd.ReleaseInventory?
    ensures var v := AnswerRelease(w.(releasing := map[cmd.order := cmd]), cmd, false);
      && v.owed == w.owed + multiset{Publish(InventoryReleased(cmd.saga, cmd.order, cmd.product, cmd.quantity, false))}
      && StockOnly(w, v.(owed := w.owed)) && v.st.inv == w.st.inv && v.st.supply == w.st.supply
      && cmd.order in v.st.releaseRefused && (Hedged(w.st) ==> Hedged(v.st))
  {
    hide Logged;
  }

  /** After this a release of the order has failed. */
  lemma FailRelease(w: World, cmd: Message, supply: int) returns (v: World)
    requires Inv(w) && Ample(w, supply) && Hedged(w.st) && w.releasing == map[]
    requires cmd.ReleaseInventory? && Justified(w.st, cmd)
    ensures Prepared(w, v, supply) && cmd.order in v.st.releaseRefused && v.st.inv == w.st.inv
  {
    hide Inv, Mono, Logged, Justified, AnswerRelease;
    if cmd.order in w.st.releaseRefused {
      v := w;
      NothingKept(w);
    } else {
      var u := AddReleaser(w, cmd);
      var t := AnswerRelease(u, cmd, false);
      ReleaseErrorKeeps(u, t, cmd.order);
      MonoTransitive(w, u, t);
      ErrorIsStockOnly(w, cmd);
      v := DropAnswer(w, t, InventoryReleased(cmd.saga, cmd.order, cmd.product, cmd.quantity, false));
    }
  }

  lemma ReleaseIsStockOnly(w: World, cmd: Message)
    requires w.releasing == map[] && cmd.ReleaseInventory? && cmd.product in w.st.inv.rows
    requires cmd.order in w.st.releaseRefused
    ensures var v := DoReleaseWrite(w.(releasing := map[cmd.order := cmd]), cmd);
      && v.owed == w.owed + multiset{Publish(InventoryReleased(cmd.saga, cmd.order, cmd.product, cmd.quantity, true))}
      && StockOnly(w, v.(owed := w.owed)) && v.st.supply == w.st.supply
      && (Hedged(w.st) ==> Hedged(v.st))
  {
    hide Logged;
    var e := LogEntry(cmd.product, cmd.order, Release, cmd.quantity);
    LoggedAppend(w.st.inv.logs, e, Reserve);
    LoggedAppend(w.st.inv.logs, e, Release);
  }

  /** After this a release of the order has failed, and then one has gone through. */
  lemma GiveBack(w: World, cmd: Message, supply: int) returns (v: World)
    requires Inv(w) && Ample(w, supply) && Hedged(w.st) && w.releasing == map[]
    requires cmd.ReleaseInventory? && Justified(w.st, cmd)
    ensures Prepared(w, v, supply) && GaveBack(v.st, cmd.order)
  {
    hide Inv, Mono, Logged, Justified, DoReleaseWrite, Grows;
    var u := FailRelease(w, cmd, supply);
    JustifiedLater(w, u, cmd);
    if GaveBack(u.st, cmd.order) {
      v := u;
    } else {
      var r := AddReleaser(u, cmd);
      var t := DoReleaseWrite(r, cmd);
      ReleaseWriteKeeps(r, t, cmd.order);
      MonoTransitive(u, r, t);
      ReleaseIsStockOnly(u, cmd);
      v := DropAnswer(u, t, InventoryReleased(cmd.saga, cmd.order, cmd.product, cmd.quantity, true));
      PreparedThen(w, u, v, supply);
    }
  }
}
