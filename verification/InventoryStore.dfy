/** The inventory database: one row per product and the append-only reserve/release log. */
module InventoryStore {
  import opened Types

  datatype InventoryDb = InventoryDb(rows: map<ProductId, Inventory>, logs: seq<LogEntry>)

  function Greatest(a: int, b: int): int {
    if a >= b then a else b
  }

  /** The WHERE clause of the optimistic update. */
  predicate CanReserve(db: InventoryDb, p: ProductId, expectedVersion: int, qty: int) {
    p in db.rows && db.rows[p].version == expectedVersion && db.rows[p].available >= qty
  }

  function ReserveIn(db: InventoryDb, p: ProductId, o: OrderId, expectedVersion: int, qty: int): InventoryDb {
    if CanReserve(db, p, expectedVersion, qty) then
      var row := db.rows[p];
      InventoryDb(db.rows[p := Inventory(row.available - qty, row.reserved + qty, row.version + 1)],
                  db.logs + [LogEntry(p, o, Reserve, qty)])
    else db
  }

  function ReleaseIn(db: InventoryDb, p: ProductId, o: OrderId, qty: int): InventoryDb {
    if p in db.rows then
      var row := db.rows[p];
      InventoryDb(db.rows[p := Inventory(row.available + qty, Greatest(row.reserved - qty, 0), row.version + 1)],
                  db.logs + [LogEntry(p, o, Release, qty)])
    else db
  }

  class InventoryRepository {
    var rows: map<ProductId, Inventory>
    var logs: seq<LogEntry>

    function Db(): InventoryDb
      reads this
    {
      InventoryDb(rows, logs)
    }

    constructor ()
      ensures Db() == InventoryDb(map[], [])
    {
      rows, logs := map[], [];
    }

    method Create(p: ProductId, available: int) returns (r: Result<()>)
      modifies this
      ensures r.Ok? <==> p !in old(rows)
      ensures r.Ok? ==> Db() == InventoryDb(old(rows)[p := Inventory(available, 0, 0)], old(logs))
      ensures r.Err? ==> Db() == old(Db())
    {
      if p in rows { return Err(DuplicateKey); }
      rows := rows[p := Inventory(available, 0, 0)];
      r := Ok(());
    }

    method GetByProductId(p: ProductId) returns (r: Result<Inventory>)
      ensures r == if p in rows then Ok(rows[p]) else Err(ProductNotFound)
    {
      if p in rows { return Ok(rows[p]); }
      r := Err(ProductNotFound);
    }

    method ReserveAtomic(p: ProductId, o: OrderId, expectedVersion: int, qty: int) returns (rowsAffected: nat)
      modifies this
      ensures Db() == ReserveIn(old(Db()), p, o, expectedVersion, qty)
      ensures rowsAffected == if CanReserve(old(Db()), p, expectedVersion, qty) then 1 else 0
    {
      rowsAffected := 0;
      if p in rows && rows[p].version == expectedVersion && rows[p].available >= qty {
        var row := rows[p];
        row := row.(available := row.available - qty, reserved := row.reserved + qty);
        rows := rows[p := row.(version := row.version + 1)];
        rowsAffected := 1;
      }
      if rowsAffected == 0 { return; }
      logs := logs + [LogEntry(p, o, Reserve, qty)];
    }

    method ReleaseAtomic(p: ProductId, o: OrderId, qty: int) returns (rowsAffected: nat)
      modifies this
      ensures Db() == ReleaseIn(old(Db()), p, o, qty)
      ensures rowsAffected == if p in old(rows) then 1 else 0
    {
      rowsAffected := 0;
      if p in rows {
        var row := rows[p];
        row := row.(available := row.available + qty, reserved := Greatest(row.reserved - qty, 0));
        rows := rows[p := row.(version := row.version + 1)];
        rowsAffected := 1;
      }
      if rowsAffected == 0 { return; }
      logs := logs + [LogEntry(p, o, Release, qty)];
    }

    /** Whether the log has an entry of this order and action. */
    method Exists(o: OrderId, action: Action) returns (found: bool)
      ensures found <==> o in Logged(logs, action)
    {
      LoggedIff(logs, o, action);
      found := exists i :: 0 <= i < |logs| && logs[i].order == o && logs[i].action == action;
    }
  }

  // ----- reading the log -----

  /** The orders with a log entry of this action. */
  function Logged(logs: seq<LogEntry>, action: Action): set<OrderId> {
    if logs == [] then {}
    else
      var n := |logs| - 1;
      Logged(logs[..n], action) + if logs[n].action == action then {logs[n].order} else {}
  }

  /** Reserved minus released quantity of a product. */
  function Net(logs: seq<LogEntry>, p: ProductId): int {
    if logs == [] then 0
    else
      var e := logs[|logs| - 1];
      Net(logs[..|logs| - 1], p) +
      if e.product != p then 0 else if e.action == Reserve then e.quantity else -e.quantity
  }

  /** Number of log entries of a product. */
  function Count(logs: seq<LogEntry>, p: ProductId): nat {
    if logs == [] then 0
    else Count(logs[..|logs| - 1], p) + if logs[|logs| - 1].product == p then 1 else 0
  }

  predicate NoReleases(logs: seq<LogEntry>, p: ProductId) {
    forall i :: 0 <= i < |logs| && logs[i].product == p ==> logs[i].action == Reserve
  }

  /** The orders that hold stock of a product: reserved and not yet released. */
  function Outstanding(logs: seq<LogEntry>, p: ProductId): set<OrderId> {
    if logs == [] then {}
    else
      var e, before := logs[|logs| - 1], Outstanding(logs[..|logs| - 1], p);
      if e.product != p then before else if e.action == Reserve then before + {e.order} else before - {e.order}
  }

  /** Each entry copies its order's product and quantity, a reserve is the order's first entry,
      and a release follows a reserve and no other release. */
  predicate LogOk(logs: seq<LogEntry>, orders: map<OrderId, Order>) {
    logs == [] ||
    var e, before := logs[|logs| - 1], logs[..|logs| - 1];
    && LogOk(before, orders)
    && e.order in orders && e.product == orders[e.order].product && e.quantity == orders[e.order].quantity
    && e.quantity >= 1
    && e.order !in Logged(before, e.action)
    && (e.action == Release ==> e.order in Logged(before, Reserve))
  }

  lemma {:induction false} LoggedIff(logs: seq<LogEntry>, o: OrderId, action: Action)
    ensures o in Logged(logs, action) <==> exists i :: 0 <= i < |logs| && logs[i].order == o && logs[i].action == action
  {
    if logs != [] {
      LoggedIff(logs[..|logs| - 1], o, action);
    }
  }

  lemma LoggedAppend(logs: seq<LogEntry>, e: LogEntry, action: Action)
    ensures Logged(logs + [e], action) == Logged(logs, action) + if e.action == action then {e.order} else {}
  {
    assert (logs + [e])[..|logs|] == logs;
  }

  lemma {:induction false} LoggedPrefix(before: seq<LogEntry>, logs: seq<LogEntry>, action: Action)
    requires before <= logs
    ensures Logged(before, action) <= Logged(logs, action)
  {
    if before != logs {
      LoggedPrefix(before, logs[..|logs| - 1], action);
    }
  }

  /** Everything one more entry changes. */
  lemma EntryAppended(logs: seq<LogEntry>, e: LogEntry, p: ProductId)
    ensures Net(logs + [e], p) ==
            Net(logs, p) + if e.product != p then 0 else if e.action == Reserve then e.quantity else -e.quantity
    ensures Count(logs + [e], p) == Count(logs, p) + if e.product == p then 1 else 0
    ensures Outstanding(logs + [e], p) ==
            if e.product != p then Outstanding(logs, p)
            else if e.action == Reserve then Outstanding(logs, p) + {e.order}
            else Outstanding(logs, p) - {e.order}
  {
    assert (logs + [e])[..|logs|] == logs;
  }

  lemma AppendOk(logs: seq<LogEntry>, e: LogEntry, orders: map<OrderId, Order>)
    requires LogOk(logs, orders)
    requires e.order in orders && e.product == orders[e.order].product && e.quantity == orders[e.order].quantity
    requires e.quantity >= 1 && e.order !in Logged(logs, e.action)
    requires e.action == Release ==> e.order in Logged(logs, Reserve)
    ensures LogOk(logs + [e], orders)
  {
    assert (logs + [e])[..|logs|] == logs;
  }

  /** A well-formed log stays so when orders are added or only change status. */
  lemma {:induction false} LogOkMonotone(logs: seq<LogEntry>, orders: map<OrderId, Order>, later: map<OrderId, Order>)
    requires LogOk(logs, orders)
    requires forall o :: o in orders ==>
      o in later && later[o].product == orders[o].product && later[o].quantity == orders[o].quantity
    ensures LogOk(logs, later)
  {
    if logs != [] {
      LogOkMonotone(logs[..|logs| - 1], orders, later);
    }
  }

  lemma {:induction false} CountPrefix(before: seq<LogEntry>, logs: seq<LogEntry>, p: ProductId)
    requires before <= logs
    ensures Count(before, p) <= Count(logs, p)
    ensures Count(before, p) < Count(logs, p) ==>
      exists i :: |before| <= i < |logs| && logs[i].product == p
  {
    if before != logs {
      CountPrefix(before, logs[..|logs| - 1], p);
    }
  }

  lemma {:induction false} OutstandingIs(logs: seq<LogEntry>, orders: map<OrderId, Order>, p: ProductId)
    requires LogOk(logs, orders)
    ensures Outstanding(logs, p) <= orders.Keys
    ensures Logged(logs, Reserve) <= orders.Keys && Logged(logs, Release) <= Logged(logs, Reserve)
    ensures forall o :: o in Outstanding(logs, p) <==>
      o in Logged(logs, Reserve) && o !in Logged(logs, Release) && orders[o].product == p
  {
    if logs != [] {
      OutstandingIs(logs[..|logs| - 1], orders, p);
    }
  }

  // ----- sums over orders -----

  ghost function SumQty(orders: map<OrderId, Order>, s: set<OrderId>): int
    requires s <= orders.Keys
  {
    if s == {} then 0
    else
      var o :| o in s;
      orders[o].quantity + SumQty(orders, s - {o})
  }

  lemma {:induction false} SumQtyRemove(orders: map<OrderId, Order>, s: set<OrderId>, o: OrderId)
    requires s <= orders.Keys && o in s
    ensures SumQty(orders, s) == orders[o].quantity + SumQty(orders, s - {o})
  {
    var x :| x in s && SumQty(orders, s) == orders[x].quantity + SumQty(orders, s - {x});
    if x != o {
      SumQtyRemove(orders, s - {x}, o);
      SumQtyRemove(orders, s - {o}, x);
      assert s - {x} - {o} == s - {o} - {x};
    }
  }

  lemma {:induction false} SumQtyAtLeast(orders: map<OrderId, Order>, s: set<OrderId>)
    requires s <= orders.Keys && forall o :: o in s ==> orders[o].quantity >= 1
    ensures SumQty(orders, s) >= |s|
    ensures (forall o :: o in s ==> orders[o].quantity == 1) ==> SumQty(orders, s) == |s|
  {
    if s != {} {
      var o :| o in s;
      SumQtyRemove(orders, s, o);
      SumQtyAtLeast(orders, s - {o});
    }
  }

  /** The log's balance is what the holding orders asked for. */
  lemma {:induction false} NetIsOutstanding(logs: seq<LogEntry>, orders: map<OrderId, Order>, p: ProductId)
    requires LogOk(logs, orders)
    ensures Outstanding(logs, p) <= orders.Keys
    ensures Net(logs, p) == SumQty(orders, Outstanding(logs, p))
    ensures forall o :: o in Outstanding(logs, p) ==> orders[o].quantity >= 1
  {
    if logs != [] {
      var before, e := logs[..|logs| - 1], logs[|logs| - 1];
      NetIsOutstanding(before, orders, p);
      OutstandingIs(before, orders, p);
      if e.product == p {
        if e.action == Reserve {
          SumQtyRemove(orders, Outstanding(logs, p), e.order);
          assert Outstanding(logs, p) - {e.order} == Outstanding(before, p);
        } else {
          SumQtyRemove(orders, Outstanding(before, p), e.order);
        }
      }
    }
  }

  /** A balance covers every order that still holds stock, so releasing one never drives it below zero. */
  lemma NetCovers(logs: seq<LogEntry>, orders: map<OrderId, Order>, o: OrderId)
    requires LogOk(logs, orders)
    requires o in Logged(logs, Reserve) && o !in Logged(logs, Release)
    ensures o in orders && Net(logs, orders[o].product) >= orders[o].quantity
  {
    OutstandingIs(logs, orders, 0);
    var p := orders[o].product;
    OutstandingIs(logs, orders, p);
    NetIsOutstanding(logs, orders, p);
    SumQtyRemove(orders, Outstanding(logs, p), o);
    SumQtyAtLeast(orders, Outstanding(logs, p) - {o});
  }

  lemma NetNonNegative(logs: seq<LogEntry>, orders: map<OrderId, Order>, p: ProductId)
    requires LogOk(logs, orders)
    ensures Net(logs, p) >= 0
  {
    NetIsOutstanding(logs, orders, p);
    SumQtyAtLeast(orders, Outstanding(logs, p));
  }

  /** With no release, every entry took at least one unit. */
  lemma {:induction false} NetAtLeastCount(logs: seq<LogEntry>, orders: map<OrderId, Order>, p: ProductId)
    requires LogOk(logs, orders) && NoReleases(logs, p)
    ensures Net(logs, p) >= Count(logs, p)
  {
    if logs != [] {
      NetAtLeastCount(logs[..|logs| - 1], orders, p);
    }
  }
}
