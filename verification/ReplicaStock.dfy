/**
 * What two replicas at work on one order do to the stock: a second reservation is decided by the attempts and the
 * stock that are left, a second release always goes through, and releases beyond what is reserved create stock.
 */
module ReplicaStock {
  import opened Types
  import opened OrderStore
  import opened InventoryStore
  import opened Protocol
  import opened LateGrant
  import opened LateReturn
  import opened Claims
  import opened Stranding
  import opened Replicas
  import opened ReplicaFacts
  import opened ReplicaGround

  // ----- the second reservation -----

  /** The turn goes on with replica `k`'s reserve handler for the order. */
  predicate GoesOn(t: Turn, k: nat, o: OrderId) {
    t.replica == k && (t.act == ReserveRead(o) || t.act == ReserveWrite(o) || t.act == ReserveExhausted(o))
  }

  /** The handler, left alone, will be granted: there is stock, and either what it read is still current or it has
      an attempt left to read again. */
  predicate WillBeGranted(w: World, job: ReserveJob)
    requires job.cmd.ReserveInventory?
  {
    && job.cmd.product in w.st.inv.rows && w.st.inv.rows[job.cmd.product].available >= job.cmd.quantity
    && match job.phase
       case Ready => job.attempt < w.budget
       case HasRead(version, _, _) =>
         version == w.st.inv.rows[job.cmd.product].version || job.attempt + 1 < w.budget
  }

  /** One step of a handler left alone: it is done, and was granted if it was to be, or goes on with the same fate. */
  lemma AloneStep(w: World, a: Act, o: OrderId)
    requires Enabled(w, a) && (a == ReserveRead(o) || a == ReserveWrite(o) || a == ReserveExhausted(o))
    ensures o in w.reserving && w.reserving[o].cmd.ReserveInventory?
    ensures var v, job := Apply(w, a), w.reserving[o];
      var granted := a == ReserveWrite(o) && PassesGuard(w, o);
      if o in v.reserving then
        && !granted && v.reserving[o].cmd == job.cmd
        && (WillBeGranted(v, v.reserving[o]) <==> WillBeGranted(w, job))
      else granted <==> WillBeGranted(w, job)
  {
    hide ReserveIn;
  }

  lemma {:induction false} AloneAdds(c: Fleet, ts: seq<Turn>, d: Fleet, k: nat, o: OrderId)
    requires Course(c, ts, d) && forall i :: 0 <= i < |ts| ==> GoesOn(ts[i], k, o)
    requires o in TableOf(c, k).reserving && o !in TableOf(d, k).reserving
    ensures var job := TableOf(c, k).reserving[o];
      && job.cmd.ReserveInventory?
      && EntriesOf(d, o, Reserve) == EntriesOf(c, o, Reserve) + if WillBeGranted(c.w, job) then 1 else 0
    decreases |ts|
  {
    hide Enabled, Apply, EntriesOf, PassesGuard;
    var t := ts[0];
    var e := Next(c, t);
    AloneStep(View(c, k), t.act, o);
    ViewsAfter(c, t);
    TurnEntries(c, t, o, Reserve);
    if o in TableOf(e, k).reserving {
      AloneAdds(e, ts[1..], d, k, o);
    } else {
      NothingGoesOn(e, ts[1..], d, k, o);
    }
  }

  lemma NothingGoesOn(c: Fleet, ts: seq<Turn>, d: Fleet, k: nat, o: OrderId)
    requires Course(c, ts, d) && (forall i :: 0 <= i < |ts| ==> GoesOn(ts[i], k, o)) && o !in TableOf(c, k).reserving
    ensures ts == []
  {}

  predicate AttemptLeft(job: ReserveJob, budget: int) {
    job.attempt + (if job.phase.Ready? then 0 else 1) < budget
  }

  /** Replica `k` was past its look at the log when another replica's reservation of the same order committed by
      turn `t`. Left alone after that, it reserves the quantity again exactly when it has an attempt left and there
      was stock for both; what it read before is stale. */
  lemma SecondReservationIff(c: Fleet, t: Turn, ts: seq<Turn>, d: Fleet, k: nat, o: OrderId)
    requires Attainable(c) && CanTake(c, t) && Lands(c, t, o, Reserve)
    requires k != t.replica && InFlight(c, k, o, Reserve)
    requires Course(Next(c, t), ts, d) && (forall i :: 0 <= i < |ts| ==>
      GoesOn(ts[i], k, o)) && !InFlight(d, k, o, Reserve)
    ensures var job := TableOf(c, k).reserving[o];
      && job.cmd.ReserveInventory? && job.cmd.product in c.w.st.inv.rows
      && (EntriesOf(d, o, Reserve) == EntriesOf(c, o, Reserve) + 2 <==>
            AttemptLeft(job, c.w.budget) && c.w.st.inv.rows[job.cmd.product].available >= 2 * job.cmd.quantity)
  {
    hide CanTake, Next, EntriesOf, FleetOk, Attainable;
    AttainableOk(c);
    TurnEntries(c, t, o, Reserve);
    ViewsAfter(c, t);
    AfterRivalCommit(c, t, k, o);
    AloneAdds(Next(c, t), ts, d, k, o);
  }

  /** After the rival's commit the other handler's row is stale and its stock is down by the same quantity. */
  lemma AfterRivalCommit(c: Fleet, t: Turn, k: nat, o: OrderId)
    requires FleetOk(c) && CanTake(c, t) && Lands(c, t, o, Reserve)
    requires k != t.replica && InFlight(c, k, o, Reserve)
    ensures var job := TableOf(c, k).reserving[o];
      && job.cmd.ReserveInventory? && job.cmd.product in c.w.st.inv.rows
      && (WillBeGranted(Next(c, t).w, job) <==>
            AttemptLeft(job, c.w.budget) && c.w.st.inv.rows[job.cmd.product].available >= 2 * job.cmd.quantity)
  {
    hide CommandsOk, Logged;
    assert TableOk(c.w.st, TableOf(c, k)) && TableOk(c.w.st, TableOf(c, t.replica));
    assert JobOk(c.w.st, o, TableOf(c, k).reserving[o]);
    assert JobOk(c.w.st, o, TableOf(c, t.replica).reserving[o]);
  }

  // ----- the second release -----

  /** A replica past its look at the log releases whatever others have released: its write is always possible and
      always adds an entry. */
  lemma SecondReleaseAlwaysLands(c: Fleet, k: nat, o: OrderId)
    requires Attainable(c) && InFlight(c, k, o, Release)
    ensures CanTake(c, Turn(k, ReleaseWrite(o)))
    ensures EntriesOf(Next(c, Turn(k, ReleaseWrite(o))), o, Release) == EntriesOf(c, o, Release) + 1
  {
    hide Attainable, EntriesOf;
    ReleasesHaveTheirReserve(c, k, o);
    TurnEntries(c, Turn(k, ReleaseWrite(o)), o, Release);
  }

  // ----- created stock -----

  function OnHand(w: World, p: ProductId): int
    requires p in w.st.inv.rows
  {
    w.st.inv.rows[p].available + w.st.inv.rows[p].reserved
  }

  /** The turn releases more of the product than is reserved, so that GREATEST clamps. */
  ghost predicate Clamps(c: Fleet, t: Turn, p: ProductId) {
    && t.act.ReleaseWrite? && Releases(View(c, t.replica), t.act.order)
    && var cmd := TableOf(c, t.replica).releasing[t.act.order];
       cmd.product == p && c.w.st.inv.rows[p].reserved < cmd.quantity
  }

  ghost predicate ClampsSomewhere(c: Fleet, ts: seq<Turn>, d: Fleet, p: ProductId)
    requires Course(c, ts, d)
    decreases |ts|
  {
    ts != [] && (Clamps(c, ts[0], p) || ClampsSomewhere(Next(c, ts[0]), ts[1..], d, p))
  }

  /** The supply on record is never more than what is on hand. */
  ghost predicate Supplied(w: World, p: ProductId) {
    && (p in w.st.inv.rows <==> p in w.st.supply)
    && (p in w.st.inv.rows ==> OnHand(w, p) >= w.st.supply[p])
  }

  lemma ReleaseOnHand(w: World, o: OrderId, p: ProductId)
    requires Enabled(w, ReleaseWrite(o))
    ensures var v, cmd := Apply(w, ReleaseWrite(o)), w.releasing[o];
      && v.st.supply == w.st.supply && v.st.inv.rows.Keys == w.st.inv.rows.Keys
      && (p in w.st.inv.rows ==>
            OnHand(v, p) == OnHand(w, p)
                            + if cmd.product == p then Greatest(cmd.quantity - w.st.inv.rows[p].reserved, 0) else 0)
  {
    hide Logged;
  }

  lemma WriteOnHand(w: World, o: OrderId, p: ProductId)
    requires Enabled(w, ReserveWrite(o))
    ensures var v := Apply(w, ReserveWrite(o));
      && v.st.supply == w.st.supply && v.st.inv.rows.Keys == w.st.inv.rows.Keys
      && (p in w.st.inv.rows ==> OnHand(v, p) == OnHand(w, p))
  {
    hide Logged, AnswerReserve;
  }

  lemma QuietOnHand(w: World, a: Act)
    requires Enabled(w, a) && !a.ReserveWrite? && !a.ReleaseWrite? && !a.CreateSku?
    ensures Apply(w, a).st.inv == w.st.inv && Apply(w, a).st.supply == w.st.supply
  {
    hide Logged, Judge, Consume, Followup;
    match a {
      case HandleEvent(_) =>
      case CreateOrder(_, _, _, _) =>
      case _ => if OfAHandler(a) { QuietHandler(w, a); } else { QuietService(w, a); }
    }
  }

  /** One turn creates stock exactly when it clamps. */
  lemma TurnOnHand(c: Fleet, t: Turn, p: ProductId)
    requires CanTake(c, t) && Supplied(c.w, p)
    ensures Supplied(Next(c, t).w, p)
    ensures p in c.w.st.inv.rows ==>
      && p in Next(c, t).w.st.inv.rows && Next(c, t).w.st.supply[p] == c.w.st.supply[p]
      && OnHand(Next(c, t).w, p) >= OnHand(c.w, p)
      && (OnHand(Next(c, t).w, p) > OnHand(c.w, p) <==> Clamps(c, t, p))
    ensures p !in c.w.st.inv.rows && p in Next(c, t).w.st.inv.rows ==>
      OnHand(Next(c, t).w, p) == Next(c, t).w.st.supply[p] && !Clamps(c, t, p)
  {
    hide DoReserveWrite, DoReleaseWrite;
    var w := View(c, t.replica);
    match t.act {
      case ReserveWrite(o) => WriteOnHand(w, o, p);
      case ReleaseWrite(o) => ReleaseOnHand(w, o, p);
      case CreateSku(_, _) =>
      case _ => QuietOnHand(w, t.act);
    }
  }

  lemma {:induction false} CourseOnHand(c: Fleet, ts: seq<Turn>, d: Fleet, p: ProductId)
    requires Course(c, ts, d) && Supplied(c.w, p)
    ensures Supplied(d.w, p)
    ensures p in c.w.st.inv.rows ==>
      && p in d.w.st.inv.rows && d.w.st.supply[p] == c.w.st.supply[p]
      && OnHand(d.w, p) >= OnHand(c.w, p)
      && (OnHand(d.w, p) > OnHand(c.w, p) <==> ClampsSomewhere(c, ts, d, p))
    ensures p !in c.w.st.inv.rows && p in d.w.st.inv.rows ==>
      (OnHand(d.w, p) > d.w.st.supply[p] <==> ClampsSomewhere(c, ts, d, p))
    decreases |ts|
  {
    hide CanTake, Next, Clamps;
    if ts != [] {
      TurnOnHand(c, ts[0], p);
      if p !in c.w.st.inv.rows { NoRowNoClamp(c, ts[0], p); }
      CourseOnHand(Next(c, ts[0]), ts[1..], d, p);
    }
  }

  lemma NoRowNoClamp(c: Fleet, t: Turn, p: ProductId)
    requires p !in c.w.st.inv.rows
    ensures !Clamps(c, t, p)
  {}

  /** With any number of replicas, stock is created from nothing exactly when some release of the product took back
      more than was reserved; it is never destroyed. */
  lemma StockIsCreatedIff(budget: int, ts: seq<Turn>, d: Fleet, p: ProductId)
    requires Course(Unstarted(budget), ts, d) && p in d.w.st.inv.rows
    ensures p in d.w.st.supply && OnHand(d.w, p) >= d.w.st.supply[p]
    ensures OnHand(d.w, p) > d.w.st.supply[p] <==> ClampsSomewhere(Unstarted(budget), ts, d, p)
  {
    hide Course, ClampsSomewhere;
    CourseOnHand(Unstarted(budget), ts, d, p);
  }

  ghost predicate ReservedNonNegative(st: Stores) {
    forall p :: p in st.inv.rows ==> st.inv.rows[p].reserved >= 0
  }

  lemma WriteReserved(w: World, o: OrderId)
    requires Enabled(w, ReserveWrite(o)) && ReservedNonNegative(w.st) && w.reserving[o].cmd.quantity >= 1
    ensures ReservedNonNegative(Apply(w, ReserveWrite(o)).st)
  {
    hide Logged;
  }

  lemma ReleaseReserved(w: World, o: OrderId)
    requires Enabled(w, ReleaseWrite(o)) && ReservedNonNegative(w.st)
    ensures ReservedNonNegative(Apply(w, ReleaseWrite(o)).st)
  {
    hide Logged;
  }

  lemma TurnReserved(c: Fleet, t: Turn)
    requires FleetOk(c) && CanTake(c, t) && ReservedNonNegative(c.w.st)
    ensures ReservedNonNegative(Next(c, t).w.st)
  {
    hide Enabled, CommandsOk, DoReserveWrite, DoReleaseWrite, DoHandleEvent;
    var w := View(c, t.replica);
    assert TableOk(c.w.st, TableOf(c, t.replica));
    match t.act {
      case ReserveWrite(o) =>
        CommitterHasJob(w, o);
        assert JobOk(c.w.st, o, TableOf(c, t.replica).reserving[o]);
        WriteReserved(w, o);
      case ReleaseWrite(o) => ReleaseReserved(w, o);
      case CreateSku(_, _) =>
      case _ => QuietOnHand(w, t.act);
    }
  }

  lemma CommitterHasJob(w: World, o: OrderId)
    requires Enabled(w, ReserveWrite(o))
    ensures o in w.reserving && w.reserving[o].cmd.ReserveInventory?
  {}

  lemma {:induction false} CourseReserved(c: Fleet, ts: seq<Turn>, d: Fleet)
    requires Course(c, ts, d) && FleetOk(c) && ReservedNonNegative(c.w.st)
    ensures ReservedNonNegative(d.w.st)
    decreases |ts|
  {
    hide CanTake, Next, FleetOk;
    if ts != [] {
      TurnReserved(c, ts[0]);
      TurnKeeps(c, ts[0]);
      CourseReserved(Next(c, ts[0]), ts[1..], d);
    }
  }

  lemma AttainableReserved(c: Fleet)
    requires Attainable(c)
    ensures ReservedNonNegative(c.w.st)
  {
    hide Course;
    var budget, ts :| Course(Unstarted(budget), ts, c);
    CourseReserved(Unstarted(budget), ts, c);
  }

  /** Two releases of one order, one after the other: what is on hand stays the same exactly when twice the quantity
      was reserved, so that the second took back what other orders hold; otherwise the shortfall is created. */
  lemma TwoReleasesCreate(c: Fleet, j: nat, k: nat, o: OrderId)
    requires Attainable(c) && j != k && InFlight(c, j, o, Release) && InFlight(c, k, o, Release)
    ensures CanTake(c, Turn(j, ReleaseWrite(o)))
    ensures CanTake(Next(c, Turn(j, ReleaseWrite(o))), Turn(k, ReleaseWrite(o)))
    ensures TableOf(c, j).releasing[o].ReleaseInventory?
    ensures var p, qty := TableOf(c, j).releasing[o].product, TableOf(c, j).releasing[o].quantity;
      var d := Next(Next(c, Turn(j, ReleaseWrite(o))), Turn(k, ReleaseWrite(o)));
      && p in c.w.st.inv.rows && p in d.w.st.inv.rows
      && OnHand(d.w, p) == OnHand(c.w, p) + Greatest(2 * qty - c.w.st.inv.rows[p].reserved, 0)
      && (OnHand(d.w, p) == OnHand(c.w, p) <==> c.w.st.inv.rows[p].reserved >= 2 * qty)
  {
    hide CommandsOk, Logged, Attainable, JobOk, Entries;
    AttainableOk(c);
    AttainableReserved(c);
    ReleasesHaveTheirReserve(c, j, o);
    assert TableOk(c.w.st, TableOf(c, j)) && TableOk(c.w.st, TableOf(c, k));
    ViewsAfter(c, Turn(j, ReleaseWrite(o)));
  }

  // ----- explicit courses -----

  lemma BothLooked() returns (c: Fleet)
    ensures Attainable(c) && c.w.budget == 1 && c.w.st.inv == InventoryDb(map[0 := Inventory(2, 0, 0)], [])
    ensures c.w.st.orderDb.orders == map[0 := Order(0, 1, 100, OrderPending), 1 := Order(0, 1, 100, OrderPending)]
    ensures TableOf(c, 0).reserving == map[0 := ReserveJob(First, 0, Ready, 0)]
    ensures TableOf(c, 1).reserving == map[0 := ReserveJob(First, 0, Ready, 0)]
  {
    hide Attainable;
    var w := Commanded();
    c := LiftReachable(w);
    assert TableOf(c, 1) == Table(map[], map[]);
    c := TakeTurn(c, Turn(0, ReserveStart(0)));
    c := TakeTurn(c, Turn(1, ReserveStart(0)));
  }

  lemma FirstRead() returns (c: Fleet)
    ensures Attainable(c) && c.w.budget == 1 && c.w.st.inv == InventoryDb(map[0 := Inventory(2, 0, 0)], [])
    ensures c.w.st.orderDb.orders == map[0 := Order(0, 1, 100, OrderPending), 1 := Order(0, 1, 100, OrderPending)]
    ensures TableOf(c, 0).reserving == map[0 := ReserveJob(First, 0, HasRead(0, 2, 0), 0)]
    ensures TableOf(c, 1).reserving == map[0 := ReserveJob(First, 0, Ready, 0)]
  {
    hide Attainable;
    c := BothLooked();
    c := TakeTurn(c, Turn(0, ReserveRead(0)));
  }

  /** The first replica has reserved; the second has not read the row yet. */
  lemma FirstOfTwo() returns (c: Fleet)
    ensures Attainable(c) && c.w.budget == 1
    ensures c.w.st.inv == InventoryDb(map[0 := Inventory(1, 1, 1)], [LogEntry(0, 0, Reserve, 1)])
    ensures c.w.st.orderDb.orders == map[0 := Order(0, 1, 100, OrderPending), 1 := Order(0, 1, 100, OrderPending)]
    ensures TableOf(c, 1).reserving == map[0 := ReserveJob(First, 0, Ready, 0)]
  {
    hide Attainable;
    c := FirstRead();
    c := TakeTurn(c, Turn(0, ReserveWrite(0)));
    assert c.w.st.inv.logs == [LogEntry(0, 0, Reserve, 1)];
  }

  lemma SecondRead() returns (c: Fleet)
    ensures Attainable(c) && c.w.budget == 1
    ensures c.w.st.inv == InventoryDb(map[0 := Inventory(1, 1, 1)], [LogEntry(0, 0, Reserve, 1)])
    ensures c.w.st.orderDb.orders == map[0 := Order(0, 1, 100, OrderPending), 1 := Order(0, 1, 100, OrderPending)]
    ensures TableOf(c, 1).reserving == map[0 := ReserveJob(First, 0, HasRead(1, 1, 1), 0)]
  {
    hide Attainable;
    c := FirstOfTwo();
    c := TakeTurn(c, Turn(1, ReserveRead(0)));
  }

  /** An order of one unit with two reserve entries, and two units gone. */
  lemma OrderReservedTwice() returns (c: Fleet)
    ensures Attainable(c) && EntriesOf(c, 0, Reserve) == 2
    ensures 0 in c.w.st.orderDb.orders && c.w.st.orderDb.orders[0].quantity == 1
    ensures c.w.st.inv.rows == map[0 := Inventory(0, 2, 2)]
  {
    hide Attainable;
    c := SecondRead();
    var write, e := Turn(1, ReserveWrite(0)), LogEntry(0, 0, Reserve, 1);
    EntriesAppend([], e, 0, Reserve);
    assert c.w.st.inv.logs == [] + [e];
    TurnEntries(c, write, 0, Reserve);
    c := TakeTurn(c, write);
  }

  lemma BothReleasing() returns (c: Fleet)
    ensures Attainable(c) && c.w.st.inv == Taken && c.w.st.supply == map[0 := 1]
    ensures TableOf(c, 0).releasing == map[0 := Release1] && TableOf(c, 1).releasing == map[0 := Release1]
  {
    hide Attainable;
    var w := Returning();
    c := LiftReachable(w);
    assert TableOf(c, 1) == Table(map[], map[]);
    c := TakeTurn(c, Turn(0, ReleaseStart(4)));
    c := TakeTurn(c, Turn(1, ReleaseStart(4)));
  }

  lemma OneReleased() returns (c: Fleet)
    ensures Attainable(c) && c.w.st.supply == map[0 := 1]
    ensures c.w.st.inv.rows == map[0 := Inventory(1, 0, 2)]
    ensures TableOf(c, 1).releasing == map[0 := Release1]
  {
    hide Attainable;
    c := BothReleasing();
    c := TakeTurn(c, Turn(0, ReleaseWrite(0)));
  }

  /** A supply of one unit, and two units available. */
  lemma StockFromNothing() returns (c: Fleet)
    ensures Attainable(c) && c.w.st.supply == map[0 := 1]
    ensures c.w.st.inv.rows == map[0 := Inventory(2, 0, 3)]
  {
    hide Attainable;
    c := OneReleased();
    c := TakeTurn(c, Turn(1, ReleaseWrite(0)));
  }
}
