/**
 * The same services without the assumption that one inventory handler at a time works on an order: any number of
 * replicas of the inventory service, each with in-flight handlers of its own, over the same databases. Nothing in
 * the log keeps two replicas from both finding no entry of an order and then both writing one.
 */
module Replicas {
  import opened Types
  import opened OrderStore
  import opened InventoryStore
  import opened Protocol
  import opened Runs
  import opened Claims
  import opened Stranding

  /** The handlers in flight at one replica. */
  datatype Table = Table(reserving: map<OrderId, ReserveJob>, releasing: map<OrderId, Message>)

  /** `w` is what the replicas share; its own in-flight tables are not read. */
  datatype Fleet = Fleet(w: World, tables: map<nat, Table>)

  datatype Turn = Turn(replica: nat, act: Act)

  function TableOf(c: Fleet, k: nat): Table {
    if k in c.tables then c.tables[k] else Table(map[], map[])
  }

  /** The world as one replica sees it. */
  function View(c: Fleet, k: nat): World {
    c.w.(reserving := TableOf(c, k).reserving, releasing := TableOf(c, k).releasing)
  }

  predicate CanTake(c: Fleet, t: Turn) {
    Enabled(View(c, t.replica), t.act)
  }

  function Next(c: Fleet, t: Turn): Fleet
    requires CanTake(c, t)
  {
    var v := Apply(View(c, t.replica), t.act);
    Fleet(v, c.tables[t.replica := Table(v.reserving, v.releasing)])
  }

  function Unstarted(budget: int): Fleet {
    Fleet(Initial(budget), map[])
  }

  ghost predicate Course(c: Fleet, ts: seq<Turn>, d: Fleet)
    decreases |ts|
  {
    if ts == [] then c == d
    else CanTake(c, ts[0]) && Course(Next(c, ts[0]), ts[1..], d)
  }

  ghost predicate Attainable(c: Fleet) {
    exists budget, ts :: Course(Unstarted(budget), ts, c)
  }

  lemma ViewsAfter(c: Fleet, t: Turn)
    requires CanTake(c, t)
    ensures View(Next(c, t), t.replica) == Apply(View(c, t.replica), t.act)
    ensures forall j :: j != t.replica ==> TableOf(Next(c, t), j) == TableOf(c, j)
    ensures Next(c, t).w.st == Apply(View(c, t.replica), t.act).st
  {
    hide Enabled, Apply;
  }

  lemma {:induction false} CourseConcat(a: Fleet, xs: seq<Turn>, b: Fleet, ys: seq<Turn>, c: Fleet)
    requires Course(a, xs, b) && Course(b, ys, c)
    ensures Course(a, xs + ys, c)
    decreases |xs|
  {
    hide CanTake, Next;
    if xs == [] {
      assert xs + ys == ys;
    } else {
      CourseConcat(Next(a, xs[0]), xs[1..], b, ys, c);
      assert (xs + ys)[1..] == xs[1..] + ys;
    }
  }

  lemma TakeTurn(c: Fleet, t: Turn) returns (d: Fleet)
    requires Attainable(c) && CanTake(c, t)
    ensures Attainable(d) && d == Next(c, t)
  {
    hide CanTake, Next;
    d := Next(c, t);
    var budget, ts :| Course(Unstarted(budget), ts, c);
    assert [t][1..] == [];
    assert Course(c, [t], d);
    CourseConcat(Unstarted(budget), ts, c, [t], d);
  }

  // ----- one replica is the protocol -----

  function ActsOf(ts: seq<Turn>): seq<Act> {
    if ts == [] then [] else [ts[0].act] + ActsOf(ts[1..])
  }

  /** With a single replica every course is a run of the protocol, so all that is proved of runs holds of it. */
  lemma {:induction false} OneReplicaRuns(c: Fleet, ts: seq<Turn>, d: Fleet, k: nat)
    requires Course(c, ts, d) && forall t :: t in ts ==> t.replica == k
    ensures Path(View(c, k), ActsOf(ts), View(d, k))
    decreases |ts|
  {
    hide Enabled, Apply, Next;
    if ts != [] {
      assert ts[0] in ts;
      ViewsAfter(c, ts[0]);
      OneReplicaRuns(Next(c, ts[0]), ts[1..], d, k);
      assert ([ts[0].act] + ActsOf(ts[1..]))[1..] == ActsOf(ts[1..]);
    }
  }

  lemma {:induction false} Lift(c: Fleet, acts: seq<Act>, v: World, k: nat) returns (ts: seq<Turn>, d: Fleet)
    requires Path(View(c, k), acts, v)
    ensures Course(c, ts, d) && View(d, k) == v
    ensures forall j :: j != k ==> TableOf(d, j) == TableOf(c, j)
    decreases |acts|
  {
    hide Enabled, Apply, Next;
    if acts == [] {
      ts, d := [], c;
    } else {
      var t := Turn(k, acts[0]);
      ViewsAfter(c, t);
      var more;
      more, d := Lift(Next(c, t), acts[1..], v, k);
      ts := [t] + more;
      assert ts[1..] == more;
    }
  }

  /** Whatever one replica reaches is attainable with the others idle. */
  lemma LiftReachable(w: World) returns (c: Fleet)
    requires Reachable(w)
    ensures Attainable(c) && View(c, 0) == w && forall j :: j != 0 ==> TableOf(c, j) == Table(map[], map[])
  {
    hide Path, Enabled, Apply;
    var budget, acts :| Path(Initial(budget), acts, w);
    var start := Unstarted(budget);
    assert View(start, 0) == Initial(budget);
    var ts;
    ts, c := Lift(start, acts, w, 0);
  }

  // ----- entries of one order -----

  function Entries(logs: seq<LogEntry>, o: OrderId, action: Action): nat {
    if logs == [] then 0
    else
      var e := logs[|logs| - 1];
      Entries(logs[..|logs| - 1], o, action) + if e.order == o && e.action == action then 1 else 0
  }

  lemma EntriesAppend(logs: seq<LogEntry>, e: LogEntry, o: OrderId, action: Action)
    ensures Entries(logs + [e], o, action) == Entries(logs, o, action) + if e.order == o &&
      e.action == action then 1 else 0
  {
    assert (logs + [e])[..|logs|] == logs;
  }

  lemma {:induction false} EntriesLogged(logs: seq<LogEntry>, o: OrderId, action: Action)
    ensures Entries(logs, o, action) > 0 <==> o in Logged(logs, action)
  {
    if logs != [] {
      EntriesLogged(logs[..|logs| - 1], o, action);
    }
  }

  function EntriesOf(c: Fleet, o: OrderId, action: Action): nat {
    Entries(c.w.st.inv.logs, o, action)
  }

  /** The replica has a handler for the order in flight, past its look at the log. */
  predicate InFlight(c: Fleet, k: nat, o: OrderId, action: Action) {
    if action == Reserve then o in TableOf(c, k).reserving else o in TableOf(c, k).releasing
  }

  /** A release write has no guard but that the product exists. */
  ghost predicate Releases(w: World, o: OrderId) {
    o in w.releasing && w.releasing[o].ReleaseInventory? && w.releasing[o].product in w.st.inv.rows
  }

  /** The turn is a write of the order, of this action, that passes its guard. */
  ghost predicate Lands(c: Fleet, t: Turn, o: OrderId, action: Action) {
    if action == Reserve then t.act == ReserveWrite(o) && PassesGuard(View(c, t.replica), o)
    else t.act == ReleaseWrite(o) && Releases(View(c, t.replica), o)
  }

  lemma WriteEntry(w: World, x: OrderId, o: OrderId, action: Action)
    requires Enabled(w, ReserveWrite(x))
    ensures Entries(Apply(w, ReserveWrite(x)).st.inv.logs, o, action) ==
      Entries(w.st.inv.logs, o, action) + if PassesGuard(w, x) && x == o && action == Reserve then 1 else 0
  {
    hide Entries;
    var cmd := w.reserving[x].cmd;
    EntriesAppend(w.st.inv.logs, LogEntry(cmd.product, x, Reserve, cmd.quantity), o, action);
  }

  lemma ReleaseEntry(w: World, x: OrderId, o: OrderId, action: Action)
    requires Enabled(w, ReleaseWrite(x))
    ensures Entries(Apply(w, ReleaseWrite(x)).st.inv.logs, o, action) ==
      Entries(w.st.inv.logs, o, action) + if Releases(w, x) && x == o && action == Release then 1 else 0
  {
    hide Entries;
    var cmd := w.releasing[x];
    EntriesAppend(w.st.inv.logs, LogEntry(cmd.product, x, Release, cmd.quantity), o, action);
  }

  /** What one turn adds to an order's entries. */
  lemma TurnEntries(c: Fleet, t: Turn, o: OrderId, action: Action)
    requires CanTake(c, t)
    ensures EntriesOf(Next(c, t), o, action) == EntriesOf(c, o, action) + if Lands(c, t, o, action) then 1 else 0
  {
    hide Enabled, Apply, Entries, PassesGuard, Releases;
    var w := View(c, t.replica);
    ViewsAfter(c, t);
    match t.act {
      case ReserveWrite(x) => WriteEntry(w, x, o, action);
      case ReleaseWrite(x) => ReleaseEntry(w, x, o, action);
      case _ => OtherLogs(w, t.act);
    }
  }

  // ----- two entries for one order -----

  /** Replica `k` commits a write of the order somewhere in the course. */
  ghost predicate LandsLater(c: Fleet, ts: seq<Turn>, d: Fleet, k: nat, o: OrderId, action: Action)
    requires Course(c, ts, d)
    decreases |ts|
  {
    ts != [] &&
    ((ts[0].replica == k && Lands(c, ts[0], o, action)) || LandsLater(Next(c, ts[0]), ts[1..], d, k, o, action))
  }

  /** Somewhere one replica commits a write while another, already past its look at the log, still has a handler
      for the order in flight, and that one's own write passes its guard later. */
  ghost predicate Overlap(c: Fleet, ts: seq<Turn>, d: Fleet, o: OrderId, action: Action)
    requires Course(c, ts, d)
    decreases |ts|
  {
    ts != [] &&
    (|| (Lands(c, ts[0], o, action) &&
         exists k :: && k != ts[0].replica && InFlight(c, k, o, action)
                     && LandsLater(Next(c, ts[0]), ts[1..], d, k, o, action))
     || Overlap(Next(c, ts[0]), ts[1..], d, o, action))
  }

  lemma {:induction false} EntriesStay(c: Fleet, ts: seq<Turn>, d: Fleet, o: OrderId, action: Action)
    requires Course(c, ts, d)
    ensures EntriesOf(d, o, action) >= EntriesOf(c, o, action)
    decreases |ts|
  {
    hide CanTake, Next, EntriesOf;
    if ts != [] {
      TurnEntries(c, ts[0], o, action);
      EntriesStay(Next(c, ts[0]), ts[1..], d, o, action);
    }
  }

  lemma {:induction false} LaterLandingAdds(c: Fleet, ts: seq<Turn>, d: Fleet, k: nat, o: OrderId, action: Action)
    requires Course(c, ts, d) && LandsLater(c, ts, d, k, o, action)
    ensures EntriesOf(d, o, action) > EntriesOf(c, o, action)
    decreases |ts|
  {
    hide CanTake, Next, EntriesOf, Lands;
    TurnEntries(c, ts[0], o, action);
    EntriesStay(Next(c, ts[0]), ts[1..], d, o, action);
    if !Lands(c, ts[0], o, action) { LaterLandingAdds(Next(c, ts[0]), ts[1..], d, k, o, action); }
  }

  lemma {:induction false} SomebodyLands(c: Fleet, ts: seq<Turn>, d: Fleet, o: OrderId, action: Action) returns (k: nat)
    requires Course(c, ts, d) && EntriesOf(d, o, action) > EntriesOf(c, o, action)
    ensures LandsLater(c, ts, d, k, o, action)
    decreases |ts|
  {
    hide CanTake, Next, EntriesOf, Lands;
    TurnEntries(c, ts[0], o, action);
    if Lands(c, ts[0], o, action) {
      k := ts[0].replica;
    } else {
      k := SomebodyLands(Next(c, ts[0]), ts[1..], d, o, action);
    }
  }

  /** A handler for an order goes in flight only where the log has no entry. */
  lemma ReserveStartsUnlogged(w: World, a: Act, o: OrderId)
    requires Enabled(w, a) && o !in w.reserving && o in Apply(w, a).reserving
    ensures o !in Logged(w.st.inv.logs, Reserve)
  {
    hide Logged, CanReserve, ReserveIn;
    if !a.ReserveStart? && !a.ReserveRead? && !a.ReserveWrite? && !a.ReserveExhausted? && !a.ReserveAbort? {
      OthersInFlight(w, a);
      assert false;
    }
  }

  lemma ReleaseStartsUnlogged(w: World, a: Act, o: OrderId)
    requires Enabled(w, a) && o !in w.releasing && o in Apply(w, a).releasing
    ensures o !in Logged(w.st.inv.logs, Release)
  {
    hide Logged, ReleaseIn;
    if !a.ReleaseStart? && !a.ReleaseWrite? && !a.ReleaseError? && !a.ReleaseAbort? {
      OthersInFlight(w, a);
      assert false;
    }
  }

  /** Only its own kind of step touches an in-flight record. */
  lemma OthersInFlight(w: World, a: Act)
    requires Enabled(w, a)
    ensures a.ReserveStart? || a.ReserveRead? || a.ReserveWrite? || a.ReserveExhausted? || a.ReserveAbort?
            || Apply(w, a).reserving == w.reserving
    ensures a.ReleaseStart? || a.ReleaseWrite? || a.ReleaseError? || a.ReleaseAbort?
            || Apply(w, a).releasing == w.releasing
  {
    hide Enabled, Apply;
    if OfAHandler(a) { HandlerFrame(w, a); } else { OrderFrame(w, a, Record(0, Failed), NoItem); }
  }

  lemma StartsUnlogged(c: Fleet, t: Turn, k: nat, o: OrderId, action: Action)
    requires CanTake(c, t) && !InFlight(c, k, o, action) && InFlight(Next(c, t), k, o, action)
    ensures EntriesOf(c, o, action) == 0
  {
    hide Enabled, Apply, Entries, Logged;
    ViewsAfter(c, t);
    EntriesLogged(c.w.st.inv.logs, o, action);
    if action == Reserve {
      ReserveStartsUnlogged(View(c, k), t.act, o);
    } else {
      ReleaseStartsUnlogged(View(c, k), t.act, o);
    }
  }

  lemma CommitterIsInFlight(c: Fleet, t: Turn, o: OrderId, action: Action)
    requires Lands(c, t, o, action)
    ensures InFlight(c, t.replica, o, action)
  {}

  /** Once the order has an entry, only the handlers in flight by then can still commit a write. */
  lemma {:induction false} LaterIsInFlight(c: Fleet, ts: seq<Turn>, d: Fleet, k: nat, o: OrderId, action: Action)
    requires Course(c, ts, d) && EntriesOf(c, o, action) > 0 && LandsLater(c, ts, d, k, o, action)
    ensures InFlight(c, k, o, action)
    decreases |ts|
  {
    hide CanTake, Next, EntriesOf, Lands, InFlight;
    if ts[0].replica == k && Lands(c, ts[0], o, action) {
      CommitterIsInFlight(c, ts[0], o, action);
    } else {
      TurnEntries(c, ts[0], o, action);
      LaterIsInFlight(Next(c, ts[0]), ts[1..], d, k, o, action);
      if !InFlight(c, k, o, action) { StartsUnlogged(c, ts[0], k, o, action); }
    }
  }

  lemma {:induction false} OverlapAdds(c: Fleet, ts: seq<Turn>, d: Fleet, o: OrderId, action: Action)
    requires Course(c, ts, d) && Overlap(c, ts, d, o, action)
    ensures EntriesOf(d, o, action) > EntriesOf(c, o, action)
    decreases |ts|
  {
    hide CanTake, Next, Lands, EntriesOf;
    TurnEntries(c, ts[0], o, action);
    EntriesStay(Next(c, ts[0]), ts[1..], d, o, action);
    if !Lands(c, ts[0], o, action) { OverlapAdds(Next(c, ts[0]), ts[1..], d, o, action); }
  }

  /** A handler whose write committed is no longer in flight. */
  lemma CommittedLeaves(c: Fleet, t: Turn, o: OrderId, action: Action)
    requires CanTake(c, t) && Lands(c, t, o, action)
    ensures !InFlight(Next(c, t), t.replica, o, action)
  {
    hide ReserveIn, CanReserve, ReleaseIn;
  }

  lemma FirstLanding(c: Fleet, ts: seq<Turn>, d: Fleet, o: OrderId, action: Action)
    requires Course(c, ts, d) && EntriesOf(c, o, action) == 0 && ts != [] && Lands(c, ts[0], o, action)
    ensures EntriesOf(d, o, action) >= 2 <==> Overlap(c, ts, d, o, action)
  {
    hide CanTake, Next, EntriesOf, Lands, LandsLater, TableOf;
    var e := Next(c, ts[0]);
    TurnEntries(c, ts[0], o, action);
    CommittedLeaves(c, ts[0], o, action);
    ViewsAfter(c, ts[0]);
    if EntriesOf(d, o, action) >= 2 {
      var k := SomebodyLands(e, ts[1..], d, o, action);
      LaterIsInFlight(e, ts[1..], d, k, o, action);
    } else if k :| LandsLater(e, ts[1..], d, k, o, action) {
      LaterLandingAdds(e, ts[1..], d, k, o, action);
    } else if Overlap(e, ts[1..], d, o, action) {
      OverlapAdds(e, ts[1..], d, o, action);
    }
  }

  /** An order is reserved, or released, twice exactly when two replicas overlap so: both looked at the log before
      the first entry was written, and the second one's own write passes its guard too. */
  lemma {:induction false} TwoEntriesIff(c: Fleet, ts: seq<Turn>, d: Fleet, o: OrderId, action: Action)
    requires Course(c, ts, d) && EntriesOf(c, o, action) == 0
    ensures EntriesOf(d, o, action) >= 2 <==> Overlap(c, ts, d, o, action)
    decreases |ts|
  {
    hide CanTake, Next, EntriesOf, Lands, LandsLater, TableOf;
    if ts != [] {
      TurnEntries(c, ts[0], o, action);
      if Lands(c, ts[0], o, action) {
        FirstLanding(c, ts, d, o, action);
      } else {
        TwoEntriesIff(Next(c, ts[0]), ts[1..], d, o, action);
      }
    }
  }
}
