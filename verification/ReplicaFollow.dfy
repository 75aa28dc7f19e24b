/**
 * Every course of any number of inventory replicas is followed, turn by turn, by a mirror that keeps the invariant
 * and agrees with it on the orders database, the payments database and everything in circulation.
 */
module ReplicaFollow {
  import opened Types
  import opened OrderStore
  import opened InventoryStore
  import opened PaymentStore
  import opened Protocol
  import opened Invariant
  import opened Preservation
  import opened Runs
  import opened Replicas
  import opened ReplicaFacts
  import opened ReplicaGround
  import opened ReplicaMirror

  // ----- the mirror -----

  /** The orders and payments side, and everything in circulation, is the same. */
  ghost predicate Looks(w: World, x: World) {
    && x.st.orderDb == w.st.orderDb && x.st.pay == w.st.pay
    && x.sent == w.sent && x.owed == w.owed && x.listed == w.listed
    && x.paying == w.paying && x.recorded == w.recorded
  }

  ghost predicate Covers(a: Stores, b: Stores) {
    && Logged(a.inv.logs, Reserve) <= Logged(b.inv.logs, Reserve)
    && Logged(a.inv.logs, Release) <= Logged(b.inv.logs, Release)
  }

  ghost predicate TableJustified(st: Stores, t: Table) {
    && (forall o :: o in t.reserving ==> t.reserving[o].cmd.ReserveInventory? && Justified(st, t.reserving[o].cmd))
    && (forall o :: o in t.releasing ==> t.releasing[o].ReleaseInventory? && Justified(st, t.releasing[o]))
  }

  ghost predicate SoundMirror(x: World, supply: int) {
    Inv(x) && Ample(x, supply) && Hedged(x.st) && x.reserving == map[] && x.releasing == map[]
  }

  ghost predicate Mirrors(w: World, x: World, supply: int) {
    Looks(w, x) && Covers(w.st, x.st) && SoundMirror(x, supply)
  }

  // ----- the steps of the orders and payments side -----

  predicate OfInventory(a: Act) {
    || a.CreateSku? || a.ReserveStart? || a.ReserveRead? || a.ReserveWrite? || a.ReserveExhausted? || a.ReserveAbort?
    || a.ReleaseStart? || a.ReleaseWrite? || a.ReleaseError? || a.ReleaseAbort?
  }

  /** The world with another's stock side, handlers in flight and budget. */
  function Swap(w: World, z: World): World {
    w.(st := w.st.(inv := z.st.inv, supply := z.st.supply, answers := z.st.answers,
                        releaseRefused := z.st.releaseRefused),
       budget := z.budget, reserving := z.reserving, releasing := z.releasing)
  }

  /** The step takes no notice of the stock side. */
  ghost predicate Blind(w: World, a: Act)
    requires Enabled(w, a)
  {
    forall z: World :: Enabled(Swap(w, z), a) && Apply(Swap(w, z), a) == Swap(Apply(w, a), z)
  }

  lemma EventIsBlind(w: World, id: MsgId)
    requires Enabled(w, HandleEvent(id))
    ensures Blind(w, HandleEvent(id))
  {
    hide Consume, Followup, Judge;
  }

  lemma PayWriteFields(w: World, k: nat, job: PayJob, tx: TxId, ok: bool)
    requires job.cmd.ProcessPayment?
    ensures var row := Payment(job.cmd.amount, if ok then PaymentSuccess else PaymentFailed, tx);
      var owed := if CanCreate(w.st.pay, job.cmd.order, job.id) then
                    w.owed + multiset{Publish(PaymentAnswer(job.cmd, row))}
                  else w.owed;
      var st := w.st.(pay := CreateIn(w.st.pay, job.cmd.order, row, job.id));
      DoPayWrite(w, k, job, tx, ok) == w.(st := st, owed := owed, paying := w.paying - {k})
  {
    hide CanCreate, CreateIn, PaymentAnswer;
  }

  lemma PayWriteSwaps(w: World, z: World, k: nat, job: PayJob, tx: TxId, ok: bool)
    requires job.cmd.ProcessPayment?
    ensures DoPayWrite(Swap(w, z), k, job, tx, ok) == Swap(DoPayWrite(w, k, job, tx, ok), z)
  {
    hide DoPayWrite, CanCreate, CreateIn, PaymentAnswer;
    PayWriteFields(w, k, job, tx, ok);
    PayWriteFields(Swap(w, z), k, job, tx, ok);
  }

  lemma PayWriteIsBlind(w: World, a: Act)
    requires Enabled(w, a) && a.PayWrite?
    ensures Blind(w, a)
  {
    hide DoPayWrite;
    forall z: World ensures Enabled(Swap(w, z), a) && Apply(Swap(w, z), a) == Swap(Apply(w, a), z) {
      PayWriteSwaps(w, z, a.worker, w.paying[a.worker], a.tx, a.ok);
    }
  }

  lemma PayReadSwaps(w: World, z: World, k: nat, job: PayJob)
    requires job.cmd.ProcessPayment?
    ensures DoPayRead(Swap(w, z), k, job) == Swap(DoPayRead(w, k, job), z)
  {
    hide PaymentAnswer;
  }

  lemma PayStartSwaps(w: World, z: World, k: nat, id: MsgId, cmd: Message)
    ensures DoPayStart(Swap(w, z), k, id, cmd) == Swap(DoPayStart(w, k, id, cmd), z)
  {}

  lemma PayIsBlind(w: World, a: Act)
    requires Enabled(w, a) && (a.PayStart? || a.PayRead? || a.PayAbort?)
    ensures Blind(w, a)
  {
    hide DoPayStart, DoPayRead;
    forall z: World ensures Enabled(Swap(w, z), a) && Apply(Swap(w, z), a) == Swap(Apply(w, a), z) {
      if a.PayStart? { PayStartSwaps(w, z, a.worker, a.id, w.sent[a.id]); }
      if a.PayRead? { PayReadSwaps(w, z, a.worker, w.paying[a.worker]); }
    }
  }

  lemma OrdersAreBlind(w: World, a: Act)
    requires Enabled(w, a) && (a.CreateOrder? || a.StartSaga?)
    ensures Blind(w, a)
  {}

  lemma TrafficIsBlind(w: World, a: Act)
    requires Enabled(w, a) && (a.Send? || a.RecordTerminal? || a.Drop? || a.List? || a.RecoverItem? || a.SkipItem?)
    ensures Blind(w, a)
  {
    hide RecoveryCommand, Listing;
  }

  lemma SideIsBlind(w: World, a: Act)
    requires Enabled(w, a) && !OfInventory(a)
    ensures Blind(w, a)
  {
    hide Enabled, Apply, Blind;
    match a {
      case HandleEvent(id) => EventIsBlind(w, id);
      case CreateOrder(_, _, _, _) => OrdersAreBlind(w, a);
      case StartSaga(_, _) => OrdersAreBlind(w, a);
      case PayStart(_, _) => PayIsBlind(w, a);
      case PayRead(_) => PayIsBlind(w, a);
      case PayWrite(_, _, _) => PayWriteIsBlind(w, a);
      case PayAbort(_) => PayIsBlind(w, a);
      case _ => TrafficIsBlind(w, a);
    }
  }

  lemma SideStep(w: World, x: World, a: Act, supply: int) returns (y: World)
    requires Mirrors(w, x, supply) && Enabled(w, a) && !OfInventory(a)
    requires SumQty(Apply(w, a).st.orderDb.orders, Apply(w, a).st.orderDb.orders.Keys) <= supply
    ensures Mirrors(Apply(w, a), y, supply) && Mono(x, y)
  {
    hide Inv, Mono, Enabled, Apply, Logged, SumQty;
    SideIsBlind(w, a);
    assert Swap(w, x) == x && Swap(w, w) == w;
    assert Apply(x, a) == Swap(Apply(w, a), x) && Apply(w, a) == Swap(Apply(w, a), w);
    StepKeeps(x, a);
    y := Apply(x, a);
  }

  // ----- the steps of inventory handlers, by what they say -----

  datatype Said = Silent | Said(cmd: Message, ok: bool)

  function EventOf(cmd: Message, ok: bool): Message
    requires cmd.ReserveInventory? || cmd.ReleaseInventory?
  {
    if cmd.ReserveInventory? then InventoryReserved(cmd.saga, cmd.order, cmd.product, cmd.quantity, ok)
    else InventoryReleased(cmd.saga, cmd.order, cmd.product, cmd.quantity, ok)
  }

  /** Apart from its own records and the stock side, the step only says this much; what a success adds to the log
      is the order's own entry. */
  ghost predicate Says(w: World, v: World, said: Said, action: Action) {
    && Looks(w.(owed := v.owed), v)
    && match said
       case Silent => v.owed == w.owed && Covers(v.st, w.st)
       case Said(cmd, ok) =>
         && (if action == Reserve then cmd.ReserveInventory? else cmd.ReleaseInventory?)
         && v.owed == w.owed + multiset{Publish(EventOf(cmd, ok))}
         && Logged(v.st.inv.logs, action) <= Logged(w.st.inv.logs, action) + (if ok then {cmd.order} else {})
         && forall other: Action :: other != action ==> Logged(v.st.inv.logs, other) <= Logged(w.st.inv.logs, other)
  }

  lemma AnswerSays(w: World, cmd: Message, ok: bool)
    requires cmd.ReserveInventory?
    ensures Says(w, AnswerReserve(w, cmd, ok), Said(cmd, ok), Reserve)
  {
    hide Logged;
  }

  lemma ReleaseAnswerSays(w: World, cmd: Message, ok: bool)
    requires cmd.ReleaseInventory?
    ensures Says(w, AnswerRelease(w, cmd, ok), Said(cmd, ok), Release)
  {
    hide Logged;
  }

  /** A write that lands adds the entry, and then answers. */
  lemma AfterEntry(w: World, e: LogEntry, rows: map<ProductId, Inventory>, v: World, cmd: Message)
    requires Says(w.(st := w.st.(inv := InventoryDb(rows, w.st.inv.logs + [e]))), v, Said(cmd, true), e.action)
    requires e.order == cmd.order
    ensures Says(w, v, Said(cmd, true), e.action)
  {
    hide Logged;
    LoggedAppend(w.st.inv.logs, e, Reserve);
    LoggedAppend(w.st.inv.logs, e, Release);
  }

  /** The commands at hand: those in circulation and those of the handlers in flight. */
  ghost predicate AtHand(w: World, cmd: Message) {
    || cmd in w.sent.Values
    || (exists o :: o in w.reserving && w.reserving[o].cmd == cmd)
    || (exists o :: o in w.releasing && w.releasing[o] == cmd)
  }

  lemma ReserveSays(w: World, a: Act) returns (said: Said)
    requires Enabled(w, a)
    requires a.ReserveStart? || a.ReserveRead? || a.ReserveWrite? || a.ReserveExhausted? || a.ReserveAbort?
    ensures Says(w, Apply(w, a), said, Reserve) && (said.Said? ==> AtHand(w, said.cmd))
  {
    hide AnswerReserve, Logged, CanReserve;
    match a {
      case ReserveStart(id) =>
        if w.sent[id].order in Logged(w.st.inv.logs, Reserve) {
          AnswerSays(w, w.sent[id], true);
          said := Said(w.sent[id], true);
        } else {
          said := Silent;
        }
      case ReserveRead(o) =>
        var job := w.reserving[o];
        if w.st.inv.rows[job.cmd.product].available < job.cmd.quantity {
          AnswerSays(w, job.cmd, false);
          said := Said(job.cmd, false);
        } else {
          said := Silent;
        }
      case ReserveWrite(o) => said := WriteSays(w, o);
      case ReserveExhausted(o) =>
        AnswerSays(w, w.reserving[o].cmd, false);
        said := Said(w.reserving[o].cmd, false);
      case ReserveAbort(_) => said := Silent;
    }
  }

  lemma WriteSays(w: World, o: OrderId) returns (said: Said)
    requires Enabled(w, ReserveWrite(o))
    ensures Says(w, Apply(w, ReserveWrite(o)), said, Reserve) && (said.Said? ==> AtHand(w, said.cmd))
  {
    hide AnswerReserve, Logged, CanReserve;
    var job := w.reserving[o];
    var cmd := job.cmd;
    if CanReserve(w.st.inv, cmd.product, job.phase.version, cmd.quantity) {
      var inv := ReserveIn(w.st.inv, cmd.product, o, job.phase.version, cmd.quantity);
      var u := w.(st := w.st.(inv := inv));
      AnswerSays(u, cmd, true);
      AfterEntry(w, LogEntry(cmd.product, o, Reserve, cmd.quantity), inv.rows, AnswerReserve(u, cmd, true), cmd);
      said := Said(cmd, true);
    } else {
      said := Silent;
    }
  }

  lemma ReleaseSays(w: World, a: Act) returns (said: Said)
    requires Enabled(w, a) && (a.ReleaseStart? || a.ReleaseWrite? || a.ReleaseError? || a.ReleaseAbort?)
    ensures Says(w, Apply(w, a), said, Release) && (said.Said? ==> AtHand(w, said.cmd))
  {
    hide AnswerRelease, Logged;
    match a {
      case ReleaseStart(id) =>
        if w.sent[id].order in Logged(w.st.inv.logs, Release) {
          ReleaseAnswerSays(w, w.sent[id], true);
          said := Said(w.sent[id], true);
        } else {
          said := Silent;
        }
      case ReleaseWrite(o) =>
        var cmd := w.releasing[o];
        if cmd.product in w.st.inv.rows {
          var inv := ReleaseIn(w.st.inv, cmd.product, o, cmd.quantity);
          var u := w.(st := w.st.(inv := inv));
          ReleaseAnswerSays(u, cmd, true);
          AfterEntry(w, LogEntry(cmd.product, o, Release, cmd.quantity), inv.rows, AnswerRelease(u, cmd, true), cmd);
          said := Said(cmd, true);
        } else {
          ReleaseAnswerSays(w, cmd, false);
          said := Said(cmd, false);
        }
      case ReleaseError(o) =>
        ReleaseAnswerSays(w, w.releasing[o], false);
        said := Said(w.releasing[o], false);
      case ReleaseAbort(_) => said := Silent;
    }
  }

  // ----- the mirror follows -----

  lemma Owe(x: World, m: Message) returns (y: World)
    requires Inv(x) && Justified(x.st, m)
    ensures y == x.(owed := x.owed + multiset{Publish(m)}) && Inv(y) && Mono(x, y)
  {
    hide StoresOk, ReserveJobOk, ReleaseJobOk, PayJobOk, Justified, ItemOk, ConsumedOk, RecordsOk, Mono;
    y := x.(owed := x.owed + multiset{Publish(m)});
    TrafficKept(x, y);
  }

  lemma EventIsJustified(st: Stores, cmd: Message, ok: bool)
    requires (cmd.ReserveInventory? || cmd.ReleaseInventory?) && Justified(st, cmd)
    requires if cmd.ReserveInventory? then (if ok then Holds(st, cmd.order) else Refused(st, cmd.order))
             else (if ok then GaveBack(st, cmd.order) else cmd.order in st.releaseRefused)
    ensures Justified(st, EventOf(cmd, ok))
  {}

  /** Makes true in the mirror what the answer claims. */
  lemma MakeTrue(x: World, cmd: Message, ok: bool, supply: int) returns (y: World)
    requires SoundMirror(x, supply) && (cmd.ReserveInventory? || cmd.ReleaseInventory?) && Justified(x.st, cmd)
    ensures Prepared(x, y, supply) && Justified(y.st, EventOf(cmd, ok))
    ensures ok ==> cmd.order in Logged(y.st.inv.logs, if cmd.ReserveInventory? then Reserve else Release)
  {
    hide Inv, Mono, Hedged, Ample, Justified, Logged, Refused;
    if cmd.ReserveInventory? {
      if ok { y := Grant(x, cmd, supply); } else { y := Refuse(x, cmd, supply); }
    } else {
      if ok { y := GiveBack(x, cmd, supply); } else { y := FailRelease(x, cmd, supply); }
    }
    JustifiedLater(x, y, cmd);
    EventIsJustified(y.st, cmd, ok);
  }

  lemma LogsGrow(x: World, y: World)
    requires Mono(x, y)
    ensures Covers(x.st, y.st)
  {
    hide OrdersGrow, SagasGrow, StockGrows, Logged;
  }

  lemma Follow(w: World, v: World, x: World, said: Said, action: Action, supply: int) returns (y: World)
    requires Mirrors(w, x, supply) && Says(w, v, said, action)
    requires said.Said? ==> Justified(x.st, said.cmd)
    ensures Mirrors(v, y, supply) && Mono(x, y)
  {
    hide Inv, Mono, Hedged, Justified, Logged, SumQty;
    if said.Silent? {
      y := x;
      NothingKept(x);
    } else {
      var u := MakeTrue(x, said.cmd, said.ok, supply);
      y := Owe(u, EventOf(said.cmd, said.ok));
      MonoTransitive(x, u, y);
      LogsGrow(x, u);
      assert y.st == u.st;
    }
  }

  lemma SkuIsUnseen(w: World, a: Act)
    requires Enabled(w, a) && a.CreateSku?
    ensures Looks(w, Apply(w, a)) && Apply(w, a).st.inv.logs == w.st.inv.logs
  {}

  lemma AtHandIsJustified(w: World, x: World, cmd: Message)
    requires Looks(w, x) && Inv(x) && TableJustified(x.st, Own(w)) && AtHand(w, cmd)
    ensures Justified(x.st, cmd)
  {
    hide StoresOk, JobsOk, ConsumedOk, RecordsOk, Justified;
  }

  lemma InventoryStep(w: World, x: World, a: Act, supply: int) returns (y: World)
    requires Mirrors(w, x, supply) && Enabled(w, a) && OfInventory(a) && TableJustified(x.st, Own(w))
    ensures Mirrors(Apply(w, a), y, supply) && Mono(x, y)
  {
    hide Inv, Mono, Enabled, Apply, Ample, Hedged, Says, TableJustified, AtHand, Logged;
    var said, action := Silent, Reserve;
    if a.CreateSku? {
      SkuIsUnseen(w, a);
      y := x;
      NothingKept(x);
      return;
    } else if a.ReserveStart? || a.ReserveRead? || a.ReserveWrite? || a.ReserveExhausted? || a.ReserveAbort? {
      said := ReserveSays(w, a);
    } else {
      action := Release;
      said := ReleaseSays(w, a);
    }
    if said.Said? { AtHandIsJustified(w, x, said.cmd); }
    y := Follow(w, Apply(w, a), x, said, action, supply);
  }

  // ----- tables -----

  lemma TableLaterToo(x: World, y: World, t: Table)
    requires Mono(x, y) && TableJustified(x.st, t)
    ensures TableJustified(y.st, t)
  {
    hide Mono, Justified;
    forall o | o in t.reserving ensures Justified(y.st, t.reserving[o].cmd) {
      JustifiedLater(x, y, t.reserving[o].cmd);
    }
    forall o | o in t.releasing ensures Justified(y.st, t.releasing[o]) { JustifiedLater(x, y, t.releasing[o]); }
  }

  lemma SentIsJustified(w: World, x: World, id: MsgId)
    requires Looks(w, x) && Inv(x) && id in w.sent
    ensures Justified(x.st, w.sent[id])
  {
    hide StoresOk, JobsOk, ConsumedOk, RecordsOk, Justified;
  }

  lemma StartsReserving(w: World, a: Act)
    requires Enabled(w, a) && a.ReserveStart?
    ensures a.id in w.sent && w.sent[a.id].ReserveInventory?
  {}

  lemma OwnTableJustified(w: World, a: Act, x: World)
    requires Enabled(w, a) && Looks(w, x) && Inv(x) && TableJustified(x.st, Own(w))
    ensures TableJustified(x.st, Own(Apply(w, a)))
  {
    hide Enabled, Apply, Inv, Justified, Looks;
    var v := Apply(w, a);
    OthersInFlight(w, a);
    if a.ReserveStart? {
      StartsReserving(w, a);
      SentIsJustified(w, x, a.id);
    }
    if a.ReleaseStart? { ReleaseStartsFromSent(w, a, x); }
    forall o | o in v.reserving ensures v.reserving[o].cmd.ReserveInventory? && Justified(x.st, v.reserving[o].cmd) {
      if v.reserving != w.reserving { ReservingFrom(w, a, o); }
    }
    forall o | o in v.releasing ensures v.releasing[o].ReleaseInventory? && Justified(x.st, v.releasing[o]) {
      if v.releasing != w.releasing { ReleaseTableChanges(w, a); }
    }
  }

  lemma ReleaseStartsFromSent(w: World, a: Act, x: World)
    requires Enabled(w, a) && a.ReleaseStart? && Looks(w, x) && Inv(x)
    ensures a.id in w.sent && w.sent[a.id].ReleaseInventory? && Justified(x.st, w.sent[a.id])
  {
    hide Inv, Justified, Looks;
    SentIsJustified(w, x, a.id);
  }

  // ----- courses -----

  ghost predicate Mirrored(c: Fleet, x: World, supply: int) {
    Mirrors(c.w, x, supply) && forall k :: TableJustified(x.st, TableOf(c, k))
  }

  ghost function OrderedQuantity(c: Fleet): int {
    SumQty(c.w.st.orderDb.orders, c.w.st.orderDb.orders.Keys)
  }

  lemma TurnFollowed(c: Fleet, t: Turn, x: World, supply: int) returns (y: World)
    requires Mirrored(c, x, supply) && CanTake(c, t) && OrderedQuantity(Next(c, t)) <= supply
    ensures Mirrored(Next(c, t), y, supply) && Mono(x, y)
  {
    hide Inv, Mono, Enabled, Apply, Ample, Hedged, TableJustified, SumQty, Logged, SoundMirror;
    var w := View(c, t.replica);
    SoundHasInv(x, supply);
    assert TableJustified(x.st, TableOf(c, t.replica));
    if OfInventory(t.act) {
      y := InventoryStep(w, x, t.act, supply);
    } else {
      y := SideStep(w, x, t.act, supply);
    }
    OwnTableJustified(w, t.act, x);
    ViewsAfter(c, t);
    forall k ensures TableJustified(y.st, TableOf(Next(c, t), k)) {
      assert TableJustified(x.st, TableOf(c, k));
      TableLaterToo(x, y, TableOf(Next(c, t), k));
    }
  }

  lemma SoundHasInv(x: World, supply: int)
    requires SoundMirror(x, supply)
    ensures Inv(x)
  {}

  lemma {:induction false} CourseLater(c: Fleet, ts: seq<Turn>, d: Fleet)
    requires Course(c, ts, d)
    ensures Later(c.w.st, d.w.st)
    decreases |ts|
  {
    hide CanTake, Next;
    if ts != [] {
      TurnLater(c, ts[0]);
      CourseLater(Next(c, ts[0]), ts[1..], d);
    }
  }

  lemma TurnLater(c: Fleet, t: Turn)
    requires CanTake(c, t)
    ensures Later(c.w.st, Next(c, t).w.st)
  {
    hide Enabled, Apply, Later;
    StepLater(View(c, t.replica), t.act);
  }

  lemma OrderedGrows(c: Fleet, ts: seq<Turn>, d: Fleet)
    requires Course(c, ts, d) && FleetOk(d)
    ensures OrderedQuantity(c) <= OrderedQuantity(d)
  {
    hide Course, SumQty;
    CourseLater(c, ts, d);
    SumQtyGrows(c.w.st.orderDb.orders, c.w.st.orderDb.orders.Keys, d.w.st.orderDb.orders, d.w.st.orderDb.orders.Keys);
  }

  lemma {:induction false} CourseFollowed(c: Fleet, ts: seq<Turn>, d: Fleet, x: World, supply: int) returns (y: World)
    requires Mirrored(c, x, supply) && Course(c, ts, d) && FleetOk(d) && OrderedQuantity(d) <= supply
    ensures Mirrored(d, y, supply) && Mono(x, y)
    decreases |ts|
  {
    hide Mono, Mirrored, CanTake, Next, FleetOk, OrderedQuantity;
    if ts == [] {
      y := x;
      MirroredHasInv(c, x, supply);
      NothingKept(x);
    } else {
      var e := Next(c, ts[0]);
      OrderedGrows(e, ts[1..], d);
      var u := TurnFollowed(c, ts[0], x, supply);
      y := CourseFollowed(e, ts[1..], d, u, supply);
      MonoTransitive(x, u, y);
    }
  }

  lemma MirroredHasInv(c: Fleet, x: World, supply: int)
    requires Mirrored(c, x, supply)
    ensures Inv(x) && Looks(c.w, x) && Covers(c.w.st, x.st) && x.releasing == map[]
  {}

  lemma UnstartedIsMirrored(budget: int, supply: int)
    requires supply >= 0
    ensures Mirrored(Unstarted(budget), Initial(-1), supply)
  {
    hide Inv, Justified, SumQty;
    InitialOk(-1);
    NoneOrdered(budget);
    assert Ample(Initial(-1), supply);
  }

  /** Two moments of a course have mirrors, the later one with nothing undone. */
  lemma MirrorsOf(c: Fleet, ts: seq<Turn>, d: Fleet) returns (x: World, y: World, supply: int)
    requires Attainable(c) && Course(c, ts, d)
    ensures Mirrored(c, x, supply) && Mirrored(d, y, supply) && Mono(x, y)
  {
    hide Course, Mono, Mirrored, FleetOk, OrderedQuantity;
    var budget, before :| Course(Unstarted(budget), before, c);
    CourseConcat(Unstarted(budget), before, c, ts, d);
    assert Attainable(d);
    AttainableOk(d);
    AttainableOk(c);
    OrderedGrows(c, ts, d);
    OrderedGrows(Unstarted(budget), before, c);
    NoneOrdered(budget);
    supply := OrderedQuantity(d);
    UnstartedIsMirrored(budget, supply);
    x := CourseFollowed(Unstarted(budget), before, c, Initial(-1), supply);
    y := CourseFollowed(c, ts, d, x, supply);
  }

  lemma NoneOrdered(budget: int)
    ensures OrderedQuantity(Unstarted(budget)) == 0
  {}
}
