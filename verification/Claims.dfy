/** What one handler holds while others run: nobody else moves its in-flight records, its owed work or its ids. */
module Claims {
  import opened Types
  import opened OrderStore
  import opened InventoryStore
  import opened PaymentStore
  import opened Protocol
  import opened Invariant
  import opened Runs

  datatype Mine = Mine(
    owed: multiset<Task>,
    listed: multiset<Snapshot>,
    reserving: map<OrderId, ReserveJob>,
    releasing: map<OrderId, Message>,
    paying: map<nat, PayJob>,
    ids: set<MsgId>)

  const NoClaims := Mine(multiset{}, multiset{}, map[], map[], map[], {})

  predicate Within<K(==), V(==)>(part: map<K, V>, whole: map<K, V>) {
    forall k :: k in part ==> k in whole && whole[k] == part[k]
  }

  predicate Held(mine: Mine, w: World) {
    && mine.owed <= w.owed && mine.listed <= w.listed && mine.ids !! w.sent.Keys
    && Within(mine.reserving, w.reserving) && Within(mine.releasing, w.releasing) && Within(mine.paying, w.paying)
  }

  /** The step goes on with a handler that is in flight. */
  predicate Works(a: Act, mine: Mine) {
    match a
    case ReserveRead(o) => o in mine.reserving
    case ReserveWrite(o) => o in mine.reserving
    case ReserveExhausted(o) => o in mine.reserving
    case ReserveAbort(o) => o in mine.reserving
    case ReleaseWrite(o) => o in mine.releasing
    case ReleaseError(o) => o in mine.releasing
    case ReleaseAbort(o) => o in mine.releasing
    case PayRead(k) => k in mine.paying
    case PayWrite(k, _, _) => k in mine.paying
    case PayAbort(k) => k in mine.paying
    case _ => false
  }

  /** The step is somebody else's: it uses up no task, listed row, in-flight record or fresh id of mine. */
  predicate Respects(mine: Mine, w: World, a: Act) {
    && !Works(a, mine)
    && (a.Send? ==> w.owed[Publish(a.message)] > mine.owed[Publish(a.message)] && a.id !in mine.ids)
    && (a.RecordTerminal? ==> w.owed[Record(a.saga, a.status)] > mine.owed[Record(a.saga, a.status)])
    && (a.Drop? ==> w.owed[a.task] > mine.owed[a.task])
    && (a.RecoverItem? || a.SkipItem? ==> w.listed[a.item] > mine.listed[a.item])
  }

  // ----- what each kind of step leaves alone -----

  /** Nothing owed, listed or sent is used up. */
  ghost predicate UsesNoneUp(w: World, v: World) {
    w.owed <= v.owed && w.listed <= v.listed && v.sent == w.sent
  }

  ghost predicate OnlyReserving(w: World, v: World, o: OrderId) {
    && UsesNoneUp(w, v) && v.releasing == w.releasing && v.paying == w.paying
    && forall x :: x in w.reserving && x != o ==> x in v.reserving && v.reserving[x] == w.reserving[x]
  }

  ghost predicate OnlyReleasing(w: World, v: World, o: OrderId) {
    && UsesNoneUp(w, v) && v.reserving == w.reserving && v.paying == w.paying
    && forall x :: x in w.releasing && x != o ==> x in v.releasing && v.releasing[x] == w.releasing[x]
  }

  ghost predicate OnlyPaying(w: World, v: World, k: nat) {
    && UsesNoneUp(w, v) && v.reserving == w.reserving && v.releasing == w.releasing
    && forall x :: x in w.paying && x != k ==> x in v.paying && v.paying[x] == w.paying[x]
  }

  ghost predicate NoHandler(w: World, v: World) {
    v.reserving == w.reserving && v.releasing == w.releasing && v.paying == w.paying
  }

  lemma AnswerReserveFrame(w: World, cmd: Message, ok: bool)
    requires cmd.ReserveInventory?
    ensures OnlyReserving(w, AnswerReserve(w, cmd, ok), cmd.order)
  {}

  lemma ReserveStartFrame(w: World, cmd: Message)
    requires cmd.ReserveInventory?
    ensures OnlyReserving(w, DoReserveStart(w, cmd), cmd.order)
  {
    hide AnswerReserve, Logged;
    AnswerReserveFrame(w, cmd, true);
  }

  lemma ReserveReadFrame(w: World, job: ReserveJob)
    requires job.cmd.ReserveInventory? && job.cmd.product in w.st.inv.rows
    ensures OnlyReserving(w, DoReserveRead(w, job), job.cmd.order)
  {
    hide AnswerReserve;
    AnswerReserveFrame(w, job.cmd, false);
  }

  lemma ReserveWriteFrame(w: World, job: ReserveJob)
    requires job.cmd.ReserveInventory? && job.phase.HasRead?
    ensures OnlyReserving(w, DoReserveWrite(w, job), job.cmd.order)
  {
    hide AnswerReserve, CanReserve, ReserveIn;
    var inv := ReserveIn(w.st.inv, job.cmd.product, job.cmd.order, job.phase.version, job.cmd.quantity);
    AnswerReserveFrame(w.(st := w.st.(inv := inv)), job.cmd, true);
  }

  lemma AnswerReleaseFrame(w: World, cmd: Message, ok: bool)
    requires cmd.ReleaseInventory?
    ensures OnlyReleasing(w, AnswerRelease(w, cmd, ok), cmd.order)
  {}

  lemma ReleaseStartFrame(w: World, cmd: Message)
    requires cmd.ReleaseInventory?
    ensures OnlyReleasing(w, DoReleaseStart(w, cmd), cmd.order)
  {
    hide AnswerRelease, Logged;
    AnswerReleaseFrame(w, cmd, true);
  }

  lemma ReleaseWriteFrame(w: World, cmd: Message)
    requires cmd.ReleaseInventory?
    ensures OnlyReleasing(w, DoReleaseWrite(w, cmd), cmd.order)
  {
    hide AnswerRelease, ReleaseIn;
    var inv := ReleaseIn(w.st.inv, cmd.product, cmd.order, cmd.quantity);
    AnswerReleaseFrame(w.(st := w.st.(inv := inv)), cmd, cmd.product in w.st.inv.rows);
  }

  lemma PayReadFrame(w: World, k: nat, job: PayJob)
    requires job.cmd.ProcessPayment?
    ensures OnlyPaying(w, DoPayRead(w, k, job), k)
  {}

  lemma PayWriteFrame(w: World, k: nat, job: PayJob, tx: TxId, ok: bool)
    requires job.cmd.ProcessPayment?
    ensures OnlyPaying(w, DoPayWrite(w, k, job, tx, ok), k)
  {
    hide CanCreate, CreateIn, PaymentAnswer;
  }

  lemma HandleEventFrame(w: World, id: MsgId, ev: Message)
    requires ev.IsEvent()
    ensures UsesNoneUp(w, DoHandleEvent(w, id, ev)) && NoHandler(w, DoHandleEvent(w, id, ev))
  {
    hide Consume, Followup;
  }

  /** A step of a handler, and whose it is. */
  predicate OfReserve(w: World, a: Act, o: OrderId) {
    match a
    case ReserveStart(id) => id in w.sent && w.sent[id].ReserveInventory? && w.sent[id].order == o
    case ReserveRead(x) => x == o
    case ReserveWrite(x) => x == o
    case ReserveExhausted(x) => x == o
    case ReserveAbort(x) => x == o
    case _ => false
  }

  predicate OfRelease(w: World, a: Act, o: OrderId) {
    match a
    case ReleaseStart(id) => id in w.sent && w.sent[id].ReleaseInventory? && w.sent[id].order == o
    case ReleaseWrite(x) => x == o
    case ReleaseError(x) => x == o
    case ReleaseAbort(x) => x == o
    case _ => false
  }

  predicate OfPayment(a: Act, k: nat) {
    match a
    case PayStart(x, _) => x == k
    case PayRead(x) => x == k
    case PayWrite(x, _, _) => x == k
    case PayAbort(x) => x == k
    case _ => false
  }

  lemma ReserveFrame(w: World, a: Act, o: OrderId)
    requires Enabled(w, a) && OfReserve(w, a, o)
    ensures OnlyReserving(w, Apply(w, a), o)
  {
    hide AnswerReserve, DoReserveStart, DoReserveRead, DoReserveWrite;
    match a {
      case ReserveStart(id) => ReserveStartFrame(w, w.sent[id]);
      case ReserveRead(_) => ReserveReadFrame(w, w.reserving[o]);
      case ReserveWrite(_) => ReserveWriteFrame(w, w.reserving[o]);
      case ReserveExhausted(_) => AnswerReserveFrame(w, w.reserving[o].cmd, false);
      case ReserveAbort(_) =>
    }
  }

  lemma ReleaseFrame(w: World, a: Act, o: OrderId)
    requires Enabled(w, a) && OfRelease(w, a, o)
    ensures OnlyReleasing(w, Apply(w, a), o)
  {
    hide AnswerRelease, DoReleaseStart, DoReleaseWrite;
    match a {
      case ReleaseStart(id) => ReleaseStartFrame(w, w.sent[id]);
      case ReleaseWrite(_) => ReleaseWriteFrame(w, w.releasing[o]);
      case ReleaseError(_) => AnswerReleaseFrame(w, w.releasing[o], false);
      case ReleaseAbort(_) =>
    }
  }

  lemma PayFrame(w: World, a: Act, k: nat)
    requires Enabled(w, a) && OfPayment(a, k)
    ensures OnlyPaying(w, Apply(w, a), k)
  {
    hide DoPayRead, DoPayWrite;
    match a {
      case PayStart(_, _) =>
      case PayRead(_) => PayReadFrame(w, k, w.paying[k]);
      case PayWrite(_, tx, ok) => PayWriteFrame(w, k, w.paying[k], tx, ok);
      case PayAbort(_) =>
    }
  }

  /** The steps that use up a task, and the ones that use up a listed row. */
  predicate UsesUp(a: Act, t: Task) {
    match a
    case Send(m, _) => t == Publish(m)
    case RecordTerminal(s, status) => t == Record(s, status)
    case Drop(u) => t == u
    case _ => false
  }

  predicate Frees(a: Act, item: Snapshot) {
    match a
    case RecoverItem(i) => i == item
    case SkipItem(i) => i == item
    case _ => false
  }

  predicate OfAHandler(a: Act) {
    || a.ReserveStart? || a.ReserveRead? || a.ReserveWrite? || a.ReserveExhausted? || a.ReserveAbort?
    || a.ReleaseStart? || a.ReleaseWrite? || a.ReleaseError? || a.ReleaseAbort?
    || a.PayStart? || a.PayRead? || a.PayWrite? || a.PayAbort?
  }

  predicate UsesNothingUp(a: Act) {
    a.CreateSku? || a.CreateOrder? || a.StartSaga? || a.HandleEvent? || a.List?
  }

  lemma ServiceFrame(w: World, a: Act)
    requires Enabled(w, a) && UsesNothingUp(a)
    ensures UsesNoneUp(w, Apply(w, a)) && NoHandler(w, Apply(w, a))
  {
    hide DoHandleEvent, Listing;
    if a.HandleEvent? { HandleEventFrame(w, a.id, w.sent[a.id]); }
  }

  lemma SendFrame(w: World, m: Message, id: MsgId, t: Task)
    requires Enabled(w, Send(m, id))
    ensures var v := DoSend(w, m, id);
      && NoHandler(w, v) && v.listed == w.listed && v.owed[t] >= w.owed[t] - (if t == Publish(m) then 1 else 0)
      && Within(w.sent, v.sent) && v.sent.Keys <= w.sent.Keys + {id}
  {}

  lemma TaskFrame(w: World, a: Act, t: Task)
    requires Enabled(w, a) && (a.Send? || a.RecordTerminal? || a.Drop?)
    ensures var v := Apply(w, a);
      && NoHandler(w, v) && v.listed == w.listed && v.owed[t] >= w.owed[t] - (if UsesUp(a, t) then 1 else 0)
      && Within(w.sent, v.sent) && v.sent.Keys <= w.sent.Keys + if a.Send? then {a.id} else {}
  {
    hide DoSend;
    if a.Send? { SendFrame(w, a.message, a.id, t); }
  }

  lemma ItemFrame(w: World, a: Act, item: Snapshot)
    requires Enabled(w, a) && (a.RecoverItem? || a.SkipItem?)
    ensures var v := Apply(w, a);
      && NoHandler(w, v) && v.sent == w.sent && w.owed <= v.owed
      && v.listed[item] >= w.listed[item] - if Frees(a, item) then 1 else 0
  {
    hide RecoveryCommand;
  }

  /** The steps of the order service, of publishing and of recovery. */
  lemma OrderFrame(w: World, a: Act, t: Task, item: Snapshot)
    requires Enabled(w, a) && !OfAHandler(a)
    ensures var v := Apply(w, a);
      && NoHandler(w, v)
      && v.owed[t] >= w.owed[t] - (if UsesUp(a, t) then 1 else 0)
      && v.listed[item] >= w.listed[item] - (if Frees(a, item) then 1 else 0)
      && Within(w.sent, v.sent) && v.sent.Keys <= w.sent.Keys + if a.Send? then {a.id} else {}
  {
    hide Enabled, Apply, UsesUp, Frees;
    if UsesNothingUp(a) {
      ServiceFrame(w, a);
    } else if a.RecoverItem? || a.SkipItem? {
      ItemFrame(w, a, item);
    } else {
      TaskFrame(w, a, t);
    }
  }

  lemma HandlerFrame(w: World, a: Act)
    requires Enabled(w, a) && OfAHandler(a)
    ensures var v := Apply(w, a);
      || (exists o :: OfReserve(w, a, o) && OnlyReserving(w, v, o))
      || (exists o :: OfRelease(w, a, o) && OnlyReleasing(w, v, o))
      || (exists k :: OfPayment(a, k) && OnlyPaying(w, v, k))
  {
    hide Apply, OnlyReserving, OnlyReleasing, OnlyPaying;
    match a {
      case ReserveStart(id) => ReserveFrame(w, a, w.sent[id].order);
      case ReserveRead(o) => ReserveFrame(w, a, o);
      case ReserveWrite(o) => ReserveFrame(w, a, o);
      case ReserveExhausted(o) => ReserveFrame(w, a, o);
      case ReserveAbort(o) => ReserveFrame(w, a, o);
      case ReleaseStart(id) => ReleaseFrame(w, a, w.sent[id].order);
      case ReleaseWrite(o) => ReleaseFrame(w, a, o);
      case ReleaseError(o) => ReleaseFrame(w, a, o);
      case ReleaseAbort(o) => ReleaseFrame(w, a, o);
      case PayStart(k, _) => PayFrame(w, a, k);
      case PayRead(k) => PayFrame(w, a, k);
      case PayWrite(k, _, _) => PayFrame(w, a, k);
      case PayAbort(k) => PayFrame(w, a, k);
    }
  }

  /** What commands and handlers copy from is as it was. */
  ghost predicate SameColumns(w: World, v: World) {
    v.st.inv == w.st.inv && v.st.orderDb.orders == w.st.orderDb.orders && v.st.supply == w.st.supply
  }

  lemma QuietReserve(w: World, a: Act)
    requires Enabled(w, a) && (a.ReserveStart? || a.ReserveRead? || a.ReserveExhausted? || a.ReserveAbort?)
    ensures SameColumns(w, Apply(w, a))
  {
    hide Logged, AnswerReserve;
  }

  lemma QuietRelease(w: World, a: Act)
    requires Enabled(w, a) && (a.ReleaseStart? || a.ReleaseError? || a.ReleaseAbort?)
    ensures SameColumns(w, Apply(w, a))
  {
    hide Logged, AnswerRelease;
  }

  lemma QuietPayment(w: World, a: Act)
    requires Enabled(w, a) && (a.PayStart? || a.PayRead? || a.PayWrite? || a.PayAbort?)
    ensures SameColumns(w, Apply(w, a))
  {
    hide PaymentAnswer;
  }

  lemma QuietHandler(w: World, a: Act)
    requires Enabled(w, a) && OfAHandler(a) && !a.ReserveWrite? && !a.ReleaseWrite?
    ensures SameColumns(w, Apply(w, a))
  {
    hide Enabled, Apply, SameColumns;
    if a.PayStart? || a.PayRead? || a.PayWrite? || a.PayAbort? {
      QuietPayment(w, a);
    } else if a.ReleaseStart? || a.ReleaseError? || a.ReleaseAbort? {
      QuietRelease(w, a);
    } else {
      QuietReserve(w, a);
    }
  }

  lemma QuietService(w: World, a: Act)
    requires Enabled(w, a) && !OfAHandler(a) && !a.HandleEvent? && !a.CreateSku? && !a.CreateOrder?
    ensures SameColumns(w, Apply(w, a))
  {
    hide RecoveryCommand, Listing;
  }

  // ----- what stays, whoever takes the step -----

  const NoItem := Snapshot(0, Saga(0, Done, Failed, None))

  lemma OwedStays(w: World, a: Act, t: Task)
    requires Enabled(w, a)
    ensures Apply(w, a).owed[t] >= w.owed[t] - if UsesUp(a, t) then 1 else 0
  {
    hide Enabled, Apply, OfAHandler, UsesUp, OfReserve, OfRelease, OfPayment;
    if OfAHandler(a) { HandlerFrame(w, a); } else { OrderFrame(w, a, t, NoItem); }
  }

  lemma ListedStays(w: World, a: Act, item: Snapshot)
    requires Enabled(w, a)
    ensures Apply(w, a).listed[item] >= w.listed[item] - if Frees(a, item) then 1 else 0
  {
    hide Enabled, Apply, OfAHandler, Frees, OfReserve, OfRelease, OfPayment;
    if OfAHandler(a) { HandlerFrame(w, a); } else { OrderFrame(w, a, Record(0, Failed), item); }
  }

  lemma SentStays(w: World, a: Act)
    requires Enabled(w, a)
    ensures Within(w.sent, Apply(w, a).sent)
    ensures Apply(w, a).sent.Keys <= w.sent.Keys + if a.Send? then {a.id} else {}
  {
    hide Enabled, Apply, OfAHandler, OfReserve, OfRelease, OfPayment;
    if OfAHandler(a) { HandlerFrame(w, a); } else { OrderFrame(w, a, Record(0, Failed), NoItem); }
  }

  lemma ReservingStays(w: World, a: Act, o: OrderId)
    requires Enabled(w, a) && o in w.reserving && !OfReserve(w, a, o)
    ensures o in Apply(w, a).reserving && Apply(w, a).reserving[o] == w.reserving[o]
  {
    hide Enabled, Apply, OfAHandler, OfReserve, OfRelease, OfPayment;
    if OfAHandler(a) { HandlerFrame(w, a); } else { OrderFrame(w, a, Record(0, Failed), NoItem); }
  }

  lemma ReleasingStays(w: World, a: Act, o: OrderId)
    requires Enabled(w, a) && o in w.releasing && !OfRelease(w, a, o)
    ensures o in Apply(w, a).releasing && Apply(w, a).releasing[o] == w.releasing[o]
  {
    hide Enabled, Apply, OfAHandler, OfReserve, OfRelease, OfPayment;
    if OfAHandler(a) { HandlerFrame(w, a); } else { OrderFrame(w, a, Record(0, Failed), NoItem); }
  }

  lemma PayingStays(w: World, a: Act, k: nat)
    requires Enabled(w, a) && k in w.paying && !OfPayment(a, k)
    ensures k in Apply(w, a).paying && Apply(w, a).paying[k] == w.paying[k]
  {
    hide Enabled, Apply, OfAHandler, OfReserve, OfRelease, OfPayment;
    if OfAHandler(a) { HandlerFrame(w, a); } else { OrderFrame(w, a, Record(0, Failed), NoItem); }
  }

  /** Another handler is never at work on a record that I hold: a start would find it taken. */
  lemma NotMine(mine: Mine, w: World, a: Act)
    requires Enabled(w, a) && !Works(a, mine) && Held(mine, w)
    ensures forall o :: o in mine.reserving ==> o in w.reserving && !OfReserve(w, a, o)
    ensures forall o :: o in mine.releasing ==> o in w.releasing && !OfRelease(w, a, o)
    ensures forall k :: k in mine.paying ==> k in w.paying && !OfPayment(a, k)
  {}

  lemma HeldStays(mine: Mine, w: World, a: Act)
    requires Enabled(w, a) && Respects(mine, w, a) && Held(mine, w)
    ensures Held(mine, Apply(w, a))
  {
    hide Enabled, Apply, Works, OfReserve, OfRelease, OfPayment;
    var v := Apply(w, a);
    NotMine(mine, w, a);
    SentStays(w, a);
    forall t: Task ensures mine.owed[t] <= v.owed[t] { OwedStays(w, a, t); }
    forall item: Snapshot ensures mine.listed[item] <= v.listed[item] { ListedStays(w, a, item); }
    forall o | o in mine.reserving
      ensures o in v.reserving && v.reserving[o] == mine.reserving[o]
    {
      ReservingStays(w, a, o);
    }
    forall o | o in mine.releasing
      ensures o in v.releasing && v.releasing[o] == mine.releasing[o]
    {
      ReleasingStays(w, a, o);
    }
    forall k | k in mine.paying ensures k in v.paying && v.paying[k] == mine.paying[k] { PayingStays(w, a, k); }
  }

  /** Steps are functions of the world, so a longer run goes on from where a shorter one ended. */
  lemma {:induction false} RunGoesOn(a: World, xs: seq<Act>, b: World, ys: seq<Act>, c: World)
    requires Path(a, xs, b) && Path(a, ys, c) && xs <= ys
    ensures Path(b, ys[|xs|..], c)
    decreases |xs|
  {
    hide Enabled, Apply;
    if xs == [] {
      assert ys[|xs|..] == ys;
    } else {
      assert xs[1..] <= ys[1..];
      RunGoesOn(Apply(a, xs[0]), xs[1..], b, ys[1..], c);
      assert ys[1..][|xs[1..]|..] == ys[|xs|..];
    }
  }

  lemma RunOnlyAdds(b: World, xs: seq<Act>, u: World, ys: seq<Act>, w: World)
    requires Inv(b) && Path(b, xs, u) && Path(b, ys, w) && xs <= ys
    ensures Mono(u, w) && Inv(u) && Inv(w)
  {
    hide Inv, Mono, Path;
    RunGoesOn(b, xs, u, ys, w);
    PathKeeps(b, xs, u);
    PathKeeps(u, ys[|xs|..], w);
  }
}
