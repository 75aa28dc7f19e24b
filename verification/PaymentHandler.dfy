/** The payment command handler as it runs, between steps of everybody else, other workers included. */
module PaymentHandler {
  import opened Types
  import opened OrderStore
  import opened InventoryStore
  import opened PaymentStore
  import opened Protocol
  import opened Invariant
  import opened Runs
  import opened Claims
  import opened Clusters

  function Paying(k: nat, job: PayJob): Mine {
    NoClaims.(paying := map[k := job])
  }

  ghost predicate OtherDbs(w: World, v: World) {
    v.st.orderDb == w.st.orderDb && v.st.inv == w.st.inv
  }

  /** The order's row exists, and its answer to this command is owed. */
  ghost predicate Priced(v: World, cmd: Message, row: Payment) {
    && cmd.ProcessPayment? && cmd.order in v.st.pay.payments && v.st.pay.payments[cmd.order] == row
    && Held(Owing(NoClaims, PaymentAnswer(cmd, row), {}), v)
  }

  lemma PayCommandIs(w: World, k: nat, id: MsgId)
    requires Enabled(w, PayStart(k, id))
    ensures id in w.sent && w.sent[id].ProcessPayment?
  {}

  lemma PayStartStep(w: World, k: nat, id: MsgId)
    requires Enabled(w, PayStart(k, id))
    ensures var v := Apply(w, PayStart(k, id));
      && v.st == w.st
      && if id in w.st.pay.processed then v == w else Held(Paying(k, PayJob(id, w.sent[id], Unread)), v)
  {}

  lemma PayReadStep(w: World, k: nat, job: PayJob)
    requires Held(Paying(k, job), w) && job.cmd.ProcessPayment? && job.phase.Unread?
    ensures Enabled(w, PayRead(k))
    ensures var v, o := Apply(w, PayRead(k)), job.cmd.order;
      && v.st == w.st
      && if o in w.st.pay.payments then Priced(v, job.cmd, w.st.pay.payments[o])
         else Held(Paying(k, job.(phase := NoRow)), v)
  {}

  lemma PayWriteStep(w: World, k: nat, job: PayJob, tx: TxId, success: bool)
    requires Held(Paying(k, job), w) && job.cmd.ProcessPayment? && job.phase.NoRow?
    ensures Enabled(w, PayWrite(k, tx, success))
    ensures var v, o := Apply(w, PayWrite(k, tx, success)), job.cmd.order;
      var row := NewRow(job.cmd, success, tx);
      && OtherDbs(w, v) && v.st.pay == CreateIn(w.st.pay, o, row, job.id)
      && (CanCreate(w.st.pay, o, job.id) ==> Priced(v, job.cmd, row))
  {
    hide Logged, Judge, Consume, Priced;
    if CanCreate(w.st.pay, job.cmd.order, job.id) { CreatedIsPriced(w, k, job, tx, success); }
  }

  lemma CreatedIsPriced(w: World, k: nat, job: PayJob, tx: TxId, success: bool)
    requires job.cmd.ProcessPayment? && CanCreate(w.st.pay, job.cmd.order, job.id)
    ensures var row := NewRow(job.cmd, success, tx);
      Priced(DoPayWrite(w, k, job, tx, success), job.cmd, row)
  {}

  /** The row of an order never changes. */
  lemma RowStands(b: World, so: seq<Act>, at: World, run: seq<Act>, w: World, o: OrderId)
    requires Inv(b) && Path(b, so, at) && Path(b, run, w) && so <= run && o in at.st.pay.payments
    ensures o in w.st.pay.payments && w.st.pay.payments[o] == at.st.pay.payments[o]
  {
    hide Inv, Path, OrdersGrow, SagasGrow, StockGrows;
    RunOnlyAdds(b, so, at, run, w);
  }

  /** A command id is marked only together with the row of the command's order. */
  lemma MarkedHasRow(w: World, run: seq<Act>, k: nat, job: PayJob)
    requires Path(Initial(w.budget), run, w) && Held(Paying(k, job), w) && job.id in w.st.pay.processed
    ensures job.cmd.ProcessPayment? && job.cmd.order in w.st.pay.payments
  {
    hide Path, Inv;
    ReachableOk(w) by { assert Reachable(w); }
    JobIsSent(w, k);
  }

  lemma JobIsSent(w: World, k: nat)
    requires Inv(w) && k in w.paying && w.paying[k].id in w.st.pay.processed
    ensures w.paying[k].cmd.ProcessPayment? && w.paying[k].cmd.order in w.st.pay.payments
  {
    hide StoresOk, MessagesOk, RecordsOk, Justified;
    assert PayJobOk(w, w.paying[k]);
  }

  class PaymentCommandHandler {
    const c: Cluster

    constructor (c: Cluster)
      ensures this.c == c
    {
      this.c := c;
    }

    /** Finds the order's row or creates it, as of world `at`, reached by the steps `so`; None when another worker
        created it in between. With nobody else about, a missing row is created and answered. */
    method FindOrCreate(k: nat, job: PayJob, success: bool, tx: TxId, meanwhile: seq<Act>, afterwards: seq<Act>)
      returns (answer: Option<Payment>, ghost at: World, ghost so: seq<Act>)
      requires c.Valid() && Held(Paying(k, job), c.world) && job.cmd.ProcessPayment? && job.phase.Unread?
      modifies c.Parts()
      ensures c.Valid() && old(c.run) <= so <= c.run && Path(Initial(c.budget), so, at)
      ensures Decides(at, so, c.run, k, job.cmd, success, tx, answer)
      ensures meanwhile == [] && afterwards == [] && job.cmd.order !in old(c.payments.payments) ==>
        answer == Some(NewRow(job.cmd, success, tx))
      ensures meanwhile == [] && afterwards == [] ==>
        c.run == old(c.run) + [PayRead(k)] +
          if job.cmd.order in old(c.payments.payments) then [] else [PayWrite(k, tx, success)]
      ensures job.cmd.order in c.world.st.pay.payments
      ensures answer.Some? ==> Priced(c.world, job.cmd, answer.value)
      ensures job.cmd.order in old(c.payments.payments) ==> answer == Some(old(c.payments.payments)[job.cmd.order])
    {
      hide Enabled, Apply, Path, Held, Priced, Inv, CreateIn, CanCreate;
      ghost var start, first := c.world, c.run;
      InitialOk(c.budget);
      c.Others(meanwhile, Paying(k, job));
      if job.cmd.order in start.st.pay.payments {
        RowStands(Initial(c.budget), first, start, c.run, c.world, job.cmd.order);
      }
      var existing := c.payments.GetByOrderId(job.cmd.order);
      PayReadStep(c.world, k, job);
      at, so := c.world, c.run;
      c.Did(PayRead(k));
      if existing.Some? {
        PricedIsHeld(c.world, job.cmd, existing.value);
        answer := existing;
        return;
      }
      var missed := job.(phase := NoRow);
      c.Others(afterwards, Paying(k, missed));
      var row := NewRow(job.cmd, success, tx);
      PayWriteStep(c.world, k, missed, tx, success);
      at, so := c.world, c.run;
      ClashHasRow(c.world, c.run, k, missed, row);
      CreatesIff(c.world, c.run, k, missed);
      var r := c.payments.CreatePaymentWithEvent(job.cmd.order, row, job.id);
      c.Did(PayWrite(k, tx, success));
      answer := if r.Ok? then Some(row) else None;
    }

    /**
     * Worker `k` handles a payment command; `success` is the outcome it would give a new payment and `tx` its
     * transaction id. A row that exists is answered as it is. No answer means that the command id was marked
     * already, which is no error and changes nothing, or that another worker created the row in between,
     * which is one.
     */
    method HandleProcess(k: nat, id: MsgId, success: bool, tx: TxId, meanwhile: seq<Act>, afterwards: seq<Act>,
                         net: Network)
      returns (ok: bool, answer: Option<Payment>, ghost at: World, ghost so: seq<Act>)
      requires c.Valid() && Enabled(c.world, PayStart(k, id))
      modifies c.Parts()
      ensures c.Valid() && old(c.run) + [PayStart(k, id)] <= c.run
      ensures id in old(c.payments.processed) ==> ok && answer.None? && c.world == old(c.world)
      ensures id !in old(c.payments.processed) ==>
        && old(c.run) + [PayStart(k, id)] <= so && Path(Initial(c.budget), so, at)
        && Settles(old(c.world), id, answer, ok, c.world, net)
        && Decides(at, so, c.run, k, old(c.world).sent[id], success, tx, answer)
      ensures var o := old(c.world).sent[id].order;
        id !in old(c.payments.processed) && meanwhile == [] && afterwards == [] && o !in old(c.payments.payments) ==>
          && answer == Some(NewRow(old(c.world).sent[id], success, tx))
          && c.payments.payments[o] == answer.value
      ensures meanwhile == [] && afterwards == [] && Alone(net) ==>
        ProcessAlone(old(c.world), k, id, success, tx, old(c.run), c.run, net)
    {
      hide Enabled, Apply, Path, Held, Priced, GoesOut, Reaches, SentSince, PublishedOnce, Alone, ProcessAlone, Inv;
      hide Decides;
      PayCommandIs(c.world, k, id);
      ghost var before, begun := c.world, c.run;
      var cmd := c.world.sent[id];
      PayStartStep(c.world, k, id);
      AloneMarked(c.world, k, id, success, tx, c.run, net);
      var done := c.payments.IsProcessed(id);
      c.Did(PayStart(k, id));
      if done { return true, None, c.world, c.run; }
      answer, at, so := FindOrCreate(k, PayJob(id, cmd, Unread), success, tx, meanwhile, afterwards);
      ok := false;
      ghost var settled, first := c.world, c.run;
      if answer.Some? {
        ok := PublishProcessed(cmd, answer.value, net);
        if meanwhile == [] && afterwards == [] && Alone(net) {
          ProcessedAlone(before, k, id, success, tx, begun, first, c.run, net, answer.value);
        }
        DecidesStill(at, so, first, c.run, k, cmd, success, tx, answer);
        if ok || Reaches(net) {
          SinceEarlier(c.budget, begun, before, first, settled, c.world, PaymentAnswer(cmd, answer.value));
        }
      }
    }

    /** Publishes the answer, which is still the order's row when this returns. */
    method PublishProcessed(cmd: Message, row: Payment, net: Network) returns (ok: bool)
      requires c.Valid() && Priced(c.world, cmd, row)
      modifies c.Parts()
      ensures c.Valid() && old(c.run) <= c.run
      ensures ok <==> GoesOut(net)
      ensures ok || Reaches(net) ==> SentSince(old(c.world).sent.Keys, c.world, PaymentAnswer(cmd, row))
      ensures Alone(net) ==> PublishedOnce(old(c.run), c.run, net, PaymentAnswer(cmd, row))
      ensures cmd.order in c.world.st.pay.payments && c.world.st.pay.payments[cmd.order] == row
    {
      hide Enabled, Apply, Path, Held, Priced, GoesOut, Reaches, SentSince, PublishedOnce, Alone, Inv;
      PricedIsHeld(c.world, cmd, row);
      ghost var at, so := c.world, c.run;
      ok := c.Publish(PaymentAnswer(cmd, row), net, NoClaims);
      InitialOk(c.budget);
      RowStands(Initial(c.budget), so, at, c.run, c.world, cmd.order);
    }
  }

  lemma DecidesStill(at: World, so: seq<Act>, run: seq<Act>, later: seq<Act>, k: nat, cmd: Message, success: bool,
                     tx: TxId, answer: Option<Payment>)
    requires Decides(at, so, run, k, cmd, success, tx, answer) && run <= later
    ensures Decides(at, so, later, k, cmd, success, tx, answer)
  {}

  /** The row that a command leads to when its order has none. */
  function NewRow(cmd: Message, success: bool, tx: TxId): Payment
    requires cmd.ProcessPayment?
  {
    Payment(cmd.amount, if success then PaymentSuccess else PaymentFailed, tx)
  }

  /**
   * How a worker comes to its answer, at world `at`, by its next step: a row that is not there yet is created, one
   * that it reads is answered as it is, and only one that was created between its read and its write is a clash.
   */
  ghost predicate Decides(at: World, so: seq<Act>, run: seq<Act>, k: nat, cmd: Message, success: bool, tx: TxId,
                          answer: Option<Payment>)
  {
    && cmd.ProcessPayment?
    && if cmd.order !in at.st.pay.payments then
         so + [PayWrite(k, tx, success)] <= run && answer == Some(NewRow(cmd, success, tx))
       else
         || (so + [PayRead(k)] <= run && answer == Some(at.st.pay.payments[cmd.order]))
         || (so + [PayWrite(k, tx, success)] <= run && answer.None?)
  }

  /** With nobody else about, these are the only steps: a marked id is looked at, a row that is there is read and
      answered, and a missing one is created first. */
  ghost predicate ProcessAlone(w: World, k: nat, id: MsgId, success: bool, tx: TxId, before: seq<Act>, after: seq<Act>,
                               net: Network)
  {
    && id in w.sent && w.sent[id].ProcessPayment?
    && var cmd, begun := w.sent[id], before + [PayStart(k, id)];
    if id in w.st.pay.processed then after == begun
    else if cmd.order in w.st.pay.payments then
      PublishedOnce(begun + [PayRead(k)], after, net, PaymentAnswer(cmd, w.st.pay.payments[cmd.order]))
    else
      PublishedOnce(begun + [PayRead(k)] + [PayWrite(k, tx, success)], after, net,
                    PaymentAnswer(cmd, NewRow(cmd, success, tx)))
  }

  lemma AloneMarked(w: World, k: nat, id: MsgId, success: bool, tx: TxId, before: seq<Act>, net: Network)
    requires id in w.sent && w.sent[id].ProcessPayment?
    ensures id in w.st.pay.processed ==> ProcessAlone(w, k, id, success, tx, before, before + [PayStart(k, id)], net)
  {
    hide PublishedOnce;
  }

  lemma ProcessedAlone(w: World, k: nat, id: MsgId, success: bool, tx: TxId, before: seq<Act>, settled: seq<Act>,
                  after: seq<Act>, net: Network, row: Payment)
    requires id in w.sent && w.sent[id].ProcessPayment? && id !in w.st.pay.processed
    requires var o, pay := w.sent[id].order, w.st.pay.payments;
      && row == (if o in pay then pay[o] else NewRow(w.sent[id], success, tx))
      && settled == before + [PayStart(k, id)] + [PayRead(k)] +
           if o in pay then [] else [PayWrite(k, tx, success)]
    requires PublishedOnce(settled, after, net, PaymentAnswer(w.sent[id], row))
    ensures ProcessAlone(w, k, id, success, tx, before, after, net)
  {
    hide PublishedOnce;
    var begun := before + [PayStart(k, id)] + [PayRead(k)];
    assert begun + [] == begun;
  }

  /** What handling an unmarked payment command comes to, from world `w` to `v`. */
  ghost predicate Settles(w: World, id: MsgId, answer: Option<Payment>, ok: bool, v: World, net: Network) {
    && id in w.sent && w.sent[id].ProcessPayment?
    && var cmd, o := w.sent[id], w.sent[id].order;
    && o in v.st.pay.payments
    && (o in w.st.pay.payments ==> answer == Some(w.st.pay.payments[o]))
    && match answer
       case None => !ok
       case Some(row) =>
         && row == v.st.pay.payments[o]
         && (ok <==> GoesOut(net))
         && (ok || Reaches(net) ==> SentSince(w.sent.Keys, v, PaymentAnswer(cmd, row)))
  }

  lemma PricedIsHeld(v: World, cmd: Message, row: Payment)
    requires Priced(v, cmd, row)
    ensures cmd.ProcessPayment? && cmd.order in v.st.pay.payments && v.st.pay.payments[cmd.order] == row
    ensures Held(Owing(NoClaims, PaymentAnswer(cmd, row), {}), v)
  {}

  /** When the row cannot be created it exists, so it exists afterwards in either case. */
  lemma ClashHasRow(w: World, run: seq<Act>, k: nat, job: PayJob, row: Payment)
    requires Path(Initial(w.budget), run, w) && Held(Paying(k, job), w) && job.cmd.ProcessPayment?
    ensures job.cmd.order in CreateIn(w.st.pay, job.cmd.order, row, job.id).payments
  {
    hide Path;
    if job.id in w.st.pay.processed { MarkedHasRow(w, run, k, job); }
  }

  /** A missing row can be created: the command's id is not marked either. */
  lemma CreatesIff(w: World, run: seq<Act>, k: nat, job: PayJob)
    requires Path(Initial(w.budget), run, w) && Held(Paying(k, job), w) && job.cmd.ProcessPayment?
    ensures CanCreate(w.st.pay, job.cmd.order, job.id) <==> job.cmd.order !in w.st.pay.payments
  {
    hide Path;
    if job.id in w.st.pay.processed { MarkedHasRow(w, run, k, job); }
  }
}
