/** The inventory command handler as it runs, between steps of everybody else. */
module InventoryHandler {
  import opened Types
  import opened InventoryStore
  import opened Protocol
  import opened Invariant
  import opened Runs
  import opened Claims
  import opened Clusters
  import opened Stock

  function Reserving(job: ReserveJob): Mine {
    NoClaims.(reserving := map[job.cmd.order := job])
  }

  function Reply(cmd: Message, ok: bool): Message
    requires cmd.ReserveInventory? || cmd.ReleaseInventory?
  {
    if cmd.ReserveInventory? then InventoryReserved(cmd.saga, cmd.order, cmd.product, cmd.quantity, ok)
    else InventoryReleased(cmd.saga, cmd.order, cmd.product, cmd.quantity, ok)
  }

  /** The databases are as they were, and the handler now owes this answer. */
  ghost predicate Answered(v: World, cmd: Message, ok: bool) {
    && cmd.ReserveInventory? && Held(Owing(NoClaims, Reply(cmd, ok), {}), v)
    && cmd.order in v.st.answers && v.st.answers[cmd.order] != []
    && v.st.answers[cmd.order][|v.st.answers[cmd.order]| - 1] == ok
  }

  ghost predicate SameDbs(w: World, v: World) {
    v.st.orderDb == w.st.orderDb && v.st.inv == w.st.inv && v.st.pay == w.st.pay
  }

  ghost predicate Short(w: World, cmd: Message)
    requires cmd.ReserveInventory?
  {
    cmd.product in w.st.inv.rows && w.st.inv.rows[cmd.product].available < cmd.quantity
  }

  // ----- the handler's own steps -----

  lemma AnswerIsOwed(w: World, cmd: Message, ok: bool)
    requires cmd.ReserveInventory?
    ensures Answered(AnswerReserve(w, cmd, ok), cmd, ok)
  {}

  lemma StartStep(w: World, id: MsgId)
    requires Enabled(w, ReserveStart(id))
    ensures var cmd, v := w.sent[id], Apply(w, ReserveStart(id));
      && SameDbs(w, v)
      && if cmd.order in Logged(w.st.inv.logs, Reserve) then Answered(v, cmd, true)
         else Held(Reserving(ReserveJob(cmd, 0, Ready, |w.st.inv.logs|)), v)
  {
    hide Answered, Logged, AnswerReserve;
    AnswerIsOwed(w, w.sent[id], true);
  }

  lemma ReadStep(w: World, job: ReserveJob)
    requires Held(Reserving(job), w) && job.cmd.ReserveInventory? && job.phase.Ready? && job.attempt < w.budget
    requires job.cmd.product in w.st.inv.rows
    ensures Enabled(w, ReserveRead(job.cmd.order))
    ensures var row, v := w.st.inv.rows[job.cmd.product], Apply(w, ReserveRead(job.cmd.order));
      && SameDbs(w, v)
      && if row.available < job.cmd.quantity then Answered(v, job.cmd, false)
         else Held(Reserving(job.(phase := HasRead(row.version, row.available, |w.st.inv.logs|))), v)
  {
    hide Answered, Logged, AnswerReserve;
    AnswerIsOwed(w, job.cmd, false);
  }

  lemma WriteStep(w: World, job: ReserveJob)
    requires Held(Reserving(job), w) && job.cmd.ReserveInventory? && job.phase.HasRead?
    ensures Enabled(w, ReserveWrite(job.cmd.order))
    ensures var cmd, v := job.cmd, Apply(w, ReserveWrite(job.cmd.order));
      && v.st.orderDb == w.st.orderDb && v.st.pay == w.st.pay
      && v.st.inv == ReserveIn(w.st.inv, cmd.product, cmd.order, job.phase.version, cmd.quantity)
      && if CanReserve(w.st.inv, cmd.product, job.phase.version, cmd.quantity) then Answered(v, cmd, true)
         else Held(Reserving(job.(attempt := job.attempt + 1, phase := Ready)), v)
  {
    hide Answered, Logged, AnswerReserve, CanReserve;
    var inv := ReserveIn(w.st.inv, job.cmd.product, job.cmd.order, job.phase.version, job.cmd.quantity);
    AnswerIsOwed(w.(st := w.st.(inv := inv)), job.cmd, true);
  }

  lemma LastStep(w: World, job: ReserveJob)
    requires Held(Reserving(job), w) && job.cmd.ReserveInventory? && job.phase.Ready? && job.attempt >= w.budget
    ensures Enabled(w, ReserveExhausted(job.cmd.order))
    ensures var v := Apply(w, ReserveExhausted(job.cmd.order)); SameDbs(w, v) && Answered(v, job.cmd, false)
    ensures Enabled(w, ReserveAbort(job.cmd.order))
    ensures SameDbs(w, Apply(w, ReserveAbort(job.cmd.order)))
  {
    hide Answered, AnswerReserve;
    AnswerIsOwed(w, job.cmd, false);
  }

  lemma AbortStep(w: World, job: ReserveJob)
    requires Held(Reserving(job), w)
    ensures Enabled(w, ReserveAbort(job.cmd.order)) && SameDbs(w, Apply(w, ReserveAbort(job.cmd.order)))
  {}

  /** What an answer means by the time that the handler returns. */
  lemma AnswerStands(b: World, so: seq<Act>, at: World, run: seq<Act>, w: World, cmd: Message, ok: bool)
    requires Inv(b) && Path(b, so, at) && Path(b, run, w) && so <= run && Answered(at, cmd, ok)
    ensures if ok then Holds(w.st, cmd.order) else Refused(w.st, cmd.order)
  {
    hide Inv, Path, OrdersGrow, SagasGrow, StockGrows, Held;
    RunOnlyAdds(b, so, at, run, w);
    AnswersFacts(at);
    var answers := at.st.answers[cmd.order];
    assert answers[|answers| - 1] == w.st.answers[cmd.order][|answers| - 1];
  }

  lemma AnswersFacts(w: World)
    requires Inv(w)
    ensures AnswersOk(w.st)
  {}

  datatype AttemptResult = NoProduct | TooFew | Won | Lost

  /**
   * What handling a reserve command comes to, from world `w` to `v`, with the answer decided at `at`. No answer
   * means that the product does not exist, which is an error. Yes means that the order holds stock. No means that
   * it was refused, and either stock was short or each attempt lost to its own commit by another order.
   */
  ghost predicate ReserveOutcome(w: World, id: MsgId, answer: Option<bool>, ok: bool, at: World, v: World,
                                 net: Network)
    requires id in w.sent && w.sent[id].ReserveInventory?
  {
    var cmd := w.sent[id];
    match answer
    case None => !ok && cmd.product !in at.st.inv.rows
    case Some(yes) =>
      && (ok <==> GoesOut(net))
      && (ok || Reaches(net) ==> SentSince(w.sent.Keys, v, Reply(cmd, yes)))
      && if yes then Holds(v.st, cmd.order)
         else
           && Refused(v.st, cmd.order)
           && (Short(at, cmd) || |Rivals(at.st.inv.logs, |w.st.inv.logs|, cmd.product, cmd.order)| >= w.budget)
  }

  /** What one attempt comes to when nobody else is about: it is decided by the row alone. */
  ghost predicate Undisturbed(inv: InventoryDb, cmd: Message, result: AttemptResult, after: InventoryDb)
    requires cmd.ReserveInventory?
  {
    match result
    case NoProduct => cmd.product !in inv.rows && after == inv
    case TooFew => cmd.product in inv.rows && inv.rows[cmd.product].available < cmd.quantity && after == inv
    case Won =>
      && cmd.product in inv.rows && inv.rows[cmd.product].available >= cmd.quantity
      && after.logs == inv.logs + [LogEntry(cmd.product, cmd.order, Reserve, cmd.quantity)]
    case Lost => false
  }

  /** What a whole command comes to when nobody else is about, from world `w` to the decision at `at`. */
  ghost predicate AloneOutcome(w: World, cmd: Message, answer: Option<bool>, at: World)
    requires cmd.ReserveInventory?
  {
    var inv := w.st.inv;
    if cmd.order in Logged(inv.logs, Reserve) then answer == Some(true) && at.st.inv == inv
    else if w.budget <= 0 then answer == Some(false) && at.st.inv == inv
    else if cmd.product !in inv.rows then answer == None && at.st.inv == inv
    else
      && answer == Some(inv.rows[cmd.product].available >= cmd.quantity)
      && at.st.inv.logs ==
           inv.logs + if answer.value then [LogEntry(cmd.product, cmd.order, Reserve, cmd.quantity)] else []
  }

  /** The steps of an attempt that nobody disturbs. */
  function StepsTo(result: AttemptResult, o: OrderId): seq<Act> {
    match result
    case NoProduct => [ReserveAbort(o)]
    case TooFew => [ReserveRead(o)]
    case Won => [ReserveRead(o), ReserveWrite(o)]
    case Lost => []
  }

  /** The steps of a whole command that nobody disturbs, from its start to its decision. */
  ghost function StepsAlone(w: World, cmd: Message): seq<Act>
    requires cmd.ReserveInventory?
  {
    var rows := w.st.inv.rows;
    if cmd.order in Logged(w.st.inv.logs, Reserve) then []
    else if w.budget <= 0 then [ReserveExhausted(cmd.order)]
    else if cmd.product !in rows then [ReserveAbort(cmd.order)]
    else if rows[cmd.product].available < cmd.quantity then [ReserveRead(cmd.order)]
    else [ReserveRead(cmd.order), ReserveWrite(cmd.order)]
  }

  lemma NotLost(inv: InventoryDb, cmd: Message, result: AttemptResult, after: InventoryDb, attempt: nat)
    requires cmd.ReserveInventory? && result.Lost? && (attempt > 0 ==> Undisturbed(inv, cmd, result, after))
    ensures attempt == 0
  {}

  lemma AttemptsDecide(w: World, cmd: Message, result: AttemptResult, at: World)
    requires cmd.ReserveInventory? && cmd.order !in Logged(w.st.inv.logs, Reserve)
    requires if w.budget <= 0 then result.Lost? && at.st.inv == w.st.inv
             else Undisturbed(w.st.inv, cmd, result, at.st.inv)
    ensures forall v: World ::
      v.st.inv == at.st.inv ==> AloneOutcome(w, cmd, if result.NoProduct? then None else Some(result.Won?), v)
    ensures StepsAlone(w, cmd) == if result.Lost? then [ReserveExhausted(cmd.order)] else StepsTo(result, cmd.order)
  {
    hide Logged;
  }

  lemma FoundDecides(w: World, cmd: Message, at: World)
    requires cmd.ReserveInventory? && cmd.order in Logged(w.st.inv.logs, Reserve) && at.st.inv == w.st.inv
    ensures AloneOutcome(w, cmd, Some(true), at) && StepsAlone(w, cmd) == []
  {
    hide Logged;
  }

  /** With nobody else about, the version that was read is still the row's own. */
  lemma WriteUndisturbed(inv: InventoryDb, cmd: Message)
    requires cmd.ReserveInventory? && cmd.product in inv.rows && inv.rows[cmd.product].available >= cmd.quantity
    ensures var version := inv.rows[cmd.product].version;
      && CanReserve(inv, cmd.product, version, cmd.quantity)
      && Undisturbed(inv, cmd, Won, ReserveIn(inv, cmd.product, cmd.order, version, cmd.quantity))
  {}

  /** Nobody else is about. */
  ghost predicate NobodyAbout(others: nat -> seq<Act>) {
    forall i :: others(i) == []
  }

  class InventoryCommandHandler {
    const c: Cluster

    constructor (c: Cluster)
      ensures this.c == c
    {
      this.c := c;
    }

    /** Publishes the answer; by the time this returns, the answer stands, whether or not it went out. */
    method PublishReserved(cmd: Message, success: bool, net: Network) returns (ok: bool)
      requires c.Valid() && Answered(c.world, cmd, success)
      modifies c.Parts()
      ensures c.Valid() && old(c.run) <= c.run
      ensures ok <==> GoesOut(net)
      ensures ok || Reaches(net) ==> SentSince(old(c.world).sent.Keys, c.world, Reply(cmd, success))
      ensures Alone(net) ==> PublishedOnce(old(c.run), c.run, net, Reply(cmd, success))
      ensures if success then Holds(c.world.st, cmd.order) else Refused(c.world.st, cmd.order)
    {
      hide Enabled, Apply, Path, Held, Inv, GoesOut, Holds, Refused;
      ghost var at, so := c.world, c.run;
      ok := c.Publish(Reply(cmd, success), net, NoClaims);
      InitialOk(c.budget);
      AnswerStands(Initial(c.budget), so, at, c.run, c.world, cmd, success);
    }

    /** One pass of the loop: read the row, and if there is enough, try the optimistic update. `meanwhile` and
        `afterwards` are what everybody else does before the read and before the update. */
    method Attempt(job: ReserveJob, meanwhile: seq<Act>, afterwards: seq<Act>) returns (result: AttemptResult)
      requires c.Valid() && job.cmd.ReserveInventory? && job.phase.Ready? && job.attempt < c.budget
      requires Held(Reserving(job), c.world)
      modifies c.Parts()
      ensures c.Valid() && old(c.run) <= c.run
      ensures match result
              case NoProduct => job.cmd.product !in c.world.st.inv.rows
              case TooFew => Answered(c.world, job.cmd, false) && Short(c.world, job.cmd)
              case Won => Answered(c.world, job.cmd, true)
              case Lost => Held(Reserving(job.(attempt := job.attempt + 1)), c.world)
      ensures meanwhile == [] && afterwards == [] ==>
        && Undisturbed(old(c.stock.Db()), job.cmd, result, c.stock.Db())
        && c.run == old(c.run) + StepsTo(result, job.cmd.order)
    {
      hide Enabled, Apply, Path, Held, Answered, CanReserve, ReserveIn;
      var cmd := job.cmd;
      c.Others(meanwhile, Reserving(job));
      var r := c.stock.GetByProductId(cmd.product);
      if r.Err? {
        AbortStep(c.world, job);
        c.Did(ReserveAbort(cmd.order));
        return NoProduct;
      }
      var row := r.value;
      ReadStep(c.world, job);
      c.Did(ReserveRead(cmd.order));
      if row.available < cmd.quantity { return TooFew; }
      var read := job.(phase := HasRead(row.version, row.available, |c.stock.logs|));
      c.Others(afterwards, Reserving(read));
      WriteStep(c.world, read);
      if afterwards == [] { WriteUndisturbed(c.world.st.inv, cmd); }
      var rowsAffected := c.stock.ReserveAtomic(cmd.product, cmd.order, row.version, cmd.quantity);
      c.Did(ReserveWrite(cmd.order));
      result := if rowsAffected > 0 then Won else Lost;
    }

    /** The attempt loop, until the budget is used up. */
    method Attempts(cmd: Message, mark: nat, others: nat -> seq<Act>) returns (result: AttemptResult, ghost tried: nat)
      requires c.Valid() && cmd.ReserveInventory? && Held(Reserving(ReserveJob(cmd, 0, Ready, mark)), c.world)
      modifies c.Parts()
      ensures c.Valid() && old(c.run) <= c.run
      ensures match result
              case NoProduct => cmd.product !in c.world.st.inv.rows
              case TooFew => Answered(c.world, cmd, false) && Short(c.world, cmd)
              case Won => Answered(c.world, cmd, true)
              case Lost => tried >= c.budget && Held(Reserving(ReserveJob(cmd, tried, Ready, mark)), c.world)
      ensures NobodyAbout(others) ==>
        if c.budget <= 0 then result.Lost? && c.world == old(c.world) && c.run == old(c.run)
        else
          && Undisturbed(old(c.world).st.inv, cmd, result, c.world.st.inv)
          && c.run == old(c.run) + StepsTo(result, cmd.order)
    {
      hide Enabled, Apply, Path, Held, Answered, Undisturbed, Short;
      ghost var before, begun := c.world, c.run;
      var attempt := 0;
      result := Lost;
      while attempt < c.budget && result.Lost?
        invariant attempt >= 0 && c.Valid() && begun <= c.run
        invariant match result
                  case Lost => Held(Reserving(ReserveJob(cmd, attempt, Ready, mark)), c.world)
                  case Won => Answered(c.world, cmd, true)
                  case TooFew => Answered(c.world, cmd, false) && Short(c.world, cmd)
                  case NoProduct => cmd.product !in c.world.st.inv.rows
        invariant attempt == 0 || attempt <= c.budget
        invariant attempt == 0 ==> result.Lost? && c.world == before && c.run == begun
        invariant NobodyAbout(others) && attempt > 0 ==>
          Undisturbed(before.st.inv, cmd, result, c.world.st.inv) && c.run == begun + StepsTo(result, cmd.order)
        decreases c.budget - attempt
      {
        if NobodyAbout(others) { NotLost(before.st.inv, cmd, result, c.world.st.inv, attempt); }
        result := Attempt(ReserveJob(cmd, attempt, Ready, mark), others(2 * attempt), others(2 * attempt + 1));
        attempt := attempt + 1;
      }
      tried := attempt;
    }

    /**
     * `others(i)` is what everybody else does before this handler's i-th access after its first; the answer is
     * decided at world `at`, reached by the steps `so`.
     */
    method HandleReserve(id: MsgId, others: nat -> seq<Act>, net: Network)
      returns (ok: bool, answer: Option<bool>, ghost at: World, ghost so: seq<Act>)
      requires c.Valid() && Enabled(c.world, ReserveStart(id))
      modifies c.Parts()
      ensures c.Valid() && old(c.run) + [ReserveStart(id)] <= so <= c.run && Path(Initial(c.budget), so, at)
      ensures old(c.world).sent[id].order in Logged(old(c.stock.logs), Reserve) ==> answer == Some(true)
      ensures NobodyAbout(others) ==>
        && AloneOutcome(old(c.world), old(c.world).sent[id], answer, at)
        && so == old(c.run) + [ReserveStart(id)] + StepsAlone(old(c.world), old(c.world).sent[id])
      ensures Alone(net) && answer.Some? ==>
        PublishedOnce(so, c.run, net, Reply(old(c.world).sent[id], answer.value))
      ensures ReserveOutcome(old(c.world), id, answer, ok, at, c.world, net)
    {
      hide Enabled, Apply, Path, Held, Answered, Rivals, GoesOut, Reaches, SentSince, Holds, Refused, Logged, Short;
      hide AloneOutcome, Undisturbed, StepsAlone, PublishedOnce, Alone;
      CommandIs(c.world, id);
      ghost var before, begun := c.world, c.run;
      var cmd := c.world.sent[id];
      var mark := |c.stock.logs|;
      StartStep(c.world, id);
      var found := c.stock.Exists(cmd.order, Reserve);
      c.Did(ReserveStart(id));
      var result := Won;
      if !found {
        ghost var tried;
        result, tried := Attempts(cmd, mark, others);
        if NobodyAbout(others) { AttemptsDecide(before, cmd, result, c.world); }
        if result.NoProduct? { return false, None, c.world, c.run; }
        if result.Lost? {
          LastStep(c.world, ReserveJob(cmd, tried, Ready, mark));
          BeatenEachTime(c.world, c.run, ReserveJob(cmd, tried, Ready, mark));
          c.Did(ReserveExhausted(cmd.order));
        }
      } else {
        FoundDecides(before, cmd, c.world);
      }
      at, so, answer := c.world, c.run, Some(result.Won?);
      ok := PublishReserved(cmd, result.Won?, net);
      if ok || Reaches(net) { SinceEarlier(c.budget, begun, before, so, at, c.world, Reply(cmd, result.Won?)); }
    }

    method PublishReleased(cmd: Message, success: bool, net: Network) returns (ok: bool)
      requires c.Valid() && GivenBack(c.world, cmd, success)
      modifies c.Parts()
      ensures c.Valid() && old(c.run) <= c.run
      ensures ok <==> GoesOut(net)
      ensures ok || Reaches(net) ==> SentSince(old(c.world).sent.Keys, c.world, Reply(cmd, success))
      ensures Alone(net) ==> PublishedOnce(old(c.run), c.run, net, Reply(cmd, success))
      ensures if success then GaveBack(c.world.st, cmd.order) else cmd.order in c.world.st.releaseRefused
    {
      hide Enabled, Apply, Path, Held, Inv, GoesOut, GaveBack;
      ghost var at, so := c.world, c.run;
      ok := c.Publish(Reply(cmd, success), net, NoClaims);
      InitialOk(c.budget);
      ReleaseStands(Initial(c.budget), so, at, c.run, c.world, cmd, success);
    }

    /** `fails` says whether the release transaction reports an error. Nothing else makes the answer no: the
        product is always found. An order that has given back its stock is not given it twice. The answer is
        decided at world `at`, reached by the steps `so`. */
    method HandleRelease(id: MsgId, fails: bool, meanwhile: seq<Act>, net: Network)
      returns (ok: bool, success: bool, ghost at: World, ghost so: seq<Act>)
      requires c.Valid() && Enabled(c.world, ReleaseStart(id))
      modifies c.Parts()
      ensures c.Valid() && old(c.run) + [ReleaseStart(id)] <= so <= c.run && Path(Initial(c.budget), so, at)
      ensures id in old(c.world.sent) && old(c.world.sent[id]).ReleaseInventory?
      ensures var cmd := old(c.world.sent[id]);
        && (success <==> !fails || cmd.order in Logged(old(c.stock.logs), Release))
        && (ok <==> GoesOut(net))
        && (ok || Reaches(net) ==> SentSince(old(c.world).sent.Keys, c.world, Reply(cmd, success)))
        && if success then GaveBack(c.world.st, cmd.order) else cmd.order in c.world.st.releaseRefused
      ensures meanwhile == [] ==> var cmd, logs := old(c.world.sent[id]), old(c.stock.logs);
        if cmd.order in Logged(logs, Release) then
          at.st.inv.logs == logs && so == old(c.run) + [ReleaseStart(id)]
        else if fails then
          at.st.inv.logs == logs && so == old(c.run) + [ReleaseStart(id)] + [ReleaseError(cmd.order)]
        else
          && at.st.inv.logs == logs + [LogEntry(cmd.product, cmd.order, Release, cmd.quantity)]
          && so == old(c.run) + [ReleaseStart(id)] + [ReleaseWrite(cmd.order)]
      ensures Alone(net) ==> PublishedOnce(so, c.run, net, Reply(old(c.world.sent[id]), success))
    {
      hide Enabled, Apply, Path, Held, GivenBack, GoesOut, Reaches, SentSince, PublishedOnce, Alone, GaveBack, Logged;
      ReleaseCommandIs(c.world, id);
      ghost var before, begun := c.world, c.run;
      var cmd := c.world.sent[id];
      ReleaseStartStep(c.world, id);
      success := c.stock.Exists(cmd.order, Release);
      c.Did(ReleaseStart(id));
      if !success { success := RunRelease(cmd, fails, meanwhile); }
      at, so := c.world, c.run;
      ok := PublishReleased(cmd, success, net);
      if ok || Reaches(net) { SinceEarlier(c.budget, begun, before, so, at, c.world, Reply(cmd, success)); }
    }

    /** Runs the release transaction. */
    method RunRelease(cmd: Message, fails: bool, meanwhile: seq<Act>) returns (success: bool)
      requires c.Valid() && cmd.ReleaseInventory? && Held(Releasing(cmd), c.world)
      modifies c.Parts()
      ensures c.Valid() && old(c.run) <= c.run && GivenBack(c.world, cmd, success)
      ensures success <==> !fails
      ensures meanwhile == [] ==>
        c.stock.logs == old(c.stock.logs) +
          if fails then [] else [LogEntry(cmd.product, cmd.order, Release, cmd.quantity)]
      ensures meanwhile == [] ==>
        c.run == old(c.run) + [if fails then ReleaseError(cmd.order) else ReleaseWrite(cmd.order)]
    {
      hide Enabled, Apply, Path, Held, GivenBack, Logged, ReleaseIn;
      c.Others(meanwhile, Releasing(cmd));
      ReleaseSteps(c.world, c.run, cmd);
      if fails {
        c.Did(ReleaseError(cmd.order));
        return false;
      }
      ReleaseAdds(c.world.st.inv, cmd);
      var rowsAffected := c.stock.ReleaseAtomic(cmd.product, cmd.order, cmd.quantity);
      c.Did(ReleaseWrite(cmd.order));
      success := rowsAffected > 0;
    }
  }

  lemma ReleaseAdds(inv: InventoryDb, cmd: Message)
    requires cmd.ReleaseInventory? && cmd.product in inv.rows
    ensures ReleaseIn(inv, cmd.product, cmd.order, cmd.quantity).logs ==
            inv.logs + [LogEntry(cmd.product, cmd.order, Release, cmd.quantity)]
  {}

  function Releasing(cmd: Message): Mine
    requires cmd.ReleaseInventory?
  {
    NoClaims.(releasing := map[cmd.order := cmd])
  }

  /** A release handler has decided and owes its answer. */
  ghost predicate GivenBack(v: World, cmd: Message, success: bool) {
    && cmd.ReleaseInventory? && Held(Owing(NoClaims, Reply(cmd, success), {}), v)
    && if success then GaveBack(v.st, cmd.order) else cmd.order in v.st.releaseRefused
  }

  lemma ReleaseCommandIs(w: World, id: MsgId)
    requires Enabled(w, ReleaseStart(id))
    ensures id in w.sent && w.sent[id].ReleaseInventory?
  {}

  lemma ReleaseStartStep(w: World, id: MsgId)
    requires Enabled(w, ReleaseStart(id))
    ensures var cmd, v := w.sent[id], Apply(w, ReleaseStart(id));
      && SameDbs(w, v)
      && if cmd.order in Logged(w.st.inv.logs, Release) then GivenBack(v, cmd, true) else Held(Releasing(cmd), v)
  {
    hide Logged, AnswerRelease, GivenBack;
    var cmd := w.sent[id];
    if cmd.order in Logged(w.st.inv.logs, Release) { AlreadyGivenBack(w, cmd); }
  }

  lemma AlreadyGivenBack(w: World, cmd: Message)
    requires cmd.ReleaseInventory? && cmd.order in Logged(w.st.inv.logs, Release)
    ensures GivenBack(AnswerRelease(w, cmd, true), cmd, true)
  {
    hide Logged;
  }

  lemma ReleaseSteps(w: World, run: seq<Act>, cmd: Message)
    requires cmd.ReleaseInventory? && Held(Releasing(cmd), w) && Path(Initial(w.budget), run, w)
    ensures Enabled(w, ReleaseWrite(cmd.order)) && Enabled(w, ReleaseError(cmd.order)) && cmd.product in w.st.inv.rows
    ensures var v := Apply(w, ReleaseWrite(cmd.order));
      && v.st.orderDb == w.st.orderDb && v.st.pay == w.st.pay
      && v.st.inv == ReleaseIn(w.st.inv, cmd.product, cmd.order, cmd.quantity)
      && GivenBack(v, cmd, true)
    ensures var v := Apply(w, ReleaseError(cmd.order)); SameDbs(w, v) && GivenBack(v, cmd, false)
  {
    hide Path, Logged, AnswerRelease, GivenBack;
    ReleaseNeverClamps(w, cmd.order);
    ReleaseDecides(w.(st := w.st.(inv := ReleaseIn(w.st.inv, cmd.product, cmd.order, cmd.quantity))), cmd, true) by {
      LoggedAppend(w.st.inv.logs, LogEntry(cmd.product, cmd.order, Release, cmd.quantity), Release);
    }
    ReleaseDecides(w, cmd, false);
  }

  lemma ReleaseDecides(w: World, cmd: Message, success: bool)
    requires cmd.ReleaseInventory? && (success ==> GaveBack(w.st, cmd.order))
    ensures GivenBack(AnswerRelease(w, cmd, success), cmd, success)
  {
    hide Logged;
  }

  lemma ReleaseStands(b: World, so: seq<Act>, at: World, run: seq<Act>, w: World, cmd: Message, success: bool)
    requires Inv(b) && Path(b, so, at) && Path(b, run, w) && so <= run && GivenBack(at, cmd, success)
    ensures if success then GaveBack(w.st, cmd.order) else cmd.order in w.st.releaseRefused
  {
    hide Inv, Path, OrdersGrow, SagasGrow, StockGrows, Held;
    RunOnlyAdds(b, so, at, run, w);
  }

  lemma BeatenEachTime(w: World, run: seq<Act>, job: ReserveJob)
    requires Path(Initial(w.budget), run, w) && Held(Reserving(job), w) && Enabled(w, ReserveExhausted(job.cmd.order))
    ensures |Rivals(w.st.inv.logs, job.mark, job.cmd.product, job.cmd.order)| >= w.budget
  {
    hide Path;
    ContentionRefusalNeedsBudgetRivals(w, job.cmd.order);
  }

  lemma CommandIs(w: World, id: MsgId)
    requires Enabled(w, ReserveStart(id))
    ensures id in w.sent && w.sent[id].ReserveInventory?
  {}
}
