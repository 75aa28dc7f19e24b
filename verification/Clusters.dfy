/**
 * The three databases and the broker as the handlers see them: repositories that transactions change in place,
 * messages that go out under fresh ids, and, between any two accesses, the steps of everybody else. `run`
 * records every step taken, and Valid says that it is a run of Protocol that ends in this very state.
 */
module Clusters {
  import opened Types
  import opened OrderStore
  import opened InventoryStore
  import opened PaymentStore
  import opened Protocol
  import opened Invariant
  import opened Runs
  import opened Claims
  import opened Progress

  /** What a publish meets: its attempts, whether it is cancelled after one, and what others do meanwhile. */
  datatype Network = Network(attempts: nat -> Sending, cancelled: nat -> bool, others: nat -> seq<Act>)

  /** One of the three attempts is confirmed and none before it is followed by a cancellation. */
  ghost predicate GoesOut(net: Network) {
    exists k :: 1 <= k <= 3 && net.attempts(k).Confirmed? && forall j :: 1 <= j < k ==> !net.cancelled(j)
  }

  /** One of the attempts that are made reaches the broker, whether or not it is confirmed. */
  ghost predicate Reaches(net: Network) {
    exists k :: 1 <= k <= 3 && !net.attempts(k).Unsent? && forall j :: 1 <= j < k ==> !net.cancelled(j)
  }

  /** Nobody else does anything between the attempts. */
  ghost predicate Alone(net: Network) {
    forall k :: net.others(k) == []
  }

  /** The message has been sent under an id that is not among these. */
  ghost predicate SentSince(known: set<MsgId>, w: World, m: Message) {
    exists id :: id in w.sent && id !in known && w.sent[id] == m
  }

  /** What is left for one publish to do: send the message under some id, or forget it. */
  ghost predicate PublishedOnce(before: seq<Act>, after: seq<Act>, net: Network, m: Message) {
    exists id :: after == before + [Sends(net, m, id)]
  }

  ghost function Sends(net: Network, m: Message, id: MsgId): Act {
    if Reaches(net) then Send(m, id) else Drop(Publish(m))
  }

  /** The message was sent under this id. */
  ghost predicate SentAs(w: World, id: MsgId, m: Message) {
    id in w.sent && w.sent[id] == m
  }

  class Cluster {
    const sagaRepo: SagaRepository
    const stock: InventoryRepository
    const payments: PaymentRepository
    const budget: int
    var world: World
    ghost var run: seq<Act>

    ghost function Parts(): set<object>
      reads this
    {
      {this, sagaRepo, stock, payments}
    }

    ghost predicate InStep()
      reads Parts()
    {
      sagaRepo.Db() == world.st.orderDb && stock.Db() == world.st.inv && payments.Db() == world.st.pay
    }

    ghost predicate Recorded()
      reads this
    {
      world.budget == budget && Path(Initial(budget), run, world)
    }

    ghost predicate Valid()
      reads Parts()
    {
      InStep() && Recorded()
    }

    constructor (budget: int)
      ensures Valid() && run == [] && world == Initial(budget) && this.budget == budget
      ensures fresh(sagaRepo) && fresh(stock) && fresh(payments)
    {
      sagaRepo := new SagaRepository();
      stock := new InventoryRepository();
      payments := new PaymentRepository();
      this.budget := budget;
      world, run := Initial(budget), [];
    }

    /** One step of this handler; the repositories already show it. */
    method Did(a: Act)
      requires Recorded() && Enabled(world, a)
      requires sagaRepo.Db() == Apply(world, a).st.orderDb && stock.Db() == Apply(world, a).st.inv
      requires payments.Db() == Apply(world, a).st.pay
      modifies this
      ensures Valid() && world == Apply(old(world), a) && run == old(run) + [a]
    {
      hide Enabled, Path, Apply;
      StepRecorded(Initial(budget), run, world, a);
      world := Apply(world, a);
      run := run + [a];
    }

    /** Everybody else runs: any steps that are possible and leave what is `mine` alone. */
    method Others(acts: seq<Act>, mine: Mine)
      requires Valid() && Held(mine, world)
      modifies Parts()
      ensures Valid() && Held(mine, world) && old(run) <= run && Within(old(world).sent, world.sent)
      ensures acts == [] ==> world == old(world) && run == old(run)
    {
      hide Enabled, Apply, Respects, Held, Path;
      var i := 0;
      while i < |acts|
        invariant acts == [] ==> world == old(world) && run == old(run)
        invariant Recorded() && Held(mine, world) && old(run) <= run && Within(old(world).sent, world.sent)
        modifies this
      {
        var a := acts[i];
        if Enabled(world, a) && Respects(mine, world, a) {
          HeldStays(mine, world, a);
          SentStays(world, a);
          StepRecorded(Initial(budget), run, world, a);
          world := Apply(world, a);
          run := run + [a];
        }
        i := i + 1;
      }
      sagaRepo.orders, sagaRepo.sagas, sagaRepo.processed :=
        world.st.orderDb.orders, world.st.orderDb.sagas, world.st.orderDb.processed;
      stock.rows, stock.logs := world.st.inv.rows, world.st.inv.logs;
      payments.payments, payments.processed := world.st.pay.payments, world.st.pay.processed;
    }

    /** An id that no message carries. */
    method NewId() returns (id: MsgId)
      ensures id !in world.sent
    {
      ghost var unused := FreshId(world.sent.Keys);
      id :| id !in world.sent;
    }

    /** One attempt under the given id, after what others do meanwhile; `reached` says whether the message is out. */
    method PublishOnce(m: Message, id: MsgId, attempt: Sending, meanwhile: seq<Act>, out: bool, mine: Mine)
      returns (reached: bool)
      requires Valid() && mine.ids == {}
      requires if out then Held(mine, world) && SentAs(world, id, m) else Held(Owing(mine, m, {id}), world)
      modifies Parts()
      ensures Valid() && old(run) <= run && Within(old(world).sent, world.sent)
      ensures reached == (out || !attempt.Unsent?)
      ensures if reached then Held(mine, world) && SentAs(world, id, m) else Held(Owing(mine, m, {id}), world)
      ensures meanwhile == [] ==> run == old(run) + if reached && !out then [Send(m, id)] else []
    {
      hide Enabled, Apply, Respects, Held, Path;
      Others(meanwhile, if out then mine else Owing(mine, m, {id}));
      reached := out;
      if !attempt.Unsent? && !out {
        SendHeld(mine, m, id, world);
        Did(Send(m, id));
        reached := true;
      }
    }

    /** The message has not been sent, and nobody will send it for this handler. */
    method Forget(m: Message, id: MsgId, mine: Mine)
      requires Valid() && mine.ids == {} && Held(Owing(mine, m, {id}), world)
      modifies Parts()
      ensures Valid() && Held(mine, world) && run == old(run) + [Drop(Protocol.Publish(m))]
      ensures world.sent == old(world).sent
    {
      hide Enabled, Apply, Respects, Held, Path;
      DropHeld(mine, m, id, world);
      Did(Drop(Protocol.Publish(m)));
    }

    /** Publishes an owed message: up to three attempts under one id. Success means that it was sent; after a
        failure it may have been sent all the same, and if not it is forgotten. With nobody else about, it is sent
        once or not at all. */
    method Publish(m: Message, net: Network, mine: Mine) returns (ok: bool)
      requires Valid() && mine.ids == {} && Held(Owing(mine, m, {}), world)
      modifies Parts()
      ensures Valid() && Held(mine, world) && old(run) <= run && Within(old(world).sent, world.sent)
      ensures ok <==> GoesOut(net)
      ensures (ok ==> Reaches(net)) && (Reaches(net) ==> SentSince(old(world).sent.Keys, world, m))
      ensures Alone(net) ==> PublishedOnce(old(run), run, net, m)
    {
      hide Enabled, Apply, Respects, Held, Path, Within, GoesOut, Reaches, AnySent, FailedSoFar, WentOut;
      ghost var first, start := world.sent, run;
      var id := NewId();
      HoldId(mine, m, id, world);
      WithinItself(world.sent);
      var reached, attempt := false, 1;
      ghost var last := 0;
      ok := false;
      NothingSoFar(net);
      while attempt <= 3 && !ok
        invariant 1 <= attempt == last + 1 <= 4
        invariant Valid() && start <= run && Within(first, world.sent)
        invariant if reached then Held(mine, world) && SentAs(world, id, m)
                  else Held(Owing(mine, m, {id}), world)
        invariant reached == AnySent(net, last)
        invariant if ok then 1 <= last && WentOut(net, last) else FailedSoFar(net, last)
        invariant Alone(net) ==> run == start + if reached then [Send(m, id)] else []
      {
        ghost var before := world.sent;
        reached := PublishOnce(m, id, net.attempts(attempt), net.others(attempt), reached, mine);
        WithinChain(first, before, world.sent);
        last := attempt;
        AttemptMade(net, last);
        if net.attempts(attempt).Confirmed? {
          ok := true;
        } else if net.cancelled(attempt) {
          break;
        }
        attempt := attempt + 1;
      }
      PublishEnds(net, last, ok);
      if !reached { Forget(m, id, mine); }
      assert Alone(net) ==> run == start + [Sends(net, m, id)];
    }
  }

  /** One of the first `n` attempts reached the broker. */
  ghost predicate AnySent(net: Network, n: nat) {
    exists k :: 1 <= k <= n && !net.attempts(k).Unsent?
  }

  /** None of the first `n` attempts was confirmed, and none was followed by a cancellation. */
  ghost predicate FailedSoFar(net: Network, n: nat) {
    forall k :: 1 <= k <= n ==> !net.attempts(k).Confirmed? && !net.cancelled(k)
  }

  /** Attempt `n` is the first one confirmed. */
  ghost predicate WentOut(net: Network, n: nat)
    requires n >= 1
  {
    net.attempts(n).Confirmed? && FailedSoFar(net, n - 1)
  }

  lemma NothingSoFar(net: Network)
    ensures !AnySent(net, 0) && FailedSoFar(net, 0)
  {}

  lemma AttemptMade(net: Network, n: nat)
    requires n >= 1 && FailedSoFar(net, n - 1)
    ensures AnySent(net, n) <==> AnySent(net, n - 1) || !net.attempts(n).Unsent?
    ensures net.attempts(n).Confirmed? ==> WentOut(net, n)
    ensures !net.attempts(n).Confirmed? && !net.cancelled(n) ==> FailedSoFar(net, n)
  {
    if AnySent(net, n) && net.attempts(n).Unsent? {
      var k :| 1 <= k <= n && !net.attempts(k).Unsent?;
      assert k <= n - 1;
    }
  }

  /** The last attempt was confirmed, cancelled or the third; what it came to is what the network had in store. */
  lemma PublishEnds(net: Network, last: nat, ok: bool)
    requires 1 <= last <= 3
    requires if ok then WentOut(net, last)
             else
               || (last == 3 && FailedSoFar(net, last))
               || (FailedSoFar(net, last - 1) && !net.attempts(last).Confirmed? && net.cancelled(last))
    ensures (ok <==> GoesOut(net)) && (AnySent(net, last) <==> Reaches(net)) && (ok ==> Reaches(net))
  {
    if AnySent(net, last) {
      var k :| 1 <= k <= last && !net.attempts(k).Unsent?;
      assert forall j :: 1 <= j < k ==> !net.cancelled(j);
    }
  }

  lemma WithinItself<K, V>(m: map<K, V>)
    ensures Within(m, m)
  {}

  lemma WithinChain<K, V>(a: map<K, V>, b: map<K, V>, c: map<K, V>)
    requires Within(a, b) && Within(b, c)
    ensures Within(a, c)
  {}

  /** My claims while I owe a publish of `m` under an id of my own. */
  function Owing(mine: Mine, m: Message, ids: set<MsgId>): Mine {
    mine.(owed := mine.owed + multiset{Publish(m)}, ids := ids)
  }

  lemma HoldId(mine: Mine, m: Message, id: MsgId, w: World)
    requires Held(Owing(mine, m, {}), w) && id !in w.sent
    ensures Held(Owing(mine, m, {id}), w)
  {}

  lemma SendHeld(mine: Mine, m: Message, id: MsgId, w: World)
    requires mine.ids == {} && Held(Owing(mine, m, {id}), w)
    ensures Enabled(w, Send(m, id))
    ensures var v := Apply(w, Send(m, id));
      v.st == w.st && Held(mine, v) && id in v.sent && v.sent[id] == m && Within(w.sent, v.sent)
  {}

  lemma DropHeld(mine: Mine, m: Message, id: MsgId, w: World)
    requires mine.ids == {} && Held(Owing(mine, m, {id}), w)
    ensures Enabled(w, Drop(Publish(m)))
    ensures var v := Apply(w, Drop(Publish(m))); v.st == w.st && Held(mine, v) && v.sent == w.sent
  {}

  lemma SinceFewer(fewer: set<MsgId>, known: set<MsgId>, w: World, m: Message)
    requires fewer <= known && SentSince(known, w, m)
    ensures SentSince(fewer, w, m)
  {}

  lemma SinceEarlier(budget: int, so: seq<Act>, at: World, run: seq<Act>, u: World, v: World, m: Message)
    requires Path(Initial(budget), so, at) && Path(Initial(budget), run, u) && so <= run
    requires SentSince(u.sent.Keys, v, m)
    ensures SentSince(at.sent.Keys, v, m)
  {
    hide Inv, Path, Grows;
    InitialOk(budget);
    RunOnlyAdds(Initial(budget), so, at, run, u);
  }

  lemma StepRecorded(start: World, run: seq<Act>, w: World, a: Act)
    requires Path(start, run, w) && Enabled(w, a)
    ensures Path(start, run + [a], Apply(w, a)) && Apply(w, a).budget == w.budget
  {
    hide Apply, Enabled;
    PathStep(w, a);
    PathConcat(start, run, w, [a], Apply(w, a));
    BudgetStays(w, a);
  }

  lemma BudgetStays(w: World, a: Act)
    requires Enabled(w, a)
    ensures Apply(w, a).budget == w.budget
  {
    hide Logged, Judge, Consume, CanReserve, ReserveIn, ReleaseIn, CanCreate, CreateIn, Followup, RecoveryCommand;
    hide PaymentAnswer, Listing, Append;
  }
}
