/** The dispatcher as it runs: each call settles one delivery, and does exactly one step of Delivery. */
module Dispatcher {
  import opened Types
  import opened Retry
  import opened Topology
  import opened Delivery

  method CloneHeaders(headers: Table) returns (out: Table)
    ensures out == headers
  {
    out := map[];
    var left := headers.Keys;
    while left != {}
      invariant left <= headers.Keys
      invariant out.Keys == headers.Keys - left
      invariant forall h :: h in out ==> out[h] == headers[h]
      decreases |left|
    {
      var h :| h in left;
      out := out[h := headers[h]];
      left := left - {h};
    }
  }

  // ----- the step of Delivery for each branch of the dispatcher -----

  function Back(there: bool, cs: multiset<Copy>, c: Copy): multiset<Copy> {
    if there then cs + multiset{Again(Ran(c))} else cs
  }

  function CountIf(there: bool, ls: multiset<Letter>, l: Letter): multiset<Letter> {
    if there then ls + multiset{l} else ls
  }

  function Put(there: bool, cs: multiset<Copy>, c: Copy): multiset<Copy> {
    if there then cs + multiset{c} else cs
  }

  lemma AddNothing<T>(xs: multiset<T>, there: bool, x: T)
    ensures xs + One(there, x) == if there then xs + multiset{x} else xs
  {}

  lemma RetriedIs(c: Copy)
    ensures Retried(c) == Ran(c).(headers := c.headers[CounterHeader := Int32(ToInt32(RetryCount(c.headers) + 1))])
  {}

  lemma NothingPut(cs: multiset<Copy>, c: Copy)
    ensures Put(false, cs, Retried(c)) == Put(false, cs, Ran(c)) == cs
  {}

  lemma AfterSuccess(post: Post, d: Desk, c: Copy, sending: Sending, settled: bool)
    ensures DoDispatch(post, d, c, Succeeded, sending, settled) ==
            Desk(Back(!settled, d.ready, c), d.flight - multiset{c}, d.waiting, d.dead, d.done + multiset{Ran(c)},
                 d.arrived, d.handled + multiset{c.letter}, CountIf(!settled, d.requeued, c.letter))
  {
    AddNothing(d.waiting, false, Retried(c));
    AddNothing(d.dead, false, Ran(c));
  }

  lemma AfterPanic(post: Post, d: Desk, c: Copy, sending: Sending, settled: bool)
    ensures DoDispatch(post, d, c, Panicked, sending, settled) ==
            Desk(Back(!settled, d.ready, c), d.flight - multiset{c}, d.waiting, Put(settled, d.dead, Ran(c)), d.done,
                 d.arrived, d.handled + multiset{c.letter}, CountIf(!settled, d.requeued, c.letter))
  {
    AddNothing(d.waiting, false, Retried(c));
    AddNothing(d.dead, false, Ran(c));
    AddNothing(d.done, false, Ran(c));
  }

  /** An unmarked error under the limit: the copy waits in the retry queue with its counter raised, and nothing is
      buried; if that may not have worked, the broker delivers the copy again. */
  lemma AfterRetry(post: Post, d: Desk, c: Copy, err: Failure, sending: Sending, settled: bool)
    requires !MarkedInside(err) && RetryCount(c.headers) < post.maxRetries
    ensures var back := !(settled && sending.Confirmed?);
      DoDispatch(post, d, c, Outcome.Failed(err), sending, settled) ==
      Desk(Back(back, d.ready, c), d.flight - multiset{c},
           Put(!sending.Unsent? && post.Retryable(c.letter.key), d.waiting, Retried(c)), d.dead, d.done,
           d.arrived, d.handled + multiset{c.letter}, CountIf(back, d.requeued, c.letter))
  {
    hide Routed, AllServices, RetryCount, Decide, MarkedInside;
    RetriesIff(err, RetryCount(c.headers), post.maxRetries);
    AddNothing(d.dead, false, Ran(c));
    AddNothing(d.done, false, Ran(c));
  }

  /** A marked error, or any error at the limit: nothing waits, and the copy is buried at once or by the broker; only
      a lost settlement brings it back. */
  lemma AfterGivingUp(post: Post, d: Desk, c: Copy, err: Failure, sending: Sending, settled: bool)
    requires MarkedInside(err) || RetryCount(c.headers) >= post.maxRetries
    ensures DoDispatch(post, d, c, Outcome.Failed(err), sending, settled) ==
            Desk(Back(!settled, d.ready, c), d.flight - multiset{c}, d.waiting,
                 Put(settled && !sending.Confirmed?, Put(!sending.Unsent?, d.dead, Ran(c)), Ran(c)), d.done,
                 d.arrived, d.handled + multiset{c.letter}, CountIf(!settled, d.requeued, c.letter))
  {
    hide Routed, AllServices, RetryCount, Decide, MarkedInside;
    RetriesIff(err, RetryCount(c.headers), post.maxRetries);
    AddNothing(d.waiting, false, Retried(c));
    AddNothing(d.done, false, Ran(c));
  }

  class Consumer {
    const post: Post
    var ready: multiset<Copy>
    var flight: multiset<Copy>
    var waiting: multiset<Copy>
    var dead: multiset<Copy>
    ghost var done: multiset<Copy>
    ghost var arrived: multiset<Letter>
    ghost var handled: multiset<Letter>
    ghost var requeued: multiset<Letter>

    ghost function State(): Desk
      reads this
    {
      Desk(ready, flight, waiting, dead, done, arrived, handled, requeued)
    }

    constructor (post: Post)
      ensures this.post == post && State() == Empty
    {
      this.post := post;
      ready, flight, waiting, dead := multiset{}, multiset{}, multiset{}, multiset{};
      done, arrived, handled, requeued := multiset{}, multiset{}, multiset{}, multiset{};
    }

    /** A confirmed publish reached every queue it is routed to; an error says nothing about that. */
    method PublishRaw(exchange: string, key: string, c: Copy, sending: Sending) returns (ok: bool)
      modifies this`waiting, this`dead
      ensures ok == sending.Confirmed?
      ensures var to := if sending.Unsent? then {} else Routed(AllServices, exchange, key);
        && waiting == Put(RetryOf(post.site.queue) in to, old(waiting), c)
        && dead == Put(DlqOf(post.site.queue) in to, old(dead), c)
    {
      hide Routed, AllServices;
      if !sending.Unsent? {
        var to := Routed(AllServices, exchange, key);
        if RetryOf(post.site.queue) in to { waiting := waiting + multiset{c}; }
        if DlqOf(post.site.queue) in to { dead := dead + multiset{c}; }
      }
      ok := sending.Confirmed?;
    }

    /** When the acknowledgement does not reach the broker, it delivers the copy again. */
    method Ack(c: Copy, settled: bool)
      requires c in flight
      modifies this`ready, this`flight, this`requeued
      ensures flight == old(flight) - multiset{c} && ready == Back(!settled, old(ready), c)
      ensures requeued == CountIf(!settled, old(requeued), c.letter)
    {
      flight := flight - multiset{c};
      if !settled {
        ready := ready + multiset{Again(Ran(c))};
        requeued := requeued + multiset{c.letter};
      }
    }

    method Nack(c: Copy, requeue: bool, settled: bool)
      requires c in flight && post.site in Sites
      modifies this`ready, this`flight, this`dead, this`requeued
      ensures flight == old(flight) - multiset{c} && ready == Back(requeue || !settled, old(ready), c)
      ensures requeued == CountIf(requeue || !settled, old(requeued), c.letter)
      ensures dead == Put(!requeue && settled, old(dead), Ran(c))
    {
      hide Routed, DeadLettered, AllServices, Sites;
      GivenUpIsKept(post.site, c.letter.key);
      flight := flight - multiset{c};
      if requeue || !settled {
        ready := ready + multiset{Again(Ran(c))};
        requeued := requeued + multiset{c.letter};
      } else if DlqOf(post.site.queue) in DeadLettered(AllServices, post.site.queue, c.letter.key) {
        dead := dead + multiset{Ran(c)};
      }
    }

    /** Sends a copy with its counter raised to the retry queue; if that may not have worked, the broker keeps
        the delivery. */
    method RetryDelivery(c: Copy, retryCount: int, sending: Sending, settled: bool)
      requires c in flight && retryCount == RetryCount(c.headers) && post.site in Sites
      modifies this`ready, this`flight, this`waiting, this`dead, this`requeued
      ensures var back := !(settled && sending.Confirmed?);
        && flight == old(flight) - multiset{c} && dead == old(dead)
        && ready == Back(back, old(ready), c) && requeued == CountIf(back, old(requeued), c.letter)
        && waiting == Put(!sending.Unsent? && post.Retryable(c.letter.key), old(waiting), Retried(c))
    {
      hide Routed, AllServices, Sites, RetryCount, Again, Ran, Retried, ToInt32, Put, Back, CountIf;
      WaitingIsNotBuried(post.site, c.letter.key);
      RetriedIs(c);
      NothingPut(dead, c);
      var headers := CloneHeaders(c.headers);
      headers := headers[CounterHeader := Int32(ToInt32(retryCount + 1))];
      var ok := PublishRaw(RetryExchange, c.letter.key, Ran(c).(headers := headers), sending);
      if !ok {
        Nack(c, true, settled);
        return;
      }
      Ack(c, settled);
    }

    /** Sends the delivery to the dead-letter queue; if that may not have worked, the broker does so too. */
    method GiveUp(c: Copy, sending: Sending, settled: bool)
      requires c in flight && post.site in Sites
      modifies this`ready, this`flight, this`waiting, this`dead, this`requeued
      ensures flight == old(flight) - multiset{c} && waiting == old(waiting)
      ensures ready == Back(!settled, old(ready), c) && requeued == CountIf(!settled, old(requeued), c.letter)
      ensures dead == Put(settled && !sending.Confirmed?, Put(!sending.Unsent?, old(dead), Ran(c)), Ran(c))
    {
      hide Routed, AllServices, Sites, Again, Ran;
      GivenUpIsKept(post.site, c.letter.key);
      WaitingIsNotBuried(post.site, c.letter.key);
      var ok := PublishRaw(DefaultExchange, DlqOf(post.site.queue), Ran(c), sending);
      if !ok {
        Nack(c, false, settled);
        return;
      }
      Ack(c, settled);
    }

    /** A failed delivery is retried or given up. */
    method HandleFailure(c: Copy, err: Failure, sending: Sending, settled: bool)
      requires post.site in Sites && c in flight
      modifies this
      ensures State() == DoDispatch(post, old(State()), c, Outcome.Failed(err), sending, settled)
    {
      hide Routed, AllServices, Sites, RetryCount, Decide, MarkedInside, DoDispatch, Back, CountIf, Put, Retried, Ran;
      ghost var d := State();
      handled := handled + multiset{c.letter};
      var retryCount := RetryCount(c.headers);
      RetriesIff(err, retryCount, post.maxRetries);
      match Decide(err, retryCount, post.maxRetries) {
        case RetryLater =>
          AfterRetry(post, d, c, err, sending, settled);
          RetryDelivery(c, retryCount, sending, settled);
        case DeadLetter =>
          AfterGivingUp(post, d, c, err, sending, settled);
          GiveUp(c, sending, settled);
      }
      ghost var e := DoDispatch(post, d, c, Outcome.Failed(err), sending, settled);
      assert ready == e.ready && flight == e.flight && waiting == e.waiting && dead == e.dead && done == e.done;
      assert arrived == e.arrived && handled == e.handled && requeued == e.requeued;
    }

    /** A delivery whose handler succeeded is acknowledged. */
    method HandleSuccess(c: Copy, ghost sending: Sending, settled: bool)
      requires c in flight
      modifies this
      ensures State() == DoDispatch(post, old(State()), c, Succeeded, sending, settled)
    {
      hide Routed, AllServices, Sites, DoDispatch, Back, CountIf, Put, Retried, Ran;
      AfterSuccess(post, State(), c, sending, settled);
      handled := handled + multiset{c.letter};
      done := done + multiset{Ran(c)};
      Ack(c, settled);
    }

    /** A delivery whose handler panicked is left to the broker to dead-letter. */
    method HandlePanic(c: Copy, ghost sending: Sending, settled: bool)
      requires post.site in Sites && c in flight
      modifies this
      ensures State() == DoDispatch(post, old(State()), c, Panicked, sending, settled)
    {
      hide Routed, AllServices, Sites, DoDispatch, Back, CountIf, Put, Retried, Ran;
      AfterPanic(post, State(), c, sending, settled);
      handled := handled + multiset{c.letter};
      Nack(c, false, settled);
    }

    /** Runs the handler on a delivery and settles it; `outcome` is what the handler did, `sending` how a
        republish went and `settled` whether the last acknowledgement arrived. */
    method DispatchMsg(c: Copy, outcome: Outcome, sending: Sending, settled: bool)
      requires post.site in Sites && c in flight && (outcome.Failed? ==> c.letter.key in post.fails)
      modifies this
      ensures CanStep(post, old(State()), Dispatch(c, outcome, sending, settled))
      ensures State() == After(post, old(State()), Dispatch(c, outcome, sending, settled))
    {
      hide Routed, AllServices, Sites, DoDispatch;
      match outcome {
        case Panicked => HandlePanic(c, sending, settled);
        case Succeeded => HandleSuccess(c, sending, settled);
        case Failed(err) => HandleFailure(c, err, sending, settled);
      }
    }
  }
}
