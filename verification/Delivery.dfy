/**
 * One service's main queue, retry queue and dead-letter queue, and the dispatcher between them. A republish
 * that reports an error may have gone out all the same, and an acknowledgement may never reach the broker.
 */
module Delivery {
  import opened Types
  import opened Retry
  import opened Topology

  /** What the publisher sent; the headers carry the trace and no retry counter. */
  datatype Letter = Letter(id: MsgId, body: nat, key: string, headers: Table)

  /** A copy in some queue. `runs` and `redeliveries` count the handler runs and the requeues and crashes behind it. */
  datatype Copy = Copy(letter: Letter, headers: Table, runs: nat, redeliveries: nat)

  /** `arrived`, `handled` and `requeued` count, per letter, its publishes, handler runs and redeliveries. */
  datatype Desk = Desk(
    ready: multiset<Copy>,
    flight: multiset<Copy>,
    waiting: multiset<Copy>,
    dead: multiset<Copy>,
    done: multiset<Copy>,
    arrived: multiset<Letter>,
    handled: multiset<Letter>,
    requeued: multiset<Letter>)

  const Empty := Desk(multiset{}, multiset{}, multiset{}, multiset{}, multiset{}, multiset{}, multiset{}, multiset{})

  /** A service, the keys its handler may fail on and its retry limit. */
  datatype Post = Post(site: Site, fails: set<string>, maxRetries: int)
  {
    predicate Arrives(key: string) { site.queue in Routed(AllServices, site.home, key) }
    predicate Retryable(key: string) { RetryOf(site.queue) in Routed(AllServices, RetryExchange, key) }
    predicate ComesBack(key: string) { site.queue in DeadLettered(AllServices, RetryOf(site.queue), key) }
  }

  datatype Outcome = Succeeded | Failed(error: Failure) | Panicked

  const DeathHeader := "x-death"

  datatype Step =
    | Arrive(letter: Letter)
    | Deliver(copy: Copy)
    | Dispatch(copy: Copy, outcome: Outcome, sending: Sending, settled: bool)
    | Crash(copy: Copy, ran: bool)
    | Expire(copy: Copy, death: Header)

  // ----- one dispatch, by where it leaves a copy -----

  predicate Retries(post: Post, c: Copy, outcome: Outcome) {
    outcome.Failed? && Decide(outcome.error, RetryCount(c.headers), post.maxRetries).RetryLater?
  }

  predicate GivesUp(post: Post, c: Copy, outcome: Outcome) {
    outcome.Failed? && Decide(outcome.error, RetryCount(c.headers), post.maxRetries).DeadLetter?
  }

  /** The broker delivers the copy itself again: its settlement was lost, or a failed retry asked for it. */
  predicate GoesBack(post: Post, c: Copy, outcome: Outcome, sending: Sending, settled: bool) {
    !settled || (Retries(post, c, outcome) && !sending.Confirmed?)
  }

  predicate GoesWaiting(post: Post, c: Copy, outcome: Outcome, sending: Sending) {
    Retries(post, c, outcome) && !sending.Unsent? && post.Retryable(c.letter.key)
  }

  predicate Buried(post: Post, c: Copy, outcome: Outcome, sending: Sending) {
    GivesUp(post, c, outcome) && !sending.Unsent?
  }

  predicate BuriedByBroker(post: Post, c: Copy, outcome: Outcome, sending: Sending, settled: bool) {
    settled && (outcome.Panicked? || (GivesUp(post, c, outcome) && !sending.Confirmed?))
  }

  function One<T>(there: bool, x: T): multiset<T> {
    if there then multiset{x} else multiset{}
  }

  function Again(c: Copy): Copy { c.(redeliveries := c.redeliveries + 1) }
  function Ran(c: Copy): Copy { c.(runs := c.runs + 1) }
  function Retried(c: Copy): Copy { Ran(c).(headers := Counted(c.headers)) }

  function DoDispatch(post: Post, d: Desk, c: Copy, outcome: Outcome, sending: Sending, settled: bool): Desk {
    var back := GoesBack(post, c, outcome, sending, settled);
    Desk(d.ready + One(back, Again(Ran(c))),
         d.flight - multiset{c},
         d.waiting + One(GoesWaiting(post, c, outcome, sending), Retried(c)),
         d.dead + One(Buried(post, c, outcome, sending), Ran(c))
                + One(BuriedByBroker(post, c, outcome, sending, settled), Ran(c)),
         d.done + One(outcome.Succeeded?, Ran(c)),
         d.arrived,
         d.handled + multiset{c.letter},
         d.requeued + One(back, c.letter))
  }

  function Enqueue(d: Desk, l: Letter): Desk {
    d.(ready := d.ready + multiset{Copy(l, l.headers, 0, 0)}, arrived := d.arrived + multiset{l})
  }

  function Collect(d: Desk, c: Copy): Desk {
    d.(ready := d.ready - multiset{c}, flight := d.flight + multiset{c})
  }

  /** The service dies, before or after running the handler, and the broker delivers the copy again. */
  function CutOff(d: Desk, c: Copy, ran: bool): Desk {
    d.(flight := d.flight - multiset{c}, ready := d.ready + multiset{Again(if ran then Ran(c) else c)},
       handled := d.handled + One(ran, c.letter), requeued := d.requeued + multiset{c.letter})
  }

  function Stamped(c: Copy, death: Header): Copy {
    c.(headers := c.headers[DeathHeader := death])
  }

  /** The broker returns a copy whose wait is over, noting so in a header of its own. */
  function WakeUp(post: Post, d: Desk, c: Copy, death: Header): Desk {
    d.(waiting := d.waiting - multiset{c}, ready := d.ready + One(post.ComesBack(c.letter.key), Stamped(c, death)))
  }

  predicate CanStep(post: Post, d: Desk, step: Step) {
    match step
    case Arrive(l) => post.Arrives(l.key) && CounterHeader !in l.headers
    case Deliver(c) => c in d.ready
    case Dispatch(c, outcome, _, _) => c in d.flight && (outcome.Failed? ==> c.letter.key in post.fails)
    case Crash(c, _) => c in d.flight
    case Expire(c, _) => c in d.waiting
  }

  function After(post: Post, d: Desk, step: Step): Desk {
    match step
    case Arrive(l) => Enqueue(d, l)
    case Deliver(c) => Collect(d, c)
    case Dispatch(c, outcome, sending, settled) => DoDispatch(post, d, c, outcome, sending, settled)
    case Crash(c, ran) => CutOff(d, c, ran)
    case Expire(c, death) => WakeUp(post, d, c, death)
  }

  lemma DispatchIs(post: Post, d: Desk, step: Step)
    requires step.Dispatch?
    ensures After(post, d, step) == DoDispatch(post, d, step.copy, step.outcome, step.sending, step.settled)
  {}

  ghost predicate Run(post: Post, d: Desk, steps: seq<Step>, e: Desk)
    decreases |steps|
  {
    if steps == [] then d == e
    else CanStep(post, d, steps[0]) && Run(post, After(post, d, steps[0]), steps[1..], e)
  }

  lemma {:induction false} RunConcat(post: Post, a: Desk, xs: seq<Step>, b: Desk, ys: seq<Step>, c: Desk)
    requires Run(post, a, xs, b) && Run(post, b, ys, c)
    ensures Run(post, a, xs + ys, c)
    decreases |xs|
  {
    hide CanStep, After;
    if xs == [] {
      assert xs + ys == ys;
    } else {
      RunConcat(post, After(post, a, xs[0]), xs[1..], b, ys, c);
      assert (xs + ys)[1..] == xs[1..] + ys;
    }
  }

  lemma RunStep(post: Post, d: Desk, step: Step)
    requires CanStep(post, d, step)
    ensures Run(post, d, [step], After(post, d, step))
  {
    hide CanStep, After;
    assert [step][1..] == [];
  }

  // ----- never lost -----

  function Live(d: Desk): multiset<Copy> { d.ready + d.flight + d.waiting }

  function Everywhere(d: Desk): multiset<Copy> { Live(d) + d.dead + d.done }

  /** The copies a step can make; only a copy that is no longer live has run without its counter or its
      redeliveries moving. */
  predicate Offspring(post: Post, step: Step, c: Copy, live: bool) {
    match step
    case Arrive(l) => c == Copy(l, l.headers, 0, 0)
    case Deliver(_) => false
    case Dispatch(x, outcome, _, _) =>
      c == Again(Ran(x)) || (c == Retried(x) && Retries(post, x, outcome)) || (!live && c == Ran(x))
    case Crash(x, ran) => c == Again(if ran then Ran(x) else x)
    case Expire(x, death) => c == Stamped(x, death)
  }

  lemma CopiesComeFrom(post: Post, d: Desk, step: Step, c: Copy)
    requires CanStep(post, d, step)
    ensures c in Live(After(post, d, step)) ==> c in Live(d) || Offspring(post, step, c, true)
    ensures c in Everywhere(After(post, d, step)) ==> c in Everywhere(d) || Offspring(post, step, c, false)
  {
    hide CanStep, Live, Everywhere, DoDispatch, Enqueue, Collect, CutOff, WakeUp, Offspring;
    match step {
      case Dispatch(x, outcome, sending, settled) => DispatchMakes(post, d, x, outcome, sending, settled, c);
      case _ => QuietMakes(post, d, step, c);
    }
  }

  lemma InOne(there: bool, x: Copy, c: Copy)
    ensures c in One(there, x) <==> there && c == x
  {}

  lemma DispatchMakes(post: Post, d: Desk, x: Copy, outcome: Outcome, sending: Sending, settled: bool, c: Copy)
    ensures var e, step := DoDispatch(post, d, x, outcome, sending, settled), Dispatch(x, outcome, sending, settled);
      && (c in Live(e) ==> c in Live(d) || Offspring(post, step, c, true))
      && (c in Everywhere(e) ==> c in Everywhere(d) || Offspring(post, step, c, false))
  {
    hide One, Routed, AllServices, Retries, Ran, Again, Retried, GoesBack, GoesWaiting, Buried, BuriedByBroker;
    InOne(GoesBack(post, x, outcome, sending, settled), Again(Ran(x)), c);
    InOne(GoesWaiting(post, x, outcome, sending), Retried(x), c);
    InOne(Buried(post, x, outcome, sending), Ran(x), c);
    InOne(BuriedByBroker(post, x, outcome, sending, settled), Ran(x), c);
    InOne(outcome.Succeeded?, Ran(x), c);
    WaitingWasRetried(post, x, outcome, sending);
  }

  lemma WaitingWasRetried(post: Post, x: Copy, outcome: Outcome, sending: Sending)
    ensures GoesWaiting(post, x, outcome, sending) ==> Retries(post, x, outcome)
  {}

  lemma QuietMakes(post: Post, d: Desk, step: Step, c: Copy)
    requires CanStep(post, d, step) && !step.Dispatch?
    ensures c in Live(After(post, d, step)) ==> c in Live(d) || Offspring(post, step, c, true)
    ensures c in Everywhere(After(post, d, step)) ==> c in Everywhere(d) || Offspring(post, step, c, false)
  {
    hide One, Routed, AllServices, Retries, Ran, Again, Retried, Stamped, DoDispatch;
    if step.Expire? { InOne(post.ComesBack(step.copy.letter.key), Stamped(step.copy, step.death), c); }
  }

  lemma WorkedOnIsLive(post: Post, d: Desk, step: Step)
    requires CanStep(post, d, step) && !step.Arrive?
    ensures step.copy in Live(d) && step.copy in Everywhere(d)
  {}

  /** Some copy of the letter is queued, in flight, waiting or dead-lettered, or its handler has succeeded. */
  ghost predicate Survives(d: Desk, l: Letter) {
    exists c :: c in Everywhere(d) && c.letter == l
  }

  ghost predicate CopyKnown(post: Post, d: Desk, c: Copy) {
    && c.letter in d.arrived && post.Arrives(c.letter.key)
    && (post.maxRetries <= 0 ==> RetryCount(c.headers) == 0)
  }

  /** Whatever is queued, and whatever a handler ran on, was published. */
  ghost predicate Known(post: Post, d: Desk) {
    (forall c :: c in Everywhere(d) ==> CopyKnown(post, d, c)) && (forall l :: l in d.handled ==> l in d.arrived)
  }

  ghost predicate Sound(post: Post, d: Desk) {
    (forall l :: l in d.arrived ==> Survives(d, l)) && Known(post, d)
  }

  /** Every key that the handler may fail on comes back from the retry queue. */
  ghost predicate RetriesCovered(post: Post) {
    post.maxRetries <= 0 || forall k :: k in post.fails && post.Arrives(k) ==> post.Retryable(k)
  }

  lemma DispatchLeavesACopy(post: Post, d: Desk, c: Copy, outcome: Outcome, sending: Sending, settled: bool)
    requires CanStep(post, d, Dispatch(c, outcome, sending, settled)) && RetriesCovered(post) && CopyKnown(post, d, c)
    ensures var e := DoDispatch(post, d, c, outcome, sending, settled);
      Again(Ran(c)) in e.ready || Retried(c) in e.waiting || Ran(c) in e.dead || Ran(c) in e.done
  {}

  /** A retry queue sends each message back to the exchange it came through, so to the queue it came from. */
  lemma WaitIsOver(post: Post, key: string)
    requires post.site in Sites
    ensures post.ComesBack(key) <==> post.Arrives(key)
  {
    hide AllServices, Routed;
    QueueTable(post.site);
  }

  lemma DispatchKeeps(post: Post, d: Desk, x: Copy, outcome: Outcome, sending: Sending, settled: bool, c: Copy)
    requires c in Everywhere(d) && c != x
    ensures c in Everywhere(DoDispatch(post, d, x, outcome, sending, settled))
  {
    hide One, GoesBack, GoesWaiting, Buried, BuriedByBroker, Ran, Again, Retried;
  }

  lemma QuietKeeps(post: Post, d: Desk, step: Step, c: Copy)
    requires !step.Arrive? && !step.Dispatch? && c in Everywhere(d) && c != step.copy
    ensures c in Everywhere(After(post, d, step))
  {
    hide One, DoDispatch, Routed, AllServices, Ran, Again, Stamped;
  }

  /** No step takes away the last copy of a letter other than the one it works on. */
  lemma OthersSurvive(post: Post, d: Desk, step: Step, l: Letter)
    requires Survives(d, l) && !step.Arrive? && step.copy.letter != l
    ensures Survives(After(post, d, step), l)
  {
    hide Everywhere, DoDispatch, Enqueue, Collect, CutOff, WakeUp;
    var c :| c in Everywhere(d) && c.letter == l;
    match step {
      case Dispatch(x, outcome, sending, settled) => DispatchKeeps(post, d, x, outcome, sending, settled, c);
      case _ => QuietKeeps(post, d, step, c);
    }
  }

  /** What a step leaves of the copy it works on. */
  lemma WorkedOnSurvives(post: Post, d: Desk, step: Step)
    requires post.site in Sites && CanStep(post, d, step) && !step.Arrive?
    requires RetriesCovered(post) && CopyKnown(post, d, step.copy)
    ensures Survives(After(post, d, step), step.copy.letter)
  {
    hide RetriesCovered, CopyKnown, GoesBack, GoesWaiting, Buried, BuriedByBroker;
    var e := After(post, d, step);
    match step {
      case Deliver(c) => assert c in Everywhere(e);
      case Dispatch(c, outcome, sending, settled) =>
        DispatchLeavesACopy(post, d, c, outcome, sending, settled);
        assert Again(Ran(c)) in Everywhere(e) || Retried(c) in Everywhere(e) || Ran(c) in Everywhere(e);
      case Crash(c, ran) => assert Again(if ran then Ran(c) else c) in Everywhere(e);
      case Expire(c, death) =>
        WaitIsOver(post, c.letter.key);
        KnownArrives(post, d, c);
        assert Stamped(c, death) in Everywhere(e);
    }
  }

  lemma KnownArrives(post: Post, d: Desk, c: Copy)
    requires CopyKnown(post, d, c)
    ensures post.Arrives(c.letter.key) && c.letter in d.arrived
  {}

  lemma ArrivalSurvives(d: Desk, l: Letter, m: Letter)
    requires Survives(d, m) || m == l
    ensures Survives(Enqueue(d, l), m)
  {
    var e := Enqueue(d, l);
    if m == l {
      assert Copy(l, l.headers, 0, 0) in Everywhere(e);
    } else {
      var c :| c in Everywhere(d) && c.letter == m;
      assert c in Everywhere(e);
    }
  }

  lemma DeathIsNotTheCounter(c: Copy, death: Header)
    ensures RetryCount(Stamped(c, death).headers) == RetryCount(c.headers)
  {
    assert |DeathHeader| == 7 && |CounterHeader| == 13;
  }

  lemma CopiesStayKnown(post: Post, d: Desk, step: Step, c: Copy)
    requires CanStep(post, d, step) && Known(post, d) && c in Everywhere(After(post, d, step))
    ensures CopyKnown(post, After(post, d, step), c)
  {
    hide After, Everywhere, CanStep;
    CopiesComeFrom(post, d, step, c);
    ArrivedGrows(post, d, step);
    if !step.Arrive? { WorkedOnIsLive(post, d, step); }
    if c in Everywhere(d) {
      assert CopyKnown(post, d, c);
    } else {
      OffspringKnown(post, d, step, c);
    }
  }

  lemma StepKeepsKnown(post: Post, d: Desk, step: Step)
    requires CanStep(post, d, step) && Known(post, d)
    ensures Known(post, After(post, d, step))
  {
    hide CopyKnown, CanStep, Everywhere, After, Live;
    forall c | c in Everywhere(After(post, d, step)) ensures CopyKnown(post, After(post, d, step), c) {
      CopiesStayKnown(post, d, step, c);
    }
    HandledGrows(post, d, step);
    ArrivedGrows(post, d, step);
    if !step.Arrive? {
      WorkedOnIsLive(post, d, step);
      KnownArrives(post, d, step.copy);
    }
  }

  lemma HandledGrows(post: Post, d: Desk, step: Step)
    ensures forall l :: l in After(post, d, step).handled ==> l in d.handled || (!step.Arrive? && l == step.copy.letter)
  {}

  /** A handler never runs on a message that nobody published, and every copy carries a published letter. */
  lemma {:induction false} HandledWasPublished(post: Post, d: Desk, steps: seq<Step>, e: Desk)
    requires Known(post, d) && Run(post, d, steps, e)
    ensures forall l :: l in e.handled ==> l in e.arrived
    ensures forall c :: c in Everywhere(e) ==> c.letter in e.arrived
    decreases |steps|
  {
    hide CanStep, After;
    if steps != [] {
      StepKeepsKnown(post, d, steps[0]);
      HandledWasPublished(post, After(post, d, steps[0]), steps[1..], e);
    }
  }

  lemma ArrivedGrows(post: Post, d: Desk, step: Step)
    ensures After(post, d, step).arrived == d.arrived + if step.Arrive? then multiset{step.letter} else multiset{}
  {}

  lemma OffspringKnown(post: Post, d: Desk, step: Step, c: Copy)
    requires CanStep(post, d, step) && Offspring(post, step, c, false)
    requires !step.Arrive? ==> CopyKnown(post, d, step.copy)
    ensures c.letter in d.arrived || (step.Arrive? && c.letter == step.letter)
    ensures post.Arrives(c.letter.key) && (post.maxRetries <= 0 ==> RetryCount(c.headers) == 0)
  {
    hide Routed, AllServices;
    if step.Expire? { DeathIsNotTheCounter(step.copy, step.death); }
  }

  lemma StepKeepsSound(post: Post, d: Desk, step: Step)
    requires post.site in Sites && CanStep(post, d, step) && RetriesCovered(post) && Sound(post, d)
    ensures Sound(post, After(post, d, step))
  {
    hide Survives, CopyKnown, RetriesCovered, CanStep, Live, Everywhere, DoDispatch, Collect, CutOff, WakeUp, Enqueue;
    var e := After(post, d, step);
    ArrivedGrows(post, d, step);
    forall l | l in e.arrived ensures Survives(e, l) {
      if step.Arrive? {
        ArrivalSurvives(d, step.letter, l);
      } else {
        WorkedOnIsLive(post, d, step);
        if step.copy.letter == l { WorkedOnSurvives(post, d, step); } else { OthersSurvive(post, d, step, l); }
      }
    }
    StepKeepsKnown(post, d, step);
  }

  lemma {:induction false} RunKeepsSound(post: Post, d: Desk, steps: seq<Step>, e: Desk)
    requires post.site in Sites && RetriesCovered(post) && Sound(post, d) && Run(post, d, steps, e)
    ensures Sound(post, e)
    decreases |steps|
  {
    hide CanStep, After, Sound, RetriesCovered;
    if steps != [] {
      StepKeepsSound(post, d, steps[0]);
      RunKeepsSound(post, After(post, d, steps[0]), steps[1..], e);
    }
  }

  ghost predicate NeverLoses(post: Post) {
    forall steps, d :: Run(post, Empty, steps, d) ==> forall l :: l in d.arrived ==> Survives(d, l)
  }

  /** One confirmed retry of a key that the retry exchange does not know loses the message. */
  lemma UnboundKeyIsLost(post: Post, k: string) returns (steps: seq<Step>, d: Desk, l: Letter)
    requires post.maxRetries > 0 && k in post.fails && post.Arrives(k) && !post.Retryable(k)
    ensures Run(post, Empty, steps, d) && l in d.arrived && !Survives(d, l)
  {
    hide Run, Routed, AllServices;
    l := Letter(0, 0, k, map[]);
    var c := Copy(l, map[], 0, 0);
    var a, b, z := Arrive(l), Deliver(c), Dispatch(c, Outcome.Failed(Plain), Confirmed, true);
    var d1 := After(post, Empty, a);
    assert d1 == Empty.(ready := multiset{c}, arrived := multiset{l});
    var d2 := After(post, d1, b);
    assert d2 == Empty.(flight := multiset{c}, arrived := multiset{l});
    d := After(post, d2, z);
    LastCopyGone(post, d2, l, c);
    RunThree(post, Empty, a, d1, b, d2, z, d);
    steps := [a] + [b] + [z];
  }

  lemma LastCopyGone(post: Post, d: Desk, l: Letter, c: Copy)
    requires post.maxRetries > 0 && !post.Retryable(l.key) && c == Copy(l, map[], 0, 0)
    requires d == Empty.(flight := multiset{c}, arrived := multiset{l})
    ensures DoDispatch(post, d, c, Outcome.Failed(Plain), Confirmed, true) ==
            Empty.(arrived := multiset{l}, handled := multiset{l})
  {
    hide Routed, AllServices;
  }

  lemma RunThree(post: Post, d0: Desk, a: Step, d1: Desk, b: Step, d2: Desk, c: Step, d3: Desk)
    requires CanStep(post, d0, a) && After(post, d0, a) == d1 && CanStep(post, d1, b) && After(post, d1, b) == d2
    requires CanStep(post, d2, c) && After(post, d2, c) == d3
    ensures Run(post, d0, [a] + [b] + [c], d3)
  {
    hide Run, CanStep, After;
    RunStep(post, d0, a);
    RunStep(post, d1, b);
    RunStep(post, d2, c);
    RunConcat(post, d0, [a], d1, [b], d2);
    RunConcat(post, d0, [a] + [b], d2, [c], d3);
  }

  /** Whatever fails, crashes or goes unconfirmed, no message is lost: exactly when the retry exchange knows
      every key that the handler can fail on, or nothing is ever retried. */
  lemma NeverLosesIff(post: Post)
    requires post.site in Sites
    ensures NeverLoses(post) <==> RetriesCovered(post)
  {
    hide Survives, Run;
    if RetriesCovered(post) {
      forall steps, d | Run(post, Empty, steps, d) ensures Sound(post, d) {
        RunKeepsSound(post, Empty, steps, d);
      }
    } else {
      var k :| k in post.fails && post.Arrives(k) && !post.Retryable(k);
      var steps, d, l := UnboundKeyIsLost(post, k);
    }
  }

  /** The three services as they are: each handler fails only on keys it handles. */
  lemma ServicesNeverLose(post: Post)
    requires post.site in Sites && post.fails <= post.site.handled
    ensures NeverLoses(post)
  {
    hide AllServices, Routed, NeverLoses;
    NeverLosesIff(post);
    forall k | k in post.fails ensures post.Retryable(k) {
      RetriedComesBack(post.site, k);
    }
  }

  // ----- bounded -----

  function Limit(post: Post): nat {
    if post.maxRetries > 0 then post.maxRetries else 0
  }

  /** The counter is within the limit, each run so far is a counted retry or a redelivery (`slack` allows for the
      last run of a copy that is settled), and the publisher's own headers are intact. */
  ghost predicate CopyOk(post: Post, c: Copy, slack: nat) {
    && 0 <= RetryCount(c.headers) <= Limit(post)
    && c.runs <= RetryCount(c.headers) + c.redeliveries + slack
    && forall h :: h != CounterHeader && h != DeathHeader ==>
         (h in c.headers <==> h in c.letter.headers) && (h in c.headers ==> c.headers[h] == c.letter.headers[h])
  }

  ghost predicate WithinLimits(post: Post, d: Desk) {
    (forall c :: c in Live(d) ==> CopyOk(post, c, 0)) && (forall c :: c in Everywhere(d) ==> CopyOk(post, c, 1))
  }

  lemma OffspringOk(post: Post, d: Desk, step: Step, c: Copy, live: bool)
    requires post.maxRetries <= MaxInt32 && CanStep(post, d, step) && Offspring(post, step, c, live)
    requires !step.Arrive? ==> CopyOk(post, step.copy, 0)
    ensures CopyOk(post, c, if live then 0 else 1)
  {
    hide Routed, AllServices;
    if step.Expire? { DeathIsNotTheCounter(step.copy, step.death); }
    if step.Dispatch? { ToInt32Is(RetryCount(step.copy.headers) + 1); }
  }

  lemma StepStaysWithinLimits(post: Post, d: Desk, step: Step)
    requires post.maxRetries <= MaxInt32 && CanStep(post, d, step) && WithinLimits(post, d)
    ensures WithinLimits(post, After(post, d, step))
  {
    hide CanStep, After, Live, Everywhere, CopyOk, Offspring;
    var e := After(post, d, step);
    if !step.Arrive? { WorkedOnIsLive(post, d, step); }
    forall c | c in Live(e) ensures CopyOk(post, c, 0) {
      CopiesComeFrom(post, d, step, c);
      if c !in Live(d) { OffspringOk(post, d, step, c, true); }
    }
    forall c | c in Everywhere(e) ensures CopyOk(post, c, 1) {
      CopiesComeFrom(post, d, step, c);
      if c !in Everywhere(d) { OffspringOk(post, d, step, c, false); }
    }
  }

  lemma {:induction false} RunStaysWithinLimits(post: Post, d: Desk, steps: seq<Step>, e: Desk)
    requires post.maxRetries <= MaxInt32 && WithinLimits(post, d) && Run(post, d, steps, e)
    ensures WithinLimits(post, e)
    decreases |steps|
  {
    hide CanStep, After, WithinLimits;
    if steps != [] {
      StepStaysWithinLimits(post, d, steps[0]);
      RunStaysWithinLimits(post, After(post, d, steps[0]), steps[1..], e);
    }
  }

  /** No counter ever exceeds the limit, and down each line of copies the handler runs at most once more than
      the limit, plus once for each requeue or crash. */
  lemma LineageBounded(post: Post, steps: seq<Step>, d: Desk, c: Copy)
    requires post.maxRetries <= MaxInt32 && Run(post, Empty, steps, d) && c in Everywhere(d)
    ensures 0 <= RetryCount(c.headers) <= Limit(post)
    ensures c.runs <= Limit(post) + 1 + c.redeliveries
    ensures forall h :: h in c.letter.headers && h != CounterHeader && h != DeathHeader ==>
      h in c.headers && c.headers[h] == c.letter.headers[h]
  {
    RunStaysWithinLimits(post, Empty, steps, d);
  }

  // ----- bounded over all copies of a letter together -----

  /** The handler runs a copy may still take without a redelivery. */
  function RunsLeft(post: Post, c: Copy, l: Letter): int {
    if c.letter == l then Limit(post) + 1 - RetryCount(c.headers) else 0
  }

  ghost function AllRunsLeft(post: Post, cs: multiset<Copy>, l: Letter): int {
    if cs == multiset{} then 0
    else
      var c :| c in cs;
      RunsLeft(post, c, l) + AllRunsLeft(post, cs - multiset{c}, l)
  }

  lemma TakeTwo(cs: multiset<Copy>, x: Copy, y: Copy)
    requires x in cs && y in cs && x != y
    ensures y in cs - multiset{x} && x in cs - multiset{y}
    ensures |cs - multiset{x}| < |cs| && |cs - multiset{y}| < |cs|
    ensures cs - multiset{x} - multiset{y} == cs - multiset{y} - multiset{x}
  {}

  lemma {:induction false} TakeOne(post: Post, cs: multiset<Copy>, c: Copy, l: Letter)
    requires c in cs
    ensures AllRunsLeft(post, cs, l) == RunsLeft(post, c, l) + AllRunsLeft(post, cs - multiset{c}, l)
    decreases |cs|
  {
    hide RunsLeft;
    var x :| x in cs && AllRunsLeft(post, cs, l) == RunsLeft(post, x, l) + AllRunsLeft(post, cs - multiset{x}, l);
    if x != c {
      TakeTwo(cs, x, c);
      TakeOne(post, cs - multiset{x}, c, l);
      TakeOne(post, cs - multiset{c}, x, l);
    }
  }

  lemma AddOne(post: Post, cs: multiset<Copy>, there: bool, c: Copy, l: Letter)
    ensures AllRunsLeft(post, cs + One(there, c), l) ==
            AllRunsLeft(post, cs, l) + if there then RunsLeft(post, c, l) else 0
  {
    hide RunsLeft;
    if there {
      TakeOne(post, cs + multiset{c}, c, l);
      assert cs + multiset{c} - multiset{c} == cs;
    } else {
      assert cs + One(there, c) == cs;
    }
  }

  lemma {:induction false} NoCreditNegative(post: Post, cs: multiset<Copy>, l: Letter)
    requires forall c :: c in cs && c.letter == l ==> CopyOk(post, c, 0)
    ensures AllRunsLeft(post, cs, l) >= 0
    decreases |cs|
  {
    if cs != multiset{} {
      var c :| c in cs && AllRunsLeft(post, cs, l) == RunsLeft(post, c, l) + AllRunsLeft(post, cs - multiset{c}, l);
      assert c.letter == l ==> CopyOk(post, c, 0);
      assert RunsLeft(post, c, l) >= 0;
      NoCreditNegative(post, cs - multiset{c}, l);
    }
  }

  function Allowance(post: Post, n: nat): nat { (Limit(post) + 1) * n }

  ghost predicate Affordable(post: Post, d: Desk, l: Letter) {
    d.handled[l] + AllRunsLeft(post, Live(d), l) <= Allowance(post, d.arrived[l] + d.requeued[l])
  }

  lemma AllowanceNext(post: Post, n: nat)
    ensures Allowance(post, n + 1) == Allowance(post, n) + Limit(post) + 1
  {}

  /** One copy leaves, and at most the copy itself and its retry come back. */
  lemma DispatchLive(post: Post, d: Desk, step: Step)
    requires CanStep(post, d, step) && step.Dispatch?
    ensures var c := step.copy;
      && c in Live(d)
      && Live(After(post, d, step)) ==
           Live(d) - multiset{c} + One(GoesBack(post, c, step.outcome, step.sending, step.settled), Again(Ran(c)))
           + One(GoesWaiting(post, c, step.outcome, step.sending), Retried(c))
  {
    hide GoesBack, GoesWaiting, Buried, BuriedByBroker;
  }

  lemma DispatchBooks(post: Post, d: Desk, c: Copy, outcome: Outcome, sending: Sending, settled: bool, l: Letter)
    ensures var e := DoDispatch(post, d, c, outcome, sending, settled);
      && e.handled[l] == d.handled[l] + (if c.letter == l then 1 else 0)
      && e.arrived == d.arrived
      && e.requeued[l] == d.requeued[l] + if GoesBack(post, c, outcome, sending, settled) && c.letter == l then 1 else 0
  {
    hide GoesBack, GoesWaiting, Buried, BuriedByBroker;
  }

  /** What the copies a step makes may still cost. */
  lemma OffspringRunsLeft(post: Post, c: Copy, outcome: Outcome, death: Header, l: Letter)
    requires post.maxRetries <= MaxInt32 && CopyOk(post, c, 0)
    ensures RunsLeft(post, c, l) == if c.letter == l then RunsLeft(post, c, c.letter) else 0
    ensures 1 <= RunsLeft(post, c, c.letter) <= Limit(post) + 1
    ensures RunsLeft(post, Again(c), l) == RunsLeft(post, Again(Ran(c)), l) == RunsLeft(post, c, l)
    ensures RunsLeft(post, Stamped(c, death), l) == RunsLeft(post, c, l)
    ensures Retries(post, c, outcome) ==>
      RunsLeft(post, Retried(c), l) == RunsLeft(post, c, l) - if c.letter == l then 1 else 0
  {
    ToInt32Is(RetryCount(c.headers) + 1);
    DeathIsNotTheCounter(c, death);
  }

  lemma DispatchLeft(post: Post, d: Desk, c: Copy, outcome: Outcome, sending: Sending, settled: bool, l: Letter)
    requires post.maxRetries <= MaxInt32 && CanStep(post, d, Dispatch(c, outcome, sending, settled)) &&
      CopyOk(post, c, 0)
    ensures AllRunsLeft(post, Live(DoDispatch(post, d, c, outcome, sending, settled)), l) <=
      AllRunsLeft(post, Live(d), l)
      - (if c.letter == l then 1 else 0)
      + if GoesBack(post, c, outcome, sending, settled) && c.letter == l then Limit(post) + 1 else 0
  {
    hide CanStep, DoDispatch, Live, CopyOk, RunsLeft, GoesBack, Retried, Again, Ran, Stamped, Retries, One, Limit;
    var step := Dispatch(c, outcome, sending, settled);
    var back := GoesBack(post, c, outcome, sending, settled);
    var rest := Live(d) - multiset{c};
    DispatchLive(post, d, step);
    OffspringRunsLeft(post, c, outcome, Int(0), l);
    TakeOne(post, Live(d), c, l);
    AddOne(post, rest, back, Again(Ran(c)), l);
    AddOne(post, rest + One(back, Again(Ran(c))), GoesWaiting(post, c, outcome, sending), Retried(c), l);
  }

  lemma DispatchAffordable(post: Post, d: Desk, c: Copy, outcome: Outcome, sending: Sending, settled: bool, l: Letter)
    requires post.maxRetries <= MaxInt32 && CanStep(post, d, Dispatch(c, outcome, sending, settled)) &&
      CopyOk(post, c, 0)
    requires Affordable(post, d, l)
    ensures Affordable(post, DoDispatch(post, d, c, outcome, sending, settled), l)
  {
    hide CanStep, DoDispatch, Live, CopyOk, GoesBack, Allowance, Limit;
    DispatchBooks(post, d, c, outcome, sending, settled, l);
    DispatchLeft(post, d, c, outcome, sending, settled, l);
    AllowanceNext(post, d.arrived[l] + d.requeued[l]);
  }

  /** The copy that a step without a handler's answer leaves live, and whether it does. */
  function Made(step: Step): Copy
    requires !step.Dispatch?
  {
    match step
    case Arrive(m) => Copy(m, m.headers, 0, 0)
    case Deliver(c) => c
    case Crash(c, ran) => Again(if ran then Ran(c) else c)
    case Expire(c, death) => Stamped(c, death)
  }

  predicate Makes(post: Post, step: Step) {
    step.Expire? ==> post.ComesBack(step.copy.letter.key)
  }

  lemma QuietLive(post: Post, d: Desk, step: Step)
    requires CanStep(post, d, step) && !step.Dispatch?
    ensures var rest := if step.Arrive? then Live(d) else Live(d) - multiset{step.copy};
      Live(After(post, d, step)) == rest + One(Makes(post, step), Made(step))
  {
    hide Routed, AllServices, Again, Ran, Stamped;
    PutAndTake(d.ready, d.flight, d.waiting, if step.Arrive? then Made(step) else step.copy);
    PutAndTake(d.ready, d.flight, d.waiting, Made(step));
    match step {
      case Arrive(l) =>
      case Deliver(c) => PutAndTake(d.ready - multiset{c}, d.flight, d.waiting, c);
      case Crash(c, ran) => PutAndTake(d.ready, d.flight - multiset{c}, d.waiting, Made(step));
      case Expire(c, death) => PutAndTake(d.ready, d.flight, d.waiting - multiset{c}, Made(step));
    }
  }

  lemma PutAndTake<T>(r: multiset<T>, f: multiset<T>, w: multiset<T>, x: T)
    ensures (r + multiset{x}) + f + w == r + f + w + multiset{x}
    ensures r + (f + multiset{x}) + w == r + f + w + multiset{x}
    ensures x in r ==> (r - multiset{x}) + f + w == r + f + w - multiset{x}
    ensures x in f ==> r + (f - multiset{x}) + w == r + f + w - multiset{x}
    ensures x in w ==> r + f + (w - multiset{x}) == r + f + w - multiset{x}
  {}

  lemma QuietBooks(post: Post, d: Desk, step: Step, l: Letter)
    requires CanStep(post, d, step) && !step.Dispatch?
    ensures var e := After(post, d, step);
      var crashed := if step.Crash? && step.copy.letter == l then 1 else 0;
      && e.handled[l] <= d.handled[l] + crashed
      && e.requeued[l] == d.requeued[l] + crashed
      && e.arrived[l] == d.arrived[l] + if step.Arrive? && step.letter == l then 1 else 0
  {
    hide Routed, AllServices, Again, Ran, Stamped, Live;
  }

  lemma QuietLeft(post: Post, d: Desk, step: Step, l: Letter)
    requires post.maxRetries <= MaxInt32 && CanStep(post, d, step) && !step.Dispatch?
    requires !step.Arrive? ==> CopyOk(post, step.copy, 0)
    ensures AllRunsLeft(post, Live(After(post, d, step)), l) <=
      AllRunsLeft(post, Live(d), l) + if step.Arrive? && step.letter == l then Limit(post) + 1 else 0
  {
    hide CanStep, After, Live, CopyOk, Made, RunsLeft, One, Limit, Makes;
    var rest := if step.Arrive? then Live(d) else Live(d) - multiset{step.copy};
    QuietLive(post, d, step);
    AddOne(post, rest, Makes(post, step), Made(step), l);
    if step.Arrive? {
      FirstRunsLeft(post, d, step, l);
    } else {
      WorkedOnIsLive(post, d, step);
      TakeOne(post, Live(d), step.copy, l);
      MadeRunsLeft(post, step, l);
    }
  }

  lemma QuietStepAffordable(post: Post, d: Desk, step: Step, l: Letter)
    requires post.maxRetries <= MaxInt32 && CanStep(post, d, step) && !step.Dispatch?
    requires !step.Arrive? ==> CopyOk(post, step.copy, 0)
    requires Affordable(post, d, l)
    ensures Affordable(post, After(post, d, step), l)
  {
    hide CanStep, After, Live, CopyOk, Allowance, Limit;
    QuietBooks(post, d, step, l);
    QuietLeft(post, d, step, l);
    AllowanceNext(post, d.arrived[l] + d.requeued[l]);
  }

  lemma MadeRunsLeft(post: Post, step: Step, l: Letter)
    requires post.maxRetries <= MaxInt32 && !step.Dispatch? && !step.Arrive? && CopyOk(post, step.copy, 0)
    ensures RunsLeft(post, Made(step), l) == RunsLeft(post, step.copy, l)
    ensures 0 <= RunsLeft(post, step.copy, l) <= Limit(post) + 1
    ensures RunsLeft(post, step.copy, l) > 0 <==> step.copy.letter == l
  {
    hide Again, Ran, Stamped, Retried, Retries, RunsLeft, Limit;
    OffspringRunsLeft(post, step.copy, Succeeded, if step.Expire? then step.death else Int(0), l);
  }

  lemma FirstRunsLeft(post: Post, d: Desk, step: Step, l: Letter)
    requires step.Arrive? && CanStep(post, d, step)
    ensures RunsLeft(post, Made(step), l) == if step.letter == l then Limit(post) + 1 else 0
  {
    hide Routed, AllServices;
  }

  lemma StepStaysAffordable(post: Post, d: Desk, step: Step, l: Letter)
    requires post.maxRetries <= MaxInt32 && CanStep(post, d, step) && (!step.Arrive? ==> CopyOk(post, step.copy, 0))
    requires Affordable(post, d, l)
    ensures Affordable(post, After(post, d, step), l)
  {
    hide CanStep, CopyOk, Affordable, DoDispatch, WakeUp, CutOff, Collect, Enqueue;
    match step {
      case Dispatch(c, outcome, sending, settled) => DispatchAffordable(post, d, c, outcome, sending, settled, l);
      case _ => QuietStepAffordable(post, d, step, l);
    }
  }

  lemma {:induction false} RunStaysAffordable(post: Post, d: Desk, steps: seq<Step>, e: Desk, l: Letter)
    requires post.maxRetries <= MaxInt32 && WithinLimits(post, d) && Affordable(post, d, l) && Run(post, d, steps, e)
    ensures WithinLimits(post, e) && Affordable(post, e, l)
    decreases |steps|
  {
    hide CanStep, After, CopyOk, Affordable, Live, Everywhere;
    if steps != [] {
      var u := After(post, d, steps[0]);
      StepStaysWithinLimits(post, d, steps[0]);
      if !steps[0].Arrive? { WorkedOnIsLive(post, d, steps[0]); }
      StepStaysAffordable(post, d, steps[0], l);
      RunStaysAffordable(post, u, steps[1..], e, l);
    }
  }

  /** Over all copies together, however they fork: each publish and each redelivery pays for `limit + 1` runs. */
  ghost predicate RunsBounded(post: Post) {
    forall steps, d, l :: Run(post, Empty, steps, d) ==> d.handled[l] <= Allowance(post, d.arrived[l] + d.requeued[l])
  }

  lemma RunsAreBounded(post: Post)
    requires post.maxRetries <= MaxInt32
    ensures RunsBounded(post)
  {
    hide Run, CopyOk, Limit;
    forall steps, d, l | Run(post, Empty, steps, d)
      ensures d.handled[l] <= Allowance(post, d.arrived[l] + d.requeued[l])
    {
      RunStaysAffordable(post, Empty, steps, d, l);
      NoCreditNegative(post, Live(d), l);
    }
  }

  /** A letter that has had `n` failed runs and, uncounted by a wrapped counter, is back in the queue. */
  ghost predicate Looping(post: Post, d: Desk, l: Letter, n: nat) {
    && d.handled[l] == n && d.arrived[l] == 1 && d.requeued[l] == 0
    && exists c :: c in d.ready && c.letter == l && RetryCount(c.headers) <= MaxInt32
  }

  lemma LoopOnce(post: Post, d: Desk, l: Letter, n: nat) returns (steps: seq<Step>, e: Desk)
    requires post.maxRetries > MaxInt32 && l.key in post.fails && post.Retryable(l.key) && post.ComesBack(l.key)
    requires Looping(post, d, l, n)
    ensures Run(post, d, steps, e) && Looping(post, e, l, n + 1)
  {
    hide Run, CanStep, After, RetryCount;
    var c :| c in d.ready && c.letter == l && RetryCount(c.headers) <= MaxInt32;
    var a, b, z := Deliver(c), Dispatch(c, Outcome.Failed(Plain), Confirmed, true), Expire(Retried(c), Int(0));
    var d1 := After(post, d, a);
    var d2 := After(post, d1, b);
    e := After(post, d2, z);
    LoopTakes(post, d, c);
    LoopRetries(post, d1, c);
    LoopReturns(post, d2, Retried(c));
    ToInt32Is(RetryCount(c.headers) + 1);
    assert RetryCount(Retried(c).headers) == ToInt32(RetryCount(c.headers) + 1) by { CounterOfRetried(c); }
    assert Stamped(Retried(c), Int(0)).letter == l;
    RunThree(post, d, a, d1, b, d2, z, e);
    steps := [a] + [b] + [z];
  }

  lemma CounterOfRetried(c: Copy)
    ensures RetryCount(Retried(c).headers) == ToInt32(RetryCount(c.headers) + 1)
  {}

  lemma LoopTakes(post: Post, d: Desk, c: Copy)
    requires c in d.ready
    ensures CanStep(post, d, Deliver(c))
    ensures var e := After(post, d, Deliver(c));
      c in e.flight && e.handled == d.handled && e.arrived == d.arrived && e.requeued == d.requeued
  {}

  lemma LoopRetries(post: Post, d: Desk, c: Copy)
    requires c in d.flight && c.letter.key in post.fails && post.Retryable(c.letter.key)
    requires RetryCount(c.headers) < post.maxRetries
    ensures var step := Dispatch(c, Outcome.Failed(Plain), Confirmed, true);
      && CanStep(post, d, step)
      && var e := After(post, d, step);
         Retried(c) in e.waiting && e.handled == d.handled + multiset{c.letter} &&
         e.arrived == d.arrived && e.requeued == d.requeued
  {
    hide Routed, AllServices, ToInt32, RetryCount;
  }

  lemma LoopReturns(post: Post, d: Desk, c: Copy)
    requires c in d.waiting && post.ComesBack(c.letter.key)
    ensures var step := Expire(c, Int(0));
      && CanStep(post, d, step)
      && var e := After(post, d, step);
         Stamped(c, Int(0)) in e.ready && e.handled == d.handled && e.arrived == d.arrived && e.requeued == d.requeued
    ensures RetryCount(Stamped(c, Int(0)).headers) == RetryCount(c.headers)
  {
    hide Routed, AllServices;
    DeathIsNotTheCounter(c, Int(0));
  }

  lemma {:induction false} LoopOn(post: Post, l: Letter, n: nat) returns (steps: seq<Step>, d: Desk)
    requires post.maxRetries > MaxInt32 && l.key in post.fails && post.Retryable(l.key) && post.ComesBack(l.key)
    requires post.Arrives(l.key) && l.headers == map[]
    ensures Run(post, Empty, steps, d) && Looping(post, d, l, n)
  {
    hide Run, Looping, Routed, AllServices;
    if n == 0 {
      steps, d := [Arrive(l)], After(post, Empty, Arrive(l));
      RunStep(post, Empty, Arrive(l));
      FirstLoop(post, l);
    } else {
      var xs, u := LoopOn(post, l, n - 1);
      var ys;
      ys, d := LoopOnce(post, u, l, n - 1);
      RunConcat(post, Empty, xs, u, ys, d);
      steps := xs + ys;
    }
  }

  lemma FirstLoop(post: Post, l: Letter)
    requires l.headers == map[]
    ensures Looping(post, After(post, Empty, Arrive(l)), l, 0)
  {
    assert Copy(l, l.headers, 0, 0) in After(post, Empty, Arrive(l)).ready;
  }

  /** The counter is a 32-bit header: a larger limit is never reached, and a message that always fails is
      retried for ever. */
  lemma RunsBoundedIff(post: Post, k: string)
    requires post.site in Sites && k in post.fails && k in post.site.handled
    ensures RunsBounded(post) <==> post.maxRetries <= MaxInt32
  {
    hide Run, Looping, Routed, AllServices, Allowance;
    if post.maxRetries <= MaxInt32 {
      RunsAreBounded(post);
    } else {
      RetriedComesBack(post.site, k);
      var l := Letter(0, 0, k, map[]);
      var n: nat := Allowance(post, 1) + 1;
      var steps, d := LoopOn(post, l, n);
      LoopingBreaksTheBound(post, steps, d, l, n);
    }
  }

  lemma LoopingBreaksTheBound(post: Post, steps: seq<Step>, d: Desk, l: Letter, n: nat)
    requires Run(post, Empty, steps, d) && Looping(post, d, l, n) && n > Allowance(post, 1)
    ensures !RunsBounded(post)
  {
    hide Run, Allowance;
  }
}
