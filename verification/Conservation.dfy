/**
 * When nothing goes wrong between a service and its broker, no copy is lost and none is made: each published letter
 * is in exactly one place, whatever its handler does.
 */
module Conservation {
  import opened Types
  import opened Retry
  import opened Topology
  import opened Delivery

  /** No crash of this letter's handler, every settlement arrives and every republish is confirmed. */
  predicate Clean(step: Step, l: Letter) {
    match step
    case Dispatch(c, _, sending, settled) => c.letter == l ==> sending.Confirmed? && settled
    case Crash(c, _) => c.letter != l
    case _ => true
  }

  ghost function HowMany(cs: multiset<Copy>, l: Letter): nat {
    if cs == multiset{} then 0
    else
      var c :| c in cs;
      (if c.letter == l then 1 else 0) + HowMany(cs - multiset{c}, l)
  }

  lemma {:induction false} OneLess(cs: multiset<Copy>, c: Copy, l: Letter)
    requires c in cs
    ensures HowMany(cs, l) == (if c.letter == l then 1 else 0) + HowMany(cs - multiset{c}, l)
    decreases |cs|
  {
    var x :|
      x in cs && HowMany(cs, l) == (if x.letter == l then 1 else 0) + HowMany(cs - multiset{x}, l);
    if x != c {
      TakeTwo(cs, x, c);
      OneLess(cs - multiset{x}, c, l);
      OneLess(cs - multiset{c}, x, l);
    }
  }

  lemma OneMore(cs: multiset<Copy>, there: bool, c: Copy, l: Letter)
    ensures HowMany(cs + One(there, c), l) == HowMany(cs, l) + if there && c.letter == l then 1 else 0
  {
    if there {
      OneLess(cs + multiset{c}, c, l);
      assert cs + multiset{c} - multiset{c} == cs;
    } else {
      assert cs + One(there, c) == cs;
    }
  }

  function Tally(b: bool): nat { if b then 1 else 0 }

  /** The copies that one dispatch leaves. */
  function Left(post: Post, c: Copy, outcome: Outcome, sending: Sending, settled: bool): nat {
    Tally(GoesBack(post, c, outcome, sending, settled)) + Tally(GoesWaiting(post, c, outcome, sending)) +
    Tally(Buried(post, c, outcome, sending)) + Tally(BuriedByBroker(post, c, outcome, sending, settled)) +
    Tally(outcome.Succeeded?)
  }

  /** Whatever the handler did, a clean dispatch leaves one copy, and not by delivering it again. */
  lemma CleanLeavesOne(post: Post, c: Copy, outcome: Outcome)
    requires outcome.Failed? ==> c.letter.key in post.fails
    requires RetriesCovered(post) && post.Arrives(c.letter.key) && (post.maxRetries <= 0 ==> RetryCount(c.headers) == 0)
    ensures Left(post, c, outcome, Confirmed, true) == 1
    ensures !GoesBack(post, c, outcome, Confirmed, true)
  {
    hide Routed, AllServices, RetryCount, IsPermanent;
  }

  lemma DispatchEverywhere(post: Post, d: Desk, c: Copy, outcome: Outcome, sending: Sending, settled: bool)
    requires c in d.flight
    ensures Everywhere(DoDispatch(post, d, c, outcome, sending, settled)) ==
      Everywhere(d) - multiset{c} + One(GoesBack(post, c, outcome, sending, settled), Again(Ran(c)))
      + One(GoesWaiting(post, c, outcome, sending), Retried(c)) + One(Buried(post, c, outcome, sending), Ran(c))
      + One(BuriedByBroker(post, c, outcome, sending, settled), Ran(c)) + One(outcome.Succeeded?, Ran(c))
  {
    hide GoesBack, GoesWaiting, Buried, BuriedByBroker, Again, Ran, Retried, One;
    assert d.flight == d.flight - multiset{c} + multiset{c};
  }

  lemma DispatchCounts(post: Post, d: Desk, c: Copy, outcome: Outcome, sending: Sending, settled: bool, l: Letter)
    requires c in d.flight
    ensures HowMany(Everywhere(DoDispatch(post, d, c, outcome, sending, settled)), l) ==
      HowMany(Everywhere(d), l) + if c.letter == l then Left(post, c, outcome, sending, settled) - 1 else 0
  {
    hide GoesBack, GoesWaiting, Buried, BuriedByBroker, Again, Ran, Retried, One, DoDispatch, HowMany;
    var back, waits := GoesBack(post, c, outcome, sending, settled), GoesWaiting(post, c, outcome, sending);
    var here, there := Buried(post, c, outcome, sending), BuriedByBroker(post, c, outcome, sending, settled);
    DispatchEverywhere(post, d, c, outcome, sending, settled);
    LettersStay(c);
    OneLess(Everywhere(d), c, l);
    var a := Everywhere(d) - multiset{c};
    OneMore(a, back, Again(Ran(c)), l);
    var b := a + One(back, Again(Ran(c)));
    OneMore(b, waits, Retried(c), l);
    var e := b + One(waits, Retried(c));
    OneMore(e, here, Ran(c), l);
    var f := e + One(here, Ran(c));
    OneMore(f, there, Ran(c), l);
    OneMore(f + One(there, Ran(c)), outcome.Succeeded?, Ran(c), l);
  }

  lemma LettersStay(c: Copy)
    ensures Again(Ran(c)).letter == Ran(c).letter == Retried(c).letter == c.letter
  {}

  lemma QuietEverywhere(post: Post, d: Desk, step: Step)
    requires CanStep(post, d, step) && !step.Dispatch?
    ensures var e, rest := After(post, d, step), if step.Arrive? then Live(d) else Live(d) - multiset{step.copy};
      && Everywhere(e) == rest + One(Makes(post, step), Made(step)) + d.dead + d.done
      && (!step.Arrive? ==> step.copy in Live(d))
  {
    hide Routed, AllServices, Again, Ran, Stamped, Live, One, Made, Makes;
    QuietLive(post, d, step);
    if !step.Arrive? { WorkedOnIsLive(post, d, step); }
  }

  lemma QuietCounts(post: Post, d: Desk, step: Step, l: Letter)
    requires CanStep(post, d, step) && !step.Dispatch?
    ensures HowMany(Everywhere(After(post, d, step)), l) == HowMany(Everywhere(d), l) +
      (if step.Arrive? || step.copy.letter != l then 0 else -1) +
      if Makes(post, step) && Made(step).letter == l then 1 else 0
  {
    hide CanStep, After, Live, One, Made, Makes, HowMany;
    var e := After(post, d, step);
    QuietEverywhere(post, d, step);
    var rest := if step.Arrive? then Everywhere(d) else Everywhere(d) - multiset{step.copy};
    assert Everywhere(e) == rest + One(Makes(post, step), Made(step)) by {
      if !step.Arrive? { TakenFrom(Live(d), d.dead, d.done, step.copy, One(Makes(post, step), Made(step))); }
    }
    OneMore(rest, Makes(post, step), Made(step), l);
    if !step.Arrive? { OneLess(Everywhere(d), step.copy, l); }
  }

  lemma TakenFrom<T>(live: multiset<T>, dead: multiset<T>, done: multiset<T>, x: T, made: multiset<T>)
    requires x in live
    ensures live - multiset{x} + made + dead + done == live + dead + done - multiset{x} + made
  {}

  // ----- over runs -----

  ghost predicate Conserved(d: Desk, l: Letter) {
    HowMany(Everywhere(d), l) == d.arrived[l] && d.requeued[l] == 0
  }

  lemma DispatchConserves(post: Post, d: Desk, c: Copy, outcome: Outcome, sending: Sending, settled: bool, l: Letter)
    requires CanStep(post, d, Dispatch(c, outcome, sending, settled)) && RetriesCovered(post) && CopyKnown(post, d, c)
    requires Clean(Dispatch(c, outcome, sending, settled), l) && Conserved(d, l)
    ensures Conserved(DoDispatch(post, d, c, outcome, sending, settled), l)
  {
    hide DoDispatch, Everywhere, HowMany, Left, RetriesCovered, GoesBack, RetryCount;
    DispatchCounts(post, d, c, outcome, sending, settled, l);
    DispatchBooks(post, d, c, outcome, sending, settled, l);
    if c.letter == l { CleanLeavesOne(post, c, outcome); }
  }

  lemma QuietConserves(post: Post, d: Desk, step: Step, l: Letter)
    requires post.site in Sites && CanStep(post, d, step) && !step.Dispatch?
    requires !step.Arrive? ==> CopyKnown(post, d, step.copy)
    requires Clean(step, l) && Conserved(d, l)
    ensures Conserved(After(post, d, step), l)
  {
    hide CanStep, After, Everywhere, HowMany, CopyKnown;
    QuietCounts(post, d, step, l);
    QuietBooks(post, d, step, l);
    if step.Expire? {
      WaitIsOver(post, step.copy.letter.key);
      KnownArrives(post, d, step.copy);
    }
  }

  lemma {:induction false} RunConserves(post: Post, d: Desk, steps: seq<Step>, e: Desk, l: Letter)
    requires post.site in Sites && RetriesCovered(post) && Known(post, d) && Run(post, d, steps, e)
    requires Conserved(d, l) && forall step :: step in steps ==> Clean(step, l)
    ensures Conserved(e, l)
    decreases |steps|
  {
    hide CanStep, After, Conserved, Clean, RetriesCovered, CopyKnown, Everywhere, DoDispatch;
    if steps != [] {
      var step, u := steps[0], After(post, d, steps[0]);
      StepKeepsKnown(post, d, step);
      if !step.Arrive? { WorkedOnIsLive(post, d, step); }
      if step.Dispatch? {
        DispatchIs(post, d, step);
        DispatchConserves(post, d, step.copy, step.outcome, step.sending, step.settled, l);
      } else {
        QuietConserves(post, d, step, l);
      }
      RunConserves(post, u, steps[1..], e, l);
    }
  }

  /** However its handler ends, by success, failure or panic, each publish of a letter is one copy in one place, and
      the broker never has to deliver it again, as long as no settlement is lost, every republish is confirmed and no
      process dies. */
  lemma CleanRunsConserve(post: Post, steps: seq<Step>, d: Desk, l: Letter)
    requires post.site in Sites && RetriesCovered(post) && Run(post, Empty, steps, d)
    requires forall step :: step in steps ==> Clean(step, l)
    ensures HowMany(d.ready + d.flight + d.waiting + d.dead + d.done, l) == d.arrived[l]
    ensures d.requeued[l] == 0
  {
    hide Run, Clean, RetriesCovered, HowMany;
    assert HowMany(Everywhere(Empty), l) == 0 by { EmptyHasNone(l); }
    RunConserves(post, Empty, steps, d, l);
  }

  lemma EmptyHasNone(l: Letter)
    ensures HowMany(Everywhere(Empty), l) == 0
  {}

  // ----- where a letter's copies end -----

  predicate EndsWell(step: Step, l: Letter) {
    step.Dispatch? && step.copy.letter == l && step.outcome.Succeeded?
  }

  /** A panic, a marked failure, or any failure at the limit. */
  ghost predicate EndsBadly(post: Post, step: Step, l: Letter) {
    && step.Dispatch? && step.copy.letter == l
    && match step.outcome
       case Succeeded => false
       case Panicked => true
       case Failed(err) => MarkedInside(err) || RetryCount(step.copy.headers) >= post.maxRetries
  }

  ghost function Successes(steps: seq<Step>, l: Letter): nat
    decreases |steps|
  {
    if steps == [] then 0 else Tally(EndsWell(steps[0], l)) + Successes(steps[1..], l)
  }

  ghost function Burials(post: Post, steps: seq<Step>, l: Letter): nat
    decreases |steps|
  {
    if steps == [] then 0 else Tally(EndsBadly(post, steps[0], l)) + Burials(post, steps[1..], l)
  }

  lemma BuriedOnceIff(post: Post, c: Copy, outcome: Outcome, l: Letter)
    requires c.letter == l
    ensures var step := Dispatch(c, outcome, Confirmed, true);
      Tally(EndsBadly(post, step, l)) ==
      Tally(Buried(post, c, outcome, Confirmed)) + Tally(BuriedByBroker(post, c, outcome, Confirmed, true))
  {
    hide RetryCount, Decide, MarkedInside;
    if outcome.Failed? { RetriesIff(outcome.error, RetryCount(c.headers), post.maxRetries); }
  }

  lemma EndsOf(post: Post, d: Desk, step: Step, l: Letter)
    requires CanStep(post, d, step) && Clean(step, l)
    ensures var e := After(post, d, step);
      && HowMany(e.done, l) == HowMany(d.done, l) + Tally(EndsWell(step, l))
      && HowMany(e.dead, l) == HowMany(d.dead, l) + Tally(EndsBadly(post, step, l))
  {
    hide HowMany, MarkedInside, RetryCount, Buried, BuriedByBroker, GoesBack, GoesWaiting, One, Ran, Retried, Again;
    hide Routed, AllServices;
    if step.Dispatch? {
      var c := step.copy;
      var here := Buried(post, c, step.outcome, step.sending);
      var there := BuriedByBroker(post, c, step.outcome, step.sending, step.settled);
      LettersStay(c);
      OneMore(d.done, step.outcome.Succeeded?, Ran(c), l);
      OneMore(d.dead, here, Ran(c), l);
      OneMore(d.dead + One(here, Ran(c)), there, Ran(c), l);
      if c.letter == l { BuriedOnceIff(post, c, step.outcome, l); }
    }
  }

  /** A letter's successes are its copies that are done, and its panics, marked failures and failures at the limit are
      its copies in the dead-letter queue, one for one. */
  lemma {:induction false} EachEndIsKept(post: Post, d: Desk, steps: seq<Step>, e: Desk, l: Letter)
    requires Run(post, d, steps, e) && forall step :: step in steps ==> Clean(step, l)
    ensures HowMany(e.done, l) == HowMany(d.done, l) + Successes(steps, l)
    ensures HowMany(e.dead, l) == HowMany(d.dead, l) + Burials(post, steps, l)
    decreases |steps|
  {
    hide CanStep, After, Clean, EndsWell, EndsBadly, HowMany;
    if steps != [] {
      EndsOf(post, d, steps[0], l);
      EachEndIsKept(post, After(post, d, steps[0]), steps[1..], e, l);
    }
  }
}
