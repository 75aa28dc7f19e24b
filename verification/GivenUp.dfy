/**
 * What is given up and when: a marked failure ends a message's tries at once, and nothing else ends them before the
 * limit.
 */
module GivenUp {
  import opened Types
  import opened Retry
  import opened Topology
  import opened Delivery

  // ----- a message whose every failure is marked is run once per publish or redelivery -----

  /** No run of the letter's handler ends in an error that a retry could cure. */
  ghost predicate OnlyMarked(step: Step, l: Letter) {
    step.Dispatch? && step.copy.letter == l && step.outcome.Failed? ==> MarkedInside(step.outcome.error)
  }

  /** The same service, were nothing to be retried. */
  function Unforgiving(post: Post): Post { post.(maxRetries := 0) }

  ghost predicate NotRetried(post: Post, d: Desk, l: Letter) {
    forall c :: c in Live(d) && c.letter == l ==> CopyOk(Unforgiving(post), c, 0)
  }

  lemma SameFate(post: Post, c: Copy, outcome: Outcome)
    requires outcome.Failed? ==> MarkedInside(outcome.error)
    ensures !Retries(post, c, outcome)
    ensures GivesUp(post, c, outcome) == GivesUp(Unforgiving(post), c, outcome) == outcome.Failed?
  {
    hide RetryCount, Decide, MarkedInside;
    if outcome.Failed? {
      RetriesIff(outcome.error, RetryCount(c.headers), post.maxRetries);
      RetriesIff(outcome.error, RetryCount(c.headers), 0);
    }
  }

  /** To such a letter the limit makes no difference. */
  lemma SameDispatch(post: Post, d: Desk, c: Copy, outcome: Outcome, sending: Sending, settled: bool)
    requires outcome.Failed? ==> MarkedInside(outcome.error)
    ensures DoDispatch(Unforgiving(post), d, c, outcome, sending, settled) ==
            DoDispatch(post, d, c, outcome, sending, settled)
  {
    hide Routed, AllServices, MarkedInside, Retries, GivesUp, Ran, Again, Retried, One;
    SameFate(post, c, outcome);
    SameFate(Unforgiving(post), c, outcome);
  }

  lemma SameStep(post: Post, d: Desk, step: Step, l: Letter)
    requires OnlyMarked(step, l) && !step.Arrive? && step.copy.letter == l
    ensures After(Unforgiving(post), d, step) == After(post, d, step)
    ensures CanStep(Unforgiving(post), d, step) <==> CanStep(post, d, step)
  {
    hide Routed, AllServices, MarkedInside, DoDispatch, Ran, Again, Stamped, One;
    if step.Dispatch? { SameDispatch(post, d, step.copy, step.outcome, step.sending, step.settled); }
  }

  lemma SameOffspring(post: Post, step: Step, l: Letter, c: Copy)
    requires OnlyMarked(step, l) && Offspring(post, step, c, true) && c.letter == l
    ensures Offspring(Unforgiving(post), step, c, true)
    ensures !step.Arrive? ==> step.copy.letter == l
  {
    hide MarkedInside, Retries;
    if step.Dispatch? && step.copy.letter == l { SameFate(post, step.copy, step.outcome); }
  }

  /** No copy of the letter is ever counted as tried again. */
  lemma StaysNotRetried(post: Post, d: Desk, step: Step, l: Letter)
    requires CanStep(post, d, step) && OnlyMarked(step, l) && NotRetried(post, d, l)
    ensures NotRetried(post, After(post, d, step), l)
  {
    hide CanStep, After, Live, Everywhere, CopyOk, Offspring, OnlyMarked;
    var e := After(post, d, step);
    if !step.Arrive? { WorkedOnIsLive(post, d, step); }
    forall c | c in Live(e) && c.letter == l ensures CopyOk(Unforgiving(post), c, 0) {
      CopiesComeFrom(post, d, step, c);
      if c !in Live(d) {
        SameOffspring(post, step, l, c);
        CanStepAlso(post, d, step);
        OffspringOk(Unforgiving(post), d, step, c, true);
      }
    }
  }

  lemma CanStepAlso(post: Post, d: Desk, step: Step)
    ensures CanStep(Unforgiving(post), d, step) <==> CanStep(post, d, step)
  {
    hide Routed, AllServices;
  }

  // ----- steps on other letters change nothing for this one -----

  lemma OtherLeft(post: Post, d: Desk, step: Step, l: Letter)
    requires CanStep(post, d, step) && (if step.Arrive? then step.letter else step.copy.letter) != l
    ensures AllRunsLeft(Unforgiving(post), Live(After(post, d, step)), l) == AllRunsLeft(Unforgiving(post), Live(d), l)
  {
    hide CanStep, After, Live, One, Retried, Again, Ran, Stamped, GoesBack, GoesWaiting, Makes, Made;
    var none := Unforgiving(post);
    if step.Dispatch? {
      var c, rest := step.copy, Live(d) - multiset{step.copy};
      var back := GoesBack(post, c, step.outcome, step.sending, step.settled);
      DispatchLive(post, d, step);
      SameLetter(c);
      TakeOne(none, Live(d), c, l);
      AddOne(none, rest, back, Again(Ran(c)), l);
      AddOne(none, rest + One(back, Again(Ran(c))), GoesWaiting(post, c, step.outcome, step.sending), Retried(c), l);
    } else {
      QuietLive(post, d, step);
      MadeLetter(step);
      if !step.Arrive? {
        WorkedOnIsLive(post, d, step);
        TakeOne(none, Live(d), step.copy, l);
      }
      AddOne(none, if step.Arrive? then Live(d) else Live(d) - multiset{step.copy}, Makes(post, step), Made(step), l);
    }
  }

  lemma SameLetter(c: Copy)
    ensures Again(Ran(c)).letter == Retried(c).letter == c.letter
  {}

  lemma MadeLetter(step: Step)
    requires !step.Dispatch?
    ensures Made(step).letter == if step.Arrive? then step.letter else step.copy.letter
  {}

  lemma OtherBooks(post: Post, d: Desk, step: Step, l: Letter)
    requires CanStep(post, d, step) && (if step.Arrive? then step.letter else step.copy.letter) != l
    ensures var e := After(post, d, step);
      e.handled[l] <= d.handled[l] && e.arrived[l] == d.arrived[l] && e.requeued[l] == d.requeued[l]
  {
    hide CanStep, After;
    if step.Dispatch? {
      DispatchBooks(post, d, step.copy, step.outcome, step.sending, step.settled, l);
      DispatchIs(post, d, step);
    } else {
      QuietBooks(post, d, step, l);
    }
  }

  // ----- over runs -----

  lemma StepPays(post: Post, d: Desk, step: Step, l: Letter)
    requires CanStep(post, d, step) && OnlyMarked(step, l) && NotRetried(post, d, l)
    requires Affordable(Unforgiving(post), d, l)
    ensures Affordable(Unforgiving(post), After(post, d, step), l)
  {
    hide CanStep, After, CopyOk, OnlyMarked, Live, Allowance;
    if step.Arrive? {
      if step.letter == l {
        SameArrival(post, d, step);
        CanStepAlso(post, d, step);
        StepStaysAffordable(Unforgiving(post), d, step, l);
      } else {
        OtherLeft(post, d, step, l);
        OtherBooks(post, d, step, l);
      }
    } else if step.copy.letter == l {
      WorkedOnIsLive(post, d, step);
      SameStep(post, d, step, l);
      StepStaysAffordable(Unforgiving(post), d, step, l);
    } else {
      OtherLeft(post, d, step, l);
      OtherBooks(post, d, step, l);
    }
  }

  lemma SameArrival(post: Post, d: Desk, step: Step)
    requires step.Arrive?
    ensures After(Unforgiving(post), d, step) == After(post, d, step)
  {}

  lemma {:induction false} RunPays(post: Post, d: Desk, steps: seq<Step>, e: Desk, l: Letter)
    requires Run(post, d, steps, e) && forall step :: step in steps ==> OnlyMarked(step, l)
    requires NotRetried(post, d, l) && Affordable(Unforgiving(post), d, l)
    ensures NotRetried(post, e, l) && Affordable(Unforgiving(post), e, l)
    decreases |steps|
  {
    hide CanStep, After, NotRetried, Affordable, OnlyMarked;
    if steps != [] {
      StaysNotRetried(post, d, steps[0], l);
      StepPays(post, d, steps[0], l);
      RunPays(post, After(post, d, steps[0]), steps[1..], e, l);
    }
  }

  /** Whatever the limit, a letter whose every failure is marked is run at most once for each time that it was
      published or delivered again. */
  lemma MarkedIsNotRetried(post: Post, steps: seq<Step>, d: Desk, l: Letter)
    requires Run(post, Empty, steps, d) && forall step :: step in steps ==> OnlyMarked(step, l)
    ensures d.handled[l] <= d.arrived[l] + d.requeued[l]
  {
    hide Run, OnlyMarked, CopyOk;
    RunPays(post, Empty, steps, d, l);
    NoCreditNegative(Unforgiving(post), Live(d), l);
    assert Allowance(Unforgiving(post), d.arrived[l] + d.requeued[l]) == d.arrived[l] + d.requeued[l];
  }

  // ----- nothing else is given up before the limit -----

  /** The letter's handler never panics and never fails for good. */
  ghost predicate NeverForGood(step: Step, l: Letter) {
    step.Dispatch? && step.copy.letter == l ==>
    !step.outcome.Panicked? && (step.outcome.Failed? ==> !MarkedInside(step.outcome.error))
  }

  ghost predicate CountIsRuns(c: Copy) { -0x8000_0000 <= RetryCount(c.headers) <= c.runs }

  /** Each count of a live copy is a run of the handler, and a buried copy of the letter has used up the limit. */
  ghost predicate LimitUsed(post: Post, d: Desk, l: Letter) {
    && (forall c :: c in Live(d) ==> CountIsRuns(c))
    && forall c :: c in d.dead && c.letter == l ==> c.runs > Limit(post)
  }

  lemma DeadComesFrom(post: Post, d: Desk, step: Step, c: Copy)
    requires CanStep(post, d, step) && c in After(post, d, step).dead && c !in d.dead
    ensures step.Dispatch? && step.copy in Live(d) && c == Ran(step.copy)
    ensures step.outcome.Panicked? || (step.outcome.Failed? && GivesUp(post, step.copy, step.outcome))
  {
    hide Routed, AllServices, Ran, Again, Retried, Stamped, Decide, GoesBack, GoesWaiting;
  }

  lemma GivenUpAtTheLimit(post: Post, c: Copy, err: Failure)
    requires GivesUp(post, c, Outcome.Failed(err)) && !MarkedInside(err) && CountIsRuns(c)
    ensures Ran(c).runs > Limit(post)
  {
    hide RetryCount, Decide, MarkedInside;
    RetriesIff(err, RetryCount(c.headers), post.maxRetries);
  }

  lemma OffspringCount(post: Post, d: Desk, step: Step, c: Copy)
    requires CanStep(post, d, step) && Offspring(post, step, c, true)
    requires !step.Arrive? ==> CountIsRuns(step.copy)
    ensures CountIsRuns(c)
  {
    hide Routed, AllServices, Retries;
    if step.Expire? { DeathIsNotTheCounter(step.copy, step.death); }
    if step.Dispatch? {
      ToInt32Is(RetryCount(step.copy.headers) + 1);
      ToInt32AtMost(RetryCount(step.copy.headers) + 1);
    }
  }

  lemma StepUsesLimit(post: Post, d: Desk, step: Step, l: Letter)
    requires CanStep(post, d, step) && NeverForGood(step, l) && LimitUsed(post, d, l)
    ensures LimitUsed(post, After(post, d, step), l)
  {
    hide CanStep, After, Live, Everywhere, Offspring, CountIsRuns, MarkedInside, GivesUp, Limit;
    var e := After(post, d, step);
    if !step.Arrive? { WorkedOnIsLive(post, d, step); }
    forall c | c in Live(e) ensures CountIsRuns(c) {
      CopiesComeFrom(post, d, step, c);
      if c !in Live(d) { OffspringCount(post, d, step, c); }
    }
    forall c | c in e.dead && c.letter == l ensures c.runs > Limit(post) {
      if c !in d.dead {
        DeadComesFrom(post, d, step, c);
        if step.outcome.Failed? { GivenUpAtTheLimit(post, step.copy, step.outcome.error); }
      }
    }
  }

  lemma {:induction false} RunUsesLimit(post: Post, d: Desk, steps: seq<Step>, e: Desk, l: Letter)
    requires Run(post, d, steps, e) && forall step :: step in steps ==> NeverForGood(step, l)
    requires LimitUsed(post, d, l)
    ensures LimitUsed(post, e, l)
    decreases |steps|
  {
    hide CanStep, After, LimitUsed, NeverForGood;
    if steps != [] {
      StepUsesLimit(post, d, steps[0], l);
      RunUsesLimit(post, After(post, d, steps[0]), steps[1..], e, l);
    }
  }

  /** A letter whose handler never panics and never fails for good is dead-lettered only after a first run and as
      many more as the limit allows. */
  lemma BuriedOnlyAtTheLimit(post: Post, steps: seq<Step>, d: Desk, c: Copy)
    requires Run(post, Empty, steps, d) && forall step :: step in steps ==> NeverForGood(step, c.letter)
    requires c in d.dead
    ensures c.runs >= Limit(post) + 1
  {
    hide Run, NeverForGood;
    RunUsesLimit(post, Empty, steps, d, c.letter);
  }
}
