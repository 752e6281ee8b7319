/** Who hands over a build's outcome (internal/agent/build.go): the watcher of the builder's output,
    as soon as the image is pushed, or the goroutine that waits for the builder to end. */
module BuildOutcome {
  import opened Options

  datatype Failure = PastDeadline | HostFailed | ExitCode(code: int) | NoDigest

  datatype Outcome = PushedImage | FailedBuild(failure: Failure, transient: bool)

  /** The exit code builderScript ends with when BuildKit could not run. */
  const BUILDER_HOST_FAILED: int := 75

  /** How the wait for the builder ended. */
  datatype End =
    | NeverRan | Stopped | WaitFailed | StateUnknown
    | Deadline
    | Exited(oom: bool, code: int)

  /** The ends at which runBuilder asks who claimed the outcome. */
  predicate Claims(e: End) { e.Deadline? || (e.Exited? && !e.oom) }

  /** What the end itself says of the build. */
  function OutcomeAt(e: End, digestReadable: bool): Outcome
    requires Claims(e)
  {
    if e.Deadline? then FailedBuild(PastDeadline, false)
    else if e.code == BUILDER_HOST_FAILED then FailedBuild(HostFailed, true)
    else if e.code != 0 then FailedBuild(ExitCode(e.code), false)
    else if digestReadable then PushedImage
    else FailedBuild(NoDigest, false)
  }

  // ---- The two goroutines, a step at a time ----

  /** A sync.Once: a second caller waits while the first one's function runs. */
  datatype Once = Free | Running | Done

  datatype Watcher = Absent | Reading | Checked | InClaim | Ended

  datatype Runner =
    | Preparing
    | Waiting
    | Draining(end: End)
    | Claiming(end: End, drained: bool)
    | Decided(end: End, drained: bool, outcome: Option<Outcome>)
    | Returned(end: End, drained: bool, outcome: Option<Outcome>)
    | Joined(end: End, drained: bool, outcome: Option<Outcome>)
    | Finished(end: End, drained: bool, outcome: Option<Outcome>)

  /** `wanted` records that a push line passed the watcher's checks; `pushes` counts the calls of
      `pushed`, `publishing` the early publishes under way and `published` all publishes begun. */
  datatype State = State(once: Once, early: bool, watcher: Watcher, runner: Runner, stopping: bool, agentStopping: bool,
                         wanted: bool, pushes: nat, publishing: nat, published: nat)

  function Init(): State { State(Free, false, Absent, Preparing, false, false, false, 0, 0, 0) }

  datatype Event =
    | Stop | AgentStop
    | Prepared(ok: bool)
    | PushLine(digestReadable: bool) | WatcherClaims | WatcherPushes | OutputEnds | EarlyPublished
    | WaitEnds(end: End) | Drain(timedOut: bool) | RunnerClaims(digestReadable: bool) | Return | Join | Finish

  predicate Enabled(s: State, e: Event) {
    match e
    case Stop => true
    case AgentStop => true
    case Prepared(_) => s.runner.Preparing?
    case PushLine(_) => s.watcher.Reading?
    case WatcherClaims => s.watcher.Checked? && !s.once.Running?
    case WatcherPushes => s.watcher.InClaim?
    case OutputEnds => s.watcher.Reading?
    case EarlyPublished => s.publishing > 0
    case WaitEnds(end) =>
      && s.runner.Waiting? && !end.NeverRan?
      && (end.Stopped? ==> s.stopping) && (end.Deadline? || end.WaitFailed? ==> !s.stopping)
    case Drain(timedOut) => s.runner.Draining? && (timedOut || s.watcher.Ended?)
    case RunnerClaims(_) => s.runner.Claiming? && !s.once.Running?
    case Return => s.runner.Decided? && !s.once.Running?
    case Join => s.runner.Returned? && s.publishing == 0
    case Finish => s.runner.Joined?
  }

  function Step(s: State, e: Event): State
    requires Enabled(s, e)
  {
    match e
    case Stop => s.(stopping := true)
    case AgentStop => s.(agentStopping := true)
    case Prepared(ok) =>
      if ok then s.(runner := Waiting, watcher := Reading) else s.(runner := Returned(NeverRan, false, None))
    case PushLine(readable) => if s.stopping || !readable then s else s.(watcher := Checked, wanted := true)
    case WatcherClaims =>
      if s.once.Free? then s.(watcher := InClaim, once := Running, early := true) else s.(watcher := Reading)
    case WatcherPushes =>
      s.(watcher := Reading, once := Done, pushes := s.pushes + 1, publishing := s.publishing + 1,
          published := s.published + 1)
    case OutputEnds => s.(watcher := Ended)
    case EarlyPublished => s.(publishing := s.publishing - 1)
    case WaitEnds(end) =>
      if end.Deadline? || end.Exited? then s.(runner := Draining(end)) else s.(runner := Decided(end, false, None))
    case Drain(timedOut) =>
      if Claims(s.runner.end) then s.(runner := Claiming(s.runner.end, !timedOut))
      else s.(runner := Decided(s.runner.end, !timedOut, None))
    case RunnerClaims(readable) =>
      if Claims(s.runner.end) then
        s.(once := Done,
           runner := Decided(s.runner.end, s.runner.drained,
               if s.early then None else Some(OutcomeAt(s.runner.end, readable))))
      else s
    case Return => s.(once := Done, runner := Returned(s.runner.end, s.runner.drained, s.runner.outcome))
    case Join => s.(runner := Joined(s.runner.end, s.runner.drained, s.runner.outcome))
    case Finish =>
      s.(runner := Finished(s.runner.end, s.runner.drained, s.runner.outcome),
         published := s.published + if s.runner.outcome.Some? && !s.agentStopping && !s.stopping then 1 else 0)
  }

  predicate HasReturned(r: Runner) { r.Returned? || r.Joined? || r.Finished? }

  predicate HasDecided(r: Runner) { r.Decided? || HasReturned(r) }

  function Returns(r: Runner): nat { if HasDecided(r) && r.outcome.Some? then 1 else 0 }

  /** The once-guard, the early flag and the watcher agree. */
  ghost predicate OnceFits(s: State) {
    && (s.once.Running? <==> s.watcher.InClaim?)
    && (s.early <==> s.pushes == 1 || s.watcher.InClaim?)
    && (s.early ==> !s.once.Free?)
    && (s.pushes <= 1 && (s.watcher.InClaim? ==> s.pushes == 0))
    && (s.wanted && s.once.Free? ==> s.watcher.Checked?)
    && (s.early ==> s.wanted)
    && (s.watcher.Checked? ==> s.wanted)
  }

  /** A decision follows the claim: an outcome is returned exactly when an end that claims found the
      outcome unclaimed. */
  ghost predicate RunnerFits(s: State) {
    && (s.runner.Preparing? ==> s.watcher.Absent? && s.once.Free?)
    && ((s.runner.Waiting? || s.runner.Draining? || s.runner.Claiming?) ==> (s.once.Free? || s.early))
    && (s.runner.Claiming? ==> Claims(s.runner.end) && (s.runner.drained ==> s.watcher.Ended?))
    && (HasDecided(s.runner) && Claims(s.runner.end) ==>
          && !s.once.Free? && (s.runner.outcome.Some? <==> !s.early)
          && (s.runner.outcome.Some? ==>
              s.runner.outcome.value in {OutcomeAt(s.runner.end, true), OutcomeAt(s.runner.end, false)})
          && (s.runner.drained ==> (s.early <==> s.wanted)))
    && (HasDecided(s.runner) && !Claims(s.runner.end) ==> s.runner.outcome.None?)
    && (HasReturned(s.runner) ==> s.once.Done? || s.watcher.Absent?)
    && ((s.runner.Joined? || s.runner.Finished?) ==> s.publishing == 0)
  }

  /** Publishes: one for an early push, and one at the end for the outcome returned. */
  ghost predicate PublishFits(s: State) {
    && s.publishing <= s.pushes
    && s.pushes <= s.published <= s.pushes + (if s.runner.Finished? then Returns(s.runner) else 0)
  }

  ghost predicate Inv(s: State) { OnceFits(s) && RunnerFits(s) && PublishFits(s) && DrainedStays(s) }

  /** Once the output ended, the watcher does nothing more. */
  ghost predicate DrainedStays(s: State) {
    (s.runner.Claiming? || HasDecided(s.runner)) && s.runner.drained ==> s.watcher.Ended?
  }

  lemma {:induction false} StepKeepsInv(s: State, e: Event)
    requires Inv(s) && Enabled(s, e)
    ensures Inv(Step(s, e))
  {
    OnceKept(s, e);
    if e.Prepared? || e.WaitEnds? || e.Drain? || e.RunnerClaims? || e.Return? || e.Join? || e.Finish? {
      RunnerKept(s, e);
    } else {
      OthersKeepRunner(s, e);
    }
    PublishKept(s, e);
  }

  lemma {:induction false} OnceKept(s: State, e: Event)
    requires Inv(s) && Enabled(s, e)
    ensures OnceFits(Step(s, e))
  {
  }

  lemma {:induction false} RunnerKept(s: State, e: Event)
    requires Inv(s) && Enabled(s, e)
    requires e.Prepared? || e.WaitEnds? || e.Drain? || e.RunnerClaims? || e.Return? || e.Join? || e.Finish?
    ensures RunnerFits(Step(s, e)) && DrainedStays(Step(s, e))
  {
  }

  /** The watcher's and everyone else's steps leave the runner as it is. */
  lemma {:induction false} OthersKeepRunner(s: State, e: Event)
    requires Inv(s) && Enabled(s, e)
    requires !(e.Prepared? || e.WaitEnds? || e.Drain? || e.RunnerClaims? || e.Return? || e.Join? || e.Finish?)
    ensures RunnerFits(Step(s, e)) && DrainedStays(Step(s, e))
  {
    assert Step(s, e).runner == s.runner;
  }

  lemma {:induction false} PublishKept(s: State, e: Event)
    requires Inv(s) && Enabled(s, e)
    ensures PublishFits(Step(s, e))
  {
  }

  ghost predicate Legal(s: State, es: seq<Event>)
    decreases |es|
  {
    es == [] || (Enabled(s, es[0]) && Legal(Step(s, es[0]), es[1..]))
  }

  ghost function After(s: State, es: seq<Event>): State
    requires Legal(s, es)
    decreases |es|
  {
    if es == [] then s else After(Step(s, es[0]), es[1..])
  }

  lemma {:induction false} EveryRunKeepsInv(s: State, es: seq<Event>)
    requires Inv(s) && Legal(s, es)
    ensures Inv(After(s, es))
    decreases |es|
  {
    if es != [] {
      StepKeepsInv(s, es[0]);
      EveryRunKeepsInv(Step(s, es[0]), es[1..]);
    }
  }

  /** In every interleaving a build hands over at most one outcome, pushed early or returned, and
      publishes at most once, never two at a time. */
  lemma {:induction false} AtMostOneOutcome(es: seq<Event>)
    requires Legal(Init(), es)
    ensures var s := After(Init(), es); s.pushes + Returns(s.runner) <= 1 && s.publishing <= s.published <= 1
  {
    EveryRunKeepsInv(Init(), es);
  }

  /** Once runBuilder returned from a deadline or from an exit that was not out of memory, exactly
      one outcome was handed over; from any other end it returned none. */
  lemma {:induction false} ExactlyOneAtTheEnd(es: seq<Event>)
    requires Legal(Init(), es) && HasReturned(After(Init(), es).runner)
    ensures var s := After(Init(), es);
      && (Claims(s.runner.end) ==> s.pushes + Returns(s.runner) == 1)
      && (!Claims(s.runner.end) ==> Returns(s.runner) == 0)
  {
    EveryRunKeepsInv(Init(), es);
  }

  /** `pushed` never runs once runBuilder returned, so the wait for early publishes misses none. */
  lemma {:induction false} NothingIsPushedLater(s: State, es: seq<Event>)
    requires Inv(s) && Legal(s, es) && HasReturned(s.runner)
    ensures After(s, es).pushes == s.pushes && HasReturned(After(s, es).runner)
    ensures After(s, es).runner.outcome == s.runner.outcome
    decreases |es|
  {
    if es != [] {
      StepKeepsInv(s, es[0]);
      NothingIsPushedLater(Step(s, es[0]), es[1..]);
    }
  }

  /** When the output was read to its end before the claim, the outcome was pushed early exactly if
      a push line passed the watcher's checks. */
  lemma {:induction false} PushLineWinsWhenDrained(es: seq<Event>)
    requires Legal(Init(), es)
    requires var s := After(Init(), es); HasReturned(s.runner) && Claims(s.runner.end) && s.runner.drained
    ensures var s := After(Init(), es); (s.pushes == 1 <==> s.wanted) && (s.runner.outcome.Some? <==> !s.wanted)
  {
    EveryRunKeepsInv(Init(), es);
  }

  /** A push line in the run passed the checks: its digest was readable and the build was not stopping. */
  ghost predicate EverPushed(s: State, es: seq<Event>)
    requires Legal(s, es)
    decreases |es|
  {
    es != [] && ((es[0] == PushLine(true) && !s.stopping) || EverPushed(Step(s, es[0]), es[1..]))
  }

  lemma {:induction false} WantedExactly(s: State, es: seq<Event>)
    requires Legal(s, es)
    ensures After(s, es).wanted <==> s.wanted || EverPushed(s, es)
    decreases |es|
  {
    if es != [] {
      WantedExactly(Step(s, es[0]), es[1..]);
    }
  }

  /** In every run whose output was read to its end before the claim, the outcome was pushed early exactly
      if some push line passed the checks, and else returned as the end has it. */
  lemma {:induction false} DrainedRunExactly(es: seq<Event>)
    requires Legal(Init(), es)
    requires var s := After(Init(), es);
      && HasReturned(s.runner) && s.runner.drained
      && (s.runner.end.Deadline? || (s.runner.end.Exited? && !s.runner.end.oom))
    ensures var s := After(Init(), es);
      (s.pushes == 1 <==> EverPushed(Init(), es)) && (s.runner.outcome.Some? <==> !EverPushed(Init(), es))
  {
    PushLineWinsWhenDrained(es);
    WantedExactly(Init(), es);
  }

  /** The runner's steps from an end of the wait to its return, nobody else stepping: where it asks who
      claimed, the outcome is what the end says unless the watcher came first; elsewhere there is none. */
  lemma {:induction false} EndsReturn(s: State, end: End, readable: bool)
    requires Inv(s) && Enabled(s, WaitEnds(end)) && !s.once.Running?
    ensures var claims := end.Deadline? || (end.Exited? && !end.oom);
      var es := [WaitEnds(end)] + (if end.Deadline? || end.Exited? then [Drain(true)] else [])
                + (if claims then [RunnerClaims(readable)] else []) + [Return];
      && Legal(s, es)
      && After(s, es).runner == Returned(end, false,
           if !claims || s.early then None
           else Some(if end.Deadline? then FailedBuild(PastDeadline, false)
                     else if end.code == 75 then FailedBuild(HostFailed, true)
                     else if end.code != 0 then FailedBuild(ExitCode(end.code), false)
                     else if readable then PushedImage else FailedBuild(NoDigest, false)))
  {
    var t := Step(s, WaitEnds(end));
    if end.Deadline? || end.Exited? {
      var u := Step(t, Drain(true));
      if end.Deadline? || !end.oom {
        var v := Step(u, RunnerClaims(readable));
        PlayFirst(v, Return, []);
        PlayFirst(u, RunnerClaims(readable), [Return] + []);
        PlayFirst(t, Drain(true), [RunnerClaims(readable)] + ([Return] + []));
        PlayFirst(s, WaitEnds(end), [Drain(true)] + ([RunnerClaims(readable)] + ([Return] + [])));
        assert [WaitEnds(end)] + [Drain(true)] + [RunnerClaims(readable)] + [Return]
            == [WaitEnds(end)] + ([Drain(true)] + ([RunnerClaims(readable)] + ([Return] + [])));
      } else {
        PlayFirst(u, Return, []);
        PlayFirst(t, Drain(true), [Return] + []);
        PlayFirst(s, WaitEnds(end), [Drain(true)] + ([Return] + []));
        assert [WaitEnds(end)] + [Drain(true)] + [] + [Return] == [WaitEnds(end)] + ([Drain(true)] + ([Return] + []));
      }
    } else {
      PlayFirst(t, Return, []);
      PlayFirst(s, WaitEnds(end), [Return] + []);
      assert [WaitEnds(end)] + [] + [] + [Return] == [WaitEnds(end)] + ([Return] + []);
    }
  }

  lemma {:induction false} PlayFirst(s: State, e: Event, es: seq<Event>)
    requires Enabled(s, e) && Legal(Step(s, e), es)
    ensures Legal(s, [e] + es) && After(s, [e] + es) == After(Step(s, e), es)
  {
    assert ([e] + es)[1..] == es;
  }

  /** An image pushed while the builder exports its cache: the watcher hands the outcome over, the end
      returns none, and the one publish is over before the build finishes. */
  function EarlyPush(): seq<Event> {
    [Prepared(true)] + ([PushLine(true)] + ([WatcherClaims] + ([WatcherPushes] + ([OutputEnds] + EndOfEarlyPush()))))
  }

  function EndOfEarlyPush(): seq<Event> {
    [WaitEnds(Exited(false, 0))] + ([Drain(false)] + ([RunnerClaims(true)] + ([Return]
      + ([EarlyPublished] + ([Join] + ([Finish] + []))))))
  }

  lemma {:induction false} EarlyPushPublishesOnce()
    ensures Legal(Init(), EarlyPush())
    ensures var s := After(Init(), EarlyPush());
      && s.runner == Finished(Exited(false, 0), true, None) && s.pushes == 1 && s.published == 1 && s.publishing == 0
  {
    var s1 := Step(Init(), Prepared(true));
    var s2 := Step(s1, PushLine(true));
    var s3 := Step(s2, WatcherClaims);
    var s4 := Step(s3, WatcherPushes);
    var s5 := Step(s4, OutputEnds);
    assert s5 == PushedEarly();
    EndAfterEarlyPush();
    PlayFirst(s4, OutputEnds, EndOfEarlyPush());
    var r4 := [OutputEnds] + EndOfEarlyPush();
    PlayFirst(s3, WatcherPushes, r4);
    PlayFirst(s2, WatcherClaims, [WatcherPushes] + r4);
    PlayFirst(s1, PushLine(true), [WatcherClaims] + ([WatcherPushes] + r4));
    PlayFirst(Init(), Prepared(true), [PushLine(true)] + ([WatcherClaims] + ([WatcherPushes] + r4)));
  }

  function PushedEarly(): State { State(Done, true, Ended, Waiting, false, false, true, 1, 1, 1) }

  lemma {:induction false} EndAfterEarlyPush()
    ensures Legal(PushedEarly(), EndOfEarlyPush())
    ensures var s := After(PushedEarly(), EndOfEarlyPush());
      && s.runner == Finished(Exited(false, 0), true, None) && s.pushes == 1 && s.published == 1 && s.publishing == 0
  {
    var s0 := PushedEarly();
    var s1 := Step(s0, WaitEnds(Exited(false, 0)));
    var s2 := Step(s1, Drain(false));
    var s3 := Step(s2, RunnerClaims(true));
    var s4 := Step(s3, Return);
    var s5 := Step(s4, EarlyPublished);
    var s6 := Step(s5, Join);
    PlayFirst(s6, Finish, []);
    PlayFirst(s5, Join, [Finish] + []);
    PlayFirst(s4, EarlyPublished, [Join] + ([Finish] + []));
    var r4 := [EarlyPublished] + ([Join] + ([Finish] + []));
    PlayFirst(s3, Return, r4);
    PlayFirst(s2, RunnerClaims(true), [Return] + r4);
    PlayFirst(s1, Drain(false), [RunnerClaims(true)] + ([Return] + r4));
    PlayFirst(s0, WaitEnds(Exited(false, 0)), [Drain(false)] + ([RunnerClaims(true)] + ([Return] + r4)));
  }

  /** What is published at the end: the outcome returned, unless the build or the agent is stopping. */
  lemma {:induction false} FinishPublishesExactly(s: State)
    requires Enabled(s, Finish)
    ensures Step(s, Finish).published
         == s.published + if s.runner.outcome.Some? && !s.stopping && !s.agentStopping then 1 else 0
    ensures Step(s, Stop) == s.(stopping := true) && Step(s, AgentStop) == s.(agentStopping := true)
  {
  }

  /** A build that finished unstopped published every outcome it handed over. */
  lemma {:induction false} UnstoppedBuildPublishes(s: State, es: seq<Event>)
    requires Inv(s) && Legal(s, es)
    requires s.runner.Finished? ==> s.published == s.pushes + Returns(s.runner)
    requires After(s, es).runner.Finished? && !After(s, es).stopping && !After(s, es).agentStopping
    ensures After(s, es).published == After(s, es).pushes + Returns(After(s, es).runner)
    decreases |es|
  {
    if es != [] {
      StepKeepsInv(s, es[0]);
      StopsStay(Step(s, es[0]), es[1..]);
      UnstoppedBuildPublishes(Step(s, es[0]), es[1..]);
    }
  }

  lemma {:induction false} StopsStay(s: State, es: seq<Event>)
    requires Legal(s, es)
    ensures (s.stopping ==> After(s, es).stopping) && (s.agentStopping ==> After(s, es).agentStopping)
    decreases |es|
  {
    if es != [] {
      StopsStay(Step(s, es[0]), es[1..]);
    }
  }

  /** The guard the two goroutines share. */
  class OutcomeClaim {
    var claimed: bool
    var early: bool

    ghost predicate Valid()
      reads this
    {
      early ==> claimed
    }

    constructor ()
      ensures Valid() && !claimed && !early
    {
      claimed, early := false, false;
    }

    /** The watcher at a push line: whether it hands the outcome over. */
    method ClaimPush(stopping: bool, digestReadable: bool) returns (pushes: bool)
      requires Valid()
      modifies this
      ensures Valid()
      ensures pushes <==> !old(claimed) && !stopping && digestReadable
      ensures claimed == (old(claimed) || pushes) && early == (old(early) || pushes)
    {
      if stopping || !digestReadable || claimed {
        return false;
      }
      claimed, early := true, true;
      return true;
    }

    /** `claimed`: whether the watcher came first; no push follows. */
    method Claim() returns (pushedEarly: bool)
      requires Valid()
      modifies this
      ensures Valid() && claimed && early == old(early) && pushedEarly == old(early)
    {
      claimed := true;
      return early;
    }

    /** What runBuilder returns at an end, leaving the claim taken whichever way it goes. */
    method AtEnd(end: End, digestReadable: bool) returns (outcome: Option<Outcome>)
      requires Valid()
      modifies this
      ensures Valid() && claimed && early == old(early)
      ensures outcome == if Claims(end) && !early then Some(OutcomeAt(end, digestReadable)) else None
      ensures outcome.Some? <==> !early && (end.Deadline? || (end.Exited? && !end.oom))
      ensures outcome.Some? && end.Deadline? ==> outcome.value == FailedBuild(PastDeadline, false)
      ensures outcome.Some? && end.Exited? ==>
        outcome.value == (if end.code == 75 then FailedBuild(HostFailed, true)
                          else if end.code != 0 then FailedBuild(ExitCode(end.code), false)
                          else if digestReadable then PushedImage else FailedBuild(NoDigest, false))
    {
      outcome := None;
      var pushedEarly := Claim();
      match end {
        case NeverRan => {}
        case Stopped => {}
        case WaitFailed => {}
        case StateUnknown => {}
        case Deadline =>
          if !pushedEarly { outcome := Some(FailedBuild(PastDeadline, false)); }
        case Exited(oom, code) =>
          if oom || pushedEarly {
          } else if code == BUILDER_HOST_FAILED {
            outcome := Some(FailedBuild(HostFailed, true));
          } else if code != 0 {
            outcome := Some(FailedBuild(ExitCode(code), false));
          } else if !digestReadable {
            outcome := Some(FailedBuild(NoDigest, false));
          } else {
            outcome := Some(PushedImage);
          }
      }
    }
  }
}
