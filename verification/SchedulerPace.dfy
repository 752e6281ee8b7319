/** When the scheduler's loops run without a wake (cmd/scheduler/pace.go): leadership and live work
    change under a mutex while loops choose how long to sleep. */
module SchedulerPace {

  type Duration = int

  datatype View = View(leading: bool, live: bool)

  datatype Ticks = Ticks(tick: Duration, safety: Duration, contendedRetry: Duration)

  datatype Cadence = Cadence(every: Duration, quiet: bool)

  /** What `due` answered, and the time its answer is compared with. */
  datatype Due = NoDue | DueFailed | NothingDue | DueAt(at: int, now: int)

  /** What `rerun` answered, and the two times it is compared with, the second no earlier. */
  datatype Rerun = NoRerun | Rerun(at: int, first: int, second: int)

  /** How long to sleep; an untimed sleep lasts until a wake. */
  datatype Nap = Nap(d: Duration, timed: bool)

  function Min(a: int, b: int): int { if a < b then a else b }

  function Max(a: int, b: int): int { if a < b then b else a }

  function CadenceWait(v: View, c: Cadence, t: Ticks, due: Due): Nap {
    if !v.leading then Nap(0, false)
    else if !c.quiet || v.live then Nap(c.every, true)
    else match due
      case DueFailed => Nap(c.every, true)
      case DueAt(at, now) => Nap(Min(Max(at - now, 0), t.safety), true)
      case _ => Nap(t.safety, true)
  }

  function Rested(n: Nap, r: Rerun): Nap {
    if r.Rerun? && (!n.timed || r.at - r.first < n.d) then Nap(Max(r.at - r.second, 0), true) else n
  }

  // ---- The loop against every interleaving of changes ----

  /** What a loop chose and from what: whether its pass asked to run again, else the view read and
      the answers it was given. */
  datatype Choice = Again | Chosen(read: View, due: Due, rerun: Rerun)

  function Wait(c: Cadence, t: Ticks, choice: Choice): Nap {
    match choice
    case Again => Nap(t.contendedRetry, true)
    case Chosen(v, due, rerun) => Rested(CadenceWait(v, c, t, due), rerun)
  }

  /** A channel is named by how many changes preceded it: it is closed once there were more. */
  datatype Phase =
    | Passing
    | Passed(again: bool)
    | Took(again: bool, channel: nat)
    | Read(channel: nat, read: View)
    | Sleeping(channel: nat, choice: Choice, nap: Nap)
    | WatchSleeping(channel: nat, read: View, nap: Nap)

  /** The views the pace has had, each differing from the one before, and one loop. */
  datatype State = State(views: seq<View>, phase: Phase)

  function Init(): State { State([View(false, true)], Passing) }

  function Current(s: State): View
    requires s.views != []
  {
    s.views[|s.views| - 1]
  }

  function Channel(s: State): nat
    requires s.views != []
  {
    |s.views| - 1
  }

  predicate Closed(s: State, channel: nat) { channel + 1 < |s.views| }

  datatype Event =
    | Set(v: View)                        // set, setLive or lead by another goroutine
    | PassDone(again: bool) | TakeChannel | ReadView | Choose(due: Due, rerun: Rerun)
    | WatchReads | WakeUp

  ghost predicate Enabled(s: State, e: Event) {
    match e
    case Set(_) => true
    case PassDone(_) => s.phase.Passing?
    case TakeChannel => s.phase.Passed?
    case ReadView => s.phase.Took? && !s.phase.again
    case Choose(_, rerun) =>
      && ((s.phase.Took? && s.phase.again) || s.phase.Read?)
      && (rerun.Rerun? ==> rerun.first <= rerun.second)
    case WatchReads => s.phase.Passing?
    case WakeUp => s.phase.Sleeping? || s.phase.WatchSleeping?
  }

  function Changed(views: seq<View>, v: View): seq<View>
    requires views != []
  {
    if v == views[|views| - 1] then views else views + [v]
  }

  function WatchNap(v: View, t: Ticks): Nap { Nap(if v.live then t.tick else t.safety, v.leading) }

  ghost function Step(s: State, e: Event, c: Cadence, t: Ticks): State
    requires s.views != [] && Enabled(s, e)
  {
    match e
    case Set(v) => s.(views := Changed(s.views, v))
    case PassDone(again) => s.(phase := Passed(again))
    case TakeChannel => s.(phase := Took(s.phase.again, Channel(s)))
    case ReadView => s.(phase := Read(s.phase.channel, Current(s)))
    case Choose(due, rerun) =>
      var choice := if s.phase.Took? then Again else Chosen(s.phase.read, due, rerun);
      s.(phase := Sleeping(s.phase.channel, choice, Wait(c, t, choice)))
    case WatchReads => s.(phase := WatchSleeping(Channel(s), Current(s), WatchNap(Current(s), t)))
    case WakeUp => s.(phase := Passing)
  }

  /** A view read after a channel was taken is the current one while that channel is open. */
  ghost predicate Fresh(s: State, channel: nat, read: View)
    requires s.views != []
  {
    channel < |s.views| && (!Closed(s, channel) ==> read == Current(s))
  }

  ghost predicate Inv(s: State, c: Cadence, t: Ticks) {
    && s.views != []
    && (forall i :: 0 < i < |s.views| ==> s.views[i] != s.views[i - 1])
    && match s.phase
       case Passing => true
       case Passed(_) => true
       case Took(_, channel) => channel < |s.views|
       case Read(channel, read) => Fresh(s, channel, read)
       case Sleeping(channel, choice, nap) =>
         && channel < |s.views| && nap == Wait(c, t, choice)
         && (choice.Chosen? ==> Fresh(s, channel, choice.read))
         && (choice.Chosen? && choice.rerun.Rerun? ==> choice.rerun.first <= choice.rerun.second)
       case WatchSleeping(channel, read, nap) => Fresh(s, channel, read) && nap == WatchNap(read, t)
  }

  lemma {:induction false} StepKeepsInv(s: State, e: Event, c: Cadence, t: Ticks)
    requires Inv(s, c, t) && Enabled(s, e)
    ensures Inv(Step(s, e, c, t), c, t)
  {
    if e.Set? {
      var u := Step(s, e, c, t);
      assert forall channel: nat, read :: Fresh(s, channel, read) ==> Fresh(u, channel, read);
    }
  }

  ghost predicate Legal(s: State, es: seq<Event>, c: Cadence, t: Ticks)
    requires s.views != []
    decreases |es|
  {
    es == [] || (Enabled(s, es[0]) && Legal(Step(s, es[0], c, t), es[1..], c, t))
  }

  ghost function After(s: State, es: seq<Event>, c: Cadence, t: Ticks): State
    requires s.views != [] && Legal(s, es, c, t)
    decreases |es|
  {
    if es == [] then s else After(Step(s, es[0], c, t), es[1..], c, t)
  }

  lemma {:induction false} EveryRunKeepsInv(s: State, es: seq<Event>, c: Cadence, t: Ticks)
    requires Inv(s, c, t) && Legal(s, es, c, t)
    ensures Inv(After(s, es, c, t), c, t)
    decreases |es|
  {
    if es != [] {
      StepKeepsInv(s, es[0], c, t);
      EveryRunKeepsInv(Step(s, es[0], c, t), es[1..], c, t);
    }
  }

  /** No loop sleeps through a change: whenever leading or live differs from what its sleep was
      chosen by, the channel it sleeps on is closed; and only a change closes it. */
  lemma {:induction false} NoChangeIsSleptThrough(es: seq<Event>, c: Cadence, t: Ticks)
    requires Legal(Init(), es, c, t)
    ensures var s := After(Init(), es, c, t);
      && s.views != []
      && (s.phase.Sleeping? && s.phase.choice.Chosen? && s.phase.choice.read != Current(s) ==>
          Closed(s, s.phase.channel))
      && (s.phase.WatchSleeping? && s.phase.read != Current(s) ==> Closed(s, s.phase.channel))
      && (s.phase.Sleeping? && Closed(s, s.phase.channel) ==> s.views[s.phase.channel + 1] != s.views[s.phase.channel])
  {
    EveryRunKeepsInv(Init(), es, c, t);
  }

  /** The bounds on what the code computes, as a function of the view it read. */
  lemma {:induction false} WaitIsBounded(c: Cadence, t: Ticks, choice: Choice)
    requires choice.Chosen? && choice.rerun.Rerun? ==> choice.rerun.first <= choice.rerun.second
    ensures var n := Wait(c, t, choice);
      && (choice.Again? || choice.read.leading ==>
          n.timed && n.d <= Max(0, Max(c.every, Max(t.safety, t.contendedRetry))))
      && (choice.Chosen? && choice.read.leading && (choice.read.live || !c.quiet) ==> n.d <= Max(0, c.every))
      && (choice.Chosen? && !choice.read.leading ==> (n.timed <==> choice.rerun.Rerun?))
      && (choice.Chosen? && choice.rerun.Rerun? ==> n.timed && n.d <= Max(0, choice.rerun.at - choice.rerun.first))
  {
  }

  /** What the code computes, case by case: the contended retry for a pass that asked to run again; on the
      leader its interval with live work or a loop that is not quiet, or when `due` fails, else the
      time until work is due within the safety tick; elsewhere nothing timed; and an earlier rerun
      before all of these but the first. */
  lemma {:induction false} WaitExactly(c: Cadence, t: Ticks, choice: Choice)
    ensures choice.Again? ==> Wait(c, t, choice) == Nap(t.contendedRetry, true)
    ensures choice.Chosen? && choice.rerun.NoRerun? ==>
      var n := Wait(c, t, choice);
      && (n.timed <==> choice.read.leading)
      && (choice.read.leading && (choice.read.live || !c.quiet || choice.due.DueFailed?) ==> n.d == c.every)
      && (choice.read == View(true, false) && c.quiet && (choice.due.NoDue? || choice.due.NothingDue?) ==>
            n.d == t.safety)
      && (choice.read == View(true, false) && c.quiet && choice.due.DueAt? ==>
            var until := if choice.due.at > choice.due.now then choice.due.at - choice.due.now else 0;
            n.d == if until < t.safety then until else t.safety)
    ensures choice.Chosen? && choice.rerun.Rerun? ==>
      var base := Wait(c, t, Chosen(choice.read, choice.due, NoRerun));
      var until := if choice.rerun.at > choice.rerun.second then choice.rerun.at - choice.rerun.second else 0;
      Wait(c, t, choice)
        == if !base.timed || choice.rerun.at - choice.rerun.first < base.d then Nap(until, true) else base
  {
  }

  /** A change takes effect, and closes the channel handed out exactly if it changed anything. */
  lemma {:induction false} ChangesTakeEffect(s: State, v: View, c: Cadence, t: Ticks)
    requires Inv(s, c, t)
    ensures var u := Step(s, Set(v), c, t);
      u.views != [] && Current(u) == v && (Closed(u, Channel(s)) <==> v != Current(s)) && u.phase == s.phase
  {
  }

  lemma {:induction false} PlayFirst(s: State, e: Event, es: seq<Event>, c: Cadence, t: Ticks)
    requires s.views != [] && Enabled(s, e) && Legal(Step(s, e, c, t), es, c, t)
    ensures Legal(s, [e] + es, c, t) && After(s, [e] + es, c, t) == After(Step(s, e, c, t), es, c, t)
  {
    assert ([e] + es)[1..] == es;
  }

  /** Undisturbed, a loop goes from a pass to a sleep on the present channel, chosen from the present
      view, or by the contended retry if its pass asked to run again; and a wake runs the next pass. */
  lemma {:induction false} PassLeadsToSleep(s: State, due: Due, rerun: Rerun, c: Cadence, t: Ticks)
    requires Inv(s, c, t) && s.phase.Passing? && (rerun.Rerun? ==> rerun.first <= rerun.second)
    ensures var es := [PassDone(false)] + ([TakeChannel] + ([ReadView] + ([Choose(due, rerun)] + [])));
      && Legal(s, es, c, t)
      && var choice := Chosen(Current(s), due, rerun);
         After(s, es, c, t) == s.(phase := Sleeping(|s.views| - 1, choice, Wait(c, t, choice)))
    ensures var es := [PassDone(true)] + ([TakeChannel] + ([Choose(due, rerun)] + ([WakeUp] + [])));
      Legal(s, es, c, t) && After(s, es, c, t) == s
    ensures Legal(s, [WatchReads] + [], c, t)
      && After(s, [WatchReads] + [], c, t)
         == s.(phase := WatchSleeping(|s.views| - 1, Current(s), WatchNap(Current(s), t)))
  {
    var a := Step(s, PassDone(false), c, t);
    var b := Step(a, TakeChannel, c, t);
    var d := Step(b, ReadView, c, t);
    PlayFirst(d, Choose(due, rerun), [], c, t);
    PlayFirst(b, ReadView, [Choose(due, rerun)] + [], c, t);
    PlayFirst(a, TakeChannel, [ReadView] + ([Choose(due, rerun)] + []), c, t);
    PlayFirst(s, PassDone(false), [TakeChannel] + ([ReadView] + ([Choose(due, rerun)] + [])), c, t);
    var e := Step(s, PassDone(true), c, t);
    var f := Step(e, TakeChannel, c, t);
    var g := Step(f, Choose(due, rerun), c, t);
    assert g.phase == Sleeping(|s.views| - 1, Again, Nap(t.contendedRetry, true));
    PlayFirst(g, WakeUp, [], c, t);
    PlayFirst(f, Choose(due, rerun), [WakeUp] + [], c, t);
    PlayFirst(e, TakeChannel, [Choose(due, rerun)] + ([WakeUp] + []), c, t);
    PlayFirst(s, PassDone(true), [TakeChannel] + ([Choose(due, rerun)] + ([WakeUp] + [])), c, t);
    PlayFirst(s, WatchReads, [], c, t);
  }

  /** In every reachable state, a sleeping loop of the replica that now leads has been woken or its
      timer runs at most the longest of its interval, the safety tick and the contended retry,
      whatever the replica was when the sleep began. */
  lemma {:induction false} LeaderNeverOversleeps(es: seq<Event>, c: Cadence, t: Ticks)
    requires Legal(Init(), es, c, t)
    requires var s := After(Init(), es, c, t); s.views != [] && Current(s).leading && s.phase.Sleeping?
    ensures var s := After(Init(), es, c, t);
      Closed(s, s.phase.channel)
          || (s.phase.nap.timed && s.phase.nap.d <= Max(0, Max(c.every, Max(t.safety, t.contendedRetry))))
  {
    EveryRunKeepsInv(Init(), es, c, t);
    WaitIsBounded(c, t, After(Init(), es, c, t).phase.choice);
  }

  /** While work is live on the leader, or the loop is not a quiet one, it has been woken or sleeps
      at most its interval or the contended retry. */
  lemma {:induction false} LiveLeaderKeepsItsInterval(es: seq<Event>, c: Cadence, t: Ticks)
    requires Legal(Init(), es, c, t)
    requires var s := After(Init(), es, c, t);
      s.views != [] && Current(s).leading && (Current(s).live || !c.quiet) && s.phase.Sleeping?
    ensures var s := After(Init(), es, c, t);
      Closed(s, s.phase.channel) || (s.phase.nap.timed && s.phase.nap.d <= Max(0, Max(c.every, t.contendedRetry)))
  {
    EveryRunKeepsInv(Init(), es, c, t);
    WaitIsBounded(c, t, After(Init(), es, c, t).phase.choice);
  }

  /** A loop of a replica that does not lead has been woken, or is timed exactly when its pass asked
      to run again or a rerun is set. */
  lemma {:induction false} StandbyIsUntimed(es: seq<Event>, c: Cadence, t: Ticks)
    requires Legal(Init(), es, c, t)
    requires var s := After(Init(), es, c, t); s.views != [] && !Current(s).leading && s.phase.Sleeping?
    ensures var s := After(Init(), es, c, t);
      Closed(s, s.phase.channel) || (s.phase.nap.timed <==> s.phase.choice.Again? || s.phase.choice.rerun.Rerun?)
  {
    EveryRunKeepsInv(Init(), es, c, t);
    WaitIsBounded(c, t, After(Init(), es, c, t).phase.choice);
  }

  /** A quiet loop on the idle leader has been woken or wakes by the time its work is due; with
      nothing due and no rerun it sleeps exactly the safety tick. */
  lemma {:induction false} IdleLeaderWakesWhenDue(es: seq<Event>, c: Cadence, t: Ticks)
    requires Legal(Init(), es, c, t)
    requires var s := After(Init(), es, c, t);
      s.views != [] && Current(s) == View(true, false) && c.quiet && s.phase.Sleeping? && s.phase.choice.Chosen?
    ensures var s := After(Init(), es, c, t);
      var choice, nap := s.phase.choice, s.phase.nap;
      || Closed(s, s.phase.channel)
      || (&& (choice.due.DueAt? ==> nap.d <= Max(0, choice.due.at - choice.due.now))
          && ((choice.due.NothingDue? || choice.due.NoDue?) && choice.rerun.NoRerun? ==> nap == Nap(t.safety, true)))
  {
    EveryRunKeepsInv(Init(), es, c, t);
  }

  /** The watcher of live work sleeps by the state there is: on the leader a tick while work is live
      and a safety tick otherwise, elsewhere until a wake. */
  lemma {:induction false} WatcherFollowsTheState(es: seq<Event>, c: Cadence, t: Ticks)
    requires Legal(Init(), es, c, t)
    requires var s := After(Init(), es, c, t); s.views != [] && s.phase.WatchSleeping?
    ensures var s := After(Init(), es, c, t);
      || Closed(s, s.phase.channel)
      || (&& (s.phase.nap.timed <==> Current(s).leading)
          && s.phase.nap.d == if Current(s).live then t.tick else t.safety)
  {
    EveryRunKeepsInv(Init(), es, c, t);
  }

  // ---- The object ----

  class Signal {
    var closed: bool

    constructor ()
      ensures !closed
    {
      closed := false;
    }
  }

  class Pace {
    var leading: bool
    var live: bool
    var changed: Signal

    ghost predicate Valid()
      reads this, changed
    {
      !changed.closed
    }

    function CurrentView(): View
      reads this
    {
      View(leading, live)
    }

    constructor ()
      ensures Valid() && fresh(changed) && CurrentView() == View(false, true)
    {
      leading, live := false, true;
      changed := new Signal();
    }

    /** set: an update that changes the view closes the channel handed out so far, and only that. */
    method Set(v: View)
      requires Valid()
      modifies this, changed
      ensures Valid() && CurrentView() == v
      ensures v == old(CurrentView()) ==> changed == old(changed)
      ensures v != old(CurrentView()) ==> old(changed).closed && fresh(changed)
    {
      var before := CurrentView();
      leading, live := v.leading, v.live;
      if before != CurrentView() {
        changed.closed := true;
        changed := new Signal();
      }
    }

    /** lead: a new leader takes what the probe found in the same step; a failed probe
        counts as live. */
    method Lead(lead: bool, probed: Probe)
      requires Valid()
      modifies this, changed
      ensures Valid() && leading == lead
      ensures live == if lead then probed != Idle else old(live)
      ensures old(changed).closed <==> CurrentView() != old(CurrentView())
      ensures changed != old(changed) ==> fresh(changed)
    {
      if !lead {
        Set(View(false, live));
      } else {
        Set(View(true, probed != Idle));
      }
    }

    /** wait: from the view at the call, unless the pass asked to run again. */
    method WaitFor(c: Cadence, t: Ticks, again: bool, due: Due, rerun: Rerun) returns (n: Nap)
      requires rerun.Rerun? ==> rerun.first <= rerun.second
      ensures n == Wait(c, t, if again then Again else Chosen(CurrentView(), due, rerun))
      ensures leading ==> n.timed && n.d <= Max(0, Max(c.every, Max(t.safety, t.contendedRetry)))
      ensures !leading ==> (n.timed <==> again || rerun.Rerun?)
    {
      WaitIsBounded(c, t, if again then Again else Chosen(CurrentView(), due, rerun));
      if again {
        return Nap(t.contendedRetry, true);
      }
      var nap := CadenceWait(CurrentView(), c, t, due);
      if rerun.Rerun? && (!nap.timed || rerun.at - rerun.first < nap.d) {
        return Nap(Max(rerun.at - rerun.second, 0), true);
      }
      return nap;
    }
  }

  datatype Probe = Live | Idle | Failed
}
