/** The slots of a container (internal/agent/container.go): claims for free slots, dispatch,
    cancels, outcomes and the supervisor's restatements, interleaved in any order. */
module AttemptSlots {
  import opened CancelMemory

  /** What the container's mutex guards. `memory` remembers cancels, oldest first. */
  datatype Shared = Shared(slots: nat, exited: bool, running: set<Attempt>, completing: set<Attempt>, memory: Memory)

  function SetOf(s: seq<Attempt>): set<Attempt> { set a | a in s }

  /** onReady: what runs is what the supervisor restates and nobody cancelled, what no supervisor
      was sent yet, and what is being completed. */
  function Restated(c: Shared, stated: seq<Attempt>, queued: seq<Attempt>, now: int): Shared {
    if c.exited then c
    else c.(running := (set a | a in stated && !Has(c.memory, a, now)) + SetOf(queued) + c.completing)
  }

  function Dispatched(c: Shared, a: Attempt, now: int): Shared {
    if c.exited || Has(c.memory, a, now) then c else c.(running := c.running + {a})
  }

  function Cancelled(c: Shared, a: Attempt, now: int): Shared {
    c.(memory := Add(c.memory, a, now), running := c.running - {a})
  }

  /** An outcome counts for a running attempt with none under way. */
  predicate Awaits(c: Shared, a: Attempt) { a in c.running && a !in c.completing }

  function Finishing(c: Shared, a: Attempt): Shared {
    if Awaits(c, a) then c.(completing := c.completing + {a}) else c
  }

  function Freed(c: Shared, a: Attempt): Shared {
    c.(running := c.running - {a}, completing := c.completing - {a})
  }

  function Exited(c: Shared): Shared {
    if c.exited then c else c.(exited := true, running := {})
  }

  // ---- The claim loop, the deliveries and the history ----

  /** The claim loop asked for at most `max` tasks, or holds tasks it has yet to dispatch. */
  datatype Claim = Idle | Asking(max: nat) | Handing(tasks: seq<Attempt>)

  /** `claiming` says that the claim loop was started, as the first restatement does; `deliveries` are
      the goroutines delivering outcomes; `admitted` and `outcomes` count how often an attempt that did
      not run was set running and how often its outcome was taken. */
  datatype State = State(c: Shared, claiming: bool, claim: Claim, now: int, deliveries: multiset<Attempt>,
                         cancels: seq<Cancel>, admitted: multiset<Attempt>, outcomes: multiset<Attempt>)

  function Init(slots: nat): State {
    State(Shared(slots, false, {}, {}, []), false, Idle, 0, multiset{}, [], multiset{}, multiset{})
  }

  datatype Event =
    | Ready(stated: seq<Attempt>, queued: seq<Attempt>)
    | Ask | Respond(tasks: seq<Attempt>) | Fail | Hand
    | Cancel(a: Attempt) | Finish(a: Attempt) | Deliver(a: Attempt) | Exit | Tick(now: int)

  predicate Enabled(s: State, e: Event) {
    match e
    case Ready(_, _) => true
    case Ask => s.claiming && s.claim.Idle? && |s.c.running| < s.c.slots
    case Respond(tasks) => s.claim.Asking? && |tasks| <= s.claim.max
    case Fail => s.claim.Asking?
    case Hand => s.claim.Handing?
    case Cancel(_) => true
    case Finish(_) => true
    case Deliver(a) => a in s.deliveries
    case Exit => true
    case Tick(now) => s.now <= now
  }

  function Handed(s: State): State
    requires s.claim.Handing?
  {
    if s.claim.tasks == [] then s.(claim := Idle) else
      var a := s.claim.tasks[0];
      var c := Dispatched(s.c, a, s.now);
      s.(c := c, claim := Handing(s.claim.tasks[1..]),
         admitted := s.admitted + multiset(c.running - s.c.running))
  }

  function Step(s: State, e: Event): State
    requires Enabled(s, e)
  {
    match e
    case Ready(stated, queued) =>
      var c := Restated(s.c, stated, queued, s.now);
      s.(c := c, claiming := s.claiming || !c.exited, admitted := s.admitted + multiset(c.running - s.c.running))
    case Ask => s.(claim := Asking(s.c.slots - |s.c.running|))
    case Respond(tasks) => s.(claim := Handing(tasks))
    case Fail => s.(claim := Idle)
    case Hand => Handed(s)
    case Cancel(a) => s.(c := Cancelled(s.c, a, s.now), cancels := s.cancels + [CancelMemory.Cancel.Cancel(a, s.now)])
    case Finish(a) =>
      if Awaits(s.c, a)
      then s.(c := Finishing(s.c, a), deliveries := s.deliveries + multiset{a}, outcomes := s.outcomes + multiset{a})
      else s
    case Deliver(a) => s.(c := Freed(s.c, a), deliveries := s.deliveries - multiset{a})
    case Exit => s.(c := Exited(s.c))
    case Tick(now) => s.(now := now)
  }

  // ---- What every reachable state keeps ----

  /** `completing` is exactly the deliveries in flight, one per attempt. */
  ghost predicate OneDeliveryEach(s: State) {
    s.deliveries == multiset(s.c.completing)
  }

  /** No more outcomes were taken of an attempt than times it was admitted, and a running
      attempt that awaits its outcome has one left. */
  ghost predicate OutcomesBounded(s: State) {
    && (forall a :: s.outcomes[a] <= s.admitted[a])
    && (forall a :: Awaits(s.c, a) ==> s.outcomes[a] < s.admitted[a])
  }

  /** The memory is what the cancels so far leave. */
  ghost predicate MemoryFits(s: State) {
    Remembered(s.cancels, s.c.memory, s.now)
  }

  ghost predicate Remembered(h: seq<Cancel>, m: Memory, now: int) {
    Timed(h) && AllBy(h, now) && m == Replay(h)
  }

  ghost predicate AllBy(h: seq<Cancel>, now: int) {
    forall i :: 0 <= i < |h| ==> h[i].time <= now
  }

  ghost predicate Inv(s: State) {
    OneDeliveryEach(s) && OutcomesBounded(s) && MemoryFits(s)
  }

  lemma {:induction false} DeliveriesKept(s: State, e: Event)
    requires OneDeliveryEach(s) && Enabled(s, e)
    ensures OneDeliveryEach(Step(s, e))
  {
  }

  lemma {:induction false} OutcomesKept(s: State, e: Event)
    requires OutcomesBounded(s) && Enabled(s, e)
    ensures OutcomesBounded(Step(s, e))
  {
    if e.Ready? || e.Hand? {
      AdmitKeepsOutcomes(s, Step(s, e));
    }
  }

  /** An attempt newly set running has an outcome to come. */
  lemma {:induction false} AdmitKeepsOutcomes(s: State, t: State)
    requires OutcomesBounded(s) && t.c.completing == s.c.completing && t.outcomes == s.outcomes
    requires t.admitted == s.admitted + multiset(t.c.running - s.c.running)
    ensures OutcomesBounded(t)
  {
    forall a | Awaits(t.c, a) ensures t.outcomes[a] < t.admitted[a] {
      assert a in s.c.running || a in multiset(t.c.running - s.c.running);
    }
  }

  lemma {:induction false} ReplayOneMore(h: seq<Cancel>, c: Cancel)
    ensures Replay(h + [c]) == Add(Replay(h), c.attempt, c.time)
  {
    assert (h + [c])[..|h|] == h;
  }

  lemma {:induction false} TimedOneMore(h: seq<Cancel>, c: Cancel)
    requires Timed(h) && AllBy(h, c.time)
    ensures Timed(h + [c]) && AllBy(h + [c], c.time)
  {
  }

  lemma {:induction false} RememberedOneMore(h: seq<Cancel>, m: Memory, c: Cancel)
    requires Remembered(h, m, c.time)
    ensures Remembered(h + [c], Add(m, c.attempt, c.time), c.time)
  {
    ReplayOneMore(h, c);
    TimedOneMore(h, c);
  }

  lemma {:induction false} MemoryKept(s: State, e: Event)
    requires MemoryFits(s) && Enabled(s, e)
    ensures MemoryFits(Step(s, e))
  {
    if e.Cancel? {
      RememberedOneMore(s.cancels, s.c.memory, CancelMemory.Cancel.Cancel(e.a, s.now));
    } else {
      var t := Step(s, e);
      assert t.cancels == s.cancels && t.c.memory == s.c.memory && s.now <= t.now;
    }
  }

  lemma {:induction false} StepKeepsInv(s: State, e: Event)
    requires Inv(s) && Enabled(s, e)
    ensures Inv(Step(s, e))
  {
    DeliveriesKept(s, e);
    OutcomesKept(s, e);
    MemoryKept(s, e);
  }

  // ---- Slots ----

  /** Tasks claimed and not dispatched, or that the server may still hand over. */
  function Reserved(s: State): nat {
    match s.claim
    case Idle => 0
    case Asking(max) => max
    case Handing(tasks) => |tasks|
  }

  function Load(s: State): nat { Reserved(s) + |s.c.running| }

  function Max(a: nat, b: nat): nat { if a < b then b else a }

  lemma {:induction false} Shrinks(x: set<Attempt>, a: Attempt)
    ensures |x - {a}| <= |x| && |x + {a}| <= |x| + 1
  {
    if a in x {
      assert x + {a} == x;
    } else {
      assert x - {a} == x;
    }
  }

  /** No step but a restatement takes the claimed tasks and the running attempts past the slots,
      or past where they already were. */
  lemma {:induction false} OnlyReadyAddsLoad(s: State, e: Event)
    requires Enabled(s, e) && !e.Ready?
    ensures Load(Step(s, e)) <= Max(Load(s), s.c.slots) && Step(s, e).c.slots == s.c.slots
  {
    match e
    case Hand => if s.claim.tasks != [] { Shrinks(s.c.running, s.claim.tasks[0]); }
    case Cancel(a) => Shrinks(s.c.running, a);
    case Deliver(a) => Shrinks(s.c.running, a);
    case _ =>
  }

  // ---- Whole runs ----

  ghost predicate Legal(s: State, es: seq<Event>)
    decreases |es|
  {
    es == [] || (Enabled(s, es[0]) && Legal(Step(s, es[0]), es[1..]))
  }

  ghost function After(s: State, es: seq<Event>): State
    requires Legal(s, es)
    decreases |es|
  {
    if es == [] then s else After(Step(s, es[0]), es[1..])
  }

  lemma {:induction false} EveryRunKeepsInv(s: State, es: seq<Event>)
    requires Inv(s) && Legal(s, es)
    ensures Inv(After(s, es))
    decreases |es|
  {
    if es != [] {
      StepKeepsInv(s, es[0]);
      EveryRunKeepsInv(Step(s, es[0]), es[1..]);
    }
  }

  /** In every run of steps other than restatements, with a server that hands over no more than
      it was asked for, the claimed and running attempts stay within the slots. */
  lemma {:induction false} ClaimsStayWithinSlots(s: State, es: seq<Event>)
    requires Legal(s, es) && forall i :: 0 <= i < |es| ==> !es[i].Ready?
    ensures Load(After(s, es)) <= Max(Load(s), s.c.slots)
    decreases |es|
  {
    if es != [] {
      OnlyReadyAddsLoad(s, es[0]);
      ClaimsStayWithinSlots(Step(s, es[0]), es[1..]);
    }
  }

  /** A run is legal, and ends where its rest does, once its first step and its rest are legal. */
  lemma {:induction false} PlayFirst(s: State, es: seq<Event>)
    requires es != [] && Enabled(s, es[0]) && Legal(Step(s, es[0]), es[1..])
    ensures Legal(s, es) && After(s, es) == After(Step(s, es[0]), es[1..])
  {
  }

  lemma {:induction false} RestateNew(c: Shared, a: Attempt)
    requires !c.exited && c.memory == [] && c.completing == {}
    ensures Restated(c, [], [], 0).running == {} && Restated(c, [a], [], 0).running == {a}
  {
    assert !Has(c.memory, a, 0);
  }

  /** A restatement can exceed them, even one of no more attempts than there are slots: an attempt
      restated while a claim for its slot is under way. */
  lemma {:induction false} ReadyMayExceedSlots()
    ensures var es := [Ready([], []), Ask, Ready(["a"], [])];
      Legal(Init(1), es) && Load(After(Init(1), es)) == 2
  {
    var es := [Ready([], []), Ask, Ready(["a"], [])];
    var s := Step(Init(1), es[0]);
    RestateNew(Init(1).c, "a");
    assert s.c == Init(1).c;
    var t := Step(s, es[1]);
    RestateNew(t.c, "a");
    var u := Step(t, es[2]);
    assert Load(u) == 2;
    PlayFirst(t, [es[2]]);
    PlayFirst(s, [es[1], es[2]]);
    PlayFirst(Init(1), es);
  }

  /** The attempts a restatement accounts for: every one stated, queued or completing, but for those
      cancelled of late that are only stated. */
  function Accounted(s: State, stated: seq<Attempt>, queued: seq<Attempt>): set<Attempt> {
    set a | a in SetOf(stated + queued) + s.c.completing
            && (Has(s.c.memory, a, s.now) ==> a in queued || a in s.c.completing)
  }

  /** A restatement fits when the attempts it accounts for and the tasks claimed fit in the slots. */
  predicate Fits(s: State, e: Event) {
    e.Ready? && !s.c.exited ==> |Accounted(s, e.stated, e.queued)| + Reserved(s) <= s.c.slots
  }

  ghost predicate AllFit(s: State, es: seq<Event>)
    requires Legal(s, es)
    decreases |es|
  {
    es == [] || (Fits(s, es[0]) && AllFit(Step(s, es[0]), es[1..]))
  }

  /** Claimed tasks and running attempts are within the slots in every state of the run. */
  ghost predicate WithinThroughout(s: State, es: seq<Event>)
    requires Legal(s, es)
    decreases |es|
  {
    Load(s) <= s.c.slots && (es == [] || WithinThroughout(Step(s, es[0]), es[1..]))
  }

  lemma {:induction false} ReadyFitsExactly(s: State, stated: seq<Attempt>, queued: seq<Attempt>)
    requires Load(s) <= s.c.slots
    ensures Load(Step(s, Ready(stated, queued))) <= s.c.slots <==> Fits(s, Ready(stated, queued))
  {
    if !s.c.exited {
      assert Step(s, Ready(stated, queued)).c.running == Accounted(s, stated, queued);
    }
  }

  lemma {:induction false} WithinExactly(s: State, es: seq<Event>)
    requires Legal(s, es) && Load(s) <= s.c.slots
    ensures WithinThroughout(s, es) <==> AllFit(s, es)
    decreases |es|
  {
    if es != [] {
      var t := Step(s, es[0]);
      if es[0].Ready? {
        ReadyFitsExactly(s, es[0].stated, es[0].queued);
        assert t.c.slots == s.c.slots;
      } else {
        OnlyReadyAddsLoad(s, es[0]);
      }
      if Load(t) <= t.c.slots {
        WithinExactly(t, es[1..]);
      }
    }
  }

  /** A run stays within the slots throughout exactly when each of its restatements fits. */
  lemma {:induction false} RunStaysWithinExactly(slots: nat, es: seq<Event>)
    requires Legal(Init(slots), es)
    ensures WithinThroughout(Init(slots), es) <==> AllFit(Init(slots), es)
  {
    WithinExactly(Init(slots), es);
  }

  /** In every run, an attempt cancelled within the retention runs after a restatement exactly when
      it is still queued for a supervisor or its outcome is being delivered, whatever is stated. */
  lemma {:induction false} RestatedCancelledExactly(slots: nat, es: seq<Event>, n: nat,
                                                    stated: seq<Attempt>, queued: seq<Attempt>)
    requires Legal(Init(slots), es)
    requires var s := After(Init(slots), es);
      !s.c.exited && n < |s.cancels| && RecentFirst(s, n)
    ensures var s := After(Init(slots), es);
      var a := s.cancels[n].attempt;
      a in Step(s, Ready(stated, queued)).c.running <==> a in queued || a in s.c.completing
  {
    EveryRunKeepsInv(Init(slots), es);
    var s := After(Init(slots), es);
    FirstCancelIsRemembered(s.cancels, n, s.now);
  }

  ghost predicate EverCancelled(s: State, a: Attempt) {
    exists i :: 0 <= i < |s.cancels| && s.cancels[i].attempt == a
  }

  lemma {:induction false} CancelledByCancel(s: State, es: seq<Event>, a: Attempt)
    requires Legal(s, es)
    ensures EverCancelled(After(s, es), a) <==> EverCancelled(s, a) || Event.Cancel(a) in es
    decreases |es|
  {
    if es != [] {
      StepCancels(s, es[0], a);
      CancelledByCancel(Step(s, es[0]), es[1..], a);
      assert Event.Cancel(a) in es <==> es[0] == Event.Cancel(a) || Event.Cancel(a) in es[1..];
    }
  }

  lemma {:induction false} StepCancels(s: State, e: Event, a: Attempt)
    requires Enabled(s, e)
    ensures EverCancelled(Step(s, e), a) <==> EverCancelled(s, a) || e == Event.Cancel(a)
  {
    var t := Step(s, e);
    if e.Cancel? {
      assert t.cancels[|s.cancels|].attempt == e.a;
      assert forall i :: 0 <= i < |s.cancels| ==> t.cancels[i] == s.cancels[i];
    } else {
      assert t.cancels == s.cancels;
    }
  }

  /** In every run an attempt nobody cancelled is not in the way of its claim or its restatement: the
      next task handed over takes a slot, and what a supervisor states runs. */
  lemma {:induction false} UncancelledAttemptRuns(slots: nat, es: seq<Event>, a: Attempt,
                                                  stated: seq<Attempt>, queued: seq<Attempt>)
    requires Legal(Init(slots), es) && Event.Cancel(a) !in es && !After(Init(slots), es).c.exited
    ensures var s := After(Init(slots), es);
      && (s.claim.Handing? && s.claim.tasks != [] && s.claim.tasks[0] == a ==>
            && Step(s, Hand).c.running == s.c.running + {a}
            && Step(s, Hand).claim == Handing(s.claim.tasks[1..]))
      && (a in stated || a in queued ==> a in Step(s, Ready(stated, queued)).c.running)
  {
    UncancelledIsUnanswered(slots, es, a);
    UnansweredRuns(After(Init(slots), es), a, stated, queued);
  }

  lemma {:induction false} UncancelledIsUnanswered(slots: nat, es: seq<Event>, a: Attempt)
    requires Legal(Init(slots), es) && Event.Cancel(a) !in es
    ensures !Has(After(Init(slots), es).c.memory, a, After(Init(slots), es).now)
  {
    EveryRunKeepsInv(Init(slots), es);
    CancelledByCancel(Init(slots), es, a);
    var s := After(Init(slots), es);
    forall c | c in s.cancels ensures c.attempt != a {
      var i :| 0 <= i < |s.cancels| && s.cancels[i] == c;
      assert !EverCancelled(s, a);
    }
    NeverCancelledNeverAnswers(s.cancels, a, s.now);
  }

  lemma {:induction false} UnansweredRuns(s: State, a: Attempt, stated: seq<Attempt>, queued: seq<Attempt>)
    requires !Has(s.c.memory, a, s.now) && !s.c.exited
    ensures s.claim.Handing? && s.claim.tasks != [] && s.claim.tasks[0] == a ==>
      Step(s, Hand).c.running == s.c.running + {a} && Step(s, Hand).claim == Handing(s.claim.tasks[1..])
    ensures a in stated || a in queued ==> a in Step(s, Ready(stated, queued)).c.running
  {
  }

  /** The claim loop asks for every free slot, hands over every task it got, in order, and then asks
      again. */
  lemma {:induction false} ClaimsAskForEveryFreeSlot(s: State, tasks: seq<Attempt>)
    ensures Enabled(s, Ask) ==> Step(s, Ask) == s.(claim := Asking(s.c.slots - |s.c.running|))
    ensures Enabled(s, Respond(tasks)) ==> Step(s, Respond(tasks)) == s.(claim := Handing(tasks))
    ensures s.claim == Handing([]) ==> Step(s, Hand) == s.(claim := Idle)
    ensures s.claim.Asking? ==> Step(s, Fail) == s.(claim := Idle)
  {
  }

  /** An outcome is taken exactly for a running attempt with none under way. */
  lemma {:induction false} FinishTakesExactly(s: State, a: Attempt)
    ensures var t := Step(s, Finish(a));
      && t.c.running == s.c.running
      && t.c.completing == s.c.completing + (if a in s.c.running then {a} else {})
      && t.outcomes == s.outcomes + (if a in s.c.running && a !in s.c.completing then multiset{a} else multiset{})
  {
    if a in s.c.running && a in s.c.completing {
      assert s.c.completing + {a} == s.c.completing;
    }
  }

  /** A delivery and a cancel free that attempt and nobody else. */
  lemma {:induction false} StepsFreeTheirOwn(s: State, a: Attempt)
    ensures a in s.deliveries ==> var t := Step(s, Deliver(a));
      t.c.running == s.c.running - {a} && t.c.completing == s.c.completing - {a} && t.outcomes == s.outcomes
    ensures var t := Step(s, Event.Cancel(a));
      t.c.running == s.c.running - {a} && t.c.completing == s.c.completing && t.outcomes == s.outcomes
  {
  }

  /** An exit frees all, once; and time passes. */
  lemma {:induction false} ExitFreesAll(s: State, now: int)
    ensures var t := Step(s, Exit);
      t.c.exited && (!s.c.exited ==> t.c.running == {}) && t.c.completing == s.c.completing
    ensures s.now <= now ==> Step(s, Tick(now)).now == now
  {
  }

  /** The n-th cancel was its attempt's first, is within the retention and among the newest. */
  ghost predicate RecentFirst(s: State, n: nat)
    requires n < |s.cancels|
  {
    && (forall i :: 0 <= i < n ==> s.cancels[i].attempt != s.cancels[n].attempt)
    && s.now - s.cancels[n].time < RETENTION && |s.cancels| - n <= MAX_CANCELLED
  }

  /** In every run `completing` is the set of outcomes being delivered, each by one goroutine, and
      no attempt has more outcomes taken than times it was admitted, whatever is repeated. */
  lemma {:induction false} OneOutcomePerAdmission(slots: nat, es: seq<Event>)
    requires Legal(Init(slots), es)
    ensures var s := After(Init(slots), es);
      && s.deliveries == multiset(s.c.completing)
      && forall a :: s.outcomes[a] <= s.admitted[a]
  {
    EveryRunKeepsInv(Init(slots), es);
  }

  /** In every run, an attempt first cancelled within the retention, and before fewer than
      MAX_CANCELLED others, is not set running when its claim response arrives late. */
  lemma {:induction false} LateClaimOfCancelledIsDropped(slots: nat, es: seq<Event>, n: nat)
    requires Legal(Init(slots), es)
    requires var s := After(Init(slots), es);
      && s.claim.Handing? && s.claim.tasks != []
      && n < |s.cancels| && s.cancels[n].attempt == s.claim.tasks[0] && RecentFirst(s, n)
    ensures var s := After(Init(slots), es); Step(s, Hand).c == s.c
  {
    EveryRunKeepsInv(Init(slots), es);
    var s := After(Init(slots), es);
    FirstCancelIsRemembered(s.cancels, n, s.now);
  }

  /** The container object; each method is one section under its mutex. */
  class Container {
    const slots: nat
    var exited: bool
    var running: set<Attempt>
    var completing: set<Attempt>
    const cancelled: CancelledAttempts

    ghost function Model(): Shared
      reads this, cancelled
    {
      Shared(slots, exited, running, completing, cancelled.entries)
    }

    constructor (declared: int)
      ensures Model() == Init(if declared < 1 then 1 else declared).c && cancelled.Indexed() && fresh(cancelled)
    {
      slots := if declared < 1 then 1 else declared;
      exited, running, completing := false, {}, {};
      cancelled := new CancelledAttempts();
    }

    method OnReady(stated: seq<Attempt>, queued: seq<Attempt>, now: int)
      requires cancelled.Indexed()
      modifies this
      ensures Model() == Restated(old(Model()), stated, queued, now)
      ensures !exited ==> forall a :: a in running <==>
                (a in stated && !Has(cancelled.entries, a, now)) || a in queued || a in completing
    {
      if exited {
        return;
      }
      var next: set<Attempt> := {};
      for i := 0 to |stated|
        invariant Model() == old(Model()) && cancelled.Indexed()
        invariant next == set a | a in stated[..i] && !Has(cancelled.entries, a, now)
      {
        var gone := cancelled.Remembers(stated[i], now);
        assert stated[..i + 1] == stated[..i] + [stated[i]];
        if !gone {
          next := next + {stated[i]};
        }
      }
      assert stated[..|stated|] == stated;
      ghost var kept := next;
      for i := 0 to |queued|
        invariant next == kept + SetOf(queued[..i])
      {
        assert queued[..i + 1] == queued[..i] + [queued[i]];
        next := next + {queued[i]};
      }
      assert queued[..|queued|] == queued;
      running := next + completing;
    }

    /** How many tasks the claim loop asks for: a claim this large still fits. */
    method FreeSlots() returns (free: int)
      ensures free + |running| == slots
    {
      free := slots - |running|;
    }

    method Dispatch(a: Attempt, now: int)
      requires cancelled.Indexed()
      modifies this
      ensures Model() == Dispatched(old(Model()), a, now)
      ensures running == old(running) + if exited || Has(cancelled.entries, a, now) then {} else {a}
    {
      if exited {
        return;
      }
      var gone := cancelled.Remembers(a, now);
      if !gone {
        running := running + {a};
      }
    }

    method CancelAttempt(a: Attempt, now: int)
      requires cancelled.Indexed() && forall i :: 0 <= i < |cancelled.entries| ==> cancelled.entries[i].time <= now
      modifies this, cancelled
      ensures cancelled.Indexed() && Model() == Cancelled(old(Model()), a, now)
      ensures running == old(running) - {a} && completing == old(completing)
      ensures cancelled.entries == Add(old(cancelled.entries), a, now)
    {
      cancelled.Record(a, now);
      running := running - {a};
    }

    method OnFinished(a: Attempt) returns (deliver: bool)
      modifies this
      ensures deliver <==> a in old(running) && a !in old(completing)
      ensures Model() == Finishing(old(Model()), a)
      ensures running == old(running) && completing == old(completing) + if deliver then {a} else {}
    {
      deliver := a in running && a !in completing;
      if deliver {
        completing := completing + {a};
      }
    }

    method Free(a: Attempt)
      modifies this
      ensures Model() == Freed(old(Model()), a)
      ensures running == old(running) - {a} && completing == old(completing) - {a}
    {
      running := running - {a};
      completing := completing - {a};
    }

    method Leave()
      modifies this
      ensures Model() == Exited(old(Model()))
      ensures exited && (!old(exited) ==> running == {}) && completing == old(completing)
    {
      if !exited {
        exited, running := true, {};
      }
    }
  }
}
