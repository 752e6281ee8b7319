/** One claimed attempt's way to its supervisor and back (internal/agent/container.go,
    internal/agent/link.go, internal/supervisor/supervisor.go): it is set running under the container's
    mutex and queued for the supervisor only after that, while restatements composed earlier arrive at
    any point. */
module AttemptHandover {

  /** How far the attempt's command is from the supervisor's view. */
  datatype Supervisor = Unheard | OnWire | Holds | Reported

  /** A restatement, with how far the command was when it was composed; or the attempt's outcome. The
      supervisor states an attempt until it has reported its outcome. */
  datatype Message = Restate(at: Supervisor) | Finished

  predicate Stated(m: Message) { m.Restate? && m.at.Holds? }

  /** The attempt's command on its way out, and the messages on their way in, which are read in the
      order sent; `ahead` counts those unread that were sent before the outcome, and `done` says that
      the outcome was read. */
  datatype Way = Way(dispatched: bool, enqueued: bool, queued: bool, supervisor: Supervisor,
                     inbox: seq<Message>, ahead: nat, done: bool)

  datatype Outcome = NotYet | Taken | Ignored

  /** The attempt as the container counts it. `missed` says that the last restatement read since the
      dispatch and before the outcome neither stated the attempt nor found its command queued. */
  datatype Slot = Slot(running: bool, completing: bool, cancelled: bool, exited: bool, outcome: Outcome, missed: bool)

  datatype State = State(way: Way, slot: Slot)

  const INIT := State(Way(false, false, false, Unheard, [], 0, false), Slot(false, false, false, false, NotYet, false))

  datatype Event =
    | Dispatch | Enqueue(accepted: bool) | Send | Pop | Receive
    | Compose | Report | Read | Deliver | Cancel | Exit

  predicate Enabled(s: State, e: Event) {
    match e
    case Dispatch => !s.way.dispatched && !s.slot.cancelled && !s.slot.exited
    case Enqueue(_) => s.way.dispatched && !s.way.enqueued
    case Send => s.way.queued && s.way.supervisor.Unheard?
    case Pop => s.way.queued && !s.way.supervisor.Unheard?
    case Receive => s.way.supervisor.OnWire?
    case Compose => true
    case Report => s.way.supervisor.Holds?
    case Read => s.way.inbox != []
    case Deliver => s.slot.completing
    case Cancel => true
    case Exit => true
  }

  /** onReady, as far as this attempt goes. */
  function Restated(c: Slot, m: Message, w: Way): Slot {
    if c.exited then c
    else c.(running := (Stated(m) && !c.cancelled) || w.queued || c.completing,
            missed := if w.dispatched && c.outcome.NotYet? then !Stated(m) && !w.queued else c.missed)
  }

  /** onFinished: only a running attempt with no outcome under way has one. */
  function Finishing(c: Slot): Slot {
    if c.running && !c.completing then c.(completing := true, outcome := Taken) else c.(outcome := Ignored)
  }

  function Moved(w: Way, e: Event): Way {
    match e
    case Dispatch => w.(dispatched := true)
    case Enqueue(accepted) => w.(enqueued := true, queued := accepted)
    case Send => w.(supervisor := OnWire)
    case Pop => w.(queued := false)
    case Receive => w.(supervisor := Holds)
    case Compose => w.(inbox := w.inbox + [Restate(w.supervisor)])
    case Report => w.(supervisor := Reported, inbox := w.inbox + [Finished], ahead := |w.inbox|)
    case Read =>
      if w.inbox == [] then w
      else w.(inbox := w.inbox[1..], ahead := if w.ahead > 0 then w.ahead - 1 else 0,
              done := w.done || w.inbox[0].Finished?)
    case _ => w
  }

  function Counted(c: Slot, e: Event, w: Way): Slot {
    match e
    case Dispatch => c.(running := true)
    case Read =>
      if w.inbox == [] then c else if w.inbox[0].Finished? then Finishing(c) else Restated(c, w.inbox[0], w)
    case Deliver => c.(running := false, completing := false)
    case Cancel => c.(cancelled := true, running := false)
    case Exit => c.(exited := true, running := false)
    case _ => c
  }

  function Step(s: State, e: Event): State
    requires Enabled(s, e)
  {
    State(Moved(s.way, e), Counted(s.slot, e, s.way))
  }

  // ---- What every reachable state keeps ----

  predicate Early(m: Message) { m.Restate? && !m.at.Reported? }

  /** The outcome is on its way from its report to its reading, behind the restatements composed before
      the report and ahead of those composed after. */
  ghost predicate InOrder(w: Way) {
    if !w.supervisor.Reported? then
      !w.done && forall i :: 0 <= i < |w.inbox| ==> Early(w.inbox[i])
    else if !w.done then
      && w.ahead < |w.inbox| && w.inbox[w.ahead].Finished?
      && (forall i :: 0 <= i < w.ahead ==> Early(w.inbox[i]))
      && (forall i :: w.ahead < i < |w.inbox| ==> w.inbox[i] == Restate(Reported))
    else
      forall i :: 0 <= i < |w.inbox| ==> w.inbox[i] == Restate(Reported)
  }

  predicate WayFits(w: Way) {
    && (!w.dispatched ==> !w.enqueued)
    && (!w.enqueued ==> !w.queued && w.supervisor.Unheard?)
  }

  predicate SlotFits(w: Way, c: Slot) {
    && (c.outcome.NotYet? <==> !w.done)
    && (!w.dispatched ==> !c.missed)
    && (c.completing ==> c.outcome.Taken?)
    && (w.dispatched && !c.cancelled && !c.exited && c.outcome.NotYet? ==> (c.running <==> !c.missed))
    && (!c.cancelled && !c.exited && !c.outcome.NotYet? ==> (c.outcome.Taken? <==> !c.missed))
  }

  ghost predicate Inv(s: State) { InOrder(s.way) && WayFits(s.way) && SlotFits(s.way, s.slot) }

  lemma {:induction false} ReadKeepsOrder(w: Way)
    requires InOrder(w) && w.inbox != []
    ensures InOrder(Moved(w, Read))
  {
    var rest := w.inbox[1..];
    assert forall i :: 0 <= i < |rest| ==> rest[i] == w.inbox[i + 1];
  }

  lemma {:induction false} PostKeepsOrder(w: Way, e: Event)
    requires InOrder(w) && (e.Compose? || (e.Report? && w.supervisor.Holds?))
    ensures InOrder(Moved(w, e))
  {
  }

  /** The outcome that is read is a dispatched attempt's, and read once. */
  lemma {:induction false} FinishedIsDue(w: Way)
    requires InOrder(w) && WayFits(w) && w.inbox != [] && w.inbox[0].Finished?
    ensures !w.done && w.dispatched
  {
  }

  lemma {:induction false} StepKeepsInv(s: State, e: Event)
    requires Inv(s) && Enabled(s, e)
    ensures Inv(Step(s, e))
  {
    SlotKept(s, e);
    match e
    case Read => ReadKeepsOrder(s.way);
    case Compose => PostKeepsOrder(s.way, e);
    case Report => PostKeepsOrder(s.way, e);
    case _ =>
  }

  lemma {:induction false} SlotKept(s: State, e: Event)
    requires Inv(s) && Enabled(s, e)
    ensures WayFits(Moved(s.way, e)) && SlotFits(Moved(s.way, e), Counted(s.slot, e, s.way))
  {
    if e.Read? && s.way.inbox[0].Finished? {
      FinishedIsDue(s.way);
    }
  }

  ghost predicate Legal(s: State, es: seq<Event>)
    decreases |es|
  {
    es == [] || (Enabled(s, es[0]) && Legal(Step(s, es[0]), es[1..]))
  }

  ghost function After(s: State, es: seq<Event>): State
    requires Legal(s, es)
    decreases |es|
  {
    if es == [] then s else After(Step(s, es[0]), es[1..])
  }

  lemma {:induction false} EveryRunKeepsInv(s: State, es: seq<Event>)
    requires Inv(s) && Legal(s, es)
    ensures Inv(After(s, es))
    decreases |es|
  {
    if es != [] {
      StepKeepsInv(s, es[0]);
      EveryRunKeepsInv(Step(s, es[0]), es[1..]);
    }
  }

  /** In every run, a dispatched attempt that is neither cancelled nor in a container that exited keeps
      its slot until its outcome, and has that outcome taken, exactly unless the last restatement read
      in between neither stated it nor found its command queued. */
  lemma {:induction false} OutcomeIsTakenExactly(es: seq<Event>)
    requires Legal(INIT, es)
    requires var s := After(INIT, es); s.way.dispatched && !s.slot.cancelled && !s.slot.exited
    ensures var s := After(INIT, es);
      if s.slot.outcome.NotYet? then s.slot.running <==> !s.slot.missed else s.slot.outcome.Taken? <==> !s.slot.missed
  {
    EveryRunKeepsInv(INIT, es);
  }

  /** A restatement read before the outcome that does not state the attempt was composed before the
      supervisor had it. */
  lemma {:induction false} UnstatedIsEarly(es: seq<Event>)
    requires Legal(INIT, es)
    requires var s := After(INIT, es);
      s.slot.outcome.NotYet? && s.way.inbox != [] && s.way.inbox[0].Restate? && !Stated(s.way.inbox[0])
    ensures var m := After(INIT, es).way.inbox[0]; m.at.Unheard? || m.at.OnWire?
  {
    EveryRunKeepsInv(INIT, es);
  }

  const UNDISTURBED := [Dispatch, Enqueue(true), Send, Receive, Pop, Report, Read]

  /** With no restatement in between, the outcome is taken. */
  lemma {:induction false} UndisturbedOutcomeIsTaken()
    ensures Legal(INIT, UNDISTURBED) && After(INIT, UNDISTURBED).slot.outcome == Taken
  {
    var es := UNDISTURBED;
    var s1 := Step(INIT, es[0]);
    var s2 := Step(s1, es[1]);
    var s3 := Step(s2, es[2]);
    var s4 := Step(s3, es[3]);
    var s5 := Step(s4, es[4]);
    var s6 := Step(s5, es[5]);
    PlayFirst(s6, es[6..]);
    PlayFirst(s5, es[5..]);
    PlayFirst(s4, es[4..]);
    PlayFirst(s3, es[3..]);
    PlayFirst(s2, es[2..]);
    PlayFirst(s1, es[1..]);
    PlayFirst(INIT, es);
  }

  /** A restatement composed before the dispatch is read between the dispatch and the enqueue, or once
      the command was popped. */
  const IN_THE_GAP := [Compose, Dispatch, Read, Enqueue(true), Send, Receive, Pop, Report, Read]
  const ON_THE_WIRE := [Compose, Dispatch, Enqueue(true), Send, Pop, Read, Receive, Report, Read]

  /** Either frees the attempt's slot while it runs, and its outcome is ignored. */
  lemma {:induction false} EarlyRestatementLosesOutcome()
    ensures Legal(INIT, IN_THE_GAP) && After(INIT, IN_THE_GAP).slot.outcome == Ignored
    ensures Legal(INIT, ON_THE_WIRE) && After(INIT, ON_THE_WIRE).slot.outcome == Ignored
  {
    GapLosesOutcome();
    WireLosesOutcome();
  }

  function LostInTheGap(): State {
    State(INIT.way.(dispatched := true), INIT.slot.(missed := true))
  }

  function LostOnTheWire(): State {
    State(INIT.way.(dispatched := true, enqueued := true, supervisor := OnWire), INIT.slot.(missed := true))
  }

  lemma {:induction false} GapLosesOutcome()
    ensures Legal(INIT, IN_THE_GAP) && After(INIT, IN_THE_GAP).slot.outcome == Ignored
  {
    var es := IN_THE_GAP;
    var s3 := Step(Step(Step(INIT, Compose), Dispatch), Read);
    assert s3 == LostInTheGap();
    EndIgnored(s3, es[3..]);
    PlayFirst(Step(Step(INIT, Compose), Dispatch), es[2..]);
    PlayFirst(Step(INIT, Compose), es[1..]);
    PlayFirst(INIT, es);
  }

  /** From a dispatched attempt that lost its slot on. */
  lemma {:induction false} EndIgnored(s: State, es: seq<Event>)
    requires s == LostInTheGap()
    requires es == [Enqueue(true), Send, Receive, Pop, Report, Read]
    ensures Legal(s, es) && After(s, es).slot.outcome == Ignored
  {
    var s1 := Step(s, es[0]);
    var s2 := Step(s1, es[1]);
    var s3 := Step(s2, es[2]);
    var s4 := Step(s3, es[3]);
    var s5 := Step(s4, es[4]);
    PlayFirst(s5, es[5..]);
    PlayFirst(s4, es[4..]);
    PlayFirst(s3, es[3..]);
    PlayFirst(s2, es[2..]);
    PlayFirst(s1, es[1..]);
    PlayFirst(s, es);
  }

  lemma {:induction false} WireLosesOutcome()
    ensures Legal(INIT, ON_THE_WIRE) && After(INIT, ON_THE_WIRE).slot.outcome == Ignored
  {
    var es := ON_THE_WIRE;
    var s1 := Step(INIT, es[0]);
    var s2 := Step(s1, es[1]);
    var s3 := Step(s2, es[2]);
    var s4 := Step(s3, es[3]);
    var s5 := Step(s4, es[4]);
    var s6 := Step(s5, es[5]);
    assert s6 == LostOnTheWire();
    PoppedEndsIgnored(s6, es[6..]);
    PlayFirst(s5, es[5..]);
    PlayFirst(s4, es[4..]);
    PlayFirst(s3, es[3..]);
    PlayFirst(s2, es[2..]);
    PlayFirst(s1, es[1..]);
    PlayFirst(INIT, es);
  }

  lemma {:induction false} PoppedEndsIgnored(s: State, es: seq<Event>)
    requires s == LostOnTheWire()
    requires es == [Receive, Report, Read]
    ensures Legal(s, es) && After(s, es).slot.outcome == Ignored
  {
    var s1 := Step(s, es[0]);
    var s2 := Step(s1, es[1]);
    PlayFirst(s2, es[2..]);
    PlayFirst(s1, es[1..]);
    PlayFirst(s, es);
  }

  lemma {:induction false} PlayFirst(s: State, es: seq<Event>)
    requires es != [] && Enabled(s, es[0]) && Legal(Step(s, es[0]), es[1..])
    ensures Legal(s, es) && After(s, es) == After(Step(s, es[0]), es[1..])
  {
  }
}
