/** A container's output, batched and sent in order, and the completions that wait for
    it (internal/agent/logs.go, internal/agent/container.go). Appends, the sender and
    any number of completions interleave; results never overtake their output. */
module LogDelivery {

  const LOG_BATCH_BYTES: nat := 65536
  const LOG_BUFFER_BYTES: nat := 1048576

  datatype Line = Line(attempt: string, data: string)

  function Size(l: Line): nat { |l.data| }

  function Total(lines: seq<Line>): nat {
    if lines == [] then 0 else Total(lines[..|lines| - 1]) + Size(lines[|lines| - 1])
  }

  lemma {:induction false} TotalSplits(a: seq<Line>, b: seq<Line>)
    ensures Total(a + b) == Total(a) + Total(b)
  {
    if b == [] {
      assert a + b == a;
    } else {
      TotalSplits(a, b[..|b| - 1]);
      assert (a + b)[..|a + b| - 1] == a + b[..|b| - 1];
    }
  }

  lemma {:induction false} TotalGrows(lines: seq<Line>, n: nat, m: nat)
    requires n <= m <= |lines|
    ensures Total(lines[..n]) <= Total(lines[..m])
  {
    assert lines[..m] == lines[..n] + lines[n..m];
    TotalSplits(lines[..n], lines[n..m]);
  }

  /** What the batcher's mutex guards. `round` counts the flushes that ended, each of which
      closes the channel the waiters took and replaces it. */
  datatype Shared = Shared(lines: seq<Line>, bytes: int, urgent: bool, seqno: nat, flushed: nat, round: nat)

  const EMPTY := Shared([], 0, false, 0, 0, 0)

  function Appended(b: Shared, line: Line): Shared {
    b.(lines := b.lines + [line], bytes := b.bytes + Size(line), seqno := b.seqno + 1)
  }

  function Urged(b: Shared): Shared {
    b.(urgent := true)
  }

  /** After the batch of the n oldest lines was sent or finally refused. */
  function Flushed(b: Shared, n: nat, size: nat): Shared
    requires n <= |b.lines|
  {
    Shared(b.lines[n..], b.bytes - size, b.urgent && n < |b.lines|, b.seqno, b.flushed + n, b.round + 1)
  }

  /** n is the longest prefix of lines within LOG_BATCH_BYTES, or a single line. */
  predicate IsBatch(lines: seq<Line>, n: nat) {
    && n <= |lines|
    && (lines != [] ==> n > 0)
    && (n > 1 ==> Total(lines[..n]) <= LOG_BATCH_BYTES)
    && (n < |lines| ==> Total(lines[..n + 1]) > LOG_BATCH_BYTES)
  }

  lemma {:induction false} BatchIsLongest(lines: seq<Line>, n: nat, m: nat)
    requires IsBatch(lines, n) && n < m <= |lines|
    ensures Total(lines[..m]) > LOG_BATCH_BYTES
  {
    TotalGrows(lines, n + 1, m);
  }

  lemma {:induction false} BatchIsUnique(lines: seq<Line>, n: nat, m: nat)
    requires IsBatch(lines, n) && IsBatch(lines, m)
    ensures n == m
  {
    if n < m {
      BatchIsLongest(lines, n, m);
    } else if m < n {
      BatchIsLongest(lines, m, n);
    }
  }

  // ---- The sender, the appenders that have yet to signal, and the completions ----

  /** What the sender's loop does next. A parked sender remembers what it saw. */
  datatype Sender =
    | Looking
    | Parked(sawLines: bool, sawUrgent: bool, sawFull: bool)
    | FlushDue
    | Sending(n: nat)
    | Stopped

  /** A completion: the lines appended before its mark, and where it is. */
  datatype Waiter = Waiter(before: seq<Line>, stage: Stage)
  datatype Stage = Checking | Asleep(round: nat) | Passed | Called

  datatype Batch = Batch(lines: seq<Line>, accepted: bool)

  /** `signals` counts goroutines that changed the buffer and have yet to signal; `wake` is the
      one token of the wake channel; `done` is the sender's exit, `ended` the end of the work. */
  datatype State = State(b: Shared, wake: bool, signals: nat, sender: Sender, done: bool, ended: bool,
                         waiters: map<nat, Waiter>, appended: seq<Line>, finished: seq<Batch>)

  const INIT := State(EMPTY, false, 0, Looking, false, false, map[], [], [])

  datatype Event =
    | Append(line: Line) | Signal
    | Look(young: bool) | Wake | Timer | Stop
    | TakeBatch(n: nat) | Finish(accepted: bool) | Abort
    | Mark(id: nat) | Check(id: nat) | Woken(id: nat) | GiveUp(id: nat) | Call(id: nat)
    | EndWork

  predicate Enabled(s: State, e: Event) {
    match e
    case Append(_) => s.b.bytes < LOG_BUFFER_BYTES
    case Signal => s.signals > 0
    case Look(_) => s.sender.Looking?
    case Wake => s.sender.Parked? && s.wake
    case Timer => s.sender.Parked?
    case Stop => s.sender.Parked? && s.ended
    case TakeBatch(n) => s.sender.FlushDue? && IsBatch(s.b.lines, n)
    case Finish(_) => s.sender.Sending?
    case Abort => s.sender.Sending? && s.ended
    case Mark(id) => id !in s.waiters
    case Check(id) => id in s.waiters && s.waiters[id].stage.Checking?
    case Woken(id) => id in s.waiters && s.waiters[id].stage.Asleep? && s.waiters[id].stage.round < s.b.round
    case GiveUp(id) => id in s.waiters && s.waiters[id].stage.Asleep? && (s.done || s.ended)
    case Call(id) => id in s.waiters && s.waiters[id].stage.Passed?
    case EndWork => true
  }

  predicate Full(b: Shared) { b.bytes >= LOG_BATCH_BYTES }

  /** The sender reads the buffer and either parks or flushes. */
  function Looked(s: State, young: bool): State {
    if s.b.lines == [] || (!s.b.urgent && !Full(s.b) && young)
    then s.(sender := Parked(s.b.lines != [], s.b.urgent, Full(s.b)))
    else s.(sender := FlushDue)
  }

  function FinishedBatch(s: State, accepted: bool): State
    requires s.sender.Sending? && s.sender.n <= |s.b.lines|
  {
    var batch := s.b.lines[..s.sender.n];
    s.(b := Flushed(s.b, s.sender.n, Total(batch)),
        sender := Looking, finished := s.finished + [Batch(batch, accepted)])
  }

  function At(s: State, id: nat, stage: Stage): State
    requires id in s.waiters
  {
    s.(waiters := s.waiters[id := s.waiters[id].(stage := stage)])
  }

  /** waitFlushed's section: pass, or ask for an urgent flush and sleep on the channel. */
  function Checked(s: State, id: nat): State
    requires id in s.waiters
  {
    if s.b.flushed >= |s.waiters[id].before| then At(s, id, Passed)
    else At(s, id, Asleep(s.b.round)).(b := Urged(s.b), signals := s.signals + 1)
  }

  function Step(s: State, e: Event): State
    requires Inv(s) && Enabled(s, e)
  {
    match e
    case Append(line) => s.(b := Appended(s.b, line), signals := s.signals + 1, appended := s.appended + [line])
    case Signal => s.(signals := s.signals - 1, wake := true)
    case Look(young) => Looked(s, young)
    case Wake => s.(sender := Looking, wake := false)
    case Timer => s.(sender := Looking)
    case Stop => s.(sender := Stopped, done := true)
    case TakeBatch(n) => s.(sender := Sending(n))
    case Finish(accepted) => FinishedBatch(s, accepted)
    case Abort => s.(sender := Stopped, done := true)
    case Mark(id) => s.(waiters := s.waiters[id := Waiter(s.appended, Checking)])
    case Check(id) => Checked(s, id)
    case Woken(id) => At(s, id, Checking)
    case GiveUp(id) => At(s, id, Passed)
    case Call(id) => At(s, id, Called)
    case EndWork => s.(ended := true)
  }

  // ---- What every reachable state keeps ----

  function Sent(finished: seq<Batch>): seq<Line> {
    if finished == [] then [] else Sent(finished[..|finished| - 1]) + finished[|finished| - 1].lines
  }

  /** The buffer is the unflushed suffix of what was appended, with its counters. */
  ghost predicate Counted(s: State) {
    && s.b.seqno == |s.appended| == s.b.flushed + |s.b.lines|
    && s.b.lines == s.appended[s.b.flushed..]
    && s.b.bytes == Total(s.b.lines)
    && Sent(s.finished) == s.appended[..s.b.flushed]
    && (s.b.urgent ==> s.b.lines != [])
  }

  /** Only the newest line can have taken the buffer past its bound. */
  ghost predicate Bounded(s: State) {
    s.b.lines != [] ==> Total(s.b.lines[..|s.b.lines| - 1]) < LOG_BUFFER_BYTES
  }

  /** There is work the parked sender did not see. */
  predicate Unseen(s: State)
    requires s.sender.Parked?
  {
    || (s.b.lines != [] && !s.sender.sawLines)
    || (s.b.urgent && !s.sender.sawUrgent)
    || (Full(s.b) && !s.sender.sawFull)
  }

  ghost predicate SenderFits(s: State) {
    && (s.sender.Parked? ==> !s.sender.sawLines || (!s.sender.sawUrgent && !s.sender.sawFull))
    && (s.sender.Parked? && Unseen(s) ==> s.wake || s.signals > 0)
    && (s.sender.FlushDue? ==> s.b.lines != [])
    && (s.sender.Sending? ==> 0 < s.sender.n <= |s.b.lines|)
    && (s.done <==> s.sender.Stopped?)
    && (s.done ==> s.ended)
  }

  ghost predicate WaiterFits(s: State, w: Waiter) {
    && w.before <= s.appended
    && (w.stage.Asleep? ==> w.stage.round <= s.b.round)
    && (w.stage.Asleep? && w.stage.round == s.b.round ==> s.b.urgent && s.b.flushed < |w.before|)
    && ((w.stage.Passed? || w.stage.Called?) && !s.ended ==> s.b.flushed >= |w.before|)
  }

  ghost predicate Inv(s: State) {
    && Counted(s) && Bounded(s) && SenderFits(s)
    && forall id :: id in s.waiters ==> WaiterFits(s, s.waiters[id])
  }

  lemma {:induction false} AppendKeeps(s: State, line: Line)
    requires Inv(s) && Enabled(s, Append(line))
    ensures Inv(Step(s, Append(line)))
  {
    var t := Step(s, Append(line));
    assert t.b.lines[..|t.b.lines| - 1] == s.b.lines;
    assert t.appended[t.b.flushed..] == s.appended[s.b.flushed..] + [line];
    assert t.appended[..t.b.flushed] == s.appended[..s.b.flushed];
    forall id | id in t.waiters ensures WaiterFits(t, t.waiters[id]) {
      assert WaiterFits(s, s.waiters[id]);
    }
  }

  lemma {:induction false} RestIsBounded(lines: seq<Line>, n: nat)
    requires n < |lines| && Total(lines[..|lines| - 1]) < LOG_BUFFER_BYTES
    ensures Total(lines[n..][..|lines| - n - 1]) < LOG_BUFFER_BYTES
  {
    assert lines[..|lines| - 1] == lines[..n] + lines[n..][..|lines| - n - 1];
    TotalSplits(lines[..n], lines[n..][..|lines| - n - 1]);
  }

  lemma {:induction false} TotalHalves(lines: seq<Line>, n: nat)
    requires n <= |lines|
    ensures Total(lines) == Total(lines[..n]) + Total(lines[n..])
  {
    assert lines == lines[..n] + lines[n..];
    TotalSplits(lines[..n], lines[n..]);
  }

  lemma {:induction false} SentExtends(finished: seq<Batch>, batch: Batch)
    ensures Sent(finished + [batch]) == Sent(finished) + batch.lines
  {
    assert (finished + [batch])[..|finished|] == finished;
  }

  lemma {:induction false} SuffixHalves(a: seq<Line>, k: nat, n: nat)
    requires k + n <= |a|
    ensures a[..k] + a[k..][..n] == a[..k + n] && a[k..][n..] == a[k + n..]
  {
  }

  lemma {:induction false} FinishKeepsCounts(s: State, accepted: bool)
    requires Counted(s) && s.sender.Sending? && s.sender.n <= |s.b.lines|
    ensures Counted(FinishedBatch(s, accepted))
  {
    var t := FinishedBatch(s, accepted);
    var n := s.sender.n;
    assert t.b.bytes == Total(t.b.lines) by { TotalHalves(s.b.lines, n); }
    assert t.b.lines == t.appended[t.b.flushed..] && Sent(t.finished) == t.appended[..t.b.flushed] by {
      SentExtends(s.finished, Batch(s.b.lines[..n], accepted));
      SuffixHalves(s.appended, s.b.flushed, n);
    }
  }

  lemma {:induction false} FinishKeepsBound(s: State, accepted: bool)
    requires Bounded(s) && SenderFits(s) && s.sender.Sending?
    ensures Bounded(FinishedBatch(s, accepted)) && SenderFits(FinishedBatch(s, accepted))
  {
    if s.sender.n < |s.b.lines| {
      RestIsBounded(s.b.lines, s.sender.n);
    }
  }

  lemma {:induction false} FinishKeepsWaiter(s: State, accepted: bool, w: Waiter)
    requires WaiterFits(s, w) && s.sender.Sending? && s.sender.n <= |s.b.lines|
    ensures WaiterFits(FinishedBatch(s, accepted), w)
  {
  }

  lemma {:induction false} FinishKeeps(s: State, accepted: bool)
    requires Inv(s) && s.sender.Sending?
    ensures Inv(FinishedBatch(s, accepted))
  {
    FinishKeepsCounts(s, accepted);
    FinishKeepsBound(s, accepted);
    forall id | id in s.waiters ensures WaiterFits(FinishedBatch(s, accepted), s.waiters[id]) {
      FinishKeepsWaiter(s, accepted, s.waiters[id]);
    }
  }

  /** Waiters look only at the buffer's progress, at what was appended and at the end of the work. */
  lemma {:induction false} WaitersUnmoved(s: State, t: State)
    requires Inv(s) && t.appended == s.appended && t.b == s.b && (t.ended == s.ended || t.ended)
    requires t.waiters == s.waiters && t.finished == s.finished
    ensures Counted(t) && Bounded(t) && forall id :: id in t.waiters ==> WaiterFits(t, t.waiters[id])
  {
    forall id | id in t.waiters ensures WaiterFits(t, t.waiters[id]) {
      assert WaiterFits(s, s.waiters[id]);
    }
  }

  predicate OfSender(e: Event) {
    e.Signal? || e.Look? || e.Wake? || e.Timer? || e.Stop? || e.TakeBatch? || e.Abort? || e.EndWork?
  }

  lemma {:induction false} SenderStepFits(s: State, e: Event)
    requires Inv(s) && Enabled(s, e) && OfSender(e)
    ensures SenderFits(Step(s, e))
  {
  }

  lemma {:induction false} SenderStepKeeps(s: State, e: Event)
    requires Inv(s) && Enabled(s, e) && OfSender(e)
    ensures Inv(Step(s, e))
  {
    SenderStepFits(s, e);
    WaitersUnmoved(s, Step(s, e));
  }

  /** A completion moves on to a stage that fits. */
  lemma {:induction false} StageKeeps(s: State, id: nat, stage: Stage)
    requires Inv(s) && id in s.waiters && WaiterFits(s, s.waiters[id].(stage := stage))
    ensures Inv(At(s, id, stage))
  {
    var t := At(s, id, stage);
    assert Counted(t) && Bounded(t) && SenderFits(t);
    forall x | x in t.waiters ensures WaiterFits(t, t.waiters[x]) {
      assert x != id ==> WaiterFits(s, s.waiters[x]);
    }
  }

  lemma {:induction false} UrgeKeeps(s: State, t: State)
    requires Inv(s) && s.b.lines != [] && t == s.(b := Urged(s.b), signals := s.signals + 1)
    ensures Inv(t)
  {
    assert Counted(t) && Bounded(t) && SenderFits(t);
    forall x | x in t.waiters ensures WaiterFits(t, t.waiters[x]) {
      assert WaiterFits(s, s.waiters[x]);
    }
  }

  lemma {:induction false} CheckKeeps(s: State, id: nat)
    requires Inv(s) && Enabled(s, Check(id))
    ensures Inv(Checked(s, id))
  {
    var w := s.waiters[id];
    assert WaiterFits(s, w);
    if s.b.flushed >= |w.before| {
      StageKeeps(s, id, Passed);
    } else {
      var u := s.(b := Urged(s.b), signals := s.signals + 1);
      UrgeKeeps(s, u);
      StageKeeps(u, id, Asleep(s.b.round));
    }
  }

  lemma {:induction false} MarkKeeps(s: State, id: nat)
    requires Inv(s) && id !in s.waiters
    ensures Inv(s.(waiters := s.waiters[id := Waiter(s.appended, Checking)]))
  {
    var t := s.(waiters := s.waiters[id := Waiter(s.appended, Checking)]);
    forall x | x in t.waiters ensures WaiterFits(t, t.waiters[x]) {
      assert x != id ==> WaiterFits(s, s.waiters[x]);
    }
  }

  /** Every step of an appender, the sender or a completion keeps the invariant. */
  lemma {:induction false} StepKeepsInv(s: State, e: Event)
    requires Inv(s) && Enabled(s, e)
    ensures Inv(Step(s, e))
  {
    match e
    case Append(line) => AppendKeeps(s, line);
    case Finish(accepted) => FinishKeeps(s, accepted);
    case Mark(id) => MarkKeeps(s, id);
    case Check(id) => CheckKeeps(s, id);
    case Woken(id) => assert WaiterFits(s, s.waiters[id]); StageKeeps(s, id, Checking);
    case GiveUp(id) => assert WaiterFits(s, s.waiters[id]); StageKeeps(s, id, Passed);
    case Call(id) => assert WaiterFits(s, s.waiters[id]); StageKeeps(s, id, Called);
    case _ => SenderStepKeeps(s, e);
  }

  // ---- Whole runs ----

  ghost predicate Legal(s: State, es: seq<Event>)
    requires Inv(s)
    decreases |es|
  {
    es == [] || (Enabled(s, es[0]) && (StepKeepsInv(s, es[0]); Legal(Step(s, es[0]), es[1..])))
  }

  ghost function After(s: State, es: seq<Event>): (t: State)
    requires Inv(s) && Legal(s, es)
    ensures Inv(t)
    decreases |es|
  {
    if es == [] then s else
      StepKeepsInv(s, es[0]);
      After(Step(s, es[0]), es[1..])
  }

  /** In every run the finished batches concatenate to the first `flushed` appended lines, in
      order, and the counters count them. */
  lemma {:induction false} FinishedBatchesAreThePrefix(es: seq<Event>)
    requires Legal(INIT, es)
    ensures var s := After(INIT, es);
      && Sent(s.finished) + s.b.lines == s.appended
      && s.b.seqno == s.b.flushed + |s.b.lines| && s.b.flushed == |Sent(s.finished)|
      && s.b.bytes == Total(s.b.lines)
      && (s.b.lines != [] ==> Total(s.b.lines[..|s.b.lines| - 1]) < LOG_BUFFER_BYTES)
  {
    var s := After(INIT, es);
    assert s.appended[..s.b.flushed] + s.appended[s.b.flushed..] == s.appended;
  }

  /** In every run, a completion that reaches its call while its work goes on does so after
      every line appended before its mark was accepted or finally refused. */
  lemma {:induction false} ResultsNeverOvertakeOutput(es: seq<Event>, id: nat)
    requires Legal(INIT, es) && Enabled(After(INIT, es), Call(id))
    ensures var s := After(INIT, es); !s.ended ==> s.waiters[id].before <= Sent(s.finished)
  {
    var s := After(INIT, es);
    var w := s.waiters[id];
    assert WaiterFits(s, w);
    if !s.ended {
      assert w.before == s.appended[..|w.before|] == s.appended[..s.b.flushed][..|w.before|];
    }
  }

  /** In every run a sleeping completion whose lines were all accepted or finally refused can wake: the
      flush that finished the last of them woke it, whatever is still buffered. */
  lemma {:induction false} ServedCompletionWakes(es: seq<Event>, id: nat)
    requires Legal(INIT, es)
    requires var s := After(INIT, es);
      id in s.waiters && s.waiters[id].stage.Asleep? && s.waiters[id].before <= Sent(s.finished)
    ensures Enabled(After(INIT, es), Woken(id))
  {
    var s := After(INIT, es);
    assert WaiterFits(s, s.waiters[id]);
  }

  /** In every run a sleeping completion is never stranded: its channel was closed, its work
      ended, or the sender is awake or about to be woken. */
  lemma {:induction false} SleepingCompletionIsServed(es: seq<Event>, id: nat)
    requires Legal(INIT, es)
    requires id in After(INIT, es).waiters && After(INIT, es).waiters[id].stage.Asleep?
    ensures var s := After(INIT, es);
      Enabled(s, Woken(id)) || Enabled(s, GiveUp(id)) || !s.sender.Parked? || Enabled(s, Wake) || Enabled(s, Signal)
  {
    var s := After(INIT, es);
    assert WaiterFits(s, s.waiters[id]);
  }

  /** A look at the buffer starts a flush exactly when there are lines and a completion waits for them,
      they fill a batch, or the oldest has waited long enough. */
  lemma {:induction false} LookFlushesExactly(s: State, young: bool)
    requires Inv(s) && s.sender.Looking?
    ensures var t := Step(s, Look(young));
      && (t.sender.FlushDue? <==> s.b.lines != [] && (s.b.urgent || s.b.bytes >= 65536 || !young))
      && (!t.sender.FlushDue? ==> t.sender.Parked?) && t.b == s.b
  {
  }

  /** A finished flush takes its batch out of the buffer, whatever became of it; a check passes exactly
      when everything before the mark was flushed, and else asks for an urgent flush and sleeps. */
  lemma {:induction false} FlushAndCheckTakeEffect(s: State, accepted: bool, id: nat)
    requires Inv(s)
    ensures s.sender.Sending? ==> var t := Step(s, Finish(accepted));
      && t.finished == s.finished + [Batch(s.b.lines[..s.sender.n], accepted)]
      && t.b.lines == s.b.lines[s.sender.n..] && t.sender.Looking? && t.b.round > s.b.round
    ensures id in s.waiters && s.waiters[id].stage.Checking? ==> var t := Step(s, Check(id));
      if s.b.flushed >= |s.waiters[id].before| then t.waiters[id].stage.Passed? && t.b == s.b
      else t.waiters[id].stage == Asleep(s.b.round) && t.b == s.b.(urgent := true) && t.signals == s.signals + 1
  {
  }

  /** The sender between its looks: a signal leaves a token, a wake or the timer makes it look again, a
      flush sends the batch it took, and the end of the work stops it. */
  lemma {:induction false} SenderStepsTakeEffect(s: State, n: nat)
    requires Inv(s)
    ensures s.signals > 0 ==> Step(s, Signal) == s.(signals := s.signals - 1, wake := true)
    ensures s.sender.Parked? && s.wake ==> Step(s, Wake) == s.(sender := Looking, wake := false)
    ensures s.sender.Parked? ==> Step(s, Timer) == s.(sender := Looking)
    ensures s.sender.FlushDue? && IsBatch(s.b.lines, n) ==> Step(s, TakeBatch(n)) == s.(sender := Sending(n))
    ensures s.sender.Parked? && s.ended ==> Step(s, Stop) == s.(sender := Stopped, done := true)
    ensures s.sender.Sending? && s.ended ==> Step(s, Abort) == s.(sender := Stopped, done := true)
    ensures Step(s, EndWork) == s.(ended := true)
  {
  }

  /** A completion once woken checks again, gives up waiting once nothing is sent any more, and then
      calls. */
  lemma {:induction false} CompletionStepsTakeEffect(s: State, id: nat)
    requires Inv(s)
    ensures Enabled(s, Woken(id)) ==> Step(s, Woken(id)).waiters[id].stage == Checking
    ensures Enabled(s, GiveUp(id)) ==> Step(s, GiveUp(id)).waiters[id].stage == Passed
    ensures Enabled(s, Call(id)) ==> Step(s, Call(id)).waiters[id].stage == Called
  {
  }

  /** The lines the events of a run append, in order. */
  function LinesOf(es: seq<Event>): seq<Line> {
    if es == [] then [] else (if es[0].Append? then [es[0].line] else []) + LinesOf(es[1..])
  }

  lemma {:induction false} AppendedAreTheLines(s: State, es: seq<Event>)
    requires Inv(s) && Legal(s, es)
    ensures After(s, es).appended == s.appended + LinesOf(es)
    decreases |es|
  {
    if es != [] {
      StepKeepsInv(s, es[0]);
      StepAppends(s, es[0]);
      AppendedAreTheLines(Step(s, es[0]), es[1..]);
      Associates(s.appended, if es[0].Append? then [es[0].line] else [], LinesOf(es[1..]));
    } else {
      assert s.appended + [] == s.appended;
    }
  }

  lemma {:induction false} Associates(a: seq<Line>, b: seq<Line>, c: seq<Line>)
    ensures a + (b + c) == (a + b) + c
  {
  }

  lemma {:induction false} StepAppends(s: State, e: Event)
    requires Inv(s) && Enabled(s, e)
    ensures Step(s, e).appended == s.appended + if e.Append? then [e.line] else []
  {
  }

  /** What a completion waits for never changes once it marked. */
  lemma {:induction false} MarkStays(s: State, es: seq<Event>, id: nat)
    requires Inv(s) && Legal(s, es) && id in s.waiters
    ensures id in After(s, es).waiters && After(s, es).waiters[id].before == s.waiters[id].before
    decreases |es|
  {
    if es != [] {
      StepKeepsInv(s, es[0]);
      StepKeepsMarks(s, es[0], id);
      MarkStays(Step(s, es[0]), es[1..], id);
    }
  }

  lemma {:induction false} StepKeepsMarks(s: State, e: Event, id: nat)
    requires Inv(s) && Enabled(s, e) && id in s.waiters
    ensures id in Step(s, e).waiters && Step(s, e).waiters[id].before == s.waiters[id].before
  {
  }

  lemma {:induction false} SplitRun(s: State, a: seq<Event>, b: seq<Event>)
    requires Inv(s) && Legal(s, a + b)
    ensures Legal(s, a) && Legal(After(s, a), b) && After(s, a + b) == After(After(s, a), b)
    decreases |a|
  {
    if a == [] {
      assert a + b == b;
    } else {
      StepKeepsInv(s, a[0]);
      assert (a + b)[1..] == a[1..] + b;
      SplitRun(Step(s, a[0]), a[1..], b);
    }
  }

  /** However a run goes on after a completion's mark, when it calls while its work goes on, every line
      appended before the mark was accepted or finally refused, in order. */
  lemma {:induction false} CallFollowsItsOutput(pre: seq<Event>, id: nat, post: seq<Event>)
    requires Legal(INIT, pre + ([Mark(id)] + post)) && Enabled(After(INIT, pre + ([Mark(id)] + post)), Call(id))
    ensures var s := After(INIT, pre + ([Mark(id)] + post)); !s.ended ==> LinesOf(pre) <= Sent(s.finished)
  {
    SplitRun(INIT, pre, [Mark(id)] + post);
    var s := After(INIT, pre);
    assert ([Mark(id)] + post)[0] == Mark(id) && ([Mark(id)] + post)[1..] == post;
    StepKeepsInv(s, Mark(id));
    var t := Step(s, Mark(id));
    assert After(s, [Mark(id)] + post) == After(t, post);
    AppendedAreTheLines(INIT, pre);
    assert INIT.appended + LinesOf(pre) == LinesOf(pre);
    MarkStays(t, post, id);
    ResultsNeverOvertakeOutput(pre + ([Mark(id)] + post), id);
  }

  /** In every run a sender parked on a stale view has a wake token, or one on its way. */
  lemma {:induction false} SenderNeverSleepsThroughWork(es: seq<Event>)
    requires Legal(INIT, es)
    ensures var s := After(INIT, es);
      s.sender.Parked? && Unseen(s) ==> Enabled(s, Wake) || Enabled(s, Signal)
  {
    var s := After(INIT, es);
    assert SenderFits(s);
  }

  /** The batcher's buffer; each method is one section under its mutex. */
  class LogBatcher {
    var lines: seq<Line>
    var bytes: int
    var urgent: bool
    var seqno: nat
    var flushed: nat
    ghost var round: nat

    ghost function Model(): Shared
      reads this
    {
      Shared(lines, bytes, urgent, seqno, flushed, round)
    }

    constructor ()
      ensures Model() == EMPTY
    {
      lines, bytes, urgent, seqno, flushed, round := [], 0, false, 0, 0, 0;
    }

    /** append's section: buffers the line, or finds the buffer full and leaves it to wait. */
    method TryAppend(line: Line) returns (ok: bool)
      modifies this
      ensures ok <==> old(bytes) < LOG_BUFFER_BYTES
      ensures Model() == if ok then Appended(old(Model()), line) else old(Model())
      ensures ok ==> lines == old(lines) + [line] && bytes == old(bytes) + |line.data| && seqno == old(seqno) + 1
      ensures urgent == old(urgent) && flushed == old(flushed) && round == old(round)
    {
      ok := bytes < LOG_BUFFER_BYTES;
      if ok {
        lines := lines + [line];
        bytes := bytes + Size(line);
        seqno := seqno + 1;
      }
    }

    /** waitFlushed's section. */
    method CheckFlushed(mark: nat) returns (ok: bool)
      modifies this
      ensures ok <==> old(flushed) >= mark
      ensures Model() == if ok then old(Model()) else Urged(old(Model()))
      ensures urgent == (old(urgent) || !ok) && lines == old(lines) && round == old(round)
    {
      ok := flushed >= mark;
      if !ok {
        urgent := true;
      }
    }

    /** flush's first section: the batch to send, found line by line. */
    method NextBatch() returns (n: nat, size: nat)
      ensures IsBatch(lines, n) && size == Total(lines[..n])
    {
      n, size := 0, 0;
      while n < |lines| && !(n > 0 && size + Size(lines[n]) > LOG_BATCH_BYTES)
        invariant n <= |lines| && size == Total(lines[..n])
        invariant n > 1 ==> size <= LOG_BATCH_BYTES
      {
        assert lines[..n + 1][..n] == lines[..n];
        size := size + Size(lines[n]);
        n := n + 1;
      }
      if n < |lines| {
        assert lines[..n + 1][..n] == lines[..n];
      }
    }

    /** flush's second section, once the batch was accepted or finally refused. */
    method FinishBatch(n: nat, size: nat)
      requires n <= |lines|
      modifies this
      ensures Model() == Flushed(old(Model()), n, size)
      ensures old(lines) == old(lines)[..n] + lines && flushed == old(flushed) + n && bytes == old(bytes) - size
      ensures round > old(round) && seqno == old(seqno) && urgent == (old(urgent) && lines != [])
    {
      lines := lines[n..];
      bytes := bytes - size;
      flushed := flushed + n;
      if lines == [] {
        urgent := false;
      }
      round := round + 1;
    }
  }
}
