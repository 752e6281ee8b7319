/** The queue of commands for one container's supervisor and the connections that
    send it (internal/agent/link.go). A new connection supersedes the old one, and
    every step of every connection interleaves with the others. */
module SupervisorLink {
  import opened Options

  const MAX_LINK_QUEUE: nat := 1024

  datatype Command = RunAttempt(attempt: string) | CancelSlot(attempt: string) | Drain | Reload

  /** What the link's mutex guards: the queue, the connection that alone sends it, and the
      connections with a wake token. Connections are numbered in the order they connected. */
  datatype Shared = Shared(queue: seq<Command>, stream: Option<nat>, closed: bool, wakes: set<nat>)

  predicate Accepts(l: Shared) {
    !l.closed && |l.queue| < MAX_LINK_QUEUE
  }

  function Enqueued(l: Shared, c: Command): Shared {
    if !Accepts(l) then l else
      l.(queue := l.queue + [c], wakes := if l.stream.Some? then l.wakes + {l.stream.value} else l.wakes)
  }

  function Popped(l: Shared, id: nat): Shared
    requires l.stream == Some(id) ==> |l.queue| > 0
  {
    if l.stream != Some(id) then l else l.(queue := l.queue[1..])
  }

  function Left(l: Shared, id: nat): Shared {
    if l.stream == Some(id) then l.(stream := None) else l
  }

  /** Where a connection's handler is between two steps of the link. */
  datatype Phase =
    | Opening              // before the supervisor's configuration is sent
    | Ready                // about to look at the queue
    | Parked               // saw an empty queue; waits for a wake
    | Holding(c: Command)  // read the front; sending it
    | Delivered(c: Command) // sent it; about to pop
    | Leaving              // found itself superseded
    | Ended

  /** A connection: the commands it sent, how many of them it popped, and how many commands
      were popped when it connected. */
  datatype Conn = Conn(from: nat, log: seq<Command>, pops: nat, phase: Phase)

  /** The link with its history: every accepted command, and how many were popped. */
  datatype State = State(link: Shared, conns: seq<Conn>, accepted: seq<Command>, popped: nat)

  datatype Event =
    | Enqueue(c: Command) | Close | Connect
    | Configured(id: nat) | Fetch(id: nat) | Wake(id: nat)
    | Deliver(id: nat) | Pop(id: nat) | End(id: nat)

  const INIT := State(Shared([], None, false, {}), [], [], 0)

  predicate Enabled(s: State, e: Event) {
    match e
    case Enqueue(_) => true
    case Close => true
    case Connect => true
    case Configured(id) => id < |s.conns| && s.conns[id].phase.Opening?
    case Fetch(id) => id < |s.conns| && s.conns[id].phase.Ready?
    case Wake(id) => id < |s.conns| && s.conns[id].phase.Parked? && id in s.link.wakes
    case Deliver(id) => id < |s.conns| && s.conns[id].phase.Holding?
    case Pop(id) => id < |s.conns| && s.conns[id].phase.Delivered?
    case End(id) => id < |s.conns| && (s.conns[id].phase.Opening? || s.conns[id].phase.Parked?
                                       || s.conns[id].phase.Holding? || s.conns[id].phase.Leaving?)
  }

  function Moved(s: State, id: nat, p: Phase): State
    requires id < |s.conns|
  {
    s.(conns := s.conns[id := s.conns[id].(phase := p)])
  }

  function Fetched(s: State, id: nat): State
    requires id < |s.conns|
  {
    if s.link.stream != Some(id) then Moved(s, id, Leaving)
    else if s.link.queue == [] then Moved(s, id, Parked)
    else Moved(s, id, Holding(s.link.queue[0]))
  }

  function PoppedBy(s: State, id: nat): State
    requires id < |s.conns| && (s.link.stream == Some(id) ==> |s.link.queue| > 0)
  {
    if s.link.stream != Some(id) then Moved(s, id, Leaving)
    else State(Popped(s.link, id), s.conns[id := s.conns[id].(phase := Ready, pops := s.conns[id].pops + 1)],
               s.accepted, s.popped + 1)
  }

  function Step(s: State, e: Event): State
    requires Inv(s) && Enabled(s, e)
  {
    match e
    case Enqueue(c) =>
        s.(link := Enqueued(s.link, c), accepted := if Accepts(s.link) then s.accepted + [c] else s.accepted)
    case Close => s.(link := s.link.(closed := true))
    case Connect => s.(link := s.link.(stream := Some(|s.conns|)), conns := s.conns + [Conn(s.popped, [], 0, Opening)])
    case Configured(id) => Moved(s, id, Ready)
    case Fetch(id) => Fetched(s, id)
    case Wake(id) => Moved(s, id, Ready).(link := s.link.(wakes := s.link.wakes - {id}))
    case Deliver(id) =>
      var k := s.conns[id];
      s.(conns := s.conns[id := k.(log := k.log + [k.phase.c], phase := Delivered(k.phase.c))])
    case Pop(id) => PopIsOfTheFront(s, id); PoppedBy(s, id)
    case End(id) => Moved(s, id, Ended).(link := Left(s.link, id))
  }

  // ---- What every reachable state keeps ----

  ghost predicate QueueIsRest(s: State) {
    s.popped <= |s.accepted| && s.link.queue == s.accepted[s.popped..]
  }

  /** The connection sent a contiguous run of the accepted commands, and popped all of it but
      perhaps the last one. */
  ghost predicate Contiguous(s: State, k: Conn) {
    && k.from + |k.log| <= |s.accepted|
    && k.log == s.accepted[k.from..k.from + |k.log|]
    && k.pops <= |k.log| <= k.pops + 1
  }

  /** The newest connection is the current one until it ends; the others are superseded. */
  ghost predicate Superseded(s: State, id: nat) {
    id < |s.conns| - 1
  }

  ghost predicate PhaseFits(s: State, id: nat)
    requires id < |s.conns|
  {
    var k := s.conns[id];
    && (k.phase.Leaving? ==> Superseded(s, id))
    && (k.phase.Ended? || Superseded(s, id) || s.link.stream == Some(id))
    && (k.phase.Ended? ==> s.link.stream != Some(id))
    && match k.phase
    case Opening => |k.log| == k.pops
    case Ready => |k.log| == k.pops
    case Parked => |k.log| == k.pops && (s.link.stream == Some(id) && s.link.queue != [] ==> id in s.link.wakes)
    case Holding(c) => |k.log| == k.pops && k.from + k.pops < |s.accepted| && s.accepted[k.from + k.pops] == c
    case Delivered(c) => |k.log| == k.pops + 1 && k.log[k.pops] == c
    case _ => |k.log| == k.pops || Superseded(s, id)
  }

  /** Each connection starts where the one before it stopped popping, the last one popping now. */
  ghost predicate Chained(s: State) {
    && (forall i :: 0 <= i < |s.conns| - 1 ==> s.conns[i + 1].from == s.conns[i].from + s.conns[i].pops)
    && (|s.conns| > 0 ==> s.conns[0].from == 0)
    && s.popped == (if s.conns == [] then 0 else s.conns[|s.conns| - 1].from + s.conns[|s.conns| - 1].pops)
  }

  ghost predicate Inv(s: State) {
    && QueueIsRest(s)
    && (s.link.stream.Some? ==> s.link.stream.value == |s.conns| - 1)
    && (forall i :: 0 <= i < |s.conns| ==> Contiguous(s, s.conns[i]))
    && (forall i :: 0 <= i < |s.conns| ==> PhaseFits(s, i))
    && Chained(s)
  }

  /** When the current connection pops, the queue's front is what it sent last. */
  lemma {:induction false} PopIsOfTheFront(s: State, id: nat)
    requires Inv(s) && id < |s.conns| && s.conns[id].phase.Delivered?
    ensures s.link.stream == Some(id) ==> |s.conns[id].log| > 0 && |s.link.queue| > 0
    ensures s.link.stream == Some(id) ==>
        s.link.queue[0] == s.conns[id].log[|s.conns[id].log| - 1] == s.conns[id].phase.c
  {
    if s.link.stream == Some(id) {
      assert Contiguous(s, s.conns[id]) && PhaseFits(s, id);
      assert s.conns[id].log[s.conns[id].pops] == s.accepted[s.popped];
    }
  }

  lemma {:induction false} SliceGrows(a: seq<Command>, c: Command, lo: nat, hi: nat)
    requires lo <= hi <= |a|
    ensures (a + [c])[lo..hi] == a[lo..hi] && (a + [c])[lo..] == a[lo..] + [c]
  {
  }

  lemma {:induction false} EnqueueKeeps(s: State, c: Command)
    requires Inv(s)
    ensures Inv(Step(s, Enqueue(c)))
  {
    var t := Step(s, Enqueue(c));
    assert t.conns == s.conns && t.popped == s.popped && t.link.stream == s.link.stream;
    forall i | 0 <= i < |t.conns| ensures Contiguous(t, t.conns[i]) && PhaseFits(t, i) {
      EnqueueKeepsRun(s, c, i);
      EnqueueKeepsPhase(s, c, i);
    }
    assert QueueIsRest(t) by { SliceGrows(s.accepted, c, s.popped, |s.accepted|); }
  }

  lemma {:induction false} EnqueueKeepsRun(s: State, c: Command, i: nat)
    requires Inv(s) && i < |s.conns|
    ensures Contiguous(Step(s, Enqueue(c)), s.conns[i])
  {
    assert Contiguous(s, s.conns[i]);
    SliceGrows(s.accepted, c, s.conns[i].from, s.conns[i].from + |s.conns[i].log|);
  }

  lemma {:induction false} EnqueueKeepsPhase(s: State, c: Command, i: nat)
    requires Inv(s) && i < |s.conns|
    ensures PhaseFits(Step(s, Enqueue(c)), i)
  {
    assert PhaseFits(s, i);
  }

  lemma {:induction false} ConnectKeeps(s: State)
    requires Inv(s)
    ensures Inv(Step(s, Connect))
  {
    var t := Step(s, Connect);
    forall i | 0 <= i < |t.conns| ensures Contiguous(t, t.conns[i]) && PhaseFits(t, i) {
      if i < |s.conns| {
        assert t.conns[i] == s.conns[i] && Contiguous(s, s.conns[i]) && PhaseFits(s, i);
      }
    }
    forall i | 0 <= i < |t.conns| - 1 ensures t.conns[i + 1].from == t.conns[i].from + t.conns[i].pops {
      assert t.conns[i] == s.conns[i];
    }
  }

  /** A step of one connection: t differs from s in connection id, now k, and in the link. */
  ghost predicate ConnStep(s: State, id: nat, k: Conn, t: State) {
    && id < |s.conns| && t.conns == s.conns[id := k] && t.accepted == s.accepted
    && k.from == s.conns[id].from
    && (t.link.stream == s.link.stream || (t.link.stream == None && s.link.stream == Some(id)))
    && (t.link.wakes == s.link.wakes || t.link.wakes == s.link.wakes - {id})
    && if t.popped == s.popped then k.pops == s.conns[id].pops && t.link.queue == s.link.queue
       else t.popped == s.popped + 1 && k.pops == s.conns[id].pops + 1 && s.link.stream == Some(id)
  }

  lemma {:induction false} OthersFit(s: State, id: nat, k: Conn, t: State, i: nat)
    requires Inv(s) && ConnStep(s, id, k, t) && i < |s.conns| && i != id
    ensures Contiguous(t, t.conns[i]) && PhaseFits(t, i)
  {
    assert t.conns[i] == s.conns[i] && Contiguous(s, s.conns[i]) && PhaseFits(s, i);
  }

  lemma {:induction false} ChainKept(s: State, id: nat, k: Conn, t: State)
    requires Inv(s) && ConnStep(s, id, k, t)
    ensures Chained(t)
  {
    forall i | 0 <= i < |t.conns| - 1 ensures t.conns[i + 1].from == t.conns[i].from + t.conns[i].pops {
      assert t.conns[i + 1].from == s.conns[i + 1].from;
      assert s.conns[i + 1].from == s.conns[i].from + s.conns[i].pops;
    }
  }

  lemma {:induction false} ConnStepKeeps(s: State, id: nat, k: Conn, t: State)
    requires Inv(s) && ConnStep(s, id, k, t)
    requires QueueIsRest(t) && Contiguous(t, k) && PhaseFits(t, id)
    ensures Inv(t)
  {
    forall i | 0 <= i < |t.conns| ensures Contiguous(t, t.conns[i]) && PhaseFits(t, i) {
      if i != id {
        OthersFit(s, id, k, t, i);
      }
    }
    ChainKept(s, id, k, t);
  }

  lemma {:induction false} DeliverKeeps(s: State, id: nat)
    requires Inv(s) && Enabled(s, Deliver(id))
    ensures Inv(Step(s, Deliver(id)))
  {
    var t := Step(s, Deliver(id));
    var k := s.conns[id];
    assert Contiguous(s, k) && PhaseFits(s, id);
    var k' := t.conns[id];
    assert k'.log == s.accepted[k.from..k.from + |k.log| + 1];
    ConnStepKeeps(s, id, k', t);
  }

  lemma {:induction false} PopKeeps(s: State, id: nat)
    requires Inv(s) && Enabled(s, Pop(id))
    ensures Inv(Step(s, Pop(id)))
  {
    var t := Step(s, Pop(id));
    PopIsOfTheFront(s, id);
    assert Contiguous(s, s.conns[id]) && PhaseFits(s, id);
    if s.link.stream == Some(id) {
      assert s.accepted[s.popped..][1..] == s.accepted[s.popped + 1..];
    }
    ConnStepKeeps(s, id, t.conns[id], t);
  }

  /** Every step of the link and of every connection keeps the invariant. */
  lemma {:induction false} StepKeepsInv(s: State, e: Event)
    requires Inv(s) && Enabled(s, e)
    ensures Inv(Step(s, e))
  {
    match e
    case Enqueue(c) => EnqueueKeeps(s, c);
    case Close => CloseKeeps(s);
    case Connect => ConnectKeeps(s);
    case Configured(id) => LookKeeps(s, e, id);
    case Fetch(id) => LookKeeps(s, e, id);
    case Wake(id) => LookKeeps(s, e, id);
    case Deliver(id) => DeliverKeeps(s, id);
    case Pop(id) => PopKeeps(s, id);
    case End(id) => LookKeeps(s, e, id);
  }

  lemma {:induction false} CloseKeeps(s: State)
    requires Inv(s)
    ensures Inv(Step(s, Close))
  {
    var t := Step(s, Close);
    forall i | 0 <= i < |t.conns| ensures Contiguous(t, t.conns[i]) && PhaseFits(t, i) {
      assert Contiguous(s, s.conns[i]) && PhaseFits(s, i);
    }
  }

  lemma {:induction false} LookKeeps(s: State, e: Event, id: nat)
    requires Inv(s) && Enabled(s, e)
    requires e == Configured(id) || e == Fetch(id) || e == Wake(id) || e == End(id)
    ensures Inv(Step(s, e))
  {
    var t := Step(s, e);
    assert Contiguous(s, s.conns[id]) && PhaseFits(s, id);
    ConnStepKeeps(s, id, t.conns[id], t);
  }

  // ---- Whole runs ----

  ghost predicate Legal(s: State, es: seq<Event>)
    requires Inv(s)
    decreases |es|
  {
    es == [] || (Enabled(s, es[0]) && (StepKeepsInv(s, es[0]); Legal(Step(s, es[0]), es[1..])))
  }

  ghost function After(s: State, es: seq<Event>): (t: State)
    requires Inv(s) && Legal(s, es)
    ensures Inv(t)
    decreases |es|
  {
    if es == [] then s else
      StepKeepsInv(s, es[0]);
      After(Step(s, es[0]), es[1..])
  }

  /** What the connections popped, in the order they connected. */
  ghost function PoppedLog(conns: seq<Conn>): seq<Command>
    requires forall i :: 0 <= i < |conns| ==> conns[i].pops <= |conns[i].log|
  {
    if conns == [] then [] else
      var last := conns[|conns| - 1];
      PoppedLog(conns[..|conns| - 1]) + last.log[..last.pops]
  }

  lemma {:induction false} PrefixOfRun(all: seq<Command>, run: seq<Command>, from: nat, n: nat)
    requires from + |run| <= |all| && run == all[from..from + |run|] && n <= |run|
    ensures all[..from] + run[..n] == all[..from + n]
  {
    assert run[..n] == all[from..from + n];
  }

  lemma {:induction false} PoppedLogIsPrefix(s: State, n: nat)
    requires Inv(s) && n <= |s.conns|
    requires forall i :: 0 <= i < |s.conns| ==> s.conns[i].pops <= |s.conns[i].log|
    ensures PoppedLog(s.conns[..n]) == s.accepted[..if n == 0 then 0 else s.conns[n - 1].from + s.conns[n - 1].pops]
  {
    if n > 0 {
      PoppedLogIsPrefix(s, n - 1);
      var k := s.conns[n - 1];
      assert Contiguous(s, k);
      assert s.conns[..n][..n - 1] == s.conns[..n - 1];
      assert n > 1 ==> s.conns[n - 2 + 1].from == s.conns[n - 2].from + s.conns[n - 2].pops;
      PrefixOfRun(s.accepted, k.log, k.from, k.pops);
    }
  }

  lemma {:induction false} PoppedAndQueued(s: State)
    requires Inv(s) && forall i :: 0 <= i < |s.conns| ==> s.conns[i].pops <= |s.conns[i].log|
    ensures PoppedLog(s.conns) + s.link.queue == s.accepted
  {
    PoppedLogIsPrefix(s, |s.conns|);
    assert s.conns[..|s.conns|] == s.conns;
    assert s.accepted[..s.popped] + s.accepted[s.popped..] == s.accepted;
  }

  /** In every run, each connection sends a contiguous run of the accepted commands, and what
      the connections popped, in the order they connected, is exactly the accepted commands
      that left the queue: none is popped unsent, twice or out of order. */
  lemma {:induction false} EveryRunDeliversInOrder(es: seq<Event>)
    requires Legal(INIT, es)
    ensures var s := After(INIT, es);
      && (forall i :: 0 <= i < |s.conns| ==> s.conns[i].pops <= |s.conns[i].log|)
      && (forall i :: 0 <= i < |s.conns| ==>
            && s.conns[i].from + |s.conns[i].log| <= |s.accepted|
            && s.conns[i].log == s.accepted[s.conns[i].from..s.conns[i].from + |s.conns[i].log|])
      && PoppedLog(s.conns) + s.link.queue == s.accepted
  {
    var s := After(INIT, es);
    forall i | 0 <= i < |s.conns|
      ensures s.conns[i].pops <= |s.conns[i].log| && s.conns[i].from + |s.conns[i].log| <= |s.accepted|
      ensures s.conns[i].log == s.accepted[s.conns[i].from..s.conns[i].from + |s.conns[i].log|]
    {
      assert Contiguous(s, s.conns[i]);
    }
    PoppedAndQueued(s);
  }

  lemma {:induction false} LaterStartsAfterPops(s: State, i: nat, j: nat)
    requires Inv(s) && i < j < |s.conns|
    ensures s.conns[i].from + s.conns[i].pops <= s.conns[j].from
  {
    assert s.conns[j - 1 + 1].from == s.conns[j - 1].from + s.conns[j - 1].pops;
    if i < j - 1 {
      LaterStartsAfterPops(s, i, j - 1);
    }
  }

  /** The connection sent the n-th accepted command. */
  predicate SentNth(k: Conn, n: nat) {
    k.from <= n < k.from + |k.log|
  }

  /** In every run, a command two connections sent is the last one the earlier sent, which it
      never popped, and the first one the later sent: only a supersession repeats a command. */
  lemma {:induction false} OnlySupersessionRepeats(es: seq<Event>, i: nat, j: nat, n: nat)
    requires Legal(INIT, es)
    requires var s := After(INIT, es); i < j < |s.conns| && SentNth(s.conns[i], n) && SentNth(s.conns[j], n)
    ensures var s := After(INIT, es);
      && n == s.conns[i].from + s.conns[i].pops == s.conns[i].from + |s.conns[i].log| - 1
      && n == s.conns[j].from
      && s.link.stream != Some(i)
      && (s.conns[i].phase.Delivered? || s.conns[i].phase.Leaving? || s.conns[i].phase.Ended?)
  {
    var s := After(INIT, es);
    LaterStartsAfterPops(s, i, j);
    assert Contiguous(s, s.conns[i]) && PhaseFits(s, i);
  }

  lemma {:induction false} ClosedByClose(s: State, es: seq<Event>)
    requires Inv(s) && Legal(s, es)
    ensures After(s, es).link.closed <==> s.link.closed || Close in es
    decreases |es|
  {
    if es != [] {
      StepKeepsInv(s, es[0]);
      StepCloses(s, es[0]);
      ClosedByClose(Step(s, es[0]), es[1..]);
      assert Close in es <==> es[0] == Close || Close in es[1..];
    }
  }

  lemma {:induction false} StepCloses(s: State, e: Event)
    requires Inv(s) && Enabled(s, e)
    ensures Step(s, e).link.closed <==> s.link.closed || e == Close
  {
  }

  /** In every run a command is lost exactly when the link was closed or 1024 commands wait; any other is
      the last of the accepted commands. */
  lemma {:induction false} CommandIsLostExactly(es: seq<Event>, c: Command)
    requires Legal(INIT, es)
    ensures var s := After(INIT, es); var t := Step(s, Enqueue(c));
      if Close in es || |s.link.queue| >= 1024 then t.accepted == s.accepted && t.link == s.link
      else t.accepted == s.accepted + [c] && t.link.queue == s.link.queue + [c]
  {
    ClosedByClose(INIT, es);
  }

  /** What the steps between do: a connection takes over from the one before at once and starts at the
      command that one has yet to pop; it gets ready once configured or woken, a wake using up its
      token; and at its end it leaves the link to a successor, if there is one. */
  lemma {:induction false} ConnectionsTakeOver(s: State, id: nat)
    requires Inv(s)
    ensures var t := Step(s, Connect);
      && t.link == s.link.(stream := Some(|s.conns|)) && |t.conns| == |s.conns| + 1
      && t.conns[..|s.conns|] == s.conns && t.conns[|s.conns|] == Conn(s.popped, [], 0, Opening)
    ensures Enabled(s, Configured(id)) ==> Step(s, Configured(id)).conns == s.conns[id := s.conns[id].(phase := Ready)]
    ensures Enabled(s, Wake(id)) ==>
      && Step(s, Wake(id)).conns == s.conns[id := s.conns[id].(phase := Ready)]
      && Step(s, Wake(id)).link == s.link.(wakes := s.link.wakes - {id})
    ensures Enabled(s, End(id)) ==>
      && Step(s, End(id)).conns == s.conns[id := s.conns[id].(phase := Ended)]
      && Step(s, End(id)).link.stream == (if s.link.stream == Some(id) then None else s.link.stream)
  {
  }

  /** Undisturbed, the current connection takes the front of the queue, sends it and pops it, and is ready
      for the next. */
  lemma {:induction false} FrontIsDelivered(s: State, id: nat)
    requires Inv(s) && id < |s.conns| && s.conns[id].phase.Ready? && s.link.stream == Some(id) && s.link.queue != []
    ensures Legal(s, [Fetch(id)] + ([Deliver(id)] + ([Pop(id)] + [])))
    ensures var t := After(s, [Fetch(id)] + ([Deliver(id)] + ([Pop(id)] + [])));
      && t.link == s.link.(queue := s.link.queue[1..]) && t.accepted == s.accepted
      && |t.conns| == |s.conns| && t.conns[id].phase.Ready? && t.conns[id].log == s.conns[id].log + [s.link.queue[0]]
  {
    var a := Step(s, Fetch(id));
    StepKeepsInv(s, Fetch(id));
    var b := Step(a, Deliver(id));
    StepKeepsInv(a, Deliver(id));
    StepKeepsInv(b, Pop(id));
    PlayFirst(b, Pop(id), []);
    PlayFirst(a, Deliver(id), [Pop(id)] + []);
    PlayFirst(s, Fetch(id), [Deliver(id)] + ([Pop(id)] + []));
  }

  lemma {:induction false} PlayFirst(s: State, e: Event, es: seq<Event>)
    requires Inv(s) && Enabled(s, e) && Inv(Step(s, e)) && Legal(Step(s, e), es)
    ensures Legal(s, [e] + es) && After(s, [e] + es) == After(Step(s, e), es)
  {
    assert ([e] + es)[1..] == es;
  }

  /** The current connection never sleeps through a queued command. */
  lemma {:induction false} CurrentNeverSleepsThroughWork(es: seq<Event>, id: nat)
    requires Legal(INIT, es)
    ensures var s := After(INIT, es);
      id < |s.conns| && s.link.stream == Some(id) && s.conns[id].phase.Parked? && s.link.queue != [] ==>
          Enabled(s, Wake(id))
  {
    var s := After(INIT, es);
    if id < |s.conns| {
      assert PhaseFits(s, id);
    }
  }

  /** The link object; each method is one section under its mutex. */
  class Link {
    var queue: seq<Command>
    var stream: Option<nat>
    var closed: bool
    var wakes: set<nat>

    ghost function Model(): Shared
      reads this
    {
      Shared(queue, stream, closed, wakes)
    }

    constructor ()
      ensures Model() == INIT.link
    {
      queue, stream, closed, wakes := [], None, false, {};
    }

    method Accept(c: Command)
      modifies this
      ensures Model() == Enqueued(old(Model()), c)
      ensures queue == if old(closed) || |old(queue)| >= 1024 then old(queue) else old(queue) + [c]
      ensures queue != old(queue) && stream.Some? ==> stream.value in wakes
      ensures stream == old(stream) && closed == old(closed)
    {
      if closed || |queue| >= MAX_LINK_QUEUE {
        return;
      }
      queue := queue + [c];
      if stream.Some? {
        wakes := wakes + {stream.value};
      }
    }

    method QueuedAttempts() returns (attempts: seq<string>)
      ensures forall a :: a in attempts <==> RunAttempt(a) in queue
    {
      attempts := [];
      for i := 0 to |queue|
        invariant forall a :: a in attempts <==> RunAttempt(a) in queue[..i]
      {
        assert queue[..i + 1] == queue[..i] + [queue[i]];
        if queue[i].RunAttempt? {
          attempts := attempts + [queue[i].attempt];
        }
      }
      assert queue[..|queue|] == queue;
    }

    method Next(id: nat) returns (front: Option<Command>, current: bool)
      ensures current <==> stream == Some(id)
      ensures current ==> front == (if queue == [] then None else Some(queue[0]))
      ensures !current ==> front == None
    {
      if stream != Some(id) {
        return None, false;
      }
      front, current := if queue == [] then None else Some(queue[0]), true;
    }

    method Sent(id: nat) returns (ok: bool)
      requires stream == Some(id) ==> |queue| > 0
      modifies this
      ensures ok <==> old(stream) == Some(id)
      ensures Model() == Popped(old(Model()), id)
      ensures old(queue) == (if ok then [old(queue)[0]] else []) + queue
    {
      if stream != Some(id) {
        return false;
      }
      queue := queue[1..];
      return true;
    }

    method TakeOver(id: nat)
      modifies this
      ensures Model() == old(Model()).(stream := Some(id))
    {
      stream := Some(id);
    }

    method Leave(id: nat)
      modifies this
      ensures Model() == Left(old(Model()), id)
      ensures stream == (if old(stream) == Some(id) then None else old(stream)) && queue == old(queue)
    {
      if stream == Some(id) {
        stream := None;
      }
    }
  }
}
