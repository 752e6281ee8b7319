/** The build caches of a host (internal/agent/buildcache.go): states held by builds, and
    whole workspaces evicted while builds come and go. */
module BuildCache {
  import opened Options

  /** A workspace's UUID; directories named by its canonical form sort as the numbers do. */
  type Workspace = nat

  /** A workspace's n-th state directory. */
  datatype Slot = Slot(ws: Workspace, n: nat)

  /** What the caches' mutex guards, as far as exclusion goes. */
  datatype Shared = Shared(held: set<Slot>, evicting: set<Workspace>)

  predicate InUse(c: Shared, ws: Workspace) { exists x :: x in c.held && x.ws == ws }

  /** n is the first state of ws no build holds. */
  predicate LowestFree(held: set<Slot>, ws: Workspace, n: nat) {
    Slot(ws, n) !in held && forall i :: 0 <= i < n ==> Slot(ws, i) in held
  }

  /** A workspace's builds use its lowest states: the n-th is taken only beside n other builds. */
  lemma {:induction false} LowestFreeIsFew(held: set<Slot>, ws: Workspace, n: nat)
    requires forall i :: 0 <= i < n ==> Slot(ws, i) in held
    ensures n <= |held|
  {
    if n > 0 {
      LowestFreeIsFew(held - {Slot(ws, n - 1)}, ws, n - 1);
    }
  }

  // ---- Builds, an eviction pass and the disk ----

  datatype Stage = Opening | Open

  datatype Build = Build(slot: Slot, stage: Stage)

  /** The states builds use, the states on disk, and whether an eviction pass runs. */
  datatype State = State(c: Shared, builds: map<nat, Build>, disk: set<Slot>, passing: bool)

  const INIT := State(Shared({}, {}), map[], {}, false)

  datatype Event =
    | Acquire(b: nat, ws: Workspace, n: nat) | Opened(b: nat) | OpenFailed(b: nat, left: bool) | Release(b: nat)
    | PassBegin | EvictBegin(ws: Workspace) | Remove(x: Slot) | EvictEnd(ws: Workspace) | PassEnd

  predicate Enabled(s: State, e: Event) {
    match e
    case Acquire(b, ws, n) => b !in s.builds && ws !in s.c.evicting && LowestFree(s.c.held, ws, n)
    case Opened(b) => b in s.builds && s.builds[b].stage.Opening?
    case OpenFailed(b, _) => b in s.builds && s.builds[b].stage.Opening?
    case Release(b) => b in s.builds && s.builds[b].stage.Open?
    case PassBegin => !s.passing
    case EvictBegin(ws) => s.passing && s.c.evicting == {} && !InUse(s.c, ws)
    case Remove(x) => x.ws in s.c.evicting
    case EvictEnd(ws) => ws in s.c.evicting
    case PassEnd => s.passing && s.c.evicting == {}
  }

  function Step(s: State, e: Event): State
    requires Enabled(s, e)
  {
    match e
    case Acquire(b, ws, n) =>
      s.(c := s.c.(held := s.c.held + {Slot(ws, n)}), builds := s.builds[b := Build(Slot(ws, n), Opening)])
    case Opened(b) =>
      s.(builds := s.builds[b := s.builds[b].(stage := Open)], disk := s.disk + {s.builds[b].slot})
    case OpenFailed(b, left) =>
      s.(c := s.c.(held := s.c.held - {s.builds[b].slot}), builds := s.builds - {b},
         disk := if left then s.disk + {s.builds[b].slot} else s.disk)
    case Release(b) => s.(c := s.c.(held := s.c.held - {s.builds[b].slot}), builds := s.builds - {b})
    case PassBegin => s.(passing := true)
    case EvictBegin(ws) => s.(c := s.c.(evicting := s.c.evicting + {ws}))
    case Remove(x) => s.(disk := s.disk - {x})
    case EvictEnd(ws) => s.(c := s.c.(evicting := s.c.evicting - {ws}))
    case PassEnd => s.(passing := false)
  }

  /** The held states are the builds', each its own. */
  ghost predicate OwnStates(s: State) {
    && (forall b :: b in s.builds ==> s.builds[b].slot in s.c.held)
    && (forall x :: x in s.c.held ==> exists b :: b in s.builds && s.builds[b].slot == x)
    && (forall b, b' :: b in s.builds && b' in s.builds && b != b' ==> s.builds[b].slot != s.builds[b'].slot)
  }

  ghost predicate Exclusive(s: State) {
    && (forall x :: x in s.c.held ==> x.ws !in s.c.evicting)
    && |s.c.evicting| <= 1
    && (s.c.evicting != {} ==> s.passing)
    && (forall b :: b in s.builds && s.builds[b].stage.Open? ==> s.builds[b].slot in s.disk)
  }

  ghost predicate Inv(s: State) { OwnStates(s) && Exclusive(s) }

  lemma {:induction false} LeaveKeeps(s: State, e: Event)
    requires Inv(s) && Enabled(s, e) && (e.OpenFailed? || e.Release?)
    ensures Inv(Step(s, e))
  {
    var t := Step(s, e);
    forall x | x in t.c.held ensures exists b :: b in t.builds && t.builds[b].slot == x {
      var b :| b in s.builds && s.builds[b].slot == x;
      assert b in t.builds && t.builds[b].slot == x;
    }
  }

  lemma {:induction false} AcquireKeeps(s: State, e: Event)
    requires Inv(s) && Enabled(s, e) && e.Acquire?
    ensures Inv(Step(s, e))
  {
    var t := Step(s, e);
    assert Exclusive(t);
    forall x | x in t.c.held ensures exists b :: b in t.builds && t.builds[b].slot == x {
      if x in s.c.held {
        var b :| b in s.builds && s.builds[b].slot == x;
        assert b in t.builds && t.builds[b].slot == x;
      } else {
        assert e.b in t.builds && t.builds[e.b].slot == x;
      }
    }
  }

  lemma {:induction false} OpenedKeeps(s: State, e: Event)
    requires Inv(s) && Enabled(s, e) && e.Opened?
    ensures Inv(Step(s, e))
  {
    var t := Step(s, e);
    assert t.c == s.c && t.builds.Keys == s.builds.Keys;
    assert forall b :: b in t.builds ==> t.builds[b].slot == s.builds[b].slot;
    forall x | x in t.c.held ensures exists b :: b in t.builds && t.builds[b].slot == x {
      var b :| b in s.builds && s.builds[b].slot == x;
      assert b in t.builds && t.builds[b].slot == x;
    }
  }

  /** Every step of a build or of the eviction keeps builds and removals apart. */
  lemma {:induction false} StepKeepsInv(s: State, e: Event)
    requires Inv(s) && Enabled(s, e)
    ensures Inv(Step(s, e))
  {
    match e
    case Acquire(_, _, _) => AcquireKeeps(s, e);
    case Opened(_) => OpenedKeeps(s, e);
    case OpenFailed(_, _) => LeaveKeeps(s, e);
    case Release(_) => LeaveKeeps(s, e);
    case _ => PassKeeps(s, e);
  }

  lemma {:induction false} PassKeeps(s: State, e: Event)
    requires Inv(s) && Enabled(s, e) && (e.PassBegin? || e.EvictBegin? || e.Remove? || e.EvictEnd? || e.PassEnd?)
    ensures Inv(Step(s, e))
  {
    var t := Step(s, e);
    assert OwnStates(t);
    if e.EvictEnd? {
      assert t.c.evicting < s.c.evicting;
    }
  }

  ghost predicate Legal(s: State, es: seq<Event>)
    decreases |es|
  {
    es == [] || (Enabled(s, es[0]) && Legal(Step(s, es[0]), es[1..]))
  }

  ghost function After(s: State, es: seq<Event>): State
    requires Legal(s, es)
    decreases |es|
  {
    if es == [] then s else After(Step(s, es[0]), es[1..])
  }

  lemma {:induction false} EveryRunKeepsInv(s: State, es: seq<Event>)
    requires Inv(s) && Legal(s, es)
    ensures Inv(After(s, es))
    decreases |es|
  {
    if es != [] {
      StepKeepsInv(s, es[0]);
      EveryRunKeepsInv(Step(s, es[0]), es[1..]);
    }
  }

  /** What the steps do: a build holds the state it acquired until it fails to open it or releases it,
      and nobody else's; a pass marks, removes and unmarks what it says. */
  lemma {:induction false} StepsTakeEffect(s: State, e: Event)
    requires Enabled(s, e)
    ensures var t := Step(s, e);
      && (e.Acquire? ==> t.builds == s.builds[e.b := Build(Slot(e.ws, e.n), Opening)]
                         && t.c.held == s.c.held + {Slot(e.ws, e.n)} && t.c.evicting == s.c.evicting)
      && (e.Opened? ==> t.builds == s.builds[e.b := Build(s.builds[e.b].slot, Open)] && t.c == s.c
                        && t.disk == s.disk + {s.builds[e.b].slot})
      && (e.OpenFailed? || e.Release? ==> t.builds == s.builds - {e.b} && t.c.held == s.c.held - {s.builds[e.b].slot}
                                          && s.disk <= t.disk && t.c.evicting == s.c.evicting)
      && (e.EvictBegin? ==> t.c == s.c.(evicting := s.c.evicting + {e.ws}) && t.builds == s.builds)
      && (e.Remove? ==> t.disk == s.disk - {e.x} && t.c == s.c && t.builds == s.builds)
      && (e.EvictEnd? ==> t.c == s.c.(evicting := s.c.evicting - {e.ws}) && t.builds == s.builds)
      && t.passing == if e.PassBegin? then true else if e.PassEnd? then false else s.passing
  {
  }

  /** In every run no two builds hold one state, nothing is removed from a workspace while a build
      holds any of its states, and a build's open state stays on disk. */
  lemma {:induction false} BuildsAndRemovalsStayApart(es: seq<Event>, b: nat, b': nat, x: Slot)
    requires Legal(INIT, es)
    ensures var s := After(INIT, es);
      && (b in s.builds && b' in s.builds && s.builds[b].slot == s.builds[b'].slot ==> b == b')
      && (b in s.builds && Enabled(s, Remove(x)) ==> s.builds[b].slot.ws != x.ws)
      && (b in s.builds && s.builds[b].stage.Open? ==> s.builds[b].slot in s.disk)
  {
    EveryRunKeepsInv(INIT, es);
  }

  // ---- The order and the stopping point of an eviction pass ----

  datatype Measured = Measured(ws: Workspace, used: int, bytes: nat)

  predicate Before(x: Measured, y: Measured) { x.used < y.used || (x.used == y.used && x.ws <= y.ws) }

  ghost predicate Sorted(s: seq<Measured>) { forall i, j :: 0 <= i < j < |s| ==> Before(s[i], s[j]) }

  function Insert(x: Measured, s: seq<Measured>): seq<Measured> {
    if s == [] || Before(x, s[0]) then [x] + s else [s[0]] + Insert(x, s[1..])
  }

  function SortByUse(s: seq<Measured>): seq<Measured> {
    if s == [] then [] else Insert(s[0], SortByUse(s[1..]))
  }

  lemma {:induction false} SortedCons(x: Measured, s: seq<Measured>)
    requires Sorted(s) && forall y :: y in s ==> Before(x, y)
    ensures Sorted([x] + s)
  {
  }

  lemma {:induction false} InsertAdds(x: Measured, s: seq<Measured>, y: Measured)
    ensures y in Insert(x, s) <==> y == x || y in s
  {
    if s != [] && !Before(x, s[0]) {
      InsertAdds(x, s[1..], y);
    }
  }

  lemma {:induction false} InsertSorts(x: Measured, s: seq<Measured>)
    requires Sorted(s)
    ensures Sorted(Insert(x, s)) && multiset(Insert(x, s)) == multiset(s) + multiset{x}
  {
    if s == [] || Before(x, s[0]) {
      assert multiset([x] + s) == multiset(s) + multiset{x};
    } else {
      assert s == [s[0]] + s[1..];
      InsertSorts(x, s[1..]);
      var r := Insert(x, s[1..]);
      assert multiset([s[0]] + r) == multiset{s[0]} + multiset(r);
      forall y | y in r ensures Before(s[0], y) {
        InsertAdds(x, s[1..], y);
      }
      SortedCons(s[0], r);
    }
  }

  /** Least recently used first, ties by name, and the same workspaces. */
  lemma {:induction false} SortByUseSorts(s: seq<Measured>)
    ensures Sorted(SortByUse(s)) && multiset(SortByUse(s)) == multiset(s)
  {
    if s != [] {
      SortByUseSorts(s[1..]);
      InsertSorts(s[0], SortByUse(s[1..]));
      assert s == [s[0]] + s[1..];
    }
  }

  function Sum(ns: seq<nat>): nat {
    if ns == [] then 0 else Sum(ns[..|ns| - 1]) + ns[|ns| - 1]
  }

  lemma {:induction false} SumSplits(a: seq<nat>, b: seq<nat>)
    ensures Sum(a + b) == Sum(a) + Sum(b)
  {
    if b == [] {
      assert a + b == a;
    } else {
      SumSplits(a, b[..|b| - 1]);
      assert (a + b)[..|a + b| - 1] == a + b[..|b| - 1];
    }
  }

  lemma {:induction false} SumOneMore(a: seq<nat>, n: nat)
    ensures Sum([n]) == n && Sum(a + [n]) == Sum(a) + n
  {
    assert [n][..0] == [];
    SumSplits(a, [n]);
  }

  /** Replacing one number changes the sum by the difference. */
  lemma {:induction false} SumReplaces(a: seq<nat>, i: nat, n: nat)
    requires i < |a|
    ensures Sum(a[i := n]) + a[i] == Sum(a) + n
  {
    var b := a[i := n];
    assert a == a[..i] + ([a[i]] + a[i + 1..]) && b == a[..i] + ([n] + a[i + 1..]);
    SumSplits(a[..i], [a[i]] + a[i + 1..]);
    SumSplits(a[..i], [n] + a[i + 1..]);
    SumSplits([a[i]], a[i + 1..]);
    SumSplits([n], a[i + 1..]);
    SumOneMore([], n);
    SumOneMore([], a[i]);
  }

  /** What a pass did with a workspace it examined: removed it, found a build holding one of its
      states, or failed to remove it. */
  datatype Fate = Removed | Busy | Failed

  /** The bytes of each workspace, none for those removed. */
  function LeftBytes(s: seq<Measured>, fates: seq<Fate>): (r: seq<nat>)
    ensures |r| == |s|
    ensures forall i :: 0 <= i < |s| ==> r[i] == if i < |fates| && fates[i].Removed? then 0 else s[i].bytes
  {
    seq(|s|, i requires 0 <= i < |s| => if i < |fates| && fates[i].Removed? then 0 else s[i].bytes)
  }

  /** The bytes left once the first workspaces met their fates. */
  function Remaining(s: seq<Measured>, fates: seq<Fate>): nat
    requires |fates| <= |s|
  {
    Sum(LeftBytes(s, fates))
  }

  lemma {:induction false} RemovalFrees(s: seq<Measured>, fates: seq<Fate>, fate: Fate)
    requires |fates| < |s|
    ensures Remaining(s, fates + [fate]) == Remaining(s, fates) - if fate.Removed? then s[|fates|].bytes else 0
  {
    var left := LeftBytes(s, fates);
    if fate.Removed? {
      SumReplaces(left, |fates|, 0);
      assert LeftBytes(s, fates + [fate]) == left[|fates| := 0];
    } else {
      assert LeftBytes(s, fates + [fate]) == left;
    }
  }

  /** Each workspace met its fate while more than the limit was left. */
  ghost predicate OverLimitThroughout(s: seq<Measured>, fates: seq<Fate>, limit: nat)
    requires |fates| <= |s|
  {
    forall i :: 0 <= i < |fates| ==> Remaining(s, fates[..i]) > limit
  }

  lemma {:induction false} MeetFate(s: seq<Measured>, fates: seq<Fate>, fate: Fate, limit: nat)
    requires |fates| < |s| && OverLimitThroughout(s, fates, limit) && Remaining(s, fates) > limit
    ensures OverLimitThroughout(s, fates + [fate], limit)
    ensures Remaining(s, fates + [fate]) == Remaining(s, fates) - if fate.Removed? then s[|fates|].bytes else 0
  {
    RemovalFrees(s, fates, fate);
    var all := fates + [fate];
    assert all[..|fates|] == fates;
    forall i | 0 <= i < |all| ensures Remaining(s, all[..i]) > limit {
      assert i < |fates| ==> all[..i] == fates[..i];
    }
  }

  /** A workspace as the pass examined it, with what builds held at that moment. */
  datatype Exam = Exam(ws: Workspace, at: Shared)

  /** The pass examined the first workspaces in order, and left alone exactly those in use then. */
  ghost predicate Examined(order: seq<Measured>, fates: seq<Fate>, exams: seq<Exam>) {
    && |exams| == |fates| <= |order|
    && forall i :: 0 <= i < |fates| ==>
         exams[i].ws == order[i].ws && (fates[i].Busy? <==> InUse(exams[i].at, order[i].ws))
  }

  function RemovedOf(order: seq<Measured>, fates: seq<Fate>): seq<Workspace>
    requires |fates| <= |order|
  {
    if fates == [] then []
    else
      var n := |fates| - 1;
      RemovedOf(order, fates[..n]) + if fates[n].Removed? then [order[n].ws] else []
  }

  /** How far a pass has come: what it examined and removed, and the bytes left. */
  ghost predicate Passed(order: seq<Measured>, fates: seq<Fate>, exams: seq<Exam>, gone: seq<Workspace>,
      total: int, limit: nat) {
    && Examined(order, fates, exams) && gone == RemovedOf(order, fates)
    && total == Remaining(order, fates) && OverLimitThroughout(order, fates, limit)
  }

  lemma {:induction false} PassOneMore(order: seq<Measured>, fates: seq<Fate>, exams: seq<Exam>, gone: seq<Workspace>,
                                       total: int, limit: nat, fate: Fate, at: Shared)
    requires Passed(order, fates, exams, gone, total, limit) && |fates| < |order| && total > limit
    requires fate.Busy? <==> InUse(at, order[|fates|].ws)
    ensures var m := order[|fates|];
      Passed(order, fates + [fate], exams + [Exam(m.ws, at)], gone + (if fate.Removed? then [m.ws] else []),
             total - (if fate.Removed? then m.bytes else 0), limit)
  {
    MeetFate(order, fates, fate, limit);
    assert (fates + [fate])[..|fates|] == fates;
  }

  /** A pass that was not cancelled and met no failure ends within the limit, or with every workspace
      that is left in use when it was examined; and everything used less recently than a workspace it
      removed was removed or in use. */
  lemma {:induction false} PassIsThorough(order: seq<Measured>, fates: seq<Fate>, exams: seq<Exam>, limit: nat)
    requires Sorted(order) && Examined(order, fates, exams) && Failed !in fates
    requires Remaining(order, fates) <= limit || |fates| == |order|
    ensures Remaining(order, fates) <= limit
         || forall i :: 0 <= i < |order| ==> i < |fates| && (fates[i].Removed? || InUse(exams[i].at, order[i].ws))
    ensures forall i, j :: 0 <= i < |fates| && 0 <= j < |order| && order[j].used < order[i].used ==>
         j < |fates| && (fates[j].Removed? || InUse(exams[j].at, order[j].ws))
  {
    forall i | 0 <= i < |fates| ensures fates[i].Removed? || InUse(exams[i].at, order[i].ws) {
      assert fates[i] in fates;
    }
  }

  // ---- The sizes a pass works from ----

  /** What one look at a state under the mutex found: its size on record and whether a build holds it. */
  datatype Glance = Glance(state: Slot, known: Option<nat>, held: bool)

  /** A size put on record. */
  datatype Entry = Entry(state: Slot, bytes: nat)

  function GlanceAt(sizes: map<Slot, nat>, held: set<Slot>, x: Slot): Glance {
    Glance(x, if x in sizes then Some(sizes[x]) else None, x in held)
  }

  /** The pass walks the trees of states it found unmeasured and unheld. */
  predicate Walks(g: Glance) { g.known.None? && !g.held }

  /** The sizes a pass puts on record: those of the trees it walked. */
  function Entries(gs: seq<Glance>, found: seq<nat>): seq<Entry>
    requires |found| == |gs|
  {
    if gs == [] then []
    else
      var n := |gs| - 1;
      Entries(gs[..n], found[..n]) + if Walks(gs[n]) then [Entry(gs[n].state, found[n])] else []
  }

  ghost predicate OfStates(gs: seq<Glance>, states: seq<Slot>) {
    |gs| <= |states| && forall i :: 0 <= i < |gs| ==> gs[i].state == states[i]
  }

  /** What each state counts: its size on record, nothing if a build held it unmeasured, else what the
      walk found. */
  ghost predicate CountsAsSeen(gs: seq<Glance>, counts: seq<nat>) {
    && |counts| <= |gs|
    && (forall i :: 0 <= i < |counts| && gs[i].known.Some? ==> counts[i] == gs[i].known.value)
    && (forall i :: 0 <= i < |counts| && gs[i].known.None? && gs[i].held ==> counts[i] == 0)
  }

  /** How far measuring a workspace has come. */
  ghost predicate Measuring(states: seq<Slot>, gs: seq<Glance>, counts: seq<nat>, sum: nat, notes: seq<Entry>) {
    && |counts| == |gs| && OfStates(gs, states) && CountsAsSeen(gs, counts)
    && sum == Sum(counts) && notes == Entries(gs, counts)
  }

  lemma {:induction false} MeasureOneMore(states: seq<Slot>, gs: seq<Glance>, counts: seq<nat>, sum: nat,
                                          notes: seq<Entry>, g: Glance, n: nat)
    requires Measuring(states, gs, counts, sum, notes) && |gs| < |states| && g.state == states[|gs|]
    requires (g.known.Some? ==> n == g.known.value) && (g.known.None? && g.held ==> n == 0)
    ensures Measuring(states, gs + [g], counts + [n], sum + n,
                      notes + if g.known.None? && !g.held then [Entry(g.state, n)] else [])
  {
    SumOneMore(counts, n);
    assert (gs + [g])[..|gs|] == gs && (counts + [n])[..|gs|] == counts;
  }

  /** When no build takes or gives back a state meanwhile, a workspace counts what is on record, and
      the trees of the rest that nobody holds. */
  lemma {:induction false} UndisturbedCounts(gs: seq<Glance>, counts: seq<nat>, states: seq<Slot>,
                                             sizes: map<Slot, nat>, held: set<Slot>, tree: Slot -> nat)
    requires |gs| == |counts| == |states| && CountsAsSeen(gs, counts)
    requires forall i :: 0 <= i < |gs| ==> gs[i] == GlanceAt(sizes, held, states[i])
    requires forall i :: 0 <= i < |gs| && Walks(gs[i]) ==> counts[i] == tree(states[i])
    ensures forall i :: 0 <= i < |states| ==>
      counts[i] == if states[i] in sizes then sizes[states[i]] else if states[i] in held then 0 else tree(states[i])
  {
  }

  // ---- The object ----

  /** The caches. Hold, Drop, TryEvict, Gone, Look and Note are each one section under the mutex;
      `examined`, `removed`, `looked` and `noted` record what passes did. */
  class BuildCaches {
    var held: set<Slot>
    var evicting: set<Workspace>
    var sizes: map<Slot, nat>
    ghost var examined: seq<Exam>
    ghost var removed: seq<Workspace>
    ghost var looked: seq<Glance>
    ghost var noted: seq<Entry>

    ghost function Model(): Shared
      reads this
    {
      Shared(held, evicting)
    }

    constructor ()
      ensures Model() == INIT.c && sizes == map[] && examined == [] && removed == [] && looked == [] && noted == []
    {
      held, evicting, sizes, examined, removed, looked, noted := {}, {}, map[], [], [], [], [];
    }

    /** acquire's section, once the workspace is not being removed. */
    method Hold(ws: Workspace) returns (n: nat)
      requires ws !in evicting
      modifies this`held
      ensures Slot(ws, n) !in old(held) && (forall i :: 0 <= i < n ==> Slot(ws, i) in old(held)) && n <= |old(held)|
      ensures Model() == old(Model()).(held := old(held) + {Slot(ws, n)})
    {
      n := 0;
      LowestFreeIsFew(held, ws, 0);
      while Slot(ws, n) in held
        invariant forall i :: 0 <= i < n ==> Slot(ws, i) in held
        invariant n <= |held| && Model() == old(Model())
        decreases |held| - n
      {
        LowestFreeIsFew(held, ws, n + 1);
        n := n + 1;
      }
      held := held + {Slot(ws, n)};
    }

    /** release: the state is free, and its size is no longer known. */
    method Drop(x: Slot)
      modifies this`held, this`sizes
      ensures Model() == old(Model()).(held := old(held) - {x}) && sizes == old(sizes) - {x}
    {
      held, sizes := held - {x}, sizes - {x};
    }

    /** evict's section for one workspace: marks it unless a build holds a state of it. */
    method TryEvict(ws: Workspace) returns (busy: bool)
      modifies this`evicting, this`examined
      ensures busy <==> InUse(old(Model()), ws)
      ensures Model() == if busy then old(Model()) else old(Model()).(evicting := old(evicting) + {ws})
      ensures examined == old(examined) + [Exam(ws, old(Model()))]
    {
      busy := false;
      var rest := held;
      while rest != {}
        invariant rest <= held
        invariant busy <==> exists x :: x in held && x !in rest && x.ws == ws
        decreases |rest|
      {
        var x :| x in rest;
        busy := busy || x.ws == ws;
        rest := rest - {x};
      }
      examined := examined + [Exam(ws, Model())];
      if !busy {
        evicting := evicting + {ws};
      }
    }

    /** The directory's removal, which nothing may hold a state of meanwhile. */
    method RemoveAll(ws: Workspace) returns (ok: bool)
      requires ws in evicting && !InUse(Model(), ws)
      modifies this`removed
      ensures removed == old(removed) + if ok then [ws] else []
    {
      ok := *;
      if ok {
        removed := removed + [ws];
      }
    }

    method Gone(ws: Workspace)
      modifies this`evicting, this`sizes
      ensures Model() == old(Model()).(evicting := old(evicting) - {ws})
      ensures sizes == map x | x in old(sizes) && x.ws != ws :: old(sizes)[x]
    {
      evicting := evicting - {ws};
      sizes := map x | x in sizes && x.ws != ws :: sizes[x];
    }

    /** Between two sections of a pass builds take and give back states, none of a marked workspace. */
    method Others()
      modifies this`held, this`sizes
      ensures forall x :: x in held && x.ws in evicting ==> x in old(held)
    {
      var steps: int := *;
      while steps > 0
        invariant evicting == old(evicting) && forall x :: x in held && x.ws in evicting ==> x in old(held)
      {
        var gives: bool, x: Slot, ws: Workspace := *, *, *;
        if gives {
          Drop(x);
        } else if ws !in evicting {
          var n := Hold(ws);
        }
        steps := steps - 1;
      }
    }

    /** Marks a workspace, removes it and unmarks it, unless a build holds one of its states. */
    method EvictOne(ws: Workspace) returns (fate: Fate, ghost at: Shared)
      requires evicting == {}
      modifies this
      ensures evicting == {} && examined == old(examined) + [Exam(ws, at)]
      ensures fate.Busy? <==> InUse(at, ws)
      ensures removed == old(removed) + if fate.Removed? then [ws] else []
    {
      Others();
      at := Model();
      var busy := TryEvict(ws);
      if busy {
        return Busy, at;
      }
      Others();
      var ok := RemoveAll(ws);
      Others();
      Gone(ws);
      return if ok then Removed else Failed, at;
    }

    /** An eviction pass over the measured workspaces, with builds coming and going between any two of
        its sections; one pass runs at a time. Any removal may fail, and the pass may be cancelled. */
    method Evict(measured: seq<Measured>, limit: nat)
      returns (order: seq<Measured>, fates: seq<Fate>, cancelled: bool)
      requires evicting == {}
      modifies this
      ensures evicting == {}
      ensures Sorted(order) && multiset(order) == multiset(measured)
      ensures old(examined) <= examined && Examined(order, fates, examined[|old(examined)|..])
      ensures removed == old(removed) + RemovedOf(order, fates)
      ensures OverLimitThroughout(order, fates, limit)
      ensures !cancelled ==> Remaining(order, fates) <= limit || |fates| == |order|
      ensures cancelled ==> |fates| < |order| && Remaining(order, fates) > limit
    {
      SortByUseSorts(measured);
      order := SortByUse(measured);
      var total := TotalBytes(order);
      ghost var exams, gone;
      fates, total, cancelled, exams, gone := Examine(order, total, limit);
      assert examined[|old(examined)|..] == exams;
    }

    /** The pass's loop over the workspaces in order. */
    method Examine(order: seq<Measured>, sum: int, limit: nat)
      returns (fates: seq<Fate>, total: int, cancelled: bool, ghost exams: seq<Exam>, ghost gone: seq<Workspace>)
      requires evicting == {} && sum == Remaining(order, [])
      modifies this
      ensures evicting == {} && Passed(order, fates, exams, gone, total, limit)
      ensures examined == old(examined) + exams && removed == old(removed) + gone
      ensures !cancelled ==> total <= limit || |fates| == |order|
      ensures cancelled ==> |fates| < |order| && total > limit
    {
      fates, total, cancelled, exams, gone := [], sum, false, [], [];
      for i := 0 to |order|
        invariant evicting == {} && |fates| == i && Passed(order, fates, exams, gone, total, limit)
        invariant examined == old(examined) + exams && removed == old(removed) + gone
      {
        if total <= limit {
          return;
        }
        if * {
          cancelled := true;
          return;
        }
        var fate, at := EvictOne(order[i].ws);
        PassOneMore(order, fates, exams, gone, total, limit, fate, at);
        fates, exams := fates + [fate], exams + [Exam(order[i].ws, at)];
        gone := gone + if fate.Removed? then [order[i].ws] else [];
        total := total - if fate.Removed? then order[i].bytes else 0;
      }
    }

    /** measure's first section for a state. */
    method Look(x: Slot) returns (g: Glance)
      modifies this`looked
      ensures g == GlanceAt(sizes, held, x) && looked == old(looked) + [g]
      ensures g.state == x && g.held == (x in held)
      ensures (g.known.Some? <==> x in sizes) && (x in sizes ==> g.known.value == sizes[x])
    {
      g := Glance(x, if x in sizes then Some(sizes[x]) else None, x in held);
      looked := looked + [g];
    }

    /** measure's second section for a state whose tree it walked. */
    method Note(x: Slot, bytes: nat)
      modifies this`sizes, this`noted
      ensures sizes == old(sizes)[x := bytes] && noted == old(noted) + [Entry(x, bytes)]
    {
      sizes := sizes[x := bytes];
      noted := noted + [Entry(x, bytes)];
    }

    /** measure for one workspace, with builds coming and going between any two of its sections and
        during its walks; a walk may find anything, or fail and end it. */
    method MeasureOne(states: seq<Slot>) returns (bytes: Option<nat>, ghost gs: seq<Glance>, ghost counts: seq<nat>)
      modifies this
      ensures evicting == old(evicting) && examined == old(examined) && removed == old(removed)
      ensures |counts| <= |gs| <= |counts| + 1 && OfStates(gs, states) && looked == old(looked) + gs
      ensures CountsAsSeen(gs, counts) && noted == old(noted) + Entries(gs[..|counts|], counts)
      ensures bytes.Some? ==> |counts| == |gs| == |states| && bytes.value == Sum(counts)
      ensures bytes.None? ==> |gs| == |counts| + 1 && gs[|counts|].known.None? && !gs[|counts|].held
    {
      var sum: nat := 0;
      ghost var notes: seq<Entry> := [];
      gs, counts := [], [];
      for i := 0 to |states|
        invariant evicting == old(evicting) && examined == old(examined) && removed == old(removed)
        invariant |gs| == i && Measuring(states, gs, counts, sum, notes)
        invariant looked == old(looked) + gs && noted == old(noted) + notes
      {
        var size, g := MeasureState(states[i]);
        if size.None? {
          assert (gs + [g])[..|counts|] == gs;
          return None, gs + [g], counts;
        }
        MeasureOneMore(states, gs, counts, sum, notes, g, size.value);
        sum := sum + size.value;
        notes := notes + if g.known.None? && !g.held then [Entry(g.state, size.value)] else [];
        gs, counts := gs + [g], counts + [size.value];
      }
      assert gs[..|counts|] == gs;
      return Some(sum), gs, counts;
    }

    /** measure for one state: what it looked like, and what it counts. */
    method MeasureState(x: Slot) returns (size: Option<nat>, ghost g: Glance)
      modifies this
      ensures evicting == old(evicting) && examined == old(examined) && removed == old(removed)
      ensures g.state == x && looked == old(looked) + [g]
      ensures g.known.Some? ==> size == g.known && noted == old(noted)
      ensures g.known.None? && g.held ==> size == Some(0) && noted == old(noted)
      ensures g.known.None? && !g.held ==> noted == old(noted) + if size.Some? then [Entry(x, size.value)] else []
    {
      Others();
      var look := Look(x);
      g := look;
      Others();
      if !Walks(look) {
        return if look.known.Some? then look.known else Some(0), g;
      }
      size := *;
      if size.Some? {
        Note(x, size.value);
      }
    }
  }

  method TotalBytes(s: seq<Measured>) returns (total: nat)
    ensures total == Remaining(s, [])
    ensures total == Sum(seq(|s|, i requires 0 <= i < |s| => s[i].bytes))
  {
    total := 0;
    var each: seq<nat> := [];
    for i := 0 to |s|
      invariant |each| == i && total == Sum(each)
      invariant forall k :: 0 <= k < i ==> each[k] == s[k].bytes
    {
      SumOneMore(each, s[i].bytes);
      total, each := total + s[i].bytes, each + [s[i].bytes];
    }
    assert each == seq(|s|, i requires 0 <= i < |s| => s[i].bytes) == LeftBytes(s, []);
  }

  // ---- One state's size while builds come and go ----

  /** Where the pass is with the state: not at it; walking its tree, with whether a build took the
      state since the pass looked; or about to note what the walk found. */
  datatype Walk = Away | Walking(taken: bool) | Walked(bytes: nat)

  /** `resized` says that a build had the state since the pass looked, and that the walk did not find
      the size the last such build left; `removing` that the pass marked the workspace for removal. */
  datatype Sizing = Sizing(held: bool, actual: nat, known: Option<nat>, walk: Walk, resized: bool, removing: bool)

  const EMPTY_STATE := Sizing(false, 0, None, Away, false, false)

  datatype SizeEvent =
    | TakeState | Grow(bytes: nat) | GiveState
    | Look | WalkTree(found: nat) | Note
    | MarkForRemoval | RemoveTree(left: nat) | Unmark

  predicate SizeEnabled(s: Sizing, e: SizeEvent) {
    match e
    case TakeState => !s.held && !s.removing
    case Grow(_) => s.held
    case GiveState => s.held
    case Look => s.walk.Away? && s.known.None? && !s.held && !s.removing
    // Files change under a walk that a build overlaps, which may find a size the tree never had.
    case WalkTree(found) => s.walk.Walking? && (s.walk.taken || found == s.actual)
    case Note => s.walk.Walked?
    // The pass that measures is the one that removes.
    case MarkForRemoval => s.walk.Away? && !s.held && !s.removing
    case RemoveTree(_) => s.removing
    case Unmark => s.removing
  }

  function SizeStep(s: Sizing, e: SizeEvent): Sizing
    requires SizeEnabled(s, e)
  {
    match e
    case TakeState => s.(held := true, walk := if s.walk.Walking? then Walking(true) else s.walk)
    case Grow(bytes) => s.(actual := bytes)
    case GiveState => s.(held := false, known := None, resized := s.walk.Walked? && s.walk.bytes != s.actual)
    case Look => s.(walk := Walking(false))
    case WalkTree(found) => s.(walk := Walked(found), resized := s.walk.taken && found != s.actual)
    case Note => s.(walk := Away, known := Some(s.walk.bytes))
    case MarkForRemoval => s.(removing := true)
    case RemoveTree(left) => s.(actual := left)
    case Unmark => s.(removing := false, known := None)
  }

  /** A state no build holds and no pass is removing has the size on record, if there is one. */
  predicate Accurate(s: Sizing) { !s.held && !s.removing && s.known.Some? ==> s.known.value == s.actual }

  ghost predicate WalkFits(s: Sizing) {
    && (s.walk.Walked? && !s.held ==> (s.resized <==> s.walk.bytes != s.actual))
    && (s.removing ==> s.walk.Away? && !s.held)
  }

  /** The pass notes a size of a state that a build had since the pass looked, other than the size the
      build left it at. */
  predicate NotesStale(s: Sizing, e: SizeEvent) { e.Note? && !s.held && s.resized }

  lemma {:induction false} SizeStepExactly(s: Sizing, e: SizeEvent)
    requires SizeEnabled(s, e) && WalkFits(s) && Accurate(s)
    ensures WalkFits(SizeStep(s, e))
    ensures Accurate(SizeStep(s, e)) <==> !NotesStale(s, e)
  {
  }

  /** A removal keeps builds off, may leave anything of the tree, and forgets the size. */
  lemma {:induction false} RemovalForgets(s: Sizing, left: nat)
    requires WalkFits(s) && s.walk.Away? && !s.held && !s.removing
    ensures var t := SizeStep(s, MarkForRemoval);
      && !SizeEnabled(t, TakeState) && !SizeEnabled(t, Look)
      && SizeStep(SizeStep(t, RemoveTree(left)), Unmark) == s.(actual := left, known := None)
  {
  }

  ghost predicate SizeLegal(s: Sizing, es: seq<SizeEvent>)
    decreases |es|
  {
    es == [] || (SizeEnabled(s, es[0]) && SizeLegal(SizeStep(s, es[0]), es[1..]))
  }

  ghost predicate AccurateThroughout(s: Sizing, es: seq<SizeEvent>)
    requires SizeLegal(s, es)
    decreases |es|
  {
    Accurate(s) && (es == [] || AccurateThroughout(SizeStep(s, es[0]), es[1..]))
  }

  ghost predicate EverNotesStale(s: Sizing, es: seq<SizeEvent>)
    requires SizeLegal(s, es)
    decreases |es|
  {
    es != [] && (NotesStale(s, es[0]) || EverNotesStale(SizeStep(s, es[0]), es[1..]))
  }

  lemma {:induction false} AccurateExactlyFrom(s: Sizing, es: seq<SizeEvent>)
    requires SizeLegal(s, es) && WalkFits(s) && Accurate(s)
    ensures AccurateThroughout(s, es) <==> !EverNotesStale(s, es)
    decreases |es|
  {
    if es != [] {
      SizeStepExactly(s, es[0]);
      if Accurate(SizeStep(s, es[0])) {
        AccurateExactlyFrom(SizeStep(s, es[0]), es[1..]);
      }
    }
  }

  /** In every run of builds, measuring and removals, the recorded sizes of states in nobody's hands are
      right exactly while no pass notes a size other than the one a build left since the pass looked. */
  lemma {:induction false} SizesAreAccurateExactly(es: seq<SizeEvent>)
    requires SizeLegal(EMPTY_STATE, es)
    ensures AccurateThroughout(EMPTY_STATE, es) <==> !EverNotesStale(EMPTY_STATE, es)
  {
    AccurateExactlyFrom(EMPTY_STATE, es);
  }

  /** A build has the state between the walk and the note, or during the walk. */
  const AFTER_WALK := [Look, WalkTree(0), TakeState, Grow(1), GiveState, Note]
  const DURING_WALK := [Look, TakeState, Grow(2), GiveState, WalkTree(1), Note]

  /** Either leaves a size on record that is wrong until another build gives the state back or the
      workspace is removed; the second is one the tree never had. */
  lemma {:induction false} StaleNoteIsKept()
    ensures SizeLegal(EMPTY_STATE, AFTER_WALK) && !AccurateThroughout(EMPTY_STATE, AFTER_WALK)
    ensures SizeLegal(EMPTY_STATE, DURING_WALK) && !AccurateThroughout(EMPTY_STATE, DURING_WALK)
  {
    var s1 := SizeStep(EMPTY_STATE, Look);
    var a2 := SizeStep(s1, AFTER_WALK[1]);
    var a3 := SizeStep(a2, AFTER_WALK[2]);
    var a4 := SizeStep(a3, AFTER_WALK[3]);
    var a5 := SizeStep(a4, AFTER_WALK[4]);
    assert !Accurate(SizeStep(a5, Note));
    PlaySizes(s1, a2, a3, a4, a5, AFTER_WALK);
    var b2 := SizeStep(s1, DURING_WALK[1]);
    var b3 := SizeStep(b2, DURING_WALK[2]);
    var b4 := SizeStep(b3, DURING_WALK[3]);
    var b5 := SizeStep(b4, DURING_WALK[4]);
    assert !Accurate(SizeStep(b5, Note));
    PlaySizes(s1, b2, b3, b4, b5, DURING_WALK);
  }

  /** A run of six steps through these states that ends inaccurate. */
  lemma {:induction false} PlaySizes(s1: Sizing, s2: Sizing, s3: Sizing, s4: Sizing, s5: Sizing, es: seq<SizeEvent>)
    requires |es| == 6
    requires SizeEnabled(EMPTY_STATE, es[0]) && s1 == SizeStep(EMPTY_STATE, es[0])
    requires SizeEnabled(s1, es[1]) && s2 == SizeStep(s1, es[1])
    requires SizeEnabled(s2, es[2]) && s3 == SizeStep(s2, es[2])
    requires SizeEnabled(s3, es[3]) && s4 == SizeStep(s3, es[3])
    requires SizeEnabled(s4, es[4]) && s5 == SizeStep(s4, es[4])
    requires SizeEnabled(s5, es[5]) && !Accurate(SizeStep(s5, es[5]))
    ensures SizeLegal(EMPTY_STATE, es) && !AccurateThroughout(EMPTY_STATE, es)
  {
    SizeFirst(s5, es[5..]);
    SizeFirst(s4, es[4..]);
    SizeFirst(s3, es[3..]);
    SizeFirst(s2, es[2..]);
    SizeFirst(s1, es[1..]);
    SizeFirst(EMPTY_STATE, es);
  }

  lemma {:induction false} SizeFirst(s: Sizing, es: seq<SizeEvent>)
    requires es != [] && SizeEnabled(s, es[0]) && SizeLegal(SizeStep(s, es[0]), es[1..])
    ensures SizeLegal(s, es)
    ensures !AccurateThroughout(SizeStep(s, es[0]), es[1..]) ==> !AccurateThroughout(s, es)
  {
  }
}
