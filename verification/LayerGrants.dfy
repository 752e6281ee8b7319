/** Layer grants on their way to the snapshotter, and the starts that share layers
    (internal/agent/layers.go). */
module LayerGrants {

  type Layer = string

  /** A grant of one layer; `source` stands for everything else it carries. */
  datatype Grant = Grant(layer: Layer, expires: int, source: string)

  type Pending = map<Layer, Grant>

  // ---- The merge ----

  /** What one queued grant does to the pending ones. */
  function Offered(p: Pending, g: Grant): Pending {
    if g.layer !in p || g.expires > p[g.layer].expires then p[g.layer := g] else p
  }

  function Unexpired(gs: seq<Grant>, now: int): seq<Grant> {
    if gs == [] then []
    else
      var init := Unexpired(gs[..|gs| - 1], now);
      if gs[|gs| - 1].expires > now then init + [gs[|gs| - 1]] else init
  }

  function Merged(p: Pending, gs: seq<Grant>): Pending {
    if gs == [] then p else Offered(Merged(p, gs[..|gs| - 1]), gs[|gs| - 1])
  }

  /** The section `queue` runs under the mutex. */
  function Queued(p: Pending, gs: seq<Grant>, now: int): Pending { Merged(p, Unexpired(gs, now)) }

  lemma {:induction false} UnexpiredAre(gs: seq<Grant>, now: int)
    ensures forall g :: g in Unexpired(gs, now) <==> g in gs && g.expires > now
  {
    if gs != [] {
      UnexpiredAre(gs[..|gs| - 1], now);
      assert gs == gs[..|gs| - 1] + [gs[|gs| - 1]];
    }
  }

  lemma {:induction false} MergedTwice(p: Pending, a: seq<Grant>, b: seq<Grant>)
    ensures Merged(Merged(p, a), b) == Merged(p, a + b)
    decreases |b|
  {
    if b == [] {
      assert a + b == a;
    } else {
      MergedTwice(p, a, b[..|b| - 1]);
      assert (a + b)[..|a + b| - 1] == a + b[..|b| - 1];
    }
  }

  /** g is the first of the latest-expiring grants of its layer among gs. */
  ghost predicate IsLatest(gs: seq<Grant>, g: Grant, i: nat) {
    && i < |gs| && gs[i] == g
    && (forall j :: 0 <= j < |gs| && gs[j].layer == g.layer ==> gs[j].expires <= g.expires)
    && (forall j :: 0 <= j < i && gs[j].layer == g.layer ==> gs[j].expires < g.expires)
  }

  ghost predicate HasLayer(gs: seq<Grant>, layer: Layer) { exists j :: 0 <= j < |gs| && gs[j].layer == layer }

  /** The pending map is the latest-expiry merge of gs: one grant for every layer named, the first
      of those expiring last. */
  ghost predicate IsMerge(p: Pending, gs: seq<Grant>) {
    && (forall layer :: layer in p <==> HasLayer(gs, layer))
    && (forall layer :: layer in p ==> p[layer].layer == layer && exists i: nat :: IsLatest(gs, p[layer], i))
  }

  lemma {:induction false} OfferedKeepsLayers(p: Pending, gs: seq<Grant>, g: Grant)
    requires forall layer :: layer in p <==> HasLayer(gs, layer)
    ensures forall layer :: layer in Offered(p, g) <==> HasLayer(gs + [g], layer)
  {
    var hs := gs + [g];
    forall layer ensures HasLayer(hs, layer) <==> HasLayer(gs, layer) || layer == g.layer {
      if HasLayer(gs, layer) {
        var j :| 0 <= j < |gs| && gs[j].layer == layer;
        assert hs[j].layer == layer;
      }
      assert hs[|gs|] == g;
      if HasLayer(hs, layer) {
        var j :| 0 <= j < |hs| && hs[j].layer == layer;
        assert j < |gs| ==> gs[j].layer == layer;
      }
    }
  }

  lemma {:induction false} OfferedKeepsMerge(p: Pending, gs: seq<Grant>, g: Grant)
    requires IsMerge(p, gs)
    ensures IsMerge(Offered(p, g), gs + [g])
  {
    var q, hs := Offered(p, g), gs + [g];
    OfferedKeepsLayers(p, gs, g);
    forall layer | layer in q ensures q[layer].layer == layer && exists i: nat :: IsLatest(hs, q[layer], i) {
      if layer in p && q[layer] == p[layer] {
        var i: nat :| IsLatest(gs, p[layer], i);
        assert IsLatest(hs, q[layer], i);
      } else {
        if g.layer in p {
          var i: nat :| IsLatest(gs, p[g.layer], i);
        }
        assert forall j :: 0 <= j < |gs| && gs[j].layer == g.layer ==> HasLayer(gs, g.layer);
        assert IsLatest(hs, g, |gs|);
      }
    }
  }

  /** Everything queued since pending was last empty is merged by latest expiry. */
  lemma {:induction false} PendingIsTheMerge(gs: seq<Grant>)
    ensures IsMerge(Merged(map[], gs), gs)
  {
    if gs != [] {
      PendingIsTheMerge(gs[..|gs| - 1]);
      OfferedKeepsMerge(Merged(map[], gs[..|gs| - 1]), gs[..|gs| - 1], gs[|gs| - 1]);
      assert gs == gs[..|gs| - 1] + [gs[|gs| - 1]];
    }
  }

  /** The merge determines the pending grants: nothing else satisfies it. */
  lemma {:induction false} MergeIsUnique(p: Pending, q: Pending, gs: seq<Grant>)
    requires IsMerge(p, gs) && IsMerge(q, gs)
    ensures p == q
  {
    forall layer | layer in p ensures layer in q && p[layer] == q[layer] {
      assert HasLayer(gs, layer);
      var i: nat :| IsLatest(gs, p[layer], i);
      var j: nat :| IsLatest(gs, q[layer], j);
    }
    assert forall layer :: layer in q ==> HasLayer(gs, layer);
  }

  /** Queueing order is immaterial: the same grants in any order leave the same layers pending,
      each with the same expiry. */
  lemma {:induction false} OrderIsImmaterial(a: seq<Grant>, b: seq<Grant>)
    requires forall g :: g in a <==> g in b
    ensures Merged(map[], a).Keys == Merged(map[], b).Keys
    ensures forall layer :: layer in Merged(map[], a) ==>
        Merged(map[], a)[layer].expires == Merged(map[], b)[layer].expires
  {
    var p, q := Merged(map[], a), Merged(map[], b);
    PendingIsTheMerge(a);
    PendingIsTheMerge(b);
    NoLater(a, b, p, q);
    NoLater(b, a, q, p);
  }

  /** Fewer grants leave no other layers pending, and none of them for longer. */
  lemma {:induction false} NoLater(a: seq<Grant>, b: seq<Grant>, p: Pending, q: Pending)
    requires IsMerge(p, a) && IsMerge(q, b) && forall g :: g in a ==> g in b
    ensures forall layer :: layer in p ==> layer in q && p[layer].expires <= q[layer].expires
  {
    forall layer | layer in p ensures layer in q && p[layer].expires <= q[layer].expires {
      var i: nat :| IsLatest(a, p[layer], i);
      assert a[i] in b;
      var k :| 0 <= k < |b| && b[k] == a[i];
      assert HasLayer(b, layer);
      var j: nat :| IsLatest(b, q[layer], j);
    }
  }

  // ---- Coverage ----

  ghost predicate Covers(h: Grant, g: Grant) { h.layer == g.layer && h.expires >= g.expires }

  ghost predicate CoveredBy(g: Grant, hs: seq<Grant>) { exists j :: 0 <= j < |hs| && Covers(hs[j], g) }

  ghost predicate CoveredIn(g: Grant, p: Pending) { g.layer in p && Covers(p[g.layer], g) }

  ghost predicate KeyedByLayer(p: Pending) { forall layer :: layer in p ==> p[layer].layer == layer }

  /** Queueing covers every unexpired grant and never displaces a later one. */
  lemma {:induction false} MergedCovers(p: Pending, gs: seq<Grant>)
    requires KeyedByLayer(p)
    ensures KeyedByLayer(Merged(p, gs))
    ensures forall layer :: layer in p ==> layer in Merged(p, gs) && Merged(p, gs)[layer].expires >= p[layer].expires
    ensures forall g :: g in gs ==> CoveredIn(g, Merged(p, gs))
    ensures forall layer :: layer in Merged(p, gs) ==>
        (layer in p && Merged(p, gs)[layer] == p[layer]) || Merged(p, gs)[layer] in gs
  {
    if gs != [] {
      MergedCovers(p, gs[..|gs| - 1]);
      assert gs == gs[..|gs| - 1] + [gs[|gs| - 1]];
    }
  }

  // ---- The refresh loop against every interleaving of refreshes ----

  datatype Phase = Parked | Taking | Handing(grants: seq<Grant>) | BackingOff | Ended

  /** `signalling` counts refreshes that queued and have yet to signal; `queued` and `handed` are
      the histories of unexpired grants refreshed and of grants the snapshotter accepted, and `since`
      that of grants refreshed or queued again, unexpired, since the last take. */
  datatype State = State(pending: Pending, phase: Phase, wake: bool, signalling: nat, now: int,
                         queued: seq<Grant>, handed: seq<Grant>, since: seq<Grant>)

  function Init(now: int): State { State(map[], Parked, false, 0, now, [], [], []) }

  datatype Event =
    | Queue(grants: seq<Grant>) | Signal | Tick(now: int)
    | Wake | Take(listed: seq<Grant>) | HandOk | HandFail | Retry | End

  /** The values of the pending map in some order, as ranging over it yields them. */
  ghost predicate Lists(gs: seq<Grant>, p: Pending) {
    && (forall i, j :: 0 <= i < j < |gs| ==> gs[i] != gs[j])
    && (forall g :: g in gs <==> g.layer in p && p[g.layer] == g)
  }

  ghost predicate Enabled(s: State, e: Event) {
    match e
    case Queue(_) => true
    case Signal => s.signalling > 0
    case Tick(now) => now >= s.now
    case Wake => s.phase.Parked? && s.wake
    case Take(gs) => s.phase.Taking? && Lists(gs, s.pending)
    case HandOk => s.phase.Handing?
    case HandFail => s.phase.Handing?
    case Retry => s.phase.BackingOff?
    case End => true
  }

  ghost function Step(s: State, e: Event): State
    requires Enabled(s, e)
  {
    match e
    case Queue(gs) =>
      s.(pending := Queued(s.pending, gs, s.now), signalling := s.signalling + 1,
         queued := s.queued + Unexpired(gs, s.now), since := s.since + Unexpired(gs, s.now))
    case Signal => s.(wake := true, signalling := s.signalling - 1)
    case Tick(now) => s.(now := now)
    case Wake => s.(phase := Taking, wake := false)
    case Take(gs) => s.(pending := map[], since := [], phase := if gs == [] then Parked else Handing(gs))
    case HandOk => s.(phase := Taking, handed := s.handed + s.phase.grants)
    case HandFail =>
      s.(pending := Queued(s.pending, s.phase.grants, s.now), phase := BackingOff,
         since := s.since + Unexpired(s.phase.grants, s.now))
    case Retry => s.(phase := Taking)
    case End => s.(phase := Ended)
  }

  /** The grants the loop took and has not heard about. */
  function InFlight(s: State): seq<Grant> { if s.phase.Handing? then s.phase.grants else [] }

  ghost predicate Kept(s: State, g: Grant) {
    g.expires <= s.now || CoveredIn(g, s.pending) || CoveredBy(g, InFlight(s)) || CoveredBy(g, s.handed)
  }

  ghost predicate Inv(s: State) {
    && KeyedByLayer(s.pending)
    && (!s.phase.Ended? ==> forall g :: g in s.queued ==> Kept(s, g))
    && (forall layer :: layer in s.pending ==> s.pending[layer] in s.queued)
    && (forall g :: g in InFlight(s) || g in s.handed ==> g in s.queued)
    && (s.phase.Parked? && s.pending != map[] ==> s.wake || s.signalling > 0)
  }

  lemma {:induction false} CoverTransfers(g: Grant, hs: seq<Grant>, ks: seq<Grant>)
    requires CoveredBy(g, hs) && forall h :: h in hs ==> h in ks
    ensures CoveredBy(g, ks)
  {
    var j :| 0 <= j < |hs| && Covers(hs[j], g);
    assert hs[j] in ks;
  }

  lemma {:induction false} QueueKeepsInv(s: State, gs: seq<Grant>)
    requires Inv(s)
    ensures Inv(Step(s, Queue(gs)))
  {
    var t := Step(s, Queue(gs));
    MergedCovers(s.pending, Unexpired(gs, s.now));
    assert InFlight(t) == InFlight(s);
    if !s.phase.Ended? {
      forall g | g in t.queued ensures Kept(t, g) {
        if g in s.queued {
          assert Kept(s, g);
        }
      }
    }
  }

  lemma {:induction false} FailKeepsInv(s: State)
    requires Inv(s) && s.phase.Handing?
    ensures Inv(Step(s, HandFail))
  {
    var t := Step(s, HandFail);
    MergedCovers(s.pending, Unexpired(s.phase.grants, s.now));
    UnexpiredAre(s.phase.grants, s.now);
    forall g | g in t.queued ensures Kept(t, g) {
      assert Kept(s, g);
      if CoveredBy(g, InFlight(s)) {
        var j :| 0 <= j < |InFlight(s)| && Covers(InFlight(s)[j], g);
        var h := InFlight(s)[j];
        assert h.expires > s.now ==> CoveredIn(h, t.pending);
      }
    }
  }

  lemma {:induction false} OkKeepsInv(s: State)
    requires Inv(s) && s.phase.Handing?
    ensures Inv(Step(s, HandOk))
  {
    var t := Step(s, HandOk);
    forall g | g in t.queued ensures Kept(t, g) {
      assert Kept(s, g);
      if CoveredBy(g, InFlight(s)) {
        CoverTransfers(g, InFlight(s), t.handed);
      } else if CoveredBy(g, s.handed) {
        CoverTransfers(g, s.handed, t.handed);
      }
    }
  }

  lemma {:induction false} TakeKeepsInv(s: State, gs: seq<Grant>)
    requires Inv(s) && s.phase.Taking? && Lists(gs, s.pending)
    ensures Inv(Step(s, Take(gs)))
  {
    var t := Step(s, Take(gs));
    assert InFlight(t) == gs;
    forall g | g in t.queued ensures Kept(t, g) {
      assert Kept(s, g);
      if CoveredIn(g, s.pending) {
        var h := s.pending[g.layer];
        assert h in gs;
        var j :| 0 <= j < |gs| && gs[j] == h;
      }
    }
  }

  lemma {:induction false} StepKeepsInv(s: State, e: Event)
    requires Inv(s) && Enabled(s, e)
    ensures Inv(Step(s, e))
  {
    match e
    case Queue(gs) => QueueKeepsInv(s, gs);
    case HandOk => OkKeepsInv(s);
    case HandFail => FailKeepsInv(s);
    case Take(gs) => TakeKeepsInv(s, gs);
    case End =>
    case _ =>
      var t := Step(s, e);
      assert InFlight(t) == InFlight(s) && t.queued == s.queued && t.handed == s.handed && t.pending == s.pending;
      assert !s.phase.Ended? ==> forall g :: g in t.queued ==> Kept(s, g) && Kept(t, g);
  }

  ghost predicate Legal(s: State, es: seq<Event>)
    decreases |es|
  {
    es == [] || (Enabled(s, es[0]) && Legal(Step(s, es[0]), es[1..]))
  }

  ghost function After(s: State, es: seq<Event>): State
    requires Legal(s, es)
    decreases |es|
  {
    if es == [] then s else After(Step(s, es[0]), es[1..])
  }

  lemma {:induction false} EveryRunKeepsInv(s: State, es: seq<Event>)
    requires Inv(s) && Legal(s, es)
    ensures Inv(After(s, es))
    decreases |es|
  {
    if es != [] {
      StepKeepsInv(s, es[0]);
      EveryRunKeepsInv(Step(s, es[0]), es[1..]);
    }
  }

  lemma {:induction false} PendingSinceTake(s: State, es: seq<Event>)
    requires Legal(s, es) && s.pending == Merged(map[], s.since)
    ensures After(s, es).pending == Merged(map[], After(s, es).since)
    decreases |es|
  {
    if es != [] {
      if es[0].Queue? {
        MergedTwice(map[], s.since, Unexpired(es[0].grants, s.now));
      } else if es[0].HandFail? {
        MergedTwice(map[], s.since, Unexpired(s.phase.grants, s.now));
      }
      PendingSinceTake(Step(s, es[0]), es[1..]);
    }
  }

  /** However refreshes, takes and failures interleave, what is pending is the latest-expiry merge of
      everything refreshed or queued again since the last take. */
  lemma {:induction false} PendingIsTheMergeSinceTake(now: int, es: seq<Event>)
    requires Legal(Init(now), es)
    ensures IsMerge(After(Init(now), es).pending, After(Init(now), es).since)
  {
    PendingSinceTake(Init(now), es);
    PendingIsTheMerge(After(Init(now), es).since);
  }

  /** However refreshes, hand-overs and failures interleave, a grant refreshed before it expired and
      still unexpired is pending, on its way or handed over, or one at least as late is. */
  lemma {:induction false} NoUnexpiredGrantIsLost(now: int, es: seq<Event>, g: Grant)
    requires Legal(Init(now), es)
    requires var s := After(Init(now), es); !s.phase.Ended? && g in s.queued && g.expires > s.now
    ensures var s := After(Init(now), es);
      CoveredIn(g, s.pending) || CoveredBy(g, InFlight(s)) || CoveredBy(g, s.handed)
  {
    EveryRunKeepsInv(Init(now), es);
    assert Kept(After(Init(now), es), g);
  }

  /** The loop goes on: a wake and the end of a back-off take what is pending, an accepted hand-over is
      handed over and the loop takes again, and only an empty take parks it. */
  lemma {:induction false} LoopGoesOn(s: State, listed: seq<Grant>)
    requires KeyedByLayer(s.pending)
    ensures Enabled(s, Wake) ==> Step(s, Wake).phase == Taking && Step(s, Wake).pending == s.pending
    ensures Enabled(s, Retry) ==> Step(s, Retry) == s.(phase := Taking)
    ensures s.signalling > 0 ==> Step(s, Signal) == s.(wake := true, signalling := s.signalling - 1)
    ensures forall now :: s.now <= now ==> Step(s, Tick(now)).now == now
    ensures Step(s, End).phase == Ended
    ensures s.phase.Handing? ==> Step(s, HandOk) == s.(phase := Taking, handed := s.handed + s.phase.grants)
    ensures s.phase.Handing? ==> Step(s, HandFail).phase == BackingOff
    ensures Enabled(s, Take(listed)) ==>
      Step(s, Take(listed)).phase == (if s.pending == map[] then Parked else Handing(listed))
  {
    if Enabled(s, Take(listed)) && s.pending != map[] {
      var layer :| layer in s.pending;
      assert s.pending[layer] in listed;
    }
    if Enabled(s, Take(listed)) && listed != [] {
      assert listed[0] in listed;
    }
  }

  /** A refresh in the run held g when it had not expired. */
  ghost predicate EverRefreshed(s: State, es: seq<Event>, g: Grant)
    requires Legal(s, es)
    decreases |es|
  {
    es != [] && ((es[0].Queue? && g in es[0].grants && g.expires > s.now) || EverRefreshed(Step(s, es[0]), es[1..], g))
  }

  lemma {:induction false} QueuedFrom(s: State, es: seq<Event>, g: Grant)
    requires Legal(s, es)
    ensures g in After(s, es).queued <==> g in s.queued || EverRefreshed(s, es, g)
    decreases |es|
  {
    if es != [] {
      if es[0].Queue? {
        UnexpiredAre(es[0].grants, s.now);
      }
      QueuedFrom(Step(s, es[0]), es[1..], g);
    }
  }

  /** Every grant a refresh held before it expired counts as queued, and no other does. */
  lemma {:induction false} QueuedIsWhatWasRefreshed(now: int, es: seq<Event>, g: Grant)
    requires Legal(Init(now), es)
    ensures g in After(Init(now), es).queued <==> EverRefreshed(Init(now), es, g)
  {
    QueuedFrom(Init(now), es, g);
  }

  /** Only grants that were refreshed unexpired ever reach the snapshotter, and the loop never waits
      for a wake past pending grants unless a wake or a refresh about to signal is there. */
  lemma {:induction false} RefreshLoopIsSound(now: int, es: seq<Event>)
    requires Legal(Init(now), es)
    ensures var s := After(Init(now), es);
      && (forall g :: g in InFlight(s) || g in s.handed ==> g in s.queued)
      && (s.phase.Parked? && s.pending != map[] ==> s.wake || s.signalling > 0)
  {
    EveryRunKeepsInv(Init(now), es);
  }

  // ---- Starts that share layers ----

  datatype Startup = Startup(layers: seq<Layer>, shared: bool)

  type Startups = map<string, Startup>

  predicate Meets(a: seq<Layer>, b: seq<Layer>) { exists d :: d in a && d in b }

  /** shareLocked: the others that use one of the layers become shared. */
  function Shared(m: Startups, name: string, layers: seq<Layer>): Startups {
    map id | id in m :: if id != name && Meets(layers, m[id].layers) then m[id].(shared := true) else m[id]
  }

  predicate AnyOther(m: Startups, name: string, layers: seq<Layer>) {
    exists id :: id in m && id != name && Meets(layers, m[id].layers)
  }

  datatype Use =
    | Begin(name: string, layers: seq<Layer>)
    | GrantImage(name: string, layers: seq<Layer>)
    | Release(name: string)

  function Used(m: Startups, u: Use): Startups {
    match u
    case Begin(name, layers) => Shared(m, name, layers)[name := Startup(layers, AnyOther(m, name, layers))]
    case GrantImage(name, layers) => Shared(m, name, layers)
    case Release(name) => m - {name}
  }

  /** The live starts after a run of begins, platform image grants and releases. */
  function Live(us: seq<Use>): Startups {
    if us == [] then map[] else Used(Live(us[..|us| - 1]), us[|us| - 1])
  }

  ghost predicate PairsShared(m: Startups) {
    forall a, b :: a in m && b in m && a != b && Meets(m[a].layers, m[b].layers) ==> m[a].shared && m[b].shared
  }

  lemma {:induction false} UseKeepsPairs(m: Startups, u: Use)
    requires PairsShared(m)
    ensures PairsShared(Used(m, u))
  {
    var n := Used(m, u);
    forall a, b | a in n && b in n && a != b && Meets(n[a].layers, n[b].layers) ensures n[a].shared && n[b].shared {
      if u.Begin? && a == u.name {
        assert Meets(u.layers, m[b].layers);
      } else if u.Begin? && b == u.name {
        assert Meets(u.layers, m[a].layers);
      } else {
        assert Meets(m[a].layers, m[b].layers);
      }
    }
  }

  /** Any two live starts that share a layer are both marked shared, after every run. */
  lemma {:induction false} SharersAreMarked(us: seq<Use>)
    ensures PairsShared(Live(us))
  {
    if us != [] {
      SharersAreMarked(us[..|us| - 1]);
      UseKeepsPairs(Live(us[..|us| - 1]), us[|us| - 1]);
    }
  }

  /** The start that us[i] began is still that one: nothing began or released the name since. */
  ghost predicate StillLive(us: seq<Use>, i: nat) {
    && i < |us| && us[i].Begin?
    && forall j :: i < j < |us| && !us[j].GrantImage? ==> us[j].name != us[i].name
  }

  ghost predicate BegunAs(us: seq<Use>, name: string) { exists i: nat :: StillLive(us, i) && us[i].name == name }

  /** The live starts are exactly those begun and neither released nor begun anew since. */
  lemma {:induction false} LiveExactly(us: seq<Use>, name: string)
    ensures name in Live(us) <==> BegunAs(us, name)
  {
    if us != [] {
      var n := |us| - 1;
      var init := us[..n];
      LiveExactly(init, name);
      if us[n].Begin? && us[n].name == name {
        assert StillLive(us, n);
      } else {
        if BegunAs(init, name) {
          var i: nat :| StillLive(init, i) && init[i].name == name;
          LivesOn(us, i);
        }
        if BegunAs(us, name) {
          var i: nat :| StillLive(us, i) && us[i].name == name;
          LivesOn(us, i);
        }
      }
    }
  }

  lemma {:induction false} LivesOn(us: seq<Use>, i: nat)
    requires i < |us| - 1
    ensures StillLive(us, i) <==>
      StillLive(us[..|us| - 1], i) && (us[|us| - 1].GrantImage? || us[|us| - 1].name != us[i].name)
  {
    var init := us[..|us| - 1];
    assert forall j :: 0 <= j < |init| ==> init[j] == us[j];
  }

  /** us[j] names one of the layers of the start us[i] began, under another name. */
  ghost predicate TouchedBy(us: seq<Use>, i: nat, j: nat)
    requires i < |us| && us[i].Begin? && j < |us|
  {
    !us[j].Release? && us[j].name != us[i].name && Meets(us[j].layers, us[i].layers)
  }

  lemma {:induction false} SharedStep(m: Startups, u: Use, name: string)
    requires name in m && (u.GrantImage? || u.name != name)
    ensures name in Used(m, u) && Used(m, u)[name].layers == m[name].layers
    ensures Used(m, u)[name].shared <==>
        m[name].shared || (!u.Release? && u.name != name && Meets(u.layers, m[name].layers))
  {
  }

  ghost predicate Touched(us: seq<Use>, i: nat)
    requires i < |us| && us[i].Begin?
  {
    exists j :: i < j < |us| && TouchedBy(us, i, j)
  }

  lemma {:induction false} TouchedLast(us: seq<Use>, i: nat)
    requires i < |us| - 1 && us[i].Begin?
    ensures Touched(us, i) <==> Touched(us[..|us| - 1], i) || TouchedBy(us, i, |us| - 1)
  {
    var init := us[..|us| - 1];
    assert forall j :: i < j < |init| ==> (TouchedBy(init, i, j) <==> TouchedBy(us, i, j));
  }

  /** A live start is marked shared exactly when a start sharing a layer was live as it began, or
      one began, or an image that uses one was granted, since. */
  lemma {:induction false} SharedExactly(us: seq<Use>, i: nat)
    requires StillLive(us, i)
    ensures us[i].name in Live(us) && Live(us)[us[i].name].layers == us[i].layers
    ensures Live(us)[us[i].name].shared <==>
      AnyOther(Live(us[..i]), us[i].name, us[i].layers) || Touched(us, i)
    decreases |us|
  {
    if i == |us| - 1 {
      JustBegun(us);
    } else {
      var init := us[..|us| - 1];
      assert init[..i] == us[..i] && init[i] == us[i];
      SharedExactly(init, i);
      SharedStep(Live(init), us[|us| - 1], us[i].name);
      TouchedLast(us, i);
    }
  }

  lemma {:induction false} JustBegun(us: seq<Use>)
    requires us != [] && us[|us| - 1].Begin?
    ensures var i := |us| - 1;
      && us[i].name in Live(us) && Live(us)[us[i].name].layers == us[i].layers && !Touched(us, i)
      && (Live(us)[us[i].name].shared <==> AnyOther(Live(us[..i]), us[i].name, us[i].layers))
  {
    assert Live(us) == Used(Live(us[..|us| - 1]), us[|us| - 1]);
  }

  // ---- The object ----

  class LayerSources {
    var pending: Pending
    var startups: Startups

    constructor ()
      ensures pending == map[] && startups == map[]
    {
      pending, startups := map[], map[];
    }

    method Queue(grants: seq<Grant>, now: int)
      modifies this`pending
      ensures pending == Queued(old(pending), grants, now)
    {
      var i := 0;
      assert grants[..0] == [];
      while i < |grants|
        invariant 0 <= i <= |grants| && pending == Queued(old(pending), grants[..i], now)
      {
        var g := grants[i];
        assert grants[..i + 1][..i] == grants[..i];
        if g.expires > now {
          var kept := Unexpired(grants[..i], now);
          assert Unexpired(grants[..i + 1], now) == kept + [g] && (kept + [g])[..|kept|] == kept;
          if g.layer !in pending || g.expires > pending[g.layer].expires {
            pending := pending[g.layer := g];
          }
        }
        i := i + 1;
      }
      assert grants[..i] == grants;
    }

    /** The pending grants in whatever order the map yields them. */
    method Take() returns (grants: seq<Grant>)
      requires KeyedByLayer(pending)
      modifies this`pending
      ensures Lists(grants, old(pending)) && pending == map[]
    {
      grants := [];
      var todo := pending.Keys;
      while todo != {}
        invariant todo <= pending.Keys && pending == old(pending)
        invariant forall g :: g in grants <==> g.layer in pending && g.layer !in todo && pending[g.layer] == g
        invariant forall i, j :: 0 <= i < j < |grants| ==> grants[i] != grants[j]
        decreases todo
      {
        var layer :| layer in todo;
        grants := grants + [pending[layer]];
        todo := todo - {layer};
      }
      pending := map[];
    }

    method Share(name: string, layers: seq<Layer>) returns (shared: bool)
      modifies this`startups
      ensures startups == Shared(old(startups), name, layers)
      ensures startups.Keys == old(startups).Keys
      ensures forall id :: id in startups ==> startups[id].layers == old(startups)[id].layers
      ensures forall id :: id in startups ==> (startups[id].shared <==>
                old(startups)[id].shared || (id != name && exists d :: d in layers && d in old(startups)[id].layers))
      ensures shared <==> AnyOther(old(startups), name, layers)
    {
      shared := false;
      var todo := startups.Keys;
      ghost var m := startups;
      while todo != {}
        invariant todo <= m.Keys && startups.Keys == m.Keys
        invariant forall id :: id in todo ==> startups[id] == m[id]
        invariant forall id :: id in m && id !in todo ==> startups[id] == Shared(m, name, layers)[id]
        invariant shared <==> exists id :: id in m && id !in todo && id != name && Meets(layers, m[id].layers)
        decreases todo
      {
        var id :| id in todo;
        if id != name && (exists d :: d in layers && d in startups[id].layers) {
          assert Meets(layers, m[id].layers);
          startups := startups[id := startups[id].(shared := true)];
          shared := true;
        }
        todo := todo - {id};
      }
    }

    method Begin(container: string, layers: seq<Layer>) returns (shared: bool)
      modifies this`startups
      ensures startups == Used(old(startups), Use.Begin(container, layers))
      ensures container in startups && startups[container] == Startup(layers, shared)
      ensures shared <==> AnyOther(old(startups), container, layers)
    {
      shared := Share(container, layers);
      startups := startups[container := Startup(layers, shared)];
    }

    method Release(container: string)
      modifies this`startups
      ensures startups == Used(old(startups), Use.Release(container))
      ensures startups.Keys == old(startups).Keys - {container}
      ensures forall id :: id in startups ==> startups[id] == old(startups)[id]
    {
      startups := startups - {container};
    }
  }
}
