/** A container's network policy changes (internal/agent/network.go): the newest requested
    policy wins, and one goroutine applies at a time. Requests arrive at any point of the
    start, of the draining goroutine and of the container's end. */
module NetworkPolicy {

  datatype Policy = Policy(block: bool, allow: seq<string>)

  predicate Restricts(p: Policy) { p.block || |p.allow| > 0 }

  const OPEN := Policy(false, [])

  /** What the state's mutex guards. `wanted` is the newest policy's generation, `applied` the
      generation last applied or given up on, and versions are the server's. */
  datatype Shared = Shared(want: Policy, wanted: nat, applied: nat, applying: bool, started: bool,
                           wantVersion: int, reported: int, failed: bool)

  const EMPTY := Shared(OPEN, 0, 0, false, false, 0, 0, false)

  function StartRequested(n: Shared, p: Policy): Shared {
    var m := if n.wanted == 0 && Restricts(p) then n.(want := p, wanted := 1) else n;
    m.(started := true, applying := true)
  }

  /** A version already reported is only reported again. */
  predicate Stale(n: Shared, version: int) { version > 0 && version <= n.reported }

  /** The request needs a goroutine of its own. */
  predicate Drains(n: Shared, version: int) { !Stale(n, version) && n.started && !n.applying }

  function Requested(n: Shared, p: Policy, version: int): Shared {
    if Stale(n, version) then n
    else n.(want := p, wantVersion := version, wanted := n.wanted + 1, applying := n.applying || n.started)
  }

  predicate CaughtUp(n: Shared) { n.applied >= n.wanted }

  function Settled(n: Shared, generation: nat, version: int, ok: bool, starting: bool): Shared {
    var m := n.(applied := generation, applying := n.applying && (ok || !starting));
    if version > n.reported then m.(reported := version, failed := !ok) else m
  }

  // ---- The draining goroutines, the container's end and the history ----

  datatype Drain = Looking(starting: bool) | Applying(starting: bool, policy: Policy, generation: nat, version: int)

  /** `requested` are the policies by generation and `versions` their versions, `attempts` the
      generations tried and `reports` what was reported of them, `inForce` the
      policy last applied; `exited` is the container's exit and `ended` the end of its work. */
  datatype State = State(n: Shared, drains: seq<Drain>, exited: bool, ended: bool, startFailed: bool,
                         requested: seq<Policy>, versions: seq<int>, attempts: seq<nat>, reports: seq<Report>,
                         inForce: Policy, lastOk: bool)

  /** A version reported to the server: the generation it was tried as, and whether that worked. */
  datatype Report = Report(version: int, generation: nat, ok: bool)

  const INIT := State(EMPTY, [], false, false, false, [], [], [], [], OPEN, true)

  datatype Event =
    | Start(p: Policy) | Adopt | Update(p: Policy, version: int)
    | Look | Settle(ok: bool) | EndWork | Exit

  predicate Enabled(s: State, e: Event) {
    match e
    case Start(_) => !s.n.started
    // An adopted container is tracked, so requests reach it, only once it was adopted.
    case Adopt => !s.n.started && s.n.wanted == 0
    case Update(_, _) => true
    case Look => s.drains != [] && s.drains[0].Looking?
    case Settle(_) => s.drains != [] && s.drains[0].Applying?
    case EndWork => true
    case Exit => true
  }

  function Updated(s: State, p: Policy, version: int): State {
    if s.exited || Stale(s.n, version) then s
    else s.(n := Requested(s.n, p, version), requested := s.requested + [p], versions := s.versions + [version],
            drains := if Drains(s.n, version) then s.drains + [Looking(false)] else s.drains)
  }

  function Looked(s: State): State
    requires s.drains != []
  {
    if CaughtUp(s.n) then s.(n := s.n.(applying := false), drains := s.drains[1..])
    else s.(drains := [Applying(s.drains[0].starting, s.n.want, s.n.wanted, s.n.wantVersion)] + s.drains[1..],
            attempts := s.attempts + [s.n.wanted])
  }

  /** The goroutine that starts the container ends at a failure, any other at one after which it finds
      the work ended. That look is one step with settling: an end in between is as one just before. */
  function SettledBy(s: State, ok: bool): State
    requires s.drains != [] && s.drains[0].Applying?
  {
    var d := s.drains[0];
    s.(n := Settled(s.n, d.generation, d.version, ok, d.starting), lastOk := ok,
       inForce := if ok then d.policy else s.inForce,
       reports := s.reports + NewReport(s.n, d, ok),
       startFailed := s.startFailed || (!ok && d.starting),
       drains := (if ok || (!d.starting && !s.ended) then [Looking(d.starting)] else []) + s.drains[1..])
  }

  function NewReport(n: Shared, d: Drain, ok: bool): seq<Report>
    requires d.Applying?
  {
    if d.version > n.reported then [Report(d.version, d.generation, ok)] else []
  }

  function Step(s: State, e: Event): State
    requires Enabled(s, e)
  {
    match e
    case Start(p) =>
      s.(n := StartRequested(s.n, p), drains := s.drains + [Looking(true)],
         requested := s.requested + (if s.n.wanted == 0 && Restricts(p) then [p] else []),
         versions := s.versions + (if s.n.wanted == 0 && Restricts(p) then [0] else []))
    case Adopt => s.(n := s.n.(started := true))
    case Update(p, version) => Updated(s, p, version)
    case Look => Looked(s)
    case Settle(ok) => SettledBy(s, ok)
    case EndWork => s.(ended := true)
    case Exit => s.(exited := true, ended := true)
  }

  // ---- What every reachable state keeps ----

  function Last(s: seq<nat>): nat { if s == [] then 0 else s[|s| - 1] }

  /** At most one goroutine applies, and only while `applying`. */
  ghost predicate OneApplier(s: State) {
    && |s.drains| <= 1
    && (s.drains != [] ==> s.n.applying && s.n.started)
    && (s.n.applying && !s.ended ==> s.drains != [])
    && (!s.n.started ==> !s.n.applying && s.n.applied == 0)
  }

  ghost predicate Generations(s: State) {
    && s.n.applied <= s.n.wanted == |s.requested|
    && (s.n.wanted > 0 ==> s.n.want == s.requested[s.n.wanted - 1])
    && (forall i, j :: 0 <= i < j < |s.attempts| ==> s.attempts[i] < s.attempts[j])
    && (forall i :: 0 <= i < |s.attempts| ==> 0 < s.attempts[i] <= s.n.wanted)
    && (if s.drains != [] && s.drains[0].Applying?
        then s.drains[0].generation == Last(s.attempts) > s.n.applied
             && s.drains[0].policy == s.requested[Last(s.attempts) - 1]
        else Last(s.attempts) == s.n.applied)
  }

  ghost predicate NoneLost(s: State) {
    && (s.n.started && !s.n.applying && !s.startFailed && !s.ended ==> s.n.applied == s.n.wanted)
    && (s.drains == [] || s.drains[0].Looking? ==>
          s.lastOk && 0 < Last(s.attempts) <= |s.requested| ==> s.inForce == s.requested[Last(s.attempts) - 1])
  }

  ghost predicate ReportsGrow(rs: seq<Report>, reported: int, failed: bool) {
    && (forall i, j :: 0 <= i < j < |rs| ==> rs[i].version < rs[j].version)
    && (rs == [] ==> reported == 0)
    && (rs != [] ==> reported == rs[|rs| - 1].version && failed == !rs[|rs| - 1].ok)
  }

  ghost predicate VersionsGrow(s: State) { ReportsGrow(s.reports, s.n.reported, s.n.failed) }

  /** Versions go with their policies: the one wanted, the one being applied and those reported. */
  ghost predicate VersionsFit(s: State) {
    && |s.versions| == |s.requested| == s.n.wanted
    && s.n.wantVersion == (if s.n.wanted == 0 then 0 else s.versions[s.n.wanted - 1])
    && (s.drains != [] && s.drains[0].Applying? ==> OfVersion(s.versions, s.drains[0].generation, s.drains[0].version))
    && (forall i :: 0 <= i < |s.reports| ==> OfVersion(s.versions, s.reports[i].generation, s.reports[i].version))
  }

  ghost predicate OfVersion(versions: seq<int>, generation: nat, version: int) {
    0 < generation <= |versions| && versions[generation - 1] == version
  }

  ghost predicate Inv(s: State) {
    OneApplier(s) && Generations(s) && NoneLost(s) && VersionsGrow(s) && VersionsFit(s)
  }

  lemma {:induction false} StepKeepsInv(s: State, e: Event)
    requires Inv(s) && Enabled(s, e)
    ensures Inv(Step(s, e))
  {
    match e
    case Look => LookKeeps(s);
    case Settle(ok) => SettleKeeps(s, ok);
    case _ => RequestKeeps(s, e);
  }

  lemma {:induction false} RequestKeeps(s: State, e: Event)
    requires Inv(s) && Enabled(s, e) && !e.Look? && !e.Settle?
    ensures Inv(Step(s, e))
  {
    RequestKeepsVersions(s, e);
    if e.Start? || e.Update? {
      RequestKeepsOrder(s, e);
    }
  }

  lemma {:induction false} RequestKeepsOrder(s: State, e: Event)
    requires Inv(s) && Enabled(s, e) && (e.Start? || e.Update?)
    ensures OneApplier(Step(s, e)) && Generations(Step(s, e)) && NoneLost(Step(s, e))
  {
  }

  lemma {:induction false} RequestKeepsVersions(s: State, e: Event)
    requires Inv(s) && Enabled(s, e) && !e.Look? && !e.Settle?
    ensures VersionsGrow(Step(s, e)) && VersionsFit(Step(s, e))
  {
    var t := Step(s, e);
    assert t.reports == s.reports && t.n.reported == s.n.reported && t.n.failed == s.n.failed;
    if e.Start? || e.Update? {
      RequestKeepsFit(s, e);
    } else {
      assert t.versions == s.versions && t.drains == s.drains && t.requested == s.requested;
    }
  }

  lemma {:induction false} RequestKeepsFit(s: State, e: Event)
    requires Inv(s) && Enabled(s, e) && (e.Start? || e.Update?)
    ensures VersionsFit(Step(s, e))
  {
    var t := Step(s, e);
    assert s.versions <= t.versions && t.reports == s.reports;
    assert s.drains != [] ==> t.drains != [] && t.drains[0] == s.drains[0];
    if t.drains != [] && t.drains[0].Applying? {
      assert s.drains != [];
      MoreVersions(s.versions, t.versions, s.drains[0].generation, s.drains[0].version);
    }
    forall i | 0 <= i < |t.reports| ensures OfVersion(t.versions, t.reports[i].generation, t.reports[i].version) {
      MoreVersions(s.versions, t.versions, s.reports[i].generation, s.reports[i].version);
    }
  }

  lemma {:induction false} MoreVersions(a: seq<int>, b: seq<int>, generation: nat, version: int)
    requires OfVersion(a, generation, version) && a <= b
    ensures OfVersion(b, generation, version)
  {
  }

  lemma {:induction false} LookKeeps(s: State)
    requires Inv(s) && Enabled(s, Look)
    ensures Inv(Step(s, Look))
  {
    assert s.drains[1..] == [];
    var t := Step(s, Look);
    if CaughtUp(s.n) {
      assert t == s.(n := s.n.(applying := false), drains := []);
    } else {
      LookTakesNewest(s);
    }
  }

  lemma {:induction false} LookTakesNewest(s: State)
    requires Inv(s) && Enabled(s, Look) && !CaughtUp(s.n) && s.drains[1..] == []
    ensures Inv(Step(s, Look))
  {
    var t := Step(s, Look);
    var d := Applying(s.drains[0].starting, s.n.want, s.n.wanted, s.n.wantVersion);
    assert t.drains == [d] && t.n == s.n;
    assert t.attempts == s.attempts + [s.n.wanted];
    assert forall i :: 0 <= i < |s.attempts| ==> s.attempts[i] <= Last(s.attempts);
    assert Generations(t);
    assert OneApplier(t) && NoneLost(t) && VersionsGrow(t);
    assert OfVersion(t.versions, s.n.wanted, s.n.wantVersion);
    forall i | 0 <= i < |t.reports| ensures OfVersion(t.versions, t.reports[i].generation, t.reports[i].version) {
      assert OfVersion(s.versions, s.reports[i].generation, s.reports[i].version);
    }
  }

  lemma {:induction false} SettleKeeps(s: State, ok: bool)
    requires Inv(s) && Enabled(s, Settle(ok))
    ensures Inv(Step(s, Settle(ok)))
  {
    assert s.drains[1..] == [];
    SettleKeepsApplier(s, ok);
    SettleKeepsGenerations(s, ok);
    SettleKeepsVersions(s, ok);
    SettleKeepsFit(s, ok);
  }

  lemma {:induction false} SettleKeepsApplier(s: State, ok: bool)
    requires Inv(s) && Enabled(s, Settle(ok)) && s.drains[1..] == []
    ensures OneApplier(Step(s, Settle(ok)))
  {
  }

  lemma {:induction false} SettleKeepsGenerations(s: State, ok: bool)
    requires Inv(s) && Enabled(s, Settle(ok)) && s.drains[1..] == []
    ensures Generations(Step(s, Settle(ok))) && NoneLost(Step(s, Settle(ok)))
  {
    var t := Step(s, Settle(ok));
    assert t.attempts == s.attempts && t.requested == s.requested;
    assert t.drains == [] || (|t.drains| == 1 && t.drains[0].Looking?);
    assert t.n.applied == Last(s.attempts) && t.n.wanted == s.n.wanted && t.n.want == s.n.want;
  }

  lemma {:induction false} SettleKeepsFit(s: State, ok: bool)
    requires Inv(s) && Enabled(s, Settle(ok)) && s.drains[1..] == []
    ensures VersionsFit(Step(s, Settle(ok)))
  {
    var t := Step(s, Settle(ok));
    assert t.versions == s.versions && t.requested == s.requested && t.n.wantVersion == s.n.wantVersion;
    assert t.drains == [] || (|t.drains| == 1 && t.drains[0].Looking?);
    forall i | 0 <= i < |t.reports| ensures OfVersion(t.versions, t.reports[i].generation, t.reports[i].version) {
      assert i < |s.reports| ==> OfVersion(s.versions, s.reports[i].generation, s.reports[i].version);
    }
  }

  lemma {:induction false} ReportOneMore(rs: seq<Report>, reported: int, failed: bool, r: Report)
    requires ReportsGrow(rs, reported, failed) && r.version > reported
    ensures ReportsGrow(rs + [r], r.version, !r.ok)
  {
    var all := rs + [r];
    forall i, j | 0 <= i < j < |all| ensures all[i].version < all[j].version {
      if j == |rs| && i < |rs| - 1 {
        assert rs[i].version < rs[|rs| - 1].version;
      }
    }
  }

  lemma {:induction false} SettleKeepsVersions(s: State, ok: bool)
    requires VersionsGrow(s) && Enabled(s, Settle(ok))
    ensures VersionsGrow(Step(s, Settle(ok)))
  {
    var d := s.drains[0];
    if d.version > s.n.reported {
      ReportOneMore(s.reports, s.n.reported, s.n.failed, Report(d.version, d.generation, ok));
    } else {
      assert s.reports + NewReport(s.n, d, ok) == s.reports;
    }
  }

  ghost predicate Legal(s: State, es: seq<Event>)
    decreases |es|
  {
    es == [] || (Enabled(s, es[0]) && Legal(Step(s, es[0]), es[1..]))
  }

  ghost function After(s: State, es: seq<Event>): State
    requires Legal(s, es)
    decreases |es|
  {
    if es == [] then s else After(Step(s, es[0]), es[1..])
  }

  lemma {:induction false} EveryRunKeepsInv(s: State, es: seq<Event>)
    requires Inv(s) && Legal(s, es)
    ensures Inv(After(s, es))
    decreases |es|
  {
    if es != [] {
      StepKeepsInv(s, es[0]);
      EveryRunKeepsInv(Step(s, es[0]), es[1..]);
    }
  }

  /** In every run at most one goroutine applies, never past the newest request; and a started
      container that has not ended, nor failed its start's policy, and is not applying, tried the
      newest requested policy last, which is in force if that succeeded. */
  lemma {:induction false} NewestPolicyWins(es: seq<Event>)
    requires Legal(INIT, es)
    ensures var s := After(INIT, es);
      && |s.drains| <= 1 && s.n.applied <= s.n.wanted == |s.requested|
      && (s.n.started && !s.n.applying && !s.startFailed && !s.ended ==>
            && s.n.applied == s.n.wanted == Last(s.attempts)
            && (s.lastOk && s.n.wanted > 0 ==> s.inForce == s.requested[s.n.wanted - 1]))
  {
    EveryRunKeepsInv(INIT, es);
  }

  /** In every run generations are tried once each, in order, and reported versions only grow, each that
      of the policy tried; what is reported is the last of them and whether it worked. */
  lemma {:induction false} AttemptsAndVersionsGrow(es: seq<Event>)
    requires Legal(INIT, es)
    ensures var s := After(INIT, es);
      && (forall i, j :: 0 <= i < j < |s.attempts| ==> s.attempts[i] < s.attempts[j])
      && (forall i, j :: 0 <= i < j < |s.reports| ==> s.reports[i].version < s.reports[j].version)
      && (forall i :: 0 <= i < |s.reports| ==> OfVersion(s.versions, s.reports[i].generation, s.reports[i].version))
      && (s.reports != [] ==>
            var last := s.reports[|s.reports| - 1]; s.n.reported == last.version && s.n.failed == !last.ok)
  {
    EveryRunKeepsInv(INIT, es);
  }

  /** A request becomes the newest unless the container exited or its version was reported; the start's
      policy is the first one only if it restricts anything and none came before. */
  lemma {:induction false} RequestsTakeEffect(s: State, p: Policy, version: int)
    ensures var t := Step(s, Update(p, version));
      if s.exited || (version > 0 && version <= s.n.reported) then t == s
      else t.requested == s.requested + [p] && t.versions == s.versions + [version] && t.n.want == p
    ensures !s.n.started ==> var t := Step(s, Start(p));
      && t.n.started && t.n.applying
      && t.requested == s.requested + if s.n.wanted == 0 && (p.block || p.allow != []) then [p] else []
    ensures Enabled(s, Adopt) ==> Step(s, Adopt) == s.(n := s.n.(started := true))
    ensures Step(s, EndWork) == s.(ended := true) && Step(s, Exit) == s.(ended := true, exited := true)
  {
  }

  /** `applying` is set and no goroutine is left to clear it. */
  predicate Stranded(s: State) { s.n.applying && s.drains == [] }

  /** A policy of a goroutine that did not start the container failed, and the work had ended by the
      time the goroutine looked. */
  predicate FailsOnceEnded(s: State, e: Event) {
    e == Settle(false) && Enabled(s, e) && !s.drains[0].starting && s.ended
  }

  /** Exactly which settlements leave `applying` set for good. */
  lemma {:induction false} SettleStrandsExactly(s: State, ok: bool)
    requires Inv(s) && Enabled(s, Settle(ok))
    ensures Stranded(Step(s, Settle(ok))) <==> FailsOnceEnded(s, Settle(ok))
  {
    assert s.drains[1..] == [];
  }

  /** No other step does, and none undoes it. */
  lemma {:induction false} OthersStrandNothing(s: State, e: Event)
    requires Inv(s) && Enabled(s, e) && !e.Settle?
    ensures Stranded(Step(s, e)) <==> Stranded(s)
  {
    if e.Look? {
      assert s.drains[1..] == [];
    }
  }

  ghost predicate EverFailsOnceEnded(s: State, es: seq<Event>)
    requires Legal(s, es)
    decreases |es|
  {
    es != [] && (FailsOnceEnded(s, es[0]) || EverFailsOnceEnded(Step(s, es[0]), es[1..]))
  }

  lemma {:induction false} StrandsFrom(s: State, es: seq<Event>)
    requires Inv(s) && Legal(s, es)
    ensures Stranded(After(s, es)) <==> Stranded(s) || EverFailsOnceEnded(s, es)
    decreases |es|
  {
    if es != [] {
      if es[0].Settle? {
        SettleStrandsExactly(s, es[0].ok);
      } else {
        OthersStrandNothing(s, es[0]);
      }
      StepKeepsInv(s, es[0]);
      StrandsFrom(Step(s, es[0]), es[1..]);
    }
  }

  /** A run ends with `applying` set and nobody applying exactly when, somewhere in it, a policy that
      was not the start's failed and the goroutine then found the container's work ended. */
  lemma {:induction false} StrandedExactly(es: seq<Event>)
    requires Legal(INIT, es)
    ensures Stranded(After(INIT, es)) <==> EverFailsOnceEnded(INIT, es)
  {
    StrandsFrom(INIT, es);
  }

  /** The condition shared by the two lemmas below: a container at rest with one policy applied. */
  predicate AtRestOnce(s: State) {
    && s.n == EMPTY.(want := Policy(true, []), wanted := 1, applied := 1, started := true)
    && s.drains == [] && !s.exited
  }

  const UPDATES_AND_END := [Update(OPEN, 1), Look, EndWork, Update(OPEN, 2), Settle(false)]

  /** From a container at rest: an update, the end of its work before another, and a failure. */
  lemma {:induction false} EndingMidway(s: State, es: seq<Event>)
    requires AtRestOnce(s) && es == UPDATES_AND_END
    ensures Legal(s, es) && Stranded(After(s, es)) && After(s, es).n.applied < After(s, es).n.wanted
  {
    var s1 := Step(s, es[0]);
    var s2 := Step(s1, es[1]);
    var s3 := Step(s2, es[2]);
    var s4 := Step(s3, es[3]);
    var s5 := Step(s4, es[4]);
    LegalStep(s4, es[4..]); LegalStep(s3, es[3..]); LegalStep(s2, es[2..]); LegalStep(s1, es[1..]); LegalStep(s, es);
  }

  /** Once the work ended, a goroutine may leave `applying` set with a request unapplied. */
  lemma {:induction false} EndMayLeaveApplying()
    ensures var es := [Start(Policy(true, [])), Look, Settle(true), Look] + UPDATES_AND_END;
      Legal(INIT, es) && Stranded(After(INIT, es)) && After(INIT, es).n.applied < After(INIT, es).n.wanted
  {
    var es := [Start(Policy(true, [])), Look, Settle(true), Look] + UPDATES_AND_END;
    var s1 := Step(INIT, es[0]);
    var s2 := Step(s1, es[1]);
    var s3 := Step(s2, es[2]);
    var s4 := Step(s3, es[3]);
    assert AtRestOnce(s4) && es[4..] == UPDATES_AND_END;
    EndingMidway(s4, es[4..]);
    LegalStep(s3, es[3..]); LegalStep(s2, es[2..]); LegalStep(s1, es[1..]); LegalStep(INIT, es);
  }

  /** A run is legal, and ends where its rest does, once its first step and its rest are legal. */
  lemma {:induction false} LegalStep(s: State, es: seq<Event>)
    requires es != [] && Enabled(s, es[0]) && Legal(Step(s, es[0]), es[1..])
    ensures Legal(s, es) && After(s, es) == After(Step(s, es[0]), es[1..])
  {
  }

  /** The state object; each method is one section under its mutex. */
  class NetworkState {
    var want: Policy
    var wanted: nat
    var applied: nat
    var applying: bool
    var started: bool
    var wantVersion: int
    var reported: int
    var failed: bool

    ghost function Model(): Shared
      reads this
    {
      Shared(want, wanted, applied, applying, started, wantVersion, reported, failed)
    }

    constructor ()
      ensures Model() == EMPTY
    {
      want, wanted, applied, applying, started := OPEN, 0, 0, false, false;
      wantVersion, reported, failed := 0, 0, false;
    }

    method ApplyStart(p: Policy)
      modifies this
      ensures Model() == StartRequested(old(Model()), p)
      ensures started && applying
      ensures if old(wanted) == 0 && (p.block || p.allow != []) then want == p && wanted == 1
              else want == old(want) && wanted == old(wanted)
    {
      if wanted == 0 && Restricts(p) {
        want, wanted := p, 1;
      }
      started, applying := true, true;
    }

    /** Whether the caller starts a draining goroutine. */
    method Request(p: Policy, version: int) returns (drain: bool)
      modifies this
      ensures Model() == Requested(old(Model()), p, version)
      ensures drain <==> !(version > 0 && version <= old(reported)) && old(started) && !old(applying)
      ensures if version > 0 && version <= old(reported) then Model() == old(Model())
              else want == p && wantVersion == version && wanted == old(wanted) + 1
    {
      if version > 0 && version <= reported {
        return false;
      }
      want, wantVersion := p, version;
      wanted := wanted + 1;
      if !started || applying {
        return false;
      }
      applying := true;
      return true;
    }

    /** drainNetwork's first section: false once nothing newer is wanted. */
    method Take() returns (more: bool, p: Policy, generation: nat, version: int)
      modifies this
      ensures more <==> old(applied) < old(wanted)
      ensures Model() == if more then old(Model()) else old(Model()).(applying := false)
      ensures p == want && generation == wanted && version == wantVersion
    {
      more := applied < wanted;
      if !more {
        applying := false;
      }
      p, generation, version := want, wanted, wantVersion;
    }

    /** drainNetwork's second section, once the policy was applied or failed. */
    method Settle(generation: nat, version: int, ok: bool, starting: bool) returns (report: bool)
      modifies this
      ensures Model() == Settled(old(Model()), generation, version, ok, starting)
      ensures report <==> version > old(reported)
      ensures applied == generation && wanted == old(wanted) && want == old(want)
      ensures applying == (old(applying) && (ok || !starting))
      ensures if report then reported == version && failed == !ok
              else reported == old(reported) && failed == old(failed)
    {
      applied := generation;
      if !ok && starting {
        applying := false;
      }
      report := version > reported;
      if report {
        reported, failed := version, !ok;
      }
    }
  }
}
