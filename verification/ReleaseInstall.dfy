/** The agent's own releases (internal/agent/update.go) and the wrapper that starts them
    (cmd/agent/agent-service.sh): installs, commits, prunes, crashes at any step and
    rollbacks of a release that never opened a session. */
module ReleaseInstall {
  import opened Options

  type Version = string

  /** The install root and the state directory: the complete releases, the links, the markers, and
      the releases that proved themselves by a session that stayed open. */
  datatype Dirs = Dirs(complete: set<Version>, current: Version, previous: Option<Version>,
                       trial: Option<Version>, rejected: Option<Version>, proven: set<Version>)

  // ---- The effects, each atomic on disk ----

  /** removeTree renames a release aside before deleting it. */
  function Removed(d: Dirs, v: Version): Dirs { d.(complete := d.complete - {v}, proven := d.proven - {v}) }

  function Placed(d: Dirs, v: Version): Dirs { d.(complete := d.complete + {v}) }

  function LinkedPrevious(d: Dirs): Dirs { d.(previous := Some(d.current)) }

  function Marked(d: Dirs, v: Version): Dirs { d.(trial := Some(v)) }

  function Switched(d: Dirs, v: Version): Dirs { d.(current := v) }

  /** The directories after the first k effects of installing v. */
  function InstallPrefix(d: Dirs, v: Version, k: nat): Dirs {
    var d1 := if k >= 1 then Removed(d, v) else d;
    var d2 := if k >= 2 then Placed(d1, v) else d1;
    var d3 := if k >= 3 then LinkedPrevious(d2) else d2;
    var d4 := if k >= 4 then Marked(d3, v) else d3;
    if k >= 5 then Switched(d4, v) else d4
  }

  /** A commit removes the trial marker; the release that ran has proved itself. */
  function Committed(d: Dirs, me: Version): Dirs { d.(trial := None, proven := d.proven + {me}) }

  predicate Prunable(d: Dirs, v: Version) { v != d.current && d.previous != Some(v) }

  /** A prune that removed what it could of these entries, sparing the releases containers mount. */
  function Pruned(d: Dirs, entries: seq<Version>, mounted: set<Version>): Dirs {
    if entries == [] then d
    else
      var p := Pruned(d, entries[..|entries| - 1], mounted);
      var v := entries[|entries| - 1];
      if Prunable(p, v) && v !in mounted then Removed(p, v) else p
  }

  /** A prune takes away exactly the listed releases that no link names and no container mounts. */
  lemma {:induction false} PrunedFixes(d: Dirs, entries: seq<Version>, mounted: set<Version>)
    ensures var p := Pruned(d, entries, mounted);
      && p.current == d.current && p.previous == d.previous && p.trial == d.trial && p.rejected == d.rejected
      && p.complete == (set v | v in d.complete
                                && (v !in entries || v in mounted || v == d.current || d.previous == Some(v)))
      && p.proven == (set v | v in d.proven
                              && (v !in entries || v in mounted || v == d.current || d.previous == Some(v)))
      && (Safe(d) ==> Safe(p))
  {
    if entries != [] {
      var init := entries[..|entries| - 1];
      var last := entries[|entries| - 1];
      PrunedFixes(d, init, mounted);
      assert forall v :: v in entries <==> v in init || v == last by {
        assert entries == init + [last];
      }
    }
  }

  /** The wrapper gives a release on trial up once it started too often. */
  function RolledBack(d: Dirs): Dirs {
    if d.trial.None? then d
    else d.(current := if d.previous.Some? then d.previous.value else d.current, rejected := d.trial, trial := None)
  }

  // ---- Safe directories ----

  /** `current` names a complete release; it proved itself, or it is on trial and `previous` names
      a complete release that did, to which the wrapper returns. */
  predicate Safe(d: Dirs) {
    && d.current in d.complete
    && (d.current in d.proven <==> d.trial != Some(d.current))
    && (d.trial == Some(d.current) ==>
          d.previous.Some? && d.previous.value != d.current &&
              d.previous.value in d.complete && d.previous.value in d.proven)
    && (d.trial.Some? && d.trial != Some(d.current) ==> d.previous == Some(d.current))
  }

  /** Every prefix of an install leaves safe directories exactly when the release installed is not
      the current one, and the current one is not itself on trial. */
  lemma {:induction false} InstallIsCrashSafeExactly(d: Dirs, v: Version)
    requires Safe(d)
    ensures (forall k :: 0 <= k <= 5 ==> Safe(InstallPrefix(d, v, k))) <==> v != d.current && d.trial != Some(d.current)
  {
    if v != d.current && d.trial != Some(d.current) {
      forall k | 0 <= k <= 5 ensures Safe(InstallPrefix(d, v, k)) { }
    } else if v == d.current {
      assert !Safe(InstallPrefix(d, v, 1));
    } else {
      assert !Safe(InstallPrefix(d, v, 3));
    }
  }

  /** A commit leaves safe directories exactly when the release that ran is the current one: the
      marker it removes may name a release installed since. */
  lemma {:induction false} CommitIsSafeExactly(d: Dirs, me: Version)
    requires Safe(d) && d.trial == Some(d.current)
    ensures Safe(Committed(d, me)) <==> me == d.current
  {
  }

  // ---- The agent process and its restarts ----

  datatype Install = Install(v: Version, done: nat)
  datatype Commit = Removing | Pruning

  /** The agent: the release it runs, whether that is on trial, the `updating` flag its mutex guards,
      and the install and the commit under way. */
  datatype Agent = Down | Up(me: Version, trial: bool, updating: bool, install: Option<Install>, commit: Option<Commit>)

  datatype State = State(d: Dirs, a: Agent)

  function Init(v: Version): State { State(Dirs({v}, v, None, None, None, {v}), Down) }

  datatype Event =
    | Boot(giveUp: bool) | Stop
    | Offer(v: Version) | InstallStep(ok: bool)
    | CommitBegin | CommitStep(ok: bool) | Prune(v: Version) | PruneEnd

  predicate Enabled(s: State, e: Event) {
    match e
    case Boot(_) => s.a.Down?
    case Stop => s.a.Up?
    case Offer(_) => s.a.Up?
    case InstallStep(_) => s.a.Up? && s.a.install.Some?
    case CommitBegin => s.a.Up? && s.a.trial && !s.a.updating
    case CommitStep(_) => s.a.Up? && s.a.commit == Some(Removing)
    case Prune(v) => s.a.Up? && s.a.commit == Some(Pruning) && Prunable(s.d, v)
    case PruneEnd => s.a.Up? && s.a.commit == Some(Pruning)
  }

  /** The agent installs an offer unless it runs, was rejected or something is under way. */
  predicate Takes(s: State, v: Version)
    requires s.a.Up?
  {
    v != s.a.me && s.d.rejected != Some(v) && !s.a.updating
  }

  /** The install's next effect; download, extraction and the smoke run come before the first. */
  function InstallStepped(s: State, ok: bool): State
    requires s.a.Up? && s.a.install.Some?
  {
    var i := s.a.install.value;
    if !ok then s.(a := s.a.(install := None, updating := false))
    else
      var d := match i.done
        case 0 => Removed(s.d, i.v)
        case 1 => Placed(s.d, i.v)
        case 2 => LinkedPrevious(s.d)
        case 3 => Marked(s.d, i.v)
        case _ => Switched(s.d, i.v);
      if i.done < 4 then State(d, s.a.(install := Some(Install(i.v, i.done + 1))))
      else State(d, s.a.(install := None, updating := false))
  }

  function Booted(d: Dirs): State {
    State(d, Up(d.current, d.trial == Some(d.current), false, None, None))
  }

  function Step(s: State, e: Event): State
    requires Enabled(s, e)
  {
    match e
    case Boot(giveUp) => Booted(if giveUp then RolledBack(s.d) else s.d)
    case Stop => s.(a := Down)
    case Offer(v) => if Takes(s, v) then s.(a := s.a.(updating := true, install := Some(Install(v, 0)))) else s
    case InstallStep(ok) => InstallStepped(s, ok)
    case CommitBegin => s.(a := s.a.(trial := false, updating := true, commit := Some(Removing)))
    case CommitStep(ok) =>
      if ok then State(Committed(s.d, s.a.me), s.a.(commit := Some(Pruning)))
      else s.(a := s.a.(updating := false, commit := None))
    case Prune(v) => s.(d := Removed(s.d, v))
    case PruneEnd => s.(a := s.a.(updating := false, commit := None))
  }

  /** An install and a commit with its prune never overlap: `updating` is set through either. An
      install is of another release than the one running, and a commit has cleared the trial flag. */
  ghost predicate Apart(s: State) {
    s.a.Up? ==>
      && (s.a.install.Some? ==>
          s.a.updating && s.a.commit.None? && s.a.install.value.done <= 4 && s.a.install.value.v != s.a.me)
      && (s.a.commit.Some? ==> s.a.updating && !s.a.trial)
  }

  /** The install under way began from a release that proved itself and is not the one installed. */
  ghost predicate InstallFits(s: State) {
    s.a.Up? && s.a.install.Some? ==>
      var i := s.a.install.value;
      && i.v != s.d.current && s.d.current in s.d.proven
      && (i.done >= 1 ==> i.v !in s.d.proven)
      && (i.done >= 2 ==> i.v in s.d.complete)
      && (i.done >= 3 ==> s.d.previous == Some(s.d.current))
      && (i.done >= 4 ==> s.d.trial == Some(i.v))
  }

  ghost predicate CommitFits(s: State) {
    s.a.Up? && s.a.commit == Some(Removing) ==> s.a.me == s.d.current && s.d.trial == Some(s.d.current)
  }

  /** The trial flag of a running agent is that of the release it runs. */
  ghost predicate TrialFits(s: State) {
    s.a.Up? && s.a.trial && s.a.me == s.d.current ==> s.d.trial == Some(s.d.current)
  }

  ghost predicate Inv(s: State) {
    Safe(s.d) && Apart(s) && InstallFits(s) && CommitFits(s) && TrialFits(s)
  }

  /** What the exact conditions above ask of a step: an offer taken is of another release than the
      current one, which is not on trial, and a commit is of the current release. */
  predicate Careful(s: State, e: Event) {
    && (e.Offer? && s.a.Up? && Takes(s, e.v) ==> e.v != s.d.current && s.d.trial != Some(s.d.current))
    && (e.CommitBegin? && s.a.Up? ==> s.a.me == s.d.current)
  }

  lemma {:induction false} InstallStepKeeps(s: State, ok: bool)
    requires Inv(s) && Enabled(s, InstallStep(ok))
    ensures Inv(Step(s, InstallStep(ok)))
  {
  }

  lemma {:induction false} StepKeepsInv(s: State, e: Event)
    requires Inv(s) && Enabled(s, e) && Careful(s, e)
    ensures Inv(Step(s, e))
  {
    if e.InstallStep? {
      InstallStepKeeps(s, e.ok);
    }
  }

  ghost predicate Legal(s: State, es: seq<Event>)
    decreases |es|
  {
    es == [] || (Enabled(s, es[0]) && Legal(Step(s, es[0]), es[1..]))
  }

  ghost function After(s: State, es: seq<Event>): State
    requires Legal(s, es)
    decreases |es|
  {
    if es == [] then s else After(Step(s, es[0]), es[1..])
  }

  ghost predicate AllCareful(s: State, es: seq<Event>)
    requires Legal(s, es)
    decreases |es|
  {
    es == [] || (Careful(s, es[0]) && AllCareful(Step(s, es[0]), es[1..]))
  }

  lemma {:induction false} CarefulRunKeepsInv(s: State, es: seq<Event>)
    requires Inv(s) && Legal(s, es) && AllCareful(s, es)
    ensures Inv(After(s, es))
    decreases |es|
  {
    if es != [] {
      StepKeepsInv(s, es[0]);
      CarefulRunKeepsInv(Step(s, es[0]), es[1..]);
    }
  }

  /** In every run of offers, installs, commits, prunes, stops at any step and rollbacks that meets
      the exact conditions, `current` names a complete release that proved itself, or one on trial
      whose predecessor the wrapper can return to. */
  lemma {:induction false} EveryCarefulRunIsCrashSafe(v: Version, es: seq<Event>)
    requires Legal(Init(v), es) && AllCareful(Init(v), es)
    ensures Safe(After(Init(v), es).d)
  {
    CarefulRunKeepsInv(Init(v), es);
  }

  lemma {:induction false} ApartKept(s: State, es: seq<Event>)
    requires Apart(s) && Legal(s, es)
    ensures Apart(After(s, es))
    decreases |es|
  {
    if es != [] {
      ApartKept(Step(s, es[0]), es[1..]);
    }
  }

  /** What was under way ends: a finished or failed install, a failed commit and the end of a prune leave
      the agent free to take the next offer. */
  lemma {:induction false} WorkEnds(s: State, v: Version)
    requires s.a.Up? && v != s.a.me
    ensures s.a.install.Some? ==> Step(s, InstallStep(false)).a == s.a.(install := None, updating := false)
    ensures s.a.install.Some? && s.a.install.value.done >= 4 ==>
      Step(s, InstallStep(true)).a == s.a.(install := None, updating := false)
    ensures s.a.commit == Some(Removing) ==> Step(s, CommitStep(false)).a == s.a.(commit := None, updating := false)
    ensures s.a.commit == Some(Pruning) ==> Step(s, PruneEnd).a == s.a.(commit := None, updating := false)
    ensures !s.a.updating && s.d.rejected != Some(v) ==> Step(s, Offer(v)).a.install == Some(Install(v, 0))
    ensures Enabled(s, Prune(v)) ==> Step(s, Prune(v)).d.complete == s.d.complete - {v}
  {
  }

  /** In every run at all, an install never overlaps a commit or its prune. */
  lemma {:induction false} InstallAndPruneNeverOverlap(v: Version, es: seq<Event>)
    requires Legal(Init(v), es)
    ensures var s := After(Init(v), es); s.a.Up? ==> s.a.install.None? || s.a.commit.None?
  {
    ApartKept(Init(v), es);
  }

  /** From safe directories the wrapper gives up a current release on trial for one that proved itself,
      and the agent it then starts refuses the release given up; any other marker it only clears. */
  lemma {:induction false} RollbackReturns(d: Dirs)
    requires Safe(d) && d.trial.Some?
    ensures var r := RolledBack(d);
      && Safe(r) && r.trial.None? && r.rejected == d.trial && r.complete == d.complete
      && Some(r.current) == d.previous && r.current in r.proven
      && !Takes(Booted(r), d.trial.value)
  {
  }

  /** An offer taken while the current release is on trial, and stopped after it linked `previous`,
      leaves the wrapper nothing but the release on trial to return to. */
  lemma {:induction false} OfferDuringTrialStrandsRollback(d: Dirs, v: Version)
    requires Safe(d) && d.trial == Some(d.current) && v != d.current
    ensures !Safe(InstallPrefix(d, v, 3)) && RolledBack(InstallPrefix(d, v, 3)).current == d.current
    ensures d.current !in RolledBack(InstallPrefix(d, v, 3)).proven
  {
  }

  lemma {:induction false} PlayFirst(s: State, e: Event, es: seq<Event>)
    requires Enabled(s, e) && Legal(Step(s, e), es)
    ensures Legal(s, [e] + es) && After(s, [e] + es) == After(Step(s, e), es)
  {
    assert ([e] + es)[1..] == es;
  }

  function Steps(k: nat): seq<Event> { if k == 0 then [] else [InstallStep(true)] + Steps(k - 1) }

  /** The state after k more effects of the install under way. */
  function Progressed(s: State, k: nat): State
    requires s.a.Up? && s.a.install.Some? && s.a.install.value.done + k <= 5
    decreases k
  {
    if k == 0 then s
    else if s.a.install.value.done == 4 then InstallStepped(s, true)
    else Progressed(InstallStepped(s, true), k - 1)
  }

  lemma {:induction false} PlaySteps(s: State, k: nat, es: seq<Event>)
    requires s.a.Up? && s.a.install.Some? && s.a.install.value.done + k <= 5
    requires Legal(Progressed(s, k), es)
    ensures Legal(s, Steps(k) + es) && After(s, Steps(k) + es) == After(Progressed(s, k), es)
    decreases k
  {
    if k == 0 {
      assert Steps(0) + es == es;
    } else {
      var t := InstallStepped(s, true);
      assert Steps(k) + es == [InstallStep(true)] + (Steps(k - 1) + es);
      if s.a.install.value.done == 4 {
        assert k == 1 && Steps(0) + es == es;
      } else {
        PlaySteps(t, k - 1, es);
      }
      PlayFirst(s, InstallStep(true), Steps(k - 1) + es);
    }
  }

  /** An update to v, the start of v on trial, and an offer of w cut short once it linked `previous`. */
  function TwoOffers(v: Version, w: Version): seq<Event> {
    [Boot(false)] + ([Offer(v)] + (Steps(5) + ([Stop] + ([Boot(false)] + ([Offer(w)] + (Steps(3) + ([Stop] + [])))))))
  }

  /** That run is one the code allows, and it ends unsafe: `current` and `previous` both name v,
      which never opened a session. */
  lemma {:induction false} TwoOffersStrandTheHost(u: Version, v: Version, w: Version)
    requires u != v && v != w
    ensures Legal(Init(u), TwoOffers(v, w))
    ensures var d := After(Init(u), TwoOffers(v, w)).d;
      !Safe(d) && d.current == v && d.previous == Some(v) && v !in d.proven
  {
    var s0 := Init(u);
    var s1 := Step(s0, Boot(false));
    var s2 := Step(s1, Offer(v));
    var s3 := Progressed(s2, 5);
    assert s3.d.current == v && s3.d.trial == Some(v) && s3.d.previous == Some(u)
        && s3.d.rejected == None && v !in s3.d.proven by {
      ProgressIsPrefix(s2, v, 5);
    }
    assert s3.a.Up? by { ProgressIsPrefix(s2, v, 5); }
    var s4 := Step(s3, Stop);
    var s5 := Step(s4, Boot(false));
    var s6 := Step(s5, Offer(w));
    var s7 := Progressed(s6, 3);
    ProgressIsPrefix(s6, w, 3);
    var s8 := Step(s7, Stop);
    PlayFirst(s7, Stop, []);
    PlaySteps(s6, 3, [Stop] + []);
    PlayFirst(s5, Offer(w), Steps(3) + ([Stop] + []));
    var r5 := [Offer(w)] + (Steps(3) + ([Stop] + []));
    PlayFirst(s4, Boot(false), r5);
    PlayFirst(s3, Stop, [Boot(false)] + r5);
    PlaySteps(s2, 5, [Stop] + ([Boot(false)] + r5));
    PlayFirst(s1, Offer(v), Steps(5) + ([Stop] + ([Boot(false)] + r5)));
    PlayFirst(s0, Boot(false), [Offer(v)] + (Steps(5) + ([Stop] + ([Boot(false)] + r5))));
  }

  /** The first release runs, and v is installed: what the two runs below begin with. */
  lemma {:induction false} PlayInstall(u: Version, v: Version, es: seq<Event>)
    requires u != v && Legal(Installed(u, v), es)
    ensures Legal(Init(u), [Boot(false)] + ([Offer(v)] + (Steps(5) + es)))
    ensures After(Init(u), [Boot(false)] + ([Offer(v)] + (Steps(5) + es))) == After(Installed(u, v), es)
  {
    var s1 := Step(Init(u), Boot(false));
    var s2 := Step(s1, Offer(v));
    InstalledOnce(s2, v);
    var d := InstallPrefix(s2.d, v, 5);
    assert d.complete == {u, v} && d.proven == {u};
    assert Progressed(s2, 5) == Installed(u, v);
    PlaySteps(s2, 5, es);
    PlayFirst(s1, Offer(v), Steps(5) + es);
    PlayFirst(Init(u), Boot(false), [Offer(v)] + (Steps(5) + es));
  }

  /** u still runs, v is current and on trial, and nothing is under way. */
  function Installed(u: Version, v: Version): State {
    State(Dirs({u, v}, v, Some(u), Some(v), None, {u}), Up(u, false, false, None, None))
  }

  lemma {:induction false} InstalledOnce(s: State, v: Version)
    requires s.a.Up? && s.a.install == Some(Install(v, 0))
    ensures Progressed(s, 5) == State(InstallPrefix(s.d, v, 5), s.a.(install := None, updating := false))
  {
    var s1 := InstallStepped(s, true);
    var s2 := InstallStepped(s1, true);
    var s3 := InstallStepped(s2, true);
    var s4 := InstallStepped(s3, true);
    assert Progressed(s4, 1) == InstallStepped(s4, true);
    assert Progressed(s3, 2) == Progressed(s4, 1);
    assert Progressed(s2, 3) == Progressed(s3, 2);
    assert Progressed(s1, 4) == Progressed(s2, 3);
  }

  /** Before the restart the same release is offered again: the install removes what `current` names. */
  lemma {:induction false} RepeatedOfferRemovesCurrent(u: Version, v: Version)
    requires u != v
    ensures var es := [Boot(false)] + ([Offer(v)] + (Steps(5) + ([Offer(v)] + ([InstallStep(true)] + []))));
      && Legal(Init(u), es)
      && !Safe(After(Init(u), es).d) && After(Init(u), es).d.current !in After(Init(u), es).d.complete
  {
    var s := Installed(u, v);
    var t := Step(s, Offer(v));
    PlayFirst(t, InstallStep(true), []);
    PlayFirst(s, Offer(v), [InstallStep(true)] + []);
    PlayInstall(u, v, [Offer(v)] + ([InstallStep(true)] + []));
  }

  /** v, on trial, installs w and then commits before it restarts: the marker it removes is w's, so w,
      which never ran, is current without a trial. */
  lemma {:induction false} CommitAfterInstallEndsTrial(u: Version, v: Version, w: Version)
    requires u != v && v != w
    ensures var rest :=
      [Stop] + ([Boot(false)] + ([Offer(w)] + (Steps(5) + ([CommitBegin] + ([CommitStep(true)] + [])))));
      var es := [Boot(false)] + ([Offer(v)] + (Steps(5) + rest));
      && Legal(Init(u), es)
      && !Safe(After(Init(u), es).d) && After(Init(u), es).d.current == w
      && After(Init(u), es).d.trial.None? && w !in After(Init(u), es).d.proven
  {
    var s3 := Installed(u, v);
    var s4 := Step(s3, Stop);
    var s5 := Step(s4, Boot(false));
    var s6 := Step(s5, Offer(w));
    InstalledOnce(s6, w);
    var s7 := Progressed(s6, 5);
    assert w !in s7.d.proven && s7.d.current == w && s7.a == Up(v, true, false, None, None);
    var s8 := Step(s7, CommitBegin);
    PlayFirst(s8, CommitStep(true), []);
    PlayFirst(s7, CommitBegin, [CommitStep(true)] + []);
    var r7 := [CommitBegin] + ([CommitStep(true)] + []);
    PlaySteps(s6, 5, r7);
    PlayFirst(s5, Offer(w), Steps(5) + r7);
    PlayFirst(s4, Boot(false), [Offer(w)] + (Steps(5) + r7));
    PlayFirst(s3, Stop, [Boot(false)] + ([Offer(w)] + (Steps(5) + r7)));
    PlayInstall(u, v, [Stop] + ([Boot(false)] + ([Offer(w)] + (Steps(5) + r7))));
  }

  /** The effects an install applies one by one are the prefixes of the whole. */
  lemma {:induction false} ProgressIsPrefix(s: State, v: Version, k: nat)
    requires s.a.Up? && s.a.install == Some(Install(v, 0)) && k <= 5
    ensures Progressed(s, k).d == InstallPrefix(s.d, v, k) && Progressed(s, k).a.Up?
  {
    ProgressFrom(s, s.d, v, k);
  }

  lemma {:induction false} ProgressFrom(s: State, d: Dirs, v: Version, k: nat)
    requires s.a.Up? && s.a.install.Some? && s.a.install.value.v == v && s.a.install.value.done + k <= 5
    requires s.d == InstallPrefix(d, v, s.a.install.value.done)
    ensures Progressed(s, k).d == InstallPrefix(d, v, s.a.install.value.done + k) && Progressed(s, k).a.Up?
    decreases k
  {
    if k > 0 && s.a.install.value.done < 4 {
      ProgressFrom(InstallStepped(s, true), d, v, k - 1);
    }
  }

  /** The agent object: the sections under its mutex, and the install's effects in order. */
  class Updater {
    const version: Version
    var trial: bool
    var updating: bool
    var dirs: Dirs

    constructor (version: Version, dirs: Dirs)
      ensures this.version == version && this.dirs == dirs && !updating
      ensures trial <==> dirs.trial == Some(version)
    {
      this.version, this.dirs, updating := version, dirs, false;
      trial := dirs.trial == Some(version);
    }

    /** update: whether the offer's install starts. */
    method Offered(v: Version) returns (taken: bool)
      modifies this
      ensures taken <==> v != version && old(dirs).rejected != Some(v) && !old(updating)
      ensures updating == (old(updating) || taken) && trial == old(trial) && dirs == old(dirs)
    {
      if v == version || dirs.rejected == Some(v) {
        return false;
      }
      var busy := updating;
      updating := true;
      return !busy;
    }

    /** installRelease, any of whose steps may fail; what is on disk is always some prefix. */
    method InstallRelease(v: Version) returns (ok: bool, k: nat)
      requires updating
      modifies this
      ensures k <= 5 && dirs == InstallPrefix(old(dirs), v, k) && (ok <==> k == 5)
      ensures ok ==> dirs.current == v && v in dirs.complete && dirs.trial == Some(v) && v !in dirs.proven
      ensures ok ==> dirs.previous == Some(old(dirs).current) && dirs.rejected == old(dirs).rejected
      ensures !ok ==> dirs.current == old(dirs).current
      ensures !updating && trial == old(trial)
      ensures Safe(old(dirs)) && v != old(dirs).current && old(dirs).trial != Some(old(dirs).current) ==> Safe(dirs)
    {
      ghost var start := dirs;
      ok, k := false, 0;
      var failed: bool := *;
      while k < 5 && !failed
        invariant k <= 5 && dirs == InstallPrefix(start, v, k) && updating && trial == old(trial)
        decreases 5 - k, !failed
      {
        match k {
          case 0 => dirs := Removed(dirs, v);
          case 1 => dirs := Placed(dirs, v);
          case 2 => dirs := LinkedPrevious(dirs);
          case 3 => dirs := Marked(dirs, v);
          case _ => dirs := Switched(dirs, v);
        }
        k := k + 1;
        failed := *;
      }
      ok := k == 5;
      SafeInstallPrefix(start, v, k);
      updating := false;
    }

    /** commitAfterSession's section: whether the commit starts. */
    method BeginCommit() returns (begun: bool)
      modifies this
      ensures begun <==> old(trial) && !old(updating)
      ensures trial == (old(trial) && !begun) && updating == (old(updating) || begun) && dirs == old(dirs)
    {
      begun := trial && !updating;
      if begun {
        trial, updating := false, true;
      }
    }

    /** pruneReleases over the entries of the releases directory; any removal may fail and end it,
        having removed part of the release or nothing. */
    method PruneReleases(entries: seq<Version>, mounted: set<Version>) returns (n: nat)
      requires updating
      modifies this`dirs
      ensures n <= |entries| && dirs == Pruned(old(dirs), entries[..n], mounted)
      ensures Safe(old(dirs)) ==> Safe(dirs)
    {
      n := 0;
      var failed := false;
      while n < |entries| && !failed
        invariant n <= |entries| && dirs == Pruned(old(dirs), entries[..n], mounted)
        decreases |entries| - n, !failed
      {
        var v := entries[n];
        assert entries[..n + 1][..n] == entries[..n];
        PrunedFixes(old(dirs), entries[..n], mounted);
        if !Prunable(dirs, v) || v in mounted {
          n := n + 1;
        } else {
          failed := *;
          var touched: bool := *;
          if !failed || touched {
            dirs := Removed(dirs, v);
            n := n + 1;
          }
        }
      }
      PrunedFixes(old(dirs), entries[..n], mounted);
    }

    /** commitAfterSession once the session stayed open. */
    method Commit(entries: seq<Version>, mounted: set<Version>) returns (committed: bool)
      modifies this
      ensures committed ==> old(trial) && !old(updating) && !trial && !updating && dirs.trial.None?
      ensures !committed ==> dirs == old(dirs)
      ensures Safe(old(dirs)) && old(dirs).trial == Some(old(dirs).current) && old(dirs).current == version ==>
          Safe(dirs)
      ensures dirs.current == old(dirs).current && dirs.previous == old(dirs).previous
      ensures forall v :: v in old(dirs).complete && (v == dirs.current || dirs.previous == Some(v) || v in mounted) ==>
                v in dirs.complete
      ensures committed ==> version in old(dirs).complete && version == dirs.current ==> version in dirs.proven
    {
      var begun := BeginCommit();
      if !begun {
        return false;
      }
      committed := *;
      if committed {
        dirs := Committed(dirs, version);
        var n := PruneReleases(entries, mounted);
        PrunedFixes(Committed(old(dirs), version), entries[..n], mounted);
      }
      updating := false;
    }
  }

  lemma {:induction false} SafeInstallPrefix(d: Dirs, v: Version, k: nat)
    requires k <= 5
    ensures Safe(d) && v != d.current && d.trial != Some(d.current) ==> Safe(InstallPrefix(d, v, k))
  {
    if Safe(d) {
      InstallIsCrashSafeExactly(d, v);
    }
  }
}
