/** Releasing a durable disk (internal/agent/disks.go): the last publish, the detach, the end
    of the lease and the removal of the local copy, over rounds that fail, are retried and
    crash at any step. The disk engine and the server are their documented contracts. */
module DiskLease {
  import opened Options

  /** The engine's local copy: how many writes reached it, were sealed, and are covered by the
      upload awaiting commit and by the committed generation. */
  datatype Disk = Disk(kept: bool, written: nat, sealed: nat, pending: Option<nat>, committed: nat)

  /** The server: whether the lease still holds, how many writes its newest generation covers,
      and whether it ended the lease on its own, as after host loss. */
  datatype Server = Server(lease: bool, saved: nat, ended: bool)

  /** Sealing makes every write so far part of the next upload. */
  function Sealed(d: Disk): Disk { d.(sealed := d.written) }

  /** An upload awaiting commit is returned unchanged; otherwise what is sealed is uploaded. */
  function Uploaded(d: Disk): Disk {
    if d.pending.Some? || d.sealed <= d.committed then d else d.(pending := Some(d.sealed))
  }

  function Recorded(v: Server, k: nat): Server { v.(saved := if v.saved < k then k else v.saved) }

  function Committed(d: Disk, k: nat): Disk { d.(pending := None, committed := k) }

  // ---- The work on one disk, step by step ----

  datatype Stage = ToSeal | ToUpload | ToRecord(k: nat) | ToCommit(k: nat) | ToCollect

  /** What the agent does with the disk: a publish, by the container's loop or final by a release,
      and the rest of a release. `local` says the engine listed a local copy. */
  datatype Work =
    | Idle | Publishing(final: bool, at: Stage)
    | Detaching(local: bool) | Asking(local: bool) | Evicting(local: bool) | Finished

  /** What went wrong in the last round begun under the lease: its publish returned an upload older
      than what is sealed; a refusal by something other than the lease check was taken for the end of
      the lease; a lost attachment's head could not be sealed and the publish went on without it; or a
      host that cannot attach disks now held a copy all the same, and neither looked for nor published
      it. */
  datatype Faults = Faults(stalePending: bool, mistaken: bool, unsealed: bool, unlisted: bool)

  const NO_FAULT := Faults(false, false, false, false)

  /** The disk of one container, with its lease record in the file; `able` is what the agent found at
      its start: whether the host can attach disks. */
  datatype State = State(disk: Disk, server: Server, running: bool, recorded: bool, able: bool, work: Work,
                         faults: Faults)

  function Init(saved: nat): State {
    State(Disk(false, 0, 0, None, 0), Server(true, saved, false), true, false, true, Idle, NO_FAULT)
  }

  datatype Event =
    | Record | Attach | Write | Exit
    | Tend | Round(listed: bool) | Done(ok: bool) | SealLost | Refuse | ReplyLost | HostLost
    | Crash(able: bool) | Forget

  /** The step is a call the server answers only for the lease's holder. */
  predicate OfTheLease(w: Work) { w.Asking? || (w.Publishing? && w.at.ToRecord?) }

  predicate Enabled(s: State, e: Event) {
    match e
    case Record => s.running && !s.recorded && !s.disk.kept && s.work.Idle?
    case Attach => s.able && s.running && s.recorded && !s.disk.kept && s.server.lease
    case Write => s.running && s.disk.kept
    case Exit => s.running
    case Tend => s.running && s.disk.kept && s.work.Idle?
    case Round(_) => !s.running && s.recorded && s.work.Idle?
    // A publish's record, and the release itself, succeed only while the lease holds.
    case Done(ok) => !s.work.Idle? && !s.work.Finished? && (ok && OfTheLease(s.work) ==> s.server.lease)
    // The attachment is gone and its head could not be sealed; the publish goes on all the same.
    case SealLost => s.work.Publishing? && s.work.at.ToSeal?
    // FailedPrecondition: the server's lease check, or another refusal with the same code.
    case Refuse => s.work.Publishing? || (s.work.Asking? && !s.server.lease)
    // The call took effect, and its answer never came.
    case ReplyLost => s.server.lease && OfTheLease(s.work)
    case HostLost => s.server.lease
    // The next agent finds out anew what the host can do.
    case Crash(_) => true
    case Forget => s.work.Finished?
  }

  /** The step under way succeeds. */
  function Succeeded(s: State): State
    requires !s.work.Idle? && !s.work.Finished?
  {
    match s.work
    case Publishing(final, ToSeal) => s.(disk := Sealed(s.disk), work := Publishing(final, ToUpload))
    case Publishing(final, ToUpload) =>
      var d := Uploaded(s.disk);
      s.(disk := d, work := Publishing(final, if d.pending.Some? then ToRecord(d.pending.value) else ToCollect),
         faults := s.faults.(stalePending :=
             s.faults.stalePending || (final && d.pending.Some? && d.pending.value < d.sealed)))
    case Publishing(final, ToRecord(k)) => s.(server := Recorded(s.server, k), work := Publishing(final, ToCommit(k)))
    case Publishing(final, ToCommit(k)) => s.(disk := Committed(s.disk, k), work := Publishing(final, ToCollect))
    case Publishing(final, ToCollect) => s.(work := if final then Detaching(true) else Idle)
    case Detaching(local) => s.(work := Asking(local))
    case Asking(local) => s.(server := s.server.(lease := false), work := Evicting(local))
    case Evicting(local) => s.(disk := if local then s.disk.(kept := false) else s.disk, work := Finished)
  }

  /** A refused final publish counts as a lease that ended; a refused periodic one is a failure. */
  function Refused(s: State): State
    requires s.work.Publishing? || s.work.Asking?
  {
    match s.work
    case Publishing(final, _) =>
      if !final then s.(work := Idle)
      else s.(work := Detaching(true), faults := s.faults.(mistaken := s.faults.mistaken || s.server.lease))
    case _ => s.(work := Evicting(s.work.local))
  }

  function LeftUnsealed(s: State): State
    requires s.work.Publishing?
  {
    s.(work := Publishing(s.work.final, ToUpload),
       faults := s.faults.(unsealed := s.faults.unsealed || (s.work.final && s.disk.sealed < s.disk.written)))
  }

  /** What went wrong in earlier rounds no longer counts while the lease holds. */
  function EarlierFaults(s: State): Faults { if s.server.lease then NO_FAULT else s.faults }

  function Begun(s: State): State {
    s.(work := if s.disk.kept then Publishing(true, ToSeal) else Detaching(false), faults := EarlierFaults(s))
  }

  /** A host that cannot attach disks takes it that it never did, and only ends the lease. */
  function BegunUnable(s: State): State {
    s.(work := Asking(false),
       faults := EarlierFaults(s).(unlisted := EarlierFaults(s).unlisted || s.disk.kept))
  }

  function Step(s: State, e: Event): State
    requires Enabled(s, e)
  {
    match e
    case Record => s.(recorded := true)
    case Attach => s.(disk := Disk(true, s.server.saved, s.server.saved, None, s.server.saved))
    case Write => s.(disk := s.disk.(written := s.disk.written + 1))
    case Exit => s.(running := false)
    case Tend => s.(work := Publishing(false, ToSeal))
    case Round(listed) => if !s.able then BegunUnable(s) else if listed then Begun(s) else s
    case Done(ok) => if ok then Succeeded(s) else s.(work := Idle)
    case SealLost => LeftUnsealed(s)
    case Refuse => Refused(s)
    case ReplyLost =>
      s.(server := if s.work.Asking? then s.server.(lease := false) else Recorded(s.server, s.work.at.k), work := Idle)
    case HostLost => s.(server := s.server.(lease := false, ended := true))
    case Crash(able) => s.(work := Idle, able := able)
    case Forget => s.(recorded := false, work := Idle)
  }

  // ---- What every reachable state keeps ----

  /** Nothing the local copy holds is missing from the server, but for a lease the server ended
      itself or a fault of the round that ended it. */
  predicate Covered(s: State) {
    s.disk.written <= s.server.saved || s.server.ended || s.faults != NO_FAULT
  }

  /** The lease ended in a round of a host that could not attach disks. */
  predicate Abandoned(s: State) { s.faults.unlisted && !s.server.lease }

  ghost predicate DiskFits(s: State) {
    && s.disk.committed <= s.server.saved
    && s.disk.sealed <= s.disk.written
    && (s.disk.pending.Some? ==> s.disk.pending.value <= s.disk.sealed)
    && (s.disk.kept ==> s.recorded || Abandoned(s))
    && (s.disk.kept ==> s.server.saved <= s.disk.written)
  }

  ghost predicate PublishFits(s: State) {
    s.work.Publishing? ==>
      && s.disk.kept
      && (s.work.final ==> !s.running && s.recorded)
      && match s.work.at
         case ToSeal => true
         case ToUpload => s.work.final ==> s.disk.sealed == s.disk.written || s.faults.unsealed
         case ToRecord(k) => s.disk.pending == Some(k) && (s.work.final ==> k == s.disk.written || s.faults != NO_FAULT)
         case ToCommit(k) => s.disk.pending == Some(k) && k <= s.server.saved && (s.work.final ==> Covered(s))
         case ToCollect => s.work.final ==> Covered(s)
  }

  ghost predicate ReleaseFits(s: State) {
    && (s.work.Detaching? || s.work.Asking? || s.work.Evicting? ==> !s.running && s.recorded)
    && (s.work.Detaching? || s.work.Asking? ==> if s.work.local then s.server.lease ==> Covered(s)
                                              else !s.disk.kept || s.faults.unlisted)
    && (s.work.Evicting? ==> !s.server.lease && (s.work.local || !s.disk.kept || s.faults.unlisted))
    && (s.work.Finished? ==> !s.running && !s.server.lease && (!s.disk.kept || s.faults.unlisted))
    && (!s.server.lease ==> !s.disk.kept || Covered(s))
    && (s.running && !s.server.lease ==> s.server.ended)
  }

  ghost predicate Inv(s: State) { DiskFits(s) && PublishFits(s) && ReleaseFits(s) }

  lemma {:induction false} SuccessKeeps(s: State)
    requires Inv(s) && Enabled(s, Done(true))
    ensures Inv(Succeeded(s))
  {
    if s.work.Publishing? {
      PublishStepKeeps(s);
    } else {
      ReleaseStepKeeps(s);
    }
  }

  lemma {:induction false} PublishStepKeeps(s: State)
    requires Inv(s) && Enabled(s, Done(true)) && s.work.Publishing?
    ensures Inv(Succeeded(s))
  {
    if s.work.at.ToSeal? || s.work.at.ToUpload? {
      LocalStepKeeps(s);
    } else {
      SavingStepKeeps(s);
    }
  }

  lemma {:induction false} LocalStepKeeps(s: State)
    requires Inv(s) && s.work.Publishing? && (s.work.at.ToSeal? || s.work.at.ToUpload?)
    ensures Inv(Succeeded(s))
  {
    var t := Succeeded(s);
    assert t.server == s.server && t.disk == if s.work.at.ToSeal? then Sealed(s.disk) else Uploaded(s.disk);
  }

  lemma {:induction false} SavingStepKeeps(s: State)
    requires Inv(s) && Enabled(s, Done(true)) && s.work.Publishing? && !s.work.at.ToSeal? && !s.work.at.ToUpload?
    ensures Inv(Succeeded(s))
  {
    var t := Succeeded(s);
    match s.work.at
    case ToRecord(k) => assert t.disk == s.disk && t.server == Recorded(s.server, k);
    case ToCommit(k) => assert t.server == s.server && t.disk == Committed(s.disk, k);
    case ToCollect => assert t.disk == s.disk && t.server == s.server;
  }

  lemma {:induction false} ReleaseStepKeeps(s: State)
    requires Inv(s) && Enabled(s, Done(true)) && !s.work.Publishing?
    ensures Inv(Succeeded(s))
  {
  }

  /** Every step, failure, lost answer and crash keeps the invariant. */
  lemma {:induction false} StepKeepsInv(s: State, e: Event)
    requires Inv(s) && Enabled(s, e)
    ensures Inv(Step(s, e))
  {
    match e
    case Done(ok) => if ok { SuccessKeeps(s); }
    case Round(_) => RoundKeeps(s, e);
    case SealLost => FaultKeeps(s, e);
    case Refuse => FaultKeeps(s, e);
    case ReplyLost => LossKeeps(s, e);
    case HostLost => LossKeeps(s, e);
    case Crash(_) => LossKeeps(s, e);
    case _ => ContainerKeeps(s, e);
  }

  lemma {:induction false} RoundKeeps(s: State, e: Event)
    requires Inv(s) && Enabled(s, e) && e.Round?
    ensures Inv(Step(s, e))
  {
  }

  lemma {:induction false} FaultKeeps(s: State, e: Event)
    requires Inv(s) && Enabled(s, e) && (e.SealLost? || e.Refuse?)
    ensures Inv(Step(s, e))
  {
  }

  lemma {:induction false} LossKeeps(s: State, e: Event)
    requires Inv(s) && Enabled(s, e) && (e.ReplyLost? || e.HostLost? || e.Crash?)
    ensures Inv(Step(s, e))
  {
  }

  lemma {:induction false} ContainerKeeps(s: State, e: Event)
    requires Inv(s) && Enabled(s, e)
    requires e.Record? || e.Attach? || e.Write? || e.Exit? || e.Tend? || e.Forget?
    ensures Inv(Step(s, e))
  {
  }

  ghost predicate Legal(s: State, es: seq<Event>)
    decreases |es|
  {
    es == [] || (Enabled(s, es[0]) && Legal(Step(s, es[0]), es[1..]))
  }

  ghost function After(s: State, es: seq<Event>): State
    requires Legal(s, es)
    decreases |es|
  {
    if es == [] then s else After(Step(s, es[0]), es[1..])
  }

  lemma {:induction false} EveryRunKeepsInv(s: State, es: seq<Event>)
    requires Inv(s) && Legal(s, es)
    ensures Inv(After(s, es))
    decreases |es|
  {
    if es != [] {
      StepKeepsInv(s, es[0]);
      EveryRunKeepsInv(Step(s, es[0]), es[1..]);
    }
  }

  /** In every run of rounds, failures, lost answers, crashes and restarts: a local copy has a lease
      record; it is removed only once the server accepted or fenced the release, and then the server
      has every write it held, unless it ended the lease itself, or in the round that ended it the
      publish met an older upload, another refusal was taken for a fence, a lost attachment's head
      stayed unsealed, or the host could not attach disks; a record is dropped only for a release that
      completed; and only in the last of these cases does that leave a copy behind. */
  lemma {:induction false} EvictedOnlyWhenSaved(saved: nat, es: seq<Event>)
    requires Legal(Init(saved), es)
    ensures var s := After(Init(saved), es);
      && (s.disk.kept ==> s.recorded || Abandoned(s))
      && (s.work.Evicting? ==> !s.server.lease)
      && (s.work.Evicting? && s.disk.kept ==> Covered(s))
      && (Enabled(s, Forget) ==> !s.server.lease && !s.running && (!s.disk.kept || s.faults.unlisted))
  {
    EveryRunKeepsInv(Init(saved), es);
  }

  /** A lost answer is no lost effect: the lease ended, or the generation was recorded, and the round is
      over; and a lease the server ends itself is over whatever the agent does. */
  lemma {:induction false} LostAnswersHadEffect(s: State)
    requires Inv(s)
    ensures s.server.lease && s.work.Asking? ==>
      Step(s, ReplyLost) == s.(server := s.server.(lease := false), work := Idle)
    ensures s.server.lease && s.work.Publishing? && s.work.at.ToRecord? ==>
      var t := Step(s, ReplyLost);
      t.server.saved >= s.work.at.k && t.server.lease && t.disk == s.disk && t.work == Idle
    ensures s.server.lease ==> Step(s, HostLost) == s.(server := Server(false, s.server.saved, true))
  {
  }

  // ---- Exactly when an undisturbed release saves everything ----

  function Times(n: nat): seq<Event> { seq(n, _ => Done(true)) }

  lemma {:induction false} OneStep(s: State, n: nat)
    requires n > 0 && Enabled(s, Done(true)) && Legal(Succeeded(s), Times(n - 1))
    ensures Legal(s, Times(n)) && After(s, Times(n)) == After(Succeeded(s), Times(n - 1))
  {
    assert Times(n)[1..] == Times(n - 1);
  }

  /** The seal of a round: it succeeds, or the attachment is lost and its head stays unsealed. */
  function Sealing(sealed: bool): Event { if sealed then Done(true) else SealLost }

  /** The local copy as the round's upload finds it. */
  function ToPublish(d: Disk, sealed: bool): Disk { Uploaded(if sealed then Sealed(d) else d) }

  /** The steps of a round once it sealed, when each of them succeeds. */
  function Rest(d: Disk, sealed: bool): seq<Event> { Times(if ToPublish(d, sealed).pending.Some? then 7 else 5) }

  /** A round whose steps succeed, but for a head that may stay unsealed: what it removes and saves. */
  lemma {:induction false} UndisturbedRound(s: State, sealed: bool)
    requires Inv(s) && Enabled(s, Round(true)) && s.able && s.disk.kept && s.server.lease
    ensures var d := ToPublish(s.disk, sealed);
      var b := Step(Step(s, Round(true)), Sealing(sealed));
      && Legal(b, Rest(s.disk, sealed))
      && !After(b, Rest(s.disk, sealed)).disk.kept && After(b, Rest(s.disk, sealed)).work == Finished
      && After(b, Rest(s.disk, sealed)).server.saved
         == if d.pending.Some? then Recorded(s.server, d.pending.value).saved else s.server.saved
  {
    var b := Step(Step(s, Round(true)), Sealing(sealed));
    var c := Succeeded(b);
    assert c.disk == ToPublish(s.disk, sealed) && c.server == s.server;
    if c.disk.pending.Some? {
      var d := Succeeded(c);
      var e := Succeeded(d);
      LastSteps(e);
      OneStep(d, 5);
      OneStep(c, 6);
      OneStep(b, 7);
    } else {
      LastSteps(c);
      OneStep(b, 5);
    }
  }

  /** From the detach on, when each step succeeds. */
  lemma {:induction false} DetachToEnd(s: State)
    requires s.work == Detaching(true) && s.server.lease
    ensures Legal(s, Times(3))
    ensures var t := After(s, Times(3)); t.work == Finished && !t.disk.kept && t.server.saved == s.server.saved
  {
    var a := Succeeded(s);
    var b := Succeeded(a);
    var c := Succeeded(b);
    assert Legal(c, Times(0)) && After(c, Times(0)) == c;
    OneStep(b, 1);
    OneStep(a, 2);
    OneStep(s, 3);
  }

  lemma {:induction false} LastSteps(s: State)
    requires s.work == Publishing(true, ToCollect) && s.server.lease
    ensures Legal(s, Times(4))
    ensures var t := After(s, Times(4)); t.work == Finished && !t.disk.kept && t.server.saved == s.server.saved
  {
    DetachToEnd(Succeeded(s));
    OneStep(s, 4);
  }

  /** What a caller can tell as the round begins: the server has everything, an upload of everything
      awaits commit, or none awaits and everything is sealed or will be. */
  predicate WillSaveAll(s: State, sealed: bool) {
    || s.server.saved == s.disk.written
    || s.disk.pending == Some(s.disk.written)
    || (s.disk.pending.None? && (sealed || s.disk.sealed == s.disk.written))
  }

  /** A round whose steps succeed, but for a head that may stay unsealed, leaves the server with every
      write of the removed copy exactly under that condition. */
  lemma {:induction false} RoundSavesAllExactly(s: State, sealed: bool)
    requires Inv(s) && Enabled(s, Round(true)) && s.able && s.disk.kept && s.server.lease
    ensures var b := Step(Step(s, Round(true)), Sealing(sealed));
      && Legal(b, Rest(s.disk, sealed)) && !After(b, Rest(s.disk, sealed)).disk.kept
      && (After(b, Rest(s.disk, sealed)).server.saved == s.disk.written <==> WillSaveAll(s, sealed))
  {
    UndisturbedRound(s, sealed);
  }

  /** A round of a host that cannot attach disks, whose steps succeed, ends the lease, drops the record
      and leaves the copy: the server has every write exactly if it had them before. */
  lemma {:induction false} UnableRoundSavesExactly(s: State, listed: bool)
    requires Inv(s) && Enabled(s, Round(listed)) && !s.able && s.disk.kept && s.server.lease
    ensures var b := Step(s, Round(listed));
      && Legal(b, Times(2)) && Enabled(After(b, Times(2)), Forget)
      && var t := Step(After(b, Times(2)), Forget);
         && t.disk == s.disk && !t.recorded && !t.server.lease
         && (t.server.saved == s.disk.written <==> s.server.saved == s.disk.written)
  {
    var b := Step(s, Round(listed));
    var c := Succeeded(b);
    var d := Succeeded(c);
    assert Legal(d, Times(0)) && After(d, Times(0)) == d;
    OneStep(c, 1);
    OneStep(b, 2);
  }

  /** A final publish refused at any of its steps while the lease holds ends with the copy removed all
      the same, and the server has every write exactly if it had them when the refusal came. */
  lemma {:induction false} RefusedRoundSavesExactly(s: State)
    requires Inv(s) && s.work.Publishing? && s.work.final && s.server.lease
    ensures var t := Step(s, Refuse);
      && Legal(t, Times(3)) && !After(t, Times(3)).disk.kept && After(t, Times(3)).work == Finished
      && (After(t, Times(3)).server.saved == s.disk.written <==> s.server.saved == s.disk.written)
  {
    DetachToEnd(Step(s, Refuse));
  }

  // ---- Four runs that lose a write ----

  /** The local copy is gone, the server ended nothing itself, and a write is nowhere. */
  predicate LosesAWrite(s: State) {
    !s.disk.kept && !s.server.ended && s.server.saved < s.disk.written
  }

  /** One write after a base generation, and the container exited. */
  function OneWrite(): State {
    State(Disk(true, 2, 1, None, 1), Server(true, 1, false), false, true, true, Idle, NO_FAULT)
  }

  lemma {:induction false} ReachOneWrite(es: seq<Event>)
    requires Legal(OneWrite(), es)
    ensures exists all :: Legal(Init(1), all) && After(Init(1), all) == After(OneWrite(), es)
  {
    var s0 := Init(1);
    var s1 := Step(s0, Record);
    var s2 := Step(s1, Attach);
    var s3 := Step(s2, Write);
    assert Step(s3, Exit) == OneWrite();
    Prepend(s3, Exit, es);
    Prepend(s2, Write, [Exit] + es);
    Prepend(s1, Attach, [Write] + ([Exit] + es));
    Prepend(s0, Record, [Attach] + ([Write] + ([Exit] + es)));
  }

  /** A copy the agent has no record of, whose writes the server lacks though it ended nothing itself. */
  predicate AbandonsAWrite(s: State) {
    s.disk.kept && !s.recorded && !s.server.lease && !s.server.ended && s.server.saved < s.disk.written
  }

  /** The next agent starts on a host that cannot attach disks any more: the lease ends and the record
      goes, while the copy that alone holds the write stays where nothing looks for it. */
  lemma {:induction false} UnableHostAbandonsAWrite()
    ensures exists es :: Legal(Init(1), es) && AbandonsAWrite(After(Init(1), es))
  {
    var s := OneWrite();
    var t := Step(s, Crash(false));
    var u := Step(t, Round(true));
    UnableRoundSavesExactly(t, true);
    var v := Succeeded(u);
    var w := Succeeded(v);
    var x := Step(w, Forget);
    assert AbandonsAWrite(x) && Legal(x, []);
    Prepend(w, Forget, []);
    Prepend(v, Done(true), [Forget] + []);
    var a := [Done(true)] + ([Forget] + []);
    Prepend(u, Done(true), a);
    Prepend(t, Round(true), [Done(true)] + a);
    Prepend(s, Crash(false), [Round(true)] + ([Done(true)] + a));
    ReachOneWrite([Crash(false)] + ([Round(true)] + ([Done(true)] + a)));
  }

  /** A lost attachment whose head could not be sealed: its writes are removed with the copy. */
  lemma {:induction false} UnsealedHeadLosesAWrite()
    ensures exists es :: Legal(Init(1), es) && LosesAWrite(After(Init(1), es))
  {
    var s := OneWrite();
    var t := Step(s, Round(true));
    var u := Step(t, SealLost);
    UndisturbedRound(s, false);
    WrittenStays(u, 5);
    assert LosesAWrite(After(u, Times(5)));
    Prepend(t, SealLost, Times(5));
    Prepend(s, Round(true), [SealLost] + Times(5));
    ReachOneWrite([Round(true)] + ([SealLost] + Times(5)));
  }

  /** The snapshotter refuses to serve the base the upload reads, with the code of a lease that ended. */
  lemma {:induction false} MistakenRefusalLosesAWrite()
    ensures exists es :: Legal(Init(1), es) && LosesAWrite(After(Init(1), es))
  {
    var s := OneWrite();
    var t := Step(s, Round(true));
    var u := Step(t, Done(true));
    var v := Step(u, Refuse);
    DetachToEnd(v);
    WrittenStays(v, 3);
    assert LosesAWrite(After(v, Times(3)));
    Prepend(u, Refuse, Times(3));
    Prepend(t, Done(true), [Refuse] + Times(3));
    Prepend(s, Round(true), [Done(true)] + ([Refuse] + Times(3)));
    ReachOneWrite([Round(true)] + ([Done(true)] + ([Refuse] + Times(3))));
  }

  /** A write after an upload whose record failed is lost by the release: the final publish returns
      that upload unchanged, and the copy that alone holds the write is removed. */
  lemma {:induction false} StaleUploadLosesAWrite()
    ensures exists es :: Legal(Init(0), es) && LosesAWrite(After(Init(0), es))
  {
    var s := UploadNotRecorded();
    var t := Step(s, Round(true));
    var u := Step(t, Done(true));
    UndisturbedRound(s, true);
    WrittenStays(u, 7);
    assert LosesAWrite(After(u, Times(7)));
    Prepend(t, Done(true), Times(7));
    Prepend(s, Round(true), [Done(true)] + Times(7));
    ReachUploadNotRecorded([Round(true)] + ([Done(true)] + Times(7)));
  }

  /** One write uploaded, its record refused, one more write, and the container exited. */
  function UploadNotRecorded(): State {
    State(Disk(true, 2, 1, Some(1), 0), Server(true, 0, false), false, true, true, Idle, NO_FAULT)
  }

  lemma {:induction false} ReachUploadNotRecorded(es: seq<Event>)
    requires Legal(UploadNotRecorded(), es)
    ensures exists all :: Legal(Init(0), all) && After(Init(0), all) == After(UploadNotRecorded(), es)
  {
    var s6 := RecordDue();
    var s7 := Step(s6, Done(false));
    var s8 := Step(s7, Write);
    assert Step(s8, Exit) == UploadNotRecorded();
    Prepend(s8, Exit, es);
    Prepend(s7, Write, [Exit] + es);
    Prepend(s6, Done(false), [Write] + ([Exit] + es));
    ReachRecordDue([Done(false)] + ([Write] + ([Exit] + es)));
  }

  /** One write sealed and uploaded by the container's loop, about to be recorded. */
  function RecordDue(): State {
    State(Disk(true, 1, 1, Some(1), 0), Server(true, 0, false), true, true, true,
          Publishing(false, ToRecord(1)), NO_FAULT)
  }

  lemma {:induction false} ReachRecordDue(es: seq<Event>)
    requires Legal(RecordDue(), es)
    ensures exists all :: Legal(Init(0), all) && After(Init(0), all) == After(RecordDue(), es)
  {
    var s0 := Init(0);
    var s1 := Step(s0, Record);
    var s2 := Step(s1, Attach);
    var s3 := Step(s2, Write);
    var s4 := Step(s3, Tend);
    var s5 := Step(s4, Done(true));
    assert Step(s5, Done(true)) == RecordDue();
    Prepend(s5, Done(true), es);
    Prepend(s4, Done(true), [Done(true)] + es);
    var a := [Done(true)] + ([Done(true)] + es);
    Prepend(s3, Tend, a);
    Prepend(s2, Write, [Tend] + a);
    Prepend(s1, Attach, [Write] + ([Tend] + a));
    Prepend(s0, Record, [Attach] + ([Write] + ([Tend] + a)));
  }

  lemma {:induction false} Prepend(s: State, e: Event, es: seq<Event>)
    requires Enabled(s, e) && Legal(Step(s, e), es)
    ensures Legal(s, [e] + es) && After(s, [e] + es) == After(Step(s, e), es)
  {
    assert ([e] + es)[1..] == es;
  }

  lemma {:induction false} StepWrites(s: State)
    requires Enabled(s, Done(true))
    ensures Succeeded(s).disk.written == s.disk.written && Succeeded(s).server.ended == s.server.ended
  {
  }

  lemma {:induction false} WrittenStays(s: State, n: nat)
    requires Legal(s, Times(n))
    ensures After(s, Times(n)).disk.written == s.disk.written && After(s, Times(n)).server.ended == s.server.ended
    decreases n
  {
    if n > 0 {
      assert Times(n)[1..] == Times(n - 1);
      StepWrites(s);
      WrittenStays(Succeeded(s), n - 1);
    }
  }

  // ---- The release as the agent runs it ----

  datatype Error = Nil | FailedPrecondition | AttachmentLost | NoLocalState | Other

  /** The error a release goes on after: the lease ended, or there was nothing more to publish. */
  predicate Tolerated(e: Error) { !e.Other? }

  /** The writes a publish that goes through saves: those of an upload already awaiting commit, else
      those sealed before a head that stayed unsealed, else all. */
  function Target(d: Disk, unsealed: bool): nat {
    if d.pending.Some? then d.pending.value else if unsealed then d.sealed else d.written
  }

  /** The agent's sequence of calls on the engine and the server, any of which may fail. */
  class Releaser {
    const able: bool
    var disk: Disk
    var server: Server

    constructor (able: bool, disk: Disk, server: Server)
      ensures this.able == able && this.disk == disk && this.server == server
    {
      this.able, this.disk, this.server := able, disk, server;
    }

    ghost predicate Fits()
      reads this
    {
      && disk.committed <= server.saved && disk.sealed <= disk.written
      && (disk.pending.Some? ==> disk.pending.value <= disk.sealed)
    }

    /** publish: seal, upload, record with the server, commit, collect. A lost attachment is reported once all
        of that went through; `unsealed` says its head held writes that could not be sealed. */
    method Publish() returns (e: Error, unsealed: bool)
      requires Fits() && disk.kept
      modifies this
      ensures Fits() && disk.kept && disk.written == old(disk.written)
      ensures server == old(server).(saved := server.saved) && old(server.saved) <= server.saved
      ensures e.Nil? || e.AttachmentLost? ==> server.saved == Recorded(old(server), Target(old(disk), unsealed)).saved
      ensures e.Nil? || e.AttachmentLost? ==> disk.pending.None? && disk.committed >= Target(old(disk), unsealed)
      ensures e.Nil? ==> !unsealed && disk.sealed == disk.written
      ensures unsealed ==> disk.sealed == old(disk).sealed < disk.written
      ensures old(server).lease && !e.Nil? && !e.AttachmentLost? ==> e.Other? || e.FailedPrecondition?
    {
      var refused: bool, failed: bool, lost: bool, headFailed: bool := *, *, *, *;
      unsealed := false;
      if refused || (failed && !server.lease) {
        return FailedPrecondition, unsealed;
      }
      if failed {
        return Other, unsealed;
      }
      if lost && headFailed {
        unsealed := disk.sealed < disk.written;
      } else {
        disk := Sealed(disk);
      }
      e := Save();
      if e.Nil? && lost {
        e := AttachmentLost;
      }
    }

    /** The rest of a publish: what is sealed is uploaded unless an upload awaits commit, recorded
        and committed. */
    method Save() returns (e: Error)
      requires Fits() && disk.kept
      modifies this
      ensures Fits() && disk == old(disk).(pending := disk.pending, committed := disk.committed)
      ensures server == old(server).(saved := server.saved) && old(server.saved) <= server.saved
      ensures e.Nil? || e.Other? || e.FailedPrecondition?
      ensures e.Nil? ==> server.saved == Recorded(old(server), Target(old(disk), true)).saved
      ensures e.Nil? ==> disk.pending.None? && disk.committed >= Target(old(disk), true)
    {
      var refused: bool, failed: bool := *, *;
      if refused || failed {
        return if refused then FailedPrecondition else Other;
      }
      disk := Uploaded(disk);
      if disk.pending.Some? {
        var k := disk.pending.value;
        failed := *;
        if !server.lease || failed {
          return if server.lease then Other else FailedPrecondition;
        }
        server := Recorded(server, k);
        refused, failed := *, *;
        if refused || failed {
          return if refused then FailedPrecondition else Other;
        }
        disk := Committed(disk, k);
      }
      // Collecting what no generation needs any more changes neither, but may fail.
      refused, failed := *, *;
      return if refused then FailedPrecondition else if failed then Other else Nil;
    }

    /** release: the local copy goes only once the lease ended, and a lease the server ended at the
        agent's request covers every write, unless an older upload was awaiting commit, a refusal
        came from elsewhere or a lost attachment's head stayed unsealed. A host that cannot attach
        disks only ends the lease, and leaves whatever copy it has. */
    method Release(answers: Answers) returns (ok: bool, published: Error, mistaken: bool, unsealed: bool)
      requires Fits()
      modifies this
      ensures Fits() && disk.written == old(disk.written)
      ensures ok <==>
        && (able ==> answers.listed && published != Other && answers.detached)
        && (answers.ended || !old(server).lease)
        && (able && old(disk).kept ==> answers.evicted)
      ensures ok ==> !server.lease && (able ==> !disk.kept)
      ensures !able ==> disk == old(disk) && server.saved == old(server).saved && !mistaken && !unsealed
      ensures !able || !old(disk).kept ==> published == Nil
      ensures !disk.kept && old(disk).kept ==> !server.lease
      ensures mistaken <==> published == FailedPrecondition && old(server).lease
      ensures unsealed ==> old(disk).sealed < old(disk).written
      ensures old(disk).kept && !disk.kept && old(server).lease && !mistaken ==>
                server.saved == Recorded(old(server), Target(old(disk), unsealed)).saved
    {
      ok, published, mistaken, unsealed := false, Nil, false, false;
      var local := false;
      if able {
        if !answers.listed {
          return;
        }
        local := disk.kept;
        if local {
          published, unsealed := Publish();
          mistaken := published.FailedPrecondition? && server.lease;
          if !Tolerated(published) {
            return;
          }
        }
        if !answers.detached {
          return;
        }
      }
      if !answers.ended && server.lease {
        return;
      }
      server := server.(lease := false);
      if local {
        if !answers.evicted {
          return;
        }
        disk := disk.(kept := false);
      }
      ok := true;
    }
  }

  /** How the calls of a release other than the publish's turn out: the listing, the detach, the call
      that ends the lease and the removal of the copy. */
  datatype Answers = Answers(listed: bool, detached: bool, ended: bool, evicted: bool)

  function Unreleased(file: seq<string>, released: seq<bool>): seq<string>
    requires |released| == |file|
  {
    if file == [] then []
    else
      var n := |file| - 1;
      Unreleased(file[..n], released[..n]) + if released[n] then [] else [file[n]]
  }

  /** releaseLeases for one container's file: a record is kept unless its release completed, and a
      file that cannot be written keeps them all. `released` says how each release went. */
  method ReleaseAll(file: seq<string>, released: seq<bool>, writable: bool) returns (next: seq<string>)
    requires |released| == |file|
    ensures next == if writable then Unreleased(file, released) else file
    ensures forall d :: d in next <==> exists i :: 0 <= i < |file| && file[i] == d && !(released[i] && writable)
  {
    var kept: seq<string> := [];
    for k := 0 to |file|
      invariant kept == Unreleased(file[..k], released[..k])
      invariant forall d :: d in kept <==> exists i :: 0 <= i < k && file[i] == d && !released[i]
    {
      assert file[..k + 1][..k] == file[..k] && released[..k + 1][..k] == released[..k];
      if !released[k] {
        kept := kept + [file[k]];
      }
    }
    assert file[..|file|] == file && released[..|file|] == released;
    next := if writable then kept else file;
  }
}
