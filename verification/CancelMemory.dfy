/** The bounded, expiring memory of cancels a container keeps for attempts that
    may still arrive in a claim response (internal/agent/container.go). It is
    compared with the full history of cancels. */
module CancelMemory {

  type Attempt = string

  /** Ten minutes, in seconds, and the most cancels remembered at once. */
  const RETENTION: int := 600
  const MAX_CANCELLED: nat := 4096

  datatype Cancel = Cancel(attempt: Attempt, time: int)

  /** The remembered cancels, oldest first. */
  type Memory = seq<Cancel>

  predicate Knows(m: Memory, a: Attempt) {
    exists i :: 0 <= i < |m| && m[i].attempt == a
  }

  predicate Has(m: Memory, a: Attempt, now: int) {
    exists i :: 0 <= i < |m| && m[i].attempt == a && now - m[i].time < RETENTION
  }

  ghost predicate Distinct(m: Memory) {
    forall i, j :: 0 <= i < j < |m| ==> m[i].attempt != m[j].attempt
  }

  ghost predicate Timed(h: seq<Cancel>) {
    forall i, j :: 0 <= i < j < |h| ==> h[i].time <= h[j].time
  }

  ghost predicate Valid(m: Memory) {
    Distinct(m) && Timed(m) && |m| <= MAX_CANCELLED
  }

  /** An add at now drops the i-th cancel once it is the oldest. */
  predicate Goes(m: Memory, now: int, i: nat)
    requires i < |m|
  {
    |m| - i >= MAX_CANCELLED || now - m[i].time >= RETENTION
  }

  /** How many of the oldest cancels an add at now drops, the first i being gone. */
  function Dropped(m: Memory, now: int, i: nat): (k: nat)
    requires i <= |m|
    ensures i <= k <= |m|
    ensures k < |m| ==> !Goes(m, now, k)
    ensures forall j :: i <= j < k ==> Goes(m, now, j)
    decreases |m| - i
  {
    if i < |m| && Goes(m, now, i) then Dropped(m, now, i + 1) else i
  }

  /** The memory after a cancel of a at now. A known attempt keeps its first time. */
  function Add(m: Memory, a: Attempt, now: int): Memory {
    if Knows(m, a) then m else m[Dropped(m, now, 0)..] + [Cancel(a, now)]
  }

  lemma {:induction false} SuffixKeepsValid(m: Memory, k: nat, c: Cancel)
    requires Valid(m) && k <= |m| && |m| - k < MAX_CANCELLED && !Knows(m, c.attempt)
    requires forall i :: 0 <= i < |m| ==> m[i].time <= c.time
    ensures Valid(m[k..] + [c])
  {
    var r := m[k..] + [c];
    assert forall i :: 0 <= i < |m| - k ==> r[i] == m[k + i];
    assert Distinct(r);
    assert Timed(r);
  }

  lemma {:induction false} AddKeepsValid(m: Memory, a: Attempt, now: int)
    requires Valid(m) && forall i :: 0 <= i < |m| ==> m[i].time <= now
    ensures Valid(Add(m, a, now))
  {
    if !Knows(m, a) {
      SuffixKeepsValid(m, Dropped(m, now, 0), Cancel(a, now));
    }
  }

  // ---- The history of cancels ----

  /** The memory after every cancel of h, oldest first. */
  ghost function Replay(h: seq<Cancel>): Memory {
    if h == [] then [] else
      var last := h[|h| - 1];
      Add(Replay(h[..|h| - 1]), last.attempt, last.time)
  }

  /** The cancels of h that were recorded: those of attempts not known then. */
  ghost function Recorded(h: seq<Cancel>): seq<Cancel> {
    if h == [] then [] else
      var before := h[..|h| - 1];
      if Knows(Replay(before), h[|h| - 1].attempt) then Recorded(before) else Recorded(before) + [h[|h| - 1]]
  }

  /** m is the newest of what was recorded, e; the rest overflowed or expired by now. */
  ghost predicate NewestOf(m: Memory, e: seq<Cancel>, now: int) {
    && |m| <= |e|
    && (forall j :: 0 <= j < |m| ==> m[j] == e[|e| - |m| + j])
    && (forall i :: 0 <= i < |e| - |m| ==> |e| - i > MAX_CANCELLED || now - e[i].time >= RETENTION)
  }

  lemma {:induction false} NewestLater(m: Memory, e: seq<Cancel>, now: int, later: int)
    requires NewestOf(m, e, now) && now <= later
    ensures NewestOf(m, e, later)
  {
  }

  lemma {:induction false} NewestExtends(e: seq<Cancel>, m: Memory, now: int, c: Cancel)
    requires NewestOf(m, e, now) && now <= c.time
    ensures NewestOf(m[Dropped(m, c.time, 0)..] + [c], e + [c], c.time)
  {
    var k := Dropped(m, c.time, 0);
    var base := |e| - |m|;
    var m', e' := m[k..] + [c], e + [c];
    forall j | 0 <= j < |m'| ensures m'[j] == e'[base + k + j] {
      if j < |m| - k {
        assert m'[j] == m[k + j];
      }
    }
    forall i | 0 <= i < base + k ensures |e'| - i > MAX_CANCELLED || c.time - e'[i].time >= RETENTION {
      if i >= base {
        assert Goes(m, c.time, i - base) && m[i - base] == e[i];
      }
    }
  }

  /** The memory holds the newest recorded cancels; the older ones overflowed or expired. */
  lemma {:induction false} MemoryIsNewestRecorded(h: seq<Cancel>, now: int)
    requires Timed(h) && (|h| > 0 ==> h[|h| - 1].time <= now)
    ensures NewestOf(Replay(h), Recorded(h), now)
  {
    if h != [] {
      var before, last := h[..|h| - 1], h[|h| - 1];
      assert |before| > 0 ==> before[|before| - 1].time <= last.time;
      MemoryIsNewestRecorded(before, last.time);
      var m, e := Replay(before), Recorded(before);
      if !Knows(m, last.attempt) {
        NewestExtends(e, m, last.time, last);
      }
      NewestLater(Replay(h), Recorded(h), last.time, now);
    }
  }

  lemma {:induction false} RecordedComesFromHistory(h: seq<Cancel>)
    ensures forall c :: c in Recorded(h) ==> c in h
    ensures Timed(h) ==> Timed(Recorded(h))
  {
    if h != [] {
      var before, last := h[..|h| - 1], h[|h| - 1];
      RecordedComesFromHistory(before);
      assert h == before + [last];
      forall i | 0 <= i < |Recorded(before)| && Timed(h) ensures Recorded(before)[i].time <= last.time {
        assert Recorded(before)[i] in before;
      }
    }
  }

  /** Every memory a history of cancels leaves is duplicate-free, sorted by time and bounded. */
  lemma {:induction false} ReplayIsValid(h: seq<Cancel>)
    requires Timed(h)
    ensures Valid(Replay(h))
  {
    if h != [] {
      var before, last := h[..|h| - 1], h[|h| - 1];
      ReplayIsValid(before);
      assert |before| > 0 ==> before[|before| - 1].time <= last.time;
      MemoryIsNewestRecorded(before, last.time);
      RecordedComesFromHistory(before);
      forall i | 0 <= i < |Replay(before)| ensures Replay(before)[i].time <= last.time {
        assert Replay(before)[i] in Recorded(before);
      }
      AddKeepsValid(Replay(before), last.attempt, last.time);
    }
  }

  /** The i-th of the recorded cancels e still counts at now. */
  ghost predicate Counts(e: seq<Cancel>, i: int, now: int) {
    0 <= i < |e| && now - e[i].time < RETENTION && |e| - i <= MAX_CANCELLED
  }

  /** Some recorded cancel of a still counts at now. */
  ghost predicate Answers(e: seq<Cancel>, a: Attempt, now: int) {
    exists i :: Counts(e, i, now) && e[i].attempt == a
  }

  lemma {:induction false} NewestAnswers(m: Memory, e: seq<Cancel>, a: Attempt, now: int)
    requires NewestOf(m, e, now) && |m| <= MAX_CANCELLED
    ensures Has(m, a, now) <==> Answers(e, a, now)
  {
    var base := |e| - |m|;
    forall j | 0 <= j < |m| && m[j].attempt == a && now - m[j].time < RETENTION
      ensures Answers(e, a, now)
    {
      assert Counts(e, base + j, now) && e[base + j].attempt == a;
    }
    forall i | Counts(e, i, now) && e[i].attempt == a ensures Has(m, a, now) {
      assert m[i - base] == e[i];
    }
  }

  /** Exactly which cancels are remembered: a recorded cancel answers until it is RETENTION
      old or MAX_CANCELLED were recorded after it, and nothing else answers. */
  lemma {:induction false} HasIsRecentRecorded(h: seq<Cancel>, a: Attempt, now: int)
    requires Timed(h) && (|h| > 0 ==> h[|h| - 1].time <= now)
    ensures Has(Replay(h), a, now) <==> Answers(Recorded(h), a, now)
  {
    MemoryIsNewestRecorded(h, now);
    ReplayIsValid(h);
    NewestAnswers(Replay(h), Recorded(h), a, now);
  }

  /** An attempt never cancelled never answers. */
  lemma {:induction false} NeverCancelledNeverAnswers(h: seq<Cancel>, a: Attempt, now: int)
    requires Timed(h) && (|h| > 0 ==> h[|h| - 1].time <= now)
    requires forall c :: c in h ==> c.attempt != a
    ensures !Has(Replay(h), a, now)
  {
    HasIsRecentRecorded(h, a, now);
    RecordedComesFromHistory(h);
    forall i | Counts(Recorded(h), i, now) ensures Recorded(h)[i].attempt != a {
      assert Recorded(h)[i] in h;
    }
  }

  lemma {:induction false} RecordedGrows(h: seq<Cancel>, n: nat)
    requires n <= |h|
    ensures Recorded(h[..n]) <= Recorded(h) && |Recorded(h)| <= |Recorded(h[..n])| + |h| - n
    decreases |h|
  {
    if n == |h| {
      assert h[..n] == h;
    } else {
      RecordedGrows(h[..|h| - 1], n);
      assert h[..|h| - 1][..n] == h[..n];
    }
  }

  /** An attempt first cancelled as the n-th cancel answers for RETENTION, unless
      MAX_CANCELLED cancels came after it. */
  lemma {:induction false} FirstCancelIsRemembered(h: seq<Cancel>, n: nat, now: int)
    requires Timed(h) && n < |h| && h[|h| - 1].time <= now
    requires forall i :: 0 <= i < n ==> h[i].attempt != h[n].attempt
    requires now - h[n].time < RETENTION && |h| - n <= MAX_CANCELLED
    ensures Has(Replay(h), h[n].attempt, now)
  {
    var before := h[..n];
    FirstIsRecorded(h, n);
    RecordedGrows(h, n + 1);
    var i := |Recorded(before)|;
    assert Recorded(h)[i] == Recorded(h[..n + 1])[i] == h[n];
    assert Counts(Recorded(h), i, now);
    HasIsRecentRecorded(h, h[n].attempt, now);
  }

  lemma {:induction false} FirstIsRecorded(h: seq<Cancel>, n: nat)
    requires Timed(h) && n < |h| && forall i :: 0 <= i < n ==> h[i].attempt != h[n].attempt
    ensures Recorded(h[..n + 1]) == Recorded(h[..n]) + [h[n]]
  {
    var before := h[..n];
    assert h[..n + 1][..n] == before;
    MemoryIsNewestRecorded(before, h[n].time);
    RecordedComesFromHistory(before);
    forall i | 0 <= i < |Replay(before)| ensures Replay(before)[i].attempt != h[n].attempt {
      assert Replay(before)[i] in Recorded(before);
    }
  }

  /** A cancel is remembered at its own time exactly when its attempt was unknown or still
      within its retention: a known attempt keeps its first time and is not refreshed. */
  lemma {:induction false} CancelIsRememberedExactly(m: Memory, a: Attempt, now: int)
    requires Valid(m)
    ensures Has(Add(m, a, now), a, now) <==> (Knows(m, a) ==> Has(m, a, now))
  {
    if !Knows(m, a) {
      var r := Add(m, a, now);
      assert r[|r| - 1] == Cancel(a, now);
    }
  }

  /** A second cancel, once the first expired and nothing dropped it, is not remembered. */
  lemma {:induction false} ExpiredRecancelIsForgotten(a: Attempt)
    ensures !Has(Replay([Cancel(a, 0), Cancel(a, RETENTION)]), a, RETENTION)
  {
    var h := [Cancel(a, 0), Cancel(a, RETENTION)];
    assert h[..1] == [Cancel(a, 0)] && h[..1][..0] == [];
    var one := Replay([Cancel(a, 0)]);
    assert Replay([]) == [] && !Knows([], a);
    assert one == Add([], a, 0) == [Cancel(a, 0)];
    assert one[0].attempt == a;
    assert Replay(h) == one;
  }

  /** The index the container updates in place: a time per attempt and the attempts in order. */
  class CancelledAttempts {
    var at: map<Attempt, int>
    var order: seq<Attempt>
    ghost var entries: Memory

    ghost predicate Indexed()
      reads this
    {
      && Valid(entries)
      && |order| == |entries|
      && (forall i :: 0 <= i < |order| ==>
          order[i] == entries[i].attempt && order[i] in at && at[order[i]] == entries[i].time)
      && (forall a :: a in at ==> Knows(entries, a))
    }

    constructor ()
      ensures Indexed() && entries == []
    {
      at, order, entries := map[], [], [];
    }

    method DropFront()
      requires Indexed() && |order| > 0
      modifies this
      ensures Indexed() && entries == old(entries)[1..]
    {
      ghost var was := entries;
      at := at - {order[0]};
      order := order[1..];
      entries := entries[1..];
      assert forall i :: 0 <= i < |entries| ==> entries[i] == was[i + 1];
      forall a | a in at ensures Knows(entries, a) {
        var i :| 0 <= i < |was| && was[i].attempt == a;
        assert entries[i - 1].attempt == a;
      }
    }

    method Record(attempt: Attempt, now: int)
      requires Indexed() && forall i :: 0 <= i < |entries| ==> entries[i].time <= now
      modifies this
      ensures Indexed() && entries == Add(old(entries), attempt, now)
    {
      ghost var was := entries;
      assert attempt in at <==> Knows(entries, attempt);
      if attempt in at {
        return;
      }
      ghost var k := 0;
      while |order| > 0 && (|order| >= MAX_CANCELLED || now - at[order[0]] >= RETENTION)
        invariant Indexed() && k <= |was| && entries == was[k..]
        invariant Dropped(was, now, k) == Dropped(was, now, 0)
        decreases |order|
      {
        assert Goes(was, now, k);
        DropFront();
        k := k + 1;
      }
      assert |entries| > 0 ==> !Goes(was, now, k);
      assert entries == was[Dropped(was, now, 0)..];
      AddKeepsValid(was, attempt, now);
      Append(attempt, now);
    }

    method Append(attempt: Attempt, now: int)
      requires Indexed() && Valid(entries + [Cancel(attempt, now)])
      modifies this
      ensures Indexed() && entries == old(entries) + [Cancel(attempt, now)]
    {
      ghost var e := entries;
      assert forall i :: 0 <= i < |e| ==> (e + [Cancel(attempt, now)])[i] == e[i];
      assert (e + [Cancel(attempt, now)])[|e|].attempt == attempt;
      assert forall i :: 0 <= i < |e| ==> e[i].attempt != attempt;
      at := at[attempt := now];
      order := order + [attempt];
      entries := entries + [Cancel(attempt, now)];
      forall a | a in at ensures Knows(entries, a) {
        if a == attempt {
          assert entries[|e|].attempt == a;
        } else {
          var i :| 0 <= i < |e| && e[i].attempt == a;
          assert entries[i].attempt == a;
        }
      }
    }

    method Remembers(attempt: Attempt, now: int) returns (r: bool)
      requires Indexed()
      ensures r <==> Has(entries, attempt, now)
    {
      r := attempt in at && now - at[attempt] < RETENTION;
      assert attempt in at <==> Knows(entries, attempt);
    }
  }
}
