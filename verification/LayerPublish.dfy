/** Publishing a build's layers (internal/agent/convert.go): the agent completes the build,
    acts on the layers each answer names, and sends what that produced, until an answer
    names none. The server may name any layers in any order, and conversions and uploads
    end in any order. */
module LayerPublish {
  import opened Options

  const MAX_PUBLISH_ROUNDS: nat := 4

  type Digest = string

  /** A converted layer's file, by the sizes the server is told. */
  datatype File = File(dataBytes: nat, indexBytes: nat)

  /** A layer an answer names; without an index URL it asks only for sizes. */
  datatype Upload = Upload(digest: Digest, indexUrl: string)

  /** What a request reports of one layer: its sizes, or its stored parts. */
  datatype Report = Sized(digest: Digest, file: File) | Stored(digest: Digest, etags: seq<string>)

  datatype Layer = Layer(converted: Option<File>, rounds: nat, busy: bool,
      sized: Option<Report>, uploaded: Option<Report>)

  type Layers = map<Digest, Layer>

  const FRESH := Layer(None, 0, false, None, None)

  predicate Pending(l: Layer) { l.sized.Some? || l.uploaded.Some? }

  function LayerOf(m: Layers, d: Digest): Layer { if d in m then m[d] else FRESH }

  /** The layer after the agent acts on u naming it, within its rounds. */
  function Acted(l: Layer, u: Upload): Layer {
    if l.busy || Pending(l) then l
    else if l.converted.None? || u.indexUrl != "" then l.(rounds := l.rounds + 1, busy := true)
    else l.(rounds := l.rounds + 1, sized := Some(Sized(u.digest, l.converted.value)))
  }

  /** Acting on u would name its layer more than MAX_PUBLISH_ROUNDS times. */
  predicate Exceeds(l: Layer) {
    !l.busy && !Pending(l) && l.rounds >= MAX_PUBLISH_ROUNDS
  }

  // ---- Counting ----

  /** The reports of a layer already placed in requests: its rounds but the one under way. */
  function Collected(l: Layer): int {
    l.rounds - (if l.busy then 1 else 0) - (if Pending(l) then 1 else 0)
  }

  ghost predicate Covers(m: Layers, names: seq<Digest>) {
    && (forall i, j :: 0 <= i < j < |names| ==> names[i] != names[j])
    && (forall i :: 0 <= i < |names| ==> names[i] in m)
    && (forall d :: d in m ==> d in names)
  }

  ghost function Sum(m: Layers, names: seq<Digest>): int
    requires forall i :: 0 <= i < |names| ==> names[i] in m
  {
    if names == [] then 0 else Sum(m, names[..|names| - 1]) + Collected(m[names[|names| - 1]])
  }

  lemma {:induction false} SumIgnoresOthers(m: Layers, names: seq<Digest>, d: Digest, l: Layer)
    requires forall i :: 0 <= i < |names| ==> names[i] in m && names[i] != d
    ensures Sum(m[d := l], names) == Sum(m, names)
  {
    if names != [] {
      SumIgnoresOthers(m, names[..|names| - 1], d, l);
    }
  }

  lemma {:induction false} SumChanges(m: Layers, names: seq<Digest>, d: Digest, l: Layer)
    requires forall i, j :: 0 <= i < j < |names| ==> names[i] != names[j]
    requires forall i :: 0 <= i < |names| ==> names[i] in m
    requires d in names
    ensures Sum(m[d := l], names) == Sum(m, names) + Collected(l) - Collected(m[d])
  {
    var front, last := names[..|names| - 1], names[|names| - 1];
    if last == d {
      SumIgnoresOthers(m, front, d, l);
    } else {
      SumChanges(m, front, d, l);
    }
  }

  lemma {:induction false} SumIsBounded(m: Layers, names: seq<Digest>)
    requires forall i :: 0 <= i < |names| ==> names[i] in m && m[names[i]].rounds <= MAX_PUBLISH_ROUNDS
    ensures Sum(m, names) <= MAX_PUBLISH_ROUNDS * |names|
  {
    if names != [] {
      SumIsBounded(m, names[..|names| - 1]);
    }
  }

  lemma {:induction false} NamesAreFew(names: seq<Digest>, image: set<Digest>)
    requires DistinctIn(names, image)
    ensures |names| <= |image|
  {
    if names != [] {
      var front, last := names[..|names| - 1], names[|names| - 1];
      NamesAreFew(front, image - {last});
    }
  }

  // ---- The publish ----

  /** A goroutine converting a layer, or uploading a converted one. */
  datatype Job = Convert(digest: Digest) | Store(digest: Digest)

  datatype Outcome = Published | Unanswered | TooManyRounds(digest: Digest) | JobFailed | Cancelled

  /** r waits in its layer to be placed in a request. */
  predicate Waits(m: Layers, r: Report) {
    r.digest in m && (m[r.digest].sized == Some(r) || m[r.digest].uploaded == Some(r))
  }

  predicate Runs(m: Layers, j: Job) {
    j.digest in m && m[j.digest].busy && (j.Convert? <==> m[j.digest].converted.None?)
  }

  predicate LayerFits(d: Digest, l: Layer) {
    && l.rounds <= MAX_PUBLISH_ROUNDS
    && !(l.busy && Pending(l)) && !(l.sized.Some? && l.uploaded.Some?)
    && (l.sized.Some? ==> l.converted.Some? && l.sized.value == Sized(d, l.converted.value))
    && (l.uploaded.Some? ==> l.converted.Some? && l.uploaded.value.Stored? && l.uploaded.value.digest == d)
  }

  /** The publish with its history: the digests named, in the order first named; the calls
      made; the goroutines that run; every report produced, those of sent requests, those of
      requests that were answered, those of the next request and how many were ever placed in
      one; the layers whose sizes a sent request held, and those whose upload started. */
  datatype Pub = Pub(layers: Layers, names: seq<Digest>, calls: nat, jobs: multiset<Job>,
                     made: multiset<Report>, sent: multiset<Report>, answered: multiset<Report>,
                     request: multiset<Report>, collected: int, announced: set<Digest>, stored: set<Digest>)

  const INIT := Pub(map[], [], 0, multiset{}, multiset{}, multiset{}, multiset{}, multiset{}, 0, {}, {})

  ghost predicate Counted(p: Pub) {
    Covers(p.layers, p.names) && p.collected == Sum(p.layers, p.names)
  }

  /** Each layer has at most one job, and only while it is busy. */
  ghost predicate OneJobEach(p: Pub) {
    forall j :: p.jobs[j] == if Runs(p.layers, j) then 1 else 0
  }

  /** Every report produced was sent, is in the next request or waits in its layer, once. */
  ghost predicate ReportedOnce(p: Pub) {
    forall r :: p.made[r] == p.sent[r] + p.request[r] + if Waits(p.layers, r) then 1 else 0
  }

  /** A layer's upload starts only once a sent request held its sizes. */
  ghost predicate SizesFirst(p: Pub) {
    && p.stored <= p.announced
    && (forall d :: d in p.announced ==> exists f :: Sized(d, f) in p.sent)
    && forall d :: d in p.layers && p.layers[d].converted.Some? && p.layers[d].sized.None? ==>
         d in p.announced || Sized(d, p.layers[d].converted.value) in p.request
  }

  ghost predicate AllFit(m: Layers) {
    forall d :: d in m ==> LayerFits(d, m[d])
  }

  ghost predicate Inv(p: Pub) {
    Counted(p) && OneJobEach(p) && ReportedOnce(p) && SizesFirst(p) && AllFit(p.layers)
  }

  // ---- Acting on a named layer ----

  /** A layer named for the first time gets a state of its own. */
  function Admitted(p: Pub, d: Digest): Pub {
    if d in p.layers then p else p.(layers := p.layers[d := FRESH], names := p.names + [d])
  }

  /** The layer's goroutine starts. */
  function Started(p: Pub, d: Digest): Pub
    requires d in p.layers
  {
    var l := p.layers[d];
    var j := if l.converted.None? then Convert(d) else Store(d);
    p.(layers := p.layers[d := l.(rounds := l.rounds + 1, busy := true)], jobs := p.jobs + multiset{j},
       stored := if j.Store? then p.stored + {d} else p.stored)
  }

  /** A converted layer named without upload URLs is sized again at once. */
  function SizedAgain(p: Pub, d: Digest): Pub
    requires d in p.layers && p.layers[d].converted.Some?
  {
    var l := p.layers[d];
    var r := Sized(d, l.converted.value);
    p.(layers := p.layers[d := l.(rounds := l.rounds + 1, sized := Some(r))], made := p.made + multiset{r})
  }

  function ActedOn(p: Pub, u: Upload): Pub {
    var q := Admitted(p, u.digest);
    var l := q.layers[u.digest];
    if l.busy || Pending(l) then q
    else if l.converted.None? || u.indexUrl != "" then Started(q, u.digest)
    else SizedAgain(q, u.digest)
  }

  lemma {:induction false} CoversGrows(m: Layers, names: seq<Digest>, d: Digest)
    requires Covers(m, names) && d !in m
    ensures Covers(m[d := FRESH], names + [d])
  {
    assert forall i :: 0 <= i < |names| ==> names[i] in m && names[i] != d;
  }

  lemma {:induction false} SumGrows(m: Layers, names: seq<Digest>, d: Digest)
    requires d !in m && forall i :: 0 <= i < |names| ==> names[i] in m
    ensures Sum(m[d := FRESH], names + [d]) == Sum(m, names)
  {
    assert (names + [d])[..|names|] == names;
    SumIgnoresOthers(m, names, d, FRESH);
  }

  lemma {:induction false} AdmitKeepsJobs(p: Pub, d: Digest)
    requires OneJobEach(p) && ReportedOnce(p)
    ensures OneJobEach(Admitted(p, d)) && ReportedOnce(Admitted(p, d))
  {
    var q := Admitted(p, d);
    forall j ensures Runs(q.layers, j) == Runs(p.layers, j) { }
    forall r ensures Waits(q.layers, r) == Waits(p.layers, r) { }
  }

  lemma {:induction false} AdmitKeepsSizes(p: Pub, d: Digest)
    requires SizesFirst(p) && AllFit(p.layers)
    ensures SizesFirst(Admitted(p, d)) && AllFit(Admitted(p, d).layers)
  {
  }

  lemma {:induction false} AdmitKeeps(p: Pub, d: Digest)
    requires Inv(p)
    ensures Inv(Admitted(p, d))
  {
    if d !in p.layers {
      var q := Admitted(p, d);
      assert Counted(q) by {
        CoversGrows(p.layers, p.names, d);
        SumGrows(p.layers, p.names, d);
      }
      AdmitKeepsJobs(p, d);
      AdmitKeepsSizes(p, d);
    }
  }

  /** Replacing one layer by another with as many reports collected keeps the count. */
  lemma {:induction false} CountKept(p: Pub, q: Pub, d: Digest, l: Layer)
    requires Counted(p) && d in p.layers && Collected(l) == Collected(p.layers[d])
    requires q.layers == p.layers[d := l] && q.names == p.names && q.collected == p.collected
    ensures Counted(q)
  {
    SumChanges(p.layers, p.names, d, l);
  }

  lemma {:induction false} StartKeeps(p: Pub, d: Digest)
    requires Inv(p) && p.request == multiset{} && d in p.layers && !p.layers[d].busy && !Pending(p.layers[d])
    requires p.layers[d].rounds < MAX_PUBLISH_ROUNDS
    ensures Inv(Started(p, d))
  {
    var q := Started(p, d);
    CountKept(p, q, d, q.layers[d]);
    var l := p.layers[d];
    assert LayerFits(d, l);
    forall r ensures Waits(q.layers, r) == Waits(p.layers, r) { }
    assert ReportedOnce(q);
    JobStarts(p, d);
    assert SizesFirst(q);
  }

  lemma {:induction false} JobStarts(p: Pub, d: Digest)
    requires OneJobEach(p) && d in p.layers && !p.layers[d].busy
    ensures OneJobEach(Started(p, d))
  {
    var q := Started(p, d);
    forall j ensures q.jobs[j] == if Runs(q.layers, j) then 1 else 0 {
      if j.digest != d {
        assert Runs(q.layers, j) == Runs(p.layers, j);
      } else {
        assert !Runs(p.layers, j);
      }
    }
  }

  lemma {:induction false} SizeAgainKeeps(p: Pub, d: Digest)
    requires Inv(p) && d in p.layers && !p.layers[d].busy && !Pending(p.layers[d]) && p.layers[d].converted.Some?
    requires p.layers[d].rounds < MAX_PUBLISH_ROUNDS
    ensures Inv(SizedAgain(p, d))
  {
    var q := SizedAgain(p, d);
    CountKept(p, q, d, q.layers[d]);
    assert LayerFits(d, p.layers[d]);
    ReportMade(p, q, d, Sized(d, p.layers[d].converted.value));
    forall j ensures Runs(q.layers, j) == Runs(p.layers, j) { }
  }

  /** A layer that waited to report nothing now waits to report r. */
  lemma {:induction false} ReportMade(p: Pub, q: Pub, d: Digest, r: Report)
    requires ReportedOnce(p) && d in p.layers && !Pending(p.layers[d]) && r.digest == d
    requires q.layers.Keys == p.layers.Keys && (forall x :: x in p.layers && x != d ==> q.layers[x] == p.layers[x])
    requires (q.layers[d].sized == Some(r) && q.layers[d].uploaded == None)
          || (q.layers[d].uploaded == Some(r) && q.layers[d].sized == None)
    requires q.made == p.made + multiset{r} && q.sent == p.sent && q.request == p.request
    ensures ReportedOnce(q)
  {
    forall x ensures q.made[x] == q.sent[x] + q.request[x] + if Waits(q.layers, x) then 1 else 0 {
      assert Waits(q.layers, x) == (Waits(p.layers, x) || x == r);
      assert !Waits(p.layers, r);
    }
  }

  lemma {:induction false} ActKeeps(p: Pub, u: Upload)
    requires Inv(p) && p.request == multiset{} && !Exceeds(LayerOf(p.layers, u.digest))
    ensures Inv(ActedOn(p, u))
  {
    AdmitKeeps(p, u.digest);
    var q := Admitted(p, u.digest);
    assert q.request == multiset{} && q.layers[u.digest] == LayerOf(p.layers, u.digest);
    var l := q.layers[u.digest];
    if l.busy || Pending(l) {
    } else if l.converted.None? || u.indexUrl != "" {
      StartKeeps(q, u.digest);
    } else {
      SizeAgainKeeps(q, u.digest);
    }
  }

  /** What naming a layer comes to: nothing while it runs or waits to report; a conversion if it was not
      converted; an upload if the server sent URLs for it; else its sizes once more. */
  ghost predicate ActsAsNamed(p: Pub, u: Upload, q: Pub) {
    var known := u.digest in p.layers;
    var l := if known then p.layers[u.digest] else FRESH;
    if l.busy || l.sized.Some? || l.uploaded.Some? then
      q.jobs == p.jobs && q.made == p.made
    else if l.converted.None? then
      q.jobs == p.jobs + multiset{Convert(u.digest)} && q.made == p.made
    else if u.indexUrl != "" then
      q.jobs == p.jobs + multiset{Store(u.digest)} && q.made == p.made
    else
      q.jobs == p.jobs && q.made == p.made + multiset{Sized(u.digest, l.converted.value)}
  }

  lemma {:induction false} NamedIsActedOn(p: Pub, u: Upload)
    ensures ActsAsNamed(p, u, ActedOn(p, u))
  {
    var q := Admitted(p, u.digest);
    assert q.jobs == p.jobs && q.made == p.made && q.layers[u.digest] == LayerOf(p.layers, u.digest);
  }

  lemma {:induction false} ActChangesOneLayer(p: Pub, u: Upload)
    ensures ActedOn(p, u).layers == p.layers[u.digest := Acted(LayerOf(p.layers, u.digest), u)]
  {
  }

  // ---- A goroutine ends ----

  /** record: the result of a layer's goroutine that did not fail. */
  function Recorded(p: Pub, d: Digest, file: File, etags: seq<string>): Pub
    requires d in p.layers
  {
    var l := p.layers[d];
    if l.converted.None? then
      p.(layers := p.layers[d := l.(busy := false, converted := Some(file), sized := Some(Sized(d, file)))],
         jobs := p.jobs - multiset{Convert(d)}, made := p.made + multiset{Sized(d, file)})
    else
      p.(layers := p.layers[d := l.(busy := false, uploaded := Some(Stored(d, etags)))],
         jobs := p.jobs - multiset{Store(d)}, made := p.made + multiset{Stored(d, etags)})
  }

  lemma {:induction false} JobEnds(p: Pub, d: Digest, file: File, etags: seq<string>)
    requires OneJobEach(p) && d in p.layers && p.layers[d].busy
    ensures OneJobEach(Recorded(p, d, file, etags))
  {
    var q := Recorded(p, d, file, etags);
    forall j ensures q.jobs[j] == if Runs(q.layers, j) then 1 else 0 {
      if j.digest != d {
        assert Runs(q.layers, j) == Runs(p.layers, j);
      } else {
        assert !Runs(q.layers, j);
      }
    }
  }

  lemma {:induction false} RecordKeepsSizes(p: Pub, d: Digest, file: File, etags: seq<string>)
    requires SizesFirst(p) && AllFit(p.layers) && d in p.layers && p.layers[d].busy
    ensures SizesFirst(Recorded(p, d, file, etags)) && AllFit(Recorded(p, d, file, etags).layers)
  {
    assert LayerFits(d, p.layers[d]);
  }

  lemma {:induction false} RecordKeeps(p: Pub, d: Digest, file: File, etags: seq<string>)
    requires Inv(p) && d in p.layers && p.layers[d].busy
    ensures Inv(Recorded(p, d, file, etags))
  {
    var q := Recorded(p, d, file, etags);
    assert LayerFits(d, p.layers[d]);
    assert Counted(q) by { CountKept(p, q, d, q.layers[d]); }
    JobEnds(p, d, file, etags);
    assert ReportedOnce(q) by {
      ReportMade(p, q, d, if p.layers[d].converted.None? then Sized(d, file) else Stored(d, etags));
    }
    RecordKeepsSizes(p, d, file, etags);
  }

  // ---- Collecting what to report, and sending it ----

  function Cleared(l: Layer): Layer { l.(sized := None, uploaded := None) }

  function WaitingOf(l: Layer): multiset<Report> {
    if l.sized.Some? then multiset{l.sized.value}
        else if l.uploaded.Some? then multiset{l.uploaded.value} else multiset{}
  }

  /** The reports that wait in the layers named. */
  ghost function Waiting(m: Layers, names: seq<Digest>): multiset<Report>
    requires forall i :: 0 <= i < |names| ==> names[i] in m
  {
    if names == [] then multiset{} else Waiting(m, names[..|names| - 1]) + WaitingOf(m[names[|names| - 1]])
  }

  function ClearedAll(m: Layers): Layers { map d | d in m :: Cleared(m[d]) }

  ghost function Swept(p: Pub): Pub
    requires Covers(p.layers, p.names)
  {
    var w := Waiting(p.layers, p.names);
    p.(layers := ClearedAll(p.layers), request := p.request + w, collected := p.collected + |w|)
  }

  lemma {:induction false} WaitingOfOne(m: Layers, d: Digest, r: Report)
    requires d in m && LayerFits(d, m[d])
    ensures WaitingOf(m[d])[r] == if r.digest == d && Waits(m, r) then 1 else 0
  {
  }

  lemma {:induction false} WaitingIsExact(m: Layers, names: seq<Digest>, r: Report)
    requires forall i, j :: 0 <= i < j < |names| ==> names[i] != names[j]
    requires forall i :: 0 <= i < |names| ==> names[i] in m && LayerFits(names[i], m[names[i]])
    ensures Waiting(m, names)[r] == if r.digest in names && Waits(m, r) then 1 else 0
  {
    if names != [] {
      var front, last := names[..|names| - 1], names[|names| - 1];
      WaitingIsExact(m, front, r);
      WaitingOfOne(m, last, r);
      assert names == front + [last];
      assert r.digest in names <==> r.digest in front || r.digest == last;
      assert last !in front;
    }
  }

  lemma {:induction false} SweepCounts(m: Layers, names: seq<Digest>)
    requires forall i :: 0 <= i < |names| ==> names[i] in m && LayerFits(names[i], m[names[i]])
    ensures Sum(ClearedAll(m), names) == Sum(m, names) + |Waiting(m, names)|
  {
    if names != [] {
      var last := names[|names| - 1];
      SweepCounts(m, names[..|names| - 1]);
      assert LayerFits(last, m[last]);
      assert ClearedAll(m)[last] == Cleared(m[last]);
    }
  }

  lemma {:induction false} SweepReports(p: Pub)
    requires Inv(p) && p.request == multiset{}
    ensures ReportedOnce(Swept(p)) && OneJobEach(Swept(p))
  {
    var q := Swept(p);
    forall r ensures q.made[r] == q.sent[r] + q.request[r] + if Waits(q.layers, r) then 1 else 0 {
      WaitingIsExact(p.layers, p.names, r);
      assert r.digest in p.layers ==> r.digest in p.names;
      assert !Waits(q.layers, r) by { assert Quiet(q.layers); }
    }
    SweepKeepsJobs(p);
  }

  lemma {:induction false} SweepKeepsJobs(p: Pub)
    requires Covers(p.layers, p.names) && OneJobEach(p)
    ensures OneJobEach(Swept(p))
  {
    forall j ensures Runs(Swept(p).layers, j) == Runs(p.layers, j) { }
  }

  lemma {:induction false} SweepKeepsSizes(p: Pub)
    requires Inv(p) && p.request == multiset{}
    ensures SizesFirst(Swept(p)) && AllFit(Swept(p).layers)
  {
    var q := Swept(p);
    forall d | d in q.layers && q.layers[d].converted.Some? && q.layers[d].sized.None?
      ensures d in q.announced || Sized(d, q.layers[d].converted.value) in q.request
    {
      assert LayerFits(d, p.layers[d]);
      if p.layers[d].sized.Some? {
        WaitingIsExact(p.layers, p.names, p.layers[d].sized.value);
      }
    }
    forall d | d in q.layers ensures LayerFits(d, q.layers[d]) { assert LayerFits(d, p.layers[d]); }
  }

  lemma {:induction false} SweepKeeps(p: Pub)
    requires Inv(p) && p.request == multiset{}
    ensures Inv(Swept(p))
  {
    SweepReports(p);
    SweepKeepsSizes(p);
    assert Counted(Swept(p)) by { SweepCounts(p.layers, p.names); }
  }

  /** The next request is sent with one call. */
  ghost function CallMade(p: Pub): Pub {
    p.(calls := p.calls + 1, sent := p.sent + p.request, request := multiset{},
       announced := p.announced + set r | r in p.request && r.Sized? :: r.digest)
  }

  lemma {:induction false} CallKeeps(p: Pub)
    requires Inv(p)
    ensures Inv(CallMade(p))
  {
    var q := CallMade(p);
    forall d | d in q.announced ensures exists f :: Sized(d, f) in q.sent {
      if d in p.announced {
        var f :| Sized(d, f) in p.sent;
        assert Sized(d, f) in q.sent;
      } else {
        var r :| r in p.request && r.Sized? && r.digest == d;
        assert Sized(d, r.file) in q.sent;
      }
    }
    assert ReportedOnce(q);
  }

  /** The call was answered. */
  ghost function AnswerGot(p: Pub): Pub { p.(answered := p.sent) }

  lemma {:induction false} AnswerKeeps(p: Pub)
    requires Inv(p)
    ensures Inv(AnswerGot(p))
  {
  }

  /** The reports placed in requests are bounded by the digests named. */
  lemma {:induction false} CollectedIsBounded(p: Pub)
    requires Inv(p)
    ensures p.collected <= MAX_PUBLISH_ROUNDS * |p.names|
  {
    forall i | 0 <= i < |p.names| ensures p.layers[p.names[i]].rounds <= MAX_PUBLISH_ROUNDS {
      assert LayerFits(p.names[i], p.layers[p.names[i]]);
    }
    SumIsBounded(p.layers, p.names);
  }

  /** Some layer runs or waits to be reported. */
  predicate Active(m: Layers) {
    exists d :: d in m && (m[d].busy || Pending(m[d]))
  }

  predicate Quiet(m: Layers) {
    forall d :: d in m ==> !Pending(m[d])
  }

  function Busy(m: Layers): set<Digest> { set d | d in m && m[d].busy }

  function Digests(uploads: seq<Upload>): set<Digest> { set u | u in uploads :: u.digest }

  lemma {:induction false} RecordFacts(p: Pub, d: Digest, file: File, etags: seq<string>)
    requires d in Busy(p.layers)
    ensures var q := Recorded(p, d, file, etags);
      Active(q.layers) && Busy(q.layers) == Busy(p.layers) - {d} && q.layers.Keys == p.layers.Keys
  {
    var q := Recorded(p, d, file, etags);
    assert Pending(q.layers[d]);
  }

  /** No call was made and no report placed in a request between p and q. */
  predicate SameCalls(p: Pub, q: Pub) {
    q.calls == p.calls && q.sent == p.sent && q.answered == p.answered && q.collected == p.collected
  }

  ghost function ActedOnAll(p: Pub, uploads: seq<Upload>): Pub {
    if uploads == [] then p else ActedOn(ActedOnAll(p, uploads[..|uploads| - 1]), uploads[|uploads| - 1])
  }

  lemma {:induction false} ActFacts(p: Pub, u: Upload)
    ensures SameCalls(p, ActedOn(p, u)) && ActedOn(p, u).request == p.request
    ensures ActedOn(p, u).layers.Keys == p.layers.Keys + {u.digest}
    ensures Active(ActedOn(p, u).layers)
  {
    ActChangesOneLayer(p, u);
    var l := ActedOn(p, u).layers[u.digest];
    assert l.busy || Pending(l);
  }

  lemma {:induction false} ActedOnNext(p: Pub, uploads: seq<Upload>, k: nat)
    requires k < |uploads|
    ensures ActedOnAll(p, uploads[..k + 1]) == ActedOn(ActedOnAll(p, uploads[..k]), uploads[k])
    ensures uploads[..|uploads|] == uploads
  {
    assert uploads[..k + 1][..k] == uploads[..k];
  }

  /** The layer runs or waits to report. */
  predicate UnderWay(m: Layers, d: Digest) { d in m && (m[d].busy || Pending(m[d])) }

  lemma {:induction false} StaysUnderWay(p: Pub, u: Upload, d: Digest)
    requires d == u.digest || UnderWay(p.layers, d)
    ensures UnderWay(ActedOn(p, u).layers, d)
  {
    ActChangesOneLayer(p, u);
  }

  lemma {:induction false} AllUnderWay(p: Pub, uploads: seq<Upload>, k: nat)
    requires k <= |uploads|
    ensures forall i :: 0 <= i < k ==> UnderWay(ActedOnAll(p, uploads[..k]).layers, uploads[i].digest)
  {
    if k > 0 {
      AllUnderWay(p, uploads, k - 1);
      ActedOnNext(p, uploads, k - 1);
      var before, u := ActedOnAll(p, uploads[..k - 1]), uploads[k - 1];
      var after := ActedOnAll(p, uploads[..k]);
      assert after == ActedOn(before, u);
      forall i | 0 <= i < k ensures UnderWay(after.layers, uploads[i].digest) {
        if i < k - 1 {
          assert UnderWay(before.layers, uploads[i].digest);
        }
        StaysUnderWay(before, u, uploads[i].digest);
      }
    }
  }

  lemma {:induction false} ActedOnAllFacts(p: Pub, uploads: seq<Upload>, k: nat)
    requires k <= |uploads|
    ensures uploads[..|uploads|] == uploads
    ensures var q := ActedOnAll(p, uploads[..k]);
      && SameCalls(p, q) && q.request == p.request
      && q.layers.Keys <= p.layers.Keys + Digests(uploads)
      && (k > 0 ==> Active(q.layers))
  {
    if k > 0 {
      ActedOnAllFacts(p, uploads, k - 1);
      assert uploads[..k][..k - 1] == uploads[..k - 1];
      ActFacts(ActedOnAll(p, uploads[..k - 1]), uploads[k - 1]);
      assert uploads[k - 1] in uploads;
    }
  }

  /** Only a layer named MAX_PUBLISH_ROUNDS times is refused. */
  lemma {:induction false} ExceedsAtTheLimit(p: Pub, d: Digest)
    requires AllFit(p.layers)
    ensures Exceeds(LayerOf(p.layers, d)) ==> d in p.layers && p.layers[d].rounds == MAX_PUBLISH_ROUNDS
  {
    assert d in p.layers ==> LayerFits(d, p.layers[d]);
  }

  /** The sweep over the layers, in any order: their reports are taken and whether one runs. */
  method SweepLayers(m: Layers) returns (cleared: Layers, reports: seq<Report>, busy: bool)
    requires AllFit(m)
    ensures cleared == ClearedAll(m)
    ensures TakenFrom(m, {}, reports)
    ensures busy <==> Busy(m) != {}
  {
    var rest := m.Keys;
    cleared, reports, busy := m, [], false;
    ClearNone(m);
    while rest != {}
      invariant rest <= m.Keys && cleared == ClearedBut(m, rest)
      invariant TakenFrom(m, rest, reports)
      invariant busy <==> Busy(m) - rest != {}
      decreases |rest|
    {
      var d :| d in rest;
      TakeOne(m, rest, d, reports);
      BusyOne(m, rest, d);
      ClearOne(m, rest, d);
      var l := cleared[d];
      reports := reports + ReportsOf(l);
      cleared := cleared[d := Cleared(l)];
      busy := busy || l.busy;
      rest := rest - {d};
    }
  }

  function ClearedBut(m: Layers, rest: set<Digest>): Layers {
    map d | d in m :: if d in rest then m[d] else Cleared(m[d])
  }

  lemma {:induction false} ClearNone(m: Layers)
    ensures ClearedBut(m, m.Keys) == m && ClearedBut(m, {}) == ClearedAll(m)
    ensures Busy(m) - m.Keys == {} && TakenFrom(m, m.Keys, [])
  {
  }

  lemma {:induction false} ClearOne(m: Layers, rest: set<Digest>, d: Digest)
    requires d in rest && d in m
    ensures d in ClearedBut(m, rest) && ClearedBut(m, rest)[d] == m[d]
    ensures ClearedBut(m, rest)[d := Cleared(m[d])] == ClearedBut(m, rest - {d})
  {
  }

  lemma {:induction false} BusyOne(m: Layers, rest: set<Digest>, d: Digest)
    requires d in rest && d in m
    ensures Busy(m) - (rest - {d}) != {} <==> Busy(m) - rest != {} || m[d].busy
  {
    assert Busy(m) - (rest - {d}) == (Busy(m) - rest) + (if m[d].busy then {d} else {});
  }

  lemma {:induction false} NeitherBusyNorWaiting(m: Layers)
    requires Quiet(m) && Busy(m) == {}
    ensures !Active(m)
  {
    forall d | d in m ensures !m[d].busy && !Pending(m[d]) { assert d !in Busy(m); }
  }

  function ReportsOf(l: Layer): seq<Report> {
    (if l.sized.Some? then [l.sized.value] else []) + (if l.uploaded.Some? then [l.uploaded.value] else [])
  }

  /** The reports taken so far are those waiting in the layers already visited. */
  ghost predicate TakenFrom(m: Layers, rest: set<Digest>, reports: seq<Report>) {
    forall r :: multiset(reports)[r] == if Waits(m, r) && r.digest !in rest then 1 else 0
  }

  lemma {:induction false} TakeOne(m: Layers, rest: set<Digest>, d: Digest, reports: seq<Report>)
    requires d in m && LayerFits(d, m[d]) && d in rest && TakenFrom(m, rest, reports)
    ensures TakenFrom(m, rest - {d}, reports + ReportsOf(m[d]))
  {
    var all := reports + ReportsOf(m[d]);
    assert multiset(all) == multiset(reports) + multiset(ReportsOf(m[d]));
    forall r ensures multiset(all)[r] == if Waits(m, r) && r.digest !in rest - {d} then 1 else 0 {
      assert multiset(ReportsOf(m[d]))[r] == if r.digest == d && Waits(m, r) then 1 else 0;
    }
  }

  /** The digests are distinct and of the image. */
  ghost predicate DistinctIn(names: seq<Digest>, image: set<Digest>) {
    && (forall i, j :: 0 <= i < j < |names| ==> names[i] != names[j])
    && forall i :: 0 <= i < |names| ==> names[i] in image
  }

  lemma {:induction false} NamesFit(p: Pub, image: set<Digest>)
    requires Inv(p) && p.layers.Keys <= image
    ensures DistinctIn(p.names, image)
  {
    assert Covers(p.layers, p.names);
  }

  /** The publish object: `layers` is what the agent keeps, `p` the same with its history. */
  class Publisher {
    var layers: Layers
    ghost var p: Pub

    ghost predicate Valid()
      reads this
    {
      p.layers == layers && Inv(p)
    }

    constructor ()
      ensures Valid() && p == INIT
    {
      layers, p := map[], INIT;
    }

    /** start's body for one named layer. */
    method Act(u: Upload) returns (ok: bool)
      requires Valid() && p.request == multiset{}
      modifies this
      ensures Valid() && p.request == multiset{}
      ensures ok <==> !Exceeds(LayerOf(old(layers), u.digest))
      ensures layers == if ok then old(layers)[u.digest := Acted(LayerOf(old(layers), u.digest), u)] else old(layers)
      ensures p == if ok then ActedOn(old(p), u) else old(p)
      ensures ok ==> ActsAsNamed(old(p), u, p)
      ensures !ok ==> u.digest in old(layers) && old(layers)[u.digest].rounds == MAX_PUBLISH_ROUNDS
                      && !old(layers)[u.digest].busy && !Pending(old(layers)[u.digest])
    {
      var l := LayerOf(layers, u.digest);
      ok := !Exceeds(l);
      ExceedsAtTheLimit(p, u.digest);
      if ok {
        ActKeeps(p, u);
        NamedIsActedOn(p, u);
        ActChangesOneLayer(p, u);
        p := ActedOn(p, u);
        layers := layers[u.digest := Acted(l, u)];
      }
    }

    /** Acts on each layer an answer names, unless one of them was named too often. */
    method Start(uploads: seq<Upload>) returns (refused: Option<Digest>)
      requires Valid() && p.request == multiset{}
      modifies this
      ensures Valid() && p.request == multiset{} && SameCalls(old(p), p)
      ensures layers.Keys <= old(layers.Keys) + Digests(uploads)
      ensures refused.None? ==> p == ActedOnAll(old(p), uploads)
      ensures refused.None? && uploads != [] ==> Active(layers)
      ensures refused.None? ==> forall u :: u in uploads ==> UnderWay(layers, u.digest)
      ensures refused.Some? ==> refused.value in layers && layers[refused.value].rounds == MAX_PUBLISH_ROUNDS
    {
      for k := 0 to |uploads|
        invariant Valid() && p == ActedOnAll(old(p), uploads[..k])
      {
        ActedOnAllFacts(old(p), uploads, k);
        ExceedsAtTheLimit(p, uploads[k].digest);
        var ok := Act(uploads[k]);
        if !ok {
          return Some(uploads[k].digest);
        }
        ActedOnNext(old(p), uploads, k);
      }
      ActedOnAllFacts(old(p), uploads, |uploads|);
      AllUnderWay(old(p), uploads, |uploads|);
      return None;
    }

    /** next's sweep: takes every waiting report. */
    method Sweep() returns (reports: seq<Report>, busy: bool)
      requires Valid() && p.request == multiset{}
      modifies this
      ensures Valid() && p == Swept(old(p)) && layers == ClearedAll(old(layers))
      ensures multiset(reports) == p.request
      ensures busy <==> Busy(old(layers)) != {}
    {
      ghost var m := layers;
      layers, reports, busy := SweepLayers(layers);
      TakenIsWaiting(p, reports, multiset(reports));
      SweepKeeps(p);
      p := Swept(p);
    }

    /** next: waits until a layer has something to report, or none runs. Results arrive from
        any running goroutine, and the wait may be cancelled. */
    method Next() returns (outcome: Option<Outcome>)
      requires Valid() && p.request == multiset{}
      modifies this
      ensures SameCalls(old(p).(collected := p.collected), p) && p.names == old(p.names)
      ensures Inv(p) && (outcome.None? ==> Valid() && Quiet(layers) && layers.Keys == old(layers.Keys))
      ensures outcome.None? && Active(old(layers)) ==> p.collected > old(p.collected)
      ensures outcome.Some? ==> outcome.value.JobFailed? || outcome.value.Cancelled?
    {
      ghost var active := Active(layers);
      while true
        invariant Valid() && p.request == multiset{} && layers.Keys == old(layers.Keys) && p.names == old(p.names)
        invariant SameCalls(old(p), p) && (active ==> Active(layers))
        decreases Busy(layers)
      {
        ghost var before := layers;
        SweepFacts(p);
        var reports, busy := Sweep();
        if reports != [] || !busy {
          if reports == [] {
            NeitherBusyNorWaiting(before);
          } else {
            assert reports[0] in p.request;
          }
          return None;
        }
        if * {
          return Some(Cancelled);
        }
        var failed := ReceiveAll();
        if failed {
          return Some(JobFailed);
        }
      }
    }

    /** A result, and those that ended meanwhile. */
    method ReceiveAll() returns (failed: bool)
      requires Valid() && Busy(layers) != {}
      modifies this
      ensures Inv(p) && SameCalls(old(p), p) && p.request == old(p.request) && p.names == old(p.names)
      ensures !failed ==>
                Valid() && Active(layers) && Busy(layers) < Busy(old(layers)) && layers.Keys == old(layers.Keys)
    {
      failed := Receive();
      if !failed {
        failed := Drain();
      }
    }

    /** Results that ended meanwhile are recorded too. */
    method Drain() returns (failed: bool)
      requires Valid() && Active(layers)
      modifies this
      ensures Inv(p) && SameCalls(old(p), p) && p.request == old(p.request) && p.names == old(p.names)
      ensures !failed ==>
          Valid() && Active(layers) && Busy(layers) <= Busy(old(layers)) && layers.Keys == old(layers.Keys)
    {
      while true
        invariant Valid() && Active(layers) && Busy(layers) <= Busy(old(layers)) && layers.Keys == old(layers.Keys)
        invariant SameCalls(old(p), p) && p.request == old(p.request) && p.names == old(p.names)
        decreases Busy(layers)
      {
        if Busy(layers) == {} {
          return false;
        }
        if * {
          return false;
        }
        failed := Receive();
        if failed {
          return;
        }
      }
    }

    /** record: the result of any running goroutine. */
    method Receive() returns (failed: bool)
      requires Valid() && Busy(layers) != {}
      modifies this
      ensures Inv(p) && SameCalls(old(p), p) && p.request == old(p.request) && p.names == old(p.names)
      ensures !failed ==>
          Valid() && Active(layers) && Busy(layers) < Busy(old(layers)) && layers.Keys == old(layers.Keys)
    {
      var d: Digest :| d in Busy(layers);
      var l := layers[d];
      failed := *;
      if failed {
        layers := layers[d := l.(busy := false)];
        return;
      }
      var file: File, etags: seq<string> := *, *;
      RecordKeeps(p, d, file, etags);
      RecordFacts(p, d, file, etags);
      p := Recorded(p, d, file, etags);
      if l.converted.None? {
        layers := layers[d := l.(busy := false, converted := Some(file), sized := Some(Sized(d, file)))];
      } else {
        layers := layers[d := l.(busy := false, uploaded := Some(Stored(d, etags)))];
      }
    }

    /** publish: whatever layers of the image each answer names, it stops, after at most
        MAX_PUBLISH_ROUNDS calls for each digest named and one more, and a publish the server
        ends has had every report it produced answered, each sent exactly once. However it ends, no
        layer ever had two goroutines and no upload started before a sent request held its sizes. */
    method Publish(image: set<Digest>) returns (outcome: Outcome)
      requires Valid() && p == INIT
      modifies this
      ensures p.calls <= MAX_PUBLISH_ROUNDS * |p.names| + 1
      ensures Inv(p) && DistinctIn(p.names, image)
      ensures outcome.Published? ==> Valid() && p.answered == p.sent == p.made && Quiet(layers)
      ensures outcome.Unanswered? ==> Valid() && p.sent == p.made && Quiet(layers)
      ensures outcome.TooManyRounds? ==>
                Valid() && outcome.digest in layers && layers[outcome.digest].rounds == MAX_PUBLISH_ROUNDS
    {
      while true
        invariant Valid() && Quiet(layers) && p.calls <= p.collected && p.answered == p.sent
        invariant layers.Keys <= image
        decreases MAX_PUBLISH_ROUNDS * |image| - p.collected
      {
        CallKeeps(p);
        p := CallMade(p);
        CollectedIsBounded(p);
        NamesFit(p, image);
        var answered: bool := *;
        if !answered {
          AllSent(p);
          return Unanswered;
        }
        AnswerKeeps(p);
        p := AnswerGot(p);
        var uploads: seq<Upload> :| forall u :: u in uploads ==> u.digest in image;
        if uploads == [] {
          AllSent(p);
          return Published;
        }
        var refused := Start(uploads);
        CollectedIsBounded(p);
        NamesFit(p, image);
        if refused.Some? {
          return TooManyRounds(refused.value);
        }
        var ended := Next();
        if ended.Some? {
          return ended.value;
        }
        CollectedIsBounded(p);
        NamesAreFew(p.names, image);
      }
    }
  }

  lemma {:induction false} TakenIsWaiting(p: Pub, reports: seq<Report>, taken: multiset<Report>)
    requires Inv(p) && TakenFrom(p.layers, {}, reports) && taken == multiset(reports)
    ensures taken == Waiting(p.layers, p.names)
  {
    forall r ensures taken[r] == Waiting(p.layers, p.names)[r] {
      WaitingIsExact(p.layers, p.names, r);
      assert r.digest in p.layers ==> r.digest in p.names;
    }
  }

  lemma {:induction false} SweepFacts(p: Pub)
    requires Inv(p) && p.request == multiset{}
    ensures var q := Swept(p);
      && q.calls == p.calls && q.sent == p.sent && q.answered == p.answered && q.names == p.names
      && q.collected == p.collected + |q.request|
      && q.layers.Keys == p.layers.Keys && Quiet(q.layers) && Busy(q.layers) == Busy(p.layers)
      && (q.request == multiset{} ==> Quiet(p.layers))
  {
    var q := Swept(p);
    assert q.layers == ClearedAll(p.layers);
    forall d | d in p.layers && Pending(p.layers[d]) ensures q.request != multiset{} {
      var l := p.layers[d];
      assert LayerFits(d, l);
      WaitingIsExact(p.layers, p.names, if l.sized.Some? then l.sized.value else l.uploaded.value);
    }
  }

  lemma {:induction false} AllSent(p: Pub)
    requires Inv(p) && p.request == multiset{} && Quiet(p.layers)
    ensures p.sent == p.made
  {
    forall r ensures p.made[r] == p.sent[r] { assert !Waits(p.layers, r); }
  }
}
