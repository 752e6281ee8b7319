/** The directories a container's mounts of one cloud bucket share
    (internal/agent/buckets.go). A bucket is mounted once per container, at the
    longest run of whole directories every mount's prefix starts with. */
module BucketPrefix {

  datatype Mount = Mount(bucket: string, endpoint: string, accessKey: string, secretKey: string,
                         prefix: string, readOnly: bool)

  datatype Spec = Spec(source: string, readOnly: bool, shared: string, dirs: seq<string>)

  datatype Result<T> = Ok(value: T) | Refused

  /** Empty, or a run of directories each ending in a slash. */
  predicate WholeDirs(s: string) {
    s == "" || s[|s| - 1] == '/'
  }

  predicate StartsEvery(p: string, group: seq<string>) {
    forall i :: 0 <= i < |group| ==> p <= group[i]
  }

  /** p is the longest run of whole directories that starts every member of group. */
  ghost predicate LongestShared(p: string, group: seq<string>) {
    && WholeDirs(p)
    && StartsEvery(p, group)
    && forall q: string :: WholeDirs(q) && StartsEvery(q, group) ==> |q| <= |p|
  }

  method SharedDirs(a: string, b: string) returns (r: string)
    ensures LongestShared(r, [a, b])
  {
    var n, i := 0, 0;
    while i < |a| && i < |b| && a[i] == b[i]
      invariant 0 <= n <= i <= |a| && i <= |b|
      invariant a[..i] == b[..i]
      invariant WholeDirs(a[..n])
      invariant forall k :: n <= k < i ==> a[k] != '/'
    {
      if a[i] == '/' {
        n := i + 1;
      }
      i := i + 1;
    }
    r := a[..n];
    assert a[..n] == a[..i][..n] == b[..i][..n] == b[..n];
    forall q: string | WholeDirs(q) && StartsEvery(q, [a, b])
      ensures |q| <= |r|
    {
      assert q <= [a, b][0] && q <= [a, b][1];
      assert |q| <= i;
      assert q != "" ==> a[|q| - 1] == '/';
    }
  }

  /** Folding one more prefix into the directories shared so far. */
  lemma {:induction false} SharedExtends(p: string, group: seq<string>, x: string, q: string)
    requires |group| > 0 && LongestShared(p, group) && LongestShared(q, [p, x])
    ensures LongestShared(q, group + [x])
  {
    assert q <= [p, x][0] && q <= [p, x][1];
    forall r: string | WholeDirs(r) && StartsEvery(r, group + [x])
      ensures |r| <= |q|
    {
      forall i | 0 <= i < |group| ensures r <= group[i] { assert (group + [x])[i] == group[i]; }
      assert (group + [x])[|group|] == x;
      assert p <= group[0] && r <= group[0] && |r| <= |p|;
      assert r == group[0][..|r|] == group[0][..|p|][..|r|];
      assert StartsEvery(r, [p, x]);
    }
  }

  /** The shared directories depend on which prefixes the group holds, not on their order. */
  lemma {:induction false} SharedIgnoresOrder(p: string, group: seq<string>, p': string, group': seq<string>)
    requires |group| > 0 && LongestShared(p, group) && LongestShared(p', group')
    requires forall x :: x in group <==> x in group'
    ensures p == p'
  {
    assert group[0] in group;
    var j :| 0 <= j < |group'| && group'[j] == group[0];
    assert StartsEvery(p, group') by {
      forall i | 0 <= i < |group'| ensures p <= group'[i] { assert group'[i] in group; }
    }
    assert StartsEvery(p', group) by {
      forall i | 0 <= i < |group| ensures p' <= group[i] { assert group[i] in group'; }
    }
    assert p == group[0][..|p|] && p' == group[0][..|p'|];
  }

  /** The directories every one of prefixes shares, folded one prefix at a time. */
  method SharedByAll(prefixes: seq<string>) returns (shared: string)
    requires |prefixes| > 0
    ensures LongestShared(shared, prefixes)
  {
    shared := SharedDirs(prefixes[0], prefixes[0]);
    assert LongestShared(shared, prefixes[..1]) by { SharedWithItself(prefixes, shared); }
    for k := 1 to |prefixes|
      invariant LongestShared(shared, prefixes[..k])
    {
      var next := SharedDirs(shared, prefixes[k]);
      SharedExtends(shared, prefixes[..k], prefixes[k], next);
      assert prefixes[..k] + [prefixes[k]] == prefixes[..k + 1];
      shared := next;
    }
    assert prefixes[..|prefixes|] == prefixes;
  }

  lemma {:induction false} SharedWithItself(prefixes: seq<string>, p: string)
    requires |prefixes| > 0 && LongestShared(p, [prefixes[0], prefixes[0]])
    ensures LongestShared(p, prefixes[..1])
  {
    var one := prefixes[0];
    assert prefixes[..1] == [one];
    assert p <= [one, one][0];
    forall q: string | WholeDirs(q) && StartsEvery(q, [one]) ensures |q| <= |p| {
      assert q <= [one][0];
      assert StartsEvery(q, [one, one]);
    }
  }

  method BelowShared(prefixes: seq<string>, shared: string) returns (dirs: seq<string>)
    requires StartsEvery(shared, prefixes)
    ensures |dirs| == |prefixes|
    ensures forall i :: 0 <= i < |prefixes| ==> shared + dirs[i] == prefixes[i]
  {
    dirs := [];
    for k := 0 to |prefixes|
      invariant |dirs| == k
      invariant forall i :: 0 <= i < k ==> shared + dirs[i] == prefixes[i]
    {
      dirs := dirs + [prefixes[k][|shared|..]];
    }
  }

  function Prefixes(group: seq<Mount>): (r: seq<string>)
    ensures |r| == |group| && forall i :: 0 <= i < |group| ==> r[i] == group[i].prefix
  {
    seq(|group|, i requires 0 <= i < |group| => group[i].prefix)
  }

  /** What the mounter mounts for group, the container's mounts of one bucket. The code
      reads the first mount of the group, so a group is never empty. */
  method BucketSpec(group: seq<Mount>) returns (r: Result<Spec>)
    requires |group| > 0
    ensures r.Refused? <==>
      group[0].bucket == "" || group[0].endpoint == "" || group[0].accessKey == "" || group[0].secretKey == ""
    ensures r.Ok? ==> LongestShared(r.value.shared, Prefixes(group))
    ensures r.Ok? ==> r.value.source == group[0].bucket + ":" + r.value.shared
    ensures r.Ok? ==> (r.value.readOnly <==> forall i :: 0 <= i < |group| ==> group[i].readOnly)
    ensures r.Ok? ==> |r.value.dirs| == |group|
    ensures r.Ok? ==> forall i :: 0 <= i < |group| ==> r.value.shared + r.value.dirs[i] == Prefixes(group)[i]
  {
    var b := group[0];
    if b.bucket == "" || b.endpoint == "" || b.accessKey == "" || b.secretKey == "" {
      return Refused;
    }
    var shared := SharedByAll(Prefixes(group));
    var readOnly := true;
    for k := 0 to |group|
      invariant readOnly <==> forall i :: 0 <= i < k ==> group[i].readOnly
    {
      readOnly := readOnly && group[k].readOnly;
    }
    var dirs := BelowShared(Prefixes(group), shared);
    r := Ok(Spec(b.bucket + ":" + shared, readOnly, shared, dirs));
  }
}
