/**
 Merging the manifests of separate builds, and selecting a wheel from a merged
 manifest for one exact environment.
 */
module Manifest {
  import opened Prelude
  import opened Names

  /** One artifact entry; None stands for a missing field or one of the wrong type. */
  datatype Artifact = Artifact(
    pythonTag: Option<string>, abiTag: Option<string>, platformTag: Option<string>,
    torchVersion: Option<string>, torchCudaVersion: Option<string>, cudaVersion: Option<string>,
    asset: Option<string>, buildId: Option<string>, sha256: Option<string>, size: Option<int>,
    capabilities: set<string>)

  datatype Wheel = Wheel(digest: string, size: int)

  /** A manifest file with the wheels and the checksum file beside it. */
  datatype Input = Input(
    schemaOne: bool, artifacts: seq<Artifact>, wheels: map<string, Wheel>, checksums: Option<seq<string>>)

  predicate SafeAsset(name: string) {
    '/' !in name && '\\' !in name && EndsWith(name, ".whl")
  }

  predicate Verified(a: Artifact, wheels: map<string, Wheel>) {
    && a.asset.Some? && SafeAsset(a.asset.value) && a.asset.value in wheels
    && a.sha256 == Some(wheels[a.asset.value].digest) && a.size == Some(wheels[a.asset.value].size)
  }

  /** "{digest}  {asset}" */
  function ChecksumLine(a: Artifact): string {
    if a.sha256.Some? && a.asset.Some? then a.sha256.value + ("  " + a.asset.value) else ""
  }

  function ChecksumLines(artifacts: seq<Artifact>): seq<string> {
    seq(|artifacts|, i requires 0 <= i < |artifacts| => ChecksumLine(artifacts[i]))
  }

  predicate SortedLines(lines: seq<string>) {
    forall i, j :: 0 <= i < j < |lines| ==> StringLe(lines[i], lines[j])
  }

  /** `load_and_verify` does not raise. */
  predicate Loads(m: Input) {
    && m.schemaOne && m.artifacts != []
    && (forall a :: a in m.artifacts ==> Verified(a, m.wheels))
    && (m.checksums.Some? ==>
          SortedLines(m.checksums.value) && multiset(m.checksums.value) == multiset(ChecksumLines(m.artifacts)))
  }

  predicate Named(value: Option<string>) { value.Some? && value.value != "" }

  /** The compatibility tuple is complete and the build has an id. */
  predicate Complete(a: Artifact) {
    && Named(a.pythonTag) && Named(a.abiTag) && Named(a.platformTag)
    && Named(a.torchVersion) && Named(a.torchCudaVersion)
    && Named(a.buildId) && a.asset.Some?
  }

  /** `runtime_tuple` */
  function RuntimeTuple(a: Artifact): (t: seq<string>)
    requires Complete(a)
    ensures |t| == 5
  {
    [a.pythonTag.value, a.abiTag.value, a.platformTag.value, a.torchVersion.value, a.torchCudaVersion.value]
  }

  /** Two artifacts that may not be in one manifest. */
  predicate Clash(a: Artifact, b: Artifact)
    requires Complete(a) && Complete(b)
  {
    a.asset == b.asset || RuntimeTuple(a) == RuntimeTuple(b) || a.buildId == b.buildId
  }

  /** Artifacts clash over a name, a build, or all five fields of the environment they are for. */
  lemma ClashesOver(a: Artifact, b: Artifact)
    requires Complete(a) && Complete(b)
    ensures Clash(a, b) <==>
              || a.asset == b.asset || a.buildId == b.buildId
              || (&& a.pythonTag == b.pythonTag && a.abiTag == b.abiTag && a.platformTag == b.platformTag
                  && a.torchVersion == b.torchVersion && a.torchCudaVersion == b.torchCudaVersion)
  {
    var s, t := RuntimeTuple(a), RuntimeTuple(b);
    if s == t { assert s[0] == t[0] && s[1] == t[1] && s[2] == t[2] && s[3] == t[3] && s[4] == t[4]; }
  }

  predicate AllComplete(s: seq<Artifact>) { forall a :: a in s ==> Complete(a) }

  predicate NoClash(s: seq<Artifact>)
    requires AllComplete(s)
  {
    forall i, j :: 0 <= i < j < |s| ==> !Clash(s[i], s[j])
  }

  // ---- The order of the merged list ----

  /** Tuples of strings compare by their first difference. */
  predicate TupleLe(a: seq<string>, b: seq<string>) {
    if a == [] then true
    else if b == [] then false
    else if a[0] == b[0] then TupleLe(a[1..], b[1..])
    else StringLe(a[0], b[0])
  }

  lemma {:induction false} TupleLeTotal(a: seq<string>, b: seq<string>)
    ensures TupleLe(a, b) || TupleLe(b, a)
  {
    if a != [] && b != [] {
      if a[0] == b[0] { TupleLeTotal(a[1..], b[1..]); } else { StringLeTotal(a[0], b[0]); }
    }
  }

  lemma {:induction false} TupleLeAntisymmetric(a: seq<string>, b: seq<string>)
    requires TupleLe(a, b) && TupleLe(b, a)
    ensures a == b
  {
    if a != [] {
      if a[0] == b[0] {
        TupleLeAntisymmetric(a[1..], b[1..]);
        assert a == [a[0]] + a[1..] && b == [b[0]] + b[1..];
      } else {
        StringLeAntisymmetric(a[0], b[0]);
      }
    }
  }

  lemma {:induction false} TupleLeTransitive(a: seq<string>, b: seq<string>, c: seq<string>)
    requires TupleLe(a, b) && TupleLe(b, c)
    ensures TupleLe(a, c)
  {
    if a != [] {
      if a[0] == b[0] == c[0] {
        TupleLeTransitive(a[1..], b[1..], c[1..]);
      } else {
        StringLeReflexive(a[0]);
        StringLeReflexive(c[0]);
        StringLeTransitive(a[0], b[0], c[0]);
        if a[0] == c[0] { StringLeAntisymmetric(a[0], b[0]); }
      }
    }
  }

  function SortKey(a: Artifact): seq<string>
    requires Complete(a)
  {
    RuntimeTuple(a) + [a.asset.value]
  }

  predicate Precedes(a: Artifact, b: Artifact)
    requires Complete(a) && Complete(b)
  {
    TupleLe(SortKey(a), SortKey(b))
  }

  lemma TupleByHead(a: string, b: string, s: seq<string>, t: seq<string>)
    ensures TupleLe([a] + s, [b] + t) <==> if a == b then TupleLe(s, t) else StringLe(a, b)
  {
    assert ([a] + s)[1..] == s && ([b] + t)[1..] == t;
  }

  /** The key orders by Python tag, ABI, platform, Torch, CUDA and then the name. */
  lemma PrecedesByField(a: Artifact, b: Artifact)
    requires Complete(a) && Complete(b)
    ensures Precedes(a, b) <==>
              if a.pythonTag != b.pythonTag then StringLe(a.pythonTag.value, b.pythonTag.value)
              else if a.abiTag != b.abiTag then StringLe(a.abiTag.value, b.abiTag.value)
              else if a.platformTag != b.platformTag then StringLe(a.platformTag.value, b.platformTag.value)
              else if a.torchVersion != b.torchVersion then StringLe(a.torchVersion.value, b.torchVersion.value)
              else if a.torchCudaVersion != b.torchCudaVersion
              then StringLe(a.torchCudaVersion.value, b.torchCudaVersion.value)
              else StringLe(a.asset.value, b.asset.value)
  {
    var s, t := SortKey(a), SortKey(b);
    TupleByHead(s[0], t[0], s[1..], t[1..]);
    TupleByHead(s[1], t[1], s[2..], t[2..]);
    TupleByHead(s[2], t[2], s[3..], t[3..]);
    TupleByHead(s[3], t[3], s[4..], t[4..]);
    TupleByHead(s[4], t[4], s[5..], t[5..]);
    TupleByHead(s[5], t[5], [], []);
    assert s == [s[0]] + s[1..] && s[1..] == [s[1]] + s[2..] && s[2..] == [s[2]] + s[3..] && s[3..] == [s[3]] + s[4..];
    assert t == [t[0]] + t[1..] && t[1..] == [t[1]] + t[2..] && t[2..] == [t[2]] + t[3..] && t[3..] == [t[3]] + t[4..];
    assert s[4..] == [s[4]] + s[5..] && s[5..] == [s[5]] + [] && t[4..] == [t[4]] + t[5..] && t[5..] == [t[5]] + [];
    if s[5] == t[5] { StringLeReflexive(s[5]); }
  }

  predicate Sorted(s: seq<Artifact>)
    requires AllComplete(s)
  {
    forall i, j :: 0 <= i < j < |s| ==> Precedes(s[i], s[j])
  }

  /** Equal keys belong to clashing artifacts. */
  lemma SameKeyClashes(a: Artifact, b: Artifact)
    requires Complete(a) && Complete(b) && Precedes(a, b) && Precedes(b, a)
    ensures Clash(a, b)
  {
    TupleLeAntisymmetric(SortKey(a), SortKey(b));
    assert RuntimeTuple(a) == SortKey(a)[..5] == SortKey(b)[..5] == RuntimeTuple(b);
  }

  // ---- Bags of artifacts ----

  lemma SplitMultiset<T>(s: seq<T>, i: nat)
    requires i < |s|
    ensures multiset(s) == multiset(s[..i]) + multiset{s[i]} + multiset(s[i + 1..])
  {
    assert s == s[..i] + [s[i]] + s[i + 1..];
  }

  lemma SameElements<T>(s: seq<T>, t: seq<T>, x: T)
    requires multiset(s) == multiset(t) && x in s
    ensures x in t
  {
    assert x in multiset(t);
  }

  lemma CompleteInAnyOrder(s: seq<Artifact>, t: seq<Artifact>)
    requires multiset(s) == multiset(t) && AllComplete(s)
    ensures AllComplete(t)
  {
    forall a | a in t ensures Complete(a) { SameElements(t, s, a); }
  }

  lemma {:induction false} NoClashNoRepetition(s: seq<Artifact>, x: Artifact)
    requires AllComplete(s) && NoClash(s)
    ensures multiset(s)[x] <= 1
  {
    if s != [] {
      assert s == [s[0]] + s[1..];
      assert forall i :: 0 <= i < |s| - 1 ==> s[1..][i] == s[i + 1] && !Clash(s[0], s[i + 1]);
      NoClashNoRepetition(s[1..], x);
      assert s[0] !in s[1..];
    }
  }

  lemma Repetition<T>(t: seq<T>, i: nat, j: nat)
    requires i < j < |t|
    ensures t[i] == t[j] ==> multiset(t)[t[i]] >= 2
  {
    SplitMultiset(t, i);
    assert t[j] == t[i + 1..][j - i - 1];
  }

  /** Whether artifacts clash does not depend on their order. */
  lemma NoClashInAnyOrder(s: seq<Artifact>, t: seq<Artifact>)
    requires multiset(s) == multiset(t) && AllComplete(s) && AllComplete(t) && NoClash(s)
    ensures NoClash(t)
  {
    forall i, j | 0 <= i < j < |t| ensures !Clash(t[i], t[j]) {
      NoClashNoRepetition(s, t[i]);
      Repetition(t, i, j);
      SameElements(t, s, t[i]);
      SameElements(t, s, t[j]);
      var p :| 0 <= p < |s| && s[p] == t[i];
      var q :| 0 <= q < |s| && s[q] == t[j];
    }
  }

  lemma WithoutHead<T>(s: seq<T>, t: seq<T>)
    requires s != [] && t != [] && s[0] == t[0] && multiset(s) == multiset(t)
    ensures multiset(s[1..]) == multiset(t[1..])
  {
    SplitMultiset(s, 0);
    SplitMultiset(t, 0);
    assert s[..0] == [] && t[..0] == [];
    assert multiset(s[1..]) == multiset(s) - multiset{s[0]};
    assert multiset(t[1..]) == multiset(t) - multiset{t[0]};
  }

  /** Two sorted orders of the same artifacts start alike. */
  lemma SameHead(s: seq<Artifact>, t: seq<Artifact>)
    requires s != [] && t != [] && multiset(s) == multiset(t) && AllComplete(s) && AllComplete(t)
    requires NoClash(s) && Sorted(s) && Sorted(t)
    ensures s[0] == t[0]
  {
    SameElements(s, t, s[0]);
    SameElements(t, s, t[0]);
    var p :| 0 <= p < |s| && s[p] == t[0];
    var q :| 0 <= q < |t| && t[q] == s[0];
    if p > 0 && q > 0 { SameKeyClashes(s[0], s[p]); }
  }

  /** A list without clashes has only one order by key. */
  lemma {:induction false} OneSortedOrder(s: seq<Artifact>, t: seq<Artifact>)
    requires multiset(s) == multiset(t) && AllComplete(s) && AllComplete(t)
    requires NoClash(s) && NoClash(t) && Sorted(s) && Sorted(t)
    ensures s == t
    decreases |s|
  {
    assert |s| == |multiset(s)| == |multiset(t)| == |t|;
    if s != [] {
      SameHead(s, t);
      WithoutHead(s, t);
      OneSortedOrder(s[1..], t[1..]);
      assert s == [s[0]] + s[1..] && t == [t[0]] + t[1..];
    }
  }

  // ---- Merging ----

  function Concat(inputs: seq<Input>): seq<Artifact> {
    if inputs == [] then [] else Concat(inputs[..|inputs| - 1]) + inputs[|inputs| - 1].artifacts
  }

  /** The inputs can be merged. */
  predicate Mergeable(inputs: seq<Input>) {
    (forall m :: m in inputs ==> Loads(m)) && AllComplete(Concat(inputs)) && NoClash(Concat(inputs))
  }

  /** What merging is to give: nothing, or all artifacts in the order of their keys. */
  predicate IsMerge(inputs: seq<Input>, merged: Option<seq<Artifact>>) {
    && (merged.Some? <==> Mergeable(inputs))
    && (merged.Some? ==>
          AllComplete(merged.value) && Sorted(merged.value) && multiset(merged.value) == multiset(Concat(inputs)))
  }

  /** What the sets of `merge` say about the artifacts accepted so far. */
  ghost predicate Seen(s: seq<Artifact>, assets: set<string>, tuples: set<seq<string>>, buildIds: set<string>)
    requires AllComplete(s)
  {
    && (forall x :: x in assets <==> exists i :: 0 <= i < |s| && s[i].asset == Some(x))
    && (forall x :: x in tuples <==> exists i :: 0 <= i < |s| && RuntimeTuple(s[i]) == x)
    && (forall x :: x in buildIds <==> exists i :: 0 <= i < |s| && s[i].buildId == Some(x))
  }

  lemma SeenStays(s: seq<Artifact>, a: Artifact, assets: set<string>, tuples: set<seq<string>>, buildIds: set<string>)
    requires AllComplete(s) && Complete(a) && Seen(s, assets, tuples, buildIds)
    ensures AllComplete(s + [a])
    ensures Seen(s + [a], assets + {a.asset.value}, tuples + {RuntimeTuple(a)}, buildIds + {a.buildId.value})
  {
    var t := s + [a];
    assert t[|s|] == a && forall i :: 0 <= i < |s| ==> t[i] == s[i];
  }

  /** One artifact of the nested loop. */
  method Admit(s: seq<Artifact>, a: Artifact, assets: set<string>, tuples: set<seq<string>>, buildIds: set<string>)
    returns (ok: bool)
    requires AllComplete(s) && NoClash(s) && Seen(s, assets, tuples, buildIds) && a.asset.Some?
    ensures ok <==> Complete(a) && NoClash(s + [a])
  {
    var named :=
      && Named(a.pythonTag) && Named(a.abiTag) && Named(a.platformTag)
      && Named(a.torchVersion) && Named(a.torchCudaVersion);
    if !named { return false; }
    if a.asset.value in assets {
      if Complete(a) { ClashWithSeen(s, a, assets, tuples, buildIds); }
      return false;
    }
    if !Named(a.buildId) { return false; }
    if RuntimeTuple(a) in tuples || a.buildId.value in buildIds {
      ClashWithSeen(s, a, assets, tuples, buildIds);
      return false;
    }
    var t := s + [a];
    assert t[|s|] == a && forall i :: 0 <= i < |s| ==> t[i] == s[i];
    return true;
  }

  lemma ClashWithSeen(
    s: seq<Artifact>, a: Artifact, assets: set<string>, tuples: set<seq<string>>, buildIds: set<string>)
    requires AllComplete(s) && Seen(s, assets, tuples, buildIds) && Complete(a)
    requires a.asset.value in assets || RuntimeTuple(a) in tuples || a.buildId.value in buildIds
    ensures AllComplete(s + [a]) && !NoClash(s + [a])
  {
    var t := s + [a];
    var i :| 0 <= i < |s| && Clash(s[i], a);
    assert t[i] == s[i] && t[|s|] == a && Clash(t[i], t[|s|]);
  }

  lemma ConcatPrefix(inputs: seq<Input>, i: nat)
    requires i < |inputs|
    ensures Concat(inputs[..i + 1]) == Concat(inputs[..i]) + inputs[i].artifacts
  {
    assert inputs[..i + 1][..i] == inputs[..i];
  }

  predicate Faulty(s: seq<Artifact>) { !AllComplete(s) || !NoClash(s) }

  /** A clash among the first artifacts is a clash among all. */
  lemma {:induction false} ClashPersists(inputs: seq<Input>, s: seq<Artifact>, i: nat)
    requires i <= |inputs| && s <= Concat(inputs[..i])
    requires Faulty(s)
    ensures !Mergeable(inputs)
    decreases |inputs| - i
  {
    if i == |inputs| {
      assert inputs[..i] == inputs;
      var all := Concat(inputs);
      assert forall k :: 0 <= k < |s| ==> s[k] == all[k];
    } else {
      ConcatPrefix(inputs, i);
      ClashPersists(inputs, s, i + 1);
    }
  }

  /** The list and the sets `merge` keeps up to date. */
  datatype Admitted = Admitted(
    artifacts: seq<Artifact>, assets: set<string>, tuples: set<seq<string>>, buildIds: set<string>)

  ghost predicate Consistent(s: Admitted) {
    AllComplete(s.artifacts) && NoClash(s.artifacts) && Seen(s.artifacts, s.assets, s.tuples, s.buildIds)
  }

  /** One turn of the inner loop. */
  method AdmitNext(s: Admitted, a: Artifact) returns (t: Admitted, ok: bool)
    requires Consistent(s) && a.asset.Some?
    ensures ok <==> !Faulty(s.artifacts + [a])
    ensures ok ==> Consistent(t) && t.artifacts == s.artifacts + [a]
  {
    t := s;
    ok := Admit(s.artifacts, a, s.assets, s.tuples, s.buildIds);
    assert (s.artifacts + [a])[|s.artifacts|] == a;
    if ok {
      SeenStays(s.artifacts, a, s.assets, s.tuples, s.buildIds);
      t := Admitted(
        s.artifacts + [a], s.assets + {a.asset.value}, s.tuples + {RuntimeTuple(a)}, s.buildIds + {a.buildId.value});
    }
  }

  /** The artifacts of one manifest, added to those accepted before. */
  method AddArtifacts(before: Admitted, artifacts: seq<Artifact>) returns (s: Admitted, ok: bool)
    requires Consistent(before) && forall x :: x in artifacts ==> x.asset.Some?
    ensures ok ==> Consistent(s) && s.artifacts == before.artifacts + artifacts
    ensures !ok ==> exists k :: 0 <= k <= |artifacts| && Faulty(before.artifacts + artifacts[..k])
  {
    s, ok := before, true;
    for i := 0 to |artifacts|
      invariant Consistent(s) && s.artifacts == before.artifacts + artifacts[..i]
    {
      assert s.artifacts + [artifacts[i]] == before.artifacts + artifacts[..i + 1];
      s, ok := AdmitNext(s, artifacts[i]);
      if !ok { return; }
    }
    assert artifacts[..|artifacts|] == artifacts;
  }

  lemma FaultIsFatal(inputs: seq<Input>, i: nat, before: seq<Artifact>)
    requires i < |inputs| && before == Concat(inputs[..i])
    requires exists k :: 0 <= k <= |inputs[i].artifacts| && Faulty(before + inputs[i].artifacts[..k])
    ensures !Mergeable(inputs)
  {
    var k :| 0 <= k <= |inputs[i].artifacts| && Faulty(before + inputs[i].artifacts[..k]);
    ConcatPrefix(inputs, i);
    ClashPersists(inputs, before + inputs[i].artifacts[..k], i + 1);
  }

  /** What they hold after the first manifests. */
  ghost predicate Holds(inputs: seq<Input>, i: nat, s: Admitted)
    requires i <= |inputs|
  {
    s.artifacts == Concat(inputs[..i]) && (forall j :: 0 <= j < i ==> Loads(inputs[j])) && Consistent(s)
  }

  /** One turn of the outer loop. */
  method AddManifest(inputs: seq<Input>, i: nat, before: Admitted) returns (after: Admitted, ok: bool)
    requires i < |inputs| && Holds(inputs, i, before)
    ensures ok ==> Holds(inputs, i + 1, after)
    ensures !ok ==> !Mergeable(inputs)
  {
    if !Loads(inputs[i]) { return before, false; }
    after, ok := AddArtifacts(before, inputs[i].artifacts);
    if ok { ConcatPrefix(inputs, i); } else { FaultIsFatal(inputs, i, before.artifacts); }
  }

  lemma AllHeld(inputs: seq<Input>, s: Admitted)
    requires Holds(inputs, |inputs|, s)
    ensures Mergeable(inputs) && s.artifacts == Concat(inputs)
  {
    assert inputs[..|inputs|] == inputs;
  }

  /** `merge` */
  method Merge(inputs: seq<Input>) returns (merged: Option<seq<Artifact>>)
    ensures IsMerge(inputs, merged)
  {
    var admitted := Admitted([], {}, {}, {});
    for i := 0 to |inputs|
      invariant Holds(inputs, i, admitted)
    {
      var ok: bool;
      admitted, ok := AddManifest(inputs, i, admitted);
      if !ok { return None; }
    }
    AllHeld(inputs, admitted);
    var sorted := SortByKey(admitted.artifacts);
    merged := Some(sorted);
  }

  /** Where a new artifact belongs in a sorted list. */
  function Place(s: seq<Artifact>, a: Artifact): (k: nat)
    requires AllComplete(s) && Complete(a)
    ensures k <= |s| && (forall i :: 0 <= i < k ==> Precedes(s[i], a)) && (k < |s| ==> !Precedes(s[k], a))
  {
    if s == [] || !Precedes(s[0], a) then 0
    else
      var k := Place(s[1..], a);
      assert forall i :: 1 <= i < k + 1 ==> s[i] == s[1..][i - 1];
      k + 1
  }

  function Inserted(s: seq<Artifact>, a: Artifact, k: nat): seq<Artifact>
    requires k <= |s|
  {
    s[..k] + [a] + s[k..]
  }

  lemma InsertKeepsElements(s: seq<Artifact>, a: Artifact, k: nat)
    requires k <= |s|
    ensures multiset(Inserted(s, a, k)) == multiset(s) + multiset{a}
    ensures AllComplete(s) && Complete(a) ==> AllComplete(Inserted(s, a, k))
  {
    assert s == s[..k] + s[k..];
  }

  lemma InsertKeepsSorted(s: seq<Artifact>, a: Artifact)
    requires AllComplete(s) && Complete(a) && Sorted(s)
    ensures var t := Inserted(s, a, Place(s, a)); AllComplete(t) && Sorted(t)
  {
    var k := Place(s, a);
    var t := Inserted(s, a, k);
    InsertKeepsElements(s, a, k);
    forall i, j | 0 <= i < j < |t| ensures Precedes(t[i], t[j]) {
      if i == k { PrecedesRest(s, a, k, j - 1); }
    }
  }

  lemma PrecedesRest(s: seq<Artifact>, a: Artifact, k: nat, j: nat)
    requires AllComplete(s) && Complete(a) && Sorted(s) && k <= j < |s| && !Precedes(s[k], a)
    ensures Precedes(a, s[j])
  {
    TupleLeTotal(SortKey(s[k]), SortKey(a));
    if j > k { TupleLeTransitive(SortKey(a), SortKey(s[k]), SortKey(s[j])); }
  }

  method InsertByKey(sorted: seq<Artifact>, a: Artifact) returns (t: seq<Artifact>)
    requires AllComplete(sorted) && Complete(a) && Sorted(sorted)
    ensures AllComplete(t) && Sorted(t) && multiset(t) == multiset(sorted) + multiset{a}
  {
    var k := Place(sorted, a);
    InsertKeepsSorted(sorted, a);
    InsertKeepsElements(sorted, a, k);
    t := Inserted(sorted, a, k);
  }

  lemma PrefixBag<T>(s: seq<T>, i: nat)
    requires i < |s|
    ensures multiset(s[..i + 1]) == multiset(s[..i]) + multiset{s[i]}
  {
    assert s[..i + 1] == s[..i] + [s[i]];
  }

  /** The list's own sort by tuple and asset. */
  method SortByKey(s: seq<Artifact>) returns (sorted: seq<Artifact>)
    requires AllComplete(s)
    ensures AllComplete(sorted) && Sorted(sorted) && multiset(sorted) == multiset(s)
  {
    sorted := [];
    for i := 0 to |s|
      invariant AllComplete(sorted) && Sorted(sorted) && multiset(sorted) == multiset(s[..i])
    {
      PrefixBag(s, i);
      sorted := InsertByKey(sorted, s[i]);
    }
    assert s[..|s|] == s;
  }

  /** All artifacts of some manifests, however they are ordered. */
  function Bag(inputs: seq<Input>): multiset<Artifact> {
    if inputs == [] then multiset{} else Bag(inputs[..|inputs| - 1]) + multiset(inputs[|inputs| - 1].artifacts)
  }

  lemma {:induction false} BagOfConcat(inputs: seq<Input>)
    ensures multiset(Concat(inputs)) == Bag(inputs)
  {
    if inputs != [] { BagOfConcat(inputs[..|inputs| - 1]); }
  }

  lemma BagOfMore(front: seq<Input>, last: Input)
    ensures Bag(front + [last]) == Bag(front) + multiset(last.artifacts)
  {
    assert (front + [last])[..|front|] == front;
  }

  function Without(inputs: seq<Input>, i: nat): seq<Input>
    requires i < |inputs|
  {
    inputs[..i] + inputs[i + 1..]
  }

  lemma WithoutMore(front: seq<Input>, last: Input, i: nat)
    requires i < |front|
    ensures Without(front + [last], i) == Without(front, i) + [last]
  {
  }

  lemma WithoutLast(front: seq<Input>, last: Input)
    ensures Without(front + [last], |front|) == front
  {
  }

  lemma {:induction false} BagWithout(inputs: seq<Input>, i: nat)
    requires i < |inputs|
    ensures Bag(inputs) == multiset(inputs[i].artifacts) + Bag(Without(inputs, i))
  {
    var front, last := inputs[..|inputs| - 1], inputs[|inputs| - 1];
    assert inputs == front + [last];
    if i == |front| {
      WithoutLast(front, last);
    } else {
      BagWithout(front, i);
      WithoutMore(front, last, i);
      BagOfMore(Without(front, i), last);
    }
  }

  lemma WithoutOne<T>(a: seq<T>, b: seq<T>, i: nat)
    requires a != [] && multiset(a) == multiset(b) && i < |b| && b[i] == a[|a| - 1]
    ensures multiset(a[..|a| - 1]) == multiset(b[..i] + b[i + 1..])
  {
    SplitMultiset(a, |a| - 1);
    SplitMultiset(b, i);
    assert a[|a|..] == [];
    var x := multiset{b[i]};
    assert multiset(a[..|a| - 1]) == multiset(a) - x;
    assert multiset(b[..i]) + multiset(b[i + 1..]) == multiset(b) - x;
  }

  /** The same manifests hold the same artifacts in any order. */
  lemma {:induction false} BagInAnyOrder(a: seq<Input>, b: seq<Input>)
    requires multiset(a) == multiset(b)
    ensures Bag(a) == Bag(b)
    decreases |a|
  {
    assert |a| == |multiset(a)| == |multiset(b)| == |b|;
    if a != [] {
      var n := |a| - 1;
      SameElements(a, b, a[n]);
      var i :| 0 <= i < |b| && b[i] == a[n];
      WithoutOne(a, b, i);
      BagInAnyOrder(a[..n], b[..i] + b[i + 1..]);
      BagWithout(b, i);
    }
  }

  /** Merging succeeds or fails, and gives the same list, whatever the order of the manifests. */
  lemma MergeIgnoresOrder(a: seq<Input>, b: seq<Input>, ma: Option<seq<Artifact>>, mb: Option<seq<Artifact>>)
    requires multiset(a) == multiset(b) && IsMerge(a, ma) && IsMerge(b, mb)
    ensures ma == mb
  {
    BagInAnyOrder(a, b);
    BagOfConcat(a);
    BagOfConcat(b);
    if Mergeable(a) { MergeableInAnyOrder(a, b); }
    if Mergeable(b) { MergeableInAnyOrder(b, a); }
    if ma.Some? {
      NoClashInAnyOrder(Concat(a), ma.value);
      NoClashInAnyOrder(Concat(a), mb.value);
      OneSortedOrder(ma.value, mb.value);
    }
  }

  lemma MergeableInAnyOrder(a: seq<Input>, b: seq<Input>)
    requires multiset(a) == multiset(b) && multiset(Concat(a)) == multiset(Concat(b)) && Mergeable(a)
    ensures Mergeable(b)
  {
    forall m | m in b ensures Loads(m) { SameElements(b, a, m); }
    CompleteInAnyOrder(Concat(a), Concat(b));
    NoClashInAnyOrder(Concat(a), Concat(b));
  }

  // ---- Selecting ----

  /** The environment a wheel is selected for. */
  datatype Target = Target(
    pythonTag: string, abiTag: string, platformTag: string,
    torchVersion: string, cudaVersion: string, capabilities: set<string>)

  predicate Matches(a: Artifact, e: Target) {
    && a.pythonTag == Some(e.pythonTag) && a.abiTag == Some(e.abiTag) && a.platformTag == Some(e.platformTag)
    && a.torchVersion == Some(e.torchVersion)
    && a.torchCudaVersion == Some(e.cudaVersion) && a.cudaVersion == Some(e.cudaVersion)
  }

  function Matching(artifacts: seq<Artifact>, e: Target): (r: seq<Artifact>)
    ensures forall a :: a in r <==> a in artifacts && Matches(a, e)
  {
    if artifacts == [] then []
    else
      assert artifacts == [artifacts[0]] + artifacts[1..];
      if Matches(artifacts[0], e) then [artifacts[0]] + Matching(artifacts[1..], e) else Matching(artifacts[1..], e)
  }

  /** `select_artifact`; None when it raises. */
  function SelectArtifact(artifacts: seq<Artifact>, e: Target): Option<Artifact> {
    var matches := Matching(artifacts, e);
    if |matches| != 1 then None
    else
      var a := matches[0];
      if e.capabilities <= a.capabilities && a.sha256.Some? && IsHexDigest(a.sha256.value)
         && a.asset.Some? && SafeAsset(a.asset.value)
      then Some(a) else None
  }

  lemma {:induction false} NoMatch(s: seq<Artifact>, e: Target)
    requires forall a :: a in s ==> !Matches(a, e)
    ensures Matching(s, e) == []
  {
    if s != [] {
      assert s[0] in s;
      assert forall a :: a in s[1..] ==> a in s;
      NoMatch(s[1..], e);
    }
  }

  /** Without clashes at most one artifact matches, and a match is the only one. */
  lemma {:induction false} OneMatch(s: seq<Artifact>, e: Target)
    requires AllComplete(s) && NoClash(s)
    ensures |Matching(s, e)| <= 1
    ensures forall a :: a in s && Matches(a, e) ==> Matching(s, e) == [a]
  {
    if s != [] {
      assert forall i :: 0 <= i < |s| - 1 ==> s[1..][i] == s[i + 1];
      OneMatch(s[1..], e);
      if Matches(s[0], e) {
        forall a | a in s[1..] ensures !Matches(a, e) {
          var i :| 1 <= i < |s| && s[i] == a;
          assert !Clash(s[0], s[i]);
        }
        NoMatch(s[1..], e);
      }
      forall a | a in s && Matches(a, e) ensures Matching(s, e) == [a] {
        assert a == s[0] || a in s[1..];
      }
    }
  }

  /** A plain file name that ends in ".whl". */
  predicate IsWheelName(s: string) {
    |s| >= 4 && s[|s| - 4..] == ".whl" && forall i :: 0 <= i < |s| ==> s[i] != '/' && s[i] != '\\'
  }

  /** Selection gives an artifact exactly if it matches, supports every GPU, and names a safe wheel with a digest. */
  lemma SelectsTheMatch(s: seq<Artifact>, e: Target, a: Artifact)
    requires AllComplete(s) && NoClash(s)
    ensures SelectArtifact(s, e) == Some(a) <==>
              && a in s && e.capabilities <= a.capabilities
              && a.pythonTag == Some(e.pythonTag) && a.abiTag == Some(e.abiTag)
              && a.platformTag == Some(e.platformTag) && a.torchVersion == Some(e.torchVersion)
              && a.torchCudaVersion == Some(e.cudaVersion) && a.cudaVersion == Some(e.cudaVersion)
              && a.sha256.Some? && IsHexDigest(a.sha256.value) && a.asset.Some? && IsWheelName(a.asset.value)
  {
    OneMatch(s, e);
    var found := Matching(s, e);
    assert |found| == 1 ==> found[0] in found;
  }

  /** A merged artifact is some input's, under a plain name, with digest and size of the wheel of that name. */
  lemma MergedIsGenuine(inputs: seq<Input>, merged: seq<Artifact>, a: Artifact)
    requires IsMerge(inputs, Some(merged)) && a in merged
    ensures exists m :: m in inputs && IsGenuine(m, a)
  {
    SameElements(merged, Concat(inputs), a);
    InConcat(inputs, a);
    var m :| m in inputs && a in m.artifacts;
    assert Verified(a, m.wheels);
    if m.checksums.Some? { ChecksumIsListed(m, a); }
    assert IsGenuine(m, a);
  }

  lemma ChecksumIsListed(m: Input, a: Artifact)
    requires Loads(m) && a in m.artifacts && m.checksums.Some? && a.sha256.Some? && a.asset.Some?
    ensures a.sha256.value + "  " + a.asset.value in m.checksums.value
  {
    var i :| 0 <= i < |m.artifacts| && m.artifacts[i] == a;
    assert ChecksumLines(m.artifacts)[i] == a.sha256.value + "  " + a.asset.value;
    SameElements(ChecksumLines(m.artifacts), m.checksums.value, ChecksumLine(a));
  }

  predicate IsGenuine(m: Input, a: Artifact) {
    && m.schemaOne && a in m.artifacts && a.asset.Some? && IsWheelName(a.asset.value) && a.asset.value in m.wheels
    && a.sha256 == Some(m.wheels[a.asset.value].digest) && a.size == Some(m.wheels[a.asset.value].size)
    && (m.checksums.Some? ==> m.wheels[a.asset.value].digest + "  " + a.asset.value in m.checksums.value)
  }

  lemma {:induction false} InConcat(inputs: seq<Input>, a: Artifact)
    ensures a in Concat(inputs) <==> exists m :: m in inputs && a in m.artifacts
  {
    if inputs != [] {
      var front, last := inputs[..|inputs| - 1], inputs[|inputs| - 1];
      InConcat(front, a);
      assert inputs == front + [last];
    }
  }

  /** The artifacts of one of several mergeable manifests do not clash either. */
  lemma {:induction false} PartHasNoClash(inputs: seq<Input>, m: Input)
    requires AllComplete(Concat(inputs)) && NoClash(Concat(inputs)) && m in inputs
    ensures AllComplete(m.artifacts) && NoClash(m.artifacts)
  {
    var front, last := inputs[..|inputs| - 1], inputs[|inputs| - 1];
    var before, all := Concat(front), Concat(inputs);
    assert forall i :: 0 <= i < |before| ==> all[i] == before[i];
    assert forall i :: 0 <= i < |last.artifacts| ==> all[|before| + i] == last.artifacts[i];
    if m != last {
      assert m in front;
      PartHasNoClash(front, m);
    }
  }

  /**
   Over a merged manifest no environment ever has two matches, and selection
   finds exactly what it would find in the one input that contains the match.
   */
  lemma SelectionFindsTheInput(inputs: seq<Input>, merged: seq<Artifact>, e: Target)
    requires IsMerge(inputs, Some(merged))
    ensures |Matching(merged, e)| <= 1
    ensures forall m, a :: m in inputs && a in m.artifacts && Matches(a, e) ==>
              Matching(merged, e) == [a] && SelectArtifact(merged, e) == SelectArtifact(m.artifacts, e)
    ensures (forall m, a :: m in inputs && a in m.artifacts ==> !Matches(a, e)) ==> SelectArtifact(merged, e) == None
  {
    NoClashInAnyOrder(Concat(inputs), merged);
    OneMatch(merged, e);
    forall m, a | m in inputs && a in m.artifacts && Matches(a, e)
      ensures Matching(merged, e) == [a] && SelectArtifact(merged, e) == SelectArtifact(m.artifacts, e)
    {
      InConcat(inputs, a);
      SameElements(Concat(inputs), merged, a);
      PartHasNoClash(inputs, m);
      OneMatch(m.artifacts, e);
    }
    if forall m, a :: m in inputs && a in m.artifacts ==> !Matches(a, e) {
      forall a | a in merged ensures !Matches(a, e) {
        SameElements(merged, Concat(inputs), a);
        InConcat(inputs, a);
      }
      NoMatch(merged, e);
    }
  }

  /** The merged output can be merged again exactly if its checksum lines, kept in tuple order, happen to be sorted. */
  lemma MergedOutputLoads(inputs: seq<Input>, merged: seq<Artifact>, wheels: map<string, Wheel>)
    requires IsMerge(inputs, Some(merged)) && inputs != []
    requires forall a :: a in merged ==> Verified(a, wheels)
    ensures Loads(Input(true, merged, wheels, Some(ChecksumLines(merged)))) <==> SortedLines(ChecksumLines(merged))
  {
    assert inputs[0] in inputs && inputs[0].artifacts != [];
    InConcat(inputs, inputs[0].artifacts[0]);
    SameElements(Concat(inputs), merged, inputs[0].artifacts[0]);
  }

  function Sample(tag: string, digest: string, asset: string): Artifact {
    Artifact(
      Some(tag), Some("b"), Some("p"), Some("t"), Some("c"), None, Some(asset), Some(tag), Some(digest), Some(1), {})
  }

  function SampleInput(a: Artifact): Input
    requires a.asset.Some? && a.sha256.Some?
  {
    Input(true, [a], map[a.asset.value := Wheel(a.sha256.value, 1)], None)
  }

  lemma TwoMerge(x: Input, y: Input, a: Artifact, b: Artifact)
    requires Loads(x) && Loads(y) && x.artifacts == [a] && y.artifacts == [b]
    requires Complete(a) && Complete(b) && !Clash(a, b) && Precedes(a, b)
    ensures IsMerge([x, y], Some([a, b]))
  {
    var inputs := [x, y];
    assert inputs[..1] == [x] && [x][..0] == [];
    assert Concat([x]) == [a];
    assert Concat(inputs) == [a, b];
  }

  lemma UnsortedPair(a: Artifact, b: Artifact)
    requires !StringLe(ChecksumLine(a), ChecksumLine(b))
    ensures !SortedLines(ChecksumLines([a, b]))
  {
    var lines := ChecksumLines([a, b]);
    assert lines[0] == ChecksumLine(a) && lines[1] == ChecksumLine(b);
  }

  lemma SamplesAreOrdered(a: Artifact, b: Artifact)
    requires Complete(a) && Complete(b) && a.asset != b.asset && a.buildId != b.buildId
    requires |a.pythonTag.value| == 1 == |b.pythonTag.value| && a.pythonTag.value[0] < b.pythonTag.value[0]
    ensures !Clash(a, b) && Precedes(a, b)
  {
    assert RuntimeTuple(a)[0] == a.pythonTag.value && RuntimeTuple(b)[0] == b.pythonTag.value;
    assert SortKey(a)[0] == a.pythonTag.value && SortKey(b)[0] == b.pythonTag.value;
  }

  /** The text of a digest that repeats one digit. */
  function Repeated(digit: char): (s: string)
    requires '0' <= digit <= '9'
    ensures IsHexDigest(s) && s[0] == digit
  {
    seq(64, _ => digit)
  }

  /** A merge of two builds whose output is out of order. */
  ghost predicate OutOfOrder(inputs: seq<Input>, merged: seq<Artifact>) {
    && IsMerge(inputs, Some(merged)) && |merged| == 2 && !SortedLines(ChecksumLines(merged))
    && forall a :: a in merged ==> a.sha256.Some? && IsHexDigest(a.sha256.value)
  }

  lemma OutOfOrderPair(a: Artifact, b: Artifact)
    requires Complete(a) && Complete(b) && a.asset != b.asset && a.buildId != b.buildId
    requires |a.pythonTag.value| == 1 == |b.pythonTag.value| && a.pythonTag.value[0] < b.pythonTag.value[0]
    requires a.sha256.Some? && IsHexDigest(a.sha256.value) && b.sha256.Some? && IsHexDigest(b.sha256.value)
    requires a.sha256.value[0] > b.sha256.value[0]
    requires Loads(SampleInput(a)) && Loads(SampleInput(b))
    ensures OutOfOrder([SampleInput(a), SampleInput(b)], [a, b])
  {
    SamplesAreOrdered(a, b);
    TwoMerge(SampleInput(a), SampleInput(b), a, b);
    assert ChecksumLine(a)[0] == a.sha256.value[0] && ChecksumLine(b)[0] == b.sha256.value[0];
    UnsortedPair(a, b);
  }

  /** They need not be: two builds in tuple order whose digests are in the other order. */
  lemma MergedOutputMayNotLoad()
    ensures exists inputs: seq<Input>, merged: seq<Artifact> :: OutOfOrder(inputs, merged)
  {
    var a, b := Sample("1", Repeated('2'), "a.whl"), Sample("2", Repeated('1'), "b.whl");
    SampleLoads("1", Repeated('2'), "a.whl");
    SampleLoads("2", Repeated('1'), "b.whl");
    OutOfOrderPair(a, b);
  }

  lemma SampleLoads(tag: string, digest: string, asset: string)
    requires SafeAsset(asset)
    ensures Loads(SampleInput(Sample(tag, digest, asset)))
  {
  }
}
