/**
 scripts/publish-version.ts 5-30: the order of versions and the choice of the next one. A version text that matches the pattern is
 its three places and its tag; any other text is kept as it is.
 */
module Versions {
  import opened Wrappers

  datatype Version = Version(major: nat, minor: nat, patch: nat, tag: Option<string>)

  datatype Text = Matching(version: Version) | Other(text: string)

  datatype NextVersion = NextVersion(version: Version, latest: Option<Version>)

  datatype Error = NotAVersion

  /** The first difference that is not zero; the tag does not count. */
  function Compare(left: Version, right: Version): int {
    if left.major != right.major then left.major - right.major
    else if left.minor != right.minor then left.minor - right.minor
    else left.patch - right.patch
  }

  /** The order is total, transitive, and takes versions for equal that differ in the tag alone. */
  lemma CompareIsTotalPreorder(a: Version, b: Version, c: Version)
    ensures Compare(a, b) == -Compare(b, a)
    ensures Compare(a, b) <= 0 && Compare(b, c) <= 0 ==> Compare(a, c) <= 0
    ensures Compare(a, b) < 0 && Compare(b, c) <= 0 ==> Compare(a, c) < 0
    ensures Compare(a, b) <= 0 && Compare(b, c) < 0 ==> Compare(a, c) < 0
    ensures Compare(a, b) == 0 <==> a == b.(tag := a.tag)
  {
  }

  /** A place counts only where all places before it are equal. */
  lemma CompareIsBySignificance(a: Version, b: Version)
    ensures a.major < b.major ==> Compare(a, b) < 0
    ensures a.major == b.major && a.minor < b.minor ==> Compare(a, b) < 0
    ensures a.major == b.major && a.minor == b.minor && a.patch < b.patch ==> Compare(a, b) < 0
  {
  }

  // ----- the stable sort -----

  function Insert(sorted: seq<Version>, v: Version): seq<Version> {
    if sorted == [] || Compare(sorted[|sorted| - 1], v) <= 0 then sorted + [v]
    else Insert(sorted[..|sorted| - 1], v) + [sorted[|sorted| - 1]]
  }

  function Sort(versions: seq<Version>): seq<Version> {
    if versions == [] then [] else Insert(Sort(versions[..|versions| - 1]), versions[|versions| - 1])
  }

  /** `sort(compareVersions).at(-1)` */
  function Latest(versions: seq<Version>): Option<Version> {
    var sorted := Sort(versions);
    if sorted == [] then None else Some(sorted[|sorted| - 1])
  }

  predicate Ordered(versions: seq<Version>) {
    forall i, j :: 0 <= i <= j < |versions| ==> Compare(versions[i], versions[j]) <= 0
  }

  lemma OrderedSnoc(versions: seq<Version>, v: Version)
    requires Ordered(versions) && forall w :: w in versions ==> Compare(w, v) <= 0
    ensures Ordered(versions + [v])
  {
  }

  lemma {:induction false} InsertKeepsOrder(sorted: seq<Version>, v: Version)
    requires Ordered(sorted)
    ensures Ordered(Insert(sorted, v)) && multiset(Insert(sorted, v)) == multiset(sorted) + multiset{v}
    ensures |Insert(sorted, v)| == |sorted| + 1
    ensures forall w :: w in Insert(sorted, v) <==> w == v || w in sorted
  {
    if sorted != [] {
      var front, last := sorted[..|sorted| - 1], sorted[|sorted| - 1];
      assert sorted == front + [last];
      if Compare(last, v) > 0 {
        InsertKeepsOrder(front, v);
        forall w | w in Insert(front, v)
          ensures Compare(w, last) <= 0
        {
        }
        OrderedSnoc(Insert(front, v), last);
      } else {
        forall w | w in sorted
          ensures Compare(w, v) <= 0
        {
          CompareIsTotalPreorder(w, last, v);
        }
        OrderedSnoc(sorted, v);
      }
    } else {
      assert sorted + [v] == [v];
    }
  }

  lemma {:induction false} SortOrders(versions: seq<Version>)
    ensures Ordered(Sort(versions)) && multiset(Sort(versions)) == multiset(versions)
    ensures |Sort(versions)| == |versions|
    ensures forall w :: w in Sort(versions) <==> w in versions
  {
    if versions != [] {
      var front, last := versions[..|versions| - 1], versions[|versions| - 1];
      assert versions == front + [last];
      SortOrders(front);
      InsertKeepsOrder(Sort(front), last);
    }
  }

  lemma LastAfterInsert(sorted: seq<Version>, v: Version)
    requires sorted != []
    ensures Insert(sorted, v) != []
    ensures Insert(sorted, v)[|Insert(sorted, v)| - 1] ==
      if Compare(sorted[|sorted| - 1], v) <= 0 then v else sorted[|sorted| - 1]
  {
  }

  predicate IsLastOfGreatest(versions: seq<Version>, i: nat) {
    && i < |versions|
    && (forall j :: 0 <= j < |versions| ==> Compare(versions[j], versions[i]) <= 0)
    && (forall j :: i < j < |versions| ==> Compare(versions[j], versions[i]) < 0)
  }

  lemma LatestOneMore(front: seq<Version>, last: Version)
    ensures front == [] ==> Latest(front + [last]) == Some(last)
    ensures front != [] ==> Latest(front).Some?
    ensures front != [] ==> Latest(front + [last]) == Some(if Compare(Latest(front).value, last) <= 0 then last else Latest(front).value)
  {
    assert (front + [last])[..|front|] == front;
    SortOrders(front);
    if front != [] {
      LastAfterInsert(Sort(front), last);
    }
  }

  lemma GreatestOneMore(front: seq<Version>, last: Version, i: nat)
    requires IsLastOfGreatest(front, i)
    ensures IsLastOfGreatest(front + [last], if Compare(front[i], last) <= 0 then |front| else i)
  {
    forall j | 0 <= j < |front| && Compare(front[i], last) <= 0
      ensures Compare(front[j], last) <= 0
    {
      CompareIsTotalPreorder(front[j], front[i], last);
    }
  }

  /** The latest version is the last of the greatest ones. */
  lemma {:induction false} LatestIsLastOfGreatest(versions: seq<Version>) returns (i: nat)
    requires versions != []
    ensures IsLastOfGreatest(versions, i) && Latest(versions) == Some(versions[i])
  {
    var front, last := versions[..|versions| - 1], versions[|versions| - 1];
    assert versions == front + [last];
    LatestOneMore(front, last);
    if front == [] {
      i := 0;
    } else {
      var before := LatestIsLastOfGreatest(front);
      GreatestOneMore(front, last, before);
      i := if Compare(front[before], last) <= 0 then |front| else before;
    }
  }

  // ----- the next version -----

  function Known(published: seq<Text>): seq<Version> {
    if published == [] then []
    else (if published[0].Matching? then [published[0].version] else []) + Known(published[1..])
  }

  lemma {:induction false} KnownKeepsMatching(published: seq<Text>, v: Version)
    ensures v in Known(published) <==> Matching(v) in published
  {
    if published != [] {
      KnownKeepsMatching(published[1..], v);
      assert published == [published[0]] + published[1..];
    }
  }

  function Raised(latest: Version): Version {
    Version(latest.major, latest.minor, latest.patch + 1, None)
  }

  function Next(current: Text, published: seq<Text>): Result<NextVersion, Error> {
    if current.Other? then Failure(NotAVersion)
    else
      var latest := Latest(Known(published));
      if latest.None? then Success(NextVersion(current.version, None))
      else
        var raised := Raised(latest.value);
        Success(NextVersion(if Compare(current.version, raised) > 0 then current.version else raised, latest))
  }

  /**
   What sorting a list of texts may yield: a permutation, and the stable order when all of them are versions. A text that is no
   version compares as "not a number", and then the order is up to the engine.
   */
  ghost predicate IsSortOf(sorted: seq<Text>, texts: seq<Text>) {
    && multiset(sorted) == multiset(texts)
    && ((forall t :: t in texts ==> t.Matching?) ==> sorted == AsTexts(Sort(Known(texts))))
  }

  function AsTexts(versions: seq<Version>): seq<Text> {
    seq(|versions|, i requires 0 <= i < |versions| => Matching(versions[i]))
  }

  /** An empty list has no last text, and that is no version. */
  function Release(sorted: seq<Text>, published: seq<Text>): Result<NextVersion, Error> {
    if sorted == [] then Failure(NotAVersion) else Next(sorted[|sorted| - 1], published)
  }

  /** What a next version has to satisfy. */
  predicate IsFree(v: Version, current: seq<Version>, published: seq<Text>) {
    && (forall c :: c in current ==> Compare(c, v) <= 0)
    && (forall p :: p in published && p.Matching? ==> Compare(p.version, v) < 0)
  }

  lemma LatestOfPublished(published: seq<Text>)
    ensures Latest(Known(published)).None? <==> forall p :: p in published ==> p.Other?
    ensures Latest(Known(published)).Some? ==> var latest := Latest(Known(published)).value;
      Matching(latest) in published && forall p :: p in published && p.Matching? ==> Compare(p.version, latest) <= 0
  {
    var versions := Known(published);
    forall v
      ensures v in versions <==> Matching(v) in published
    {
      KnownKeepsMatching(published, v);
    }
    forall p | p in published && p.Matching?
      ensures p.version in versions
    {
      assert p == Matching(p.version);
    }
    SortOrders(versions);
    if versions != [] {
      var i := LatestIsLastOfGreatest(versions);
      assert versions[i] in versions;
    }
  }

  /** Nothing lies between a version and the one above it. */
  lemma RaisedIsNext(latest: Version, v: Version)
    ensures Compare(latest, Raised(latest)) < 0
    ensures Compare(latest, v) < 0 <==> Compare(Raised(latest), v) <= 0
  {
  }

  /** The next version is the least one that is not below the current version and is above every published one. */
  lemma NextIsLeastFree(current: Version, published: seq<Text>, v: Version)
    ensures Next(Matching(current), published).Success?
    ensures var next := Next(Matching(current), published).value.version;
      IsFree(next, [current], published) && (IsFree(v, [current], published) ==> Compare(next, v) <= 0)
  {
    LatestOfPublished(published);
    var latest := Latest(Known(published));
    if latest.Some? {
      RaisedIsNext(latest.value, v);
      forall p | p in published && p.Matching?
        ensures Compare(p.version, Raised(latest.value)) < 0
      {
        CompareIsTotalPreorder(p.version, latest.value, Raised(latest.value));
      }
    }
  }

  /**
   The latest version that is reported is the last of the greatest published ones, and there is none if nothing was published. The next
   one is the current version, with its tag, if nothing was published or it is above the one after the latest; otherwise it is that one,
   without a tag.
   */
  lemma NextIsReported(current: Version, published: seq<Text>)
    ensures var next := Next(Matching(current), published).value;
      && (next.latest.None? <==> forall p :: p in published ==> p.Other?)
      && (next.latest.Some? ==> exists i: nat :: IsLastOfGreatest(Known(published), i) && Known(published)[i] == next.latest.value)
      && (next.latest.None? ==> next.version == current)
      && (next.latest.Some? ==>
            var latest := next.latest.value;
            var after := Version(latest.major, latest.minor, latest.patch + 1, None);
            && (Compare(current, after) > 0 ==> next.version == current)
            && (Compare(current, after) <= 0 ==> next.version == after))
  {
    LatestOfPublished(published);
    if Known(published) != [] {
      var i := LatestIsLastOfGreatest(Known(published));
    }
  }

  /** The texts that are versions, in their order. */
  lemma {:induction false} KnownInOrder(a: seq<Text>, b: seq<Text>)
    ensures Known(a + b) == Known(a) + Known(b)
    ensures |a| == 1 ==> Known(a) == (if a[0].Matching? then [a[0].version] else [])
  {
    if a == [] {
      assert a + b == b;
    } else {
      assert (a + b)[1..] == a[1..] + b;
      KnownInOrder(a[1..], b);
    }
  }

  lemma {:induction false} KnownOfVersions(texts: seq<Text>)
    requires forall t :: t in texts ==> t.Matching?
    ensures |Known(texts)| == |texts|
  {
    if texts != [] {
      KnownOfVersions(texts[1..]);
      assert texts[0] in texts;
    }
  }

  /** The next release is the least version that is not below any of the current ones and is above every published one. */
  lemma ReleaseIsLeastFree(current: seq<Text>, sorted: seq<Text>, published: seq<Text>, v: Version)
    requires IsSortOf(sorted, current) && current != [] && forall t :: t in current ==> t.Matching?
    ensures Release(sorted, published).Success?
    ensures var next := Release(sorted, published).value.version;
      IsFree(next, Known(current), published) && (IsFree(v, Known(current), published) ==> Compare(next, v) <= 0)
  {
    var versions := Known(current);
    KnownOfVersions(current);
    SortOrders(versions);
    var i := LatestIsLastOfGreatest(versions);
    assert sorted[|sorted| - 1] == Matching(versions[i]);
    NextIsLeastFree(versions[i], published, v);
    var next := Release(sorted, published).value.version;
    forall c | c in versions
      ensures Compare(c, next) <= 0
    {
      CompareIsTotalPreorder(c, versions[i], next);
      assert versions[i] in [versions[i]];
    }
  }

  /** Whatever else is in the list, a release is the next version of one of the current versions, or fails on a text that is none. */
  lemma ReleaseIsOfOne(current: seq<Text>, sorted: seq<Text>, published: seq<Text>) returns (t: Text)
    requires IsSortOf(sorted, current) && current != []
    ensures t in current && Release(sorted, published) == Next(t, published)
    ensures Release(sorted, published).Failure? <==> t.Other?
  {
    assert |multiset(sorted)| == |multiset(current)|;
    t := sorted[|sorted| - 1];
    assert t in multiset(sorted);
  }
}
