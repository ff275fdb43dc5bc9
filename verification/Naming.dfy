/** The names under which the trigger files a resource: storageStateName of
    pkg/trigger/migration_handler.go and ToIndex of pkg/controller/indexer.go. */
module Naming {
  import opened Migrations

  function StorageStateName(r: GroupVersionResource): string {
    if r.group == "" then r.resource else r.resource + "." + r.group
  }

  function ToIndex(r: GroupVersionResource): string {
    r.resource + "." + r.group
  }

  predicate SameGroupResource(a: GroupVersionResource, b: GroupVersionResource) {
    a.group == b.group && a.resource == b.resource
  }

  lemma LongerHoldsDot(p: string, q: string, x: string, y: string)
    requires |p| < |q| && p + "." + x == q + "." + y
    ensures '.' in q
  {
    assert (p + "." + x)[|p|] == '.';
    assert (q + "." + y)[|p|] == q[|p|];
  }

  /** Names with different first parts, none of which holds a dot, differ. */
  lemma FirstDotSplits(p: string, q: string, x: string, y: string)
    requires '.' !in p && '.' !in q && p + "." + x == q + "." + y
    ensures p == q && x == y
  {
    var s, t := p + "." + x, q + "." + y;
    if |p| < |q| {
      LongerHoldsDot(p, q, x, y);
    } else if |q| < |p| {
      LongerHoldsDot(q, p, y, x);
    }
    assert s[..|p|] == p && t[..|q|] == q;
    assert s[|p| + 1..] == x && t[|q| + 1..] == y;
  }

  /** For resource names without a dot, the name of the storage state and the index of the
      migrations identify the same thing: the group and the resource, whatever the version. */
  lemma NamesAgree(a: GroupVersionResource, b: GroupVersionResource)
    requires '.' !in a.resource && '.' !in b.resource
    ensures StorageStateName(a) == StorageStateName(b) <==> SameGroupResource(a, b)
    ensures ToIndex(a) == ToIndex(b) <==> SameGroupResource(a, b)
  {
    if ToIndex(a) == ToIndex(b) {
      FirstDotSplits(a.resource, b.resource, a.group, b.group);
    }
    assert a.group != "" ==> StorageStateName(a)[|a.resource|] == '.';
    assert b.group != "" ==> StorageStateName(b)[|b.resource|] == '.';
    if StorageStateName(a) == StorageStateName(b) && a.group != "" && b.group != "" {
      FirstDotSplits(a.resource, b.resource, a.group, b.group);
    }
  }

  /** Different resources under one name and one index key. */
  predicate ShareNames(a: GroupVersionResource, b: GroupVersionResource) {
    StorageStateName(a) == StorageStateName(b) && ToIndex(a) == ToIndex(b) && !SameGroupResource(a, b)
  }

  lemma DotSplits(s: string) returns (p: string, q: string)
    requires '.' in s
    ensures s == p + "." + q
  {
    var i :| 0 <= i < |s| && s[i] == '.';
    p, q := s[..i], s[i + 1..];
    assert s == s[..i] + [s[i]] + s[i + 1..];
  }

  /** A dotted resource name in a group shares both its names with another resource: the dot
      may as well belong to the group. */
  lemma DotsConfuseNames(a: GroupVersionResource) returns (b: GroupVersionResource)
    requires '.' in a.resource && a.group != ""
    ensures ShareNames(a, b)
  {
    var p, q := DotSplits(a.resource);
    b := GroupVersionResource(q + "." + a.group, a.version, p);
    assert (p + "." + q) + "." + a.group == p + "." + (q + "." + a.group);
    assert |b.resource| < |a.resource|;
  }

  /** A dotted group does so as well, unless the dot is at its end. */
  lemma DottedGroupConfusesNames(a: GroupVersionResource) returns (b: GroupVersionResource)
    requires a.group != "" && '.' in a.group[..|a.group| - 1]
    ensures ShareNames(a, b)
  {
    var n := |a.group| - 1;
    var p, q' := DotSplits(a.group[..n]);
    var q := q' + [a.group[n]];
    assert a.group == a.group[..n] + [a.group[n]] == p + "." + q;
    b := GroupVersionResource(q, a.version, a.resource + "." + p);
    assert a.resource + "." + (p + "." + q) == (a.resource + "." + p) + "." + q;
    assert |b.resource| > |a.resource|;
  }

  lemma UndottedNamesAreUnique(a: GroupVersionResource, b: GroupVersionResource)
    requires a.group != "" && '.' !in a.resource && '.' !in a.group[..|a.group| - 1]
    ensures !ShareNames(a, b)
  {
    if ToIndex(a) == ToIndex(b) && StorageStateName(a) == StorageStateName(b) {
      if '.' !in b.resource {
        FirstDotSplits(a.resource, b.resource, a.group, b.group);
      } else {
        LongerHoldsDotLater(a, b);
      }
    }
  }

  /** If the dots that end the resource names differ, the later one is in the group. */
  lemma LongerHoldsDotLater(a: GroupVersionResource, b: GroupVersionResource)
    requires a.group != "" && '.' !in a.resource && '.' in b.resource && ToIndex(a) == ToIndex(b)
    ensures '.' in a.group[..|a.group| - 1] || StorageStateName(a) != StorageStateName(b)
  {
    var s, n := ToIndex(a), |b.resource|;
    var j :| 0 <= j < n && b.resource[j] == '.';
    assert s[j] == '.' && j >= |a.resource|;
    var i := n - |a.resource| - 1;
    assert s[n] == '.' && s[n] == a.group[i];
    if i < |a.group| - 1 {
      assert a.group[..|a.group| - 1][i] == '.';
    } else {
      assert |ToIndex(b)| == n + 1 + |b.group|;
    }
  }

  /** Exactly these resources share their names with another one. */
  lemma NamesAreSharedExactlyIfDotted(a: GroupVersionResource)
    requires a.group != ""
    ensures (exists b :: ShareNames(a, b)) <==> '.' in a.resource || '.' in a.group[..|a.group| - 1]
  {
    if '.' in a.resource {
      var b := DotsConfuseNames(a);
    } else if '.' in a.group[..|a.group| - 1] {
      var b := DottedGroupConfusesNames(a);
    } else {
      forall b
        ensures !ShareNames(a, b)
      {
        UndottedNamesAreUnique(a, b);
      }
    }
  }
}
