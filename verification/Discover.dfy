/** FindMigratableResources of pkg/initializer/discover.go: the built-in resources that can be
    listed and updated through more than one group version. */
module Discover {
  import opened Wrappers
  import opened Errors
  import opened Migrations

  datatype GroupVersion = GroupVersion(group: string, version: string)

  datatype Resource = Resource(name: string, verbs: seq<string>)

  datatype ResourceList = ResourceList(groupVersion: string, resources: seq<Resource>)

  /** An API service; it is aggregated if a service stands behind it. */
  datatype ApiService = ApiService(group: string, hasService: bool)

  const BLACK_LIST := {"events"}

  function Slashes(s: string): nat {
    if s == "" then 0 else (if s[0] == '/' then 1 else 0) + Slashes(s[1..])
  }

  function UntilSlash(s: string): string {
    if s == "" || s[0] == '/' then "" else [s[0]] + UntilSlash(s[1..])
  }

  lemma {:induction false} UntilSlashIsPrefix(s: string)
    ensures UntilSlash(s) <= s
    ensures '/' in s ==> |UntilSlash(s)| < |s| && s[|UntilSlash(s)|] == '/'
    ensures '/' in s <==> Slashes(s) > 0
  {
    if s != "" && s[0] != '/' {
      UntilSlashIsPrefix(s[1..]);
    }
  }

  function ParseGroupVersion(s: string): Option<GroupVersion> {
    if s == "" || s == "/" then Some(GroupVersion("", ""))
    else if Slashes(s) == 0 then Some(GroupVersion("", s))
    else if Slashes(s) == 1 then
      UntilSlashIsPrefix(s);
      Some(GroupVersion(UntilSlash(s), s[|UntilSlash(s)| + 1..]))
    else None
  }

  /** A group version as the discovery document writes it; the core group goes without one. */
  function Printed(gv: GroupVersion): string {
    if gv.group == "" then gv.version else gv.group + "/" + gv.version
  }

  /** Printing and parsing agree: a group version is read as it is written. */
  lemma ParseInverts(gv: GroupVersion)
    requires '/' !in gv.group && '/' !in gv.version
    ensures ParseGroupVersion(Printed(gv)) == Some(gv)
  {
    if gv.group == "" {
      UntilSlashIsPrefix(gv.version);
      assert "/"[0] == '/';
    } else {
      SlashesOfParts(gv.group, gv.version);
      var s := gv.group + "/" + gv.version;
      assert s[|gv.group| + 1..] == gv.version;
      assert |s| > 1;
    }
  }

  lemma {:induction false} SlashesOfParts(g: string, v: string)
    requires '/' !in g && '/' !in v
    ensures Slashes(g + "/" + v) == 1 && UntilSlash(g + "/" + v) == g
  {
    var s := g + "/" + v;
    if g == "" {
      assert s[1..] == v;
      UntilSlashIsPrefix(v);
    } else {
      assert s[1..] == g[1..] + "/" + v;
      SlashesOfParts(g[1..], v);
    }
  }

  // ------------------------------------------------------------------ specification

  /** Neither a subresource nor black-listed, and it can be listed and updated. */
  predicate Eligible(r: Resource) {
    && '/' !in r.name
    && r.name !in BLACK_LIST
    && "list" in r.verbs && "update" in r.verbs
  }

  function SurvivingGroupVersion(l: ResourceList, excluded: set<string>): Option<GroupVersion> {
    var gv := ParseGroupVersion(l.groupVersion);
    if gv.Some? && gv.value.group !in excluded then gv else None
  }

  /** The group versions under which the resource of this name survives, in the order of the
      discovery document. */
  function InList(rs: seq<Resource>, gv: GroupVersion, name: string): seq<GroupVersion> {
    if rs == [] then []
    else
      var last := rs[|rs| - 1];
      var before := InList(rs[..|rs| - 1], gv, name);
      if Eligible(last) && last.name == name then before + [gv] else before
  }

  function Survivors(ls: seq<ResourceList>, excluded: set<string>, name: string): seq<GroupVersion> {
    if ls == [] then []
    else
      var last := ls[|ls| - 1];
      var gv := SurvivingGroupVersion(last, excluded);
      Survivors(ls[..|ls| - 1], excluded, name) + (if gv.Some? then InList(last.resources, gv.value, name) else [])
  }

  lemma {:induction false} InListHolds(rs: seq<Resource>, gv: GroupVersion, name: string)
    ensures forall k :: 0 <= k < |InList(rs, gv, name)| ==> InList(rs, gv, name)[k] == gv
    ensures InList(rs, gv, name) == [] <==> forall j :: 0 <= j < |rs| ==> !(Eligible(rs[j]) && rs[j].name == name)
  {
    if rs != [] {
      var n := |rs| - 1;
      InListHolds(rs[..n], gv, name);
      assert forall j :: 0 <= j < n ==> rs[..n][j] == rs[j];
    }
  }

  /** It survives in the list number i. */
  ghost predicate SurvivesIn(ls: seq<ResourceList>, excluded: set<string>, name: string, i: nat) {
    && i < |ls|
    && SurvivingGroupVersion(ls[i], excluded).Some?
    && (exists j :: 0 <= j < |ls[i].resources| && Eligible(ls[i].resources[j]) && ls[i].resources[j].name == name)
  }

  /** The first survivor is the group version of the first list in which the resource
      survives; there is none exactly if it survives in no list. */
  lemma {:induction false} FirstSurvivor(ls: seq<ResourceList>, excluded: set<string>, name: string) returns (i: nat)
    ensures i <= |ls| && (forall x: nat :: x < i ==> !SurvivesIn(ls, excluded, name, x))
    ensures var gvs := Survivors(ls, excluded, name);
            if i == |ls| then gvs == []
            else gvs != [] && SurvivesIn(ls, excluded, name, i) && Some(gvs[0]) == SurvivingGroupVersion(ls[i], excluded)
  {
    i := 0;
    if ls != [] {
      var n := |ls| - 1;
      i := FirstSurvivor(ls[..n], excluded, name);
      assert forall x: nat :: x < n ==> SurvivesIn(ls[..n], excluded, name, x) == SurvivesIn(ls, excluded, name, x);
      var gv := SurvivingGroupVersion(ls[n], excluded);
      if i == n {
        if gv.Some? {
          InListHolds(ls[n].resources, gv.value, name);
        }
        i := if SurvivesIn(ls, excluded, name, n) then n else n + 1;
      }
    }
  }

  /** The resource survives as entry number p.1 of list number p.0. */
  predicate SurvivesAt(ls: seq<ResourceList>, excluded: set<string>, name: string, p: (nat, nat)) {
    && p.0 < |ls|
    && SurvivingGroupVersion(ls[p.0], excluded).Some?
    && p.1 < |ls[p.0].resources|
    && Eligible(ls[p.0].resources[p.1]) && ls[p.0].resources[p.1].name == name
  }

  function Positions(ls: seq<ResourceList>, excluded: set<string>, name: string): set<(nat, nat)> {
    set i: nat, j: nat | i < |ls| && j < |ls[i].resources| && SurvivesAt(ls, excluded, name, (i, j)) :: (i, j)
  }

  /** The positions in one list. */
  function PositionsIn(rs: seq<Resource>, name: string, i: nat): set<(nat, nat)> {
    set j: nat | j < |rs| && Eligible(rs[j]) && rs[j].name == name :: (i, j)
  }

  lemma PositionsOfLastEntry(rs: seq<Resource>, name: string, i: nat)
    requires rs != []
    ensures var n := |rs| - 1;
            var before := PositionsIn(rs[..n], name, i);
            && (i, n) !in before
            && PositionsIn(rs, name, i) == if Eligible(rs[n]) && rs[n].name == name then before + {(i, n)} else before
  {
    var n := |rs| - 1;
    assert forall j: nat :: j < n ==> rs[..n][j] == rs[j];
  }

  lemma {:induction false} InListCounts(rs: seq<Resource>, gv: GroupVersion, name: string, i: nat)
    ensures |InList(rs, gv, name)| == |PositionsIn(rs, name, i)|
  {
    if rs != [] {
      var n := |rs| - 1;
      InListCounts(rs[..n], gv, name, i);
      PositionsOfLastEntry(rs, name, i);
    }
  }

  /** A resource name has as many survivors as there are positions at which it survives. */
  lemma {:induction false} SurvivorsCount(ls: seq<ResourceList>, excluded: set<string>, name: string)
    ensures |Survivors(ls, excluded, name)| == |Positions(ls, excluded, name)|
  {
    if ls == [] {
      assert Positions(ls, excluded, name) == {};
    } else {
      var n := |ls| - 1;
      SurvivorsCount(ls[..n], excluded, name);
      var gv := SurvivingGroupVersion(ls[n], excluded);
      var before := Positions(ls[..n], excluded, name);
      var last := if gv.Some? then PositionsIn(ls[n].resources, name, n) else {};
      PositionsOfLast(ls, excluded, name);
      assert before !! last;
      if gv.Some? {
        InListCounts(ls[n].resources, gv.value, name, n);
      }
    }
  }

  lemma PositionsOfLast(ls: seq<ResourceList>, excluded: set<string>, name: string)
    requires ls != []
    ensures var n := |ls| - 1;
            Positions(ls, excluded, name)
            == Positions(ls[..n], excluded, name)
               + if SurvivingGroupVersion(ls[n], excluded).Some? then PositionsIn(ls[n].resources, name, n) else {}
  {
    var n := |ls| - 1;
    forall p: (nat, nat)
      ensures p.0 < n ==> SurvivesAt(ls, excluded, name, p) == SurvivesAt(ls[..n], excluded, name, p)
    {
      assert p.0 < n ==> ls[..n][p.0] == ls[p.0];
    }
  }

  /** A name is migratable exactly if it survives at two different positions, in one list or
      in two. */
  lemma TwoSurvivors(ls: seq<ResourceList>, excluded: set<string>, name: string)
    ensures |Survivors(ls, excluded, name)| >= 2
       <==> exists p, q :: p != q && SurvivesAt(ls, excluded, name, p) && SurvivesAt(ls, excluded, name, q)
  {
    var all := Positions(ls, excluded, name);
    SurvivorsCount(ls, excluded, name);
    if |all| >= 2 {
      var p :| p in all;
      assert |all - {p}| >= 1;
      var q :| q in all - {p};
      assert p != q && SurvivesAt(ls, excluded, name, p) && SurvivesAt(ls, excluded, name, q);
    }
    if p, q :| p != q && SurvivesAt(ls, excluded, name, p) && SurvivesAt(ls, excluded, name, q) {
      assert p in all && q in all by {
        assert (p.0, p.1) == p && (q.0, q.1) == q;
      }
      SubsetIsSmaller({p, q}, all);
    }
  }

  // ------------------------------------------------------------------ the loops

  method FindCustomGroups(crds: Result<seq<string>, Error>) returns (groups: Result<set<string>, Error>)
    ensures match crds
            case Failure(e) => groups == Failure(e)
            case Success(l) => groups.Success? && forall g :: g in groups.value <==> g in l
  {
    if crds.Failure? {
      return Failure(crds.error);
    }
    var ret := {};
    for i := 0 to |crds.value|
      invariant forall g :: g in ret <==> g in crds.value[..i]
    {
      ret := ret + {crds.value[i]};
    }
    assert crds.value[..|crds.value|] == crds.value;
    return Success(ret);
  }

  method FindAggregatedGroups(services: Result<seq<ApiService>, Error>) returns (groups: Result<set<string>, Error>)
    ensures match services
            case Failure(e) => groups == Failure(e)
            case Success(l) => groups.Success? && forall g :: g in groups.value <==> ApiService(g, true) in l
  {
    if services.Failure? {
      return Failure(services.error);
    }
    var ret := {};
    for i := 0 to |services.value|
      invariant forall g :: g in ret <==> ApiService(g, true) in services.value[..i]
    {
      if services.value[i].hasService {
        ret := ret + {services.value[i].group};
      }
    }
    assert services.value[..|services.value|] == services.value;
    return Success(ret);
  }

  /** The map holds, for every resource name that has any, its survivors in the lists ls and
      then in the resources rs of the group version gv. */
  ghost predicate Collects(m: map<string, seq<GroupVersion>>, ls: seq<ResourceList>, excluded: set<string>,
                           rs: seq<Resource>, gv: GroupVersion)
  {
    forall name :: CollectedFor(m, name) == Survivors(ls, excluded, name) + InList(rs, gv, name)
                   && (name in m ==> m[name] != [])
  }

  function CollectedFor(m: map<string, seq<GroupVersion>>, name: string): seq<GroupVersion> {
    if name in m then m[name] else []
  }

  function Appended(m: map<string, seq<GroupVersion>>, name: string, gv: GroupVersion): map<string, seq<GroupVersion>> {
    m[name := CollectedFor(m, name) + [gv]]
  }

  lemma InListGrows(rs: seq<Resource>, gv: GroupVersion, r: Resource, name: string)
    ensures InList(rs + [r], gv, name)
         == if Eligible(r) && r.name == name then InList(rs, gv, name) + [gv] else InList(rs, gv, name)
  {
    assert (rs + [r])[..|rs|] == rs;
  }

  /** The list of one name grows, if any does. */
  lemma NameGrows(m: map<string, seq<GroupVersion>>, grown: string, gv: GroupVersion, eligible: bool, name: string,
                  before: seq<GroupVersion>, listed: seq<GroupVersion>)
    requires CollectedFor(m, name) == before + listed && (name in m ==> m[name] != [])
    ensures var m' := if eligible then Appended(m, grown, gv) else m;
            && CollectedFor(m', name) == before + (if eligible && grown == name then listed + [gv] else listed)
            && (name in m' ==> m'[name] != [])
  {
    assert before + (listed + [gv]) == before + listed + [gv];
  }

  lemma CollectsGrown(m: map<string, seq<GroupVersion>>, ls: seq<ResourceList>, excluded: set<string>,
                      rs: seq<Resource>, rs': seq<Resource>, gv: GroupVersion, grown: string, eligible: bool)
    requires Collects(m, ls, excluded, rs, gv)
    requires forall name :: InList(rs', gv, name)
                         == if eligible && grown == name then InList(rs, gv, name) + [gv] else InList(rs, gv, name)
    ensures Collects(if eligible then Appended(m, grown, gv) else m, ls, excluded, rs', gv)
  {
    var m' := if eligible then Appended(m, grown, gv) else m;
    forall name
      ensures CollectedFor(m', name) == Survivors(ls, excluded, name) + InList(rs', gv, name)
      ensures name in m' ==> m'[name] != []
    {
      NameGrows(m, grown, gv, eligible, name, Survivors(ls, excluded, name), InList(rs, gv, name));
    }
  }

  lemma CollectsOneMore(m: map<string, seq<GroupVersion>>, ls: seq<ResourceList>, excluded: set<string>,
                        rs: seq<Resource>, gv: GroupVersion, r: Resource)
    requires Collects(m, ls, excluded, rs, gv)
    ensures Collects(if Eligible(r) then Appended(m, r.name, gv) else m, ls, excluded, rs + [r], gv)
  {
    forall name
      ensures InList(rs + [r], gv, name)
           == if Eligible(r) && r.name == name then InList(rs, gv, name) + [gv] else InList(rs, gv, name)
    {
      InListGrows(rs, gv, r, name);
    }
    CollectsGrown(m, ls, excluded, rs, rs + [r], gv, r.name, Eligible(r));
  }

  lemma CollectsNextList(m: map<string, seq<GroupVersion>>, ls: seq<ResourceList>, excluded: set<string>, l: ResourceList)
    requires var gv := SurvivingGroupVersion(l, excluded);
             if gv.Some? then Collects(m, ls, excluded, l.resources, gv.value) else Collects(m, ls, excluded, [], NO_GROUP_VERSION)
    ensures Collects(m, ls + [l], excluded, [], NO_GROUP_VERSION)
  {
    assert (ls + [l])[..|ls|] == ls;
  }

  const NO_GROUP_VERSION := GroupVersion("", "")

  method CollectResources(given: map<string, seq<GroupVersion>>, rs: seq<Resource>, gv: GroupVersion,
                          ghost ls: seq<ResourceList>, ghost excluded: set<string>)
    returns (m: map<string, seq<GroupVersion>>)
    requires Collects(given, ls, excluded, [], gv)
    ensures Collects(m, ls, excluded, rs, gv)
  {
    m := given;
    for j := 0 to |rs|
      invariant Collects(m, ls, excluded, rs[..j], gv)
    {
      var r := rs[j];
      CollectsOneMore(m, ls, excluded, rs[..j], gv, r);
      assert rs[..j + 1] == rs[..j] + [r];
      if '/' in r.name {
        continue;
      }
      if r.name in BLACK_LIST {
        continue;
      }
      if "list" !in r.verbs || "update" !in r.verbs {
        continue;
      }
      var gvs := CollectedFor(m, r.name);
      gvs := gvs + [gv];
      m := m[r.name := gvs];
    }
    assert rs[..|rs|] == rs;
  }

  method CollectGroupVersions(ls: seq<ResourceList>, customGroups: set<string>, aggregatedGroups: set<string>)
    returns (m: map<string, seq<GroupVersion>>)
    ensures Collects(m, ls, customGroups + aggregatedGroups, [], NO_GROUP_VERSION)
  {
    m := map[];
    ghost var excluded := customGroups + aggregatedGroups;
    for i := 0 to |ls|
      invariant Collects(m, ls[..i], excluded, [], NO_GROUP_VERSION)
    {
      assert ls[..i + 1] == ls[..i] + [ls[i]];
      var gv := ParseGroupVersion(ls[i].groupVersion);
      if gv.None? || gv.value.group in customGroups || gv.value.group in aggregatedGroups {
        CollectsNextList(m, ls[..i], excluded, ls[i]);
        continue;
      }
      m := CollectResources(m, ls[i].resources, gv.value, ls[..i], excluded);
      CollectsNextList(m, ls[..i], excluded, ls[i]);
    }
    assert ls[..|ls|] == ls;
  }

  /** One entry per resource name that survives at least twice, carrying the first group
      version in which it survives, and nothing else; in whatever order the map is visited. */
  ghost predicate Migratable(ret: seq<GroupVersionResource>, ls: seq<ResourceList>, excluded: set<string>) {
    && (forall i, j :: 0 <= i < j < |ret| ==> ret[i].resource != ret[j].resource)
    && (forall i :: 0 <= i < |ret| ==> IsEntry(ret[i], Survivors(ls, excluded, ret[i].resource)))
    && (forall name :: |Survivors(ls, excluded, name)| >= 2 ==> exists i :: 0 <= i < |ret| && ret[i].resource == name)
  }

  ghost predicate IsEntry(r: GroupVersionResource, gvs: seq<GroupVersion>) {
    |gvs| >= 2 && r.group == gvs[0].group && r.version == gvs[0].version
  }

  lemma {:induction false} EachOnce(q: seq<GroupVersionResource>, x: GroupVersionResource)
    requires forall i, j :: 0 <= i < j < |q| ==> q[i].resource != q[j].resource
    ensures multiset(q)[x] == if x in q then 1 else 0
  {
    if q != [] {
      var n := |q| - 1;
      assert q == q[..n] + [q[n]];
      EachOnce(q[..n], x);
      assert q[n] !in q[..n] by {
        assert forall i :: 0 <= i < n ==> q[i].resource != q[n].resource;
      }
    }
  }

  lemma SameEntries(a: seq<GroupVersionResource>, b: seq<GroupVersionResource>, ls: seq<ResourceList>, excluded: set<string>)
    requires Migratable(a, ls, excluded) && Migratable(b, ls, excluded)
    ensures forall x :: x in a ==> x in b
  {
    forall x | x in a
      ensures x in b
    {
      var i :| 0 <= i < |a| && a[i] == x;
      assert IsEntry(a[i], Survivors(ls, excluded, a[i].resource));
      var j :| 0 <= j < |b| && b[j].resource == x.resource;
      assert IsEntry(b[j], Survivors(ls, excluded, b[j].resource));
      assert b[j] == x;
    }
  }

  /** Up to order there is one right result. */
  lemma MigratableIsUnique(a: seq<GroupVersionResource>, b: seq<GroupVersionResource>, ls: seq<ResourceList>, excluded: set<string>)
    requires Migratable(a, ls, excluded) && Migratable(b, ls, excluded)
    ensures multiset(a) == multiset(b)
  {
    SameEntries(a, b, ls, excluded);
    SameEntries(b, a, ls, excluded);
    forall x: GroupVersionResource
      ensures multiset(a)[x] == multiset(b)[x]
    {
      EachOnce(a, x);
      EachOnce(b, x);
    }
  }

  /** Entry number p.1 of list number p.0 is a resource of this name that counts: its group is
      neither custom nor aggregated, it is no subresource and no event, and it can be listed and
      updated. */
  predicate CountsAt(ls: seq<ResourceList>, excluded: set<string>, name: string, p: (nat, nat)) {
    && p.0 < |ls| && p.1 < |ls[p.0].resources|
    && var gv := ParseGroupVersion(ls[p.0].groupVersion);
       var r := ls[p.0].resources[p.1];
       && gv.Some? && gv.value.group !in excluded
       && r.name == name && name != "events" && '/' !in name
       && "list" in r.verbs && "update" in r.verbs
  }

  predicate Named(ret: seq<GroupVersionResource>, name: string) {
    exists i :: 0 <= i < |ret| && ret[i].resource == name
  }

  ghost predicate CountsTwice(ls: seq<ResourceList>, excluded: set<string>, name: string) {
    exists p, q :: p != q && CountsAt(ls, excluded, name, p) && CountsAt(ls, excluded, name, q)
  }

  /** The names in the result are exactly those of resources that count at two positions. */
  ghost predicate NamesAreExact(ret: seq<GroupVersionResource>, ls: seq<ResourceList>, excluded: set<string>) {
    forall name :: Named(ret, name) <==> CountsTwice(ls, excluded, name)
  }

  lemma CountingIsSurviving(ls: seq<ResourceList>, excluded: set<string>, name: string, p: (nat, nat))
    ensures CountsAt(ls, excluded, name, p) <==> SurvivesAt(ls, excluded, name, p)
  {
  }

  lemma MigratableNamesAreExact(ret: seq<GroupVersionResource>, ls: seq<ResourceList>, excluded: set<string>)
    requires Migratable(ret, ls, excluded)
    ensures NamesAreExact(ret, ls, excluded)
  {
    forall name
      ensures Named(ret, name) <==> CountsTwice(ls, excluded, name)
    {
      TwoSurvivors(ls, excluded, name);
      forall p
        ensures CountsAt(ls, excluded, name, p) <==> SurvivesAt(ls, excluded, name, p)
      {
        CountingIsSurviving(ls, excluded, name, p);
      }
      if i :| 0 <= i < |ret| && ret[i].resource == name {
        assert IsEntry(ret[i], Survivors(ls, excluded, name));
      }
    }
  }

  method FindMigratableResources(crds: Result<seq<string>, Error>, services: Result<seq<ApiService>, Error>,
                                 lists: Result<seq<ResourceList>, Error>)
    returns (r: Result<seq<GroupVersionResource>, Error>)
    ensures crds.Failure? ==> r == Failure(crds.error)
    ensures crds.Success? && services.Failure? ==> r == Failure(services.error)
    ensures crds.Success? && services.Success? && lists.Failure? ==> r == Failure(lists.error)
    ensures crds.Success? && services.Success? && lists.Success? ==>
              && r.Success? && Migratable(r.value, lists.value, Excluded(crds.value, services.value))
              && NamesAreExact(r.value, lists.value, Excluded(crds.value, services.value))
  {
    var customGroups := FindCustomGroups(crds);
    if customGroups.Failure? {
      return Failure(customGroups.error);
    }
    var aggregatedGroups := FindAggregatedGroups(services);
    if aggregatedGroups.Failure? {
      return Failure(aggregatedGroups.error);
    }
    if lists.Failure? {
      return Failure(lists.error);
    }
    ghost var excluded := Excluded(crds.value, services.value);
    assert customGroups.value + aggregatedGroups.value == excluded;
    var resourceToGroupVersions := CollectGroupVersions(lists.value, customGroups.value, aggregatedGroups.value);
    assert forall name :: Survivors(lists.value, excluded, name) + [] == Survivors(lists.value, excluded, name);
    var ret := PickFirst(resourceToGroupVersions);
    MigratableNamesAreExact(ret, lists.value, excluded);
    return Success(ret);
  }

  ghost function Excluded(crds: seq<string>, services: seq<ApiService>): set<string> {
    (set g | g in crds) + (set s | s in services && s.hasService :: s.group)
  }

  method PickFirst(m: map<string, seq<GroupVersion>>) returns (ret: seq<GroupVersionResource>)
    requires forall name :: name in m ==> m[name] != []
    ensures forall i, j :: 0 <= i < j < |ret| ==> ret[i].resource != ret[j].resource
    ensures forall i :: 0 <= i < |ret| ==> ret[i].resource in m && IsEntry(ret[i], m[ret[i].resource])
    ensures forall name :: name in m && |m[name]| >= 2 ==> exists i :: 0 <= i < |ret| && ret[i].resource == name
  {
    ret := [];
    var todo := m.Keys;
    while todo != {}
      invariant todo <= m.Keys
      invariant forall i, j :: 0 <= i < j < |ret| ==> ret[i].resource != ret[j].resource
      invariant forall i :: 0 <= i < |ret| ==> ret[i].resource in m.Keys - todo && IsEntry(ret[i], m[ret[i].resource])
      invariant forall name :: name in m && name !in todo && |m[name]| >= 2 ==> exists i :: 0 <= i < |ret| && ret[i].resource == name
      decreases |todo|
    {
      var resource :| resource in todo;
      todo := todo - {resource};
      var groupVersions := m[resource];
      if |groupVersions| == 1 {
        continue;
      }
      ghost var before := ret;
      ret := ret + [GroupVersionResource(groupVersions[0].group, groupVersions[0].version, resource)];
      assert forall i :: 0 <= i < |before| ==> ret[i] == before[i];
      assert ret[|before|].resource == resource;
    }
  }
}
