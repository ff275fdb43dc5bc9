/** What the handlers of pkg/trigger do, one after the other, to the storage states and the
    migrations of all resources. */
module TriggerSteps {
  import opened Wrappers
  import opened ApiServer
  import opened ItemMigration
  import opened Migrations
  import opened Naming
  import opened StorageStates
  import opened DiscoveryPass

  ghost predicate SameExcept(a: map<string, StorageState>, b: map<string, StorageState>, name: string) {
    forall x :: x != name ==> Lookup(a, x) == Lookup(b, x)
  }

  /** The resource is migrated, or a migration of it is pending or running. */
  ghost predicate NotStuck(states: map<string, StorageState>, fleet: Fleet, r: ApiResource) {
    && StateName(r) in states
    && (IsMigrated(states[StateName(r)]) || HasPendingOrRunning(fleet, r))
  }

  /** The hashes of the resources are neither empty nor the word for an unknown one, or are
      not reported. */
  predicate ProperResources(resources: seq<ApiResource>) {
    forall i :: 0 <= i < |resources| ==> resources[i].hash != UNKNOWN
  }

  /** Every storage state is what some history of creations, updates, marks and deletions
      leaves. */
  ghost predicate AllRecordable(states: map<string, StorageState>) {
    forall name :: Recordable(Lookup(states, name))
  }

  lemma PassIsRecordable(states: map<string, StorageState>, states': map<string, StorageState>, r: ApiResource, now: nat)
    requires AllRecordable(states) && SameExcept(states, states', StateName(r)) && r.hash != UNKNOWN
    requires if r.hash == "" then states' == states
             else PassAllows(Lookup(states, StateName(r)), Lookup(states', StateName(r)), r.hash, now)
    ensures AllRecordable(states')
  {
    if r.hash != "" {
      var before, after := Lookup(states, StateName(r)), Lookup(states', StateName(r));
      ChangeIsRecordable(before, Change.Drop);
      if OnTheWay(before, after, r.hash, now) {
        OnTheWayIsRecordable(before, after, r.hash, now);
      } else {
        OnTheWayIsRecordable(None, after, r.hash, now);
      }
    }
  }

  lemma MarkIsRecordable(states: map<string, StorageState>, states': map<string, StorageState>, name: string, replies: seq<Reply>)
    requires AllRecordable(states) && SameExcept(states, states', name)
    requires Lookup(states', name) == MarkRun(Lookup(states, name), replies, UPDATE_ATTEMPTS).ss
    ensures AllRecordable(states')
  {
    MarkHappensOnce(Lookup(states, name), replies, UPDATE_ATTEMPTS);
    ChangeIsRecordable(Lookup(states, name), Change.Mark);
  }

  lemma StatesAreWellKept(states: map<string, StorageState>)
    requires AllRecordable(states)
    ensures forall name :: name in states ==> WellKept(states[name])
  {
    forall name | name in states
      ensures WellKept(states[name])
    {
      assert Recordable(Lookup(states, name));
      RecordableIsWellKept(states[name]);
    }
  }

  /** What the select loop meets: a tick, when these resources are discovered, or an item; and
      meanwhile, what others make of the migrations and what the informer makes of that. */
  datatype Stimulus =
    | Tick(resources: seq<ApiResource>, now: nat)
    | Work(name: Name)
    | Meanwhile(fleet: Fleet, nextName: Name, cache: Fleet)

  ghost predicate ProperStimulus(x: Stimulus) {
    match x
    case Tick(resources, _) => Distinct(resources) && ProperResources(resources)
    case Work(_) => true
    case Meanwhile(fleet, nextName, _) => forall n :: n in fleet ==> n < nextName
  }

  /** Calls that a pass over so many resources may need. */
  function CallsFor(cache: Fleet, resources: nat): nat {
    if resources == 0 then 0 else CallsFor(cache, resources - 1) + |cache| + 6
  }

  /** A pass lists each group and resource once, and resource names have no dot. */
  ghost predicate Distinct(resources: seq<ApiResource>) {
    && (forall i :: 0 <= i < |resources| ==> '.' !in resources[i].name)
    && (forall i, j :: 0 <= i < j < |resources| ==>
          !SameGroupResource(ToGroupResource(resources[i]), ToGroupResource(resources[j])))
  }

  /** After a pass without faults the resource is not stuck; if the pass relaunched, exactly
      one migration of the resource exists, and those of other resources are as before. */
  lemma PassUnsticks(ss: Option<StorageState>, states: map<string, StorageState>, fleet: Fleet, next: Name, r: ApiResource, now: nat)
    requires Lookup(states, StateName(r)) == Some(Passed(ss, r.hash, now)) && r.hash != ""
    requires forall n :: n in fleet ==> n < next
    ensures var fleet' := FleetAfter(ss, fleet, next, r, now);
            && NotStuck(states, fleet', r)
            && Without(fleet', r) == Without(fleet, r)
            && (MustRelaunch(ss, HasPendingOrRunning(fleet, r), r.hash, now) ==>
                  forall n :: n in fleet' && Concerns(fleet'[n], r) <==> n == next)
  {
    var fleet' := FleetAfter(ss, fleet, next, r, now);
    if MustRelaunch(ss, HasPendingOrRunning(fleet, r), r.hash, now) {
      assert Concerns(fleet'[next], r) && Incomplete(fleet'[next]);
    }
  }

  /** What happens to one resource leaves every other alone. */
  lemma OthersAreUntouched(states: map<string, StorageState>, states': map<string, StorageState>, fleet: Fleet, fleet': Fleet,
                           cache: Fleet, r: ApiResource, other: ApiResource)
    requires '.' !in r.name && '.' !in other.name
    requires !SameGroupResource(ToGroupResource(r), ToGroupResource(other))
    requires SameExcept(states, states', StateName(r)) && Without(fleet', r) == Without(fleet, r)
    ensures UpToDate(cache, fleet, other) ==> UpToDate(cache, fleet', other)
    ensures NotStuck(states, fleet, other) ==> NotStuck(states', fleet', other)
  {
    NamesAgree(ToGroupResource(r), ToGroupResource(other));
    SameForOthers(fleet, fleet', r, other);
    SameForOthers(fleet', fleet, r, other);
    assert Lookup(states, StateName(other)) == Lookup(states', StateName(other));
    if HasPendingOrRunning(fleet, other) {
      var n :| n in fleet && Concerns(fleet[n], other) && Incomplete(fleet[n]);
      assert n in fleet' && Concerns(fleet'[n], other);
    }
  }

  lemma SameForOthers(fleet: Fleet, fleet': Fleet, r: ApiResource, other: ApiResource)
    requires ToIndex(ToGroupResource(r)) != ToIndex(ToGroupResource(other))
    requires Without(fleet', r) == Without(fleet, r)
    ensures forall n :: n in fleet && Concerns(fleet[n], other) ==> n in fleet' && fleet'[n] == fleet[n]
  {
    forall n | n in fleet && Concerns(fleet[n], other)
      ensures n in fleet' && fleet'[n] == fleet[n]
    {
      assert n in Without(fleet, r);
      assert n in Without(fleet', r);
    }
  }

  /** What a pass without faults does to the state and to the migrations of its resource. */
  ghost predicate FullEffect(states: map<string, StorageState>, states': map<string, StorageState>, fleet: Fleet, fleet': Fleet,
                             next: Name, r: ApiResource, now: nat) {
    && SameExcept(states, states', StateName(r))
    && Without(fleet', r) == Without(fleet, r)
    && (r.hash != "" ==>
          && Lookup(states', StateName(r)) == Some(Passed(Lookup(states, StateName(r)), r.hash, now))
          && fleet' == FleetAfter(Lookup(states, StateName(r)), fleet, next, r, now))
  }

  // ------------------------------------------------------------------ the steps of the handlers

  /** The storage states, the migrations, the next name, and the replies that are yet to come. */
  datatype Records = Records(states: map<string, StorageState>, fleet: Fleet, next: Name, replies: seq<Reply>)

  ghost predicate Fresh(a: Records) {
    forall n :: n in a.fleet ==> n < a.next
  }

  /** A pass over one resource, for the order in which the cache lists its migrations. */
  ghost predicate PassStepBy(a: Records, b: Records, cache: Fleet, listed: seq<Name>, r: ApiResource, now: nat, done: Ending<()>) {
    && Lists(listed, Shown(cache, r))
    && PassRun(Lookup(a.states, StateName(r)), a.fleet, a.next, cache, listed, r, now, a.replies)
       == PassEnd(Lookup(b.states, StateName(r)), b.fleet, b.next, b.replies, done)
    && SameExcept(a.states, b.states, StateName(r))
  }

  ghost predicate PassStep(a: Records, b: Records, cache: Fleet, r: ApiResource, now: nat, done: Ending<()>) {
    exists listed :: PassStepBy(a, b, cache, listed, r, now, done)
  }

  lemma ReturnedOrCutOff(done: Ending<()>)
    ensures done == CutOff || done == Returned(())
  {
    match done
    case Returned(x) => assert x == ();
    case CutOff =>
  }

  /** Passes over the resources in their order, each to its end, or up to the one in which the
      process dies; the trail is what there was before each and after the last. */
  ghost predicate PassTrail(trail: seq<Records>, cache: Fleet, rs: seq<ApiResource>, now: nat, done: Ending<()>) {
    && 0 < |trail| <= |rs| + 1
    && (done == Returned(()) ==> |trail| == |rs| + 1)
    && (done == CutOff ==> |trail| > 1)
    && (forall i: nat :: i + 1 < |trail| ==> PassesAt(trail, i, cache, rs, now, done))
  }

  ghost predicate PassesAt(trail: seq<Records>, i: nat, cache: Fleet, rs: seq<ApiResource>, now: nat, done: Ending<()>)
    requires i + 1 < |trail| <= |rs| + 1
  {
    PassStep(trail[i], trail[i + 1], cache, rs[i], now, if i + 2 == |trail| then done else Returned(()))
  }

  ghost predicate PassSteps(a: Records, b: Records, cache: Fleet, rs: seq<ApiResource>, now: nat, done: Ending<()>) {
    exists trail :: PassTrail(trail, cache, rs, now, done) && trail[0] == a && trail[|trail| - 1] == b
  }

  ghost predicate StepsFrom(trail: seq<Records>, cache: Fleet, rs: seq<ApiResource>, now: nat, n: nat)
    requires n < |trail| && n <= |rs|
  {
    forall k: nat :: k < n ==> PassStep(trail[k], trail[k + 1], cache, rs[k], now, Returned(()))
  }

  lemma StepsGoOn(trail: seq<Records>, b: Records, cache: Fleet, rs: seq<ApiResource>, now: nat)
    requires 0 < |trail| <= |rs| && StepsFrom(trail, cache, rs, now, |trail| - 1)
    requires PassStep(trail[|trail| - 1], b, cache, rs[|trail| - 1], now, Returned(()))
    ensures StepsFrom(trail + [b], cache, rs, now, |trail|)
  {
  }

  lemma TrailReturns(trail: seq<Records>, cache: Fleet, rs: seq<ApiResource>, now: nat)
    requires |trail| == |rs| + 1 && StepsFrom(trail, cache, rs, now, |rs|)
    ensures PassSteps(trail[0], trail[|rs|], cache, rs, now, Returned(()))
  {
    assert PassTrail(trail, cache, rs, now, Returned(()));
  }

  lemma TrailDies(trail: seq<Records>, b: Records, cache: Fleet, rs: seq<ApiResource>, now: nat)
    requires 0 < |trail| <= |rs| && StepsFrom(trail, cache, rs, now, |trail| - 1)
    requires PassStep(trail[|trail| - 1], b, cache, rs[|trail| - 1], now, CutOff)
    ensures PassSteps(trail[0], b, cache, rs, now, CutOff)
  {
    var trail' := trail + [b];
    assert PassTrail(trail', cache, rs, now, CutOff);
    assert trail'[|trail'| - 1] == b;
  }

  /** The migrations of one resource. */
  function Of(fleet: Fleet, r: ApiResource): Fleet {
    map n | n in fleet && Concerns(fleet[n], r) :: fleet[n]
  }

  /** The recorded state is there, was seen within two periods, has the discovered hash, and the
      resource is migrated or a migration of it is pending or running. */
  predicate Settled(ss: Option<StorageState>, fleet: Fleet, r: ApiResource, now: nat) {
    && ss.Some?
    && now <= ss.value.heartbeat + 1200
    && ss.value.current == r.hash
    && (ss.value.persisted == [r.hash]
        || exists n :: n in fleet && Concerns(fleet[n], r)
                       && !HasCondition(fleet[n], Succeeded) && !HasCondition(fleet[n], Failed))
  }

  /** What a pass is for. The state carries the discovered hash and the time of the pass; its
      hashes are the old ones, with the discovered one at their end if it is new, or just UNKNOWN
      if there was no state or a stale one. A resource that is in order keeps its migrations; any
      other has exactly one, new and pending. */
  ghost predicate Discovered(a: Records, b: Records, r: ApiResource, now: nat) {
    r.hash != "" ==>
      var before := Lookup(a.states, StateName(r));
      var after := Lookup(b.states, StateName(r));
      && after.Some? && after.value.current == r.hash && after.value.heartbeat == now
      && (if before == None || before.value.heartbeat + 1200 < now || (before.value.persisted == [] && before.value.current != r.hash)
          then after.value.persisted == [UNKNOWN]
          else after.value.persisted
               == if before.value.current == r.hash then before.value.persisted else before.value.persisted + [r.hash])
      && (if Settled(before, a.fleet, r, now) then Of(b.fleet, r) == Of(a.fleet, r)
          else exists n :: n >= a.next && Of(b.fleet, r) == map[n := Migration(ToGroupResource(r), Start, [], 0)])
      && NotStuck(b.states, b.fleet, r)
  }

  lemma MustRelaunchExactlyIf(ss: Option<StorageState>, fleet: Fleet, r: ApiResource, now: nat)
    requires r.hash != ""
    ensures MustRelaunch(ss, HasPendingOrRunning(fleet, r), r.hash, now) <==> !Settled(ss, fleet, r, now)
  {
    if HasPendingOrRunning(fleet, r) {
      var n :| n in fleet && Concerns(fleet[n], r) && Incomplete(fleet[n]);
      assert !HasCondition(fleet[n], Succeeded) && !HasCondition(fleet[n], Failed);
    }
    if n :| n in fleet && Concerns(fleet[n], r) && !HasCondition(fleet[n], Succeeded) && !HasCondition(fleet[n], Failed) {
      assert Incomplete(fleet[n]);
    }
  }

  /** The next pass without faults has its full effect, and leaves replies for those to come. */
  lemma CalmPassStep(a: Records, b: Records, cache: Fleet, r: ApiResource, now: nat, done: Ending<()>)
    requires PassStep(a, b, cache, r, now, done) && Fresh(a) && UpToDate(cache, a.fleet, r) && NoFaults(a.replies, |cache| + 6)
    ensures done == Returned(()) && NoFaults(b.replies, |a.replies| - |cache| - 6)
    ensures FullEffect(a.states, b.states, a.fleet, b.fleet, a.next, r, now)
    ensures Fresh(b) && b.next >= a.next
  {
    var listed :| PassStepBy(a, b, cache, listed, r, now, done);
    PassIsSound(Lookup(a.states, StateName(r)), a.fleet, a.next, cache, listed, r, now, a.replies);
    PassAlwaysAllows(Lookup(a.states, StateName(r)), a.fleet, a.next, cache, listed, r, now, a.replies);
  }

  lemma FullEffectDiscovers(a: Records, b: Records, r: ApiResource, now: nat)
    requires FullEffect(a.states, b.states, a.fleet, b.fleet, a.next, r, now) && Fresh(a)
    ensures Discovered(a, b, r, now)
  {
    if r.hash != "" {
      var ss := Lookup(a.states, StateName(r));
      MustRelaunchExactlyIf(ss, a.fleet, r, now);
      PassUnsticks(ss, b.states, a.fleet, a.next, r, now);
      if !Settled(ss, a.fleet, r, now) {
        assert Of(b.fleet, r) == map[a.next := Launched(r)];
      }
    }
  }

  /** What happens to one resource leaves the records of every other as they are. */
  ghost predicate SameRecords(a: Records, b: Records, r: ApiResource) {
    Lookup(a.states, StateName(r)) == Lookup(b.states, StateName(r)) && Of(a.fleet, r) == Of(b.fleet, r)
  }

  lemma OthersKeepTheirRecords(a: Records, b: Records, r: ApiResource, other: ApiResource)
    requires '.' !in r.name && '.' !in other.name
    requires !SameGroupResource(ToGroupResource(r), ToGroupResource(other))
    requires SameExcept(a.states, b.states, StateName(r)) && Without(b.fleet, r) == Without(a.fleet, r)
    ensures SameRecords(a, b, other)
  {
    NamesAgree(ToGroupResource(r), ToGroupResource(other));
    SameForOthers(a.fleet, b.fleet, r, other);
    SameForOthers(b.fleet, a.fleet, r, other);
  }

  lemma DiscoveredLater(a: Records, a': Records, b: Records, b': Records, r: ApiResource, now: nat)
    requires SameRecords(a, a', r) && SameRecords(b, b', r) && a.next <= a'.next && Discovered(a', b, r, now)
    ensures Discovered(a, b', r, now)
  {
    if r.hash != "" {
      OfTells(a.fleet, a'.fleet, r);
      OfTells(b.fleet, b'.fleet, r);
    }
  }

  lemma OfTells(fleet: Fleet, fleet': Fleet, r: ApiResource)
    requires Of(fleet, r) == Of(fleet', r)
    ensures forall n :: n in fleet && Concerns(fleet[n], r) ==> n in fleet' && fleet'[n] == fleet[n]
    ensures forall n :: n in fleet' && Concerns(fleet'[n], r) ==> n in fleet && fleet'[n] == fleet[n]
  {
    forall n | n in fleet && Concerns(fleet[n], r)
      ensures n in fleet' && fleet'[n] == fleet[n]
    {
      assert n in Of(fleet, r) && Of(fleet, r)[n] == fleet[n];
      assert n in Of(fleet', r);
    }
    forall n | n in fleet' && Concerns(fleet'[n], r)
      ensures n in fleet && fleet'[n] == fleet[n]
    {
      assert n in Of(fleet', r) && Of(fleet', r)[n] == fleet'[n];
      assert n in Of(fleet, r);
    }
  }

  /** A cluster in which a whole discovery can go through: names are fresh, the cache shows the
      migrations of every listed resource, and no call will fail. */
  ghost predicate CalmFor(a: Records, cache: Fleet, rs: seq<ApiResource>) {
    && Fresh(a) && Distinct(rs)
    && NoFaults(a.replies, CallsFor(cache, |rs|))
    && (forall j :: 0 <= j < |rs| ==> UpToDate(cache, a.fleet, rs[j]))
  }

  /** The first n resources are discovered, and the records of no other have changed. */
  ghost predicate DiscoveredUpTo(a: Records, b: Records, cache: Fleet, rs: seq<ApiResource>, n: nat, now: nat)
    requires n <= |rs|
  {
    && Fresh(b) && a.next <= b.next
    && CallsFor(cache, n) <= |a.replies| && NoFaults(b.replies, |a.replies| - CallsFor(cache, n))
    && (forall j :: 0 <= j < n ==> Discovered(a, b, rs[j], now))
    && (forall r: ApiResource :: Elsewhere(rs[..n], r) ==> SameRecords(a, b, r))
  }

  ghost predicate Elsewhere(rs: seq<ApiResource>, r: ApiResource) {
    '.' !in r.name && forall j :: 0 <= j < |rs| ==> !SameGroupResource(ToGroupResource(rs[j]), ToGroupResource(r))
  }

  lemma {:induction false} CallsGrow(cache: Fleet, n: nat, m: nat)
    requires n <= m
    ensures CallsFor(cache, n) <= CallsFor(cache, m)
    decreases m
  {
    if n < m {
      CallsGrow(cache, n, m - 1);
    }
  }

  lemma NextIsDiscovered(a: Records, mid: Records, b: Records, cache: Fleet, rs: seq<ApiResource>, n: nat, now: nat, done: Ending<()>)
    requires n < |rs| && CalmFor(a, cache, rs) && DiscoveredUpTo(a, mid, cache, rs, n, now)
    requires PassStep(mid, b, cache, rs[n], now, done)
    ensures done == Returned(()) && DiscoveredUpTo(a, b, cache, rs, n + 1, now)
  {
    var r := rs[n];
    CallsGrow(cache, n + 1, |rs|);
    assert Elsewhere(rs[..n], r);
    OfTells(a.fleet, mid.fleet, r);
    CalmPassStep(mid, b, cache, r, now, done);
    FullEffectDiscovers(mid, b, r, now);
    DiscoveredLater(a, mid, b, b, r, now);
    forall j | 0 <= j < n
      ensures Discovered(a, b, rs[j], now)
    {
      OthersKeepTheirRecords(mid, b, r, rs[j]);
      DiscoveredLater(a, a, mid, b, rs[j], now);
    }
    forall x | Elsewhere(rs[..n + 1], x)
      ensures SameRecords(a, b, x)
    {
      assert rs[..n + 1][n] == r;
      assert forall j :: 0 <= j < n ==> rs[..n + 1][j] == rs[..n][j];
      assert Elsewhere(rs[..n], x);
      OthersKeepTheirRecords(mid, b, r, x);
    }
  }

  lemma NothingDiscovered(a: Records, cache: Fleet, rs: seq<ApiResource>, now: nat)
    requires CalmFor(a, cache, rs)
    ensures DiscoveredUpTo(a, a, cache, rs, 0, now)
  {
  }

  lemma NextOfTrail(trail: seq<Records>, cache: Fleet, rs: seq<ApiResource>, now: nat, done: Ending<()>, i: nat)
    requires PassTrail(trail, cache, rs, now, done) && CalmFor(trail[0], cache, rs) && i + 1 < |trail|
    requires DiscoveredUpTo(trail[0], trail[i], cache, rs, i, now)
    ensures DiscoveredUpTo(trail[0], trail[i + 1], cache, rs, i + 1, now)
    ensures i + 2 == |trail| ==> done == Returned(())
  {
    var done' := if i + 2 == |trail| then done else Returned(());
    assert PassesAt(trail, i, cache, rs, now, done);
    NextIsDiscovered(trail[0], trail[i], trail[i + 1], cache, rs, i, now, done');
  }

  lemma {:induction false} CalmTrail(trail: seq<Records>, cache: Fleet, rs: seq<ApiResource>, now: nat, done: Ending<()>, i: nat)
    requires PassTrail(trail, cache, rs, now, done) && CalmFor(trail[0], cache, rs) && i < |trail|
    ensures DiscoveredUpTo(trail[0], trail[i], cache, rs, i, now)
    ensures i > 0 && i == |trail| - 1 ==> done == Returned(())
    decreases i
  {
    if i == 0 {
      NothingDiscovered(trail[0], cache, rs, now);
    } else {
      CalmTrail(trail, cache, rs, now, done, i - 1);
      NextOfTrail(trail, cache, rs, now, done, i - 1);
    }
  }

  /** A discovery without faults does its work for every listed resource, and for no other. */
  lemma CalmPassSteps(a: Records, b: Records, cache: Fleet, rs: seq<ApiResource>, now: nat, done: Ending<()>)
    requires PassSteps(a, b, cache, rs, now, done) && CalmFor(a, cache, rs)
    ensures done == Returned(()) && DiscoveredUpTo(a, b, cache, rs, |rs|, now)
  {
    ReturnedOrCutOff(done);
    var trail :| PassTrail(trail, cache, rs, now, done) && trail[0] == a && trail[|trail| - 1] == b;
    CalmTrail(trail, cache, rs, now, done, |trail| - 1);
  }

  /** Every listed resource is discovered, and not stuck; the records of all others are as they
      were. */
  ghost predicate AllDiscovered(a: Records, b: Records, cache: Fleet, rs: seq<ApiResource>, now: nat) {
    && (forall j :: 0 <= j < |rs| ==> Discovered(a, b, rs[j], now))
    && (forall j :: 0 <= j < |rs| && rs[j].hash != "" ==> NotStuck(b.states, b.fleet, rs[j]))
    && (forall r: ApiResource :: Elsewhere(rs, r) ==> SameRecords(a, b, r))
  }

  lemma CalmDiscovery(a: Records, b: Records, cache: Fleet, rs: seq<ApiResource>, now: nat, done: Ending<()>)
    requires PassSteps(a, b, cache, rs, now, done)
    ensures CalmFor(a, cache, rs) ==> done == Returned(()) && AllDiscovered(a, b, cache, rs, now)
  {
    if CalmFor(a, cache, rs) {
      CalmPassSteps(a, b, cache, rs, now, done);
      assert rs[..|rs|] == rs;
      forall j | 0 <= j < |rs| && rs[j].hash != ""
        ensures NotStuck(b.states, b.fleet, rs[j])
      {
        assert Discovered(a, b, rs[j], now);
      }
    }
  }

  // ------------------------------------------------------------------ an item of the queue

  ghost predicate ShownSucceeded(a: Records, name: Name) {
    name in a.fleet && HasCondition(a.fleet[name], Succeeded)
  }

  /** The migration is read afresh; if it is succeeded, the state of its resource is marked. */
  ghost predicate QueueStep(a: Records, b: Records, name: Name, result: UpdateResult) {
    && b.fleet == a.fleet && b.next == a.next
    && if a.replies == [] then b == a && result == Killed
       else if a.replies[0] != Ok then b == a.(replies := a.replies[1..]) && result == GaveUp
       else if !ShownSucceeded(a, name) then b == a.(replies := a.replies[1..]) && result == Stored
       else
         var ssName := StorageStateName(a.fleet[name].resource);
         && MarkRun(Lookup(a.states, ssName), a.replies[1..], UPDATE_ATTEMPTS) == UpdateEnd(Lookup(b.states, ssName), b.replies, result)
         && SameExcept(a.states, b.states, ssName)
  }

  /** The persisted hashes of the resource of the migration are just the current one, and all
      else is as before. */
  ghost predicate MarkedFor(a: Records, b: Records, name: Name)
    requires name in a.fleet
  {
    var ssName := StorageStateName(a.fleet[name].resource);
    && (ssName in a.states ==>
          Lookup(b.states, ssName) == Some(a.states[ssName].(persisted := [a.states[ssName].current])))
    && (ssName !in a.states ==> ssName !in b.states)
    && SameExcept(a.states, b.states, ssName) && b.fleet == a.fleet
  }

  /** An item that names a succeeded migration leads to a mark, unless the first Get fails or six
      attempts do. */
  lemma SuccessIsMarked(a: Records, b: Records, name: Name, result: UpdateResult, misses: seq<Miss>, rest: seq<Reply>)
    requires QueueStep(a, b, name, result)
    ensures && ShownSucceeded(a, name) && StorageStateName(a.fleet[name].resource) in a.states
            && |misses| <= 5 && Fits(true, misses) && a.replies == [Ok] + (Script(true, misses) + ([Ok, Ok] + rest)) ==>
              result == Stored && b.replies == rest && MarkedFor(a, b, name)
  {
    if ShownSucceeded(a, name) && StorageStateName(a.fleet[name].resource) in a.states && |misses| <= 5 {
      assert ([Ok] + (Script(true, misses) + ([Ok, Ok] + rest)))[1..] == Script(true, misses) + ([Ok, Ok] + rest);
      FiveMissesAreSurvived(Some(a.states[StorageStateName(a.fleet[name].resource)]), "", 0, misses, rest);
    }
  }

  lemma CalmQueueStep(a: Records, b: Records, name: Name, result: UpdateResult)
    requires QueueStep(a, b, name, result) && NoFaults(a.replies, 3)
    ensures result == Stored && NoFaults(b.replies, |a.replies| - 3)
    ensures if ShownSucceeded(a, name) then MarkedFor(a, b, name) else b.states == a.states
  {
    if ShownSucceeded(a, name) {
      var ssName := StorageStateName(a.fleet[name].resource);
      if ssName in a.states {
        assert a.replies == [Ok] + (Script(true, []) + ([Ok, Ok] + a.replies[3..]));
        SuccessIsMarked(a, b, name, result, [], a.replies[3..]);
      } else {
        assert a.replies[1..][1..] == a.replies[2..];
      }
    }
  }

  // ------------------------------------------------------------------ the loop

  /** The records and what the cache shows, between two handlers. */
  datatype Moment = Moment(records: Records, cache: Fleet)

  /** One turn of the select loop. */
  ghost predicate HandlerStep(a: Moment, b: Moment, x: Stimulus, done: Ending<()>) {
    match x
    case Tick(rs, now) => PassSteps(a.records, b.records, a.cache, rs, now, done) && b.cache == a.cache
    case Work(name) =>
      && b.cache == a.cache
      && exists result :: QueueStep(a.records, b.records, name, result) && done == if result == Killed then CutOff else Returned(())
    case Meanwhile(fleet, next, cache) =>
      b == Moment(a.records.(fleet := fleet, next := next), cache) && done == Returned(())
  }

  /** The loop handles all of these, one after the other, or dies in the last that it handles;
      the trail is what there was before each and after the last. */
  ghost predicate LoopTrail(trail: seq<Moment>, xs: seq<Stimulus>, done: Ending<()>) {
    && 0 < |trail| <= |xs| + 1
    && (done == Returned(()) ==> |trail| == |xs| + 1)
    && (done == CutOff ==> |trail| > 1)
    && (forall i :: 0 <= i < |trail| ==> Fresh(trail[i].records))
    && (forall i: nat :: i + 1 < |trail| ==> HandledAt(trail, i, xs, done))
  }

  ghost predicate HandledAt(trail: seq<Moment>, i: nat, xs: seq<Stimulus>, done: Ending<()>)
    requires i + 1 < |trail| <= |xs| + 1
  {
    HandlerStep(trail[i], trail[i + 1], xs[i], if i + 2 == |trail| then done else Returned(()))
  }

  lemma LoopGoesOn(trail: seq<Moment>, b: Moment, xs: seq<Stimulus>, n: nat, done: Ending<()>)
    requires n < |xs| && |trail| == n + 1 && LoopTrail(trail, xs[..n], Returned(()))
    requires HandlerStep(trail[n], b, xs[n], done) && Fresh(b.records)
    ensures LoopTrail(trail + [b], xs[..n + 1], done)
  {
    var trail', xs' := trail + [b], xs[..n + 1];
    forall i: nat | i + 1 < |trail'|
      ensures HandledAt(trail', i, xs', done)
    {
      if i < n {
        assert HandledAt(trail, i, xs[..n], Returned(()));
      }
    }
  }

  lemma LoopEnds(trail: seq<Moment>, xs: seq<Stimulus>, done: Ending<()>)
    requires 0 < |trail| <= |xs| + 1 && LoopTrail(trail, xs[..|trail| - 1], done)
    requires done == CutOff || |trail| == |xs| + 1
    ensures LoopTrail(trail, xs, done)
  {
    forall i: nat | i + 1 < |trail|
      ensures HandledAt(trail, i, xs, done)
    {
      assert HandledAt(trail, i, xs[..|trail| - 1], done);
    }
  }

  /** The calls that these may need. */
  function CallsAhead(cache: Fleet, xs: seq<Stimulus>): nat
    decreases |xs|
  {
    if xs == [] then 0
    else
      match xs[0]
      case Tick(rs, _) => CallsFor(cache, |rs|) + CallsAhead(cache, xs[1..])
      case Work(_) => 3 + CallsAhead(cache, xs[1..])
      case Meanwhile(_, _, view) => CallsAhead(view, xs[1..])
  }

  lemma {:induction false} QuietTrail(trail: seq<Records>, cache: Fleet, rs: seq<ApiResource>, now: nat, done: Ending<()>, i: nat)
    requires PassTrail(trail, cache, rs, now, done) && NoFaults(trail[0].replies, CallsFor(cache, |rs|)) && i < |trail|
    ensures CallsFor(cache, i) <= CallsFor(cache, |rs|)
    ensures NoFaults(trail[i].replies, |trail[0].replies| - CallsFor(cache, i))
    ensures i > 0 && i == |trail| - 1 ==> done == Returned(())
    decreases i
  {
    CallsGrow(cache, i, |rs|);
    if i > 0 {
      QuietTrail(trail, cache, rs, now, done, i - 1);
      var done' := if i + 1 == |trail| then done else Returned(());
      assert PassesAt(trail, i - 1, cache, rs, now, done);
      var a, r := trail[i - 1], rs[i - 1];
      var listed :| PassStepBy(a, trail[i], cache, listed, r, now, done');
      PassUses(Lookup(a.states, StateName(r)), a.fleet, a.next, cache, listed, r, now, a.replies);
    }
  }

  lemma QuietPassSteps(a: Records, b: Records, cache: Fleet, rs: seq<ApiResource>, now: nat, done: Ending<()>)
    requires PassSteps(a, b, cache, rs, now, done) && NoFaults(a.replies, CallsFor(cache, |rs|))
    ensures done == Returned(()) && NoFaults(b.replies, |a.replies| - CallsFor(cache, |rs|))
  {
    ReturnedOrCutOff(done);
    var trail :| PassTrail(trail, cache, rs, now, done) && trail[0] == a && trail[|trail| - 1] == b;
    QuietTrail(trail, cache, rs, now, done, |trail| - 1);
  }

  lemma QuietHandlerStep(a: Moment, b: Moment, x: Stimulus, xs: seq<Stimulus>, done: Ending<()>)
    requires HandlerStep(a, b, x, done) && NoFaults(a.records.replies, CallsAhead(a.cache, [x] + xs))
    ensures done == Returned(()) && NoFaults(b.records.replies, CallsAhead(b.cache, xs))
  {
    assert ([x] + xs)[1..] == xs;
    match x
    case Tick(rs, now) => QuietPassSteps(a.records, b.records, a.cache, rs, now, done);
    case Work(name) =>
      var result :| QueueStep(a.records, b.records, name, result) && done == if result == Killed then CutOff else Returned(());
      CalmQueueStep(a.records, b.records, name, result);
    case Meanwhile(_, _, _) =>
  }

  /** Without faults the loop handles everything, and at every moment no fault is ahead. */
  lemma {:induction false} QuietLoop(trail: seq<Moment>, xs: seq<Stimulus>, done: Ending<()>, i: nat)
    requires LoopTrail(trail, xs, done) && i < |trail|
    requires NoFaults(trail[0].records.replies, CallsAhead(trail[0].cache, xs))
    ensures NoFaults(trail[i].records.replies, CallsAhead(trail[i].cache, xs[i..]))
    ensures i > 0 && i == |trail| - 1 ==> done == Returned(())
    decreases i
  {
    if i == 0 {
      assert xs[0..] == xs;
    } else {
      QuietLoop(trail, xs, done, i - 1);
      assert xs[i - 1..] == [xs[i - 1]] + xs[i..];
      assert HandledAt(trail, i - 1, xs, done);
      QuietHandlerStep(trail[i - 1], trail[i], xs[i - 1], xs[i..], if i + 1 == |trail| then done else Returned(()));
    }
  }

  /** Without faults, every tick does its work: wherever in the loop it comes, if the cache then
      shows the migrations of the listed resources, all of them are discovered. */
  lemma QuietTickDiscovers(trail: seq<Moment>, xs: seq<Stimulus>, done: Ending<()>, i: nat)
    requires LoopTrail(trail, xs, done) && xs != [] && NoFaults(trail[0].records.replies, CallsAhead(trail[0].cache, xs))
    requires i < |xs| && xs[i].Tick? && Distinct(xs[i].resources)
    ensures done == Returned(()) && |trail| == |xs| + 1
    ensures (forall j :: 0 <= j < |xs[i].resources| ==> UpToDate(trail[i].cache, trail[i].records.fleet, xs[i].resources[j])) ==>
              AllDiscovered(trail[i].records, trail[i + 1].records, trail[i].cache, xs[i].resources, xs[i].now)
  {
    QuietLoopReturns(trail, xs, done);
    QuietLoop(trail, xs, done, i);
    var rs := xs[i].resources;
    if forall j :: 0 <= j < |rs| ==> UpToDate(trail[i].cache, trail[i].records.fleet, rs[j]) {
      assert HandledAt(trail, i, xs, done);
      assert CalmFor(trail[i].records, trail[i].cache, rs);
      CalmDiscovery(trail[i].records, trail[i + 1].records, trail[i].cache, rs, xs[i].now, Returned(()));
    }
  }

  /** Without faults, every item that names a succeeded migration marks its resource. */
  lemma QuietWorkMarks(trail: seq<Moment>, xs: seq<Stimulus>, done: Ending<()>, i: nat)
    requires LoopTrail(trail, xs, done) && xs != [] && NoFaults(trail[0].records.replies, CallsAhead(trail[0].cache, xs))
    requires i < |xs| && xs[i].Work?
    ensures done == Returned(()) && |trail| == |xs| + 1
    ensures ShownSucceeded(trail[i].records, xs[i].name) ==> MarkedFor(trail[i].records, trail[i + 1].records, xs[i].name)
  {
    QuietLoopReturns(trail, xs, done);
    QuietLoop(trail, xs, done, i);
    assert HandledAt(trail, i, xs, done);
    var a, b := trail[i].records, trail[i + 1].records;
    var result :| QueueStep(a, b, xs[i].name, result);
    CalmQueueStep(a, b, xs[i].name, result);
  }

  lemma QuietLoopReturns(trail: seq<Moment>, xs: seq<Stimulus>, done: Ending<()>)
    requires LoopTrail(trail, xs, done) && NoFaults(trail[0].records.replies, CallsAhead(trail[0].cache, xs))
    ensures done == Returned(()) && |trail| == |xs| + 1
  {
    ReturnedOrCutOff(done);
    QuietLoop(trail, xs, done, |trail| - 1);
  }

  /** Every tick, when the cache shows the migrations of the listed resources, discovers them all;
      and every item that names a succeeded migration marks its resource. */
  ghost predicate WorksAt(trail: seq<Moment>, xs: seq<Stimulus>, i: nat)
    requires i < |xs| && i + 1 < |trail|
  {
    var a, b := trail[i].records, trail[i + 1].records;
    match xs[i]
    case Tick(rs, now) =>
      Distinct(rs) && (forall j :: 0 <= j < |rs| ==> UpToDate(trail[i].cache, a.fleet, rs[j])) ==>
        AllDiscovered(a, b, trail[i].cache, rs, now)
    case Work(name) => ShownSucceeded(a, name) ==> MarkedFor(a, b, name)
    case Meanwhile(_, _, _) => true
  }

  /** Without faults the loop handles everything, and every turn does its work. */
  lemma QuietLoopWorks(trail: seq<Moment>, xs: seq<Stimulus>, done: Ending<()>)
    requires LoopTrail(trail, xs, done) && NoFaults(trail[0].records.replies, CallsAhead(trail[0].cache, xs))
    ensures done == Returned(()) && |trail| == |xs| + 1
    ensures forall i: nat :: i < |xs| ==> WorksAt(trail, xs, i)
  {
    QuietLoopReturns(trail, xs, done);
    forall i: nat | i < |xs|
      ensures WorksAt(trail, xs, i)
    {
      match xs[i]
      case Tick(rs, now) =>
        if Distinct(rs) && forall j :: 0 <= j < |rs| ==> UpToDate(trail[i].cache, trail[i].records.fleet, rs[j]) {
          QuietTickDiscovers(trail, xs, done, i);
        }
      case Work(_) => QuietWorkMarks(trail, xs, done, i);
      case Meanwhile(_, _, _) =>
    }
  }
}
