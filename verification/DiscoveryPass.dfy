/** What a pass of processDiscoveryResource in pkg/trigger/discovery_handler.go does to the
    storage state and the migrations of one resource, as a function of what the informer's
    cache shows and of how the server treats each call. */
module DiscoveryPass {
  import opened Wrappers
  import opened ItemMigration
  import opened ApiServer
  import opened Migrations
  import opened Naming
  import opened StorageStates

  /** A resource as the discovery document lists it. */
  datatype ApiResource = ApiResource(group: string, version: string, name: string, hash: Hash)

  function ToGroupResource(r: ApiResource): GroupVersionResource {
    GroupVersionResource(r.group, r.version, r.name)
  }

  function StateName(r: ApiResource): string {
    StorageStateName(ToGroupResource(r))
  }

  predicate Concerns(m: Migration, r: ApiResource) {
    ToIndex(m.resource) == ToIndex(ToGroupResource(r))
  }

  type Fleet = map<Name, Migration>

  predicate HasPendingOrRunning(fleet: Fleet, r: ApiResource) {
    exists n :: n in fleet && Concerns(fleet[n], r) && Incomplete(fleet[n])
  }

  /** The state is stale, missing or for another storage version, or nothing is pending for
      a resource that is not migrated. */
  predicate MustRelaunch(ss: Option<StorageState>, pending: bool, hash: Hash, now: nat) {
    || ss.None?
    || Stale(ss.value, now)
    || ss.value.current != hash
    || (!IsMigrated(ss.value) && !pending)
  }

  /** The migrations of the resource that the cache shows. */
  function Shown(cache: Fleet, r: ApiResource): set<Name> {
    set n | n in cache && Concerns(cache[n], r)
  }

  function Without(fleet: Fleet, r: ApiResource): Fleet {
    map n | n in fleet && !Concerns(fleet[n], r) :: fleet[n]
  }

  function Launched(r: ApiResource): Migration {
    Migration(ToGroupResource(r), Start, [], 0)
  }

  // ------------------------------------------------------------------ the calls of a pass

  /** Deletes the listed migrations one after the other, up to the first error; that one is
      already gone is an error too. */
  function CleanRun(fleet: Fleet, listed: seq<Name>, replies: seq<Reply>): (Fleet, seq<Reply>, Ending<bool>)
    decreases |listed|
  {
    if listed == [] then (fleet, replies, Returned(true))
    else if replies == [] then (fleet, [], CutOff)
    else if listed[0] !in fleet then (fleet, replies[1..], Returned(false))
    else
      match replies[0]
      case Ok => CleanRun(fleet - {listed[0]}, listed[1..], replies[1..])
      case Fail(_) => (fleet, replies[1..], Returned(false))
      case Lost(_) => (fleet - {listed[0]}, replies[1..], Returned(false))
  }

  datatype RelaunchEnd = RelaunchEnd(fleet: Fleet, next: Name, rest: seq<Reply>, done: Ending<bool>)

  function LaunchRun(fleet: Fleet, next: Name, r: ApiResource, replies: seq<Reply>): RelaunchEnd {
    if replies == [] then RelaunchEnd(fleet, next, [], CutOff)
    else if replies[0].Fail? then RelaunchEnd(fleet, next, replies[1..], Returned(false))
    else RelaunchEnd(fleet[next := Launched(r)], next + 1, replies[1..], Returned(replies[0] == Ok))
  }

  function RelaunchRun(fleet: Fleet, next: Name, listed: seq<Name>, r: ApiResource, replies: seq<Reply>): RelaunchEnd {
    var (fleet', rest, done) := CleanRun(fleet, listed, replies);
    if done == Returned(true) then LaunchRun(fleet', next, r, rest) else RelaunchEnd(fleet', next, rest, done)
  }

  datatype PassEnd = PassEnd(ss: Option<StorageState>, fleet: Fleet, next: Name, rest: seq<Reply>, done: Ending<()>)

  /** From the relaunch on: whether that succeeds or not, the state is updated. */
  function FinishRun(ss: Option<StorageState>, fleet: Fleet, next: Name, listed: seq<Name>, r: ApiResource, now: nat,
                     relaunch: bool, replies: seq<Reply>): PassEnd
  {
    var l := if relaunch then RelaunchRun(fleet, next, listed, r, replies) else RelaunchEnd(fleet, next, replies, Returned(true));
    if l.done.CutOff? then PassEnd(ss, l.fleet, l.next, l.rest, CutOff)
    else
      var u := UpdateRun(ss, r.hash, now, l.rest, UPDATE_ATTEMPTS);
      PassEnd(u.ss, l.fleet, l.next, u.rest, if u.result == Killed then CutOff else Returned(()))
  }

  datatype OpenEnd = OpenEnd(ss: Option<StorageState>, rest: seq<Reply>, goesOn: Ending<bool>)

  predicate IsStale(ss: Option<StorageState>, now: nat) {
    ss.Some? && Stale(ss.value, now)
  }

  /** The first calls: the state is read and, if it is stale, deleted. Any error ends the
      pass. */
  function OpenRun(ss: Option<StorageState>, now: nat, replies: seq<Reply>): OpenEnd {
    if replies == [] then OpenEnd(ss, [], CutOff)
    else if replies[0] != Ok then OpenEnd(ss, replies[1..], Returned(false))
    else if !IsStale(ss, now) then OpenEnd(ss, replies[1..], Returned(true))
    else if |replies| == 1 then OpenEnd(ss, [], CutOff)
    else OpenEnd(if replies[1].Fail? then ss else None, replies[2..], Returned(replies[1] == Ok))
  }

  function PassRun(ss: Option<StorageState>, fleet: Fleet, next: Name, cache: Fleet, listed: seq<Name>, r: ApiResource,
                   now: nat, replies: seq<Reply>): PassEnd
  {
    if r.hash == "" then PassEnd(ss, fleet, next, replies, Returned(()))
    else
      var relaunch := MustRelaunch(ss, HasPendingOrRunning(cache, r), r.hash, now);
      match OpenRun(ss, now, replies)
      case OpenEnd(ss', rest, Returned(true)) => FinishRun(ss', fleet, next, listed, r, now, relaunch, rest)
      case OpenEnd(ss', rest, Returned(false)) => PassEnd(ss', fleet, next, rest, Returned(()))
      case OpenEnd(ss', rest, CutOff) => PassEnd(ss', fleet, next, rest, CutOff)
  }

  // ------------------------------------------------------------------ what it comes to

  /** The sequence names each of the set once. */
  ghost predicate Lists(listed: seq<Name>, names: set<Name>) {
    && (forall n :: n in listed <==> n in names)
    && (forall i, j :: 0 <= i < j < |listed| ==> listed[i] != listed[j])
  }

  lemma {:induction false} ListLength(listed: seq<Name>, names: set<Name>)
    requires Lists(listed, names)
    ensures |listed| == |names|
    decreases |listed|
  {
    if listed == [] {
      assert names == {};
    } else {
      var rest := listed[1..];
      assert forall n :: n in rest <==> n in names && n != listed[0] by {
        assert listed == [listed[0]] + rest;
      }
      ListLength(rest, names - {listed[0]});
    }
  }

  /** The migrations after a pass without faults. */
  function FleetAfter(ss: Option<StorageState>, fleet: Fleet, next: Name, r: ApiResource, now: nat): Fleet {
    if MustRelaunch(ss, HasPendingOrRunning(fleet, r), r.hash, now) then Without(fleet, r)[next := Launched(r)] else fleet
  }

  /** The cache shows the migrations of the resource as they are. */
  ghost predicate UpToDate(cache: Fleet, fleet: Fleet, r: ApiResource) {
    && (forall n :: n in cache && Concerns(cache[n], r) ==> n in fleet && fleet[n] == cache[n])
    && (forall n :: n in fleet && Concerns(fleet[n], r) ==> n in cache && fleet[n] == cache[n])
  }

  /** No call fails, and at least the given number of calls can be made. */
  ghost predicate NoFaults(replies: seq<Reply>, calls: nat) {
    |replies| >= calls && forall i :: 0 <= i < |replies| ==> replies[i] == Ok
  }

  /** From one script to what is left of it after at most the given number of calls. */
  ghost predicate Uses(before: seq<Reply>, after: seq<Reply>, calls: nat) {
    NoFaults(before, calls) ==> NoFaults(after, |before| - calls)
  }

  lemma CacheTells(cache: Fleet, fleet: Fleet, r: ApiResource)
    requires UpToDate(cache, fleet, r)
    ensures HasPendingOrRunning(cache, r) == HasPendingOrRunning(fleet, r)
  {
    if HasPendingOrRunning(cache, r) {
      var n :| n in cache && Concerns(cache[n], r) && Incomplete(cache[n]);
      assert n in fleet && Concerns(fleet[n], r);
    }
    if HasPendingOrRunning(fleet, r) {
      var n :| n in fleet && Concerns(fleet[n], r) && Incomplete(fleet[n]);
      assert n in cache && Concerns(cache[n], r);
    }
  }

  /** Only listed migrations are deleted, and all of them on success; without faults it
      succeeds if they are there. */
  lemma {:induction false} CleanRunDeletes(fleet: Fleet, listed: seq<Name>, replies: seq<Reply>) returns (gone: set<Name>)
    ensures var (fleet', rest, done) := CleanRun(fleet, listed, replies);
            && fleet' == fleet - gone
            && (forall n :: n in gone ==> n in listed)
            && (done == Returned(true) ==> forall n :: n in listed ==> n in gone)
            && Uses(replies, rest, |listed|)
            && (NoFaults(replies, |listed|) ==> done.Returned?)
            && (NoFaults(replies, |listed|) && Lists(listed, set n | n in listed) && (forall n :: n in listed ==> n in fleet) ==>
                  done == Returned(true))
    decreases |listed|
  {
    gone := {};
    if listed == [] || replies == [] || listed[0] !in fleet || replies[0].Fail? {
    } else if replies[0].Lost? {
      gone := {listed[0]};
    } else {
      var tail := listed[1..];
      assert listed == [listed[0]] + tail;
      var others := CleanRunDeletes(fleet - {listed[0]}, tail, replies[1..]);
      gone := {listed[0]} + others;
      assert fleet - gone == fleet - {listed[0]} - others;
    }
  }

  lemma WithoutShown(cache: Fleet, fleet: Fleet, r: ApiResource, gone: set<Name>)
    requires UpToDate(cache, fleet, r) && gone <= Shown(cache, r)
    ensures Without(fleet - gone, r) == Without(fleet, r)
    ensures gone == Shown(cache, r) ==> fleet - gone == Without(fleet, r)
  {
  }

  lemma CleanRunIsSound(cache: Fleet, fleet: Fleet, listed: seq<Name>, r: ApiResource, replies: seq<Reply>)
    requires UpToDate(cache, fleet, r) && Lists(listed, Shown(cache, r))
    ensures var (fleet', rest, done) := CleanRun(fleet, listed, replies);
            && Without(fleet', r) == Without(fleet, r)
            && fleet'.Keys <= fleet.Keys
            && (done == Returned(true) ==> fleet' == Without(fleet, r))
            && (NoFaults(replies, |cache|) ==> done == Returned(true) && NoFaults(rest, |replies| - |cache|))
  {
    var gone := CleanRunDeletes(fleet, listed, replies);
    WithoutShown(cache, fleet, r, gone);
    assert Lists(listed, set n | n in listed);
    ListLength(listed, Shown(cache, r));
    SubsetIsSmaller(Shown(cache, r), cache.Keys);
    if CleanRun(fleet, listed, replies).2 == Returned(true) {
      assert gone == Shown(cache, r);
    }
  }

  lemma RelaunchRunIsSound(cache: Fleet, fleet: Fleet, next: Name, listed: seq<Name>, r: ApiResource, replies: seq<Reply>)
    requires UpToDate(cache, fleet, r) && Lists(listed, Shown(cache, r))
    requires forall n :: n in fleet ==> n < next
    ensures var end := RelaunchRun(fleet, next, listed, r, replies);
            && Without(end.fleet, r) == Without(fleet, r)
            && (end.done == Returned(true) ==> end.fleet == Without(fleet, r)[next := Launched(r)])
            && (NoFaults(replies, |cache| + 1) ==> end.done == Returned(true) && NoFaults(end.rest, |replies| - |cache| - 1))
  {
    CleanRunIsSound(cache, fleet, listed, r, replies);
  }

  lemma CalmUpdate(ss: Option<StorageState>, hash: Hash, now: nat, replies: seq<Reply>)
    requires NoFaults(replies, 3)
    ensures var end := UpdateRun(ss, hash, now, replies, UPDATE_ATTEMPTS);
            end.result == Stored && NoFaults(end.rest, |replies| - 3)
  {
    var first := if ss.Some? then ss.value else BLANK;
    var used := if ss.Some? then 2 else 3;
    assert replies[used - 1..][0] == Ok;
    assert replies[used - 1..][1..] == replies[used..];
    assert UpdateRun(ss, hash, now, replies, UPDATE_ATTEMPTS) == SendUpdate(first, hash, now, replies[used - 1..], UPDATE_ATTEMPTS);
  }

  lemma FinishRunIsSound(ss: Option<StorageState>, cache: Fleet, fleet: Fleet, next: Name, listed: seq<Name>, r: ApiResource,
                         now: nat, relaunch: bool, replies: seq<Reply>)
    requires UpToDate(cache, fleet, r) && Lists(listed, Shown(cache, r))
    requires forall n :: n in fleet ==> n < next
    ensures var end := FinishRun(ss, fleet, next, listed, r, now, relaunch, replies);
            && Without(end.fleet, r) == Without(fleet, r)
            && (NoFaults(replies, |cache| + 4) ==>
                  && end.done == Returned(())
                  && end.ss == Some(UpdateOnce(ss, r.hash, now))
                  && end.fleet == (if relaunch then Without(fleet, r)[next := Launched(r)] else fleet)
                  && NoFaults(end.rest, |replies| - |cache| - 4))
  {
    RelaunchRunIsSound(cache, fleet, next, listed, r, replies);
    var l := if relaunch then RelaunchRun(fleet, next, listed, r, replies) else RelaunchEnd(fleet, next, replies, Returned(true));
    UpdateHappensOnce(ss, ss, r.hash, now, l.rest, UPDATE_ATTEMPTS);
    if NoFaults(replies, |cache| + 4) {
      CalmUpdate(ss, r.hash, now, l.rest);
    }
  }

  /** What a pass, with whatever faults, may leave of a storage state. */
  predicate PassAllows(before: Option<StorageState>, after: Option<StorageState>, hash: Hash, now: nat) {
    || OnTheWay(before, after, hash, now)
    || (IsStale(before, now) && OnTheWay(None, after, hash, now))
  }

  lemma FinishRunUpdates(ss: Option<StorageState>, fleet: Fleet, next: Name, listed: seq<Name>, r: ApiResource, now: nat,
                         relaunch: bool, replies: seq<Reply>)
    ensures var end := FinishRun(ss, fleet, next, listed, r, now, relaunch, replies);
            OnTheWay(ss, end.ss, r.hash, now) && next <= end.next <= next + 1
            && (forall n :: n in end.fleet ==> n in fleet || n < end.next)
  {
    var l := if relaunch then RelaunchRun(fleet, next, listed, r, replies) else RelaunchEnd(fleet, next, replies, Returned(true));
    UpdateHappensOnce(ss, ss, r.hash, now, l.rest, UPDATE_ATTEMPTS);
    var gone := CleanRunDeletes(fleet, listed, replies);
  }

  /** Under any faults and with any cache, the state changes only as a single update or a
      restart allows, and at most one migration is launched, under a fresh name. */
  lemma PassAlwaysAllows(ss: Option<StorageState>, fleet: Fleet, next: Name, cache: Fleet, listed: seq<Name>, r: ApiResource,
                         now: nat, replies: seq<Reply>)
    ensures var end := PassRun(ss, fleet, next, cache, listed, r, now, replies);
            && PassAllows(ss, end.ss, r.hash, now)
            && next <= end.next <= next + 1
            && (forall n :: n in end.fleet ==> n in fleet || n < end.next)
  {
    var o := OpenRun(ss, now, replies);
    FinishRunUpdates(o.ss, fleet, next, listed, r, now, MustRelaunch(ss, HasPendingOrRunning(cache, r), r.hash, now), o.rest);
  }

  lemma FinishUses(ss: Option<StorageState>, fleet: Fleet, next: Name, listed: seq<Name>, r: ApiResource, now: nat,
                   relaunch: bool, replies: seq<Reply>)
    requires NoFaults(replies, |listed| + 4)
    ensures var end := FinishRun(ss, fleet, next, listed, r, now, relaunch, replies);
            end.done == Returned(()) && NoFaults(end.rest, |replies| - |listed| - 4)
  {
    var gone := CleanRunDeletes(fleet, listed, replies);
    var l := if relaunch then RelaunchRun(fleet, next, listed, r, replies) else RelaunchEnd(fleet, next, replies, Returned(true));
    CalmUpdate(ss, r.hash, now, l.rest);
  }

  /** Without faults a pass returns, whatever its cache shows, and makes only so many calls. */
  lemma PassUses(ss: Option<StorageState>, fleet: Fleet, next: Name, cache: Fleet, listed: seq<Name>, r: ApiResource,
                 now: nat, replies: seq<Reply>)
    requires Lists(listed, Shown(cache, r)) && NoFaults(replies, |cache| + 6)
    ensures var end := PassRun(ss, fleet, next, cache, listed, r, now, replies);
            end.done == Returned(()) && NoFaults(end.rest, |replies| - |cache| - 6)
  {
    ListLength(listed, Shown(cache, r));
    SubsetIsSmaller(Shown(cache, r), cache.Keys);
    CalmOpen(ss, now, replies);
    var o := OpenRun(ss, now, replies);
    FinishUses(o.ss, fleet, next, listed, r, now, MustRelaunch(ss, HasPendingOrRunning(cache, r), r.hash, now), o.rest);
  }

  lemma CalmOpen(ss: Option<StorageState>, now: nat, replies: seq<Reply>)
    requires NoFaults(replies, 2)
    ensures var o := OpenRun(ss, now, replies);
            && o.goesOn == Returned(true)
            && o.ss == (if IsStale(ss, now) then None else ss)
            && NoFaults(o.rest, |replies| - 2)
  {
  }

  lemma FinishSparesOthers(ss: Option<StorageState>, cache: Fleet, fleet: Fleet, next: Name, listed: seq<Name>, r: ApiResource,
                           now: nat, relaunch: bool, replies: seq<Reply>)
    requires UpToDate(cache, fleet, r) && Lists(listed, Shown(cache, r))
    requires forall n :: n in fleet ==> n < next
    ensures Without(FinishRun(ss, fleet, next, listed, r, now, relaunch, replies).fleet, r) == Without(fleet, r)
  {
    RelaunchRunIsSound(cache, fleet, next, listed, r, replies);
  }

  /** A pass that gives up leaves the migrations alone. */
  lemma PassFleet(ss: Option<StorageState>, fleet: Fleet, next: Name, cache: Fleet, listed: seq<Name>, r: ApiResource,
                  now: nat, replies: seq<Reply>)
    ensures var fleet' := PassRun(ss, fleet, next, cache, listed, r, now, replies).fleet;
            var o := OpenRun(ss, now, replies);
            var relaunch := MustRelaunch(ss, HasPendingOrRunning(cache, r), r.hash, now);
            fleet' == fleet || fleet' == FinishRun(o.ss, fleet, next, listed, r, now, relaunch, o.rest).fleet
  {
  }

  lemma PassSparesOthers(ss: Option<StorageState>, fleet: Fleet, next: Name, cache: Fleet, listed: seq<Name>, r: ApiResource,
                         now: nat, replies: seq<Reply>)
    requires UpToDate(cache, fleet, r) && Lists(listed, Shown(cache, r))
    requires forall n :: n in fleet ==> n < next
    ensures Without(PassRun(ss, fleet, next, cache, listed, r, now, replies).fleet, r) == Without(fleet, r)
  {
    var o := OpenRun(ss, now, replies);
    PassFleet(ss, fleet, next, cache, listed, r, now, replies);
    FinishSparesOthers(o.ss, cache, fleet, next, listed, r, now, MustRelaunch(ss, HasPendingOrRunning(cache, r), r.hash, now), o.rest);
  }

  lemma CalmPass(ss: Option<StorageState>, fleet: Fleet, next: Name, cache: Fleet, listed: seq<Name>, r: ApiResource,
                 now: nat, replies: seq<Reply>)
    requires UpToDate(cache, fleet, r) && Lists(listed, Shown(cache, r))
    requires forall n :: n in fleet ==> n < next
    requires NoFaults(replies, |cache| + 6) && r.hash != ""
    ensures var end := PassRun(ss, fleet, next, cache, listed, r, now, replies);
            && end.done == Returned(())
            && NoFaults(end.rest, |replies| - |cache| - 6)
            && end.ss == Some(Passed(ss, r.hash, now))
            && end.fleet == FleetAfter(ss, fleet, next, r, now)
  {
    var relaunch := MustRelaunch(ss, HasPendingOrRunning(cache, r), r.hash, now);
    CacheTells(cache, fleet, r);
    CalmOpen(ss, now, replies);
    var o := OpenRun(ss, now, replies);
    FinishRunIsSound(o.ss, cache, fleet, next, listed, r, now, relaunch, o.rest);
    assert PassRun(ss, fleet, next, cache, listed, r, now, replies) == FinishRun(o.ss, fleet, next, listed, r, now, relaunch, o.rest);
  }

  /** With an up-to-date cache, migrations of other resources are left alone whatever fails;
      without faults the pass has its full effect. */
  lemma PassIsSound(ss: Option<StorageState>, fleet: Fleet, next: Name, cache: Fleet, listed: seq<Name>, r: ApiResource,
                    now: nat, replies: seq<Reply>)
    requires UpToDate(cache, fleet, r) && Lists(listed, Shown(cache, r))
    requires forall n :: n in fleet ==> n < next
    ensures var end := PassRun(ss, fleet, next, cache, listed, r, now, replies);
            && Without(end.fleet, r) == Without(fleet, r)
            && (NoFaults(replies, |cache| + 6) ==>
                  && end.done == Returned(())
                  && NoFaults(end.rest, |replies| - |cache| - 6)
                  && (r.hash != "" ==>
                        && end.ss == Some(Passed(ss, r.hash, now))
                        && end.fleet == FleetAfter(ss, fleet, next, r, now)))
  {
    PassSparesOthers(ss, fleet, next, cache, listed, r, now, replies);
    if NoFaults(replies, |cache| + 6) && r.hash != "" {
      CalmPass(ss, fleet, next, cache, listed, r, now, replies);
    }
  }

  // ------------------------------------------------------------------ what a pass does with errors

  /** A pass that cannot read the state, or cannot delete a stale one, leaves the migrations and
      the hashes alone. */
  lemma FailedOpeningGivesUp(ss: Option<StorageState>, fleet: Fleet, next: Name, cache: Fleet, listed: seq<Name>, r: ApiResource,
                             now: nat, reply: Reply, rest: seq<Reply>)
    requires r.hash != "" && reply != Ok
    ensures PassRun(ss, fleet, next, cache, listed, r, now, [reply] + rest) == PassEnd(ss, fleet, next, rest, Returned(()))
    ensures ss.Some? && ss.value.heartbeat + 1200 < now ==>
              PassRun(ss, fleet, next, cache, listed, r, now, [Ok, reply] + rest)
              == PassEnd(if reply.Lost? then None else ss, fleet, next, rest, Returned(()))
  {
    assert ([reply] + rest)[1..] == rest && ([Ok, reply] + rest)[2..] == rest;
  }

  /** A relaunch stops at its first error: nothing more is deleted and nothing launched. But the
      state is updated all the same. */
  lemma FailedRelaunchStillUpdates(ss: Option<StorageState>, fleet: Fleet, next: Name, cache: Fleet, listed: seq<Name>, r: ApiResource,
                                   now: nat, reply: Reply, rest: seq<Reply>)
    requires r.hash != "" && reply != Ok && NoFaults(rest, 3)
    requires ss.None? || (ss.value.current != r.hash && now <= ss.value.heartbeat + 1200)
    ensures var end := PassRun(ss, fleet, next, cache, listed, r, now, [Ok, reply] + rest);
            && end.done == Returned(())
            && end.ss == Some(UpdateOnce(ss, r.hash, now))
            && (reply.Fail? ==> end.fleet == fleet && end.next == next)
            && (reply.Lost? && listed != [] ==> end.fleet == fleet - {listed[0]} && end.next == next)
            && (reply.Lost? && listed == [] ==> end.fleet == fleet[next := Launched(r)] && end.next == next + 1)
  {
    var replies := [reply] + rest;
    assert ([Ok, reply] + rest)[1..] == replies && replies[1..] == rest;
    var l := RelaunchRun(fleet, next, listed, r, replies);
    if listed != [] && listed[0] !in fleet {
      assert fleet - {listed[0]} == fleet;
    }
    assert l.rest == rest && l.done == Returned(false);
    CalmUpdate(ss, r.hash, now, rest);
    UpdateHappensOnce(ss, ss, r.hash, now, rest, UPDATE_ATTEMPTS);
  }
}
