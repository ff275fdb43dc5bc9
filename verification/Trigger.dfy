/** The handlers of pkg/trigger: a discovery pass over one resource or all, and the handling
    of one finished migration. Faults of the API calls follow a script. */
module Trigger {
  import opened Wrappers
  import opened ApiServer
  import opened ItemMigration
  import opened Migrations
  import opened Naming
  import opened StorageStates
  import opened DiscoveryPass
  import opened TriggerSteps

  class MigrationTrigger {
    var states: map<string, StorageState>
    var fleet: Fleet
    var nextName: Name
    /** The informer's view of the migrations. */
    var cache: Fleet
    var heartbeat: nat
    var replies: seq<Reply>

    constructor (states: map<string, StorageState>, fleet: Fleet, nextName: Name, cache: Fleet, replies: seq<Reply>)
      ensures this.states == states && this.fleet == fleet && this.nextName == nextName
      ensures this.cache == cache && this.replies == replies
    {
      this.states := states;
      this.fleet := fleet;
      this.nextName := nextName;
      this.cache := cache;
      this.replies := replies;
      this.heartbeat := 0;
    }

    ghost predicate FreshNames()
      reads this
    {
      forall n :: n in fleet ==> n < nextName
    }

    ghost function Records(): Records
      reads this
    {
      TriggerSteps.Records(states, fleet, nextName, replies)
    }

    /** The reply to the next call, unless the process dies before it. */
    method Call() returns (r: Ending<Reply>)
      modifies `replies
      ensures if old(replies) == [] then r == CutOff && replies == []
              else r == Returned(old(replies)[0]) && replies == old(replies)[1..]
    {
      if replies == [] {
        return CutOff;
      }
      r := Returned(replies[0]);
      replies := replies[1..];
    }

    /** Appends the hash if it is new, and sets the heartbeat. */
    method NewStatus(given: StorageState, currentHash: Hash) returns (ss: StorageState)
      ensures ss == UpdateOnce(Some(given), currentHash, heartbeat)
    {
      ss := given;
      if ss.current != currentHash {
        ss := ss.(current := currentHash);
        if |ss.persisted| == 0 {
          ss := ss.(persisted := [UNKNOWN]);
        } else {
          ss := ss.(persisted := ss.persisted + [currentHash]);
        }
      }
      ss := ss.(heartbeat := heartbeat);
    }

    /** Gets the state or, if there is none, creates it; whether that worked. */
    method GetOrCreate(name: string) returns (r: Ending<bool>)
      modifies `states, `replies
      ensures SameExcept(old(states), states, name)
      ensures r == Returned(true) ==> name in states
      ensures (states, replies, r) ==
              if old(replies) == [] then (old(states), [], CutOff)
              else if old(replies)[0] != Ok then (old(states), old(replies)[1..], Returned(false))
              else if name in old(states) then (old(states), old(replies)[1..], Returned(true))
              else if |old(replies)| == 1 then (old(states), [], CutOff)
              else (if old(replies)[1].Fail? then old(states) else old(states)[name := BLANK],
                    old(replies)[2..], Returned(old(replies)[1] == Ok))
    {
      var got := Call();
      if got != Returned(Ok) {
        return if got.CutOff? then CutOff else Returned(false);
      }
      if name in states {
        return Returned(true);
      }
      var created := Call();
      if created.CutOff? {
        return CutOff;
      }
      if !created.value.Fail? {
        states := states[name := BLANK];
      }
      return Returned(created.value == Ok);
    }

    /** One attempt of updateStorageState, with the given number of attempts left. */
    method TryUpdate(currentHash: Hash, name: string, ghost attempts: nat) returns (r: Ending<bool>)
      requires attempts > 0
      modifies `states, `replies
      ensures SameExcept(old(states), states, name)
      ensures var whole := UpdateRun(Lookup(old(states), name), currentHash, heartbeat, old(replies), attempts);
              match r
              case CutOff => whole == UpdateEnd(Lookup(states, name), replies, Killed)
              case Returned(true) => whole == UpdateEnd(Lookup(states, name), replies, Stored)
              case Returned(false) => whole == UpdateRun(Lookup(states, name), currentHash, heartbeat, replies, attempts - 1)
    {
      ghost var whole := UpdateRun(Lookup(states, name), currentHash, heartbeat, replies, attempts);
      var got := GetOrCreate(name);
      if got != Returned(true) {
        return got;
      }
      assert whole == SendUpdate(states[name], currentHash, heartbeat, replies, attempts);
      var ss := NewStatus(states[name], currentHash);
      var updated := Call();
      if updated.CutOff? {
        return CutOff;
      }
      if !updated.value.Fail? {
        states := states[name := ss];
      }
      return Returned(updated.value == Ok);
    }

    /** Records the hash and the heartbeat: on success exactly once, and else not at all, or
        once without knowing, or only as far as creating the object. */
    method UpdateStorageState(currentHash: Hash, r: ApiResource) returns (result: UpdateResult)
      modifies `states, `replies
      ensures UpdateRun(Lookup(old(states), StateName(r)), currentHash, heartbeat, old(replies), UPDATE_ATTEMPTS)
           == UpdateEnd(Lookup(states, StateName(r)), replies, result)
      ensures SameExcept(old(states), states, StateName(r))
    {
      var name := StateName(r);
      ghost var whole := UpdateRun(Lookup(states, name), currentHash, heartbeat, replies, UPDATE_ATTEMPTS);
      var attempts := UPDATE_ATTEMPTS;
      while attempts > 0
        invariant whole == UpdateRun(Lookup(states, name), currentHash, heartbeat, replies, attempts)
        invariant SameExcept(old(states), states, name)
      {
        var tried := TryUpdate(currentHash, name, attempts);
        if tried != Returned(false) {
          return if tried.CutOff? then Killed else Stored;
        }
        attempts := attempts - 1;
      }
      return GaveUp;
    }

    /** Collapses the persisted hashes to the current one. */
    method MarkStorageStateSucceeded(resource: GroupVersionResource) returns (result: UpdateResult)
      modifies `states, `replies
      ensures MarkRun(Lookup(old(states), StorageStateName(resource)), old(replies), UPDATE_ATTEMPTS)
           == UpdateEnd(Lookup(states, StorageStateName(resource)), replies, result)
      ensures SameExcept(old(states), states, StorageStateName(resource))
    {
      var name := StorageStateName(resource);
      var attempts := UPDATE_ATTEMPTS;
      while attempts > 0
        invariant MarkRun(Lookup(old(states), name), old(replies), UPDATE_ATTEMPTS)
               == MarkRun(Lookup(states, name), replies, attempts)
        invariant SameExcept(old(states), states, name)
      {
        var got := Call();
        if got.CutOff? {
          return Killed;
        }
        if got.value != Ok {
          attempts := attempts - 1;
          continue;
        }
        if name !in states {
          return Stored;
        }
        var ss := states[name];
        ss := ss.(persisted := [ss.current]);
        var updated := Call();
        if updated.CutOff? {
          return Killed;
        }
        if !updated.value.Fail? {
          states := states[name := ss];
        }
        if updated.value == Ok {
          return Stored;
        }
        attempts := attempts - 1;
      }
      return GaveUp;
    }

    /** Handles one queue item: only a migration that the server shows as succeeded marks the
        state of its resource. */
    method ProcessQueue(name: Name) returns (result: UpdateResult)
      modifies `states, `replies
      ensures
        if old(replies) != [] && old(replies)[0] == Ok && name in fleet && HasCondition(fleet[name], Succeeded) then
          var ssName := StorageStateName(fleet[name].resource);
          && MarkRun(Lookup(old(states), ssName), old(replies)[1..], UPDATE_ATTEMPTS)
             == UpdateEnd(Lookup(states, ssName), replies, result)
          && SameExcept(old(states), states, ssName)
        else states == old(states)
      ensures old(AllRecordable(states)) ==> AllRecordable(states)
      ensures QueueStep(old(Records()), Records(), name, result)
    {
      var got := Call();
      if got.CutOff? {
        return Killed;
      }
      if got.value != Ok {
        return GaveUp;
      }
      if name !in fleet {
        return Stored;
      }
      if HasCondition(fleet[name], Succeeded) {
        ghost var ssName := StorageStateName(fleet[name].resource);
        ghost var rest := replies;
        result := MarkStorageStateSucceeded(fleet[name].resource);
        if AllRecordable(old(states)) {
          MarkIsRecordable(old(states), states, ssName, rest);
        }
        return;
      }
      return Stored;
    }

    /** The migrations of the resource in the informer's index, in some order. */
    method ByIndex(r: ApiResource) returns (l: seq<Name>)
      ensures Lists(l, Shown(cache, r))
    {
      l := [];
      var todo := Shown(cache, r);
      while todo != {}
        invariant todo <= Shown(cache, r) && Lists(l, Shown(cache, r) - todo)
        decreases |todo|
      {
        var n :| n in todo;
        todo := todo - {n};
        l := l + [n];
      }
    }

    /** Deletes the migrations that the cache shows for the resource. */
    method CleanMigrations(r: ApiResource) returns (done: Ending<bool>, ghost listed: seq<Name>)
      modifies `fleet, `replies
      ensures Lists(listed, Shown(cache, r))
      ensures CleanRun(old(fleet), listed, old(replies)) == (fleet, replies, done)
      ensures fleet.Keys <= old(fleet.Keys)
      ensures UpToDate(cache, old(fleet), r) ==> Without(fleet, r) == Without(old(fleet), r)
      ensures UpToDate(cache, old(fleet), r) && done == Returned(true) ==> fleet == Without(old(fleet), r)
    {
      var l := ByIndex(r);
      listed := l;
      var failed := false;
      ghost var gone := CleanRunDeletes(fleet, l, replies);
      if UpToDate(cache, fleet, r) {
        CleanRunIsSound(cache, fleet, l, r, replies);
      }
      for i := 0 to |l|
        invariant CleanRun(old(fleet), l, old(replies)) == CleanRun(fleet, l[i..], replies)
      {
        var deleted := Call();
        if deleted.CutOff? {
          return CutOff, l;
        }
        if l[i] !in fleet {
          return Returned(false), l;
        }
        if !deleted.value.Fail? {
          fleet := fleet - {l[i]};
        }
        if deleted.value != Ok {
          return Returned(false), l;
        }
        assert l[i..][1..] == l[i + 1..];
      }
      return Returned(true), l;
    }

    method LaunchMigration(r: ApiResource) returns (done: Ending<bool>)
      modifies `fleet, `nextName, `replies
      ensures LaunchRun(old(fleet), old(nextName), r, old(replies)) == RelaunchEnd(fleet, nextName, replies, done)
    {
      var created := Call();
      if created.CutOff? {
        return CutOff;
      }
      if !created.value.Fail? {
        fleet := fleet[nextName := Launched(r)];
        nextName := nextName + 1;
      }
      return Returned(created.value == Ok);
    }

    /** Deletes the migrations of the resource and launches a new one, unless that fails. */
    method RelaunchMigration(r: ApiResource) returns (done: Ending<bool>, ghost listed: seq<Name>)
      requires FreshNames()
      modifies `fleet, `nextName, `replies
      ensures FreshNames()
      ensures Lists(listed, Shown(cache, r))
      ensures RelaunchRun(old(fleet), old(nextName), listed, r, old(replies)) == RelaunchEnd(fleet, nextName, replies, done)
      ensures UpToDate(cache, old(fleet), r) ==> Without(fleet, r) == Without(old(fleet), r)
      ensures UpToDate(cache, old(fleet), r) && done == Returned(true) ==>
                fleet == Without(old(fleet), r)[old(nextName) := Launched(r)]
    {
      done, listed := CleanMigrations(r);
      if UpToDate(cache, old(fleet), r) {
        RelaunchRunIsSound(cache, old(fleet), nextName, listed, r, old(replies));
      }
      if done == Returned(true) {
        done := LaunchMigration(r);
      }
    }

    /** The last steps of a pass over a resource: relaunch its migration if need be, and
        update its state in any case. */
    method RelaunchAndUpdate(r: ApiResource, relaunch: bool) returns (done: Ending<()>, ghost listed: seq<Name>)
      requires FreshNames()
      modifies `states, `fleet, `nextName, `replies
      ensures FreshNames()
      ensures Lists(listed, Shown(cache, r))
      ensures FinishRun(Lookup(old(states), StateName(r)), old(fleet), old(nextName), listed, r, heartbeat, relaunch, old(replies))
           == PassEnd(Lookup(states, StateName(r)), fleet, nextName, replies, done)
      ensures SameExcept(old(states), states, StateName(r))
    {
      listed := ByIndex(r);
      if relaunch {
        var relaunched;
        relaunched, listed := RelaunchMigration(r);
        if relaunched.CutOff? {
          return CutOff, listed;
        }
      }
      var result := UpdateStorageState(r.hash, r);
      done := if result == Killed then CutOff else Returned(());
    }

    /** The state as it is read, and deleted if it is stale; whether the pass goes on. */
    method OpenState(name: string) returns (found: Option<StorageState>, goesOn: Ending<bool>)
      modifies `states, `replies
      ensures OpenRun(Lookup(old(states), name), heartbeat, old(replies)) == OpenEnd(Lookup(states, name), replies, goesOn)
      ensures goesOn == Returned(true) ==> found == Lookup(old(states), name)
      ensures SameExcept(old(states), states, name)
    {
      var got := Call();
      if got != Returned(Ok) {
        return None, if got.CutOff? then CutOff else Returned(false);
      }
      found := Lookup(states, name);
      if found.Some? && Stale(found.value, heartbeat) {
        var deleted := Call();
        if deleted.CutOff? {
          return found, CutOff;
        }
        if !deleted.value.Fail? {
          states := states - {name};
        }
        return found, Returned(deleted.value == Ok);
      }
      return found, Returned(true);
    }

    /** One resource of a discovery pass: the function of which everything is proved, for some
        order in which the cache lists the migrations. Whatever fails, only this resource's
        state is touched, and only as a single update or a restart allows; with an up-to-date
        cache, other resources' migrations are left alone. Without faults the pass has its
        full effect. */
    method ProcessDiscoveryResource(r: ApiResource) returns (done: Ending<()>, ghost listed: seq<Name>)
      requires FreshNames()
      modifies `states, `fleet, `nextName, `replies
      ensures FreshNames()
      ensures r.hash == "" ==> states == old(states) && fleet == old(fleet)
      ensures SameExcept(old(states), states, StateName(r))
      ensures Lists(listed, Shown(cache, r))
      ensures PassRun(Lookup(old(states), StateName(r)), old(fleet), old(nextName), cache, listed, r, heartbeat, old(replies))
           == PassEnd(Lookup(states, StateName(r)), fleet, nextName, replies, done)
      ensures UpToDate(cache, old(fleet), r) ==> Without(fleet, r) == Without(old(fleet), r)
      ensures PassAllows(Lookup(old(states), StateName(r)), Lookup(states, StateName(r)), r.hash, heartbeat)
      ensures NoFaults(old(replies), |cache| + 6) && UpToDate(cache, old(fleet), r) ==>
                && done == Returned(())
                && FullEffect(old(states), states, old(fleet), fleet, old(nextName), r, heartbeat)
                && NoFaults(replies, |old(replies)| - |cache| - 6)
    {
      done, listed := Pass(r);
      ghost var ss := Lookup(old(states), StateName(r));
      PassAlwaysAllows(ss, old(fleet), old(nextName), cache, listed, r, heartbeat, old(replies));
      if UpToDate(cache, old(fleet), r) {
        PassIsSound(ss, old(fleet), old(nextName), cache, listed, r, heartbeat, old(replies));
      }
    }

    method Pass(r: ApiResource) returns (done: Ending<()>, ghost listed: seq<Name>)
      requires FreshNames()
      modifies `states, `fleet, `nextName, `replies
      ensures FreshNames()
      ensures r.hash == "" ==> states == old(states) && fleet == old(fleet)
      ensures SameExcept(old(states), states, StateName(r))
      ensures Lists(listed, Shown(cache, r))
      ensures PassRun(Lookup(old(states), StateName(r)), old(fleet), old(nextName), cache, listed, r, heartbeat, old(replies))
           == PassEnd(Lookup(states, StateName(r)), fleet, nextName, replies, done)
    {
      listed := ByIndex(r);
      if r.hash == "" {
        return Returned(()), listed;
      }
      var ss, goesOn := OpenState(StateName(r));
      if goesOn != Returned(true) {
        return if goesOn.CutOff? then CutOff else Returned(()), listed;
      }
      var found := ss.Some?;
      var stale := found && Stale(ss.value, heartbeat);
      var storageVersionChanged := found && ss.value.current != r.hash;
      var needsMigration := found && !IsMigrated(ss.value) && !HasPendingOrRunning(cache, r);
      var relaunchMigration := stale || !found || storageVersionChanged || needsMigration;
      done, listed := RelaunchAndUpdate(r, relaunchMigration);
    }

    /** A discovery pass over all resources: a pass over each, in their order, up to the one in
        which the process dies. Without faults and with an up-to-date cache, every listed resource
        is discovered, none is stuck, and the records of all others are left alone. */
    method ProcessDiscovery(resources: seq<ApiResource>, now: nat) returns (done: Ending<()>)
      requires FreshNames()
      modifies `states, `fleet, `nextName, `heartbeat, `replies
      ensures FreshNames() && heartbeat == now
      ensures PassSteps(old(Records()), Records(), cache, resources, now, done)
      ensures CalmFor(old(Records()), cache, resources) ==>
                && done == Returned(())
                && AllDiscovered(old(Records()), Records(), cache, resources, now)
      ensures old(AllRecordable(states)) && ProperResources(resources) ==> AllRecordable(states)
    {
      ghost var before := Records();
      ghost var trail := [before];
      heartbeat := now;
      for i := 0 to |resources|
        invariant FreshNames() && heartbeat == now
        invariant old(AllRecordable(states)) && ProperResources(resources) ==> AllRecordable(states)
        invariant |trail| == i + 1 && trail[0] == before && trail[i] == Records()
        invariant StepsFrom(trail, cache, resources, now, i)
      {
        done := ProcessNext(resources[i]);
        if done.CutOff? {
          TrailDies(trail, Records(), cache, resources, now);
          CalmDiscovery(before, Records(), cache, resources, now, done);
          return;
        }
        ReturnedOrCutOff(done);
        StepsGoOn(trail, Records(), cache, resources, now);
        trail := trail + [Records()];
      }
      done := Returned(());
      TrailReturns(trail, cache, resources, now);
      CalmDiscovery(before, Records(), cache, resources, now, done);
    }

    /** The next resource: one step, and without faults and with an up-to-date cache all that a
        pass is for. */
    method ProcessNext(r: ApiResource) returns (done: Ending<()>)
      requires FreshNames()
      modifies `states, `fleet, `nextName, `replies
      ensures FreshNames()
      ensures PassStep(old(Records()), Records(), cache, r, heartbeat, done)
      ensures NoFaults(old(replies), |cache| + 6) && UpToDate(cache, old(fleet), r) ==>
                done == Returned(()) && Discovered(old(Records()), Records(), r, heartbeat)
      ensures old(AllRecordable(states)) && r.hash != UNKNOWN ==> AllRecordable(states)
    {
      ghost var before := Records();
      ghost var listed;
      done, listed := ProcessDiscoveryResource(r);
      assert PassStepBy(before, Records(), cache, listed, r, heartbeat, done);
      if AllRecordable(before.states) && r.hash != UNKNOWN {
        PassIsRecordable(before.states, states, r, heartbeat);
      }
      if NoFaults(before.replies, |cache| + 6) && UpToDate(cache, before.fleet, r) {
        FullEffectDiscovers(before, Records(), r, heartbeat);
      }
    }

    ghost function Moment(): Moment
      reads this
    {
      TriggerSteps.Moment(Records(), cache)
    }

    /** One turn of the loop. */
    method Handle(x: Stimulus) returns (done: Ending<()>)
      requires FreshNames() && (x.Meanwhile? ==> ProperStimulus(x))
      modifies this
      ensures FreshNames()
      ensures HandlerStep(old(Moment()), Moment(), x, done)
      ensures old(AllRecordable(states)) && ProperStimulus(x) ==> AllRecordable(states)
    {
      match x {
        case Tick(resources, now) => done := ProcessDiscovery(resources, now);
        case Work(name) =>
          var result := ProcessQueue(name);
          done := if result == Killed then CutOff else Returned(());
        case Meanwhile(others, next, view) =>
          fleet, nextName, cache := others, next, view;
          done := Returned(());
      }
    }

    /** The turns of the loop, one at a time and in order. */
    method TakeTurns(xs: seq<Stimulus>) returns (done: Ending<()>, ghost trail: seq<Moment>)
      requires FreshNames() && xs != []
      requires forall i :: 0 <= i < |xs| && xs[i].Meanwhile? ==> ProperStimulus(xs[i])
      modifies this
      ensures FreshNames()
      ensures LoopTrail(trail, xs, done)
      ensures trail[0] == old(Moment()) && trail[|trail| - 1] == Moment()
      ensures old(AllRecordable(states)) && (forall i :: 0 <= i < |xs| ==> ProperStimulus(xs[i])) ==> AllRecordable(states)
    {
      trail := [Moment()];
      done := Returned(());
      for i := 0 to |xs|
        invariant FreshNames()
        invariant old(AllRecordable(states)) && (forall i :: 0 <= i < |xs| ==> ProperStimulus(xs[i])) ==> AllRecordable(states)
        invariant |trail| == i + 1 && trail[0] == old(Moment()) && trail[i] == Moment()
        invariant LoopTrail(trail, xs[..i], Returned(())) && done == Returned(())
      {
        done := Handle(xs[i]);
        LoopGoesOn(trail, Moment(), xs, i, done);
        trail := trail + [Moment()];
        if done.CutOff? {
          LoopEnds(trail, xs, done);
          return;
        }
        ReturnedOrCutOff(done);
      }
      LoopEnds(trail, xs, done);
    }

    /** The loop: a discovery first, and then whatever the select finds ready, one at a time, in
        order, up to the one in which the process dies. Without faults every turn does its work;
        through all faults, every state stays what some history leaves. */
    method Run(first: Stimulus, stimuli: seq<Stimulus>) returns (done: Ending<()>, ghost trail: seq<Moment>)
      requires FreshNames() && first.Tick?
      requires forall i :: 0 <= i < |stimuli| && stimuli[i].Meanwhile? ==> ProperStimulus(stimuli[i])
      modifies this
      ensures FreshNames()
      ensures LoopTrail(trail, [first] + stimuli, done)
      ensures trail[0] == old(Moment()) && trail[|trail| - 1] == Moment()
      ensures NoFaults(old(replies), CallsAhead(old(cache), [first] + stimuli)) ==>
                && done == Returned(()) && |trail| == |stimuli| + 2
                && forall i: nat :: i <= |stimuli| ==> WorksAt(trail, [first] + stimuli, i)
      ensures old(AllRecordable(states)) && (forall i :: 0 <= i <= |stimuli| ==> ProperStimulus(([first] + stimuli)[i])) ==>
                AllRecordable(states) && forall name :: name in states ==> WellKept(states[name])
    {
      var xs := [first] + stimuli;
      done, trail := TakeTurns(xs);
      if NoFaults(old(replies), CallsAhead(old(cache), xs)) {
        QuietLoopWorks(trail, xs, done);
      }
      if AllRecordable(states) {
        StatesAreWellKept(states);
      }
    }
  }
}
