/** The loop of the trigger, as its method runs it, is one of the runs of EndToEnd, and one in
    an order in which a single thread can make its calls. */
module LoopRuns {
  import opened Wrappers
  import opened ItemMigration
  import opened Migrations
  import opened StorageStates
  import opened DiscoveryPass
  import opened TriggerSteps
  import opened EndToEnd
  import opened SelectLoop
  import opened HandlerRuns

  /** The turns are ticks that list just this resource, with whatever hash, and items. */
  predicate OfResource(xs: seq<Stimulus>, r: ApiResource) {
    forall i :: 0 <= i < |xs| ==>
      match xs[i]
      case Tick(rs, _) => |rs| == 1 && rs[0] == r.(hash := rs[0].hash) && rs[0].hash != ""
      case Work(_) => true
      case Meanwhile(_, _, _) => false
  }

  /** The cluster holds what the records of the trigger hold of the resource, whose migrations
      are all that there are. */
  ghost predicate Shows(s: State, a: Records, r: ApiResource) {
    && s.ss == Lookup(a.states, StateName(r)) && s.migrations == a.fleet && s.next == a.next
    && s.discovery.Waiting? && s.queue.Empty?
    && (forall n :: n in a.fleet ==> Naming.StorageStateName(a.fleet[n].resource) == StateName(r))
  }

  /** Nothing else has changed, but for the active storage version. */
  ghost predicate OnlyTheTrigger(s: State, s': State) {
    s'.controller == s.controller && s'.w.now == s.w.now
  }

  lemma SinglePassStep(a: Records, b: Records, cache: Fleet, rs: seq<ApiResource>, now: nat, done: Ending<()>)
    requires |rs| == 1 && PassSteps(a, b, cache, rs, now, done)
    ensures PassStep(a, b, cache, rs[0], now, done)
  {
    var trail :| PassTrail(trail, cache, rs, now, done) && trail[0] == a && trail[|trail| - 1] == b;
    ReturnedOrCutOff(done);
    assert |trail| == 2 && PassesAt(trail, 0, cache, rs, now, done);
  }

  lemma TickIsARun(mode: Mode, s: State, a: Moment, b: Moment, r: ApiResource, x: Stimulus, done: Ending<()>) returns (es: seq<Event>)
    requires Faulty(mode) && Shows(s, a.records, r) && OfResource([x], r) && x.Tick? && HandlerStep(a, b, x, done)
    ensures Admitted(mode, s, es) && Shows(Play(mode, s, es), b.records, r) && OnlyTheTrigger(s, Play(mode, s, es))
  {
    assert [x][0] == x;
    var r' := x.resources[0];
    SinglePassStep(a.records, b.records, a.cache, x.resources, x.now, done);
    var listed :| PassStepBy(a.records, b.records, a.cache, listed, r', x.now, done);
    assert StateName(r') == StateName(r);
    es := PassStepIsARun(mode, s, a.records, b.records, a.cache, listed, r', x.now, done);
  }

  lemma PassStepIsARun(mode: Mode, s: State, a: Records, b: Records, cache: Fleet, listed: seq<Name>, r: ApiResource, now: nat, done: Ending<()>)
    returns (es: seq<Event>)
    requires Faulty(mode) && Shows(s, a, r) && PassStepBy(a, b, cache, listed, r, now, done) && r.hash != ""
    ensures Admitted(mode, s, es) && Shows(Play(mode, s, es), b, r) && OnlyTheTrigger(s, Play(mode, s, es))
  {
    es := PassIsARun(mode, s, cache, listed, r, now, a.replies);
    PassKeepsToResource(s.ss, a.fleet, a.next, cache, listed, r, now, a.replies);
  }

  lemma PassKeepsToResource(ss: Option<StorageState>, fleet: Fleet, next: Name, cache: Fleet, listed: seq<Name>, r: ApiResource,
                            now: nat, replies: seq<Reply>)
    ensures var fleet' := PassRun(ss, fleet, next, cache, listed, r, now, replies).fleet;
            forall n :: n in fleet' ==> (n in fleet && fleet'[n] == fleet[n]) || fleet'[n] == Launched(r)
  {
    PassFleet(ss, fleet, next, cache, listed, r, now, replies);
    var o := OpenRun(ss, now, replies);
    FinishKeepsToResource(o.ss, fleet, next, listed, r, now, MustRelaunch(ss, HasPendingOrRunning(cache, r), r.hash, now), o.rest);
  }

  lemma FinishKeepsToResource(ss: Option<StorageState>, fleet: Fleet, next: Name, listed: seq<Name>, r: ApiResource, now: nat,
                              relaunch: bool, replies: seq<Reply>)
    ensures var fleet' := FinishRun(ss, fleet, next, listed, r, now, relaunch, replies).fleet;
            forall n :: n in fleet' ==> (n in fleet && fleet'[n] == fleet[n]) || fleet'[n] == Launched(r)
  {
    var gone := CleanRunDeletes(fleet, listed, replies);
  }

  lemma FetchStep(mode: Mode, s: State, name: Name)
    requires s.discovery.Waiting? && s.queue.Empty? && name in s.migrations && HasCondition(s.migrations[name], Succeeded)
    ensures Next(mode, s, Fetch(name)) == s.(queue := Holding)
  {
  }

  lemma WorkIsARun(mode: Mode, s: State, a: Moment, b: Moment, r: ApiResource, name: Name, result: UpdateResult) returns (es: seq<Event>)
    requires Faulty(mode) && Shows(s, a.records, r) && QueueStep(a.records, b.records, name, result)
    ensures Admitted(mode, s, es) && Shows(Play(mode, s, es), b.records, r) && OnlyTheTrigger(s, Play(mode, s, es))
  {
    es := [];
    if a.records.replies != [] && a.records.replies[0] == Ok && ShownSucceeded(a.records, name) {
      var s1 := s.(queue := Holding);
      FetchStep(mode, s, name);
      var mark := MarkIsARun(mode, s1, a.records.replies[1..], UPDATE_ATTEMPTS);
      es := [Fetch(name)] + mark;
      StepFirst(mode, s, Fetch(name), mark);
    }
  }

  /** Up to any turn that it takes, whatever faults it meets: the loop over one resource has left
      the cluster as some run does, in an order that a single thread can keep. */
  lemma {:induction false} LoopIsARun(mode: Mode, s: State, trail: seq<Moment>, xs: seq<Stimulus>, done: Ending<()>, r: ApiResource, i: nat)
    returns (es: seq<Event>)
    requires Faulty(mode) && LoopTrail(trail, xs, done) && OfResource(xs, r) && i < |trail|
    requires Shows(s, trail[0].records, r)
    ensures Admitted(mode, s, es) && Shows(Play(mode, s, es), trail[i].records, r) && OnlyTheTrigger(s, Play(mode, s, es))
    decreases i
  {
    if i == 0 {
      es := [];
    } else {
      es := LoopIsARun(mode, s, trail, xs, done, r, i - 1);
      var s1 := Play(mode, s, es);
      assert HandledAt(trail, i - 1, xs, done);
      var a, b, x := trail[i - 1], trail[i], xs[i - 1];
      var done' := if i + 1 == |trail| then done else Returned(());
      var turn;
      match x {
        case Tick(_, _) => turn := TickIsARun(mode, s1, a, b, r, x, done');
        case Work(name) =>
          var result :| QueueStep(a.records, b.records, name, result) && done' == if result == Killed then CutOff else Returned(());
          turn := WorkIsARun(mode, s1, a, b, r, name, result);
      }
      GoOn(mode, s, es, turn);
      es := es + turn;
    }
  }

  /** So the orders in which the method makes its calls are those of which the loop is proved
      serial. */
  lemma LoopRunsInOrder(mode: Mode, s: State, trail: seq<Moment>, xs: seq<Stimulus>, done: Ending<()>, r: ApiResource)
    returns (es: seq<Event>)
    requires Faulty(mode) && LoopTrail(trail, xs, done) && OfResource(xs, r) && Shows(s, trail[0].records, r)
    ensures LoopOrder(mode.(serial := false), AtSelect, s, es)
    ensures var s' := Play(mode.(serial := true), s, es);
            && s' == Play(mode.(serial := false), s, es)
            && Shows(s', trail[|trail| - 1].records, r)
  {
    var mode' := mode.(serial := false);
    es := LoopIsARun(mode', s, trail, xs, done, r, |trail| - 1);
    AdmittedIsLoopOrder(mode', s, es);
    LoopIsSerial(mode, AtSelect, s, es);
  }
}
