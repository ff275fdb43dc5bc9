/** The handlers are among the runs of EndToEnd: whatever faults a discovery pass or a call of
    the migration controller meets, there are steps that leave the cluster as it does. */
module HandlerRuns {
  import opened Wrappers
  import opened ItemMigration
  import opened ApiServer
  import opened Migrations
  import opened Runner
  import opened Lifecycle
  import opened StorageStates
  import opened DiscoveryPass
  import opened EndToEnd
  import opened SelectLoop

  /** Any fault of the trigger is possible. */
  predicate Faulty(m: Mode) {
    !m.getsSucceed && !m.dropsSucceed && !m.cacheComplete && !m.cleansSucceed && !m.updatesSucceed
  }

  lemma StepFirst(mode: Mode, s: State, e: Event, es: seq<Event>)
    ensures Play(mode, s, [e] + es) == Play(mode, Next(mode, s, e), es)
    ensures Obeys(StageOf(s), e) && Admitted(mode, Next(mode, s, e), es) ==> Admitted(mode, s, [e] + es)
  {
    assert ([e] + es)[1..] == es;
  }

  lemma OneStep(mode: Mode, s: State, e: Event)
    ensures Play(mode, s, [e]) == Next(mode, s, e)
    ensures Obeys(StageOf(s), e) ==> Admitted(mode, s, [e])
  {
    assert Play(mode, Next(mode, s, e), []) == Next(mode, s, e);
    assert Admitted(mode, Next(mode, s, e), []);
  }

  lemma GoOn(mode: Mode, s: State, es: seq<Event>, more: seq<Event>)
    ensures Play(mode, s, es + more) == Play(mode, Play(mode, s, es), more)
    ensures Admitted(mode, s, es) && Admitted(mode, Play(mode, s, es), more) ==> Admitted(mode, s, es + more)
  {
    PlayAppends(mode, s, es, more);
    if Admitted(mode, s, es) && Admitted(mode, Play(mode, s, es), more) {
      AdmittedAppends(mode, s, es, more);
    }
  }

  // ------------------------------------------------------------------ a pass of the trigger

  lemma DyingSteps(mode: Mode, s: State)
    requires Faulty(mode)
    ensures Next(mode, s, Restart) == s.(discovery := Waiting, queue := Empty)
    ensures s.discovery.Updating? ==> Next(mode, s, UpdateFails) == s.(discovery := Waiting)
  {
  }

  lemma UpdatingSteps(mode: Mode, s: State)
    requires s.discovery.Updating?
    ensures s.ss.None? ==> Next(mode, s, Create) == s.(ss := Some(BLANK))
    ensures s.ss.Some? ==> Next(mode, s, Event.Update) == WithUpdate(s).(discovery := Waiting)
    ensures s.ss.Some? ==> Next(mode, s, UpdateLost) == WithUpdate(s)
  {
  }

  lemma {:induction false} UpdateIsARun(mode: Mode, s: State, replies: seq<Reply>, attempts: nat) returns (es: seq<Event>)
    requires Faulty(mode) && s.discovery.Updating? && s.queue.Empty?
    ensures Admitted(mode, s, es)
    ensures Play(mode, s, es)
         == s.(ss := UpdateRun(s.ss, s.discovery.hash, s.discovery.now, replies, attempts).ss, discovery := Waiting)
    decreases attempts, 1
  {
    DyingSteps(mode, s);
    UpdatingSteps(mode, s);
    if attempts == 0 {
      es := [UpdateFails];
      OneStep(mode, s, UpdateFails);
    } else if replies == [] || (replies[0] == Ok && s.ss.None? && |replies| == 1) {
      es := [Restart];
      OneStep(mode, s, Restart);
    } else if replies[0] != Ok {
      es := UpdateIsARun(mode, s, replies[1..], attempts - 1);
    } else if s.ss.Some? {
      es := SendIsARun(mode, s, replies[1..], attempts);
    } else if replies[1].Fail? {
      es := UpdateIsARun(mode, s, replies[2..], attempts - 1);
    } else {
      var created := s.(ss := Some(BLANK));
      var rest;
      if replies[1].Ok? {
        rest := SendIsARun(mode, created, replies[2..], attempts);
      } else {
        rest := UpdateIsARun(mode, created, replies[2..], attempts - 1);
      }
      es := [Create] + rest;
      StepFirst(mode, s, Create, rest);
    }
  }

  lemma {:induction false} SendIsARun(mode: Mode, s: State, replies: seq<Reply>, attempts: nat) returns (es: seq<Event>)
    requires Faulty(mode) && s.discovery.Updating? && s.queue.Empty? && s.ss.Some? && attempts > 0
    ensures Admitted(mode, s, es)
    ensures Play(mode, s, es)
         == s.(ss := SendUpdate(s.ss.value, s.discovery.hash, s.discovery.now, replies, attempts).ss, discovery := Waiting)
    decreases attempts, 0
  {
    DyingSteps(mode, s);
    UpdatingSteps(mode, s);
    if replies == [] {
      es := [Restart];
      OneStep(mode, s, Restart);
    } else {
      match replies[0]
      case Ok =>
        es := [Event.Update];
        OneStep(mode, s, Event.Update);
      case Fail(_) => es := UpdateIsARun(mode, s, replies[1..], attempts - 1);
      case Lost(_) =>
        var rest := UpdateIsARun(mode, WithUpdate(s), replies[1..], attempts - 1);
        es := [UpdateLost] + rest;
        StepFirst(mode, s, UpdateLost, rest);
    }
  }

  /** Where the pass is after its deletions. */
  function Cleaned(s: State, end: (Fleet, seq<Reply>, Ending<bool>)): State
    requires s.discovery.Cleaning?
  {
    var hash, now := s.discovery.hash, s.discovery.now;
    s.(migrations := end.0,
       discovery := match end.2
                    case CutOff => Waiting
                    case Returned(true) => Cleaning(hash, now, {})
                    case Returned(false) => Updating(hash, now))
  }

  lemma CleanFailsStep(mode: Mode, s: State)
    requires Faulty(mode) && s.discovery.Cleaning?
    ensures Next(mode, s, CleanFails) == s.(discovery := Updating(s.discovery.hash, s.discovery.now))
  {
  }

  lemma {:induction false} CleanIsARun(mode: Mode, s: State, listed: seq<Name>, replies: seq<Reply>) returns (es: seq<Event>)
    requires Faulty(mode) && s.discovery.Cleaning? && s.queue.Empty? && Lists(listed, s.discovery.doomed)
    ensures Admitted(mode, s, es)
    ensures Play(mode, s, es) == Cleaned(s, CleanRun(s.migrations, listed, replies))
    decreases |listed|
  {
    es := [];
    DyingSteps(mode, s);
    if listed == [] {
      assert s.discovery.doomed == {};
    } else if replies == [] {
      es := [Restart];
      OneStep(mode, s, Restart);
    } else if listed[0] !in s.migrations || replies[0].Fail? {
      es := [CleanFails];
      CleanFailsStep(mode, s);
      OneStep(mode, s, CleanFails);
    } else {
      var e := Clean(listed[0]);
      var s1 := Next(mode, s, e);
      CleaningSteps(mode, s, listed[0], GroupVersionResource("", "", ""));
      CleanFailsStep(mode, s1);
      var rest := [CleanFails];
      if replies[0].Ok? {
        assert listed == [listed[0]] + listed[1..];
        rest := CleanIsARun(mode, s1, listed[1..], replies[1..]);
      } else {
        OneStep(mode, s1, CleanFails);
      }
      es := [e] + rest;
      StepFirst(mode, s, e, rest);
    }
  }

  /** Where the pass is after a relaunch. */
  function Relaunched(s: State, end: RelaunchEnd): State
    requires s.discovery.Cleaning?
  {
    s.(migrations := end.fleet, next := end.next,
       discovery := if end.done.CutOff? then Waiting else Updating(s.discovery.hash, s.discovery.now))
  }

  lemma LaunchIsARun(mode: Mode, s: State, r: ApiResource, replies: seq<Reply>) returns (es: seq<Event>)
    requires Faulty(mode) && s.discovery.Cleaning? && s.discovery.doomed == {} && s.queue.Empty?
    ensures Admitted(mode, s, es)
    ensures Play(mode, s, es) == Relaunched(s, LaunchRun(s.migrations, s.next, r, replies))
  {
    var e := if replies == [] then Restart else if replies[0].Fail? then LaunchFails else Event.Launch(ToGroupResource(r));
    es := [e];
    OneStep(mode, s, e);
  }

  lemma RelaunchIsARun(mode: Mode, s: State, listed: seq<Name>, r: ApiResource, replies: seq<Reply>) returns (es: seq<Event>)
    requires Faulty(mode) && s.discovery.Cleaning? && s.queue.Empty? && Lists(listed, s.discovery.doomed)
    ensures Admitted(mode, s, es)
    ensures Play(mode, s, es) == Relaunched(s, RelaunchRun(s.migrations, s.next, listed, r, replies))
  {
    es := CleanIsARun(mode, s, listed, replies);
    var end := CleanRun(s.migrations, listed, replies);
    if end.2 == Returned(true) {
      var launch := LaunchIsARun(mode, Cleaned(s, end), r, end.1);
      GoOn(mode, s, es, launch);
      es := es + launch;
    }
  }

  /** Where the cluster is after a pass. */
  function PassedBy(s: State, end: PassEnd): State {
    s.(ss := end.ss, migrations := end.fleet, next := end.next, discovery := Waiting)
  }

  lemma FinishIsARun(mode: Mode, s: State, listed: seq<Name>, r: ApiResource, relaunch: bool, replies: seq<Reply>)
    returns (es: seq<Event>)
    requires Faulty(mode) && s.queue.Empty? && Lists(listed, set n | n in listed)
    requires if relaunch then s.discovery.Selecting? else s.discovery.Updating?
    requires s.discovery.hash == r.hash
    ensures Admitted(mode, s, es)
    ensures Play(mode, s, es)
         == PassedBy(s, FinishRun(s.ss, s.migrations, s.next, listed, r, s.discovery.now, relaunch, replies))
  {
    if relaunch {
      var doomed := set n | n in listed;
      var s1 := Next(mode, s, List(doomed));
      var relaunched := RelaunchIsARun(mode, s1, listed, r, replies);
      es := [List(doomed)] + relaunched;
      StepFirst(mode, s, List(doomed), relaunched);
      var end := RelaunchRun(s.migrations, s.next, listed, r, replies);
      if !end.done.CutOff? {
        var update := UpdateIsARun(mode, Relaunched(s1, end), end.rest, UPDATE_ATTEMPTS);
        GoOn(mode, s, es, update);
        es := es + update;
      }
    } else {
      es := UpdateIsARun(mode, s, replies, UPDATE_ATTEMPTS);
    }
  }

  /** Where the pass is after its first calls. */
  function Opened(s: State, pending: bool, end: OpenEnd): State
    requires s.discovery.Reading?
  {
    var hash, now := s.discovery.hash, s.discovery.now;
    s.(ss := end.ss,
       discovery := if end.goesOn != Returned(true) then Waiting
                    else if MustRelaunch(s.ss, pending, hash, now) then Selecting(hash, now)
                    else Updating(hash, now))
  }

  lemma ReadingSteps(mode: Mode, s: State, pending: bool)
    requires s.discovery.Reading?
    ensures Next(mode, s, Get(pending)) == Decide(s, pending)
    ensures Faulty(mode) ==> Next(mode, s, GetFails) == s.(discovery := Waiting)
  {
  }

  lemma DroppingSteps(mode: Mode, s: State)
    requires s.discovery.Dropping?
    ensures Next(mode, s, Event.Drop) == s.(ss := None, discovery := Selecting(s.discovery.hash, s.discovery.now))
    ensures Faulty(mode) ==> Next(mode, s, DropFails(true)) == s.(ss := None, discovery := Waiting)
    ensures Faulty(mode) ==> Next(mode, s, DropFails(false)) == s.(discovery := Waiting)
  {
  }

  lemma OpenIsARun(mode: Mode, s: State, pending: bool, replies: seq<Reply>) returns (es: seq<Event>)
    requires Faulty(mode) && s.discovery.Reading? && s.queue.Empty?
    ensures Admitted(mode, s, es)
    ensures Play(mode, s, es) == Opened(s, pending, OpenRun(s.ss, s.discovery.now, replies))
  {
    DyingSteps(mode, s);
    ReadingSteps(mode, s, pending);
    if replies == [] || replies[0] != Ok {
      var e := if replies == [] then Restart else GetFails;
      es := [e];
      OneStep(mode, s, e);
    } else {
      var s1 := Next(mode, s, Get(pending));
      es := [Get(pending)];
      OneStep(mode, s, Get(pending));
      if s1.discovery.Dropping? {
        DyingSteps(mode, s1);
        DroppingSteps(mode, s1);
        var e := if |replies| == 1 then Restart else if replies[1].Ok? then Event.Drop else DropFails(replies[1].Lost?);
        es := [Get(pending), e];
        StepFirst(mode, s, Get(pending), [e]);
        OneStep(mode, s1, e);
        assert [Get(pending)] + [e] == es;
      }
    }
  }

  /** Whatever faults it meets, wherever it is cut off, and whatever its cache shows: a pass of
      processDiscoveryResource is one of the runs of the cluster. */
  lemma PassIsARun(mode: Mode, s: State, cache: Fleet, listed: seq<Name>, r: ApiResource, now: nat, replies: seq<Reply>)
    returns (es: seq<Event>)
    requires Faulty(mode) && s.discovery.Waiting? && s.queue.Empty? && r.hash != ""
    requires Lists(listed, Shown(cache, r))
    ensures Admitted(mode, s, es)
    ensures Play(mode, s, es)
         == PassedBy(s, PassRun(s.ss, s.migrations, s.next, cache, listed, r, now, replies)).(w := s.w.SwitchTo(r.hash))
  {
    var pending := HasPendingOrRunning(cache, r);
    var e := Discover(r.hash, now);
    var s1 := Next(mode, s, e);
    var open := OpenIsARun(mode, s1, pending, replies);
    es := [e] + open;
    StepFirst(mode, s, e, open);
    var end := OpenRun(s.ss, now, replies);
    if end.goesOn == Returned(true) {
      var s2 := Opened(s1, pending, end);
      assert Lists(listed, set n | n in listed);
      var finish := FinishIsARun(mode, s2, listed, r, s2.discovery.Selecting?, end.rest);
      GoOn(mode, s, es, finish);
      es := es + finish;
    }
  }

  // ------------------------------------------------------------------ a pass without faults

  lemma CleaningSteps(mode: Mode, s: State, n: Name, r: GroupVersionResource)
    requires s.discovery.Cleaning?
    ensures n in s.discovery.doomed && n in s.migrations ==>
              Next(mode, s, Clean(n))
              == s.(migrations := s.migrations - {n}, discovery := s.discovery.(doomed := s.discovery.doomed - {n}))
    ensures s.discovery.doomed == {} ==>
              Next(mode, s, Event.Launch(r))
              == s.(migrations := s.migrations[s.next := Migration(r, Start, [], 0)], next := s.next + 1,
                    discovery := Updating(s.discovery.hash, s.discovery.now))
  {
  }

  lemma {:induction false} CleanLaunchUpdate(mode: Mode, s: State, r: GroupVersionResource) returns (es: seq<Event>)
    requires s.discovery.Cleaning? && s.discovery.doomed == s.migrations.Keys
    ensures Play(mode, s, es)
         == s.(migrations := map[s.next := Migration(r, Start, [], 0)], next := s.next + 1,
               ss := Some(UpdateOnce(s.ss, s.discovery.hash, s.discovery.now)), discovery := Waiting)
    decreases |s.discovery.doomed|
  {
    if s.discovery.doomed == {} {
      var s1 := Next(mode, s, Event.Launch(r));
      CleaningSteps(mode, s, 0, r);
      assert s1.migrations == map[s.next := Migration(r, Start, [], 0)];
      var update := CalmUpdateIsARun(mode, s1);
      es := [Event.Launch(r)] + update;
      StepFirst(mode, s, Event.Launch(r), update);
    } else {
      var n :| n in s.discovery.doomed;
      var s1 := Next(mode, s, Clean(n));
      CleaningSteps(mode, s, n, r);
      assert s1.migrations.Keys == s.migrations.Keys - {n};
      var rest := CleanLaunchUpdate(mode, s1, r);
      es := [Clean(n)] + rest;
      StepFirst(mode, s, Clean(n), rest);
    }
  }

  lemma CalmUpdateIsARun(mode: Mode, s: State) returns (es: seq<Event>)
    requires s.discovery.Updating?
    ensures Play(mode, s, es) == WithUpdate(s).(discovery := Waiting)
  {
    UpdatingSteps(mode, s);
    if s.ss.Some? {
      es := [Event.Update];
      OneStep(mode, s, Event.Update);
    } else {
      var s1 := s.(ss := Some(BLANK));
      UpdatingSteps(mode, s1);
      OneStep(mode, s1, Event.Update);
      UpdateTwice(None, s.discovery.hash, s.discovery.now);
      es := [Create] + [Event.Update];
      StepFirst(mode, s, Create, [Event.Update]);
    }
  }

  lemma CalmOpenIsARun(mode: Mode, s: State, pending: bool) returns (es: seq<Event>)
    requires s.discovery.Reading?
    ensures Play(mode, s, es)
         == Opened(s, pending, OpenEnd(if IsStale(s.ss, s.discovery.now) then None else s.ss, [], Returned(true)))
  {
    ReadingSteps(mode, s, pending);
    var s1 := Next(mode, s, Get(pending));
    es := [Get(pending)];
    OneStep(mode, s, Get(pending));
    if s1.discovery.Dropping? {
      DroppingSteps(mode, s1);
      es := [Get(pending)] + [Event.Drop];
      StepFirst(mode, s, Get(pending), [Event.Drop]);
      OneStep(mode, s1, Event.Drop);
    }
  }

  /** A pass without faults and with an up-to-date cache is a run in every mode, even where
      nothing can fail, and leaves the very migrations and state that the handler leaves. */
  lemma PassAsTheHandlerDoes(mode: Mode, s: State, r: ApiResource, now: nat) returns (es: seq<Event>)
    requires s.discovery.Waiting? && (mode.serial ==> s.queue.Empty?) && r.hash != ""
    requires forall n :: n in s.migrations ==> Concerns(s.migrations[n], r)
    ensures Play(mode, s, es)
         == s.(w := s.w.SwitchTo(r.hash),
               migrations := FleetAfter(s.ss, s.migrations, s.next, r, now),
               next := if MustRelaunch(s.ss, HasPendingOrRunning(s.migrations, r), r.hash, now) then s.next + 1 else s.next,
               ss := Some(Passed(s.ss, r.hash, now)))
  {
    var pending := HasPendingOrRunning(s.migrations, r);
    var e := Discover(r.hash, now);
    var s1 := Next(mode, s, e);
    var open := CalmOpenIsARun(mode, s1, pending);
    es := [e] + open;
    StepFirst(mode, s, e, open);
    var s2 := Play(mode, s1, open);
    var rest;
    if s2.discovery.Selecting? {
      var s3 := Next(mode, s2, List(s2.migrations.Keys));
      var clean := CleanLaunchUpdate(mode, s3, ToGroupResource(r));
      rest := [List(s2.migrations.Keys)] + clean;
      StepFirst(mode, s2, List(s2.migrations.Keys), clean);
      assert Without(s.migrations, r) == map[];
    } else {
      rest := CalmUpdateIsARun(mode, s2);
    }
    PlayAppends(mode, s, es, rest);
    es := es + rest;
  }

  // ------------------------------------------------------------------ marking a success

  lemma MarkSteps(mode: Mode, s: State)
    requires s.queue.Holding?
    ensures Next(mode, s, Event.Mark) == Collapsed(s).(queue := Empty)
    ensures Next(mode, s, MarkLost) == Collapsed(s)
    ensures Next(mode, s, MarkFails) == s.(queue := Empty)
  {
  }

  /** Whatever faults it meets, markStorageStateSucceeded is one of the runs in any mode. */
  lemma {:induction false} MarkIsARun(mode: Mode, s: State, replies: seq<Reply>, attempts: nat) returns (es: seq<Event>)
    requires s.queue.Holding?
    ensures s.discovery.Waiting? ==> Admitted(mode, s, es)
    ensures Play(mode, s, es) == s.(ss := MarkRun(s.ss, replies, attempts).ss, queue := Empty)
    decreases attempts
  {
    MarkSteps(mode, s);
    if attempts == 0 || replies == [] {
      es := [MarkFails];
      OneStep(mode, s, MarkFails);
    } else if replies[0] != Ok {
      es := MarkIsARun(mode, s, replies[1..], attempts - 1);
    } else if s.ss.None? {
      es := [Event.Mark];
      OneStep(mode, s, Event.Mark);
    } else if |replies| == 1 {
      es := [MarkFails];
      OneStep(mode, s, MarkFails);
    } else {
      match replies[1]
      case Ok =>
        es := [Event.Mark];
        OneStep(mode, s, Event.Mark);
      case Fail(_) => es := MarkIsARun(mode, s, replies[2..], attempts - 1);
      case Lost(_) =>
        var rest := MarkIsARun(mode, Collapsed(s), replies[2..], attempts - 1);
        es := [MarkLost] + rest;
        StepFirst(mode, s, MarkLost, rest);
    }
  }

  // ------------------------------------------------------------------ a call of the controller

  /** The others leave the migration object alone. */
  ghost predicate NoVisits(moves: seq<Move>) {
    forall i :: 0 <= i < |moves| ==> moves[i].visits == []
  }

  /** Where the cluster is after a status update, ready to go on with what it was made for. */
  function PostedBy(s: State, end: StatusEnd): State
    requires s.controller.Posting?
  {
    var n := s.controller.name;
    s.(w := end.w,
       migrations := Assign(s.migrations, n, end.stored),
       controller := if end.result.Updated? && s.controller.goal.Begin? then Working(n, end.m, Loading) else Resting)
  }

  function StatusRunOf(s: State, moves: seq<Move>): StatusEnd
    requires s.controller.Posting?
  {
    var c := s.controller;
    StatusRun(s.w, Lookup(s.migrations, c.name), c.m, GoalType(c.goal), GoalMessage(c.goal), moves, c.attempts)
  }

  lemma {:induction false} PostingIsARun(mode: Mode, s: State, moves: seq<Move>) returns (es: seq<Event>)
    requires s.controller.Posting? && !s.controller.refresh && s.controller.attempts > 0 && NoVisits(moves)
    ensures Play(mode, s, es) == PostedBy(s, StatusRunOf(s, moves))
    decreases |moves|
  {
    assert Assign(s.migrations, s.controller.name, Lookup(s.migrations, s.controller.name)) == s.migrations;
    if moves == [] {
      es := [Crash];
      OneStep(mode, s, Crash);
    } else {
      var s1 := Next(mode, s, Proceed(moves[0]));
      if !s1.controller.Posting? {
        es := [Proceed(moves[0])];
        OneStep(mode, s, Proceed(moves[0]));
      } else {
        var rest := RefreshIsARun(mode, s1, moves[1..]);
        es := [Proceed(moves[0])] + rest;
        StepFirst(mode, s, Proceed(moves[0]), rest);
        PostingGoesOn(mode, s, moves);
      }
    }
  }

  /** After a failed attempt. */
  function RefreshRunOf(s: State, moves: seq<Move>): StatusEnd
    requires s.controller.Posting? && s.controller.attempts > 0
  {
    var c := s.controller;
    var stored := Lookup(s.migrations, c.name);
    if moves == [] then StatusEnd(s.w, stored, c.m, [], Died)
    else
      var w := s.w.ApplyAll(moves[0].turn.others);
      var m := Refreshed(c.m, GetMigration(stored, moves[0].turn.reply));
      StatusRun(w, stored, m, GoalType(c.goal), GoalMessage(c.goal), moves[1..], c.attempts - 1)
  }

  /** What a failed attempt leaves. */
  lemma PostStep(mode: Mode, s: State, move: Move)
    requires s.controller.Posting? && !s.controller.refresh && s.controller.attempts > 0 && move.visits == []
    requires Next(mode, s, Proceed(move)).controller.Posting?
    ensures var n, c := s.controller.name, s.controller;
            var s1 := Next(mode, s, Proceed(move));
            var m1 := Marked(c.m, GoalType(c.goal), GoalMessage(c.goal), move.now);
            && s1.controller == Posting(n, m1, c.goal, c.attempts, true)
            && SendError(Lookup(s.migrations, n), m1, move) != None
            && Lookup(s1.migrations, n) == Sent(Lookup(s.migrations, n), m1, move)
            && (forall m :: Assign(s1.migrations, n, m) == Assign(s.migrations, n, m))
            && s1 == s.(w := s.w.ApplyAll(move.turn.others), migrations := s1.migrations, controller := s1.controller)
  {
  }

  lemma PostingGoesOn(mode: Mode, s: State, moves: seq<Move>)
    requires s.controller.Posting? && !s.controller.refresh && s.controller.attempts > 0 && NoVisits(moves) && moves != []
    requires Next(mode, s, Proceed(moves[0])).controller.Posting?
    ensures var s1 := Next(mode, s, Proceed(moves[0]));
            && s1.controller.refresh && s1.controller.attempts == s.controller.attempts
            && PostedBy(s1, RefreshRunOf(s1, moves[1..])) == PostedBy(s, StatusRunOf(s, moves))
  {
    PostStep(mode, s, moves[0]);
    var s1 := Next(mode, s, Proceed(moves[0]));
    StatusGoesOn(s, s1, moves);
  }

  lemma StatusGoesOn(s: State, s1: State, moves: seq<Move>)
    requires s.controller.Posting? && s.controller.attempts > 0 && NoVisits(moves) && moves != []
    requires var n, c := s.controller.name, s.controller;
             var m1 := Marked(c.m, GoalType(c.goal), GoalMessage(c.goal), moves[0].now);
             && s1.controller == Posting(n, m1, c.goal, c.attempts, true)
             && SendError(Lookup(s.migrations, n), m1, moves[0]) != None
             && Lookup(s1.migrations, n) == Sent(Lookup(s.migrations, n), m1, moves[0])
             && s1.w == s.w.ApplyAll(moves[0].turn.others)
    ensures RefreshRunOf(s1, moves[1..]) == StatusRunOf(s, moves)
  {
    if |moves| > 1 {
      assert moves[1..][0] == moves[1] && moves[1..][1..] == moves[2..];
      assert moves[1].visits == [];
    }
  }

  lemma RefreshStep(mode: Mode, s: State, move: Move)
    requires s.controller.Posting? && s.controller.refresh && s.controller.attempts > 0
    ensures var c := s.controller;
            var m := Refreshed(c.m, GetMigration(Lookup(s.migrations, c.name), move.turn.reply));
            Next(mode, s, Proceed(move))
            == s.(w := s.w.ApplyAll(move.turn.others),
                  controller := if c.attempts <= 1 then Resting else Posting(c.name, m, c.goal, c.attempts - 1, false))
  {
  }

  lemma RefreshGoesOn(s: State, moves: seq<Move>)
    requires s.controller.Posting? && s.controller.refresh && s.controller.attempts > 0 && moves != []
    ensures var c := s.controller;
            var m := Refreshed(c.m, GetMigration(Lookup(s.migrations, c.name), moves[0].turn.reply));
            var w := s.w.ApplyAll(moves[0].turn.others);
            var s1 := s.(w := w, controller := Posting(c.name, m, c.goal, c.attempts - 1, false));
            && PostedBy(s1, StatusRunOf(s1, moves[1..])) == PostedBy(s, RefreshRunOf(s, moves))
            && (c.attempts == 1 ==> PostedBy(s, RefreshRunOf(s, moves)) == s.(w := w, controller := Resting))
  {
    assert Assign(s.migrations, s.controller.name, Lookup(s.migrations, s.controller.name)) == s.migrations;
  }

  lemma {:induction false} RefreshIsARun(mode: Mode, s: State, moves: seq<Move>) returns (es: seq<Event>)
    requires s.controller.Posting? && s.controller.refresh && s.controller.attempts > 0 && NoVisits(moves)
    ensures Play(mode, s, es) == PostedBy(s, RefreshRunOf(s, moves))
    decreases |moves|
  {
    if moves == [] {
      assert Assign(s.migrations, s.controller.name, Lookup(s.migrations, s.controller.name)) == s.migrations;
      es := [Crash];
      OneStep(mode, s, Crash);
    } else {
      RefreshStep(mode, s, moves[0]);
      RefreshGoesOn(s, moves);
      var e, s1 := Proceed(moves[0]), Next(mode, s, Proceed(moves[0]));
      if s.controller.attempts == 1 {
        es := [e];
        OneStep(mode, s, e);
      } else {
        var rest := PostingIsARun(mode, s1, moves[1..]);
        es := [e] + rest;
        StepFirst(mode, s, e, rest);
      }
    }
  }

  /** Where the cluster is after a run: dead, or about to record the verdict. */
  function RanBy(s: State, end: RunEnd): State
    requires s.controller.Working?
  {
    var n := s.controller.name;
    s.(w := end.s.w,
       migrations := Assign(s.migrations, n, end.s.ticket),
       controller := if end.s.phase.Finished? then Posting(n, s.controller.m, End(end.s.phase.err), STATUS_ATTEMPTS, false)
                     else Resting)
  }

  function ExecOf(s: State, moves: seq<Move>): RunEnd
    requires s.controller.Working?
  {
    Exec(System(s.w, Lookup(s.migrations, s.controller.name), s.controller.phase), moves, DEFAULT_CONCURRENCY)
  }

  /** One step of the run, and what it leaves for the others. */
  lemma WorkStep(mode: Mode, s: State, move: Move)
    requires s.controller.Working? && !s.controller.phase.Finished? && move.visits == []
    ensures var n := s.controller.name;
            var sys := Step(System(s.w, Lookup(s.migrations, n), s.controller.phase), move, DEFAULT_CONCURRENCY);
            var s1 := Next(mode, s, Proceed(move));
            && Lookup(s1.migrations, n) == sys.ticket
            && (forall m :: Assign(s1.migrations, n, m) == Assign(s.migrations, n, m))
            && s1 == if sys.phase.Finished? then RanBy(s, RunEnd(sys, []))
                     else s.(w := sys.w, migrations := Assign(s.migrations, n, sys.ticket),
                             controller := Working(n, s.controller.m, sys.phase))
  {
    assert move.(visits := []) == move;
    assert Next(mode, s, Proceed(move)) == Worked(s, move);
  }

  lemma {:induction false} ExecIsARun(mode: Mode, s: State, moves: seq<Move>) returns (es: seq<Event>)
    requires s.controller.Working? && !s.controller.phase.Finished? && NoVisits(moves)
    ensures Play(mode, s, es) == RanBy(s, ExecOf(s, moves))
    decreases |moves|
  {
    var n := s.controller.name;
    if moves == [] {
      assert Assign(s.migrations, n, Lookup(s.migrations, n)) == s.migrations;
      es := [Crash];
      OneStep(mode, s, Crash);
    } else {
      var sys := Step(System(s.w, Lookup(s.migrations, n), s.controller.phase), moves[0], DEFAULT_CONCURRENCY);
      var s1 := Next(mode, s, Proceed(moves[0]));
      WorkStep(mode, s, moves[0]);
      if sys.phase.Finished? {
        assert Exec(sys, moves[1..], DEFAULT_CONCURRENCY) == RunEnd(sys, moves[1..]);
        assert ExecOf(s, moves) == RunEnd(sys, moves[1..]);
        es := [Proceed(moves[0])];
        OneStep(mode, s, Proceed(moves[0]));
      } else {
        var rest := ExecIsARun(mode, s1, moves[1..]);
        assert ExecOf(s, moves) == ExecOf(s1, moves[1..]);
        es := [Proceed(moves[0])] + rest;
        StepFirst(mode, s, Proceed(moves[0]), rest);
      }
    }
  }

  lemma WriteStep(mode: Mode, s: State, x: ApiServer.Write)
    ensures Next(mode, s, Event.Write(x)) == s.(w := s.w.Apply(x))
  {
  }

  lemma {:induction false} WritesAreARun(mode: Mode, s: State, xs: seq<ApiServer.Write>) returns (es: seq<Event>)
    ensures Play(mode, s, es) == s.(w := s.w.ApplyAll(xs))
    decreases |xs|
  {
    if xs == [] {
      es := [];
      assert s.(w := s.w) == s;
    } else {
      var s1 := s.(w := s.w.Apply(xs[0]));
      var rest := WritesAreARun(mode, s1, xs[1..]);
      WriteStep(mode, s, xs[0]);
      StepFirst(mode, s, Event.Write(xs[0]), rest);
      es := [Event.Write(xs[0])] + rest;
    }
  }

  lemma {:induction false} ExecKeepsNoVisits(s: System, moves: seq<Move>, concurrency: nat)
    requires NoVisits(moves)
    ensures NoVisits(Exec(s, moves, concurrency).rest)
    decreases |moves|
  {
    if !s.phase.Finished? && moves != [] {
      ExecKeepsNoVisits(Step(s, moves[0], concurrency), moves[1..], concurrency);
    }
  }

  lemma {:induction false} StatusKeepsNoVisits(w: World, stored: Option<Migration>, m: Migration, t: ConditionType,
                                               message: string, moves: seq<Move>, attempts: nat)
    requires NoVisits(moves)
    ensures NoVisits(StatusRun(w, stored, m, t, message, moves, attempts).rest)
    decreases attempts
  {
    if attempts > 0 && |moves| > 1 {
      var m1 := Marked(m, t, message, moves[0].now);
      var (stored2, m2) := Refresh(Sent(stored, m1, moves[0]), m1, moves[1]);
      var w2 := w.ApplyAll(moves[0].turn.others).ApplyAll(moves[1].turn.others);
      StatusKeepsNoVisits(w2, stored2, m2, t, message, moves[2..], attempts - 1);
    }
  }

  /** Where the cluster is after a call of processOne. */
  function CalledBy(s: State, n: Name, end: ProcessEnd): State {
    s.(w := end.w, migrations := Assign(s.migrations, n, end.stored), controller := Resting)
  }

  lemma StartedIsARun(mode: Mode, s: State, n: Name, begun: StatusEnd) returns (es: seq<Event>)
    requires begun.result.Updated? && s.controller == Working(n, begun.m, Loading) && s.w == begun.w
    requires Lookup(s.migrations, n) == begun.stored && NoVisits(begun.rest)
    ensures Play(mode, s, es) == CalledBy(s, n, Started(begun, DEFAULT_CONCURRENCY))
  {
    es := ExecIsARun(mode, s, begun.rest);
    var run := ExecOf(s, begun.rest);
    var s1 := RanBy(s, run);
    if run.s.phase.Finished? {
      ExecKeepsNoVisits(System(s.w, begun.stored, Loading), begun.rest, DEFAULT_CONCURRENCY);
      assert Lookup(s1.migrations, n) == run.s.ticket;
      var post := PostingIsARun(mode, s1, run.rest);
      PlayAppends(mode, s, es, post);
      es := es + post;
      var end := StatusRunOf(s1, run.rest);
      assert Assign(s1.migrations, n, end.stored) == Assign(s.migrations, n, end.stored);
    }
  }

  /** Whatever faults it meets and wherever it is cut off: a call of processOne is one of the
      runs of the cluster, in any mode of the trigger. */
  lemma CallIsARun(mode: Mode, s: State, n: Name, moves: seq<Move>) returns (es: seq<Event>)
    requires s.controller.Resting? && n in s.migrations && NoVisits(moves)
    ensures Play(mode, s, es) == CalledBy(s, n, ProcessOne(s.w, Some(s.migrations[n]), moves, DEFAULT_CONCURRENCY))
  {
    var m := s.migrations[n];
    assert Assign(s.migrations, n, Some(m)) == s.migrations;
    es := [];
    if moves != [] {
      es := WritesAreARun(mode, s, moves[0].turn.others);
      if moves[0].turn.reply.Ok? && Incomplete(m) {
        var s1 := s.(w := s.w.ApplyAll(moves[0].turn.others));
        var call := PickedIsARun(mode, s1, n, moves[1..]);
        PlayAppends(mode, s, es, call);
        es := es + call;
      }
    }
  }

  lemma PickedIsARun(mode: Mode, s: State, n: Name, moves: seq<Move>) returns (es: seq<Event>)
    requires s.controller.Resting? && n in s.migrations && Incomplete(s.migrations[n]) && NoVisits(moves)
    ensures Play(mode, s, es)
         == CalledBy(s, n, Started(StatusRun(s.w, Some(s.migrations[n]), s.migrations[n], Running, "", moves, STATUS_ATTEMPTS),
                                   DEFAULT_CONCURRENCY))
  {
    var m := s.migrations[n];
    var s1 := Next(mode, s, Pick(n));
    var post := PostingIsARun(mode, s1, moves);
    es := [Pick(n)] + post;
    StepFirst(mode, s, Pick(n), post);
    var begun := StatusRunOf(s1, moves);
    if begun.result.Updated? {
      StatusKeepsNoVisits(s.w, Some(m), m, Running, "", moves, STATUS_ATTEMPTS);
      var s2 := PostedBy(s1, begun);
      var run := StartedIsARun(mode, s2, n, begun);
      PlayAppends(mode, s, es, run);
      es := es + run;
      var end := Started(begun, DEFAULT_CONCURRENCY);
      assert Assign(s2.migrations, n, end.stored) == Assign(s.migrations, n, end.stored);
    }
  }
}
