/** Each thing that the trigger relies on is needed: without it, some run ends in a state in
    which the persisted hashes or a succeeded migration do not tell the truth. */
module TrustIsNeeded {
  import opened Wrappers
  import opened ApiServer
  import opened ItemMigration
  import opened WorkerPool
  import opened Migrations
  import opened Runner
  import opened Lifecycle
  import opened StorageStates
  import opened EndToEnd

  const RESOURCE := GroupVersionResource("", "v1", "pods")

  const EMPTY_WORLD := World([], map[], "h1", 0)

  function Do(a: Actor): Event {
    Proceed(Move(Turn([], Ok), [], Serve(0), a, 0))
  }

  /** Some run of a cluster that began with an empty store ends in this state. */
  ghost predicate Reachable(mode: Mode, s: State) {
    exists es :: Reaches(mode, es, s)
  }

  ghost predicate Reaches(mode: Mode, es: seq<Event>, s: State) {
    Play(mode, Installed(EMPTY_WORLD), es) == s
  }

  /** One more step. */
  lemma Then(mode: Mode, s: State, e: Event, s': State)
    requires Reachable(mode, s) && Next(mode, s, e) == s'
    ensures Reachable(mode, s')
  {
    var es :| Reaches(mode, es, s);
    PlayAppends(mode, Installed(EMPTY_WORLD), es, [e]);
    assert Play(mode, s, [e]) == Play(mode, Next(mode, s, e), []);
    assert Reaches(mode, es + [e], s');
  }

  // ------------------------------------------------------------------ a first migration, of an empty store

  const PENDING := Migration(RESOURCE, Start, [], 0)

  /** The object that the controller holds once it has marked the migration as running. */
  const HELD := Lifecycle.Marked(PENDING, Running, "", 0)

  const PICKED := HELD.(rv := 1)

  const SUCCEEDED := Lifecycle.Marked(PICKED, Succeeded, "", 0).(rv := 2)

  lemma SucceededSucceeded()
    ensures HasCondition(SUCCEEDED, Succeeded)
    ensures Incomplete(PENDING)
  {
    assert SUCCEEDED.conditions[|SUCCEEDED.conditions| - 1] == Condition(Succeeded, True, 0, "");
  }

  function At(s: State, phase: Phase): State {
    s.(controller := Working(0, HELD, phase))
  }

  function NoWork(workers: seq<Worker>, workClosed: bool, waitGroup: int, errClosed: bool): Pool {
    Pool([], 0, workClosed, workers, waitGroup, errClosed, [], [], false, false)
  }

  predicate Ready(s: State) {
    0 in s.migrations && s.migrations[0].token == Start && s.w == EMPTY_WORLD
  }

  lemma PoolMoves(mode: Mode, s: State, p: Pool, a: Actor)
    requires Ready(s) && Enabled(p, a) && !a.Call? && !Internal(p, a).returned
    ensures Next(mode, At(s, Migrating(p, Start)), Do(a)) == At(s, Migrating(Internal(p, a), Start))
  {
    assert s.migrations[0 := s.migrations[0]] == s.migrations;
  }

  lemma RunBegins(mode: Mode, s: State)
    requires Ready(s)
    ensures Next(mode, At(s, Loading), Do(Return)) == At(s, Listing(Start))
    ensures Next(mode, At(s, Listing(Start)), Do(Return)) == At(s, Migrating(NoWork([Worker.Idle], false, 1, false), Start))
  {
    assert s.migrations[0 := s.migrations[0]] == s.migrations;
    EmptyPage();
  }

  lemma RunReturns(mode: Mode, s: State)
    requires Ready(s)
    ensures Next(mode, At(s, Migrating(NoWork([Exited], true, 0, true), Start)), Do(Return))
         == s.(controller := Posting(0, HELD, End(None), STATUS_ATTEMPTS, false))
  {
    assert s.migrations[0 := s.migrations[0]] == s.migrations;
  }

  lemma EmptyPage()
    ensures ServePage(EMPTY_WORLD, Start, CHUNK_LIMIT, 0) == Page([], Start)
    ensures WorkerPool.Launch([], DEFAULT_CONCURRENCY) == NoWork([Worker.Idle], false, 1, false)
  {
    assert Remaining(EMPTY_WORLD, Start) == {};
  }

  /** A run over an empty store: load, list, and the pool closes down. */
  lemma EmptyRun(mode: Mode, s: State)
    requires Ready(s) && Reachable(mode, At(s, Loading))
    ensures Reachable(mode, s.(controller := Posting(0, HELD, End(None), STATUS_ATTEMPTS, false)))
  {
    var pool0 := NoWork([Worker.Idle], false, 1, false);
    var pool1 := NoWork([Worker.Idle], true, 1, false);
    var pool2 := NoWork([Exited], true, 0, false);
    var pool3 := NoWork([Exited], true, 0, true);
    RunBegins(mode, s);
    Then(mode, At(s, Loading), Do(Return), At(s, Listing(Start)));
    Then(mode, At(s, Listing(Start)), Do(Return), At(s, Migrating(pool0, Start)));
    PoolMoves(mode, s, pool0, CloseWork);
    Then(mode, At(s, Migrating(pool0, Start)), Do(CloseWork), At(s, Migrating(pool1, Start)));
    PoolMoves(mode, s, pool1, Exit(0));
    assert [Worker.Idle][0 := Exited] == [Exited];
    Then(mode, At(s, Migrating(pool1, Start)), Do(Exit(0)), At(s, Migrating(pool2, Start)));
    PoolMoves(mode, s, pool2, CloseErr);
    Then(mode, At(s, Migrating(pool2, Start)), Do(CloseErr), At(s, Migrating(pool3, Start)));
    RunReturns(mode, s);
    Then(mode, At(s, Migrating(pool3, Start)), Do(Return),
         s.(controller := Posting(0, HELD, End(None), STATUS_ATTEMPTS, false)));
  }

  function AtRest(w: World, migrations: map<Name, Migration>, next: Name, ss: StorageState): State {
    State(w, migrations, next, Some(ss), Waiting, Empty, Resting)
  }

  const SELECTING_FIRST := Installed(EMPTY_WORLD).(discovery := Selecting("h1", 0))

  lemma FirstReading(mode: Mode)
    ensures Reachable(mode, SELECTING_FIRST)
  {
    var s := Installed(EMPTY_WORLD);
    assert Reaches(mode, [], s);
    Then(mode, s, Discover("h1", 0), s.(discovery := Reading("h1", 0)));
    Then(mode, s.(discovery := Reading("h1", 0)), Get(false), SELECTING_FIRST);
  }

  const UPDATING_FIRST :=
    State(EMPTY_WORLD, map[0 := PENDING], 1, None, Updating("h1", 0), Empty, Resting)

  lemma FirstLaunch(mode: Mode)
    ensures Reachable(mode, UPDATING_FIRST)
  {
    FirstReading(mode);
    var s := SELECTING_FIRST.(discovery := Cleaning("h1", 0, {}));
    Then(mode, SELECTING_FIRST, List({}), s);
    Then(mode, s, Event.Launch(RESOURCE), UPDATING_FIRST);
  }

  /** The first pass finds the version h1 and launches a migration. */
  const FIRST_PASS := AtRest(EMPTY_WORLD, map[0 := PENDING], 1, StorageState("h1", [UNKNOWN], 0))

  lemma FirstPass(mode: Mode)
    ensures Reachable(mode, FIRST_PASS)
  {
    FirstLaunch(mode);
    var s := UPDATING_FIRST.(ss := Some(BLANK));
    Then(mode, UPDATING_FIRST, Create, s);
    Then(mode, s, Event.Update, FIRST_PASS);
  }

  lemma FirstPick(mode: Mode)
    ensures Reachable(mode, At(FIRST_PASS.(migrations := map[0 := PICKED]), Loading))
  {
    FirstPass(mode);
    SucceededSucceeded();
    var posting := FIRST_PASS.(controller := Posting(0, PENDING, Begin, STATUS_ATTEMPTS, false));
    Then(mode, FIRST_PASS, Pick(0), posting);
    assert posting.migrations[0 := PICKED] == map[0 := PICKED];
    Then(mode, posting, Do(Return), At(FIRST_PASS.(migrations := map[0 := PICKED]), Loading));
  }

  /** The store is empty and its migration has succeeded. */
  const FIRST_SUCCESS := FIRST_PASS.(migrations := map[0 := SUCCEEDED])

  /** The controller's object is outdated by its own first update: it meets a conflict,
      refreshes, and records the success by its second attempt. */
  lemma FirstSuccess(mode: Mode)
    ensures Reachable(mode, FIRST_SUCCESS)
  {
    var picked := FIRST_PASS.(migrations := map[0 := PICKED]);
    FirstPick(mode);
    EmptyRun(mode, picked);
    var m1 := Lifecycle.Marked(HELD, Succeeded, "", 0);
    var posting := picked.(controller := Posting(0, HELD, End(None), STATUS_ATTEMPTS, false));
    var refused := picked.(controller := Posting(0, m1, End(None), STATUS_ATTEMPTS, true));
    var again := picked.(controller := Posting(0, PICKED, End(None), STATUS_ATTEMPTS - 1, false));
    assert picked.migrations[0 := PICKED] == picked.migrations;
    Then(mode, posting, Do(Return), refused);
    Then(mode, refused, Do(Return), again);
    assert picked.migrations[0 := SUCCEEDED] == map[0 := SUCCEEDED];
    Then(mode, again, Do(Return), FIRST_SUCCESS);
  }

  /** The success of the first migration, marked. */
  const FIRST_MARK := FIRST_SUCCESS.(ss := Some(StorageState("h1", ["h1"], 0)))

  /** The management routine has fetched the succeeded migration. */
  const FETCHED := FIRST_SUCCESS.(queue := Holding)

  lemma FirstFetch(mode: Mode)
    ensures Reachable(mode, FETCHED)
  {
    FirstSuccess(mode);
    SucceededSucceeded();
    Then(mode, FIRST_SUCCESS, Fetch(0), FETCHED);
  }

  lemma FirstMark(mode: Mode)
    ensures Reachable(mode, FIRST_MARK)
  {
    FirstFetch(mode);
    Then(mode, FETCHED, Event.Mark, FIRST_MARK);
  }

  // ------------------------------------------------------------------ the second version

  /** An object that was written in version h1, and the switch to version h2. */
  const OLD_STORE: Store := map[0 := Object("x", 1, "h1")]
  const OLD_WORLD := World([map[]], OLD_STORE, "h1", 0)
  const NEW_WORLD := World([map[]], OLD_STORE, "h2", 1)

  lemma WriteOldObject(mode: Mode, s: State)
    requires Reachable(mode, s) && s.w == EMPTY_WORLD
    ensures Reachable(mode, s.(w := OLD_WORLD))
  {
    assert EMPTY_WORLD.now[0 := Object("x", 1, "h1")] == OLD_STORE;
    assert EMPTY_WORLD.Apply(Save(0, "x")) == OLD_WORLD;
    Then(mode, s, Write(Save(0, "x")), s.(w := OLD_WORLD));
  }

  const SECOND_WORLD := World([], map[], "h2", 0)

  /** The state knows version h1 only, but version h2 is active: the next write makes it lie. */
  lemma WriteNewObject(mode: Mode, s: State)
    requires Reachable(mode, s) && s.w == SECOND_WORLD && s.discovery.Waiting?
    requires s.ss.Some? && s.ss.value.persisted == ["h1"]
    ensures exists s' :: Reachable(mode, s') && !Truth(s')
  {
    var s' := s.(w := s.w.Apply(Save(0, "x")));
    Then(mode, s, Write(Save(0, "x")), s');
    assert s'.w.now[0].enc == "h2";
  }

  lemma SecondDiscovery(mode: Mode, s: State, now: nat)
    requires Reachable(mode, s) && s.discovery.Waiting? && (mode.serial ==> s.queue.Empty?)
    ensures Reachable(mode, s.(w := s.w.SwitchTo("h2"), discovery := Reading("h2", now)))
  {
    Then(mode, s, Discover("h2", now), s.(w := s.w.SwitchTo("h2"), discovery := Reading("h2", now)));
  }

  /** The pass decides to relaunch and reads the cache. */
  lemma SecondSelection(mode: Mode, s: State, cached: set<Name>)
    requires Reachable(mode, s) && s.discovery == Reading("h2", 1)
    requires s.ss.Some? && s.ss.value.current == "h1" && s.ss.value.heartbeat == 0
    requires mode.cacheComplete ==> s.migrations.Keys <= cached
    requires cached <= s.migrations.Keys
    ensures Reachable(mode, s.(discovery := Cleaning("h2", 1, cached)))
  {
    Then(mode, s, Get(false), s.(discovery := Selecting("h2", 1)));
    Then(mode, s.(discovery := Selecting("h2", 1)), List(cached), s.(discovery := Cleaning("h2", 1, cached)));
  }

  /** The pass deletes the old migration and launches a new one. */
  lemma CleanAndLaunch(mode: Mode, s: State)
    requires Reachable(mode, s) && s.discovery == Cleaning("h2", 1, {0}) && s.migrations == map[0 := SUCCEEDED] && s.next == 1
    ensures Reachable(mode, s.(migrations := map[1 := PENDING], next := 2, discovery := Updating("h2", 1)))
  {
    var s1 := s.(migrations := map[], discovery := Cleaning("h2", 1, {}));
    assert s.migrations - {0} == map[];
    assert {0} - {0} == {};
    Then(mode, s, Clean(0), s1);
    assert s1.migrations[1 := PENDING] == map[1 := PENDING];
    Then(mode, s1, Event.Launch(RESOURCE), s.(migrations := map[1 := PENDING], next := 2, discovery := Updating("h2", 1)));
  }

  lemma SecondUpdate(mode: Mode, s: State)
    requires Reachable(mode, s) && s.discovery == Updating("h2", 1)
    requires s.ss == Some(StorageState("h1", [UNKNOWN], 0))
    ensures Reachable(mode, s.(ss := Some(StorageState("h2", [UNKNOWN, "h2"], 1)), discovery := Waiting))
  {
    assert [UNKNOWN] + ["h2"] == [UNKNOWN, "h2"];
    Then(mode, s, Event.Update, s.(ss := Some(StorageState("h2", [UNKNOWN, "h2"], 1)), discovery := Waiting));
  }

  // ------------------------------------------------------------------ what breaks the claim

  /** A whole pass while the management routine holds the old success. */
  const OVERTAKEN :=
    State(NEW_WORLD, map[1 := PENDING], 2, Some(StorageState("h2", [UNKNOWN, "h2"], 1)), Waiting, Holding, Resting)

  lemma PassOvertakes(mode: Mode)
    requires !mode.serial
    ensures Reachable(mode, OVERTAKEN)
  {
    FirstFetch(mode);
    WriteOldObject(mode, FETCHED);
    SecondDiscovery(mode, FETCHED.(w := OLD_WORLD), 1);
    var s := FETCHED.(w := NEW_WORLD, discovery := Reading("h2", 1));
    SecondSelection(mode, s, {0});
    CleanAndLaunch(mode, s.(discovery := Cleaning("h2", 1, {0})));
    SecondUpdate(mode, s.(migrations := map[1 := PENDING], next := 2, discovery := Updating("h2", 1)));
  }

  /** The interleaving that the comment in pkg/trigger/controller.go names: 2, b, c, d, 3. A
      success is fetched, then a whole discovery pass runs, then the success is marked. */
  lemma InterleavingBreaksTruth(mode: Mode)
    requires !mode.serial
    ensures exists s :: Reachable(mode, s) && !Truth(s)
  {
    PassOvertakes(mode);
    var marked := OVERTAKEN.(ss := Some(StorageState("h2", ["h2"], 1)), queue := Empty);
    Then(mode, OVERTAKEN, Event.Mark, marked);
    assert marked.w.now[0].enc == "h1";
  }

  /** If the version changes while no discovery is under way, objects are written in a version
      that the state does not know. */
  lemma SilentUpgradeBreaksTruth(mode: Mode)
    requires !mode.versionsDiscovered
    ensures exists s :: Reachable(mode, s) && !Truth(s)
  {
    FirstMark(mode);
    Then(mode, FIRST_MARK, Upgrade("h2"), FIRST_MARK.(w := SECOND_WORLD));
    WriteNewObject(mode, FIRST_MARK.(w := SECOND_WORLD));
  }

  /** If the state cannot be read, the pass gives up, and the new version goes unrecorded. */
  lemma FailedGetBreaksTruth(mode: Mode)
    requires !mode.getsSucceed
    ensures exists s :: Reachable(mode, s) && !Truth(s)
  {
    FirstMark(mode);
    SecondDiscovery(mode, FIRST_MARK, 1);
    var s := FIRST_MARK.(w := SECOND_WORLD, discovery := Reading("h2", 1));
    Then(mode, s, GetFails, s.(discovery := Waiting));
    WriteNewObject(mode, s.(discovery := Waiting));
  }

  /** If a stale state cannot be deleted, the pass gives up as well. */
  lemma FailedDropBreaksTruth(mode: Mode)
    requires !mode.dropsSucceed
    ensures exists s :: Reachable(mode, s) && !Truth(s)
  {
    var late := 2 * DISCOVERY_PERIOD + 1;
    FirstMark(mode);
    SecondDiscovery(mode, FIRST_MARK, late);
    var s := FIRST_MARK.(w := SECOND_WORLD, discovery := Reading("h2", late));
    Then(mode, s, Get(false), s.(discovery := Dropping("h2", late)));
    Then(mode, s.(discovery := Dropping("h2", late)), DropFails(false), s.(discovery := Waiting));
    WriteNewObject(mode, s.(discovery := Waiting));
  }

  /** An old success that survives the change of the version is no longer true. */
  lemma OldSuccessLies(mode: Mode, s: State)
    requires Reachable(mode, s) && s.w == NEW_WORLD && s.discovery.Waiting?
    requires 0 in s.migrations && s.migrations[0] == SUCCEEDED
    ensures exists s' :: Reachable(mode, s') && !Truth(s')
  {
    SucceededSucceeded();
    assert s.w.Lagging(0);
  }

  /** If the cache misses a migration, the pass does not delete it. */
  lemma StaleCacheBreaksTruth(mode: Mode)
    requires !mode.cacheComplete
    ensures exists s :: Reachable(mode, s) && !Truth(s)
  {
    FirstSuccess(mode);
    WriteOldObject(mode, FIRST_SUCCESS);
    SecondDiscovery(mode, FIRST_SUCCESS.(w := OLD_WORLD), 1);
    var s := FIRST_SUCCESS.(w := NEW_WORLD, discovery := Reading("h2", 1));
    SecondSelection(mode, s, {});
    var launched := s.(migrations := s.migrations[1 := PENDING], next := 2, discovery := Updating("h2", 1));
    Then(mode, s.(discovery := Cleaning("h2", 1, {})), Event.Launch(RESOURCE), launched);
    SecondUpdate(mode, launched);
    OldSuccessLies(mode, launched.(ss := Some(StorageState("h2", [UNKNOWN, "h2"], 1)), discovery := Waiting));
  }

  /** If a deletion fails, the pass goes on all the same. */
  lemma FailedCleanBreaksTruth(mode: Mode)
    requires !mode.cleansSucceed
    ensures exists s :: Reachable(mode, s) && !Truth(s)
  {
    FirstSuccess(mode);
    WriteOldObject(mode, FIRST_SUCCESS);
    SecondDiscovery(mode, FIRST_SUCCESS.(w := OLD_WORLD), 1);
    var s := FIRST_SUCCESS.(w := NEW_WORLD, discovery := Reading("h2", 1));
    SecondSelection(mode, s, {0});
    var failed := s.(discovery := Updating("h2", 1));
    Then(mode, s.(discovery := Cleaning("h2", 1, {0})), CleanFails, failed);
    SecondUpdate(mode, failed);
    OldSuccessLies(mode, failed.(ss := Some(StorageState("h2", [UNKNOWN, "h2"], 1)), discovery := Waiting));
  }

  lemma SecondLaunch(mode: Mode)
    ensures Reachable(mode, UNRECORDED)
  {
    FirstMark(mode);
    SecondDiscovery(mode, FIRST_MARK, 1);
    var s := FIRST_MARK.(w := SECOND_WORLD, discovery := Reading("h2", 1));
    SecondSelection(mode, s, {0});
    CleanAndLaunch(mode, s.(discovery := Cleaning("h2", 1, {0})));
  }

  const UNRECORDED :=
    FIRST_MARK.(w := SECOND_WORLD, migrations := map[1 := PENDING], next := 2, discovery := Updating("h2", 1))

  /** If an update fails for good, the new version goes unrecorded. */
  lemma FailedUpdateBreaksTruth(mode: Mode)
    requires !mode.updatesSucceed
    ensures exists s :: Reachable(mode, s) && !Truth(s)
  {
    SecondLaunch(mode);
    Then(mode, UNRECORDED, UpdateFails, UNRECORDED.(discovery := Waiting));
    WriteNewObject(mode, UNRECORDED.(discovery := Waiting));
  }

  lemma DistrustBreaksTruth(mode: Mode)
    requires !Trusted(mode)
    ensures exists s :: Reachable(mode, s) && !Truth(s)
  {
    if !mode.serial {
      InterleavingBreaksTruth(mode);
    } else if !mode.versionsDiscovered {
      SilentUpgradeBreaksTruth(mode);
    } else if !mode.getsSucceed {
      FailedGetBreaksTruth(mode);
    } else if !mode.dropsSucceed {
      FailedDropBreaksTruth(mode);
    } else if !mode.cacheComplete {
      StaleCacheBreaksTruth(mode);
    } else if !mode.cleansSucceed {
      FailedCleanBreaksTruth(mode);
    } else {
      FailedUpdateBreaksTruth(mode);
    }
  }

  /** The claim holds over all runs exactly if the trigger can rely on all seven. */
  lemma TruthNeedsTrust(mode: Mode)
    ensures Trusted(mode) <==> forall w: World, es :: w.Valid() ==> Truth(Play(mode, Installed(w), es))
  {
    if Trusted(mode) {
      forall w: World, es | w.Valid()
        ensures Truth(Play(mode, Installed(w), es))
      {
        TrustedRunsAreTrue(mode, w, es);
      }
    } else {
      DistrustBreaksTruth(mode);
      var s :| Reachable(mode, s) && !Truth(s);
      var es :| Reaches(mode, es, s);
      assert EMPTY_WORLD.Valid();
      assert !Truth(Play(mode, Installed(EMPTY_WORLD), es));
    }
  }
}
