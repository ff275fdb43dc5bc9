/** One resource and everything that works on it: the clients that write its objects, the
    migration controller, and the two routines of the trigger, which pkg/trigger/controller.go
    runs in serial. Every step is one call, so that all interleavings are covered; only the Get
    and the status update of an attempt at the storage state are one step, since the server
    accepts the update only if nothing came in between. */
module EndToEnd {
  import opened Wrappers
  import opened ApiServer
  import opened ItemMigration
  import opened WorkerPool
  import opened Migrations
  import opened Runner
  import opened Lifecycle
  import opened StorageStates
  import opened DiscoveryPass

  /** What the trigger can rely on: that its routines are serial, that the storage version
      changes only as a discovery begins, that the state can be read, and deleted when it is
      stale, that the cache shows every migration when a pass selects those to delete, that
      the deletions succeed, and that a pass gets as far as updating the state. A trigger that
      dies within a pass counts as one that fails to update. */
  datatype Mode = Mode(
    serial: bool,
    versionsDiscovered: bool,
    getsSucceed: bool,
    dropsSucceed: bool,
    cacheComplete: bool,
    cleansSucceed: bool,
    updatesSucceed: bool)

  predicate Trusted(m: Mode) {
    && m.serial && m.versionsDiscovered
    && m.getsSucceed && m.dropsSucceed && m.cacheComplete && m.cleansSucceed && m.updatesSucceed
  }

  /** The discovery routine, by the call that it makes next: between passes, to read the state,
      to delete it because it is stale, to read the cache for migrations to delete, to delete
      them and launch another, or to update the state. */
  datatype Discovery =
    | Waiting
    | Reading(hash: Hash, now: nat)
    | Dropping(hash: Hash, now: nat)
    | Selecting(hash: Hash, now: nat)
    | Cleaning(hash: Hash, now: nat, doomed: set<Name>)
    | Updating(hash: Hash, now: nat)

  /** The migration management routine: it may hold a migration that it saw succeeded. */
  datatype Queue = Empty | Holding

  /** What a status update records: the begin of a run, or its end. */
  datatype Goal = Begin | End(err: Option<RunError>)

  /** The migration controller, by the call that it makes next: between migrations, to update a
      status or to refresh its object after a failed update, or in a run. It holds the object
      as it was last read. */
  datatype ControllerState =
    | Resting
    | Posting(name: Name, m: Migration, goal: Goal, attempts: nat, refresh: bool)
    | Working(name: Name, m: Migration, phase: Phase)

  datatype State = State(
    w: World,
    migrations: map<Name, Migration>,
    next: Name,
    ss: Option<StorageState>,
    discovery: Discovery,
    queue: Queue,
    controller: ControllerState)

  datatype Event =
    // other clients
    | Write(x: Write)
    | Visiting(name: Name, v: Visit)
    | Request(resource: GroupVersionResource)
    | Upgrade(hash: Hash)
    // the migration controller
    | Pick(name: Name)
    | Proceed(move: Move)
    | Crash
    // the discovery routine
    | Discover(hash: Hash, now: nat)
    | Get(pending: bool)
    | GetFails
    | Drop
    | DropFails(applied: bool)
    | List(cached: set<Name>)
    | Clean(name: Name)
    | CleanFails
    | Launch(resource: GroupVersionResource)
    | LaunchFails
    | Create
    | Update
    | UpdateLost
    | UpdateFails
    | Restart
    // the migration management routine
    | Fetch(name: Name)
    | Mark
    | MarkLost
    | MarkFails

  function Doomed(s: State): set<Name> {
    if s.discovery.Cleaning? then s.discovery.doomed else {}
  }

  /** Whether the event can happen now. A deletion of what is no longer there fails. */
  predicate Possible(mode: Mode, s: State, e: Event) {
    match e
    case Write(_) => true
    case Visiting(n, v) => n in s.migrations && !(mode.cleansSucceed && v.Delete? && n in Doomed(s))
    case Request(_) => true
    case Upgrade(_) => !mode.versionsDiscovered
    case Pick(n) => s.controller.Resting? && n in s.migrations && Incomplete(s.migrations[n])
    case Proceed(_) => !s.controller.Resting?
    case Crash => !s.controller.Resting?
    case Discover(h, _) => s.discovery.Waiting? && (mode.serial ==> s.queue.Empty?) && h != ""
    case Get(_) => s.discovery.Reading?
    case GetFails => s.discovery.Reading? && !mode.getsSucceed
    case Drop => s.discovery.Dropping?
    case DropFails(_) => s.discovery.Dropping? && !mode.dropsSucceed
    case List(cached) =>
      && s.discovery.Selecting?
      && (mode.cacheComplete ==> s.migrations.Keys <= cached)
      && (mode.cleansSucceed ==> cached <= s.migrations.Keys)
    case Clean(n) => n in Doomed(s) && n in s.migrations
    case CleanFails => s.discovery.Cleaning? && !mode.cleansSucceed
    case Launch(_) => s.discovery.Cleaning? && Doomed(s) == {}
    case LaunchFails => s.discovery.Cleaning? && Doomed(s) == {}
    case Create => s.discovery.Updating? && s.ss.None?
    case Update => s.discovery.Updating? && s.ss.Some?
    case UpdateLost => s.discovery.Updating? && s.ss.Some?
    case UpdateFails => s.discovery.Updating? && !mode.updatesSucceed
    case Restart => mode.updatesSucceed ==> s.discovery.Waiting?
    case Fetch(n) =>
      s.queue.Empty? && (mode.serial ==> s.discovery.Waiting?) && n in s.migrations && HasCondition(s.migrations[n], Succeeded)
    case Mark => s.queue.Holding?
    case MarkLost => s.queue.Holding?
    case MarkFails => s.queue.Holding?
  }

  /** The version becomes active as the pass discovers it. */
  function BeginPass(s: State, hash: Hash, now: nat): State {
    s.(w := s.w.SwitchTo(hash), discovery := Reading(hash, now))
  }

  /** What the pass decides from the state that it read and what its cache says. */
  function Decide(s: State, pending: bool): State
    requires s.discovery.Reading?
  {
    var hash, now := s.discovery.hash, s.discovery.now;
    s.(discovery :=
         if IsStale(s.ss, now) then Dropping(hash, now)
         else if MustRelaunch(s.ss, pending, hash, now) then Selecting(hash, now)
         else Updating(hash, now))
  }

  function WithUpdate(s: State): State
    requires s.discovery.Updating?
  {
    s.(ss := Some(UpdateOnce(s.ss, s.discovery.hash, s.discovery.now)))
  }

  function Collapsed(s: State): State {
    s.(ss := if s.ss.Some? then Some(Collapse(s.ss.value)) else None)
  }

  function GoalType(g: Goal): ConditionType {
    match g
    case Begin => Running
    case End(err) => Verdict(err)
  }

  function GoalMessage(g: Goal): string {
    match g
    case Begin => ""
    case End(err) => Message(err)
  }

  function Posted(s: State, move: Move): State
    requires s.controller.Posting? && !s.controller.refresh
  {
    var Posting(n, m, goal, attempts, _) := s.controller;
    var stored := Lookup(s.migrations, n);
    var m1 := Marked(m, GoalType(goal), GoalMessage(goal), move.now);
    s.(migrations := Assign(s.migrations, n, AfterUpdateStatus(stored, m1, move.turn.reply)),
       controller :=
         if UpdateError(stored, m1, move.turn.reply) != None then Posting(n, m1, goal, attempts, true)
         else if goal.Begin? then Working(n, m1, Loading)
         else Resting)
  }

  function RefreshedAfter(s: State, move: Move): State
    requires s.controller.Posting? && s.controller.refresh
  {
    var Posting(n, m, goal, attempts, _) := s.controller;
    var m' := Refreshed(m, GetMigration(Lookup(s.migrations, n), move.turn.reply));
    s.(controller := if attempts <= 1 then Resting else Posting(n, m', goal, attempts - 1, false))
  }

  function Worked(s: State, move: Move): State
    requires s.controller.Working?
  {
    var Working(n, m, phase) := s.controller;
    var sys := Step(System(s.w, Lookup(s.migrations, n), phase), move.(visits := []), DEFAULT_CONCURRENCY);
    s.(w := sys.w,
       migrations := Assign(s.migrations, n, sys.ticket),
       controller :=
         if sys.phase.Finished? then Posting(n, m, End(sys.phase.err), STATUS_ATTEMPTS, false)
         else Working(n, m, sys.phase))
  }

  /** One call of the controller, after the writes of others that the move brings. */
  function Proceeded(s: State, move: Move): State
    requires !s.controller.Resting?
  {
    if s.controller.Working? then Worked(s, move)
    else
      var s1 := s.(w := s.w.ApplyAll(move.turn.others));
      if s.controller.refresh then RefreshedAfter(s1, move) else Posted(s1, move)
  }

  function Effect(mode: Mode, s: State, e: Event): State
    requires Possible(mode, s, e)
  {
    match e
    case Write(x) => s.(w := s.w.Apply(x))
    case Visiting(n, v) => s.(migrations := Assign(s.migrations, n, ApplyVisit(Lookup(s.migrations, n), v)))
    case Request(r) => s.(migrations := s.migrations[s.next := Migration(r, Start, [], 0)], next := s.next + 1)
    case Upgrade(h) => s.(w := s.w.SwitchTo(h))
    case Pick(n) => s.(controller := Posting(n, s.migrations[n], Begin, STATUS_ATTEMPTS, false))
    case Proceed(move) => Proceeded(s, move)
    case Crash => s.(controller := Resting)
    case Discover(h, now) => BeginPass(s, h, now)
    case Get(pending) => Decide(s, pending)
    case GetFails => s.(discovery := Waiting)
    case Drop => s.(ss := None, discovery := Selecting(s.discovery.hash, s.discovery.now))
    case DropFails(applied) => s.(ss := if applied then None else s.ss, discovery := Waiting)
    case List(cached) => s.(discovery := Cleaning(s.discovery.hash, s.discovery.now, cached))
    case Clean(n) =>
      s.(migrations := s.migrations - {n}, discovery := s.discovery.(doomed := s.discovery.doomed - {n}))
    case CleanFails => s.(discovery := Updating(s.discovery.hash, s.discovery.now))
    case Launch(r) =>
      s.(migrations := s.migrations[s.next := Migration(r, Start, [], 0)], next := s.next + 1,
         discovery := Updating(s.discovery.hash, s.discovery.now))
    case LaunchFails => s.(discovery := Updating(s.discovery.hash, s.discovery.now))
    case Create => s.(ss := Some(BLANK))
    case Update => WithUpdate(s).(discovery := Waiting)
    case UpdateLost => WithUpdate(s)
    case UpdateFails => s.(discovery := Waiting)
    case Restart => s.(discovery := Waiting, queue := Empty)
    case Fetch(_) => s.(queue := Holding)
    case Mark => Collapsed(s).(queue := Empty)
    case MarkLost => Collapsed(s)
    case MarkFails => s.(queue := Empty)
  }

  function Next(mode: Mode, s: State, e: Event): State {
    if Possible(mode, s, e) then Effect(mode, s, e) else s
  }

  function Play(mode: Mode, s: State, es: seq<Event>): State
    decreases |es|
  {
    if es == [] then s else Play(mode, Next(mode, s, es[0]), es[1..])
  }

  lemma {:induction false} PlayAppends(mode: Mode, s: State, es: seq<Event>, more: seq<Event>)
    ensures Play(mode, s, es + more) == Play(mode, Play(mode, s, es), more)
    decreases |es|
  {
    if es == [] {
      assert es + more == more;
    } else {
      assert (es + more)[0] == es[0] && (es + more)[1..] == es[1..] + more;
      PlayAppends(mode, Next(mode, s, es[0]), es[1..], more);
    }
  }

  /** A cluster where the migrator was just installed. */
  function Installed(w: World): State {
    State(w, map[], 0, None, Waiting, Empty, Resting)
  }

  // ------------------------------------------------------------------ the claim

  /** Between passes: without UNKNOWN, the persisted hashes name every storage version that
      some object is stored in; and a succeeded migration means that all objects are stored
      in the active version. */
  ghost predicate Truth(s: State) {
    s.discovery.Waiting? ==>
      && (s.ss.Some? && UNKNOWN !in s.ss.value.persisted ==>
            forall k :: k in s.w.now ==> s.w.now[k].enc in s.ss.value.persisted)
      && (forall n :: n in s.migrations && HasCondition(s.migrations[n], Succeeded) ==> s.w.AllCurrent())
  }

  // ------------------------------------------------------------------ the invariant

  ghost predicate HonestMigration(w: World, m: Migration) {
    CursorSafe(w, m.token) && (HasCondition(m, Succeeded) ==> w.AllCurrent())
  }

  /** The migrations that may be of an older storage version. A pass that has found another
      version than the recorded one will delete them all. */
  function Suspects(s: State): set<Name> {
    match s.discovery
    case Waiting => {}
    case Reading(hash, _) => if s.ss.Some? && s.ss.value.current == hash then {} else s.migrations.Keys
    case Dropping(_, _) => s.migrations.Keys
    case Selecting(_, _) => s.migrations.Keys
    case Cleaning(_, _, doomed) => doomed
    case Updating(_, _) => {}
  }

  /** Every migration that is not suspect tells the truth and can be resumed safely. */
  ghost predicate MigrationsHonest(s: State) {
    && (forall n :: n in s.migrations ==> n < s.next)
    && (forall n :: n in s.migrations && n !in Suspects(s) ==> HonestMigration(s.w, s.migrations[n]))
  }

  ghost predicate GoalHonest(w: World, g: Goal) {
    g == End(None) ==> w.AllCurrent()
  }

  ghost predicate ControllerSafe(s: State) {
    match s.controller
    case Resting => true
    case Posting(n, _, goal, _, _) =>
      n < s.next && (n in s.migrations && n !in Suspects(s) ==> GoalHonest(s.w, goal))
    case Working(n, _, phase) =>
      n < s.next && !phase.Finished? && (n in s.migrations && n !in Suspects(s) ==> PhaseSafe(s.w, phase))
  }

  /** The persisted hashes cover the store, but for what was written in a version that the
      pass under way has yet to record. */
  ghost predicate Covers(w: World, ss: StorageState, passing: bool) {
    || (passing && ss == BLANK)
    || UNKNOWN in ss.persisted
    || (&& ss.current in ss.persisted
        && forall k :: k in w.now ==> w.now[k].enc in ss.persisted || (passing && w.now[k].enc == w.active))
  }

  ghost predicate TriggerSafe(s: State) {
    && (s.ss.Some? ==> Covers(s.w, s.ss.value, !s.discovery.Waiting?))
    && (s.ss.Some? && s.discovery.Waiting? ==> s.ss.value.current == s.w.active)
    && (!s.discovery.Waiting? ==> s.discovery.hash == s.w.active && s.discovery.hash != "")
    && (s.queue.Holding? ==> s.discovery.Waiting? && s.w.AllCurrent())
  }

  ghost predicate Inv(s: State) {
    s.w.Valid() && MigrationsHonest(s) && ControllerSafe(s) && TriggerSafe(s)
  }

  lemma InvImpliesTruth(s: State)
    requires Inv(s)
    ensures Truth(s)
  {
  }

  // ------------------------------------------------------------------ every step keeps it

  /** A step of a run does no harm to the objects, even for a migration that is gone. */
  lemma StepEvolves(sys: System, move: Move, concurrency: nat)
    requires sys.w.Valid()
    ensures var w' := Step(sys, move, concurrency).w;
            w'.Valid() && Evolves(sys.w, w')
  {
    ApplyAllIsSound(sys.w, move.turn.others);
    if sys.phase.Migrating? {
      var p, a := sys.phase.pool, move.actor;
      if Enabled(p, a) && a.Call? && p.workers[a.who].job < |p.items| && !p.workers[a.who].st.Done? {
        ItemCallEvolves(sys.w.ApplyAll(move.turn.others), p.items[p.workers[a.who].job], p.workers[a.who].st, move.turn.reply);
      }
    }
  }

  /** Time alone breaks nothing: what held of the objects still holds. */
  lemma EvolutionKeeps(s: State, w': World)
    requires Inv(s) && w'.Valid() && Evolves(s.w, w')
    ensures Inv(s.(w := w'))
  {
    forall n | n in s.migrations && n !in Suspects(s)
      ensures HonestMigration(w', s.migrations[n])
    {
      CursorStaysSafe(s.w, w', s.migrations[n].token);
    }
    if s.controller.Working? && s.controller.name in s.migrations && s.controller.name !in Suspects(s) {
      PhaseStaysSafe(s.w, w', s.controller.phase);
    }
  }

  lemma ConditionsOfVisit(m: Migration, v: Visit, t: ConditionType)
    requires Known(t) && ApplyVisit(Some(m), v).Some? && HasCondition(ApplyVisit(Some(m), v).value, t)
    ensures HasCondition(m, t)
  {
    if t == Running {
      VisitIntroduces(Some(m), v, Succeeded);
    } else {
      VisitIntroduces(Some(m), v, Running);
    }
  }

  /** One migration changes: nothing else can be affected. */
  lemma StoringKeeps(s: State, n: Name, m: Option<Migration>)
    requires Inv(s) && n in s.migrations
    requires m.Some? && n !in Suspects(s) ==> HonestMigration(s.w, m.value)
    ensures Inv(s.(migrations := Assign(s.migrations, n, m)))
  {
  }

  lemma OthersKeep(mode: Mode, s: State, e: Event)
    requires Inv(s) && Possible(mode, s, e) && (e.Write? || e.Visiting? || e.Request?)
    ensures Inv(Effect(mode, s, e))
  {
    match e
    case Write(x) =>
      ApplyIsSound(s.w, x);
      EvolutionKeeps(s, s.w.Apply(x));
    case Visiting(n, v) =>
      var m := ApplyVisit(Lookup(s.migrations, n), v);
      if m.Some? && HasCondition(m.value, Succeeded) {
        ConditionsOfVisit(s.migrations[n], v, Succeeded);
      }
      StoringKeeps(s, n, m);
    case Request(r) =>
  }

  /** A status update leaves the cursor alone, and claims success only for a goal that does. */
  lemma PostIsHonest(w: World, stored: Migration, m: Migration, goal: Goal, now: nat, reply: Reply)
    requires HonestMigration(w, stored) && GoalHonest(w, goal)
    ensures var stored' := AfterUpdateStatus(Some(stored), Marked(m, GoalType(goal), GoalMessage(goal), now), reply);
            stored'.Some? && HonestMigration(w, stored'.value)
  {
    var c := Condition(GoalType(goal), True, now, GoalMessage(goal));
    var m1 := Marked(m, GoalType(goal), GoalMessage(goal), now);
    RewriteDecidesStatus(m, c);
    var stored' := AfterUpdateStatus(Some(stored), m1, reply).value;
    if stored' != stored {
      assert stored'.conditions == m1.conditions;
      assert HasCondition(stored', Succeeded) == HasCondition(m1, Succeeded);
    }
  }

  lemma PostedKeeps(s: State, move: Move)
    requires Inv(s) && s.controller.Posting? && !s.controller.refresh
    ensures Inv(Posted(s, move))
  {
    var Posting(n, m, goal, _, _) := s.controller;
    if n in s.migrations {
      var m1 := Marked(m, GoalType(goal), GoalMessage(goal), move.now);
      var stored' := AfterUpdateStatus(Some(s.migrations[n]), m1, move.turn.reply);
      if n !in Suspects(s) {
        PostIsHonest(s.w, s.migrations[n], m, goal, move.now, move.turn.reply);
      }
      StoringKeeps(s, n, stored');
    } else {
      assert Assign(s.migrations, n, None) == s.migrations;
    }
  }

  /** The run of a migration that is still there makes one step: it cannot save an unsafe
      cursor, nor finish without reason. */
  lemma WorkIsHonest(s: State, sys: System, sys': System, move: Move)
    requires Inv(s) && s.controller.Working? && s.controller.name in s.migrations && move.visits == []
    requires sys == System(s.w, Some(s.migrations[s.controller.name]), s.controller.phase)
    requires sys' == Step(sys, move, DEFAULT_CONCURRENCY)
    ensures sys'.ticket.Some?
    ensures s.controller.name !in Suspects(s) ==> HonestMigration(sys'.w, sys'.ticket.value) && PhaseSafe(sys'.w, sys'.phase)
  {
    TicketIsKept(sys, move, DEFAULT_CONCURRENCY);
    if s.controller.name !in Suspects(s) {
      StepMovesOnlyToken(sys, move, DEFAULT_CONCURRENCY);
      StepIsSafe(sys, move, DEFAULT_CONCURRENCY);
      TicketStaysHonest(sys, sys', move);
    }
  }

  lemma SteeringKeeps(s: State, c: ControllerState)
    requires Inv(s) && ControllerSafe(s.(controller := c))
    ensures Inv(s.(controller := c))
  {
  }

  lemma WorkedKeeps(s: State, move: Move)
    requires Inv(s) && s.controller.Working?
    ensures Inv(Worked(s, move))
  {
    var n := s.controller.name;
    var sys := System(s.w, Lookup(s.migrations, n), s.controller.phase);
    var quiet := move.(visits := []);
    var sys' := Step(sys, quiet, DEFAULT_CONCURRENCY);
    StepEvolves(sys, quiet, DEFAULT_CONCURRENCY);
    EvolutionKeeps(s, sys'.w);
    var stored := s.(w := sys'.w, migrations := Assign(s.migrations, n, sys'.ticket));
    if n in s.migrations {
      WorkIsHonest(s, sys, sys', quiet);
      StoringKeeps(s.(w := sys'.w), n, sys'.ticket);
    } else {
      StepMovesOnlyToken(sys, quiet, DEFAULT_CONCURRENCY);
      assert stored.migrations == s.migrations;
    }
    SteeringKeeps(stored, Worked(s, move).controller);
  }

  lemma TicketStaysHonest(sys: System, sys': System, move: Move)
    requires sys.ticket.Some? && HonestMigration(sys.w, sys.ticket.value) && Evolves(sys.w, sys'.w)
    requires move.visits == [] && OnlyToken(sys.ticket, sys'.ticket, AddedBy(move.visits)) && TicketSafe(sys'.w, sys'.ticket)
    ensures sys'.ticket.Some? ==> HonestMigration(sys'.w, sys'.ticket.value)
  {
    if sys'.ticket.Some? && HasCondition(sys'.ticket.value, Succeeded) {
      RunIntroducesNothing(sys.ticket, sys'.ticket, move.visits, Succeeded);
    }
  }

  lemma ProceedKeeps(s: State, move: Move)
    requires Inv(s) && !s.controller.Resting?
    ensures Inv(Proceeded(s, move))
  {
    if s.controller.Working? {
      WorkedKeeps(s, move);
    } else {
      var w := s.w.ApplyAll(move.turn.others);
      ApplyAllIsSound(s.w, move.turn.others);
      EvolutionKeeps(s, w);
      if !s.controller.refresh {
        PostedKeeps(s.(w := w), move);
      }
    }
  }

  /** As a pass begins, the migrations become suspect unless the recorded version is the
      discovered one. */
  lemma BeginPassKeeps(s: State, hash: Hash, now: nat)
    requires Inv(s) && s.discovery.Waiting? && s.queue.Empty? && hash != ""
    ensures Inv(BeginPass(s, hash, now))
  {
    if s.ss.Some? && s.ss.value.current == hash {
      assert s.w.SwitchTo(hash) == s.w;
    }
  }

  lemma DecideKeeps(s: State, pending: bool)
    requires Inv(s) && s.discovery.Reading?
    ensures Inv(Decide(s, pending))
  {
  }

  lemma CleaningKeeps(mode: Mode, s: State, e: Event)
    requires Trusted(mode) && Inv(s) && Possible(mode, s, e)
    requires e.Drop? || e.List? || e.Clean? || e.Launch? || e.LaunchFails?
    ensures Inv(Effect(mode, s, e))
  {
  }

  lemma UpdateCovers(w: World, ss: Option<StorageState>, hash: Hash, now: nat)
    requires ss.Some? ==> Covers(w, ss.value, true)
    requires hash == w.active && hash != ""
    ensures Covers(w, UpdateOnce(ss, hash, now), false) && UpdateOnce(ss, hash, now).current == w.active
  {
    var ss' := UpdateOnce(ss, hash, now);
    if ss.Some? && ss.value != BLANK {
      var p, p' := ss.value.persisted, ss'.persisted;
      if ss.value.current != hash && p != [] {
        assert p' == p + [hash];
        assert p'[|p|] == hash;
        assert forall h :: h in p ==> h in p';
      }
    } else {
      assert ss'.persisted == [UNKNOWN];
    }
  }

  lemma UpdatingKeeps(mode: Mode, s: State, e: Event)
    requires Trusted(mode) && Inv(s) && Possible(mode, s, e)
    requires e.Create? || e.Update? || e.UpdateLost? || e.Restart?
    ensures Inv(Effect(mode, s, e))
  {
    if e.Update? || e.UpdateLost? {
      UpdateCovers(s.w, s.ss, s.discovery.hash, s.discovery.now);
    }
  }

  lemma MarkingKeeps(mode: Mode, s: State, e: Event)
    requires Trusted(mode) && Inv(s) && Possible(mode, s, e)
    requires e.Fetch? || e.Mark? || e.MarkLost? || e.MarkFails?
    ensures Inv(Effect(mode, s, e))
  {
    if e.Mark? || e.MarkLost? {
      assert forall k: Key :: k in s.w.now ==> !s.w.Lagging(k);
    }
  }

  lemma ControllerKeeps(mode: Mode, s: State, e: Event)
    requires Inv(s) && Possible(mode, s, e) && (e.Pick? || e.Proceed? || e.Crash?)
    ensures Inv(Effect(mode, s, e))
  {
    if e.Proceed? {
      ProceedKeeps(s, e.move);
    }
  }

  lemma PassKeeps(mode: Mode, s: State, e: Event)
    requires Trusted(mode) && Inv(s) && Possible(mode, s, e)
    requires e.Discover? || e.Get? || e.GetFails? || e.DropFails? || e.CleanFails? || e.UpdateFails? || e.Upgrade?
    ensures Inv(Effect(mode, s, e))
  {
    if e.Discover? {
      BeginPassKeeps(s, e.hash, e.now);
    } else {
      DecideKeeps(s, e.pending);
    }
  }

  lemma EventKeeps(mode: Mode, s: State, e: Event)
    requires Trusted(mode) && Inv(s)
    ensures Inv(Next(mode, s, e))
  {
    if Possible(mode, s, e) {
      if e.Write? || e.Visiting? || e.Request? {
        OthersKeep(mode, s, e);
      } else if e.Pick? || e.Proceed? || e.Crash? {
        ControllerKeeps(mode, s, e);
      } else if e.Drop? || e.List? || e.Clean? || e.Launch? || e.LaunchFails? {
        CleaningKeeps(mode, s, e);
      } else if e.Create? || e.Update? || e.UpdateLost? || e.Restart? {
        UpdatingKeeps(mode, s, e);
      } else if e.Fetch? || e.Mark? || e.MarkLost? || e.MarkFails? {
        MarkingKeeps(mode, s, e);
      } else {
        PassKeeps(mode, s, e);
      }
    }
  }

  lemma {:induction false} PlayKeeps(mode: Mode, s: State, es: seq<Event>)
    requires Trusted(mode) && Inv(s)
    ensures Inv(Play(mode, s, es))
    decreases |es|
  {
    if es != [] {
      EventKeeps(mode, s, es[0]);
      PlayKeeps(mode, Next(mode, s, es[0]), es[1..]);
    }
  }

  /** With a trigger that can rely on all of this, the claim holds in every state of every run,
      from any contents of the store. */
  lemma TrustedRunsAreTrue(mode: Mode, w: World, es: seq<Event>)
    requires Trusted(mode) && w.Valid()
    ensures Truth(Play(mode, Installed(w), es))
  {
    PlayKeeps(mode, Installed(w), es);
    InvImpliesTruth(Play(mode, Installed(w), es));
  }
}
