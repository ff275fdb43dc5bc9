/** The runs of the single worker of pkg/controller/kubemigrator.go over all migration objects,
    of all resources, as its cache shows them. */
module ControllerRuns {
  import opened Wrappers
  import opened Errors
  import opened ItemMigration
  import opened ApiServer
  import opened Migrations
  import opened Runner
  import opened RunTermination
  import opened RunMigrator
  import opened Lifecycle
  import opened KubeMigrator

  /** What the objects of a migration are: those of a group and a resource, in any version. */
  datatype GroupResource = GroupResource(group: string, resource: string)

  function KeyOf(m: Migration): GroupResource {
    GroupResource(m.resource.group, m.resource.resource)
  }

  const NO_OBJECTS := World([], map[], "", 0)

  /** The objects of every resource, and the migrations; names are given out once. */
  datatype Board = Board(worlds: map<GroupResource, World>, migrations: map<Name, Migration>, next: Name) {

    function WorldOf(key: GroupResource): World {
      if key in worlds then worlds[key] else NO_OBJECTS
    }
  }

  ghost predicate AnyRunning(migrations: map<Name, Migration>) {
    exists n :: n in migrations && Status(migrations[n]) == StatusRunning
  }

  /** What process may pick from what the cache shows: a running migration, or a pending one
      if none is running. */
  ghost predicate MayPick(view: map<Name, Migration>, n: Name) {
    && n in view
    && (Status(view[n]) == StatusRunning || (Status(view[n]) == StatusPending && !AnyRunning(view)))
  }

  /** One call of processOne; a migration that is gone from the server is not found. */
  function Processed(b: Board, n: Name, moves: seq<Move>, concurrency: nat): (Board, Report) {
    if n !in b.migrations then (b, Unavailable(NOT_FOUND))
    else
      var m := b.migrations[n];
      var end := Lifecycle.ProcessOne(b.WorldOf(KeyOf(m)), Some(m), moves, concurrency);
      (b.(worlds := b.worlds[KeyOf(m) := end.w], migrations := Assign(b.migrations, n, end.stored)), end.report)
  }

  method Process(b: Board, view: map<Name, Migration>, moves: seq<Move>, concurrency: nat)
    returns (b': Board, picked: Option<Name>, report: Report)
    requires concurrency > 0
    ensures match picked
            case None => b' == b && forall n :: n in view ==> !Incomplete(view[n])
            case Some(n) => MayPick(view, n) && (b', report) == Processed(b, n, moves, concurrency)
  {
    var runnings := set n | n in view && Status(view[n]) == StatusRunning;
    var pendings := set n | n in view && Status(view[n]) == StatusPending;
    if runnings == {} && pendings == {} {
      forall n | n in view
        ensures !Incomplete(view[n])
      {
        assert n !in runnings && n !in pendings;
      }
      return b, None, AlreadyCompleted;
    }
    var n :| if runnings != {} then n in runnings else n in pendings;
    if AnyRunning(view) {
      var r :| r in view && Status(view[r]) == StatusRunning;
      assert r in runnings;
    }
    if n !in b.migrations {
      return b, Some(n), Unavailable(NOT_FOUND);
    }
    var m := b.migrations[n];
    var cluster := new Cluster(b.WorldOf(KeyOf(m)), Some(m), moves);
    var controller := new Controller(cluster, concurrency);
    report := controller.ProcessOne();
    b' := b.(worlds := b.worlds[KeyOf(m) := cluster.w], migrations := Assign(b.migrations, n, cluster.ticket));
    picked := Some(n);
  }

  // ------------------------------------------------------------------ histories

  datatype BoardEvent =
    | Pick(view: map<Name, Migration>, name: Name, moves: seq<Move>)
    | Write(key: GroupResource, x: ApiServer.Write)
    | Create(resource: GroupVersionResource)
    | Forget(name: Name)

  /** Process picks a migration from what its cache shows, another client writes an object, or
      creates or deletes a migration. */
  ghost function Happens(b: Board, e: BoardEvent, concurrency: nat): Board {
    match e
    case Pick(view, n, moves) => if MayPick(view, n) then Processed(b, n, moves, concurrency).0 else b
    case Write(key, x) => b.(worlds := b.worlds[key := b.WorldOf(key).Apply(x)])
    case Create(r) => b.(migrations := b.migrations[b.next := Migration(r, Start, [], 0)], next := b.next + 1)
    case Forget(n) => b.(migrations := b.migrations - {n})
  }

  ghost function History(b: Board, es: seq<BoardEvent>, concurrency: nat): Board
    decreases |es|
  {
    if es == [] then b else History(Happens(b, es[0], concurrency), es[1..], concurrency)
  }

  ghost predicate AtMostOneRunning(b: Board) {
    forall x, y ::
      x in b.migrations && Status(b.migrations[x]) == StatusRunning
      && y in b.migrations && Status(b.migrations[y]) == StatusRunning
      ==> x == y
  }

  /** No migration is resumed past an object of its resource that lags. */
  ghost predicate BoardSafe(b: Board) {
    && (forall key :: key in b.worlds ==> b.worlds[key].Valid())
    && (forall n :: n in b.migrations ==> n < b.next && CursorSafe(b.WorldOf(KeyOf(b.migrations[n])), b.migrations[n].token))
  }

  // ------------------------------------------------------------------ when a pick is safe

  /** No other migration is running on the server, or there is nothing to run. */
  ghost predicate Prudent(b: Board, n: Name) {
    || n !in b.migrations
    || !Incomplete(b.migrations[n])
    || forall x :: x in b.migrations && x != n ==> Status(b.migrations[x]) != StatusRunning
  }

  lemma CompletedStaysSo(w: World, m: Migration, moves: seq<Move>, concurrency: nat)
    requires !Incomplete(m)
    ensures var end := Lifecycle.ProcessOne(w, Some(m), moves, concurrency);
            end.stored.Some? ==> !Incomplete(end.stored.value)
  {
    CompletedStaysCompleted(w, Some(m), moves, concurrency);
  }

  lemma PrudentPickKeepsOne(b: Board, n: Name, moves: seq<Move>, concurrency: nat)
    requires AtMostOneRunning(b) && Prudent(b, n)
    ensures AtMostOneRunning(Processed(b, n, moves, concurrency).0)
  {
    if n in b.migrations {
      var m := b.migrations[n];
      if !Incomplete(m) {
        CompletedStaysSo(b.WorldOf(KeyOf(m)), m, moves, concurrency);
      }
    }
  }

  /** Two calls are enough to mark a pending migration as running. */
  lemma TwoCallsMark(w: World, m: Migration, last: Reply, concurrency: nat)
    requires Incomplete(m) && !last.Fail?
    ensures var end := Lifecycle.ProcessOne(w, Some(m), [QUIET_MOVE, QUIET_MOVE.(turn := Turn([], last))], concurrency);
            && end.stored == Some(AsStarted(m)) && Status(AsStarted(m)) == StatusRunning
            && end.w == w
  {
    var mark := QUIET_MOVE.(turn := Turn([], last));
    var moves := [QUIET_MOVE, mark];
    var m1 := Marked(m, Running, "", 0);
    assert moves[1..] == [mark];
    assert [mark][1..] == [];
    assert Sent(Some(m), m1, mark) == Some(AsStarted(m));
    RewriteDecidesStatus(m, Condition(Running, True, 0, ""));
    assert AsStarted(m).conditions == m1.conditions;
    assert forall t :: HasCondition(AsStarted(m), t) == HasCondition(m1, t);
    var begun := StatusRun(w, Some(m), m, Running, "", [mark], STATUS_ATTEMPTS);
    assert begun.rest == [] && begun.stored == Some(AsStarted(m)) && begun.w == w;
    if begun.result == Updated {
      assert Exec(System(w, begun.stored, Loading), [], concurrency) == RunEnd(System(w, begun.stored, Loading), []);
    }
  }

  /** A pick keeps at most one migration running, however its calls end, exactly if it is
      prudent. */
  lemma PickIsSafeExactlyIfPrudent(b: Board, n: Name, concurrency: nat)
    requires AtMostOneRunning(b)
    ensures (forall moves :: AtMostOneRunning(Processed(b, n, moves, concurrency).0)) <==> Prudent(b, n)
  {
    if Prudent(b, n) {
      forall moves
        ensures AtMostOneRunning(Processed(b, n, moves, concurrency).0)
      {
        PrudentPickKeepsOne(b, n, moves, concurrency);
      }
    } else {
      var x :| x in b.migrations && x != n && Status(b.migrations[x]) == StatusRunning;
      var moves := [QUIET_MOVE, QUIET_MOVE.(turn := Turn([], Ok))];
      TwoCallsMark(b.WorldOf(KeyOf(b.migrations[n])), b.migrations[n], Ok, concurrency);
      var b' := Processed(b, n, moves, concurrency).0;
      assert Status(b'.migrations[n]) == StatusRunning && Status(b'.migrations[x]) == StatusRunning;
    }
  }

  /** With an up-to-date cache every pick is prudent. */
  lemma UpToDatePickIsPrudent(b: Board, n: Name)
    requires AtMostOneRunning(b) && MayPick(b.migrations, n)
    ensures Prudent(b, n)
  {
  }

  /** With an outdated one it need not be: the answer to the update that marks one migration as
      running is lost, the controller dies, and before its cache shows the mark it picks another
      pending migration. */
  lemma OutdatedCacheRunsTwo(b: Board, x: Name, y: Name, concurrency: nat)
    requires x in b.migrations && y in b.migrations && x != y
    requires Status(b.migrations[x]) == StatusPending && Status(b.migrations[y]) == StatusPending
    requires !AnyRunning(b.migrations)
    ensures var lost := QUIET_MOVE.(turn := Turn([], Lost(CONFLICT)));
            var view := b.migrations;
            !AtMostOneRunning(History(b, [Pick(view, x, [QUIET_MOVE, lost]), Pick(view, y, [QUIET_MOVE, QUIET_MOVE])], concurrency))
  {
    var lost := QUIET_MOVE.(turn := Turn([], Lost(CONFLICT)));
    var view := b.migrations;
    var first, second := Pick(view, x, [QUIET_MOVE, lost]), Pick(view, y, [QUIET_MOVE, QUIET_MOVE]);
    TwoCallsMark(b.WorldOf(KeyOf(b.migrations[x])), b.migrations[x], Lost(CONFLICT), concurrency);
    var b1 := Happens(b, first, concurrency);
    assert b1.migrations == b.migrations[x := AsStarted(b.migrations[x])];
    TwoCallsMark(b1.WorldOf(KeyOf(b1.migrations[y])), b1.migrations[y], Ok, concurrency);
    assert QUIET_MOVE.(turn := Turn([], Ok)) == QUIET_MOVE;
    var b2 := Happens(b1, second, concurrency);
    assert Status(b2.migrations[x]) == StatusRunning && Status(b2.migrations[y]) == StatusRunning;
    assert [first, second][1..] == [second] && [second][1..] == [];
    assert History(b1, [second], concurrency) == History(b2, [], concurrency);
  }

  // ------------------------------------------------------------------ safety over histories

  lemma PickIsSafe(b: Board, n: Name, moves: seq<Move>, concurrency: nat)
    requires BoardSafe(b) && concurrency > 0
    ensures BoardSafe(Processed(b, n, moves, concurrency).0)
  {
    if n in b.migrations {
      var m := b.migrations[n];
      var w := b.WorldOf(KeyOf(m));
      var end := Lifecycle.ProcessOne(w, Some(m), moves, concurrency);
      ProcessOneIsHonest(w, Some(m), moves, concurrency);
      ResourceIsKept(w, Some(m), moves, concurrency);
      var b' := Processed(b, n, moves, concurrency).0;
      forall x | x in b'.migrations
        ensures x < b'.next && CursorSafe(b'.WorldOf(KeyOf(b'.migrations[x])), b'.migrations[x].token)
      {
        if x != n && KeyOf(b.migrations[x]) == KeyOf(m) {
          CursorStaysSafe(w, end.w, b.migrations[x].token);
        }
      }
    }
  }

  lemma WriteIsSafe(b: Board, key: GroupResource, x: ApiServer.Write, concurrency: nat)
    requires BoardSafe(b)
    ensures BoardSafe(Happens(b, BoardEvent.Write(key, x), concurrency))
  {
    var w := b.WorldOf(key);
    ApplyIsSound(w, x);
    var b' := Happens(b, BoardEvent.Write(key, x), concurrency);
    forall n | n in b'.migrations
      ensures CursorSafe(b'.WorldOf(KeyOf(b'.migrations[n])), b'.migrations[n].token)
    {
      if KeyOf(b.migrations[n]) == key {
        CursorStaysSafe(w, w.Apply(x), b.migrations[n].token);
      }
    }
  }

  /** Every event keeps at most one migration running and every saved cursor safe, if its picks
      are prudent; the cursors even if they are not. */
  lemma EventIsSafe(b: Board, e: BoardEvent, concurrency: nat)
    requires BoardSafe(b) && concurrency > 0
    ensures BoardSafe(Happens(b, e, concurrency))
    ensures AtMostOneRunning(b) && (e.Pick? ==> Prudent(b, e.name)) ==> AtMostOneRunning(Happens(b, e, concurrency))
  {
    match e
    case Pick(view, n, moves) =>
      PickIsSafe(b, n, moves, concurrency);
      if AtMostOneRunning(b) && Prudent(b, n) {
        PrudentPickKeepsOne(b, n, moves, concurrency);
      }
    case Write(key, x) => WriteIsSafe(b, key, x, concurrency);
    case Create(r) => assert Status(Migration(r, Start, [], 0)) == StatusPending;
    case Forget(n) =>
  }

  ghost predicate AllPrudent(b: Board, es: seq<BoardEvent>, concurrency: nat)
    decreases |es|
  {
    es == [] ||
    (&& (es[0].Pick? && MayPick(es[0].view, es[0].name) ==> Prudent(b, es[0].name))
     && AllPrudent(Happens(b, es[0], concurrency), es[1..], concurrency))
  }

  /** Over every history, every saved cursor is safe to resume from; and over every history of
      prudent picks at most one migration is running. */
  lemma {:induction false} HistoryIsSafe(b: Board, es: seq<BoardEvent>, concurrency: nat)
    requires BoardSafe(b) && concurrency > 0
    ensures BoardSafe(History(b, es, concurrency))
    ensures AtMostOneRunning(b) && AllPrudent(b, es, concurrency) ==> AtMostOneRunning(History(b, es, concurrency))
    decreases |es|
  {
    if es != [] {
      EventIsSafe(b, es[0], concurrency);
      HistoryIsSafe(Happens(b, es[0], concurrency), es[1..], concurrency);
    }
  }

  /** Over every history: a completed migration stays completed as long as it exists, and its
      name never comes back. */
  lemma {:induction false} CompletionIsForGood(b: Board, es: seq<BoardEvent>, n: Name, concurrency: nat)
    requires n < b.next && (n in b.migrations ==> !Incomplete(b.migrations[n]))
    ensures var b' := History(b, es, concurrency);
            n < b'.next && (n in b'.migrations ==> n in b.migrations && !Incomplete(b'.migrations[n]))
    decreases |es|
  {
    if es != [] {
      var e := es[0];
      if e.Pick? && e.name == n && n in b.migrations {
        CompletedStaysSo(b.WorldOf(KeyOf(b.migrations[n])), b.migrations[n], e.moves, concurrency);
      }
      CompletionIsForGood(Happens(b, e, concurrency), es[1..], n, concurrency);
    }
  }

  // ------------------------------------------------------------------ progress

  function Incompletes(b: Board): set<Name> {
    set n | n in b.migrations && Incomplete(b.migrations[n])
  }

  lemma CompletingOne(b: Board, n: Name, w: World, m: Migration)
    requires n in b.migrations && Incomplete(b.migrations[n]) && !Incomplete(m)
    ensures var b' := b.(worlds := b.worlds[KeyOf(b.migrations[n]) := w], migrations := b.migrations[n := m]);
            && Incompletes(b') == Incompletes(b) - {n}
            && |Incompletes(b')| == |Incompletes(b)| - 1
  {
    var b' := b.(worlds := b.worlds[KeyOf(b.migrations[n]) := w], migrations := b.migrations[n := m]);
    assert n in Incompletes(b);
    assert Incompletes(b') == Incompletes(b) - {n};
  }

  /** A call that ran its migration and recorded the verdict completes exactly that one
      migration. */
  lemma EachCallCompletesOne(b: Board, n: Name, moves: seq<Move>, concurrency: nat)
    requires BoardSafe(b) && n in b.migrations && Incomplete(b.migrations[n]) && concurrency > 0
    ensures var (b', report) := Processed(b, n, moves, concurrency);
            && report != AlreadyCompleted
            && (report.Ran? && report.marked == Updated ==>
                  && Incompletes(b') == Incompletes(b) - {n}
                  && |Incompletes(b')| == |Incompletes(b)| - 1)
  {
    var m := b.migrations[n];
    var w := b.WorldOf(KeyOf(m));
    ProcessOneIsHonest(w, Some(m), moves, concurrency);
    if moves != [] {
      VisitsKeepConditions(Some(m), moves[0].visits);
    }
    var end := Lifecycle.ProcessOne(w, Some(m), moves, concurrency);
    if end.report.Ran? && end.report.marked == Updated {
      SaidIsCompleted(end.stored.value, Verdict(end.report.err), Message(end.report.err));
      CompletingOne(b, n, end.w, end.stored.value);
    }
  }

  /** Calls enough for processOne: one to read, one to mark, the run, and three for the verdict. */
  function CallBudget(w: World, m: Migration, moves: seq<Move>, concurrency: nat): int {
    6 + RunBudget(System(w, Some(m), Loading), moves, concurrency)
  }

  /** The state in which the run of a call begins, after the first two calls. */
  function RunStart(w: World, m: Migration, moves: seq<Move>): System
    requires |moves| >= 2
  {
    var m1 := Marked(m, Running, "", moves[1].now);
    System(w.ApplyAll(moves[0].turn.others).ApplyAll(moves[1].turn.others),
           Some(m.(conditions := m1.conditions, rv := m.rv + 1)), Loading)
  }

  lemma DelaysAdd(concurrency: nat, x: nat, y: nat)
    ensures KeyCost(concurrency) * x + KeyCost(concurrency) * y <= RunSetback(concurrency) * (x + y)
  {
    Distribute(KeyCost(concurrency), x, y);
    assert RunSetback(concurrency) * (x + y) == KeyCost(concurrency) * (x + y) + (2 * concurrency + 3) * (x + y);
  }

  lemma TwoWritesDelay(w: World, t: Token, xs: seq<ApiServer.Write>, ys: seq<ApiServer.Write>, concurrency: nat)
    requires w.Valid() && CursorSafe(w, t)
    ensures ListRank(w.ApplyAll(xs).ApplyAll(ys), t, concurrency)
            <= ListRank(w, t, concurrency) + KeyCost(concurrency) * |xs| + KeyCost(concurrency) * |ys|
  {
    ApplyAllIsSound(w, xs);
    WritesAddKeys(w, xs, t, concurrency);
    WritesAddKeys(w.ApplyAll(xs), ys, t, concurrency);
  }

  lemma BudgetOfRun(w: World, m: Migration, moves: seq<Move>, concurrency: nat)
    requires w.Valid() && CursorSafe(w, m.token) && |moves| >= 2
    ensures RunBudget(RunStart(w, m, moves), moves[2..], concurrency) + 6 <= CallBudget(w, m, moves, concurrency)
  {
    var xs, ys := moves[0].turn.others, moves[1].turn.others;
    TwoWritesDelay(w, m.token, xs, ys, concurrency);
    DelaysAdd(concurrency, |xs|, |ys|);
    assert moves[1..][1..] == moves[2..];
    var c, fuss := RunSetback(concurrency), TotalFuss(moves[2..]);
    assert TotalFuss(moves) == MoveFuss(moves[0]) + MoveFuss(moves[1]) + fuss;
    Scale(c, |xs| + |ys| + fuss, TotalFuss(moves), 0);
    Distribute(c, |xs| + |ys|, fuss);
  }

  lemma CalmBegin(w: World, m: Migration, moves: seq<Move>)
    requires Incomplete(m) && |moves| >= 2 && Calm(moves[0]) && Calm(moves[1])
    ensures var s := RunStart(w, m, moves);
            StatusRun(w.ApplyAll(moves[0].turn.others), Some(m), m, Running, "", moves[1..], STATUS_ATTEMPTS)
            == StatusEnd(s.w, s.ticket, Marked(m, Running, "", moves[1].now), moves[2..], Updated)
  {
    assert moves[1..][0] == moves[1] && moves[1..][1..] == moves[2..];
  }

  /** Without faults, a call that has enough moves, each of which lets something move, returns,
      and its verdict is recorded. */
  lemma CalmCallReturns(w: World, m: Migration, moves: seq<Move>, concurrency: nat)
    requires w.Valid() && CursorSafe(w, m.token) && Incomplete(m) && AllCalm(moves) && concurrency > 0
    requires |moves| >= 2 && |moves| >= CallBudget(w, m, moves, concurrency)
    requires Productive(RunStart(w, m, moves), moves[2..], concurrency)
    ensures var report := Lifecycle.ProcessOne(w, Some(m), moves, concurrency).report;
            report.Ran? && report.marked == Updated
  {
    assert Calm(moves[0]) && Calm(moves[1]);
    CalmBegin(w, m, moves);
    BudgetOfRun(w, m, moves, concurrency);
    var s := RunStart(w, m, moves);
    StartIsSafe(w, m, moves);
    ProductiveRunReturns(s, moves[2..], concurrency);
    CalmExec(s, moves[2..], concurrency);
    var run := Exec(s, moves[2..], concurrency);
    assert |run.rest| >= 3;
    CalmVerdict(run, Marked(m, Running, "", moves[1].now));
  }

  /** If moreover the lists are served, the verdict is success, and every object is current. */
  lemma CalmCallSucceeds(w: World, m: Migration, moves: seq<Move>, concurrency: nat)
    requires w.Valid() && CursorSafe(w, m.token) && Incomplete(m) && AllCalm(moves) && AllServed(moves) && concurrency > 0
    requires |moves| >= 2 && |moves| >= CallBudget(w, m, moves, concurrency)
    requires Productive(RunStart(w, m, moves), moves[2..], concurrency)
    ensures var end := Lifecycle.ProcessOne(w, Some(m), moves, concurrency);
            && end.report == Ran(None, Updated) && end.w.AllCurrent()
            && end.stored.Some? && HasCondition(end.stored.value, Succeeded)
  {
    assert Calm(moves[0]) && Calm(moves[1]);
    CalmCallReturns(w, m, moves, concurrency);
    CalmBegin(w, m, moves);
    StartIsSafe(w, m, moves);
    CalmRunIsGentle(RunStart(w, m, moves), moves[2..], concurrency);
    GentleRunSucceeds(RunStart(w, m, moves), moves[2..], concurrency);
    ProcessOneIsHonest(w, Some(m), moves, concurrency);
    var end := Lifecycle.ProcessOne(w, Some(m), moves, concurrency);
    assert end.report == Ran(None, Updated);
    SaidIsCompleted(end.stored.value, Succeeded, "");
  }

  /** Such a call exists for every incomplete migration. */
  lemma SomeCallReturns(w: World, m: Migration, concurrency: nat) returns (moves: seq<Move>)
    requires w.Valid() && CursorSafe(w, m.token) && Incomplete(m) && concurrency > 0
    ensures AllCalm(moves)
    ensures var end := Lifecycle.ProcessOne(w, Some(m), moves, concurrency);
            end.report == Ran(None, Updated) && end.w.AllCurrent()
  {
    var two := [QUIET_MOVE, QUIET_MOVE];
    StartIsSafe(w, m, two);
    var s := RunStart(w, m, two);
    var budget := 6 + RunRank(System(w, Some(m), Loading), concurrency);
    var rest := ScheduleExists(s, budget, concurrency);
    moves := two + rest;
    assert moves[2..] == rest && moves[1..][1..] == rest;
    assert RunStart(w, m, moves) == s;
    assert TotalFuss(moves) == 0;
    CalmCallSucceeds(w, m, moves, concurrency);
  }

  lemma StartIsSafe(w: World, m: Migration, moves: seq<Move>)
    requires w.Valid() && CursorSafe(w, m.token) && |moves| >= 2
    ensures Safe(RunStart(w, m, moves))
  {
    var w1 := w.ApplyAll(moves[0].turn.others);
    ApplyAllIsSound(w, moves[0].turn.others);
    ApplyAllIsSound(w1, moves[1].turn.others);
    CursorStaysSafe(w, w1, m.token);
    CursorStaysSafe(w1, w1.ApplyAll(moves[1].turn.others), m.token);
  }

  lemma CalmVerdict(run: RunEnd, m: Migration)
    requires run.s.phase.Finished? && run.s.ticket.Some? && AllCalm(run.rest) && |run.rest| >= 3
    ensures var report := Judged(m, run).report;
            report.Ran? && report.marked == Updated
  {
    assert Calm(run.rest[0]) && Calm(run.rest[1]) && Calm(run.rest[2]);
    SecondAttemptSucceeds(run.s.w, run.s.ticket, m, Verdict(run.s.phase.err), Message(run.s.phase.err), run.rest);
  }

  /** A call of process with an up-to-date cache and without faults that has moves enough. */
  ghost predicate FullCall(b: Board, e: BoardEvent, concurrency: nat) {
    && e.Pick? && e.view == b.migrations && MayPick(e.view, e.name) && AllCalm(e.moves)
    && var m := b.migrations[e.name];
       var w := b.WorldOf(KeyOf(m));
       && |e.moves| >= 2 && |e.moves| >= CallBudget(w, m, e.moves, concurrency)
       && Productive(RunStart(w, m, e.moves), e.moves[2..], concurrency)
  }

  ghost predicate FullCalls(b: Board, es: seq<BoardEvent>, concurrency: nat)
    decreases |es|
  {
    es == [] || (FullCall(b, es[0], concurrency) && FullCalls(Happens(b, es[0], concurrency), es[1..], concurrency))
  }

  /** Each such call returns and lowers the number of incomplete migrations by exactly one,
      until none remain. */
  lemma {:induction false} CallsDrainTheBoard(b: Board, es: seq<BoardEvent>, concurrency: nat)
    requires BoardSafe(b) && concurrency > 0 && FullCalls(b, es, concurrency)
    ensures |Incompletes(History(b, es, concurrency))| == |Incompletes(b)| - |es|
    ensures |es| == |Incompletes(b)| ==> Incompletes(History(b, es, concurrency)) == {}
    decreases |es|
  {
    if es != [] {
      var n, moves := es[0].name, es[0].moves;
      var m := b.migrations[n];
      CalmCallReturns(b.WorldOf(KeyOf(m)), m, moves, concurrency);
      EachCallCompletesOne(b, n, moves, concurrency);
      EventIsSafe(b, es[0], concurrency);
      CallsDrainTheBoard(Happens(b, es[0], concurrency), es[1..], concurrency);
    }
  }
}
