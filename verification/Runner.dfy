/** Run of pkg/migrator/core.go as a state machine, one step a call: it lists chunks,
    migrates each with the worker pool, and saves its cursor with pkg/migrator/progress.go. */
module Runner {
  import opened Wrappers
  import opened Errors
  import opened ApiServer
  import opened ItemMigration
  import opened WorkerPool
  import opened Migrations

  const CHUNK_LIMIT: nat := 500

  const DEFAULT_CONCURRENCY: nat := 1

  /** Attempts of a save that runs into conflicts. */
  const SAVE_ATTEMPTS: nat := 5

  /** How the server treats a list call. An expiry may come without a status, or with an
      empty token, from servers that cannot continue the list. */
  datatype ListReply = Serve(hint: nat) | ListFails(e: Error) | Expire(isStatus: bool, hasToken: bool)

  datatype ListResult = Listed(page: Page) | ListError(e: Error) | ListExpired(token: Option<Token>)

  /** One step of the machine, all that others do before it, and the time on our clock. */
  datatype Move = Move(turn: Turn, visits: seq<Visit>, list: ListReply, actor: Actor, now: nat)

  datatype RunError =
    | LoadFailed(e: Error)
    | ListFailed(e: Error)
    | NoContinueToken
    | ItemsFailed(errors: seq<Error>)

  datatype Phase =
    | Loading
    | Listing(token: Token)
    | Migrating(pool: Pool, next: Token)
    | SaveGet(token: Token, attempts: nat)
    | SavePut(token: Token, fetched: Migration, attempts: nat)
    | Finished(err: Option<RunError>)

  /** The objects, the migration object that holds the saved cursor, and the running code. */
  datatype System = System(w: World, ticket: Option<Migration>, phase: Phase)

  function ListAnswer(w: World, t: Token, reply: ListReply): ListResult {
    match reply
    case Serve(hint) => Listed(ServePage(w, t, CHUNK_LIMIT, hint))
    case ListFails(e) => ListError(e)
    case Expire(isStatus, hasToken) =>
      ListExpired(if !isStatus then None else if hasToken && t.Continue? then Some(Continue(t.after, None)) else Some(Start))
  }

  function AfterList(t: Token, r: ListResult, concurrency: nat): Phase {
    match r
    case ListError(e) =>
      if e.reason == NotFound then Finished(Some(ListFailed(e)))
      else if CanRetry(e) then Listing(t)
      else Finished(Some(ListFailed(e)))
    case ListExpired(token) =>
      if token.None? || token.value.Start? then Finished(Some(NoContinueToken))
      else SaveGet(token.value, SAVE_ATTEMPTS)
    case Listed(page) => Migrating(Launch(page.items, concurrency), page.next)
  }

  function AfterPage(errors: seq<Error>, next: Token): Phase {
    if errors != [] then Finished(Some(ItemsFailed(errors)))
    else if next.Start? then Finished(None)
    else SaveGet(next, SAVE_ATTEMPTS)
  }

  /** A save is repeated on conflicts only; when it fails for good, the run goes on. */
  function AfterSaveError(t: Token, e: Error, attempts: nat): Phase {
    if e.reason == Conflict && attempts > 1 then SaveGet(t, attempts - 1) else Listing(t)
  }

  function AfterSaveGet(t: Token, r: Result<Migration, Error>, attempts: nat): Phase {
    match r
    case Success(m) => SavePut(t, m.(token := t), attempts)
    case Failure(e) => AfterSaveError(t, e, attempts)
  }

  function AfterSavePut(t: Token, err: Option<Error>, attempts: nat): Phase {
    if err.Some? then AfterSaveError(t, err.value, attempts) else Listing(t)
  }

  function Step(s: System, m: Move, concurrency: nat): System {
    var w := s.w.ApplyAll(m.turn.others);
    var ticket := ApplyVisits(s.ticket, m.visits);
    match s.phase
    case Loading =>
      (match GetMigration(ticket, m.turn.reply)
       case Success(x) => System(w, ticket, Listing(x.token))
       case Failure(e) => System(w, ticket, Finished(Some(LoadFailed(e)))))
    case Listing(t) =>
      System(w, ticket, AfterList(t, ListAnswer(w, t, m.list), concurrency))
    case Migrating(p, next) =>
      var (w', p') := PoolStep(s.w, p, m.actor, m.turn);
      System(w', ticket, if p'.returned then AfterPage(p'.errors, next) else Migrating(p', next))
    case SaveGet(t, n) =>
      System(w, ticket, AfterSaveGet(t, GetMigration(ticket, m.turn.reply), n))
    case SavePut(t, x, n) =>
      System(w, AfterUpdate(ticket, x, m.turn.reply), AfterSavePut(t, UpdateError(ticket, x, m.turn.reply), n))
    case Finished(_) =>
      System(w, ticket, s.phase)
  }

  datatype RunEnd = RunEnd(s: System, rest: seq<Move>)

  /** All steps, until the run is finished or the process is cut off. */
  function Exec(s: System, moves: seq<Move>, concurrency: nat): RunEnd
    decreases |moves|
  {
    if s.phase.Finished? || moves == [] then RunEnd(s, moves)
    else Exec(Step(s, moves[0], concurrency), moves[1..], concurrency)
  }

  // ------------------------------------------------------------------ the invariant

  /** Every lagging object is on the page at hand or after the next cursor. */
  ghost predicate PageSafe(w: World, items: seq<Item>, next: Token) {
    && (next.Continue? && next.snapshot.Some? ==> w.since <= next.snapshot.value <= |w.past|)
    && (forall k: Key :: w.Lagging(k) ==> Pages(items, k) || (next.Continue? && k > After(next)))
  }

  ghost predicate PhaseSafe(w: World, phase: Phase) {
    match phase
    case Loading => true
    case Listing(t) => CursorSafe(w, t)
    case Migrating(p, next) => Orderly(p) && Truthful(w, p) && !p.returned && PageSafe(w, p.items, next)
    case SaveGet(t, _) => CursorSafe(w, t)
    case SavePut(t, x, _) => CursorSafe(w, t) && x.token == t
    case Finished(None) => w.AllCurrent()
    case Finished(Some(e)) => Justified(e)
  }

  /** The cause of the failure is one that a retry could remove. A list of a resource that does
      not exist is not among them, nor is an item error that cannot be retried. */
  predicate Retriable(err: RunError) {
    match err
    case LoadFailed(e) => CanRetry(e)
    case ListFailed(e) => e.reason != NotFound && CanRetry(e)
    case NoContinueToken => true
    case ItemsFailed(errors) => errors == [] || exists n :: 0 <= n < |errors| && CanRetry(errors[n])
  }

  /** A list and the items of a page never fail a run for a cause that a retry could remove. */
  ghost predicate Justified(err: RunError) {
    Retriable(err) ==> err.LoadFailed? || err.NoContinueToken?
  }

  ghost predicate TicketSafe(w: World, ticket: Option<Migration>) {
    ticket.Some? ==> CursorSafe(w, ticket.value.token)
  }

  /** What every call and every other client keeps: no lagging object is at or before the
      cursor of the running code, nor at or before the saved one. */
  ghost predicate Safe(s: System) {
    && s.w.Valid()
    && TicketSafe(s.w, s.ticket)
    && PhaseSafe(s.w, s.phase)
  }

  lemma PhaseStaysSafe(w: World, w': World, phase: Phase)
    requires PhaseSafe(w, phase) && Evolves(w, w')
    ensures PhaseSafe(w', phase)
  {
    if phase.Migrating? {
      TruthIsStable(w, w', phase.pool);
    }
  }

  lemma {:induction false} VisitsKeepToken(m: Option<Migration>, vs: seq<Visit>)
    ensures var m' := ApplyVisits(m, vs);
            && (m'.Some? ==> m.Some? && m'.value.token == m.value.token && m'.value.resource == m.value.resource)
            && (m'.Some? ==> m.value.rv <= m'.value.rv)
    decreases |vs|
  {
    if vs != [] {
      VisitsKeepToken(ApplyVisit(m, vs[0]), vs[1..]);
    }
  }

  lemma ListIsSafe(w: World, t: Token, reply: ListReply, concurrency: nat)
    requires w.Valid() && CursorSafe(w, t) && concurrency > 0
    ensures PhaseSafe(w, AfterList(t, ListAnswer(w, t, reply), concurrency))
  {
    if reply.Serve? {
      PageCovers(w, t, CHUNK_LIMIT, reply.hint);
      LaunchIsOrderly(ListAnswer(w, t, reply).page.items, concurrency);
    }
  }

  lemma PageIsSafe(w: World, p: Pool, next: Token)
    requires Orderly(p) && Truthful(w, p) && p.returned && PageSafe(w, p.items, next)
    ensures PhaseSafe(w, AfterPage(p.errors, next))
  {
    if p.errors == [] {
      NilMeansMigrated(w, p);
    } else {
      forall n | 0 <= n < |p.errors|
        ensures !CanRetry(p.errors[n])
      {
        ErrorsAreFinal(w, p, n);
      }
    }
  }

  lemma MigratingIsSafe(s: System, m: Move, concurrency: nat)
    requires s.w.Valid() && PhaseSafe(s.w, s.phase) && s.phase.Migrating?
    ensures var s' := Step(s, m, concurrency);
            && s'.w.Valid() && PhaseSafe(s'.w, s'.phase)
            && Evolves(s.w, s'.w)
            && Contents(s'.w) == OverwriteAll(Contents(s.w), m.turn.others)
  {
    var p := s.phase.pool;
    PoolStepIsOrderly(s.w, p, m.actor, m.turn);
    PoolStepIsTruthful(s.w, p, m.actor, m.turn);
    var (w', p') := PoolStep(s.w, p, m.actor, m.turn);
    if p'.returned {
      PageIsSafe(w', p', s.phase.next);
    }
  }

  lemma OtherPhasesAreSafe(s: System, m: Move, concurrency: nat)
    requires s.w.Valid() && PhaseSafe(s.w, s.phase) && !s.phase.Migrating?
    requires TicketSafe(s.w, s.ticket) && concurrency > 0
    ensures var s' := Step(s, m, concurrency);
            && s'.w == s.w.ApplyAll(m.turn.others)
            && Safe(s')
  {
    var w := s.w.ApplyAll(m.turn.others);
    ApplyAllIsSound(s.w, m.turn.others);
    VisitsKeepToken(s.ticket, m.visits);
    PhaseStaysSafe(s.w, w, s.phase);
    if s.phase.Listing? {
      ListIsSafe(w, s.phase.token, m.list, concurrency);
    }
  }

  /** One step keeps the invariant, never makes an object lag, and changes the stored
      contents only as the other writers do. */
  lemma StepIsSafe(s: System, m: Move, concurrency: nat)
    requires Safe(s) && concurrency > 0
    ensures var s' := Step(s, m, concurrency);
            && Safe(s')
            && Evolves(s.w, s'.w)
            && Contents(s'.w) == OverwriteAll(Contents(s.w), m.turn.others)
  {
    if s.phase.Migrating? {
      MigratingIsSafe(s, m, concurrency);
      VisitsKeepToken(s.ticket, m.visits);
    } else {
      ApplyAllIsSound(s.w, m.turn.others);
      OtherPhasesAreSafe(s, m, concurrency);
    }
  }

  /** A save that fails, even because the migration object was deleted, never ends the run:
      it goes on listing at the cursor that it could not save. */
  lemma SavesNeverEndARun(s: System, m: Move, concurrency: nat)
    requires s.phase.SaveGet? || s.phase.SavePut?
    ensures var phase := Step(s, m, concurrency).phase;
            && (phase.SaveGet? || phase.SavePut? || phase.Listing?)
            && phase.token == s.phase.token
            && (m.turn.reply == Ok && ApplyVisits(s.ticket, m.visits) == None ==> phase.Listing?)
  {
  }

  function WritesOf(moves: seq<Move>): seq<Write> {
    if moves == [] then [] else moves[0].turn.others + WritesOf(moves[1..])
  }

  /** The writes of the others in the moves that a run has used up. */
  function WritesUntil(moves: seq<Move>, rest: seq<Move>): seq<Write>
    requires |rest| <= |moves|
  {
    WritesOf(moves[..|moves| - |rest|])
  }

  lemma WritesOfOneMore(moves: seq<Move>, rest: seq<Move>)
    requires |rest| < |moves|
    ensures WritesUntil(moves, rest) == moves[0].turn.others + WritesUntil(moves[1..], rest)
  {
    var n := |moves| - |rest|;
    assert moves[..n][1..] == moves[1..][..n - 1];
  }

  lemma {:induction false} ExecConsumes(s: System, moves: seq<Move>, concurrency: nat)
    ensures var end := Exec(s, moves, concurrency);
            |end.rest| <= |moves| && (!end.s.phase.Finished? ==> end.rest == [])
    decreases |moves|
  {
    if !s.phase.Finished? && moves != [] {
      ExecConsumes(Step(s, moves[0], concurrency), moves[1..], concurrency);
    }
  }

  lemma {:induction false} ExecIsSafe(s: System, moves: seq<Move>, concurrency: nat)
    requires Safe(s) && concurrency > 0
    ensures var end := Exec(s, moves, concurrency);
            && Safe(end.s) && Evolves(s.w, end.s.w)
            && |end.rest| <= |moves|
            && Contents(end.s.w) == OverwriteAll(Contents(s.w), WritesUntil(moves, end.rest))
            && (!end.s.phase.Finished? ==> end.rest == [])
    decreases |moves|
  {
    ExecConsumes(s, moves, concurrency);
    var end := Exec(s, moves, concurrency);
    if s.phase.Finished? || moves == [] {
      assert moves[..0] == [];
    } else {
      var s' := Step(s, moves[0], concurrency);
      StepIsSafe(s, moves[0], concurrency);
      ExecIsSafe(s', moves[1..], concurrency);
      EvolvesOn(s.w, s'.w, end.s.w);
      WritesOfOneMore(moves, end.rest);
      OverwriteAllAppends(Contents(s.w), moves[0].turn.others, WritesUntil(moves[1..], end.rest));
    }
  }

  // ------------------------------------------------------------------ what a save does

  datatype SaveEnd = SaveEnd(w: World, ticket: Option<Migration>, rest: seq<Move>, saved: Ending<Option<Error>>)

  /** A save as a whole: get the migration object, set its token, update it; after a conflict,
      all of it again, as long as there are attempts. */
  function SaveRun(w: World, ticket: Option<Migration>, t: Token, moves: seq<Move>, attempts: nat): SaveEnd
    requires attempts > 0
    decreases attempts, 1
  {
    if moves == [] then SaveEnd(w, ticket, [], CutOff)
    else
      var w1 := w.ApplyAll(moves[0].turn.others);
      var ticket1 := ApplyVisits(ticket, moves[0].visits);
      match GetMigration(ticket1, moves[0].turn.reply)
      case Failure(e) => SaveFailed(w1, ticket1, t, moves[1..], attempts, e)
      case Success(x) =>
        if |moves| == 1 then SaveEnd(w1, ticket1, [], CutOff)
        else
          var w2 := w1.ApplyAll(moves[1].turn.others);
          var ticket2 := ApplyVisits(ticket1, moves[1].visits);
          var sent := x.(token := t);
          var ticket3 := AfterUpdate(ticket2, sent, moves[1].turn.reply);
          match UpdateError(ticket2, sent, moves[1].turn.reply)
          case None => SaveEnd(w2, ticket3, moves[2..], Returned(None))
          case Some(e) => SaveFailed(w2, ticket3, t, moves[2..], attempts, e)
  }

  function SaveFailed(w: World, ticket: Option<Migration>, t: Token, moves: seq<Move>, attempts: nat, e: Error): SaveEnd
    requires attempts > 0
    decreases attempts, 0
  {
    if e.reason == Conflict && attempts > 1 then SaveRun(w, ticket, t, moves, attempts - 1)
    else SaveEnd(w, ticket, moves, Returned(Some(e)))
  }

  /** The machine goes on from where the save leaves off, at the same token in any case. */
  ghost predicate GoesOn(end: SaveEnd, t: Token, run: RunEnd, concurrency: nat) {
    match end.saved
    case Returned(_) => run == Exec(System(end.w, end.ticket, Listing(t)), end.rest, concurrency)
    case CutOff =>
      && run == RunEnd(System(end.w, end.ticket, run.s.phase), [])
      && end.rest == [] && !run.s.phase.Finished?
  }

  lemma {:induction false} SaveIsExec(w: World, ticket: Option<Migration>, t: Token, moves: seq<Move>, attempts: nat, concurrency: nat)
    requires attempts > 0
    ensures GoesOn(SaveRun(w, ticket, t, moves, attempts), t, Exec(System(w, ticket, SaveGet(t, attempts)), moves, concurrency), concurrency)
    decreases attempts, 1
  {
    if moves != [] {
      var s1 := Step(System(w, ticket, SaveGet(t, attempts)), moves[0], concurrency);
      if s1.phase.SavePut? {
        PutGoesOn(s1, t, s1.phase.fetched, moves[1..], attempts, concurrency);
        if |moves| > 1 {
          assert moves[1..][1..] == moves[2..];
        }
      } else if s1.phase.SaveGet? {
        SaveIsExec(s1.w, s1.ticket, t, moves[1..], attempts - 1, concurrency);
      }
    }
  }

  lemma PutGoesOn(s: System, t: Token, sent: Migration, moves: seq<Move>, attempts: nat, concurrency: nat)
    requires attempts > 0 && s.phase == SavePut(t, sent, attempts)
    ensures
      var run := Exec(s, moves, concurrency);
      if moves == [] then run == RunEnd(s, [])
      else
        var w2 := s.w.ApplyAll(moves[0].turn.others);
        var ticket2 := ApplyVisits(s.ticket, moves[0].visits);
        var ticket3 := AfterUpdate(ticket2, sent, moves[0].turn.reply);
        match UpdateError(ticket2, sent, moves[0].turn.reply)
        case None => run == Exec(System(w2, ticket3, Listing(t)), moves[1..], concurrency)
        case Some(e) => GoesOn(SaveFailed(w2, ticket3, t, moves[1..], attempts, e), t, run, concurrency)
    decreases attempts, 0
  {
    if moves != [] {
      var s1 := Step(s, moves[0], concurrency);
      if s1.phase.SaveGet? {
        SaveIsExec(s1.w, s1.ticket, t, moves[1..], attempts - 1, concurrency);
      }
    }
  }

  /** A nil result of a save means that the token is stored. */
  lemma {:induction false} NilSaveIsStored(w: World, ticket: Option<Migration>, t: Token, moves: seq<Move>, attempts: nat)
    requires attempts > 0
    ensures var end := SaveRun(w, ticket, t, moves, attempts);
            end.saved == Returned(None) ==> end.ticket.Some? && end.ticket.value.token == t
    decreases attempts
  {
    if moves != [] && attempts > 1 {
      var w1 := w.ApplyAll(moves[0].turn.others);
      var ticket1 := ApplyVisits(ticket, moves[0].visits);
      var got := GetMigration(ticket1, moves[0].turn.reply);
      if got.Failure? {
        NilSaveIsStored(w1, ticket1, t, moves[1..], attempts - 1);
      } else if |moves| > 1 {
        var ticket2 := ApplyVisits(ticket1, moves[1].visits);
        var ticket3 := AfterUpdate(ticket2, got.value.(token := t), moves[1].turn.reply);
        NilSaveIsStored(w1.ApplyAll(moves[1].turn.others), ticket3, t, moves[2..], attempts - 1);
      }
    }
  }

  /** The migration object is there and is read, and its update goes through unhindered. */
  predicate GoodAttempt(ticket: Option<Migration>, get: Move, put: Move) {
    var read := ApplyVisits(ticket, get.visits);
    && get.turn.reply == Ok && read.Some?
    && put.turn.reply == Ok && ApplyVisits(read, put.visits) == read
  }

  /** The object is read, but its update meets a conflict. */
  predicate Conflicted(ticket: Option<Migration>, t: Token, get: Move, put: Move) {
    var read := ApplyVisits(ticket, get.visits);
    && get.turn.reply == Ok && read.Some?
    && var err := UpdateError(ApplyVisits(read, put.visits), read.value.(token := t), put.turn.reply);
       err.Some? && err.value.reason == Conflict
  }

  function AfterConflict(ticket: Option<Migration>, t: Token, get: Move, put: Move): Option<Migration>
    requires Conflicted(ticket, t, get, put)
  {
    var read := ApplyVisits(ticket, get.visits);
    AfterUpdate(ApplyVisits(read, put.visits), read.value.(token := t), put.turn.reply)
  }

  /** The moves begin with k attempts that meet a conflict. */
  predicate Conflicts(ticket: Option<Migration>, t: Token, moves: seq<Move>, k: nat)
    decreases k
  {
    k == 0 ||
    (&& |moves| >= 2
     && Conflicted(ticket, t, moves[0], moves[1])
     && Conflicts(AfterConflict(ticket, t, moves[0], moves[1]), t, moves[2..], k - 1))
  }

  /** What the object is after so many conflicts. */
  function Beaten(ticket: Option<Migration>, t: Token, moves: seq<Move>, k: nat): Option<Migration>
    requires Conflicts(ticket, t, moves, k)
    decreases k
  {
    if k == 0 then ticket else Beaten(AfterConflict(ticket, t, moves[0], moves[1]), t, moves[2..], k - 1)
  }

  /** The token is what the save was given; all the rest is as it was read. */
  ghost predicate StoresToken(before: Option<Migration>, end: SaveEnd, t: Token) {
    && end.saved == Returned(None)
    && before.Some? && end.ticket == Some(before.value.(token := t, rv := before.value.rv + 1))
  }

  /** A save whose calls go through stores the token, and nothing else. */
  lemma GoodSaveStores(w: World, ticket: Option<Migration>, t: Token, moves: seq<Move>, attempts: nat)
    requires attempts > 0 && |moves| >= 2 && GoodAttempt(ticket, moves[0], moves[1])
    ensures var end := SaveRun(w, ticket, t, moves, attempts);
            StoresToken(ApplyVisits(ticket, moves[0].visits), end, t) && end.rest == moves[2..]
  {
  }

  /** Fewer conflicts than attempts do not keep it from storing the token, and as many do. */
  lemma {:induction false} SaveSurvivesConflicts(w: World, ticket: Option<Migration>, t: Token, moves: seq<Move>, attempts: nat, k: nat)
    requires attempts > 0 && k <= attempts && Conflicts(ticket, t, moves, k)
    requires k < attempts ==> |moves| >= 2 * k + 2 && GoodAttempt(Beaten(ticket, t, moves, k), moves[2 * k], moves[2 * k + 1])
    ensures var end := SaveRun(w, ticket, t, moves, attempts);
            if k < attempts then
              StoresToken(ApplyVisits(Beaten(ticket, t, moves, k), moves[2 * k].visits), end, t) && end.rest == moves[2 * k + 2..]
            else
              end.saved.Returned? && end.saved.value.Some? && end.saved.value.value.reason == Conflict
    decreases k
  {
    if k == 0 {
      GoodSaveStores(w, ticket, t, moves, attempts);
    } else if k > 1 || attempts > 1 {
      var w2 := w.ApplyAll(moves[0].turn.others).ApplyAll(moves[1].turn.others);
      var ticket' := AfterConflict(ticket, t, moves[0], moves[1]);
      SaveSurvivesConflicts(w2, ticket', t, moves[2..], attempts - 1, k - 1);
      if k < attempts {
        assert moves[2..][2 * (k - 1) + 2..] == moves[2 * k + 2..];
      }
    }
  }

  /** So a save, with its five attempts, survives any four conflicts. */
  lemma SaveSurvivesFour(w: World, ticket: Option<Migration>, t: Token, moves: seq<Move>, k: nat)
    requires k <= 4 && Conflicts(ticket, t, moves, k) && |moves| >= 2 * k + 2
    requires GoodAttempt(Beaten(ticket, t, moves, k), moves[2 * k], moves[2 * k + 1])
    ensures StoresToken(ApplyVisits(Beaten(ticket, t, moves, k), moves[2 * k].visits), SaveRun(w, ticket, t, moves, SAVE_ATTEMPTS), t)
  {
    SaveSurvivesConflicts(w, ticket, t, moves, SAVE_ATTEMPTS, k);
  }

  // ------------------------------------------------------------------ what a list does

  /** The run stops at a list error if the resource does not exist or cannot be listed, or if
      the error calls itself permanent and is no network trouble; on any other it lists again
      from the same token. */
  lemma ListErrorsEndRunExactlyIf(s: System, m: Move, concurrency: nat)
    requires s.phase.Listing? && m.list.ListFails?
    ensures var e := m.list.e;
            var phase := Step(s, m, concurrency).phase;
            if || e.reason == NotFound
               || e.reason == MethodNotAllowed
               || (e.reason == OtherReason && e.temporary == Some(false)
                   && !e.probableEOF && !e.connectionReset && !e.noRoutes && !e.connectionRefused)
            then phase == Finished(Some(ListFailed(e)))
            else phase == Listing(s.phase.token)
  {
  }

  /** An expiry that brings a token goes on from its cursor, over the latest state, and saves
      it. */
  lemma ExpiryGoesOn(s: System, m: Move, concurrency: nat)
    requires s.phase.Listing? && m.list == Expire(true, true) && s.phase.token.Continue?
    ensures Step(s, m, concurrency).phase == SaveGet(Continue(s.phase.token.after, None), SAVE_ATTEMPTS)
  {
  }

  /** A list asks for chunks of five hundred, and all of what the server serves is migrated. */
  lemma ListServesAChunk(s: System, m: Move, concurrency: nat)
    requires s.phase.Listing? && m.list.Serve?
    ensures var w := s.w.ApplyAll(m.turn.others);
            var phase := Step(s, m, concurrency).phase;
            var left := |Remaining(w, s.phase.token)|;
            && phase.Migrating? && phase.pool == Launch(ServePage(w, s.phase.token, 500, m.list.hint).items, concurrency)
            && (m.list.hint == 0 ==> |phase.pool.items| == if left < 500 then left else 500)
  {
  }

  // ------------------------------------------------------------------ the saved cursor follows the run

  /** If the step belongs to a save, its call goes through. */
  predicate SaveGoesWell(s: System, m: Move) {
    match s.phase
    case SaveGet(_, _) => m.turn.reply == Ok
    case SavePut(_, _, _) => m.turn.reply == Ok && ApplyVisits(s.ticket, m.visits) == s.ticket
    case _ => true
  }

  predicate SavesGoWell(s: System, moves: seq<Move>, concurrency: nat)
    decreases |moves|
  {
    s.phase.Finished? || moves == []
    || (SaveGoesWell(s, moves[0]) && SavesGoWell(Step(s, moves[0], concurrency), moves[1..], concurrency))
  }

  /** Unless others deleted it, the migration object holds the token at which the run lists; and
      the save under way holds the object as it is stored. */
  ghost predicate CursorIsStored(s: System) {
    s.ticket.Some? ==>
      match s.phase
      case Listing(t) => s.ticket.value.token == t
      case SavePut(t, x, _) => x.token == t && x.rv == s.ticket.value.rv
      case _ => true
  }

  lemma StepStoresCursor(s: System, m: Move, concurrency: nat)
    requires CursorIsStored(s) && SaveGoesWell(s, m)
    ensures CursorIsStored(Step(s, m, concurrency))
  {
    VisitsKeepToken(s.ticket, m.visits);
  }

  /** If the calls of its saves go through, the run never lists at a token that is not stored: a
      process that dies loses the page at hand and no more. */
  lemma {:induction false} RunStoresItsCursor(s: System, moves: seq<Move>, concurrency: nat)
    requires CursorIsStored(s) && SavesGoWell(s, moves, concurrency)
    ensures CursorIsStored(Exec(s, moves, concurrency).s)
    decreases |moves|
  {
    if !s.phase.Finished? && moves != [] {
      StepStoresCursor(s, moves[0], concurrency);
      RunStoresItsCursor(Step(s, moves[0], concurrency), moves[1..], concurrency);
    }
  }

  // ------------------------------------------------------------------ runs without lasting trouble

  predicate GentleReply(r: Reply) {
    match r
    case Ok => true
    case Fail(e) => CanRetry(e)
    case Lost(e) => CanRetry(e)
  }

  /** Nothing lasting goes wrong in the step: load's GET succeeds, list errors can be retried,
      expiries bring a token, and faults of item calls can be retried. */
  predicate GentleStep(s: System, m: Move) {
    match s.phase
    case Loading => GetMigration(ApplyVisits(s.ticket, m.visits), m.turn.reply).Success?
    case Listing(t) =>
      (match m.list
       case Serve(_) => true
       case ListFails(e) => e.reason != NotFound && CanRetry(e)
       case Expire(isStatus, hasToken) => isStatus && hasToken && t.Continue?)
    case Migrating(_, _) => GentleReply(m.turn.reply)
    case _ => true
  }

  predicate Gentle(s: System, moves: seq<Move>, concurrency: nat)
    decreases |moves|
  {
    s.phase.Finished? || moves == []
    || (GentleStep(s, moves[0]) && Gentle(Step(s, moves[0], concurrency), moves[1..], concurrency))
  }

  predicate NoItemErrors(p: Pool) {
    p.errors == [] && forall i :: 0 <= i < |p.workers| ==> !p.workers[i].Sending?
  }

  /** Nothing has failed for good. */
  predicate Unharmed(phase: Phase) {
    match phase
    case Migrating(p, _) => NoItemErrors(p)
    case Finished(err) => err == None
    case _ => true
  }

  lemma GentleCallsDoNotFail(w: World, item: Item, st: ItemState, reply: Reply)
    requires !st.Done? && GentleReply(reply)
    ensures var st' := ItemCall(w, item, st, reply).1;
            st'.Done? ==> st'.err == None
  {
  }

  lemma GentlePoolStep(w: World, p: Pool, a: Actor, t: Turn)
    requires NoItemErrors(p) && GentleReply(t.reply)
    ensures NoItemErrors(PoolStep(w, p, a, t).1)
  {
    if Enabled(p, a) && a.Call? && p.workers[a.who].job < |p.items| && !p.workers[a.who].st.Done? {
      GentleCallsDoNotFail(w.ApplyAll(t.others), p.items[p.workers[a.who].job], p.workers[a.who].st, t.reply);
    }
  }

  lemma GentleStepIsHarmless(s: System, m: Move, concurrency: nat)
    requires Unharmed(s.phase) && GentleStep(s, m)
    ensures Unharmed(Step(s, m, concurrency).phase)
  {
    if s.phase.Migrating? {
      GentlePoolStep(s.w, s.phase.pool, m.actor, m.turn);
    }
  }

  /** A run in which nothing lasting goes wrong returns nil if it returns, and then every object
      is current. */
  lemma {:induction false} GentleRunSucceeds(s: System, moves: seq<Move>, concurrency: nat)
    requires Safe(s) && concurrency > 0 && Unharmed(s.phase) && Gentle(s, moves, concurrency)
    ensures var end := Exec(s, moves, concurrency).s;
            end.phase.Finished? ==> end.phase == Finished(None) && end.w.AllCurrent()
    decreases |moves|
  {
    if !s.phase.Finished? && moves != [] {
      StepIsSafe(s, moves[0], concurrency);
      GentleStepIsHarmless(s, moves[0], concurrency);
      GentleRunSucceeds(Step(s, moves[0], concurrency), moves[1..], concurrency);
    }
  }

  // ------------------------------------------------------------------ completeness and resumption

  /** From a safe state, a run ends with a saved cursor that is safe to resume from, with a
      nil result only if all objects are migrated, and with an error only for a reason. */
  lemma ExecIsSound(s: System, moves: seq<Move>, concurrency: nat)
    requires concurrency > 0
    ensures var end := Exec(s, moves, concurrency).s;
            Safe(s) ==>
              && end.w.Valid() && TicketSafe(end.w, end.ticket)
              && (end.phase == Finished(None) ==> end.w.AllCurrent())
              && (end.phase.Finished? && end.phase.err.Some? ==> Justified(end.phase.err.value))
  {
    if Safe(s) {
      ExecIsSafe(s, moves, concurrency);
    }
  }

  /** A run that starts without a saved cursor and returns nil has migrated every object,
      whatever other writers, faults, expired tokens and schedules it met. */
  lemma RunIsComplete(w: World, ticket: Migration, moves: seq<Move>, concurrency: nat)
    requires w.Valid() && ticket.token == Start && concurrency > 0
    requires Exec(System(w, Some(ticket), Loading), moves, concurrency).s.phase == Finished(None)
    ensures Exec(System(w, Some(ticket), Loading), moves, concurrency).s.w.AllCurrent()
  {
    ExecIsSafe(System(w, Some(ticket), Loading), moves, concurrency);
  }

  /** The step that finishes a run: the state before it, and the move. */
  function LastStep(s: System, moves: seq<Move>, concurrency: nat): (System, Move)
    requires !s.phase.Finished? && Exec(s, moves, concurrency).s.phase.Finished?
    decreases |moves|
  {
    var s' := Step(s, moves[0], concurrency);
    if s'.phase.Finished? then (s, moves[0]) else LastStep(s', moves[1..], concurrency)
  }

  /** The one GET of load fails, although it could be tried again. */
  predicate LoadFailsRetriably(s: System, m: Move) {
    && s.phase.Loading?
    && var got := GetMigration(ApplyVisits(s.ticket, m.visits), m.turn.reply);
       got.Failure? && CanRetry(got.error)
  }

  /** The list expires, and the error brings no token to go on from. */
  predicate ExpiresTokenless(s: System, m: Move) {
    s.phase.Listing? && m.list.Expire? && !(m.list.isStatus && m.list.hasToken && s.phase.token.Continue?)
  }

  /** A run fails for a cause that a retry could remove exactly if it ended with a failed GET
      in load, or with an expiry without a token. No other transient error ends it. */
  lemma RunFailsForAReason(w: World, ticket: Option<Migration>, moves: seq<Move>, concurrency: nat, err: RunError)
    requires w.Valid() && TicketSafe(w, ticket) && concurrency > 0
    requires Exec(System(w, ticket, Loading), moves, concurrency).s.phase == Finished(Some(err))
    ensures var (s, m) := LastStep(System(w, ticket, Loading), moves, concurrency);
            Retriable(err) <==> LoadFailsRetriably(s, m) || ExpiresTokenless(s, m)
  {
    LastStepDecides(System(w, ticket, Loading), moves, concurrency, err);
  }

  lemma {:induction false} LastStepDecides(s: System, moves: seq<Move>, concurrency: nat, err: RunError)
    requires Safe(s) && concurrency > 0 && !s.phase.Finished?
    requires Exec(s, moves, concurrency).s.phase == Finished(Some(err))
    ensures var (s', m) := LastStep(s, moves, concurrency);
            Retriable(err) <==> LoadFailsRetriably(s', m) || ExpiresTokenless(s', m)
    decreases |moves|
  {
    var s' := Step(s, moves[0], concurrency);
    StepIsSafe(s, moves[0], concurrency);
    if s'.phase.Finished? {
      FinishingStep(s, moves[0], concurrency, err);
    } else {
      LastStepDecides(s', moves[1..], concurrency, err);
    }
  }

  lemma FinishingStep(s: System, m: Move, concurrency: nat, err: RunError)
    requires !s.phase.Finished? && Step(s, m, concurrency).phase == Finished(Some(err)) && Justified(err)
    ensures Retriable(err) <==> LoadFailsRetriably(s, m) || ExpiresTokenless(s, m)
  {
  }

  /** One transient fault of that GET is enough, in any state. */
  lemma TransientLoadEndsRun(w: World, ticket: Option<Migration>, e: Fault, rest: seq<Move>, concurrency: nat)
    requires CanRetry(e)
    ensures var moves := [Move(Turn([], Fail(e)), [], Serve(0), Return, 0)] + rest;
            && Exec(System(w, ticket, Loading), moves, concurrency) == RunEnd(System(w, ticket, Finished(Some(LoadFailed(e)))), rest)
            && Retriable(LoadFailed(e))
  {
    var moves := [Move(Turn([], Fail(e)), [], Serve(0), Return, 0)] + rest;
    var s' := System(w, ticket, Finished(Some(LoadFailed(e))));
    assert moves[1..] == rest;
    assert Step(System(w, ticket, Loading), moves[0], concurrency) == s';
    assert Exec(s', rest, concurrency) == RunEnd(s', rest);
  }

  /** And so is an expiry without a token. */
  lemma TokenlessExpiryEndsRun(w: World, ticket: Option<Migration>, t: Token, isStatus: bool, concurrency: nat)
    ensures var moves := [Move(Turn([], Ok), [], Expire(isStatus, false), Return, 0)];
            && Exec(System(w, ticket, Listing(t)), moves, concurrency).s.phase == Finished(Some(NoContinueToken))
            && Retriable(NoContinueToken)
  {
    var moves := [Move(Turn([], Ok), [], Expire(isStatus, false), Return, 0)];
    var s' := Step(System(w, ticket, Listing(t)), moves[0], concurrency);
    assert Exec(s', moves[1..], concurrency) == RunEnd(s', moves[1..]);
  }

  /** Invocations of Run one after the other: each starts from the saved cursor and is cut
      off where its moves end, or returns. */
  function Invocations(s: System, runs: seq<seq<Move>>, concurrency: nat): System
    decreases |runs|
  {
    if runs == [] then s
    else Invocations(Exec(s.(phase := Loading), runs[0], concurrency).s, runs[1..], concurrency)
  }

  /** However often the process dies, and whatever saves were lost: no object at or before
      the saved cursor lags, and a nil return of the last invocation means that all objects
      are migrated. */
  lemma {:induction false} ResumptionIsSafe(s: System, runs: seq<seq<Move>>, concurrency: nat)
    requires Safe(s) && concurrency > 0
    ensures var s' := Invocations(s, runs, concurrency);
            && Safe(s')
            && (s'.ticket.Some? ==> forall k: Key :: s'.w.Lagging(k) ==> k > After(s'.ticket.value.token))
            && (s'.phase == Finished(None) ==> s'.w.AllCurrent())
    decreases |runs|
  {
    if runs != [] {
      var again := s.(phase := Loading);
      ExecIsSafe(again, runs[0], concurrency);
      ResumptionIsSafe(Exec(again, runs[0], concurrency).s, runs[1..], concurrency);
    }
  }
}
