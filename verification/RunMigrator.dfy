/** Run, migrateList, save and load as the loops they are, against a cluster whose other
    clients, faults and scheduling follow a script. A method that returns CutOff models the
    process dying in the middle of it. */
module RunMigrator {
  import opened Wrappers
  import opened Errors
  import opened ApiServer
  import opened WorkerPool
  import opened Migrations
  import opened Runner

  class Cluster {
    var w: World
    var ticket: Option<Migration>
    var moves: seq<Move>

    constructor (w: World, ticket: Option<Migration>, moves: seq<Move>)
      ensures this.w == w && this.ticket == ticket && this.moves == moves
    {
      this.w := w;
      this.ticket := ticket;
      this.moves := moves;
    }

    function At(phase: Phase): System
      reads this
    {
      System(w, ticket, phase)
    }

    /** Lets the other clients have their turn, before a call of our own. */
    method Yield() returns (m: Move)
      requires moves != []
      modifies this
      ensures m == old(moves)[0] && moves == old(moves)[1..]
      ensures w == old(w).ApplyAll(m.turn.others)
      ensures ticket == ApplyVisits(old(ticket), m.visits)
    {
      m := moves[0];
      moves := moves[1..];
      w := w.ApplyAll(m.turn.others);
      ticket := ApplyVisits(ticket, m.visits);
    }
  }

  class ProgressTracker {
    const cluster: Cluster

    constructor (cluster: Cluster)
      ensures this.cluster == cluster
    {
      this.cluster := cluster;
    }

    /** Reads the saved cursor. */
    method Load(ghost concurrency: nat) returns (r: Ending<Result<Token, Error>>)
      modifies cluster
      ensures match r
              case CutOff => cluster.moves == old(cluster.moves) == [] && cluster.At(Loading) == old(cluster.At(Loading))
              case Returned(Success(t)) =>
                && Exec(old(cluster.At(Loading)), old(cluster.moves), concurrency)
                   == Exec(cluster.At(Listing(t)), cluster.moves, concurrency)
                && cluster.ticket.Some? && t == cluster.ticket.value.token
              case Returned(Failure(e)) =>
                Exec(old(cluster.At(Loading)), old(cluster.moves), concurrency)
                == RunEnd(cluster.At(Finished(Some(LoadFailed(e)))), cluster.moves)
      ensures |cluster.moves| <= |old(cluster.moves)|
    {
      if cluster.moves == [] {
        return CutOff;
      }
      var m := cluster.Yield();
      match GetMigration(cluster.ticket, m.turn.reply)
      case Success(x) => return Returned(Success(x.token));
      case Failure(e) => return Returned(Failure(e));
    }

    /** One attempt at a save: get the migration object, set its token, update it. */
    method TrySave(token: Token, ghost attempts: nat) returns (r: Ending<Option<Error>>)
      requires attempts > 0
      modifies cluster
      ensures var whole := SaveRun(old(cluster.w), old(cluster.ticket), token, old(cluster.moves), attempts);
              match r
              case Returned(Some(e)) => whole == SaveFailed(cluster.w, cluster.ticket, token, cluster.moves, attempts, e)
              case _ => whole == SaveEnd(cluster.w, cluster.ticket, cluster.moves, r)
      ensures |cluster.moves| <= |old(cluster.moves)|
    {
      if cluster.moves == [] {
        return CutOff;
      }
      var m := cluster.Yield();
      var got := GetMigration(cluster.ticket, m.turn.reply);
      if got.Failure? {
        return Returned(Some(got.error));
      }
      var migration := got.value.(token := token);
      if cluster.moves == [] {
        return CutOff;
      }
      m := cluster.Yield();
      assert old(cluster.moves)[1..][1..] == old(cluster.moves)[2..];
      var err := UpdateError(cluster.ticket, migration, m.turn.reply);
      cluster.ticket := AfterUpdate(cluster.ticket, migration, m.turn.reply);
      return Returned(err);
    }

    /** Saves the cursor, again and again as long as there are conflicts and attempts. The
        run goes on afterwards whatever the result; a nil result means the cursor is stored. */
    method Save(token: Token, ghost concurrency: nat) returns (r: Ending<Option<Error>>)
      modifies cluster
      ensures SaveRun(old(cluster.w), old(cluster.ticket), token, old(cluster.moves), SAVE_ATTEMPTS)
           == SaveEnd(cluster.w, cluster.ticket, cluster.moves, r)
      ensures match r
              case Returned(err) =>
                && Exec(old(cluster.At(SaveGet(token, SAVE_ATTEMPTS))), old(cluster.moves), concurrency)
                   == Exec(cluster.At(Listing(token)), cluster.moves, concurrency)
                && (err == None ==> cluster.ticket.Some? && cluster.ticket.value.token == token)
              case CutOff =>
                var end := Exec(old(cluster.At(SaveGet(token, SAVE_ATTEMPTS))), old(cluster.moves), concurrency);
                cluster.moves == [] && end == RunEnd(cluster.At(end.s.phase), []) && !end.s.phase.Finished?
      ensures |cluster.moves| <= |old(cluster.moves)|
    {
      SaveIsExec(cluster.w, cluster.ticket, token, cluster.moves, SAVE_ATTEMPTS, concurrency);
      NilSaveIsStored(cluster.w, cluster.ticket, token, cluster.moves, SAVE_ATTEMPTS);
      ghost var whole := SaveRun(cluster.w, cluster.ticket, token, cluster.moves, SAVE_ATTEMPTS);
      var attempts := SAVE_ATTEMPTS;
      while true
        invariant 0 < attempts
        invariant whole == SaveRun(cluster.w, cluster.ticket, token, cluster.moves, attempts)
        invariant |cluster.moves| <= |old(cluster.moves)|
        decreases attempts
      {
        r := TrySave(token, attempts);
        if r.CutOff? || r.value == None || r.value.value.reason != Conflict || attempts == 1 {
          return;
        }
        attempts := attempts - 1;
      }
    }
  }

  class Migrator {
    const cluster: Cluster
    const progress: ProgressTracker
    const concurrency: nat

    constructor (cluster: Cluster, progress: ProgressTracker, concurrency: nat)
      requires progress.cluster == cluster
      ensures this.cluster == cluster && this.progress == progress && this.concurrency == concurrency
    {
      this.cluster := cluster;
      this.progress := progress;
      this.concurrency := concurrency;
    }

    /** Runs the goroutines of migrateList in the order that the scheduler chooses. */
    method MigrateList(page: Page) returns (r: Ending<seq<Error>>)
      modifies cluster
      ensures match r
              case Returned(errors) =>
                Exec(old(cluster.At(Migrating(Launch(page.items, concurrency), page.next))), old(cluster.moves), concurrency)
                == Exec(cluster.At(AfterPage(errors, page.next)), cluster.moves, concurrency)
              case CutOff =>
                var end := Exec(old(cluster.At(Migrating(Launch(page.items, concurrency), page.next))), old(cluster.moves), concurrency);
                cluster.moves == [] && end == RunEnd(cluster.At(end.s.phase), []) && !end.s.phase.Finished?
      ensures |cluster.moves| <= |old(cluster.moves)|
    {
      var pool := Launch(page.items, concurrency);
      while !pool.returned
        invariant Exec(old(cluster.At(Migrating(Launch(page.items, concurrency), page.next))), old(cluster.moves), concurrency)
               == Exec(cluster.At(if pool.returned then AfterPage(pool.errors, page.next) else Migrating(pool, page.next)),
                       cluster.moves, concurrency)
        invariant |cluster.moves| <= |old(cluster.moves)|
        decreases |cluster.moves|
      {
        if cluster.moves == [] {
          return CutOff;
        }
        var m := cluster.moves[0];
        var next := PoolStep(cluster.w, pool, m.actor, m.turn);
        cluster.moves := cluster.moves[1..];
        cluster.ticket := ApplyVisits(cluster.ticket, m.visits);
        cluster.w := next.0;
        pool := next.1;
      }
      return Returned(pool.errors);
    }

    /** The whole run is the machine's. From a safe state it stays safe, and a nil return
        means that every object is stored in the active version. */
    method Run() returns (r: Ending<Option<RunError>>)
      requires progress.cluster == cluster && concurrency > 0
      modifies cluster
      ensures var end := Exec(old(cluster.At(Loading)), old(cluster.moves), concurrency);
              && end == RunEnd(cluster.At(end.s.phase), cluster.moves)
              && match r
                 case Returned(err) => end.s.phase == Finished(err)
                 case CutOff => cluster.moves == [] && !end.s.phase.Finished?
      ensures old(Safe(cluster.At(Loading))) ==>
                && cluster.w.Valid() && TicketSafe(cluster.w, cluster.ticket)
                && (r == Returned(None) ==> cluster.w.AllCurrent())
                && (r.Returned? && r.value.Some? ==> Justified(r.value.value))
    {
      ExecIsSound(cluster.At(Loading), cluster.moves, concurrency);
      var loaded := progress.Load(concurrency);
      if loaded.CutOff? {
        return CutOff;
      }
      if loaded.value.Failure? {
        return Returned(Some(LoadFailed(loaded.value.error)));
      }
      r := MigrateChunks(loaded.value.value);
    }

    /** The loop of Run: list a chunk, migrate it, and save the cursor after it. */
    method MigrateChunks(token: Token) returns (r: Ending<Option<RunError>>)
      requires progress.cluster == cluster
      modifies cluster
      ensures var end := Exec(old(cluster.At(Listing(token))), old(cluster.moves), concurrency);
              && end == RunEnd(cluster.At(end.s.phase), cluster.moves)
              && match r
                 case Returned(err) => end.s.phase == Finished(err)
                 case CutOff => cluster.moves == [] && !end.s.phase.Finished?
    {
      ghost var whole := Exec(cluster.At(Listing(token)), cluster.moves, concurrency);
      var continueToken := token;
      while true
        invariant whole == Exec(cluster.At(Listing(continueToken)), cluster.moves, concurrency)
        decreases |cluster.moves|
      {
        if cluster.moves == [] {
          return CutOff;
        }
        var m := cluster.Yield();
        var listed := ListAnswer(cluster.w, continueToken, m.list);
        if listed.ListError? {
          if listed.e.reason == NotFound {
            return Returned(Some(ListFailed(listed.e)));
          }
          if CanRetry(listed.e) {
            continue;
          }
          return Returned(Some(ListFailed(listed.e)));
        }
        if listed.ListExpired? {
          if listed.token.None? || listed.token.value.Start? {
            return Returned(Some(NoContinueToken));
          }
          continueToken := listed.token.value;
          var saved := progress.Save(continueToken, concurrency);
          if saved.CutOff? {
            return CutOff;
          }
          continue;
        }
        var migrated := MigrateList(listed.page);
        if migrated.CutOff? {
          return CutOff;
        }
        if migrated.value != [] {
          return Returned(Some(ItemsFailed(migrated.value)));
        }
        if listed.page.next.Start? {
          return Returned(None);
        }
        continueToken := listed.page.next;
        var saved := progress.Save(continueToken, concurrency);
        if saved.CutOff? {
          return CutOff;
        }
      }
    }
  }
}
