/** The migration controller of pkg/controller/kubemigrator.go while it works on one migration
    object. */
module KubeMigrator {
  import opened Wrappers
  import opened Migrations
  import opened Runner
  import opened RunMigrator
  import opened Lifecycle

  /** The controller while it works on one migration object, the ticket of the cluster. */
  class Controller {
    const cluster: Cluster
    const concurrency: nat

    constructor (cluster: Cluster, concurrency: nat)
      ensures this.cluster == cluster && this.concurrency == concurrency
    {
      this.cluster := cluster;
      this.concurrency := concurrency;
    }

    /** Keeps the conditions of unknown types, and adds the given one at the end. */
    method NewConditions(conditions: seq<Condition>, c: Condition) returns (newConditions: seq<Condition>)
      ensures newConditions == Rewrite(conditions, c)
    {
      newConditions := [];
      for i := 0 to |conditions|
        invariant newConditions == Foreign(conditions[..i])
      {
        ForeignGrows(conditions[..i], conditions[i]);
        assert conditions[..i + 1] == conditions[..i] + [conditions[i]];
        if !Known(conditions[i].ctype) {
          newConditions := newConditions + [conditions[i]];
        }
      }
      assert conditions[..|conditions|] == conditions;
      newConditions := newConditions + [c];
    }

    /** Rewrites the conditions of the object in hand and sends them, refreshing the object
        and retrying after every error. */
    method UpdateStatus(given: Migration, t: ConditionType, message: string) returns (m: Migration, result: StatusResult)
      requires Known(t)
      modifies cluster
      ensures StatusRun(old(cluster.w), old(cluster.ticket), given, t, message, old(cluster.moves), STATUS_ATTEMPTS)
           == StatusEnd(cluster.w, cluster.ticket, m, cluster.moves, result)
    {
      m := given;
      var attempts := STATUS_ATTEMPTS;
      while attempts > 0
        invariant StatusRun(old(cluster.w), old(cluster.ticket), given, t, message, old(cluster.moves), STATUS_ATTEMPTS)
               == StatusRun(cluster.w, cluster.ticket, m, t, message, cluster.moves, attempts)
      {
        if cluster.moves == [] {
          return m, Died;
        }
        var newConditions := NewConditions(m.conditions, Condition(t, True, cluster.moves[0].now, message));
        m := m.(conditions := newConditions);

        var move := cluster.Yield();
        var err := UpdateError(cluster.ticket, m, move.turn.reply);
        cluster.ticket := AfterUpdateStatus(cluster.ticket, m, move.turn.reply);
        if err == None {
          return m, Updated;
        }
        if cluster.moves == [] {
          return m, Died;
        }
        move := cluster.Yield();
        var updated := GetMigration(cluster.ticket, move.turn.reply);
        if updated.Success? {
          m := updated.value;
        }
        attempts := attempts - 1;
      }
      return m, TimedOut;
    }

    /** Processes the object afresh from the server: marks it running, runs the migrator, and
        records the verdict. */
    method ProcessOne() returns (report: Report)
      requires concurrency > 0
      modifies cluster
      ensures Lifecycle.ProcessOne(old(cluster.w), old(cluster.ticket), old(cluster.moves), concurrency)
           == ProcessEnd(cluster.w, cluster.ticket, cluster.moves, report)
      ensures old(cluster.w.Valid() && TicketSafe(cluster.w, cluster.ticket)) ==>
                && TicketSafe(cluster.w, cluster.ticket)
                && (report.Ran? && report.err == None ==> cluster.w.AllCurrent())
    {
      if cluster.w.Valid() && TicketSafe(cluster.w, cluster.ticket) {
        ProcessOneIsHonest(cluster.w, cluster.ticket, cluster.moves, concurrency);
      }
      if cluster.moves == [] {
        return Interrupted;
      }
      var move := cluster.Yield();
      var got := GetMigration(cluster.ticket, move.turn.reply);
      if got.Failure? {
        return Unavailable(got.error);
      }
      var m := got.value;
      if HasCondition(m, Succeeded) || HasCondition(m, Failed) {
        return AlreadyCompleted;
      }
      var result: StatusResult;
      m, result := UpdateStatus(m, Running, "");
      if result == Died {
        return Interrupted;
      }
      if result == TimedOut {
        return NotStarted;
      }
      var progress := new ProgressTracker(cluster);
      var core := new Migrator(cluster, progress, concurrency);
      var ran := core.Run();
      if ran.CutOff? {
        return Interrupted;
      }
      var err := ran.value;
      if err == None {
        m, result := UpdateStatus(m, Succeeded, "");
        return Ran(err, result);
      }
      m, result := UpdateStatus(m, Failed, Message(err));
      return Ran(err, result);
    }
  }
}
