/** migrateList of pkg/migrator/core.go as the protocol it is: a feeder, concurrent workers,
    a closer and the collecting caller, over two unbuffered channels. */
module WorkerPool {
  import opened Wrappers
  import opened Errors
  import opened ApiServer
  import opened ItemMigration

  /** A worker waits for an item, migrates item number job, offers an error, or has ended. */
  datatype Worker = Idle | Busy(job: nat, st: ItemState) | Sending(err: Error) | Exited

  /** How one item ended. */
  datatype Record = Record(job: nat, err: Option<Error>)

  /** The feeder has handed out the first fed items and, in the end, closed the work channel.
      The wait group counts unfinished workers. The log records every item that a worker is
      done with; errors is what the caller has collected. The deferred cancel makes the
      context done exactly when the caller has returned. */
  datatype Pool = Pool(
    items: seq<Item>,
    fed: nat,
    workClosed: bool,
    workers: seq<Worker>,
    waitGroup: int,
    errClosed: bool,
    log: seq<Record>,
    errors: seq<Error>,
    returned: bool,
    panicked: bool)

  /** The goroutine that moves next, and which of its moves it makes. */
  datatype Actor =
    | Feed(to: nat)
    | StopFeeding
    | CloseWork
    | Call(who: nat)
    | Send(who: nat)
    | StopSending(who: nat)
    | Exit(who: nat)
    | CloseErr
    | Return

  function Launch(items: seq<Item>, concurrency: nat): Pool {
    Pool(items, 0, false, seq(concurrency, _ => Idle), concurrency, false, [], [], false, false)
  }

  /** A move is possible when its goroutine is at that point of its code and, for a transfer
      over a channel, its partner is ready. */
  predicate Enabled(p: Pool, a: Actor) {
    match a
    case Feed(i) => !p.workClosed && p.fed < |p.items| && i < |p.workers| && p.workers[i].Idle?
    case StopFeeding => !p.workClosed && p.fed < |p.items| && p.returned
    case CloseWork => !p.workClosed && p.fed == |p.items|
    case Call(i) => i < |p.workers| && p.workers[i].Busy?
    case Send(i) => i < |p.workers| && p.workers[i].Sending? && (p.errClosed || !p.returned)
    case StopSending(i) => i < |p.workers| && p.workers[i].Sending? && p.returned
    case Exit(i) => i < |p.workers| && p.workers[i].Idle? && p.workClosed
    case CloseErr => !p.errClosed && p.waitGroup == 0
    case Return => !p.returned && p.errClosed
  }

  /** The worker's state after a call of its item's automaton, and what it logs. */
  function AfterCall(job: nat, st: ItemState): (Worker, seq<Record>) {
    match st
    case Done(None) => (Idle, [Record(job, None)])
    case Done(Some(e)) => (Sending(e), [Record(job, Some(e))])
    case _ => (Busy(job, st), [])
  }

  /** Every move but a call on the server. */
  function Internal(p: Pool, a: Actor): Pool
    requires Enabled(p, a) && !a.Call?
  {
    match a
    case Feed(i) => p.(fed := p.fed + 1, workers := p.workers[i := Busy(p.fed, Trying(false))])
    case StopFeeding => p.(workClosed := true)
    case CloseWork => p.(workClosed := true)
    case Send(i) =>
      if p.errClosed then p.(panicked := true)
      else p.(errors := p.errors + [p.workers[i].err], workers := p.workers[i := Idle])
    case StopSending(i) => p.(workers := p.workers[i := Exited], waitGroup := p.waitGroup - 1)
    case Exit(i) => p.(workers := p.workers[i := Exited], waitGroup := p.waitGroup - 1)
    case CloseErr => p.(errClosed := true)
    case Return => p.(returned := true)
  }

  function CallStep(w: World, p: Pool, i: nat, reply: Reply): (World, Pool)
    requires Enabled(p, Call(i)) && p.workers[i].job < |p.items| && !p.workers[i].st.Done?
  {
    var b := p.workers[i];
    var (w', st) := ItemCall(w, p.items[b.job], b.st, reply);
    var (worker, logged) := AfterCall(b.job, st);
    (w', p.(workers := p.workers[i := worker], log := p.log + logged))
  }

  /** The scheduler lets one goroutine move, if it can, after other clients wrote. */
  function PoolStep(w: World, p: Pool, a: Actor, t: Turn): (World, Pool) {
    var w1 := w.ApplyAll(t.others);
    if !Enabled(p, a) then (w1, p)
    else if !a.Call? then (w1, Internal(p, a))
    else if p.workers[a.who].job < |p.items| && !p.workers[a.who].st.Done? then CallStep(w1, p, a.who, t.reply)
    else (w1, p)
  }

  // ------------------------------------------------------------------ counting over workers

  function Alive(ws: seq<Worker>): nat {
    if ws == [] then 0 else Alive(ws[..|ws| - 1]) + (if ws[|ws| - 1].Exited? then 0 else 1)
  }

  function Holds(x: Worker, j: nat): nat {
    if x.Busy? && x.job == j then 1 else 0
  }

  function Offers(x: Worker, e: Error): nat {
    if x.Sending? && x.err == e then 1 else 0
  }

  /** How many workers hold item number j. */
  function Holding(ws: seq<Worker>, j: nat): nat {
    if ws == [] then 0 else Holding(ws[..|ws| - 1], j) + Holds(ws[|ws| - 1], j)
  }

  /** How many workers offer the error e to the caller. */
  function Offering(ws: seq<Worker>, e: Error): nat {
    if ws == [] then 0 else Offering(ws[..|ws| - 1], e) + Offers(ws[|ws| - 1], e)
  }

  /** How often item number j was handled to its end. */
  function Handled(log: seq<Record>, j: nat): nat {
    if log == [] then 0 else Handled(log[..|log| - 1], j) + (if log[|log| - 1].job == j then 1 else 0)
  }

  /** How many items ended with the error e. */
  function Failed(log: seq<Record>, e: Error): nat {
    if log == [] then 0 else Failed(log[..|log| - 1], e) + (if log[|log| - 1].err == Some(e) then 1 else 0)
  }

  lemma {:induction false} AliveUpdate(ws: seq<Worker>, i: nat, x: Worker)
    requires i < |ws|
    ensures Alive(ws[i := x]) + (if ws[i].Exited? then 0 else 1) == Alive(ws) + (if x.Exited? then 0 else 1)
  {
    var n := |ws| - 1;
    if i == n {
      assert ws[i := x][..n] == ws[..n];
    } else {
      assert ws[i := x][..n] == ws[..n][i := x];
      AliveUpdate(ws[..n], i, x);
    }
  }

  lemma {:induction false} HoldingUpdate(ws: seq<Worker>, i: nat, x: Worker, j: nat)
    requires i < |ws|
    ensures Holding(ws[i := x], j) + Holds(ws[i], j) == Holding(ws, j) + Holds(x, j)
  {
    var n := |ws| - 1;
    if i == n {
      assert ws[i := x][..n] == ws[..n];
    } else {
      assert ws[i := x][..n] == ws[..n][i := x];
      HoldingUpdate(ws[..n], i, x, j);
    }
  }

  lemma {:induction false} OfferingUpdate(ws: seq<Worker>, i: nat, x: Worker, e: Error)
    requires i < |ws|
    ensures Offering(ws[i := x], e) + Offers(ws[i], e) == Offering(ws, e) + Offers(x, e)
  {
    var n := |ws| - 1;
    if i == n {
      assert ws[i := x][..n] == ws[..n];
    } else {
      assert ws[i := x][..n] == ws[..n][i := x];
      OfferingUpdate(ws[..n], i, x, e);
    }
  }

  lemma {:induction false} HoldingSome(ws: seq<Worker>, i: nat)
    requires i < |ws| && ws[i].Busy?
    ensures Holding(ws, ws[i].job) > 0
  {
    if i < |ws| - 1 {
      HoldingSome(ws[..|ws| - 1], i);
    }
  }

  lemma {:induction false} HoldingTwo(ws: seq<Worker>, i: nat, i': nat)
    requires i < i' < |ws| && ws[i].Busy? && ws[i'].Busy? && ws[i].job == ws[i'].job
    ensures Holding(ws, ws[i].job) > 1
  {
    if i' < |ws| - 1 {
      HoldingTwo(ws[..|ws| - 1], i, i');
    } else {
      HoldingSome(ws[..|ws| - 1], i);
    }
  }

  lemma {:induction false} NoneBusy(ws: seq<Worker>, j: nat, e: Error)
    requires forall i :: 0 <= i < |ws| ==> ws[i].Exited? || ws[i].Idle?
    ensures Holding(ws, j) == 0 && Offering(ws, e) == 0
  {
    if ws != [] {
      NoneBusy(ws[..|ws| - 1], j, e);
    }
  }

  lemma {:induction false} AliveAll(ws: seq<Worker>)
    requires forall i :: 0 <= i < |ws| ==> !ws[i].Exited?
    ensures Alive(ws) == |ws|
  {
    if ws != [] {
      AliveAll(ws[..|ws| - 1]);
    }
  }

  lemma {:induction false} AliveNone(ws: seq<Worker>, i: nat)
    requires Alive(ws) == 0 && i < |ws|
    ensures ws[i].Exited?
  {
    if i < |ws| - 1 {
      AliveNone(ws[..|ws| - 1], i);
    }
  }

  lemma {:induction false} AliveSome(ws: seq<Worker>) returns (i: nat)
    requires Alive(ws) != 0
    ensures i < |ws| && !ws[i].Exited?
  {
    var n := |ws| - 1;
    if ws[n].Exited? {
      i := AliveSome(ws[..n]);
    } else {
      i := n;
    }
  }

  // ------------------------------------------------------------------ the protocol invariant

  /** Every item that was fed is either handled, once, or in the hands of one worker, never
      both; no other item is anywhere. */
  ghost predicate Accounted(log: seq<Record>, ws: seq<Worker>, fed: nat) {
    forall j: nat :: Handled(log, j) + Holding(ws, j) == if j < fed then 1 else 0
  }

  /** The errors of the items are those collected and those on offer. */
  ghost predicate Collected(log: seq<Record>, ws: seq<Worker>, errors: seq<Error>) {
    forall e: Error :: Failed(log, e) == multiset(errors)[e] + Offering(ws, e)
  }

  /** The channels are closed in order and by the right party, and nothing panicked. */
  ghost predicate InOrder(p: Pool) {
    && p.waitGroup == Alive(p.workers)
    && p.fed <= |p.items|
    && (p.workClosed ==> p.fed == |p.items|)
    && (forall i :: 0 <= i < |p.workers| && p.workers[i].Exited? ==> p.workClosed)
    && (p.errClosed ==> p.waitGroup == 0)
    && (p.returned ==> p.errClosed)
    && !p.panicked
    && |p.workers| > 0
    && (forall i :: 0 <= i < |p.workers| && p.workers[i].Busy? ==> !p.workers[i].st.Done?)
  }

  ghost predicate Orderly(p: Pool) {
    && InOrder(p)
    && Accounted(p.log, p.workers, p.fed)
    && Collected(p.log, p.workers, p.errors)
  }

  lemma LaunchIsOrderly(items: seq<Item>, concurrency: nat)
    requires concurrency > 0
    ensures Orderly(Launch(items, concurrency))
  {
    var ws := Launch(items, concurrency).workers;
    AliveAll(ws);
    forall j: nat, e: Error
      ensures Holding(ws, j) == 0 && Offering(ws, e) == 0
    {
      NoneBusy(ws, j, e);
    }
    assert Holding(ws, 0) == 0 && Offering(ws, CONFLICT) == 0;
    forall j: nat ensures Holding(ws, j) == 0 { NoneBusy(ws, j, CONFLICT); }
    forall e: Error ensures Offering(ws, e) == 0 { NoneBusy(ws, 0, e); }
  }

  lemma FeedingAccounts(log: seq<Record>, ws: seq<Worker>, fed: nat, i: nat, st: ItemState)
    requires Accounted(log, ws, fed) && i < |ws| && ws[i].Idle?
    ensures Accounted(log, ws[i := Busy(fed, st)], fed + 1)
  {
    forall j: nat
      ensures Handled(log, j) + Holding(ws[i := Busy(fed, st)], j) == if j < fed + 1 then 1 else 0
    {
      HoldingUpdate(ws, i, Busy(fed, st), j);
    }
  }

  lemma KeepingAccounts(log: seq<Record>, ws: seq<Worker>, fed: nat, i: nat, x: Worker)
    requires Accounted(log, ws, fed) && i < |ws|
    requires ws[i].Busy? == x.Busy? && (x.Busy? ==> ws[i].job == x.job)
    ensures Accounted(log, ws[i := x], fed)
  {
    forall j: nat
      ensures Handled(log, j) + Holding(ws[i := x], j) == if j < fed then 1 else 0
    {
      HoldingUpdate(ws, i, x, j);
    }
  }

  lemma LoggingAccounts(log: seq<Record>, ws: seq<Worker>, fed: nat, i: nat, x: Worker, r: Record)
    requires Accounted(log, ws, fed) && i < |ws|
    requires ws[i].Busy? && ws[i].job == r.job && !x.Busy?
    ensures Accounted(log + [r], ws[i := x], fed)
  {
    assert (log + [r])[..|log|] == log;
    forall j: nat
      ensures Handled(log + [r], j) + Holding(ws[i := x], j) == if j < fed then 1 else 0
    {
      HoldingUpdate(ws, i, x, j);
    }
  }

  lemma KeepingCollects(log: seq<Record>, ws: seq<Worker>, errors: seq<Error>, i: nat, x: Worker)
    requires Collected(log, ws, errors) && i < |ws| && !ws[i].Sending? && !x.Sending?
    ensures Collected(log, ws[i := x], errors)
  {
    forall e: Error
      ensures Failed(log, e) == multiset(errors)[e] + Offering(ws[i := x], e)
    {
      OfferingUpdate(ws, i, x, e);
    }
  }

  lemma LoggingCollects(log: seq<Record>, ws: seq<Worker>, errors: seq<Error>, i: nat, x: Worker, r: Record)
    requires Collected(log, ws, errors) && i < |ws| && !ws[i].Sending?
    requires if r.err.Some? then x == Sending(r.err.value) else !x.Sending?
    ensures Collected(log + [r], ws[i := x], errors)
  {
    assert (log + [r])[..|log|] == log;
    forall e: Error
      ensures Failed(log + [r], e) == multiset(errors)[e] + Offering(ws[i := x], e)
    {
      OfferingUpdate(ws, i, x, e);
    }
  }

  lemma SendingCollects(log: seq<Record>, ws: seq<Worker>, errors: seq<Error>, i: nat)
    requires Collected(log, ws, errors) && i < |ws| && ws[i].Sending?
    ensures Collected(log, ws[i := Idle], errors + [ws[i].err])
  {
    forall e: Error
      ensures Failed(log, e) == multiset(errors + [ws[i].err])[e] + Offering(ws[i := Idle], e)
    {
      OfferingUpdate(ws, i, Idle, e);
    }
  }

  /** A closed error channel means that every worker has ended. */
  lemma NobodyLeft(p: Pool, i: nat)
    requires InOrder(p) && p.waitGroup == 0 && i < |p.workers|
    ensures p.workers[i].Exited?
  {
    AliveNone(p.workers, i);
  }

  lemma BusyJobsWereFed(p: Pool, i: nat)
    requires Accounted(p.log, p.workers, p.fed) && i < |p.workers| && p.workers[i].Busy?
    ensures p.workers[i].job < p.fed
    ensures forall i' :: 0 <= i' < |p.workers| && i' != i && p.workers[i'].Busy? ==> p.workers[i'].job != p.workers[i].job
  {
    var j := p.workers[i].job;
    HoldingSome(p.workers, i);
    assert Handled(p.log, j) + Holding(p.workers, j) == if j < p.fed then 1 else 0;
    forall i' | 0 <= i' < |p.workers| && i' != i && p.workers[i'].Busy?
      ensures p.workers[i'].job != j
    {
      if p.workers[i'].job == j {
        HoldingTwo(p.workers, if i < i' then i else i', if i < i' then i' else i);
      }
    }
  }

  lemma MoveIsInOrder(p: Pool, i: nat, x: Worker)
    requires InOrder(p) && i < |p.workers| && !p.workers[i].Exited?
    requires x.Exited? ==> p.workClosed
    requires x.Busy? ==> !x.st.Done?
    ensures InOrder(p.(workers := p.workers[i := x], waitGroup := p.waitGroup - (if x.Exited? then 1 else 0)))
    ensures !p.errClosed
  {
    AliveUpdate(p.workers, i, x);
    if p.errClosed {
      NobodyLeft(p, i);
    }
  }

  lemma InternalIsOrderly(p: Pool, a: Actor)
    requires Orderly(p) && Enabled(p, a) && !a.Call?
    ensures Orderly(Internal(p, a))
  {
    if p.returned {
      NobodyLeft(p, 0);
    }
    match a
    case Feed(i) =>
      var x := Busy(p.fed, Trying(false));
      MoveIsInOrder(p, i, x);
      FeedingAccounts(p.log, p.workers, p.fed, i, Trying(false));
      KeepingCollects(p.log, p.workers, p.errors, i, x);
    case Send(i) =>
      MoveIsInOrder(p, i, Idle);
      KeepingAccounts(p.log, p.workers, p.fed, i, Idle);
      SendingCollects(p.log, p.workers, p.errors, i);
    case Exit(i) =>
      MoveIsInOrder(p, i, Exited);
      KeepingAccounts(p.log, p.workers, p.fed, i, Exited);
      KeepingCollects(p.log, p.workers, p.errors, i, Exited);
    case StopSending(i) =>
      MoveIsInOrder(p, i, Exited);
    case _ =>
  }

  lemma CallIsOrderly(w: World, p: Pool, i: nat, reply: Reply)
    requires Orderly(p) && Enabled(p, Call(i)) && p.workers[i].job < |p.items| && !p.workers[i].st.Done?
    ensures Orderly(CallStep(w, p, i, reply).1)
  {
    var b := p.workers[i];
    var st := ItemCall(w, p.items[b.job], b.st, reply).1;
    var (x, logged) := AfterCall(b.job, st);
    MoveIsInOrder(p, i, x);
    if logged == [] {
      assert p.log + logged == p.log;
      KeepingAccounts(p.log, p.workers, p.fed, i, x);
      KeepingCollects(p.log, p.workers, p.errors, i, x);
    } else {
      LoggingAccounts(p.log, p.workers, p.fed, i, x, logged[0]);
      LoggingCollects(p.log, p.workers, p.errors, i, x, logged[0]);
    }
  }

  lemma PoolStepIsOrderly(w: World, p: Pool, a: Actor, t: Turn)
    requires Orderly(p)
    ensures Orderly(PoolStep(w, p, a, t).1)
    ensures PoolStep(w, p, a, t).1.items == p.items
    ensures |PoolStep(w, p, a, t).1.workers| == |p.workers|
  {
    if Enabled(p, a) {
      if a.Call? {
        BusyJobsWereFed(p, a.who);
        CallIsOrderly(w.ApplyAll(t.others), p, a.who, t.reply);
      } else {
        InternalIsOrderly(p, a);
      }
    }
  }

  // ------------------------------------------------------------------ what the protocol promises

  /** Once migrateList returns: each item was handled exactly once, the collected errors are
      exactly those of the items, nobody is left behind, and no send met a closed channel. */
  lemma ReturnIsExact(p: Pool)
    requires Orderly(p) && p.returned
    ensures forall j: nat :: Handled(p.log, j) == if j < |p.items| then 1 else 0
    ensures forall e: Error :: multiset(p.errors)[e] == Failed(p.log, e)
    ensures forall i :: 0 <= i < |p.workers| ==> p.workers[i].Exited?
    ensures p.workClosed && p.fed == |p.items| && !p.panicked
  {
    forall i | 0 <= i < |p.workers|
      ensures p.workers[i].Exited?
    {
      NobodyLeft(p, i);
    }
    assert p.workers[0].Exited?;
    forall j: nat
      ensures Handled(p.log, j) == if j < |p.items| then 1 else 0
    {
      NoneBusy(p.workers, j, CONFLICT);
    }
    forall e: Error
      ensures multiset(p.errors)[e] == Failed(p.log, e)
    {
      NoneBusy(p.workers, 0, e);
    }
  }

  /** The branches on a done context are never taken: the caller cancels only as it returns,
      and by then feeder and workers have ended. */
  lemma CancellationIsIdle(p: Pool, i: nat)
    requires Orderly(p)
    ensures !Enabled(p, StopFeeding) && !Enabled(p, StopSending(i))
  {
    if p.returned {
      ReturnIsExact(p);
    }
  }

  /** With at least one worker, no state is stuck before migrateList has returned. */
  lemma NeverStuck(p: Pool) returns (a: Actor)
    requires Orderly(p) && !p.returned
    ensures Enabled(p, a)
  {
    if p.errClosed {
      return Return;
    }
    if p.waitGroup == 0 {
      return CloseErr;
    }
    var i := AliveSome(p.workers);
    match p.workers[i]
    case Busy(_, _) => return Call(i);
    case Sending(_) => return Send(i);
    case Idle =>
      if p.workClosed {
        return Exit(i);
      } else if p.fed < |p.items| {
        return Feed(i);
      } else {
        return CloseWork;
      }
  }

  // ------------------------------------------------------------------ what becomes of the objects

  /** Every copy a worker holds was read from the server, and the log tells the truth about
      the objects. */
  ghost predicate Truthful(w: World, p: Pool) {
    && DistinctKeys(p.items)
    && (forall j :: 0 <= j < |p.items| ==> w.Faithful(p.items[j].key, p.items[j].obj))
    && (forall i :: 0 <= i < |p.workers| && p.workers[i].Busy? ==>
          p.workers[i].job < |p.items| && ItemInv(w, p.items[p.workers[i].job], p.workers[i].st))
    && (forall n :: 0 <= n < |p.log| ==> TrueRecord(w, p.items, p.log[n]))
  }

  ghost predicate TrueRecord(w: World, items: seq<Item>, r: Record) {
    && r.job < |items|
    && match r.err
       case None => !w.Lagging(items[r.job].key)
       case Some(e) => !CanRetry(e)
  }

  lemma TruthIsStable(w: World, w': World, p: Pool)
    requires Truthful(w, p) && Evolves(w, w')
    ensures Truthful(w', p)
  {
    forall i | 0 <= i < |p.workers| && p.workers[i].Busy?
      ensures ItemInv(w', p.items[p.workers[i].job], p.workers[i].st)
    {
      ItemInvIsStable(w, w', p.items[p.workers[i].job], p.workers[i].st);
    }
  }

  lemma AfterCallIsTruthful(w: World, p: Pool, i: nat, st: ItemState)
    requires Truthful(w, p) && i < |p.workers| && p.workers[i].Busy?
    requires ItemInv(w, p.items[p.workers[i].job], st)
    ensures var (worker, logged) := AfterCall(p.workers[i].job, st);
            Truthful(w, p.(workers := p.workers[i := worker], log := p.log + logged))
  {
  }

  lemma CallIsTruthful(w: World, p: Pool, i: nat, reply: Reply)
    requires w.Valid() && Truthful(w, p)
    requires Enabled(p, Call(i)) && p.workers[i].job < |p.items| && !p.workers[i].st.Done?
    ensures var (w', p') := CallStep(w, p, i, reply);
            && w'.Valid() && Evolves(w, w') && Truthful(w', p')
            && Contents(w') == Contents(w)
  {
    var b := p.workers[i];
    ItemCallIsSound(w, p.items[b.job], b.st, reply);
    var (w', st) := ItemCall(w, p.items[b.job], b.st, reply);
    TruthIsStable(w, w', p);
    AfterCallIsTruthful(w', p, i, st);
  }

  lemma InternalIsTruthful(w: World, p: Pool, a: Actor)
    requires Truthful(w, p) && Enabled(p, a) && !a.Call?
    ensures Truthful(w, Internal(p, a))
  {
  }

  lemma PoolStepIsTruthful(w: World, p: Pool, a: Actor, t: Turn)
    requires w.Valid() && Truthful(w, p)
    ensures var (w', p') := PoolStep(w, p, a, t);
            && w'.Valid() && Evolves(w, w') && Truthful(w', p')
            && Contents(w') == OverwriteAll(Contents(w), t.others)
  {
    var w1 := w.ApplyAll(t.others);
    ApplyAllIsSound(w, t.others);
    TruthIsStable(w, w1, p);
    if Enabled(p, a) {
      if !a.Call? {
        InternalIsTruthful(w1, p, a);
      } else if p.workers[a.who].job < |p.items| && !p.workers[a.who].st.Done? {
        CallIsTruthful(w1, p, a.who, t.reply);
      }
    }
  }

  lemma {:induction false} HandledIsLogged(log: seq<Record>, j: nat) returns (n: nat)
    requires Handled(log, j) > 0
    ensures n < |log| && log[n].job == j
  {
    var m := |log| - 1;
    if log[m].job == j {
      n := m;
    } else {
      n := HandledIsLogged(log[..m], j);
    }
  }

  lemma {:induction false} LoggedErrorFailed(log: seq<Record>, n: nat)
    requires n < |log| && log[n].err.Some?
    ensures Failed(log, log[n].err.value) > 0
  {
    if n < |log| - 1 {
      LoggedErrorFailed(log[..|log| - 1], n);
    }
  }

  /** A nil result of migrateList: no object of the page lags any more. */
  lemma NilMeansMigrated(w: World, p: Pool)
    requires Orderly(p) && Truthful(w, p) && p.returned && p.errors == []
    ensures forall k: Key :: Pages(p.items, k) ==> !w.Lagging(k)
  {
    ReturnIsExact(p);
    assert forall e: Error :: Failed(p.log, e) == 0;
    forall k: Key | Pages(p.items, k)
      ensures !w.Lagging(k)
    {
      var j :| 0 <= j < |p.items| && p.items[j].key == k;
      assert Handled(p.log, j) == 1;
      var n := HandledIsLogged(p.log, j);
      if p.log[n].err.Some? {
        LoggedErrorFailed(p.log, n);
      }
      assert TrueRecord(w, p.items, p.log[n]);
    }
  }

  lemma {:induction false} FailedIsLogged(log: seq<Record>, e: Error) returns (n: nat)
    requires Failed(log, e) > 0
    ensures n < |log| && log[n].err == Some(e)
  {
    var m := |log| - 1;
    if log[m].err == Some(e) {
      n := m;
    } else {
      n := FailedIsLogged(log[..m], e);
    }
  }

  /** Every collected error is one that must not be retried. */
  lemma ErrorsAreFinal(w: World, p: Pool, n: nat)
    requires Orderly(p) && Truthful(w, p) && n < |p.errors|
    ensures !CanRetry(p.errors[n])
  {
    var e := p.errors[n];
    assert multiset(p.errors)[e] > 0;
    assert Failed(p.log, e) > 0;
    var m := FailedIsLogged(p.log, e);
    assert TrueRecord(w, p.items, p.log[m]);
  }

  // ------------------------------------------------------------------ termination

  /** Moves that a worker still has before it, if nothing goes wrong. */
  function Work(w: World, items: seq<Item>, x: Worker): nat {
    match x
    case Exited => 0
    case Idle => 1
    case Sending(_) => 2
    case Busy(j, st) => 2 + if j < |items| then CallsNeeded(w, items[j], st) else 0
  }

  function TotalWork(w: World, items: seq<Item>, ws: seq<Worker>): nat {
    if ws == [] then 0 else TotalWork(w, items, ws[..|ws| - 1]) + Work(w, items, ws[|ws| - 1])
  }

  /** A bound on the moves that remain, if nothing goes wrong. */
  function PoolRank(w: World, p: Pool): int {
    TotalWork(w, p.items, p.workers) + 5 * (|p.items| - p.fed)
    + (if p.workClosed then 0 else 1) + (if p.errClosed then 0 else 1) + (if p.returned then 0 else 1)
  }

  /** What can go wrong in one turn: writes of others, and a fault. */
  function Fuss(t: Turn): nat {
    |t.others| + (if t.reply == Ok then 0 else 1)
  }

  /** The moves that one write or fault can add. */
  function Setback(p: Pool): nat {
    2 * |p.workers| + 3
  }

  lemma {:induction false} TotalWorkUpdate(w: World, items: seq<Item>, ws: seq<Worker>, i: nat, x: Worker)
    requires i < |ws|
    ensures TotalWork(w, items, ws[i := x]) + Work(w, items, ws[i]) == TotalWork(w, items, ws) + Work(w, items, x)
  {
    var n := |ws| - 1;
    if i == n {
      assert ws[i := x][..n] == ws[..n];
    } else {
      assert ws[i := x][..n] == ws[..n][i := x];
      TotalWorkUpdate(w, items, ws[..n], i, x);
    }
  }

  lemma {:induction false} TotalWorkMoves(w: World, w': World, items: seq<Item>, ws: seq<Worker>, d: nat)
    requires forall i :: 0 <= i < |ws| ==> Work(w', items, ws[i]) <= Work(w, items, ws[i]) + d
    ensures TotalWork(w', items, ws) <= TotalWork(w, items, ws) + d * |ws|
  {
    if ws != [] {
      TotalWorkMoves(w, w', items, ws[..|ws| - 1], d);
      assert d * |ws| == d * (|ws| - 1) + d;
    }
  }

  lemma OthersSetBack(w: World, p: Pool, xs: seq<Write>)
    requires Orderly(p)
    ensures PoolRank(w.ApplyAll(xs), p) <= PoolRank(w, p) + 2 * |p.workers| * |xs|
  {
    var w1 := w.ApplyAll(xs);
    if xs != [] {
      forall i | 0 <= i < |p.workers|
        ensures Work(w1, p.items, p.workers[i]) <= Work(w, p.items, p.workers[i]) + 2
      {
      }
      TotalWorkMoves(w, w1, p.items, p.workers, 2);
      assert 2 * |p.workers| <= 2 * |p.workers| * |xs|;
    }
  }

  lemma InternalDescends(w: World, p: Pool, a: Actor)
    requires Orderly(p) && Enabled(p, a) && !a.Call?
    ensures PoolRank(w, Internal(p, a)) < PoolRank(w, p)
  {
    if p.returned {
      NobodyLeft(p, 0);
    }
    match a
    case Feed(i) =>
      TotalWorkUpdate(w, p.items, p.workers, i, Busy(p.fed, Trying(false)));
    case Send(i) =>
      if p.errClosed {
        NobodyLeft(p, i);
      }
      TotalWorkUpdate(w, p.items, p.workers, i, Idle);
    case Exit(i) =>
      TotalWorkUpdate(w, p.items, p.workers, i, Exited);
    case StopSending(i) =>
      NobodyLeft(p, i);
    case _ =>
  }

  /** A call on one object does not disturb the work on the others. */
  lemma OthersUndisturbed(w: World, w': World, p: Pool, i: nat)
    requires DistinctKeys(p.items) && i < |p.workers| && p.workers[i].Busy? && p.workers[i].job < |p.items|
    requires Accounted(p.log, p.workers, p.fed)
    requires SameElsewhere(w, w', p.items[p.workers[i].job].key)
    ensures TotalWork(w', p.items, p.workers[i := Exited]) <= TotalWork(w, p.items, p.workers[i := Exited])
  {
    var rest := p.workers[i := Exited];
    BusyJobsWereFed(p, i);
    forall n | 0 <= n < |rest|
      ensures Work(w', p.items, rest[n]) <= Work(w, p.items, rest[n]) + 0
    {
      if rest[n].Busy? && rest[n].job < |p.items| {
        assert p.items[rest[n].job].key != p.items[p.workers[i].job].key;
      }
    }
    TotalWorkMoves(w, w', p.items, rest, 0);
  }

  lemma CallDescends(w: World, p: Pool, i: nat, reply: Reply)
    requires w.Valid() && Orderly(p) && Truthful(w, p)
    requires Enabled(p, Call(i)) && p.workers[i].job < |p.items| && !p.workers[i].st.Done?
    ensures var (w', p') := CallStep(w, p, i, reply);
            PoolRank(w', p') < PoolRank(w, p) + (if reply == Ok then 0 else 3)
  {
    var b := p.workers[i];
    var item := p.items[b.job];
    ItemCallStaysWithin(w, item, b.st, reply);
    CallsAdvance(w, item, b.st, reply);
    var (w', st) := ItemCall(w, item, b.st, reply);
    var x := AfterCall(b.job, st).0;
    CallDescendsBy(w, w', p, i, x);
  }

  lemma CallDescendsBy(w: World, w': World, p: Pool, i: nat, x: Worker)
    requires DistinctKeys(p.items) && i < |p.workers| && p.workers[i].Busy? && p.workers[i].job < |p.items|
    requires Accounted(p.log, p.workers, p.fed)
    requires SameElsewhere(w, w', p.items[p.workers[i].job].key)
    ensures TotalWork(w', p.items, p.workers[i := x]) + Work(w, p.items, p.workers[i])
         <= TotalWork(w, p.items, p.workers) + Work(w', p.items, x)
  {
    OthersUndisturbed(w, w', p, i);
    TotalWorkUpdate(w, p.items, p.workers, i, Exited);
    TotalWorkUpdate(w', p.items, p.workers[i := Exited], i, x);
    assert p.workers[i := Exited][i := x] == p.workers[i := x];
  }

  /** Every move that is made brings migrateList closer to its return, except for what writes
      of others and faults set back. */
  lemma PoolDescends(w: World, p: Pool, a: Actor, t: Turn)
    requires w.Valid() && Orderly(p) && Truthful(w, p)
    ensures var (w', p') := PoolStep(w, p, a, t);
            PoolRank(w', p') + (if Enabled(p, a) then 1 else 0) <= PoolRank(w, p) + Setback(p) * Fuss(t)
  {
    var w1 := w.ApplyAll(t.others);
    ApplyAllIsSound(w, t.others);
    TruthIsStable(w, w1, p);
    OthersSetBack(w, p, t.others);
    assert Setback(p) * Fuss(t)
        == 2 * |p.workers| * |t.others| + 3 * |t.others| + Setback(p) * (if t.reply == Ok then 0 else 1);
    if Enabled(p, a) {
      if a.Call? {
        BusyJobsWereFed(p, a.who);
        CallDescends(w1, p, a.who, t.reply);
      } else {
        InternalDescends(w1, p, a);
      }
    }
  }
}
