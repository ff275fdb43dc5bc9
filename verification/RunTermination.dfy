/** Run returns: every step that is made brings it closer, except for what faults, expiries
    and the writes of others set back. */
module RunTermination {
  import opened Wrappers
  import opened ApiServer
  import opened ItemMigration
  import opened WorkerPool
  import opened Migrations
  import opened Runner

  /** The keys that the list may still have to show: those after the cursor, in the snapshot
      that it reads and, should that expire, in the present store. */
  function KeysLeft(w: World, t: Token): set<Key> {
    set k | k in w.Snapshot(SnapshotOf(w, t)).Keys + w.now.Keys && k > After(t)
  }

  /** The steps that one more key can cost: a page of its own, a save, and its item. */
  function KeyCost(concurrency: nat): nat {
    concurrency + 20
  }

  function ListRank(w: World, t: Token, concurrency: nat): nat {
    KeyCost(concurrency) * |KeysLeft(w, t)| + concurrency + 5
  }

  /** A bound on the steps that remain, if nothing goes wrong. */
  function RunRank(s: System, concurrency: nat): int {
    match s.phase
    case Loading => 1 + if s.ticket.Some? then ListRank(s.w, s.ticket.value.token, concurrency) else 0
    case Listing(t) => ListRank(s.w, t, concurrency)
    case Migrating(p, next) => PoolRank(s.w, p) + AfterPageRank(s.w, next, concurrency)
    case SaveGet(t, n) => 2 * n + ListRank(s.w, t, concurrency)
    case SavePut(t, _, n) => 2 * n - 1 + ListRank(s.w, t, concurrency)
    case Finished(_) => 0
  }

  function AfterPageRank(w: World, next: Token, concurrency: nat): nat {
    if next.Start? then 0 else 2 * SAVE_ATTEMPTS + ListRank(w, next, concurrency)
  }

  /** All that can go wrong before and in one step. */
  function MoveFuss(m: Move): nat {
    Fuss(m.turn) + (if m.list.Serve? then 0 else 1)
  }

  /** The steps that one piece of trouble can add. */
  function RunSetback(concurrency: nat): nat {
    KeyCost(concurrency) + 2 * concurrency + 3
  }

  /** The scheduler's choice can move, unless the run is over. */
  predicate Moves(s: System, m: Move) {
    match s.phase
    case Finished(_) => false
    case Migrating(p, _) => Enabled(p, m.actor)
    case _ => true
  }

  lemma OneWriteAddsOneKey(w: World, x: Write, t: Token)
    requires t.Continue? && t.snapshot.Some? ==> t.snapshot.value <= |w.past|
    ensures |KeysLeft(w.Apply(x), t)| <= |KeysLeft(w, t)| + 1
  {
    assert KeysLeft(w.Apply(x), t) <= KeysLeft(w, t) + {x.key};
    SubsetIsSmaller(KeysLeft(w.Apply(x), t), KeysLeft(w, t) + {x.key});
  }

  lemma {:induction false} WritesAddKeys(w: World, xs: seq<Write>, t: Token, concurrency: nat)
    requires t.Continue? && t.snapshot.Some? ==> t.snapshot.value <= |w.past|
    ensures |KeysLeft(w.ApplyAll(xs), t)| <= |KeysLeft(w, t)| + |xs|
    ensures ListRank(w.ApplyAll(xs), t, concurrency) <= ListRank(w, t, concurrency) + KeyCost(concurrency) * |xs|
    decreases |xs|
  {
    if xs != [] {
      OneWriteAddsOneKey(w, xs[0], t);
      WritesAddKeys(w.Apply(xs[0]), xs[1..], t, concurrency);
    }
    Scale(KeyCost(concurrency), |KeysLeft(w.ApplyAll(xs), t)|, |KeysLeft(w, t)|, |xs|);
  }

  lemma Scale(c: nat, a: nat, b: nat, d: nat)
    requires a <= b + d
    ensures c * a <= c * b + c * d
  {
    assert c * (b + d) == c * b + c * d;
    assert c * (b + d - a) >= 0;
  }

  /** The migrator's own writes add no key. */
  lemma CallAddsNoKey(w: World, w': World, t: Token)
    requires AtMostRewrites(w, w')
    requires t.Continue? && t.snapshot.Some? ==> t.snapshot.value <= |w.past|
    ensures |KeysLeft(w', t)| <= |KeysLeft(w, t)|
  {
    if t.Continue? && t.snapshot.Some? {
      assert w'.Snapshot(t.snapshot.value) == w.Snapshot(t.snapshot.value);
    }
    assert KeysLeft(w', t) <= KeysLeft(w, t);
    SubsetIsSmaller(KeysLeft(w', t), KeysLeft(w, t));
  }

  lemma DisjointPartsAdd(a: set<nat>, b: set<nat>, whole: set<nat>)
    requires a !! b && a <= whole && b <= whole
    ensures |a| + |b| <= |whole|
  {
    SubsetIsSmaller(a + b, whole);
  }

  /** The keys of a page and those after its next cursor are disjoint parts of those left. */
  lemma LaterKeysAreFewer(w: World, t: Token, next: Token)
    requires next.Continue? && next.snapshot == Some(SnapshotOf(w, t)) && After(t) <= After(next)
    ensures KeysLeft(w, next) <= KeysLeft(w, t)
    ensures forall k :: k in KeysLeft(w, next) ==> k > After(next)
  {
    assert SnapshotOf(w, next) == SnapshotOf(w, t);
  }

  lemma ShownAndLeft(w: World, t: Token, keys: seq<nat>, n: nat, next: Token)
    requires keys == Ascending(Remaining(w, t)) && 0 < n <= |keys|
    requires next == Continue(keys[n - 1], Some(SnapshotOf(w, t)))
    ensures n + |KeysLeft(w, next)| <= |KeysLeft(w, t)|
  {
    var shown := set i | 0 <= i < n :: keys[i];
    ShownKeys(keys, n);
    forall i | 0 <= i < n
      ensures keys[i] in Remaining(w, t) && keys[i] <= keys[n - 1]
    {
      assert keys[i] in keys;
    }
    assert shown <= Remaining(w, t) <= KeysLeft(w, t);
    LaterKeysAreFewer(w, t, next);
    DisjointPartsAdd(shown, KeysLeft(w, next), KeysLeft(w, t));
  }

  /** A page uses up its keys. */
  lemma PageUsesKeys(w: World, t: Token, hint: nat)
    requires w.Valid() && CursorSafe(w, t)
    ensures var p := ServePage(w, t, CHUNK_LIMIT, hint);
            && |p.items| <= |KeysLeft(w, t)|
            && (p.next.Continue? ==> |p.items| > 0 && |p.items| + |KeysLeft(w, p.next)| <= |KeysLeft(w, t)|)
  {
    var p := ServePage(w, t, CHUNK_LIMIT, hint);
    SubsetIsSmaller(Remaining(w, t), KeysLeft(w, t));
    if p.next.Continue? {
      ShownAndLeft(w, t, Ascending(Remaining(w, t)), |p.items|, p.next);
    }
  }

  lemma {:induction false} ShownKeys(keys: seq<nat>, n: nat)
    requires n <= |keys| && forall i, j :: 0 <= i < j < |keys| ==> keys[i] < keys[j]
    ensures |set i | 0 <= i < n :: keys[i]| == n
  {
    if n > 0 {
      ShownKeys(keys, n - 1);
      var less := set i | 0 <= i < n - 1 :: keys[i];
      assert (set i | 0 <= i < n :: keys[i]) == less + {keys[n - 1]};
    }
  }

  lemma {:induction false} IdleWork(w: World, items: seq<Item>, ws: seq<Worker>)
    requires forall i :: 0 <= i < |ws| ==> ws[i].Idle?
    ensures TotalWork(w, items, ws) == |ws|
  {
    if ws != [] {
      IdleWork(w, items, ws[..|ws| - 1]);
    }
  }

  lemma PageArithmetic(n: nat, items: nat, left: nat, before: nat)
    requires items > 0 && items + left <= before
    ensures n + 5 * items + 13 + (n + 20) * left < (n + 20) * before
  {
    Scale(n + 20, items + left, before, 0);
    assert (n + 20) * (items + left) == (n + 20) * items + (n + 20) * left;
    assert (n + 20) * items == 5 * items + (n + 15) * items;
    Scale(n + 15, 1, items, 0);
  }

  lemma LastPageArithmetic(n: nat, items: nat, before: nat)
    requires items <= before
    ensures 5 * items <= (n + 20) * before
  {
    assert (n + 20) * before == 5 * before + (n + 15) * before;
  }

  lemma LaunchRank(w: World, items: seq<Item>, concurrency: nat)
    ensures PoolRank(w, Launch(items, concurrency)) == concurrency + 5 * |items| + 3
  {
    IdleWork(w, items, Launch(items, concurrency).workers);
  }

  lemma ListDescends(w: World, t: Token, hint: nat, concurrency: nat)
    requires w.Valid() && CursorSafe(w, t)
    ensures var p := ServePage(w, t, CHUNK_LIMIT, hint);
            PoolRank(w, Launch(p.items, concurrency)) + AfterPageRank(w, p.next, concurrency) < ListRank(w, t, concurrency)
  {
    var p := ServePage(w, t, CHUNK_LIMIT, hint);
    PageUsesKeys(w, t, hint);
    LaunchRank(w, p.items, concurrency);
    if p.next.Continue? {
      PageArithmetic(concurrency, |p.items|, |KeysLeft(w, p.next)|, |KeysLeft(w, t)|);
    } else {
      LastPageArithmetic(concurrency, |p.items|, |KeysLeft(w, t)|);
    }
  }

  /** An expired token is replaced by one with the same cursor, over the latest state. */
  lemma ExpiryKeepsKeys(w: World, t: Token, concurrency: nat)
    requires t.Continue?
    ensures ListRank(w, Continue(t.after, None), concurrency) <= ListRank(w, t, concurrency)
  {
    var t' := Continue(t.after, None);
    SubsetIsSmaller(KeysLeft(w, t'), KeysLeft(w, t));
    Scale(KeyCost(concurrency), |KeysLeft(w, t')|, |KeysLeft(w, t)|, 0);
  }

  lemma UnservedListDescends(w: World, ticket: Option<Migration>, t: Token, reply: ListReply, concurrency: nat)
    requires !reply.Serve?
    ensures RunRank(System(w, ticket, AfterList(t, ListAnswer(w, t, reply), concurrency)), concurrency)
            < ListRank(w, t, concurrency) + 11
  {
    var phase := AfterList(t, ListAnswer(w, t, reply), concurrency);
    if phase.SaveGet? {
      assert phase == SaveGet(Continue(t.after, None), SAVE_ATTEMPTS);
      ExpiryKeepsKeys(w, t, concurrency);
    } else {
      assert phase.Finished? || phase == Listing(t);
    }
  }

  lemma ListingDescends(w: World, ticket: Option<Migration>, t: Token, reply: ListReply, concurrency: nat)
    requires w.Valid() && CursorSafe(w, t)
    ensures RunRank(System(w, ticket, AfterList(t, ListAnswer(w, t, reply), concurrency)), concurrency)
            < ListRank(w, t, concurrency) + (if reply.Serve? then 0 else 11)
  {
    if reply.Serve? {
      ListDescends(w, t, reply.hint, concurrency);
    } else {
      UnservedListDescends(w, ticket, t, reply, concurrency);
    }
  }

  lemma OthersDelayLoading(w: World, ticket: Option<Migration>, xs: seq<Write>, visits: seq<Visit>, concurrency: nat)
    requires TicketSafe(w, ticket)
    ensures RunRank(System(w.ApplyAll(xs), ApplyVisits(ticket, visits), Loading), concurrency)
            <= RunRank(System(w, ticket, Loading), concurrency) + KeyCost(concurrency) * |xs|
  {
    VisitsKeepToken(ticket, visits);
    if ticket.Some? {
      WritesAddKeys(w, xs, ticket.value.token, concurrency);
    }
  }

  /** What others do before a step of any phase but the pool's. */
  lemma OthersDelay(s: System, xs: seq<Write>, visits: seq<Visit>, concurrency: nat)
    requires Safe(s) && !s.phase.Migrating?
    ensures RunRank(System(s.w.ApplyAll(xs), ApplyVisits(s.ticket, visits), s.phase), concurrency)
            <= RunRank(s, concurrency) + KeyCost(concurrency) * |xs|
  {
    if s.phase.Loading? {
      OthersDelayLoading(s.w, s.ticket, xs, visits, concurrency);
    } else if !s.phase.Finished? {
      assert CursorSafe(s.w, s.phase.token);
      WritesAddKeys(s.w, xs, s.phase.token, concurrency);
    }
  }

  /** What the migrator itself may do to the server in one step: rewrite an object. */
  ghost predicate AtMostRewrites(w: World, w': World) {
    || w' == w
    || (w'.past == w.past + [w.now] && w'.now.Keys == w.now.Keys)
  }

  lemma PutRewrites(w: World, k: Key, o: Object, reply: Reply)
    ensures AtMostRewrites(w, PutAnswer(w, k, o, reply).0)
  {
  }

  lemma ItemCallRewrites(w: World, item: Item, st: ItemState, reply: Reply)
    requires !st.Done?
    ensures AtMostRewrites(w, ItemCall(w, item, st, reply).0)
  {
    PutRewrites(w, item.key, if st.Fetched? then st.obj else item.obj, reply);
  }

  lemma PoolStepRewrites(w: World, p: Pool, a: Actor, t: Turn)
    ensures AtMostRewrites(w.ApplyAll(t.others), PoolStep(w, p, a, t).0)
  {
    if Enabled(p, a) && a.Call? && p.workers[a.who].job < |p.items| && !p.workers[a.who].st.Done? {
      ItemCallRewrites(w.ApplyAll(t.others), p.items[p.workers[a.who].job], p.workers[a.who].st, t.reply);
    }
  }

  /** A pool step leaves the server's past alone, and only the others' writes add keys. */
  lemma PoolStepAddsNoKey(w: World, p: Pool, a: Actor, t: Turn, next: Token)
    requires w.Valid()
    requires next.Continue? && next.snapshot.Some? ==> next.snapshot.value <= |w.past|
    ensures |KeysLeft(PoolStep(w, p, a, t).0, next)| <= |KeysLeft(w, next)| + |t.others|
  {
    ApplyAllIsSound(w, t.others);
    WritesAddKeys(w, t.others, next, 0);
    PoolStepRewrites(w, p, a, t);
    CallAddsNoKey(w.ApplyAll(t.others), PoolStep(w, p, a, t).0, next);
  }

  lemma PageRankGrows(w: World, w': World, next: Token, others: nat, concurrency: nat)
    requires |KeysLeft(w', next)| <= |KeysLeft(w, next)| + others
    ensures AfterPageRank(w', next, concurrency) <= AfterPageRank(w, next, concurrency) + KeyCost(concurrency) * others
  {
    Scale(KeyCost(concurrency), |KeysLeft(w', next)|, |KeysLeft(w, next)|, others);
  }

  lemma SetbackArithmetic(concurrency: nat, others: nat, fuss: nat)
    requires others <= fuss
    ensures KeyCost(concurrency) * others + (2 * concurrency + 3) * fuss <= RunSetback(concurrency) * fuss
  {
    Scale(KeyCost(concurrency), others, fuss, 0);
    assert RunSetback(concurrency) * fuss == KeyCost(concurrency) * fuss + (2 * concurrency + 3) * fuss;
  }

  lemma PoolPhaseDescends(w: World, p: Pool, next: Token, m: Move, concurrency: nat)
    requires w.Valid() && PhaseSafe(w, Migrating(p, next)) && |p.workers| == concurrency
    ensures var (w', p') := PoolStep(w, p, m.actor, m.turn);
            PoolRank(w', p') + AfterPageRank(w', next, concurrency) + (if Enabled(p, m.actor) then 1 else 0)
            <= PoolRank(w, p) + AfterPageRank(w, next, concurrency) + RunSetback(concurrency) * Fuss(m.turn)
  {
    var w' := PoolStep(w, p, m.actor, m.turn).0;
    PoolDescends(w, p, m.actor, m.turn);
    PoolStepAddsNoKey(w, p, m.actor, m.turn, next);
    PageRankGrows(w, w', next, |m.turn.others|, concurrency);
    SetbackArithmetic(concurrency, |m.turn.others|, Fuss(m.turn));
  }

  /** The pool has as many workers as were asked for, and a save has an attempt left. */
  predicate Sized(phase: Phase, concurrency: nat) {
    match phase
    case Migrating(p, _) => |p.workers| == concurrency
    case SaveGet(_, n) => n > 0
    case SavePut(_, _, n) => n > 0
    case _ => true
  }

  lemma StepStaysSized(s: System, m: Move, concurrency: nat)
    requires Safe(s) && Sized(s.phase, concurrency)
    ensures Sized(Step(s, m, concurrency).phase, concurrency)
  {
    if s.phase.Migrating? {
      PoolStepIsOrderly(s.w, s.phase.pool, m.actor, m.turn);
    }
  }

  lemma TroubleArithmetic(concurrency: nat, xs: nat, m: Move)
    requires xs == |m.turn.others|
    ensures KeyCost(concurrency) * xs + (if m.list.Serve? then 0 else 11) <= RunSetback(concurrency) * MoveFuss(m)
    ensures RunSetback(concurrency) * Fuss(m.turn) <= RunSetback(concurrency) * MoveFuss(m)
  {
    var c := RunSetback(concurrency);
    var faults := MoveFuss(m) - xs;
    assert c * MoveFuss(m) == c * xs + c * faults;
    Scale(xs, KeyCost(concurrency), c, 0);
    Scale(c, if m.list.Serve? then 0 else 1, faults, 0);
    Scale(c, Fuss(m.turn), MoveFuss(m), 0);
  }

  lemma CallPhaseDescends(s: System, m: Move, concurrency: nat)
    requires Safe(s) && Sized(s.phase, concurrency) && concurrency > 0
    requires !s.phase.Migrating? && !s.phase.Finished?
    ensures RunRank(Step(s, m, concurrency), concurrency) + 1
            <= RunRank(s, concurrency) + KeyCost(concurrency) * |m.turn.others| + (if m.list.Serve? then 0 else 11)
  {
    var w := s.w.ApplyAll(m.turn.others);
    var ticket := ApplyVisits(s.ticket, m.visits);
    OthersDelay(s, m.turn.others, m.visits, concurrency);
    if s.phase.Listing? {
      ApplyAllIsSound(s.w, m.turn.others);
      CursorStaysSafe(s.w, w, s.phase.token);
      ListingDescends(w, ticket, s.phase.token, m.list, concurrency);
    }
  }

  lemma MigratingDescends(s: System, m: Move, concurrency: nat)
    requires Safe(s) && Sized(s.phase, concurrency) && s.phase.Migrating?
    ensures RunRank(Step(s, m, concurrency), concurrency) + (if Moves(s, m) then 1 else 0)
            <= RunRank(s, concurrency) + RunSetback(concurrency) * Fuss(m.turn)
  {
    PoolPhaseDescends(s.w, s.phase.pool, s.phase.next, m, concurrency);
    PoolStepIsOrderly(s.w, s.phase.pool, m.actor, m.turn);
    var (w', p') := PoolStep(s.w, s.phase.pool, m.actor, m.turn);
    if p'.returned {
      ReturnedRank(w', p', s.phase.next, ApplyVisits(s.ticket, m.visits), concurrency);
    }
  }

  /** A pool that has returned leaves nothing to do but to save the next cursor. */
  lemma ReturnedRank(w: World, p: Pool, next: Token, ticket: Option<Migration>, concurrency: nat)
    requires Orderly(p)
    ensures RunRank(System(w, ticket, AfterPage(p.errors, next)), concurrency) <= PoolRank(w, p) + AfterPageRank(w, next, concurrency)
  {
  }

  /** Every step that is made lowers the rank, except for what trouble adds to it. */
  lemma StepDescends(s: System, m: Move, concurrency: nat)
    requires Safe(s) && Sized(s.phase, concurrency) && concurrency > 0
    ensures RunRank(Step(s, m, concurrency), concurrency) + (if Moves(s, m) then 1 else 0)
            <= RunRank(s, concurrency) + RunSetback(concurrency) * MoveFuss(m)
  {
    TroubleArithmetic(concurrency, |m.turn.others|, m);
    if s.phase.Migrating? {
      MigratingDescends(s, m, concurrency);
    } else if !s.phase.Finished? {
      CallPhaseDescends(s, m, concurrency);
    } else {
      assert Step(s, m, concurrency).phase == s.phase;
    }
  }

  /** The steps that are really made, and all the trouble on the way. */
  function MovesMade(s: System, moves: seq<Move>, concurrency: nat): nat
    decreases |moves|
  {
    if s.phase.Finished? || moves == [] then 0
    else (if Moves(s, moves[0]) then 1 else 0) + MovesMade(Step(s, moves[0], concurrency), moves[1..], concurrency)
  }

  function TotalFuss(moves: seq<Move>): nat {
    if moves == [] then 0 else MoveFuss(moves[0]) + TotalFuss(moves[1..])
  }

  lemma {:induction false} MovesAreBounded(s: System, moves: seq<Move>, concurrency: nat)
    requires Safe(s) && Sized(s.phase, concurrency) && concurrency > 0
    ensures MovesMade(s, moves, concurrency) <= RunRank(s, concurrency) + RunSetback(concurrency) * TotalFuss(moves)
    decreases |moves|
  {
    RankIsNatural(s, concurrency);
    if !s.phase.Finished? && moves != [] {
      var s' := Step(s, moves[0], concurrency);
      StepIsSafe(s, moves[0], concurrency);
      StepStaysSized(s, moves[0], concurrency);
      StepDescends(s, moves[0], concurrency);
      MovesAreBounded(s', moves[1..], concurrency);
      Distribute(RunSetback(concurrency), MoveFuss(moves[0]), TotalFuss(moves[1..]));
    }
  }

  lemma Distribute(c: nat, a: nat, b: nat)
    ensures c * (a + b) == c * a + c * b
  {
  }

  lemma RankIsNatural(s: System, concurrency: nat)
    requires Safe(s) && Sized(s.phase, concurrency)
    ensures RunRank(s, concurrency) >= 0
  {
  }

  /** Run terminates. It makes a bounded number of steps, in the keys of the store and the
      amount of trouble, whatever the schedule; and until it is finished it can always make
      one more, so a schedule that lets it move does not leave it unfinished. */
  lemma RunTerminates(w: World, ticket: Migration, moves: seq<Move>, concurrency: nat)
    requires w.Valid() && ticket.token == Start && concurrency > 0
    ensures var s := System(w, Some(ticket), Loading);
            && MovesMade(s, moves, concurrency)
               <= KeyCost(concurrency) * |w.now| + concurrency + 6 + RunSetback(concurrency) * TotalFuss(moves)
            && var end := Exec(s, moves, concurrency).s;
               !end.phase.Finished? ==> exists m :: Moves(end, m)
  {
    var s := System(w, Some(ticket), Loading);
    MovesAreBounded(s, moves, concurrency);
    assert KeysLeft(w, Start) == w.now.Keys;
    ExecIsSafe(s, moves, concurrency);
    var end := Exec(s, moves, concurrency).s;
    if !end.phase.Finished? {
      var m := SomeMove(end);
    }
  }

  lemma SomeMove(s: System) returns (m: Move)
    requires Safe(s) && !s.phase.Finished?
    ensures Moves(s, m) && m.turn == Turn([], Ok) && m.visits == [] && m.list.Serve?
  {
    var a := Return;
    if s.phase.Migrating? {
      a := NeverStuck(s.phase.pool);
    }
    m := Move(Turn([], Ok), [], Serve(0), a, 0);
  }

  /** The scheduler lets something move at every step. */
  predicate Productive(s: System, moves: seq<Move>, concurrency: nat)
    decreases |moves|
  {
    s.phase.Finished? || moves == []
    || (Moves(s, moves[0]) && Productive(Step(s, moves[0], concurrency), moves[1..], concurrency))
  }

  lemma {:induction false} ProductiveMovesCount(s: System, moves: seq<Move>, concurrency: nat)
    requires Productive(s, moves, concurrency)
    ensures MovesMade(s, moves, concurrency) == |moves| - |Exec(s, moves, concurrency).rest|
    decreases |moves|
  {
    if !s.phase.Finished? && moves != [] {
      ProductiveMovesCount(Step(s, moves[0], concurrency), moves[1..], concurrency);
    }
  }

  /** The steps after which a run has returned, whatever the schedule. */
  function RunBudget(s: System, moves: seq<Move>, concurrency: nat): int {
    RunRank(s, concurrency) + RunSetback(concurrency) * TotalFuss(moves)
  }

  /** A run that is given more steps than its budget returns within it. */
  lemma ProductiveRunReturns(s: System, moves: seq<Move>, concurrency: nat)
    requires Safe(s) && Sized(s.phase, concurrency) && concurrency > 0
    requires Productive(s, moves, concurrency) && |moves| > RunBudget(s, moves, concurrency)
    ensures var end := Exec(s, moves, concurrency);
            end.s.phase.Finished? && |moves| - |end.rest| <= RunBudget(s, moves, concurrency)
  {
    MovesAreBounded(s, moves, concurrency);
    ProductiveMovesCount(s, moves, concurrency);
    ExecConsumes(s, moves, concurrency);
  }

  /** A run that is given more steps than its budget, and in which nothing lasting goes wrong,
      returns nil and has migrated every object. */
  lemma GentleRunMigratesAll(w: World, ticket: Option<Migration>, moves: seq<Move>, concurrency: nat)
    requires w.Valid() && TicketSafe(w, ticket) && concurrency > 0
    requires var s := System(w, ticket, Loading);
             && Productive(s, moves, concurrency) && |moves| > RunBudget(s, moves, concurrency)
             && Gentle(s, moves, concurrency)
    ensures var end := Exec(System(w, ticket, Loading), moves, concurrency).s;
            end.phase == Finished(None) && end.w.AllCurrent()
  {
    ProductiveRunReturns(System(w, ticket, Loading), moves, concurrency);
    GentleRunSucceeds(System(w, ticket, Loading), moves, concurrency);
  }

  predicate Untroubled(moves: seq<Move>) {
    forall i :: 0 <= i < |moves| ==> moves[i].turn == Turn([], Ok) && moves[i].visits == [] && moves[i].list.Serve?
  }

  lemma OneMoreMove(s: System, m: Move, rest: seq<Move>, concurrency: nat)
    requires Untroubled([m]) && Untroubled(rest) && TotalFuss(rest) == 0
    requires s.phase.Finished? || (Moves(s, m) && Productive(Step(s, m, concurrency), rest, concurrency))
    ensures Untroubled([m] + rest) && Productive(s, [m] + rest, concurrency) && TotalFuss([m] + rest) == 0
  {
    assert ([m] + rest)[1..] == rest;
    assert Untroubled([m]) ==> [m][0].turn == Turn([], Ok) && [m][0].list.Serve?;
  }

  /** There always is such a schedule, of any length. */
  lemma {:induction false} ScheduleExists(s: System, n: nat, concurrency: nat) returns (moves: seq<Move>)
    requires Safe(s) && concurrency > 0
    ensures |moves| == n && Untroubled(moves) && Productive(s, moves, concurrency) && TotalFuss(moves) == 0
    decreases n
  {
    if n == 0 {
      moves := [];
    } else {
      var m := Move(Turn([], Ok), [], Serve(0), Return, 0);
      if !s.phase.Finished? {
        m := SomeMove(s);
      }
      StepIsSafe(s, m, concurrency);
      var rest := ScheduleExists(Step(s, m, concurrency), n - 1, concurrency);
      OneMoreMove(s, m, rest, concurrency);
      moves := [m] + rest;
    }
  }
}
