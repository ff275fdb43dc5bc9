/** Migrating one listed object: worker, migrateOneItem and try of pkg/migrator/core.go. */
module ItemMigration {
  import opened Wrappers
  import opened Errors
  import opened ApiServer

  /** How the server treats one call: it answers, it fails the call without effect, or the
      call takes effect but its answer is lost. */
  datatype Reply = Ok | Fail(e: Fault) | Lost(e: Fault)

  /** What happens around one call: other clients write first, then the call gets its reply. */
  datatype Turn = Turn(others: seq<Write>, reply: Reply)

  // ------------------------------------------------------------------ the automaton

  /** Where migrateOneItem stands between two calls: at the start of a try, between the GET
      and the PUT of a try, or at its end. */
  datatype ItemState = Trying(get: bool) | Fetched(obj: Object) | Done(err: Option<Error>)

  /** After a failed try: stop at an error that cannot be retried. */
  function AfterError(get: bool, e: Error): ItemState {
    if CanRetry(e) then Trying(get) else Done(Some(e))
  }

  predicate Accepts(w: World, k: Key, o: Object) {
    k in w.now && w.now[k].rv == o.rv
  }

  function PutAnswer(w: World, k: Key, o: Object, reply: Reply): (World, Option<Error>) {
    var w' := if Accepts(w, k, o) then w.Put(k, o.content) else w;
    match reply
    case Fail(e) => (w, Some(e))
    case Lost(e) => (w', Some(e))
    case Ok => (w', if k !in w.now then Some(NOT_FOUND) else if Accepts(w, k, o) then None else Some(CONFLICT))
  }

  const NOT_FOUND := Error(NotFound, false, false, false, false, None)

  function GetAnswer(w: World, k: Key, reply: Reply): Result<Object, Error> {
    match reply
    case Ok => if k in w.now then Success(w.now[k]) else Failure(NOT_FOUND)
    case Fail(e) => Failure(e)
    case Lost(e) => Failure(e)
  }

  /** The verdict of the loop of migrateOneItem on the result of one try. */
  function Judge(get: bool, err: Option<Error>): ItemState {
    if err == None || err.value.reason == NotFound then Done(None) else AfterError(get, err.value)
  }

  function AfterPut(err: Option<Error>): ItemState {
    Judge(err.Some? && err.value.reason == Conflict, err)
  }

  /** One call of the automaton. */
  function ItemCall(w: World, item: Item, st: ItemState, reply: Reply): (World, ItemState)
    requires !st.Done?
  {
    match st
    case Trying(true) =>
      (match GetAnswer(w, item.key, reply)
       case Success(o) => (w, Fetched(o))
       case Failure(e) => (w, Judge(true, Some(e))))
    case Trying(false) =>
      var (w', err) := PutAnswer(w, item.key, item.obj, reply); (w', AfterPut(err))
    case Fetched(o) =>
      var (w', err) := PutAnswer(w, item.key, o, reply); (w', AfterPut(err))
  }

  function ItemStep(w: World, item: Item, st: ItemState, t: Turn): (World, ItemState)
    requires !st.Done?
  {
    ItemCall(w.ApplyAll(t.others), item, st, t.reply)
  }

  datatype ItemEnd = ItemEnd(w: World, st: ItemState, rest: seq<Turn>)

  /** All calls, until the automaton is done or the process is cut off. */
  function ItemRun(w: World, item: Item, st: ItemState, turns: seq<Turn>): ItemEnd
    decreases |turns|
  {
    if st.Done? || turns == [] then ItemEnd(w, st, turns)
    else
      var (w', st') := ItemStep(w, item, st, turns[0]);
      ItemRun(w', item, st', turns[1..])
  }

  /** What the automaton relies on, and what its end means: success says that the object is
      stored in the active version or gone, failure that a retry was ruled out. */
  ghost predicate ItemInv(w: World, item: Item, st: ItemState) {
    && w.Faithful(item.key, item.obj)
    && match st
       case Trying(_) => true
       case Fetched(o) => w.Faithful(item.key, o)
       case Done(None) => !w.Lagging(item.key)
       case Done(Some(e)) => !CanRetry(e)
  }

  ghost predicate SameElsewhere(w: World, w': World, key: Key) {
    forall k :: k != key ==> (k in w.now <==> k in w'.now) && (k in w.now ==> w.now[k] == w'.now[k])
  }

  lemma ItemCallStaysWithin(w: World, item: Item, st: ItemState, reply: Reply)
    requires !st.Done?
    ensures SameElsewhere(w, ItemCall(w, item, st, reply).0, item.key)
  {
  }

  lemma PutIsSound(w: World, k: Key, o: Object, reply: Reply)
    requires w.Valid() && w.Faithful(k, o)
    ensures var (w', err) := PutAnswer(w, k, o, reply);
            && w'.Valid() && Evolves(w, w')
            && Contents(w') == Contents(w)
            && (err == None || err.value.reason == NotFound ==> !w'.Lagging(k))
  {
    if Accepts(w, k, o) {
      ApplyIsSound(w, Save(k, o.content));
      RewriteKeepsContents(w, k, o);
    }
  }

  lemma ItemCallIsSound(w: World, item: Item, st: ItemState, reply: Reply)
    requires w.Valid() && ItemInv(w, item, st) && !st.Done?
    ensures var (w', st') := ItemCall(w, item, st, reply);
            && w'.Valid() && Evolves(w, w')
            && Contents(w') == Contents(w)
            && ItemInv(w', item, st')
  {
    match st
    case Trying(true) =>
    case Trying(false) => PutIsSound(w, item.key, item.obj, reply);
    case Fetched(o) => PutIsSound(w, item.key, o, reply);
  }

  lemma ItemInvIsStable(w: World, w': World, item: Item, st: ItemState)
    requires ItemInv(w, item, st) && Evolves(w, w')
    ensures ItemInv(w', item, st)
  {
  }

  lemma ItemStepIsSound(w: World, item: Item, st: ItemState, t: Turn)
    requires w.Valid() && ItemInv(w, item, st) && !st.Done?
    ensures var (w', st') := ItemStep(w, item, st, t);
            && w'.Valid() && Evolves(w, w') && ItemInv(w', item, st')
            && Contents(w') == OverwriteAll(Contents(w), t.others)
  {
    ApplyAllIsSound(w, t.others);
    ItemInvIsStable(w, w.ApplyAll(t.others), item, st);
    ItemCallIsSound(w.ApplyAll(t.others), item, st, t.reply);
  }

  // ------------------------------------------------------------------ whole runs

  function OthersOf(turns: seq<Turn>): seq<Write> {
    if turns == [] then [] else turns[0].others + OthersOf(turns[1..])
  }

  lemma {:induction false} ItemRunConsumes(w: World, item: Item, st: ItemState, turns: seq<Turn>)
    ensures var rest := ItemRun(w, item, st, turns).rest;
            |rest| <= |turns| && rest == turns[|turns| - |rest|..]
    decreases |turns|
  {
    if !st.Done? && turns != [] {
      var (w', st') := ItemStep(w, item, st, turns[0]);
      ItemRunConsumes(w', item, st', turns[1..]);
    }
  }

  /** The writes of the others in the turns that a run has used up. */
  function OthersUntil(turns: seq<Turn>, rest: seq<Turn>): seq<Write>
    requires |rest| <= |turns|
  {
    OthersOf(turns[..|turns| - |rest|])
  }

  lemma OthersOfOneMore(turns: seq<Turn>, rest: seq<Turn>)
    requires |rest| < |turns|
    ensures OthersUntil(turns, rest) == turns[0].others + OthersUntil(turns[1..], rest)
  {
    var n := |turns| - |rest|;
    assert turns[..n][1..] == turns[1..][..n - 1];
  }

  /** Wherever a migration of one object is cut off or ends: the stored contents are those
      that the other writers alone would have produced, and the end means what it says. */
  lemma {:induction false} ItemRunIsSound(w: World, item: Item, st: ItemState, turns: seq<Turn>)
    requires w.Valid() && ItemInv(w, item, st)
    ensures var end := ItemRun(w, item, st, turns);
            && end.w.Valid() && Evolves(w, end.w) && ItemInv(end.w, item, end.st)
            && |end.rest| <= |turns| && end.rest == turns[|turns| - |end.rest|..]
            && Contents(end.w) == OverwriteAll(Contents(w), OthersUntil(turns, end.rest))
    decreases |turns|
  {
    ItemRunConsumes(w, item, st, turns);
    var end := ItemRun(w, item, st, turns);
    if st.Done? || turns == [] {
      assert turns[..0] == [];
    } else {
      var (w', st') := ItemStep(w, item, st, turns[0]);
      ItemStepIsSound(w, item, st, turns[0]);
      ItemRunIsSound(w', item, st', turns[1..]);
      EvolvesOn(w, w', end.w);
      OthersOfOneMore(turns, end.rest);
      OverwriteAllAppends(Contents(w), turns[0].others, OthersUntil(turns[1..], end.rest));
    }
  }

  // ------------------------------------------------------------------ the retry bound

  /** The tries that a run begins. */
  function Tries(w: World, item: Item, st: ItemState, turns: seq<Turn>): nat
    decreases |turns|
  {
    if st.Done? || turns == [] then 0
    else
      var (w', st') := ItemStep(w, item, st, turns[0]);
      (if st.Trying? then 1 else 0) + Tries(w', item, st', turns[1..])
  }

  /** What can make a try fail: writes of others to this object, and faults of calls. */
  function WritesTo(xs: seq<Write>, k: Key): nat {
    if xs == [] then 0 else (if xs[0].key == k then 1 else 0) + WritesTo(xs[1..], k)
  }

  function Trouble(t: Turn, k: Key): nat {
    WritesTo(t.others, k) + (if t.reply == Ok then 0 else 1)
  }

  function Budget(turns: seq<Turn>, k: Key): nat {
    if turns == [] then 0 else Trouble(turns[0], k) + Budget(turns[1..], k)
  }

  predicate OutOfDate(w: World, k: Key, o: Object) {
    k in w.now && w.now[k].rv != o.rv
  }

  /** Calls still needed if nothing goes wrong from here on. */
  function CallsNeeded(w: World, item: Item, st: ItemState): nat {
    match st
    case Trying(true) => 2
    case Trying(false) => if OutOfDate(w, item.key, item.obj) then 3 else 1
    case Fetched(o) => if OutOfDate(w, item.key, o) then 3 else 1
    case Done(_) => 0
  }

  function TriesNeeded(w: World, item: Item, st: ItemState): nat {
    match st
    case Trying(true) => 1
    case Trying(false) => if OutOfDate(w, item.key, item.obj) then 2 else 1
    case Fetched(o) => if OutOfDate(w, item.key, o) then 1 else 0
    case Done(_) => 0
  }

  lemma {:induction false} OnlyWritesDisturb(w: World, xs: seq<Write>, item: Item, st: ItemState)
    requires w.Valid()
    ensures w.ApplyAll(xs).Valid()
    ensures TriesNeeded(w.ApplyAll(xs), item, st) <= TriesNeeded(w, item, st) + WritesTo(xs, item.key)
    ensures CallsNeeded(w.ApplyAll(xs), item, st) <= CallsNeeded(w, item, st) + 2 * WritesTo(xs, item.key)
    decreases |xs|
  {
    if xs != [] {
      ApplyIsSound(w, xs[0]);
      OnlyWritesDisturb(w.Apply(xs[0]), xs[1..], item, st);
    }
  }

  /** A call that the server answers brings the end closer; a fault costs at most one more
      GET and PUT. */
  lemma CallsAdvance(w: World, item: Item, st: ItemState, reply: Reply)
    requires w.Valid() && !st.Done?
    ensures var (w', st') := ItemCall(w, item, st, reply);
            && (reply == Ok ==> CallsNeeded(w', item, st') < CallsNeeded(w, item, st))
            && CallsNeeded(w', item, st') <= 3
            && (if st.Trying? then 1 else 0) + TriesNeeded(w', item, st')
               <= TriesNeeded(w, item, st) + (if reply == Ok then 0 else 2)
  {
  }

  /** With b faults and concurrent writes to the object during the call, migrateOneItem
      makes at most 2b + 2 tries. */
  lemma RetryBound(w: World, item: Item, turns: seq<Turn>)
    requires w.Valid()
    ensures Tries(w, item, Trying(false), turns) <= 2 * Budget(turns, item.key) + 2
  {
    TriesAreBounded(w, item, Trying(false), turns);
  }

  const QUIET := Turn([], Ok)

  /** Two quiet calls on an out-of-date item: a conflict, and the GET that it leads to. */
  lemma ConflictThenGet(w: World, item: Item, rest: seq<Turn>)
    requires OutOfDate(w, item.key, item.obj)
    ensures Tries(w, item, Trying(false), [QUIET, QUIET] + rest) == 2 + Tries(w, item, Fetched(w.now[item.key]), rest)
    ensures Budget([QUIET, QUIET] + rest, item.key) == Budget(rest, item.key)
    ensures ItemRun(w, item, Trying(false), [QUIET, QUIET] + rest) == ItemRun(w, item, Fetched(w.now[item.key]), rest)
  {
    var turns := [QUIET, QUIET] + rest;
    assert turns[1..] == [QUIET] + rest;
    assert turns[1..][0] == QUIET && turns[1..][1..] == rest;
    assert w.ApplyAll(QUIET.others) == w;
    assert ItemStep(w, item, Trying(false), QUIET) == (w, Trying(true));
    assert ItemStep(w, item, Trying(true), QUIET) == (w, Fetched(w.now[item.key]));
  }

  /** No smaller bound would do: whenever the listed item is out of date, b faults can force
      2b + 2 tries, since a fault of a PUT brings the stale item back. */
  lemma {:induction false} RetryBoundIsTight(w: World, item: Item, e: Fault, b: nat) returns (turns: seq<Turn>)
    requires OutOfDate(w, item.key, item.obj) && CanRetry(e) && e.reason != Conflict
    ensures Budget(turns, item.key) == b
    ensures Tries(w, item, Trying(false), turns) == 2 * b + 2
    ensures ItemRun(w, item, Trying(false), turns).st == Done(None)
    decreases b
  {
    var o := w.now[item.key];
    if b == 0 {
      turns := [QUIET, QUIET] + [QUIET];
      ConflictThenGet(w, item, [QUIET]);
      assert w.ApplyAll(QUIET.others) == w;
      assert ItemStep(w, item, Fetched(o), QUIET).1 == Done(None);
    } else {
      var fault := Turn([], Fail(e));
      var rest := RetryBoundIsTight(w, item, e, b - 1);
      ConflictThenGet(w, item, [fault] + rest);
      assert w.ApplyAll(fault.others) == w;
      assert ItemStep(w, item, Fetched(o), fault) == (w, Trying(false));
      assert ([fault] + rest)[1..] == rest;
      turns := [QUIET, QUIET] + ([fault] + rest);
    }
  }

  lemma {:induction false} TriesAreBounded(w: World, item: Item, st: ItemState, turns: seq<Turn>)
    requires w.Valid()
    ensures Tries(w, item, st, turns) <= 2 * Budget(turns, item.key) + TriesNeeded(w, item, st)
    decreases |turns|
  {
    if !st.Done? && turns != [] {
      var t := turns[0];
      OnlyWritesDisturb(w, t.others, item, st);
      var w1 := w.ApplyAll(t.others);
      CallsAdvance(w1, item, st, t.reply);
      var (w', st') := ItemCall(w1, item, st, t.reply);
      ItemCallEvolves(w1, item, st, t.reply);
      TriesAreBounded(w', item, st', turns[1..]);
    }
  }

  /** A call does no harm to the objects, whatever copies it works with. */
  lemma ItemCallEvolves(w: World, item: Item, st: ItemState, reply: Reply)
    requires w.Valid() && !st.Done?
    ensures var w' := ItemCall(w, item, st, reply).0;
            w'.Valid() && Evolves(w, w')
  {
    var o := if st.Fetched? then st.obj else item.obj;
    if Accepts(w, item.key, o) {
      ApplyIsSound(w, Save(item.key, o.content));
    }
  }

  /** A run that has as many turns as its troubles call for is not cut off: it returns. */
  lemma {:induction false} ItemRunReturns(w: World, item: Item, st: ItemState, turns: seq<Turn>)
    requires w.Valid()
    requires |turns| >= 4 * Budget(turns, item.key) + CallsNeeded(w, item, st)
    ensures ItemRun(w, item, st, turns).st.Done?
    decreases |turns|
  {
    if !st.Done? {
      assert turns != [] by {
        assert CallsNeeded(w, item, st) > 0;
      }
      var t := turns[0];
      OnlyWritesDisturb(w, t.others, item, st);
      var w1 := w.ApplyAll(t.others);
      CallsAdvance(w1, item, st, t.reply);
      ItemCallEvolves(w1, item, st, t.reply);
      var (w', st') := ItemCall(w1, item, st, t.reply);
      ItemRunReturns(w', item, st', turns[1..]);
    }
  }

  // ------------------------------------------------------------------ how a call ends

  /** The object that a state sends with its PUT. */
  function Sends(item: Item, st: ItemState): Object
    requires st.Fetched? || st == Trying(false)
  {
    if st.Fetched? then st.obj else item.obj
  }

  /** Exactly when the loop ends at a call, with what result, and what the server then holds;
      and exactly when it asks for a GET next. */
  lemma CallEndsExactly(w: World, item: Item, st: ItemState, reply: Reply)
    requires !st.Done?
    ensures var (w', st') := ItemCall(w, item, st, reply);
            var k := item.key;
            var fails := !reply.Ok? && !CanRetry(reply.e);
            && (st'.Done? && st'.err.Some? <==> fails)
            && (fails ==> st' == Done(Some(reply.e)))
            && (st' == Done(None) <==> reply.Ok? && (k !in w.now || (st != Trying(true) && Accepts(w, k, Sends(item, st)))))
            && (st' == Done(None) && k in w.now ==> w' == w.Put(k, Sends(item, st).content))
            && (st' == Trying(true) <==>
                  if st == Trying(true) then !reply.Ok? && !fails
                  else if reply.Ok? then k in w.now && !Accepts(w, k, Sends(item, st))
                  else !fails && reply.e.reason == Conflict)
  {
  }

  predicate AllGentle(turns: seq<Turn>) {
    forall i :: 0 <= i < |turns| ==> turns[i].reply.Ok? || CanRetry(turns[i].reply.e)
  }

  lemma {:induction false} GentleItemRunSucceeds(w: World, item: Item, st: ItemState, turns: seq<Turn>)
    requires AllGentle(turns) && (st.Done? ==> st.err == None)
    ensures var st' := ItemRun(w, item, st, turns).st; st'.Done? ==> st'.err == None
    decreases |turns|
  {
    if !st.Done? && turns != [] {
      CallEndsExactly(w.ApplyAll(turns[0].others), item, st, turns[0].reply);
      var (w', st') := ItemStep(w, item, st, turns[0]);
      GentleItemRunSucceeds(w', item, st', turns[1..]);
    }
  }

  /** With faults that can be retried and turns enough, the migration of an item succeeds: the
      object is stored in the active version or gone, and the contents are those of the others. */
  lemma ItemIsMigrated(w: World, item: Item, turns: seq<Turn>)
    requires w.Valid() && w.Faithful(item.key, item.obj) && AllGentle(turns)
    requires |turns| >= 4 * Budget(turns, item.key) + 3
    ensures var end := ItemRun(w, item, Trying(false), turns);
            && end.st == Done(None) && !end.w.Lagging(item.key)
            && |end.rest| <= |turns|
            && Contents(end.w) == OverwriteAll(Contents(w), OthersUntil(turns, end.rest))
  {
    ItemRunReturns(w, item, Trying(false), turns);
    GentleItemRunSucceeds(w, item, Trying(false), turns);
    ItemRunIsSound(w, item, Trying(false), turns);
  }
}
