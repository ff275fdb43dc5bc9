/** The life of one migration object: updateStatus and processOne of
    pkg/controller/kubemigrator.go as functions of what the server and others do. */
module Lifecycle {
  import opened Wrappers
  import opened Errors
  import opened ApiServer
  import opened ItemMigration
  import opened WorkerPool
  import opened Migrations
  import opened Runner

  const STATUS_ATTEMPTS: nat := 6

  // ------------------------------------------------------------------ conditions

  predicate Known(t: ConditionType) {
    t.Running? || t.Succeeded? || t.Failed?
  }

  /** The conditions of types that the controller does not know, in their order. */
  function Foreign(cs: seq<Condition>): seq<Condition> {
    if cs == [] then []
    else
      var last := cs[|cs| - 1];
      if Known(last.ctype) then Foreign(cs[..|cs| - 1]) else Foreign(cs[..|cs| - 1]) + [last]
  }

  function Rewrite(cs: seq<Condition>, c: Condition): seq<Condition> {
    Foreign(cs) + [c]
  }

  lemma ForeignGrows(cs: seq<Condition>, c: Condition)
    ensures Foreign(cs + [c]) == if Known(c.ctype) then Foreign(cs) else Foreign(cs) + [c]
  {
    assert (cs + [c])[..|cs|] == cs;
  }

  lemma {:induction false} ForeignIsForeign(cs: seq<Condition>)
    ensures forall i :: 0 <= i < |Foreign(cs)| ==> !Known(Foreign(cs)[i].ctype)
    ensures Foreign(Foreign(cs)) == Foreign(cs)
  {
    if cs != [] {
      var last := cs[|cs| - 1];
      ForeignIsForeign(cs[..|cs| - 1]);
      ForeignGrows(Foreign(cs[..|cs| - 1]), last);
    }
  }

  /** Rewriting twice is rewriting once, with the later condition. */
  lemma RewriteTwice(cs: seq<Condition>, a: Condition, b: Condition)
    requires Known(a.ctype)
    ensures Rewrite(Rewrite(cs, a), b) == Rewrite(cs, b)
    ensures Foreign(Rewrite(cs, a)) == Foreign(cs)
  {
    ForeignGrows(Foreign(cs), a);
    ForeignIsForeign(cs);
  }

  /** The new condition alone decides the class of the migration. */
  lemma RewriteDecidesStatus(m: Migration, c: Condition)
    requires Known(c.ctype) && c.status == True
    ensures Status(m.(conditions := Rewrite(m.conditions, c)))
         == if c.ctype == Running then StatusRunning else StatusCompleted
    ensures HasCondition(m.(conditions := Rewrite(m.conditions, c)), Succeeded) <==> c.ctype == Succeeded
  {
    var cs := Rewrite(m.conditions, c);
    ForeignIsForeign(m.conditions);
    assert cs[|cs| - 1] == c;
    assert forall i :: 0 <= i < |cs| - 1 ==> cs[i] == Foreign(m.conditions)[i];
  }

  // ------------------------------------------------------------------ updateStatus

  datatype StatusResult = Updated | TimedOut | Died

  datatype StatusEnd = StatusEnd(w: World, stored: Option<Migration>, m: Migration, rest: seq<Move>, result: StatusResult)

  function Marked(m: Migration, t: ConditionType, message: string, now: nat): Migration {
    m.(conditions := Rewrite(m.conditions, Condition(t, True, now, message)))
  }

  function Refreshed(m: Migration, r: Result<Migration, Error>): Migration {
    match r
    case Success(x) => x
    case Failure(_) => m
  }

  /** The stored object after others visited it and the status update arrived. */
  function Sent(stored: Option<Migration>, m: Migration, move: Move): Option<Migration> {
    AfterUpdateStatus(ApplyVisits(stored, move.visits), m, move.turn.reply)
  }

  function SendError(stored: Option<Migration>, m: Migration, move: Move): Option<Error> {
    UpdateError(ApplyVisits(stored, move.visits), m, move.turn.reply)
  }

  function Refresh(stored: Option<Migration>, m: Migration, move: Move): (Option<Migration>, Migration) {
    var stored' := ApplyVisits(stored, move.visits);
    (stored', Refreshed(m, GetMigration(stored', move.turn.reply)))
  }

  /** updateStatus with the given number of attempts left: rewrite and send; on any error
      refresh, if that works, and try again. */
  function StatusRun(w: World, stored: Option<Migration>, m: Migration, t: ConditionType, message: string,
                     moves: seq<Move>, attempts: nat): StatusEnd
    decreases attempts
  {
    if attempts == 0 then StatusEnd(w, stored, m, moves, TimedOut)
    else if moves == [] then StatusEnd(w, stored, m, moves, Died)
    else
      var m1 := Marked(m, t, message, moves[0].now);
      var w1 := w.ApplyAll(moves[0].turn.others);
      var stored1 := Sent(stored, m1, moves[0]);
      if SendError(stored, m1, moves[0]) == None then StatusEnd(w1, stored1, m1, moves[1..], Updated)
      else if |moves| == 1 then StatusEnd(w1, stored1, m1, [], Died)
      else
        var (stored2, m2) := Refresh(stored1, m1, moves[1]);
        StatusRun(w1.ApplyAll(moves[1].turn.others), stored2, m2, t, message, moves[2..], attempts - 1)
  }

  /** The object in hand was read from the server: at an equal revision it has the stored
      foreign conditions. */
  ghost predicate InHand(stored: Option<Migration>, m: Migration) {
    stored.Some? ==> m.rv <= stored.value.rv && (m.rv == stored.value.rv ==> Foreign(m.conditions) == Foreign(stored.value.conditions))
  }

  /** The conditions that other clients added. */
  function AddedBy(vs: seq<Visit>): seq<Condition> {
    if vs == [] then []
    else if vs[0].Annotate? then
      [Condition(Other(vs[0].name), vs[0].status, vs[0].updated, vs[0].message)] + AddedBy(vs[1..])
    else AddedBy(vs[1..])
  }

  function VisitsOf(moves: seq<Move>): seq<Visit> {
    if moves == [] then [] else moves[0].visits + VisitsOf(moves[1..])
  }

  lemma {:induction false} AddedByAppends(xs: seq<Visit>, ys: seq<Visit>)
    ensures AddedBy(xs + ys) == AddedBy(xs) + AddedBy(ys)
  {
    if xs == [] {
      assert xs + ys == ys;
    } else {
      assert (xs + ys)[0] == xs[0] && (xs + ys)[1..] == xs[1..] + ys;
      AddedByAppends(xs[1..], ys);
    }
  }

  /** From one stored object to a later one: the cursor is kept, and the foreign conditions
      are the old ones followed by those that others added. */
  ghost predicate Carries(before: Option<Migration>, after: Option<Migration>, added: seq<Condition>) {
    after.Some? ==>
      && before.Some?
      && after.value.token == before.value.token
      && after.value.resource == before.value.resource
      && before.value.rv <= after.value.rv
      && Foreign(after.value.conditions) == Foreign(before.value.conditions) + added
  }

  /** One more exchange after a stretch that carries: the additions are appended. */
  lemma CarriesOn(a: Option<Migration>, b: Option<Migration>, c: Option<Migration>, xs: seq<Condition>, ys: seq<Condition>)
    requires Carries(a, b, xs) && Carries(b, c, ys)
    ensures Carries(a, c, xs + ys)
  {
  }

  lemma VisitCarries(stored: Option<Migration>, v: Visit)
    ensures Carries(stored, ApplyVisit(stored, v), AddedBy([v]))
  {
    if stored.Some? && v.Annotate? {
      ForeignGrows(stored.value.conditions, Condition(Other(v.name), v.status, v.updated, v.message));
    }
  }

  lemma {:induction false} VisitsCarry(stored: Option<Migration>, vs: seq<Visit>)
    ensures Carries(stored, ApplyVisits(stored, vs), AddedBy(vs))
    decreases |vs|
  {
    if vs != [] {
      var stored' := ApplyVisit(stored, vs[0]);
      VisitCarries(stored, vs[0]);
      VisitsCarry(stored', vs[1..]);
      AddedByAppends([vs[0]], vs[1..]);
      assert [vs[0]] + vs[1..] == vs;
      CarriesOn(stored, stored', ApplyVisits(stored', vs[1..]), AddedBy([vs[0]]), AddedBy(vs[1..]));
    }
  }

  lemma VisitsKeepInHand(stored: Option<Migration>, m: Migration, vs: seq<Visit>)
    requires InHand(stored, m)
    ensures InHand(ApplyVisits(stored, vs), m)
    decreases |vs|
  {
    if vs != [] {
      VisitsKeepInHand(ApplyVisit(stored, vs[0]), m, vs[1..]);
    }
  }

  /** What is stored ends with exactly one known condition, which says t. */
  ghost predicate Says(stored: Option<Migration>, t: ConditionType, message: string) {
    exists now :: Says'(stored, t, message, now)
  }

  ghost predicate Says'(stored: Option<Migration>, t: ConditionType, message: string, now: nat) {
    stored.Some? && stored.value.conditions == Rewrite(stored.value.conditions, Condition(t, True, now, message))
  }

  lemma SendCarries(stored: Option<Migration>, m: Migration, t: ConditionType, message: string, move: Move)
    requires InHand(stored, m) && Known(t)
    ensures var m1 := Marked(m, t, message, move.now);
            && Carries(stored, Sent(stored, m1, move), AddedBy(move.visits))
            && InHand(Sent(stored, m1, move), m1)
            && (SendError(stored, m1, move) == None ==> Says'(Sent(stored, m1, move), t, message, move.now))
  {
    var c := Condition(t, True, move.now, message);
    var m1 := Marked(m, t, message, move.now);
    var visited := ApplyVisits(stored, move.visits);
    RewriteTwice(m.conditions, c, c);
    VisitsCarry(stored, move.visits);
    VisitsKeepInHand(stored, m, move.visits);
    assert SendError(stored, m1, move) == None ==> Says'(Sent(stored, m1, move), t, message, move.now);
  }

  lemma RefreshCarries(stored: Option<Migration>, m: Migration, move: Move)
    requires InHand(stored, m)
    ensures var (stored', m') := Refresh(stored, m, move);
            Carries(stored, stored', AddedBy(move.visits)) && InHand(stored', m')
  {
    VisitsCarry(stored, move.visits);
    VisitsKeepInHand(stored, m, move.visits);
  }

  lemma FirstSendIsSound(w: World, stored: Option<Migration>, m: Migration, t: ConditionType, message: string,
                         moves: seq<Move>, result: StatusResult)
    requires InHand(stored, m) && Known(t) && moves != []
    requires result == Updated ==> SendError(stored, Marked(m, t, message, moves[0].now), moves[0]) == None
    ensures var m1 := Marked(m, t, message, moves[0].now);
            StatusEndIsSound(stored, t, message, moves, StatusEnd(w, Sent(stored, m1, moves[0]), m1, moves[1..], result))
  {
    SendCarries(stored, m, t, message, moves[0]);
    FirstVisits(moves);
    assert |moves| - |moves[1..]| == 1;
  }

  lemma NextAttempt(w: World, stored: Option<Migration>, m: Migration, t: ConditionType, message: string,
                    moves: seq<Move>, attempts: nat)
      returns (w': World, stored': Option<Migration>, m': Migration)
    requires InHand(stored, m) && Known(t) && attempts > 0 && |moves| >= 2
    requires SendError(stored, Marked(m, t, message, moves[0].now), moves[0]) != None
    ensures var stored1 := Sent(stored, Marked(m, t, message, moves[0].now), moves[0]);
            && Carries(stored, stored1, AddedBy(moves[0].visits)) && Carries(stored1, stored', AddedBy(moves[1].visits))
            && InHand(stored', m')
    ensures StatusRun(w, stored, m, t, message, moves, attempts)
         == StatusRun(w', stored', m', t, message, moves[2..], attempts - 1)
  {
    var m1 := Marked(m, t, message, moves[0].now);
    var stored1 := Sent(stored, m1, moves[0]);
    var (x, y) := Refresh(stored1, m1, moves[1]);
    w', stored', m' := w.ApplyAll(moves[0].turn.others).ApplyAll(moves[1].turn.others), x, y;
    SendCarries(stored, m, t, message, moves[0]);
    RefreshCarries(stored1, m1, moves[1]);
  }

  /** No other attempt follows. */
  predicate IsLastAttempt(stored: Option<Migration>, m: Migration, t: ConditionType, message: string, moves: seq<Move>, attempts: nat) {
    attempts == 0 || |moves| <= 1 || SendError(stored, Marked(m, t, message, moves[0].now), moves[0]) == None
  }

  lemma FinalAttempt(w: World, stored: Option<Migration>, m: Migration, t: ConditionType, message: string,
                     moves: seq<Move>, attempts: nat)
    requires InHand(stored, m) && Known(t) && IsLastAttempt(stored, m, t, message, moves, attempts)
    ensures StatusEndIsSound(stored, t, message, moves, StatusRun(w, stored, m, t, message, moves, attempts))
  {
    if attempts == 0 || moves == [] {
      assert moves[..0] == [];
    } else {
      var error := SendError(stored, Marked(m, t, message, moves[0].now), moves[0]);
      FirstSendIsSound(w.ApplyAll(moves[0].turn.others), stored, m, t, message, moves, if error == None then Updated else Died);
    }
  }

  /** However updateStatus ends, the saved cursor is untouched and no foreign condition is
      lost, doubled or reordered; if it succeeds, what is stored is all foreign conditions
      followed by exactly the new one, with the time of the attempt that succeeded. */
  lemma {:induction false} StatusRunConverges(w: World, stored: Option<Migration>, m: Migration, t: ConditionType,
                                              message: string, moves: seq<Move>, attempts: nat)
    requires InHand(stored, m) && Known(t)
    ensures StatusEndIsSound(stored, t, message, moves, StatusRun(w, stored, m, t, message, moves, attempts))
    decreases attempts
  {
    if IsLastAttempt(stored, m, t, message, moves, attempts) {
      FinalAttempt(w, stored, m, t, message, moves, attempts);
    } else {
      var stored1 := Sent(stored, Marked(m, t, message, moves[0].now), moves[0]);
      var w', stored', m' := NextAttempt(w, stored, m, t, message, moves, attempts);
      StatusRunConverges(w', stored', m', t, message, moves[2..], attempts - 1);
      TwoMoreCarry(stored, stored1, stored', t, message, moves, StatusRun(w', stored', m', t, message, moves[2..], attempts - 1));
    }
  }

  ghost predicate StatusEndIsSound(stored: Option<Migration>, t: ConditionType, message: string, moves: seq<Move>, end: StatusEnd) {
    && |end.rest| <= |moves|
    && Carries(stored, end.stored, AddedBy(VisitsOf(moves[..|moves| - |end.rest|])))
    && (end.result == Updated ==>
          |end.rest| < |moves| && Says'(end.stored, t, message, moves[|moves| - |end.rest| - 1].now))
    && InHand(end.stored, end.m)
  }

  lemma TwoMoreCarry(stored: Option<Migration>, stored1: Option<Migration>, stored2: Option<Migration>,
                     t: ConditionType, message: string, moves: seq<Move>, end: StatusEnd)
    requires |moves| >= 2
    requires Carries(stored, stored1, AddedBy(moves[0].visits))
    requires Carries(stored1, stored2, AddedBy(moves[1].visits))
    requires StatusEndIsSound(stored2, t, message, moves[2..], end)
    ensures StatusEndIsSound(stored, t, message, moves, end)
  {
    var n := |moves| - |end.rest|;
    TwoMoreVisits(moves, n);
    CarriesOn(stored, stored1, stored2, AddedBy(moves[0].visits), AddedBy(moves[1].visits));
    CarriesOn(stored, stored2, end.stored, AddedBy(moves[0].visits) + AddedBy(moves[1].visits),
              AddedBy(VisitsOf(moves[2..][..n - 2])));
  }

  lemma FirstVisits(moves: seq<Move>)
    requires moves != []
    ensures AddedBy(VisitsOf(moves[..1])) == AddedBy(moves[0].visits)
  {
    assert moves[..1][1..] == [];
    assert moves[0].visits + [] == moves[0].visits;
  }

  lemma TwoMoreVisits(moves: seq<Move>, n: nat)
    requires 2 <= n <= |moves|
    ensures AddedBy(VisitsOf(moves[..n]))
         == AddedBy(moves[0].visits) + AddedBy(moves[1].visits) + AddedBy(VisitsOf(moves[2..][..n - 2]))
  {
    assert moves[..n][1..][1..] == moves[2..][..n - 2];
    assert VisitsOf(moves[..n]) == moves[0].visits + (moves[1].visits + VisitsOf(moves[2..][..n - 2]));
    AddedByAppends(moves[0].visits, moves[1].visits + VisitsOf(moves[2..][..n - 2]));
    AddedByAppends(moves[1].visits, VisitsOf(moves[2..][..n - 2]));
  }

  predicate Calm(m: Move) {
    m.turn.reply == Ok && m.visits == []
  }

  /** Without faults and visits, an update succeeds at once when the object in hand is the
      stored one, and otherwise by its second attempt: one conflict, one refresh. */
  lemma SecondAttemptSucceeds(w: World, stored: Option<Migration>, m: Migration, t: ConditionType, message: string, moves: seq<Move>)
    requires stored.Some? && |moves| >= 3 && Calm(moves[0]) && Calm(moves[1]) && Calm(moves[2])
    ensures var end := StatusRun(w, stored, m, t, message, moves, STATUS_ATTEMPTS);
            end.result == Updated && end.rest == moves[if m.rv == stored.value.rv then 1 else 3..]
  {
    var m1 := Marked(m, t, message, moves[0].now);
    if m.rv != stored.value.rv {
      var end := StatusRun(w, stored, m, t, message, moves, STATUS_ATTEMPTS);
      var w1 := w.ApplyAll(moves[0].turn.others).ApplyAll(moves[1].turn.others);
      assert end == StatusRun(w1, stored, stored.value, t, message, moves[2..], STATUS_ATTEMPTS - 1);
      assert moves[2..][0] == moves[2];
      assert moves[2..][1..] == moves[3..];
    }
  }

  /** A send that fails and the refresh after it; nobody visits the object meanwhile. */
  predicate FailsFirst(f: (Move, Move)) {
    f.0.turn.reply != Ok && f.0.visits == [] && f.1.visits == []
  }

  /** The moves of such attempts, one after the other. */
  function Attempts(fails: seq<(Move, Move)>): seq<Move> {
    if fails == [] then [] else [fails[0].0, fails[0].1] + Attempts(fails[1..])
  }

  /** These attempts fail, and the next one, if there is one left, meets a refreshed object and
      no fault. */
  predicate FailsBeforeSuccess(stored: Option<Migration>, m: Migration, fails: seq<(Move, Move)>, rest: seq<Move>, attempts: nat) {
    && stored.Some? && |fails| <= attempts && (forall i :: 0 <= i < |fails| ==> FailsFirst(fails[i]))
    && (|fails| < attempts ==>
          && rest != [] && Calm(rest[0])
          && if fails == [] then m.rv == stored.value.rv else fails[|fails| - 1].1.turn.reply == Ok)
  }

  lemma FailedAttempt(w: World, stored: Option<Migration>, m: Migration, t: ConditionType, message: string,
                      fails: seq<(Move, Move)>, rest: seq<Move>, attempts: nat)
      returns (w': World, stored': Option<Migration>, m': Migration)
    requires stored.Some? && attempts > 0 && fails != [] && FailsFirst(fails[0])
    ensures stored'.Some? && (fails[0].1.turn.reply == Ok ==> m' == stored'.value)
    ensures StatusRun(w, stored, m, t, message, Attempts(fails) + rest, attempts)
         == StatusRun(w', stored', m', t, message, Attempts(fails[1..]) + rest, attempts - 1)
  {
    var (first, second) := fails[0];
    assert (Attempts(fails) + rest)[2..] == Attempts(fails[1..]) + rest;
    var m1 := Marked(m, t, message, first.now);
    var (x, y) := Refresh(Sent(stored, m1, first), m1, second);
    w', stored', m' := w.ApplyAll(first.turn.others).ApplyAll(second.turn.others), x, y;
  }

  lemma LaterFails(stored: Option<Migration>, m: Migration, fails: seq<(Move, Move)>, rest: seq<Move>, attempts: nat,
                   stored': Option<Migration>, m': Migration)
    requires fails != [] && FailsBeforeSuccess(stored, m, fails, rest, attempts)
    requires stored'.Some? && (fails[0].1.turn.reply == Ok ==> m' == stored'.value)
    ensures FailsBeforeSuccess(stored', m', fails[1..], rest, attempts - 1)
  {
  }

  lemma LastAttempt(w: World, stored: Option<Migration>, m: Migration, t: ConditionType, message: string, rest: seq<Move>, attempts: nat)
    requires FailsBeforeSuccess(stored, m, [], rest, attempts)
    ensures var end := StatusRun(w, stored, m, t, message, Attempts([]) + rest, attempts);
            if attempts > 0 then end.result == Updated && end.rest == rest[1..] else end.result == TimedOut
  {
    assert Attempts([]) + rest == rest;
  }

  /** An update of the status survives fewer failures than it has attempts, once the object is
      refreshed after the last of them; if all attempts fail, it times out. */
  lemma {:induction false} StatusSurvivesFailures(w: World, stored: Option<Migration>, m: Migration, t: ConditionType, message: string,
                                                  fails: seq<(Move, Move)>, rest: seq<Move>, attempts: nat)
    requires FailsBeforeSuccess(stored, m, fails, rest, attempts)
    ensures var end := StatusRun(w, stored, m, t, message, Attempts(fails) + rest, attempts);
            if |fails| < attempts then end.result == Updated && end.rest == rest[1..] else end.result == TimedOut
    decreases |fails|
  {
    if fails == [] {
      LastAttempt(w, stored, m, t, message, rest, attempts);
    } else {
      assert FailsFirst(fails[0]);
      var w', stored', m' := FailedAttempt(w, stored, m, t, message, fails, rest, attempts);
      LaterFails(stored, m, fails, rest, attempts, stored', m');
      StatusSurvivesFailures(w', stored', m', t, message, fails[1..], rest, attempts - 1);
    }
  }

  /** So its six attempts survive any five failures. */
  lemma StatusSurvivesFive(w: World, stored: Option<Migration>, m: Migration, t: ConditionType, message: string,
                           fails: seq<(Move, Move)>, rest: seq<Move>)
    requires |fails| <= 5 && FailsBeforeSuccess(stored, m, fails, rest, STATUS_ATTEMPTS)
    ensures StatusRun(w, stored, m, t, message, Attempts(fails) + rest, STATUS_ATTEMPTS).result == Updated
  {
    StatusSurvivesFailures(w, stored, m, t, message, fails, rest, STATUS_ATTEMPTS);
  }

  /** No known condition other than t is new. */
  ghost predicate Introduces(before: Option<Migration>, after: Option<Migration>, t: ConditionType) {
    after.Some? ==>
      && before.Some?
      && (forall x :: Known(x) && x != t && HasCondition(after.value, x) ==> HasCondition(before.value, x))
  }

  lemma VisitIntroduces(stored: Option<Migration>, v: Visit, t: ConditionType)
    ensures Introduces(stored, ApplyVisit(stored, v), t)
  {
    if stored.Some? && v.Annotate? {
      var cs := stored.value.conditions;
      var cs' := ApplyVisit(stored, v).value.conditions;
      assert forall i :: 0 <= i < |cs| ==> cs'[i] == cs[i];
    }
  }

  lemma {:induction false} VisitsIntroduce(stored: Option<Migration>, vs: seq<Visit>, t: ConditionType)
    ensures Introduces(stored, ApplyVisits(stored, vs), t)
    decreases |vs|
  {
    if vs != [] {
      VisitIntroduces(stored, vs[0], t);
      VisitsIntroduce(ApplyVisit(stored, vs[0]), vs[1..], t);
    }
  }

  lemma SentIntroduces(stored: Option<Migration>, m: Migration, t: ConditionType, message: string, move: Move)
    requires Known(t)
    ensures Introduces(stored, Sent(stored, Marked(m, t, message, move.now), move), t)
  {
    VisitsIntroduce(stored, move.visits, t);
    var m1 := Marked(m, t, message, move.now);
    ForeignIsForeign(m.conditions);
    assert forall x :: Known(x) && HasCondition(m1, x) ==> x == t;
    var stored' := Sent(stored, m1, move);
    if stored'.Some? && stored' != ApplyVisits(stored, move.visits) {
      assert stored'.value.conditions == m1.conditions;
    }
  }

  /** updateStatus records what it was asked to and nothing else. */
  lemma {:induction false} StatusRunIntroduces(w: World, stored: Option<Migration>, m: Migration, t: ConditionType,
                                               message: string, moves: seq<Move>, attempts: nat)
    requires Known(t)
    ensures Introduces(stored, StatusRun(w, stored, m, t, message, moves, attempts).stored, t)
    decreases attempts
  {
    if attempts > 0 && moves != [] {
      var m1 := Marked(m, t, message, moves[0].now);
      var stored1 := Sent(stored, m1, moves[0]);
      SentIntroduces(stored, m, t, message, moves[0]);
      if SendError(stored, m1, moves[0]) != None && |moves| > 1 {
        var (stored2, m2) := Refresh(stored1, m1, moves[1]);
        var w2 := w.ApplyAll(moves[0].turn.others).ApplyAll(moves[1].turn.others);
        VisitsIntroduce(stored1, moves[1].visits, t);
        StatusRunIntroduces(w2, stored2, m2, t, message, moves[2..], attempts - 1);
      }
    }
  }

  /** updateStatus leaves the objects to the other writers. */
  lemma {:induction false} StatusRunEvolves(w: World, stored: Option<Migration>, m: Migration, t: ConditionType,
                                            message: string, moves: seq<Move>, attempts: nat)
    requires w.Valid()
    ensures var w' := StatusRun(w, stored, m, t, message, moves, attempts).w; w'.Valid() && Evolves(w, w')
    decreases attempts
  {
    if attempts > 0 && moves != [] {
      ApplyAllIsSound(w, moves[0].turn.others);
      var m1 := Marked(m, t, message, moves[0].now);
      var w1 := w.ApplyAll(moves[0].turn.others);
      if SendError(stored, m1, moves[0]) != None && |moves| > 1 {
        ApplyAllIsSound(w1, moves[1].turn.others);
        var (stored2, m2) := Refresh(Sent(stored, m1, moves[0]), m1, moves[1]);
        StatusRunEvolves(w1.ApplyAll(moves[1].turn.others), stored2, m2, t, message, moves[2..], attempts - 1);
      }
    }
  }

  // ------------------------------------------------------------------ a run and the migration object

  /** From one stored object to a later one: at most the cursor moved, apart from the
      conditions that others added. */
  ghost predicate OnlyToken(before: Option<Migration>, after: Option<Migration>, added: seq<Condition>) {
    after.Some? ==>
      && before.Some?
      && after.value.resource == before.value.resource
      && after.value.conditions == before.value.conditions + added
      && before.value.rv <= after.value.rv
      && (before.value.rv == after.value.rv ==> after == before)
  }

  lemma {:induction false} VisitsMoveNoToken(stored: Option<Migration>, vs: seq<Visit>)
    ensures OnlyToken(stored, ApplyVisits(stored, vs), AddedBy(vs))
    decreases |vs|
  {
    if vs == [] {
      if stored.Some? {
        assert stored.value.conditions + [] == stored.value.conditions;
      }
    } else {
      VisitsMoveNoToken(ApplyVisit(stored, vs[0]), vs[1..]);
    }
  }

  lemma StepMovesOnlyToken(s: System, m: Move, concurrency: nat)
    ensures OnlyToken(s.ticket, Step(s, m, concurrency).ticket, AddedBy(m.visits))
  {
    VisitsMoveNoToken(s.ticket, m.visits);
  }

  lemma OnlyTokenOn(a: Option<Migration>, b: Option<Migration>, c: Option<Migration>, xs: seq<Condition>, ys: seq<Condition>)
    requires OnlyToken(a, b, xs) && OnlyToken(b, c, ys)
    ensures OnlyToken(a, c, xs + ys)
  {
    if c.Some? {
      assert a.value.conditions + (xs + ys) == a.value.conditions + xs + ys;
      if a.value.rv == c.value.rv {
        assert c == b == a;
      }
    }
  }

  /** The conditions that others added in the moves that a run has used up. */
  function AddedUntil(moves: seq<Move>, rest: seq<Move>): seq<Condition>
    requires |rest| <= |moves|
  {
    AddedBy(VisitsOf(moves[..|moves| - |rest|]))
  }

  lemma AddedOneMore(moves: seq<Move>, rest: seq<Move>)
    requires |rest| < |moves|
    ensures AddedUntil(moves, rest) == AddedBy(moves[0].visits) + AddedUntil(moves[1..], rest)
  {
    var n := |moves| - |rest|;
    assert moves[..n][1..] == moves[1..][..n - 1];
    AddedByAppends(moves[0].visits, VisitsOf(moves[1..][..n - 1]));
  }

  /** A whole run saves nothing but its cursor. */
  lemma {:induction false} ExecMovesOnlyToken(s: System, moves: seq<Move>, concurrency: nat)
    ensures var end := Exec(s, moves, concurrency);
            && |end.rest| <= |moves|
            && OnlyToken(s.ticket, end.s.ticket, AddedUntil(moves, end.rest))
    decreases |moves|
  {
    var end := Exec(s, moves, concurrency);
    if s.phase.Finished? || moves == [] {
      assert moves[..0] == [];
      VisitsMoveNoToken(s.ticket, []);
    } else {
      var s' := Step(s, moves[0], concurrency);
      StepMovesOnlyToken(s, moves[0], concurrency);
      ExecMovesOnlyToken(s', moves[1..], concurrency);
      AddedOneMore(moves, end.rest);
      OnlyTokenOn(s.ticket, s'.ticket, end.s.ticket, AddedBy(moves[0].visits), AddedUntil(moves[1..], end.rest));
    }
  }

  // ------------------------------------------------------------------ processOne

  datatype Report =
    | Unavailable(e: Error)
    | AlreadyCompleted
    | NotStarted
    | Ran(err: Option<RunError>, marked: StatusResult)
    | Interrupted

  datatype ProcessEnd = ProcessEnd(w: World, stored: Option<Migration>, rest: seq<Move>, report: Report)

  function Verdict(err: Option<RunError>): ConditionType {
    if err == None then Succeeded else Failed
  }

  function Message(err: Option<RunError>): string {
    match err
    case None => ""
    case Some(LoadFailed(_)) => "failed to load the continue token"
    case Some(ListFailed(_)) => "failed to list resources"
    case Some(NoContinueToken) => "expected non empty continue token"
    case Some(ItemsFailed(_)) => "failed to migrate objects"
  }

  /** From the update to Running on, with the object that was read before. */
  function Started(begun: StatusEnd, concurrency: nat): ProcessEnd {
    if begun.result == Died then ProcessEnd(begun.w, begun.stored, begun.rest, Interrupted)
    else if begun.result == TimedOut then ProcessEnd(begun.w, begun.stored, begun.rest, NotStarted)
    else Judged(begun.m, Exec(System(begun.w, begun.stored, Loading), begun.rest, concurrency))
  }

  /** From the end of the run on: the verdict is recorded on the object read before the run. */
  function Judged(m: Migration, run: RunEnd): ProcessEnd {
    if !run.s.phase.Finished? then ProcessEnd(run.s.w, run.s.ticket, run.rest, Interrupted)
    else
      var err := run.s.phase.err;
      var end := StatusRun(run.s.w, run.s.ticket, m, Verdict(err), Message(err), run.rest, STATUS_ATTEMPTS);
      ProcessEnd(end.w, end.stored, end.rest, Ran(err, end.result))
  }

  function ProcessOne(w: World, stored: Option<Migration>, moves: seq<Move>, concurrency: nat): ProcessEnd {
    if moves == [] then ProcessEnd(w, stored, moves, Interrupted)
    else
      var w1 := w.ApplyAll(moves[0].turn.others);
      var stored1 := ApplyVisits(stored, moves[0].visits);
      match GetMigration(stored1, moves[0].turn.reply)
      case Failure(e) => ProcessEnd(w1, stored1, moves[1..], Unavailable(e))
      case Success(m) =>
        if !Incomplete(m) then ProcessEnd(w1, stored1, moves[1..], AlreadyCompleted)
        else Started(StatusRun(w1, stored1, m, Running, "", moves[1..], STATUS_ATTEMPTS), concurrency)
  }

  /** What processOne guarantees, from one state of the object to a later one. */
  ghost predicate Honest(w: World, before: Option<Migration>, end: ProcessEnd) {
    && end.w.Valid() && Evolves(w, end.w)
    && TicketSafe(end.w, end.stored)
    && (end.report.Ran? && end.report.err == None ==> end.w.AllCurrent())
    && (end.stored.Some? ==>
          && before.Some?
          && (HasCondition(end.stored.value, Succeeded) && !HasCondition(before.value, Succeeded) ==>
                end.report.Ran? && end.report.err == None)
          && (HasCondition(end.stored.value, Failed) && !HasCondition(before.value, Failed) ==>
                end.report.Ran? && end.report.err != None))
    && (end.report.Ran? && end.report.marked == Updated ==>
          Says(end.stored, Verdict(end.report.err), Message(end.report.err)))
  }

  lemma {:induction false} AddedAreForeign(vs: seq<Visit>)
    ensures forall i :: 0 <= i < |AddedBy(vs)| ==> !Known(AddedBy(vs)[i].ctype)
  {
    if vs != [] {
      AddedAreForeign(vs[1..]);
    }
  }

  lemma RunIntroducesNothing(before: Option<Migration>, after: Option<Migration>, vs: seq<Visit>, t: ConditionType)
    requires OnlyToken(before, after, AddedBy(vs)) && after.Some? && Known(t) && HasCondition(after.value, t)
    ensures HasCondition(before.value, t)
  {
    AddedAreForeign(vs);
    var i :| 0 <= i < |after.value.conditions| && after.value.conditions[i].ctype == t && after.value.conditions[i].status == True;
    assert i < |before.value.conditions|;
  }

  lemma RunKeepsInHand(before: Option<Migration>, after: Option<Migration>, vs: seq<Visit>, m: Migration)
    requires InHand(before, m) && OnlyToken(before, after, AddedBy(vs))
    ensures InHand(after, m)
  {
  }

  /** The saved cursor survives the final status update, although that starts from an object
      read before the run; and the verdict is that of the run. */
  lemma JudgedKeepsToken(m: Migration, run: RunEnd)
    requires InHand(run.s.ticket, m)
    ensures var end := Judged(m, run);
            && (end.stored.Some? ==> run.s.ticket.Some? && end.stored.value.token == run.s.ticket.value.token)
            && (end.stored.Some? ==> Introduces(run.s.ticket, end.stored, if run.s.phase.Finished? then Verdict(run.s.phase.err) else Running))
            && (end.report.Ran? && end.report.marked == Updated ==>
                  Says(end.stored, Verdict(end.report.err), Message(end.report.err)))
  {
    if run.s.phase.Finished? {
      var err := run.s.phase.err;
      StatusRunConverges(run.s.w, run.s.ticket, m, Verdict(err), Message(err), run.rest, STATUS_ATTEMPTS);
      StatusRunIntroduces(run.s.w, run.s.ticket, m, Verdict(err), Message(err), run.rest, STATUS_ATTEMPTS);
    }
  }

  lemma JudgedIsHonest(m: Migration, run: RunEnd)
    requires Safe(run.s) && InHand(run.s.ticket, m)
    ensures Honest(run.s.w, run.s.ticket, Judged(m, run))
  {
    JudgedKeepsToken(m, run);
    if run.s.phase.Finished? {
      var err := run.s.phase.err;
      StatusRunEvolves(run.s.w, run.s.ticket, m, Verdict(err), Message(err), run.rest, STATUS_ATTEMPTS);
    }
  }

  /** A stretch in which others add conditions and the cursor moves changes no verdict. */
  lemma HonestAfterRun(w: World, before: Option<Migration>, w': World, between: Option<Migration>, vs: seq<Visit>, end: ProcessEnd)
    requires Evolves(w, w') && OnlyToken(before, between, AddedBy(vs)) && Honest(w', between, end)
    ensures Honest(w, before, end)
  {
    EvolvesOn(w, w', end.w);
    if between.Some? && HasCondition(between.value, Succeeded) {
      RunIntroducesNothing(before, between, vs, Succeeded);
    }
    if between.Some? && HasCondition(between.value, Failed) {
      RunIntroducesNothing(before, between, vs, Failed);
    }
  }

  lemma StartedIsHonest(begun: StatusEnd, concurrency: nat)
    requires begun.w.Valid() && TicketSafe(begun.w, begun.stored) && InHand(begun.stored, begun.m) && concurrency > 0
    ensures Honest(begun.w, begun.stored, Started(begun, concurrency))
  {
    if begun.result == Updated {
      var s := System(begun.w, begun.stored, Loading);
      var run := Exec(s, begun.rest, concurrency);
      ExecIsSafe(s, begun.rest, concurrency);
      ExecMovesOnlyToken(s, begun.rest, concurrency);
      var vs := VisitsOf(begun.rest[..|begun.rest| - |run.rest|]);
      RunKeepsInHand(begun.stored, run.s.ticket, vs, begun.m);
      JudgedIsHonest(begun.m, run);
      HonestAfterRun(begun.w, begun.stored, run.s.w, run.s.ticket, vs, Judged(begun.m, run));
    }
  }

  /** A migration is recorded as succeeded only if its run returned nil, and then all objects
      are migrated; whatever happens, the saved cursor stays safe to resume from. */
  lemma ProcessOneIsHonest(w: World, stored: Option<Migration>, moves: seq<Move>, concurrency: nat)
    requires w.Valid() && TicketSafe(w, stored) && concurrency > 0
    ensures Honest(w, stored, ProcessOne(w, stored, moves, concurrency))
  {
    if moves != [] {
      var w1 := w.ApplyAll(moves[0].turn.others);
      var stored1 := ApplyVisits(stored, moves[0].visits);
      ApplyAllIsSound(w, moves[0].turn.others);
      VisitsCarry(stored, moves[0].visits);
      VisitsIntroduce(stored, moves[0].visits, Running);
      if stored1.Some? && GetMigration(stored1, moves[0].turn.reply).Success? && Incomplete(stored1.value) {
        var begun := StatusRun(w1, stored1, stored1.value, Running, "", moves[1..], STATUS_ATTEMPTS);
        StatusRunConverges(w1, stored1, stored1.value, Running, "", moves[1..], STATUS_ATTEMPTS);
        StatusRunIntroduces(w1, stored1, stored1.value, Running, "", moves[1..], STATUS_ATTEMPTS);
        StatusRunEvolves(w1, stored1, stored1.value, Running, "", moves[1..], STATUS_ATTEMPTS);
        StartedIsHonest(begun, concurrency);
      }
    }
  }

  ghost predicate SameResource(before: Option<Migration>, after: Option<Migration>) {
    after.Some? ==> before.Some? && after.value.resource == before.value.resource
  }

  lemma JudgedKeepsResource(m: Migration, run: RunEnd)
    requires InHand(run.s.ticket, m)
    ensures SameResource(run.s.ticket, Judged(m, run).stored)
  {
    if run.s.phase.Finished? {
      var err := run.s.phase.err;
      StatusRunConverges(run.s.w, run.s.ticket, m, Verdict(err), Message(err), run.rest, STATUS_ATTEMPTS);
    }
  }

  lemma RunKeepsResource(s: System, m: Migration, moves: seq<Move>, concurrency: nat)
    requires InHand(s.ticket, m)
    ensures var ticket := Exec(s, moves, concurrency).s.ticket;
            SameResource(s.ticket, ticket) && InHand(ticket, m)
  {
    ExecMovesOnlyToken(s, moves, concurrency);
    var run := Exec(s, moves, concurrency);
    RunKeepsInHand(s.ticket, run.s.ticket, VisitsOf(moves[..|moves| - |run.rest|]), m);
  }

  lemma StartedKeepsResource(begun: StatusEnd, concurrency: nat)
    requires InHand(begun.stored, begun.m)
    ensures SameResource(begun.stored, Started(begun, concurrency).stored)
  {
    if begun.result == Updated {
      var s := System(begun.w, begun.stored, Loading);
      RunKeepsResource(s, begun.m, begun.rest, concurrency);
      JudgedKeepsResource(begun.m, Exec(s, begun.rest, concurrency));
    }
  }

  /** A migration is always of the same resource. */
  lemma ResourceIsKept(w: World, stored: Option<Migration>, moves: seq<Move>, concurrency: nat)
    ensures SameResource(stored, ProcessOne(w, stored, moves, concurrency).stored)
  {
    if moves != [] {
      var w1 := w.ApplyAll(moves[0].turn.others);
      var stored1 := ApplyVisits(stored, moves[0].visits);
      VisitsMoveNoToken(stored, moves[0].visits);
      if stored1.Some? && moves[0].turn.reply.Ok? && Incomplete(stored1.value) {
        StatusRunConverges(w1, stored1, stored1.value, Running, "", moves[1..], STATUS_ATTEMPTS);
        StartedKeepsResource(StatusRun(w1, stored1, stored1.value, Running, "", moves[1..], STATUS_ATTEMPTS), concurrency);
      }
    }
  }

  // ------------------------------------------------------------------ calls without faults

  ghost predicate AllCalm(moves: seq<Move>) {
    forall i :: 0 <= i < |moves| ==> Calm(moves[i])
  }

  lemma {:induction false} CalmStatusRun(w: World, stored: Option<Migration>, m: Migration, t: ConditionType,
                                         message: string, moves: seq<Move>, attempts: nat)
    requires stored.Some? && AllCalm(moves)
    requires attempts >= if m.rv == stored.value.rv then 1 else 2
    ensures var end := StatusRun(w, stored, m, t, message, moves, attempts);
            && end.stored.Some? && AllCalm(end.rest)
            && end.result != TimedOut
    decreases attempts
  {
    if moves != [] {
      var m1 := Marked(m, t, message, moves[0].now);
      var w1 := w.ApplyAll(moves[0].turn.others);
      if m.rv != stored.value.rv && |moves| > 1 {
        assert Sent(stored, m1, moves[0]) == stored;
        assert Calm(moves[1]);
        assert Refresh(stored, m1, moves[1]) == (stored, stored.value);
        CalmStatusRun(w1.ApplyAll(moves[1].turn.others), stored, stored.value, t, message, moves[2..], attempts - 1);
      }
    }
  }

  lemma TicketIsKept(s: System, move: Move, concurrency: nat)
    requires s.ticket.Some? && move.visits == []
    ensures Step(s, move, concurrency).ticket.Some?
  {
  }

  lemma {:induction false} CalmExec(s: System, moves: seq<Move>, concurrency: nat)
    requires s.ticket.Some? && AllCalm(moves)
    ensures var end := Exec(s, moves, concurrency);
            end.s.ticket.Some? && AllCalm(end.rest)
    decreases |moves|
  {
    if !s.phase.Finished? && moves != [] {
      assert Calm(moves[0]);
      TicketIsKept(s, moves[0], concurrency);
      CalmExec(Step(s, moves[0], concurrency), moves[1..], concurrency);
    }
  }

  predicate AllServed(moves: seq<Move>) {
    forall i :: 0 <= i < |moves| ==> moves[i].list.Serve?
  }

  lemma {:induction false} CalmRunIsGentle(s: System, moves: seq<Move>, concurrency: nat)
    requires s.ticket.Some? && AllCalm(moves) && AllServed(moves)
    ensures Gentle(s, moves, concurrency)
    decreases |moves|
  {
    if !s.phase.Finished? && moves != [] {
      assert Calm(moves[0]);
      TicketIsKept(s, moves[0], concurrency);
      CalmRunIsGentle(Step(s, moves[0], concurrency), moves[1..], concurrency);
    }
  }

  /** The process died before the verdict was recorded. */
  predicate CutShort(r: Report) {
    r.Interrupted? || (r.Ran? && r.marked == Died)
  }

  lemma CalmStart(begun: StatusEnd, concurrency: nat)
    requires begun.stored.Some? && AllCalm(begun.rest) && begun.result == Updated
    ensures var r := Started(begun, concurrency).report;
            CutShort(r) || (r.Ran? && r.marked == Updated)
  {
    var s := System(begun.w, begun.stored, Loading);
    CalmExec(s, begun.rest, concurrency);
    var run := Exec(s, begun.rest, concurrency);
    if run.s.phase.Finished? {
      var err := run.s.phase.err;
      CalmStatusRun(run.s.w, run.s.ticket, begun.m, Verdict(err), Message(err), run.rest, STATUS_ATTEMPTS);
    }
  }

  /** Without faults, a call of processOne that the process survives runs the migration and
      records the verdict. */
  lemma CalmCallRecords(w: World, stored: Option<Migration>, moves: seq<Move>, concurrency: nat)
    requires stored.Some? && Incomplete(stored.value) && AllCalm(moves)
    ensures var r := ProcessOne(w, stored, moves, concurrency).report;
            CutShort(r) || (r.Ran? && r.marked == Updated)
  {
    if moves != [] {
      assert Calm(moves[0]);
      var w1 := w.ApplyAll(moves[0].turn.others);
      CalmStatusRun(w1, stored, stored.value, Running, "", moves[1..], STATUS_ATTEMPTS);
      var begun := StatusRun(w1, stored, stored.value, Running, "", moves[1..], STATUS_ATTEMPTS);
      if begun.result == Updated {
        CalmStart(begun, concurrency);
      }
    }
  }

  lemma SaidIsCompleted(m: Migration, t: ConditionType, message: string)
    requires Says(Some(m), t, message) && (t == Succeeded || t == ConditionType.Failed)
    ensures HasCondition(m, t) && !Incomplete(m)
  {
    var now :| Says'(Some(m), t, message, now);
    RewriteDecidesStatus(m, Condition(t, True, now, message));
    assert m.(conditions := Rewrite(m.conditions, Condition(t, True, now, message))) == m;
    assert m.conditions[|m.conditions| - 1] == Condition(t, True, now, message);
  }

  const QUIET_MOVE := Move(Turn([], Ok), [], Serve(0), Return, 0)

  function AsStarted(m: Migration): Migration {
    m.(conditions := Marked(m, Running, "", 0).conditions, rv := m.rv + 1)
  }

  lemma QuietBegin(w: World, m: Migration, rest: seq<Move>)
    ensures StatusRun(w, Some(m), m, Running, "", [QUIET_MOVE] + rest, STATUS_ATTEMPTS)
         == StatusEnd(w, Some(AsStarted(m)), Marked(m, Running, "", 0), rest, Updated)
  {
    assert ([QUIET_MOVE] + rest)[1..] == rest;
  }

  /** The verdict on a run that failed to load: the object in hand is outdated by the update
      that preceded the run, and is recorded by the second attempt. */
  lemma QuietVerdict(w: World, m: Migration, err: RunError)
    ensures var tail := [QUIET_MOVE, QUIET_MOVE, QUIET_MOVE];
            var end := Judged(Marked(m, Running, "", 0), RunEnd(System(w, Some(AsStarted(m)), Finished(Some(err))), tail));
            && end.report == Ran(Some(err), Updated)
            && end.stored.Some? && HasCondition(end.stored.value, Failed) && !Incomplete(end.stored.value)
  {
    var tail := [QUIET_MOVE, QUIET_MOVE, QUIET_MOVE];
    var m1 := Marked(m, Running, "", 0);
    var run := RunEnd(System(w, Some(AsStarted(m)), Finished(Some(err))), tail);
    SecondAttemptSucceeds(w, Some(AsStarted(m)), m1, Failed, Message(Some(err)), tail);
    JudgedKeepsToken(m1, run);
    SaidIsCompleted(Judged(m1, run).stored.value, Failed, Message(Some(err)));
  }

  lemma QuietRead(w: World, m: Migration, rest: seq<Move>, concurrency: nat)
    requires Incomplete(m)
    ensures ProcessOne(w, Some(m), [QUIET_MOVE] + rest, concurrency)
         == Started(StatusRun(w, Some(m), m, Running, "", rest, STATUS_ATTEMPTS), concurrency)
  {
    assert ([QUIET_MOVE] + rest)[1..] == rest;
  }

  /** A single transient fault, of the GET in load, makes processOne record the migration as
      failed for good. */
  lemma TransientLoadFailsMigration(w: World, m: Migration, e: Fault, concurrency: nat)
    requires Incomplete(m) && CanRetry(e)
    ensures var fault := QUIET_MOVE.(turn := Turn([], Fail(e)));
            var moves := [QUIET_MOVE] + ([QUIET_MOVE] + ([fault] + [QUIET_MOVE, QUIET_MOVE, QUIET_MOVE]));
            var end := ProcessOne(w, Some(m), moves, concurrency);
            && end.report == Ran(Some(LoadFailed(e)), Updated)
            && end.stored.Some? && HasCondition(end.stored.value, Failed) && !Incomplete(end.stored.value)
  {
    var fault := QUIET_MOVE.(turn := Turn([], Fail(e)));
    var tail := [QUIET_MOVE, QUIET_MOVE, QUIET_MOVE];
    var rest := [QUIET_MOVE] + ([fault] + tail);
    QuietRead(w, m, rest, concurrency);
    QuietBegin(w, m, [fault] + tail);
    TransientLoadEndsRun(w, Some(AsStarted(m)), e, tail, concurrency);
    QuietVerdict(w, m, LoadFailed(e));
  }

  /** If the migration cannot be marked as running, its run does not start: the objects are left
      to the others. */
  lemma UnmarkedRunsDoNotStart(w: World, m: Migration, first: Move, fails: seq<(Move, Move)>, concurrency: nat)
    requires Incomplete(m) && Calm(first) && |fails| == STATUS_ATTEMPTS && (forall i :: 0 <= i < |fails| ==> FailsFirst(fails[i]))
    requires forall x :: x in [first] + Attempts(fails) ==> x.turn.others == []
    ensures var end := ProcessOne(w, Some(m), [first] + Attempts(fails), concurrency);
            end.report == NotStarted && end.w == w
  {
    var moves := Attempts(fails);
    assert ([first] + moves)[1..] == moves && moves + [] == moves;
    assert w.ApplyAll(([first] + moves)[0].turn.others) == w;
    StatusSurvivesFailures(w, Some(m), m, Running, "", fails, [], STATUS_ATTEMPTS);
    StatusRunIsIdle(w, Some(m), m, Running, "", moves, STATUS_ATTEMPTS);
  }

  lemma {:induction false} StatusRunIsIdle(w: World, stored: Option<Migration>, m: Migration, t: ConditionType, message: string,
                                           moves: seq<Move>, attempts: nat)
    requires forall i :: 0 <= i < |moves| ==> moves[i].turn.others == []
    ensures StatusRun(w, stored, m, t, message, moves, attempts).w == w
    decreases attempts
  {
    if attempts > 0 && |moves| > 1 {
      var m1 := Marked(m, t, message, moves[0].now);
      var (stored2, m2) := Refresh(Sent(stored, m1, moves[0]), m1, moves[1]);
      StatusRunIsIdle(w, stored2, m2, t, message, moves[2..], attempts - 1);
    }
  }

  /** A completed migration is not touched again. */
  lemma CompletedStaysCompleted(w: World, stored: Option<Migration>, moves: seq<Move>, concurrency: nat)
    requires stored.Some? && !Incomplete(stored.value)
    ensures var end := ProcessOne(w, stored, moves, concurrency);
            && !end.report.Ran?
            && (end.stored.Some? ==> !Incomplete(end.stored.value) && end.stored.value.token == stored.value.token)
  {
    if moves != [] {
      VisitsKeepConditions(stored, moves[0].visits);
    }
  }

  lemma VisitsKeepConditions(stored: Option<Migration>, vs: seq<Visit>)
    ensures var stored' := ApplyVisits(stored, vs);
            stored'.Some? ==>
              && stored.Some? && stored'.value.token == stored.value.token
              && Status(stored'.value) == Status(stored.value)
  {
    VisitsMoveNoToken(stored, vs);
    VisitsCarry(stored, vs);
    var stored' := ApplyVisits(stored, vs);
    if stored'.Some? {
      assert forall i :: 0 <= i < |stored.value.conditions| ==> stored'.value.conditions[i] == stored.value.conditions[i];
      forall t | Known(t) && HasCondition(stored'.value, t)
        ensures HasCondition(stored.value, t)
      {
        RunIntroducesNothing(stored, stored', vs, t);
      }
    }
  }
}
