/** The StorageState of one resource: what pkg/trigger writes into it, once or under retry,
    and what that comes to over whole runs. */
module StorageStates {
  import opened Wrappers
  import opened ApiServer
  import opened ItemMigration

  const UNKNOWN: Hash := "Unknown"

  /** The length of a discovery period, in units of time. */
  const DISCOVERY_PERIOD: nat := 600

  /** Attempts at any one update of a storage state. */
  const UPDATE_ATTEMPTS: nat := 6

  datatype StorageState = StorageState(current: Hash, persisted: seq<Hash>, heartbeat: nat)

  /** The server drops the status from a created object. */
  const BLANK := StorageState("", [], 0)

  // ------------------------------------------------------------------ single updates

  function WithHash(ss: StorageState, hash: Hash): StorageState {
    if ss.current == hash then ss
    else ss.(current := hash, persisted := if ss.persisted == [] then [UNKNOWN] else ss.persisted + [hash])
  }

  /** What one update of updateStorageState makes of the stored object, if there is one. */
  function UpdateOnce(ss: Option<StorageState>, hash: Hash, now: nat): StorageState {
    WithHash(if ss.Some? then ss.value else BLANK, hash).(heartbeat := now)
  }

  function Collapse(ss: StorageState): StorageState {
    ss.(persisted := [ss.current])
  }

  predicate IsMigrated(ss: StorageState) {
    |ss.persisted| == 1 && ss.current == ss.persisted[0]
  }

  predicate Stale(ss: StorageState, now: nat) {
    ss.heartbeat + 2 * DISCOVERY_PERIOD < now
  }

  lemma UpdateTwice(ss: Option<StorageState>, hash: Hash, now: nat)
    ensures UpdateOnce(Some(UpdateOnce(ss, hash, now)), hash, now) == UpdateOnce(ss, hash, now)
    ensures UpdateOnce(Some(BLANK), hash, now) == UpdateOnce(None, hash, now)
  {
  }

  // ------------------------------------------------------------------ updates under retry

  datatype UpdateResult = Stored | GaveUp | Killed

  datatype UpdateEnd = UpdateEnd(ss: Option<StorageState>, rest: seq<Reply>, result: UpdateResult)

  /** The last calls of an attempt: with the object got or created, update its status. */
  function SendUpdate(stored: StorageState, hash: Hash, now: nat, replies: seq<Reply>, attempts: nat): UpdateEnd
    requires attempts > 0
    decreases attempts, 0
  {
    if replies == [] then UpdateEnd(Some(stored), [], Killed)
    else
      match replies[0]
      case Ok => UpdateEnd(Some(UpdateOnce(Some(stored), hash, now)), replies[1..], Stored)
      case Fail(_) => UpdateRun(Some(stored), hash, now, replies[1..], attempts - 1)
      case Lost(_) => UpdateRun(Some(UpdateOnce(Some(stored), hash, now)), hash, now, replies[1..], attempts - 1)
  }

  /** updateStorageState: get or create, then update the status; after any error, all of it
      again. */
  function UpdateRun(ss: Option<StorageState>, hash: Hash, now: nat, replies: seq<Reply>, attempts: nat): UpdateEnd
    decreases attempts, 1
  {
    if attempts == 0 then UpdateEnd(ss, replies, GaveUp)
    else if replies == [] then UpdateEnd(ss, replies, Killed)
    else if replies[0] != Ok then UpdateRun(ss, hash, now, replies[1..], attempts - 1)
    else if ss.Some? then SendUpdate(ss.value, hash, now, replies[1..], attempts)
    else if |replies| == 1 then UpdateEnd(ss, [], Killed)
    else
      match replies[1]
      case Ok => SendUpdate(BLANK, hash, now, replies[2..], attempts)
      case Fail(_) => UpdateRun(ss, hash, now, replies[2..], attempts - 1)
      case Lost(_) => UpdateRun(Some(BLANK), hash, now, replies[2..], attempts - 1)
  }

  /** The states that an update may leave behind. */
  predicate OnTheWay(before: Option<StorageState>, after: Option<StorageState>, hash: Hash, now: nat) {
    || after == before
    || (before == None && after == Some(BLANK))
    || after == Some(UpdateOnce(before, hash, now))
  }

  /** Whatever fails, is lost, or is repeated: the stored state is the initial one, the
      created blank one, or the result of a single update; on success it is the last. */
  lemma {:induction false} UpdateHappensOnce(first: Option<StorageState>, ss: Option<StorageState>, hash: Hash, now: nat,
                                             replies: seq<Reply>, attempts: nat)
    requires OnTheWay(first, ss, hash, now)
    ensures var end := UpdateRun(ss, hash, now, replies, attempts);
            && OnTheWay(first, end.ss, hash, now)
            && (end.result == Stored ==> end.ss == Some(UpdateOnce(first, hash, now)))
            && |end.rest| <= |replies|
    decreases attempts, 1
  {
    UpdateTwice(first, hash, now);
    if attempts > 0 && replies != [] {
      if replies[0] != Ok {
        UpdateHappensOnce(first, ss, hash, now, replies[1..], attempts - 1);
      } else if ss.Some? {
        SendHappensOnce(first, ss.value, hash, now, replies[1..], attempts);
      } else if |replies| > 1 {
        match replies[1]
        case Ok => SendHappensOnce(first, BLANK, hash, now, replies[2..], attempts);
        case Fail(_) => UpdateHappensOnce(first, ss, hash, now, replies[2..], attempts - 1);
        case Lost(_) => UpdateHappensOnce(first, Some(BLANK), hash, now, replies[2..], attempts - 1);
      }
    }
  }

  lemma {:induction false} SendHappensOnce(first: Option<StorageState>, stored: StorageState, hash: Hash, now: nat,
                                           replies: seq<Reply>, attempts: nat)
    requires OnTheWay(first, Some(stored), hash, now) && attempts > 0
    ensures var end := SendUpdate(stored, hash, now, replies, attempts);
            && OnTheWay(first, end.ss, hash, now)
            && (end.result == Stored ==> end.ss == Some(UpdateOnce(first, hash, now)))
            && |end.rest| <= |replies|
    decreases attempts, 0
  {
    UpdateTwice(first, hash, now);
    if replies != [] {
      match replies[0]
      case Ok =>
      case Fail(_) => UpdateHappensOnce(first, Some(stored), hash, now, replies[1..], attempts - 1);
      case Lost(_) => UpdateHappensOnce(first, Some(UpdateOnce(Some(stored), hash, now)), hash, now, replies[1..], attempts - 1);
    }
  }

  /** markStorageStateSucceeded: a missing state is left alone, and that is no error. */
  function MarkRun(ss: Option<StorageState>, replies: seq<Reply>, attempts: nat): UpdateEnd
    decreases attempts
  {
    if attempts == 0 then UpdateEnd(ss, replies, GaveUp)
    else if replies == [] then UpdateEnd(ss, replies, Killed)
    else if replies[0] != Ok then MarkRun(ss, replies[1..], attempts - 1)
    else if ss.None? then UpdateEnd(ss, replies[1..], Stored)
    else if |replies| == 1 then UpdateEnd(ss, [], Killed)
    else
      match replies[1]
      case Ok => UpdateEnd(Some(Collapse(ss.value)), replies[2..], Stored)
      case Fail(_) => MarkRun(ss, replies[2..], attempts - 1)
      case Lost(_) => MarkRun(Some(Collapse(ss.value)), replies[2..], attempts - 1)
  }

  /** A mark leaves the state alone or collapses it to the current hash; on success the
      latter. */
  lemma {:induction false} MarkHappensOnce(ss: Option<StorageState>, replies: seq<Reply>, attempts: nat)
    ensures var end := MarkRun(ss, replies, attempts);
            && (ss.None? ==> end.ss == None)
            && (ss.Some? ==> end.ss == ss || end.ss == Some(Collapse(ss.value)))
            && (ss.Some? && end.result == Stored ==> end.ss == Some(Collapse(ss.value)))
            && |end.rest| <= |replies|
    decreases attempts
  {
    if attempts > 0 && replies != [] {
      if replies[0] != Ok {
        MarkHappensOnce(ss, replies[1..], attempts - 1);
      } else if ss.Some? && |replies| > 1 {
        match replies[1]
        case Ok =>
        case Fail(_) => MarkHappensOnce(ss, replies[2..], attempts - 1);
        case Lost(_) => MarkHappensOnce(Some(Collapse(ss.value)), replies[2..], attempts - 1);
      }
    }
  }

  // ------------------------------------------------------------------ how many failures an update survives

  /** An attempt that fails: its Get does, or its Create, or its update of the status. A call
      that fails may all the same have taken effect. */
  datatype Miss = GetMissed(r: Reply) | CreateMissed(r: Reply) | SendMissed(r: Reply)

  /** Only a missing state is created. */
  predicate Fits(found: bool, misses: seq<Miss>)
    decreases |misses|
  {
    misses == [] || (FitsOne(found, misses[0]) && Fits(ExistsAfter(found, misses[0]), misses[1..]))
  }

  predicate FitsOne(found: bool, miss: Miss) {
    miss.r != Ok && (miss.CreateMissed? ==> !found)
  }

  predicate ExistsAfter(found: bool, miss: Miss) {
    found || miss.SendMissed? || (miss.CreateMissed? && miss.r.Lost?)
  }

  /** The replies of such attempts, one after the other. */
  function Script(found: bool, misses: seq<Miss>): seq<Reply>
    decreases |misses|
  {
    if misses == [] then []
    else MissScript(found, misses[0]) + Script(ExistsAfter(found, misses[0]), misses[1..])
  }

  function MissScript(found: bool, miss: Miss): seq<Reply> {
    match miss
    case GetMissed(r) => [r]
    case CreateMissed(r) => [Ok, r]
    case SendMissed(r) => if found then [Ok, r] else [Ok, Ok, r]
  }

  /** The replies of an attempt that succeeds. */
  function GoodScript(found: bool): seq<Reply> {
    if found then [Ok, Ok] else [Ok, Ok, Ok]
  }

  predicate ExistsIn(found: bool, misses: seq<Miss>)
    decreases |misses|
  {
    if misses == [] then found else ExistsIn(ExistsAfter(found, misses[0]), misses[1..])
  }

  lemma GoodUpdate(ss: Option<StorageState>, hash: Hash, now: nat, rest: seq<Reply>, attempts: nat)
    requires attempts > 0
    ensures UpdateRun(ss, hash, now, GoodScript(ss.Some?) + rest, attempts) == UpdateEnd(Some(UpdateOnce(ss, hash, now)), rest, Stored)
  {
    var replies := GoodScript(ss.Some?) + rest;
    UpdateTwice(ss, hash, now);
    if ss.Some? {
      assert replies[1..][0] == Ok && replies[1..][1..] == rest;
    } else {
      assert replies[2..][0] == Ok && replies[2..][1..] == rest;
    }
  }

  /** One failed attempt costs one attempt, and changes what is stored to nothing that a later
      one would not. */
  lemma MissedUpdate(ss: Option<StorageState>, hash: Hash, now: nat, miss: Miss, rest: seq<Reply>, attempts: nat) returns (ss': Option<StorageState>)
    requires attempts > 0 && FitsOne(ss.Some?, miss)
    ensures UpdateRun(ss, hash, now, MissScript(ss.Some?, miss) + rest, attempts) == UpdateRun(ss', hash, now, rest, attempts - 1)
    ensures ss'.Some? == ExistsAfter(ss.Some?, miss)
    ensures UpdateOnce(ss', hash, now) == UpdateOnce(ss, hash, now)
  {
    UpdateTwice(ss, hash, now);
    var replies := MissScript(ss.Some?, miss) + rest;
    var once := Some(UpdateOnce(ss, hash, now));
    match miss
    case GetMissed(r) =>
      ss' := ss;
      assert replies[1..] == rest;
    case CreateMissed(r) =>
      ss' := if r.Lost? then Some(BLANK) else ss;
      assert replies[1] == r && replies[2..] == rest;
    case SendMissed(r) =>
      if ss.Some? {
        ss' := if r.Lost? then once else ss;
        assert replies[1..][0] == r && replies[1..][1..] == rest;
      } else {
        ss' := if r.Lost? then once else Some(BLANK);
        assert replies[1] == Ok && replies[2..][0] == r && replies[2..][1..] == rest;
      }
  }

  /** An update succeeds, and is stored once, if fewer attempts fail than it has; if all fail,
      it gives up. */
  lemma {:induction false} UpdateSurvivesMisses(ss: Option<StorageState>, hash: Hash, now: nat, misses: seq<Miss>,
                                                rest: seq<Reply>, attempts: nat)
    requires Fits(ss.Some?, misses) && |misses| <= attempts
    ensures var replies := Script(ss.Some?, misses) + (GoodScript(ExistsIn(ss.Some?, misses)) + rest);
            var end := UpdateRun(ss, hash, now, replies, attempts);
            if |misses| < attempts then end == UpdateEnd(Some(UpdateOnce(ss, hash, now)), rest, Stored)
            else end.result == GaveUp
    decreases |misses|
  {
    var good := GoodScript(ExistsIn(ss.Some?, misses)) + rest;
    if misses == [] {
      assert Script(ss.Some?, misses) + good == good;
      if attempts > 0 {
        GoodUpdate(ss, hash, now, rest, attempts);
      }
    } else {
      var exists' := ExistsAfter(ss.Some?, misses[0]);
      var tail := Script(exists', misses[1..]) + good;
      assert Script(ss.Some?, misses) + good == MissScript(ss.Some?, misses[0]) + tail;
      var ss' := MissedUpdate(ss, hash, now, misses[0], tail, attempts);
      UpdateSurvivesMisses(ss', hash, now, misses[1..], rest, attempts - 1);
    }
  }

  /** A mark whose calls go through collapses the hashes to the current one, and changes
      nothing else. */
  lemma GoodMark(ss: StorageState, rest: seq<Reply>, attempts: nat)
    requires attempts > 0
    ensures MarkRun(Some(ss), [Ok, Ok] + rest, attempts)
         == UpdateEnd(Some(StorageState(ss.current, [ss.current], ss.heartbeat)), rest, Stored)
  {
    assert ([Ok, Ok] + rest)[2..] == rest;
  }

  /** The same holds of a mark: it succeeds if fewer attempts fail than it has, and if all fail
      it gives up. */
  lemma {:induction false} MarkSurvivesMisses(ss: StorageState, misses: seq<Miss>, rest: seq<Reply>, attempts: nat)
    requires Fits(true, misses) && |misses| <= attempts
    ensures var end := MarkRun(Some(ss), Script(true, misses) + ([Ok, Ok] + rest), attempts);
            if |misses| < attempts then end == UpdateEnd(Some(StorageState(ss.current, [ss.current], ss.heartbeat)), rest, Stored)
            else end.result == GaveUp
    decreases |misses|
  {
    var good := [Ok, Ok] + rest;
    if misses == [] {
      assert Script(true, misses) + good == good;
      if attempts > 0 {
        GoodMark(ss, rest, attempts);
      }
    } else {
      var tail := Script(true, misses[1..]) + good;
      var replies := Script(true, misses) + good;
      var ss' := if misses[0].SendMissed? && misses[0].r.Lost? then Collapse(ss) else ss;
      if misses[0].GetMissed? {
        assert replies[0] == misses[0].r && replies[1..] == tail;
      } else {
        assert replies[0] == Ok && replies[1] == misses[0].r && replies[2..] == tail;
      }
      MarkSurvivesMisses(ss', misses[1..], rest, attempts - 1);
    }
  }

  /** With its six attempts, an update and a mark survive any five failures. */
  lemma FiveMissesAreSurvived(ss: Option<StorageState>, hash: Hash, now: nat, misses: seq<Miss>, rest: seq<Reply>)
    requires |misses| <= 5
    ensures Fits(ss.Some?, misses) ==>
              UpdateRun(ss, hash, now, Script(ss.Some?, misses) + (GoodScript(ExistsIn(ss.Some?, misses)) + rest), UPDATE_ATTEMPTS)
              == UpdateEnd(Some(UpdateOnce(ss, hash, now)), rest, Stored)
    ensures Fits(true, misses) && ss.Some? ==>
              MarkRun(ss, Script(true, misses) + ([Ok, Ok] + rest), UPDATE_ATTEMPTS)
              == UpdateEnd(Some(StorageState(ss.value.current, [ss.value.current], ss.value.heartbeat)), rest, Stored)
  {
    if Fits(ss.Some?, misses) {
      UpdateSurvivesMisses(ss, hash, now, misses, rest, UPDATE_ATTEMPTS);
    }
    if Fits(true, misses) && ss.Some? {
      MarkSurvivesMisses(ss.value, misses, rest, UPDATE_ATTEMPTS);
    }
  }

  // ------------------------------------------------------------------ whole histories

  /** All that can happen to the stored state, with or without faults: a full update, a
      creation that got no further, a collapse, a deletion because it was stale. */
  datatype Change = Update(hash: Hash, now: nat) | CreateBlank | Mark | Drop

  function Changed(ss: Option<StorageState>, c: Change): Option<StorageState> {
    match c
    case Update(h, now) => Some(UpdateOnce(ss, h, now))
    case CreateBlank => if ss.None? then Some(BLANK) else ss
    case Mark => if ss.Some? then Some(Collapse(ss.value)) else None
    case Drop => None
  }

  function StateAfter(cs: seq<Change>): Option<StorageState> {
    if cs == [] then None else Changed(StateAfter(cs[..|cs| - 1]), cs[|cs| - 1])
  }

  /** What the hashes are supposed to record: a base, and every change of the storage version
      seen since. The base is UNKNOWN when the state was created, and the current hash when a
      success was marked. */
  datatype HashRecord = Nothing | Blank | Since(base: Hash, changes: seq<Hash>, current: Hash)

  function Recorded(cs: seq<Change>): HashRecord {
    if cs == [] then Nothing
    else
      var r := Recorded(cs[..|cs| - 1]);
      match cs[|cs| - 1]
      case Update(h, _) =>
        if !r.Since? then Since(UNKNOWN, [], h)
        else if r.current == h then r
        else Since(r.base, r.changes + [h], h)
      case CreateBlank => if r.Nothing? then Blank else r
      case Mark => if r.Nothing? then r else if r.Blank? then Since("", [], "") else Since(r.current, [], r.current)
      case Drop => Nothing
  }

  /** A success was marked after the last creation of the state and the last change of its
      current hash. */
  predicate MarkedSinceChange(cs: seq<Change>) {
    cs != [] &&
    var before := cs[..|cs| - 1];
    match cs[|cs| - 1]
    case Update(h, _) => MarkedSinceChange(before) && StateAfter(before).Some? && StateAfter(before).value.current == h
    case CreateBlank => MarkedSinceChange(before)
    case Mark => StateAfter(before).Some?
    case Drop => false
  }

  /** Discovery reports hashes that are neither empty nor the word for an unknown one. */
  predicate ProperHashes(cs: seq<Change>) {
    forall i :: 0 <= i < |cs| && cs[i].Update? ==> cs[i].hash != "" && cs[i].hash != UNKNOWN
  }

  predicate Refines(ss: Option<StorageState>, r: HashRecord) {
    match r
    case Nothing => ss == None
    case Blank => ss == Some(BLANK)
    case Since(base, changes, current) =>
      ss.Some? && ss.value.current == current && ss.value.persisted == [base] + changes
  }

  /** In every reachable state, the persisted hashes are exactly the record. */
  lemma {:induction false} HashesAreTheRecord(cs: seq<Change>)
    requires ProperHashes(cs)
    ensures var r := Recorded(cs);
            && Refines(StateAfter(cs), r)
            && (r.Since? ==>
                  && r.current != UNKNOWN
                  && (r.changes != [] ==> r.changes[|r.changes| - 1] == r.current)
                  && (r.changes == [] ==> r.base == if MarkedSinceChange(cs) then r.current else UNKNOWN))
            && (!r.Since? ==> !MarkedSinceChange(cs))
            && (MarkedSinceChange(cs) ==> r.changes == [])
  {
    if cs != [] {
      HashesAreTheRecord(cs[..|cs| - 1]);
    }
  }

  /** A resource counts as migrated exactly if a success was marked after its last creation and
      change; and the last persisted hash is the current one, unless nothing is known. */
  lemma MigratedMeansMarked(cs: seq<Change>)
    requires ProperHashes(cs) && StateAfter(cs).Some?
    ensures var ss := StateAfter(cs).value;
            && (IsMigrated(ss) <==> MarkedSinceChange(cs))
            && (ss.current != "" ==>
                  && ss.persisted != []
                  && (ss.persisted == [UNKNOWN] || ss.persisted[|ss.persisted| - 1] == ss.current))
  {
    HashesAreTheRecord(cs);
  }

  /** The state is what some history leaves. */
  ghost predicate Recordable(ss: Option<StorageState>) {
    exists cs :: ProperHashes(cs) && StateAfter(cs) == ss
  }

  lemma ChangeIsRecordable(ss: Option<StorageState>, c: Change)
    requires Recordable(ss) && (c.Update? ==> c.hash != "" && c.hash != UNKNOWN)
    ensures Recordable(Changed(ss, c))
  {
    var cs :| ProperHashes(cs) && StateAfter(cs) == ss;
    var cs' := cs + [c];
    assert cs'[..|cs|] == cs;
    assert ProperHashes(cs') && StateAfter(cs') == Changed(ss, c);
  }

  lemma OnTheWayIsRecordable(before: Option<StorageState>, after: Option<StorageState>, hash: Hash, now: nat)
    requires Recordable(before) && OnTheWay(before, after, hash, now) && hash != "" && hash != UNKNOWN
    ensures Recordable(after)
  {
    ChangeIsRecordable(before, CreateBlank);
    ChangeIsRecordable(before, Update(hash, now));
  }

  /** The last persisted hash is the current one, unless nothing is known. */
  predicate WellKept(ss: StorageState) {
    ss.current != "" ==>
      ss.persisted == [UNKNOWN] || (ss.persisted != [] && ss.persisted[|ss.persisted| - 1] == ss.current)
  }

  lemma RecordableIsWellKept(ss: StorageState)
    requires Recordable(Some(ss))
    ensures WellKept(ss)
  {
    var cs :| ProperHashes(cs) && StateAfter(cs) == Some(ss);
    MigratedMeansMarked(cs);
  }

  // ------------------------------------------------------------------ staleness

  /** One discovery pass over the resource, without faults: what it does to the state. */
  function Passed(ss: Option<StorageState>, hash: Hash, now: nat): StorageState {
    UpdateOnce(if ss.Some? && Stale(ss.value, now) then None else ss, hash, now)
  }

  datatype Pass = Pass(hash: Hash, now: nat)

  function AfterPasses(ss: StorageState, ps: seq<Pass>): StorageState {
    if ps == [] then ss else Passed(Some(AfterPasses(ss, ps[..|ps| - 1])), ps[|ps| - 1].hash, ps[|ps| - 1].now)
  }

  /** The clock is monotone, and the resource is discovered at least every other period. */
  predicate Punctual(ss: StorageState, ps: seq<Pass>) {
    && (forall i :: 0 <= i < |ps| ==> ps[i].hash != "")
    && (forall i :: 0 <= i < |ps| ==> LastSeen(ss, ps, i) <= ps[i].now <= LastSeen(ss, ps, i) + 2 * DISCOVERY_PERIOD)
  }

  function LastSeen(ss: StorageState, ps: seq<Pass>, i: nat): nat
    requires i <= |ps|
  {
    if i == 0 then ss.heartbeat else ps[i - 1].now
  }

  /** A resource that is discovered punctually never loses its state: the persisted hashes
      only grow at their end, and the heartbeat is the time of the last pass. */
  lemma {:induction false} PunctualStateIsKept(ss: StorageState, ps: seq<Pass>)
    requires Punctual(ss, ps) && ss.persisted != []
    ensures ss.persisted <= AfterPasses(ss, ps).persisted
    ensures AfterPasses(ss, ps).heartbeat == LastSeen(ss, ps, |ps|)
    ensures ss.heartbeat <= AfterPasses(ss, ps).heartbeat
  {
    if ps != [] {
      var n := |ps| - 1;
      assert forall i :: 0 <= i < n ==> LastSeen(ss, ps[..n], i) == LastSeen(ss, ps, i);
      PunctualStateIsKept(ss, ps[..n]);
      assert !Stale(AfterPasses(ss, ps[..n]), ps[n].now);
    }
  }

  /** The first pass after a longer gap starts over: nothing is known but the current hash. */
  lemma GapStartsOver(ss: StorageState, hash: Hash, now: nat)
    requires hash != ""
    ensures ss.heartbeat + 2 * DISCOVERY_PERIOD < now ==> Passed(Some(ss), hash, now) == StorageState(hash, [UNKNOWN], now)
    ensures ss.heartbeat + 2 * DISCOVERY_PERIOD >= now && ss.persisted != [] ==> ss.persisted <= Passed(Some(ss), hash, now).persisted
  {
  }
}
