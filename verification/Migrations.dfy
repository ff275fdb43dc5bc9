/** StorageVersionMigration objects on the API server, with their two endpoints, and how
    pkg/controller classifies them. */
module Migrations {
  import opened Wrappers
  import opened Errors
  import opened ApiServer
  import opened ItemMigration

  /** A name that the server generated for a migration; it never generates a name twice. */
  type Name = nat

  datatype GroupVersionResource = GroupVersionResource(group: string, version: string, resource: string)

  datatype ConditionType = Running | Succeeded | Failed | Other(name: string)

  datatype ConditionStatus = True | False | Unknown

  datatype Condition = Condition(ctype: ConditionType, status: ConditionStatus, updated: nat, message: string)

  datatype Migration = Migration(
    resource: GroupVersionResource,
    token: Token,
    conditions: seq<Condition>,
    rv: nat)

  /** What other clients do to a migration object: change its metadata, add a condition of
      a type of their own, or delete it. */
  datatype Visit = Touch | Annotate(name: string, status: ConditionStatus, updated: nat, message: string) | Delete

  function ApplyVisit(m: Option<Migration>, v: Visit): Option<Migration> {
    match m
    case None => None
    case Some(x) =>
      match v
      case Touch => Some(x.(rv := x.rv + 1))
      case Annotate(n, s, u, t) =>
        Some(x.(conditions := x.conditions + [Condition(Other(n), s, u, t)], rv := x.rv + 1))
      case Delete => None
  }

  function ApplyVisits(m: Option<Migration>, vs: seq<Visit>): Option<Migration>
    decreases |vs|
  {
    if vs == [] then m else ApplyVisits(ApplyVisit(m, vs[0]), vs[1..])
  }

  predicate AcceptsUpdate(stored: Option<Migration>, sent: Migration) {
    stored.Some? && stored.value.rv == sent.rv
  }

  function UpdateError(stored: Option<Migration>, sent: Migration, reply: Reply): Option<Error> {
    match reply
    case Fail(e) => Some(e)
    case Lost(e) => Some(e)
    case Ok =>
      if stored.None? then Some(NOT_FOUND) else if AcceptsUpdate(stored, sent) then None else Some(CONFLICT)
  }

  /** The main endpoint stores the spec and ignores the status. */
  function AfterUpdate(stored: Option<Migration>, sent: Migration, reply: Reply): Option<Migration> {
    if AcceptsUpdate(stored, sent) && !reply.Fail? then
      Some(stored.value.(token := sent.token, rv := sent.rv + 1))
    else stored
  }

  /** The status endpoint stores the status and ignores the spec. */
  function AfterUpdateStatus(stored: Option<Migration>, sent: Migration, reply: Reply): Option<Migration> {
    if AcceptsUpdate(stored, sent) && !reply.Fail? then
      Some(stored.value.(conditions := sent.conditions, rv := sent.rv + 1))
    else stored
  }

  function GetMigration(stored: Option<Migration>, reply: Reply): Result<Migration, Error> {
    match reply
    case Ok => if stored.Some? then Success(stored.value) else Failure(NOT_FOUND)
    case Fail(e) => Failure(e)
    case Lost(e) => Failure(e)
  }

  // ------------------------------------------------------------------ classification

  predicate HasCondition(m: Migration, t: ConditionType) {
    exists i :: 0 <= i < |m.conditions| && m.conditions[i].ctype == t && m.conditions[i].status == True
  }

  datatype StatusIndex = StatusCompleted | StatusRunning | StatusPending

  function Status(m: Migration): StatusIndex {
    if HasCondition(m, Succeeded) || HasCondition(m, Failed) then StatusCompleted
    else if HasCondition(m, Running) then StatusRunning
    else StatusPending
  }

  predicate Incomplete(m: Migration) {
    Status(m) != StatusCompleted
  }

  /** What one more condition makes of the class: only one with status True counts, completion
      counts most, and nothing undoes it. */
  lemma OneMoreCondition(m: Migration, c: Condition)
    ensures Status(m.(conditions := m.conditions + [c]))
         == if c.status == True && (c.ctype == Succeeded || c.ctype == Failed) then StatusCompleted
            else if c.status == True && c.ctype == Running && Status(m) == StatusPending then StatusRunning
            else Status(m)
  {
    var m' := m.(conditions := m.conditions + [c]);
    forall t: ConditionType
      ensures HasCondition(m', t) <==> HasCondition(m, t) || (c.ctype == t && c.status == True)
    {
      assert m'.conditions[|m.conditions|] == c;
      if HasCondition(m, t) {
        var i :| 0 <= i < |m.conditions| && m.conditions[i].ctype == t && m.conditions[i].status == True;
        assert m'.conditions[i] == m.conditions[i];
      }
    }
  }
}
