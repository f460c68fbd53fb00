/** The request-scoped transaction handle: `request.state.va_db` holds the open session
    of the vehicle-allocation database, or None. */
module DatabaseUtils {

  import opened Common

  /** The databases a caller can name; only the vehicle-allocation one has a handle. */
  datatype Database = VehicleAllocation | OtherDatabase

  /** What happened to a session, in order. */
  datatype Event = Opened(session: nat) | Committed(session: nat) | RolledBack(session: nat)

  /** The state of one request. Sessions are numbered in the order they are opened, so
      a session numbered `sessionsOpened` has never been seen before. */
  class RequestState {
    var vaDb: Option<nat>
    var sessionsOpened: nat
    var log: seq<Event>

    /** Every session mentioned anywhere was opened before. */
    ghost predicate Valid()
      reads this
    {
      (vaDb.Some? ==> vaDb.value < sessionsOpened) &&
      forall k :: 0 <= k < |log| ==> log[k].session < sessionsOpened
    }

    constructor ()
      ensures Valid() && vaDb == None && sessionsOpened == 0 && log == []
    {
      vaDb := None;
      sessionsOpened := 0;
      log := [];
    }

    /** `begin_transaction(request, database)`: opens a fresh session only for the
        vehicle-allocation database and only when none is held. */
    method BeginTransaction(database: Database)
      requires Valid()
      modifies this
      ensures Valid()
      ensures database == VehicleAllocation && old(vaDb).None? ==>
        vaDb == Some(old(sessionsOpened)) && sessionsOpened == old(sessionsOpened) + 1 && log == old(log) + [Opened(old(sessionsOpened))]
      ensures !(database == VehicleAllocation && old(vaDb).None?) ==>
        vaDb == old(vaDb) && sessionsOpened == old(sessionsOpened) && log == old(log)
    {
      if database == VehicleAllocation && vaDb.None? {
        vaDb := Some(sessionsOpened);
        log := log + [Opened(sessionsOpened)];
        sessionsOpened := sessionsOpened + 1;
      }
    }

    /** `commit(request, database)`: commits the held session and drops the handle;
        with no session held the attribute lookup on None raises. Other databases are
        left alone. */
    method Commit(database: Database) returns (o: Outcome)
      requires Valid()
      modifies this
      ensures Valid() && sessionsOpened == old(sessionsOpened)
      ensures database == VehicleAllocation && old(vaDb).Some? ==>
        o == Pass && vaDb == None && log == old(log) + [Committed(old(vaDb).value)]
      ensures database == VehicleAllocation && old(vaDb).None? ==>
        o == Fail(AttributeError) && vaDb == old(vaDb) && log == old(log)
      ensures database != VehicleAllocation ==> o == Pass && vaDb == old(vaDb) && log == old(log)
    {
      if database == VehicleAllocation {
        if vaDb.None? {
          return Fail(AttributeError);
        }
        log := log + [Committed(vaDb.value)];
        vaDb := None;
      }
      o := Pass;
    }

    /** `rollback_all(request)`: rolls back and drops a held session. Every exception
        is swallowed: when no session is held, or when `rollback` itself fails
        (`rollbackFails`), the handle stays as it was. It never raises. */
    method RollbackAll(rollbackFails: bool)
      requires Valid()
      modifies this
      ensures Valid() && sessionsOpened == old(sessionsOpened)
      ensures old(vaDb).Some? && !rollbackFails ==>
        vaDb == None && log == old(log) + [RolledBack(old(vaDb).value)]
      ensures old(vaDb).None? || rollbackFails ==> vaDb == old(vaDb) && log == old(log)
    {
      if vaDb.Some? && !rollbackFails {
        log := log + [RolledBack(vaDb.value)];
        vaDb := None;
      }
    }
  }

  /** A request's life, from any state without a held session: a second
      `begin_transaction` reuses the session, after a commit the next one opens a session
      distinct from every earlier one, two rollbacks drop it once, and a commit with
      nothing held fails. */
  method Lifecycle(request: RequestState) returns (first: nat, second: nat, last: Outcome)
    requires request.Valid() && request.vaDb.None?
    modifies request
    ensures request.Valid() && request.vaDb.None?
    ensures first == old(request.sessionsOpened) && second == first + 1
    ensures forall k :: 0 <= k < |old(request.log)| ==> old(request.log)[k].session < first
    ensures request.log == old(request.log) + [Opened(first), Committed(first), Opened(second), RolledBack(second)]
    ensures last == Fail(AttributeError)
  {
    request.BeginTransaction(VehicleAllocation);
    request.BeginTransaction(VehicleAllocation);
    first := request.vaDb.value;
    var committed := request.Commit(VehicleAllocation);
    request.BeginTransaction(VehicleAllocation);
    second := request.vaDb.value;
    request.RollbackAll(false);
    request.RollbackAll(false);
    last := request.Commit(VehicleAllocation);
  }
}
