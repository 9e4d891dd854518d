/**
 The tables, changed in place by the database actor (crates/runsd/src/actor/db.rs, crates/runsd/src/db/queries.rs).
 Each method is one statement that went through; the actor runs them one at a time.
 */
module Database {
  import opened Base
  import opened Model
  import opened Rows

  class Db {
    var calcs: Table
    var runs: map<RunId, RunStatus>

    constructor ()
      ensures calcs == map[] && runs == map[]
    {
      calcs, runs := map[], map[];
    }

    predicate RowsOk()
      reads this
    {
      forall c :: c in calcs ==> RowOk(calcs[c])
    }

    /** The id is the primary key: a second row with it is refused. */
    method InsertRun(id: RunId) returns (ok: bool)
      modifies this
      ensures ok <==> id !in old(runs)
      ensures runs == (if ok then old(runs)[id := RunPending] else old(runs)) && calcs == old(calcs)
    {
      ok := id !in runs;
      if ok { runs := runs[id := RunPending]; }
    }

    method UpdateRunStatus(id: RunId, status: RunStatus)
      modifies this
      ensures calcs == old(calcs)
      ensures runs == if id in old(runs) then old(runs)[id := status] else old(runs)
    {
      if id in runs { runs := runs[id := status]; }
    }

    method InsertCalculation(id: CalcId, run: RunId, maxAttempts: nat, now: int) returns (ok: bool)
      modifies this
      ensures ok <==> id !in old(calcs) && run in runs
      ensures calcs == (if ok then old(calcs)[id := NewRow(run, maxAttempts, now)] else old(calcs)) && runs == old(runs)
      ensures ok ==>
                var r := calcs[id];
                && r.runId == run && r.status == StatusPending && r.attempt == 0 && r.maxAttempts == maxAttempts
                && r.createdAt == now && r.updatedAt == now && r.nextAttemptAt == None
                && r.leaseOwner == None && r.leaseExpiresAt == None && r.errorKind == None && r.errorMessage == None
                && r.resultPath == None && r.startedAt == None && r.completedAt == None
      ensures old(RowsOk()) ==> RowsOk()
    {
      ok := id !in calcs && run in runs;
      if ok { calcs := calcs[id := NewRow(run, maxAttempts, now)]; }
    }

    method UpdateCalcStarted(id: CalcId, owner: string, expires: int, now: int)
      modifies this
      ensures calcs == Put(old(calcs), id, Started(owner, expires), now) && runs == old(runs)
      ensures SameButRow(old(calcs), calcs, id)
      ensures id in old(calcs) ==>
                var r, r' := old(calcs)[id], calcs[id];
                && r'.status == StatusRunning && r'.leaseOwner == Some(owner) && r'.leaseExpiresAt == Some(expires)
                && r'.startedAt == Some(if r.startedAt.Some? then r.startedAt.value else now) && r'.updatedAt == now
                && SameBut(r, r', {StatusOf, OwnerOf, ExpiryOf, StartedOf, UpdatedOf})
      ensures old(RowsOk()) ==> RowsOk()
    {
      if id in calcs {
        var r := calcs[id];
        var startedAt := if r.startedAt.Some? then r.startedAt else Some(now);
        calcs := calcs[id := r.(status := StatusRunning, startedAt := startedAt, leaseOwner := Some(owner),
                                leaseExpiresAt := Some(expires), updatedAt := now)];
      }
    }

    method UpdateCalcHeartbeat(id: CalcId, expires: int, now: int)
      modifies this
      ensures calcs == Put(old(calcs), id, Beat(expires), now) && runs == old(runs)
      ensures SameButRow(old(calcs), calcs, id)
      ensures id in old(calcs) ==>
                var r, r' := old(calcs)[id], calcs[id];
                && r'.leaseExpiresAt == Some(expires) && r'.updatedAt == now
                && SameBut(r, r', {ExpiryOf, UpdatedOf})
      ensures old(RowsOk()) ==> RowsOk()
    {
      if id in calcs {
        calcs := calcs[id := calcs[id].(leaseExpiresAt := Some(expires), updatedAt := now)];
      }
    }

    method UpdateCalcSucceeded(id: CalcId, path: string, now: int)
      modifies this
      ensures calcs == Put(old(calcs), id, Succeeded(path), now) && runs == old(runs)
      ensures SameButRow(old(calcs), calcs, id)
      ensures id in old(calcs) ==>
                var r, r' := old(calcs)[id], calcs[id];
                && r'.status == StatusSucceeded && r'.resultPath == Some(path) && r'.completedAt == Some(now)
                && r'.leaseOwner == None && r'.leaseExpiresAt == None && r'.updatedAt == now
                && SameBut(r, r', {StatusOf, PathOf, CompletedOf, OwnerOf, ExpiryOf, UpdatedOf})
      ensures old(RowsOk()) ==> RowsOk()
    {
      if id in calcs {
        calcs := calcs[id := calcs[id].(status := StatusSucceeded, completedAt := Some(now), resultPath := Some(path),
                                        leaseOwner := None, leaseExpiresAt := None, updatedAt := now)];
      }
    }

    method UpdateCalcFailed(id: CalcId, kind: ErrorKind, message: string, now: int)
      modifies this
      ensures calcs == Put(old(calcs), id, Failed(kind, message), now) && runs == old(runs)
      ensures SameButRow(old(calcs), calcs, id)
      ensures id in old(calcs) ==>
                var r, r' := old(calcs)[id], calcs[id];
                && r'.status == StatusFailed && r'.errorKind == Some(kind) && r'.errorMessage == Some(message)
                && r'.completedAt == Some(now)
                && r'.leaseOwner == None && r'.leaseExpiresAt == None && r'.updatedAt == now
                && SameBut(r, r', {StatusOf, ErrorKindOf, ErrorMessageOf, CompletedOf, OwnerOf, ExpiryOf, UpdatedOf})
      ensures old(RowsOk()) ==> RowsOk()
    {
      if id in calcs {
        calcs := calcs[id := calcs[id].(status := StatusFailed, completedAt := Some(now), errorKind := Some(kind),
                                        errorMessage := Some(message), leaseOwner := None, leaseExpiresAt := None,
                                        updatedAt := now)];
      }
    }

    method UpdateCalcRetrying(id: CalcId, attempt: nat, nextAt: int, now: int)
      modifies this
      ensures calcs == Put(old(calcs), id, Retrying(attempt, nextAt), now) && runs == old(runs)
      ensures SameButRow(old(calcs), calcs, id)
      ensures id in old(calcs) ==>
                var r, r' := old(calcs)[id], calcs[id];
                && r'.status == StatusRetrying && r'.attempt == attempt && r'.nextAttemptAt == Some(nextAt)
                && r'.leaseOwner == None && r'.leaseExpiresAt == None && r'.updatedAt == now
                && SameBut(r, r', {StatusOf, AttemptOf, NextAttemptOf, OwnerOf, ExpiryOf, UpdatedOf})
      ensures old(RowsOk()) ==> (RowsOk() <==> (id in old(calcs) ==> 1 <= attempt <= old(calcs)[id].maxAttempts))
    {
      if id in calcs {
        calcs := calcs[id := calcs[id].(status := StatusRetrying, attempt := attempt, nextAttemptAt := Some(nextAt),
                                        leaseOwner := None, leaseExpiresAt := None, updatedAt := now)];
        assert RowOk(calcs[id]) ==> 1 <= attempt <= calcs[id].maxAttempts;
      }
    }

    method UpdateCalcCancelled(id: CalcId, now: int)
      modifies this
      ensures calcs == Put(old(calcs), id, Cancelled, now) && runs == old(runs)
      ensures SameButRow(old(calcs), calcs, id)
      ensures id in old(calcs) ==>
                var r, r' := old(calcs)[id], calcs[id];
                && r'.status == StatusCancelled && r'.completedAt == Some(now)
                && r'.leaseOwner == None && r'.leaseExpiresAt == None && r'.updatedAt == now
                && SameBut(r, r', {StatusOf, CompletedOf, OwnerOf, ExpiryOf, UpdatedOf})
      ensures old(RowsOk()) ==> RowsOk()
    {
      if id in calcs {
        calcs := calcs[id := calcs[id].(status := StatusCancelled, completedAt := Some(now),
                                        leaseOwner := None, leaseExpiresAt := None, updatedAt := now)];
      }
    }

    method UpdateCalcPending(id: CalcId, now: int)
      modifies this
      ensures calcs == Put(old(calcs), id, Pending, now) && runs == old(runs)
      ensures SameButRow(old(calcs), calcs, id)
      ensures id in old(calcs) ==>
                var r, r' := old(calcs)[id], calcs[id];
                && r'.status == StatusPending && r'.attempt == 0 && r'.nextAttemptAt == None
                && r'.errorKind == None && r'.errorMessage == None
                && r'.leaseOwner == None && r'.leaseExpiresAt == None && r'.updatedAt == now
                && SameBut(r, r', {StatusOf, AttemptOf, NextAttemptOf, ErrorKindOf, ErrorMessageOf, OwnerOf, ExpiryOf,
                                   UpdatedOf})
      ensures old(RowsOk()) ==> RowsOk()
    {
      if id in calcs {
        calcs := calcs[id := calcs[id].(status := StatusPending, attempt := 0, nextAttemptAt := None,
                                        errorKind := None, errorMessage := None,
                                        leaseOwner := None, leaseExpiresAt := None, updatedAt := now)];
      }
    }

    method SweepOne(id: CalcId, now: int)
      requires id in calcs && Swept(calcs[id], now)
      modifies this
      ensures calcs == old(calcs)[id := SweepRow(old(calcs)[id], now)] && runs == old(runs)
    {
      var r := calcs[id];
      var next := r.attempt + 1;
      if next > r.maxAttempts {
        calcs := calcs[id := r.(status := StatusFailed, errorKind := Some(CrashExhausted), leaseOwner := None,
                                leaseExpiresAt := None, completedAt := Some(now), updatedAt := now)];
      } else {
        calcs := calcs[id := r.(status := StatusRetrying, attempt := next, nextAttemptAt := Some(now + next * 5000),
                                leaseOwner := None, leaseExpiresAt := None, updatedAt := now)];
      }
    }

    /** The sweep at startup: one pass over the rows it listed, in any order. */
    method CrashRecoverySweep(now: int)
      modifies this
      ensures calcs == Sweep(old(calcs), now) && runs == old(runs)
      ensures calcs.Keys == old(calcs).Keys
      ensures forall c :: c in old(calcs) ==> SweptOnce(old(calcs)[c], calcs[c], now)
      ensures old(RowsOk()) ==> RowsOk()
    {
      ghost var t := calcs;
      SweepIsSweptOnce(t, now);
      hide SweptOnce, SweepRow, RowOk, SweptBut, Sweep;
      var listed := set c | c in calcs && Swept(calcs[c], now);
      var todo := listed;
      SweptButEnds(t, now);
      while todo != {}
        invariant todo <= listed
        invariant calcs == SweptBut(t, now, todo) && runs == old(runs)
        decreases todo
      {
        var id :| id in todo;
        SweptButStep(t, now, todo, id);
        todo := todo - {id};
        SweepOne(id, now);
      }
    }
  }
}
