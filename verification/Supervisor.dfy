/**
 The supervisor: submitting and restoring runs, rescheduling, retrying and cancelling
 (crates/runsd/src/actor/supervisor.rs:227-373). A spawned run actor is the set of calculations it is given, a spawned
 calculation actor the row it was read from.
 */
module Supervisors {
  import opened Base
  import opened Model
  import opened Rows
  import opened Database
  import opened CalcMachine
  import opened Engine
  import opened EngineCancels

  /** What a run actor is told about one calculation. */
  datatype Spec = Spec(id: CalcId, attempt: nat, max: nat)

  function ActiveRuns(t: Table): set<RunId> { set c | c in t && !t[c].status.IsTerminal() :: t[c].runId }

  function SpecsOf(t: Table, run: RunId): set<Spec> {
    set c | c in t && t[c].runId == run && !t[c].status.IsTerminal() :: Spec(c, t[c].attempt, t[c].maxAttempts)
  }

  /** The table with these new calculations of a run. */
  function Inserted(t: Table, ids: seq<CalcId>, run: RunId, max: nat, now: int): Table {
    if ids == [] then t
    else
      var n := |ids| - 1;
      Inserted(t, ids[..n], run, max, now)[ids[n] := NewRow(run, max, now)]
  }

  function NewSpecs(ids: seq<CalcId>, max: nat): set<Spec> { set id | id in ids :: Spec(id, 0, max) }

  class Supervisor {
    const db: Db
    const maxAttempts: nat
    var runActors: map<RunId, set<Spec>>
    var calcActors: map<CalcId, Spec>

    constructor (db: Db, maxAttempts: nat)
      ensures this.db == db && this.maxAttempts == maxAttempts && runActors == map[] && calcActors == map[]
    {
      this.db, this.maxAttempts := db, maxAttempts;
      runActors, calcActors := map[], map[];
    }

    method SpawnRunActor(run: RunId, specs: set<Spec>)
      modifies this`runActors
      ensures runActors == old(runActors)[run := specs]
    {
      runActors := runActors[run := specs];
    }

    /**
     A new run with calculations `ids`, all with new ids. `accepted` counts the insertions the database takes before it
     refuses one: the run's, then the calculations'. A refusal ends the submission; what was inserted stays, and no actor
     is spawned.
     */
    method SubmitRun(run: RunId, ids: seq<CalcId>, accepted: nat, now: int) returns (ok: bool)
      requires run !in db.runs && forall i :: 0 <= i < |ids| ==> ids[i] !in db.calcs
      requires forall i, j :: 0 <= i < j < |ids| ==> ids[i] != ids[j]
      modifies this`runActors, db
      ensures ok <==> accepted > |ids|
      ensures db.runs == if accepted == 0 then old(db.runs) else old(db.runs)[run := RunPending]
      ensures db.calcs == if accepted == 0 then old(db.calcs)
                          else Inserted(old(db.calcs), ids[..Min(accepted - 1, |ids|)], run, maxAttempts, now)
      ensures runActors == if ok then old(runActors)[run := NewSpecs(ids, maxAttempts)] else old(runActors)
    {
      if accepted == 0 { return false; }
      var inserted := db.InsertRun(run);
      var specs: set<Spec> := {};
      for i := 0 to |ids|
        invariant accepted > i && db.runs == old(db.runs)[run := RunPending] && runActors == old(runActors)
        invariant db.calcs == Inserted(old(db.calcs), ids[..i], run, maxAttempts, now)
        invariant specs == NewSpecs(ids[..i], maxAttempts)
      {
        if accepted == i + 1 { return false; }
        InsertedRows(old(db.calcs), ids[..i], run, maxAttempts, now, ids[i]);
        assert ids[i] !in ids[..i];
        inserted := db.InsertCalculation(ids[i], run, maxAttempts, now);
        assert ids[..i + 1][..i] == ids[..i] && ids[..i + 1] == ids[..i] + [ids[i]];
        specs := specs + {Spec(ids[i], 0, maxAttempts)};
      }
      assert ids[..|ids|] == ids;
      SpawnRunActor(run, specs);
      ok := true;
    }

    /** Called once at startup. A run whose calculations cannot be read (`unreadable`) is skipped. */
    method RestoreActiveRuns(unreadable: set<RunId>)
      requires runActors == map[]
      modifies this`runActors
      ensures runActors == map run | run in ActiveRuns(db.calcs) - unreadable :: SpecsOf(db.calcs, run)
    {
      var todo := ActiveRuns(db.calcs);
      while todo != {}
        invariant todo <= ActiveRuns(db.calcs)
        invariant runActors == map run | run in ActiveRuns(db.calcs) - unreadable - todo :: SpecsOf(db.calcs, run)
        decreases todo
      {
        var run :| run in todo;
        todo := todo - {run};
        if run !in unreadable {
          var specs := SpecsOf(db.calcs, run);
          ActiveRunHasSpecs(db.calcs, run);
          if specs != {} { SpawnRunActor(run, specs); }
        }
      }
    }

    /** The supervisor and its tables as an engine state has them. */
    ghost predicate Mirrors(s: State)
      reads this, db
    {
      && db.calcs == s.rows && runActors.Keys <= s.runActors.Keys
      && calcActors.Keys == s.extras.Keys
      && forall c :: c in calcActors ==> Files(s, c, calcActors[c])
    }

    /**
     Spawns an actor on the row as it is now, whoever else is on it; `read` says whether the row could be read. The
     handle of an earlier such actor is dropped. In the engine these are the read and the spawn.
     */
    method RescheduleCalc(id: CalcId, read: bool)
      modifies this`calcActors
      ensures calcActors == if read && id in db.calcs
                            then old(calcActors)[id := Spec(id, db.calcs[id].attempt, db.calcs[id].maxAttempts)]
                            else old(calcActors)
      ensures forall s, n :: old(Mirrors(s)) && read && Possible(s, Fetch(id)) && Extra(n) !in s.actors ==>
                Mirrors(Rescheduled(s, id, n))
    {
      if read && id in db.calcs {
        var row := db.calcs[id];
        calcActors := calcActors[id := Spec(id, row.attempt, row.maxAttempts)];
      }
      forall s, n | old(Mirrors(s)) && read && Possible(s, Fetch(id)) && Extra(n) !in s.actors
        ensures Mirrors(Rescheduled(s, id, n))
      {
        RescheduleFiles(s, id, n);
        forall c | c in calcActors && c != id ensures Files(Rescheduled(s, id, n), c, calcActors[c]) {
          FilesStays(s, id, n, c, calcActors[c]);
        }
      }
    }

    /** Back to pending at attempt zero, and a new actor; a refused update ends the request. */
    method RetryCalc(id: CalcId, ok: bool, read: bool, now: int)
      modifies this`calcActors, db
      ensures db.calcs == (if ok then Put(old(db.calcs), id, Pending, now) else old(db.calcs)) && db.runs == old(db.runs)
      ensures calcActors == if ok && read && id in db.calcs
                            then old(calcActors)[id := Spec(id, 0, db.calcs[id].maxAttempts)] else old(calcActors)
      ensures old(db.RowsOk()) ==> db.RowsOk()
    {
      if ok {
        db.UpdateCalcPending(id, now);
        RescheduleCalc(id, read);
      }
    }

    /** Whether a run actor was told; the handle is gone either way, and the answer to the user is the same. */
    method CancelRun(run: RunId) returns (told: bool)
      modifies this`runActors
      ensures told <==> run in old(runActors)
      ensures runActors == old(runActors) - {run}
      ensures forall s :: old(Mirrors(s)) ==>
                if told then Possible(s, Label.CancelRun(run)) && Mirrors(Next(s, Label.CancelRun(run))) else Mirrors(s)
    {
      told := run in runActors;
      runActors := runActors - {run};
    }

    /** The engine's request: only an actor spawned by a reschedule can be told (`EngineCancels`). */
    method CancelCalc(id: CalcId) returns (told: bool)
      modifies this`calcActors
      ensures told <==> id in old(calcActors)
      ensures calcActors == old(calcActors) - {id}
      ensures forall s :: old(Mirrors(s)) ==> Mirrors(Request(s, id)) && (told <==> Possible(s, Label.CancelCalc(id)))
    {
      told := id in calcActors;
      calcActors := calcActors - {id};
      forall s | old(Mirrors(s)) ensures Mirrors(Request(s, id)) {
        forall c | c in calcActors ensures Files(Request(s, id), c, calcActors[c]) {
          FilesStaysAfterCancel(s, id, c, calcActors[c]);
        }
      }
    }
  }

  /** The actor filed under `c` was spawned for `spec`. */
  predicate Files(s: State, c: CalcId, spec: Spec) {
    && c in s.extras && s.extras[c] in s.actors && s.actors[s.extras[c]].id == c == spec.id
    && s.actors[s.extras[c]].m.first == spec.attempt && s.actors[s.extras[c]].m.max == spec.max
  }

  function Rescheduled(s: State, c: CalcId, n: nat): State
    requires Possible(s, Fetch(c)) && Extra(n) !in s.actors
  {
    Next(Next(s, Fetch(c)), Respawn(n))
  }

  lemma RescheduleFiles(s: State, c: CalcId, n: nat)
    requires Possible(s, Fetch(c)) && Extra(n) !in s.actors
    ensures var s' := Rescheduled(s, c, n);
            && s'.rows == s.rows && s'.runActors == s.runActors && s'.extras.Keys == s.extras.Keys + {c}
            && Files(s', c, Spec(c, s.rows[c].attempt, s.rows[c].maxAttempts))
  {
  }

  lemma FilesStays(s: State, c: CalcId, n: nat, d: CalcId, spec: Spec)
    requires Possible(s, Fetch(c)) && Extra(n) !in s.actors && d != c && Files(s, d, spec)
    ensures Files(Rescheduled(s, c, n), d, spec)
  {
  }

  lemma FilesStaysAfterCancel(s: State, c: CalcId, d: CalcId, spec: Spec)
    requires d != c && Files(s, d, spec)
    ensures Files(Request(s, c), d, spec)
  {
  }

  lemma ActiveRunHasSpecs(t: Table, run: RunId)
    requires run in ActiveRuns(t)
    ensures SpecsOf(t, run) != {}
  {
    var c :| c in t && !t[c].status.IsTerminal() && t[c].runId == run;
    assert Spec(c, t[c].attempt, t[c].maxAttempts) in SpecsOf(t, run);
  }

  /** The restored runs that are given calculation `c`. */
  function HoldersOf(restored: map<RunId, set<Spec>>, c: CalcId): set<(RunId, Spec)> {
    set run, spec | run in restored && spec in restored[run] && spec.id == c :: (run, spec)
  }

  /**
   Restoring hands every unfinished calculation to exactly one run actor, its own run's, with the attempt of its row,
   and hands out no finished one.
   */
  lemma EveryRowIsRestoredOnce(t: Table, c: CalcId)
    ensures var restored := map run | run in ActiveRuns(t) :: SpecsOf(t, run);
            HoldersOf(restored, c) ==
            if c in t && !t[c].status.IsTerminal() then {(t[c].runId, Spec(c, t[c].attempt, t[c].maxAttempts))} else {}
  {
    if c in t && !t[c].status.IsTerminal() {
      assert t[c].runId in ActiveRuns(t);
      assert Spec(c, t[c].attempt, t[c].maxAttempts) in SpecsOf(t, t[c].runId);
    }
  }

  lemma {:induction false} InsertedRows(t: Table, ids: seq<CalcId>, run: RunId, max: nat, now: int, c: CalcId)
    ensures var t' := Inserted(t, ids, run, max, now);
            (c in t' <==> c in t || c in ids) && (c in t' ==> t'[c] == if c in ids then NewRow(run, max, now) else t[c])
  {
    if ids != [] {
      var n := |ids| - 1;
      InsertedRows(t, ids[..n], run, max, now, c);
      assert ids == ids[..n] + [ids[n]];
    }
  }

  /**
   The calculations of a refused submission are not lost: with new ids and a new run, they are exactly what the next
   restart gives that run's actor. Until then nobody works on them.
   */
  lemma RefusedSubmissionIsRestored(t: Table, ids: seq<CalcId>, run: RunId, max: nat, now: int)
    requires forall c :: c in t ==> c !in ids && t[c].runId != run
    ensures var t' := Inserted(t, ids, run, max, now);
            SpecsOf(t', run) == NewSpecs(ids, max) && (run in ActiveRuns(t') <==> ids != [])
  {
    var t' := Inserted(t, ids, run, max, now);
    forall c
      ensures c in t' <==> c in t || c in ids
      ensures c in t' ==> t'[c] == if c in ids then NewRow(run, max, now) else t[c]
    {
      InsertedRows(t, ids, run, max, now, c);
    }
    hide Inserted;
    forall x ensures x in SpecsOf(t', run) <==> x in NewSpecs(ids, max) {
      if x in NewSpecs(ids, max) { assert x.id in t'; }
    }
    if ids != [] { assert ids[0] in t' && t'[ids[0]].runId == run; }
  }

  /** Actor `a` is created for `spec`. */
  predicate IsChild(s: State, run: RunId, a: ActorId, spec: Spec) {
    a in Children(s, run) && Children(s, run)[a].id == spec.id &&
    Children(s, run)[a].m == Fresh(spec.attempt, spec.max, s.cfg, "worker-" + run)
  }

  /** The specs of a run are the children the engine's `Spawn` step creates, each fresh at its row's attempt. */
  lemma SpecsAreChildren(s: State, run: RunId, a: ActorId)
    ensures a in Children(s, run) <==>
            a.Child? && a.run == run && (exists spec :: spec in SpecsOf(s.rows, run) && IsChild(s, run, a, spec))
  {
    if a in Children(s, run) {
      var spec := Spec(a.id, s.rows[a.id].attempt, s.rows[a.id].maxAttempts);
      assert spec in SpecsOf(s.rows, run);
    }
  }

  /** Rescheduling is two steps of the engine, a read and a spawn; other writers may step in between. */
  lemma RescheduleIsTwoSteps(s: State, c: CalcId, n: nat)
    requires Possible(s, Fetch(c)) && Extra(n) !in s.actors
    ensures var s' := Rescheduled(s, c, n);
            && Run(s, [Fetch(c), Respawn(n)]) == Some(s')
            && Extra(n) in s'.actors && c in s'.extras && s'.extras[c] == Extra(n)
            && var x := s'.actors[Extra(n)];
            && x.id == c && x.mailbox == [Start] && x.open
            && x.m == Fresh(s.rows[c].attempt, s.rows[c].maxAttempts, s.cfg, "watchdog-" + c)
            && (c in s.extras && s.extras[c] in s.actors ==>
                  s.extras[c] in s'.actors && !s'.actors[s.extras[c]].open)
  {
    var s1 := Next(s, Fetch(c));
    assert s1.fetched == Some(Look(s, c));
    var s2 := Next(s1, Respawn(n));
    assert [Fetch(c), Respawn(n)][1..] == [Respawn(n)] && [Respawn(n)][1..] == [];
    assert Run(s2, []) == Some(s2);
    assert Run(s1, [Respawn(n)]) == Some(s2);
  }
}
