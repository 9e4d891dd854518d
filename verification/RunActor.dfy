/** The run actor's loop as it is written (crates/runsd/src/actor/run.rs:55-137), and the steps of `Engine` it takes. */
module RunActors {
  import opened Base
  import opened Model
  import opened Rows
  import opened Database
  import C = CalcMachine
  import E = Engine
  import EngineTraces

  /**
   What wakes the loop: a finished child, with the table as the other writers have left it when its statuses are read
   and whether the read and the write of the status succeed; or a cancel, which is also what a dropped handle reads as.
   */
  datatype Event = Finished(id: CalcId, rows: Table, read: bool, ok: bool) | Cancelled

  /** The actor as `Engine` has it after this event. */
  function After(ra: E.RunActor, e: Event): E.RunActor {
    match e
    case Finished(id, _, _, _) =>
      var n := ra.finished + 1;
      ra.(kids := ra.kids - {id}, finished := n, pc := if n >= |ra.spawned| then E.Left(true) else E.Looping)
    case Cancelled => ra.(pc := E.Left(false))
  }

  /** The stored status of the run after this event. */
  function Stored(run: RunId, status: RunStatus, e: Event): RunStatus {
    if e.Finished? && e.read && e.ok then DeriveOfSet(StatusesOf(e.rows, run)) else status
  }

  /** The events the loop takes: up to the one it leaves after. */
  function Taken(ra: E.RunActor, events: seq<Event>): seq<Event>
    decreases |events|
  {
    if events == [] || !ra.pc.Looping? then [] else [events[0]] + Taken(After(ra, events[0]), events[1..])
  }

  function AfterAll(ra: E.RunActor, events: seq<Event>): E.RunActor
    decreases |events|
  {
    if events == [] then ra else AfterAll(After(ra, events[0]), events[1..])
  }

  function StoredAll(run: RunId, status: RunStatus, events: seq<Event>): RunStatus
    decreases |events|
  {
    if events == [] then status else StoredAll(run, Stored(run, status, events[0]), events[1..])
  }

  /** The table after these events: this actor writes no calculation. */
  function RowsAll(rows: Table, events: seq<Event>): Table
    decreases |events|
  {
    if events == [] then rows else RowsAll(if events[0].Finished? then events[0].rows else rows, events[1..])
  }

  function Spawned(ids: set<CalcId>): E.RunActor { E.RunActor(ids, ids, 0, [], false, E.Looping) }

  class RunActor {
    const run: RunId
    const db: Db
    var calcTxs: set<CalcId>
    var finished: nat
    var told: set<CalcId>

    constructor (run: RunId, db: Db)
      ensures this.run == run && this.db == db && calcTxs == {} && finished == 0 && told == {}
    {
      this.run, this.db := run, db;
      calcTxs, finished, told := {}, 0, {};
    }

    /** The statuses of the run's calculations, one for each. */
    method ReadStatuses() returns (statuses: seq<CalcStatus>)
      ensures (set st | st in statuses) == StatusesOf(db.calcs, run)
    {
      var todo := set c | c in db.calcs && db.calcs[c].runId == run;
      ghost var all := todo;
      statuses := [];
      while todo != {}
        invariant todo <= all && forall st :: st in statuses <==> exists c :: c in all - todo && db.calcs[c].status == st
        decreases todo
      {
        var id :| id in todo;
        todo := todo - {id};
        statuses := statuses + [db.calcs[id].status];
        assert id in all - todo;
      }
    }

    /** The derived status of the rows as they are now, unless reading or writing fails. */
    method RefreshRunStatus(read: bool, ok: bool)
      modifies db
      ensures db.calcs == old(db.calcs)
      ensures db.runs == if run in old(db.runs) && read && ok
                         then old(db.runs)[run := DeriveOfSet(StatusesOf(db.calcs, run))] else old(db.runs)
    {
      if read {
        var statuses := ReadStatuses();
        if ok {
          DeriveDependsOnlyOnTheSet(statuses);
          db.UpdateRunStatus(run, DeriveRunStatus(statuses));
        }
      }
    }

    /**
     The loop over these events. It ends after as many notifications as there are children, or at a cancel, which is
     passed on to the children that have not finished.
     */
    method Run(ids: set<CalcId>, events: seq<Event>) returns (pc: E.RunPc)
      requires run in db.runs && calcTxs == {} && finished == 0 && told == {}
      modifies this, db
      ensures var taken := Taken(Spawned(ids), events);
              var ra := AfterAll(Spawned(ids), taken);
              && pc == ra.pc && calcTxs == ra.kids && finished == ra.finished
              && told == (if pc == E.Left(false) then ra.kids else {})
              && db.runs == old(db.runs)[run := StoredAll(run, old(db.runs[run]), taken)]
              && db.calcs == RowsAll(old(db.calcs), taken)
    {
      calcTxs := ids;
      var total := |ids|;
      pc := E.Looping;
      ghost var ra, status := Spawned(ids), db.runs[run];
      ghost var all := Taken(ra, events);
      var i := 0;
      while i < |events|
        invariant i <= |events| && total == |ids|
        invariant ra == E.RunActor(ids, calcTxs, finished, [], false, E.Looping) && pc == E.Looping && told == {}
        invariant AfterAll(ra, Taken(ra, events[i..])) == AfterAll(Spawned(ids), all)
        invariant run in db.runs
        invariant StoredAll(run, db.runs[run], Taken(ra, events[i..])) == StoredAll(run, status, all)
        invariant db.runs == old(db.runs)[run := db.runs[run]]
        invariant RowsAll(db.calcs, Taken(ra, events[i..])) == RowsAll(old(db.calcs), all)
      {
        var e := events[i];
        i := i + 1;
        UnfoldTaken(run, ra, db.runs[run], db.calcs, events[i - 1..]);
        assert events[i - 1..][1..] == events[i..];
        ra := After(ra, e);
        match e {
          case Cancelled =>
            told := calcTxs;
            pc := E.Left(false);
            LeftTakesNothing(run, ra, db.runs[run], db.calcs, events[i..]);
            return;
          case Finished(id, rows, read, ok) =>
            calcTxs := calcTxs - {id};
            finished := finished + 1;
            db.calcs := rows; // the other writers, up to now
            RefreshRunStatus(read, ok);
            if finished >= total {
              pc := E.Left(true);
              LeftTakesNothing(run, ra, db.runs[run], db.calcs, events[i..]);
              return;
            }
        }
      }
      assert events[i..] == [];
    }
  }

  lemma UnfoldTaken(run: RunId, ra: E.RunActor, status: RunStatus, rows: Table, events: seq<Event>)
    requires events != [] && ra.pc.Looping?
    ensures var rest := Taken(After(ra, events[0]), events[1..]);
            && AfterAll(ra, Taken(ra, events)) == AfterAll(After(ra, events[0]), rest)
            && StoredAll(run, status, Taken(ra, events)) == StoredAll(run, Stored(run, status, events[0]), rest)
            && RowsAll(rows, Taken(ra, events)) == RowsAll(if events[0].Finished? then events[0].rows else rows, rest)
  {
    hide After, Stored;
    var rest := Taken(After(ra, events[0]), events[1..]);
    assert Taken(ra, events) == [events[0]] + rest && ([events[0]] + rest)[1..] == rest;
  }

  lemma LeftTakesNothing(run: RunId, ra: E.RunActor, status: RunStatus, rows: Table, events: seq<Event>)
    requires !ra.pc.Looping?
    ensures AfterAll(ra, Taken(ra, events)) == ra && StoredAll(run, status, Taken(ra, events)) == status
    ensures RowsAll(rows, Taken(ra, events)) == rows
  {
  }

  // ── The loop and the engine ────────────────────────────────────────────────

  /**
   A finished child is three steps of the engine: the notification, the read and the write. Other actors may step in
   between; the actor itself and its run's row change only here.
   */
  lemma FinishedIsThreeSteps(s: E.State, run: RunId, ok: bool)
    requires E.Possible(s, E.RunTake(run)) && run in s.runs
    ensures var ra := s.runActors[run];
            var r := E.Run(s, [E.RunTake(run), E.RunRead(run), E.RunStore(run, ok)]);
            var e := Finished(ra.queue[0], s.rows, true, ok);
            && r.Some? && run in r.value.runActors
            && r.value.runActors[run] == After(ra.(queue := ra.queue[1..]), e)
            && r.value.runs == s.runs[run := Stored(run, s.runs[run], e)]
  {
    ThreeSteps(s, run, ok);
    hide E.Next, E.Possible, E.Run;
    StepsCompose(s, E.RunTake(run), E.RunRead(run), E.RunStore(run, ok));
  }

  lemma ThreeSteps(s: E.State, run: RunId, ok: bool)
    requires E.Possible(s, E.RunTake(run)) && run in s.runs
    ensures var s1 := E.Next(s, E.RunTake(run));
            E.Possible(s1, E.RunRead(run)) &&
            var s2 := E.Next(s1, E.RunRead(run));
            E.Possible(s2, E.RunStore(run, ok)) &&
            var s3 := E.Next(s2, E.RunStore(run, ok));
            var ra := s.runActors[run];
            && run in s3.runActors
            && s3.runActors[run] == After(ra.(queue := ra.queue[1..]), Finished(ra.queue[0], s.rows, true, ok))
            && s3.runs == s.runs[run := if ok then DeriveOfSet(StatusesOf(s.rows, run)) else s.runs[run]]
  {
    hide StatusesOf, DeriveOfSet;
    TakeAndRead(s, run);
    hide E.TakeStep, E.ReadStep;
  }

  lemma TakeAndRead(s: E.State, run: RunId)
    requires E.Possible(s, E.RunTake(run)) && run in s.runs
    ensures var s1 := E.TakeStep(s, run);
            E.AtRun(s1, run, E.Reading) &&
            var s2 := E.ReadStep(s1, run);
            var ra := s.runActors[run];
            && run in s2.runActors && s2.runs == s.runs
            && s2.runActors[run] == ra.(kids := ra.kids - {ra.queue[0]}, finished := ra.finished + 1, queue := ra.queue[1..],
                                        pc := E.Storing(DeriveOfSet(StatusesOf(s.rows, run))))
  {
    hide StatusesOf, DeriveOfSet;
    assert E.TakeStep(s, run).rows == s.rows;
  }

  lemma StepsCompose(s: E.State, a: E.Label, b: E.Label, c: E.Label)
    requires E.Possible(s, a) && E.Possible(E.Next(s, a), b) && E.Possible(E.Next(E.Next(s, a), b), c)
    ensures E.Run(s, [a, b, c]) == Some(E.Next(E.Next(E.Next(s, a), b), c))
  {
    hide E.Next, E.Possible;
    var s1 := E.Next(s, a);
    assert [a, b, c][1..] == [b, c] && [b, c][1..] == [c] && [c][1..] == [];
    assert E.Run(E.Next(E.Next(s1, b), c), []) == Some(E.Next(E.Next(s1, b), c));
    assert E.Run(E.Next(s1, b), [c]) == Some(E.Next(E.Next(s1, b), c));
    assert E.Run(s1, [b, c]) == Some(E.Next(E.Next(s1, b), c));
  }

  /** The steps that tell these children. */
  function Tells(run: RunId, ids: seq<CalcId>): seq<E.Label> {
    if ids == [] then [] else [E.RunTell(run, ids[0])] + Tells(run, ids[1..])
  }

  /** The actors after these children of the run have been told to cancel. */
  function ToldTo(actors: map<E.ActorId, E.Actor>, run: RunId, ids: set<CalcId>): map<E.ActorId, E.Actor> {
    map a | a in actors ::
      if a.Child? && a.run == run && a.id in ids then actors[a].(mailbox := actors[a].mailbox + [C.Cancel]) else actors[a]
  }

  /** The same, and the last sender to each of them is gone. */
  function LetGo(actors: map<E.ActorId, E.Actor>, run: RunId, ids: set<CalcId>): map<E.ActorId, E.Actor> {
    map a | a in actors ::
      if a.Child? && a.run == run && a.id in ids then
        actors[a].(mailbox := actors[a].mailbox + [C.Cancel], open := false)
      else actors[a]
  }

  /** `s0` with the children but `todo` told. */
  function TellingFrom(s0: E.State, run: RunId, todo: set<CalcId>): E.State
    requires run in s0.runActors
  {
    var ra := s0.runActors[run];
    E.With(s0, run, ra.(pc := E.Telling(todo))).(actors := ToldTo(s0.actors, run, ra.kids - todo))
  }

  lemma ToldOneMore(actors: map<E.ActorId, E.Actor>, run: RunId, ids: set<CalcId>, c: CalcId)
    requires c !in ids
    ensures var before, a := ToldTo(actors, run, ids), E.Child(run, c);
            ToldTo(actors, run, ids + {c}) ==
            if a in before then before[a := before[a].(mailbox := before[a].mailbox + [C.Cancel])] else before
  {
  }

  lemma TellOne(s0: E.State, run: RunId, todo: set<CalcId>, c: CalcId)
    requires run in s0.runActors && todo <= s0.runActors[run].kids && c in todo
    ensures var s := TellingFrom(s0, run, todo);
            E.Possible(s, E.RunTell(run, c)) && E.Next(s, E.RunTell(run, c)) == TellingFrom(s0, run, todo - {c})
  {
    var kids := s0.runActors[run].kids;
    assert kids - (todo - {c}) == (kids - todo) + {c};
    ToldOneMore(s0.actors, run, kids - todo, c);
    hide ToldTo;
  }

  lemma {:induction false} TellAll(s0: E.State, run: RunId, ids: seq<CalcId>, todo: set<CalcId>)
    requires run in s0.runActors && todo <= s0.runActors[run].kids && todo == (set c | c in ids)
    requires forall i, j :: 0 <= i < j < |ids| ==> ids[i] != ids[j]
    ensures E.Run(TellingFrom(s0, run, todo), Tells(run, ids)) == Some(TellingFrom(s0, run, {}))
    decreases |ids|
  {
    hide E.Next, E.Possible, TellingFrom;
    if ids == [] {
      assert todo == {};
    } else {
      var c, rest := ids[0], ids[1..];
      assert ids == [c] + rest;
      TellOne(s0, run, todo, c);
      assert todo - {c} == set d | d in rest;
      TellAll(s0, run, rest, todo - {c});
      assert Tells(run, ids)[1..] == Tells(run, rest);
    }
  }

  /**
   A cancel is one step of the engine, a message to every unfinished child, in any order, and a last step. Undisturbed,
   these leave the actor as after the event; every unfinished child has been told and no longer has a sender, and
   nothing else is different.
   */
  lemma CancelledIsSteps(s: E.State, run: RunId, ids: seq<CalcId>)
    requires E.Possible(s, E.RunCancel(run)) && s.runActors[run].kids == (set c | c in ids)
    requires forall i, j :: 0 <= i < j < |ids| ==> ids[i] != ids[j]
    ensures var ra := s.runActors[run];
            E.Run(s, [E.RunCancel(run)] + (Tells(run, ids) + [E.RunLeave(run)])) ==
            Some(E.With(s, run, After(ra, Event.Cancelled)).(actors := LetGo(s.actors, run, ra.kids)))
  {
    var kids := s.runActors[run].kids;
    var s1 := E.Next(s, E.RunCancel(run));
    CancelBegins(s, run);
    CancelEnds(s, run);
    hide E.Next, E.Possible, TellingFrom;
    TellAll(s, run, ids, kids);
    var last := TellingFrom(s, run, {});
    EngineTraces.RunAppend(s1, Tells(run, ids), [E.RunLeave(run)]);
    assert [E.RunLeave(run)][1..] == [];
    assert E.Run(E.Next(last, E.RunLeave(run)), []) == Some(E.Next(last, E.RunLeave(run)));
    assert E.Run(last, [E.RunLeave(run)]) == Some(E.Next(last, E.RunLeave(run)));
    assert ([E.RunCancel(run)] + (Tells(run, ids) + [E.RunLeave(run)]))[1..] == Tells(run, ids) + [E.RunLeave(run)];
  }

  lemma CancelBegins(s: E.State, run: RunId)
    requires E.Possible(s, E.RunCancel(run))
    ensures E.Next(s, E.RunCancel(run)) == TellingFrom(s, run, s.runActors[run].kids)
  {
    var kids := s.runActors[run].kids;
    assert kids - kids == {};
    assert ToldTo(s.actors, run, {}) == s.actors;
  }

  lemma CancelEnds(s: E.State, run: RunId)
    requires E.Possible(s, E.RunCancel(run))
    ensures var last, ra := TellingFrom(s, run, {}), s.runActors[run];
            && E.Possible(last, E.RunLeave(run))
            && E.Next(last, E.RunLeave(run)) ==
               E.With(s, run, After(ra, Event.Cancelled)).(actors := LetGo(s.actors, run, ra.kids))
  {
    var last, ra := TellingFrom(s, run, {}), s.runActors[run];
    assert ra.kids - {} == ra.kids;
    assert E.Next(last, E.RunLeave(run)).actors == LetGo(s.actors, run, ra.kids);
    assert E.Next(last, E.RunLeave(run)).runActors == E.With(s, run, After(ra, Event.Cancelled)).runActors;
  }

  /** While children finish one by one, the ones left and the count add up, and the loop is left at the last one. */
  lemma {:induction false} CountsAddUp(ids: set<CalcId>, ra: E.RunActor, done: seq<Event>)
    requires ra.spawned == ids && ra.kids <= ids && ra.finished + |ra.kids| == |ids|
    requires ra.pc == (if ra.finished >= |ids| > 0 then E.Left(true) else E.Looping)
    requires forall i :: 0 <= i < |done| ==> done[i].Finished? && done[i].id in ra.kids
    requires forall i, j :: 0 <= i < j < |done| ==> done[i].id != done[j].id
    ensures var r := AfterAll(ra, done);
            r.finished + |r.kids| == |ids| && r.finished == ra.finished + |done| &&
            (done != [] ==> (r.pc == E.Left(true) <==> r.kids == {}))
    decreases |done|
  {
    if done != [] {
      var r := After(ra, done[0]);
      assert done[0].id in ra.kids;
      assert |r.kids| == |ra.kids| - 1;
      if done[1..] == [] {
        assert AfterAll(r, done[1..]) == r;
      }
      CountsAddUp(ids, r, done[1..]);
    }
  }
}
