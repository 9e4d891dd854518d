/**
 How the attempt number of a row moves in the interleaved engine: which steps set it, which can lower it, and that a
 late actor or watchdog can.
 */
module EngineAttempts {
  import opened Base
  import opened Model
  import opened Rows
  import opened CalcMachine
  import opened Engine
  import EngineTraces

  // ── One step ───────────────────────────────────────────────────────────────

  /** The step stores `pending` on the row: an actor after its backoff, or a retry asked for by a user. */
  predicate StoresPending(s: State, l: Label, c: CalcId)
    requires Possible(s, l)
  {
    match l
    case Store(a, expires, r) => r.ok && s.actors[a].id == c && PendingWrite(s.actors[a].m, expires).Pending?
    case ResetCalc(d, r) => r.ok && d == c
    case _ => false
  }

  /** The number of the retry the step stores on the row: the actor's own, or one more than the watchdog once read. */
  function RetryNumber(s: State, l: Label, c: CalcId): Option<nat>
    requires Possible(s, l)
  {
    match l
    case Store(a, _, r) =>
      var m := s.actors[a].m;
      if r.ok && s.actors[a].id == c && m.pc.Writing? && m.pc.w.Retrying? then Some(m.pc.w.attempt) else None
    case Reap(x, r) => if r.ok && x.id == c && x.attempt < x.max then Some(x.attempt + 1) else None
    case _ => None
  }

  /** The sweep at startup takes the row on to its next attempt. */
  predicate SweepsOn(s: State, l: Label, c: CalcId)
    requires c in s.rows
  {
    var r := s.rows[c];
    l.SweepAll? && r.status in {StatusRunning, StatusRetrying} && r.attempt < r.maxAttempts &&
    (r.leaseExpiresAt == None || r.leaseExpiresAt.value < l.at)
  }

  /** What a stored statement makes of the number. */
  lemma PutNumbers(t: Table, c: CalcId, w: Write, at: int, d: CalcId)
    requires d in t
    ensures d in Put(t, c, w, at)
    ensures Put(t, c, w, at)[d].attempt ==
            if c == d && w.Pending? then 0 else if c == d && w.Retrying? then w.attempt else t[d].attempt
  {
  }

  /** The number after one step. */
  function NumberAfter(s: State, l: Label, c: CalcId): nat
    requires Possible(s, l) && c in s.rows
  {
    if StoresPending(s, l, c) then 0
    else if RetryNumber(s, l, c).Some? then RetryNumber(s, l, c).value
    else if SweepsOn(s, l, c) then s.rows[c].attempt + 1
    else s.rows[c].attempt
  }

  lemma StoreNumbers(s: State, a: ActorId, expires: int, r: Reply, c: CalcId)
    requires Possible(s, Store(a, expires, r)) && c in s.rows
    ensures var l := Store(a, expires, r);
            c in Next(s, l).rows && Next(s, l).rows[c].attempt == NumberAfter(s, l, c)
  {
    hide Step, Put, Apply;
    PutNumbers(s.rows, s.actors[a].id, PendingWrite(s.actors[a].m, expires), r.at, c);
  }

  lemma ReapNumbers(s: State, x: Seen, r: Reply, c: CalcId)
    requires x in s.expired && c in s.rows
    ensures c in Next(s, Reap(x, r)).rows && Next(s, Reap(x, r)).rows[c].attempt == NumberAfter(s, Reap(x, r), c)
  {
    hide Put, Apply;
    PutNumbers(s.rows, x.id, ReapWrite(x.attempt, x.max, s.scannedAt), r.at, c);
  }

  lemma StatementNumbers(s: State, l: Label, c: CalcId)
    requires c in s.rows && (l.Heartbeat? || l.ResetCalc?)
    ensures c in Next(s, l).rows && Next(s, l).rows[c].attempt == NumberAfter(s, l, c)
  {
    hide Put, Apply;
    if l.Heartbeat? {
      PutNumbers(s.rows, l.c, Beat(l.expires), l.at, c);
    } else {
      PutNumbers(s.rows, l.c, Pending, l.r.at, c);
    }
  }

  lemma SweepNumbers(s: State, at: int, c: CalcId)
    requires Possible(s, SweepAll(at)) && c in s.rows
    ensures var l := SweepAll(at); c in Next(s, l).rows && Next(s, l).rows[c].attempt == NumberAfter(s, l, c)
  {
  }

  /** The steps that carry out no statement on calculations. */
  predicate LeavesRows(l: Label) { !(l.Store? || l.Heartbeat? || l.ResetCalc? || l.Reap? || l.SweepAll?) }

  lemma ActorStepKeepsRow(s: State, l: Label, c: CalcId)
    requires Possible(s, l) && c in s.rows && LeavesRows(l) && (OfActor(l) || OfRunActor(l))
    ensures c in Next(s, l).rows && Next(s, l).rows[c] == s.rows[c]
  {
    hide Step, Children, HangUpAll, Enabled, ActiveOf;
  }

  lemma OtherStepKeepsRow(s: State, l: Label, c: CalcId)
    requires Possible(s, l) && c in s.rows && LeavesRows(l) && !OfActor(l) && !OfRunActor(l)
    ensures c in Next(s, l).rows && Next(s, l).rows[c] == s.rows[c]
  {
    hide NewActor, Look;
  }

  lemma StepNumbers(s: State, l: Label, c: CalcId)
    requires Possible(s, l) && c in s.rows
    ensures c in Next(s, l).rows && Next(s, l).rows[c].attempt == NumberAfter(s, l, c)
  {
    hide Next;
    if l.Store? {
      StoreNumbers(s, l.a, l.expires, l.r, c);
    } else if l.Reap? {
      ReapNumbers(s, l.x, l.r, c);
    } else if l.SweepAll? {
      SweepNumbers(s, l.at, c);
    } else if l.Heartbeat? || l.ResetCalc? {
      StatementNumbers(s, l, c);
    } else if OfActor(l) || OfRunActor(l) {
      ActorStepKeepsRow(s, l, c);
    } else {
      OtherStepKeepsRow(s, l, c);
    }
  }

  /**
   Every step of every component, with any fault: the number changes only by a stored `pending`, to zero, by a stored
   retry, to the number it carries, and by the sweep, to the next one. So it falls exactly by a `pending` or a retry
   that carries an older number, and rises exactly by a retry that carries a newer one or the sweep.
   */
  lemma AttemptAfterStep(s: State, l: Label, c: CalcId)
    requires Possible(s, l) && c in s.rows
    ensures c in Next(s, l).rows && Next(s, l).rows[c].attempt == NumberAfter(s, l, c)
    ensures Lowers(s, l, c) <==> Next(s, l).rows[c].attempt < s.rows[c].attempt
    ensures Raises(s, l, c) <==> Next(s, l).rows[c].attempt > s.rows[c].attempt
  {
    hide Next, Possible;
    StepNumbers(s, l, c);
    PendingIsNoRetry(s, l, c);
    hide StoresPending, RetryNumber;
  }

  lemma PendingIsNoRetry(s: State, l: Label, c: CalcId)
    requires Possible(s, l) && c in s.rows
    ensures StoresPending(s, l, c) ==> RetryNumber(s, l, c) == None && !SweepsOn(s, l, c)
    ensures RetryNumber(s, l, c).Some? ==> !SweepsOn(s, l, c)
  {
  }

  predicate Lowers(s: State, l: Label, c: CalcId)
    requires Possible(s, l) && c in s.rows
  {
    if StoresPending(s, l, c) then s.rows[c].attempt > 0
    else RetryNumber(s, l, c).Some? && RetryNumber(s, l, c).value < s.rows[c].attempt
  }

  predicate Raises(s: State, l: Label, c: CalcId)
    requires Possible(s, l) && c in s.rows
  {
    SweepsOn(s, l, c) || (RetryNumber(s, l, c).Some? && RetryNumber(s, l, c).value > s.rows[c].attempt)
  }

  // ── Every run ──────────────────────────────────────────────────────────────

  /** The state in which the `i`th step of a run is taken. */
  function Before(s: State, ls: seq<Label>, i: nat): (b: State)
    requires i < |ls| && Run(s, ls).Some?
    ensures Possible(b, ls[i])
    decreases |ls|
  {
    if i == 0 then s else Before(Next(s, ls[0]), ls[1..], i - 1)
  }

  lemma {:induction false} RowStays(s: State, ls: seq<Label>, c: CalcId)
    requires Run(s, ls).Some? && c in s.rows
    ensures c in Run(s, ls).value.rows
    ensures forall i :: 0 <= i < |ls| ==> c in Before(s, ls, i).rows
    decreases |ls|
  {
    hide Next, Possible;
    if ls != [] {
      AttemptAfterStep(s, ls[0], c);
      RowStays(Next(s, ls[0]), ls[1..], c);
    }
  }

  predicate LowersAt(s: State, ls: seq<Label>, c: CalcId, i: nat)
    requires i < |ls| && Run(s, ls).Some?
  {
    c in Before(s, ls, i).rows && Lowers(Before(s, ls, i), ls[i], c)
  }

  predicate RaisesAt(s: State, ls: seq<Label>, c: CalcId, i: nat)
    requires i < |ls| && Run(s, ls).Some?
  {
    c in Before(s, ls, i).rows && Raises(Before(s, ls, i), ls[i], c)
  }

  /** Along every run: where the number has fallen some step lowered it, and where it has risen some step raised it. */
  lemma {:induction false} AttemptAlongRun(s: State, ls: seq<Label>, c: CalcId)
    requires Run(s, ls).Some? && c in s.rows
    ensures c in Run(s, ls).value.rows
    ensures Run(s, ls).value.rows[c].attempt < s.rows[c].attempt ==> exists i :: 0 <= i < |ls| && LowersAt(s, ls, c, i)
    ensures Run(s, ls).value.rows[c].attempt > s.rows[c].attempt ==> exists i :: 0 <= i < |ls| && RaisesAt(s, ls, c, i)
    decreases |ls|
  {
    hide Next, Possible, Lowers, Raises;
    if ls != [] {
      var s1 := Next(s, ls[0]);
      AttemptAfterStep(s, ls[0], c);
      AttemptAlongRun(s1, ls[1..], c);
      if Lowers(s, ls[0], c) { assert LowersAt(s, ls, c, 0); }
      if Raises(s, ls[0], c) { assert RaisesAt(s, ls, c, 0); }
      if i :| 0 <= i < |ls[1..]| && LowersAt(s1, ls[1..], c, i) { assert LowersAt(s, ls, c, i + 1); }
      if i :| 0 <= i < |ls[1..]| && RaisesAt(s1, ls[1..], c, i) { assert RaisesAt(s, ls, c, i + 1); }
    }
  }

  // ── A late actor ───────────────────────────────────────────────────────────

  /** No statement is refused, nothing crashes, and no user asks for a retry. */
  predicate Faultless(l: Label) {
    (l.Store? || l.Reap? ==> l.r.ok) && (l.RunStore? ==> l.ok) && !l.Crash? && !l.ResetCalc?
  }

  predicate AllFaultless(ls: seq<Label>) { forall i :: 0 <= i < |ls| ==> Faultless(ls[i]) }

  lemma Then(s0: State, ls: seq<Label>, s: State, l: Label) returns (ls': seq<Label>, s': State)
    requires Run(s0, ls) == Some(s) && Possible(s, l) && AllFaultless(ls) && Faultless(l)
    ensures s' == Next(s, l) && Run(s0, ls') == Some(s') && AllFaultless(ls')
  {
    hide Next, Possible, Run, EngineTraces.Clean, EngineTraces.Harmless;
    ls', s' := EngineTraces.Then(s0, ls, s, l);
    ls' := ls + [l];
    EngineTraces.RunAppend(s0, ls, [l]);
    OneStep(s, l);
  }

  lemma OneStep(s: State, l: Label)
    requires Possible(s, l)
    ensures Run(s, [l]) == Some(Next(s, l))
  {
    hide Next, Possible;
    assert [l][1..] == [];
    assert Run(Next(s, l), []) == Some(Next(s, l));
  }

  /** An actor told to start gets as far as its submit; its row takes the lease and keeps its number. */
  lemma StartUp(s0: State, ls: seq<Label>, s: State, a: ActorId) returns (ls': seq<Label>, s': State)
    requires Run(s0, ls) == Some(s) && AllFaultless(ls)
    requires a in s.actors && s.actors[a].id in s.rows && s.free > 0
    requires var x := s.actors[a]; x.m.pc.Idle? && !x.m.held && x.mailbox == [Start]
    ensures Run(s0, ls') == Some(s') && AllFaultless(ls') && EngineTraces.Only(s, s', a) && s'.free == s.free - 1
    ensures var m, m' := s.actors[a].m, s'.actors[a].m;
            m'.pc.Submitting? && m'.attempt == m.attempt && m'.max == m.max
    ensures s'.rows[s.actors[a].id] == Apply(s.rows[s.actors[a].id], Started(s.actors[a].m.owner, 0), 0)
  {
    hide Next, Possible, Run, EngineTraces.Only, Apply, AllFaultless;
    EngineTraces.NothingIsClean(s);
    var more;
    more, s' := EngineTraces.StartUp(s, [], s, a);
    CleanIsFaultless(more);
    EngineTraces.RunAppend(s0, ls, more);
    ls' := ls + more;
    Together(ls, more);
  }

  lemma CleanIsFaultless(ls: seq<Label>)
    requires EngineTraces.Clean(ls)
    ensures AllFaultless(ls)
  {
    forall i | 0 <= i < |ls| ensures Faultless(ls[i]) { assert EngineTraces.Harmless(ls[i]); }
  }

  lemma Together(xs: seq<Label>, ys: seq<Label>)
    requires AllFaultless(xs) && AllFaultless(ys)
    ensures AllFaultless(xs + ys)
  {
    hide Faultless;
  }

  /** A submitting actor with attempts left meets a transient error, and is about to store its next number. */
  lemma Errs(s0: State, ls: seq<Label>, s: State, a: ActorId) returns (ls': seq<Label>, s': State)
    requires Run(s0, ls) == Some(s) && AllFaultless(ls)
    requires a in s.actors && s.actors[a].m.pc.Submitting? && s.actors[a].m.attempt < s.actors[a].m.max
    ensures Run(s0, ls') == Some(s') && AllFaultless(ls') && EngineTraces.Only(s, s', a) && s'.rows == s.rows
    ensures var pc := s'.actors[a].m.pc; pc.Writing? && pc.w.Retrying? && pc.w.attempt == s.actors[a].m.attempt + 1
  {
    hide Next, Possible, Run, EngineTraces.Only, AllFaultless, JitteredBackoff;
    EngineTraces.Thinks(s, a, Answer(TransientError(""), 0, 0));
    ls', s' := Then(s0, ls, s, Think(a, Answer(TransientError(""), 0, 0)));
  }

  const ROW: CalcId := EngineTraces.Id(0)
  const LATE: ActorId := Child(EngineTraces.RUN, ROW)

  /** The row has this number and status; the child of the run is at `pc` with number 0. */
  ghost predicate Stage(s: State, attempt: nat, status: CalcStatus, free: nat) {
    && s.free == free && s.extras == map[] && Extra(0) !in s.actors
    && ROW in s.rows && s.rows[ROW].attempt == attempt && s.rows[ROW].maxAttempts == 3 && s.rows[ROW].status == status
    && LATE in s.actors && s.actors[LATE].id == ROW && s.actors[LATE].m.attempt == 0 && s.actors[LATE].m.max == 3
  }

  lemma Spawned(capacity: nat, cfg: RetryConfig) returns (ls: seq<Label>, s: State)
    ensures Run(Boot(capacity, cfg), ls) == Some(s) && AllFaultless(ls)
    ensures Stage(s, 0, StatusPending, capacity)
    ensures var x := s.actors[LATE]; x.m.pc.Idle? && !x.m.held && x.mailbox == [Start]
  {
    hide Run, Boot, EngineTraces.Clean, AllFaultless;
    var loaded := EngineTraces.Load(capacity, cfg, 1);
    CleanIsFaultless(loaded);
    EngineTraces.SpawnIsBusy(capacity, cfg, 1);
    hide EngineTraces.Busy;
    ls, s := Then(Boot(capacity, cfg), loaded, EngineTraces.Loaded(capacity, cfg, 1), Spawn(EngineTraces.RUN));
    SpawnedStage(capacity, cfg);
  }

  lemma SpawnedStage(capacity: nat, cfg: RetryConfig)
    ensures var s := SpawnStep(EngineTraces.Loaded(capacity, cfg, 1), EngineTraces.RUN);
            && Stage(s, 0, StatusPending, capacity)
            && var x := s.actors[LATE]; x.m.pc.Idle? && !x.m.held && x.mailbox == [Start]
  {
    var s0 := EngineTraces.Loaded(capacity, cfg, 1);
    EngineTraces.OneId();
    assert ROW in EngineTraces.Ids(1) && s0.rows[ROW] == NewRow(EngineTraces.RUN, 3, 0);
    assert ROW in ActiveOf(s0.rows, EngineTraces.RUN);
    assert LATE in Children(s0, EngineTraces.RUN);
  }

  /** The watchdog finds the lease lapsed and stores the next number. */
  lemma LapseIsSeen(s: State)
    requires ROW in s.rows && LeaseExpired(s.rows[ROW], 1) && s.rows[ROW].attempt < s.rows[ROW].maxAttempts
    ensures var x := Look(s, ROW);
            && Possible(s, Scan(1)) && Possible(Next(s, Scan(1)), Reap(x, Reply(true, 1)))
            && var s' := Next(Next(s, Scan(1)), Reap(x, Reply(true, 1)));
            && s'.actors == s.actors && s'.free == s.free && s'.extras == s.extras && ROW in s'.rows
            && s'.rows[ROW] ==
               Apply(s.rows[ROW], Retrying(s.rows[ROW].attempt + 1, 5000 * s.rows[ROW].attempt + 5001), 1)
  {
    hide Apply;
    var x := Look(s, ROW);
    assert x in ScanStep(s, 1).expired;
  }

  /** The supervisor reads the row and puts a further actor on it. */
  lemma Rescheduled(s: State)
    requires ROW in s.rows && s.extras == map[] && Extra(0) !in s.actors && LATE in s.actors
    ensures Possible(s, Fetch(ROW)) && Possible(Next(s, Fetch(ROW)), Respawn(0))
    ensures var s' := Next(Next(s, Fetch(ROW)), Respawn(0));
            && s'.rows == s.rows && s'.free == s.free && LATE in s'.actors && s'.actors[LATE] == s.actors[LATE]
            && Extra(0) in s'.actors
            && s'.actors[Extra(0)] ==
               NewActor(ROW, s.rows[ROW].attempt, s.rows[ROW].maxAttempts, s.cfg, "watchdog-" + ROW)
  {
  }

  /** The child submits, but its lease lapses: the watchdog moves the row on and a further actor is put on it. */
  lemma Overtaken(capacity: nat, cfg: RetryConfig) returns (ls: seq<Label>, s: State)
    requires capacity >= 2
    ensures Run(Boot(capacity, cfg), ls) == Some(s) && AllFaultless(ls) && s.free == capacity - 1
    ensures ROW in s.rows && s.rows[ROW].attempt == 1 && s.rows[ROW].maxAttempts == 3
    ensures LATE in s.actors
    ensures var x := s.actors[LATE]; x.id == ROW && x.m.pc.Submitting? && x.m.attempt == 0 && x.m.max == 3
    ensures Extra(0) in s.actors
    ensures var x := s.actors[Extra(0)];
            x.id == ROW && x.m.pc.Idle? && !x.m.held && x.mailbox == [Start] && x.m.attempt == 1 && x.m.max == 3
  {
    hide Next, Possible, Run, Boot, AllFaultless, EngineTraces.Only, Put;
    var s0 := Boot(capacity, cfg);
    var l1, s1 := Spawned(capacity, cfg);
    var l2, s2 := StartUp(s0, l1, s1, LATE);
    OnlyKeeps(s1, s2, LATE);
    LapseIsSeen(s2);
    var l3, s3 := Then(s0, l2, s2, Scan(1));
    var l4, s4 := Then(s0, l3, s3, Reap(Look(s2, ROW), Reply(true, 1)));
    Rescheduled(s4);
    var l5, s5 := Then(s0, l4, s4, Fetch(ROW));
    ls, s := Then(s0, l5, s5, Respawn(0));
  }

  lemma OnlyKeeps(s: State, s': State, a: ActorId)
    requires EngineTraces.Only(s, s', a)
    ensures s'.extras == s.extras && a in s'.actors && s'.actors[a].id == s.actors[a].id && s'.rows.Keys == s.rows.Keys
    ensures forall b :: b != a ==> (b in s'.actors <==> b in s.actors)
    ensures forall b :: b != a && b in s.actors ==> s'.actors[b] == s.actors[b]
  {
  }

  /**
   So the number does not fall by `pending` alone: in a run without any fault a child whose lease has lapsed, and whom a
   further actor has overtaken, stores its own older number over the newer one.
   */
  lemma LateRetryLowers(capacity: nat, cfg: RetryConfig) returns (ls: seq<Label>, l: Label, c: CalcId)
    requires capacity >= 2
    ensures Run(Boot(capacity, cfg), ls).Some? && AllFaultless(ls) && Faultless(l)
    ensures var s := Run(Boot(capacity, cfg), ls).value;
            && Possible(s, l) && c in s.rows && !StoresPending(s, l, c)
            && s.rows[c].attempt == 2 && c in Next(s, l).rows && Next(s, l).rows[c].attempt == 1
  {
    hide Next, Possible, Run, Boot, AllFaultless, EngineTraces.Only, Apply;
    var s0 := Boot(capacity, cfg);
    var l1, s1 := Overtaken(capacity, cfg);
    var l2, s2 := StartUp(s0, l1, s1, Extra(0));
    OnlyKeeps(s1, s2, Extra(0));
    StartedKeepsNumber(s1.rows[ROW], s1.actors[Extra(0)].m.owner);
    var l3, s3 := Errs(s0, l2, s2, Extra(0));
    OnlyKeeps(s2, s3, Extra(0));
    EngineTraces.Stores(s3, Extra(0), Reply(true, 0));
    var l4, s4 := Then(s0, l3, s3, Store(Extra(0), 0, Reply(true, 0)));
    OnlyKeeps(s3, s4, Extra(0));
    RetryingSetsNumber(s3.rows[ROW], PendingWrite(s3.actors[Extra(0)].m, 0));
    var s5;
    ls, s5 := Errs(s0, l4, s4, LATE);
    OnlyKeeps(s4, s5, LATE);
    l, c := Store(LATE, 0, Reply(true, 0)), ROW;
    EngineTraces.Stores(s5, LATE, Reply(true, 0));
    OnlyKeeps(s5, Next(s5, l), LATE);
    RetryingSetsNumber(s5.rows[ROW], PendingWrite(s5.actors[LATE].m, 0));
  }

  lemma StartedKeepsNumber(r: Row, owner: string)
    ensures Apply(r, Started(owner, 0), 0).attempt == r.attempt
  {
  }

  lemma RetryingSetsNumber(r: Row, w: Write)
    requires w.Retrying?
    ensures Apply(r, w, 0).attempt == w.attempt
  {
  }
}
