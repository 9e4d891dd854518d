/** What every reachable table state satisfies, whatever the interleaving, faults, crashes and sweeps included. */
module EngineRows {
  import opened Base
  import opened Model
  import opened Rows
  import opened CalcMachine
  import opened CalcLog
  import opened Engine

  ghost predicate TableOk(t: Table) { forall c :: c in t ==> RowOk(t[c]) }

  /** An actor's budget is that of its row, and its log tells one of the stories of `CalcLog`. */
  ghost predicate ActorOk(t: Table, x: Actor) {
    x.id in t && x.m.max == t[x.id].maxAttempts && x.m.first <= x.m.max && Ok(x.m)
  }

  predicate SeenOk(t: Table, x: Seen) {
    x.id in t && x.max == t[x.id].maxAttempts && x.attempt <= x.max
  }

  ghost predicate ActorsOk(t: Table, actors: map<ActorId, Actor>) { forall a :: a in actors ==> ActorOk(t, actors[a]) }

  ghost predicate RowsInv(s: State) {
    && TableOk(s.rows)
    && ActorsOk(s.rows, s.actors)
    && (s.fetched.Some? ==> SeenOk(s.rows, s.fetched.value))
    && (forall x :: x in s.expired ==> SeenOk(s.rows, x))
  }

  // ── Tables ─────────────────────────────────────────────────────────────────

  /** Rows are never removed, and keep their run and their budget. */
  ghost predicate Grows(t: Table, t': Table) {
    forall c :: c in t ==> c in t' && t'[c].runId == t[c].runId && t'[c].maxAttempts == t[c].maxAttempts
  }

  lemma PutOk(t: Table, c: CalcId, w: Write, at: int)
    requires TableOk(t) && (c in t ==> WithinBudget(w, t[c].maxAttempts))
    ensures TableOk(Put(t, c, w, at)) && Grows(t, Put(t, c, w, at))
  {
    if c in t { ApplyKeepsRowOk(t[c], w, at); }
  }

  lemma SweepOk(t: Table, at: int)
    requires TableOk(t)
    ensures TableOk(Sweep(t, at)) && Grows(t, Sweep(t, at))
  {
    forall c | c in t ensures RowOk(SweepRow(t[c], at)) { SweepKeepsRowOk(t[c], at); }
  }

  lemma GrowsKeeps(s: State, t: Table)
    requires RowsInv(s) && TableOk(t) && Grows(s.rows, t)
    ensures RowsInv(s.(rows := t))
  {
  }

  // ── Actors ─────────────────────────────────────────────────────────────────

  lemma StepKeepsConstants(m: Machine, i: Input)
    requires Enabled(m, i)
    ensures Step(m, i).max == m.max && Step(m, i).first == m.first
  {
  }

  lemma StepKeepsActorOk(t: Table, x: Actor, i: Input)
    requires ActorOk(t, x) && Enabled(x.m, i)
    ensures ActorOk(t, x.(m := Step(x.m, i)))
  {
    StepKeepsOk(x.m, i);
    StepKeepsConstants(x.m, i);
  }

  lemma MoveKeeps(s: State, a: ActorId, i: Input)
    requires RowsInv(s) && a in s.actors && Enabled(s.actors[a].m, i)
    ensures RowsInv(Move(s, a, i))
  {
    StepKeepsActorOk(s.rows, s.actors[a], i);
  }

  lemma PendingIsWithinBudget(m: Machine, expires: int)
    requires Ok(m) && AwaitsStore(m)
    ensures WithinBudget(PendingWrite(m, expires), m.max)
  {
  }

  lemma FreshActorOk(t: Table, c: CalcId, attempt: nat, max: nat, cfg: RetryConfig, owner: string)
    requires SeenOk(t, Seen(c, attempt, max))
    ensures ActorOk(t, NewActor(c, attempt, max, cfg, owner))
  {
    FreshIsOk(attempt, max, cfg, owner);
  }

  lemma ChildrenOk(s: State, run: RunId)
    requires RowsInv(s)
    ensures ActorsOk(s.rows, Children(s, run))
  {
    forall a | a in Children(s, run) ensures ActorOk(s.rows, Children(s, run)[a]) {
      assert RowOk(s.rows[a.id]);
      FreshActorOk(s.rows, a.id, s.rows[a.id].attempt, s.rows[a.id].maxAttempts, s.cfg, "worker-" + run);
    }
  }

  lemma StoreKeeps(s: State, a: ActorId, expires: int, r: Reply)
    requires RowsInv(s) && Possible(s, Store(a, expires, r))
    ensures RowsInv(StoreStep(s, a, expires, r))
  {
    var x := s.actors[a];
    MoveKeeps(s, a, Stored(expires, r));
    var s' := Move(s, a, Stored(expires, r));
    if r.ok {
      PendingIsWithinBudget(x.m, expires);
      PutOk(s.rows, x.id, PendingWrite(x.m, expires), r.at);
      GrowsKeeps(s', Put(s.rows, x.id, PendingWrite(x.m, expires), r.at));
    }
  }

  /** Mailboxes and senders do not matter here. */
  lemma MailKeeps(s: State, a: ActorId, x: Actor)
    requires RowsInv(s) && a in s.actors && x.id == s.actors[a].id && x.m == s.actors[a].m
    ensures RowsInv(s.(actors := s.actors[a := x]))
  {
  }

  lemma DeliverKeeps(s: State, a: ActorId)
    requires RowsInv(s) && Possible(s, Deliver(a))
    ensures RowsInv(DeliverStep(s, a))
  {
    hide RowsInv, Step;
    var x := s.actors[a];
    MoveKeeps(s, a, Recv(Hears(x)));
    var s' := Move(s, a, Recv(Hears(x)));
    MailKeeps(s', a, s'.actors[a].(mailbox := if x.mailbox == [] then [] else x.mailbox[1..]));
  }

  lemma PostKeeps(s: State, a: ActorId, cmd: Cmd)
    requires RowsInv(s)
    ensures RowsInv(Post(s, a, cmd))
  {
    if a in s.actors { MailKeeps(s, a, s.actors[a].(mailbox := s.actors[a].mailbox + [cmd])); }
  }

  lemma HangUpKeeps(s: State, a: ActorId)
    requires RowsInv(s)
    ensures RowsInv(HangUp(s, a))
  {
    if a in s.actors { MailKeeps(s, a, s.actors[a].(open := false)); }
  }

  lemma FiledKeeps(s: State, a: ActorId, x: Actor, extras: map<CalcId, ActorId>)
    requires RowsInv(s) && ActorOk(s.rows, x)
    ensures RowsInv(s.(actors := s.actors[a := x], extras := extras, fetched := None))
  {
    hide ActorOk, TableOk, SeenOk;
  }

  lemma RespawnKeeps(s: State, n: nat)
    requires RowsInv(s) && Possible(s, Respawn(n))
    ensures RowsInv(RespawnStep(s, n))
  {
    var x := s.fetched.value;
    var s' := if x.id in s.extras then HangUp(s, s.extras[x.id]) else s;
    FreshActorOk(s.rows, x.id, x.attempt, x.max, s.cfg, "watchdog-" + x.id);
    hide RowsInv, ActorOk, NewActor;
    if x.id in s.extras { HangUpKeeps(s, s.extras[x.id]); }
    FiledKeeps(s', Extra(n), NewActor(x.id, x.attempt, x.max, s.cfg, "watchdog-" + x.id), s.extras[x.id := Extra(n)]);
  }

  lemma CancelKeeps(s: State, c: CalcId)
    requires RowsInv(s) && c in s.extras
    ensures RowsInv(CancelStep(s, c)) && RowsInv(DropStep(s, c))
  {
    PostKeeps(s, s.extras[c], Cancel);
    HangUpKeeps(Post(s, s.extras[c], Cancel), s.extras[c]);
    HangUpKeeps(s, s.extras[c]);
  }

  lemma UpdateKeeps(s: State, c: CalcId, w: Write, at: int)
    requires RowsInv(s) && (c in s.rows ==> WithinBudget(w, s.rows[c].maxAttempts))
    ensures RowsInv(Update(s, c, w, at))
  {
    PutOk(s.rows, c, w, at);
    GrowsKeeps(s, Put(s.rows, c, w, at));
  }

  lemma FetchKeeps(s: State, c: CalcId)
    requires RowsInv(s) && c in s.rows
    ensures RowsInv(s.(fetched := Some(Look(s, c))))
  {
    assert RowOk(s.rows[c]);
  }

  lemma ScanKeeps(s: State, at: int)
    requires RowsInv(s)
    ensures RowsInv(ScanStep(s, at))
  {
    forall c | c in s.rows ensures SeenOk(s.rows, Look(s, c)) { assert RowOk(s.rows[c]); }
  }

  lemma ReapKeeps(s: State, x: Seen, r: Reply)
    requires RowsInv(s) && x in s.expired
    ensures RowsInv(ReapStep(s, x, r))
  {
    var s' := s.(expired := s.expired - {x});
    assert SeenOk(s.rows, x);
    if r.ok { UpdateKeeps(s', x.id, ReapWrite(x.attempt, x.max, s.scannedAt), r.at); }
  }

  lemma WithKeeps(s: State, run: RunId, ra: RunActor)
    requires RowsInv(s)
    ensures RowsInv(With(s, run, ra))
  {
  }

  lemma DeliveredKeeps(s: State, a: ActorId)
    requires RowsInv(s)
    ensures RowsInv(Delivered(s, a))
  {
  }

  lemma SpawnKeeps(s: State, run: RunId)
    requires RowsInv(s)
    ensures RowsInv(SpawnStep(s, run))
  {
    ChildrenOk(s, run);
  }

  lemma TakeKeeps(s: State, run: RunId)
    requires RowsInv(s) && Possible(s, RunTake(run))
    ensures RowsInv(TakeStep(s, run))
  {
    var ra := s.runActors[run];
    var ra' := ra.(kids := ra.kids - {ra.queue[0]}, finished := ra.finished + 1, queue := ra.queue[1..], pc := Reading);
    WithKeeps(s, run, ra');
    hide RowsInv;
    HangUpKeeps(With(s, run, ra'), Child(run, ra.queue[0]));
  }

  lemma StatusKeeps(s: State, run: RunId, ok: bool)
    requires RowsInv(s) && Possible(s, RunStore(run, ok))
    ensures RowsInv(StatusStep(s, run, ok))
  {
  }

  lemma TellKeeps(s: State, run: RunId, c: CalcId)
    requires RowsInv(s) && Possible(s, RunTell(run, c))
    ensures RowsInv(TellStep(s, run, c))
  {
    var ra := s.runActors[run];
    WithKeeps(s, run, ra.(pc := Telling(ra.pc.todo - {c})));
    hide RowsInv;
    PostKeeps(With(s, run, ra.(pc := Telling(ra.pc.todo - {c}))), Child(run, c), Cancel);
  }

  lemma LeaveKeeps(s: State, run: RunId)
    requires RowsInv(s) && Possible(s, RunLeave(run))
    ensures RowsInv(LeaveStep(s, run))
  {
  }

  lemma AddCalcKeeps(s: State, c: CalcId, run: RunId, max: nat, at: int)
    requires RowsInv(s) && c !in s.rows
    ensures RowsInv(s.(rows := s.rows[c := NewRow(run, max, at)]))
  {
    GrowsKeeps(s, s.rows[c := NewRow(run, max, at)]);
  }

  lemma SweepKeeps(s: State, at: int)
    requires RowsInv(s)
    ensures RowsInv(s.(rows := Sweep(s.rows, at)))
  {
    SweepOk(s.rows, at);
    GrowsKeeps(s, Sweep(s.rows, at));
  }

  lemma RunsAndCrashKeep(s: State, run: RunId)
    requires RowsInv(s)
    ensures RowsInv(s.(runs := s.runs[run := RunPending]))
    ensures RowsInv(CrashStep(s))
  {
  }

  lemma ActorsKeepRows(s: State, l: Label)
    requires RowsInv(s) && Possible(s, l) && OfActor(l)
    ensures RowsInv(Next(s, l))
  {
    hide RowsInv, Move, DeliverStep, StoreStep, Delivered, Step;
    match l {
      case Deliver(a) => DeliverKeeps(s, a);
      case Grant(a) => MoveKeeps(s, a, Permit(true));
      case Store(a, expires, r) => StoreKeeps(s, a, expires, r);
      case Think(a, i) => MoveKeeps(s, a, i);
      case Report(a) =>
        MoveKeeps(s, a, Sent);
        DeliveredKeeps(Move(s, a, Sent), a);
    }
  }

  lemma RunActorsKeepRows(s: State, l: Label)
    requires RowsInv(s) && Possible(s, l) && OfRunActor(l)
    ensures RowsInv(Next(s, l))
  {
    hide RowsInv, SpawnStep, TakeStep, StatusStep, TellStep, LeaveStep;
    match l {
      case Spawn(run) => SpawnKeeps(s, run);
      case RunTake(run) => TakeKeeps(s, run);
      case RunRead(run) => WithKeeps(s, run, ReadStep(s, run).runActors[run]);
      case RunStore(run, ok) => StatusKeeps(s, run, ok);
      case RunCancel(run) => WithKeeps(s, run, Next(s, l).runActors[run]);
      case RunTell(run, c) => TellKeeps(s, run, c);
      case RunLeave(run) => LeaveKeeps(s, run);
    }
  }

  lemma OthersKeepRows(s: State, l: Label)
    requires RowsInv(s) && Possible(s, l) && !OfActor(l) && !OfRunActor(l)
    ensures RowsInv(Next(s, l))
  {
    hide RowsInv, RespawnStep, CancelStep, DropStep, ScanStep, ReapStep, CrashStep, Update, Sweep;
    match l {
      case Heartbeat(c, expires, at) => UpdateKeeps(s, c, Beat(expires), at);
      case AddRun(run) => RunsAndCrashKeep(s, run);
      case AddCalc(c, run, max, at) => AddCalcKeeps(s, c, run, max, at);
      case CancelRun(run) => WithKeeps(s, run, Next(s, l).runActors[run]);
      case ResetCalc(c, r) => UpdateKeeps(s, c, Pending, r.at);
      case Fetch(c) => FetchKeeps(s, c);
      case Respawn(n) => RespawnKeeps(s, n);
      case CancelCalc(c) => CancelKeeps(s, c);
      case DropCalc(c) => CancelKeeps(s, c);
      case Scan(at) => ScanKeeps(s, at);
      case Reap(x, r) => ReapKeeps(s, x, r);
      case Crash => RunsAndCrashKeep(s, "");
      case SweepAll(at) => SweepKeeps(s, at);
    }
  }

  /** No step of any component, with any fault, breaks a row. */
  lemma NextKeepsRows(s: State, l: Label)
    requires RowsInv(s) && Possible(s, l)
    ensures RowsInv(Next(s, l))
  {
    hide RowsInv, Next;
    if OfActor(l) {
      ActorsKeepRows(s, l);
    } else if OfRunActor(l) {
      RunActorsKeepRows(s, l);
    } else {
      OthersKeepRows(s, l);
    }
  }

  lemma {:induction false} RunKeepsRows(s: State, ls: seq<Label>)
    requires RowsInv(s) && Run(s, ls).Some?
    ensures RowsInv(Run(s, ls).value)
    decreases |ls|
  {
    if ls != [] {
      NextKeepsRows(s, ls[0]);
      RunKeepsRows(Next(s, ls[0]), ls[1..]);
    }
  }

  /** Every row of every reachable state is consistent, and every actor has told a story of `CalcLog`. */
  lemma ReachableRowsOk(capacity: nat, cfg: RetryConfig, ls: seq<Label>)
    requires Run(Boot(capacity, cfg), ls).Some?
    ensures var s := Run(Boot(capacity, cfg), ls).value;
            && (forall c :: c in s.rows ==> RowOk(s.rows[c]))
            && (forall a :: a in s.actors ==> Ok(s.actors[a].m) && s.actors[a].m.first <= s.actors[a].m.max)
  {
    RunKeepsRows(Boot(capacity, cfg), ls);
  }

  /** When the row falls due for the watchdog. */
  function DueAt(r: Row): int
    requires RowOk(r) && (r.status == StatusRunning || r.status == StatusRetrying)
  {
    if r.status == StatusRunning then r.leaseExpiresAt.value else r.nextAttemptAt.value
  }

  /**
   No running or retrying row of a reachable state is invisible to the watchdog: one of its two queries returns the row
   after the end of its lease or from its retry time on, and not before, for as long as nobody changes it.
   */
  lemma WatchdogSeesEveryActiveRow(capacity: nat, cfg: RetryConfig, ls: seq<Label>, c: CalcId, now: int)
    requires Run(Boot(capacity, cfg), ls).Some?
    requires var s := Run(Boot(capacity, cfg), ls).value;
             c in s.rows && (s.rows[c].status == StatusRunning || s.rows[c].status == StatusRetrying)
    ensures var r := Run(Boot(capacity, cfg), ls).value.rows[c];
            RowOk(r) &&
            (LeaseExpired(r, now) || RetryReady(r, now) <==>
             if r.status == StatusRunning then now > DueAt(r) else now >= DueAt(r))
  {
    ReachableRowsOk(capacity, cfg, ls);
  }
}
