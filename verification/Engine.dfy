/**
 The calculation engine as an interleaving of atomic steps: calculation actors, run actors, the supervisor, the
 watchdog, the worker pool and the database actor that executes one statement at a time
 (crates/runsd/src/actor). A label names one step and carries what the environment decides in it.
 */
module Engine {
  import opened Base
  import opened Model
  import opened Rows
  import opened CalcMachine

  /** A run actor spawns one child per calculation; the supervisor spawns further actors on a calculation. */
  datatype ActorId = Child(run: RunId, id: CalcId) | Extra(n: nat)

  datatype Actor = Actor(id: CalcId, m: Machine, mailbox: seq<Cmd>, open: bool)

  datatype RunPc =
    | Looping
    | Reading                       // refresh_run_status: statuses to be read
    | Storing(status: RunStatus)    // refresh_run_status: the derived status to be written
    | Telling(todo: set<CalcId>)    // sending Cancel to the children
    | Left(complete: bool)          // through `finished >= total`, or after a cancel

  datatype RunActor = RunActor(
    spawned: set<CalcId>,
    kids: set<CalcId>,              // calc_txs
    finished: nat,
    queue: seq<CalcId>,             // CalcFinished notifications not yet received
    cancel: bool,                   // a cancel is waiting, or the command channel is closed
    pc: RunPc)

  /** A row as somebody once read it. */
  datatype Seen = Seen(id: CalcId, attempt: nat, max: nat)

  datatype State = State(
    capacity: nat,
    cfg: RetryConfig,
    free: int,                      // permits in the semaphore
    rows: Table,
    runs: map<RunId, RunStatus>,
    actors: map<ActorId, Actor>,
    runActors: map<RunId, RunActor>,
    extras: map<CalcId, ActorId>,   // the supervisor's calc_actors
    fetched: Option<Seen>,          // what reschedule_calc has read
    expired: set<Seen>,             // what the watchdog has listed
    scannedAt: int)

  datatype Label =
    // calculation actors
    | Deliver(a: ActorId)
    | Grant(a: ActorId)
    | Store(a: ActorId, expires: int, r: Reply)
    | Think(a: ActorId, i: Input)
    | Report(a: ActorId)
    // the table
    | Heartbeat(c: CalcId, expires: int, at: int)
    | AddRun(run: RunId)
    | AddCalc(c: CalcId, run: RunId, max: nat, at: int)
    // run actors
    | Spawn(run: RunId)
    | RunTake(run: RunId)
    | RunRead(run: RunId)
    | RunStore(run: RunId, ok: bool)
    | RunCancel(run: RunId)
    | RunTell(run: RunId, c: CalcId)
    | RunLeave(run: RunId)
    // the supervisor
    | CancelRun(run: RunId)
    | ResetCalc(c: CalcId, r: Reply)
    | Fetch(c: CalcId)
    | Respawn(n: nat)
    | CancelCalc(c: CalcId)
    | DropCalc(c: CalcId)
    // the watchdog
    | Scan(at: int)
    | Reap(x: Seen, r: Reply)
    // the process
    | Crash
    | SweepAll(at: int)

  // ── Building blocks ────────────────────────────────────────────────────────

  /** One step of actor `a`, with the permit it takes or drops. */
  function Move(s: State, a: ActorId, i: Input): State
    requires a in s.actors && Enabled(s.actors[a].m, i)
  {
    var x := s.actors[a];
    var m' := Step(x.m, i);
    s.(actors := s.actors[a := x.(m := m')], free := s.free + (if x.m.held then 1 else 0) - (if m'.held then 1 else 0))
  }

  function Hears(x: Actor): Option<Cmd> {
    if x.mailbox == [] then None else Some(x.mailbox[0])
  }

  /** Appends a message; a closed receiver drops it, which no later step can tell apart. */
  function Post(s: State, a: ActorId, cmd: Cmd): State {
    if a in s.actors then s.(actors := s.actors[a := s.actors[a].(mailbox := s.actors[a].mailbox + [cmd])]) else s
  }

  /** The last sender to `a` is dropped. */
  function HangUp(s: State, a: ActorId): State {
    if a in s.actors then s.(actors := s.actors[a := s.actors[a].(open := false)]) else s
  }

  function NewActor(c: CalcId, attempt: nat, max: nat, cfg: RetryConfig, owner: string): Actor {
    Actor(c, Fresh(attempt, max, cfg, owner), [Start], true)
  }

  /** Rows a run actor is given: all of a new run, the non-terminal ones of a restored run. */
  function ActiveOf(t: Table, run: RunId): set<CalcId> {
    set c | c in t && t[c].runId == run && !t[c].status.IsTerminal()
  }

  function Children(s: State, run: RunId): map<ActorId, Actor> {
    map a: ActorId | a in (set c | c in ActiveOf(s.rows, run) :: Child(run, c)) ::
      NewActor(a.id, s.rows[a.id].attempt, s.rows[a.id].maxAttempts, s.cfg, "worker-" + run)
  }

  function Look(s: State, c: CalcId): Seen
    requires c in s.rows
  {
    Seen(c, s.rows[c].attempt, s.rows[c].maxAttempts)
  }

  function With(s: State, run: RunId, ra: RunActor): State {
    s.(runActors := s.runActors[run := ra])
  }

  /** All senders of a run actor's children are dropped. */
  function HangUpAll(actors: map<ActorId, Actor>, run: RunId, kids: set<CalcId>): map<ActorId, Actor> {
    map a | a in actors ::
      if a.Child? && a.run == run && a.id in kids then actors[a].(open := false) else actors[a]
  }

  // ── The steps ──────────────────────────────────────────────────────────────

  predicate AtRun(s: State, run: RunId, pc: RunPc) {
    run in s.runActors && s.runActors[run].pc == pc
  }

  predicate Possible(s: State, l: Label) {
    match l
    case Deliver(a) => a in s.actors && (s.actors[a].m.pc.Idle? || s.actors[a].m.pc.Sleeping?) &&
                       (s.actors[a].mailbox != [] || !s.actors[a].open)
    case Grant(a) => a in s.actors && s.actors[a].m.pc.Acquiring? && s.free > 0
    case Store(a, _, _) => a in s.actors && AwaitsStore(s.actors[a].m)
    case Think(a, i) => a in s.actors && Enabled(s.actors[a].m, i) && (i.Published? || i.Answer? || i.Timer?)
    case Report(a) => a in s.actors && s.actors[a].m.pc.Notifying?
    case Heartbeat(_, _, _) => true
    case AddRun(run) => run !in s.runs
    case AddCalc(c, run, _, _) => c !in s.rows && run in s.runs && run !in s.runActors
    case Spawn(run) => run in s.runs && run !in s.runActors
    case RunTake(run) => AtRun(s, run, Looping) && s.runActors[run].queue != []
    case RunRead(run) => AtRun(s, run, Reading)
    case RunStore(run, _) => run in s.runActors && s.runActors[run].pc.Storing?
    case RunCancel(run) => AtRun(s, run, Looping) && s.runActors[run].cancel
    case RunTell(run, c) => run in s.runActors && s.runActors[run].pc.Telling? && c in s.runActors[run].pc.todo
    case RunLeave(run) => AtRun(s, run, Telling({}))
    case CancelRun(run) => run in s.runActors
    case ResetCalc(_, _) => true
    case Fetch(c) => c in s.rows
    case Respawn(n) => s.fetched.Some? && Extra(n) !in s.actors
    case CancelCalc(c) => c in s.extras
    case DropCalc(c) => c in s.extras
    case Scan(_) => true
    case Reap(x, _) => x in s.expired
    case Crash => true
    case SweepAll(_) => s.actors == map[] && s.runActors == map[]
  }

  function DeliverStep(s: State, a: ActorId): State
    requires Possible(s, Deliver(a))
  {
    var x := s.actors[a];
    var s' := Move(s, a, Recv(Hears(x)));
    s'.(actors := s'.actors[a := s'.actors[a].(mailbox := if x.mailbox == [] then [] else x.mailbox[1..])])
  }

  function StoreStep(s: State, a: ActorId, expires: int, r: Reply): State
    requires Possible(s, Store(a, expires, r))
  {
    var x := s.actors[a];
    var s' := Move(s, a, Stored(expires, r));
    if r.ok then s'.(rows := Put(s.rows, x.id, PendingWrite(x.m, expires), r.at)) else s'
  }

  function SpawnStep(s: State, run: RunId): State {
    var kids := ActiveOf(s.rows, run);
    With(s, run, RunActor(kids, kids, 0, [], false, Looping)).(actors := s.actors + Children(s, run))
  }

  function TakeStep(s: State, run: RunId): State
    requires Possible(s, RunTake(run))
  {
    var ra := s.runActors[run];
    HangUp(With(s, run, ra.(kids := ra.kids - {ra.queue[0]}, finished := ra.finished + 1, queue := ra.queue[1..],
                           pc := Reading)), Child(run, ra.queue[0]))
  }

  function ReadStep(s: State, run: RunId): State
    requires Possible(s, RunRead(run))
  {
    With(s, run, s.runActors[run].(pc := Storing(DeriveOfSet(StatusesOf(s.rows, run)))))
  }

  function StatusStep(s: State, run: RunId, ok: bool): State
    requires Possible(s, RunStore(run, ok))
  {
    var ra := s.runActors[run];
    var s' := With(s, run, ra.(pc := if ra.finished >= |ra.spawned| then Left(true) else Looping));
    if ok && run in s.runs then s'.(runs := s.runs[run := ra.pc.status]) else s'
  }

  function TellStep(s: State, run: RunId, c: CalcId): State
    requires Possible(s, RunTell(run, c))
  {
    var ra := s.runActors[run];
    Post(With(s, run, ra.(pc := Telling(ra.pc.todo - {c}))), Child(run, c), Cancel)
  }

  function LeaveStep(s: State, run: RunId): State
    requires Possible(s, RunLeave(run))
  {
    var ra := s.runActors[run];
    With(s, run, ra.(pc := Left(false))).(actors := HangUpAll(s.actors, run, ra.kids))
  }

  function RespawnStep(s: State, n: nat): State
    requires Possible(s, Respawn(n))
  {
    var x := s.fetched.value;
    var s' := if x.id in s.extras then HangUp(s, s.extras[x.id]) else s;
    s'.(actors := s'.actors[Extra(n) := NewActor(x.id, x.attempt, x.max, s.cfg, "watchdog-" + x.id)],
        extras := s.extras[x.id := Extra(n)], fetched := None)
  }

  function CancelStep(s: State, c: CalcId): State
    requires c in s.extras
  {
    HangUp(Post(s, s.extras[c], Cancel), s.extras[c]).(extras := s.extras - {c})
  }

  function DropStep(s: State, c: CalcId): State
    requires c in s.extras
  {
    HangUp(s, s.extras[c]).(extras := s.extras - {c})
  }

  function ScanStep(s: State, at: int): State {
    s.(expired := set c | c in s.rows && LeaseExpired(s.rows[c], at) :: Look(s, c), scannedAt := at)
  }

  function ReapStep(s: State, x: Seen, r: Reply): State {
    var s' := s.(expired := s.expired - {x});
    if r.ok then s'.(rows := Put(s.rows, x.id, ReapWrite(x.attempt, x.max, s.scannedAt), r.at)) else s'
  }

  function CrashStep(s: State): State {
    s.(free := s.capacity, actors := map[], runActors := map[], extras := map[], fetched := None, expired := {})
  }

  function Update(s: State, c: CalcId, w: Write, at: int): State { s.(rows := Put(s.rows, c, w, at)) }

  function Next(s: State, l: Label): State
    requires Possible(s, l)
  {
    match l
    case Deliver(a) => DeliverStep(s, a)
    case Grant(a) => Move(s, a, Permit(true))
    case Store(a, expires, r) => StoreStep(s, a, expires, r)
    case Think(a, i) => Move(s, a, i)
    case Report(a) => Delivered(Move(s, a, Sent), a)
    case Heartbeat(c, expires, at) => Update(s, c, Beat(expires), at)
    case AddRun(run) => s.(runs := s.runs[run := RunPending])
    case AddCalc(c, run, max, at) => s.(rows := s.rows[c := NewRow(run, max, at)])
    case Spawn(run) => SpawnStep(s, run)
    case RunTake(run) => TakeStep(s, run)
    case RunRead(run) => ReadStep(s, run)
    case RunStore(run, ok) => StatusStep(s, run, ok)
    case RunCancel(run) => With(s, run, s.runActors[run].(pc := Telling(s.runActors[run].kids)))
    case RunTell(run, c) => TellStep(s, run, c)
    case RunLeave(run) => LeaveStep(s, run)
    case CancelRun(run) => With(s, run, s.runActors[run].(cancel := true))
    case ResetCalc(c, r) => if r.ok then Update(s, c, Pending, r.at) else s
    case Fetch(c) => s.(fetched := Some(Look(s, c)))
    case Respawn(n) => RespawnStep(s, n)
    case CancelCalc(c) => CancelStep(s, c)
    case DropCalc(c) => DropStep(s, c)
    case Scan(at) => ScanStep(s, at)
    case Reap(x, r) => ReapStep(s, x, r)
    case Crash => CrashStep(s)
    case SweepAll(at) => s.(rows := Sweep(s.rows, at))
  }

  /** A child's notification reaches its run actor unless that has gone; other actors have nobody to notify. */
  function Delivered(s: State, a: ActorId): State {
    if a.Child? && a.run in s.runActors && !s.runActors[a.run].pc.Left? then
      var ra := s.runActors[a.run];
      With(s, a.run, ra.(queue := ra.queue + [a.id]))
    else s
  }

  predicate OfActor(l: Label) { l.Deliver? || l.Grant? || l.Store? || l.Think? || l.Report? }

  predicate OfRunActor(l: Label) {
    l.Spawn? || l.RunTake? || l.RunRead? || l.RunStore? || l.RunCancel? || l.RunTell? || l.RunLeave?
  }

  /** The state after a list of steps; `None` when one of them is not possible. */
  function Run(s: State, ls: seq<Label>): Option<State>
    decreases |ls|
  {
    if ls == [] then Some(s)
    else if !Possible(s, ls[0]) then None
    else Run(Next(s, ls[0]), ls[1..])
  }

  /** An empty table and an idle engine. */
  function Boot(capacity: nat, cfg: RetryConfig): State {
    State(capacity, cfg, capacity, map[], map[], map[], map[], map[], None, {}, 0)
  }
}
