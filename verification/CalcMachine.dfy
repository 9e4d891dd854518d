/**
 One calculation actor as a machine that stops at every await (crates/runsd/src/actor/calc.rs).

 `Step` consumes the answer to the await the actor is blocked on and runs it to the next one.
 What the actor does is appended to its log. The cancel channel of `run` never fires, because its sending
 half lives as long as the submit it races with; so a submit has no cancelled outcome.
 */
module CalcMachine {
  import opened Base
  import opened Model
  import opened Rows

  datatype Cmd = Start | Cancel | HeartbeatTick

  datatype Outcome = Success(path: string) | TransientError(message: string) | PermanentError(message: string)

  datatype RetryConfig = RetryConfig(baseMs: nat, maxMs: nat)

  datatype Pc =
    | Idle                                // rx.recv()
    | Acquiring                           // pool.acquire()
    | Leasing                             // calc_started
    | Submitting                          // api.submit()
    | Writing(w: Write, delay: nat)       // calc_succeeded, calc_failed, calc_retrying or calc_cancelled
    | Emitting(to: CalcStatus, sleep: nat) // insert_event
    | Sleeping                            // backoff, racing rx.recv()
    | Resetting                           // calc_reset_pending
    | Notifying                           // run_tx.send(CalcFinished)
    | Done

  /** Whether a statement went through, and the clock it stamped on the row. */
  datatype Reply = Reply(ok: bool, at: int)

  datatype Input =
    | Recv(cmd: Option<Cmd>)              // None: every sender is gone
    | Permit(ok: bool)
    | Stored(expires: int, r: Reply)      // reply of the database; `expires` matters only to a lease
    | Published
    | Answer(outcome: Outcome, now: int, draw: nat)
    | Timer
    | Sent

  /** What the actor did, in order. */
  datatype Act =
    | Took(cmd: Cmd)
    | Wrote(w: Write, r: Reply)
    | Emitted(to: CalcStatus)
    | Submitted
    | BackedOff(ms: nat)
    | Finished

  datatype Machine = Machine(
    pc: Pc,
    first: nat,        // the attempt number the actor was spawned with
    attempt: nat,
    max: nat,
    cfg: RetryConfig,
    owner: string,
    held: bool,        // a worker permit is in scope
    log: seq<Act>)

  function Fresh(attempt: nat, max: nat, cfg: RetryConfig, owner: string): Machine {
    Machine(Idle, attempt, attempt, max, cfg, owner, false, [])
  }

  /**
   Largest jittered delay. The source computes `base * 2^(attempt-1)` in floating point: the power is infinite
   from 2^1024 on, and infinity times a zero base is NaN, which `min` discards in favour of the maximum.
   */
  function BackoffCap(attempt: nat, cfg: RetryConfig): nat
    requires attempt >= 1
  {
    if cfg.baseMs == 0 && attempt > 1024 then cfg.maxMs
    else Min(cfg.baseMs * Pow2(attempt - 1), cfg.maxMs)
  }

  /** The uniform draw, folded into `0..=cap`. */
  function JitteredBackoff(attempt: nat, cfg: RetryConfig, draw: nat): (ms: nat)
    requires attempt >= 1
    ensures ms <= BackoffCap(attempt, cfg)
  {
    draw % (BackoffCap(attempt, cfg) + 1)
  }

  /** Every delay up to the cap is drawn by somebody. */
  lemma JitterCoversRange(attempt: nat, cfg: RetryConfig, ms: nat)
    requires attempt >= 1
    ensures (exists draw: nat :: JitteredBackoff(attempt, cfg, draw) == ms) <==> ms <= BackoffCap(attempt, cfg)
  {
    if ms <= BackoffCap(attempt, cfg) { assert JitteredBackoff(attempt, cfg, ms) == ms; }
  }

  predicate Enabled(m: Machine, i: Input) {
    match i
    case Recv(_) => m.pc.Idle? || m.pc.Sleeping?
    case Permit(_) => m.pc.Acquiring?
    case Stored(_, _) => AwaitsStore(m)
    case Published => m.pc.Emitting?
    case Answer(_, _, _) => m.pc.Submitting?
    case Timer => m.pc.Sleeping?
    case Sent => m.pc.Notifying?
  }

  predicate AwaitsStore(m: Machine) { m.pc.Leasing? || m.pc.Writing? || m.pc.Resetting? }

  /** The UPDATE the actor is waiting for. */
  function PendingWrite(m: Machine, expires: int): Write
    requires AwaitsStore(m)
  {
    match m.pc
    case Leasing => Started(m.owner, expires)
    case Writing(w, _) => w
    case _ => Pending
  }

  function Step(m: Machine, i: Input): Machine
    requires Enabled(m, i)
  {
    match i
    case Recv(None) =>
      if m.pc.Idle? then m.(pc := Done) else m.(pc := Writing(Cancelled, 0))
    case Recv(Some(cmd)) =>
      var m' := m.(log := m.log + [Took(cmd)]);
      if cmd.Cancel? then m'.(pc := Writing(Cancelled, 0))
      else if m.pc.Sleeping? then m'.(pc := Resetting)
      else if cmd.Start? then m'.(pc := Acquiring)
      else m'
    case Permit(ok) =>
      if ok then m.(pc := Leasing, held := true) else m.(pc := Done)
    case Stored(expires, r) => AfterStore(m, expires, r)
    case Published => AfterEmit(m)
    case Answer(outcome, now, draw) => AfterAnswer(m, outcome, now, draw)
    case Timer => m.(pc := Resetting)
    case Sent => m.(pc := Done, held := false, log := m.log + [Finished])
  }

  function AfterStore(m: Machine, expires: int, r: Reply): Machine
    requires AwaitsStore(m)
  {
    var w := PendingWrite(m, expires);
    var m' := m.(log := m.log + [Wrote(w, r)]);
    match m.pc
    case Leasing => if r.ok then m'.(pc := Emitting(StatusRunning, 0)) else m'.(pc := Done, held := false)
    case Writing(_, delay) => if w.SetsStatus() then m'.(pc := Emitting(w.Status(), delay)) else m'
    case _ => m'.(pc := Idle, held := false)
  }

  function AfterEmit(m: Machine): Machine
    requires m.pc.Emitting?
  {
    var log := m.log + [Emitted(m.pc.to)];
    if m.pc.to.StatusRunning? then m.(pc := Submitting, log := log + [Submitted])
    else if m.pc.to.StatusRetrying? then m.(pc := Sleeping, log := log + [BackedOff(m.pc.sleep)])
    else m.(pc := Notifying, log := log)
  }

  function AfterAnswer(m: Machine, outcome: Outcome, now: int, draw: nat): Machine
    requires m.pc.Submitting?
  {
    match outcome
    case Success(path) => m.(pc := Writing(Succeeded(path), 0))
    case PermanentError(message) => m.(pc := Writing(Failed(Permanent, message), 0))
    case TransientError(message) =>
      var attempt := m.attempt + 1;
      if attempt > m.max then
        m.(attempt := attempt, pc := Writing(Failed(TransientExhausted, message), 0))
      else
        var delay := JitteredBackoff(attempt, m.cfg, draw);
        m.(attempt := attempt, pc := Writing(Retrying(attempt, now + delay), delay))
  }

  /** Runs a list of answers; `None` when one of them answers an await the actor is not at. */
  function Feed(m: Machine, inputs: seq<Input>): Option<Machine>
    decreases |inputs|
  {
    if inputs == [] then Some(m)
    else if !Enabled(m, inputs[0]) then None
    else Feed(Step(m, inputs[0]), inputs[1..])
  }

  lemma {:induction false} FeedAppend(m: Machine, xs: seq<Input>, ys: seq<Input>)
    ensures Feed(m, xs + ys) == if Feed(m, xs).Some? then Feed(Feed(m, xs).value, ys) else None
    decreases |xs|
  {
    if xs == [] {
      assert xs + ys == ys;
    } else {
      assert (xs + ys)[0] == xs[0] && (xs + ys)[1..] == xs[1..] + ys;
      if Enabled(m, xs[0]) { FeedAppend(Step(m, xs[0]), xs[1..], ys); }
    }
  }

  /** The rows after the stored writes of a log. */
  function Replay(t: Table, c: CalcId, log: seq<Act>): Table {
    if log == [] then t
    else
      var before := Replay(t, c, log[..|log| - 1]);
      match log[|log| - 1]
      case Wrote(w, r) => if r.ok then Put(before, c, w, r.at) else before
      case _ => before
  }

  lemma ReplaySnoc(t: Table, c: CalcId, log: seq<Act>, x: Act)
    ensures Replay(t, c, log + [x]) ==
      if x.Wrote? && x.r.ok then Put(Replay(t, c, log), c, x.w, x.r.at) else Replay(t, c, log)
  {
    assert (log + [x])[..|log|] == log;
  }
}
