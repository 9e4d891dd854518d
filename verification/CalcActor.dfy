/**
 The calculation actor as written: a receive loop with handlers that change the table, publish events and notify
 the run (crates/runsd/src/actor/calc.rs). It is proved to walk the machine of `CalcMachine`, so everything said
 there holds of it.
 */
module CalcActors {
  import opened Base
  import opened Model
  import opened Rows
  import opened Database
  import opened CalcMachine
  import opened CalcLog

  /** How the wait after a transient error ends. */
  datatype Wake = TimerFires | Message(cmd: Option<Cmd>)

  /** One message taken from the mailbox, with the answers the awaits behind it will get. */
  datatype Turn =
    | TickTurn
    | CancelTurn(r: Reply)
    | StartTurn(granted: bool, expires: int, leased: Reply, outcome: Outcome, now: int, draw: nat, r: Reply,
                wake: Wake, last: Reply)

  function Inputs1(r: Reply): seq<Input> { [Stored(0, r), Published, Sent] }

  predicate Stops(wake: Wake) { wake.Message? && (wake.cmd.None? || wake.cmd.value.Cancel?) }

  function AfterSleep(wake: Wake, last: Reply): seq<Input> {
    [if wake.TimerFires? then Timer else Recv(wake.cmd)] +
    if Stops(wake) then Inputs1(last) else [Stored(0, last)]
  }

  function AfterOutcome(t: Turn, retry: bool): seq<Input>
    requires t.StartTurn?
  {
    if t.outcome.TransientError? && retry then [Stored(0, t.r), Published] + AfterSleep(t.wake, t.last)
    else Inputs1(t.r)
  }

  /** The answers one turn feeds to an idle actor; `retry` says whether the attempts are not exhausted. */
  function InputsOf(t: Turn, retry: bool): seq<Input> {
    match t
    case TickTurn => [Recv(Some(HeartbeatTick))]
    case CancelTurn(r) => [Recv(Some(Cancel))] + Inputs1(r)
    case StartTurn(granted, expires, leased, outcome, now, draw, _, _, _) =>
      [Recv(Some(Start)), Permit(granted)] +
      if !granted then []
      else
        [Stored(expires, leased)] +
        if !leased.ok then []
        else [Published, Answer(outcome, now, draw)] + AfterOutcome(t, retry)
  }

  /** Whether the actor goes back to its mailbox after a `Start`. */
  predicate Retries(t: Turn, retry: bool) {
    t.StartTurn? && t.granted && t.leased.ok && t.outcome.TransientError? && retry && !Stops(t.wake)
  }

  /** The actor stops at the first turn that ends it, or when the mailbox closes after the last turn. */
  function AllInputs(turns: seq<Turn>, attempt: nat, max: nat): seq<Input> {
    if turns == [] then [Recv(None)]
    else
      var t := turns[0];
      var retry := attempt + 1 <= max;
      InputsOf(t, retry) +
      if t.TickTurn? then AllInputs(turns[1..], attempt, max)
      else if Retries(t, retry) then
        AllInputs(turns[1..], attempt + 1, max)
      else []
  }

  function Remaining(stop: bool, turns: seq<Turn>, attempt: nat, max: nat): seq<Input> {
    if stop then [] else AllInputs(turns, attempt, max)
  }

  // ── What a turn leaves behind ──────────────────────────────────────────────

  /** The statuses published in one turn. */
  function TurnEvents(t: Turn, retry: bool): seq<CalcStatus> {
    match t
    case TickTurn => []
    case CancelTurn(_) => [StatusCancelled]
    case StartTurn(granted, _, leased, outcome, _, _, _, wake, _) =>
      if !granted || !leased.ok then []
      else
        match outcome
        case Success(_) => [StatusRunning, StatusSucceeded]
        case PermanentError(_) => [StatusRunning, StatusFailed]
        case TransientError(_) =>
          if !retry then [StatusRunning, StatusFailed]
          else if Stops(wake) then [StatusRunning, StatusRetrying, StatusCancelled]
          else [StatusRunning, StatusRetrying]
  }

  /** The run is notified exactly by a turn that publishes a final status, and then once. */
  function TurnNotices(t: Turn, retry: bool): nat {
    var es := TurnEvents(t, retry);
    if es != [] && es[|es| - 1].IsTerminal() then 1 else 0
  }

  /** The row after a final statement, if it went through. */
  predicate Ended(r: Row, r': Row, status: CalcStatus, reply: Reply) {
    if !reply.ok then r' == r
    else
      && r'.status == status && r'.completedAt == Some(reply.at) && r'.leaseOwner == None && r'.leaseExpiresAt == None
      && r'.attempt == r.attempt && r'.maxAttempts == r.maxAttempts && r'.startedAt == r.startedAt
      && (status.StatusCancelled? || status.StatusFailed? ==> r'.resultPath == r.resultPath)
      && (status.StatusCancelled? || status.StatusSucceeded? ==>
            r'.errorKind == r.errorKind && r'.errorMessage == r.errorMessage)
  }

  /** The row after a retry, if it was stored. */
  predicate Retried(r: Row, r': Row, attempt: nat, due: int, reply: Reply) {
    if !reply.ok then r' == r
    else
      && r'.status == StatusRetrying && r'.attempt == attempt && r'.nextAttemptAt == Some(due)
      && r'.leaseOwner == None && r'.leaseExpiresAt == None && r'.startedAt == r.startedAt
      && r'.maxAttempts == r.maxAttempts && r'.errorKind == r.errorKind && r'.completedAt == r.completedAt
  }

  /** The row after the backoff, if the reset was stored: the number is lost. */
  predicate BackToPending(r: Row, r': Row, reply: Reply) {
    if !reply.ok then r' == r
    else
      && r'.status == StatusPending && r'.attempt == 0 && r'.nextAttemptAt == None
      && r'.leaseOwner == None && r'.leaseExpiresAt == None && r'.startedAt == r.startedAt
      && r'.maxAttempts == r.maxAttempts
  }

  /** The row after the lease, if it was stored. */
  predicate Leased(r: Row, r': Row, owner: string, expires: int, reply: Reply) {
    if !reply.ok then r' == r
    else
      && r'.status == StatusRunning && r'.leaseOwner == Some(owner) && r'.leaseExpiresAt == Some(expires)
      && r'.attempt == r.attempt && r'.maxAttempts == r.maxAttempts && r'.startedAt.Some?
  }

  class CalcActor {
    const id: CalcId
    const db: Db
    const max: nat
    const cfg: RetryConfig
    const owner: string
    const base: Table                // the table when the actor was spawned
    const first: nat
    var attempt: nat
    var events: seq<CalcStatus>      // `to` of the events put on the bus
    var finished: nat                // CalcFinished notifications sent
    ghost var m: Machine
    ghost var fed: seq<Input>

    ghost predicate Valid()
      reads this, db
    {
      && Feed(Fresh(first, max, cfg, owner), fed) == Some(m)
      && m.attempt == attempt && m.max == max && m.cfg == cfg && m.owner == owner
      && events == Read(m.log).events
      && finished == Read(m.log).finishes
      && db.calcs == Replay(base, id, m.log)
    }

    constructor (id: CalcId, db: Db, attempt: nat, max: nat, cfg: RetryConfig, owner: string)
      ensures Valid() && m.pc.Idle? && fed == []
      ensures this.id == id && this.db == db && this.first == attempt && this.max == max && this.cfg == cfg
      ensures this.owner == owner && base == db.calcs
    {
      this.id, this.db, this.max, this.cfg, this.owner := id, db, max, cfg, owner;
      this.base, this.first, this.attempt, this.events, this.finished := db.calcs, attempt, attempt, [], 0;
      this.m, this.fed := Fresh(attempt, max, cfg, owner), [];
    }

    /** Moves the machine past one await. */
    ghost method Take(i: Input)
      requires Feed(Fresh(first, max, cfg, owner), fed) == Some(m) && Enabled(m, i)
      modifies this`m, this`fed
      ensures m == Step(old(m), i) && fed == old(fed) + [i]
      ensures Feed(Fresh(first, max, cfg, owner), fed) == Some(m)
    {
      FeedAppend(Fresh(first, max, cfg, owner), fed, [i]);
      m, fed := Step(m, i), fed + [i];
    }

    method EmitStatus(to: CalcStatus)
      requires Valid() && m.pc.Emitting? && m.pc.to == to
      modifies this`events, this`m, this`fed
      ensures Valid() && fed == old(fed) + [Published]
      ensures m.pc == (if to.StatusRunning? then Submitting else if to.StatusRetrying? then Sleeping else Notifying)
      ensures events == old(events) + [to]
    {
      events := events + [to];
      StoryOfStep(m, Published);
      EmitWritesNothing(base, id, m);
      Take(Published);
    }

    method Notify()
      requires Valid() && m.pc.Notifying?
      modifies this`finished, this`m, this`fed
      ensures Valid() && m.pc.Done? && fed == old(fed) + [Sent]
      ensures finished == old(finished) + 1
    {
      finished := finished + 1;
      StoryOfStep(m, Sent);
      ReplaySnoc(base, id, m.log, Finished);
      Take(Sent);
    }

    /** The bookkeeping of a statement that the caller has just had executed. */
    ghost method Stores(w: Write, expires: int, r: Reply)
      requires AwaitsStore(m) && w == PendingWrite(m, expires)
      requires Feed(Fresh(first, max, cfg, owner), fed) == Some(m)
      requires m.attempt == attempt && m.max == max && m.cfg == cfg && m.owner == owner
      requires events == Read(m.log).events && finished == Read(m.log).finishes
      requires db.calcs == if r.ok then Put(Replay(base, id, m.log), id, w, r.at) else Replay(base, id, m.log)
      modifies this`m, this`fed
      ensures Valid() && fed == old(fed) + [Stored(expires, r)]
      ensures m.pc == AfterStore(old(m), expires, r).pc
    {
      StoryOfStep(m, Stored(expires, r));
      ReplaySnoc(base, id, m.log, Wrote(w, r));
      Take(Stored(expires, r));
    }

    /** A message taken from the mailbox. */
    ghost method Receive(cmd: Option<Cmd>)
      requires Valid() && Enabled(m, Recv(cmd))
      modifies this`m, this`fed
      ensures Valid() && fed == old(fed) + [Recv(cmd)]
      ensures m.pc == Step(old(m), Recv(cmd)).pc
    {
      StoryOfStep(m, Recv(cmd));
      if cmd.Some? { ReplaySnoc(base, id, m.log, Took(cmd.value)); }
      Take(Recv(cmd));
    }

    /** A `Start` taken and the worker pool's answer. */
    ghost method Begin(granted: bool)
      requires Valid() && m.pc.Idle?
      modifies this`m, this`fed
      ensures Valid() && fed == old(fed) + [Recv(Some(Start)), Permit(granted)]
      ensures m.pc == if granted then Leasing else Done
    {
      Receive(Some(Start));
      Take(Permit(granted));
    }

    /** The external service answered. */
    ghost method Answers(outcome: Outcome, now: int, draw: nat)
      requires Valid() && m.pc.Submitting? && !outcome.TransientError?
      modifies this`m, this`fed
      ensures Valid() && fed == old(fed) + [Answer(outcome, now, draw)]
      ensures outcome.Success? ==> m.pc == Writing(Succeeded(outcome.path), 0)
      ensures outcome.PermanentError? ==> m.pc == Writing(Failed(Permanent, outcome.message), 0)
    {
      Take(Answer(outcome, now, draw));
    }

    method HandleSuccess(path: string, r: Reply)
      requires Valid() && m.pc == Writing(Succeeded(path), 0)
      modifies this`events, this`finished, this`m, this`fed, db
      ensures Valid() && m.pc.Done? && fed == old(fed) + Inputs1(r)
      ensures events == old(events) + [StatusSucceeded] && finished == old(finished) + 1 && attempt == old(attempt)
      ensures SameButRow(old(db.calcs), db.calcs, id) && db.runs == old(db.runs)
      ensures id in db.calcs ==> Ended(old(db.calcs)[id], db.calcs[id], StatusSucceeded, r)
      ensures id in db.calcs && r.ok ==> db.calcs[id].resultPath == Some(path)
    {
      if r.ok { db.UpdateCalcSucceeded(id, path, r.at); }
      Stores(Succeeded(path), 0, r);
      EmitStatus(StatusSucceeded);
      Notify();
    }

    method HandlePermanentError(message: string, r: Reply)
      requires Valid() && m.pc == Writing(Failed(Permanent, message), 0)
      modifies this`events, this`finished, this`m, this`fed, db
      ensures Valid() && m.pc.Done? && fed == old(fed) + Inputs1(r)
      ensures events == old(events) + [StatusFailed] && finished == old(finished) + 1 && attempt == old(attempt)
      ensures SameButRow(old(db.calcs), db.calcs, id) && db.runs == old(db.runs)
      ensures id in db.calcs ==> Ended(old(db.calcs)[id], db.calcs[id], StatusFailed, r)
      ensures id in db.calcs && r.ok ==>
                db.calcs[id].errorKind == Some(Permanent) && db.calcs[id].errorMessage == Some(message)
    {
      if r.ok { db.UpdateCalcFailed(id, Permanent, message, r.at); }
      Stores(Failed(Permanent, message), 0, r);
      EmitStatus(StatusFailed);
      Notify();
    }

    method HandleCancel(r: Reply)
      requires Valid() && m.pc == Writing(Cancelled, 0)
      modifies this`events, this`finished, this`m, this`fed, db
      ensures Valid() && m.pc.Done? && fed == old(fed) + Inputs1(r)
      ensures events == old(events) + [StatusCancelled] && finished == old(finished) + 1 && attempt == old(attempt)
      ensures SameButRow(old(db.calcs), db.calcs, id) && db.runs == old(db.runs)
      ensures id in db.calcs ==> Ended(old(db.calcs)[id], db.calcs[id], StatusCancelled, r)
    {
      if r.ok { db.UpdateCalcCancelled(id, r.at); }
      Stores(Cancelled, 0, r);
      EmitStatus(StatusCancelled);
      Notify();
    }

    /** Attempts are used up. */
    method HandleExhausted(message: string, r: Reply)
      requires Valid() && m.pc == Writing(Failed(TransientExhausted, message), 0)
      modifies this`events, this`finished, this`m, this`fed, db
      ensures Valid() && m.pc.Done? && fed == old(fed) + Inputs1(r)
      ensures events == old(events) + [StatusFailed] && finished == old(finished) + 1 && attempt == old(attempt)
      ensures SameButRow(old(db.calcs), db.calcs, id) && db.runs == old(db.runs)
      ensures id in db.calcs ==> Ended(old(db.calcs)[id], db.calcs[id], StatusFailed, r)
      ensures id in db.calcs && r.ok ==>
                db.calcs[id].errorKind == Some(TransientExhausted) && db.calcs[id].errorMessage == Some(message)
    {
      if r.ok { db.UpdateCalcFailed(id, TransientExhausted, message, r.at); }
      Stores(Failed(TransientExhausted, message), 0, r);
      EmitStatus(StatusFailed);
      Notify();
    }

    method StoreRetrying(nextAt: int, delay: nat, r: Reply)
      requires Valid() && m.pc == Writing(Retrying(attempt, nextAt), delay)
      modifies this`events, this`m, this`fed, db
      ensures Valid() && m.pc.Sleeping? && fed == old(fed) + [Stored(0, r), Published]
      ensures events == old(events) + [StatusRetrying]
      ensures SameButRow(old(db.calcs), db.calcs, id) && db.runs == old(db.runs)
      ensures id in db.calcs ==> Retried(old(db.calcs)[id], db.calcs[id], attempt, nextAt, r)
    {
      if r.ok { db.UpdateCalcRetrying(id, attempt, nextAt, r.at); }
      Stores(Retrying(attempt, nextAt), 0, r);
      EmitStatus(StatusRetrying);
    }

    /** Returns whether the actor should stop. */
    method HandleTransientError(message: string, t: Turn) returns (stop: bool)
      requires t.StartTurn? && t.outcome == TransientError(message)
      requires Valid() && m.pc.Submitting?
      modifies this, db
      ensures Valid() && m.pc == (if stop then Done else Idle)
      ensures attempt == old(attempt) + 1
      ensures stop <==> attempt > max || Stops(t.wake)
      ensures fed == old(fed) + [Answer(t.outcome, t.now, t.draw)] + AfterOutcome(t, attempt <= max)
      ensures events == old(events) + (if attempt > max then [StatusFailed]
                                       else if stop then [StatusRetrying, StatusCancelled] else [StatusRetrying])
      ensures finished == old(finished) + if stop then 1 else 0
    {
      ghost var begin := fed;
      Take(Answer(t.outcome, t.now, t.draw));
      attempt := attempt + 1;
      if attempt > max {
        HandleExhausted(message, t.r);
        return true;
      }
      var delay := JitteredBackoff(attempt, cfg, t.draw);
      StoreRetrying(t.now + delay, delay, t.r);
      stop := Sleep(t.wake, t.last);
      assert fed == begin + [Answer(t.outcome, t.now, t.draw)] + ([Stored(0, t.r), Published] + AfterSleep(t.wake, t.last));
    }

    /** The backoff, cut short by a message; only a cancel or a closed mailbox ends the actor. */
    method Sleep(wake: Wake, last: Reply) returns (stop: bool)
      requires Valid() && m.pc.Sleeping?
      modifies this`events, this`finished, this`m, this`fed, db
      ensures Valid() && m.pc == (if stop then Done else Idle)
      ensures stop <==> wake == Message(None) || wake == Message(Some(Cancel))
      ensures stop == Stops(wake)
      ensures fed == old(fed) + AfterSleep(wake, last)
      ensures events == old(events) + (if stop then [StatusCancelled] else [])
      ensures finished == old(finished) + (if stop then 1 else 0) && attempt == old(attempt)
      ensures SameButRow(old(db.calcs), db.calcs, id) && db.runs == old(db.runs)
      ensures id in db.calcs ==>
                var before, after := old(db.calcs)[id], db.calcs[id];
                if stop then Ended(before, after, StatusCancelled, last) else BackToPending(before, after, last)
    {
      stop := Stops(wake);
      match wake {
        case TimerFires =>
          Take(Timer);
        case Message(cmd) =>
          Receive(cmd);
      }
      if stop {
        HandleCancel(last);
      } else {
        ResetPending(last);
      }
    }

    /** Back to pending; the next submit needs another `Start`. */
    method ResetPending(r: Reply)
      requires Valid() && m.pc.Resetting?
      modifies this`m, this`fed, db
      ensures Valid() && m.pc.Idle? && fed == old(fed) + [Stored(0, r)]
      ensures SameButRow(old(db.calcs), db.calcs, id) && db.runs == old(db.runs)
      ensures id in db.calcs ==> BackToPending(old(db.calcs)[id], db.calcs[id], r)
    {
      if r.ok { db.UpdateCalcPending(id, r.at); }
      Stores(Pending, 0, r);
    }

    /** Mailbox to permit to lease; `false` when one of them is refused. */
    method AcquireLease(t: Turn) returns (ok: bool)
      requires t.StartTurn? && Valid() && m.pc.Idle?
      modifies this`m, this`fed, this`events, db
      ensures Valid() && m.pc == (if ok then Submitting else Done)
      ensures ok <==> t.granted && t.leased.ok
      ensures fed == old(fed) + [Recv(Some(Start)), Permit(t.granted)] +
                     (if !t.granted then []
                      else [Stored(t.expires, t.leased)] + if !t.leased.ok then [] else [Published])
      ensures events == old(events) + if ok then [StatusRunning] else []
    {
      Begin(t.granted);
      if !t.granted { return false; }
      ok := StoreLease(t.expires, t.leased);
    }

    method StoreLease(expires: int, r: Reply) returns (ok: bool)
      requires Valid() && m.pc.Leasing?
      modifies this`m, this`fed, this`events, db
      ensures Valid() && m.pc == (if ok then Submitting else Done) && ok == r.ok
      ensures fed == old(fed) + [Stored(expires, r)] + if !ok then [] else [Published]
      ensures events == old(events) + if r.ok then [StatusRunning] else []
      ensures SameButRow(old(db.calcs), db.calcs, id) && db.runs == old(db.runs)
      ensures id in db.calcs ==> Leased(old(db.calcs)[id], db.calcs[id], owner, expires, r)
    {
      if r.ok { db.UpdateCalcStarted(id, owner, expires, r.at); }
      Stores(Started(owner, expires), expires, r);
      if r.ok { EmitStatus(StatusRunning); }
      ok := r.ok;
    }

    /** The branch of the loop that a `Start` takes. */
    method Attempt(t: Turn) returns (stop: bool)
      requires t.StartTurn? && Valid() && m.pc.Idle?
      modifies this, db
      ensures Valid() && m.pc == (if stop then Done else Idle)
      ensures fed == old(fed) + InputsOf(t, old(attempt) + 1 <= max)
      ensures !stop <==> Retries(t, old(attempt) + 1 <= max)
      ensures !stop ==> attempt == old(attempt) + 1
      ensures events == old(events) + TurnEvents(t, old(attempt) + 1 <= max)
      ensures finished == old(finished) + TurnNotices(t, old(attempt) + 1 <= max)
    {
      hide Ended, Leased, SameButRow, Replay, Feed, Read;
      ghost var begin := fed;
      var ok := AcquireLease(t);
      if !ok { return true; }
      AfterLease(begin, t, attempt + 1 <= max);
      match t.outcome {
        case Success(path) =>
          Answers(t.outcome, t.now, t.draw);
          HandleSuccess(path, t.r);
          stop := true;
        case PermanentError(message) =>
          Answers(t.outcome, t.now, t.draw);
          HandlePermanentError(message, t.r);
          stop := true;
        case TransientError(message) =>
          stop := HandleTransientError(message, t);
      }
    }

    /** The receive loop over a mailbox that holds `turns` and then closes. */
    method Run(turns: seq<Turn>)
      requires Valid() && m.pc.Idle? && fed == [] && attempt == first
      modifies this, db
      ensures Valid() && m.pc.Done?
      ensures fed == AllInputs(turns, first, max)
      ensures !Read(m.log).phase.Broken?
      ensures finished <= 1 && (finished == 1 <==> HasTerminal(m.log))
      ensures events == Read(m.log).announced
      ensures Read(m.log).submits <= Max(max - first, 0) + 1
      ensures db.calcs == Replay(base, id, m.log)
    {
      hide AllInputs, InputsOf, Read, Replay, Feed;
      var k := 0;
      var stop := false;
      assert turns[0..] == turns;
      while !stop && k < |turns|
        invariant 0 <= k <= |turns|
        invariant Valid() && m.pc == (if stop then Done else Idle)
        invariant fed + Remaining(stop, turns[k..], attempt, max) == AllInputs(turns, first, max)
        decreases |turns| - k, !stop
      {
        OneTurn(fed, turns, k, attempt, max);
        stop := TakeTurn(turns[k]);
        k := k + 1;
      }
      if !stop {
        LastTurn(turns[k..], attempt, max);
        Receive(None);
      }
      Finish();
    }

    /** What the finished actor leaves behind. */
    lemma Finish()
      requires Valid() && m.pc.Done?
      ensures !Read(m.log).phase.Broken?
      ensures finished <= 1 && (finished == 1 <==> HasTerminal(m.log))
      ensures events == Read(m.log).announced
      ensures Read(m.log).submits <= Max(max - first, 0) + 1
    {
      ActorStory(first, max, cfg, owner, fed);
    }

    /** One turn of the loop. */
    method TakeTurn(t: Turn) returns (stop: bool)
      requires Valid() && m.pc.Idle?
      modifies this, db
      ensures Valid() && m.pc == (if stop then Done else Idle)
      ensures fed == old(fed) + InputsOf(t, old(attempt) + 1 <= max)
      ensures !stop <==> t.TickTurn? || Retries(t, old(attempt) + 1 <= max)
      ensures !stop ==> attempt == old(attempt) + if t.TickTurn? then 0 else 1
      ensures events == old(events) + TurnEvents(t, old(attempt) + 1 <= max)
      ensures finished == old(finished) + TurnNotices(t, old(attempt) + 1 <= max)
    {
      match t {
        case TickTurn =>
          Receive(Some(HeartbeatTick));
          stop := false;
        case CancelTurn(r) =>
          Receive(Some(Cancel));
          HandleCancel(r);
          stop := true;
        case StartTurn(_, _, _, _, _, _, _, _, _) =>
          stop := Attempt(t);
      }
    }
  }

  lemma LastTurn(turns: seq<Turn>, attempt: nat, max: nat)
    requires turns == []
    ensures AllInputs(turns, attempt, max) == [Recv(None)]
  {
  }

  lemma AfterLease(fed: seq<Input>, t: Turn, retry: bool)
    requires t.StartTurn? && t.granted && t.leased.ok
    ensures fed + [Recv(Some(Start)), Permit(true)] + ([Stored(t.expires, t.leased)] + [Published]) +
            [Answer(t.outcome, t.now, t.draw)] + AfterOutcome(t, retry) == fed + InputsOf(t, retry)
  {
  }

  lemma OneTurn(fed: seq<Input>, turns: seq<Turn>, k: nat, attempt: nat, max: nat)
    requires k < |turns|
    ensures var t := turns[k];
      var retry := attempt + 1 <= max;
      var stop := !t.TickTurn? && !Retries(t, retry);
      fed + AllInputs(turns[k..], attempt, max) ==
        fed + InputsOf(t, retry) +
        Remaining(stop, turns[k + 1..], if t.TickTurn? then attempt else attempt + 1, max)
  {
    assert turns[k..][0] == turns[k] && turns[k..][1..] == turns[k + 1..];
  }

  lemma EmitWritesNothing(base: Table, id: CalcId, m: Machine)
    requires m.pc.Emitting?
    ensures Replay(base, id, AfterEmit(m).log) == Replay(base, id, m.log)
  {
    var log := m.log + [Emitted(m.pc.to)];
    ReplaySnoc(base, id, m.log, Emitted(m.pc.to));
    ReplaySnoc(base, id, log, Submitted);
    ReplaySnoc(base, id, log, BackedOff(m.pc.sleep));
  }
}
