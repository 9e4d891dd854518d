/**
 The worker pool bounds the running rows. Several actors can sit on one row and every UPDATE is unguarded, so the
 bound rests on each running row having some actor, with a permit, that entered `running` and has yet to write
 the outcome.
 */
module EngineCapacity {
  import opened Base
  import opened Model
  import opened Rows
  import opened CalcMachine
  import opened Engine

  function RunningRows(t: Table): set<CalcId> { set c | c in t && t[c].status.StatusRunning? }

  function Holders(actors: map<ActorId, Actor>): set<ActorId> { set a | a in actors && actors[a].m.held }

  /** Awaits between the lease and the write of the outcome. */
  predicate Covering(pc: Pc) {
    pc.Submitting? || (pc.Emitting? && pc.to.StatusRunning?) || (pc.Writing? && !pc.w.Cancelled?)
  }

  /** Where the permit is in scope. */
  predicate HeldFits(m: Machine) {
    && (m.held ==> !m.pc.Idle? && !m.pc.Acquiring? && !m.pc.Done?)
    && (m.pc.Leasing? || m.pc.Sleeping? || m.pc.Resetting? || Covering(m.pc) ==> m.held)
    && (m.pc.Emitting? && m.pc.to.StatusRetrying? ==> m.held)
    && (m.pc.Writing? ==> m.pc.w.SetsStatus() && !m.pc.w.Started? && !m.pc.w.Pending?)
  }

  /** Every running row but the `lost` ones has an actor that has yet to write its outcome. */
  ghost predicate Covered(t: Table, actors: map<ActorId, Actor>, lost: set<CalcId>) {
    forall c :: c in RunningRows(t) && c !in lost ==>
      exists a :: a in actors && actors[a].id == c && Covering(actors[a].m.pc)
  }

  ghost predicate HeldOk(actors: map<ActorId, Actor>) { forall a :: a in actors ==> HeldFits(actors[a].m) }

  ghost predicate CapInv(s: State, lost: set<CalcId>) {
    && HeldOk(s.actors)
    && s.free >= 0 && s.free + |Holders(s.actors)| == s.capacity
    && Covered(s.rows, s.actors, lost)
  }

  /** A step that cannot lose the write that ends a running row. */
  predicate FaultFree(l: Label) { (l.Store? ==> l.r.ok) && !l.Crash? }

  // ── From the invariant to the bound ────────────────────────────────────────

  lemma CoveredRowsFit(s: State, lost: set<CalcId>)
    requires CapInv(s, lost)
    ensures |RunningRows(s.rows)| <= |Holders(s.actors)| + |lost| <= s.capacity + |lost|
  {
    var f := (a: ActorId) => if a in s.actors then s.actors[a].id else "";
    var kept := RunningRows(s.rows) - lost;
    forall c | c in kept ensures exists a :: a in Holders(s.actors) && f(a) == c {
      var a :| a in s.actors && s.actors[a].id == c && Covering(s.actors[a].m.pc);
      assert a in Holders(s.actors) && f(a) == c;
    }
    CoveredIsNoLarger(kept, Holders(s.actors), f);
    hide RunningRows, Holders;
    SizeWithout(RunningRows(s.rows), lost);
  }

  // ── Steps that move no machine ─────────────────────────────────────────────

  /** Machines stay as they are; new actors are fresh. */
  ghost predicate Extends(actors: map<ActorId, Actor>, actors': map<ActorId, Actor>) {
    && (forall a :: a in actors ==> a in actors' && actors'[a].id == actors[a].id && actors'[a].m == actors[a].m)
    && (forall a :: a in actors' && a !in actors ==> actors'[a].m.pc.Idle? && !actors'[a].m.held)
  }

  lemma FrameKeeps(s: State, s': State, lost: set<CalcId>)
    requires CapInv(s, lost) && Extends(s.actors, s'.actors)
    requires s'.free == s.free && s'.capacity == s.capacity
    requires RunningRows(s'.rows) <= RunningRows(s.rows)
    ensures CapInv(s', lost)
  {
    assert Holders(s'.actors) == Holders(s.actors);
    forall c | c in RunningRows(s'.rows) && c !in lost
      ensures exists a :: a in s'.actors && s'.actors[a].id == c && Covering(s'.actors[a].m.pc)
    {
      var a :| a in s.actors && s.actors[a].id == c && Covering(s.actors[a].m.pc);
      assert a in s'.actors && s'.actors[a].id == c && Covering(s'.actors[a].m.pc);
    }
  }

  lemma PutShrinks(t: Table, c: CalcId, w: Write, at: int)
    requires !w.Started?
    ensures RunningRows(Put(t, c, w, at)) <= RunningRows(t)
    ensures w.SetsStatus() ==> c !in RunningRows(Put(t, c, w, at))
  {
  }

  lemma ExtendsOne(actors: map<ActorId, Actor>, a: ActorId, x: Actor)
    requires if a in actors then x.id == actors[a].id && x.m == actors[a].m else x.m.pc.Idle? && !x.m.held
    ensures Extends(actors, actors[a := x])
  {
  }

  lemma PostExtends(s: State, a: ActorId, cmd: Cmd)
    ensures Extends(s.actors, Post(s, a, cmd).actors) && Post(s, a, cmd).rows == s.rows
    ensures Post(s, a, cmd).free == s.free && Post(s, a, cmd).capacity == s.capacity
  {
  }

  lemma HangUpExtends(s: State, a: ActorId)
    ensures Extends(s.actors, HangUp(s, a).actors) && HangUp(s, a).rows == s.rows
    ensures HangUp(s, a).free == s.free && HangUp(s, a).capacity == s.capacity
  {
  }

  // ── Steps that move a machine ──────────────────────────────────────────────

  lemma StepHeld(m: Machine, i: Input)
    requires HeldFits(m) && Enabled(m, i)
    ensures HeldFits(Step(m, i))
    ensures !m.held && Step(m, i).held ==> i == Permit(true)
    ensures Covering(m.pc) && !AwaitsStore(m) ==> Covering(Step(m, i).pc)
  {
  }

  lemma StoreStopsCovering(m: Machine, expires: int, r: Reply)
    requires HeldFits(m) && AwaitsStore(m)
    ensures r.ok && PendingWrite(m, expires).Started? ==> Covering(AfterStore(m, expires, r).pc)
    ensures PendingWrite(m, expires).SetsStatus()
  {
  }

  lemma HoldersAfter(actors: map<ActorId, Actor>, a: ActorId, x: Actor)
    requires a in actors
    ensures |Holders(actors[a := x])| ==
      |Holders(actors)| + (if x.m.held then 1 else 0) - (if actors[a].m.held then 1 else 0)
  {
    var h := Holders(actors) - {a};
    assert Holders(actors) == if actors[a].m.held then h + {a} else h;
    assert Holders(actors[a := x]) == if x.m.held then h + {a} else h;
  }

  /** Permits are conserved by every step of an actor. */
  lemma MoveKeepsPermits(s: State, a: ActorId, i: Input, lost: set<CalcId>)
    requires CapInv(s, lost) && a in s.actors && Enabled(s.actors[a].m, i)
    requires i == Permit(true) ==> s.free > 0
    ensures var s' := Move(s, a, i);
            HeldOk(s'.actors) && s'.free >= 0 && s'.free + |Holders(s'.actors)| == s'.capacity
  {
    var x := s.actors[a];
    StepHeld(x.m, i);
    HoldersAfter(s.actors, a, x.(m := Step(x.m, i)));
  }

  /** Where actor `a` is, after its step, the rows other than its own are covered as before. */
  lemma OthersStayCovered(t: Table, t': Table, actors: map<ActorId, Actor>, a: ActorId, x: Actor, lost: set<CalcId>)
    requires Covered(t, actors, lost) && a in actors && x.id == actors[a].id
    requires forall c :: c in RunningRows(t') && c != x.id ==> c in RunningRows(t)
    requires x.id in RunningRows(t') ==>
      Covering(x.m.pc) || (x.id in RunningRows(t) && (Covering(actors[a].m.pc) ==> Covering(x.m.pc)))
    ensures Covered(t', actors[a := x], lost)
  {
    var actors' := actors[a := x];
    forall c | c in RunningRows(t') && c !in lost
      ensures exists b :: b in actors' && actors'[b].id == c && Covering(actors'[b].m.pc)
    {
      if c == x.id && Covering(x.m.pc) {
        assert actors'[a] == x;
      } else {
        var b :| b in actors && actors[b].id == c && Covering(actors[b].m.pc);
        assert b != a && actors'[b] == actors[b];
      }
    }
  }

  lemma MoveKeeps(s: State, a: ActorId, i: Input, lost: set<CalcId>)
    requires CapInv(s, lost) && a in s.actors && Enabled(s.actors[a].m, i) && !AwaitsStore(s.actors[a].m)
    requires i == Permit(true) ==> s.free > 0
    ensures CapInv(Move(s, a, i), lost)
  {
    var x := s.actors[a];
    MoveKeepsPermits(s, a, i, lost);
    StepHeld(x.m, i);
    OthersStayCovered(s.rows, s.rows, s.actors, a, x.(m := Step(x.m, i)), lost);
  }

  lemma DeliverKeeps(s: State, a: ActorId, lost: set<CalcId>)
    requires CapInv(s, lost) && Possible(s, Deliver(a))
    ensures CapInv(DeliverStep(s, a), lost)
  {
    var x := s.actors[a];
    MoveKeeps(s, a, Recv(Hears(x)), lost);
    var s' := Move(s, a, Recv(Hears(x)));
    ExtendsOne(s'.actors, a, s'.actors[a].(mailbox := if x.mailbox == [] then [] else x.mailbox[1..]));
    FrameKeeps(s', DeliverStep(s, a), lost);
  }

  lemma StoreKeeps(s: State, a: ActorId, expires: int, r: Reply, lost: set<CalcId>)
    requires CapInv(s, lost) && Possible(s, Store(a, expires, r)) && r.ok
    ensures CapInv(StoreStep(s, a, expires, r), lost)
  {
    var x := s.actors[a];
    var w := PendingWrite(x.m, expires);
    MoveKeepsPermits(s, a, Stored(expires, r), lost);
    StoreStopsCovering(x.m, expires, r);
    var t' := Put(s.rows, x.id, w, r.at);
    if !w.Started? { PutShrinks(s.rows, x.id, w, r.at); }
    OthersStayCovered(s.rows, t', s.actors, a, x.(m := Step(x.m, Stored(expires, r))), lost);
  }

  /** Some other actor on the row of actor `a` still has its outcome to write. */
  ghost predicate OtherCovers(actors: map<ActorId, Actor>, a: ActorId)
    requires a in actors
  {
    exists b :: b != a && b in actors && actors[b].id == actors[a].id && Covering(actors[b].m.pc)
  }

  lemma RefusedStore(s: State, a: ActorId, expires: int, r: Reply, lost: set<CalcId>)
    requires CapInv(s, lost) && Possible(s, Store(a, expires, r)) && !r.ok
    ensures var s', c := StoreStep(s, a, expires, r), s.actors[a].id;
            && s'.rows == s.rows
            && CapInv(s', lost + {c})
            && (c !in RunningRows(s.rows) || !Covering(s.actors[a].m.pc) || OtherCovers(s.actors, a) ==> CapInv(s', lost))
  {
    var x, s' := s.actors[a], StoreStep(s, a, expires, r);
    MoveKeepsPermits(s, a, Stored(expires, r), lost);
    forall c | c in RunningRows(s'.rows) && c !in lost && (c != x.id || !Covering(x.m.pc) || OtherCovers(s.actors, a))
      ensures exists b :: b in s'.actors && s'.actors[b].id == c && Covering(s'.actors[b].m.pc)
    {
      var b :| b != a && b in s.actors && s.actors[b].id == c && Covering(s.actors[b].m.pc);
      assert s'.actors[b] == s.actors[b];
    }
  }

  /** The refused write of an outcome. */
  predicate Refused(s: State, l: Label) {
    l.Store? && !l.r.ok && l.a in s.actors && Covering(s.actors[l.a].m.pc)
  }

  /** Nobody else covers for the actor, so the row stays running and nobody will end it. */
  ghost predicate Loses(s: State, l: Label) {
    Refused(s, l) && s.actors[l.a].id in RunningRows(s.rows) && !OtherCovers(s.actors, l.a)
  }

  /**
   The exact condition: a statement of an actor leaves every running row covered if and only if it went through, or its
   row was not running, or another actor still covers the row. The handlers ignore a refused statement.
   */
  lemma LostOutcomeUncovers(s: State, a: ActorId, expires: int, r: Reply)
    requires CapInv(s, {}) && Possible(s, Store(a, expires, r))
    ensures var s' := StoreStep(s, a, expires, r);
            Covered(s'.rows, s'.actors, {}) <==>
            r.ok || s.actors[a].id !in RunningRows(s.rows) || OtherCovers(s.actors, a)
  {
    var x, s' := s.actors[a], StoreStep(s, a, expires, r);
    if r.ok {
      StoreKeeps(s, a, expires, r, {});
    } else {
      RefusedStore(s, a, expires, r, {});
      if x.id in RunningRows(s.rows) && !OtherCovers(s.actors, a) {
        RefusedStops(x.m, expires, r);
        assert forall b :: b in s'.actors && s'.actors[b].id == x.id ==> !Covering(s'.actors[b].m.pc);
      }
    }
  }

  lemma RefusedStops(m: Machine, expires: int, r: Reply)
    requires AwaitsStore(m) && HeldFits(m) && !r.ok
    ensures !Covering(AfterStore(m, expires, r).pc)
  {
  }

  lemma DeliveredKeeps(s: State, a: ActorId, lost: set<CalcId>)
    requires CapInv(s, lost)
    ensures CapInv(Delivered(s, a), lost)
  {
  }

  lemma SpawnKeeps(s: State, run: RunId, lost: set<CalcId>)
    requires CapInv(s, lost) && Possible(s, Spawn(run))
    requires forall a: ActorId :: a in s.actors && a.Child? ==> a.run in s.runActors
    ensures CapInv(SpawnStep(s, run), lost)
  {
    assert forall a :: a in Children(s, run) ==> a !in s.actors;
    FrameKeeps(s, SpawnStep(s, run), lost);
  }

  lemma TakeKeeps(s: State, run: RunId, lost: set<CalcId>)
    requires CapInv(s, lost) && Possible(s, RunTake(run))
    ensures CapInv(TakeStep(s, run), lost)
  {
    var ra := s.runActors[run];
    var ra' := ra.(kids := ra.kids - {ra.queue[0]}, finished := ra.finished + 1, queue := ra.queue[1..], pc := Reading);
    HangUpExtends(With(s, run, ra'), Child(run, ra.queue[0]));
    FrameKeeps(s, TakeStep(s, run), lost);
  }

  lemma TellKeeps(s: State, run: RunId, c: CalcId, lost: set<CalcId>)
    requires CapInv(s, lost) && Possible(s, RunTell(run, c))
    ensures CapInv(TellStep(s, run, c), lost)
  {
    var ra := s.runActors[run];
    PostExtends(With(s, run, ra.(pc := Telling(ra.pc.todo - {c}))), Child(run, c), Cancel);
    FrameKeeps(s, TellStep(s, run, c), lost);
  }

  lemma LeaveKeeps(s: State, run: RunId, lost: set<CalcId>)
    requires CapInv(s, lost) && Possible(s, RunLeave(run))
    ensures CapInv(LeaveStep(s, run), lost)
  {
    FrameKeeps(s, LeaveStep(s, run), lost);
  }

  lemma RunActorKeeps(s: State, l: Label, lost: set<CalcId>)
    requires CapInv(s, lost) && Possible(s, l) && OfRunActor(l) && !l.Spawn?
    ensures CapInv(Next(s, l), lost)
  {
    hide CapInv, TakeStep, TellStep, LeaveStep;
    match l {
      case RunTake(run) => TakeKeeps(s, run, lost);
      case RunTell(run, c) => TellKeeps(s, run, c, lost);
      case RunLeave(run) => LeaveKeeps(s, run, lost);
      case RunRead(run) => FrameKeeps(s, ReadStep(s, run), lost);
      case RunStore(run, ok) => FrameKeeps(s, StatusStep(s, run, ok), lost);
      case RunCancel(run) => FrameKeeps(s, Next(s, l), lost);
    }
  }

  lemma RespawnKeeps(s: State, n: nat, lost: set<CalcId>)
    requires CapInv(s, lost) && Possible(s, Respawn(n))
    ensures CapInv(RespawnStep(s, n), lost)
  {
    var x := s.fetched.value;
    var s' := if x.id in s.extras then HangUp(s, s.extras[x.id]) else s;
    if x.id in s.extras { HangUpExtends(s, s.extras[x.id]); }
    FrameKeeps(s, s', lost);
    ExtendsOne(s'.actors, Extra(n), NewActor(x.id, x.attempt, x.max, s.cfg, "watchdog-" + x.id));
    FrameKeeps(s', RespawnStep(s, n), lost);
  }

  lemma CancelKeeps(s: State, c: CalcId, lost: set<CalcId>)
    requires CapInv(s, lost) && c in s.extras
    ensures CapInv(CancelStep(s, c), lost) && CapInv(DropStep(s, c), lost)
  {
    var a := s.extras[c];
    PostExtends(s, a, Cancel);
    FrameKeeps(s, Post(s, a, Cancel), lost);
    HangUpExtends(Post(s, a, Cancel), a);
    FrameKeeps(Post(s, a, Cancel), CancelStep(s, c), lost);
    HangUpExtends(s, a);
    FrameKeeps(s, DropStep(s, c), lost);
  }

  lemma UpdateKeeps(s: State, c: CalcId, w: Write, at: int, lost: set<CalcId>)
    requires CapInv(s, lost) && !w.Started?
    ensures CapInv(Update(s, c, w, at), lost)
  {
    PutShrinks(s.rows, c, w, at);
    FrameKeeps(s, Update(s, c, w, at), lost);
  }

  lemma ReapKeeps(s: State, x: Seen, r: Reply, lost: set<CalcId>)
    requires CapInv(s, lost)
    ensures CapInv(ReapStep(s, x, r), lost)
  {
    PutShrinks(s.rows, x.id, ReapWrite(x.attempt, x.max, s.scannedAt), r.at);
    FrameKeeps(s, ReapStep(s, x, r), lost);
  }

  lemma AddCalcKeeps(s: State, c: CalcId, run: RunId, max: nat, at: int, lost: set<CalcId>)
    requires CapInv(s, lost)
    ensures CapInv(s.(rows := s.rows[c := NewRow(run, max, at)]), lost)
  {
    hide CapInv;
    var s' := s.(rows := s.rows[c := NewRow(run, max, at)]);
    assert RunningRows(s'.rows) <= RunningRows(s.rows);
    FrameKeeps(s, s', lost);
  }

  lemma SweepShrinks(t: Table, at: int)
    ensures RunningRows(Sweep(t, at)) <= RunningRows(t)
  {
  }

  lemma SweepKeeps(s: State, at: int, lost: set<CalcId>)
    requires CapInv(s, lost)
    ensures CapInv(s.(rows := Sweep(s.rows, at)), lost)
  {
    hide CapInv, Sweep;
    SweepShrinks(s.rows, at);
    FrameKeeps(s, s.(rows := Sweep(s.rows, at)), lost);
  }

  /** Steps that change neither a calculation nor an actor. */
  lemma RestKeeps(s: State, s': State, lost: set<CalcId>)
    requires CapInv(s, lost)
    requires s'.rows == s.rows && s'.actors == s.actors && s'.free == s.free && s'.capacity == s.capacity
    ensures CapInv(s', lost)
  {
  }

  /** Child identifiers belong to run actors; needed to know that spawning adds actors and replaces none. */
  ghost predicate ChildrenKnown(s: State) {
    forall a: ActorId :: a in s.actors && a.Child? ==> a.run in s.runActors
  }

  lemma NextKeepsChildrenKnown(s: State, l: Label)
    requires ChildrenKnown(s) && Possible(s, l)
    ensures ChildrenKnown(Next(s, l))
  {
    if OfActor(l) {
      assert Next(s, l).actors.Keys == s.actors.Keys;
    } else if l.Spawn? {
      assert forall a :: a in Children(s, l.run) ==> a.Child? && a.run == l.run;
    } else if OfRunActor(l) {
      assert Next(s, l).actors.Keys == s.actors.Keys && s.runActors.Keys <= Next(s, l).runActors.Keys;
    } else {
      OthersKeepChildrenKnown(s, l);
    }
  }

  lemma OthersKeepChildrenKnown(s: State, l: Label)
    requires ChildrenKnown(s) && Possible(s, l) && !OfActor(l) && !OfRunActor(l)
    ensures ChildrenKnown(Next(s, l))
  {
  }

  lemma AgentKeeps(s: State, l: Label, lost: set<CalcId>)
    requires CapInv(s, lost) && Possible(s, l) && OfActor(l) && (l.Store? ==> l.r.ok)
    ensures CapInv(Next(s, l), lost)
  {
    hide CapInv, Move, DeliverStep, StoreStep, Delivered, Step;
    match l {
      case Deliver(a) => DeliverKeeps(s, a, lost);
      case Grant(a) => MoveKeeps(s, a, Permit(true), lost);
      case Store(a, expires, r) => StoreKeeps(s, a, expires, r, lost);
      case Think(a, i) => MoveKeeps(s, a, i, lost);
      case Report(a) =>
        MoveKeeps(s, a, Sent, lost);
        DeliveredKeeps(Move(s, a, Sent), a, lost);
    }
  }

  lemma OthersKeep(s: State, l: Label, lost: set<CalcId>)
    requires CapInv(s, lost) && ChildrenKnown(s) && Possible(s, l) && !OfActor(l) && !l.Crash?
    ensures CapInv(Next(s, l), lost)
  {
    if OfRunActor(l) && !l.Spawn? {
      RunActorKeeps(s, l, lost);
    } else if l.AddRun? || l.CancelRun? || l.Fetch? || l.Scan? {
      hide CapInv;
      RestKeeps(s, Next(s, l), lost);
    } else {
      hide CapInv, SpawnStep, RespawnStep, CancelStep, DropStep, ReapStep, Update, Sweep;
      match l {
        case Spawn(run) => SpawnKeeps(s, run, lost);
        case Heartbeat(c, expires, at) => UpdateKeeps(s, c, Beat(expires), at, lost);
        case AddCalc(c, run, max, at) => AddCalcKeeps(s, c, run, max, at, lost);
        case ResetCalc(c, r) => UpdateKeeps(s, c, Pending, r.at, lost);
        case Respawn(n) => RespawnKeeps(s, n, lost);
        case CancelCalc(c) => CancelKeeps(s, c, lost);
        case DropCalc(c) => CancelKeeps(s, c, lost);
        case Reap(x, r) => ReapKeeps(s, x, r, lost);
        case SweepAll(at) => SweepKeeps(s, at, lost);
      }
    }
  }

  // ── The size of the pool ───────────────────────────────────────────────────

  lemma {:induction false} CapacityIsFixed(s: State, ls: seq<Label>)
    requires Run(s, ls).Some?
    ensures Run(s, ls).value.capacity == s.capacity
    decreases |ls|
  {
    hide Next, Possible;
    if ls != [] {
      NextKeepsLimit(s, ls[0]);
      CapacityIsFixed(Next(s, ls[0]), ls[1..]);
    }
  }

  lemma NextKeepsLimit(s: State, l: Label)
    requires Possible(s, l)
    ensures Next(s, l).capacity == s.capacity
  {
    hide Next, Possible;
    if OfActor(l) {
      ActorsKeepLimit(s, l);
    } else if OfRunActor(l) {
      RunActorsKeepLimit(s, l);
    } else {
      OthersKeepLimit(s, l);
    }
  }

  lemma ActorsKeepLimit(s: State, l: Label)
    requires Possible(s, l) && OfActor(l)
    ensures Next(s, l).capacity == s.capacity
  {
    hide Step, Put, Sweep, Enabled, PendingWrite, Children, ActiveOf, StatusesOf, HangUpAll, NewActor;
  }

  lemma RunActorsKeepLimit(s: State, l: Label)
    requires Possible(s, l) && OfRunActor(l)
    ensures Next(s, l).capacity == s.capacity
  {
    hide Step, Put, Sweep, Enabled, PendingWrite, Children, ActiveOf, StatusesOf, HangUpAll, NewActor;
  }

  lemma OthersKeepLimit(s: State, l: Label)
    requires Possible(s, l) && !OfActor(l) && !OfRunActor(l)
    ensures Next(s, l).capacity == s.capacity
  {
    hide Step, Put, Sweep, Enabled, PendingWrite, Children, ActiveOf, StatusesOf, HangUpAll, NewActor;
  }

  // ── The bound ──────────────────────────────────────────────────────────────

  /** How many steps of a list lose a row. */
  ghost function Losses(s: State, ls: seq<Label>): (n: nat)
    requires Run(s, ls).Some?
    ensures n <= RefusedOutcomes(s, ls)
    decreases |ls|
  {
    if ls == [] then 0 else (if Loses(s, ls[0]) then 1 else 0) + Losses(Next(s, ls[0]), ls[1..])
  }

  /** How many writes of an outcome are refused in a list of steps. */
  function RefusedOutcomes(s: State, ls: seq<Label>): nat
    requires Run(s, ls).Some?
    decreases |ls|
  {
    if ls == [] then 0 else (if Refused(s, ls[0]) then 1 else 0) + RefusedOutcomes(Next(s, ls[0]), ls[1..])
  }

  /** One step adds at most the row it loses to those nobody covers. */
  lemma NextKeepsCapacity(s: State, l: Label, lost: set<CalcId>) returns (lost': set<CalcId>)
    requires CapInv(s, lost) && ChildrenKnown(s) && Possible(s, l) && !l.Crash?
    ensures CapInv(Next(s, l), lost') && |lost'| <= |lost| + if Loses(s, l) then 1 else 0
  {
    hide CapInv, Run;
    lost' := lost;
    if l.Store? && !l.r.ok {
      RefusedStore(s, l.a, l.expires, l.r, lost);
      if Loses(s, l) { lost' := lost + {s.actors[l.a].id}; }
    } else if OfActor(l) {
      AgentKeeps(s, l, lost);
    } else {
      OthersKeep(s, l, lost);
    }
  }

  lemma {:induction false} RunKeepsCapacity(s: State, ls: seq<Label>, lost: set<CalcId>) returns (lost': set<CalcId>)
    requires CapInv(s, lost) && ChildrenKnown(s) && Run(s, ls).Some?
    requires forall l :: l in ls ==> !l.Crash?
    ensures CapInv(Run(s, ls).value, lost') && |lost'| <= |lost| + Losses(s, ls)
    decreases |ls|
  {
    hide CapInv, ChildrenKnown, Next, Possible, Loses;
    lost' := lost;
    if ls != [] {
      assert ls[0] in ls;
      lost' := NextKeepsCapacity(s, ls[0], lost);
      NextKeepsChildrenKnown(s, ls[0]);
      lost' := RunKeepsCapacity(Next(s, ls[0]), ls[1..], lost');
    }
  }

  /** An engine at rest: no running row, no actor and a full pool. */
  predicate AtRest(s: State) { s.actors == map[] && s.free == s.capacity && RunningRows(s.rows) == {} }

  /**
   With any faults but a crash, the running rows outnumber the worker permits by no more than the outcomes whose write was
   refused while nobody else covered the row.
   */
  lemma RunningUnderFaults(s: State, ls: seq<Label>)
    requires AtRest(s) && Run(s, ls).Some? && forall l :: l in ls ==> !l.Crash?
    ensures var s' := Run(s, ls).value;
            && |RunningRows(s'.rows)| <= s.capacity + Losses(s, ls)
            && Losses(s, ls) <= RefusedOutcomes(s, ls)
            && 0 <= s'.free <= s'.capacity == s.capacity
  {
    assert Holders(s.actors) == {};
    CapacityIsFixed(s, ls);
    var lost := RunKeepsCapacity(s, ls, {});
    CoveredRowsFit(Run(s, ls).value, lost);
  }

  lemma {:induction false} FaultFreeRefusesNothing(s: State, ls: seq<Label>)
    requires Run(s, ls).Some? && forall l :: l in ls ==> FaultFree(l)
    ensures RefusedOutcomes(s, ls) == 0
    decreases |ls|
  {
    hide Next, Possible;
    if ls != [] {
      assert ls[0] in ls && forall l :: l in ls[1..] ==> l in ls;
      FaultFreeRefusesNothing(Next(s, ls[0]), ls[1..]);
    }
  }

  /**
   From rest, in every interleaving of actors (several on one row included), watchdog, retries, cancels and sweeps in
   which the actors' statements go through, the running rows never outnumber the worker permits.
   */
  lemma RunningNeverExceedsCapacity(s: State, ls: seq<Label>)
    requires AtRest(s) && Run(s, ls).Some? && forall l :: l in ls ==> FaultFree(l)
    ensures var s' := Run(s, ls).value;
            |RunningRows(s'.rows)| <= s.capacity && 0 <= s'.free <= s.capacity
  {
    FaultFreeRefusesNothing(s, ls);
    RunningUnderFaults(s, ls);
  }
}
