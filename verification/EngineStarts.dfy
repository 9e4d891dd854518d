/**
 Retries, as documented and as they happen. An actor is told to start once, when it is spawned; nobody sends it
 another `Start`. So the receive loop never comes round to a second submit, and whatever budget a transient error
 leaves is only ever used by a further actor that the supervisor puts on the row.
 */
module EngineStarts {
  import opened Base
  import opened Model
  import opened Rows
  import opened CalcMachine
  import opened CalcLog
  import opened Engine
  import EngineRows

  /** Starts taken and starts waiting. */
  predicate StartedOnce(x: Actor) { Read(x.m.log).starts + multiset(x.mailbox)[Start] <= 1 }

  ghost predicate StartsInv(actors: map<ActorId, Actor>) { forall a :: a in actors ==> StartedOnce(actors[a]) }

  lemma StepStarts(m: Machine, i: Input)
    requires Enabled(m, i)
    ensures Read(Step(m, i).log).starts == Read(m.log).starts + if i == Recv(Some(Start)) then 1 else 0
  {
    hide Step;
    StoryOfStep(m, i);
    TellCounts(Read(m.log), m, i);
  }

  lemma TellCounts(t: Story, m: Machine, i: Input)
    requires Enabled(m, i)
    ensures Tell(t, m, i).starts == t.starts + if i == Recv(Some(Start)) then 1 else 0
  {
  }

  lemma MoveKeeps(s: State, a: ActorId, i: Input)
    requires StartsInv(s.actors) && a in s.actors && Enabled(s.actors[a].m, i) && i != Recv(Some(Start))
    ensures StartsInv(Move(s, a, i).actors)
  {
    StepStarts(s.actors[a].m, i);
  }

  lemma DeliverKeeps(s: State, a: ActorId)
    requires StartsInv(s.actors) && Possible(s, Deliver(a))
    ensures StartsInv(DeliverStep(s, a).actors)
  {
    hide StartedOnce, Step;
    HearingKeeps(s.actors[a]);
  }

  lemma HearingKeeps(x: Actor)
    requires StartedOnce(x) && Enabled(x.m, Recv(Hears(x)))
    ensures StartedOnce(x.(m := Step(x.m, Recv(Hears(x))), mailbox := if x.mailbox == [] then [] else x.mailbox[1..]))
  {
    StepStarts(x.m, Recv(Hears(x)));
    hide Step, Read;
    if x.mailbox != [] {
      assert x.mailbox == [x.mailbox[0]] + x.mailbox[1..];
      assert multiset(x.mailbox)[Start] == multiset(x.mailbox[1..])[Start] + if x.mailbox[0] == Start then 1 else 0;
    }
  }

  lemma FreshKeeps(c: CalcId, attempt: nat, max: nat, cfg: RetryConfig, owner: string)
    ensures StartedOnce(NewActor(c, attempt, max, cfg, owner))
  {
    assert Read([]).starts == 0;
  }

  lemma PostKeeps(s: State, a: ActorId)
    requires StartsInv(s.actors)
    ensures StartsInv(Post(s, a, Cancel).actors) && StartsInv(HangUp(s, a).actors)
  {
    if a in s.actors {
      assert multiset(s.actors[a].mailbox + [Cancel])[Start] == multiset(s.actors[a].mailbox)[Start];
    }
  }

  lemma AgentKeeps(s: State, l: Label)
    requires StartsInv(s.actors) && Possible(s, l) && OfActor(l)
    ensures StartsInv(Next(s, l).actors)
  {
    hide StartsInv, Move, DeliverStep, Step;
    match l {
      case Deliver(a) => DeliverKeeps(s, a);
      case Grant(a) => MoveKeeps(s, a, Permit(true));
      case Store(a, expires, r) => MoveKeeps(s, a, Stored(expires, r));
      case Think(a, i) => MoveKeeps(s, a, i);
      case Report(a) => MoveKeeps(s, a, Sent);
    }
  }

  lemma SpawnKeeps(s: State, run: RunId)
    requires StartsInv(s.actors)
    ensures StartsInv(SpawnStep(s, run).actors)
  {
    forall a | a in Children(s, run) ensures StartedOnce(Children(s, run)[a]) {
      FreshKeeps(a.id, s.rows[a.id].attempt, s.rows[a.id].maxAttempts, s.cfg, "worker-" + run);
    }
  }

  lemma RunActorKeeps(s: State, l: Label)
    requires StartsInv(s.actors) && Possible(s, l) && OfRunActor(l)
    ensures StartsInv(Next(s, l).actors)
  {
    match l {
      case Spawn(run) => SpawnKeeps(s, run);
      case RunTake(run) => PostKeeps(With(s, run, TakeStep(s, run).runActors[run]), Child(run, s.runActors[run].queue[0]));
      case RunTell(run, c) => PostKeeps(With(s, run, TellStep(s, run, c).runActors[run]), Child(run, c));
      case _ =>
    }
  }

  lemma SupervisorKeeps(s: State, l: Label)
    requires StartsInv(s.actors) && Possible(s, l) && !OfActor(l) && !OfRunActor(l)
    ensures StartsInv(Next(s, l).actors)
  {
    if l.Respawn? {
      RespawnKeeps(s, l.n);
    } else if l.CancelCalc? || l.DropCalc? {
      CancelKeeps(s, l.c);
    } else {
      OthersKeep(s, l);
    }
  }

  lemma RespawnKeeps(s: State, n: nat)
    requires StartsInv(s.actors) && Possible(s, Respawn(n))
    ensures StartsInv(RespawnStep(s, n).actors)
  {
    hide StartedOnce, NewActor, Post, HangUp;
    var x := s.fetched.value;
    FreshKeeps(x.id, x.attempt, x.max, s.cfg, "watchdog-" + x.id);
    if x.id in s.extras { PostKeeps(s, s.extras[x.id]); }
  }

  lemma CancelKeeps(s: State, c: CalcId)
    requires StartsInv(s.actors) && c in s.extras
    ensures StartsInv(CancelStep(s, c).actors) && StartsInv(DropStep(s, c).actors)
  {
    hide StartsInv, Post, HangUp;
    PostKeeps(s, s.extras[c]);
    PostKeeps(Post(s, s.extras[c], Cancel), s.extras[c]);
  }

  lemma OthersKeep(s: State, l: Label)
    requires StartsInv(s.actors) && Possible(s, l) && !OfActor(l) && !OfRunActor(l)
    requires !l.Respawn? && !l.CancelCalc? && !l.DropCalc?
    ensures StartsInv(Next(s, l).actors)
  {
    hide StartedOnce, Put, Sweep;
  }

  lemma {:induction false} RunKeepsStarts(s: State, ls: seq<Label>)
    requires StartsInv(s.actors) && Run(s, ls).Some?
    ensures StartsInv(Run(s, ls).value.actors)
    decreases |ls|
  {
    if ls != [] {
      var l := ls[0];
      if OfActor(l) { AgentKeeps(s, l); } else if OfRunActor(l) { RunActorKeeps(s, l); } else { SupervisorKeeps(s, l); }
      RunKeepsStarts(Next(s, l), ls[1..]);
    }
  }

  /** In every reachable state every actor has submitted at most once, whatever attempts its row has left. */
  lemma EveryActorSubmitsAtMostOnce(capacity: nat, cfg: RetryConfig, ls: seq<Label>, a: ActorId)
    requires Run(Boot(capacity, cfg), ls).Some? && a in Run(Boot(capacity, cfg), ls).value.actors
    ensures Read(Run(Boot(capacity, cfg), ls).value.actors[a].m.log).submits <= 1
  {
    var s := Run(Boot(capacity, cfg), ls).value;
    RunKeepsStarts(Boot(capacity, cfg), ls);
    EngineRows.ReachableRowsOk(capacity, cfg, ls);
    assert StartedOnce(s.actors[a]) && Ok(s.actors[a].m);
  }
}
