/**
 Whom a request to cancel one calculation reaches (crates/runsd/src/actor/supervisor.rs:303-308): the actor the
 supervisor itself spawned on it, and never the child of a run actor.
 */
module EngineCancels {
  import opened Base
  import opened Model
  import opened Rows
  import opened CalcMachine
  import opened Engine
  import EngineTraces

  /** The supervisor's map holds actors it spawned, each on the calculation it is filed under. */
  ghost predicate ExtrasOk(s: State) {
    forall c :: c in s.extras ==>
      s.extras[c].Extra? && s.extras[c] in s.actors && s.actors[s.extras[c]].id == c
  }

  /** The actors of the supervisor stay and keep their calculation. */
  ghost predicate ExtrasStay(s: State, s': State) {
    forall a: ActorId :: a in s.actors && a.Extra? ==> a in s'.actors && s'.actors[a].id == s.actors[a].id
  }

  lemma ActorsKeepExtras(s: State, l: Label)
    requires Possible(s, l) && OfActor(l)
    ensures ExtrasStay(s, Next(s, l)) && Next(s, l).extras == s.extras
  {
    hide Step, Put, PendingWrite, Enabled;
  }

  lemma SpawnKeepsExtras(s: State, run: RunId)
    ensures ExtrasStay(s, SpawnStep(s, run)) && SpawnStep(s, run).extras == s.extras
  {
    assert forall a :: a in Children(s, run) ==> a.Child?;
  }

  lemma RunActorsKeepExtras(s: State, l: Label)
    requires Possible(s, l) && OfRunActor(l)
    ensures ExtrasStay(s, Next(s, l)) && Next(s, l).extras == s.extras
  {
    hide StatusesOf, DeriveOfSet, SpawnStep, Children;
    if l.Spawn? { SpawnKeepsExtras(s, l.run); }
  }

  lemma SupervisorKeepsExtras(s: State, l: Label)
    requires ExtrasOk(s) && Possible(s, l) && (l.Respawn? || l.CancelCalc? || l.DropCalc? || l.Crash?)
    ensures ExtrasOk(Next(s, l))
  {
  }

  lemma OthersKeepExtras(s: State, l: Label)
    requires Possible(s, l) && !OfActor(l) && !OfRunActor(l)
    requires !l.Respawn? && !l.CancelCalc? && !l.DropCalc? && !l.Crash?
    ensures ExtrasStay(s, Next(s, l)) && Next(s, l).extras == s.extras
  {
    hide Put, Sweep;
  }

  lemma NextKeepsExtras(s: State, l: Label)
    requires ExtrasOk(s) && Possible(s, l)
    ensures ExtrasOk(Next(s, l))
  {
    hide Next, Possible;
    if OfActor(l) {
      ActorsKeepExtras(s, l);
    } else if OfRunActor(l) {
      RunActorsKeepExtras(s, l);
    } else if l.Respawn? || l.CancelCalc? || l.DropCalc? || l.Crash? {
      SupervisorKeepsExtras(s, l);
    } else {
      OthersKeepExtras(s, l);
    }
  }

  lemma {:induction false} RunKeepsExtras(s: State, ls: seq<Label>)
    requires ExtrasOk(s) && Run(s, ls).Some?
    ensures ExtrasOk(Run(s, ls).value)
    decreases |ls|
  {
    hide Next, Possible, ExtrasOk;
    if ls != [] {
      NextKeepsExtras(s, ls[0]);
      RunKeepsExtras(Next(s, ls[0]), ls[1..]);
    }
  }

  // ── The request ────────────────────────────────────────────────────────────

  /** What the request does: a calculation that is not in the map is answered as cancelled all the same. */
  function Request(s: State, c: CalcId): State { if c in s.extras then Next(s, CancelCalc(c)) else s }

  /** Actor `a` has a cancel in its mailbox that it had not before, and still has a mailbox. */
  predicate Hears(s: State, s': State, a: ActorId) {
    a in s.actors && a in s'.actors && !s.actors[a].m.pc.Done? && s'.actors[a].mailbox == s.actors[a].mailbox + [Cancel]
  }

  /** The supervisor's actor on this calculation still receives. */
  predicate Reachable(s: State, c: CalcId) {
    c in s.extras && s.extras[c] in s.actors && !s.actors[s.extras[c]].m.pc.Done?
  }

  lemma RequestReaches(s: State, c: CalcId)
    requires ExtrasOk(s)
    ensures forall a :: a in s.actors && (c !in s.extras || a != s.extras[c]) ==>
              a in Request(s, c).actors && Request(s, c).actors[a] == s.actors[a]
    ensures (exists a :: Hears(s, Request(s, c), a)) <==> Reachable(s, c)
  {
    var s' := Request(s, c);
    if a :| Hears(s, s', a) {
      assert |s'.actors[a].mailbox| == |s.actors[a].mailbox| + 1;
    }
    if Reachable(s, c) { assert Hears(s, s', s.extras[c]); }
  }

  /**
   In every reachable state a request leaves every child of a run actor, and every actor on another calculation, as it
   was; and somebody hears it if and only if the supervisor's own actor on the calculation still receives.
   */
  lemma CancelReachesOnlyOwnActors(capacity: nat, cfg: RetryConfig, ls: seq<Label>, c: CalcId)
    requires Run(Boot(capacity, cfg), ls).Some?
    ensures var s := Run(Boot(capacity, cfg), ls).value;
            var s' := Request(s, c);
            && (forall a :: a in s.actors && (a.Child? || s.actors[a].id != c) ==>
                  a in s'.actors && s'.actors[a] == s.actors[a])
            && ((exists a :: Hears(s, s', a)) <==> Reachable(s, c))
  {
    hide Run, Next, Possible, Hears;
    RunKeepsExtras(Boot(capacity, cfg), ls);
    RequestReaches(Run(Boot(capacity, cfg), ls).value, c);
  }

  /**
   A run of one calculation, submitted if there is a permit: its actor is at work on it, and a request to cancel it
   changes nothing at all.
   */
  lemma ChildIsNotReached(capacity: nat, cfg: RetryConfig) returns (ls: seq<Label>, c: CalcId, a: ActorId)
    ensures var r := Run(Boot(capacity, cfg), ls);
            && r.Some? && a in r.value.actors && a.Child? && r.value.actors[a].id == c
            && r.value.actors[a].m.pc == (if capacity >= 1 then Submitting else Idle)
            && c !in r.value.extras && Request(r.value, c) == r.value
  {
    hide Run, Next, Possible;
    var s;
    c, a := EngineTraces.Id(0), Child(EngineTraces.RUN, EngineTraces.Id(0));
    ls, s := EngineTraces.Fill(capacity, cfg, 1, if capacity >= 1 then 1 else 0);
    assert EngineTraces.Kid(s, 0) && if capacity >= 1 then EngineTraces.Works(s, 0) else EngineTraces.Waits(s, 0);
  }
}
