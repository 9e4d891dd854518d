/** The bounded pool of worker permits (crates/runsd/src/actor/worker_pool.rs). */
module WorkerPools {
  import opened Base
  import opened CalcMachine
  import opened Engine
  import opened EngineCapacity

  /** A counting semaphore. `holders` is who has a permit in scope. */
  class WorkerPool {
    const capacity: nat
    var free: nat
    ghost var holders: set<ActorId>

    ghost predicate Valid()
      reads this
    {
      free + |holders| == capacity
    }

    constructor (capacity: nat)
      ensures Valid() && this.capacity == capacity && free == capacity && holders == {}
    {
      this.capacity, free, holders := capacity, capacity, {};
    }

    /** The pool is the semaphore of an engine state: as many free permits, and the same actors hold the others. */
    ghost predicate Mirrors(s: State)
      reads this
    {
      capacity == s.capacity && free == s.free && holders == Holders(s.actors)
    }

    /** Taking a permit once one is free; in the engine, the step that grants it. */
    method Acquire(ghost a: ActorId)
      requires Valid() && free > 0 && a !in holders
      modifies this
      ensures Valid() && holders == old(holders) + {a} && free == old(free) - 1
      ensures forall s :: old(Mirrors(s)) && Possible(s, Grant(a)) ==> Mirrors(Next(s, Grant(a)))
    {
      free := free - 1;
      holders := holders + {a};
      forall s | old(Mirrors(s)) && Possible(s, Grant(a)) ensures Mirrors(Next(s, Grant(a))) {
        MoveChangesOne(s, a, Permit(true));
      }
    }

    /** The permit goes out of scope; in the engine, whichever step of the actor that is. */
    method Drop(ghost a: ActorId)
      requires Valid() && a in holders
      modifies this
      ensures Valid() && holders == old(holders) - {a} && free == old(free) + 1
      ensures forall s, i :: old(Mirrors(s)) && Enabled(s.actors[a].m, i) && !Step(s.actors[a].m, i).held ==>
                Mirrors(Move(s, a, i))
    {
      free := free + 1;
      holders := holders - {a};
      forall s, i | old(Mirrors(s)) && Enabled(s.actors[a].m, i) && !Step(s.actors[a].m, i).held
        ensures Mirrors(Move(s, a, i))
      {
        MoveChangesOne(s, a, i);
      }
    }
  }

  lemma MoveChangesOne(s: State, a: ActorId, i: Input)
    requires a in s.actors && Enabled(s.actors[a].m, i)
    ensures var before, after := s.actors[a].m.held, Step(s.actors[a].m, i).held;
            && Holders(Move(s, a, i).actors) == Holders(s.actors) - {a} + (if after then {a} else {})
            && Move(s, a, i).free == s.free + (if before then 1 else 0) - (if after then 1 else 0)
  {
    hide Step;
  }

  /** With the permits of a state the capacity argument covers, a pool is in balance exactly if it mirrors the state. */
  lemma PoolCountsPermits(p: WorkerPool, s: State, lost: set<CalcId>)
    requires CapInv(s, lost) && p.capacity == s.capacity && p.holders == Holders(s.actors)
    ensures p.Valid() <==> p.Mirrors(s)
  {
  }
}
