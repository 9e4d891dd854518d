/** Runs of the engine built step by step, as inputs that show where a property fails. */
module EngineTraces {
  import opened Base
  import opened Model
  import opened Rows
  import opened CalcMachine
  import opened Engine
  import opened EngineCapacity
  import EngineRuns

  // ── Lists of steps ─────────────────────────────────────────────────────────

  lemma {:induction false} RunAppend(s: State, xs: seq<Label>, ys: seq<Label>)
    ensures Run(s, xs + ys) == if Run(s, xs).Some? then Run(Run(s, xs).value, ys) else None
    decreases |xs|
  {
    hide Next, Possible;
    if xs == [] {
      assert xs + ys == ys;
    } else {
      assert (xs + ys)[0] == xs[0] && (xs + ys)[1..] == xs[1..] + ys;
      if Possible(s, xs[0]) { RunAppend(Next(s, xs[0]), xs[1..], ys); }
    }
  }

  /** No statement is refused, nothing crashes, and neither the watchdog nor a retry reads or writes a calculation. */
  predicate Harmless(l: Label) {
    (l.Store? ==> l.r.ok) && (l.RunStore? ==> l.ok) && !l.Crash? && !l.ResetCalc? && !l.Fetch? && !l.Reap?
  }

  predicate Clean(ls: seq<Label>) { forall i :: 0 <= i < |ls| ==> Harmless(ls[i]) }

  /** A list of steps from `s0`, and one more. */
  lemma Then(s0: State, ls: seq<Label>, s: State, l: Label) returns (ls': seq<Label>, s': State)
    requires Run(s0, ls) == Some(s) && Possible(s, l)
    ensures s' == Next(s, l) && Run(s0, ls') == Some(s') && (Clean(ls) && Harmless(l) ==> Clean(ls'))
  {
    hide Next, Possible;
    ls', s' := ls + [l], Next(s, l);
    RunAppend(s0, ls, [l]);
    assert [l][1..] == [];
    assert Run(Next(s, l), []) == Some(Next(s, l));
  }

  // ── One actor at work ──────────────────────────────────────────────────────

  /** Only actor `a`, its row and the pool change. */
  ghost predicate Only(s: State, s': State, a: ActorId) {
    && a in s.actors && a in s'.actors
    && s' == s.(actors := s.actors[a := s'.actors[a]], rows := s'.rows, free := s'.free)
    && s'.actors[a].id == s.actors[a].id && s'.actors[a].open == s.actors[a].open
    && s'.rows.Keys == s.rows.Keys
    && (forall c :: c in s.rows && c != s.actors[a].id ==> s'.rows[c] == s.rows[c])
    && (forall c :: c in s.rows ==> s'.rows[c].runId == s.rows[c].runId)
  }

  lemma OnlyTwice(s: State, s': State, s'': State, a: ActorId)
    requires Only(s, s', a) && Only(s', s'', a)
    ensures Only(s, s'', a)
  {
    assert s''.actors == s.actors[a := s''.actors[a]];
  }

  lemma MoveOnly(s: State, a: ActorId, i: Input)
    requires a in s.actors && Enabled(s.actors[a].m, i)
    ensures var s' := Move(s, a, i);
            && Only(s, s', a) && s'.rows == s.rows
            && s'.actors[a] == s.actors[a].(m := Step(s.actors[a].m, i))
            && s'.free == s.free + (if s.actors[a].m.held then 1 else 0) - (if s'.actors[a].m.held then 1 else 0)
  {
    hide Step;
  }

  lemma Delivers(s: State, a: ActorId)
    requires a in s.actors && s.actors[a].m.pc.Idle? && s.actors[a].mailbox != [] && s.actors[a].mailbox[0] == Start
    ensures Possible(s, Deliver(a))
    ensures var s', x := Next(s, Deliver(a)), s.actors[a];
            && Only(s, s', a) && s'.rows == s.rows && s'.free == s.free
            && s'.actors[a].m == x.m.(pc := Acquiring, log := x.m.log + [Took(Start)])
            && s'.actors[a].mailbox == x.mailbox[1..]
  {
    MoveOnly(s, a, Recv(Some(Start)));
    var s1 := Move(s, a, Recv(Some(Start)));
    assert Next(s, Deliver(a)).actors == s.actors[a := s1.actors[a].(mailbox := s.actors[a].mailbox[1..])];
  }

  lemma Grants(s: State, a: ActorId)
    requires a in s.actors && s.actors[a].m.pc.Acquiring? && !s.actors[a].m.held && s.free > 0
    ensures Possible(s, Grant(a))
    ensures var s', x := Next(s, Grant(a)), s.actors[a];
            && Only(s, s', a) && s'.rows == s.rows && s'.free == s.free - 1
            && s'.actors[a] == x.(m := x.m.(pc := Leasing, held := true))
  {
    MoveOnly(s, a, Permit(true));
  }

  lemma Stores(s: State, a: ActorId, r: Reply)
    requires a in s.actors && AwaitsStore(s.actors[a].m) && s.actors[a].id in s.rows
    ensures Possible(s, Store(a, 0, r))
    ensures var s', x := Next(s, Store(a, 0, r)), s.actors[a];
            && Only(s, s', a)
            && s'.actors[a] == x.(m := AfterStore(x.m, 0, r))
            && s'.free == s.free + (if x.m.held then 1 else 0) - (if s'.actors[a].m.held then 1 else 0)
            && s'.rows[x.id] == (if r.ok then Apply(s.rows[x.id], PendingWrite(x.m, 0), r.at) else s.rows[x.id])
  {
    MoveOnly(s, a, Stored(0, r));
    hide AfterStore, Apply, Only;
    var s', s1 := Next(s, Store(a, 0, r)), Move(s, a, Stored(0, r));
    StoresOnly(s, s1, s', a, r);
  }

  lemma StoresOnly(s: State, s1: State, s': State, a: ActorId, r: Reply)
    requires Only(s, s1, a) && s1.rows == s.rows && s.actors[a].id in s.rows && AwaitsStore(s.actors[a].m)
    requires s' == if r.ok then s1.(rows := Put(s.rows, s.actors[a].id, PendingWrite(s.actors[a].m, 0), r.at)) else s1
    ensures Only(s, s', a)
  {
  }

  lemma Thinks(s: State, a: ActorId, i: Input)
    requires a in s.actors && Enabled(s.actors[a].m, i) && (i.Published? || i.Answer? || i.Timer?)
    ensures Possible(s, Think(a, i))
    ensures var s', x := Next(s, Think(a, i)), s.actors[a];
            && Only(s, s', a) && s'.rows == s.rows
            && s'.actors[a] == x.(m := Step(x.m, i))
            && s'.free == s.free + (if x.m.held then 1 else 0) - (if s'.actors[a].m.held then 1 else 0)
  {
    hide Step;
    MoveOnly(s, a, i);
  }

  lemma Reports(s: State, a: ActorId)
    requires a in s.actors && s.actors[a].m.pc.Notifying?
    ensures Possible(s, Report(a))
    ensures var s', x := Next(s, Report(a)), s.actors[a];
            && s'.actors == s.actors[a := x.(m := Step(x.m, Sent))]
            && s'.rows == s.rows && s'.runs == s.runs && s'.capacity == s.capacity && s'.extras == s.extras
            && s'.free == s.free + (if x.m.held then 1 else 0)
            && s'.runActors.Keys == s.runActors.Keys
            && forall run :: run in s.runActors ==> s'.runActors[run].pc == s.runActors[run].pc
  {
  }

  /** An actor told to start takes a permit and the lease, and submits. */
  lemma StartUp(s0: State, ls: seq<Label>, s: State, a: ActorId) returns (ls': seq<Label>, s': State)
    requires Run(s0, ls) == Some(s) && Clean(ls)
    requires a in s.actors && s.actors[a].id in s.rows && s.free > 0
    requires var x := s.actors[a]; x.m.pc.Idle? && !x.m.held && x.mailbox != [] && x.mailbox[0] == Start
    ensures Run(s0, ls') == Some(s') && Clean(ls') && Only(s, s', a) && s'.free == s.free - 1
    ensures var x := s'.actors[a]; x.m.pc.Submitting? && x.m.held && x.mailbox == s.actors[a].mailbox[1..]
    ensures s'.rows[s.actors[a].id].status.StatusRunning?
    ensures s'.actors[a].m.attempt == s.actors[a].m.attempt && s'.actors[a].m.max == s.actors[a].m.max
    ensures s'.rows[s.actors[a].id] == Apply(s.rows[s.actors[a].id], Started(s.actors[a].m.owner, 0), 0)
  {
    hide Next, Possible, Only, Run, Clean, Harmless;
    assert Harmless(Deliver(a)) && Harmless(Grant(a)) by { ActorStepsAreHarmless(a); }
    assert Harmless(Store(a, 0, Reply(true, 0))) && Harmless(Think(a, Published)) by { ActorStepsAreHarmless(a); }
    Delivers(s, a);
    var l1, s1 := Then(s0, ls, s, Deliver(a));
    OnlyFrame(s, s1, a);
    Grants(s1, a);
    var l2, s2 := Then(s0, l1, s1, Grant(a));
    OnlyFrame(s1, s2, a);
    Stores(s2, a, Reply(true, 0));
    var l3, s3 := Then(s0, l2, s2, Store(a, 0, Reply(true, 0)));
    OnlyFrame(s2, s3, a);
    Thinks(s3, a, Published);
    ls', s' := Then(s0, l3, s3, Think(a, Published));
    OnlyTwice(s, s1, s2, a);
    OnlyTwice(s, s2, s3, a);
    OnlyTwice(s, s3, s', a);
  }

  lemma OnlyFrame(s: State, s': State, a: ActorId)
    requires Only(s, s', a)
    ensures a in s'.actors && s'.actors[a].id == s.actors[a].id && s'.rows.Keys == s.rows.Keys
  {
  }

  lemma ActorStepsAreHarmless(a: ActorId)
    ensures Harmless(Deliver(a)) && Harmless(Grant(a)) && Harmless(Store(a, 0, Reply(true, 0))) && Harmless(Report(a))
    ensures forall i: Input :: Harmless(Think(a, i))
  {
  }

  // ── A run of `n` calculations ──────────────────────────────────────────────

  function Id(i: nat): (c: CalcId)
    ensures |c| == i
  {
    seq(i, _ => 'c')
  }

  function Ids(n: nat): set<CalcId> { set i: nat | i < n :: Id(i) }

  lemma IdsGrow(n: nat)
    ensures Id(n) !in Ids(n) && Ids(n + 1) == Ids(n) + {Id(n)}
  {
    forall c ensures c in Ids(n + 1) <==> c in Ids(n) || c == Id(n) {
      if c in Ids(n + 1) { var i: nat :| i < n + 1 && Id(i) == c; }
      if c in Ids(n) { var i: nat :| i < n && Id(i) == c; }
    }
  }

  lemma {:induction false} IdsCount(n: nat)
    ensures |Ids(n)| == n && Id(n) !in Ids(n) && Ids(n + 1) == Ids(n) + {Id(n)}
  {
    IdsGrow(n);
    if n == 0 {
      assert Ids(0) == {};
    } else {
      IdsGrow(n - 1);
      IdsCount(n - 1);
      hide Ids;
    }
  }

  const RUN: RunId := "r"

  /** A booted engine with one run, its calculations inserted and nobody at work. */
  function Loaded(capacity: nat, cfg: RetryConfig, n: nat): State {
    Boot(capacity, cfg).(runs := map[RUN := RunPending], rows := map c | c in Ids(n) :: NewRow(RUN, 3, 0))
  }

  lemma BootTakesRun(capacity: nat, cfg: RetryConfig)
    ensures Possible(Boot(capacity, cfg), AddRun(RUN))
    ensures Next(Boot(capacity, cfg), AddRun(RUN)) == Loaded(capacity, cfg, 0)
  {
  }

  lemma LoadedTakesCalc(capacity: nat, cfg: RetryConfig, n: nat)
    ensures var s, l := Loaded(capacity, cfg, n), AddCalc(Id(n), RUN, 3, 0);
            Possible(s, l) && Next(s, l) == Loaded(capacity, cfg, n + 1)
  {
    IdsCount(n);
  }

  lemma {:induction false} Load(capacity: nat, cfg: RetryConfig, n: nat) returns (ls: seq<Label>)
    ensures Run(Boot(capacity, cfg), ls) == Some(Loaded(capacity, cfg, n)) && Clean(ls)
  {
    hide Next, Possible, Loaded, Boot;
    var s0, s := Boot(capacity, cfg), Loaded(capacity, cfg, 0);
    if n == 0 {
      BootTakesRun(capacity, cfg);
      assert Run(s0, []) == Some(s0);
      ls, s := Then(s0, [], s0, AddRun(RUN));
    } else {
      ls := Load(capacity, cfg, n - 1);
      LoadedTakesCalc(capacity, cfg, n - 1);
      ls, s := Then(s0, ls, Loaded(capacity, cfg, n - 1), AddCalc(Id(n - 1), RUN, 3, 0));
    }
  }

  /** The run is spawned; the first `k` of its calculations are running, the others wait to be started. */
  ghost predicate Busy(s: State, capacity: nat, n: nat, k: nat) {
    && s.capacity == capacity && s.free == capacity - k && s.runs == map[RUN := RunPending] && s.extras == map[]
    && RUN in s.runActors && s.runActors[RUN].pc == Looping && s.runActors[RUN].kids == Ids(n)
    && s.rows.Keys == Ids(n) && RunningRows(s.rows) == Ids(k)
    && (forall c :: c in s.rows ==> s.rows[c].runId == RUN)
    && (forall i: nat :: i < n ==> Kid(s, i) && if i < k then Works(s, i) else Waits(s, i))
  }

  predicate Kid(s: State, i: nat) { Child(RUN, Id(i)) in s.actors && s.actors[Child(RUN, Id(i))].id == Id(i) }

  predicate Works(s: State, i: nat)
    requires Kid(s, i)
  {
    var m := s.actors[Child(RUN, Id(i))].m; m.pc.Submitting? && m.held
  }

  predicate Waits(s: State, i: nat)
    requires Kid(s, i)
  {
    var x := s.actors[Child(RUN, Id(i))]; x.m.pc.Idle? && !x.m.held && x.mailbox == [Start] && x.open
  }

  lemma SpawnIsBusy(capacity: nat, cfg: RetryConfig, n: nat)
    ensures Possible(Loaded(capacity, cfg, n), Spawn(RUN))
    ensures Busy(Next(Loaded(capacity, cfg, n), Spawn(RUN)), capacity, n, 0)
  {
    var s := Loaded(capacity, cfg, n);
    var s' := SpawnStep(s, RUN);
    assert ActiveOf(s.rows, RUN) == Ids(n);
    forall i: nat | i < n ensures Kid(s', i) && Waits(s', i) {
      assert Id(i) in Ids(n) && Child(RUN, Id(i)) in Children(s, RUN);
    }
  }

  lemma OneMoreRuns(t: Table, t': Table, c: CalcId)
    requires t'.Keys == t.Keys && c in t && c !in RunningRows(t) && t'[c].status.StatusRunning?
    requires forall d :: d in t && d != c ==> t'[d] == t[d]
    ensures RunningRows(t') == RunningRows(t) + {c} && |RunningRows(t')| == |RunningRows(t)| + 1
  {
    assert RunningRows(t') == RunningRows(t) + {c};
  }

  lemma OneMoreBusy(s: State, s': State, capacity: nat, n: nat, k: nat)
    requires Busy(s, capacity, n, k) && k < n && Only(s, s', Child(RUN, Id(k))) && s'.free == s.free - 1
    requires Kid(s', k) && Works(s', k) && Id(k) in s'.rows && s'.rows[Id(k)].status.StatusRunning?
    ensures Busy(s', capacity, n, k + 1)
  {
    IdsCount(k);
    assert Id(k) in Ids(n) && Kid(s, k);
    OneMoreRuns(s.rows, s'.rows, Id(k));
    hide RunningRows;
    forall i: nat | i < n ensures Kid(s', i) && if i < k + 1 then Works(s', i) else Waits(s', i) {
      if i != k {
        assert |Id(i)| != |Id(k)| && Kid(s, i);
        assert s'.actors[Child(RUN, Id(i))] == s.actors[Child(RUN, Id(i))];
      }
    }
  }

  lemma {:induction false} Fill(capacity: nat, cfg: RetryConfig, n: nat, k: nat) returns (ls: seq<Label>, s: State)
    requires k <= n && k <= capacity
    ensures Run(Boot(capacity, cfg), ls) == Some(s) && Clean(ls) && Busy(s, capacity, n, k)
    decreases k
  {
    hide Run, Next, Possible, Clean;
    var s0 := Boot(capacity, cfg);
    if k == 0 {
      ls := Load(capacity, cfg, n);
      SpawnIsBusy(capacity, cfg, n);
      ls, s := Then(s0, ls, Loaded(capacity, cfg, n), Spawn(RUN));
    } else {
      ls, s := Fill(capacity, cfg, n, k - 1);
      assert Id(k - 1) in s.rows by { assert Id(k - 1) in Ids(n); }
      assert Kid(s, k - 1) && Waits(s, k - 1);
      var ls', s' := StartUp(s0, ls, s, Child(RUN, Id(k - 1)));
      hide Only;
      OnlyFrame(s, s', Child(RUN, Id(k - 1)));
      OneMoreBusy(s, s', capacity, n, k - 1);
      ls, s := ls', s';
    }
  }

  // ── One running row too many ───────────────────────────────────────────────

  lemma {:induction false} RefusedAppend(s: State, xs: seq<Label>, ys: seq<Label>)
    requires Run(s, xs).Some? && Run(s, xs + ys).Some?
    ensures Run(Run(s, xs).value, ys).Some?
    ensures RefusedOutcomes(s, xs + ys) == RefusedOutcomes(s, xs) + RefusedOutcomes(Run(s, xs).value, ys)
    decreases |xs|
  {
    hide Next, Possible, Refused;
    RunAppend(s, xs, ys);
    if xs == [] {
      assert xs + ys == ys;
    } else {
      assert (xs + ys)[0] == xs[0] && (xs + ys)[1..] == xs[1..] + ys;
      RefusedAppend(Next(s, xs[0]), xs[1..], ys);
    }
  }

  lemma CleanRefusesNothing(s: State, ls: seq<Label>)
    requires Run(s, ls).Some? && Clean(ls)
    ensures RefusedOutcomes(s, ls) == 0
  {
    hide Run;
    forall l | l in ls ensures FaultFree(l) { assert exists i :: 0 <= i < |ls| && ls[i] == l; }
    FaultFreeRefusesNothing(s, ls);
  }

  /** A clean list, one refused write of an outcome, and another clean list. */
  lemma OneRefusal(s0: State, xs: seq<Label>, s1: State, l: Label, ys: seq<Label>, s2: State)
    requires Run(s0, xs) == Some(s1) && Possible(s1, l) && Refused(s1, l) && Run(Next(s1, l), ys) == Some(s2)
    requires Clean(xs) && Clean(ys)
    ensures Run(s0, xs + ([l] + ys)) == Some(s2) && RefusedOutcomes(s0, xs + ([l] + ys)) == 1
    ensures forall x :: x in xs + ([l] + ys) ==> !x.Crash?
  {
    RunAppend(s0, xs, [l] + ys);
    assert ([l] + ys)[1..] == ys;
    hide Next, Possible;
    RefusedAppend(s0, xs, [l] + ys);
    CleanRefusesNothing(s0, xs);
    CleanRefusesNothing(Next(s1, l), ys);
    hide Run, RefusedOutcomes, Refused;
    forall x | x in xs + ([l] + ys) ensures !x.Crash? {
      if x in xs { var i :| 0 <= i < |xs| && xs[i] == x; assert Harmless(xs[i]); }
      if x in ys { var i :| 0 <= i < |ys| && ys[i] == x; assert Harmless(ys[i]); }
    }
  }

  /** All permits are taken, the outcome of `a` is about to be written, and `b` waits for a permit. */
  ghost predicate Brink(s: State, capacity: nat, a: ActorId, b: ActorId) {
    && a != b && a in s.actors && b in s.actors && s.actors[a].id in s.rows && s.actors[b].id in s.rows
    && s.capacity == capacity && s.free == 0 && |RunningRows(s.rows)| == capacity
    && s.actors[a].m.pc == Writing(Succeeded(""), 0) && s.actors[a].m.held
    && s.actors[b].m.pc.Acquiring? && !s.actors[b].m.held && s.actors[b].id !in RunningRows(s.rows)
  }

  lemma ToTheBrink(capacity: nat, cfg: RetryConfig) returns (ls: seq<Label>, s: State, a: ActorId, b: ActorId)
    requires capacity >= 1
    ensures Run(Boot(capacity, cfg), ls) == Some(s) && Clean(ls) && Brink(s, capacity, a, b)
  {
    hide Run, Next, Possible, Clean, Busy;
    var l1, s1 := Fill(capacity, cfg, capacity + 1, capacity);
    a, b := Child(RUN, Id(0)), Child(RUN, Id(capacity));
    FullyBusy(s1, capacity);
    ls, s := Approach(Boot(capacity, cfg), l1, s1, capacity, a, b);
  }

  /** All permits are taken, `a` submits, and `b` waits to be started. */
  ghost predicate Full(s: State, capacity: nat, a: ActorId, b: ActorId) {
    && a != b && a in s.actors && b in s.actors && s.actors[a].id in s.rows && s.actors[b].id in s.rows
    && s.capacity == capacity && s.free == 0 && |RunningRows(s.rows)| == capacity
    && s.actors[a].m.pc.Submitting? && s.actors[a].m.held && s.actors[b].id !in RunningRows(s.rows)
    && var x := s.actors[b]; x.m.pc.Idle? && !x.m.held && x.mailbox == [Start]
  }

  lemma FullyBusy(s: State, capacity: nat)
    requires capacity >= 1 && Busy(s, capacity, capacity + 1, capacity)
    ensures Full(s, capacity, Child(RUN, Id(0)), Child(RUN, Id(capacity)))
  {
    hide RunningRows;
    var n := capacity;
    assert Kid(s, 0) && Works(s, 0) && Kid(s, n) && Waits(s, n);
    assert Id(0) in Ids(n + 1) && Id(n) in Ids(n + 1) && |Id(0)| != |Id(n)|;
    IdsCount(n);
  }

  lemma Approach(s0: State, ls: seq<Label>, s: State, capacity: nat, a: ActorId, b: ActorId)
    returns (ls': seq<Label>, s': State)
    requires Run(s0, ls) == Some(s) && Clean(ls) && Full(s, capacity, a, b)
    ensures Run(s0, ls') == Some(s') && Clean(ls') && Brink(s', capacity, a, b)
  {
    hide Run, Next, Possible, Clean, Harmless, RunningRows;
    ActorStepsAreHarmless(b);
    Delivers(s, b);
    var l1, s1 := Then(s0, ls, s, Deliver(b));
    ActorStepsAreHarmless(a);
    Thinks(s1, a, Answer(Success(""), 0, 0));
    ls', s' := Then(s0, l1, s1, Think(a, Answer(Success(""), 0, 0)));
  }

  /** The refused write lets `a` go on, report and drop its permit. */
  lemma LetGo(s: State, capacity: nat, a: ActorId, b: ActorId) returns (ls: seq<Label>, s': State)
    requires Brink(s, capacity, a, b)
    ensures var l := Store(a, 0, Reply(false, 0));
            Possible(s, l) && Refused(s, l) && Run(Next(s, l), ls) == Some(s') && Clean(ls)
    ensures s'.rows == s.rows && s'.free == 1 && b in s'.actors && s'.actors[b] == s.actors[b]
  {
    hide Next, Possible, Clean, Harmless, Apply;
    Stores(s, a, Reply(false, 0));
    var s1 := Next(s, Store(a, 0, Reply(false, 0)));
    assert s1.rows == s.rows;
    assert Run(s1, []) == Some(s1) && Clean([]) by { NothingIsClean(s1); }
    hide Run;
    ActorStepsAreHarmless(a);
    Thinks(s1, a, Published);
    var l2, s2 := Then(s1, [], s1, Think(a, Published));
    Reports(s2, a);
    ls, s' := Then(s1, l2, s2, Report(a));
  }

  lemma TakeOver(s0: State, ls: seq<Label>, s: State, b: ActorId) returns (ls': seq<Label>, s': State)
    requires Run(s0, ls) == Some(s) && Clean(ls) && s.free > 0 && b in s.actors && s.actors[b].id in s.rows
    requires s.actors[b].m.pc.Acquiring? && !s.actors[b].m.held
    ensures Run(s0, ls') == Some(s') && Clean(ls') && Only(s, s', b) && s'.rows[s.actors[b].id].status.StatusRunning?
  {
    hide Run, Next, Possible, Clean, Harmless, Only;
    ActorStepsAreHarmless(b);
    Grants(s, b);
    var l1, s1 := Then(s0, ls, s, Grant(b));
    OnlyFrame(s, s1, b);
    Stores(s1, b, Reply(true, 0));
    ls', s' := Then(s0, l1, s1, Store(b, 0, Reply(true, 0)));
    OnlyTwice(s, s1, s', b);
  }

  /** `b` takes the permit over, and a row too many is running. */
  lemma OverTheBrink(s: State, capacity: nat, a: ActorId, b: ActorId) returns (ls: seq<Label>, s': State)
    requires Brink(s, capacity, a, b)
    ensures var l := Store(a, 0, Reply(false, 0));
            Possible(s, l) && Refused(s, l) && Run(Next(s, l), ls) == Some(s') && Clean(ls)
    ensures |RunningRows(s'.rows)| == capacity + 1
  {
    hide Run, Next, Possible, Clean, Refused, RunningRows;
    var l1, s1 := LetGo(s, capacity, a, b);
    ls, s' := TakeOver(Next(s, Store(a, 0, Reply(false, 0))), l1, s1, b);
    OneMoreRuns(s1.rows, s'.rows, s.actors[b].id);
  }

  lemma NothingIsClean(s: State)
    ensures Run(s, []) == Some(s) && Clean([])
  {
  }

  /** At every capacity one refused write of an outcome, and no other fault, can put one running row too many. */
  lemma OneRefusalOverruns(capacity: nat, cfg: RetryConfig) returns (ls: seq<Label>)
    requires capacity >= 1
    ensures var s := Boot(capacity, cfg);
            && Run(s, ls).Some? && RefusedOutcomes(s, ls) == 1 && (forall l :: l in ls ==> !l.Crash?)
            && |RunningRows(Run(s, ls).value.rows)| == capacity + 1
  {
    hide Run, Next, Possible, Clean, Refused, Brink;
    var xs, s1, a, b := ToTheBrink(capacity, cfg);
    var ys, s2 := OverTheBrink(s1, capacity, a, b);
    OneRefusal(Boot(capacity, cfg), xs, s1, Store(a, 0, Reply(false, 0)), ys, s2);
    ls := xs + ([Store(a, 0, Reply(false, 0))] + ys);
  }

  ghost predicate AtMost(capacity: nat, cfg: RetryConfig, k: nat, ls: seq<Label>) {
    && Run(Boot(capacity, cfg), ls).Some? && (forall l :: l in ls ==> !l.Crash?)
    && RefusedOutcomes(Boot(capacity, cfg), ls) <= k
  }

  /** The bound holds in all runs with at most `k` refused writes of an outcome and no crash. */
  ghost predicate BoundHolds(capacity: nat, cfg: RetryConfig, k: nat) {
    forall ls: seq<Label> :: AtMost(capacity, cfg, k, ls) ==>
      |RunningRows(Run(Boot(capacity, cfg), ls).value.rows)| <= capacity
  }

  /** Without permits nobody gets as far as an outcome. */
  lemma {:induction false} NoPermitNoOutcome(s: State, ls: seq<Label>)
    requires CapInv(s, {}) && ChildrenKnown(s) && s.capacity == 0 && Run(s, ls).Some?
    requires forall l :: l in ls ==> !l.Crash?
    ensures RefusedOutcomes(s, ls) == 0
    decreases |ls|
  {
    hide Next, Possible, CapInv, ChildrenKnown, Refused, Loses;
    if ls != [] {
      assert ls[0] in ls;
      RefusedHasPermit(s, ls[0]);
      var lost := NextKeepsCapacity(s, ls[0], {});
      assert lost == {};
      NextKeepsChildrenKnown(s, ls[0]);
      NextKeepsLimit(s, ls[0]);
      NoPermitNoOutcome(Next(s, ls[0]), ls[1..]);
    }
  }

  lemma RefusedHasPermit(s: State, l: Label)
    requires CapInv(s, {})
    ensures Refused(s, l) || Loses(s, l) ==> s.capacity >= 1
  {
    if Refused(s, l) { assert l.a in Holders(s.actors); }
  }

  /**
   The exact condition: the running rows fit the permits in all runs if and only if no write of an outcome is refused
   (or there are no permits at all, and nothing runs).
   */
  lemma BoundHoldsIff(capacity: nat, cfg: RetryConfig, k: nat)
    ensures BoundHolds(capacity, cfg, k) <==> k == 0 || capacity == 0
  {
    hide Run, RefusedOutcomes, RunningRows;
    if k == 0 || capacity == 0 {
      forall ls: seq<Label> | AtMost(capacity, cfg, k, ls)
        ensures |RunningRows(Run(Boot(capacity, cfg), ls).value.rows)| <= capacity
      {
        BootIsAtRest(capacity, cfg);
        RunningUnderFaults(Boot(capacity, cfg), ls);
        if capacity == 0 { NoPermitNoOutcome(Boot(capacity, cfg), ls); }
      }
    } else {
      var ls := OneRefusalOverruns(capacity, cfg);
      assert AtMost(capacity, cfg, k, ls);
    }
  }

  lemma BootIsAtRest(capacity: nat, cfg: RetryConfig)
    ensures var s := Boot(capacity, cfg); AtRest(s) && s.capacity == capacity && CapInv(s, {}) && ChildrenKnown(s)
  {
    assert Holders(Boot(capacity, cfg).actors) == {};
  }

  // ── A cancelled run that keeps a wrong status ──────────────────────────────

  lemma {:induction false} CleanIsQuiet(s: State, ls: seq<Label>, run: RunId)
    requires Run(s, ls).Some? && Clean(ls)
    ensures EngineRuns.Quiet(s, ls, run)
    decreases |ls|
  {
    hide Next, Possible;
    if ls != [] {
      assert Harmless(ls[0]);
      forall i | 0 <= i < |ls[1..]| ensures Harmless(ls[1..][i]) { assert ls[1..][i] == ls[i + 1]; }
      CleanIsQuiet(Next(s, ls[0]), ls[1..], run);
    }
  }

  lemma LoadedIsUntouched(capacity: nat, cfg: RetryConfig, n: nat)
    ensures EngineRuns.Untouched(Loaded(capacity, cfg, n), RUN)
  {
  }

  /** A run of one calculation, with its actor at `pc`; nobody has started and the child has this mailbox. */
  ghost predicate Early(s: State, capacity: nat, pc: RunPc, cancel: bool, mailbox: seq<Cmd>) {
    && s.capacity == capacity && s.free == capacity && s.runs == map[RUN := RunPending]
    && RUN in s.runActors && s.runActors[RUN].pc == pc && s.runActors[RUN].kids == {Id(0)}
    && s.runActors[RUN].cancel == cancel
    && s.rows.Keys == {Id(0)} && s.rows[Id(0)].runId == RUN
    && Kid(s, 0)
    && var x := s.actors[Child(RUN, Id(0))];
    && x.m.pc.Idle? && !x.m.held && x.mailbox == mailbox
  }

  lemma BusyIsEarly(s: State, capacity: nat)
    requires Busy(s, capacity, 1, 0) && !s.runActors[RUN].cancel
    ensures Early(s, capacity, Looping, false, [Start])
  {
    assert Kid(s, 0) && Waits(s, 0);
    OneId();
  }

  lemma Asked(s: State, capacity: nat)
    requires Early(s, capacity, Looping, false, [Start])
    ensures Possible(s, CancelRun(RUN)) && Early(Next(s, CancelRun(RUN)), capacity, Looping, true, [Start])
  {
  }

  lemma Heard(s: State, capacity: nat)
    requires Early(s, capacity, Looping, true, [Start])
    ensures Possible(s, RunCancel(RUN))
    ensures Early(Next(s, RunCancel(RUN)), capacity, Telling({Id(0)}), true, [Start])
  {
  }

  lemma Told(s: State, capacity: nat)
    requires Early(s, capacity, Telling({Id(0)}), true, [Start])
    ensures Possible(s, RunTell(RUN, Id(0)))
    ensures Early(Next(s, RunTell(RUN, Id(0))), capacity, Telling({}), true, [Start, Cancel])
  {
    assert {Id(0)} - {Id(0)} == {};
    assert [Start] + [Cancel] == [Start, Cancel];
  }

  lemma LeftAlone(s: State, capacity: nat)
    requires Early(s, capacity, Telling({}), true, [Start, Cancel])
    ensures Possible(s, RunLeave(RUN)) && Early(Next(s, RunLeave(RUN)), capacity, Left(false), true, [Start, Cancel])
  {
  }

  /** The run is cancelled before anything has happened, and its actor leaves. */
  lemma CancelAtOnce(s: State, capacity: nat) returns (ls: seq<Label>, s': State)
    requires Early(s, capacity, Looping, false, [Start])
    ensures Run(s, ls) == Some(s') && Clean(ls) && Early(s', capacity, Left(false), true, [Start, Cancel])
  {
    assert Run(s, []) == Some(s) && Clean([]) by { NothingIsClean(s); }
    hide Run, Next, Possible, Clean, Early, Harmless;
    CancelStepsAreHarmless();
    Asked(s, capacity);
    var l1, s1 := Then(s, [], s, CancelRun(RUN));
    Heard(s1, capacity);
    var l2, s2 := Then(s, l1, s1, RunCancel(RUN));
    Told(s2, capacity);
    var l3, s3 := Then(s, l2, s2, RunTell(RUN, Id(0)));
    LeftAlone(s3, capacity);
    ls, s' := Then(s, l3, s3, RunLeave(RUN));
  }

  /** The child, still told to start first, succeeds. */
  lemma ChildSucceeds(s: State, capacity: nat) returns (ls: seq<Label>, s': State)
    requires capacity >= 1 && Early(s, capacity, Left(false), true, [Start, Cancel])
    ensures Run(s, ls) == Some(s') && Clean(ls)
    ensures s'.runs == map[RUN := RunPending] && StatusesOf(s'.rows, RUN) == {StatusSucceeded}
    ensures RUN in s'.runActors && s'.runActors[RUN].pc == Left(false)
    ensures EngineRuns.Terminal(s'.rows, RUN)
  {
    var a := Child(RUN, Id(0));
    assert Run(s, []) == Some(s) && Clean([]) by { NothingIsClean(s); }
    assert Kid(s, 0);
    hide Run, Clean, Only;
    var l1, s1 := StartUp(s, [], s, a);
    OnlyFrame(s, s1, a);
    ls, s' := Succeeds(s, l1, s1, a);
    OnlyTwice(s, s1, s', a);
    OneSucceeded(s, s', a);
  }

  lemma CancelStepsAreHarmless()
    ensures Harmless(CancelRun(RUN)) && Harmless(RunCancel(RUN)) && Harmless(RunTell(RUN, Id(0))) && Harmless(RunLeave(RUN))
  {
  }

  /** A submitting actor gets its result and stores it. */
  lemma Succeeds(s0: State, ls: seq<Label>, s: State, a: ActorId) returns (ls': seq<Label>, s': State)
    requires Run(s0, ls) == Some(s) && Clean(ls)
    requires a in s.actors && s.actors[a].id in s.rows && s.actors[a].m.pc.Submitting?
    ensures Run(s0, ls') == Some(s') && Clean(ls') && Only(s, s', a)
    ensures s.actors[a].id in s'.rows && s'.rows[s.actors[a].id].status == StatusSucceeded
  {
    hide Run, Next, Possible, Clean, Harmless, Only;
    ActorStepsAreHarmless(a);
    Thinks(s, a, Answer(Success(""), 0, 0));
    var l1, s1 := Then(s0, ls, s, Think(a, Answer(Success(""), 0, 0)));
    OnlyFrame(s, s1, a);
    Stores(s1, a, Reply(true, 0));
    ls', s' := Then(s0, l1, s1, Store(a, 0, Reply(true, 0)));
    OnlyFrame(s1, s', a);
    OnlyTwice(s, s1, s', a);
  }

  lemma OneSucceeded(s: State, s': State, a: ActorId)
    requires Only(s, s', a) && s.rows.Keys == {s.actors[a].id} && s.rows[s.actors[a].id].runId == RUN
    requires s'.rows[s.actors[a].id].status == StatusSucceeded
    ensures s'.runs == s.runs && s'.runActors == s.runActors
    ensures StatusesOf(s'.rows, RUN) == {StatusSucceeded} && EngineRuns.Terminal(s'.rows, RUN)
  {
    assert s'.rows[s.actors[a].id].status in StatusesOf(s'.rows, RUN);
  }

  /**
   A run shows pending for good although its only calculation has succeeded: cancelled before the child started, the run
   actor left without ever storing a status, and the child took its Start before its Cancel. No fault, crash, watchdog
   or retry is involved.
   */
  lemma CancelledRunShowsPending(capacity: nat, cfg: RetryConfig)
    returns (s: State, earlier: seq<Label>, later: seq<Label>)
    requires capacity >= 1
    ensures s == Loaded(capacity, cfg, 1) && EngineRuns.Untouched(s, RUN)
    ensures EngineRuns.Quiet(SpawnStep(s, RUN), earlier, RUN) && Run(SpawnStep(s, RUN), earlier).Some?
    ensures var s1 := Run(SpawnStep(s, RUN), earlier).value;
            RUN in s1.runActors && s1.runActors[RUN].pc == Left(false) &&
            EngineRuns.Quiet(s1, later, RUN) && Run(s1, later).Some? &&
            var s2 := Run(s1, later).value;
            && EngineRuns.Terminal(s2.rows, RUN) && StatusesOf(s2.rows, RUN) == {StatusSucceeded}
            && s2.runs == map[RUN := RunPending] && DeriveOfSet(StatusesOf(s2.rows, RUN)) == RunSucceeded
  {
    hide Run, Possible, Clean, EngineRuns.Quiet, EngineRuns.Untouched, EngineRuns.Terminal;
    s := Loaded(capacity, cfg, 1);
    LoadedIsUntouched(capacity, cfg, 1);
    SpawnIsBusy(capacity, cfg, 1);
    var s0 := SpawnStep(s, RUN);
    BusyIsEarly(s0, capacity);
    hide Loaded, SpawnStep, Next, Busy;
    var s1, s2;
    earlier, s1 := CancelAtOnce(s0, capacity);
    assert RUN in s1.runActors && s1.runActors[RUN].pc == Left(false);
    hide Early, StatusesOf;
    CleanIsQuiet(s0, earlier, RUN);
    later, s2 := ChildSucceeds(s1, capacity);
    CleanIsQuiet(s1, later, RUN);
  }

  lemma OneId()
    ensures Ids(1) == {Id(0)} && Ids(0) == {}
  {
  }
}
