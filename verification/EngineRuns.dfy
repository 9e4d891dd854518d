/**
 A run that neither the watchdog nor a retry touches, while statements go through: its actor counts every child
 exactly once, never stores a final status that is not the derived one, and when it leaves because all children
 have finished, the run is over and its stored status is right.
 */
module EngineRuns {
  import opened Base
  import opened Model
  import opened Rows
  import opened CalcMachine
  import opened Engine
  import opened EngineCapacity

  predicate Terminal(t: Table, run: RunId) {
    forall c :: c in t && t[c].runId == run ==> t[c].status.IsTerminal()
  }

  /** The terminal write has been made. */
  predicate Ended(pc: Pc) { pc.Done? || pc.Notifying? || (pc.Emitting? && pc.to.IsTerminal()) }

  /** It has been decided. */
  predicate Ending(pc: Pc) { Ended(pc) || (pc.Writing? && pc.w.IsTerminal()) }

  predicate PcOk(pc: Pc) {
    && (pc.Writing? ==> pc.w.SetsStatus() && !pc.w.Started? && !pc.w.Pending?)
    && (pc.Emitting? ==> !pc.to.StatusPending?)
  }

  /** A cancel cannot pass this child by. */
  predicate Coming(x: Actor) { Cancel in x.mailbox || Ending(x.m.pc) }

  predicate KidOk(t: Table, actors: map<ActorId, Actor>, run: RunId, c: CalcId) {
    && Child(run, c) in actors && c in t
    && var x := actors[Child(run, c)];
    && x.id == c && t[c].runId == run && PcOk(x.m.pc)
    && (t[c].status.IsTerminal() <==> Ended(x.m.pc))
  }

  predicate IsDone(s: State, run: RunId, c: CalcId) {
    Child(run, c) in s.actors && s.actors[Child(run, c)].m.pc.Done?
  }

  predicate NoDup(q: seq<CalcId>) { forall i, j :: 0 <= i < j < |q| ==> q[i] != q[j] }

  /** Children and their rows; nobody else is on the rows of the run. */
  ghost predicate KidsOk(s: State, run: RunId, spawned: set<CalcId>) {
    && (forall c :: c in spawned ==> KidOk(s.rows, s.actors, run, c))
    && (forall c :: c in s.rows && s.rows[c].runId == run && c !in spawned ==> s.rows[c].status.IsTerminal())
    && (forall a :: a in s.actors && s.actors[a].id in s.rows && s.rows[s.actors[a].id].runId == run ==>
          a == Child(run, s.actors[a].id) && s.actors[a].id in spawned)
    && (forall a: ActorId :: a in s.actors && a.Child? && a.run == run ==> a.id in spawned)
  }

  /** The counter, the child map and the notifications under way. */
  ghost predicate CountOk(s: State, run: RunId, ra: RunActor) {
    && ra.kids <= ra.spawned
    && ra.finished + |ra.kids| == |ra.spawned|
    && NoDup(ra.queue) && (forall c :: c in ra.queue ==> c in ra.kids)
    && (forall c :: c in ra.spawned && c !in ra.kids ==> IsDone(s, run, c))
    && (!ra.pc.Left? ==> forall c :: c in ra.kids ==> (IsDone(s, run, c) <==> c in ra.queue))
  }

  /** No child is hung up on before it is done or told to cancel. */
  ghost predicate MailOk(s: State, run: RunId, ra: RunActor) {
    && (!ra.pc.Left? ==> forall c :: c in ra.kids && Child(run, c) in s.actors ==> s.actors[Child(run, c)].open)
    && (ra.pc.Telling? ==> ra.pc.todo <= ra.kids)
    && (ra.pc.Telling? || ra.pc.Left? ==>
          forall c :: c in ra.kids && !(ra.pc.Telling? && c in ra.pc.todo) && Child(run, c) in s.actors ==>
            Coming(s.actors[Child(run, c)]))
  }

  /** The stored status and the one about to be stored. */
  ghost predicate StatusOk(s: State, run: RunId, ra: RunActor) {
    && run in s.runs
    && (s.runs[run] == RunPending || s.runs[run] == RunRunning || Derived(s.rows, run, s.runs[run]))
    && (ra.pc.Storing? ==> Derived(s.rows, run, ra.pc.status) || (ra.pc.status == RunRunning && ra.kids != {}))
    && (ra.pc.Left? && ra.pc.complete ==> Derived(s.rows, run, s.runs[run]))
  }

  predicate Derived(t: Table, run: RunId, st: RunStatus) {
    Terminal(t, run) && st == DeriveOfSet(StatusesOf(t, run))
  }

  /** The supervisor has nothing to do with the run's rows. */
  ghost predicate Apart(s: State, run: RunId) {
    && (s.fetched.Some? ==> s.fetched.value.id in s.rows && s.rows[s.fetched.value.id].runId != run)
    && (forall c :: c in s.extras ==> s.extras[c].Extra?)
  }

  ghost predicate RunInv(s: State, run: RunId) {
    && run in s.runActors
    && var ra := s.runActors[run];
    && KidsOk(s, run, ra.spawned) && CountOk(s, run, ra) && MailOk(s, run, ra) && StatusOk(s, run, ra) && Apart(s, run)
  }

  /** Steps the theorems rule out: faults, crashes, and the watchdog or a retry on a row of the run. */
  predicate Touches(s: State, l: Label, run: RunId) {
    match l
    case Store(_, _, r) => !r.ok
    case RunStore(_, ok) => !ok
    case ResetCalc(c, _) => c in s.rows && s.rows[c].runId == run
    case Fetch(c) => c in s.rows && s.rows[c].runId == run
    case Reap(x, _) => x.id in s.rows && s.rows[x.id].runId == run
    case Crash => true
    case _ => false
  }

  // ── Steps elsewhere ────────────────────────────────────────────────────────

  /** Nothing the invariant of the run looks at has changed. */
  ghost predicate Same(s: State, s': State, run: RunId)
    requires run in s.runActors && run in s.runs
  {
    && run in s'.runActors && s'.runActors[run] == s.runActors[run]
    && run in s'.runs && s'.runs[run] == s.runs[run]
    && (forall c :: c in s.rows ==> c in s'.rows && s'.rows[c].runId == s.rows[c].runId)
    && (forall c :: c in s'.rows && s'.rows[c].runId == run ==> c in s.rows && s'.rows[c].status == s.rows[c].status)
    && (forall a :: a in s.actors ==> a in s'.actors && s'.actors[a].id == s.actors[a].id)
    && (forall a :: a in s.actors && s.actors[a].id in s.rows && s.rows[s.actors[a].id].runId == run ==>
          s'.actors[a] == s.actors[a])
    && (forall a :: a in s'.actors && a !in s.actors ==>
          !(a.Child? && a.run == run) && (s'.actors[a].id in s'.rows ==> s'.rows[s'.actors[a].id].runId != run))
    && Apart(s', run)
  }

  lemma SameStatuses(s: State, s': State, run: RunId)
    requires run in s.runActors && run in s.runs && Same(s, s', run)
    ensures StatusesOf(s'.rows, run) == StatusesOf(s.rows, run)
    ensures Terminal(s'.rows, run) <==> Terminal(s.rows, run)
  {
    forall c | c in s.rows && s.rows[c].runId == run ensures s'.rows[c].status in StatusesOf(s'.rows, run) {
      assert c in s'.rows && s'.rows[c].runId == run;
    }
  }

  lemma SameKeepsKids(s: State, s': State, run: RunId)
    requires RunInv(s, run) && Same(s, s', run)
    ensures KidsOk(s', run, s'.runActors[run].spawned)
    ensures forall c :: c in s.runActors[run].spawned ==>
              Child(run, c) in s'.actors && s'.actors[Child(run, c)] == s.actors[Child(run, c)]
  {
    var spawned := s.runActors[run].spawned;
    forall c | c in spawned
      ensures KidOk(s'.rows, s'.actors, run, c) && s'.actors[Child(run, c)] == s.actors[Child(run, c)]
    {
      assert KidOk(s.rows, s.actors, run, c);
    }
  }

  lemma SameKeeps(s: State, s': State, run: RunId)
    requires RunInv(s, run) && Same(s, s', run)
    ensures RunInv(s', run)
  {
    SameKeepsKids(s, s', run);
    SameKeepsCount(s, s', run);
    SameKeepsStatus(s, s', run);
    hide KidsOk, CountOk, MailOk, StatusOk, Apart;
  }

  lemma SameKeepsCount(s: State, s': State, run: RunId)
    requires RunInv(s, run) && Same(s, s', run)
    ensures CountOk(s', run, s.runActors[run]) && MailOk(s', run, s.runActors[run])
  {
    SameKeepsKids(s, s', run);
    var ra := s.runActors[run];
    hide KidsOk, StatusOk, Apart;
    assert forall c :: c in ra.kids ==> c in ra.spawned;
  }

  lemma SameKeepsStatus(s: State, s': State, run: RunId)
    requires RunInv(s, run) && Same(s, s', run)
    ensures StatusOk(s', run, s.runActors[run])
  {
    SameStatuses(s, s', run);
    hide KidsOk, CountOk, MailOk, Apart, Terminal, StatusesOf;
  }

  // ── Steps of a child ───────────────────────────────────────────────────────

  lemma KidSteps(m: Machine, i: Input)
    requires PcOk(m.pc) && Enabled(m, i) && i != Recv(None) && i != Permit(false) && i != Sent
    requires i.Stored? ==> i.r.ok
    ensures PcOk(Step(m, i).pc) && !m.pc.Done? && !Step(m, i).pc.Done?
    ensures Ending(m.pc) ==> Ending(Step(m, i).pc)
    ensures !AwaitsStore(m) ==> (Ended(Step(m, i).pc) <==> Ended(m.pc))
  {
  }

  lemma KidStores(m: Machine, expires: int, r: Reply)
    requires PcOk(m.pc) && AwaitsStore(m) && r.ok
    ensures !Ended(m.pc) && PendingWrite(m, expires).SetsStatus()
    ensures Ended(AfterStore(m, expires, r).pc) <==> PendingWrite(m, expires).IsTerminal()
  {
  }

  /** Child `c` and its row change together; the rest stays. */
  ghost predicate KidAlters(s: State, s': State, run: RunId, c: CalcId)
    requires run in s.runActors
  {
    && c in s.runActors[run].spawned
    && Child(run, c) in s.actors && c in s.rows
    && s' == s.(actors := s'.actors, rows := s'.rows, free := s'.free)
    && Child(run, c) in s'.actors && c in s'.rows
    && s'.actors == s.actors[Child(run, c) := s'.actors[Child(run, c)]]
    && s'.rows == s.rows[c := s'.rows[c]]
    && s'.rows[c].runId == s.rows[c].runId
    && (s.rows[c].status.IsTerminal() ==> s'.rows[c].status == s.rows[c].status)
    && KidOk(s'.rows, s'.actors, run, c)
  }

  /** And it is no step into or out of `Done`, nor one that loses its mail. */
  ghost predicate KidChanges(s: State, s': State, run: RunId, c: CalcId)
    requires run in s.runActors
  {
    && KidAlters(s, s', run, c)
    && var x, x' := s.actors[Child(run, c)], s'.actors[Child(run, c)];
    && (x.m.pc.Done? <==> x'.m.pc.Done?) && (x.open ==> x'.open) && (Coming(x) ==> Coming(x'))
  }

  lemma KidChangesKeepsStatus(s: State, s': State, run: RunId, c: CalcId, st: RunStatus)
    requires run in s.runActors && KidChanges(s, s', run, c) && Derived(s.rows, run, st)
    requires s.rows[c].runId == run
    ensures Derived(s'.rows, run, st)
  {
    assert s.rows[c].status.IsTerminal();
    assert forall d :: d in s.rows ==> s'.rows[d].status == s.rows[d].status && s'.rows[d].runId == s.rows[d].runId;
    assert StatusesOf(s'.rows, run) == StatusesOf(s.rows, run);
  }

  lemma KidAltersKeepsKids(s: State, s': State, run: RunId, c: CalcId)
    requires RunInv(s, run) && KidAlters(s, s', run, c)
    ensures KidsOk(s', run, s.runActors[run].spawned)
    ensures forall d :: d in s.runActors[run].spawned && d != c ==> (IsDone(s', run, d) <==> IsDone(s, run, d))
  {
    forall d | d in s.runActors[run].spawned ensures KidOk(s'.rows, s'.actors, run, d) {
      assert KidOk(s.rows, s.actors, run, d);
    }
    assert KidOk(s.rows, s.actors, run, c);
  }

  lemma KidChangesKeeps(s: State, s': State, run: RunId, c: CalcId)
    requires RunInv(s, run) && KidChanges(s, s', run, c)
    ensures RunInv(s', run)
  {
    var ra := s.runActors[run];
    assert KidOk(s.rows, s.actors, run, c);
    KidAltersKeepsKids(s, s', run, c);
    if Derived(s.rows, run, s.runs[run]) { KidChangesKeepsStatus(s, s', run, c, s.runs[run]); }
    if ra.pc.Storing? && Derived(s.rows, run, ra.pc.status) { KidChangesKeepsStatus(s, s', run, c, ra.pc.status); }
    assert CountOk(s', run, ra);
    assert MailOk(s', run, ra);
  }

  lemma KidMoves(s: State, run: RunId, c: CalcId, i: Input, mailbox: seq<Cmd>)
    requires RunInv(s, run) && c in s.runActors[run].spawned
    requires var x := s.actors[Child(run, c)];
             && Enabled(x.m, i) && i != Recv(None) && i != Permit(false) && i != Sent && !i.Stored?
             && (Coming(x) ==> Cancel in mailbox || Ending(Step(x.m, i).pc))
    ensures var s' := Move(s, Child(run, c), i);
            RunInv(s'.(actors := s'.actors[Child(run, c) := s'.actors[Child(run, c)].(mailbox := mailbox)]), run)
  {
    var a := Child(run, c);
    assert KidOk(s.rows, s.actors, run, c);
    KidSteps(s.actors[a].m, i);
    var s1 := Move(s, a, i);
    var s' := s1.(actors := s1.actors[a := s1.actors[a].(mailbox := mailbox)]);
    KidChangesKeeps(s, s', run, c);
  }

  /** The child hears a message, never a closed mailbox. */
  lemma KidDeliver(s: State, run: RunId, c: CalcId)
    requires RunInv(s, run) && c in s.runActors[run].spawned && Possible(s, Deliver(Child(run, c)))
    ensures RunInv(DeliverStep(s, Child(run, c)), run)
  {
    var x := s.actors[Child(run, c)];
    assert KidOk(s.rows, s.actors, run, c);
    KidHasMail(s, run, c);
    assert x.mailbox == [x.mailbox[0]] + x.mailbox[1..];
    KidMoves(s, run, c, Recv(Hears(x)), x.mailbox[1..]);
  }

  lemma KidHasMail(s: State, run: RunId, c: CalcId)
    requires RunInv(s, run) && c in s.runActors[run].spawned && Possible(s, Deliver(Child(run, c)))
    ensures s.actors[Child(run, c)].mailbox != []
  {
    var ra := s.runActors[run];
    var x := s.actors[Child(run, c)];
    assert c !in ra.kids ==> IsDone(s, run, c);
    assert c in ra.kids && !ra.pc.Left? ==> x.open;
    assert c in ra.kids && ra.pc.Left? ==> Coming(x);
  }

  lemma KidStore(s: State, run: RunId, c: CalcId, expires: int, r: Reply)
    requires RunInv(s, run) && c in s.runActors[run].spawned && Possible(s, Store(Child(run, c), expires, r)) && r.ok
    ensures RunInv(StoreStep(s, Child(run, c), expires, r), run)
  {
    var a := Child(run, c);
    var x := s.actors[a];
    assert KidOk(s.rows, s.actors, run, c);
    KidSteps(x.m, Stored(expires, r));
    KidStores(x.m, expires, r);
    KidChangesKeeps(s, StoreStep(s, a, expires, r), run, c);
  }

  /** The notification: counted when the run actor takes it, lost when the run actor has left. */
  lemma KidReport(s: State, run: RunId, c: CalcId)
    requires RunInv(s, run) && c in s.runActors[run].spawned && Possible(s, Report(Child(run, c)))
    ensures RunInv(Next(s, Report(Child(run, c))), run)
  {
    var a := Child(run, c);
    var ra := s.runActors[run];
    var s1 := Move(s, a, Sent);
    var s' := Delivered(s1, a);
    assert KidOk(s.rows, s.actors, run, c) && !IsDone(s, run, c);
    KidAltersKeepsKids(s, s1, run, c);
    DeliveredCounts(s, s1, run, c);
  }

  lemma DeliveredCounts(s: State, s1: State, run: RunId, c: CalcId)
    requires RunInv(s, run) && c in s.runActors[run].spawned && !IsDone(s, run, c)
    requires KidAlters(s, s1, run, c) && s1.rows == s.rows && IsDone(s1, run, c)
    requires s1.actors[Child(run, c)] == s.actors[Child(run, c)].(m := s1.actors[Child(run, c)].m)
    requires KidsOk(s1, run, s.runActors[run].spawned)
    requires forall d :: d in s.runActors[run].spawned && d != c ==> (IsDone(s1, run, d) <==> IsDone(s, run, d))
    ensures RunInv(Delivered(s1, Child(run, c)), run)
  {
    var s' := Delivered(s1, Child(run, c));
    AlikeKeepsKids(s1, s', run, s.runActors[run].spawned);
    DeliveredCountOk(s, s1, run, c);
    DeliveredMailOk(s, s1, run, c);
  }

  lemma NoDupSnoc(q: seq<CalcId>, c: CalcId)
    requires NoDup(q) && c !in q
    ensures NoDup(q + [c]) && forall d :: d in q + [c] <==> d in q || d == c
  {
  }

  lemma DeliveredCountOk(s: State, s1: State, run: RunId, c: CalcId)
    requires run in s.runActors && s1.runActors == s.runActors && CountOk(s, run, s.runActors[run])
    requires c in s.runActors[run].spawned && !IsDone(s, run, c) && IsDone(s1, run, c)
    requires forall d :: d in s.runActors[run].spawned && d != c ==> (IsDone(s1, run, d) <==> IsDone(s, run, d))
    ensures var s' := Delivered(s1, Child(run, c)); CountOk(s', run, s'.runActors[run])
  {
    var ra := s.runActors[run];
    var s' := Delivered(s1, Child(run, c));
    assert c in ra.kids && (!ra.pc.Left? ==> c !in ra.queue);
    if !ra.pc.Left? { NoDupSnoc(ra.queue, c); }
    assert forall d :: IsDone(s', run, d) <==> IsDone(s1, run, d);
  }

  lemma DeliveredMailOk(s: State, s1: State, run: RunId, c: CalcId)
    requires run in s.runActors && s1.runActors == s.runActors && MailOk(s, run, s.runActors[run])
    requires Child(run, c) in s.actors && IsDone(s1, run, c)
    requires s1.actors == s.actors[Child(run, c) := s1.actors[Child(run, c)]]
    requires s1.actors[Child(run, c)].open == s.actors[Child(run, c)].open
    ensures var s' := Delivered(s1, Child(run, c)); MailOk(s', run, s'.runActors[run])
  {
  }

  // ── Steps of the run actor ─────────────────────────────────────────────────

  /** The same rows, machines and identifiers. */
  ghost predicate Alike(s: State, s': State) {
    && s'.rows == s.rows && s'.actors.Keys == s.actors.Keys
    && forall a :: a in s.actors ==> s'.actors[a].id == s.actors[a].id && s'.actors[a].m == s.actors[a].m
  }

  lemma AlikeKeepsKids(s: State, s': State, run: RunId, spawned: set<CalcId>)
    requires KidsOk(s, run, spawned) && Alike(s, s')
    ensures KidsOk(s', run, spawned)
    ensures forall c :: IsDone(s', run, c) <==> IsDone(s, run, c)
  {
    forall c | c in spawned ensures KidOk(s'.rows, s'.actors, run, c) { assert KidOk(s.rows, s.actors, run, c); }
  }

  lemma NoDupTail(q: seq<CalcId>)
    requires NoDup(q) && q != []
    ensures NoDup(q[1..]) && q[0] !in q[1..] && forall c :: c in q <==> c == q[0] || c in q[1..]
  {
    assert q == [q[0]] + q[1..];
  }

  lemma TakeKeeps(s: State, run: RunId)
    requires RunInv(s, run) && Possible(s, RunTake(run))
    ensures RunInv(TakeStep(s, run), run)
  {
    var ra := s.runActors[run];
    var s' := TakeStep(s, run);
    NoDupTail(ra.queue);
    assert IsDone(s, run, ra.queue[0]);
    AlikeKeepsKids(s, s', run, ra.spawned);
    TakeKeepsCount(s, run);
    TakeKeepsMail(s, run);
    hide KidsOk, CountOk, MailOk;
  }

  lemma TakeKeepsCount(s: State, run: RunId)
    requires RunInv(s, run) && Possible(s, RunTake(run))
    ensures CountOk(TakeStep(s, run), run, TakeStep(s, run).runActors[run])
  {
    var ra := s.runActors[run];
    hide KidsOk, MailOk, StatusOk, Apart;
    NoDupTail(ra.queue);
    assert IsDone(s, run, ra.queue[0]);
  }

  lemma TakeKeepsMail(s: State, run: RunId)
    requires RunInv(s, run) && Possible(s, RunTake(run))
    ensures MailOk(TakeStep(s, run), run, TakeStep(s, run).runActors[run])
  {
    hide KidsOk, StatusOk, Apart;
  }

  /** When no child is left, the run is over. */
  lemma NoKidsMeansTerminal(s: State, run: RunId)
    requires RunInv(s, run) && s.runActors[run].kids == {}
    ensures Terminal(s.rows, run)
  {
    forall c | c in s.rows && s.rows[c].runId == run ensures s.rows[c].status.IsTerminal() {
      if c in s.runActors[run].spawned {
        assert KidOk(s.rows, s.actors, run, c) && IsDone(s, run, c);
      }
    }
  }

  lemma ReadDerives(s: State, run: RunId)
    requires RunInv(s, run)
    ensures var st := DeriveOfSet(StatusesOf(s.rows, run));
            Derived(s.rows, run, st) || (st == RunRunning && s.runActors[run].kids != {})
  {
    if !Terminal(s.rows, run) {
      var c :| c in s.rows && s.rows[c].runId == run && !s.rows[c].status.IsTerminal();
      assert s.rows[c].status in StatusesOf(s.rows, run);
      if s.runActors[run].kids == {} { NoKidsMeansTerminal(s, run); }
    }
  }

  lemma ReadKeeps(s: State, run: RunId)
    requires RunInv(s, run) && Possible(s, RunRead(run))
    ensures RunInv(ReadStep(s, run), run)
  {
    ReadDerives(s, run);
    assert forall c :: IsDone(ReadStep(s, run), run, c) <==> IsDone(s, run, c);
  }

  lemma StatusKeeps(s: State, run: RunId)
    requires RunInv(s, run) && Possible(s, RunStore(run, true))
    ensures RunInv(StatusStep(s, run, true), run)
  {
    var ra := s.runActors[run];
    var s' := StatusStep(s, run, true);
    assert ra.finished >= |ra.spawned| ==> ra.kids == {};
    assert forall c :: IsDone(s', run, c) <==> IsDone(s, run, c);
  }

  lemma CancelKeeps(s: State, run: RunId)
    requires RunInv(s, run) && Possible(s, RunCancel(run))
    ensures RunInv(Next(s, RunCancel(run)), run)
  {
    var s' := Next(s, RunCancel(run));
    assert forall c :: IsDone(s', run, c) <==> IsDone(s, run, c);
  }

  lemma TellMailOk(s: State, run: RunId, c: CalcId)
    requires Possible(s, RunTell(run, c)) && MailOk(s, run, s.runActors[run]) && Child(run, c) in s.actors
    ensures var s' := TellStep(s, run, c); MailOk(s', run, s'.runActors[run])
  {
    var s' := TellStep(s, run, c);
    assert Cancel in s'.actors[Child(run, c)].mailbox;
    assert forall d :: d != c && Child(run, d) in s'.actors ==> s'.actors[Child(run, d)] == s.actors[Child(run, d)];
  }

  lemma TellKeeps(s: State, run: RunId, c: CalcId)
    requires RunInv(s, run) && Possible(s, RunTell(run, c))
    ensures RunInv(TellStep(s, run, c), run)
  {
    var ra := s.runActors[run];
    var s' := TellStep(s, run, c);
    assert c in ra.kids && KidOk(s.rows, s.actors, run, c);
    AlikeKeepsKids(s, s', run, ra.spawned);
    TellMailOk(s, run, c);
    assert CountOk(s', run, s'.runActors[run]);
  }

  lemma LeaveKeeps(s: State, run: RunId)
    requires RunInv(s, run) && Possible(s, RunLeave(run))
    ensures RunInv(LeaveStep(s, run), run)
  {
    var ra := s.runActors[run];
    var s' := LeaveStep(s, run);
    AlikeKeepsKids(s, s', run, ra.spawned);
    assert CountOk(s', run, s'.runActors[run]);
    assert MailOk(s', run, s'.runActors[run]);
  }

  // ── Steps of everybody else ────────────────────────────────────────────────

  /** The actor is on a row of the run. */
  predicate OnRun(s: State, a: ActorId, run: RunId) {
    a in s.actors && s.actors[a].id in s.rows && s.rows[s.actors[a].id].runId == run
  }

  lemma OnRunIsKid(s: State, a: ActorId, run: RunId)
    requires RunInv(s, run) && a in s.actors
    ensures OnRun(s, a, run) <==> a.Child? && a.run == run
    ensures OnRun(s, a, run) ==> a == Child(run, s.actors[a].id) && s.actors[a].id in s.runActors[run].spawned
  {
    if a.Child? && a.run == run { assert KidOk(s.rows, s.actors, run, a.id); }
  }

  lemma TableKeeps(s: State, t: Table, run: RunId)
    requires RunInv(s, run)
    requires forall c :: c in s.rows ==> c in t && t[c].runId == s.rows[c].runId
    requires forall c :: c in t && t[c].runId == run ==> c in s.rows && t[c].status == s.rows[c].status
    ensures RunInv(s.(rows := t), run)
  {
    SameKeeps(s, s.(rows := t), run);
  }

  lemma PutElsewhere(s: State, c: CalcId, w: Write, at: int, run: RunId)
    requires RunInv(s, run) && (w.Beat? || c !in s.rows || s.rows[c].runId != run)
    ensures RunInv(Update(s, c, w, at), run)
  {
    hide RunInv;
    TableKeeps(s, Put(s.rows, c, w, at), run);
  }

  /** An actor that is not on the run, or a new one on no row of the run. */
  lemma ActorKeeps(s: State, a: ActorId, x: Actor, run: RunId)
    requires RunInv(s, run)
    requires if a in s.actors then !OnRun(s, a, run) && x.id == s.actors[a].id
             else a.Extra? && (x.id in s.rows ==> s.rows[x.id].runId != run)
    ensures RunInv(s.(actors := s.actors[a := x]), run)
  {
    SameKeeps(s, s.(actors := s.actors[a := x]), run);
  }

  lemma OtherRunKeeps(s: State, other: RunId, ra: RunActor, run: RunId)
    requires RunInv(s, run) && other != run
    ensures RunInv(With(s, other, ra), run)
  {
    SameKeeps(s, With(s, other, ra), run);
  }

  /** Permits and the watchdog's list play no part. */
  lemma RestKeeps(s: State, s': State, run: RunId)
    requires RunInv(s, run)
    requires s'.rows == s.rows && s'.runs == s.runs && s'.actors == s.actors && s'.runActors == s.runActors
    requires Apart(s', run)
    ensures RunInv(s', run)
  {
    SameKeeps(s, s', run);
  }

  lemma MoveElsewhere(s: State, a: ActorId, i: Input, run: RunId)
    requires RunInv(s, run) && a in s.actors && Enabled(s.actors[a].m, i) && !OnRun(s, a, run)
    ensures RunInv(Move(s, a, i), run)
  {
    var s1 := s.(actors := s.actors[a := s.actors[a].(m := Step(s.actors[a].m, i))]);
    ActorKeeps(s, a, s1.actors[a], run);
    RestKeeps(s1, Move(s, a, i), run);
  }

  lemma DeliverElsewhere(s: State, a: ActorId, run: RunId)
    requires RunInv(s, run) && Possible(s, Deliver(a)) && !OnRun(s, a, run)
    ensures RunInv(DeliverStep(s, a), run)
  {
    hide RunInv, Step;
    MoveElsewhere(s, a, Recv(Hears(s.actors[a])), run);
    ActorKeeps(Move(s, a, Recv(Hears(s.actors[a]))), a, DeliverStep(s, a).actors[a], run);
  }

  lemma StoreElsewhere(s: State, a: ActorId, expires: int, r: Reply, run: RunId)
    requires RunInv(s, run) && Possible(s, Store(a, expires, r)) && !OnRun(s, a, run)
    ensures RunInv(StoreStep(s, a, expires, r), run)
  {
    hide RunInv, Step;
    var x := s.actors[a];
    MoveElsewhere(s, a, Stored(expires, r), run);
    PutElsewhere(Move(s, a, Stored(expires, r)), x.id, PendingWrite(x.m, expires), r.at, run);
  }

  lemma ReportElsewhere(s: State, a: ActorId, run: RunId)
    requires RunInv(s, run) && Possible(s, Report(a)) && !OnRun(s, a, run)
    ensures RunInv(Next(s, Report(a)), run)
  {
    OnRunIsKid(s, a, run);
    hide RunInv, Step;
    MoveElsewhere(s, a, Sent, run);
    var s1 := Move(s, a, Sent);
    if Delivered(s1, a) != s1 {
      var ra := s1.runActors[a.run];
      OtherRunKeeps(s1, a.run, ra.(queue := ra.queue + [a.id]), run);
    }
  }

  lemma PostElsewhere(s: State, a: ActorId, cmd: Cmd, run: RunId)
    requires RunInv(s, run) && !OnRun(s, a, run)
    ensures RunInv(Post(s, a, cmd), run)
  {
    hide RunInv;
    if a in s.actors { ActorKeeps(s, a, Post(s, a, cmd).actors[a], run); }
  }

  lemma HangUpElsewhere(s: State, a: ActorId, run: RunId)
    requires RunInv(s, run) && !OnRun(s, a, run)
    ensures RunInv(HangUp(s, a), run)
  {
    hide RunInv;
    if a in s.actors { ActorKeeps(s, a, HangUp(s, a).actors[a], run); }
  }

  lemma NotOnRun(s: State, a: ActorId, run: RunId)
    requires RunInv(s, run) && !(a.Child? && a.run == run)
    ensures !OnRun(s, a, run)
  {
    if a in s.actors { OnRunIsKid(s, a, run); }
  }

  lemma TakeElsewhere(s: State, other: RunId, run: RunId)
    requires RunInv(s, run) && Possible(s, RunTake(other)) && other != run
    ensures RunInv(TakeStep(s, other), run)
  {
    hide RunInv;
    var ra := s.runActors[other];
    var s1 := With(s, other, TakeStep(s, other).runActors[other]);
    OtherRunKeeps(s, other, s1.runActors[other], run);
    NotOnRun(s1, Child(other, ra.queue[0]), run);
    HangUpElsewhere(s1, Child(other, ra.queue[0]), run);
  }

  lemma TellElsewhere(s: State, other: RunId, c: CalcId, run: RunId)
    requires RunInv(s, run) && Possible(s, RunTell(other, c)) && other != run
    ensures RunInv(TellStep(s, other, c), run)
  {
    hide RunInv;
    var s1 := With(s, other, TellStep(s, other, c).runActors[other]);
    OtherRunKeeps(s, other, s1.runActors[other], run);
    NotOnRun(s1, Child(other, c), run);
    PostElsewhere(s1, Child(other, c), Cancel, run);
  }

  lemma RunIsKnown(s: State, run: RunId)
    requires RunInv(s, run)
    ensures run in s.runActors && run in s.runs && Apart(s, run)
  {
  }

  lemma LeaveElsewhere(s: State, other: RunId, run: RunId)
    requires RunInv(s, run) && Possible(s, RunLeave(other)) && other != run
    ensures RunInv(LeaveStep(s, other), run)
  {
    RunIsKnown(s, run);
    forall a | a in s.actors && OnRun(s, a, run) ensures a.Child? && a.run == run { OnRunIsKid(s, a, run); }
    LeaveIsSame(s, other, run);
    hide RunInv, Same, LeaveStep;
    SameKeeps(s, LeaveStep(s, other), run);
  }

  lemma LeaveIsSame(s: State, other: RunId, run: RunId)
    requires run in s.runActors && run in s.runs && Apart(s, run) && Possible(s, RunLeave(other)) && other != run
    requires forall a :: a in s.actors && OnRun(s, a, run) ==> a.Child? && a.run == run
    ensures Same(s, LeaveStep(s, other), run)
  {
  }

  lemma ChildrenElsewhere(s: State, other: RunId, run: RunId)
    requires RunInv(s, run) && other != run
    requires forall c :: Child(other, c) !in s.actors
    ensures RunInv(s.(actors := s.actors + Children(s, other)), run)
  {
    RunIsKnown(s, run);
    ChildrenAreSame(s, other, run);
    hide RunInv, Same;
    SameKeeps(s, s.(actors := s.actors + Children(s, other)), run);
  }

  lemma ChildrenAreSame(s: State, other: RunId, run: RunId)
    requires run in s.runActors && run in s.runs && Apart(s, run) && other != run
    requires forall c :: Child(other, c) !in s.actors
    ensures Same(s, s.(actors := s.actors + Children(s, other)), run)
  {
    var kids := Children(s, other);
    forall a | a in kids
      ensures a.Child? && a.run == other && a !in s.actors && kids[a].id in s.rows && s.rows[kids[a].id].runId == other
    {
    }
  }

  lemma SpawnElsewhere(s: State, other: RunId, run: RunId)
    requires RunInv(s, run) && Possible(s, Spawn(other)) && ChildrenKnown(s)
    ensures RunInv(SpawnStep(s, other), run)
  {
    assert other != run;
    assert forall c :: Child(other, c) !in s.actors;
    ChildrenElsewhere(s, other, run);
    OtherRunKeeps(s.(actors := s.actors + Children(s, other)), other, SpawnStep(s, other).runActors[other], run);
  }

  lemma IsApart(s: State, run: RunId)
    requires RunInv(s, run)
    ensures Apart(s, run)
  {
  }

  lemma AddExtra(s: State, n: nat, x: Actor, extras: map<CalcId, ActorId>, run: RunId)
    requires RunInv(s, run) && Extra(n) !in s.actors && (x.id in s.rows ==> s.rows[x.id].runId != run)
    requires forall c :: c in extras ==> extras[c].Extra?
    ensures RunInv(s.(actors := s.actors[Extra(n) := x], extras := extras, fetched := None), run)
  {
    ActorKeeps(s, Extra(n), x, run);
    var s1 := s.(actors := s.actors[Extra(n) := x]);
    RestKeeps(s1, s1.(extras := extras, fetched := None), run);
  }

  lemma RespawnElsewhere(s: State, n: nat, run: RunId)
    requires RunInv(s, run) && Possible(s, Respawn(n))
    ensures RunInv(RespawnStep(s, n), run)
  {
    IsApart(s, run);
    hide RunInv;
    var x := s.fetched.value;
    var s1 := if x.id in s.extras then HangUp(s, s.extras[x.id]) else s;
    if x.id in s.extras {
      NotOnRun(s, s.extras[x.id], run);
      HangUpElsewhere(s, s.extras[x.id], run);
    }
    var extra := NewActor(x.id, x.attempt, x.max, s.cfg, "watchdog-" + x.id);
    AddExtra(s1, n, extra, s.extras[x.id := Extra(n)], run);
  }

  lemma CancelElsewhere(s: State, c: CalcId, run: RunId)
    requires RunInv(s, run) && c in s.extras
    ensures RunInv(CancelStep(s, c), run) && RunInv(DropStep(s, c), run)
  {
    var a := s.extras[c];
    NotOnRun(s, a, run);
    PostElsewhere(s, a, Cancel, run);
    NotOnRun(Post(s, a, Cancel), a, run);
    HangUpElsewhere(Post(s, a, Cancel), a, run);
    RestKeeps(HangUp(Post(s, a, Cancel), a), CancelStep(s, c), run);
    HangUpElsewhere(s, a, run);
    RestKeeps(HangUp(s, a), DropStep(s, c), run);
  }

  lemma RunStatusElsewhere(s: State, other: RunId, ok: bool, run: RunId)
    requires RunInv(s, run) && other != run && (Possible(s, RunStore(other, ok)))
    ensures RunInv(StatusStep(s, other, ok), run)
  {
    SameKeeps(s, StatusStep(s, other, ok), run);
  }

  lemma AddKeeps(s: State, l: Label, run: RunId)
    requires RunInv(s, run) && Possible(s, l) && (l.AddRun? || l.CancelRun?)
    ensures RunInv(Next(s, l), run)
  {
    if l.AddRun? {
      SameKeeps(s, s.(runs := s.runs[l.run := RunPending]), run);
    } else if l.run != run {
      OtherRunKeeps(s, l.run, s.runActors[l.run].(cancel := true), run);
    } else {
      assert forall c :: IsDone(Next(s, l), run, c) <==> IsDone(s, run, c);
    }
  }

  // ── All steps ──────────────────────────────────────────────────────────────

  lemma KidKeeps(s: State, l: Label, run: RunId)
    requires RunInv(s, run) && Possible(s, l) && OfActor(l) && OnRun(s, l.a, run) && !Touches(s, l, run)
    ensures RunInv(Next(s, l), run)
  {
    OnRunIsKid(s, l.a, run);
    var c := s.actors[l.a].id;
    hide RunInv, Step, DeliverStep, StoreStep;
    match l {
      case Deliver(a) => KidDeliver(s, run, c);
      case Grant(a) => KidThinks(s, run, c, Permit(true));
      case Store(a, expires, r) => KidStore(s, run, c, expires, r);
      case Think(a, i) => KidThinks(s, run, c, i);
      case Report(a) => KidReport(s, run, c);
    }
  }

  lemma KidThinks(s: State, run: RunId, c: CalcId, i: Input)
    requires RunInv(s, run) && c in s.runActors[run].spawned && Child(run, c) in s.actors
    requires Enabled(s.actors[Child(run, c)].m, i) && (i == Permit(true) || i.Published? || i.Answer? || i.Timer?)
    ensures RunInv(Move(s, Child(run, c), i), run)
  {
    var a := Child(run, c);
    var x := s.actors[a];
    assert KidOk(s.rows, s.actors, run, c);
    KidSteps(x.m, i);
    KidMoves(s, run, c, i, x.mailbox);
    var s' := Move(s, a, i);
    assert s'.actors[a := s'.actors[a].(mailbox := x.mailbox)] == s'.actors;
  }

  lemma ActorElsewhere(s: State, l: Label, run: RunId)
    requires RunInv(s, run) && Possible(s, l) && OfActor(l) && !OnRun(s, l.a, run)
    ensures RunInv(Next(s, l), run)
  {
    hide RunInv, Move, DeliverStep, StoreStep, Delivered, Step;
    match l {
      case Deliver(a) => DeliverElsewhere(s, a, run);
      case Grant(a) => MoveElsewhere(s, a, Permit(true), run);
      case Store(a, expires, r) => StoreElsewhere(s, a, expires, r, run);
      case Think(a, i) => MoveElsewhere(s, a, i, run);
      case Report(a) => ReportElsewhere(s, a, run);
    }
  }

  lemma OwnKeeps(s: State, l: Label, run: RunId)
    requires RunInv(s, run) && Possible(s, l) && OfRunActor(l) && l.run == run && !Touches(s, l, run)
    ensures RunInv(Next(s, l), run)
  {
    hide TakeStep, ReadStep, StatusStep, TellStep, LeaveStep, KidsOk, CountOk, MailOk, StatusOk, Apart;
    match l {
      case RunTake(_) => TakeKeeps(s, run);
      case RunRead(_) => ReadKeeps(s, run);
      case RunStore(_, _) => StatusKeeps(s, run);
      case RunCancel(_) => CancelKeeps(s, run);
      case RunTell(_, c) => TellKeeps(s, run, c);
      case RunLeave(_) => LeaveKeeps(s, run);
    }
  }

  lemma RunActorElsewhere(s: State, l: Label, run: RunId)
    requires RunInv(s, run) && ChildrenKnown(s) && Possible(s, l) && OfRunActor(l) && l.run != run
    ensures RunInv(Next(s, l), run)
  {
    hide RunInv, ChildrenKnown, SpawnStep, TakeStep, StatusStep, TellStep, LeaveStep;
    match l {
      case Spawn(other) => SpawnElsewhere(s, other, run);
      case RunTake(other) => TakeElsewhere(s, other, run);
      case RunRead(other) => OtherRunKeeps(s, other, Next(s, l).runActors[other], run);
      case RunStore(other, ok) => RunStatusElsewhere(s, other, ok, run);
      case RunCancel(other) => OtherRunKeeps(s, other, Next(s, l).runActors[other], run);
      case RunTell(other, c) => TellElsewhere(s, other, c, run);
      case RunLeave(other) => LeaveElsewhere(s, other, run);
    }
  }

  lemma AddCalcKeeps(s: State, c: CalcId, other: RunId, max: nat, at: int, run: RunId)
    requires RunInv(s, run) && Possible(s, AddCalc(c, other, max, at))
    ensures RunInv(s.(rows := s.rows[c := NewRow(other, max, at)]), run)
  {
    TableKeeps(s, s.rows[c := NewRow(other, max, at)], run);
  }

  lemma ReapElsewhere(s: State, x: Seen, r: Reply, run: RunId)
    requires RunInv(s, run) && (x.id in s.rows ==> s.rows[x.id].runId != run)
    ensures RunInv(ReapStep(s, x, r), run)
  {
    var s1 := s.(expired := s.expired - {x});
    RestKeeps(s, s1, run);
    PutElsewhere(s1, x.id, ReapWrite(x.attempt, x.max, s.scannedAt), r.at, run);
  }

  lemma TableElsewhere(s: State, l: Label, run: RunId)
    requires RunInv(s, run) && Possible(s, l) && !Touches(s, l, run)
    requires !OfActor(l) && !OfRunActor(l)
    ensures RunInv(Next(s, l), run)
  {
    RunActorsNotEmpty(s, run);
    if l.Fetch? || l.Scan? {
      RestKeeps(s, Next(s, l), run);
    } else {
      hide RunInv, RespawnStep, CancelStep, DropStep, ReapStep, Update, Sweep, CrashStep;
      match l {
        case Heartbeat(c, expires, at) => PutElsewhere(s, c, Beat(expires), at, run);
        case AddRun(_) => AddKeeps(s, l, run);
        case CancelRun(_) => AddKeeps(s, l, run);
        case AddCalc(c, other, max, at) => AddCalcKeeps(s, c, other, max, at, run);
        case ResetCalc(c, r) => PutElsewhere(s, c, Pending, r.at, run);
        case Respawn(n) => RespawnElsewhere(s, n, run);
        case CancelCalc(c) => CancelElsewhere(s, c, run);
        case DropCalc(c) => CancelElsewhere(s, c, run);
        case Reap(x, r) => ReapElsewhere(s, x, r, run);
      }
    }
  }

  lemma RunActorsNotEmpty(s: State, run: RunId)
    requires RunInv(s, run)
    ensures s.runActors != map[] && run in s.runActors
  {
  }

  lemma NextKeepsRun(s: State, l: Label, run: RunId)
    requires RunInv(s, run) && ChildrenKnown(s) && Possible(s, l) && !Touches(s, l, run)
    ensures RunInv(Next(s, l), run)
  {
    RunActorsNotEmpty(s, run);
    hide RunInv, ChildrenKnown, Next;
    if OfActor(l) {
      if OnRun(s, l.a, run) { KidKeeps(s, l, run); } else { ActorElsewhere(s, l, run); }
    } else if OfRunActor(l) {
      if l.run == run { OwnKeeps(s, l, run); } else { RunActorElsewhere(s, l, run); }
    } else {
      TableElsewhere(s, l, run);
    }
  }

  // ── The main results ───────────────────────────────────────────────────────

  /** A list of steps in which nothing touches the run. */
  predicate Quiet(s: State, ls: seq<Label>, run: RunId)
    decreases |ls|
  {
    ls == [] || (Possible(s, ls[0]) && !Touches(s, ls[0], run) && Quiet(Next(s, ls[0]), ls[1..], run))
  }

  lemma {:induction false} QuietKeepsRun(s: State, ls: seq<Label>, run: RunId)
    requires RunInv(s, run) && ChildrenKnown(s) && Quiet(s, ls, run)
    ensures Run(s, ls).Some? && RunInv(Run(s, ls).value, run)
    decreases |ls|
  {
    if ls != [] {
      NextKeepsRun(s, ls[0], run);
      NextKeepsChildrenKnown(s, ls[0]);
      QuietKeepsRun(Next(s, ls[0]), ls[1..], run);
    }
  }

  /** A run about to be spawned: nobody is on its rows, and no final status is stored. */
  ghost predicate Untouched(s: State, run: RunId) {
    && run in s.runs && run !in s.runActors
    && (s.runs[run] == RunPending || s.runs[run] == RunRunning)
    && (forall a :: a in s.actors ==> !OnRun(s, a, run))
    && Apart(s, run) && ChildrenKnown(s)
  }

  lemma SpawnEstablishes(s: State, run: RunId)
    requires Untouched(s, run)
    ensures RunInv(SpawnStep(s, run), run) && ChildrenKnown(SpawnStep(s, run))
  {
    var s' := SpawnStep(s, run);
    var kids := ActiveOf(s.rows, run);
    forall c | c in kids ensures KidOk(s'.rows, s'.actors, run, c) && !IsDone(s', run, c) && s'.actors[Child(run, c)].open {
      assert Child(run, c) in Children(s, run);
    }
    forall a | a in s'.actors && s'.actors[a].id in s'.rows && s'.rows[s'.actors[a].id].runId == run
      ensures a == Child(run, s'.actors[a].id) && s'.actors[a].id in kids
    {
      assert a !in s.actors || a in Children(s, run);
      assert a in Children(s, run);
    }
    NextKeepsChildrenKnown(s, Spawn(run));
  }

  /**
   From the spawn on, at every step: finished and live children add up to the total; a stored status other than
   pending or running is the derived one of a finished run; a stopped child has left its row terminal; and once the
   run actor has left because all have finished, the run is over and its stored status is the derived one.
   */
  lemma RunIsCountedAndReported(s: State, ls: seq<Label>, run: RunId)
    requires Untouched(s, run) && Quiet(SpawnStep(s, run), ls, run)
    ensures Run(SpawnStep(s, run), ls).Some?
    ensures var s' := Run(SpawnStep(s, run), ls).value;
            && run in s'.runActors && run in s'.runs
            && var ra := s'.runActors[run];
            && ra.finished + |ra.kids| == |ra.spawned|
            && (s'.runs[run] == RunPending || s'.runs[run] == RunRunning || Derived(s'.rows, run, s'.runs[run]))
            && (forall c :: c in ra.spawned && IsDone(s', run, c) ==> c in s'.rows && s'.rows[c].status.IsTerminal())
            && (ra.pc == Left(true) ==> Derived(s'.rows, run, s'.runs[run]))
  {
    SpawnEstablishes(s, run);
    QuietKeepsRun(SpawnStep(s, run), ls, run);
    var s' := Run(SpawnStep(s, run), ls).value;
    forall c | c in s'.runActors[run].spawned && IsDone(s', run, c)
      ensures c in s'.rows && s'.rows[c].status.IsTerminal()
    {
      assert KidOk(s'.rows, s'.actors, run, c);
    }
  }

  /**
   Only the run actor stores a status, so what a run shows when its actor leaves is what it shows from then on, until
   the process ends. After a cancel that is a status stored before the children were told.
   */
  lemma {:induction false} StatusIsFrozenOnceLeft(s: State, ls: seq<Label>, run: RunId)
    requires run in s.runs && run in s.runActors && s.runActors[run].pc.Left?
    requires Run(s, ls).Some? && forall l :: l in ls ==> !l.Crash?
    ensures var s' := Run(s, ls).value;
            run in s'.runs && s'.runs[run] == s.runs[run] && run in s'.runActors && s'.runActors[run].pc == s.runActors[run].pc
    decreases |ls|
  {
    if ls != [] {
      assert ls[0] in ls;
      LeftStays(s, ls[0], run);
      StatusIsFrozenOnceLeft(Next(s, ls[0]), ls[1..], run);
    }
  }

  lemma LeftStays(s: State, l: Label, run: RunId)
    requires run in s.runs && run in s.runActors && s.runActors[run].pc.Left? && Possible(s, l) && !l.Crash?
    ensures var s' := Next(s, l);
            run in s'.runs && s'.runs[run] == s.runs[run] && run in s'.runActors && s'.runActors[run].pc == s.runActors[run].pc
  {
    hide Move, Put, Sweep, Step;
    if OfActor(l) {
      MoveLeavesRuns(s, l);
    }
  }

  lemma MoveLeavesRuns(s: State, l: Label)
    requires Possible(s, l) && OfActor(l)
    ensures var s' := Next(s, l);
            s'.runs == s.runs && s'.runActors.Keys == s.runActors.Keys &&
            forall r :: r in s.runActors ==> s'.runActors[r].pc == s.runActors[r].pc
  {
  }

  // ── When the frozen status is right ────────────────────────────────────────

  /** A final status: neither pending nor running. */
  predicate Final(st: RunStatus) { st != RunPending && st != RunRunning }

  lemma DerivedIsFinal(t: Table, run: RunId)
    requires Terminal(t, run) && StatusesOf(t, run) != {}
    ensures Final(DeriveOfSet(StatusesOf(t, run)))
  {
    var present := StatusesOf(t, run);
    forall st | st in present ensures st.IsTerminal() {
      var c :| c in t && t[c].runId == run && t[c].status == st;
    }
  }

  lemma {:induction false} QuietHasNoCrash(s: State, ls: seq<Label>, run: RunId, l: Label)
    requires Quiet(s, ls, run) && l in ls
    ensures !l.Crash?
    decreases |ls|
  {
    hide Next, Possible;
    if l != ls[0] {
      assert l in ls[1..];
      QuietHasNoCrash(Next(s, ls[0]), ls[1..], run, l);
    }
  }

  /** Of a finished run the stored status is right if and only if it is final. */
  lemma StoredIsRightIffFinal(s: State, ls: seq<Label>, run: RunId)
    requires Untouched(s, run) && Quiet(SpawnStep(s, run), ls, run) && Run(SpawnStep(s, run), ls).Some?
    requires var t := Run(SpawnStep(s, run), ls).value.rows; Terminal(t, run) && StatusesOf(t, run) != {}
    ensures var s' := Run(SpawnStep(s, run), ls).value;
            run in s'.runs && (s'.runs[run] == DeriveOfSet(StatusesOf(s'.rows, run)) <==> Final(s'.runs[run]))
  {
    hide Run, SpawnStep, Quiet, Untouched, Terminal, StatusesOf;
    RunIsCountedAndReported(s, ls, run);
    DerivedIsFinal(Run(SpawnStep(s, run), ls).value.rows, run);
  }

  /**
   The exact condition for what a finished run shows: `earlier` steps after which its actor has left, for whatever
   reason, then `later` ones after which all its rows are terminal. What it then shows is the derived status if and only
   if the status stored when the actor left was final.
   */
  lemma StatusIsRightIffFinalWhenLeft(s: State, earlier: seq<Label>, later: seq<Label>, run: RunId)
    requires Untouched(s, run) && Quiet(SpawnStep(s, run), earlier, run) && Run(SpawnStep(s, run), earlier).Some?
    requires var s1 := Run(SpawnStep(s, run), earlier).value;
             && run in s1.runActors && s1.runActors[run].pc.Left?
             && Quiet(s1, later, run) && Run(s1, later).Some?
             && var t := Run(s1, later).value.rows;
             Terminal(t, run) && StatusesOf(t, run) != {}
    ensures var s1 := Run(SpawnStep(s, run), earlier).value;
            var s2 := Run(s1, later).value;
            run in s1.runs && run in s2.runs &&
            (s2.runs[run] == DeriveOfSet(StatusesOf(s2.rows, run)) <==> Final(s1.runs[run]))
  {
    hide Run, Quiet, Untouched, Terminal, StatusesOf, RunInv, SpawnStep;
    var s0 := SpawnStep(s, run);
    SpawnEstablishes(s, run);
    QuietKeepsRun(s0, earlier, run);
    var s1 := Run(s0, earlier).value;
    QuietKeepsKnown(s0, earlier, run);
    QuietKeepsRun(s1, later, run);
    forall l | l in later ensures !l.Crash? { QuietHasNoCrash(s1, later, run, l); }
    StoredIs(s1, run);
    StoredIs(Run(s1, later).value, run);
    StatusIsFrozenOnceLeft(s1, later, run);
    DerivedIsFinal(Run(s1, later).value.rows, run);
  }

  lemma StoredIs(s: State, run: RunId)
    requires RunInv(s, run)
    ensures run in s.runs && (Final(s.runs[run]) ==> s.runs[run] == DeriveOfSet(StatusesOf(s.rows, run)))
  {
  }

  lemma {:induction false} QuietKeepsKnown(s: State, ls: seq<Label>, run: RunId)
    requires RunInv(s, run) && ChildrenKnown(s) && Quiet(s, ls, run) && Run(s, ls).Some?
    ensures ChildrenKnown(Run(s, ls).value)
    decreases |ls|
  {
    hide Next, Possible, RunInv, ChildrenKnown;
    if ls != [] {
      NextKeepsRun(s, ls[0], run);
      NextKeepsChildrenKnown(s, ls[0]);
      QuietKeepsKnown(Next(s, ls[0]), ls[1..], run);
    }
  }
}
