/**
 Coming back after a crash: the sweep (crates/runsd/src/db/queries.rs:438-488) and one pass of the watchdog
 (crates/runsd/src/actor/watchdog.rs:16-62).
 */
module Recovery {
  import opened Base
  import opened Model
  import opened Rows
  import opened Database
  import opened CalcMachine
  import opened Engine
  import EngineCapacity

  // ── Sweeping again and again ───────────────────────────────────────────────

  /** The table after one sweep at each of these times, with no other writer. */
  function Sweeps(t: Table, times: seq<int>): Table {
    if times == [] then t else Sweep(Sweeps(t, times[..|times| - 1]), times[|times| - 1])
  }

  function SweepRows(r: Row, times: seq<int>): Row {
    if times == [] then r else SweepRow(SweepRows(r, times[..|times| - 1]), times[|times| - 1])
  }

  lemma {:induction false} SweepsAreByRow(t: Table, times: seq<int>)
    ensures Sweeps(t, times).Keys == t.Keys && forall c :: c in t ==> Sweeps(t, times)[c] == SweepRows(t[c], times)
  {
    if times != [] { SweepsAreByRow(t, times[..|times| - 1]); }
  }

  predicate Active(r: Row) { r.status.StatusRunning? || r.status.StatusRetrying? }

  predicate LeaseLapsed(r: Row, now: int) { r.leaseExpiresAt.None? || r.leaseExpiresAt.value < now }

  /** What sweeps at these times make of an active row: one more attempt for each, while there are attempts left. */
  predicate SweptTimes(r: Row, r': Row, times: seq<int>)
    requires r.attempt <= r.maxAttempts
  {
    var n, left := |times|, r.maxAttempts - r.attempt;
    r'.maxAttempts == r.maxAttempts &&
    if n == 0 then r' == r
    else if n <= left then r'.status.StatusRetrying? && r'.attempt == r.attempt + n && r'.leaseExpiresAt.None?
    else r'.status.StatusFailed? && r'.errorKind == Some(CrashExhausted) && r'.attempt == r.maxAttempts &&
         r'.completedAt == Some(times[left])
  }

  /**
   A running or retrying row whose lease has lapsed fails at exactly the sweep after its remaining attempts, and stays
   as that sweep left it. Sweeping is not idempotent: every sweep before costs an attempt.
   */
  lemma {:induction false} SweepsExhaustAttempts(r: Row, times: seq<int>)
    requires Active(r) && r.attempt <= r.maxAttempts && (times != [] ==> LeaseLapsed(r, times[0]))
    ensures SweptTimes(r, SweepRows(r, times), times)
  {
    if times != [] {
      var before := times[..|times| - 1];
      assert before != [] ==> before[0] == times[0];
      SweepsExhaustAttempts(r, before);
      assert SweepRows(r, times) == SweepRow(SweepRows(r, before), times[|before|]);
      hide SweepRows;
    }
  }

  /** Pending and finished rows are never swept. */
  lemma {:induction false} SweepsKeepOthers(r: Row, times: seq<int>)
    requires !Active(r)
    ensures SweepRows(r, times) == r
  {
    if times != [] { SweepsKeepOthers(r, times[..|times| - 1]); }
  }

  /** All rows of a table, after any number of sweeps. */
  lemma SweepsOfTable(t: Table, times: seq<int>, c: CalcId)
    requires c in t && RowOk(t[c]) && (times != [] ==> LeaseLapsed(t[c], times[0]))
    ensures var t' := Sweeps(t, times);
            c in t' && if Active(t[c]) then SweptTimes(t[c], t'[c], times) else t'[c] == t[c]
  {
    SweepsAreByRow(t, times);
    if Active(t[c]) { SweepsExhaustAttempts(t[c], times); } else { SweepsKeepOthers(t[c], times); }
  }

  // ── Restarting ─────────────────────────────────────────────────────────────

  /**
   After a crash of a reachable engine and a sweep once every lease has lapsed, no row is running and every permit is
   free, so the capacity bound holds for the new process too.
   */
  lemma RestartIsWithinCapacity(s: State, at: int, ls: seq<Label>)
    requires forall c :: c in s.rows ==> LeaseLapsed(s.rows[c], at)
    requires Run(Restarted(s, at), ls).Some? && forall l :: l in ls ==> EngineCapacity.FaultFree(l)
    ensures EngineCapacity.RunningRows(Restarted(s, at).rows) == {}
    ensures |EngineCapacity.RunningRows(Run(Restarted(s, at), ls).value.rows)| <= s.capacity
  {
    hide Run, Next, Possible;
    RestartedIsIdle(s, at);
    EngineCapacity.RunningNeverExceedsCapacity(Restarted(s, at), ls);
  }

  lemma RestartedIsIdle(s: State, at: int)
    requires forall c :: c in s.rows ==> LeaseLapsed(s.rows[c], at)
    ensures var s0 := Restarted(s, at);
            EngineCapacity.RunningRows(s0.rows) == {} && s0.actors == map[] && s0.free == s0.capacity == s.capacity
  {
    var s0 := Restarted(s, at);
    forall c | c in s0.rows ensures !s0.rows[c].status.StatusRunning? {
      assert s0.rows[c] == SweepRow(s.rows[c], at);
    }
  }

  /** The state after a crash and the sweep at startup. */
  function Restarted(s: State, at: int): State { Next(Next(s, Crash), SweepAll(at)) }

  // ── One pass of the watchdog ───────────────────────────────────────────────

  /**
   What one pass makes of a row, column by column. A running row whose lease ended before `now` gets its next attempt,
   due later the more attempts it has had, or fails when there is none; `at` is the clock of the write.
   */
  predicate LapsedOnce(r: Row, r': Row, now: int, at: int, refused: bool) {
    if refused || r.status != StatusRunning || r.leaseExpiresAt == None || r.leaseExpiresAt.value >= now then r' == r
    else
      && r'.leaseOwner == None && r'.leaseExpiresAt == None && r'.updatedAt == at
      && if r.attempt < r.maxAttempts then
           && r'.status == StatusRetrying && r'.attempt == r.attempt + 1
           && r'.nextAttemptAt == Some(now + 5000 * r.attempt + 5000)
           && SameBut(r, r', {StatusOf, AttemptOf, NextAttemptOf, OwnerOf, ExpiryOf, UpdatedOf})
         else
           && r'.status == StatusFailed && r'.errorKind == Some(CrashExhausted) && r'.completedAt == Some(at)
           && r'.errorMessage == Some("lease expired; attempts exhausted")
           && SameBut(r, r', {StatusOf, ErrorKindOf, ErrorMessageOf, CompletedOf, OwnerOf, ExpiryOf, UpdatedOf})
  }

  /** The pass asks for a new actor: the row's lease has lapsed and it has an attempt left, or its retry is due. */
  predicate AskedFor(r: Row, now: int, refused: bool) {
    || (r.status == StatusRunning && r.leaseExpiresAt.Some? && r.leaseExpiresAt.value < now &&
        r.attempt < r.maxAttempts && !refused)
    || (r.status == StatusRetrying && r.nextAttemptAt.Some? && r.nextAttemptAt.value <= now)
  }

  lemma AskedForAll(t: Table, now: int, refused: set<CalcId>, list: seq<CalcId>)
    requires Lists(list, Reaped(t, now, refused) + Ready(t, now))
    ensures forall c :: c in list <==> c in t && AskedFor(t[c], now, c in refused)
  {
  }

  lemma PassIsLapsedOnce(t: Table, now: int, at: int, refused: set<CalcId>)
    ensures PassTable(t, now, at, refused).Keys == t.Keys
    ensures forall c :: c in t ==> LapsedOnce(t[c], PassTable(t, now, at, refused)[c], now, at, c in refused)
  {
    hide LapsedOnce, PassRow;
    forall c | c in t ensures LapsedOnce(t[c], PassTable(t, now, at, refused)[c], now, at, c in refused) {
      RowIsLapsedOnce(t[c], now, at, c in refused);
    }
  }

  lemma RowIsLapsedOnce(r: Row, now: int, at: int, refused: bool)
    ensures LapsedOnce(r, PassRow(r, now, at, refused), now, at, refused)
  {
  }

  class Watchdog {
    const db: Db

    constructor (db: Db)
      ensures this.db == db
    {
      this.db := db;
    }

    /** What the query returns, as a list in some order. */
    method List(ids: set<CalcId>) returns (list: seq<CalcId>)
      ensures Lists(list, ids)
    {
      list := [];
      var todo := ids;
      while todo != {}
        invariant todo <= ids && Lists(list, ids - todo)
        decreases todo
      {
        var id :| id in todo;
        assert ids - (todo - {id}) == (ids - todo) + {id};
        ListSnoc(list, ids - todo, id);
        todo := todo - {id};
        list := list + [id];
      }
      assert ids - {} == ids;
    }

    /** One calculation seen with an expired lease; a write the database refuses changes nothing. */
    method ReapOne(id: CalcId, now: int, at: int, refuse: bool) returns (again: bool)
      requires id in db.calcs
      modifies db
      ensures var w := ReapWrite(old(db.calcs[id].attempt), old(db.calcs[id].maxAttempts), now);
              && db.calcs == (if refuse then old(db.calcs) else Put(old(db.calcs), id, w, at))
              && (again <==> !refuse && w.Retrying?)
      ensures db.runs == old(db.runs) && (old(db.RowsOk()) ==> db.RowsOk())
    {
      hide RowOk, Apply;
      var seen := db.calcs[id];
      var next := seen.attempt + 1;
      again := !refuse && next <= seen.maxAttempts;
      if refuse {
      } else if next > seen.maxAttempts {
        db.UpdateCalcFailed(id, CrashExhausted, "lease expired; attempts exhausted", at);
      } else {
        db.UpdateCalcRetrying(id, next, now + 5000 * next, at);
      }
    }

    /** The rows with expired leases at time `now`, with writes at time `at`. */
    method Reap(now: int, at: int, refused: set<CalcId>) returns (rescheduled: seq<CalcId>)
      modifies db
      ensures db.calcs == PassTable(old(db.calcs), now, at, refused) && db.runs == old(db.runs)
      ensures db.calcs.Keys == old(db.calcs).Keys
      ensures forall c :: c in old(db.calcs) ==> LapsedOnce(old(db.calcs)[c], db.calcs[c], now, at, c in refused)
      ensures Lists(rescheduled, Reaped(old(db.calcs), now, refused))
      ensures old(db.RowsOk()) ==> db.RowsOk()
    {
      hide PassRow, LeaseExpired, RowOk, Lists, Reaped, PassedTable, PassTable, Put, ReapWrite;
      ghost var t := db.calcs;
      var expired := set c | c in db.calcs && LeaseExpired(db.calcs[c], now);
      var todo := expired;
      rescheduled := [];
      PassDone(t, now, at, refused);
      PassIsLapsedOnce(t, now, at, refused);
      hide LapsedOnce;
      while todo != {}
        invariant todo <= expired
        invariant db.runs == old(db.runs) && db.calcs == PassedTable(t, now, at, refused, todo)
        invariant Lists(rescheduled, Reaped(t, now, refused) - todo)
        invariant old(db.RowsOk()) ==> db.RowsOk()
        decreases todo
      {
        var id :| id in todo;
        PassStep(t, now, at, refused, todo, id);
        ghost var done := Reaped(t, now, refused) - todo;
        assert id !in done;
        var again := ReapOne(id, now, at, id in refused);
        if again {
          ListSnoc(rescheduled, done, id);
          rescheduled := rescheduled + [id];
        } else {
          assert done + {} == done;
        }
        todo := todo - {id};
      }
    }

    /** One tick with no other writer: expired leases first, then the retries that are ready. */
    method Pass(now: int, at: int, refused: set<CalcId>) returns (rescheduled: seq<CalcId>)
      modifies db
      ensures db.calcs == PassTable(old(db.calcs), now, at, refused) && db.runs == old(db.runs)
      ensures db.calcs.Keys == old(db.calcs).Keys
      ensures forall c :: c in old(db.calcs) ==> LapsedOnce(old(db.calcs)[c], db.calcs[c], now, at, c in refused)
      ensures Lists(rescheduled, Reaped(old(db.calcs), now, refused) + Ready(old(db.calcs), now))
      ensures forall c :: c in rescheduled <==> c in old(db.calcs) && AskedFor(old(db.calcs)[c], now, c in refused)
      ensures old(db.RowsOk()) ==> db.RowsOk()
    {
      ReadyAfterReaping(db.calcs, now, at, refused);
      hide PassTable, Reaped, Ready, Lists, LapsedOnce;
      ghost var t := db.calcs;
      var reaped := Reap(now, at, refused);
      var ready := List(Ready(db.calcs, now));
      ListsConcat(reaped, Reaped(t, now, refused), ready, Ready(t, now));
      rescheduled := reaped + ready;
      AskedForAll(t, now, refused, rescheduled);
    }
  }

  /** `list` has the members of `ids`, each once. */
  ghost predicate Lists(list: seq<CalcId>, ids: set<CalcId>) {
    (forall c :: c in list <==> c in ids) && |list| == |ids|
  }

  lemma ListSnoc(list: seq<CalcId>, ids: set<CalcId>, id: CalcId)
    requires Lists(list, ids) && id !in ids
    ensures Lists(list + [id], ids + {id})
  {
  }

  lemma ListsConcat(a: seq<CalcId>, x: set<CalcId>, b: seq<CalcId>, y: set<CalcId>)
    requires Lists(a, x) && Lists(b, y) && x !! y
    ensures Lists(a + b, x + y)
  {
    assert |x + y| == |x| + |y|;
  }

  /** The table when the rows in `todo` are still to be passed. */
  function PassedTable(t: Table, now: int, at: int, refused: set<CalcId>, todo: set<CalcId>): Table {
    map c | c in t :: if c in todo then t[c] else PassRow(t[c], now, at, c in refused)
  }

  lemma PassStep(t: Table, now: int, at: int, refused: set<CalcId>, todo: set<CalcId>, id: CalcId)
    requires id in todo && todo <= (set c | c in t && LeaseExpired(t[c], now))
    ensures var before, after := PassedTable(t, now, at, refused, todo), PassedTable(t, now, at, refused, todo - {id});
            var w := ReapWrite(t[id].attempt, t[id].maxAttempts, now);
            && id in before && before[id] == t[id]
            && after == (if id in refused then before else Put(before, id, w, at))
            && Reaped(t, now, refused) - (todo - {id}) ==
               (Reaped(t, now, refused) - todo) + (if id !in refused && w.Retrying? then {id} else {})
  {
    var before, after := PassedTable(t, now, at, refused, todo), PassedTable(t, now, at, refused, todo - {id});
    hide Apply;
    if id in refused {
      assert after == before;
    } else {
      assert after == Put(before, id, ReapWrite(t[id].attempt, t[id].maxAttempts, now), at);
    }
  }

  lemma PassDone(t: Table, now: int, at: int, refused: set<CalcId>)
    ensures PassedTable(t, now, at, refused, {}) == PassTable(t, now, at, refused)
    ensures Reaped(t, now, refused) - {} == Reaped(t, now, refused)
    ensures var expired := set c | c in t && LeaseExpired(t[c], now);
            PassedTable(t, now, at, refused, expired) == t && Lists([], Reaped(t, now, refused) - expired)
  {
  }

  /** The row after the pass: unchanged, failed or retrying. */
  function PassRow(r: Row, now: int, at: int, refused: bool): Row {
    if !LeaseExpired(r, now) || refused then r else Apply(r, ReapWrite(r.attempt, r.maxAttempts, now), at)
  }

  function PassTable(t: Table, now: int, at: int, refused: set<CalcId>): Table {
    map c | c in t :: PassRow(t[c], now, at, c in refused)
  }

  /** Expired rows with attempts left whose write goes through. */
  function Reaped(t: Table, now: int, refused: set<CalcId>): set<CalcId> {
    set c | c in t && LeaseExpired(t[c], now) && c !in refused && t[c].attempt + 1 <= t[c].maxAttempts
  }

  function Ready(t: Table, now: int): set<CalcId> { set c | c in t && RetryReady(t[c], now) }

  /** What the pass itself sets to retrying falls due later, so the second query returns what was ready before. */
  lemma ReadyAfterReaping(t: Table, now: int, at: int, refused: set<CalcId>)
    ensures Ready(PassTable(t, now, at, refused), now) == Ready(t, now)
    ensures Reaped(t, now, refused) !! Ready(t, now)
  {
  }

  // ── Lease after lease lapses ───────────────────────────────────────────────

  /** An actor stores its lease, never extends it, and a pass of the watchdog finds it lapsed. */
  datatype Lapse = Lapse(owner: string, expires: int, stored: int, now: int, at: int)

  /** One lapse after another. Once the row has failed nobody is asked for any more. */
  function AfterLapses(r: Row, lapses: seq<Lapse>): Row {
    if lapses == [] then r
    else
      var before, x := AfterLapses(r, lapses[..|lapses| - 1]), lapses[|lapses| - 1];
      if before.status.IsTerminal() then before
      else PassRow(Apply(before, Started(x.owner, x.expires), x.stored), x.now, x.at, false)
  }

  /** What these lapses make of a row that is not finished. */
  predicate LapsedTimes(r: Row, r': Row, lapses: seq<Lapse>)
    requires r.attempt <= r.maxAttempts
  {
    var n, left := |lapses|, r.maxAttempts - r.attempt;
    && r'.maxAttempts == r.maxAttempts && r'.runId == r.runId
    && (n > 0 ==> r'.startedAt == Some(if r.startedAt.Some? then r.startedAt.value else lapses[0].stored))
    && if n == 0 then r' == r
       else if n <= left then
         && r'.status.StatusRetrying? && r'.attempt == r.attempt + n && r'.leaseExpiresAt == None
         && r'.nextAttemptAt == Some(lapses[n - 1].now + 5000 * (r.attempt + n))
       else
         && r'.status.StatusFailed? && r'.errorKind == Some(CrashExhausted) && r'.attempt == r.maxAttempts
         && r'.completedAt == Some(lapses[left].at)
  }

  /**
   A calculation whose workers keep dying fails as crash_exhausted at exactly the lapse after its remaining attempts;
   every lapse before costs one attempt, and storing a lease costs none.
   */
  lemma {:induction false} LapsesExhaustAttempts(r: Row, lapses: seq<Lapse>)
    requires !r.status.IsTerminal() && r.attempt <= r.maxAttempts
    requires forall i :: 0 <= i < |lapses| ==> lapses[i].expires < lapses[i].now
    ensures LapsedTimes(r, AfterLapses(r, lapses), lapses)
  {
    if lapses != [] {
      var before, x := lapses[..|lapses| - 1], lapses[|lapses| - 1];
      LapsesExhaustAttempts(r, before);
      assert before != [] ==> before[0] == lapses[0];
      var b := AfterLapses(r, before);
      if !b.status.IsTerminal() {
        OneLapse(b, x);
        assert AfterLapses(r, lapses) == PassRow(Apply(b, Started(x.owner, x.expires), x.stored), x.now, x.at, false);
      }
      hide AfterLapses, PassRow, Apply;
    }
  }

  lemma OneLapse(b: Row, x: Lapse)
    requires x.expires < x.now && b.attempt <= b.maxAttempts
    ensures LapsedTimes(b, PassRow(Apply(b, Started(x.owner, x.expires), x.stored), x.now, x.at, false), [x])
  {
  }

  // ── The pass as steps of the engine ────────────────────────────────────────

  /** The updates for the rows the watchdog has listed, in this order. */
  function Reaps(xs: seq<Seen>, at: int, refused: set<CalcId>): seq<Label> {
    if xs == [] then [] else [Label.Reap(xs[0], Reply(xs[0].id !in refused, at))] + Reaps(xs[1..], at, refused)
  }

  /** The rows `xs` are those of `t` listed and not yet updated. */
  ghost predicate Remain(s: State, t: Table, now: int, at: int, refused: set<CalcId>, xs: seq<Seen>) {
    && (forall i :: 0 <= i < |xs| ==>
          var c := xs[i].id; c in t && LeaseExpired(t[c], now) && xs[i] == Seen(c, t[c].attempt, t[c].maxAttempts))
    && (forall i, j :: 0 <= i < j < |xs| ==> xs[i].id != xs[j].id)
    && s.scannedAt == now && s.expired == (set x | x in xs)
    && s.rows == PassedTable(t, now, at, refused, IdsOf(xs))
  }

  function IdsOf(xs: seq<Seen>): set<CalcId> { set x | x in xs :: x.id }

  lemma ReapOneOf(s: State, t: Table, now: int, at: int, refused: set<CalcId>, xs: seq<Seen>)
    requires xs != [] && Remain(s, t, now, at, refused, xs)
    ensures var l := Label.Reap(xs[0], Reply(xs[0].id !in refused, at));
            && Possible(s, l) && Remain(Next(s, l), t, now, at, refused, xs[1..])
            && Next(s, l) == s.(rows := Next(s, l).rows, expired := Next(s, l).expired)
  {
    var x, rest := xs[0], xs[1..];
    OneLess(xs);
    PassStep(t, now, at, refused, IdsOf(xs), x.id);
    hide PassedTable, Put, Reaped, LeaseExpired, IdsOf;
  }

  lemma OneLess(xs: seq<Seen>)
    requires xs != [] && forall i, j :: 0 <= i < j < |xs| ==> xs[i].id != xs[j].id
    ensures xs[0] in xs && xs[0].id in IdsOf(xs)
    ensures (set y | y in xs) - {xs[0]} == (set y | y in xs[1..]) && IdsOf(xs) - {xs[0].id} == IdsOf(xs[1..])
  {
    assert xs == [xs[0]] + xs[1..];
  }

  lemma {:induction false} ReapAllOf(s: State, t: Table, now: int, at: int, refused: set<CalcId>, xs: seq<Seen>)
    requires Remain(s, t, now, at, refused, xs)
    ensures Run(s, Reaps(xs, at, refused)) == Some(s.(rows := PassTable(t, now, at, refused), expired := {}))
    decreases |xs|
  {
    if xs == [] {
      PassDone(t, now, at, refused);
      assert IdsOf(xs) == {} && s.expired == {};
      assert s == s.(rows := PassTable(t, now, at, refused), expired := {});
    } else {
      hide Remain, Next, Possible, PassTable;
      ReapOneOf(s, t, now, at, refused, xs);
      var l := Label.Reap(xs[0], Reply(xs[0].id !in refused, at));
      ReapAllOf(Next(s, l), t, now, at, refused, xs[1..]);
      assert Reaps(xs, at, refused)[1..] == Reaps(xs[1..], at, refused);
    }
  }

  /** `xs` are the rows with expired leases as they are, each once. */
  ghost predicate ListsExpired(xs: seq<Seen>, t: Table, now: int) {
    && (forall x :: x in xs <==>
          x.id in t && LeaseExpired(t[x.id], now) && x == Seen(x.id, t[x.id].attempt, t[x.id].maxAttempts))
    && (forall i, j :: 0 <= i < j < |xs| ==> xs[i] != xs[j])
  }

  /**
   Undisturbed, a scan of the engine and the updates for what it listed, in any order, are the pass of the watchdog:
   they leave its table and change nothing else.
   */
  lemma PassIsScanAndReaps(s: State, now: int, at: int, refused: set<CalcId>, xs: seq<Seen>)
    requires ListsExpired(xs, s.rows, now)
    ensures Run(s, [Scan(now)] + Reaps(xs, at, refused)) ==
            Some(s.(rows := PassTable(s.rows, now, at, refused), expired := {}, scannedAt := now))
  {
    var s1 := Next(s, Scan(now));
    ScanRemains(s, now, at, refused, xs);
    ReapAllOf(s1, s.rows, now, at, refused, xs);
    assert ([Scan(now)] + Reaps(xs, at, refused))[1..] == Reaps(xs, at, refused);
  }

  lemma ScanRemains(s: State, now: int, at: int, refused: set<CalcId>, xs: seq<Seen>)
    requires ListsExpired(xs, s.rows, now)
    ensures Remain(Next(s, Scan(now)), s.rows, now, at, refused, xs)
  {
    var s1 := Next(s, Scan(now));
    forall x ensures x in s1.expired <==> x in xs {
      if x in s1.expired { assert x.id in s.rows; }
    }
    forall i | 0 <= i < |xs| ensures xs[i].id in s.rows && LeaseExpired(s.rows[xs[i].id], now) { assert xs[i] in xs; }
    forall i, j | 0 <= i < j < |xs| ensures xs[i].id != xs[j].id { assert xs[i] in xs && xs[j] in xs; }
    forall c | c in s.rows && LeaseExpired(s.rows[c], now) ensures c in IdsOf(xs) {
      assert Look(s, c) in xs;
    }
    hide ListsExpired;
    assert PassedTable(s.rows, now, at, refused, IdsOf(xs)) == s.rows;
  }
}
