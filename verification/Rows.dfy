/**
 The rows of the `calculations` table and the UPDATE statements that change one row
 (crates/runsd/src/db/queries.rs). No statement looks at the old status.
 */
module Rows {
  import opened Base
  import opened Model

  datatype Row = Row(
    runId: RunId,
    status: CalcStatus,
    attempt: nat,
    maxAttempts: nat,
    nextAttemptAt: Option<int>,
    leaseOwner: Option<string>,
    leaseExpiresAt: Option<int>,
    errorKind: Option<ErrorKind>,
    errorMessage: Option<string>,
    resultPath: Option<string>,
    createdAt: int,
    startedAt: Option<int>,
    completedAt: Option<int>,
    updatedAt: int)

  type Table = map<CalcId, Row>

  datatype Column =
    | RunIdOf | StatusOf | AttemptOf | BudgetOf | NextAttemptOf | OwnerOf | ExpiryOf
    | ErrorKindOf | ErrorMessageOf | PathOf | CreatedOf | StartedOf | CompletedOf | UpdatedOf

  /** Outside these columns the two rows agree. */
  predicate SameBut(r: Row, r': Row, columns: set<Column>) {
    && (RunIdOf in columns || r'.runId == r.runId)
    && (StatusOf in columns || r'.status == r.status)
    && (AttemptOf in columns || r'.attempt == r.attempt)
    && (BudgetOf in columns || r'.maxAttempts == r.maxAttempts)
    && (NextAttemptOf in columns || r'.nextAttemptAt == r.nextAttemptAt)
    && (OwnerOf in columns || r'.leaseOwner == r.leaseOwner)
    && (ExpiryOf in columns || r'.leaseExpiresAt == r.leaseExpiresAt)
    && (ErrorKindOf in columns || r'.errorKind == r.errorKind)
    && (ErrorMessageOf in columns || r'.errorMessage == r.errorMessage)
    && (PathOf in columns || r'.resultPath == r.resultPath)
    && (CreatedOf in columns || r'.createdAt == r.createdAt)
    && (StartedOf in columns || r'.startedAt == r.startedAt)
    && (CompletedOf in columns || r'.completedAt == r.completedAt)
    && (UpdatedOf in columns || r'.updatedAt == r.updatedAt)
  }

  /** No row but `c` is different, and none is added or removed. */
  predicate SameButRow(t: Table, t': Table, c: CalcId) {
    t'.Keys == t.Keys && forall d :: d in t && d != c ==> t'[d] == t[d]
  }

  /** One UPDATE statement with its bound parameters. */
  datatype Write =
    | Started(owner: string, expires: int)
    | Beat(expires: int)
    | Succeeded(path: string)
    | Failed(kind: ErrorKind, message: string)
    | Retrying(attempt: nat, nextAt: int)
    | Cancelled
    | Pending
  {
    /** A heartbeat sets no status. */
    predicate SetsStatus() { !Beat? }

    function Status(): CalcStatus
      requires SetsStatus()
    {
      match this
      case Started(_, _) => StatusRunning
      case Succeeded(_) => StatusSucceeded
      case Failed(_, _) => StatusFailed
      case Retrying(_, _) => StatusRetrying
      case Cancelled => StatusCancelled
      case Pending => StatusPending
    }

    predicate IsTerminal() { SetsStatus() && Status().IsTerminal() }
  }

  function NewRow(run: RunId, maxAttempts: nat, now: int): Row {
    Row(run, StatusPending, 0, maxAttempts, None, None, None, None, None, None, now, None, None, now)
  }

  function Apply(r: Row, w: Write, now: int): Row {
    match w
    case Started(owner, expires) =>
      r.(status := StatusRunning, startedAt := if r.startedAt.Some? then r.startedAt else Some(now),
         leaseOwner := Some(owner), leaseExpiresAt := Some(expires), updatedAt := now)
    case Beat(expires) =>
      r.(leaseExpiresAt := Some(expires), updatedAt := now)
    case Succeeded(path) =>
      r.(status := StatusSucceeded, completedAt := Some(now), resultPath := Some(path),
         leaseOwner := None, leaseExpiresAt := None, updatedAt := now)
    case Failed(kind, message) =>
      r.(status := StatusFailed, completedAt := Some(now), errorKind := Some(kind), errorMessage := Some(message),
         leaseOwner := None, leaseExpiresAt := None, updatedAt := now)
    case Retrying(attempt, nextAt) =>
      r.(status := StatusRetrying, attempt := attempt, nextAttemptAt := Some(nextAt),
         leaseOwner := None, leaseExpiresAt := None, updatedAt := now)
    case Cancelled =>
      r.(status := StatusCancelled, completedAt := Some(now),
         leaseOwner := None, leaseExpiresAt := None, updatedAt := now)
    case Pending =>
      r.(status := StatusPending, attempt := 0, nextAttemptAt := None, errorKind := None, errorMessage := None,
         leaseOwner := None, leaseExpiresAt := None, updatedAt := now)
  }

  /** `UPDATE … WHERE id = c`: a missing row is no error and changes nothing. */
  function Put(t: Table, c: CalcId, w: Write, now: int): Table {
    if c in t then t[c := Apply(t[c], w, now)] else t
  }

  // ── What every reachable row satisfies ─────────────────────────────────────

  predicate RowOk(r: Row) {
    && (r.status == StatusRunning <==> r.leaseOwner.Some?)
    && (r.status == StatusRunning ==> r.leaseExpiresAt.Some? && r.startedAt.Some?)
    && (r.status == StatusRetrying ==> r.nextAttemptAt.Some? && 1 <= r.attempt)
    && (r.status == StatusPending ==>
          r.attempt == 0 && r.nextAttemptAt.None? && r.errorKind.None? && r.errorMessage.None?)
    && (r.status == StatusSucceeded ==> r.resultPath.Some?)
    && (r.status == StatusFailed ==> r.errorKind.Some?)
    && (r.status.IsTerminal() ==> r.completedAt.Some?)
    && r.attempt <= r.maxAttempts
  }

  /** The one obligation on writers: an attempt number within the row's own budget. */
  predicate WithinBudget(w: Write, maxAttempts: nat) {
    w.Retrying? ==> 1 <= w.attempt <= maxAttempts
  }

  lemma ApplyKeepsRowOk(r: Row, w: Write, now: int)
    requires RowOk(r) && WithinBudget(w, r.maxAttempts)
    ensures RowOk(Apply(r, w, now))
    ensures Apply(r, w, now).runId == r.runId && Apply(r, w, now).maxAttempts == r.maxAttempts
  {
  }

  // ── The queries of the watchdog ────────────────────────────────────────────

  predicate LeaseExpired(r: Row, now: int) {
    r.status == StatusRunning && r.leaseExpiresAt.Some? && r.leaseExpiresAt.value < now
  }

  predicate RetryReady(r: Row, now: int) {
    r.status == StatusRetrying && r.nextAttemptAt.Some? && r.nextAttemptAt.value <= now
  }

  /** The update the watchdog makes for a calculation it saw with an expired lease. */
  function ReapWrite(attempt: nat, maxAttempts: nat, now: int): Write {
    if attempt + 1 > maxAttempts then Failed(CrashExhausted, "lease expired; attempts exhausted")
    else Retrying(attempt + 1, now + 5000 * (attempt + 1))
  }

  /** One row of the crash recovery sweep; `Failed` there leaves the error message alone. */
  predicate Swept(r: Row, now: int) {
    (r.status == StatusRunning || r.status == StatusRetrying) &&
    (r.leaseExpiresAt.None? || r.leaseExpiresAt.value < now)
  }

  function SweepRow(r: Row, now: int): Row {
    if !Swept(r, now) then r
    else if r.attempt + 1 > r.maxAttempts then
      r.(status := StatusFailed, errorKind := Some(CrashExhausted),
         leaseOwner := None, leaseExpiresAt := None, completedAt := Some(now), updatedAt := now)
    else
      r.(status := StatusRetrying, attempt := r.attempt + 1, nextAttemptAt := Some(now + (r.attempt + 1) * 5000),
         leaseOwner := None, leaseExpiresAt := None, updatedAt := now)
  }

  /**
   What one sweep makes of a row, column by column: a running or retrying row without a live lease gets its next
   attempt, due later the more attempts it has had, or fails when there is none.
   */
  predicate SweptOnce(r: Row, r': Row, now: int) {
    if r.status !in {StatusRunning, StatusRetrying} || (r.leaseExpiresAt.Some? && r.leaseExpiresAt.value >= now) then
      r' == r
    else
      && r'.leaseOwner == None && r'.leaseExpiresAt == None && r'.updatedAt == now
      && if r.attempt < r.maxAttempts then
           && r'.status == StatusRetrying && r'.attempt == r.attempt + 1
           && r'.nextAttemptAt == Some(now + 5000 * r.attempt + 5000)
           && SameBut(r, r', {StatusOf, AttemptOf, NextAttemptOf, OwnerOf, ExpiryOf, UpdatedOf})
         else
           && r'.status == StatusFailed && r'.errorKind == Some(CrashExhausted) && r'.completedAt == Some(now)
           && SameBut(r, r', {StatusOf, ErrorKindOf, CompletedOf, OwnerOf, ExpiryOf, UpdatedOf})
  }

  /** A lapsed lease costs a row one attempt or the last one. */
  lemma SweepRowIsSweptOnce(r: Row, now: int)
    ensures SweptOnce(r, SweepRow(r, now), now)
  {
  }

  lemma SweepKeepsRowOk(r: Row, at: int)
    requires RowOk(r)
    ensures RowOk(SweepRow(r, at))
    ensures SweepRow(r, at).runId == r.runId && SweepRow(r, at).maxAttempts == r.maxAttempts
  {
  }

  function Sweep(t: Table, now: int): Table {
    map c | c in t :: SweepRow(t[c], now)
  }

  /** So a sweep sweeps every row once and keeps rows consistent. */
  lemma SweepIsSweptOnce(t: Table, now: int)
    ensures Sweep(t, now).Keys == t.Keys && forall c :: c in t ==> SweptOnce(t[c], Sweep(t, now)[c], now)
    ensures (forall c :: c in t ==> RowOk(t[c])) ==> forall c :: c in t ==> RowOk(Sweep(t, now)[c])
  {
    hide SweptOnce, SweepRow, RowOk;
    forall c | c in t ensures SweptOnce(t[c], Sweep(t, now)[c], now) { SweepRowIsSweptOnce(t[c], now); }
    forall c | c in t && RowOk(t[c]) ensures RowOk(Sweep(t, now)[c]) { SweepKeepsRowOk(t[c], now); }
  }

  /** The table when the rows in `todo` are still to be swept. */
  function SweptBut(t: Table, now: int, todo: set<CalcId>): Table {
    map c | c in t :: if c in todo then t[c] else SweepRow(t[c], now)
  }

  lemma SweptButStep(t: Table, now: int, todo: set<CalcId>, id: CalcId)
    requires id in todo && id in t
    ensures var before := SweptBut(t, now, todo);
            id in before && before[id] == t[id] && SweptBut(t, now, todo - {id}) == before[id := SweepRow(t[id], now)]
  {
    hide SweepRow;
  }

  lemma SweptButEnds(t: Table, now: int)
    ensures SweptBut(t, now, set c | c in t && Swept(t[c], now)) == t && SweptBut(t, now, {}) == Sweep(t, now)
  {
  }

  /** The statuses a run's calculations have. */
  function StatusesOf(t: Table, run: RunId): set<CalcStatus> {
    set c | c in t && t[c].runId == run :: t[c].status
  }
}
