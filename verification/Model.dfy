/** Statuses and errors (crates/common/src/model.rs). */
module Model {
  datatype CalcStatus =
    | StatusPending
    | StatusRunning
    | StatusRetrying
    | StatusSucceeded
    | StatusFailed
    | StatusCancelled
  {
    predicate IsTerminal() {
      StatusSucceeded? || StatusFailed? || StatusCancelled?
    }
  }

  datatype RunStatus =
    | RunPending
    | RunRunning
    | RunSucceeded
    | RunFailed
    | RunCancelled
    | RunPartiallySucceeded

  datatype ErrorKind = Transient | TransientExhausted | Permanent | CrashExhausted

  function Count(statuses: seq<CalcStatus>, s: CalcStatus): nat {
    if statuses == [] then 0 else (if statuses[0] == s then 1 else 0) + Count(statuses[1..], s)
  }

  lemma {:induction false} CountIsFull(statuses: seq<CalcStatus>, s: CalcStatus)
    ensures Count(statuses, s) <= |statuses|
    ensures Count(statuses, s) == |statuses| <==> forall t :: t in statuses ==> t == s
  {
    if statuses != [] {
      CountIsFull(statuses[1..], s);
      assert statuses == [statuses[0]] + statuses[1..];
      if forall t :: t in statuses ==> t == s {
        assert statuses[0] in statuses;
        forall t | t in statuses[1..] ensures t == s { assert t in statuses; }
      }
    }
  }

  /** The run status, computed by counting as the server does. */
  function DeriveRunStatus(statuses: seq<CalcStatus>): RunStatus {
    if |statuses| == 0 then RunPending
    else if exists s :: s in statuses && (s.StatusRunning? || s.StatusRetrying? || s.StatusPending?) then RunRunning
    else if Count(statuses, StatusSucceeded) == |statuses| then RunSucceeded
    else if Count(statuses, StatusCancelled) == |statuses| then RunCancelled
    else if Count(statuses, StatusFailed) == |statuses| then RunFailed
    else RunPartiallySucceeded
  }

  /** The same answer read off the set of statuses alone. */
  function DeriveOfSet(present: set<CalcStatus>): RunStatus {
    if present == {} then RunPending
    else if exists s :: s in present && !s.IsTerminal() then RunRunning
    else if present == {StatusSucceeded} then RunSucceeded
    else if present == {StatusCancelled} then RunCancelled
    else if present == {StatusFailed} then RunFailed
    else RunPartiallySucceeded
  }

  /** Order and multiplicity of the calculations never matter to the status of their run. */
  lemma DeriveDependsOnlyOnTheSet(statuses: seq<CalcStatus>)
    ensures DeriveRunStatus(statuses) == DeriveOfSet(set s | s in statuses)
  {
    var present := set s | s in statuses;
    if statuses != [] {
      assert statuses[0] in statuses && statuses[0] in present;
      assert forall s :: s in statuses <==> s in present;
      forall t: CalcStatus ensures Count(statuses, t) == |statuses| <==> present == {t} {
        CountIsFull(statuses, t);
        if forall s :: s in statuses ==> s == t {
          forall s | s in present ensures s == t { assert s in statuses; }
        }
        if present == {t} {
          forall s | s in statuses ensures s == t { assert s in present; }
        }
      }
    }
  }

  /** What each status of a run says of its calculations. */
  lemma DeriveMeans(statuses: seq<CalcStatus>)
    ensures var r := DeriveRunStatus(statuses);
            && (r == RunPending <==> statuses == [])
            && (r == RunRunning <==> exists s :: s in statuses && s in {StatusPending, StatusRunning, StatusRetrying})
            && (r == RunSucceeded <==> statuses != [] && forall s :: s in statuses ==> s == StatusSucceeded)
            && (r == RunFailed <==> statuses != [] && forall s :: s in statuses ==> s == StatusFailed)
            && (r == RunCancelled <==> statuses != [] && forall s :: s in statuses ==> s == StatusCancelled)
            && (r == RunPartiallySucceeded <==>
                  (forall s :: s in statuses ==> s in {StatusSucceeded, StatusFailed, StatusCancelled}) &&
                  exists s, t :: s in statuses && t in statuses && s != t)
  {
    CountIsFull(statuses, StatusSucceeded);
    CountIsFull(statuses, StatusCancelled);
    CountIsFull(statuses, StatusFailed);
    if statuses != [] { assert statuses[0] in statuses; }
  }
}
