/** Runs and calculations as the server lists them and the client shows them (crates/common/src/model.rs:170-200). */
module Runs {
  import opened Base
  import opened Model

  /** As stored in the table and shown to the user. */
  function RunStatusText(s: RunStatus): string {
    match s
    case RunPending => "pending"
    case RunRunning => "running"
    case RunSucceeded => "succeeded"
    case RunFailed => "failed"
    case RunCancelled => "cancelled"
    case RunPartiallySucceeded => "partially_succeeded"
  }

  datatype Calc = Calc(id: CalcId, runId: RunId, kind: string, status: CalcStatus, hasResult: bool)

  /** `createdAt` is in milliseconds. */
  datatype Run = Run(id: RunId, jira: string, status: RunStatus, createdAt: int, calcs: seq<Calc>)
}
