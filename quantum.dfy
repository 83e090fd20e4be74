/**
  The job record of the dashboard and its status enumeration, as the
  client receives them from the job data source.
*/
module Quantum {

  datatype Option<+T> = None | Some(value: T)

  /** The seven lifecycle states a job can report. */
  datatype Status =
    | Initializing
    | Queued
    | Validating
    | Running
    | Cancelled
    | Done
    | Error

  /** The string literal each status carries on the wire; filters compare against it. */
  function StatusName(s: Status): (r: string)
    ensures r != ""
  {
    match s
    case Initializing => "INITIALIZING"
    case Queued => "QUEUED"
    case Validating => "VALIDATING"
    case Running => "RUNNING"
    case Cancelled => "CANCELLED"
    case Done => "DONE"
    case Error => "ERROR"
  }

  /** Distinct statuses have distinct names, so comparing names compares statuses. */
  lemma StatusNameInjective(s: Status, t: Status)
    ensures StatusName(s) == StatusName(t) <==> s == t
  {
  }

  /**
    One job. JavaScript numbers are modelled as integers; every optional
    field of the record is an Option.
  */
  datatype Job = Job(
    id: string,
    name: Option<string>,
    status: Status,
    backend: string,
    created: string,
    timePerStep: Option<map<string, string>>,
    position: Option<int>,
    estimatedStartTime: Option<string>,
    estimatedCompleteTime: Option<string>,
    tags: Option<seq<string>>,
    shots: Option<int>,
    qubits: Option<int>,
    circuitDepth: Option<int>)

  /** The five counters shown in the statistics panel. */
  datatype JobStats = JobStats(total: nat, queued: nat, running: nat, completed: nat, failed: nat)
}
