/**
 * Task states and the transition table that `transition` consults.
 * Three writes of the system go past this table; see module Lifecycle.
 */
module TaskStates {

  datatype TaskState = Queued | Running | Retry | Fallback | Escalated | Done | Failed | Cancelled

  function Successors(from: TaskState): set<TaskState> {
    match from
    case Queued => {Running, Cancelled}
    case Running => {Done, Retry, Fallback, Escalated, Failed, Cancelled}
    case Retry => {Running, Escalated, Cancelled}
    case Fallback => {Running, Escalated, Cancelled}
    case Escalated => {Running, Cancelled, Failed}
    case Done => {}
    case Failed => {Running}
    case Cancelled => {}
  }

  predicate CanTransition(from: TaskState, to: TaskState) {
    from == to || to in Successors(from)
  }

  /** The states a worker may claim from. */
  predicate Waiting(s: TaskState) {
    s.Queued? || s.Retry? || s.Fallback?
  }

  /** The states `createTask` revives. */
  predicate Dead(s: TaskState) {
    s.Escalated? || s.Failed? || s.Cancelled?
  }
}
