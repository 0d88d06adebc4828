/** The status matrices the proposal gate consults. */
module Transitions {

  datatype TaskStatus = Backlog | Planned | InProgress | Done | Dropped | CarriedOver

  datatype DirectionStatus = DirDraft | DirActive | DirPaused | Achieved | Abandoned

  datatype WeekStatus = Planning | WeekActive | Reviewing | Closed

  datatype RhythmStatus = RhythmActive | Adjusted | Retired

  predicate TaskEdge(from: TaskStatus, to: TaskStatus) {
    || (from == Backlog && (to == Planned || to == Dropped))
    || (from == Planned && (to == InProgress || to == Dropped || to == CarriedOver))
    || (from == InProgress && (to == Done || to == Dropped || to == CarriedOver))
  }

  predicate TaskTerminal(s: TaskStatus) {
    s == Done || s == Dropped || s == CarriedOver
  }

  predicate DirectionTerminal(s: DirectionStatus) {
    s == Achieved || s == Abandoned
  }

  predicate WeekOpen(s: WeekStatus) {
    s == Planning || s == WeekActive
  }

  predicate RhythmEdge(from: RhythmStatus, to: RhythmStatus) {
    from != Retired && (to == Adjusted || to == Retired)
  }

  /** How many status changes a task can still go through. */
  function Left(s: TaskStatus): (n: nat)
    ensures n == 0 <==> TaskTerminal(s)
  {
    match s
    case Backlog => 3
    case Planned => 2
    case InProgress => 1
    case _ => 0
  }
}
