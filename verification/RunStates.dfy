/** Run states, their phases and the permitted transitions
    (src/orqalis/domain/run.py, src/orqalis/core/state_machine.py). */
module RunStates {
  import opened Collections

  datatype RunState =
    | Received | ContextSync | Analyzing | GoalDefined | Planned | Executing | Integrating | Testing | Reviewing
    | RepairPlanning | ChangeGuard | Documenting | DeliveryValidation | Committing | Pushing | MemoryFinalization
    | Completed | BlockedRun | HumanReviewRequired | FailedRun | CancelledRun | Paused

  datatype UiPhase =
    | ContextPhase | GoalPhase | PlanPhase | ImplementPhase | TestPhase | ReviewPhase | RepairPhase | DocsPhase | DeliverPhase

  predicate Terminal(s: RunState) { s in {Completed, FailedRun, CancelledRun} }

  predicate Suspended(s: RunState) { s in {Paused, BlockedRun, HumanReviewRequired} }

  function Successors(s: RunState): set<RunState> {
    match s
    case Received => {ContextSync}
    case ContextSync => {Analyzing}
    case Analyzing => {GoalDefined}
    case GoalDefined => {Planned}
    case Planned => {Executing}
    case Executing => {Integrating}
    case Integrating => {Testing}
    case Testing => {Reviewing}
    case Reviewing => {ChangeGuard, RepairPlanning}
    case RepairPlanning => {Executing}
    case ChangeGuard => {Documenting, RepairPlanning}
    case Documenting => {DeliveryValidation}
    case DeliveryValidation => {Committing}
    case Committing => {Pushing, MemoryFinalization}
    case Pushing => {MemoryFinalization}
    case MemoryFinalization => {Completed}
    case _ => {}
  }

  /** `PHASES.get`: the states that name a phase of their own. */
  function PhaseOf(s: RunState): Option<UiPhase> {
    match s
    case Received => Some(ContextPhase)
    case ContextSync => Some(ContextPhase)
    case Analyzing => Some(GoalPhase)
    case GoalDefined => Some(GoalPhase)
    case Planned => Some(PlanPhase)
    case Executing => Some(ImplementPhase)
    case Integrating => Some(ImplementPhase)
    case Testing => Some(TestPhase)
    case Reviewing => Some(ReviewPhase)
    case RepairPlanning => Some(RepairPhase)
    case ChangeGuard => Some(ReviewPhase)
    case Documenting => Some(DocsPhase)
    case DeliveryValidation => Some(DeliverPhase)
    case Committing => Some(DeliverPhase)
    case Pushing => Some(DeliverPhase)
    case MemoryFinalization => Some(DeliverPhase)
    case Completed => Some(DeliverPhase)
    case _ => None
  }

  /** `validate_transition`. */
  predicate ValidTransition(previous: RunState, target: RunState, resumeState: Option<RunState>) {
    if Terminal(previous) then false
    else if target in {CancelledRun, FailedRun, Paused, BlockedRun, HumanReviewRequired} then previous != target
    else if Suspended(previous) then resumeState == Some(target)
    else target in Successors(previous)
  }
}
