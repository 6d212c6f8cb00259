/**
 The actions grants are given for, and the vocabularies a runtime is upgraded through.
 */
module Vocabulary {
  datatype Action =
    | AuthorizationGrantIssue | AuthorizationGrantInspect | AuthorizationGrantRevoke | PolicyEvaluate
    | ProjectRegister | ProjectUpdate | ProjectDisable | ProjectInspect | TaskCreate | TaskUpdate | TaskMarkReady
    | TaskCancel | TaskInspect | DependencyAdd | DependencyRemove | AuthorizationGrantList | RuntimeStatus
    | RuntimeBackup | RuntimeRestore | ExecutionClaim | ExecutionClaimInspect | ExecutionLeaseRenew
    | ExecutionLeaseTakeover | ExecutionStart | ExecutionInspect | ExecutionResume | ExecutionRetry
    | ExecutionCancel | ExecutionCompletionAccept | DispatchRun | WorkspaceReserve | WorkspaceCreate
    | WorkspaceInspect | WorkspaceRecover | WorkspaceCleanup | CompletionGateRun | CompletionGateInspect
    | CompletionGateCancel | CompletionAccept | IntegrationReserve | IntegrationInspect | IntegrationLeaseRenew
    | IntegrationLeaseTakeover | IntegrationApply | IntegrationPush | IntegrationRecover | IntegrationRelease
    | SchedulerRegister | SchedulerInspect | SchedulerRemove | CodexProfileActivate | CodexProfileInspect
    | CodexProfileDeactivate | CodexExecutionInvoke | CodexExecutionCancel

  const BASE_ACTIONS: seq<Action> := [
    AuthorizationGrantIssue, AuthorizationGrantInspect, AuthorizationGrantRevoke, PolicyEvaluate,
    ProjectRegister, ProjectUpdate, ProjectDisable, ProjectInspect, TaskCreate, TaskUpdate, TaskMarkReady,
    TaskCancel, TaskInspect, DependencyAdd, DependencyRemove, AuthorizationGrantList, RuntimeStatus,
    RuntimeBackup, RuntimeRestore]

  const EXECUTION_ACTIONS: seq<Action> := [
    ExecutionClaim, ExecutionClaimInspect, ExecutionLeaseRenew, ExecutionLeaseTakeover]

  const MANUAL_EXECUTION_ACTIONS: seq<Action> := [
    ExecutionStart, ExecutionInspect, ExecutionResume, ExecutionRetry, ExecutionCancel,
    ExecutionCompletionAccept]

  const DISPATCH_ACTIONS: seq<Action> := [
    DispatchRun]

  const WORKSPACE_ACTIONS: seq<Action> := [
    WorkspaceReserve, WorkspaceCreate, WorkspaceInspect, WorkspaceRecover, WorkspaceCleanup]

  const COMPLETION_INTEGRATION_ACTIONS: seq<Action> := [
    CompletionGateRun, CompletionGateInspect, CompletionGateCancel, CompletionAccept, IntegrationReserve,
    IntegrationInspect, IntegrationLeaseRenew, IntegrationLeaseTakeover, IntegrationApply, IntegrationPush,
    IntegrationRecover, IntegrationRelease]

  const SCHEDULER_ACTIONS: seq<Action> := [
    SchedulerRegister, SchedulerInspect, SchedulerRemove]

  const CODEX_ACTIONS: seq<Action> := [
    CodexProfileActivate, CodexProfileInspect, CodexProfileDeactivate, CodexExecutionInvoke,
    CodexExecutionCancel]

  predicate HighRisk(a: Action) {
    a in {
      AuthorizationGrantIssue, AuthorizationGrantRevoke, ProjectRegister, ProjectUpdate, ProjectDisable,
      RuntimeRestore, ExecutionCompletionAccept, CompletionAccept, IntegrationApply, IntegrationPush,
      WorkspaceCleanup, SchedulerRegister, SchedulerRemove, CodexProfileActivate, CodexProfileDeactivate,
      CodexExecutionInvoke}
  }

  const LAST_VERSION: nat := 8

  type Version = v: nat | 1 <= v <= LAST_VERSION witness 1

  function ActionsFor(version: Version): seq<Action> {
    if version == 1 then BASE_ACTIONS
    else ActionsFor(version - 1) + AddedBy(version)
  }

  /** What each version adds to the one before it. */
  function AddedBy(version: nat): seq<Action> {
    match version
    case 2 => EXECUTION_ACTIONS
    case 3 => MANUAL_EXECUTION_ACTIONS
    case 4 => DISPATCH_ACTIONS
    case 5 => WORKSPACE_ACTIONS
    case 6 => COMPLETION_INTEGRATION_ACTIONS
    case 7 => SCHEDULER_ACTIONS
    case 8 => CODEX_ACTIONS
    case _ => []
  }

  /** Every version allows everything the versions before it allow. */
  lemma {:induction false} VocabulariesNest(v: Version, w: Version)
    requires v <= w
    ensures ActionsFor(v) <= ActionsFor(w)
    decreases w - v
  {
    hide AddedBy;
    if v < w {
      VocabulariesNest(v, w - 1);
      assert ActionsFor(w) == ActionsFor(w - 1) + AddedBy(w);
    }
  }
}
