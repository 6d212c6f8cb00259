/** The durable tables behind completion and cleanup, and the transactions that update them in place. */
module Phase3Stores {
  import opened Options
  import opened IntegrationModel
  import opened GateModel
  import opened Phase3Model
  import I = IntegrationRuns
  import D = DomainModel

  class Phase3Store {
    var tasks: map<Id, TaskRow>
    var executions: map<Id, ExecutionRow>
    var workspaces: map<Id, WorkspaceRow>
    var policies: map<Id, PolicyRow>
    var workspaceIntents: map<Id, WorkspaceIntent>
    var decisions: map<Id, Decision>
    var ledger: Ledger
    var gates: GateTables

    constructor ()
      ensures Durable() == START
    {
      tasks, executions, workspaces, policies := map[], map[], map[], map[];
      workspaceIntents, decisions, ledger, gates := map[], map[], I.START.ledger, NO_GATES;
    }

    /** The tables as a world in which no operation is under way. */
    function Durable(): World
      reads this
    {
      World(tasks, executions, workspaces, policies, {}, I.World(ledger, map[], [], 0), gates, map[], [], workspaceIntents,
            map[], map[], decisions)
    }

    /** An intent moves on, and its workspace with it when it is to have a new status. */
    method Move(intent: Id, state: IntentState, status: Option<WorkspaceStatus>)
      requires intent in workspaceIntents && workspaceIntents[intent].workspace in workspaces
      modifies this`workspaceIntents, this`workspaces
      ensures Durable() == CleanupMove(old(Durable()), intent, state, status, None)
    {
      var x := workspaceIntents[intent].workspace;
      workspaceIntents := workspaceIntents[intent := workspaceIntents[intent].(state := state)];
      if status.Some? {
        workspaces := workspaces[x := workspaces[x].(status := status.value, revision := workspaces[x].revision + 1)];
      }
    }

    method ActCleanup(intent: Id, b: Binding, granted: bool) returns (acted: bool)
      modifies this`workspaceIntents, this`workspaces
      ensures Durable() == StepCleanupAct(old(Durable()), CleanupAct(intent, granted), b).(cleanups := map[])
      ensures acted <==>
                && intent in old(workspaceIntents) && old(workspaceIntents)[intent].state == Pending && granted
                && old(workspaceIntents)[intent].workspace == b.workspace
                && Binds(old(Durable()), b, Ready) && Quiescent(old(Durable()), b, intent, Pending)
    {
      hide Quiescent;
      if intent !in workspaceIntents || workspaceIntents[intent].state != Pending || !Binds(Durable(), b, Ready) ||
         workspaceIntents[intent].workspace != b.workspace
      {
        return false;
      }
      acted := granted && Quiescent(Durable(), b, intent, Pending);
      if acted { Move(intent, Executing, Some(Cleaning)); } else { Move(intent, Failed, None); }
    }

    method RecordCleanup(intent: Id, result: CleanupResult)
      modifies this`workspaceIntents, this`workspaces
      ensures Durable() == StepCleanupRecord(old(Durable()), CleanupRecord(intent), result).(cleanups := map[])
    {
      if BeingCleaned(Durable(), intent, Executing) {
        match result {
          case CleanupFailure(true) => Move(intent, Unclear, Some(RecoveryRequired));
          case CleanupFailure(false) => Move(intent, Failed, Some(Ready));
          case CleanupReceipt(true, _) => Move(intent, Observed, None);
          case CleanupReceipt(false, _) => Move(intent, Unclear, Some(RecoveryRequired));
        }
      }
    }

    method FinalizeCleanup(intent: Id, succeeded: bool, granted: bool)
      modifies this`workspaceIntents, this`workspaces
      ensures Durable() ==
              StepCleanupFinalize(old(Durable()), CleanupFinalize(intent, granted), succeeded).(cleanups := map[])
    {
      if BeingCleaned(Durable(), intent, Verified) {
        if granted { Move(intent, Finalized, Some(if succeeded then Cleaned else Ready)); }
        else { Move(intent, Unclear, Some(RecoveryRequired)); }
      }
    }

    /**
     The transaction that decides: the evidence is read once more and compared with what was refreshed.  The check of the
     whole state lets only the present attempt at a task complete it.
     */
    method AcceptCompletion(call: CompletionCall, proof: IntegrationProof, granted: bool) returns (accepted: bool)
      modifies this`tasks, this`executions, this`decisions
      ensures var w := old(Durable()).(calls := map[0 := call]);
              && Durable() == StepCompletionDecide(w, CompletionDecide(0, proof, granted), call).(calls := map[])
              && (accepted ==> call.refreshed.Some? && call.b.execution in decisions &&
                               decisions[call.b.execution].gates == call.refreshed.value.gates)
              && (!accepted ==> tasks == w.tasks && executions == w.executions && decisions == w.decisions)
    {
      hide GateSet, Proves;
      accepted := false;
      if call.refreshed.Some? && Underway(Durable(), call.b) && call.policy in policies && granted &&
         !executions[call.b.execution].superseded
      {
        var policy, seen := policies[call.policy], call.refreshed.value;
        var chosen := GateSetEvidence(gates, policy.requiredGates, call.b, call.policy, seen.now);
        if chosen == Some(seen.gates) && |seen.gates| == |call.reopened| && (forall i :: i in seen.gates ==> i in call.reopened) &&
           proof == seen.proof && Proves(ledger, call.b, policy, proof)
        {
          decisions := decisions[call.b.execution := Decision(call.b, call.policy, seen.gates, proof, seen.now, call.since)];
          tasks := tasks[call.b.task := TaskRow(D.Completed, call.b.taskRevision + 1)];
          executions := executions[call.b.execution := executions[call.b.execution].(terminal := Some(CompletedStatus))];
          accepted := true;
        }
      }
    }
  }
}
