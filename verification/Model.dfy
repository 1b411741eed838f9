// The records of model.py: actors, workers, templates and constraints.
module Model {
  import opened Wrappers
  import P = PoolModel

  type WorkerId = nat
  type SnapshotRef = nat
  type Time = P.Time
  type Labels = map<string, string>

  datatype ActorStatus = SUSPENDED | RESUMING | RUNNING | SUSPENDING | PAUSING | PAUSED | CRASHED | DELETING

  datatype WorkerState = ACTIVE | DRAINING

  datatype SandboxClass = CONTAINER | MICROVM | VFS

  datatype ActorRef = ActorRef(namespace: string, actorId: string)

  datatype Assignment = Assignment(actorId: string, workerId: WorkerId, sandboxClass: SandboxClass,
                                   node: Option<string>, activatedAt: Time)

  datatype Constraints = Constraints(sandboxClass: SandboxClass, templateSelector: Labels, actorSelector: Labels,
                                     requiredNode: Option<string>)

  datatype Actor = Actor(actorId: string, namespace: string, templateId: string, status: ActorStatus, version: nat,
                         assignment: Option<Assignment>, snapshot: Option<SnapshotRef>, selector: Labels,
                         createdAt: Time, updatedAt: Time)
  {
    function Ref(): ActorRef {
      ActorRef(namespace, actorId)
    }

    predicate IsActive() {
      status.RUNNING? || status.RESUMING?
    }
  }

  datatype Worker = Worker(workerId: WorkerId, state: WorkerState, sandboxClass: SandboxClass, version: nat,
                           assignment: Option<Assignment>, labels: Labels, node: Option<string>,
                           sandbox: Option<P.Sandbox>)
  {
    predicate IsIdle() {
      state.ACTIVE? && assignment.None? && sandbox.Some?
    }
  }

  datatype Template = Template(templateId: string, sandboxClass: SandboxClass)

  // Status classes of the lifecycle.
  predicate Detached(st: ActorStatus) {
    st.SUSPENDED? || st.PAUSED? || st.CRASHED? || st.RESUMING?
  }

  predicate Attached(st: ActorStatus) {
    st.RUNNING? || st.SUSPENDING? || st.PAUSING?
  }
}
