/** The AgentTask resource: its lifecycle states, its spec and status records, and the
    validation that a Pending task goes through (pkg/apis/cloudagent/v1alpha1/types.go). */
module AgentTasks {

  datatype Option<+T> = None | Some(value: T)

  /** `Unset` is the empty state string. `Deleted` is declared by the source and never assigned; `Other` is any
      other string. */
  datatype TaskState = Unset | Pending | Started | Running | Completed | Failed | Deleted | Other(text: string)

  datatype Spec = Spec(
    prompt: string,
    sandboxTemplate: string,
    taskOwner: string,
    taskOwnerEmail: string,
    repoOwner: string,
    repoName: string,
    issueNumber: int,
    taskType: string)

  /** The three names are "" while no sandbox is recorded. */
  datatype Status = Status(
    state: TaskState,
    retries: int,
    claimName: string,
    sandboxName: string,
    podName: string)
  {
    predicate HasNoNames() { claimName == "" && sandboxName == "" && podName == "" }

    predicate HasAllNames() { claimName != "" && sandboxName != "" && podName != "" }

    predicate SameNames(other: Status) {
      claimName == other.claimName && sandboxName == other.sandboxName && podName == other.podName
    }

    function Cleared(): Status { this.(claimName := "", sandboxName := "", podName := "") }
  }

  /** The fields of the embedded object metadata besides the name and the resourceVersion. */
  datatype MetaField =
    | Namespace | GenerateName | SelfLink | Uid | Generation | CreationTimestamp | DeletionTimestamp
    | DeletionGracePeriodSeconds | Labels | Annotations | OwnerReferences | Finalizers | ManagedFields

  /** Their values, uninterpreted; a field that is not set is absent. */
  type Metadata = m: map<MetaField, string> | forall f :: f in m ==> m[f] != "" witness map[]

  /** `version` is the resourceVersion that optimistic concurrency control compares. */
  datatype AgentTask = AgentTask(name: string, version: nat, meta: Metadata, spec: Spec, status: Status)
  {
    function WithState(s: TaskState): AgentTask { this.(status := status.(state := s)) }
  }

  /** A task passes validation when nothing the orchestrator requires is missing. */
  predicate ValidSpec(spec: Spec) {
    && spec.prompt != ""
    && spec.repoOwner != ""
    && spec.repoName != ""
    && spec.sandboxTemplate != ""
    && spec.issueNumber != 0
    && spec.taskType != ""
  }
}
