/** The two conversions between an AgentTask and the API server's documents
    (pkg/apis/cloudagent/v1alpha1/types.go). The whole object metadata is embedded in the type and survives.
    Zero values are left out of a document, and fields that neither the type nor the metadata declares are
    ignored when one is read. A document is given by its leaves. */
module Resources {
  import opened AgentTasks

  datatype Json = Text(text: string) | Number(n: int)

  /** The fields that the type declares, and the two of the metadata that the agents use. */
  datatype Field =
    | MetaName | MetaResourceVersion
    | SpecPrompt | SpecSandboxTemplate | SpecTaskOwner | SpecTaskOwnerEmail | SpecRepoOwner | SpecRepoName
    | SpecIssueNumber | SpecTaskType
    | StatusState | StatusRetries | StatusSandboxClaimName | StatusSandboxName | StatusPodName

  datatype Path = ApiVersion | Kind | Declared(field: Field) | Meta(meta: MetaField) | Undeclared(name: string)

  type Document = map<Path, Json>

  const API_VERSION := "cloudagent.mayurhalai.github.com/v1alpha1"
  const KIND := "AgentTask"

  function StateText(s: TaskState): string {
    match s
    case Unset => ""
    case Pending => "Pending"
    case Started => "Started"
    case Running => "Running"
    case Completed => "Completed"
    case Failed => "Failed"
    case Deleted => "Deleted"
    case Other(text) => text
  }

  function StateOf(text: string): TaskState {
    if text == "" then Unset
    else if text == "Pending" then Pending
    else if text == "Started" then Started
    else if text == "Running" then Running
    else if text == "Completed" then Completed
    else if text == "Failed" then Failed
    else if text == "Deleted" then Deleted
    else Other(text)
  }

  /** The value of a field. */
  function ValueAt(t: AgentTask, f: Field): Json {
    match f
    case MetaName => Text(t.name)
    case MetaResourceVersion => Number(t.version)
    case SpecPrompt => Text(t.spec.prompt)
    case SpecSandboxTemplate => Text(t.spec.sandboxTemplate)
    case SpecTaskOwner => Text(t.spec.taskOwner)
    case SpecTaskOwnerEmail => Text(t.spec.taskOwnerEmail)
    case SpecRepoOwner => Text(t.spec.repoOwner)
    case SpecRepoName => Text(t.spec.repoName)
    case SpecIssueNumber => Number(t.spec.issueNumber)
    case SpecTaskType => Text(t.spec.taskType)
    case StatusState => Text(StateText(t.status.state))
    case StatusRetries => Number(t.status.retries)
    case StatusSandboxClaimName => Text(t.status.claimName)
    case StatusSandboxName => Text(t.status.sandboxName)
    case StatusPodName => Text(t.status.podName)
  }

  predicate IsZero(v: Json) { v == Text("") || v == Number(0) }

  /** The value at a leaf of the task's document; zero where there is none. */
  function LeafAt(t: AgentTask, p: Path): Json {
    match p
    case ApiVersion => Text(API_VERSION)
    case Kind => Text(KIND)
    case Declared(f) => ValueAt(t, f)
    case Meta(g) => if g in t.meta then Text(t.meta[g]) else Text("")
    case Undeclared(_) => Text("")
  }

  function Leaves(): (r: set<Path>)
    ensures forall p :: p in r <==> !p.Undeclared?
  {
    {ApiVersion, Kind} + (set f: Field :: Declared(f)) + (set g: MetaField :: Meta(g))
  }

  function ToUnstructured(t: AgentTask): Document {
    map p | p in Leaves() && !IsZero(LeafAt(t, p)) :: LeafAt(t, p)
  }

  predicate IsNumber(f: Field) {
    f.MetaResourceVersion? || f.SpecIssueNumber? || f.StatusRetries?
  }

  /** A declared field of the wrong kind is an error. */
  predicate WellTyped(d: Document) {
    && (forall f: Field :: Declared(f) in d ==>
          if IsNumber(f) then d[Declared(f)].Number? && (f.MetaResourceVersion? ==> d[Declared(f)].n >= 0)
          else d[Declared(f)].Text?)
    && (forall g: MetaField :: Meta(g) in d ==> d[Meta(g)].Text?)
  }

  function TextAt(d: Document, f: Field): string {
    if Declared(f) in d && d[Declared(f)].Text? then d[Declared(f)].text else ""
  }

  function NumberAt(d: Document, f: Field): int {
    if Declared(f) in d && d[Declared(f)].Number? then d[Declared(f)].n else 0
  }

  function ReadSpec(d: Document): Spec {
    Spec(TextAt(d, SpecPrompt), TextAt(d, SpecSandboxTemplate), TextAt(d, SpecTaskOwner), TextAt(d, SpecTaskOwnerEmail),
         TextAt(d, SpecRepoOwner), TextAt(d, SpecRepoName), NumberAt(d, SpecIssueNumber), TextAt(d, SpecTaskType))
  }

  function ReadStatus(d: Document): Status {
    Status(StateOf(TextAt(d, StatusState)), NumberAt(d, StatusRetries), TextAt(d, StatusSandboxClaimName),
           TextAt(d, StatusSandboxName), TextAt(d, StatusPodName))
  }

  function ReadMetadata(d: Document): Metadata {
    map g: MetaField | Meta(g) in d && d[Meta(g)].Text? && d[Meta(g)].text != "" :: d[Meta(g)].text
  }

  function FromUnstructured(d: Document): Option<AgentTask> {
    if !WellTyped(d) then None
    else
      var version := NumberAt(d, MetaResourceVersion);
      Some(AgentTask(TextAt(d, MetaName), if version >= 0 then version else 0, ReadMetadata(d), ReadSpec(d), ReadStatus(d)))
  }

  /** The spelling of the states. */
  lemma StatesAreSpelled()
    ensures StateText(Unset) == "" && StateText(Pending) == "Pending" && StateText(Started) == "Started"
    ensures StateText(Running) == "Running" && StateText(Completed) == "Completed" && StateText(Failed) == "Failed"
    ensures StateText(Deleted) == "Deleted" && forall text :: StateText(Other(text)) == text
  {
  }

  lemma StateRoundTrip(text: string)
    ensures StateText(StateOf(text)) == text
  {
  }

  /** A leaf is written exactly if it is not zero. */
  lemma LeafWritten(t: AgentTask, p: Path)
    ensures p in ToUnstructured(t) <==> !IsZero(LeafAt(t, p))
    ensures p in ToUnstructured(t) ==> ToUnstructured(t)[p] == LeafAt(t, p)
  {
    assert |API_VERSION| > 0 && |KIND| > 0;
  }

  /** Reading the field of a document gives the task's value. */
  ghost predicate ReadsAs(d: Document, t: AgentTask, f: Field) {
    && (ValueAt(t, f).Text? ==> TextAt(d, f) == ValueAt(t, f).text)
    && (ValueAt(t, f).Number? ==> NumberAt(d, f) == ValueAt(t, f).n)
  }

  lemma ReadsBack(t: AgentTask, f: Field)
    ensures ReadsAs(ToUnstructured(t), t, f)
  {
    LeafWritten(t, Declared(f));
  }

  lemma WrittenIsWellTyped(t: AgentTask)
    ensures WellTyped(ToUnstructured(t))
  {
    forall p ensures p in ToUnstructured(t) ==> ToUnstructured(t)[p] == LeafAt(t, p) {
      LeafWritten(t, p);
    }
  }

  lemma SpecReadsBack(d: Document, t: AgentTask)
    requires forall f :: ReadsAs(d, t, f)
    ensures ReadSpec(d) == t.spec
  {
    assert ReadsAs(d, t, SpecPrompt) && ReadsAs(d, t, SpecSandboxTemplate);
    assert ReadsAs(d, t, SpecTaskOwner) && ReadsAs(d, t, SpecTaskOwnerEmail);
    assert ReadsAs(d, t, SpecRepoOwner) && ReadsAs(d, t, SpecRepoName);
    assert ReadsAs(d, t, SpecIssueNumber) && ReadsAs(d, t, SpecTaskType);
  }

  lemma StatusReadsBack(d: Document, t: AgentTask)
    requires forall f :: ReadsAs(d, t, f)
    requires StateOf(StateText(t.status.state)) == t.status.state
    ensures ReadStatus(d) == t.status
  {
    assert ReadsAs(d, t, StatusState) && ReadsAs(d, t, StatusRetries);
    assert ReadsAs(d, t, StatusSandboxClaimName) && ReadsAs(d, t, StatusSandboxName) && ReadsAs(d, t, StatusPodName);
  }

  lemma MetadataReadsBack(t: AgentTask)
    ensures ReadMetadata(ToUnstructured(t)) == t.meta
  {
    var d := ToUnstructured(t);
    forall g: MetaField
      ensures g in ReadMetadata(d) <==> g in t.meta
      ensures g in t.meta ==> ReadMetadata(d)[g] == t.meta[g]
    {
      LeafWritten(t, Meta(g));
    }
  }

  /** Nothing of a task is lost on the way to the server and back: not its metadata, not its resourceVersion, on
      which every version-checked write depends, and not the zero values that the document leaves out. */
  lemma TaskRoundTrip(t: AgentTask)
    requires StateOf(StateText(t.status.state)) == t.status.state
    ensures FromUnstructured(ToUnstructured(t)) == Some(t)
  {
    var d := ToUnstructured(t);
    WrittenIsWellTyped(t);
    MetadataReadsBack(t);
    forall f ensures ReadsAs(d, t, f) {
      ReadsBack(t, f);
    }
    SpecReadsBack(d, t);
    StatusReadsBack(d, t);
    assert ReadsAs(d, t, MetaName) && ReadsAs(d, t, MetaResourceVersion);
  }

  lemma ReadFields(d: Document, f: Field)
    requires WellTyped(d)
    ensures var v := ValueAt(FromUnstructured(d).value, f);
            if Declared(f) in d then v == d[Declared(f)] else IsZero(v)
  {
    StateRoundTrip(TextAt(d, StatusState));
  }

  /** The documents that a whole-object write of a task that was read leaves as they were. */
  ghost predicate Canonical(d: Document) {
    && ApiVersion in d && d[ApiVersion] == Text(API_VERSION)
    && Kind in d && d[Kind] == Text(KIND)
    && (forall p :: p in d ==> !p.Undeclared? && (p.Declared? || p.Meta? ==> !IsZero(d[p])))
  }

  lemma ReadLeaves(d: Document, p: Path)
    requires WellTyped(d) && (p.Declared? || p.Meta?)
    ensures var v := LeafAt(FromUnstructured(d).value, p);
            if p in d then v == d[p] else IsZero(v)
  {
    if p.Declared? { ReadFields(d, p.field); }
  }

  /** What becomes of a leaf when a document is read and written. */
  lemma LeafRoundTrip(d: Document, p: Path)
    requires WellTyped(d)
    ensures var e := ToUnstructured(FromUnstructured(d).value);
            match p
            case ApiVersion => p in e && e[p] == Text("cloudagent.mayurhalai.github.com/v1alpha1")
            case Kind => p in e && e[p] == Text("AgentTask")
            case Undeclared(_) => p !in e
            case _ => if p in d && !IsZero(d[p]) then p in e && e[p] == d[p] else p !in e
  {
    LeafWritten(FromUnstructured(d).value, p);
    if p.Declared? || p.Meta? { ReadLeaves(d, p); }
    assert |API_VERSION| > 0 && |KIND| > 0;
  }

  /** A document survives being read and written exactly if it has the right type, spells out no zero value, and
      has no field besides those of the spec, the status and the metadata: a whole-object write drops such fields
      and nothing else. */
  lemma DocumentRoundTrip(d: Document)
    requires WellTyped(d)
    ensures ToUnstructured(FromUnstructured(d).value) == d <==> Canonical(d)
  {
    var e := ToUnstructured(FromUnstructured(d).value);
    if e == d {
      forall p | p in d ensures !p.Undeclared? && (p.Declared? || p.Meta? ==> !IsZero(d[p])) {
        LeafRoundTrip(d, p);
      }
      LeafRoundTrip(d, ApiVersion);
      LeafRoundTrip(d, Kind);
    }
    if Canonical(d) {
      forall p ensures p in e <==> p in d ensures p in e ==> e[p] == d[p] {
        LeafRoundTrip(d, p);
      }
    }
  }

  /** Every field of a task that was read comes from the field of its own name in the document. */
  lemma FieldsAreRead(d: Document, g: MetaField)
    requires WellTyped(d)
    ensures var t := FromUnstructured(d).value;
            && t.name == TextAt(d, MetaName) && t.version == NumberAt(d, MetaResourceVersion)
            && t.spec.prompt == TextAt(d, SpecPrompt) && t.spec.sandboxTemplate == TextAt(d, SpecSandboxTemplate)
            && t.spec.taskOwner == TextAt(d, SpecTaskOwner) && t.spec.taskOwnerEmail == TextAt(d, SpecTaskOwnerEmail)
            && t.spec.repoOwner == TextAt(d, SpecRepoOwner) && t.spec.repoName == TextAt(d, SpecRepoName)
            && t.spec.issueNumber == NumberAt(d, SpecIssueNumber) && t.spec.taskType == TextAt(d, SpecTaskType)
    ensures var t := FromUnstructured(d).value;
            && StateText(t.status.state) == TextAt(d, StatusState) && t.status.retries == NumberAt(d, StatusRetries)
            && t.status.claimName == TextAt(d, StatusSandboxClaimName)
            && t.status.sandboxName == TextAt(d, StatusSandboxName) && t.status.podName == TextAt(d, StatusPodName)
            && (g in t.meta ==> Meta(g) in d && d[Meta(g)] == Text(t.meta[g]))
  {
    StateRoundTrip(TextAt(d, StatusState));
  }
}
