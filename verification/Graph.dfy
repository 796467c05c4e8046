/** The macro-research graph: its checkpointed state, its six nodes, its routing. */
module Graph {
  import opened Wrappers
  import opened Jobs
  import Reducers
  import Decimal
  import opened Text

  // ---------------------------------------------------------------- requests, reviews, policy

  /** A user query together with its lower-cased form. */
  datatype Query = Query(raw: string, lowered: string)

  predicate WantsDirectAnswer(q: Query) { Contains(q.lowered, "direct") }

  const RISKY_WORDS := ["diagnose", "high risk", "massive", "safe trading", "arima"]

  predicate NeedsApproval(q: Query) {
    !WantsDirectAnswer(q) && exists m :: m in RISKY_WORDS && Contains(q.lowered, m)
  }

  datatype Approval = NotRequired | Pending | Approved | Rejected | Edited

  /** What a reviewer sends on resume. */
  datatype Review = Review(action: Approval, updatedPlan: Option<Plan>)

  predicate IsVerdict(a: Approval) { a in {Approved, Rejected, Edited} }

  datatype Gate = Allow | Deny | RouteToHitl

  /** `schema` holds the property names of a non-empty input schema. */
  datatype Capability = Capability(highRisk: bool, requiresApproval: bool, allowedRoles: set<string>,
    schema: Option<set<string>>)

  const REGISTRY := map["mcp_arima_forecast" := Capability(true, true, {"researcher", "admin"}, None)]

  function EvaluateToolCall(registry: map<string, Capability>, tool: string, arguments: set<string>, role: string): Gate
  {
    if tool !in registry then Deny
    else
      var cap := registry[tool];
      if role !in cap.allowedRoles then Deny
      else if cap.schema.Some? && !(arguments <= cap.schema.value) then Deny
      else if cap.highRisk || cap.requiresApproval then RouteToHitl
      else Allow
  }

  // ---------------------------------------------------------------- state

  datatype RunStatus = Fresh | Running | WaitingForJob | Completed | Failed

  datatype EventKind =
    | RequestParsed
    | ContextAssembled
    | HumanDecision(action: Approval)
    | SecurityGateBlocked
    | JobSubmitted(jobId: string)
    | PollSkipped
    | JobCompleted(jobId: string)
    | JobFatal(jobId: string)
    | JobInProgress(jobId: string)
    | Finalized

  datatype Event = Event(kind: EventKind, step: nat)

  datatype Problem = PolicyViolation(tool: string) | JobProblem(jobId: string, error: Option<string>)

  datatype Answer = Aborted | Report(query: string, evidence: Option<(nat, string)>)

  datatype State = State(
    threadId: string,
    runId: string,
    query: Query,
    directIntent: Option<bool>,
    contextReady: bool,
    plan: Option<Plan>,
    executing: bool,
    approval: Option<Approval>,
    activeJobs: seq<string>,
    completedJobs: seq<Reducers.Ref>,
    artifacts: seq<Reducers.Ref>,
    trace: seq<Event>,
    errors: seq<Problem>,
    answer: Option<Answer>,
    status: RunStatus)

  const EMPTY_PLAN := Plan(None, false, map[])
  const DRAFT_PLAN := Plan(Some("Run rolling backtest window"), false, map["horizon_months" := "12"])
  const DEFAULT_TOOL := "mcp_arima_forecast"
  const MAX_EVENTS := 25

  function NewThread(threadId: string): State {
    State(threadId, "", Query("", ""), None, false, None, false, None, [], [], [], [], [], None, Fresh)
  }

  function CurrentPlan(st: State): Plan { st.plan.GetOr(EMPTY_PLAN) }

  /** The channels written by one node; `None` and `[]` leave a channel alone. */
  datatype Update = Update(
    directIntent: Option<bool>,
    contextReady: bool,
    plan: Option<Plan>,
    executing: bool,
    approval: Option<Approval>,
    activeJobs: seq<string>,
    completedJobs: seq<Reducers.Ref>,
    artifacts: seq<Reducers.Ref>,
    event: EventKind,
    errors: seq<Problem>,
    answer: Option<Answer>,
    status: Option<RunStatus>)

  function Only(event: EventKind): Update {
    Update(None, false, None, false, None, [], [], [], event, [], None, None)
  }

  /** The checkpoint after a node: each channel merged by its reducer, one event numbered by position. */
  function Merge(st: State, u: Update): State {
    st.(directIntent := Overwrite(st.directIntent, u.directIntent),
        contextReady := st.contextReady || u.contextReady,
        plan := Overwrite(st.plan, u.plan),
        executing := st.executing || u.executing,
        approval := Overwrite(st.approval, u.approval),
        activeJobs := Reducers.Unique(st.activeJobs, u.activeJobs),
        completedJobs := Reducers.Keyed(st.completedJobs, u.completedJobs),
        artifacts := Reducers.Keyed(st.artifacts, u.artifacts),
        trace := Reducers.Append(st.trace, [Event(u.event, |st.trace|)]),
        errors := Reducers.Append(st.errors, u.errors),
        answer := Overwrite(st.answer, u.answer),
        status := u.status.GetOr(st.status))
  }

  // ---------------------------------------------------------------- nodes

  function ParseRequest(st: State): Update {
    Only(RequestParsed).(
      directIntent := Some(WantsDirectAnswer(st.query)),
      approval := Some(if NeedsApproval(st.query) then Pending else NotRequired))
  }

  function AssembleContext(st: State): Update {
    Only(ContextAssembled).(
      contextReady := true,
      plan := Some(if st.approval == Some(Pending) then DRAFT_PLAN else CurrentPlan(st)))
  }

  function HumanApproval(st: State, review: Review): Update {
    Only(HumanDecision(review.action)).(
      approval := Some(review.action),
      plan := Some(review.updatedPlan.GetOr(CurrentPlan(st))))
  }

  function ToolOf(plan: Plan): string { plan.task.GetOr(DEFAULT_TOOL) }

  predicate Denied(plan: Plan) { EvaluateToolCall(REGISTRY, ToolOf(plan), {"horizon"}, "researcher") == Deny }

  /** `thread_<id>_step_<n>`. */
  function SubmitKey(threadId: string, step: nat): string {
    "thread_" + threadId + "_step_" + Decimal.Digits(step)
  }

  /** The job a submit node asks the store for, under the id the clock proposes. */
  function Proposed(st: State, clockId: string): Job {
    NewJob(clockId, ToolOf(CurrentPlan(st)), SubmitKey(st.threadId, |st.trace|), CurrentPlan(st))
  }

  function SubmitJobNode(st: State, db: seq<Job>, clockId: string): Update {
    if Denied(CurrentPlan(st)) then
      Only(SecurityGateBlocked).(status := Some(RunStatus.Failed), errors := [PolicyViolation(ToolOf(CurrentPlan(st)))])
    else
      var id := SubmittedId(db, Proposed(st, clockId));
      Only(JobSubmitted(id)).(activeJobs := [id], executing := true, status := Some(WaitingForJob))
  }

  function CompletedRef(id: string): Reducers.Ref { Reducers.Ref(None, Some(id), "succeeded") }

  function ArtifactEntry(a: ArtifactRef): Reducers.Ref { Reducers.Ref(Some(a.artifactId), None, a.uri) }

  /** `None` is the exception raised when a succeeded job holds no result to read. */
  function PollJobStatus(st: State, db: seq<Job>): Option<Update> {
    if st.activeJobs == [] then Some(Only(PollSkipped))
    else
      var id := st.activeJobs[|st.activeJobs| - 1];
      match Lookup(db, id)
      case Some(j) =>
        if j.status == Succeeded then
          if j.result.None? then None
          else Some(Only(JobCompleted(id)).(
            completedJobs := [CompletedRef(id)], artifacts := [ArtifactEntry(j.result.value)],
            status := Some(RunStatus.Running)))
        else if j.status == Jobs.Status.Failed then
          Some(Only(JobFatal(id)).(status := Some(RunStatus.Failed), errors := [JobProblem(id, j.error)]))
        else Some(Only(JobInProgress(id)))
      case None => Some(Only(JobInProgress(id)))
  }

  function FinalizeNode(st: State): Update {
    var evidence := if st.artifacts == [] then None
      else Some((|st.artifacts|, st.artifacts[|st.artifacts| - 1].detail));
    if st.approval == Some(Rejected) then Only(Finalized).(answer := Some(Aborted), status := Some(RunStatus.Failed))
    else Only(Finalized).(answer := Some(Report(st.query.raw, evidence)), status := Some(Completed))
  }

  // ---------------------------------------------------------------- routing

  datatype Node = Parse | Assemble | Approve | SubmitJob | Poll | Finalize | End

  function CompletedIds(st: State): set<Option<string>> { set r | r in st.completedJobs :: r.jobId }

  predicate HasPendingJob(st: State) { exists id :: id in st.activeJobs && Some(id) !in CompletedIds(st) }

  function DecideNextAction(st: State): Node {
    if |st.trace| >= MAX_EVENTS then End
    else if st.status == RunStatus.Failed then Finalize
    else if st.directIntent == Some(true) then Finalize
    else if st.approval == Some(Pending) then Approve
    else if st.approval == Some(Rejected) then Finalize
    else if st.approval == Some(Edited) then Approve
    else if st.activeJobs == [] then SubmitJob
    else if HasPendingJob(st) then Poll
    else Finalize
  }

  function DecideAfterJobActivity(st: State): Node {
    if st.status == RunStatus.Failed then Finalize
    else if st.status == WaitingForJob then End
    else Assemble
  }

  /** The edges of the graph: where the thread goes once `node` has been merged into `st`. */
  function NextNode(node: Node, st: State): Node {
    match node
    case Parse => Assemble
    case Assemble => DecideNextAction(st)
    case Approve => Assemble
    case SubmitJob => DecideAfterJobActivity(st)
    case Poll => DecideAfterJobActivity(st)
    case Finalize => End
    case End => End
  }

  /** Whatever the state holds, only a live request that is not direct is reviewed, queued or polled. */
  lemma RoutesSafely(st: State)
    ensures DecideNextAction(st) in {Approve, SubmitJob, Poll} ==>
      |st.trace| < 25 && st.status != RunStatus.Failed && st.directIntent != Some(true)
    ensures DecideNextAction(st) in {SubmitJob, Poll} ==>
      st.approval != Some(Pending) && st.approval != Some(Rejected) && st.approval != Some(Edited)
    ensures DecideNextAction(st) == SubmitJob ==> st.activeJobs == []
    ensures DecideNextAction(st) == Poll ==> HasPendingJob(st)
  {
  }

  /** Of several active jobs the last is polled. */
  lemma LastJobIsPolled(st: State, before: seq<string>, id: string, db: seq<Job>)
    requires st.activeJobs == before + [id]
    ensures PollJobStatus(st, db) == PollJobStatus(st.(activeJobs := [id]), db)
  {
  }

  /** `run_workflow`: new input merged into the checkpoint, execution restarting at the entry node. */
  function EnterState(st: State, runId: string, query: Query): State {
    st.(runId := runId, query := query, status := RunStatus.Running)
  }

  // ---------------------------------------------------------------- keys

  /** A submission key names one thread and one step. */
  lemma SubmitKeyInjective(t: string, n: nat, u: string, m: nat)
    requires SubmitKey(t, n) == SubmitKey(u, m)
    ensures t == u && n == m
  {
    var a, b := "thread_" + t + "_step_", "thread_" + u + "_step_";
    Decimal.DigitSuffixUnique(a, Decimal.Digits(n), b, Decimal.Digits(m));
    assert t == a[7..|a| - 6] && u == b[7..|b| - 6];
    Decimal.DigitsRoundTrip(n);
    Decimal.DigitsRoundTrip(m);
  }

  /** Which calls the gate refuses, which it sends to a reviewer, and which it lets through. */
  lemma GateDecides(registry: map<string, Capability>, tool: string, arguments: set<string>, role: string)
    ensures var gate := EvaluateToolCall(registry, tool, arguments, role);
      && (gate == Deny <==>
            tool in registry ==>
              role !in registry[tool].allowedRoles
              || (registry[tool].schema.Some? && exists key :: key in arguments && key !in registry[tool].schema.value))
      && (gate == Allow ==> tool in registry && !registry[tool].highRisk && !registry[tool].requiresApproval)
      && (gate == RouteToHitl ==> tool in registry && (registry[tool].highRisk || registry[tool].requiresApproval))
  {
  }

  /** The plan drafted for approval names no registered tool: approving it unedited is always denied. */
  lemma DraftIsDenied()
    ensures Denied(DRAFT_PLAN) && !Denied(EMPTY_PLAN)
  {
  }

  lemma DeniedUnlessForecast(plan: Plan)
    ensures Denied(plan) <==> plan.task.Some? && plan.task.value != "mcp_arima_forecast"
  {
  }
}
