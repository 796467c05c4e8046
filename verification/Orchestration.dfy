/**
 * The graph, the store and the worker running together: any number of threads share one store, and any
 * step of any party may come next.
 */
module Orchestration {
  import opened Wrappers
  import opened Graph
  import J = Jobs
  import Reducers

  /**
   * History kept beside each trace event: the query in force and the plan as that event left it.
   * No node reads it.
   */
  datatype Note = Note(query: Query, plan: J.Plan)

  /** A checkpointed thread: its channels and the node that runs next. */
  datatype Thread = Thread(st: State, at: Node, notes: seq<Note>)

  datatype World = World(threads: map<string, Thread>, jobs: J.System)

  datatype Action =
    | Enter(t: string, runId: string, query: Query)
    | RunNode(t: string, clockId: string)
    | Resume(t: string, review: Review)
    | CrashInSubmit(t: string, clockId: string)
    | Background(step: J.Action)

  const START := World(map[], J.EMPTY)

  // ---------------------------------------------------------------- steps

  /** What the pending node writes; `None` when it raises. */
  function NodeUpdate(th: Thread, db: seq<J.Job>, clockId: string): Option<Update> {
    match th.at
    case Parse => Some(ParseRequest(th.st))
    case Assemble => Some(AssembleContext(th.st))
    case SubmitJob => Some(SubmitJobNode(th.st, db, clockId))
    case Poll => PollJobStatus(th.st, db)
    case Finalize => Some(FinalizeNode(th.st))
    case _ => None
  }

  function StoreAfterNode(th: Thread, db: seq<J.Job>, clockId: string): seq<J.Job> {
    if th.at == SubmitJob && !Denied(CurrentPlan(th.st)) then J.SubmitTo(db, Proposed(th.st, clockId)) else db
  }

  /** Merge the update, checkpoint, follow the edge. */
  function Advance(th: Thread, u: Update): Thread {
    var st := Merge(th.st, u);
    Thread(st, NextNode(th.at, st), th.notes + [Note(st.query, CurrentPlan(st))])
  }

  function Existing(w: World, t: string): Thread {
    if t in w.threads then w.threads[t] else Thread(NewThread(t), End, [])
  }

  /** The pending node is a submit whose store write is already done and whose checkpoint is not. */
  predicate WrittenNotCheckpointed(w: World, t: string) {
    t in w.threads && w.threads[t].at == SubmitJob &&
    J.WithKey(w.jobs.db, SubmitKey(w.threads[t].st.threadId, |w.threads[t].st.trace|)) < |w.jobs.db|
  }

  ghost predicate IsThreadKey(key: string) { exists t, n :: key == SubmitKey(t, n) }

  /** Clock ids are fresh, reviewers decide, background clients use keys of their own. */
  ghost predicate Enabled(w: World, a: Action) {
    match a
    case Enter(_, _, _) => true
    case RunNode(t, clockId) => t in w.threads && w.threads[t].at !in {Approve, End} && !J.HasId(w.jobs.db, clockId)
    case Resume(t, review) => t in w.threads && w.threads[t].at == Approve && IsVerdict(review.action)
    case CrashInSubmit(t, clockId) => t in w.threads && w.threads[t].at == SubmitJob && !J.HasId(w.jobs.db, clockId)
    case Background(step) => J.Enabled(w.jobs, step) && (step.Submit? ==> !IsThreadKey(step.key))
  }

  function Apply(w: World, a: Action): World {
    match a
    case Enter(t, runId, query) =>
      var th := Existing(w, t);
      w.(threads := w.threads[t := Thread(EnterState(th.st, runId, query), Parse, th.notes)])
    case RunNode(t, clockId) =>
      if t !in w.threads then w
      else
        var th := w.threads[t];
        var u := NodeUpdate(th, w.jobs.db, clockId);
        if u.None? then w
        else World(w.threads[t := Advance(th, u.value)], w.jobs.(db := StoreAfterNode(th, w.jobs.db, clockId)))
    case Resume(t, review) =>
      if t !in w.threads then w
      else w.(threads := w.threads[t := Advance(w.threads[t], HumanApproval(w.threads[t].st, review))])
    case CrashInSubmit(t, clockId) =>
      if t !in w.threads then w
      else w.(jobs := w.jobs.(db := StoreAfterNode(w.threads[t], w.jobs.db, clockId)))
    case Background(step) => w.(jobs := J.Apply(w.jobs, step))
  }

  ghost predicate Legal(w: World, acts: seq<Action>)
    decreases |acts|
  {
    acts == [] || (Enabled(w, acts[0]) && Legal(Apply(w, acts[0]), acts[1..]))
  }

  ghost function After(w: World, acts: seq<Action>): World
    decreases |acts|
  {
    if acts == [] then w else After(Apply(w, acts[0]), acts[1..])
  }

  // ---------------------------------------------------------------- the audit trail as a language

  /** Event `i` lets a submission follow: an approval, or a parsed request that needs none. */
  predicate Clears(trace: seq<Event>, notes: seq<Note>, i: int) {
    0 <= i < |trace| && i < |notes| &&
    (trace[i].kind == HumanDecision(Approved) || (trace[i].kind == RequestParsed && !NeedsApproval(notes[i].query)))
  }

  /** Event `i` calls for a decision: an edit, or a parsed request that needs approval. */
  predicate CallsForDecision(trace: seq<Event>, notes: seq<Note>, i: int) {
    0 <= i < |trace| && i < |notes| &&
    (trace[i].kind == HumanDecision(Edited) || (trace[i].kind == RequestParsed && NeedsApproval(notes[i].query)))
  }

  predicate AssembledAt(trace: seq<Event>, i: int) { 0 <= i < |trace| && trace[i].kind == ContextAssembled }

  /** The events that answering a direct request consists of. */
  predicate IsDirectEvent(kind: EventKind) { kind.RequestParsed? || kind.ContextAssembled? || kind.Finalized? }

  /** Event `i` is in place after the events before it. */
  predicate InPlace(trace: seq<Event>, notes: seq<Note>, i: nat)
    requires i < |trace| == |notes|
  {
    && trace[i].step == i
    && (trace[i].kind != RequestParsed ==> i >= 1 && notes[i].query == notes[i - 1].query)
    && (WantsDirectAnswer(notes[i].query) ==> IsDirectEvent(trace[i].kind))
    && match trace[i].kind
       case RequestParsed => true
       case ContextAssembled =>
         && i >= 1
         && (trace[i - 1].kind.RequestParsed? || trace[i - 1].kind.HumanDecision? || trace[i - 1].kind.JobCompleted?
             || trace[i - 1].kind.JobInProgress?)
         && ((trace[i - 1].kind == RequestParsed && NeedsApproval(notes[i - 1].query))
             || notes[i].plan == notes[i - 1].plan)
       case HumanDecision(action) => IsVerdict(action) && AssembledAt(trace, i - 1)
         && CallsForDecision(trace, notes, i - 2)
       case SecurityGateBlocked => AssembledAt(trace, i - 1) && Clears(trace, notes, i - 2)
       case JobSubmitted(_) => AssembledAt(trace, i - 1) && Clears(trace, notes, i - 2)
         && notes[i].plan == notes[i - 1].plan
       case PollSkipped => false
       case JobCompleted(_) => AssembledAt(trace, i - 1)
       case JobFatal(_) => AssembledAt(trace, i - 1)
       case JobInProgress(_) => AssembledAt(trace, i - 1)
       case Finalized =>
         i >= 1 && (trace[i - 1].kind.ContextAssembled? || trace[i - 1].kind.SecurityGateBlocked?
           || trace[i - 1].kind.JobFatal?)
  }

  ghost predicate TrailOk(th: Thread) {
    && |th.notes| == |th.st.trace|
    && forall i :: 0 <= i < |th.notes| ==> InPlace(th.st.trace, th.notes, i)
  }

  // ---------------------------------------------------------------- thread invariant

  predicate Permitted(a: Option<Approval>) { a == Some(NotRequired) || a == Some(Approved) }

  /** What the pending node may rely on. */
  predicate PositionOk(th: Thread)
    requires |th.notes| == |th.st.trace|
  {
    var st, n := th.st, |th.st.trace|;
    && (n > 0 ==> th.notes[n - 1].plan == CurrentPlan(st))
    && (th.at !in {End, Finalize} ==> st.status == RunStatus.Running)
    && (th.at !in {Parse, End} ==> n > 0 && th.notes[n - 1].query == st.query)
    && (th.at !in {Parse, End} ==> st.directIntent == Some(WantsDirectAnswer(st.query)))
    && (th.at in {Approve, SubmitJob, Poll} ==> n < MAX_EVENTS && AssembledAt(st.trace, n - 1))
    && (th.at in {Approve, SubmitJob, Poll} ==> !WantsDirectAnswer(st.query))
    && match th.at
       case Parse => true
       case Assemble =>
         match st.trace[n - 1].kind {
           case RequestParsed => st.approval == Some(if NeedsApproval(st.query) then Pending else NotRequired)
           case HumanDecision(a) => st.approval == Some(a) && IsVerdict(a)
           case JobCompleted(_) => st.activeJobs != [] && Permitted(st.approval)
           case JobInProgress(_) => st.activeJobs != [] && Permitted(st.approval)
           case _ => false
         }
       case Approve =>
         && CallsForDecision(st.trace, th.notes, n - 2)
         && (st.approval == Some(Pending) || st.approval == Some(Edited))
         && (st.approval == Some(Pending) ==> st.plan == Some(DRAFT_PLAN))
       case SubmitJob => Clears(st.trace, th.notes, n - 2) && st.activeJobs == []
       case Poll => st.activeJobs != [] && st.completedJobs == [] && Permitted(st.approval)
       case Finalize => st.trace[n - 1].kind.ContextAssembled? || st.trace[n - 1].kind.SecurityGateBlocked?
         || st.trace[n - 1].kind.JobFatal?
       case End => true
  }

  /** At most one job, ever; nothing completed but that job; its artifact and no other. */
  ghost predicate JobsOk(st: State) {
    && |st.activeJobs| <= 1
    && (forall i :: 0 <= i < |st.trace| && st.trace[i].kind.JobSubmitted? ==> st.activeJobs == [st.trace[i].kind.jobId])
    && (forall i, k :: 0 <= i < k < |st.trace| ==> !(st.trace[i].kind.JobSubmitted? && st.trace[k].kind.JobSubmitted?))
    && ((st.completedJobs == [] && st.artifacts == [])
        || (st.activeJobs != [] && st.completedJobs == [CompletedRef(st.activeJobs[0])]
            && st.artifacts == [ArtifactEntry(J.ArtifactOf(st.activeJobs[0]))]))
  }

  ghost predicate ThreadOk(t: string, th: Thread) {
    th.st.threadId == t && TrailOk(th) && PositionOk(th) && JobsOk(th.st)
  }

  // ---------------------------------------------------------------- agreement with the store

  /** Job `j` is the submission that event `i` recorded. */
  predicate RecordedAt(t: string, th: Thread, i: nat, j: J.Job) {
    i < |th.st.trace| && th.st.trace[i].kind == JobSubmitted(j.id) && j.key == SubmitKey(t, i)
  }

  ghost predicate Linked(t: string, th: Thread, db: seq<J.Job>) {
    && (th.st.activeJobs != [] ==> exists i, k ::
        0 <= k < |db| && db[k].id == th.st.activeJobs[0] && RecordedAt(t, th, i, db[k]))
    && (th.st.completedJobs != [] ==> forall k :: 0 <= k < |db| && [db[k].id] == th.st.activeJobs ==>
        db[k].status == J.Succeeded)
  }

  /** A stored job with the key of step `n` is recorded by event `n`, or waits for that event to be written. */
  predicate Owned(th: Thread, j: J.Job, n: nat) {
    || (1 <= n < |th.st.trace| && n <= |th.notes| && th.st.trace[n].kind == JobSubmitted(j.id)
        && j.payload == th.notes[n - 1].plan && !Denied(j.payload))
    || (th.at == SubmitJob && n == |th.st.trace| && j.payload == CurrentPlan(th.st) && !Denied(j.payload))
  }

  /** A new run entered over the pending submit that stored the job: event `n` is, or will be, its request. */
  predicate Orphaned(th: Thread, j: J.Job, n: nat) {
    && (if n < |th.st.trace| then th.st.trace[n].kind == RequestParsed else n == |th.st.trace| && th.at == Parse)
    && 1 <= n <= |th.notes| && j.payload == th.notes[n - 1].plan && !Denied(j.payload)
    && AssembledAt(th.st.trace, n - 1) && Clears(th.st.trace, th.notes, n - 2)
  }

  predicate Accounted(th: Thread, j: J.Job, n: nat) { Owned(th, j, n) || Orphaned(th, j, n) }

  ghost predicate Ledger(threads: map<string, Thread>, db: seq<J.Job>) {
    forall k, t, n :: 0 <= k < |db| && db[k].key == SubmitKey(t, n) ==> t in threads && Accounted(threads[t], db[k], n)
  }

  ghost predicate Inv(w: World) {
    && J.Inv(w.jobs)
    && (forall t :: t in w.threads ==> ThreadOk(t, w.threads[t]) && Linked(t, w.threads[t], w.jobs.db))
    && Ledger(w.threads, w.jobs.db)
  }

  // ---------------------------------------------------------------- one node

  lemma MergeEffect(st: State, u: Update)
    requires JobsOk(st)
    ensures u.activeJobs == [] ==> Merge(st, u).activeJobs == st.activeJobs
    ensures u.completedJobs == [] ==> Merge(st, u).completedJobs == st.completedJobs
    ensures u.artifacts == [] ==> Merge(st, u).artifacts == st.artifacts
    ensures |u.activeJobs| == 1 && st.activeJobs == [] ==> Merge(st, u).activeJobs == u.activeJobs
    ensures |u.completedJobs| == 1 && Reducers.Named(u.completedJobs[0]) && st.completedJobs == [] ==>
      Merge(st, u).completedJobs == u.completedJobs
    ensures |u.artifacts| == 1 && Reducers.Named(u.artifacts[0]) && st.artifacts == [] ==>
      Merge(st, u).artifacts == u.artifacts
    ensures Merge(st, u).trace == st.trace + [Event(u.event, |st.trace|)]
  {
    var anyRef := CompletedRef("");
    Reducers.KeyedSmall(anyRef);
    if st.completedJobs != [] {
      Reducers.KeyedSmall(st.completedJobs[0]);
      Reducers.KeyedSmall(st.artifacts[0]);
    }
    if |u.completedJobs| == 1 && Reducers.Named(u.completedJobs[0]) {
      assert u.completedJobs == [u.completedJobs[0]];
      Reducers.KeyedSmall(u.completedJobs[0]);
    }
    if |u.artifacts| == 1 && Reducers.Named(u.artifacts[0]) {
      assert u.artifacts == [u.artifacts[0]];
      Reducers.KeyedSmall(u.artifacts[0]);
    }
    if |u.activeJobs| == 1 && st.activeJobs == [] {
      assert Reducers.Unique([], u.activeJobs) == Reducers.Unique([] + [u.activeJobs[0]], u.activeJobs[1..]);
    }
  }

  /** The trail stays in place when its next event is. */
  lemma TrailGrows(th: Thread, th': Thread)
    requires TrailOk(th) && |th'.notes| == |th'.st.trace| == |th.notes| + 1
    requires th'.st.trace[..|th.notes|] == th.st.trace && th'.notes[..|th.notes|] == th.notes
    requires InPlace(th'.st.trace, th'.notes, |th.notes|)
    ensures TrailOk(th')
  {
    forall i | 0 <= i < |th'.notes| ensures InPlace(th'.st.trace, th'.notes, i) {
      if i < |th.notes| {
        assert InPlace(th.st.trace, th.notes, i);
        assert forall k :: 0 <= k <= i ==> th'.st.trace[k] == th.st.trace[k] && th'.notes[k] == th.notes[k];
      }
    }
  }

  predicate Quiet(u: Update) {
    u.activeJobs == [] && u.completedJobs == [] && u.artifacts == [] && !u.event.JobSubmitted?
  }

  lemma QuietKeepsJobs(st: State, u: Update)
    requires JobsOk(st) && Quiet(u)
    ensures JobsOk(Merge(st, u))
  {
    MergeEffect(st, u);
  }

  /** A node that touches no job channel has only its event and its next position to answer for. */
  lemma QuietKeepsThread(t: string, th: Thread, u: Update)
    requires ThreadOk(t, th) && Quiet(u)
    requires var th' := Advance(th, u); InPlace(th'.st.trace, th'.notes, |th.notes|) && PositionOk(th')
    ensures ThreadOk(t, Advance(th, u))
  {
    QuietKeepsJobs(th.st, u);
    TrailGrows(th, Advance(th, u));
  }

  lemma ParseKeepsThread(t: string, th: Thread)
    requires ThreadOk(t, th) && th.at == Parse
    ensures ThreadOk(t, Advance(th, ParseRequest(th.st)))
  {
    QuietKeepsThread(t, th, ParseRequest(th.st));
  }

  lemma AssembleKeepsThread(t: string, th: Thread)
    requires ThreadOk(t, th) && th.at == Assemble
    ensures ThreadOk(t, Advance(th, AssembleContext(th.st)))
  {
    MergeEffect(th.st, AssembleContext(th.st));
    QuietKeepsThread(t, th, AssembleContext(th.st));
  }

  lemma ApproveKeepsThread(t: string, th: Thread, review: Review)
    requires ThreadOk(t, th) && th.at == Approve && IsVerdict(review.action)
    ensures ThreadOk(t, Advance(th, HumanApproval(th.st, review)))
  {
    QuietKeepsThread(t, th, HumanApproval(th.st, review));
  }

  lemma SubmitKeepsThread(t: string, th: Thread, db: seq<J.Job>, clockId: string)
    requires ThreadOk(t, th) && th.at == SubmitJob
    ensures ThreadOk(t, Advance(th, SubmitJobNode(th.st, db, clockId)))
  {
    var u := SubmitJobNode(th.st, db, clockId);
    MergeEffect(th.st, u);
    TrailGrows(th, Advance(th, u));
  }

  lemma PollCompletes(t: string, th: Thread, u: Update)
    requires ThreadOk(t, th) && th.at == Poll
    requires u == Only(JobCompleted(th.st.activeJobs[0])).(
      completedJobs := [CompletedRef(th.st.activeJobs[0])],
      artifacts := [ArtifactEntry(J.ArtifactOf(th.st.activeJobs[0]))], status := Some(RunStatus.Running))
    ensures ThreadOk(t, Advance(th, u))
  {
    MergeEffect(th.st, u);
    TrailGrows(th, Advance(th, u));
  }

  lemma PollFails(t: string, th: Thread, u: Update, error: Option<string>)
    requires ThreadOk(t, th) && th.at == Poll
    requires var id := th.st.activeJobs[0];
      u == Only(JobFatal(id)).(status := Some(RunStatus.Failed), errors := [JobProblem(id, error)])
    ensures ThreadOk(t, Advance(th, u))
  {
    QuietKeepsThread(t, th, u);
  }

  lemma PollWaits(t: string, th: Thread, u: Update)
    requires ThreadOk(t, th) && th.at == Poll && u == Only(JobInProgress(th.st.activeJobs[0]))
    ensures ThreadOk(t, Advance(th, u))
  {
    MergeEffect(th.st, u);
    QuietKeepsThread(t, th, u);
  }

  lemma PollKeepsThread(t: string, th: Thread, db: seq<J.Job>)
    requires ThreadOk(t, th) && th.at == Poll && PollJobStatus(th.st, db).Some?
    requires forall k :: 0 <= k < |db| && db[k].status == J.Succeeded ==> db[k].result == Some(J.ArtifactOf(db[k].id))
    ensures ThreadOk(t, Advance(th, PollJobStatus(th.st, db).value))
  {
    var u := PollJobStatus(th.st, db).value;
    match u.event {
      case JobCompleted(_) => PollCompletes(t, th, u);
      case JobFatal(_) => PollFails(t, th, u, u.errors[0].error);
      case _ => PollWaits(t, th, u);
    }
  }

  lemma FinalizeKeepsThread(t: string, th: Thread)
    requires ThreadOk(t, th) && th.at == Finalize
    ensures ThreadOk(t, Advance(th, FinalizeNode(th.st)))
  {
    QuietKeepsThread(t, th, FinalizeNode(th.st));
  }

  // ---------------------------------------------------------------- one step of the world

  lemma LinkedExtends(t: string, th: Thread, db: seq<J.Job>, db': seq<J.Job>)
    requires Linked(t, th, db) && JobsOk(th.st) && J.StoreExtends(db, db') && J.DistinctIds(db')
    ensures Linked(t, th, db')
  {
    if th.st.activeJobs != [] {
      var i, k :| 0 <= k < |db| && db[k].id == th.st.activeJobs[0] && RecordedAt(t, th, i, db[k]);
      assert J.SameJob(db[k], db'[k]);
      assert db'[k].id == th.st.activeJobs[0] && RecordedAt(t, th, i, db'[k]);
      if th.st.completedJobs != [] {
        forall m | 0 <= m < |db'| && [db'[m].id] == th.st.activeJobs ensures db'[m].status == J.Succeeded {
          assert m == k by { assert [db'[m].id][0] == db'[k].id; }
          assert [db[k].id] == th.st.activeJobs;
        }
      }
    }
  }

  lemma SameJobSameAccount(th: Thread, j: J.Job, j': J.Job, n: nat)
    requires J.SameJob(j, j') && Accounted(th, j, n)
    ensures Accounted(th, j', n)
  {
  }

  /** The store may move on without the threads, as long as its new jobs belong to none. */
  lemma StoreKeepsInv(w: World, jobs': J.System)
    requires Inv(w) && J.Inv(jobs') && J.StoreExtends(w.jobs.db, jobs'.db)
    requires forall k :: |w.jobs.db| <= k < |jobs'.db| ==> !IsThreadKey(jobs'.db[k].key)
    ensures Inv(w.(jobs := jobs'))
  {
    var db, db' := w.jobs.db, jobs'.db;
    forall t | t in w.threads ensures Linked(t, w.threads[t], db') {
      LinkedExtends(t, w.threads[t], db, db');
    }
    forall k, t, n | 0 <= k < |db'| && db'[k].key == SubmitKey(t, n)
      ensures t in w.threads && Accounted(w.threads[t], db'[k], n)
    {
      assert IsThreadKey(db'[k].key);
      assert J.SameJob(db[k], db'[k]);
      SameJobSameAccount(w.threads[t], db[k], db'[k], n);
    }
  }

  lemma BackgroundKeepsInv(w: World, step: J.Action)
    requires Inv(w) && Enabled(w, Background(step))
    ensures Inv(Apply(w, Background(step)))
  {
    J.StepKeepsJobs(w.jobs, step);
    J.NewJobsAreSubmitted(w.jobs, step);
    StoreKeepsInv(w, J.Apply(w.jobs, step));
  }

  /** A submit node's store write, whether or not the checkpoint follows. */
  lemma WriteExtends(w: World, th: Thread, clockId: string)
    requires J.Inv(w.jobs) && !J.HasId(w.jobs.db, clockId)
    ensures var db' := StoreAfterNode(th, w.jobs.db, clockId);
      && J.Inv(w.jobs.(db := db')) && J.StoreExtends(w.jobs.db, db') && w.jobs.db <= db'
      && (forall k :: |w.jobs.db| <= k < |db'| ==>
          th.at == SubmitJob && !Denied(CurrentPlan(th.st)) && db'[k] == Proposed(th.st, clockId))
  {
    if th.at == SubmitJob && !Denied(CurrentPlan(th.st)) {
      J.SubmitStep(w.jobs, Proposed(th.st, clockId));
    }
  }

  lemma CrashKeepsInv(w: World, t: string, clockId: string)
    requires Inv(w) && Enabled(w, CrashInSubmit(t, clockId))
    ensures Inv(Apply(w, CrashInSubmit(t, clockId)))
  {
    var th := w.threads[t];
    WriteExtends(w, th, clockId);
    var db, db' := w.jobs.db, StoreAfterNode(th, w.jobs.db, clockId);
    forall u | u in w.threads ensures Linked(u, w.threads[u], db') {
      LinkedExtends(u, w.threads[u], db, db');
    }
    forall k, u, n | 0 <= k < |db'| && db'[k].key == SubmitKey(u, n)
      ensures u in w.threads && Accounted(w.threads[u], db'[k], n)
    {
      if k < |db| {
        assert db'[k] == db[k];
      } else {
        SubmitKeyInjective(u, n, t, |th.st.trace|);
      }
    }
  }

  lemma EnterKeepsThread(t: string, th: Thread, runId: string, query: Query)
    requires ThreadOk(t, th)
    ensures ThreadOk(t, Thread(EnterState(th.st, runId, query), Parse, th.notes))
  {
  }

  /** A new run over a written submit orphans its job; every other job stays accounted for as it was. */
  lemma AccountedEnters(t: string, th: Thread, j: J.Job, n: nat, runId: string, query: Query)
    requires ThreadOk(t, th) && Accounted(th, j, n)
    ensures Accounted(Thread(EnterState(th.st, runId, query), Parse, th.notes), j, n)
  {
  }

  lemma LinkedEnters(t: string, th: Thread, th': Thread, db: seq<J.Job>)
    requires Linked(t, th, db) && th'.st.trace == th.st.trace
    requires th'.st.activeJobs == th.st.activeJobs && th'.st.completedJobs == th.st.completedJobs
    ensures Linked(t, th', db)
  {
    if th.st.activeJobs != [] {
      var i, k :| 0 <= k < |db| && db[k].id == th.st.activeJobs[0] && RecordedAt(t, th, i, db[k]);
      assert RecordedAt(t, th', i, db[k]);
    }
  }

  lemma EnterKeepsInv(w: World, t: string, runId: string, query: Query)
    requires Inv(w) && Enabled(w, Enter(t, runId, query))
    ensures Inv(Apply(w, Enter(t, runId, query)))
  {
    var th, db := Existing(w, t), w.jobs.db;
    var th' := Thread(EnterState(th.st, runId, query), Parse, th.notes);
    EnterKeepsThread(t, th, runId, query);
    LinkedEnters(t, th, th', db);
    forall k, n | 0 <= k < |db| && db[k].key == SubmitKey(t, n) ensures Accounted(th', db[k], n) {
      AccountedEnters(t, th, db[k], n, runId, query);
    }
    ThreadKeepsInv(w, t, th');
  }

  ghost predicate AllAccounted(t: string, th: Thread, db: seq<J.Job>) {
    forall k, n :: 0 <= k < |db| && db[k].key == SubmitKey(t, n) ==> Accounted(th, db[k], n)
  }

  /** Thread `t` moved to `th` and nothing else moved. */
  lemma ThreadKeepsInv(w: World, t: string, th: Thread)
    requires Inv(w) && ThreadOk(t, th) && Linked(t, th, w.jobs.db) && AllAccounted(t, th, w.jobs.db)
    ensures Inv(w.(threads := w.threads[t := th]))
  {
  }

  /** Thread `t` moved to `th'` and the store from `db` to `db'`; everything else stands still. */
  lemma NodeKeepsInv(w: World, t: string, th': Thread, db': seq<J.Job>)
    requires Inv(w) && t in w.threads
    requires ThreadOk(t, th') && Linked(t, th', db') && AllAccounted(t, th', db')
    requires J.Inv(w.jobs.(db := db')) && J.StoreExtends(w.jobs.db, db') && w.jobs.db <= db'
    requires forall k :: |w.jobs.db| <= k < |db'| ==> exists n :: db'[k].key == SubmitKey(t, n)
    ensures Inv(World(w.threads[t := th'], w.jobs.(db := db')))
  {
    var w' := World(w.threads[t := th'], w.jobs.(db := db'));
    forall u | u in w'.threads ensures ThreadOk(u, w'.threads[u]) && Linked(u, w'.threads[u], db') {
      if u != t {
        LinkedExtends(u, w.threads[u], w.jobs.db, db');
      }
    }
    forall k, u, n | 0 <= k < |db'| && db'[k].key == SubmitKey(u, n)
      ensures u in w'.threads && Accounted(w'.threads[u], db'[k], n)
    {
      if u != t {
        if k < |w.jobs.db| {
          assert db'[k] == w.jobs.db[k];
        } else {
          var m :| db'[k].key == SubmitKey(t, m);
          SubmitKeyInjective(u, n, t, m);
          assert false;
        }
      }
    }
  }

  /** What is recorded of a thread's own jobs survives its next event. */
  lemma AccountedGrows(th: Thread, u: Update, j: J.Job, n: nat)
    requires |th.notes| == |th.st.trace| && Accounted(th, j, n) && th.at != SubmitJob
    requires (th.at == Parse ==> u.event == RequestParsed)
    ensures Accounted(Advance(th, u), j, n)
  {
  }

  lemma LinkedGrows(t: string, th: Thread, u: Update, db: seq<J.Job>)
    requires Linked(t, th, db) && JobsOk(th.st) && u.activeJobs == [] && u.completedJobs == []
    ensures Linked(t, Advance(th, u), db)
  {
    MergeEffect(th.st, u);
    if th.st.activeJobs != [] {
      var i, k :| 0 <= k < |db| && db[k].id == th.st.activeJobs[0] && RecordedAt(t, th, i, db[k]);
      assert RecordedAt(t, Advance(th, u), i, db[k]);
    }
  }

  /** Steps that neither submit nor read the store. */
  lemma QuietKeepsInv(w: World, t: string, u: Update)
    requires Inv(w) && t in w.threads && w.threads[t].at != SubmitJob
    requires (w.threads[t].at == Parse ==> u.event == RequestParsed)
    requires ThreadOk(t, Advance(w.threads[t], u)) && u.activeJobs == [] && u.completedJobs == []
    ensures Inv(w.(threads := w.threads[t := Advance(w.threads[t], u)]))
  {
    var th, db := w.threads[t], w.jobs.db;
    LinkedGrows(t, th, u, db);
    forall k, n | 0 <= k < |db| && db[k].key == SubmitKey(t, n) ensures Accounted(Advance(th, u), db[k], n) {
      AccountedGrows(th, u, db[k], n);
    }
    ThreadKeepsInv(w, t, Advance(th, u));
  }

  /** What the submit node writes into its thread. */
  lemma SubmitWrites(th: Thread, db: seq<J.Job>, clockId: string)
    requires JobsOk(th.st) && th.st.activeJobs == [] && !Denied(CurrentPlan(th.st))
    ensures var id := J.SubmittedId(db, Proposed(th.st, clockId));
      var th' := Advance(th, SubmitJobNode(th.st, db, clockId));
      th'.st.trace == th.st.trace + [Event(JobSubmitted(id), |th.st.trace|)] && th'.st.activeJobs == [id]
  {
    MergeEffect(th.st, SubmitJobNode(th.st, db, clockId));
  }

  /** The event of the submission accounts for its job, and every job accounted for before still is. */
  lemma SubmitAccounts(th: Thread, th': Thread, j: J.Job, n: nat)
    requires |th.notes| == |th.st.trace| >= 1 && th.notes <= th'.notes && Accounted(th, j, n) && th.at == SubmitJob
    requires th.st.trace <= th'.st.trace && |th'.st.trace| == |th.st.trace| + 1
    requires th.notes[|th.notes| - 1].plan == CurrentPlan(th.st)
    requires n == |th.st.trace| ==> th'.st.trace[n].kind == JobSubmitted(j.id)
    ensures Accounted(th', j, n)
  {
  }

  /** The submission is stored under the key of the step that records it. */
  lemma SubmitStores(t: string, th: Thread, db: seq<J.Job>, clockId: string) returns (k: nat)
    requires ThreadOk(t, th) && th.at == SubmitJob && !Denied(CurrentPlan(th.st)) && !J.HasId(db, clockId)
    ensures var db' := StoreAfterNode(th, db, clockId);
      var th' := Advance(th, SubmitJobNode(th.st, db, clockId));
      k < |db'| && [db'[k].id] == th'.st.activeJobs && RecordedAt(t, th', |th.st.trace|, db'[k])
  {
    k := J.WithKey(db, SubmitKey(t, |th.st.trace|));
    SubmitWrites(th, db, clockId);
    assert StoreAfterNode(th, db, clockId)[k].key == SubmitKey(t, |th.st.trace|);
  }

  lemma SubmitLinks(t: string, th: Thread, db: seq<J.Job>, clockId: string)
    requires ThreadOk(t, th) && th.at == SubmitJob && !Denied(CurrentPlan(th.st)) && !J.HasId(db, clockId)
    ensures Linked(t, Advance(th, SubmitJobNode(th.st, db, clockId)), StoreAfterNode(th, db, clockId))
  {
    var k := SubmitStores(t, th, db, clockId);
    MergeEffect(th.st, SubmitJobNode(th.st, db, clockId));
  }

  lemma SubmitAllAccounted(t: string, th: Thread, db: seq<J.Job>, clockId: string)
    requires ThreadOk(t, th) && th.at == SubmitJob && !Denied(CurrentPlan(th.st)) && !J.HasId(db, clockId)
    requires J.DistinctKeys(db) && AllAccounted(t, th, db)
    ensures AllAccounted(t, Advance(th, SubmitJobNode(th.st, db, clockId)), StoreAfterNode(th, db, clockId))
  {
    var n := |th.st.trace|;
    var db' := StoreAfterNode(th, db, clockId);
    var th' := Advance(th, SubmitJobNode(th.st, db, clockId));
    SubmitWrites(th, db, clockId);
    forall m, i | 0 <= m < |db'| && db'[m].key == SubmitKey(t, i) ensures Accounted(th', db'[m], i) {
      if m < |db| {
        assert i == n ==> m == J.WithKey(db, SubmitKey(t, n));
        SubmitAccounts(th, th', db[m], i);
      } else {
        SubmitKeyInjective(t, i, t, n);
        SubmitAccounts(th, th', db'[m], n);
      }
    }
  }

  lemma SubmitRecords(w: World, t: string, clockId: string)
    requires Inv(w) && Enabled(w, RunNode(t, clockId))
    requires w.threads[t].at == SubmitJob && !Denied(CurrentPlan(w.threads[t].st))
    ensures var th := w.threads[t];
      var db' := StoreAfterNode(th, w.jobs.db, clockId);
      var th' := Advance(th, SubmitJobNode(th.st, w.jobs.db, clockId));
      var id := J.SubmittedId(w.jobs.db, Proposed(th.st, clockId));
      && th'.st.trace == th.st.trace + [Event(JobSubmitted(id), |th.st.trace|)] && th'.st.activeJobs == [id]
      && (exists k :: 0 <= k < |db'| && db'[k].id == id && RecordedAt(t, th', |th.st.trace|, db'[k]))
      && AllAccounted(t, th', db')
  {
    var th := w.threads[t];
    SubmitWrites(th, w.jobs.db, clockId);
    var k := SubmitStores(t, th, w.jobs.db, clockId);
    var id := J.SubmittedId(w.jobs.db, Proposed(th.st, clockId));
    assert [StoreAfterNode(th, w.jobs.db, clockId)[k].id][0] == [id][0];
    SubmitAllAccounted(t, th, w.jobs.db, clockId);
  }

  lemma RunNodeIs(w: World, t: string, clockId: string, u: Update)
    requires t in w.threads && NodeUpdate(w.threads[t], w.jobs.db, clockId) == Some(u)
    requires w.threads[t].at != SubmitJob || Denied(CurrentPlan(w.threads[t].st))
    ensures Apply(w, RunNode(t, clockId)) == w.(threads := w.threads[t := Advance(w.threads[t], u)])
  {
  }

  lemma SubmitIs(w: World, t: string, clockId: string)
    requires t in w.threads && w.threads[t].at == SubmitJob
    ensures var th := w.threads[t];
      Apply(w, RunNode(t, clockId)) == World(w.threads[t := Advance(th, SubmitJobNode(th.st, w.jobs.db, clockId))],
                                             w.jobs.(db := StoreAfterNode(th, w.jobs.db, clockId)))
  {
  }

  lemma DeniedAccounts(th: Thread, u: Update, j: J.Job, n: nat)
    requires |th.notes| == |th.st.trace| && Accounted(th, j, n) && th.at == SubmitJob && Denied(CurrentPlan(th.st))
    ensures Accounted(Advance(th, u), j, n)
  {
  }

  lemma DenialKeepsInv(w: World, t: string, u: Update)
    requires Inv(w) && t in w.threads && w.threads[t].at == SubmitJob && Denied(CurrentPlan(w.threads[t].st))
    requires Quiet(u)
    requires ThreadOk(t, Advance(w.threads[t], u))
    ensures Inv(w.(threads := w.threads[t := Advance(w.threads[t], u)]))
  {
    var th, db := w.threads[t], w.jobs.db;
    LinkedGrows(t, th, u, db);
    forall k, n | 0 <= k < |db| && db[k].key == SubmitKey(t, n) ensures Accounted(Advance(th, u), db[k], n) {
      DeniedAccounts(th, u, db[k], n);
    }
    ThreadKeepsInv(w, t, Advance(th, u));
  }

  lemma SubmitKeepsInv(w: World, t: string, clockId: string)
    requires Inv(w) && Enabled(w, RunNode(t, clockId)) && w.threads[t].at == SubmitJob
    ensures Inv(Apply(w, RunNode(t, clockId)))
  {
    var th, db := w.threads[t], w.jobs.db;
    var u := SubmitJobNode(th.st, db, clockId);
    SubmitKeepsThread(t, th, db, clockId);
    if Denied(CurrentPlan(th.st)) {
      DenialKeepsInv(w, t, u);
      RunNodeIs(w, t, clockId, u);
    } else {
      WriteExtends(w, th, clockId);
      SubmitAllAccounted(t, th, db, clockId);
      SubmitLinks(t, th, db, clockId);
      SubmitIs(w, t, clockId);
      NodeKeepsInv(w, t, Advance(th, u), StoreAfterNode(th, db, clockId));
    }
  }

  lemma StoredInReach(w: World, t: string, n: nat)
    requires Inv(w)
    ensures forall k :: 0 <= k < |w.jobs.db| && w.jobs.db[k].key == SubmitKey(t, n) ==> n <= |Existing(w, t).st.trace|
  {
    forall k | 0 <= k < |w.jobs.db| && w.jobs.db[k].key == SubmitKey(t, n)
      ensures n <= |Existing(w, t).st.trace|
    {
      assert t in w.threads && Accounted(w.threads[t], w.jobs.db[k], n);
    }
  }

  /** Nothing is stored under a step that a thread has not reached. */
  lemma FutureStepIsFree(w: World, t: string, n: nat)
    requires Inv(w) && n > |Existing(w, t).st.trace|
    ensures J.WithKey(w.jobs.db, SubmitKey(t, n)) == |w.jobs.db|
  {
    StoredInReach(w, t, n);
  }

  /** The active job of a thread is stored. */
  lemma ActiveIsStored(w: World, t: string)
    requires Inv(w) && t in w.threads && w.threads[t].st.activeJobs != []
    ensures var id := w.threads[t].st.activeJobs[0];
      var i := J.WithId(w.jobs.db, id);
      i < |w.jobs.db| && w.jobs.db[i].id == id && J.Lookup(w.jobs.db, id) == Some(w.jobs.db[i])
  {
    var th := w.threads[t];
    var i, k :| 0 <= k < |w.jobs.db| && w.jobs.db[k].id == th.st.activeJobs[0] && RecordedAt(t, th, i, w.jobs.db[k]);
    J.UniqueId(w.jobs.db, k);
  }

  /** Poll finds the active job, and finds a result when the job succeeded: it never raises. */
  lemma PollNeverRaises(w: World, t: string)
    requires Inv(w) && t in w.threads && w.threads[t].at == Poll
    ensures PollJobStatus(w.threads[t].st, w.jobs.db).Some?
  {
    ActiveIsStored(w, t);
    var i := J.WithId(w.jobs.db, w.threads[t].st.activeJobs[0]);
    assert J.JobOk(w.jobs.db[i], w.jobs.live[w.jobs.db[i].id]);
  }

  /** What a poll of the one active job writes: its outcome, and its completion only if it succeeded. */
  lemma PollWrites(th: Thread, db: seq<J.Job>, k: nat, u: Update)
    requires JobsOk(th.st) && th.st.activeJobs != [] && th.st.completedJobs == [] && J.DistinctIds(db)
    requires k < |db| && db[k].id == th.st.activeJobs[0] && PollJobStatus(th.st, db) == Some(u)
    ensures var st := Merge(th.st, u);
      st.activeJobs == th.st.activeJobs && th.st.trace <= st.trace
      && (st.completedJobs != [] ==> db[k].status == J.Succeeded)
  {
    J.UniqueId(db, k);
    MergeEffect(th.st, u);
  }

  lemma PollKeepsLinked(t: string, th: Thread, db: seq<J.Job>, u: Update)
    requires ThreadOk(t, th) && th.at == Poll && Linked(t, th, db) && J.DistinctIds(db)
    requires PollJobStatus(th.st, db) == Some(u)
    ensures Linked(t, Advance(th, u), db)
  {
    var i, k :| 0 <= k < |db| && db[k].id == th.st.activeJobs[0] && RecordedAt(t, th, i, db[k]);
    PollWrites(th, db, k, u);
    assert RecordedAt(t, Advance(th, u), i, db[k]);
    forall m | 0 <= m < |db| && [db[m].id] == th.st.activeJobs ensures m == k {
      assert [db[m].id][0] == db[k].id;
    }
  }

  lemma AccountedStays(w: World, t: string, u: Update)
    requires Inv(w) && t in w.threads && w.threads[t].at == Poll
    ensures AllAccounted(t, Advance(w.threads[t], u), w.jobs.db)
  {
    var th, db := w.threads[t], w.jobs.db;
    forall k, n | 0 <= k < |db| && db[k].key == SubmitKey(t, n) ensures Accounted(Advance(th, u), db[k], n) {
      AccountedGrows(th, u, db[k], n);
    }
  }

  lemma PollStep(w: World, t: string, u: Update)
    requires Inv(w) && t in w.threads && w.threads[t].at == Poll
    requires PollJobStatus(w.threads[t].st, w.jobs.db) == Some(u)
    ensures Inv(w.(threads := w.threads[t := Advance(w.threads[t], u)]))
  {
    var th, db := w.threads[t], w.jobs.db;
    SucceededHaveResults(w.jobs);
    PollKeepsThread(t, th, db);
    PollKeepsLinked(t, th, db, u);
    AccountedStays(w, t, u);
    ThreadKeepsInv(w, t, Advance(th, u));
  }

  lemma SucceededHaveResults(s: J.System)
    requires J.Inv(s)
    ensures forall k :: 0 <= k < |s.db| && s.db[k].status == J.Succeeded ==>
      s.db[k].result == Some(J.ArtifactOf(s.db[k].id))
  {
    forall k | 0 <= k < |s.db| && s.db[k].status == J.Succeeded
      ensures s.db[k].result == Some(J.ArtifactOf(s.db[k].id))
    {
      assert J.JobOk(s.db[k], s.live[s.db[k].id]);
    }
  }

  lemma PollKeepsInv(w: World, t: string, clockId: string)
    requires Inv(w) && Enabled(w, RunNode(t, clockId)) && w.threads[t].at == Poll
    ensures Inv(Apply(w, RunNode(t, clockId)))
  {
    PollNeverRaises(w, t);
    var u := PollJobStatus(w.threads[t].st, w.jobs.db).value;
    PollStep(w, t, u);
    RunNodeIs(w, t, clockId, u);
  }

  lemma QuietNodeKeepsInv(w: World, t: string, clockId: string)
    requires Inv(w) && t in w.threads && w.threads[t].at in {Parse, Assemble, Finalize}
    ensures var u := NodeUpdate(w.threads[t], w.jobs.db, clockId);
      u.Some? && Inv(w.(threads := w.threads[t := Advance(w.threads[t], u.value)]))
  {
    var th := w.threads[t];
    var u := NodeUpdate(th, w.jobs.db, clockId).value;
    match th.at {
      case Parse => ParseKeepsThread(t, th);
      case Assemble => AssembleKeepsThread(t, th);
      case Finalize => FinalizeKeepsThread(t, th);
    }
    QuietKeepsInv(w, t, u);
  }

  lemma RunNodeKeepsInv(w: World, t: string, clockId: string)
    requires Inv(w) && Enabled(w, RunNode(t, clockId))
    ensures Inv(Apply(w, RunNode(t, clockId)))
  {
    if w.threads[t].at == SubmitJob {
      SubmitKeepsInv(w, t, clockId);
    } else if w.threads[t].at == Poll {
      PollKeepsInv(w, t, clockId);
    } else {
      QuietNodeKeepsInv(w, t, clockId);
    }
  }

  lemma ResumeKeepsInv(w: World, t: string, review: Review)
    requires Inv(w) && Enabled(w, Resume(t, review))
    ensures Inv(Apply(w, Resume(t, review)))
  {
    ApproveKeepsThread(t, w.threads[t], review);
    QuietKeepsInv(w, t, HumanApproval(w.threads[t].st, review));
  }

  lemma StepKeepsInv(w: World, a: Action)
    requires Inv(w) && Enabled(w, a)
    ensures Inv(Apply(w, a))
  {
    match a
    case Enter(t, runId, query) => EnterKeepsInv(w, t, runId, query);
    case RunNode(t, clockId) => RunNodeKeepsInv(w, t, clockId);
    case Resume(t, review) => ResumeKeepsInv(w, t, review);
    case CrashInSubmit(t, clockId) => CrashKeepsInv(w, t, clockId);
    case Background(step) => BackgroundKeepsInv(w, step);
  }

  lemma {:induction false} RunKeepsInv(w: World, acts: seq<Action>)
    requires Inv(w) && Legal(w, acts)
    ensures Inv(After(w, acts))
    decreases |acts|
  {
    if acts != [] {
      StepKeepsInv(w, acts[0]);
      RunKeepsInv(Apply(w, acts[0]), acts[1..]);
    }
  }

  // ---------------------------------------------------------------- runs one after the other

  lemma OneStep(w: World, a: Action)
    requires Enabled(w, a)
    ensures Legal(w, [a]) && After(w, [a]) == Apply(w, a)
  {
    assert [a][1..] == [];
    assert Legal(Apply(w, a), []) && After(Apply(w, a), []) == Apply(w, a);
  }

  lemma {:induction false} RunAppend(w: World, xs: seq<Action>, ys: seq<Action>)
    requires Legal(w, xs) && Legal(After(w, xs), ys)
    ensures Legal(w, xs + ys) && After(w, xs + ys) == After(After(w, xs), ys)
    decreases |xs|
  {
    if xs == [] {
      assert xs + ys == ys;
    } else {
      assert (xs + ys)[0] == xs[0] && (xs + ys)[1..] == xs[1..] + ys;
      RunAppend(Apply(w, xs[0]), xs[1..], ys);
    }
  }
}
