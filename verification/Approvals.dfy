/** What an approval leads to, and which request a final answer belongs to. */
module Approvals {
  import opened Wrappers
  import opened Graph
  import opened Orchestration
  import J = Jobs
  import Durability

  // ---------------------------------------------------------------- which approvals store a job

  /** The plan a review leaves behind. */
  function Left(st: State, plan: Option<J.Plan>): J.Plan { plan.GetOr(CurrentPlan(st)) }

  /** No job yet, room before the guard, and a plan that the gate admits. */
  predicate Stores(st: State, plan: Option<J.Plan>) {
    st.activeJobs == [] && |st.trace| < 23 && !Denied(Left(st, plan))
  }

  /** The thread after an approval and the assembly that follows it. */
  function Reviewed(th: Thread, plan: Option<J.Plan>): Thread {
    Advance(th, HumanApproval(th.st, Review(Approved, plan)))
  }

  function Prepared(th: Thread, plan: Option<J.Plan>): Thread {
    var th1 := Reviewed(th, plan);
    Advance(th1, AssembleContext(th1.st))
  }

  lemma PreparedIs(t: string, th: Thread, plan: Option<J.Plan>)
    requires ThreadOk(t, th) && th.at == Approve
    ensures Reviewed(th, plan).at == Assemble && ThreadOk(t, Prepared(th, plan))
    ensures var st := Prepared(th, plan).st;
      && CurrentPlan(st) == Left(th.st, plan) && |st.trace| == |th.st.trace| + 2
      && st.activeJobs == th.st.activeJobs && st.query == th.st.query
    ensures Prepared(th, plan).at == SubmitJob <==> th.st.activeJobs == [] && |th.st.trace| < 23
  {
    var th1 := Reviewed(th, plan);
    MergeEffect(th.st, HumanApproval(th.st, Review(Approved, plan)));
    ApproveKeepsThread(t, th, Review(Approved, plan));
    MergeEffect(th1.st, AssembleContext(th1.st));
    AssembleKeepsThread(t, th1);
  }

  lemma ReviewInPlace(w: World, t: string, plan: Option<J.Plan>)
    requires Inv(w) && Enabled(w, Resume(t, Review(Approved, plan)))
    ensures var w1 := Durability.Put(w, t, Reviewed(w.threads[t], plan));
      Apply(w, Resume(t, Review(Approved, plan))) == w1 && Inv(w1)
  {
    StepKeepsInv(w, Resume(t, Review(Approved, plan)));
  }

  lemma AssemblyInPlace(w: World, t: string, id: string)
    requires Inv(w) && t in w.threads && w.threads[t].at == Assemble && !J.HasId(w.jobs.db, id)
    ensures var w2 := Durability.Put(w, t, Advance(w.threads[t], AssembleContext(w.threads[t].st)));
      Apply(w, RunNode(t, id)) == w2 && Inv(w2)
  {
    StepKeepsInv(w, RunNode(t, id));
  }

  /** The two steps from the approval to the next node. */
  lemma ApprovalPrepares(w: World, t: string, plan: Option<J.Plan>, id: string)
    requires Inv(w) && Enabled(w, Resume(t, Review(Approved, plan))) && !J.HasId(w.jobs.db, id)
    ensures var w2 := Durability.Put(w, t, Prepared(w.threads[t], plan));
      Apply(Apply(w, Resume(t, Review(Approved, plan))), RunNode(t, id)) == w2 && Inv(w2)
  {
    var th := w.threads[t];
    var th1 := Reviewed(th, plan);
    ReviewInPlace(w, t, plan);
    AssemblyInPlace(Durability.Put(w, t, th1), t, id);
    Durability.PutTwice(w, t, th1, Prepared(th, plan));
  }

  /** What the node after the assembly does to the store. */
  lemma PreparedStores(w: World, t: string, plan: Option<J.Plan>, id: string)
    requires Inv(w) && t in w.threads && w.threads[t].at == Approve && !J.HasId(w.jobs.db, id)
    ensures var th2 := Prepared(w.threads[t], plan);
      StoreAfterNode(th2, w.jobs.db, id) == if Stores(w.threads[t].st, plan) then w.jobs.db + [Proposed(th2.st, id)]
        else w.jobs.db
  {
    var th := w.threads[t];
    assert ThreadOk(t, th);
    PreparedIs(t, th, plan);
    FutureStepIsFree(w, t, |th.st.trace| + 2);
  }

  /**
   * A review that approves, the assembly and the node after it: the thread is at an admitted submission if
   * and only if it has no job yet, there is room before the guard and the plan left by the review passes
   * the gate; then exactly one job is stored, with that plan, and otherwise the store stays as it was.
   */
  lemma ApprovalStoresExactly(w: World, t: string, plan: Option<J.Plan>, a: string, b: string)
    requires Inv(w) && Enabled(w, Resume(t, Review(Approved, plan))) && !J.HasId(w.jobs.db, a) && !J.HasId(w.jobs.db, b)
    ensures var st := w.threads[t].st;
      var w2 := Apply(Apply(w, Resume(t, Review(Approved, plan))), RunNode(t, a));
      && t in w2.threads && w2.jobs == w.jobs
      && (w2.threads[t].at == SubmitJob && !Denied(CurrentPlan(w2.threads[t].st)) <==> Stores(st, plan))
      && Apply(w2, RunNode(t, b)).jobs.db == w.jobs.db + if Stores(st, plan)
                then [J.NewJob(b, ToolOf(Left(st, plan)), SubmitKey(t, |st.trace| + 2), Left(st, plan))] else []
  {
    ApprovalPrepares(w, t, plan, a);
    PreparedIs(t, w.threads[t], plan);
    PreparedStoresInWorld(w, t, plan, b);
  }

  lemma PreparedStoresInWorld(w: World, t: string, plan: Option<J.Plan>, id: string)
    requires Inv(w) && t in w.threads && w.threads[t].at == Approve && !J.HasId(w.jobs.db, id)
    requires Inv(Durability.Put(w, t, Prepared(w.threads[t], plan)))
    ensures var st := w.threads[t].st;
      Apply(Durability.Put(w, t, Prepared(w.threads[t], plan)), RunNode(t, id)).jobs.db == w.jobs.db
        + if Stores(st, plan) then [J.NewJob(id, ToolOf(Left(st, plan)), SubmitKey(t, |st.trace| + 2), Left(st, plan))]
          else []
  {
    assert ThreadOk(t, w.threads[t]);
    PreparedIs(t, w.threads[t], plan);
    PreparedStores(w, t, plan, id);
    NodeStores(Durability.Put(w, t, Prepared(w.threads[t], plan)), t, id);
  }

  /** A node changes the store as `StoreAfterNode` says; a thread at its end or at a review changes nothing. */
  lemma NodeStores(w: World, t: string, id: string)
    requires Inv(w) && t in w.threads
    ensures Apply(w, RunNode(t, id)).jobs.db == StoreAfterNode(w.threads[t], w.jobs.db, id)
  {
  }

  // ---------------------------------------------------------------- which request an answer belongs to

  /** From `th` on: the same request, a longer trail, and the job that was there, if any. */
  ghost predicate Continues(th: Thread, th': Thread) {
    && th.st.trace <= th'.st.trace && th.notes <= th'.notes && th'.st.query == th.st.query
    && (th.st.activeJobs != [] ==> th'.st.activeJobs == th.st.activeJobs)
    && forall i :: |th.notes| <= i < |th'.notes| ==> th'.notes[i].query == th.st.query
  }

  lemma ContinuesTrans(th: Thread, th1: Thread, th2: Thread)
    requires Continues(th, th1) && Continues(th1, th2)
    ensures Continues(th, th2)
  {
    assert forall i :: 0 <= i < |th1.notes| ==> th1.notes[i] == th2.notes[i];
  }

  lemma AdvanceContinues(th: Thread, u: Update)
    requires TrailOk(th) && JobsOk(th.st) && (th.st.activeJobs != [] ==> u.activeJobs == [])
    ensures Continues(th, Advance(th, u))
  {
    MergeEffect(th.st, u);
  }

  lemma NodeContinues(t: string, th: Thread, db: seq<J.Job>, clockId: string)
    requires ThreadOk(t, th) && NodeUpdate(th, db, clockId).Some?
    ensures Continues(th, Advance(th, NodeUpdate(th, db, clockId).value))
  {
    AdvanceContinues(th, NodeUpdate(th, db, clockId).value);
  }

  lemma ReviewContinues(th: Thread, review: Review)
    requires TrailOk(th) && JobsOk(th.st)
    ensures Continues(th, Advance(th, HumanApproval(th.st, review)))
  {
    AdvanceContinues(th, HumanApproval(th.st, review));
  }

  lemma StepContinues(w: World, a: Action, t: string)
    requires Inv(w) && Enabled(w, a) && !(a.Enter? && a.t == t) && t in w.threads
    ensures t in Apply(w, a).threads && Continues(w.threads[t], Apply(w, a).threads[t])
  {
    var th := w.threads[t];
    if a.RunNode? && a.t == t {
      if th.at == Poll { PollNeverRaises(w, t); }
      NodeContinues(t, th, w.jobs.db, a.clockId);
    } else if a.Resume? && a.t == t {
      ReviewContinues(th, a.review);
    }
  }

  lemma {:induction false} RunContinues(w: World, acts: seq<Action>, t: string)
    requires Inv(w) && Legal(w, acts) && Durability.NoEntry(acts, t) && t in w.threads
    ensures t in After(w, acts).threads && Continues(w.threads[t], After(w, acts).threads[t])
    decreases |acts|
  {
    if acts != [] {
      var w1 := Apply(w, acts[0]);
      StepContinues(w, acts[0], t);
      StepKeepsInv(w, acts[0]);
      RunContinues(w1, acts[1..], t);
      ContinuesTrans(w.threads[t], w1.threads[t], After(w, acts).threads[t]);
    }
  }

  /** The event that submitted the job of a thread: the only one of its kind. */
  lemma SubmissionEvent(w: World, t: string) returns (n: nat)
    requires Inv(w) && t in w.threads && w.threads[t].st.activeJobs != []
    ensures var th := w.threads[t];
      && n < |th.st.trace| && th.st.trace[n].kind == JobSubmitted(th.st.activeJobs[0])
      && forall i :: 0 <= i < |th.st.trace| && th.st.trace[i].kind.JobSubmitted? ==> i == n
  {
    var th := w.threads[t];
    var i, k :| 0 <= k < |w.jobs.db| && w.jobs.db[k].id == th.st.activeJobs[0] && RecordedAt(t, th, i, w.jobs.db[k]);
    n := i;
    assert JobsOk(th.st);
  }

  /** A trail that goes on from `first`: its submission is new exactly when `first` had no job. */
  lemma SubmissionIsNew(first: Thread, th: Thread, n: nat)
    requires Continues(first, th) && JobsOk(first.st)
    requires n < |th.st.trace| && th.st.trace[n].kind.JobSubmitted?
    requires first.st.activeJobs != [] ==> exists i :: 0 <= i < |first.st.trace| && first.st.trace[i].kind.JobSubmitted?
    requires forall i :: 0 <= i < |th.st.trace| && th.st.trace[i].kind.JobSubmitted? ==> i == n
    ensures |first.st.trace| <= n <==> first.st.activeJobs == []
  {
    assert forall i :: 0 <= i < |first.st.trace| ==> th.st.trace[i] == first.st.trace[i];
  }

  /**
   * A run entered with a request, and whatever follows until the next entry.  If the thread then has a
   * job, it was submitted during this run, for this request, if and only if the thread had none when the
   * run was entered; otherwise it still is the job it had.
   */
  lemma JobIsOwnExactly(w: World, t: string, runId: string, query: Query, acts: seq<Action>) returns (n: nat)
    requires Inv(w) && Legal(Apply(w, Enter(t, runId, query)), acts) && Durability.NoEntry(acts, t)
    requires t in After(Apply(w, Enter(t, runId, query)), acts).threads
    requires After(Apply(w, Enter(t, runId, query)), acts).threads[t].st.activeJobs != []
    ensures var before, th := Existing(w, t).st, After(Apply(w, Enter(t, runId, query)), acts).threads[t];
      && n < |th.st.trace| == |th.notes| && th.st.trace[n].kind == JobSubmitted(th.st.activeJobs[0])
      && th.st.query == query
      && (|before.trace| <= n <==> before.activeJobs == [])
      && (before.activeJobs == [] ==> th.notes[n].query == query)
      && (before.activeJobs != [] ==> th.st.activeJobs == before.activeJobs)
  {
    var w1 := Apply(w, Enter(t, runId, query));
    Durability.EntersInPlace(w, t, runId, query);
    RunContinues(w1, acts, t);
    RunKeepsInv(w1, acts);
    n := SubmissionEvent(After(w1, acts), t);
    if w1.threads[t].st.activeJobs != [] {
      var i := SubmissionEvent(w1, t);
    }
    var th := After(w1, acts).threads[t];
    assert ThreadOk(t, w1.threads[t]) && ThreadOk(t, th);
    SubmissionIsNew(w1.threads[t], th, n);
  }

  /** The answer that the channels of a thread call for. */
  function AnswerOf(st: State): Answer
    requires st.completedJobs != [] ==> st.activeJobs != []
  {
    if st.approval == Some(Rejected) then Aborted
    else Report(st.query.raw, if st.completedJobs == [] then None else Some((1, J.ArtifactOf(st.activeJobs[0]).uri)))
  }

  lemma FinalizeAnswers(w: World, t: string, id: string)
    requires Inv(w) && t in w.threads && w.threads[t].at == Finalize
    ensures var st := w.threads[t].st;
      && (st.completedJobs != [] ==> st.activeJobs != [])
      && t in Apply(w, RunNode(t, id)).threads
      && Apply(w, RunNode(t, id)).threads[t].st.answer == Some(AnswerOf(st))
  {
    assert ThreadOk(t, w.threads[t]);
  }

  /**
   * The answer of a run, unless it was rejected, names the request the run was entered with; and the
   * evidence it shows, if any, is the artifact of a job submitted for that request if and only if the
   * thread had no job when the run was entered.
   */
  lemma EvidenceIsCurrentExactly(w: World, t: string, runId: string, query: Query, acts: seq<Action>, id: string)
    returns (n: nat)
    requires Inv(w) && Legal(Apply(w, Enter(t, runId, query)), acts) && Durability.NoEntry(acts, t)
    requires t in After(Apply(w, Enter(t, runId, query)), acts).threads
    requires After(Apply(w, Enter(t, runId, query)), acts).threads[t].at == Finalize
    ensures var before, w' := Existing(w, t).st, After(Apply(w, Enter(t, runId, query)), acts);
      var th, answer := w'.threads[t], Apply(w', RunNode(t, id)).threads[t].st.answer;
      && (answer == Some(Aborted) <==> th.st.approval == Some(Rejected))
      && (answer != Some(Aborted) ==> answer.Some? && answer.value.query == query.raw)
      && (answer.Some? && answer.value.Report? && answer.value.evidence.Some? ==>
            && th.st.activeJobs != [] && answer.value.evidence == Some((1, J.ArtifactOf(th.st.activeJobs[0]).uri))
            && n < |th.st.trace| && th.st.trace[n].kind == JobSubmitted(th.st.activeJobs[0])
            && (|before.trace| <= n <==> before.activeJobs == [])
            && (before.activeJobs != [] ==> th.st.activeJobs == before.activeJobs))
  {
    var w1 := Apply(w, Enter(t, runId, query));
    Durability.EntersInPlace(w, t, runId, query);
    RunContinues(w1, acts, t);
    RunKeepsInv(w1, acts);
    FinalizeAnswers(After(w1, acts), t, id);
    n := 0;
    if After(w1, acts).threads[t].st.activeJobs != [] {
      n := JobIsOwnExactly(w, t, runId, query, acts);
    }
  }

  // ---------------------------------------------------------------- from a finished job to its report

  /** The update of a poll that finds its job succeeded. */
  function Completion(id: string): Update {
    Only(JobCompleted(id)).(
      completedJobs := [CompletedRef(id)], artifacts := [ArtifactEntry(J.ArtifactOf(id))],
      status := Some(RunStatus.Running))
  }

  lemma CompletionIs(th: Thread, db: seq<J.Job>, job: J.Job)
    requires th.st.activeJobs == [job.id] && J.Lookup(db, job.id) == Some(job)
    requires job.status == J.Succeeded && job.result == Some(J.ArtifactOf(job.id))
    ensures PollJobStatus(th.st, db) == Some(Completion(job.id))
  {
  }

  lemma CompletedOnce(t: string, th: Thread) returns (th1: Thread)
    requires ThreadOk(t, th) && th.at == Poll && th.st.directIntent == Some(false) && |th.st.trace| < 23
    ensures th1 == Advance(th, Completion(th.st.activeJobs[0])) && th1.at == Assemble && ThreadOk(t, th1)
    ensures th1.st.artifacts == [ArtifactEntry(J.ArtifactOf(th.st.activeJobs[0]))]
    ensures th1.st.activeJobs == th.st.activeJobs && th1.st.completedJobs == [CompletedRef(th.st.activeJobs[0])]
    ensures th1.st.query == th.st.query && th1.st.directIntent == Some(false) && th1.st.approval == th.st.approval
    ensures th1.st.status == RunStatus.Running && |th1.st.trace| == |th.st.trace| + 1
  {
    var u := Completion(th.st.activeJobs[0]);
    th1 := Advance(th, u);
    PollCompletes(t, th, u);
    MergeEffect(th.st, u);
  }

  /** Poll, assemble, finalize: the thread at each of the three. */
  lemma CompletedThread(t: string, th: Thread) returns (th1: Thread, th2: Thread, th3: Thread)
    requires ThreadOk(t, th) && th.at == Poll && th.st.directIntent == Some(false) && |th.st.trace| < 23
    ensures th1 == Advance(th, Completion(th.st.activeJobs[0])) && th1.at == Assemble
    ensures th2 == Advance(th1, AssembleContext(th1.st)) && th2.at == Finalize
    ensures th3 == Advance(th2, FinalizeNode(th2.st)) && th3.at == End
    ensures th3.st.answer == Some(Report(th.st.query.raw, Some((1, J.ArtifactOf(th.st.activeJobs[0]).uri))))
  {
    th1 := CompletedOnce(t, th);
    th2 := Advance(th1, AssembleContext(th1.st));
    MergeEffect(th1.st, AssembleContext(th1.st));
    Durability.PendingIffNotCompleted(th2.st);
    AssembleKeepsThread(t, th1);
    th3 := Advance(th2, FinalizeNode(th2.st));
  }

  /** A thread polling a job that has succeeded reports it, and its artifact, three nodes later. */
  lemma FinishedJobIsReported(w: World, t: string, job: J.Job, id: string) returns (acts: seq<Action>, th3: Thread)
    requires Inv(w) && t in w.threads && w.threads[t].at == Poll && !J.HasId(w.jobs.db, id)
    requires w.threads[t].st.directIntent == Some(false) && |w.threads[t].st.trace| < 23
    requires w.threads[t].st.activeJobs == [job.id] && J.Lookup(w.jobs.db, job.id) == Some(job)
    requires job.status == J.Succeeded && job.result == Some(J.ArtifactOf(job.id))
    ensures Durability.Runs(w, acts, Durability.Put(w, t, th3), t, 3) && th3.at == End
    ensures th3.st.answer == Some(Report(w.threads[t].st.query.raw, Some((1, J.ArtifactOf(job.id).uri))))
  {
    var th := w.threads[t];
    assert ThreadOk(t, th);
    var th1, th2;
    th1, th2, th3 := CompletedThread(t, th);
    CompletionIs(th, w.jobs.db, job);
    acts := ThreeInPlace(w, t, id, Completion(job.id), th1, th2, th3);
  }

  lemma ThreeInPlace(w: World, t: string, id: string, u: Update, th1: Thread, th2: Thread, th3: Thread)
    returns (acts: seq<Action>)
    requires Inv(w) && t in w.threads && !J.HasId(w.jobs.db, id) && w.threads[t].at == Poll
    requires PollJobStatus(w.threads[t].st, w.jobs.db) == Some(u) && th1 == Advance(w.threads[t], u)
    requires th1.at == Assemble
    requires th2 == Advance(th1, AssembleContext(th1.st)) && th2.at == Finalize
    requires th3 == Advance(th2, FinalizeNode(th2.st))
    ensures Durability.Runs(w, acts, Durability.Put(w, t, th3), t, 3)
  {
    var two := TwoInPlace(w, t, id, u, th1);
    acts := Durability.ThenInPlace(w, w, t, id, two, th2, FinalizeNode(th2.st), 2);
  }

  lemma TwoInPlace(w: World, t: string, id: string, u: Update, th1: Thread) returns (acts: seq<Action>)
    requires Inv(w) && t in w.threads && !J.HasId(w.jobs.db, id) && w.threads[t].at == Poll
    requires PollJobStatus(w.threads[t].st, w.jobs.db) == Some(u) && th1 == Advance(w.threads[t], u)
    requires th1.at == Assemble
    ensures var w2 := Durability.Put(w, t, Advance(th1, AssembleContext(th1.st)));
      Durability.Runs(w, acts, w2, t, 2) && Inv(w2)
  {
    var first := Durability.RunsInPlace(w, t, id, u);
    acts := Durability.ThenInPlace(w, w, t, id, first, th1, AssembleContext(th1.st), 1);
  }
}
