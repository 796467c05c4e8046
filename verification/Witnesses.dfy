/** Runs from the empty world to the states in which the workflow does what its documentation does not say. */
module Witnesses {
  import opened Wrappers
  import opened Text
  import opened Graph
  import opened Orchestration
  import J = Jobs
  import JobRuns
  import Durability
  import Approvals

  ghost predicate Reaches(acts: seq<Action>, w: World) { Legal(START, acts) && After(START, acts) == w }

  lemma ReachesNext(acts: seq<Action>, w: World, a: Action)
    requires Reaches(acts, w) && Enabled(w, a)
    ensures Reaches(acts + [a], Apply(w, a))
  {
    OneStep(w, a);
    RunAppend(START, acts, [a]);
  }

  lemma ReachesMore(acts: seq<Action>, w: World, more: seq<Action>, w': World)
    requires Reaches(acts, w) && Legal(w, more) && After(w, more) == w'
    ensures Reaches(acts + more, w')
  {
    RunAppend(START, acts, more);
  }

  /** A request that needs approval, and one that is neither direct nor in need of approval. */
  lemma QueriesExist()
    ensures NeedsApproval(Query("ARIMA", "arima"))
    ensures !WantsDirectAnswer(Query("", "")) && !NeedsApproval(Query("", ""))
  {
    assert OccursAt("arima", "arima", 0);
    assert Contains("arima", "arima") && !Contains("arima", "direct");
    assert "arima" in RISKY_WORDS;
  }

  const REQUEST := Query("ARIMA", "arima")
  const PLAIN := Query("", "")

  /** A thread waiting for its first review, its draft untouched: approving it submits nothing. */
  lemma ReviewIsReached(t: string, id: string) returns (acts: seq<Action>, w: World)
    ensures Reaches(acts, w) && Inv(w) && w.jobs == J.EMPTY
    ensures t in w.threads && w.threads[t].at == Approve && w.threads[t].st.approval == Some(Pending)
    ensures w.threads[t].st.activeJobs == [] && |w.threads[t].st.trace| == 2 && w.threads[t].st.query == REQUEST
  {
    QueriesExist();
    var enter := Enter(t, "", REQUEST);
    ReachesNext([], START, enter);
    var w0 := Apply(START, enter);
    var parse := Durability.ParsesInPlace(START, t, "", REQUEST, id);
    var w1 := Durability.Put(START, t, Durability.Parsed(Existing(START, t), "", REQUEST));
    ReachesMore([] + [enter], w0, parse, w1);
    var assemble, th := Durability.EditAssembles(w1, t, id);
    w := Durability.Put(w1, t, th);
    ReachesMore([] + [enter] + parse, w1, assemble, w);
    acts := [] + [enter] + parse + assemble;
  }

  /** The first run of a thread at its submit node, with this plan. */
  predicate AtFirstSubmit(th: Thread, plan: J.Plan) {
    th.at == SubmitJob && CurrentPlan(th.st) == plan && th.st.query == REQUEST && |th.st.trace| == 4
  }

  /** That run once its job is submitted. */
  predicate FirstSubmitted(th: Thread, id: string) {
    && |th.st.trace| == 5 == |th.notes| && th.st.trace[4].kind == JobSubmitted(id) && th.notes[4].query == REQUEST
    && th.st.activeJobs == [id]
  }

  /** A second run of the thread, parsed, for a request of its own. */
  predicate SecondParsed(th: Thread, id: string) {
    && |th.st.trace| == 6 == |th.notes| && th.st.trace[4].kind == JobSubmitted(id) && th.notes[4].query == REQUEST
    && th.st.trace[5].kind == RequestParsed && th.st.query == PLAIN && th.st.activeJobs == [id]
  }

  /** An approved and admitted plan at its submit node. */
  lemma SubmitIsReached(t: string, plan: J.Plan, id: string) returns (acts: seq<Action>, w: World)
    requires !Denied(plan)
    ensures Reaches(acts, w) && Inv(w) && w.jobs == J.EMPTY
    ensures t in w.threads && AtFirstSubmit(w.threads[t], plan)
  {
    var before, w0 := ReviewIsReached(t, id);
    var review := Resume(t, Review(Approved, Some(plan)));
    ReachesNext(before, w0, review);
    Approvals.ReviewInPlace(w0, t, Some(plan));
    Approvals.ApprovalPrepares(w0, t, Some(plan), id);
    Approvals.PreparedIs(t, w0.threads[t], Some(plan));
    var w1 := Apply(w0, review);
    ReachesNext(before + [review], w1, RunNode(t, id));
    acts, w := before + [review] + [RunNode(t, id)], Apply(w1, RunNode(t, id));
  }

  /** A submit that crashed after its write: a run entered now would orphan the job. */
  lemma WrittenSubmitIsReached(t: string, id: string) returns (acts: seq<Action>, w: World)
    ensures Reaches(acts, w) && Inv(w) && WrittenNotCheckpointed(w, t)
  {
    DraftIsDenied();
    var before, w0 := SubmitIsReached(t, EMPTY_PLAN, id);
    var crash := CrashInSubmit(t, id);
    ReachesNext(before, w0, crash);
    StepKeepsInv(w0, crash);
    acts, w := before + [crash], Apply(w0, crash);
    assert w.jobs.db == [Proposed(w0.threads[t].st, id)];
    J.WithKeyIs(w.jobs.db, SubmitKey(t, 4), 0);
  }

  lemma SubmitInEmptyStore(w: World, t: string, plan: J.Plan, id: string)
    requires Inv(w) && w.jobs == J.EMPTY && !Denied(plan)
    requires t in w.threads && AtFirstSubmit(w.threads[t], plan)
    ensures var w' := Apply(w, RunNode(t, id));
      && Inv(w') && t in w'.threads && FirstSubmitted(w'.threads[t], id)
      && w'.jobs == J.System([J.NewJob(id, ToolOf(plan), SubmitKey(t, 4), plan)], multiset{})
  {
    StepKeepsInv(w, RunNode(t, id));
    FirstSubmission(w.threads[t], plan, id);
    SubmitIs(w, t, id);
  }

  lemma FirstSubmission(th: Thread, plan: J.Plan, id: string)
    requires JobsOk(th.st) && |th.notes| == |th.st.trace| && AtFirstSubmit(th, plan) && !Denied(plan)
    requires th.st.activeJobs == []
    ensures FirstSubmitted(Advance(th, SubmitJobNode(th.st, [], id)), id)
    ensures StoreAfterNode(th, [], id) == [Proposed(th.st, id)]
  {
    MergeEffect(th.st, SubmitJobNode(th.st, [], id));
  }

  /** A submitted job, alone in the store. */
  lemma SubmittedIsReached(t: string, plan: J.Plan, id: string) returns (acts: seq<Action>, w: World)
    requires !Denied(plan)
    ensures Reaches(acts, w) && Inv(w) && t in w.threads && FirstSubmitted(w.threads[t], id)
    ensures w.jobs == J.System([J.NewJob(id, ToolOf(plan), SubmitKey(t, 4), plan)], multiset{})
  {
    var before, w0 := SubmitIsReached(t, plan, id);
    var submit := RunNode(t, id);
    ReachesNext(before, w0, submit);
    SubmitInEmptyStore(w0, t, plan, id);
    acts, w := before + [submit], Apply(w0, submit);
  }

  /** A thread that has submitted, entered again: it is about to poll its unfinished job. */
  lemma PollingIsReached(t: string, plan: J.Plan, id: string, nextId: string) returns (acts: seq<Action>, w: World)
    requires !Denied(plan) && id != nextId
    ensures Reaches(acts, w) && Inv(w) && t in w.threads && Durability.KeepsPolling(w.threads[t], w.jobs.db)
    ensures SecondParsed(w.threads[t], id)
    ensures w.jobs == J.System([J.NewJob(id, ToolOf(plan), SubmitKey(t, 4), plan)], multiset{})
  {
    QueriesExist();
    var before, w0 := SubmittedIsReached(t, plan, id);
    assert Durability.Unfinished(w0.threads[t], w0.jobs.db);
    var enter := Enter(t, "", PLAIN);
    ReachesNext(before, w0, enter);
    var parse, th := Durability.ReentryParses(w0, t, "", PLAIN, nextId);
    w := Durability.Put(w0, t, th);
    ReachesMore(before + [enter], Apply(w0, enter), parse, w);
    acts := before + [enter] + parse;
  }

  lemma {:induction false} BackgroundRun(w: World, steps: seq<J.Action>) returns (acts: seq<Action>)
    requires J.Legal(w.jobs, steps) && forall s :: s in steps ==> !s.Submit?
    ensures Legal(w, acts) && After(w, acts) == w.(jobs := J.After(w.jobs, steps))
    ensures forall i :: 0 <= i < |acts| ==> acts[i].Background?
    decreases |steps|
  {
    if steps == [] {
      acts := [];
    } else {
      var w1 := Apply(w, Background(steps[0]));
      var rest := BackgroundRun(w1, steps[1..]);
      OneStep(w, Background(steps[0]));
      RunAppend(w, [Background(steps[0])], rest);
      acts := [Background(steps[0])] + rest;
    }
  }

  /** A thread about to poll a job that has failed. */
  lemma FailedPollIsReached(t: string, id: string, nextId: string) returns (acts: seq<Action>, w: World)
    requires id != nextId
    ensures Reaches(acts, w) && Inv(w) && t in w.threads && w.threads[t].at == Poll
    ensures w.threads[t].st.activeJobs == [id]
    ensures |w.jobs.db| == 1 && w.jobs.db[0].id == id && w.jobs.db[0].status == J.Status.Failed
  {
    var plan := J.Plan(None, true, map[]);
    DeniedUnlessForecast(plan);
    var before, w0 := PollingIsReached(t, plan, id, nextId);
    var assemble, th := Durability.PollAssembles(w0, t, nextId);
    var w1 := Durability.Put(w0, t, th);
    ReachesMore(before, w0, assemble, w1);
    var steps, failed := JobRuns.FailingJobFails(w0.jobs.db[0]);
    var more := BackgroundRun(w1, steps);
    w := w1.(jobs := J.System([failed], multiset{}));
    ReachesMore(before + assemble, w1, more, w);
    acts := before + assemble + more;
    RunKeepsInv(START, acts);
  }

  /** Claim and wake-up of a job that does not fail, alone in the store. */
  lemma JobSucceeds(j: J.Job) returns (steps: seq<J.Action>, done: J.Job)
    requires j.status == J.Queued && !j.payload.forceFail
    ensures J.Legal(J.System([j], multiset{}), steps)
    ensures J.After(J.System([j], multiset{}), steps) == J.System([done], multiset{})
    ensures done.id == j.id && done.status == J.Succeeded && done.result == Some(J.ArtifactOf(j.id))
    ensures forall s :: s in steps ==> !s.Submit?
  {
    JobRuns.AloneRound(j);
    var s := J.System([j], multiset{});
    var s1 := J.Apply(s, J.LoopTurn);
    done := J.Outcome(j.(status := J.Running, attempts := j.attempts + 1));
    JobRuns.RunCons(s1, J.WakeUp(j.id), []);
    JobRuns.RunCons(s, J.LoopTurn, [J.WakeUp(j.id)] + []);
    steps := [J.LoopTurn] + ([J.WakeUp(j.id)] + []);
  }

  /** A second run at its poll, the job of the first run having succeeded meanwhile. */
  lemma SucceededPollIsReached(t: string, id: string, nextId: string)
    returns (acts: seq<Action>, w: World, more: seq<Action>, w': World, job: J.Job)
    requires id != nextId
    ensures Reaches(acts, w) && Inv(w) && t in w.threads && SecondParsed(w.threads[t], id)
    ensures Legal(w, more) && After(w, more) == w' && Durability.NoEntry(more, t) && Inv(w') && w'.jobs.db == [job]
    ensures job.id == id && job.status == J.Succeeded && job.result == Some(J.ArtifactOf(id))
    ensures t in w'.threads && w'.threads[t].at == Poll && w'.threads[t].st.directIntent == Some(false)
    ensures |w'.threads[t].st.trace| == 7 && w'.threads[t].st.activeJobs == [id]
  {
    DraftIsDenied();
    acts, w := PollingIsReached(t, EMPTY_PLAN, id, nextId);
    var assemble, th := Durability.PollAssembles(w, t, nextId);
    var w1 := Durability.Put(w, t, th);
    var steps, done := JobSucceeds(w.jobs.db[0]);
    job := done;
    var others := BackgroundRun(w1, steps);
    w' := w1.(jobs := J.System([job], multiset{}));
    RunAppend(w, assemble, others);
    NoEntryConcat(assemble, others, t);
    more := assemble + others;
    RunKeepsInv(w, more);
  }

  lemma NoEntryConcat(xs: seq<Action>, ys: seq<Action>, t: string)
    requires Durability.NoEntry(xs, t) && forall i :: 0 <= i < |ys| ==> ys[i].Background?
    ensures Durability.NoEntry(xs + ys, t)
  {
  }

  /**
   * The evidence of an earlier request, shown for a later one: the job was submitted at event 4 for the
   * first request, the second was parsed at event 5 and asked for no job, and its answer shows it.
   */
  lemma EarlierEvidenceIsShown(t: string, id: string, nextId: string) returns (acts: seq<Action>, w: World)
    requires id != nextId
    ensures Reaches(acts, w) && t in w.threads && w.threads[t].at == End
    ensures var th := w.threads[t];
      && 6 < |th.st.trace| && 6 < |th.notes|
      && th.st.trace[4].kind == JobSubmitted(id) && th.notes[4].query == REQUEST
      && th.st.trace[5].kind == RequestParsed && th.st.query == PLAIN
      && th.st.answer == Some(Report("", Some((1, J.ArtifactOf(id).uri))))
  {
    var before, w0, more, w1, job := SucceededPollIsReached(t, id, nextId);
    Approvals.RunContinues(w0, more, t);
    J.WithIdIs(w1.jobs.db, id, 0);
    var last, th := Approvals.FinishedJobIsReported(w1, t, job, nextId);
    Approvals.RunContinues(w1, last, t);
    w := Durability.Put(w1, t, th);
    ReachesMore(before, w0, more, w1);
    ReachesMore(before + more, w1, last, w);
    acts := before + more + last;
    assert ThreadOk(t, w1.threads[t]);
    Approvals.ContinuesTrans(w0.threads[t], w1.threads[t], th);
    SecondKept(w0.threads[t], th, id);
  }

  lemma SecondKept(first: Thread, th: Thread, id: string)
    requires SecondParsed(first, id) && Approvals.Continues(first, th)
    ensures |th.st.trace| >= 6 && |th.notes| >= 6
    ensures th.st.trace[4].kind == JobSubmitted(id) && th.notes[4].query == REQUEST
    ensures th.st.trace[5].kind == RequestParsed && th.st.query == PLAIN
  {
    assert th.st.trace[4] == first.st.trace[4] && th.st.trace[5] == first.st.trace[5] && th.notes[4] == first.notes[4];
  }
}
