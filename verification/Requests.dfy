/** What the words of a request decide: whether it is answered at once, reviewed, or run. */
module Requests {
  import opened Wrappers
  import opened Text
  import opened Graph
  import opened Orchestration
  import opened Durability
  import J = Jobs
  import Decimal

  predicate IsDirect(query: Query) { Contains(query.lowered, "direct") }

  predicate IsRisky(query: Query) {
    || Contains(query.lowered, "diagnose") || Contains(query.lowered, "high risk") || Contains(query.lowered, "massive")
    || Contains(query.lowered, "safe trading") || Contains(query.lowered, "arima")
  }

  lemma WordsDecide(query: Query)
    ensures WantsDirectAnswer(query) <==> IsDirect(query)
    ensures NeedsApproval(query) <==> !IsDirect(query) && IsRisky(query)
  {
    var words := RISKY_WORDS;
    assert words[0] == "diagnose" && words[1] == "high risk" && words[2] == "massive" && words[3] == "safe trading";
    assert words[4] == "arima";
  }

  // ---------------------------------------------------------------- the first stop of a run

  /** Where a run entered on `before` is after its request was parsed and its context assembled. */
  function FirstStop(before: State, query: Query): Node {
    if |before.trace| >= 23 then End
    else if IsDirect(query) then Finalize
    else if IsRisky(query) then Approve
    else if before.activeJobs == [] then SubmitJob
    else if before.completedJobs == [] then Poll
    else Finalize
  }

  lemma ExistingIsOk(w: World, t: string)
    requires Inv(w)
    ensures ThreadOk(t, Existing(w, t))
  {
  }

  lemma ParsedIs(t: string, th: Thread, runId: string, query: Query)
    requires ThreadOk(t, th)
    ensures var parsed := Parsed(th, runId, query);
      && ThreadOk(t, parsed) && parsed.at == Assemble && parsed.st.query == query && parsed.st.runId == runId
      && |parsed.st.trace| == |th.st.trace| + 1 && parsed.st.status == RunStatus.Running
      && parsed.st.directIntent == Some(IsDirect(query))
      && parsed.st.approval == Some(if !IsDirect(query) && IsRisky(query) then Pending else NotRequired)
      && CurrentPlan(parsed.st) == CurrentPlan(th.st)
      && parsed.st.activeJobs == th.st.activeJobs && parsed.st.completedJobs == th.st.completedJobs
      && parsed.st.artifacts == th.st.artifacts
  {
    var entered := Entered(th, runId, query);
    EnterKeepsThread(t, th, runId, query);
    ParseKeepsThread(t, entered);
    MergeEffect(entered.st, ParseRequest(entered.st));
    WordsDecide(query);
  }

  lemma StopsFirst(t: string, th: Thread, runId: string, query: Query) returns (stop: Thread)
    requires ThreadOk(t, th)
    ensures var parsed := Parsed(th, runId, query); stop == Advance(parsed, AssembleContext(parsed.st))
    ensures stop.at == FirstStop(th.st, query) && |stop.st.trace| == |th.st.trace| + 2
    ensures stop.at == Approve ==> CurrentPlan(stop.st) == DRAFT_PLAN
    ensures stop.at != Approve && stop.at != End ==> CurrentPlan(stop.st) == CurrentPlan(th.st)
    ensures stop.st.query == query && stop.st.runId == runId && stop.st.contextReady
    ensures stop.st.completedJobs == th.st.completedJobs
    ensures stop.st.approval == Parsed(th, runId, query).st.approval && stop.st.artifacts == th.st.artifacts
  {
    var parsed := Parsed(th, runId, query);
    ParsedIs(t, th, runId, query);
    stop := Advance(parsed, AssembleContext(parsed.st));
    MergeEffect(parsed.st, AssembleContext(parsed.st));
    AssembleKeepsThread(t, parsed);
    if th.st.activeJobs != [] {
      PendingIffNotCompleted(stop.st);
    }
  }

  // ---------------------------------------------------------------- answers

  /** What a request without a job of its own is answered with: the artifact of the completed job, if any. */
  function AnswerTo(before: State, query: Query): Answer
    requires before.completedJobs != [] ==> before.activeJobs != []
  {
    if before.completedJobs == [] then Report(query.raw, None)
    else Report(query.raw, Some((1, J.ArtifactOf(before.activeJobs[0]).uri)))
  }

  lemma ReportsAtLast(before: State, stop: Thread)
    requires JobsOk(before) && stop.at == Finalize
    requires stop.st.approval != Some(Rejected) && stop.st.artifacts == before.artifacts
    ensures before.completedJobs != [] ==> before.activeJobs != []
    ensures var done := Advance(stop, FinalizeNode(stop.st));
      && done.at == End && done.st.status == Completed
      && done.st.answer == Some(AnswerTo(before, stop.st.query))
  {
  }

  // ---------------------------------------------------------------- outcomes

  /** The job that a plan submitted at step `n` of thread `t` is stored as. */
  function PlainJob(id: string, t: string, n: nat, plan: J.Plan): J.Job {
    J.Job(id, if plan.task.Some? then plan.task.value else "mcp_arima_forecast",
          "thread_" + t + "_step_" + Decimal.Digits(n), plan, J.Queued, None, None, 0, 3)
  }

  predicate IsAnswered(before: State, query: Query, db: seq<J.Job>, th: Thread, db': seq<J.Job>) {
    && db' == db && th.at == End && th.st.status == Completed
    && (before.completedJobs != [] ==> before.activeJobs != [])
    && th.st.answer == Some(AnswerTo(before, query))
  }

  predicate IsUnderReview(before: State, db: seq<J.Job>, th: Thread, db': seq<J.Job>) {
    && db' == db && th.at == Approve && th.st.contextReady && |th.st.trace| == |before.trace| + 2
    && CurrentPlan(th.st) == J.Plan(Some("Run rolling backtest window"), false, map["horizon_months" := "12"])
  }

  predicate IsSubmitted(t: string, n: nat, plan: J.Plan, db: seq<J.Job>, th: Thread, db': seq<J.Job>, id: string) {
    && db' == db + [PlainJob(id, t, n, plan)]
    && th.at == End && th.st.status == WaitingForJob && th.st.activeJobs == [id]
    && th.st.executing && th.st.contextReady
  }

  /** The gate refuses the plan: nothing is stored, and the run reports its request completed without evidence. */
  predicate IsBlocked(query: Query, plan: J.Plan, db: seq<J.Job>, th: Thread, db': seq<J.Job>) {
    && db' == db && th.at == End && th.st.status == Completed && th.st.answer == Some(Report(query.raw, None))
    && plan.task.Some? && th.st.errors != [] && th.st.errors[|th.st.errors| - 1] == PolicyViolation(plan.task.value)
  }

  // ---------------------------------------------------------------- one invocation

  predicate OnlyNodes(acts: seq<Action>, t: string) {
    forall i :: 0 <= i < |acts| ==> acts[i].RunNode? && acts[i].t == t
  }

  /** The nodes of an invocation that is not yet over begin with the pending one. */
  lemma BeginsWithPending(w: World, t: string, acts: seq<Action>, u: Update)
    requires Inv(w) && t in w.threads
    requires w.threads[t].at in {Parse, Assemble, Finalize}
      || (w.threads[t].at == SubmitJob && Denied(CurrentPlan(w.threads[t].st)))
    requires forall id :: NodeUpdate(w.threads[t], w.jobs.db, id) == Some(u)
    requires Legal(w, acts) && OnlyNodes(acts, t) && t in After(w, acts).threads
    requires After(w, acts).threads[t].at in {Approve, End}
    ensures acts != [] && OnlyNodes(acts[1..], t)
    ensures var w' := Put(w, t, Advance(w.threads[t], u));
      Inv(w') && Legal(w', acts[1..]) && After(w', acts[1..]) == After(w, acts)
  {
    StepKeepsInv(w, acts[0]);
    RunNodeIs(w, t, acts[0].clockId, u);
  }

  lemma OverIsOver(w: World, t: string, acts: seq<Action>)
    requires t in w.threads && w.threads[t].at in {Approve, End} && Legal(w, acts) && OnlyNodes(acts, t)
    ensures acts == [] && After(w, acts) == w
  {
  }

  /** An invocation that has come to its first stop. */
  lemma EndsAtStop(w: World, t: string, stop: Thread, acts: seq<Action>)
    requires Inv(Put(w, t, stop)) && Legal(Put(w, t, stop), acts) && OnlyNodes(acts, t)
    requires t in After(Put(w, t, stop), acts).threads && After(Put(w, t, stop), acts).threads[t].at in {Approve, End}
    ensures stop.at in {Approve, End} ==> After(Put(w, t, stop), acts) == Put(w, t, stop)
    ensures stop.at == Finalize ==>
      After(Put(w, t, stop), acts) == Put(w, t, Advance(stop, FinalizeNode(stop.st)))
  {
    if stop.at in {Approve, End} {
      OverIsOver(Put(w, t, stop), t, acts);
    } else if stop.at == Finalize {
      var done := Advance(stop, FinalizeNode(stop.st));
      BeginsWithPending(Put(w, t, stop), t, acts, FinalizeNode(stop.st));
      PutTwice(w, t, stop, done);
      OverIsOver(Put(w, t, done), t, acts[1..]);
    }
  }

  /** Every invocation on a new request comes to the first stop. */
  lemma ReachesStop(w: World, t: string, runId: string, query: Query, acts: seq<Action>)
    returns (stop: Thread, rest: seq<Action>)
    requires Inv(w) && Legal(Apply(w, Enter(t, runId, query)), acts) && OnlyNodes(acts, t)
    requires var w' := After(Apply(w, Enter(t, runId, query)), acts);
      t in w'.threads && w'.threads[t].at in {Approve, End}
    ensures stop.at == FirstStop(Existing(w, t).st, query) && stop.st.query == query && stop.st.runId == runId
    ensures |stop.st.trace| == |Existing(w, t).st.trace| + 2 && stop.st.artifacts == Existing(w, t).st.artifacts
    ensures stop.st.contextReady
    ensures stop.at == Approve ==> CurrentPlan(stop.st) == DRAFT_PLAN
    ensures stop.at == SubmitJob ==> CurrentPlan(stop.st) == CurrentPlan(Existing(w, t).st) && JobsOk(stop.st)
    ensures stop.at == SubmitJob ==> stop.st.activeJobs == []
    ensures stop.st.approval == Some(if !IsDirect(query) && IsRisky(query) then Pending else NotRequired)
    ensures |acts| >= 2 && rest == acts[2..] && OnlyNodes(rest, t) && Inv(Put(w, t, stop))
    ensures Legal(Put(w, t, stop), rest) && J.WithKey(w.jobs.db, SubmitKey(t, |stop.st.trace|)) == |w.jobs.db|
    ensures After(Put(w, t, stop), rest) == After(Apply(w, Enter(t, runId, query)), acts)
  {
    var th := Existing(w, t);
    ExistingIsOk(w, t);
    var entered, parsed := Entered(th, runId, query), Parsed(th, runId, query);
    EntersInPlace(w, t, runId, query);
    ParsedIs(t, th, runId, query);
    stop := StopsFirst(t, th, runId, query);
    BeginsWithPending(Put(w, t, entered), t, acts, ParseRequest(entered.st));
    PutTwice(w, t, entered, parsed);
    BeginsWithPending(Put(w, t, parsed), t, acts[1..], AssembleContext(parsed.st));
    PutTwice(w, t, parsed, stop);
    FutureStepIsFree(w, t, |stop.st.trace|);
    rest := acts[1..][1..];
    assert rest == acts[2..];
  }

  /** One invocation on a new request ends at its first stop, or, if that is the answer, with the answer given. */
  lemma InvocationEnds(w: World, t: string, runId: string, query: Query, acts: seq<Action>) returns (stop: Thread)
    requires Inv(w) && Legal(Apply(w, Enter(t, runId, query)), acts) && OnlyNodes(acts, t)
    requires var w' := After(Apply(w, Enter(t, runId, query)), acts);
      t in w'.threads && w'.threads[t].at in {Approve, End}
    ensures stop.at == FirstStop(Existing(w, t).st, query) && stop.st.query == query && stop.st.runId == runId
    ensures |stop.st.trace| == |Existing(w, t).st.trace| + 2 && stop.st.artifacts == Existing(w, t).st.artifacts
    ensures stop.st.contextReady
    ensures stop.at == Approve ==> CurrentPlan(stop.st) == DRAFT_PLAN
    ensures stop.st.approval == Some(if !IsDirect(query) && IsRisky(query) then Pending else NotRequired)
    ensures var w' := After(Apply(w, Enter(t, runId, query)), acts);
      && (stop.at in {Approve, End} ==> w' == Put(w, t, stop))
      && (stop.at == Finalize ==> w' == Put(w, t, Advance(stop, FinalizeNode(stop.st))))
  {
    var rest;
    stop, rest := ReachesStop(w, t, runId, query, acts);
    EndsAtStop(w, t, stop, rest);
  }

  /** What an invocation that needs no job leaves behind: a direct request, or one on a thread with a completed job. */
  lemma AnswerInvocation(w: World, t: string, runId: string, query: Query, acts: seq<Action>)
    requires Inv(w) && Legal(Apply(w, Enter(t, runId, query)), acts) && OnlyNodes(acts, t)
    requires var w' := After(Apply(w, Enter(t, runId, query)), acts);
      t in w'.threads && w'.threads[t].at in {Approve, End}
    requires FirstStop(Existing(w, t).st, query) == Finalize
    ensures var w' := After(Apply(w, Enter(t, runId, query)), acts);
      w'.jobs == w.jobs && IsAnswered(Existing(w, t).st, query, w.jobs.db, w'.threads[t], w'.jobs.db)
  {
    ExistingIsOk(w, t);
    var stop := InvocationEnds(w, t, runId, query, acts);
    ReportsAtLast(Existing(w, t).st, stop);
  }

  /** What an invocation with a risky request leaves behind. */
  lemma RiskyInvocation(w: World, t: string, runId: string, query: Query, acts: seq<Action>)
    requires Inv(w) && Legal(Apply(w, Enter(t, runId, query)), acts) && OnlyNodes(acts, t)
    requires var w' := After(Apply(w, Enter(t, runId, query)), acts);
      t in w'.threads && w'.threads[t].at in {Approve, End}
    requires !IsDirect(query) && IsRisky(query) && |Existing(w, t).st.trace| < 23
    ensures var w' := After(Apply(w, Enter(t, runId, query)), acts);
      w'.jobs == w.jobs && IsUnderReview(Existing(w, t).st, w.jobs.db, w'.threads[t], w'.jobs.db)
  {
    var stop := InvocationEnds(w, t, runId, query, acts);
  }

  /** A thread at an admitted submission whose step is free. */
  lemma EndsAfterSubmit(w: World, t: string, stop: Thread, acts: seq<Action>)
    requires Inv(Put(w, t, stop)) && stop.at == SubmitJob && !Denied(CurrentPlan(stop.st)) && stop.st.contextReady
    requires J.WithKey(w.jobs.db, SubmitKey(t, |stop.st.trace|)) == |w.jobs.db|
    requires Legal(Put(w, t, stop), acts) && OnlyNodes(acts, t)
    requires t in After(Put(w, t, stop), acts).threads && After(Put(w, t, stop), acts).threads[t].at in {Approve, End}
    ensures acts != []
    ensures var w' := After(Put(w, t, stop), acts);
      IsSubmitted(t, |stop.st.trace|, CurrentPlan(stop.st), w.jobs.db, w'.threads[t], w'.jobs.db, acts[0].clockId)
  {
    var id := acts[0].clockId;
    assert ThreadOk(t, stop);
    SubmitIs(Put(w, t, stop), t, id);
    SubmitWrites(stop, w.jobs.db, id);
    OverIsOver(Apply(Put(w, t, stop), acts[0]), t, acts[1..]);
  }

  /** A refused plan fails the run, and the report that follows calls it completed. */
  lemma RefusalIsReported(stop: Thread, db: seq<J.Job>, id: string) returns (failed: Thread)
    requires stop.at == SubmitJob && Denied(CurrentPlan(stop.st)) && JobsOk(stop.st) && stop.st.activeJobs == []
    requires stop.st.approval != Some(Rejected)
    ensures failed == Advance(stop, SubmitJobNode(stop.st, db, id)) && failed.at == Finalize
    ensures IsBlocked(stop.st.query, CurrentPlan(stop.st), db, Advance(failed, FinalizeNode(failed.st)), db)
  {
    var u := SubmitJobNode(stop.st, db, id);
    failed := Advance(stop, u);
    MergeEffect(stop.st, u);
  }

  /** A thread whose plan the gate refuses. */
  lemma EndsBlocked(w: World, t: string, stop: Thread, acts: seq<Action>)
    requires Inv(Put(w, t, stop)) && stop.at == SubmitJob && Denied(CurrentPlan(stop.st))
    requires stop.st.approval != Some(Rejected) && JobsOk(stop.st) && stop.st.activeJobs == []
    requires Legal(Put(w, t, stop), acts) && OnlyNodes(acts, t)
    requires t in After(Put(w, t, stop), acts).threads && After(Put(w, t, stop), acts).threads[t].at in {Approve, End}
    ensures acts != []
    ensures var w' := After(Put(w, t, stop), acts);
      w'.jobs == w.jobs && IsBlocked(stop.st.query, CurrentPlan(stop.st), w.jobs.db, w'.threads[t], w'.jobs.db)
  {
    var u := SubmitJobNode(stop.st, w.jobs.db, "");
    var failed := RefusalIsReported(stop, w.jobs.db, "");
    BeginsWithPending(Put(w, t, stop), t, acts, u);
    PutTwice(w, t, stop, failed);
    EndsAtStop(w, t, failed, acts[1..]);
  }

  lemma EndsAtSubmit(w: World, t: string, stop: Thread, acts: seq<Action>)
    requires Inv(Put(w, t, stop)) && stop.at == SubmitJob && JobsOk(stop.st) && stop.st.activeJobs == []
    requires stop.st.approval != Some(Rejected) && stop.st.contextReady
    requires J.WithKey(w.jobs.db, SubmitKey(t, |stop.st.trace|)) == |w.jobs.db|
    requires Legal(Put(w, t, stop), acts) && OnlyNodes(acts, t)
    requires t in After(Put(w, t, stop), acts).threads && After(Put(w, t, stop), acts).threads[t].at in {Approve, End}
    ensures acts != []
    ensures var w', n, plan := After(Put(w, t, stop), acts), |stop.st.trace|, CurrentPlan(stop.st);
      if Denied(plan) then IsBlocked(stop.st.query, plan, w.jobs.db, w'.threads[t], w'.jobs.db)
      else IsSubmitted(t, n, plan, w.jobs.db, w'.threads[t], w'.jobs.db, acts[0].clockId)
  {
    if Denied(CurrentPlan(stop.st)) {
      EndsBlocked(w, t, stop, acts);
    } else {
      EndsAfterSubmit(w, t, stop, acts);
    }
  }

  /**
   * A request that is neither direct nor risky, on a thread without a job: if its plan passes the gate, the
   * invocation stores exactly one job, under the step it has reached, and pauses; otherwise it stores none.
   */
  lemma PlainInvocation(w: World, t: string, runId: string, query: Query, acts: seq<Action>)
    requires Inv(w) && Legal(Apply(w, Enter(t, runId, query)), acts) && OnlyNodes(acts, t)
    requires var w' := After(Apply(w, Enter(t, runId, query)), acts);
      t in w'.threads && w'.threads[t].at in {Approve, End}
    requires !IsDirect(query) && !IsRisky(query) && |Existing(w, t).st.trace| < 23
    requires Existing(w, t).st.activeJobs == []
    ensures |acts| > 2
    ensures var w', before := After(Apply(w, Enter(t, runId, query)), acts), Existing(w, t).st;
      var plan := CurrentPlan(before);
      if Denied(plan) then IsBlocked(query, plan, w.jobs.db, w'.threads[t], w'.jobs.db)
      else IsSubmitted(t, |before.trace| + 2, plan, w.jobs.db, w'.threads[t], w'.jobs.db, acts[2].clockId)
  {
    var stop, rest := ReachesStop(w, t, runId, query, acts);
    EndsAtSubmit(w, t, stop, rest);
    assert rest[0] == acts[2] && acts[2].RunNode?;
  }

  /** What a request leads to, before the guard comes near: an answer, a review, a refusal, or a job stored as `id`. */
  predicate LeadsTo(before: State, query: Query, t: string, db: seq<J.Job>, th: Thread, db': seq<J.Job>, id: string) {
    |before.trace| < 23 ==>
      if IsDirect(query) then IsAnswered(before, query, db, th, db')
      else if IsRisky(query) then IsUnderReview(before, db, th, db')
      else if before.activeJobs == [] then
        if Denied(CurrentPlan(before)) then IsBlocked(query, CurrentPlan(before), db, th, db')
        else IsSubmitted(t, |before.trace| + 2, CurrentPlan(before), db, th, db', id)
      else before.completedJobs != [] ==> IsAnswered(before, query, db, th, db')
  }

  lemma InvocationLeadsTo(w: World, t: string, runId: string, query: Query, acts: seq<Action>, id: string)
    requires Inv(w) && Legal(Apply(w, Enter(t, runId, query)), acts) && OnlyNodes(acts, t)
    requires var w' := After(Apply(w, Enter(t, runId, query)), acts);
      t in w'.threads && w'.threads[t].at in {Approve, End}
    requires |acts| > 2 ==> acts[2].clockId == id
    ensures var w' := After(Apply(w, Enter(t, runId, query)), acts);
      LeadsTo(Existing(w, t).st, query, t, w.jobs.db, w'.threads[t], w'.jobs.db, id)
  {
    var before := Existing(w, t).st;
    if |before.trace| < 23 {
      if IsDirect(query) {
        AnswerInvocation(w, t, runId, query, acts);
      } else if IsRisky(query) {
        RiskyInvocation(w, t, runId, query, acts);
      } else if before.activeJobs == [] {
        PlainInvocation(w, t, runId, query, acts);
      } else if before.completedJobs != [] {
        AnswerInvocation(w, t, runId, query, acts);
      }
    }
  }

  // ---------------------------------------------------------------- what a review leads to

  /** Where a reviewed run is after the assembly that follows the review. */
  function ReviewStop(before: State, action: Approval): Node {
    if action == Rejected then Finalize
    else if action == Edited then Approve
    else if before.activeJobs == [] then SubmitJob
    else if before.completedJobs == [] then Poll
    else Finalize
  }

  lemma StopsAgain(t: string, th: Thread, review: Review) returns (stop: Thread)
    requires ThreadOk(t, th) && th.at == Approve && IsVerdict(review.action) && |th.st.trace| < 23
    ensures var reviewed := Advance(th, HumanApproval(th.st, review));
      reviewed.at == Assemble && stop == Advance(reviewed, AssembleContext(reviewed.st))
    ensures stop.at == ReviewStop(th.st, review.action) && |stop.st.trace| == |th.st.trace| + 2
    ensures CurrentPlan(stop.st) == review.updatedPlan.GetOr(CurrentPlan(th.st)) && stop.st.query == th.st.query
    ensures stop.st.approval == Some(review.action) && stop.st.artifacts == th.st.artifacts && stop.st.contextReady
    ensures stop.st.activeJobs == th.st.activeJobs && stop.st.completedJobs == th.st.completedJobs
  {
    var reviewed := Advance(th, HumanApproval(th.st, review));
    MergeEffect(th.st, HumanApproval(th.st, review));
    ApproveKeepsThread(t, th, review);
    stop := Advance(reviewed, AssembleContext(reviewed.st));
    MergeEffect(reviewed.st, AssembleContext(reviewed.st));
    if th.st.activeJobs != [] {
      PendingIffNotCompleted(stop.st);
    }
  }

  /** What a review leads to, before the guard comes near. */
  predicate ReviewLeadsTo(before: State, review: Review, t: string, db: seq<J.Job>, th: Thread, db': seq<J.Job>,
                          id: string)
  {
    var plan := review.updatedPlan.GetOr(CurrentPlan(before));
    |before.trace| < 23 ==>
      if review.action == Rejected then
        db' == db && th.at == End && th.st.status == RunStatus.Failed && th.st.answer == Some(Aborted)
      else if review.action == Edited then
        db' == db && th.at == Approve && CurrentPlan(th.st) == plan && |th.st.trace| == |before.trace| + 2
      else if before.activeJobs == [] then
        if Denied(plan) then IsBlocked(before.query, plan, db, th, db')
        else IsSubmitted(t, |before.trace| + 2, plan, db, th, db', id)
      else before.completedJobs != [] ==> IsAnswered(before, before.query, db, th, db')
  }

  /** Every invocation on a review comes to its stop. */
  lemma ReviewReachesStop(w: World, t: string, review: Review, acts: seq<Action>)
    returns (stop: Thread, rest: seq<Action>)
    requires Inv(w) && Enabled(w, Resume(t, review)) && |w.threads[t].st.trace| < 23
    requires Legal(Apply(w, Resume(t, review)), acts) && OnlyNodes(acts, t)
    requires var w' := After(Apply(w, Resume(t, review)), acts); t in w'.threads && w'.threads[t].at in {Approve, End}
    ensures var st := w.threads[t].st;
      && stop.at == ReviewStop(st, review.action) && |stop.st.trace| == |st.trace| + 2
      && CurrentPlan(stop.st) == review.updatedPlan.GetOr(CurrentPlan(st)) && stop.st.query == st.query
      && stop.st.approval == Some(review.action) && stop.st.artifacts == st.artifacts && stop.st.contextReady
      && stop.st.activeJobs == st.activeJobs && stop.st.completedJobs == st.completedJobs
    ensures acts != [] && rest == acts[1..] && OnlyNodes(rest, t) && Inv(Put(w, t, stop))
    ensures Legal(Put(w, t, stop), rest) && J.WithKey(w.jobs.db, SubmitKey(t, |stop.st.trace|)) == |w.jobs.db|
    ensures After(Put(w, t, stop), rest) == After(Apply(w, Resume(t, review)), acts)
    ensures JobsOk(w.threads[t].st) && JobsOk(stop.st)
  {
    var th := w.threads[t];
    assert ThreadOk(t, th);
    var reviewed := Advance(th, HumanApproval(th.st, review));
    StepKeepsInv(w, Resume(t, review));
    assert Apply(w, Resume(t, review)) == Put(w, t, reviewed);
    stop := StopsAgain(t, th, review);
    BeginsWithPending(Put(w, t, reviewed), t, acts, AssembleContext(reviewed.st));
    PutTwice(w, t, reviewed, stop);
    FutureStepIsFree(w, t, |stop.st.trace|);
    rest := acts[1..];
    assert ThreadOk(t, Put(w, t, stop).threads[t]);
  }

  /** A review whose stop needs no submission decides the outcome without the store. */
  lemma StopDecides(before: State, review: Review, t: string, db: seq<J.Job>, stop: Thread, id: string)
    requires IsVerdict(review.action) && JobsOk(before)
    requires stop.at == ReviewStop(before, review.action) && stop.at in {Approve, Finalize}
    requires |stop.st.trace| == |before.trace| + 2 && stop.st.query == before.query
    requires CurrentPlan(stop.st) == review.updatedPlan.GetOr(CurrentPlan(before))
    requires stop.st.approval == Some(review.action) && stop.st.artifacts == before.artifacts
    ensures stop.at == Approve ==> ReviewLeadsTo(before, review, t, db, stop, db, id)
    ensures stop.at == Finalize ==>
      ReviewLeadsTo(before, review, t, db, Advance(stop, FinalizeNode(stop.st)), db, id)
  {
    if stop.at == Finalize && review.action != Rejected {
      ReportsAtLast(before, stop);
    }
  }

  lemma EndsReviewed(w: World, t: string, before: State, review: Review, stop: Thread, rest: seq<Action>, id: string)
    requires IsVerdict(review.action) && JobsOk(before)
    requires stop.at == ReviewStop(before, review.action) && stop.at != SubmitJob
    requires |stop.st.trace| == |before.trace| + 2 && stop.st.query == before.query
    requires CurrentPlan(stop.st) == review.updatedPlan.GetOr(CurrentPlan(before))
    requires stop.st.approval == Some(review.action) && stop.st.artifacts == before.artifacts
    requires Inv(Put(w, t, stop)) && Legal(Put(w, t, stop), rest) && OnlyNodes(rest, t)
    requires t in After(Put(w, t, stop), rest).threads && After(Put(w, t, stop), rest).threads[t].at in {Approve, End}
    ensures var w' := After(Put(w, t, stop), rest);
      ReviewLeadsTo(before, review, t, w.jobs.db, w'.threads[t], w'.jobs.db, id)
  {
    if stop.at != Poll {
      EndsAtStop(w, t, stop, rest);
      StopDecides(before, review, t, w.jobs.db, stop, id);
    }
  }

  lemma ReviewInvocation(w: World, t: string, review: Review, acts: seq<Action>, id: string)
    requires Inv(w) && Enabled(w, Resume(t, review))
    requires Legal(Apply(w, Resume(t, review)), acts) && OnlyNodes(acts, t)
    requires var w' := After(Apply(w, Resume(t, review)), acts); t in w'.threads && w'.threads[t].at in {Approve, End}
    requires |acts| > 1 ==> acts[1].clockId == id
    ensures var w' := After(Apply(w, Resume(t, review)), acts);
      ReviewLeadsTo(w.threads[t].st, review, t, w.jobs.db, w'.threads[t], w'.jobs.db, id)
  {
    var before := w.threads[t].st;
    if |before.trace| < 23 {
      var stop, rest := ReviewReachesStop(w, t, review, acts);
      if stop.at == SubmitJob {
        EndsAtSubmit(w, t, stop, rest);
        assert rest[0] == acts[1];
      } else {
        EndsReviewed(w, t, before, review, stop, rest, id);
      }
    }
  }

  // ---------------------------------------------------------------- what trails show

  /** In every reachable state, the trail of a direct request holds nothing but its parse, assemblies and answer. */
  lemma DirectOnlyAnswers(acts: seq<Action>, t: string, i: nat)
    requires Legal(START, acts) && t in After(START, acts).threads
    requires var th := After(START, acts).threads[t]; i < |th.st.trace| && i < |th.notes| && IsDirect(th.notes[i].query)
    ensures var kind := After(START, acts).threads[t].st.trace[i].kind;
      kind == RequestParsed || kind == ContextAssembled || kind == Finalized
  {
    RunKeepsInv(START, acts);
    var th := After(START, acts).threads[t];
    assert InPlace(th.st.trace, th.notes, i);
    WordsDecide(th.notes[i].query);
  }

  /** Whatever is reviewed needed a review. */
  lemma {:induction false} ReviewedNeededReview(th: Thread, i: nat)
    requires TrailOk(th) && i < |th.st.trace| && th.st.trace[i].kind.HumanDecision?
    ensures NeedsApproval(th.notes[i].query)
  {
    assert InPlace(th.st.trace, th.notes, i) && InPlace(th.st.trace, th.notes, i - 1);
    if th.st.trace[i - 2].kind.HumanDecision? {
      ReviewedNeededReview(th, i - 2);
    }
  }

  lemma SubmissionFollows(th: Thread, i: nat)
    requires TrailOk(th) && i < |th.st.trace| && th.st.trace[i].kind.JobSubmitted?
    ensures i >= 2 && th.st.trace[i - 1].kind == ContextAssembled
    ensures th.st.trace[i - 2].kind == HumanDecision(Approved) <==> IsRisky(th.notes[i].query)
    ensures th.st.trace[i - 2].kind == RequestParsed <==> !IsRisky(th.notes[i].query)
  {
    assert InPlace(th.st.trace, th.notes, i) && InPlace(th.st.trace, th.notes, i - 1);
    WordsDecide(th.notes[i].query);
    if th.st.trace[i - 2].kind.HumanDecision? {
      ReviewedNeededReview(th, i - 2);
    }
  }

  /**
   * In every reachable state, a submitted job was approved two events before if and only if its request held a
   * risky word; otherwise it followed from the request alone, though the gate asks for a review of every plan.
   */
  lemma ReviewedExactly(acts: seq<Action>, t: string, i: nat)
    requires Legal(START, acts) && t in After(START, acts).threads
    requires var th := After(START, acts).threads[t];
      i < |th.st.trace| && i < |th.notes| && th.st.trace[i].kind.JobSubmitted?
    ensures var trace, query := After(START, acts).threads[t].st.trace, After(START, acts).threads[t].notes[i].query;
      && i >= 2 && trace[i - 1].kind == ContextAssembled
      && (trace[i - 2].kind == HumanDecision(Approved) <==> IsRisky(query))
      && (trace[i - 2].kind == RequestParsed <==> !IsRisky(query))
  {
    RunKeepsInv(START, acts);
    SubmissionFollows(After(START, acts).threads[t], i);
  }

  /** No plan is ever simply allowed: the gate refuses it, or asks for a review. */
  lemma GateAsksForReview(plan: J.Plan)
    ensures EvaluateToolCall(REGISTRY, ToolOf(plan), {"horizon"}, "researcher")
            == if plan.task.Some? && plan.task.value != "mcp_arima_forecast" then Deny else RouteToHitl
  {
  }
}
