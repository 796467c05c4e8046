/** The world as the job store sees it: a run of the job system, with its turns, wake-ups and requests. */
module Projection {
  import opened Wrappers
  import opened Graph
  import opened Orchestration
  import J = Jobs
  import JobRuns

  /** The step of the job system that a step of the world performs, if any. */
  function StepOf(w: World, a: Action): Option<J.Action> {
    match a
    case Background(step) => Some(step)
    case RunNode(t, clockId) => SubmissionOf(w, t, clockId)
    case CrashInSubmit(t, clockId) => SubmissionOf(w, t, clockId)
    case _ => None
  }

  function SubmissionOf(w: World, t: string, clockId: string): Option<J.Action> {
    if t in w.threads && w.threads[t].at == SubmitJob && !Denied(CurrentPlan(w.threads[t].st)) then
      var job := Proposed(w.threads[t].st, clockId);
      Some(J.Submit(job.id, job.jobType, job.key, job.payload, job.maxAttempts))
    else None
  }

  /** Every step of the world is one step of the job system, or leaves it alone. */
  lemma StepProjects(w: World, a: Action)
    requires Inv(w) && Enabled(w, a)
    ensures match StepOf(w, a)
      case None => Apply(w, a).jobs == w.jobs
      case Some(s) => J.Enabled(w.jobs, s) && Apply(w, a).jobs == J.Apply(w.jobs, s)
  {
    match a
    case RunNode(t, clockId) => NodeProjects(w, t, clockId);
    case CrashInSubmit(t, clockId) => SubmissionProjects(w, w.threads[t], clockId);
    case _ =>
  }

  lemma SubmissionProjects(w: World, th: Thread, clockId: string)
    requires th.at == SubmitJob && !J.HasId(w.jobs.db, clockId)
    ensures var job := Proposed(th.st, clockId);
      var s := J.Submit(job.id, job.jobType, job.key, job.payload, job.maxAttempts);
      && J.Enabled(w.jobs, s)
      && (!Denied(CurrentPlan(th.st)) ==> w.jobs.(db := StoreAfterNode(th, w.jobs.db, clockId)) == J.Apply(w.jobs, s))
  {
  }

  lemma NodeProjects(w: World, t: string, clockId: string)
    requires Inv(w) && Enabled(w, RunNode(t, clockId))
    ensures match SubmissionOf(w, t, clockId)
      case None => Apply(w, RunNode(t, clockId)).jobs == w.jobs
      case Some(s) => J.Enabled(w.jobs, s) && Apply(w, RunNode(t, clockId)).jobs == J.Apply(w.jobs, s)
  {
    if w.threads[t].at == Poll {
      PollNeverRaises(w, t);
    } else if w.threads[t].at == SubmitJob {
      SubmissionProjects(w, w.threads[t], clockId);
    }
  }

  ghost function RunOf(w: World, acts: seq<Action>): seq<J.Action>
    decreases |acts|
  {
    if acts == [] then []
    else
      var rest := RunOf(Apply(w, acts[0]), acts[1..]);
      match StepOf(w, acts[0])
      case None => rest
      case Some(s) => [s] + rest
  }

  predicate IsTurn(a: Action) { a == Background(J.LoopTurn) }

  /** The worker's loop turns in a run of the world. */
  function LoopTurns(acts: seq<Action>): nat {
    if acts == [] then 0 else (if IsTurn(acts[0]) then 1 else 0) + LoopTurns(acts[1..])
  }

  lemma {:induction false} RunIsLegal(w: World, acts: seq<Action>)
    requires Inv(w) && Legal(w, acts)
    ensures J.Legal(w.jobs, RunOf(w, acts)) && J.After(w.jobs, RunOf(w, acts)) == After(w, acts).jobs
    decreases |acts|
  {
    if acts != [] {
      StepProjects(w, acts[0]);
      StepKeepsInv(w, acts[0]);
      RunIsLegal(Apply(w, acts[0]), acts[1..]);
      if StepOf(w, acts[0]).Some? {
        JobRuns.RunCons(w.jobs, StepOf(w, acts[0]).value, RunOf(Apply(w, acts[0]), acts[1..]));
      }
    }
  }

  lemma TurnOf(w: World, a: Action)
    ensures IsTurn(a) <==> StepOf(w, a) == Some(J.LoopTurn)
    ensures StepOf(w, a).Some? ==> StepOf(w, a).value.Submit? || Background(StepOf(w, a).value) == a
  {
  }

  lemma TurnsCons(s: J.Action, rest: seq<J.Action>)
    ensures JobRuns.Turns([s] + rest) == (if s == J.LoopTurn then 1 else 0) + JobRuns.Turns(rest)
  {
    assert ([s] + rest)[1..] == rest;
  }

  lemma {:induction false} RunHasTurns(w: World, acts: seq<Action>)
    ensures JobRuns.Turns(RunOf(w, acts)) == LoopTurns(acts)
    decreases |acts|
  {
    if acts != [] {
      TurnOf(w, acts[0]);
      RunHasTurns(Apply(w, acts[0]), acts[1..]);
      if StepOf(w, acts[0]).Some? {
        TurnsCons(StepOf(w, acts[0]).value, RunOf(Apply(w, acts[0]), acts[1..]));
      }
    }
  }

  lemma {:induction false} RunIsOfTheWorld(w: World, acts: seq<Action>)
    ensures forall s :: s in RunOf(w, acts) ==> s.Submit? || Background(s) in acts
    decreases |acts|
  {
    if acts != [] {
      TurnOf(w, acts[0]);
      RunIsOfTheWorld(Apply(w, acts[0]), acts[1..]);
      assert acts == [acts[0]] + acts[1..];
    }
  }

  /**
   * A run of the world shows the job store a run of the job system that has the same loop turns, and
   * whose every step is a submission or one that the world performed in the background.
   */
  lemma RunProjects(w: World, acts: seq<Action>)
    requires Inv(w) && Legal(w, acts)
    ensures J.Legal(w.jobs, RunOf(w, acts)) && J.After(w.jobs, RunOf(w, acts)) == After(w, acts).jobs
    ensures JobRuns.Turns(RunOf(w, acts)) == LoopTurns(acts)
    ensures forall s :: s in RunOf(w, acts) ==> s.Submit? || Background(s) in acts
  {
    RunIsLegal(w, acts);
    RunHasTurns(w, acts);
    RunIsOfTheWorld(w, acts);
  }

  /** All that workers ever do is paid for by the attempts granted and the cancellations asked for. */
  lemma WorldWorkBound(acts: seq<Action>)
    requires Legal(START, acts)
    ensures JobRuns.RunWork(J.EMPTY, RunOf(START, acts)) <= JobRuns.RunGranted(J.EMPTY, RunOf(START, acts))
  {
    RunProjects(START, acts);
    JobRuns.WorkBound(RunOf(START, acts));
  }

  // ---------------------------------------------------------------- waiting

  /** The step of the world by which queued job `i` stops being queued. */
  predicate Leaves(w: World, a: Action, i: nat)
    requires i < |w.jobs.db|
  {
    a.Background? && JobRuns.Dequeued(w.jobs, a.step, i)
  }

  lemma WorldQueuedStep(w: World, a: Action, i: nat)
    requires Inv(w) && Enabled(w, a) && JobRuns.IsQueued(w.jobs, i) && !Leaves(w, a, i)
    ensures JobRuns.IsQueued(Apply(w, a).jobs, i)
    ensures JobRuns.Backlog(Apply(w, a).jobs.db, i) == JobRuns.Backlog(w.jobs.db, i) - if IsTurn(a) then 1 else 0
  {
    StepProjects(w, a);
    if StepOf(w, a).Some? {
      JobRuns.QueuedStep(w.jobs, StepOf(w, a).value, i);
    }
  }

  lemma PrefixCons(w: World, acts: seq<Action>, m: nat)
    requires m < |acts| && Enabled(w, acts[0]) && Legal(Apply(w, acts[0]), acts[1..][..m])
    ensures Legal(w, acts[..m + 1]) && After(w, acts[..m + 1]) == After(Apply(w, acts[0]), acts[1..][..m])
    ensures LoopTurns(acts[..m + 1]) == LoopTurns(acts[1..][..m]) + if IsTurn(acts[0]) then 1 else 0
  {
    assert acts[..m + 1][0] == acts[0] && acts[..m + 1][1..] == acts[1..][..m];
  }

  /**
   * Whatever the graph, the clients and the worker do: a job queued behind a backlog of `b` attempts
   * leaves the queue within `b + 1` loop turns, claimed unless its own cancellation was asked for.
   */
  lemma {:induction false} WorldBoundedWaiting(w: World, acts: seq<Action>, i: nat) returns (n: nat)
    requires Inv(w) && Legal(w, acts) && JobRuns.IsQueued(w.jobs, i)
    requires LoopTurns(acts) > JobRuns.Backlog(w.jobs.db, i)
    ensures n < |acts| && Legal(w, acts[..n]) && LoopTurns(acts[..n]) <= JobRuns.Backlog(w.jobs.db, i)
    ensures JobRuns.IsQueued(After(w, acts[..n]).jobs, i) && Leaves(After(w, acts[..n]), acts[n], i)
    decreases |acts|
  {
    JobRuns.BacklogNonNegative(w.jobs, i);
    if Leaves(w, acts[0], i) {
      n := 0;
    } else {
      WorldQueuedStep(w, acts[0], i);
      StepKeepsInv(w, acts[0]);
      var m := WorldBoundedWaiting(Apply(w, acts[0]), acts[1..], i);
      n := m + 1;
      PrefixCons(w, acts, m);
    }
  }
}
