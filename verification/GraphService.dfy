/** The nodes that touch the shared store, and the service that runs a thread until it ends or waits for a review. */
module GraphService {
  import opened Wrappers
  import opened Graph
  import opened Orchestration
  import opened JobStore
  import J = Jobs
  import Durability
  import opened Requests

  method SubmitMcpJobNode(st: State, store: JobStore, nowMs: nat) returns (u: Update)
    requires store.Valid()
    modifies store
    ensures store.Valid()
    ensures u == SubmitJobNode(st, old(store.Contents()), ClockId(nowMs))
    ensures store.Contents() ==
            if Denied(CurrentPlan(st)) then old(store.Contents())
            else J.SubmitTo(old(store.Contents()), Proposed(st, ClockId(nowMs)))
  {
    var plan := CurrentPlan(st);
    var tool := ToolOf(plan);
    if EvaluateToolCall(REGISTRY, tool, {"horizon"}, "researcher") == Deny {
      return Only(SecurityGateBlocked).(status := Some(RunStatus.Failed), errors := [PolicyViolation(tool)]);
    }
    var job := store.SubmitJob(tool, SubmitKey(st.threadId, |st.trace|), plan, nowMs);
    u := Only(JobSubmitted(job.jobId)).(activeJobs := [job.jobId], executing := true, status := Some(WaitingForJob));
  }

  method PollJobStatusNode(st: State, store: JobStore) returns (u: Option<Update>)
    requires store.Valid()
    ensures u == PollJobStatus(st, store.Contents())
  {
    if st.activeJobs == [] {
      return Some(Only(PollSkipped));
    }
    var id := st.activeJobs[|st.activeJobs| - 1];
    var job := store.GetJob(id);
    if job != null {
      assert J.Lookup(store.Contents(), id) == Some(job.Value());
    }
    if job != null && job.status == J.Succeeded {
      if job.result.None? {
        return None;
      }
      u := Some(Only(JobCompleted(id)).(
        completedJobs := [CompletedRef(id)], artifacts := [ArtifactEntry(job.result.value)],
        status := Some(RunStatus.Running)));
    } else if job != null && job.status == J.Status.Failed {
      u := Some(Only(JobFatal(id)).(status := Some(RunStatus.Failed), errors := [JobProblem(id, job.error)]));
    } else {
      u := Some(Only(JobInProgress(id)));
    }
  }

  lemma RunSnoc(w: World, acts: seq<Action>, a: Action)
    requires Legal(w, acts) && Enabled(After(w, acts), a)
    ensures Legal(w, acts + [a]) && After(w, acts + [a]) == Apply(After(w, acts), a)
  {
    OneStep(After(w, acts), a);
    RunAppend(w, acts, [a]);
  }

  class Service {
    var checkpoints: map<string, Thread>
    const store: JobStore

    constructor (store: JobStore)
      ensures this.store == store && checkpoints == map[]
    {
      this.store := store;
      checkpoints := map[];
    }

    /** The whole system as seen from here, given the executions in flight. */
    ghost function View(live: multiset<string>): World
      reads this, store, store.db
    {
      World(checkpoints, J.System(store.Contents(), live))
    }

    /** What the pending node of `th` writes, its store write done. */
    method RunPendingNode(th: Thread, nowMs: nat) returns (u: Update)
      requires store.Valid() && NodeUpdate(th, store.Contents(), ClockId(nowMs)).Some?
      modifies store
      ensures store.Valid() && NodeUpdate(th, old(store.Contents()), ClockId(nowMs)) == Some(u)
      ensures store.Contents() == StoreAfterNode(th, old(store.Contents()), ClockId(nowMs))
    {
      match th.at {
        case Parse => u := ParseRequest(th.st);
        case Assemble => u := AssembleContext(th.st);
        case SubmitJob => u := SubmitMcpJobNode(th.st, store, nowMs);
        case Poll =>
          var result := PollJobStatusNode(th.st, store);
          u := result.value;
        case Finalize => u := FinalizeNode(th.st);
      }
    }

    /** Run the pending node of thread `t` and checkpoint it. */
    method Step(t: string, nowMs: nat, ghost live: multiset<string>)
      requires store.Valid() && Inv(View(live)) && Enabled(View(live), RunNode(t, ClockId(nowMs)))
      modifies this, store
      ensures store.Valid() && View(live) == Apply(old(View(live)), RunNode(t, ClockId(nowMs)))
    {
      var th := checkpoints[t];
      NodeNeverRaises(View(live), t, ClockId(nowMs));
      var u := RunPendingNode(th, nowMs);
      checkpoints := checkpoints[t := Advance(th, u)];
    }

    /**
     * `graph.invoke`: nodes run one after the other until the thread ends or waits for a review; the clock
     * is read afresh at each node.
     */
    method Invoke(t: string, clock: nat -> nat, ghost live: multiset<string>) returns (ghost acts: seq<Action>)
      requires store.Valid() && Inv(View(live)) && t in checkpoints && UnusedIds(store.Contents(), clock)
      modifies this, store
      ensures store.Valid() && t in checkpoints && checkpoints[t].at in {Approve, End}
      ensures Legal(old(View(live)), acts) && View(live) == After(old(View(live)), acts)
      ensures NodesOf(acts, t, clock)
    {
      acts := [];
      ghost var w0 := View(live);
      var i := 0;
      while checkpoints[t].at !in {Approve, End}
        invariant store.Valid() && t in checkpoints && Ready(View(live), t, clock)
        invariant Legal(w0, acts) && View(live) == After(w0, acts) && NodesOf(acts, t, clock) && i == |acts|
        decreases Durability.Fuel(checkpoints[t])
      {
        ReadyStep(View(live), t, clock, i);
        NodesExtend(acts, t, clock);
        RunSnoc(w0, acts, RunNode(t, ClockId(clock(i))));
        Step(t, clock(i), live);
        acts := acts + [RunNode(t, ClockId(clock(i)))];
        i := i + 1;
      }
    }

    /** `run_workflow`: enter with new input, then run. */
    method RunWorkflow(t: string, runId: string, query: Query, clock: nat -> nat, ghost live: multiset<string>)
      returns (ghost acts: seq<Action>)
      requires store.Valid() && Inv(View(live)) && UnusedIds(store.Contents(), clock)
      modifies this, store
      ensures store.Valid() && Inv(View(live)) && t in checkpoints && checkpoints[t].at in {Approve, End}
      ensures var entered := Apply(old(View(live)), Enter(t, runId, query));
        Legal(entered, acts) && View(live) == After(entered, acts) && NodesOf(acts, t, clock)
      ensures var n := if t in old(checkpoints) then |old(checkpoints)[t].st.trace| else 0;
        n + 2 <= |checkpoints[t].st.trace| <= n + Durability.Bound(n)
      ensures LeadsTo(Existing(old(View(live)), t).st, query, t, old(store.Contents()), checkpoints[t],
                      store.Contents(), ClockId(clock(2)))
    {
      ghost var w0 := View(live);
      var th := if t in checkpoints then checkpoints[t] else Thread(NewThread(t), End, []);
      checkpoints := checkpoints[t := Thread(EnterState(th.st, runId, query), Parse, th.notes)];
      ghost var w1 := View(live);
      assert w1 == Apply(w0, Enter(t, runId, query));
      StepKeepsInv(w0, Enter(t, runId, query));
      acts := Invoke(t, clock, live);
      RunKeepsInv(w1, acts);
      AllAreNodes(acts, t);
      Durability.NodesRunBound(w1, acts, t);
      AtLeastTwo(w1, t, clock, acts);
      InvocationLeadsTo(w0, t, runId, query, acts, ClockId(clock(2)));
    }

    /** `resume_workflow`: hand the review to the waiting node, then run. */
    method ResumeWorkflow(t: string, review: Review, clock: nat -> nat, ghost live: multiset<string>)
      returns (ghost acts: seq<Action>)
      requires store.Valid() && Inv(View(live)) && Enabled(View(live), Resume(t, review))
      requires UnusedIds(store.Contents(), clock)
      modifies this, store
      ensures store.Valid() && Inv(View(live)) && t in checkpoints && checkpoints[t].at in {Approve, End}
      ensures var resumed := Apply(old(View(live)), Resume(t, review));
        Legal(resumed, acts) && View(live) == After(resumed, acts) && NodesOf(acts, t, clock)
      ensures ReviewLeadsTo(old(checkpoints)[t].st, review, t, old(store.Contents()), checkpoints[t],
                            store.Contents(), ClockId(clock(1)))
    {
      ghost var w0 := View(live);
      var th := checkpoints[t];
      checkpoints := checkpoints[t := Advance(th, HumanApproval(th.st, review))];
      StepKeepsInv(w0, Resume(t, review));
      assert View(live) == Apply(w0, Resume(t, review));
      ghost var w1 := View(live);
      acts := Invoke(t, clock, live);
      RunKeepsInv(w1, acts);
      ReviewInvocation(w0, t, review, acts, ClockId(clock(1)));
    }
  }

  /** No reading of the clock gives an id that is already stored. */
  ghost predicate UnusedIds(db: seq<J.Job>, clock: nat -> nat) { forall i: nat :: !J.HasId(db, ClockId(clock(i))) }

  /** `acts` are the nodes of one invocation. */
  ghost predicate NodesOf(acts: seq<Action>, t: string, clock: nat -> nat) {
    forall i :: 0 <= i < |acts| ==> acts[i] == RunNode(t, ClockId(clock(i)))
  }

  lemma NodeNeverRaises(w: World, t: string, clockId: string)
    requires Inv(w) && Enabled(w, RunNode(t, clockId))
    ensures NodeUpdate(w.threads[t], w.jobs.db, clockId).Some?
  {
    if w.threads[t].at == Poll { PollNeverRaises(w, t); }
  }

  /** The invocation may go on: either it is over, or the clock ids are still unused. */
  ghost predicate Ready(w: World, t: string, clock: nat -> nat) {
    Inv(w) && t in w.threads && (w.threads[t].at in {Approve, End} || UnusedIds(w.jobs.db, clock))
  }

  lemma ReadyStep(w: World, t: string, clock: nat -> nat, i: nat)
    requires Ready(w, t, clock) && w.threads[t].at !in {Approve, End}
    ensures var a := RunNode(t, ClockId(clock(i)));
      && Enabled(w, a) && Ready(Apply(w, a), t, clock)
      && 0 < Durability.Fuel(w.threads[t]) && Durability.Fuel(Apply(w, a).threads[t]) < Durability.Fuel(w.threads[t])
  {
    var id := ClockId(clock(i));
    StepKeepsInv(w, RunNode(t, id));
    Durability.FuelStep(w, RunNode(t, id), t);
    StoreAfterOneNode(w, t, id);
    assert ThreadOk(t, w.threads[t]);
  }

  lemma NodesExtend(acts: seq<Action>, t: string, clock: nat -> nat)
    requires NodesOf(acts, t, clock)
    ensures NodesOf(acts + [RunNode(t, ClockId(clock(|acts|)))], t, clock)
  {
  }

  lemma StoreAfterOneNode(w: World, t: string, clockId: string)
    requires Inv(w) && Enabled(w, RunNode(t, clockId))
    ensures Apply(w, RunNode(t, clockId)).threads[t].at == End || Apply(w, RunNode(t, clockId)).jobs == w.jobs
  {
    NodeNeverRaises(w, t, clockId);
  }

  lemma {:induction false} AllAreNodes(acts: seq<Action>, t: string)
    requires forall i :: 0 <= i < |acts| ==> acts[i].RunNode? && acts[i].t == t
    ensures Durability.NodesRun(acts, t) == |acts| && Durability.NoEntry(acts, t)
    decreases |acts|
  {
    if acts != [] {
      AllAreNodes(acts[1..], t);
    }
  }

  /** An entered run parses and assembles before it can end. */
  lemma AtLeastTwo(w: World, t: string, clock: nat -> nat, acts: seq<Action>)
    requires Inv(w) && t in w.threads && w.threads[t].at == Parse && Legal(w, acts) && NodesOf(acts, t, clock)
    requires t in After(w, acts).threads && After(w, acts).threads[t].at in {Approve, End}
    ensures |acts| >= 2
  {
    assert |acts| == 1 ==> After(w, acts) == After(Apply(w, acts[0]), []);
  }
}
