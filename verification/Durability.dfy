/** What the durable workflow guarantees over whole runs, and where it stops guaranteeing it. */
module Durability {
  import opened Wrappers
  import opened Graph
  import opened Orchestration
  import J = Jobs

  // ---------------------------------------------------------------- submission happens once

  /** A new run was entered at step `n`, over whatever was pending there. */
  predicate EnteredAt(th: Thread, n: nat) {
    if n < |th.st.trace| then th.st.trace[n].kind == RequestParsed else n == |th.st.trace| && th.at == Parse
  }

  /** Every stored job of a thread is its own, recorded or pending, unless a new run entered at its step. */
  lemma OwnedExactly(acts: seq<Action>, t: string, k: nat, n: nat)
    requires Legal(START, acts) && k < |After(START, acts).jobs.db|
    requires After(START, acts).jobs.db[k].key == SubmitKey(t, n)
    ensures var w := After(START, acts);
      t in w.threads && (Owned(w.threads[t], w.jobs.db[k], n) <==> !EnteredAt(w.threads[t], n))
  {
    RunKeepsInv(START, acts);
    var w := After(START, acts);
    assert Accounted(w.threads[t], w.jobs.db[k], n);
  }

  /** Whatever crashes and replays, a thread owns at most one stored job: one at whose step no new run entered. */
  lemma OneJobPerThread(acts: seq<Action>, t: string, k: nat, n: nat, m: nat, i: nat)
    requires Legal(START, acts) && t in After(START, acts).threads
    requires !EnteredAt(After(START, acts).threads[t], n) && !EnteredAt(After(START, acts).threads[t], i)
    requires k < |After(START, acts).jobs.db| && m < |After(START, acts).jobs.db|
    requires After(START, acts).jobs.db[k].key == SubmitKey(t, n)
    requires After(START, acts).jobs.db[m].key == SubmitKey(t, i)
    ensures k == m && n == i
  {
    RunKeepsInv(START, acts);
    OwnedExactly(acts, t, k, n);
    OwnedExactly(acts, t, m, i);
    var w := After(START, acts);
    OwnedOnce(t, w.threads[t], w.jobs.db[k], n, w.jobs.db[m], i);
  }

  lemma OwnedOnce(t: string, th: Thread, j: J.Job, n: nat, j': J.Job, i: nat)
    requires ThreadOk(t, th) && Owned(th, j, n) && Owned(th, j', i)
    ensures n == i
  {
  }

  /** Nothing in `acts` starts a new run of thread `t` or completes its pending node. */
  predicate LeavesPending(acts: seq<Action>, t: string) {
    forall i :: 0 <= i < |acts| ==> !(acts[i].Enter? && acts[i].t == t) && !(acts[i].RunNode? && acts[i].t == t)
  }

  lemma StepKeepsKeys(w: World, a: Action)
    requires Inv(w) && Enabled(w, a)
    ensures J.StoreExtends(w.jobs.db, Apply(w, a).jobs.db)
  {
    match a
    case Background(step) => J.StepKeepsJobs(w.jobs, step);
    case RunNode(t, clockId) => WriteExtends(w, w.threads[t], clockId);
    case CrashInSubmit(t, clockId) => WriteExtends(w, w.threads[t], clockId);
    case _ =>
  }

  lemma StoreExtendsTrans(a: seq<J.Job>, b: seq<J.Job>, c: seq<J.Job>)
    requires J.StoreExtends(a, b) && J.StoreExtends(b, c)
    ensures J.StoreExtends(a, c)
  {
    forall k | 0 <= k < |a| ensures J.SameJob(a[k], c[k]) {
      assert J.SameJob(a[k], b[k]) && J.SameJob(b[k], c[k]);
    }
  }

  lemma PendingSubmitStep(w: World, a: Action, t: string)
    requires Inv(w) && Enabled(w, a) && t in w.threads && w.threads[t].at == SubmitJob
    requires !(a.Enter? && a.t == t) && !(a.RunNode? && a.t == t)
    ensures t in Apply(w, a).threads && Apply(w, a).threads[t] == w.threads[t]
  {
  }

  lemma {:induction false} PendingSubmitStands(w: World, acts: seq<Action>, t: string)
    requires Inv(w) && Legal(w, acts) && LeavesPending(acts, t)
    requires t in w.threads && w.threads[t].at == SubmitJob
    ensures Inv(After(w, acts)) && t in After(w, acts).threads && After(w, acts).threads[t] == w.threads[t]
    ensures J.StoreExtends(w.jobs.db, After(w, acts).jobs.db)
    decreases |acts|
  {
    if acts != [] {
      StepKeepsInv(w, acts[0]);
      StepKeepsKeys(w, acts[0]);
      PendingSubmitStep(w, acts[0], t);
      PendingSubmitStands(Apply(w, acts[0]), acts[1..], t);
      StoreExtendsTrans(w.jobs.db, Apply(w, acts[0]).jobs.db, After(w, acts).jobs.db);
    }
  }

  /** The crashed write is found again in any later store, under the id it was given. */
  lemma CrashedWriteIsFound(w: World, t: string, firstId: string, db: seq<J.Job>, replayId: string)
    requires Inv(w) && Enabled(w, CrashInSubmit(t, firstId)) && !Denied(CurrentPlan(w.threads[t].st))
    requires J.StoreExtends(Apply(w, CrashInSubmit(t, firstId)).jobs.db, db) && J.DistinctKeys(db)
    ensures var st := w.threads[t].st;
      && J.SubmitTo(db, Proposed(st, replayId)) == db
      && J.SubmittedId(db, Proposed(st, replayId)) == J.SubmittedId(w.jobs.db, Proposed(st, firstId))
  {
    var st := w.threads[t].st;
    var key := SubmitKey(t, |st.trace|);
    var w1 := Apply(w, CrashInSubmit(t, firstId));
    WriteExtends(w, w.threads[t], firstId);
    var k := J.WithKey(w.jobs.db, key);
    assert w1.jobs.db[k].key == key && w1.jobs.db[k].id == J.SubmittedId(w.jobs.db, Proposed(st, firstId));
    assert J.SameJob(w1.jobs.db[k], db[k]);
    J.WithKeyIs(db, key, k);
  }

  /**
   * A submit node crashes after its store write.  Whatever anybody else does meanwhile, including more
   * crashed replays of it, the replay that completes leaves the thread exactly as the crash-free node
   * would have, with the same job id, and adds nothing to the store.
   */
  lemma ReplayedSubmitIsExactlyOnce(w: World, t: string, firstId: string, acts: seq<Action>, replayId: string)
    requires Inv(w) && Enabled(w, CrashInSubmit(t, firstId)) && Enabled(w, RunNode(t, firstId))
    requires Legal(Apply(w, CrashInSubmit(t, firstId)), acts) && LeavesPending(acts, t)
    requires Enabled(After(Apply(w, CrashInSubmit(t, firstId)), acts), RunNode(t, replayId))
    ensures var before := After(Apply(w, CrashInSubmit(t, firstId)), acts);
      var after := Apply(before, RunNode(t, replayId));
      && after.threads[t] == Apply(w, RunNode(t, firstId)).threads[t]
      && after.jobs == before.jobs
  {
    ReplayFinds(w, t, firstId, acts, replayId);
    var before := After(Apply(w, CrashInSubmit(t, firstId)), acts);
    ReplayWritesTheSame(w.threads[t], w.jobs.db, firstId, before.jobs.db, replayId);
  }

  /** The replay starts from the thread that crashed and finds what the crashed node wrote. */
  lemma ReplayFinds(w: World, t: string, firstId: string, acts: seq<Action>, replayId: string)
    requires Inv(w) && Enabled(w, CrashInSubmit(t, firstId))
    requires Legal(Apply(w, CrashInSubmit(t, firstId)), acts) && LeavesPending(acts, t)
    ensures var before := After(Apply(w, CrashInSubmit(t, firstId)), acts);
      var st := w.threads[t].st;
      && t in before.threads && before.threads[t] == w.threads[t]
      && (!Denied(CurrentPlan(st)) ==>
            J.SubmitTo(before.jobs.db, Proposed(st, replayId)) == before.jobs.db
            && J.SubmittedId(before.jobs.db, Proposed(st, replayId)) == J.SubmittedId(w.jobs.db, Proposed(st, firstId)))
  {
    var w1 := Apply(w, CrashInSubmit(t, firstId));
    StepKeepsInv(w, CrashInSubmit(t, firstId));
    PendingSubmitStands(w1, acts, t);
    if !Denied(CurrentPlan(w.threads[t].st)) {
      CrashedWriteIsFound(w, t, firstId, After(w1, acts).jobs.db, replayId);
    }
  }

  lemma ReplayWritesTheSame(th: Thread, db: seq<J.Job>, firstId: string, db': seq<J.Job>, replayId: string)
    requires th.at == SubmitJob
    requires !Denied(CurrentPlan(th.st)) ==>
      J.SubmitTo(db', Proposed(th.st, replayId)) == db'
      && J.SubmittedId(db', Proposed(th.st, replayId)) == J.SubmittedId(db, Proposed(th.st, firstId))
    ensures NodeUpdate(th, db', replayId) == NodeUpdate(th, db, firstId)
    ensures StoreAfterNode(th, db', replayId) == db'
  {
  }

  /**
   * Exactly-once is for the replay path.  Entering a new run leaves the thread every job it owned if and
   * only if no submit of that thread is written and not checkpointed.
   */
  lemma EnterKeepsLedgerExactly(w: World, t: string, runId: string, query: Query)
    requires Inv(w) && t in w.threads
    ensures (forall k, n ::
              0 <= k < |w.jobs.db| && w.jobs.db[k].key == SubmitKey(t, n) && Owned(w.threads[t], w.jobs.db[k], n) ==>
              Owned(Apply(w, Enter(t, runId, query)).threads[t], w.jobs.db[k], n))
            <==> !WrittenNotCheckpointed(w, t)
  {
    if WrittenNotCheckpointed(w, t) {
      var th := w.threads[t];
      var k := J.WithKey(w.jobs.db, SubmitKey(t, |th.st.trace|));
      assert w.jobs.db[k].key == SubmitKey(t, |th.st.trace|);
      assert Accounted(th, w.jobs.db[k], |th.st.trace|);
      assert !Owned(Apply(w, Enter(t, runId, query)).threads[t], w.jobs.db[k], |th.st.trace|);
    }
  }

  // ---------------------------------------------------------------- ownership and agreement

  /** No two threads wait for the same job. */
  lemma ThreadsOwnTheirJobs(acts: seq<Action>, t: string, u: string)
    requires Legal(START, acts) && t in After(START, acts).threads && u in After(START, acts).threads
    requires After(START, acts).threads[t].st.activeJobs != []
    requires After(START, acts).threads[t].st.activeJobs == After(START, acts).threads[u].st.activeJobs
    ensures t == u
  {
    RunKeepsInv(START, acts);
    var w := After(START, acts);
    var i, k :| 0 <= k < |w.jobs.db| && w.jobs.db[k].id == w.threads[t].st.activeJobs[0]
      && RecordedAt(t, w.threads[t], i, w.jobs.db[k]);
    var m, l :| 0 <= l < |w.jobs.db| && w.jobs.db[l].id == w.threads[u].st.activeJobs[0]
      && RecordedAt(u, w.threads[u], m, w.jobs.db[l]);
    assert k == l;
    SubmitKeyInjective(t, i, u, m);
  }

  lemma PendingIffNotCompleted(st: State)
    requires JobsOk(st) && st.activeJobs != []
    ensures HasPendingJob(st) <==> st.completedJobs == []
  {
    var id := st.activeJobs[0];
    assert st.activeJobs == [id];
    if st.completedJobs == [] {
      assert id in st.activeJobs && Some(id) !in CompletedIds(st);
    } else {
      assert CompletedRef(id) in st.completedJobs;
      assert Some(id) in CompletedIds(st);
    }
  }

  /**
   * Graph and store agree: the last active job is the only one, it is stored under this thread's key, it
   * is the pending job exactly when it is not completed, and what is recorded as completed succeeded and
   * left the recorded artifact.
   */
  lemma GraphAgreesWithStore(acts: seq<Action>, t: string) returns (n: nat)
    requires Legal(START, acts) && t in After(START, acts).threads && After(START, acts).threads[t].st.activeJobs != []
    ensures AgreesWithStore(t, After(START, acts).threads[t], After(START, acts).jobs.db, n)
  {
    RunKeepsInv(START, acts);
    n := AgreesInState(After(START, acts), t);
  }

  predicate AgreesWithStore(t: string, th: Thread, db: seq<J.Job>, n: nat) {
    && |th.st.activeJobs| == 1
    && var job := J.Lookup(db, th.st.activeJobs[|th.st.activeJobs| - 1]);
    && job.Some? && RecordedAt(t, th, n, job.value)
    && (HasPendingJob(th.st) <==> th.st.completedJobs == [])
    && (th.st.completedJobs != [] ==>
      && job.value.status == J.Succeeded && job.value.result == Some(J.ArtifactOf(job.value.id))
      && th.st.completedJobs == [CompletedRef(job.value.id)]
          && th.st.artifacts == [ArtifactEntry(job.value.result.value)])
  }

  lemma AgreesInState(w: World, t: string) returns (n: nat)
    requires Inv(w) && t in w.threads && w.threads[t].st.activeJobs != []
    ensures AgreesWithStore(t, w.threads[t], w.jobs.db, n)
  {
    var th, db := w.threads[t], w.jobs.db;
    PendingIffNotCompleted(th.st);
    var i: nat, k :| 0 <= k < |db| && db[k].id == th.st.activeJobs[0] && RecordedAt(t, th, i, db[k]);
    n := i;
    J.UniqueId(db, k);
    assert [db[k].id] == th.st.activeJobs;
    assert J.JobOk(db[k], w.jobs.live[db[k].id]);
  }

  // ---------------------------------------------------------------- approval

  /** Two events before step `n`, the submission of `job` at step `n` was cleared. */
  predicate ClearedForStep(th: Thread, n: nat, job: J.Job) {
    && 2 <= n <= |th.st.trace| == |th.notes|
    && th.st.trace[n - 1].kind == ContextAssembled
    && ((th.st.trace[n - 2].kind == HumanDecision(Approved) && job.payload == th.notes[n - 2].plan)
        || (th.st.trace[n - 2].kind == RequestParsed && !NeedsApproval(th.notes[n - 2].query)))
  }

  lemma AccountedIsCleared(t: string, th: Thread, job: J.Job, n: nat)
    requires ThreadOk(t, th) && Accounted(th, job, n)
    ensures ClearedForStep(th, n, job) && !Denied(job.payload)
  {
    if n < |th.st.trace| {
      assert InPlace(th.st.trace, th.notes, n);
    }
    assert InPlace(th.st.trace, th.notes, n - 1);
  }

  /**
   * Every job a thread ever stored, checkpointed or not, passed the policy gate and was cleared two
   * events earlier: by an approval, and then its payload is the plan as that approval left it, or by a
   * request that needs no approval.
   */
  lemma ApprovalSafety(acts: seq<Action>, t: string, k: nat, n: nat)
    requires Legal(START, acts) && k < |After(START, acts).jobs.db|
    requires After(START, acts).jobs.db[k].key == SubmitKey(t, n)
    ensures var w := After(START, acts);
      t in w.threads && ClearedForStep(w.threads[t], n, w.jobs.db[k]) && !Denied(w.jobs.db[k].payload)
  {
    RunKeepsInv(START, acts);
    var w := After(START, acts);
    AccountedIsCleared(t, w.threads[t], w.jobs.db[k], n);
  }

  /** In every reachable state the audit trail is numbered by position and each event has its place. */
  lemma AuditTrailInOrder(acts: seq<Action>, t: string)
    requires Legal(START, acts) && t in After(START, acts).threads
    ensures var th := After(START, acts).threads[t];
      TrailOk(th) && forall i :: 0 <= i < |th.st.trace| ==> th.st.trace[i].step == i
  {
    RunKeepsInv(START, acts);
    var th := After(START, acts).threads[t];
    forall i | 0 <= i < |th.st.trace| ensures th.st.trace[i].step == i {
      assert InPlace(th.st.trace, th.notes, i);
    }
  }

  /**
   * Within one epoch, that is after a parsed request at `p`, everything between the request and a
   * submission is context assembly and edits, up to one approval two events before the submission.
   * So a rejection excludes submission, and an edit is always followed by another decision.
   */
  lemma {:induction false} EpochDecisions(th: Thread, p: nat, n: nat, i: nat)
    requires TrailOk(th) && p < i < n < |th.st.trace| && th.st.trace[n].kind.JobSubmitted?
    requires forall j :: p < j < n ==> th.st.trace[j].kind != RequestParsed
    ensures th.st.trace[i].kind == (
      if i == n - 1 then ContextAssembled
      else if i == n - 2 then HumanDecision(Approved)
      else if (n - i) % 2 == 1 then ContextAssembled
      else HumanDecision(Edited))
    decreases n - i
  {
    assert InPlace(th.st.trace, th.notes, n);
    if i < n - 2 {
      EpochDecisions(th, p, n, i + 1);
      EpochDecisions(th, p, n, i + 2);
      assert InPlace(th.st.trace, th.notes, i + 1);
      assert InPlace(th.st.trace, th.notes, i + 2);
    }
  }

  /** A request that needed approval was submitted only after its approval. */
  lemma NoSubmitWithoutApproval(th: Thread, p: nat, n: nat)
    requires TrailOk(th) && p < n < |th.st.trace| && th.st.trace[n].kind.JobSubmitted?
    requires th.st.trace[p].kind == RequestParsed && NeedsApproval(th.notes[p].query)
    requires forall j :: p < j < n ==> th.st.trace[j].kind != RequestParsed
    ensures p < n - 2 && th.st.trace[n - 2].kind == HumanDecision(Approved)
    ensures (n - p) % 2 == 0
  {
    assert InPlace(th.st.trace, th.notes, n);
    if p < n - 2 {
      EpochDecisions(th, p, n, p + 1);
      assert InPlace(th.st.trace, th.notes, p + 1);
      EpochDecisions(th, p, n, n - 2);
    }
  }

  // ---------------------------------------------------------------- termination

  /**
   * Nodes that may still run before the thread ends, resumes included.  Assembly and the node it leads to
   * alternate, so the parity of the trail decides whether the last place before the guard is of use.
   */
  function Fuel(th: Thread): int {
    var n := |th.st.trace|;
    match th.at
    case Parse => if n < 24 then 26 - n - n % 2 else 2
    case Assemble => if n < 25 then 26 - n - (n + 1) % 2 else 1
    case Finalize => 1
    case End => 0
    case _ => 26 - n - n % 2
  }

  /** What a run entered at `n` events may execute. */
  function Bound(n: nat): nat { if n < 24 then 26 - n - n % 2 else 2 }

  predicate Advances(a: Action, t: string) { (a.RunNode? || a.Resume?) && a.t == t }

  function NodesRun(acts: seq<Action>, t: string): nat {
    if acts == [] then 0 else (if Advances(acts[0], t) then 1 else 0) + NodesRun(acts[1..], t)
  }

  ghost predicate NoEntry(acts: seq<Action>, t: string) {
    forall i :: 0 <= i < |acts| ==> !(acts[i].Enter? && acts[i].t == t)
  }

  lemma NodeBurnsFuel(t: string, th: Thread, u: Update)
    requires ThreadOk(t, th) && th.at != End
    ensures Fuel(Advance(th, u)) < Fuel(th) && |Advance(th, u).st.trace| == |th.st.trace| + 1
  {
  }

  lemma OthersStandStill(w: World, a: Action, t: string)
    requires t in w.threads && !Advances(a, t) && !(a.Enter? && a.t == t)
    ensures t in Apply(w, a).threads && Apply(w, a).threads[t] == w.threads[t]
  {
  }

  lemma FuelStep(w: World, a: Action, t: string)
    requires Inv(w) && Enabled(w, a) && !(a.Enter? && a.t == t) && t in w.threads
    ensures t in Apply(w, a).threads
    ensures Advances(a, t) ==> Fuel(Apply(w, a).threads[t]) < Fuel(w.threads[t])
    ensures |Apply(w, a).threads[t].st.trace| == |w.threads[t].st.trace| + if Advances(a, t) then 1 else 0
    ensures !Advances(a, t) ==> Apply(w, a).threads[t] == w.threads[t]
  {
    var th := w.threads[t];
    if a.RunNode? && a.t == t {
      if th.at == Poll { PollNeverRaises(w, t); }
      NodeBurnsFuel(t, th, NodeUpdate(th, w.jobs.db, a.clockId).value);
    } else if a.Resume? && a.t == t {
      NodeBurnsFuel(t, th, HumanApproval(th.st, a.review));
    } else {
      OthersStandStill(w, a, t);
    }
  }

  lemma NoEntryRest(acts: seq<Action>, t: string)
    requires acts != [] && NoEntry(acts, t)
    ensures !(acts[0].Enter? && acts[0].t == t) && NoEntry(acts[1..], t)
  {
  }

  /** Until its next entry a thread runs at most as many nodes as it has fuel, each writing one event. */
  lemma {:induction false} NodesRunBound(w: World, acts: seq<Action>, t: string)
    requires Inv(w) && Legal(w, acts) && t in w.threads && NoEntry(acts, t)
    ensures NodesRun(acts, t) <= Fuel(w.threads[t])
    ensures t in After(w, acts).threads
    ensures |After(w, acts).threads[t].st.trace| == |w.threads[t].st.trace| + NodesRun(acts, t)
    decreases |acts|
  {
    if acts == [] {
      assert ThreadOk(t, w.threads[t]);
    } else {
      NoEntryRest(acts, t);
      FuelStep(w, acts[0], t);
      StepKeepsInv(w, acts[0]);
      NodesRunBound(Apply(w, acts[0]), acts[1..], t);
    }
  }

  /**
   * A run entered at `n` events executes at most max(2, 26 - n - n % 2) nodes, counting every resume,
   * until the thread is entered again, whatever the store, the worker and the other threads do.
   */
  lemma RunTerminates(w: World, t: string, runId: string, query: Query, acts: seq<Action>)
    requires Inv(w) && Legal(Apply(w, Enter(t, runId, query)), acts) && NoEntry(acts, t)
    ensures NodesRun(acts, t) <= Bound(|Existing(w, t).st.trace|)
  {
    StepKeepsInv(w, Enter(t, runId, query));
    NodesRunBound(Apply(w, Enter(t, runId, query)), acts, t);
  }

  // ---------------------------------------------------------------- the bound is reached

  /** `acts` is a run from `w` to `w'` that enters thread `t` nowhere and runs `n` of its nodes. */
  ghost predicate Runs(w: World, acts: seq<Action>, w': World, t: string, n: nat) {
    Legal(w, acts) && After(w, acts) == w' && NoEntry(acts, t) && NodesRun(acts, t) == n
  }

  lemma RunConcat(w: World, xs: seq<Action>, w1: World, ys: seq<Action>, w2: World, t: string, n: nat, m: nat)
    requires Runs(w, xs, w1, t, n) && Runs(w1, ys, w2, t, m)
    ensures Runs(w, xs + ys, w2, t, n + m)
  {
    RunAppend(w, xs, ys);
    NodesConcat(xs, ys, t);
  }

  lemma {:induction false} NodesConcat(xs: seq<Action>, ys: seq<Action>, t: string)
    ensures NodesRun(xs + ys, t) == NodesRun(xs, t) + NodesRun(ys, t)
    decreases |xs|
  {
    if xs == [] {
      assert xs + ys == ys;
    } else {
      assert (xs + ys)[0] == xs[0] && (xs + ys)[1..] == xs[1..] + ys;
      NodesConcat(xs[1..], ys, t);
    }
  }

  lemma RunOne(w: World, a: Action, t: string) returns (acts: seq<Action>)
    requires Enabled(w, a) && Advances(a, t)
    ensures Runs(w, acts, Apply(w, a), t, 1) && forall x :: x in acts ==> x == a
  {
    acts := [a];
    OneStep(w, a);
    assert acts[1..] == [];
  }

  function Put(w: World, t: string, th: Thread): World { w.(threads := w.threads[t := th]) }

  /** A node that neither submits nor waits replaces its thread and nothing else. */
  lemma RunsInPlace(w: World, t: string, id: string, u: Update) returns (acts: seq<Action>)
    requires Inv(w) && t in w.threads && !J.HasId(w.jobs.db, id)
    requires w.threads[t].at in {Parse, Assemble, Poll, Finalize} && NodeUpdate(w.threads[t], w.jobs.db, id) == Some(u)
    ensures Runs(w, acts, Put(w, t, Advance(w.threads[t], u)), t, 1) && forall x :: x in acts ==> x == RunNode(t, id)
    ensures Inv(Put(w, t, Advance(w.threads[t], u)))
  {
    StepKeepsInv(w, RunNode(t, id));
    acts := RunOne(w, RunNode(t, id), t);
  }

  lemma ResumesInPlace(w: World, t: string, review: Review) returns (acts: seq<Action>)
    requires Inv(w) && t in w.threads && w.threads[t].at == Approve && IsVerdict(review.action)
    ensures Runs(w, acts, Put(w, t, Advance(w.threads[t], HumanApproval(w.threads[t].st, review))), t, 1)
    ensures Inv(Put(w, t, Advance(w.threads[t], HumanApproval(w.threads[t].st, review))))
  {
    StepKeepsInv(w, Resume(t, review));
    acts := RunOne(w, Resume(t, review), t);
  }

  function Entered(th: Thread, runId: string, query: Query): Thread {
    Thread(EnterState(th.st, runId, query), Parse, th.notes)
  }

  /** The thread after the first node of a new run. */
  function Parsed(th: Thread, runId: string, query: Query): Thread {
    var entered := Entered(th, runId, query);
    Advance(entered, ParseRequest(entered.st))
  }

  lemma PutTwice(w: World, t: string, th1: Thread, th2: Thread)
    ensures Put(Put(w, t, th1), t, th2) == Put(w, t, th2)
  {
  }

  /** One more node after a run that has moved one thread only. */
  lemma ThenInPlace(from: World, w: World, t: string, id: string, before: seq<Action>, th: Thread, u: Update, n: nat)
    returns (acts: seq<Action>)
    requires Runs(from, before, Put(w, t, th), t, n) && Inv(Put(w, t, th))
    requires !J.HasId(w.jobs.db, id) && th.at in {Parse, Assemble, Poll, Finalize}
    requires NodeUpdate(th, w.jobs.db, id) == Some(u)
    ensures Runs(from, acts, Put(w, t, Advance(th, u)), t, n + 1) && Inv(Put(w, t, Advance(th, u)))
  {
    var next := RunsInPlace(Put(w, t, th), t, id, u);
    PutTwice(w, t, th, Advance(th, u));
    RunConcat(from, before, Put(w, t, th), next, Put(w, t, Advance(th, u)), t, n, 1);
    acts := before + next;
  }

  lemma EntersInPlace(w: World, t: string, runId: string, query: Query)
    requires Inv(w)
    ensures var w' := Put(w, t, Entered(Existing(w, t), runId, query));
      Apply(w, Enter(t, runId, query)) == w' && Inv(w')
  {
    StepKeepsInv(w, Enter(t, runId, query));
  }

  lemma ParsesInPlace(w: World, t: string, runId: string, query: Query, id: string) returns (acts: seq<Action>)
    requires Inv(w) && !J.HasId(w.jobs.db, id)
    ensures var w' := Put(w, t, Parsed(Existing(w, t), runId, query));
      Inv(w') && Runs(Apply(w, Enter(t, runId, query)), acts, w', t, 1) && forall x :: x in acts ==> x == RunNode(t, id)
  {
    var entered := Entered(Existing(w, t), runId, query);
    EntersInPlace(w, t, runId, query);
    acts := RunsInPlace(Put(w, t, entered), t, id, ParseRequest(entered.st));
    PutTwice(w, t, entered, Parsed(Existing(w, t), runId, query));
  }

  lemma FuelRound(th: Thread, th2: Thread)
    requires th.at == Assemble && th2.at == Assemble && |th2.st.trace| == |th.st.trace| + 2
    requires |th.st.trace| < MAX_EVENTS - 1
    ensures Fuel(th2) == Fuel(th) - 2 >= 1
  {
  }

  lemma FuelLast(th: Thread)
    requires th.at == Assemble && |th.st.trace| >= MAX_EVENTS - 1
    ensures Fuel(th) == 1
  {
  }

  /** The bound of a run is one node, the parse, more than the fuel after it. */
  lemma FuelAfterParse(th: Thread, n: nat)
    requires th.at == Assemble && |th.st.trace| == n + 1
    ensures Bound(n) == 1 + Fuel(th) && Fuel(th) >= 1
  {
  }

  /** The last node of a thread stopped by the guard. */
  lemma LastAssembly(w: World, t: string, id: string) returns (acts: seq<Action>, w': World)
    requires Inv(w) && t in w.threads && w.threads[t].at == Assemble && !J.HasId(w.jobs.db, id)
    ensures Runs(w, acts, w', t, 1) && forall x :: x in acts ==> x == RunNode(t, id)
  {
    acts := RunsInPlace(w, t, id, AssembleContext(w.threads[t].st));
    w' := After(w, acts);
  }

  // -- polling --

  predicate Unfinished(th: Thread, db: seq<J.Job>)
    requires th.st.activeJobs != []
  {
    var job := J.Lookup(db, th.st.activeJobs[0]);
    job.Some? && job.value.status !in {J.Succeeded, J.Status.Failed}
  }

  /** A thread about to poll, once more, a job that is neither done nor failed. */
  predicate KeepsPolling(th: Thread, db: seq<J.Job>) {
    && th.at == Assemble
    && th.st.directIntent == Some(false) && Permitted(th.st.approval) && th.st.activeJobs != []
        && th.st.completedJobs == []
    && Unfinished(th, db)
  }

  lemma PollFollows(t: string, th: Thread, db: seq<J.Job>)
    requires ThreadOk(t, th) && KeepsPolling(th, db) && |th.st.trace| < MAX_EVENTS - 1
    ensures var th1 := Advance(th, AssembleContext(th.st));
      && th1.at == Poll && th1.st.directIntent == Some(false) && |th1.st.trace| == |th.st.trace| + 1
      && th1.st.activeJobs == th.st.activeJobs
  {
    var th1 := Advance(th, AssembleContext(th.st));
    PendingIffNotCompleted(th.st);
    MergeEffect(th.st, AssembleContext(th.st));
    AssembleKeepsThread(t, th);
    PendingIffNotCompleted(th1.st);
  }

  lemma PollAssembles(w: World, t: string, id: string) returns (acts: seq<Action>, th1: Thread)
    requires Inv(w) && t in w.threads && KeepsPolling(w.threads[t], w.jobs.db) && !J.HasId(w.jobs.db, id)
    requires |w.threads[t].st.trace| < MAX_EVENTS - 1
    ensures Runs(w, acts, Put(w, t, th1), t, 1) && Inv(Put(w, t, th1)) && forall x :: x in acts ==> x == RunNode(t, id)
    ensures th1.at == Poll && th1.st.directIntent == Some(false) && |th1.st.trace| == |w.threads[t].st.trace| + 1
    ensures th1.st.activeJobs == w.threads[t].st.activeJobs && Unfinished(th1, w.jobs.db)
  {
    var th := w.threads[t];
    th1 := Advance(th, AssembleContext(th.st));
    PollFollows(t, th, w.jobs.db);
    acts := RunsInPlace(w, t, id, AssembleContext(th.st));
  }

  lemma PollsAgain(w: World, t: string, id: string) returns (acts: seq<Action>, th2: Thread)
    requires Inv(w) && t in w.threads && w.threads[t].at == Poll && w.threads[t].st.directIntent == Some(false)
    requires !J.HasId(w.jobs.db, id)
    requires w.threads[t].st.activeJobs != [] && Unfinished(w.threads[t], w.jobs.db)
    ensures Runs(w, acts, Put(w, t, th2), t, 1) && Inv(Put(w, t, th2)) && forall x :: x in acts ==> x == RunNode(t, id)
    ensures KeepsPolling(th2, w.jobs.db) && |th2.st.trace| == |w.threads[t].st.trace| + 1
  {
    var th := w.threads[t];
    var u := Only(JobInProgress(th.st.activeJobs[0]));
    MergeEffect(th.st, u);
    th2 := Advance(th, u);
    acts := RunsInPlace(w, t, id, u);
  }

  /** Two nodes of a polling thread bring it back to where it was, two events later. */
  lemma PollRound(w: World, t: string, id: string) returns (acts: seq<Action>, th2: Thread)
    requires Inv(w) && t in w.threads && KeepsPolling(w.threads[t], w.jobs.db) && !J.HasId(w.jobs.db, id)
    requires |w.threads[t].st.trace| < MAX_EVENTS - 1
    ensures Runs(w, acts, Put(w, t, th2), t, 2) && Inv(Put(w, t, th2)) && forall x :: x in acts ==> x == RunNode(t, id)
    ensures KeepsPolling(th2, w.jobs.db) && |th2.st.trace| == |w.threads[t].st.trace| + 2
  {
    var first, th1 := PollAssembles(w, t, id);
    var second;
    second, th2 := PollsAgain(Put(w, t, th1), t, id);
    PutTwice(w, t, th1, th2);
    RunConcat(w, first, Put(w, t, th1), second, Put(w, t, th2), t, 1, 1);
    acts := first + second;
  }

  /** A thread that keeps polling runs every node its fuel allows. */
  lemma {:induction false} FuelIsUsedUp(w: World, t: string, id: string) returns (acts: seq<Action>, w': World)
    requires Inv(w) && t in w.threads && KeepsPolling(w.threads[t], w.jobs.db) && !J.HasId(w.jobs.db, id)
    ensures Runs(w, acts, w', t, Fuel(w.threads[t])) && forall x :: x in acts ==> x == RunNode(t, id)
    decreases Fuel(w.threads[t])
  {
    if |w.threads[t].st.trace| < MAX_EVENTS - 1 {
      var round, th2 := PollRound(w, t, id);
      FuelRound(w.threads[t], th2);
      var rest, last := FuelIsUsedUp(Put(w, t, th2), t, id);
      RunConcat(w, round, Put(w, t, th2), rest, last, t, 2, Fuel(th2));
      acts, w' := round + rest, last;
    } else {
      FuelLast(w.threads[t]);
      acts, w' := LastAssembly(w, t, id);
    }
  }

  lemma UnfinishedNotCompleted(w: World, t: string)
    requires Inv(w) && t in w.threads && w.threads[t].st.activeJobs != [] && Unfinished(w.threads[t], w.jobs.db)
    ensures w.threads[t].st.completedJobs == []
  {
    ActiveIsStored(w, t);
    var th := w.threads[t];
    var k := J.WithId(w.jobs.db, th.st.activeJobs[0]);
    assert th.st.activeJobs == [w.jobs.db[k].id];
  }

  /** A thread whose job is not finished, entered again with a request that needs no approval, goes back to polling. */
  lemma ReentryPolls(w: World, t: string, runId: string, query: Query)
    requires Inv(w) && t in w.threads && w.threads[t].st.activeJobs != [] && Unfinished(w.threads[t], w.jobs.db)
    requires !WantsDirectAnswer(query) && !NeedsApproval(query)
    ensures var th := Parsed(w.threads[t], runId, query);
      KeepsPolling(th, w.jobs.db) && |th.st.trace| == |w.threads[t].st.trace| + 1
        && th.st.activeJobs == w.threads[t].st.activeJobs
  {
    var entered := Entered(w.threads[t], runId, query);
    UnfinishedNotCompleted(w, t);
    MergeEffect(entered.st, ParseRequest(entered.st));
  }

  /** The parse that brings a thread back to polling. */
  lemma ReentryParses(w: World, t: string, runId: string, query: Query, id: string)
    returns (acts: seq<Action>, th: Thread)
    requires Inv(w) && t in w.threads && w.threads[t].st.activeJobs != [] && Unfinished(w.threads[t], w.jobs.db)
    requires !WantsDirectAnswer(query) && !NeedsApproval(query) && !J.HasId(w.jobs.db, id)
    ensures Runs(Apply(w, Enter(t, runId, query)), acts, Put(w, t, th), t, 1)
    ensures forall x :: x in acts ==> x == RunNode(t, id)
    ensures Inv(Put(w, t, th)) && KeepsPolling(th, w.jobs.db) && |th.st.trace| == |w.threads[t].st.trace| + 1
    ensures th.st.activeJobs == w.threads[t].st.activeJobs && th.st.query == query
    ensures th.st.trace == w.threads[t].st.trace + [Event(RequestParsed, |w.threads[t].st.trace|)]
    ensures th.notes[..|w.threads[t].notes|] == w.threads[t].notes && |th.notes| == |w.threads[t].notes| + 1
  {
    ReentryPolls(w, t, runId, query);
    th := Parsed(w.threads[t], runId, query);
    acts := ParsesInPlace(w, t, runId, query, id);
  }

  /** Such a run polls to the guard: it executes exactly its bound, whatever the parity of the trail. */
  lemma ReentryPollsToTheGuard(w: World, t: string, runId: string, query: Query, id: string)
    returns (acts: seq<Action>, w': World)
    requires Inv(w) && t in w.threads && w.threads[t].st.activeJobs != [] && Unfinished(w.threads[t], w.jobs.db)
    requires !WantsDirectAnswer(query) && !NeedsApproval(query) && !J.HasId(w.jobs.db, id)
    ensures Runs(Apply(w, Enter(t, runId, query)), acts, w', t, Bound(|w.threads[t].st.trace|))
    ensures forall x :: x in acts ==> x == RunNode(t, id)
  {
    var first, th := ReentryParses(w, t, runId, query, id);
    var rest, last := FuelIsUsedUp(Put(w, t, th), t, id);
    FuelAfterParse(th, |w.threads[t].st.trace|);
    RunConcat(Apply(w, Enter(t, runId, query)), first, Put(w, t, th), rest, last, t, 1, Fuel(th));
    acts, w' := first + rest, last;
  }

  // -- editing --

  /** A thread whose reviewer will be asked, or asked again. */
  predicate KeepsEditing(th: Thread) {
    th.at == Assemble && th.st.directIntent == Some(false) && th.st.approval in {Some(Pending), Some(Edited)}
  }

  lemma EditAssembles(w: World, t: string, id: string) returns (acts: seq<Action>, th1: Thread)
    requires Inv(w) && t in w.threads && KeepsEditing(w.threads[t]) && !J.HasId(w.jobs.db, id)
    requires |w.threads[t].st.trace| < MAX_EVENTS - 1
    ensures Runs(w, acts, Put(w, t, th1), t, 1) && Inv(Put(w, t, th1))
    ensures th1.at == Approve && th1.st.directIntent == Some(false) && |th1.st.trace| == |w.threads[t].st.trace| + 1
    ensures th1.st.activeJobs == w.threads[t].st.activeJobs && th1.st.approval == w.threads[t].st.approval
    ensures th1.st.query == w.threads[t].st.query
  {
    var th := w.threads[t];
    th1 := Advance(th, AssembleContext(th.st));
    acts := RunsInPlace(w, t, id, AssembleContext(th.st));
  }

  lemma EditsAgain(w: World, t: string) returns (acts: seq<Action>, th2: Thread)
    requires Inv(w) && t in w.threads && w.threads[t].at == Approve && w.threads[t].st.directIntent == Some(false)
    ensures Runs(w, acts, Put(w, t, th2), t, 1) && Inv(Put(w, t, th2))
    ensures KeepsEditing(th2) && |th2.st.trace| == |w.threads[t].st.trace| + 1
  {
    var th := w.threads[t];
    th2 := Advance(th, HumanApproval(th.st, Review(Edited, None)));
    acts := ResumesInPlace(w, t, Review(Edited, None));
  }

  lemma EditRound(w: World, t: string, id: string) returns (acts: seq<Action>, th2: Thread)
    requires Inv(w) && t in w.threads && KeepsEditing(w.threads[t]) && !J.HasId(w.jobs.db, id)
    requires |w.threads[t].st.trace| < MAX_EVENTS - 1
    ensures Runs(w, acts, Put(w, t, th2), t, 2) && Inv(Put(w, t, th2))
    ensures KeepsEditing(th2) && |th2.st.trace| == |w.threads[t].st.trace| + 2
  {
    var first, th1 := EditAssembles(w, t, id);
    var second;
    second, th2 := EditsAgain(Put(w, t, th1), t);
    PutTwice(w, t, th1, th2);
    RunConcat(w, first, Put(w, t, th1), second, Put(w, t, th2), t, 1, 1);
    acts := first + second;
  }

  lemma {:induction false} EditsUseUpFuel(w: World, t: string, id: string) returns (acts: seq<Action>, w': World)
    requires Inv(w) && t in w.threads && KeepsEditing(w.threads[t]) && !J.HasId(w.jobs.db, id)
    ensures Runs(w, acts, w', t, Fuel(w.threads[t]))
    decreases Fuel(w.threads[t])
  {
    if |w.threads[t].st.trace| < MAX_EVENTS - 1 {
      var round, th2 := EditRound(w, t, id);
      FuelRound(w.threads[t], th2);
      var rest, last := EditsUseUpFuel(Put(w, t, th2), t, id);
      RunConcat(w, round, Put(w, t, th2), rest, last, t, 2, Fuel(th2));
      acts, w' := round + rest, last;
    } else {
      FuelLast(w.threads[t]);
      acts, w' := LastAssembly(w, t, id);
    }
  }

  /**
   * The bound is reached by every thread, from any number of events: a request that needs approval, edited
   * at every review, executes exactly its bound.
   */
  lemma BoundIsReached(w: World, t: string, runId: string, query: Query, id: string)
    returns (acts: seq<Action>, w': World)
    requires Inv(w) && NeedsApproval(query) && !J.HasId(w.jobs.db, id)
    ensures Runs(Apply(w, Enter(t, runId, query)), acts, w', t, Bound(|Existing(w, t).st.trace|))
  {
    var th := Parsed(Existing(w, t), runId, query);
    var first := ParsesInPlace(w, t, runId, query, id);
    assert KeepsEditing(th) && |th.st.trace| == |Existing(w, t).st.trace| + 1;
    var rest, last := EditsUseUpFuel(Put(w, t, th), t, id);
    FuelAfterParse(th, |Existing(w, t).st.trace|);
    RunConcat(Apply(w, Enter(t, runId, query)), first, Put(w, t, th), rest, last, t, 1, Fuel(th));
    acts, w' := first + rest, last;
  }

  // ---------------------------------------------------------------- late runs

  /** A run entered with 23 or more events behind it, while it lasts. */
  predicate Late(th: Thread) {
    (th.at == Parse && |th.st.trace| >= 23) || (th.at == Assemble && |th.st.trace| >= 24) || th.at == End
  }

  predicate OnlyPreparation(trace: seq<Event>, n: nat) {
    forall i :: n <= i < |trace| ==> trace[i].kind == RequestParsed || trace[i].kind == ContextAssembled
  }

  lemma LateStep(w: World, a: Action, t: string)
    requires Inv(w) && Enabled(w, a) && !(a.Enter? && a.t == t) && t in w.threads && Late(w.threads[t])
    ensures t in Apply(w, a).threads && Late(Apply(w, a).threads[t])
    ensures OnlyPreparation(Apply(w, a).threads[t].st.trace, |w.threads[t].st.trace|)
    ensures w.threads[t].st.trace <= Apply(w, a).threads[t].st.trace
    ensures Advances(a, t) ==> Apply(w, a).jobs == w.jobs
  {
    if a.RunNode? && a.t == t {
      LateNode(t, w.threads[t], w.jobs.db, a.clockId);
    } else {
      assert ThreadOk(t, w.threads[t]);
      OthersStandStill(w, a, t);
    }
  }

  lemma LateNode(t: string, th: Thread, db: seq<J.Job>, clockId: string)
    requires ThreadOk(t, th) && Late(th) && th.at != End
    ensures NodeUpdate(th, db, clockId).Some? && StoreAfterNode(th, db, clockId) == db
    ensures var th' := Advance(th, NodeUpdate(th, db, clockId).value);
      Late(th') && OnlyPreparation(th'.st.trace, |th.st.trace|) && th.st.trace <= th'.st.trace
  {
  }

  /** Such a run parses, assembles and stops: it never submits, polls, asks for approval or finalizes. */
  lemma {:induction false} LateRunsOnlyPrepare(w: World, acts: seq<Action>, t: string)
    requires Inv(w) && Legal(w, acts) && NoEntry(acts, t) && t in w.threads && Late(w.threads[t])
    ensures t in After(w, acts).threads && OnlyPreparation(After(w, acts).threads[t].st.trace, |w.threads[t].st.trace|)
    ensures w.threads[t].st.trace <= After(w, acts).threads[t].st.trace
    decreases |acts|
  {
    if acts != [] {
      StepKeepsInv(w, acts[0]);
      LateStep(w, acts[0], t);
      LateRunsOnlyPrepare(Apply(w, acts[0]), acts[1..], t);
    }
  }

  // ---------------------------------------------------------------- what is never taken back

  /** Events, errors and jobs are only added to, and what was prepared or started stays so. */
  ghost predicate Grows(st: State, st': State) {
    && st.trace <= st'.trace && st.errors <= st'.errors && st.activeJobs <= st'.activeJobs
    && (st.contextReady ==> st'.contextReady) && (st.executing ==> st'.executing)
  }

  lemma MergeGrows(st: State, u: Update)
    ensures Grows(st, Merge(st, u))
  {
    Reducers.UniqueLaws(st.activeJobs, u.activeJobs);
  }

  lemma StepGrows(w: World, a: Action, t: string)
    requires t in w.threads
    ensures t in Apply(w, a).threads && Grows(w.threads[t].st, Apply(w, a).threads[t].st)
  {
    var th := w.threads[t];
    if a.RunNode? && a.t == t && NodeUpdate(th, w.jobs.db, a.clockId).Some? {
      MergeGrows(th.st, NodeUpdate(th, w.jobs.db, a.clockId).value);
    } else if a.Resume? && a.t == t {
      MergeGrows(th.st, HumanApproval(th.st, a.review));
    }
  }

  /** Over every run of the world, new runs included, nothing a thread has recorded is taken back. */
  lemma {:induction false} NothingIsTakenBack(w: World, acts: seq<Action>, t: string)
    requires t in w.threads
    ensures t in After(w, acts).threads && Grows(w.threads[t].st, After(w, acts).threads[t].st)
    decreases |acts|
  {
    if acts != [] {
      StepGrows(w, acts[0], t);
      NothingIsTakenBack(Apply(w, acts[0]), acts[1..], t);
    }
  }

  // ---------------------------------------------------------------- how runs end

  lemma NodeStatus(t: string, th: Thread, db: seq<J.Job>, clockId: string)
    requires ThreadOk(t, th) && th.at !in {Approve, End} && NodeUpdate(th, db, clockId).Some?
    ensures var th' := Advance(th, NodeUpdate(th, db, clockId).value);
      && (th'.st.status == WaitingForJob <==> th.at == SubmitJob && !Denied(CurrentPlan(th.st)))
      && (th.at == Poll ==> th'.at in {Assemble, Finalize})
  {
  }

  /** A run pauses for its job only right after submitting it; a later run that polls goes on polling. */
  lemma PausesOnlyAfterSubmit(w: World, t: string, clockId: string)
    requires Inv(w) && Enabled(w, RunNode(t, clockId))
    ensures var th' := Apply(w, RunNode(t, clockId)).threads[t];
      && (th'.st.status == WaitingForJob <==> w.threads[t].at == SubmitJob && !Denied(CurrentPlan(w.threads[t].st)))
      && (w.threads[t].at == Poll ==> th'.at in {Assemble, Finalize})
  {
    if w.threads[t].at == Poll {
      PollNeverRaises(w, t);
    }
    NodeStatus(t, w.threads[t], w.jobs.db, clockId);
  }

  /** A failed job is polled once, and the run that polled it is then reported as completed. */
  lemma FailedJobReportsCompleted(w: World, t: string, clockId: string, nextId: string)
    requires Inv(w) && Enabled(w, RunNode(t, clockId)) && w.threads[t].at == Poll
    requires exists k ::
      0 <= k < |w.jobs.db| && [w.jobs.db[k].id] == w.threads[t].st.activeJobs && w.jobs.db[k].status == J.Status.Failed
    ensures var w1 := Apply(w, RunNode(t, clockId));
      var w2 := Apply(w1, RunNode(t, nextId));
      && w1.threads[t].st.status == RunStatus.Failed && w1.threads[t].at == Finalize
      && w2.threads[t].st.status == Completed && w2.threads[t].at == End
      && w2.threads[t].st.errors == w.threads[t].st.errors
          + [JobProblem(w.threads[t].st.activeJobs[0], Some(J.FAILURE_MESSAGE))]
  {
    FailedJobIsPolled(w, t, clockId);
    FinalizeCompletes(Apply(w, RunNode(t, clockId)), t, nextId);
  }

  lemma FailedJobIsPolled(w: World, t: string, clockId: string)
    requires Inv(w) && Enabled(w, RunNode(t, clockId)) && w.threads[t].at == Poll
    requires exists k ::
      0 <= k < |w.jobs.db| && [w.jobs.db[k].id] == w.threads[t].st.activeJobs && w.jobs.db[k].status == J.Status.Failed
    ensures var w1 := Apply(w, RunNode(t, clockId));
      && t in w1.threads && w1.threads[t].st.status == RunStatus.Failed
      && w1.threads[t].at == Finalize && w1.threads[t].st.approval != Some(Rejected)
      && w1.threads[t].st.errors == w.threads[t].st.errors
          + [JobProblem(w.threads[t].st.activeJobs[0], Some(J.FAILURE_MESSAGE))]
  {
    var k :| 0 <= k < |w.jobs.db| && [w.jobs.db[k].id] == w.threads[t].st.activeJobs
      && w.jobs.db[k].status == J.Status.Failed;
    assert [w.jobs.db[k].id][0] == w.threads[t].st.activeJobs[0];
    J.UniqueId(w.jobs.db, k);
    assert J.JobOk(w.jobs.db[k], w.jobs.live[w.jobs.db[k].id]);
    assert ThreadOk(t, w.threads[t]);
  }

  lemma FinalizeCompletes(w: World, t: string, clockId: string)
    requires t in w.threads && w.threads[t].at == Finalize && w.threads[t].st.approval != Some(Rejected)
    ensures var w' := Apply(w, RunNode(t, clockId));
      t in w'.threads && w'.threads[t].st.status == Completed && w'.threads[t].at == End
        && w'.threads[t].st.errors == w.threads[t].st.errors
  {
  }

  /**
   * What the final answer says, in every reachable state: aborted after a rejection, otherwise the query
   * of this run and, as evidence, exactly the artifact of the thread's own completed job.
   */
  lemma FinalAnswerIsBacked(acts: seq<Action>, t: string, clockId: string)
    requires Legal(START, acts) && Enabled(After(START, acts), RunNode(t, clockId))
    requires After(START, acts).threads[t].at == Finalize
    ensures var st := After(START, acts).threads[t].st;
      var st' := Apply(After(START, acts), RunNode(t, clockId)).threads[t].st;
      && (st.completedJobs != [] ==> st.activeJobs != [])
      && (st.approval == Some(Rejected) ==> st'.answer == Some(Aborted) && st'.status == RunStatus.Failed)
      && (st.approval != Some(Rejected) ==>
            && st'.status == Completed
            && st'.answer == Some(Report(st.query.raw,
                 if st.completedJobs == [] then None else Some((1, J.ArtifactOf(st.activeJobs[0]).uri)))))
  {
    RunKeepsInv(START, acts);
    assert ThreadOk(t, After(START, acts).threads[t]);
  }

  lemma DraftApproved(t: string, th: Thread)
    requires ThreadOk(t, th) && th.at == Approve && th.st.approval == Some(Pending) && th.st.activeJobs == []
    requires |th.st.trace| < 23
    ensures var th1 := Advance(th, HumanApproval(th.st, Review(Approved, None)));
      var th2 := Advance(th1, AssembleContext(th1.st));
      th1.at == Assemble && th2.at == SubmitJob && th2.st.plan == Some(DRAFT_PLAN) && th2.st.approval == Some(Approved)
  {
    var th1 := Advance(th, HumanApproval(th.st, Review(Approved, None)));
    MergeEffect(th.st, HumanApproval(th.st, Review(Approved, None)));
    ApproveKeepsThread(t, th, Review(Approved, None));
    MergeEffect(th1.st, AssembleContext(th1.st));
  }

  lemma DraftRefused(th: Thread, db: seq<J.Job>, clockId: string)
    requires th.at == SubmitJob && th.st.plan == Some(DRAFT_PLAN) && th.st.approval == Some(Approved)
    ensures var th1 := Advance(th, SubmitJobNode(th.st, db, clockId));
      var th2 := Advance(th1, FinalizeNode(th1.st));
      && StoreAfterNode(th, db, clockId) == db
      && th1.at == Finalize && th2.at == End && th2.st.status == Completed
      && PolicyViolation("Run rolling backtest window") in th2.st.errors
  {
    DraftIsDenied();
    var th1 := Advance(th, SubmitJobNode(th.st, db, clockId));
    var violation := PolicyViolation("Run rolling backtest window");
    assert th1.st.errors == th.st.errors + [violation];
    assert violation in th1.st.errors;
  }

  /**
   * Approving the drafted plan as it stands: the gate refuses the drafted task, nothing is stored, and
   * the run is reported as completed.
   */
  lemma UneditedApprovalSubmitsNothing(w: World, t: string, a: string, b: string, c: string)
    requires Inv(w) && Enabled(w, Resume(t, Review(Approved, None)))
    requires w.threads[t].st.approval == Some(Pending) && w.threads[t].st.activeJobs == []
    requires |w.threads[t].st.trace| < 23
    ensures var w1 := Apply(Apply(w, Resume(t, Review(Approved, None))), RunNode(t, a));
      var w2 := Apply(Apply(w1, RunNode(t, b)), RunNode(t, c));
      && w1.threads[t].at == SubmitJob
      && w2.jobs == w.jobs && w2.threads[t].at == End && w2.threads[t].st.status == Completed
      && PolicyViolation("Run rolling backtest window") in w2.threads[t].st.errors
  {
    UneditedApproved(w, t, a);
    UneditedRefused(Apply(Apply(w, Resume(t, Review(Approved, None))), RunNode(t, a)), t, b, c);
  }

  lemma UneditedApproved(w: World, t: string, a: string)
    requires Inv(w) && Enabled(w, Resume(t, Review(Approved, None)))
    requires w.threads[t].st.approval == Some(Pending) && w.threads[t].st.activeJobs == []
    requires |w.threads[t].st.trace| < 23
    ensures var w1 := Apply(Apply(w, Resume(t, Review(Approved, None))), RunNode(t, a));
      && t in w1.threads && w1.jobs == w.jobs && w1.threads[t].at == SubmitJob
      && w1.threads[t].st.plan == Some(DRAFT_PLAN) && w1.threads[t].st.approval == Some(Approved)
  {
    DraftApproved(t, w.threads[t]);
  }

  lemma UneditedRefused(w1: World, t: string, b: string, c: string)
    requires t in w1.threads && w1.threads[t].at == SubmitJob
    requires w1.threads[t].st.plan == Some(DRAFT_PLAN) && w1.threads[t].st.approval == Some(Approved)
    ensures var w2 := Apply(Apply(w1, RunNode(t, b)), RunNode(t, c));
      && w2.jobs == w1.jobs && t in w2.threads && w2.threads[t].at == End && w2.threads[t].st.status == Completed
      && PolicyViolation("Run rolling backtest window") in w2.threads[t].st.errors
  {
    DraftRefused(w1.threads[t], w1.jobs.db, b);
  }
}
