/**
 * The job store and the worker as a transition system on values.
 *
 * The store is a dictionary that keeps insertion order, so it is a sequence of jobs with distinct
 * ids.  An execution is a coroutine sleeping inside `_execute_job_core`; the two awaits of the worker
 * are the only places where something else can run, so the atomic steps are one turn of the polling
 * loop and one wake-up of an execution.
 */
module Jobs {
  import opened Wrappers

  datatype Status = Queued | Running | Succeeded | Failed | CancelRequested | Cancelled

  /** An analysis plan, which is also the payload of the job it is submitted as. */
  datatype Plan = Plan(task: Option<string>, forceFail: bool, extras: map<string, string>)

  datatype ArtifactRef = ArtifactRef(artifactId: string, uri: string)

  datatype Job = Job(id: string, jobType: string, key: string, payload: Plan, status: Status,
                     result: Option<ArtifactRef>, error: Option<string>,
                     attempts: nat, maxAttempts: nat)

  const CANCEL_MESSAGE := "Cancelled gracefully by human request."
  const FAILURE_MESSAGE := "Transient math convergence error."
  const DEFAULT_MAX_ATTEMPTS := 3

  function ArtifactOf(id: string): ArtifactRef {
    ArtifactRef("art_" + id, "storage://macro/processed_" + id + ".csv")
  }

  function NewJob(id: string, jobType: string, key: string, payload: Plan): Job {
    Job(id, jobType, key, payload, Queued, None, None, 0, DEFAULT_MAX_ATTEMPTS)
  }

  // ---------------------------------------------------------------- the store

  /** The first position whose job satisfies `p`, or the length if there is none. */
  function First(db: seq<Job>, p: Job -> bool): (i: nat)
    ensures i <= |db|
    ensures i < |db| ==> p(db[i])
    ensures forall k :: 0 <= k < i ==> !p(db[k])
  {
    if |db| == 0 || p(db[0]) then 0 else 1 + First(db[1..], p)
  }

  function WithId(db: seq<Job>, id: string): nat { First(db, (j: Job) => j.id == id) }
  function WithKey(db: seq<Job>, key: string): nat { First(db, (j: Job) => j.key == key) }
  function WithStatus(db: seq<Job>, st: Status): nat { First(db, (j: Job) => j.status == st) }

  lemma WithIdIs(db: seq<Job>, id: string, i: nat)
    requires i <= |db| && (i < |db| ==> db[i].id == id) && forall k :: 0 <= k < i ==> db[k].id != id
    ensures WithId(db, id) == i
  {
  }

  lemma WithStatusIs(db: seq<Job>, st: Status, i: nat)
    requires i <= |db| && (i < |db| ==> db[i].status == st) && forall k :: 0 <= k < i ==> db[k].status != st
    ensures WithStatus(db, st) == i
  {
  }

  lemma WithKeyIs(db: seq<Job>, key: string, i: nat)
    requires i <= |db| && (i < |db| ==> db[i].key == key) && forall k :: 0 <= k < i ==> db[k].key != key
    ensures WithKey(db, key) == i
  {
  }

  /** Dictionary assignment: an existing key keeps its place and loses its old value. */
  function Put(db: seq<Job>, job: Job): seq<Job> {
    var i := WithId(db, job.id);
    if i < |db| then db[i := job] else db + [job]
  }

  function Lookup(db: seq<Job>, id: string): Option<Job> {
    var i := WithId(db, id);
    if i < |db| then Some(db[i]) else None
  }

  function SubmitTo(db: seq<Job>, job: Job): seq<Job> {
    if WithKey(db, job.key) < |db| then db else Put(db, job)
  }

  function SubmittedId(db: seq<Job>, job: Job): string {
    var i := WithKey(db, job.key);
    if i < |db| then db[i].id else job.id
  }

  function Overwrite<T>(current: Option<T>, update: Option<T>): Option<T> {
    if update.Some? then update else current
  }

  function Restatus(db: seq<Job>, id: string, st: Status, result: Option<ArtifactRef>, error: Option<string>): seq<Job>
  {
    var i := WithId(db, id);
    if i == |db| then db
    else db[i := db[i].(status := st, result := Overwrite(db[i].result, result),
      error := Overwrite(db[i].error, error))]
  }

  // ---------------------------------------------------------------- the worker

  /** First half of a loop turn: acknowledge one cancellation request. */
  function AckCancel(db: seq<Job>): seq<Job> {
    var i := WithStatus(db, CancelRequested);
    if i == |db| then db else Restatus(db, db[i].id, Cancelled, None, Some(CANCEL_MESSAGE))
  }

  function ClaimedId(db: seq<Job>): Option<string> {
    var i := WithStatus(db, Queued);
    if i == |db| then None else Some(db[i].id)
  }

  /** Second half of a loop turn: claim the oldest queued job. */
  function Claim(db: seq<Job>): seq<Job> {
    var i := WithStatus(db, Queued);
    if i == |db| then db else db[i := db[i].(status := Running, attempts := db[i].attempts + 1)]
  }

  /** What an execution writes about its job when its sleep ends. */
  function Outcome(j: Job): Job {
    if j.status == CancelRequested then j.(status := Cancelled, error := Some(CANCEL_MESSAGE))
    else if !j.payload.forceFail then j.(status := Succeeded, result := Some(ArtifactOf(j.id)))
    else if j.attempts < j.maxAttempts then j.(status := Queued)
    else j.(status := Failed, error := Some(FAILURE_MESSAGE))
  }

  function Finish(db: seq<Job>, id: string): seq<Job> {
    var i := WithId(db, id);
    if i == |db| then db else db[i := Outcome(db[i])]
  }

  /** The store update by which an execution of `j` ends. */
  function FinishUpdate(db: seq<Job>, j: Job): seq<Job> {
    if j.status == CancelRequested then Restatus(db, j.id, Cancelled, None, Some(CANCEL_MESSAGE))
    else if !j.payload.forceFail then Restatus(db, j.id, Succeeded, Some(ArtifactOf(j.id)), None)
    else if j.attempts < j.maxAttempts then Restatus(db, j.id, Queued, None, None)
    else Restatus(db, j.id, Failed, None, Some(FAILURE_MESSAGE))
  }

  lemma FinishIsUpdate(db: seq<Job>, i: nat)
    requires i < |db| && WithId(db, db[i].id) == i
    ensures FinishUpdate(db, db[i]) == Finish(db, db[i].id)
  {
  }

  // ---------------------------------------------------------------- the transition system

  /** The store together with the executions that are asleep, by job id. */
  datatype System = System(db: seq<Job>, live: multiset<string>)

  datatype Action =
    | Submit(id: string, jobType: string, key: string, payload: Plan, maxAttempts: nat)
    | LoopTurn
    | WakeUp(id: string)
    | RequestCancel(id: string)

  const EMPTY := System([], multiset{})

  predicate HasId(db: seq<Job>, id: string) { exists k :: 0 <= k < |db| && db[k].id == id }

  predicate DistinctIds(db: seq<Job>) { forall i, k :: 0 <= i < k < |db| ==> db[i].id != db[k].id }

  predicate DistinctKeys(db: seq<Job>) { forall i, k :: 0 <= i < k < |db| ==> db[i].key != db[k].key }

  function SubmittedJob(a: Action): Job
    requires a.Submit?
  {
    NewJob(a.id, a.jobType, a.key, a.payload).(maxAttempts := a.maxAttempts)
  }

  /** Submissions draw an id nobody has; cancellations are asked for queued or running jobs only. */
  predicate Enabled(s: System, a: Action) {
    match a
    case Submit(id, _, _, _, maxAttempts) => maxAttempts >= 1 && !HasId(s.db, id)
    case LoopTurn => true
    case WakeUp(id) => id in s.live
    case RequestCancel(id) =>
      var i := WithId(s.db, id);
      i < |s.db| && s.db[i].status in {Queued, Running}
  }

  function Apply(s: System, a: Action): System {
    match a
    case Submit(_, _, _, _, _) => s.(db := SubmitTo(s.db, SubmittedJob(a)))
    case LoopTurn =>
      var acked := AckCancel(s.db);
      System(Claim(acked), if ClaimedId(acked).Some? then s.live + multiset{ClaimedId(acked).value} else s.live)
    case WakeUp(id) => System(Finish(s.db, id), s.live - multiset{id})
    case RequestCancel(id) => s.(db := Restatus(s.db, id, CancelRequested, None, None))
  }

  ghost predicate Legal(s: System, acts: seq<Action>)
    decreases |acts|
  {
    acts == [] || (Enabled(s, acts[0]) && Legal(Apply(s, acts[0]), acts[1..]))
  }

  ghost function After(s: System, acts: seq<Action>): System
    decreases |acts|
  {
    if acts == [] then s else After(Apply(s, acts[0]), acts[1..])
  }

  // ---------------------------------------------------------------- invariant

  /** What holds of a job that `n` executions are working on. */
  predicate JobOk(j: Job, n: nat) {
    && n <= 1 <= j.maxAttempts
    && j.attempts <= j.maxAttempts
    && (n == 1 ==> j.attempts >= 1)
    && (j.status == Queued ==> n == 0 && j.attempts < j.maxAttempts)
    && (j.status == Running ==> n == 1)
    && (!j.payload.forceFail ==> j.attempts <= 1 && (j.status == Queued ==> j.attempts == 0))
    && (j.status == Succeeded ==>
          n == 0 && !j.payload.forceFail && j.attempts == 1 && j.result == Some(ArtifactOf(j.id)))
    && (j.status == Failed ==>
          n == 0 && j.payload.forceFail && j.attempts == j.maxAttempts && j.error == Some(FAILURE_MESSAGE))
  }

  ghost predicate Inv(s: System) {
    && DistinctIds(s.db)
    && DistinctKeys(s.db)
    && (forall i :: 0 <= i < |s.db| ==> JobOk(s.db[i], s.live[s.db[i].id]))
    && (forall id :: id in s.live ==> HasId(s.db, id))
  }

  /** The lifecycle diagram: how one job may change in one step, and how its executions change with it. */
  predicate Edge(j: Job, n: nat, j': Job, n': nat) {
    || (j' == j && n' == n)
    || (j.status == Queued && j' == j.(status := Running, attempts := j.attempts + 1) && n' == n + 1)
    || (j.status in {Queued, Running} && j' == j.(status := CancelRequested) && n' == n)
    || (j.status == CancelRequested && j' == j.(status := Cancelled, error := Some(CANCEL_MESSAGE))
        && n' <= n <= n' + 1)
    || (j.status in {Running, Cancelled} && n == 1 && n' == 0 && j'.status in {Succeeded, Queued, Failed}
        && j' == Outcome(j))
  }

  lemma UniqueId(db: seq<Job>, i: nat)
    requires DistinctIds(db) && i < |db|
    ensures WithId(db, db[i].id) == i
  {
  }

  /** Replacing one job, and only its own executions, keeps the invariant if the new job is in order. */
  lemma ReplaceKeepsInv(s: System, i: nat, j: Job, live: multiset<string>)
    requires Inv(s) && i < |s.db| && j.id == s.db[i].id && j.key == s.db[i].key
    requires forall id :: id != j.id ==> live[id] == s.live[id]
    requires JobOk(j, live[j.id])
    ensures Inv(System(s.db[i := j], live))
  {
    ReplaceKeepsNames(s.db, i, j);
    var db := s.db[i := j];
    forall k | 0 <= k < |db| ensures JobOk(db[k], live[db[k].id]) {
      assert k != i ==> s.db[k].id != s.db[i].id;
    }
    forall id | id in live ensures HasId(db, id) {
      assert id == j.id || id in s.live;
    }
  }

  lemma ReplaceKeepsNames(db: seq<Job>, i: nat, j: Job)
    requires DistinctIds(db) && DistinctKeys(db) && i < |db| && j.id == db[i].id && j.key == db[i].key
    ensures DistinctIds(db[i := j]) && DistinctKeys(db[i := j])
    ensures forall id :: HasId(db, id) ==> HasId(db[i := j], id)
    ensures HasId(db[i := j], j.id)
  {
    forall id | HasId(db, id) ensures HasId(db[i := j], id) {
      var k :| 0 <= k < |db| && db[k].id == id;
      assert db[i := j][k].id == id;
    }
    assert db[i := j][i].id == j.id;
  }

  lemma AckKeepsInv(s: System)
    requires Inv(s)
    ensures Inv(System(AckCancel(s.db), s.live))
    ensures |AckCancel(s.db)| == |s.db|
    ensures var i := WithStatus(s.db, CancelRequested);
      AckCancel(s.db) == if i == |s.db| then s.db
        else s.db[i := s.db[i].(status := Cancelled, error := Some(CANCEL_MESSAGE))]
  {
    var i := WithStatus(s.db, CancelRequested);
    if i < |s.db| {
      UniqueId(s.db, i);
      ReplaceKeepsInv(s, i, s.db[i].(status := Cancelled, error := Some(CANCEL_MESSAGE)), s.live);
    }
  }

  lemma ClaimKeepsInv(s: System)
    requires Inv(s)
    ensures var id := ClaimedId(s.db);
      Inv(System(Claim(s.db), if id.Some? then s.live + multiset{id.value} else s.live))
  {
    var i := WithStatus(s.db, Queued);
    if i < |s.db| {
      ReplaceKeepsInv(s, i, s.db[i].(status := Running, attempts := s.db[i].attempts + 1),
        s.live + multiset{s.db[i].id});
    }
  }

  lemma AppendKeepsInv(s: System, j: Job)
    requires Inv(s) && !HasId(s.db, j.id) && WithKey(s.db, j.key) == |s.db| && JobOk(j, 0)
    ensures Inv(s.(db := s.db + [j]))
  {
    var db := s.db + [j];
    forall id | id in s.live ensures HasId(db, id) {
      var k :| 0 <= k < |s.db| && s.db[k].id == id;
      assert db[k].id == id;
    }
    assert j.id !in s.live;
    forall i | 0 <= i < |db| ensures JobOk(db[i], s.live[db[i].id]) {
    }
  }

  /** Job `i` of `s` and its counterpart in `s'` are joined by an edge of the lifecycle diagram. */
  predicate Moved(s: System, s': System, i: nat)
    requires i < |s.db| && i < |s'.db|
  {
    s'.db[i].id == s.db[i].id && Edge(s.db[i], s.live[s.db[i].id], s'.db[i], s'.live[s.db[i].id])
  }

  ghost predicate GoodStep(s: System, s': System) {
    && Inv(s')
    && |s.db| <= |s'.db| <= |s.db| + 1
    && forall i :: 0 <= i < |s.db| ==> Moved(s, s', i)
  }

  lemma SubmitStep(s: System, job: Job)
    requires Inv(s) && !HasId(s.db, job.id) && JobOk(job, 0)
    ensures GoodStep(s, s.(db := SubmitTo(s.db, job)))
    ensures s.db <= SubmitTo(s.db, job)
  {
    if WithKey(s.db, job.key) == |s.db| {
      AppendKeepsInv(s, job);
    }
  }

  lemma LoopMoves(s: System, i: nat)
    requires Inv(s) && i < |s.db| && |Apply(s, LoopTurn).db| == |s.db|
    requires Apply(s, LoopTurn).db[i] == JobAfter(s, LoopTurn, i)
    ensures Moved(s, Apply(s, LoopTurn), i)
  {
    AckKeepsInv(s);
    AckKeepsQueue(s);
    var c := WithStatus(s.db, Queued);
    assert c < |s.db| && i != c ==> s.db[i].id != s.db[c].id;
  }

  lemma LoopStep(s: System)
    requires Inv(s)
    ensures GoodStep(s, Apply(s, LoopTurn))
  {
    AckKeepsInv(s);
    ClaimKeepsInv(System(AckCancel(s.db), s.live));
    LoopPointwise(s);
    forall i | 0 <= i < |s.db| ensures Moved(s, Apply(s, LoopTurn), i) {
      LoopMoves(s, i);
    }
  }

  lemma OutcomeOk(j: Job)
    requires JobOk(j, 1)
    ensures JobOk(Outcome(j), 0) && Edge(j, 1, Outcome(j), 0)
  {
  }

  lemma WakeStep(s: System, id: string)
    requires Inv(s) && id in s.live
    ensures GoodStep(s, Apply(s, WakeUp(id)))
  {
    var k :| 0 <= k < |s.db| && s.db[k].id == id;
    UniqueId(s.db, k);
    OutcomeOk(s.db[k]);
    var s' := System(s.db[k := Outcome(s.db[k])], s.live - multiset{id});
    ReplaceKeepsInv(s, k, Outcome(s.db[k]), s'.live);
    assert Apply(s, WakeUp(id)) == s';
    forall i | 0 <= i < |s.db| ensures Moved(s, s', i) {
      assert i != k ==> s.db[i].id != id;
    }
  }

  lemma CancelStep(s: System, id: string)
    requires Inv(s) && Enabled(s, RequestCancel(id))
    ensures GoodStep(s, Apply(s, RequestCancel(id)))
  {
    var k := WithId(s.db, id);
    ReplaceKeepsInv(s, k, s.db[k].(status := CancelRequested), s.live);
  }

  /** Every step keeps the invariant, keeps every job in its place and moves it along an edge. */
  lemma StepKeepsInv(s: System, a: Action)
    requires Inv(s) && Enabled(s, a)
    ensures GoodStep(s, Apply(s, a))
  {
    match a
    case Submit(_, _, _, _, _) => SubmitStep(s, SubmittedJob(a));
    case LoopTurn => LoopStep(s);
    case WakeUp(id) => WakeStep(s, id);
    case RequestCancel(id) => CancelStep(s, id);
  }

  /** The fields of a job that are never assigned after it is stored. */
  predicate SameJob(j: Job, j': Job) {
    j'.id == j.id && j'.jobType == j.jobType && j'.key == j.key && j'.payload == j.payload
      && j'.maxAttempts == j.maxAttempts
  }

  lemma EdgeKeepsJob(j: Job, n: nat, j': Job, n': nat)
    requires Edge(j, n, j', n')
    ensures SameJob(j, j')
    ensures j.status == Succeeded ==> j' == j
    ensures j.status in {Queued, Running, Succeeded, Failed} ==> j'.status != Cancelled
  {
  }

  /** A store only grows, keeps the identity of its jobs and never un-succeeds one. */
  ghost predicate StoreExtends(db: seq<Job>, db': seq<Job>) {
    && |db| <= |db'|
    && (forall k :: 0 <= k < |db| ==> SameJob(db[k], db'[k]))
    && (forall k :: 0 <= k < |db| ==> db[k].status == Succeeded ==> db'[k] == db[k])
  }

  lemma GoodStepExtends(s: System, s': System)
    requires GoodStep(s, s')
    ensures StoreExtends(s.db, s'.db)
  {
    forall i | 0 <= i < |s.db|
      ensures SameJob(s.db[i], s'.db[i])
      ensures s.db[i].status == Succeeded ==> s'.db[i] == s.db[i]
    {
      assert Moved(s, s', i);
      EdgeKeepsJob(s.db[i], s.live[s.db[i].id], s'.db[i], s'.live[s.db[i].id]);
    }
  }

  lemma StepKeepsJobs(s: System, a: Action)
    requires Inv(s) && Enabled(s, a)
    ensures Inv(Apply(s, a)) && StoreExtends(s.db, Apply(s, a).db)
  {
    StepKeepsInv(s, a);
    GoodStepExtends(s, Apply(s, a));
  }

  /** The value of stored job `i` after a step, job by job. */
  function JobAfter(s: System, a: Action, i: nat): Job
    requires i < |s.db|
  {
    var j := s.db[i];
    match a
    case Submit(_, _, _, _, _) => j
    case LoopTurn =>
      if i == WithStatus(s.db, CancelRequested) then j.(status := Cancelled, error := Some(CANCEL_MESSAGE))
      else if i == WithStatus(s.db, Queued) then j.(status := Running, attempts := j.attempts + 1)
      else j
    case WakeUp(id) => if j.id == id then Outcome(j) else j
    case RequestCancel(id) => if j.id == id then j.(status := CancelRequested) else j
  }

  lemma AckKeepsQueue(s: System)
    requires Inv(s)
    ensures |AckCancel(s.db)| == |s.db|
    ensures WithStatus(AckCancel(s.db), Queued) == WithStatus(s.db, Queued)
  {
    AckKeepsInv(s);
    WithStatusIs(AckCancel(s.db), Queued, WithStatus(s.db, Queued));
  }

  lemma LoopPointwise(s: System)
    requires Inv(s)
    ensures var db := Apply(s, LoopTurn).db;
      |db| == |s.db| && forall i :: 0 <= i < |s.db| ==> db[i] == JobAfter(s, LoopTurn, i)
  {
    AckKeepsInv(s);
    AckKeepsQueue(s);
  }

  lemma WakePointwise(s: System, id: string)
    requires Inv(s) && id in s.live
    ensures var db := Apply(s, WakeUp(id)).db;
      |db| == |s.db| && forall i :: 0 <= i < |s.db| ==> db[i] == JobAfter(s, WakeUp(id), i)
  {
    var k :| 0 <= k < |s.db| && s.db[k].id == id;
    UniqueId(s.db, k);
  }

  lemma StepPointwise(s: System, a: Action)
    requires Inv(s) && Enabled(s, a)
    ensures |s.db| <= |Apply(s, a).db|
    ensures forall i :: 0 <= i < |s.db| ==> Apply(s, a).db[i] == JobAfter(s, a, i)
  {
    match a
    case Submit(_, _, _, _, _) => SubmitStep(s, SubmittedJob(a));
    case LoopTurn => LoopPointwise(s);
    case WakeUp(id) => WakePointwise(s, id);
    case RequestCancel(id) =>
  }

  /** Only a submission adds a job, under its own key. */
  lemma NewJobsAreSubmitted(s: System, a: Action)
    requires Inv(s) && Enabled(s, a)
    ensures forall i :: |s.db| <= i < |Apply(s, a).db| ==> a.Submit? && Apply(s, a).db[i] == SubmittedJob(a)
  {
    if !a.Submit? {
      NoNewJob(s, a);
    }
  }

  lemma NoNewJob(s: System, a: Action)
    requires Inv(s) && Enabled(s, a) && !a.Submit?
    ensures |Apply(s, a).db| == |s.db|
  {
    match a
    case LoopTurn => LoopPointwise(s);
    case WakeUp(id) => WakePointwise(s, id);
    case RequestCancel(id) =>
  }
}
