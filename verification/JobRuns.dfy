/** What holds over whole runs of the job store and the worker, whatever the interleaving. */
module JobRuns {
  import opened Wrappers
  import opened Jobs

  // ---------------------------------------------------------------- reachability

  lemma {:induction false} RunKeepsInv(s: System, acts: seq<Action>)
    requires Inv(s) && Legal(s, acts)
    ensures Inv(After(s, acts)) && |s.db| <= |After(s, acts).db|
    ensures forall i :: 0 <= i < |s.db| ==> SameJob(s.db[i], After(s, acts).db[i])
    decreases |acts|
  {
    if acts != [] {
      StepKeepsJobs(s, acts[0]);
      RunKeepsInv(Apply(s, acts[0]), acts[1..]);
    }
  }

  /**
   * The verdicts of the worker: a job succeeded in its only attempt, and a job failed only by using up
   * every attempt it was granted.  Cancellations anywhere in the run do not weaken this.
   */
  lemma Verdicts(acts: seq<Action>, i: nat)
    requires Legal(EMPTY, acts) && i < |After(EMPTY, acts).db|
    ensures var j := After(EMPTY, acts).db[i];
      && (j.status == Succeeded ==>
            && j.attempts == 1 && !j.payload.forceFail
            && j.result == Some(ArtifactRef("art_" + j.id, "storage://macro/processed_" + j.id + ".csv")))
      && (j.status == Failed ==>
            && j.attempts == j.maxAttempts && j.payload.forceFail
            && j.error == Some("Transient math convergence error."))
      && (j.status == Queued ==> j.attempts < j.maxAttempts && After(EMPTY, acts).live[j.id] == 0)
      && j.attempts <= j.maxAttempts && After(EMPTY, acts).live[j.id] <= 1
  {
    RunKeepsInv(EMPTY, acts);
  }

  /** No two jobs of a store share an artifact, by id or by address. */
  lemma ArtifactsDiffer(id: string, other: string)
    ensures ArtifactOf(id).artifactId == ArtifactOf(other).artifactId <==> id == other
    ensures ArtifactOf(id).uri == ArtifactOf(other).uri <==> id == other
  {
    assert ArtifactOf(id).artifactId[4..] == id && ArtifactOf(other).artifactId[4..] == other;
    AddressHolds(id);
    AddressHolds(other);
  }

  lemma AddressHolds(id: string)
    ensures var uri := ArtifactOf(id).uri; 26 <= |uri| - 4 && uri[26..|uri| - 4] == id
  {
    var head := "storage://macro/processed_";
    assert |head| == 26;
    assert ArtifactOf(id).uri == head + id + ".csv";
  }

  /** What a wake-up writes about its job, message and artifact included; no other job is touched. */
  lemma WakeWrites(s: System, id: string)
    requires Inv(s) && id in s.live
    ensures var k, db' := WithId(s.db, id), Apply(s, WakeUp(id)).db;
      && k < |s.db| == |db'| && s.db[k].id == id
      && (forall i :: 0 <= i < |s.db| && i != k ==> db'[i] == s.db[i])
      && var j, j' := s.db[k], db'[k];
      if j.status == CancelRequested then
        j' == j.(status := Cancelled, error := Some("Cancelled gracefully by human request."))
      else if !j.payload.forceFail then
        j' == j.(status := Succeeded,
                 result := Some(ArtifactRef("art_" + id, "storage://macro/processed_" + id + ".csv")))
      else if j.attempts < j.maxAttempts then j' == j.(status := Queued)
      else j' == j.(status := Failed, error := Some("Transient math convergence error."))
  {
    assert HasId(s.db, id);
  }

  predicate Untouched(s: System) { forall i :: 0 <= i < |s.db| ==> s.db[i].status !in {CancelRequested, Cancelled} }

  lemma UncancelledJob(s: System, a: Action, i: nat)
    requires !a.RequestCancel? && Untouched(s) && i < |s.db|
    ensures JobAfter(s, a, i).status !in {CancelRequested, Cancelled}
  {
  }

  lemma UncancelledStep(s: System, a: Action)
    requires Inv(s) && Enabled(s, a) && !a.RequestCancel? && Untouched(s)
    ensures Untouched(Apply(s, a))
  {
    StepPointwise(s, a);
    NewJobsAreSubmitted(s, a);
    var s' := Apply(s, a);
    forall i | 0 <= i < |s'.db| ensures s'.db[i].status !in {CancelRequested, Cancelled} {
      if i < |s.db| {
        UncancelledJob(s, a, i);
        assert s'.db[i] == JobAfter(s, a, i);
      }
    }
  }

  /** Without cancellation requests no job is ever cancelled. */
  lemma {:induction false} UncancelledRuns(s: System, acts: seq<Action>)
    requires Inv(s) && Legal(s, acts) && Untouched(s)
    requires forall k :: 0 <= k < |acts| ==> !acts[k].RequestCancel?
    ensures Untouched(After(s, acts))
    decreases |acts|
  {
    if acts != [] {
      StepKeepsInv(s, acts[0]);
      UncancelledStep(s, acts[0]);
      UncancelledRuns(Apply(s, acts[0]), acts[1..]);
    }
  }

  // ---------------------------------------------------------------- settled jobs

  /** Succeeded, failed or cancelled, with nothing in flight. */
  predicate Settled(s: System, i: nat)
    requires i < |s.db|
  {
    s.db[i].status in {Succeeded, Failed, Cancelled} && s.live[s.db[i].id] == 0
  }

  /** No later step of anybody changes any field of a settled job. */
  lemma {:induction false} SettledForever(s: System, acts: seq<Action>, i: nat)
    requires Inv(s) && Legal(s, acts) && i < |s.db| && Settled(s, i)
    ensures i < |After(s, acts).db| && After(s, acts).db[i] == s.db[i] && Settled(After(s, acts), i)
    decreases |acts|
  {
    if acts != [] {
      StepKeepsInv(s, acts[0]);
      var s' := Apply(s, acts[0]);
      assert Moved(s, s', i);
      SettledForever(s', acts[1..], i);
    }
  }

  /** A job whose cancellation was asked for while nothing ran it is never run again. */
  predicate Withdrawn(s: System, i: nat)
    requires i < |s.db|
  {
    s.db[i].status in {CancelRequested, Cancelled} && s.live[s.db[i].id] == 0
  }

  lemma {:induction false} WithdrawnForever(s: System, acts: seq<Action>, i: nat)
    requires Inv(s) && Legal(s, acts) && i < |s.db| && Withdrawn(s, i)
    ensures i < |After(s, acts).db| && Withdrawn(After(s, acts), i)
    ensures After(s, acts).db[i].attempts == s.db[i].attempts
    decreases |acts|
  {
    if acts != [] {
      StepKeepsInv(s, acts[0]);
      var s' := Apply(s, acts[0]);
      assert Moved(s, s', i);
      WithdrawnForever(s', acts[1..], i);
    }
  }

  /** Cancelled is left only by the wake-up of an execution that was in flight when it was acknowledged. */
  lemma CancelledExit(s: System, a: Action, i: nat)
    requires Inv(s) && Enabled(s, a) && i < |s.db| && s.db[i].status == Cancelled
    ensures i < |Apply(s, a).db|
    ensures Apply(s, a).db[i] == s.db[i] <==> !(a == WakeUp(s.db[i].id))
    ensures a == WakeUp(s.db[i].id) ==> s.live[s.db[i].id] == 1 && Apply(s, a).db[i] == Outcome(s.db[i])
  {
    StepPointwise(s, a);
    assert Apply(s, a).db[i] == JobAfter(s, a, i);
    UniqueId(s.db, i);
    assert JobOk(s.db[i], s.live[s.db[i].id]);
  }

  /** When nothing is queued, asleep or waiting for an acknowledgement, every job has its verdict. */
  lemma QuiescentIsSettled(s: System)
    requires Inv(s) && s.live == multiset{}
    requires forall i :: 0 <= i < |s.db| ==> s.db[i].status !in {Queued, CancelRequested}
    ensures forall i :: 0 <= i < |s.db| ==> Settled(s, i)
  {
    forall i | 0 <= i < |s.db| ensures Settled(s, i) {
      assert JobOk(s.db[i], s.live[s.db[i].id]);
    }
  }

  // ---------------------------------------------------------------- work is conserved

  /** Two units for each attempt left (a claim and a wake-up), one for an unacknowledged cancellation. */
  function Due(j: Job): int {
    2 * (j.maxAttempts - j.attempts) + if j.status == CancelRequested then 1 else 0
  }

  function TotalDue(db: seq<Job>): int {
    if db == [] then 0 else TotalDue(db[..|db| - 1]) + Due(db[|db| - 1])
  }

  function Potential(s: System): int { TotalDue(s.db) + |s.live| }

  /** Claims, wake-ups and cancellation acknowledgements performed by one step. */
  function Work(s: System, a: Action): nat {
    match a
    case LoopTurn =>
      (if WithStatus(s.db, CancelRequested) < |s.db| then 1 else 0)
        + (if ClaimedId(AckCancel(s.db)).Some? then 1 else 0)
    case WakeUp(id) =>
      1 + if Lookup(s.db, id).Some? && Lookup(s.db, id).value.status == CancelRequested then 1 else 0
    case _ => 0
  }

  /** What a step adds to the work to come: the attempts of a new job, or a cancellation request. */
  function Granted(s: System, a: Action): nat {
    match a
    case Submit(_, _, key, _, maxAttempts) => if WithKey(s.db, key) < |s.db| then 0 else 2 * maxAttempts
    case RequestCancel(_) => 1
    case _ => 0
  }

  ghost function RunWork(s: System, acts: seq<Action>): nat
    decreases |acts|
  {
    if acts == [] then 0 else Work(s, acts[0]) + RunWork(Apply(s, acts[0]), acts[1..])
  }

  ghost function RunGranted(s: System, acts: seq<Action>): nat
    decreases |acts|
  {
    if acts == [] then 0 else Granted(s, acts[0]) + RunGranted(Apply(s, acts[0]), acts[1..])
  }

  lemma {:induction false} DueAfterReplace(db: seq<Job>, i: nat, j: Job)
    requires i < |db|
    ensures TotalDue(db[i := j]) == TotalDue(db) - Due(db[i]) + Due(j)
  {
    var n := |db| - 1;
    assert db[i := j][..n] == if i == n then db[..n] else db[..n][i := j];
    if i < n {
      DueAfterReplace(db[..n], i, j);
    }
  }

  lemma {:induction false} DueNonNegative(s: System, n: nat)
    requires Inv(s) && n <= |s.db|
    ensures TotalDue(s.db[..n]) >= 0
  {
    if n > 0 {
      assert s.db[..n][..n - 1] == s.db[..n - 1];
      assert JobOk(s.db[n - 1], s.live[s.db[n - 1].id]);
      DueNonNegative(s, n - 1);
    }
  }

  lemma ClaimConserves(s: System)
    requires Inv(s)
    ensures TotalDue(Claim(s.db)) == TotalDue(s.db) - if ClaimedId(s.db).Some? then 2 else 0
  {
    var i := WithStatus(s.db, Queued);
    if i < |s.db| {
      var claimed := s.db[i].(status := Running, attempts := s.db[i].attempts + 1);
      assert Due(claimed) == Due(s.db[i]) - 2;
      DueAfterReplace(s.db, i, claimed);
    }
  }

  lemma LoopConserves(s: System)
    requires Inv(s)
    ensures Work(s, LoopTurn) + Potential(Apply(s, LoopTurn)) == Potential(s)
  {
    var i := WithStatus(s.db, CancelRequested);
    AckKeepsInv(s);
    if i < |s.db| {
      DueAfterReplace(s.db, i, s.db[i].(status := Cancelled, error := Some(CANCEL_MESSAGE)));
    }
    ClaimConserves(System(AckCancel(s.db), s.live));
  }

  lemma WakeConserves(s: System, id: string)
    requires Inv(s) && id in s.live
    ensures Work(s, WakeUp(id)) + Potential(Apply(s, WakeUp(id))) == Potential(s)
  {
    var k :| 0 <= k < |s.db| && s.db[k].id == id;
    UniqueId(s.db, k);
    assert Apply(s, WakeUp(id)).db == s.db[k := Outcome(s.db[k])];
    DueAfterReplace(s.db, k, Outcome(s.db[k]));
    assert JobOk(s.db[k], s.live[id]);
  }

  lemma StepConserves(s: System, a: Action)
    requires Inv(s) && Enabled(s, a)
    ensures Work(s, a) + Potential(Apply(s, a)) == Potential(s) + Granted(s, a)
  {
    match a
    case Submit(id, t, key, payload, m) =>
      var job := NewJob(id, t, key, payload).(maxAttempts := m);
      if WithKey(s.db, key) == |s.db| {
        assert SubmitTo(s.db, job)[..|s.db|] == s.db;
      }
    case LoopTurn => LoopConserves(s);
    case WakeUp(id) => WakeConserves(s, id);
    case RequestCancel(id) =>
      var k := WithId(s.db, id);
      DueAfterReplace(s.db, k, s.db[k].(status := CancelRequested));
  }

  /**
   * Over any run, the claims, wake-ups and acknowledgements done plus those still to come equal those
   * to come at the start plus those granted on the way.
   */
  lemma {:induction false} WorkConserved(s: System, acts: seq<Action>)
    requires Inv(s) && Legal(s, acts)
    ensures RunWork(s, acts) + Potential(After(s, acts)) == Potential(s) + RunGranted(s, acts)
    decreases |acts|
  {
    if acts != [] {
      StepConserves(s, acts[0]);
      StepKeepsInv(s, acts[0]);
      WorkConserved(Apply(s, acts[0]), acts[1..]);
    }
  }

  /** From the empty store the worker does at most twice the attempts granted, plus the cancellations asked for. */
  lemma WorkBound(acts: seq<Action>)
    requires Legal(EMPTY, acts)
    ensures RunWork(EMPTY, acts) <= RunGranted(EMPTY, acts)
  {
    WorkConserved(EMPTY, acts);
    RunKeepsInv(EMPTY, acts);
    var s := After(EMPTY, acts);
    DueNonNegative(s, |s.db|);
    assert s.db[..|s.db|] == s.db;
  }

  // ---------------------------------------------------------------- bounded waiting

  /** Attempts left to the jobs submitted before job `i`. */
  function Backlog(db: seq<Job>, i: nat): int
    requires i <= |db|
  {
    if i == 0 then 0 else Backlog(db, i - 1) + db[i - 1].maxAttempts - db[i - 1].attempts
  }

  lemma {:induction false} BacklogCongruent(db: seq<Job>, db': seq<Job>, i: nat)
    requires i <= |db| && i <= |db'|
    requires forall k :: 0 <= k < i ==> db[k].maxAttempts == db'[k].maxAttempts && db[k].attempts == db'[k].attempts
    ensures Backlog(db, i) == Backlog(db', i)
  {
    if i > 0 {
      BacklogCongruent(db, db', i - 1);
    }
  }

  lemma {:induction false} BacklogAfterClaim(db: seq<Job>, i: nat, k: nat)
    requires k < i <= |db|
    ensures Backlog(db[k := db[k].(status := Running, attempts := db[k].attempts + 1)], i) == Backlog(db, i) - 1
  {
    var db' := db[k := db[k].(status := Running, attempts := db[k].attempts + 1)];
    if k == i - 1 {
      BacklogCongruent(db, db', k);
    } else {
      BacklogAfterClaim(db, i - 1, k);
    }
  }

  lemma {:induction false} BacklogNonNegative(s: System, i: nat)
    requires Inv(s) && i <= |s.db|
    ensures Backlog(s.db, i) >= 0
  {
    if i > 0 {
      assert JobOk(s.db[i - 1], s.live[s.db[i - 1].id]);
      BacklogNonNegative(s, i - 1);
    }
  }

  predicate IsQueued(s: System, i: nat) { i < |s.db| && s.db[i].status == Queued }

  function Turns(acts: seq<Action>): nat {
    if acts == [] then 0 else (if acts[0].LoopTurn? then 1 else 0) + Turns(acts[1..])
  }

  /** How a queued job can stop being queued: claimed by the loop, or its own cancellation asked for. */
  predicate Dequeued(s: System, a: Action, i: nat)
    requires i < |s.db|
  {
    || (a == LoopTurn && i < |Apply(s, a).db|
        && Apply(s, a).db[i] == s.db[i].(status := Running, attempts := s.db[i].attempts + 1))
    || a == RequestCancel(s.db[i].id)
  }

  lemma QueuedMove(s: System, a: Action, i: nat)
    requires Inv(s) && Enabled(s, a) && IsQueued(s, i)
    ensures i < |Apply(s, a).db|
    ensures !IsQueued(Apply(s, a), i) <==> Dequeued(s, a, i)
    ensures a == LoopTurn && IsQueued(Apply(s, a), i) ==> WithStatus(s.db, Queued) < i
  {
    StepPointwise(s, a);
    QueuedNext(s, a, i);
  }

  lemma QueuedNext(s: System, a: Action, i: nat)
    requires Inv(s) && Enabled(s, a) && IsQueued(s, i)
    ensures var j := JobAfter(s, a, i);
      if j.status == Queued then a != RequestCancel(s.db[i].id) && (a == LoopTurn ==> WithStatus(s.db, Queued) < i)
      else
        || (a == LoopTurn && j == s.db[i].(status := Running, attempts := s.db[i].attempts + 1))
        || a == RequestCancel(s.db[i].id)
  {
    assert JobOk(s.db[i], s.live[s.db[i].id]);
  }

  lemma SameBacklog(s: System, a: Action, db: seq<Job>, i: nat)
    requires Inv(s) && Enabled(s, a) && i < |s.db| == |db|
    requires forall k :: 0 <= k < i ==>
      JobAfter(s, a, k).attempts == db[k].attempts && s.db[k].maxAttempts == db[k].maxAttempts
    ensures i <= |Apply(s, a).db| && Backlog(Apply(s, a).db, i) == Backlog(db, i)
  {
    StepPointwise(s, a);
    var after := Apply(s, a).db;
    forall k | 0 <= k < i ensures after[k].attempts == db[k].attempts && after[k].maxAttempts == db[k].maxAttempts {
      assert after[k] == JobAfter(s, a, k);
      GrantIsKept(s, a, k);
    }
    BacklogCongruent(db, after, i);
  }

  lemma GrantIsKept(s: System, a: Action, k: nat)
    requires k < |s.db|
    ensures JobAfter(s, a, k).maxAttempts == s.db[k].maxAttempts
  {
  }

  lemma TurnBacklog(s: System, i: nat)
    requires Inv(s) && WithStatus(s.db, Queued) < i < |s.db|
    ensures i <= |Apply(s, LoopTurn).db| && Backlog(Apply(s, LoopTurn).db, i) == Backlog(s.db, i) - 1
  {
    var k := WithStatus(s.db, Queued);
    BacklogAfterClaim(s.db, i, k);
    SameBacklog(s, LoopTurn, s.db[k := s.db[k].(status := Running, attempts := s.db[k].attempts + 1)], i);
  }

  lemma OtherBacklog(s: System, a: Action, i: nat)
    requires Inv(s) && Enabled(s, a) && a != LoopTurn && i < |s.db|
    ensures i <= |Apply(s, a).db| && Backlog(Apply(s, a).db, i) == Backlog(s.db, i)
  {
    SameBacklog(s, a, s.db, i);
  }

  /** While job `i` stays queued, a loop turn takes one attempt off its backlog and nothing adds to it. */
  lemma QueuedStep(s: System, a: Action, i: nat)
    requires Inv(s) && Enabled(s, a) && IsQueued(s, i)
    ensures i < |Apply(s, a).db|
    ensures !IsQueued(Apply(s, a), i) <==> Dequeued(s, a, i)
    ensures IsQueued(Apply(s, a), i) ==> Backlog(Apply(s, a).db, i) == Backlog(s.db, i) - if a == LoopTurn then 1 else 0
  {
    QueuedMove(s, a, i);
    if a != LoopTurn {
      OtherBacklog(s, a, i);
    } else if IsQueued(Apply(s, a), i) {
      TurnBacklog(s, i);
    }
  }

  /**
   * A job that is queued behind a backlog of `b` attempts leaves the queue within `b + 1` loop turns of
   * any run, and it leaves by being claimed unless its own cancellation was asked for.
   */
  lemma {:induction false} BoundedWaiting(s: System, acts: seq<Action>, i: nat) returns (n: nat)
    requires Inv(s) && Legal(s, acts) && IsQueued(s, i)
    requires Turns(acts) > Backlog(s.db, i)
    ensures n < |acts| && Legal(s, acts[..n]) && Turns(acts[..n]) <= Backlog(s.db, i)
    ensures IsQueued(After(s, acts[..n]), i) && Dequeued(After(s, acts[..n]), acts[n], i)
    decreases |acts|
  {
    BacklogNonNegative(s, i);
    QueuedStep(s, acts[0], i);
    if Dequeued(s, acts[0], i) {
      n := 0;
      assert acts[..n] == [];
    } else {
      StepKeepsInv(s, acts[0]);
      var m := BoundedWaiting(Apply(s, acts[0]), acts[1..], i);
      n := m + 1;
      assert acts[n] == acts[1..][m];
      PrefixCons(s, acts, m);
    }
  }

  lemma PrefixCons(s: System, acts: seq<Action>, m: nat)
    requires m < |acts| && Enabled(s, acts[0]) && Legal(Apply(s, acts[0]), acts[1..][..m])
    ensures Legal(s, acts[..m + 1]) && After(s, acts[..m + 1]) == After(Apply(s, acts[0]), acts[1..][..m])
    ensures Turns(acts[..m + 1]) == Turns(acts[1..][..m]) + if acts[0].LoopTurn? then 1 else 0
  {
    assert acts[..m + 1][0] == acts[0] && acts[..m + 1][1..] == acts[1..][..m];
  }

  // ---------------------------------------------------------------- submission

  /** Submitting under a key again, at any later time, returns the first id and writes nothing. */
  lemma ResubmissionIsIdempotent(s: System, a: Action, acts: seq<Action>, again: Job)
    requires Inv(s) && a.Submit? && Enabled(s, a) && Legal(Apply(s, a), acts) && again.key == a.key
    ensures var s' := After(Apply(s, a), acts);
      && SubmitTo(s'.db, again) == s'.db
      && SubmittedId(s'.db, again) == SubmittedId(s.db, NewJob(a.id, a.jobType, a.key, a.payload))
  {
    StepKeepsInv(s, a);
    SubmittedIsStored(s, a);
    StoredStaysFound(Apply(s, a), acts, a.key);
  }

  lemma SubmittedIsStored(s: System, a: Action)
    requires Inv(s) && a.Submit? && Enabled(s, a)
    ensures var db := Apply(s, a).db; var k := WithKey(db, a.key);
      k < |db| && db[k].id == SubmittedId(s.db, NewJob(a.id, a.jobType, a.key, a.payload))
  {
    SubmitStep(s, NewJob(a.id, a.jobType, a.key, a.payload).(maxAttempts := a.maxAttempts));
    var i := WithKey(s.db, a.key);
    assert Apply(s, a).db[if i < |s.db| then i else |s.db|].key == a.key;
  }

  lemma StoredStaysFound(s: System, acts: seq<Action>, key: string)
    requires Inv(s) && Legal(s, acts) && WithKey(s.db, key) < |s.db|
    ensures var db, k := After(s, acts).db, WithKey(s.db, key);
      WithKey(db, key) == k < |db| && db[k].id == s.db[k].id
  {
    RunKeepsInv(s, acts);
    var db, k := After(s, acts).db, WithKey(s.db, key);
    assert db[k].key == key && db[k].id == s.db[k].id;
  }

  /**
   * Ids come from a millisecond clock.  A submission keeps every stored job exactly when its key is
   * already stored or its id is not.
   */
  lemma SubmissionKeepsStore(db: seq<Job>, job: Job)
    ensures db <= SubmitTo(db, job) <==> WithKey(db, job.key) < |db| || !HasId(db, job.id)
  {
    var i := WithId(db, job.id);
    if WithKey(db, job.key) == |db| && i < |db| {
      assert SubmitTo(db, job)[i].key != db[i].key;
    }
  }

  /** Two submissions in the same millisecond: the first job disappears. */
  lemma SameMillisecondLosesJob()
    ensures var plan := Plan(None, false, map[]);
      var db := SubmitTo(SubmitTo([], NewJob("job_async_1", "arima", "a", plan)),
        NewJob("job_async_1", "arima", "b", plan));
      |db| == 1 && WithKey(db, "a") == |db|
  {
  }

  // ---------------------------------------------------------------- failing to the end

  /** One claim and one wake-up of a job that is alone in the store. */
  lemma AloneRound(j: Job)
    requires j.status == Queued
    ensures var s := System([j], multiset{});
      var s1 := Apply(s, LoopTurn);
      && j.id in s1.live
      && Apply(s1, WakeUp(j.id)) == System([Outcome(j.(status := Running, attempts := j.attempts + 1))], multiset{})
  {
    var s := System([j], multiset{});
    var running := j.(status := Running, attempts := j.attempts + 1);
    WithStatusIs([j], CancelRequested, 1);
    WithStatusIs([j], Queued, 0);
    assert Apply(s, LoopTurn) == System([running], multiset{j.id});
    WithIdIs([running], j.id, 0);
    assert multiset{j.id} - multiset{j.id} == multiset{};
  }

  /** A job that always fails, alone in the store, is claimed and retried until it has failed. */
  lemma {:induction false} FailingJobFails(j: Job) returns (acts: seq<Action>, failed: Job)
    requires j.status == Queued && j.payload.forceFail && j.attempts < j.maxAttempts
    ensures Legal(System([j], multiset{}), acts) && After(System([j], multiset{}), acts) == System([failed], multiset{})
    ensures failed.status == Failed && failed.id == j.id && forall a :: a in acts ==> !a.Submit?
    decreases j.maxAttempts - j.attempts
  {
    AloneRound(j);
    var next := Outcome(j.(status := Running, attempts := j.attempts + 1));
    var s, s1 := System([j], multiset{}), Apply(System([j], multiset{}), LoopTurn);
    var rest: seq<Action>;
    if next.status == Queued {
      rest, failed := FailingJobFails(next);
    } else {
      rest, failed := [], next;
    }
    RunCons(s1, WakeUp(j.id), rest);
    RunCons(s, LoopTurn, [WakeUp(j.id)] + rest);
    acts := [LoopTurn] + ([WakeUp(j.id)] + rest);
  }

  lemma RunCons(s: System, a: Action, rest: seq<Action>)
    requires Enabled(s, a) && Legal(Apply(s, a), rest)
    ensures Legal(s, [a] + rest) && After(s, [a] + rest) == After(Apply(s, a), rest)
  {
    assert ([a] + rest)[1..] == rest;
  }
}
