/** The store and the worker as the objects that the graph and the event loop share. */
module JobStore {
  import opened Wrappers
  import opened Jobs
  import Decimal

  class JobRecord {
    const jobId: string
    const jobType: string
    const idempotencyKey: string
    const payload: Plan
    var status: Status
    var result: Option<ArtifactRef>
    var error: Option<string>
    var attemptCount: nat
    var maxAttempts: nat

    constructor (jobId: string, jobType: string, idempotencyKey: string, payload: Plan)
      ensures Value() == NewJob(jobId, jobType, idempotencyKey, payload)
    {
      this.jobId := jobId;
      this.jobType := jobType;
      this.idempotencyKey := idempotencyKey;
      this.payload := payload;
      status := Queued;
      result := None;
      error := None;
      attemptCount := 0;
      maxAttempts := DEFAULT_MAX_ATTEMPTS;
    }

    ghost function Value(): Job
      reads this
    {
      Job(jobId, jobType, idempotencyKey, payload, status, result, error, attemptCount, maxAttempts)
    }
  }

  function ClockId(nowMs: nat): string { "job_async_" + Decimal.Digits(nowMs) }

  /** A clock id names its millisecond. */
  lemma ClockIdIs(nowMs: nat, other: nat)
    ensures ClockId(nowMs)[..10] == "job_async_" && Decimal.DigitsValue(ClockId(nowMs)[10..]) == nowMs
    ensures ClockId(nowMs) == ClockId(other) <==> nowMs == other
  {
    Decimal.DigitsRoundTrip(nowMs);
    Decimal.DigitsRoundTrip(other);
    assert ClockId(nowMs)[10..] == Decimal.Digits(nowMs) && ClockId(other)[10..] == Decimal.Digits(other);
  }

  class JobStore {
    var db: seq<JobRecord>

    ghost predicate Valid()
      reads this
    {
      forall i, k :: 0 <= i < k < |db| ==> db[i].jobId != db[k].jobId
    }

    ghost function Contents(): seq<Job>
      reads this, db
    {
      seq(|db|, i requires 0 <= i < |db| reads this, db => db[i].Value())
    }

    constructor ()
      ensures Valid() && Contents() == []
    {
      db := [];
    }

    method Position(id: string) returns (i: nat)
      ensures i == WithId(Contents(), id)
    {
      i := 0;
      while i < |db| && db[i].jobId != id
        invariant i <= |db|
        invariant forall k :: 0 <= k < i ==> Contents()[k].id != id
      {
        i := i + 1;
      }
      WithIdIs(Contents(), id, i);
    }

    method GetJob(id: string) returns (job: JobRecord?)
      ensures job == null <==> WithId(Contents(), id) == |db|
      ensures job != null ==> job == db[WithId(Contents(), id)] && job.jobId == id
    {
      var i := Position(id);
      job := if i < |db| then db[i] else null;
    }

    /** `_db[job_id] = record`. */
    method Assign(job: JobRecord)
      requires Valid()
      modifies this
      ensures Valid() && job in db
      ensures Contents() == Put(old(Contents()), old(job.Value()))
    {
      var at := Position(job.jobId);
      ghost var before := Contents();
      assert forall k :: 0 <= k < |db| ==> before[k].id == db[k].jobId;
      if at < |db| {
        db := db[at := job];
        assert Contents() == before[at := job.Value()];
      } else {
        db := db + [job];
        assert Contents() == before + [job.Value()];
      }
      assert job == db[at];
    }

    method SubmitJob(jobType: string, key: string, payload: Plan, nowMs: nat) returns (job: JobRecord)
      requires Valid()
      modifies this
      ensures Valid()
      ensures Contents() == SubmitTo(old(Contents()), NewJob(ClockId(nowMs), jobType, key, payload))
      ensures job in db && job.jobId == SubmittedId(old(Contents()), NewJob(ClockId(nowMs), jobType, key, payload))
    {
      var i := 0;
      while i < |db|
        invariant i <= |db|
        invariant forall k :: 0 <= k < i ==> Contents()[k].key != key
      {
        if db[i].idempotencyKey == key {
          WithKeyIs(Contents(), key, i);
          return db[i];
        }
        i := i + 1;
      }
      WithKeyIs(Contents(), key, i);
      job := new JobRecord(ClockId(nowMs), jobType, key, payload);
      Assign(job);
    }

    method UpdateJobStatus(id: string, status: Status, result: Option<ArtifactRef>, error: Option<string>)
      returns (found: bool)
      requires Valid()
      modifies db
      ensures db == old(db) && Valid()
      ensures Contents() == Restatus(old(Contents()), id, status, result, error)
      ensures found <==> HasId(Contents(), id)
    {
      var i := Position(id);
      found := i < |db|;
      if found {
        db[i].status := status;
        if result.Some? {
          db[i].result := result;
        }
        if error.Some? {
          db[i].error := error;
        }
        assert Contents()[i].id == id;
      }
    }

    method FetchNext(status: Status) returns (job: JobRecord?)
      ensures var i := WithStatus(Contents(), status);
        if i == |db| then job == null else job == db[i] && job.status == status
    {
      var i := 0;
      while i < |db|
        invariant i <= |db|
        invariant forall k :: 0 <= k < i ==> Contents()[k].status != status
      {
        if db[i].status == status {
          WithStatusIs(Contents(), status, i);
          return db[i];
        }
        i := i + 1;
      }
      WithStatusIs(Contents(), status, i);
      return null;
    }
  }

  lemma ClaimIs(before: seq<Job>, marked: seq<Job>, i: nat)
    requires i == WithStatus(before, Queued) < |before| && marked == before[i := before[i].(status := Running)]
    ensures Claim(before) == marked[i := marked[i].(attempts := marked[i].attempts + 1)]
  {
  }

  class Worker {
    const store: JobStore
    /** The event loop's sleeping executions, by job id. */
    ghost var live: multiset<string>

    constructor (store: JobStore)
      ensures this.store == store && live == multiset{}
    {
      this.store := store;
      live := multiset{};
    }

    ghost function View(): System
      reads this, store, store.db
    {
      System(store.Contents(), live)
    }

    method AcknowledgeCancellation()
      requires store.Valid()
      modifies store.db
      ensures store.db == old(store.db) && store.Valid()
      ensures store.Contents() == AckCancel(old(store.Contents()))
    {
      var cancelled := store.FetchNext(CancelRequested);
      if cancelled != null {
        var _ := store.UpdateJobStatus(cancelled.jobId, Cancelled, None, Some(CANCEL_MESSAGE));
      }
    }

    method MarkRunning(job: JobRecord, ghost i: nat)
      requires store.Valid() && i < |store.db| && store.db[i] == job
      modifies store.db
      ensures store.db == old(store.db) && store.Valid()
      ensures store.Contents() == old(store.Contents())[i := old(store.Contents())[i].(status := Running)]
    {
      WithIdIs(store.Contents(), job.jobId, i);
      var _ := store.UpdateJobStatus(job.jobId, Running, None, None);
    }

    /** `job.attempt_count += 1`. */
    method CountAttempt(job: JobRecord, ghost i: nat)
      requires store.Valid() && i < |store.db| && store.db[i] == job
      modifies job
      ensures store.db == old(store.db) && store.Valid()
      ensures var before := old(store.Contents());
        store.Contents() == before[i := before[i].(attempts := before[i].attempts + 1)]
    {
      assert forall k :: 0 <= k < |store.db| && store.db[k] == job ==> k == i;
      job.attemptCount := job.attemptCount + 1;
    }

    method Claimed(job: JobRecord, ghost i: nat)
      requires store.Valid() && i == WithStatus(store.Contents(), Queued) < |store.db| && store.db[i] == job
      modifies store.db
      ensures store.db == old(store.db) && store.Valid()
      ensures store.Contents() == Claim(old(store.Contents()))
    {
      ghost var before := store.Contents();
      MarkRunning(job, i);
      ghost var marked := store.Contents();
      CountAttempt(job, i);
      ClaimIs(before, marked, i);
    }

    method ClaimNext()
      requires store.Valid()
      modifies this, store.db
      ensures store.db == old(store.db) && store.Valid()
      ensures store.Contents() == Claim(old(store.Contents()))
      ensures var id := ClaimedId(old(store.Contents()));
        live == if id.Some? then old(live) + multiset{id.value} else old(live)
    {
      var job := store.FetchNext(Queued);
      if job != null {
        Claimed(job, WithStatus(store.Contents(), Queued));
        live := live + multiset{job.jobId};
      }
    }

    /** The body of the polling loop, up to its sleep. */
    method Turn()
      requires store.Valid()
      modifies this, store.db
      ensures store.db == old(store.db) && store.Valid()
      ensures View() == Apply(old(View()), LoopTurn)
    {
      AcknowledgeCancellation();
      ClaimNext();
    }

    method WriteOutcome(job: JobRecord, ghost i: nat)
      requires store.Valid() && i < |store.db| && store.db[i] == job
      modifies store.db
      ensures store.db == old(store.db) && store.Valid()
      ensures store.Contents() == FinishUpdate(old(store.Contents()), old(job.Value()))
    {
      WithIdIs(store.Contents(), job.jobId, i);
      var current := store.GetJob(job.jobId);
      if current != null && current.status == CancelRequested {
        var _ := store.UpdateJobStatus(job.jobId, Cancelled, None, Some(CANCEL_MESSAGE));
      } else if job.payload.forceFail {
        if job.attemptCount < job.maxAttempts {
          var _ := store.UpdateJobStatus(job.jobId, Queued, None, None);
        } else {
          var _ := store.UpdateJobStatus(job.jobId, Failed, None, Some(FAILURE_MESSAGE));
        }
      } else {
        var _ := store.UpdateJobStatus(job.jobId, Succeeded, Some(ArtifactOf(job.jobId)), None);
      }
    }

    /** What an execution of `job` does between its sleep and its end. */
    method Wake(job: JobRecord)
      requires store.Valid() && job in store.db && job.jobId in live
      modifies this, store.db
      ensures store.db == old(store.db) && store.Valid()
      ensures View() == Apply(old(View()), WakeUp(job.jobId))
    {
      ghost var before := store.Contents();
      ghost var i: nat :| i < |store.db| && store.db[i] == job;
      assert before[i] == job.Value();
      WithIdIs(before, job.jobId, i);
      FinishIsUpdate(before, i);
      live := live - multiset{job.jobId};
      WriteOutcome(job, i);
    }
  }
}
