// internal/jobs/queue.go: the in-memory job queue.  Times and durations are nanoseconds.
module JobQueue {
  import opened Common

  const MAX_JOBS: nat := 10000   // memoryQueueMaxJobs

  datatype Status = Pending | Running | Completed | Failed

  datatype Job = Job(
    id: nat,
    kind: string,
    status: Status,
    attempts: int,
    maxAttempts: int,
    nextRunAt: int)
  {
    predicate Finished() {
      status.Completed? || status.Failed?
    }
  }

  // ---- backoff, with the int64 arithmetic of time.Duration ----

  predicate IsInt64(x: int) {
    -0x8000_0000_0000_0000 <= x < 0x8000_0000_0000_0000
  }

  /** An int64 multiplication keeps the low 64 bits. */
  function Wrap64(x: int): (r: int)
    ensures IsInt64(r)
  {
    if IsInt64(x) then x
    else (x + 0x8000_0000_0000_0000) % 0x1_0000_0000_0000_0000 - 0x8000_0000_0000_0000
  }

  function Pow3(n: nat): (r: nat)
    ensures r >= 1
  {
    if n == 0 then 1 else 3 * Pow3(n - 1)
  }

  /** The documented delay, 5s * 3^(attempt-1). */
  function Documented(attempt: int): int {
    5_000_000_000 * Pow3(if attempt >= 1 then attempt - 1 else 0)
  }

  function Backoff(attempt: int): int
    decreases attempt
  {
    if attempt <= 1 then 5_000_000_000 else Wrap64(Backoff(attempt - 1) * 3)
  }

  method ComputeBackoff(attempt: int) returns (d: int)
    ensures d == Backoff(attempt)
  {
    d := 5_000_000_000;
    var i := 1;
    while i < attempt
      invariant 1 <= i && (i <= attempt || i == 1)
      invariant d == Backoff(i)
    {
      d := Wrap64(d * 3);
      i := i + 1;
    }
  }

  lemma {:induction false} Pow3Grows(m: nat, n: nat)
    requires m <= n
    ensures Pow3(m) <= Pow3(n)
    decreases n
  {
    if m < n {
      Pow3Grows(m, n - 1);
    }
  }

  lemma Pow3Edge()
    ensures Pow3(19) == 1162261467 && Pow3(20) == 3486784401
  {
    assert Pow3(5) == 243;
    assert Pow3(10) == 59049;
    assert Pow3(15) == 14348907;
  }

  lemma TripleFits(d: int, p: nat)
    requires d == 5_000_000_000 * p && 3 * p <= 1162261467
    ensures Wrap64(d * 3) == 5_000_000_000 * (3 * p)
  {
  }

  lemma {:induction false} BackoffUpTo20(attempt: int)
    requires attempt <= 20
    ensures Backoff(attempt) == Documented(attempt)
    decreases attempt
  {
    if attempt > 1 {
      BackoffUpTo20(attempt - 1);
      Pow3Grows(attempt - 1, 19);
      Pow3Edge();
      TripleFits(Backoff(attempt - 1), Pow3(attempt - 2));
    }
  }

  /** The wait is the documented one exactly for the first twenty attempts; from the
      twenty-first on the multiplication has left int64. */
  lemma BackoffExact(attempt: int)
    ensures Backoff(attempt) == Documented(attempt) <==> attempt <= 20
    ensures attempt > 20 ==> Backoff(attempt) < Documented(attempt)
  {
    if attempt <= 20 {
      BackoffUpTo20(attempt);
    } else {
      Pow3Edge();
      Pow3Grows(20, attempt - 1);
      assert IsInt64(Backoff(attempt));
    }
  }

  /** At the twenty-first attempt the wrapped delay is negative: the retry is due at once. */
  lemma BackoffWraps(attempt: int)
    requires attempt == 21
    ensures Backoff(attempt) == -1_012_822_068_709_551_616
  {
    BackoffUpTo20(attempt - 1);
    Pow3At(attempt - 2);
    WrapOnce(Backoff(attempt - 1) * 3);
  }

  lemma Pow3At(n: nat)
    requires n == 19
    ensures Pow3(n) == 1162261467
  {
    Pow3Edge();
  }

  lemma WrapOnce(x: int)
    requires x == 17_433_922_005_000_000_000
    ensures Wrap64(x) == -1_012_822_068_709_551_616
  {
  }

  // ---- The queue's operations as functions on its job list ----

  function RemoveAt(jobs: seq<Job>, i: nat): seq<Job>
    requires i < |jobs|
  {
    jobs[..i] + jobs[i + 1..]
  }

  /** Index of the first finished job; the length if there is none. */
  function FirstFinished(jobs: seq<Job>): (i: nat)
    ensures i <= |jobs|
    ensures i < |jobs| ==> jobs[i].Finished()
    ensures forall k | 0 <= k < i :: !jobs[k].Finished()
  {
    if jobs == [] || jobs[0].Finished() then 0 else 1 + FirstFinished(jobs[1..])
  }

  /** The job eviction removes next. */
  function Victim(jobs: seq<Job>): (i: nat)
    requires jobs != []
    ensures i < |jobs|
    ensures jobs[i].Finished() || forall j | j in jobs :: !j.Finished()
  {
    var i := FirstFinished(jobs);
    if i < |jobs| then i else 0
  }

  /** evictLocked */
  function Evict(jobs: seq<Job>): seq<Job>
    decreases |jobs|
  {
    if |jobs| < MAX_JOBS then jobs
    else
      Evict(RemoveAt(jobs, Victim(jobs)))
  }

  function Enqueue(jobs: seq<Job>, j: Job): seq<Job> {
    Evict(jobs) + [j]
  }

  predicate Due(j: Job, now: int) {
    j.status.Pending? && j.nextRunAt <= now
  }

  /** Index of the first job Dequeue would hand out; the length if there is none. */
  function FirstDue(jobs: seq<Job>, now: int): (i: nat)
    ensures i <= |jobs|
    ensures i < |jobs| ==> Due(jobs[i], now)
    ensures forall k | 0 <= k < i :: !Due(jobs[k], now)
  {
    if jobs == [] || Due(jobs[0], now) then 0 else 1 + FirstDue(jobs[1..], now)
  }

  function Claim(j: Job): Job {
    j.(status := Running, attempts := j.attempts + 1)
  }

  /** Index of the job with this id; the length if there is none. */
  function Find(jobs: seq<Job>, id: nat): (i: nat)
    ensures i <= |jobs|
    ensures i < |jobs| ==> jobs[i].id == id
    ensures forall k | 0 <= k < i :: jobs[k].id != id
  {
    if jobs == [] || jobs[0].id == id then 0 else 1 + Find(jobs[1..], id)
  }

  function FailJob(j: Job, now: int): Job {
    if j.attempts < j.maxAttempts
    then j.(status := Pending, nextRunAt := now + Backoff(j.attempts))
    else j.(status := Failed)
  }

  function Complete(jobs: seq<Job>, id: nat): seq<Job> {
    var i := Find(jobs, id);
    if i < |jobs| then jobs[i := jobs[i].(status := Completed)] else jobs
  }

  function Fail(jobs: seq<Job>, id: nat, now: int): seq<Job> {
    var i := Find(jobs, id);
    if i < |jobs| then jobs[i := FailJob(jobs[i], now)] else jobs
  }

  // ---- Eviction ----

  ghost predicate Unique(jobs: seq<Job>) {
    forall i, k | 0 <= i < k < |jobs| :: jobs[i].id != jobs[k].id
  }

  lemma RemoveAtKeeps(jobs: seq<Job>, i: nat)
    requires i < |jobs|
    ensures Unique(jobs) ==> Unique(RemoveAt(jobs, i))
    ensures forall j | j in RemoveAt(jobs, i) :: j in jobs
    ensures forall j | j in jobs && j != jobs[i] :: j in RemoveAt(jobs, i)
  {
    forall j | j in jobs && j != jobs[i]
      ensures j in RemoveAt(jobs, i)
    {
      var p :| 0 <= p < |jobs| && jobs[p] == j;
      assert j == RemoveAt(jobs, i)[if p < i then p else p - 1];
    }
  }

  /** Eviction makes room, keeps the survivors and their ids, and invents nothing. */
  lemma {:induction false} EvictKeeps(jobs: seq<Job>)
    ensures |Evict(jobs)| < MAX_JOBS
    ensures Unique(jobs) ==> Unique(Evict(jobs))
    ensures forall j | j in Evict(jobs) :: j in jobs
    decreases |jobs|
  {
    if |jobs| >= MAX_JOBS {
      RemoveAtKeeps(jobs, Victim(jobs));
      EvictKeeps(RemoveAt(jobs, Victim(jobs)));
    }
  }

  /** A full queue loses one job: the oldest finished one, or the oldest when none has finished. */
  lemma EvictExactly(jobs: seq<Job>)
    requires |jobs| == MAX_JOBS
    ensures var i := Victim(jobs);
            && Evict(jobs) == jobs[..i] + jobs[i + 1..]
            && (jobs[i].Finished() ==> forall k | 0 <= k < i :: !jobs[k].Finished())
            && (!jobs[i].Finished() ==> i == 0 && forall k | 0 <= k < |jobs| :: !jobs[k].Finished())
  {
    assert |RemoveAt(jobs, Victim(jobs))| < MAX_JOBS;
  }

  /** An unfinished job is given up only when no finished one is left to give. */
  lemma {:induction false} EvictPrefersFinished(jobs: seq<Job>, lost: Job, kept: Job)
    requires lost in jobs && lost !in Evict(jobs) && !lost.Finished()
    requires kept in Evict(jobs)
    ensures !kept.Finished()
    decreases |jobs|
  {
    var i := Victim(jobs);
    var rest := RemoveAt(jobs, i);
    RemoveAtKeeps(jobs, i);
    EvictKeeps(rest);
    if lost != jobs[i] {
      EvictPrefersFinished(rest, lost, kept);
    }
  }

  // ---- The queue object ----

  class MemoryQueue {
    var jobs: seq<Job>

    constructor ()
      ensures jobs == []
    {
      jobs := [];
    }

    method EnqueueJob(id: nat, kind: string, maxAttempts: int, delay: int, now: int)
      modifies this
      ensures jobs == Enqueue(old(jobs), Job(id, kind, Pending, 0, maxAttempts, now + delay))
    {
      EvictLocked();
      jobs := jobs + [Job(id, kind, Pending, 0, maxAttempts, now + delay)];
    }

    method EvictLocked()
      modifies this
      ensures jobs == Evict(old(jobs))
    {
      while |jobs| >= MAX_JOBS
        invariant Evict(jobs) == Evict(old(jobs))
        decreases |jobs|
      {
        var evicted := false;
        ghost var before := jobs;
        for i := 0 to |jobs|
          invariant jobs == before && !evicted
          invariant forall k | 0 <= k < i :: !jobs[k].Finished()
        {
          if jobs[i].Finished() {
            jobs := jobs[..i] + jobs[i + 1..];
            evicted := true;
            break;
          }
        }
        if !evicted {
          jobs := jobs[1..];
        }
      }
    }

    method Dequeue(now: int) returns (r: Option<Job>)
      modifies this
      ensures var i := FirstDue(old(jobs), now);
              if i < |old(jobs)|
              then jobs == old(jobs)[i := Claim(old(jobs)[i])] && r == Some(jobs[i])
              else jobs == old(jobs) && r == None
    {
      for i := 0 to |jobs|
        invariant jobs == old(jobs)
        invariant forall k | 0 <= k < i :: !Due(jobs[k], now)
      {
        var j := jobs[i];
        if j.status == Pending && j.nextRunAt <= now {
          jobs := jobs[i := j.(status := Running, attempts := j.attempts + 1)];
          return Some(jobs[i]);
        }
      }
      return None;
    }

    /** False stands for ErrJobNotFound. */
    method CompleteJob(id: nat) returns (found: bool)
      modifies this
      ensures jobs == Complete(old(jobs), id)
      ensures found <==> exists j | j in old(jobs) :: j.id == id
    {
      for i := 0 to |jobs|
        invariant jobs == old(jobs)
        invariant forall k | 0 <= k < i :: jobs[k].id != id
      {
        if jobs[i].id == id {
          jobs := jobs[i := jobs[i].(status := Completed)];
          return true;
        }
      }
      return false;
    }

    method FailById(id: nat, now: int) returns (found: bool)
      modifies this
      ensures jobs == Fail(old(jobs), id, now)
      ensures found <==> exists j | j in old(jobs) :: j.id == id
    {
      for i := 0 to |jobs|
        invariant jobs == old(jobs)
        invariant forall k | 0 <= k < i :: jobs[k].id != id
      {
        var j := jobs[i];
        if j.id == id {
          if j.attempts < j.maxAttempts {
            var delay := ComputeBackoff(j.attempts);
            jobs := jobs[i := j.(status := Pending, nextRunAt := now + delay)];
          } else {
            jobs := jobs[i := j.(status := Failed)];
          }
          return true;
        }
      }
      return false;
    }
  }
}
