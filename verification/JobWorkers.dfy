// internal/jobs/worker.go: any number of workers polling one queue.  Each locked queue call
// is one step; between a worker's Dequeue and its Complete or Fail, any steps of the other
// workers and of enqueuers may come.
module JobWorkers {
  import opened Common
  import opened JobQueue

  type Worker = nat

  /** How a worker's handling of a job ended. */
  datatype Outcome = NoHandler | HandlerError | HandlerOk

  datatype Action =
    | Submit(kind: string, maxAttempts: int, delay: int, now: int)
    | Poll(w: Worker, now: int)
    | Report(w: Worker, outcome: Outcome, now: int)

  /** What an observer of the queue sees, in order. */
  datatype Event =
    | Enqueued(id: nat, maxAttempts: int, due: int)
    | Claimed(w: Worker, id: nat, at: int)
    | Reported(w: Worker, id: nat, outcome: Outcome, at: int)

  /** holding says which job each busy worker is handling; ids are handed out fresh. */
  datatype System = System(jobs: seq<Job>, holding: map<Worker, nat>, nextId: nat, log: seq<Event>)

  const INIT := System([], map[], 0, [])

  predicate Enabled(s: System, a: Action) {
    match a
    case Submit(_, _, _, _) => true
    case Poll(w, _) => w !in s.holding
    case Report(w, _, _) => w in s.holding
  }

  function Next(s: System, a: Action): System
    requires Enabled(s, a)
  {
    match a
    case Submit(kind, max, delay, now) =>
      System(Enqueue(s.jobs, Job(s.nextId, kind, Pending, 0, max, now + delay)),
             s.holding, s.nextId + 1, s.log + [Enqueued(s.nextId, max, now + delay)])
    case Poll(w, now) =>
      var i := FirstDue(s.jobs, now);
      if i == |s.jobs| then s
      else
        var id := s.jobs[i].id;
        System(s.jobs[i := Claim(s.jobs[i])], s.holding[w := id], s.nextId, s.log + [Claimed(w, id, now)])
    case Report(w, outcome, now) =>
      var id := s.holding[w];
      System(if outcome.HandlerOk? then Complete(s.jobs, id) else Fail(s.jobs, id, now),
             s.holding - {w}, s.nextId, s.log + [Reported(w, id, outcome, now)])
  }

  /** t follows s after these steps, each enabled when it is taken. */
  ghost predicate Leads(s: System, actions: seq<Action>, t: System)
    decreases |actions|
  {
    if actions == [] then t == s
    else Enabled(s, actions[0]) && Leads(Next(s, actions[0]), actions[1..], t)
  }

  /** s is reached from the empty queue by this interleaving of steps. */
  ghost predicate Run(actions: seq<Action>, s: System) {
    Leads(INIT, actions, s)
  }

  // ---- What the log says about one job ----

  ghost function Claims(log: seq<Event>, id: nat): nat {
    if log == [] then 0
    else
      var e := log[|log| - 1];
      Claims(log[..|log| - 1], id) + if e.Claimed? && e.id == id then 1 else 0
  }

  /** How often a handler was run for the job to its end. */
  ghost function HandlerRuns(log: seq<Event>, id: nat): nat {
    if log == [] then 0
    else
      var e := log[|log| - 1];
      HandlerRuns(log[..|log| - 1], id) + if e.Reported? && e.id == id && !e.outcome.NoHandler? then 1 else 0
  }

  ghost function LastFailure(log: seq<Event>, id: nat): Option<int> {
    if log == [] then None
    else
      var e := log[|log| - 1];
      if e.Reported? && e.id == id && !e.outcome.HandlerOk? then Some(e.at)
      else LastFailure(log[..|log| - 1], id)
  }

  /** The job's enqueue record: its limit and the time it first becomes due. */
  ghost function Enrolment(log: seq<Event>, id: nat): Option<(int, int)> {
    if log == [] then None
    else
      var e := log[|log| - 1];
      if e.Enqueued? && e.id == id then Some((e.maxAttempts, e.due)) else Enrolment(log[..|log| - 1], id)
  }

  /** Even a job enqueued with no attempts allowed gets one. */
  function Limit(maxAttempts: int): int {
    if maxAttempts < 1 then 1 else maxAttempts
  }

  lemma LogStep(log: seq<Event>, e: Event, id: nat)
    ensures Claims(log + [e], id) == Claims(log, id) + if e.Claimed? && e.id == id then 1 else 0
    ensures HandlerRuns(log + [e], id)
         == HandlerRuns(log, id) + if e.Reported? && e.id == id && !e.outcome.NoHandler? then 1 else 0
    ensures LastFailure(log + [e], id)
         == if e.Reported? && e.id == id && !e.outcome.HandlerOk? then Some(e.at) else LastFailure(log, id)
    ensures Enrolment(log + [e], id)
         == if e.Enqueued? && e.id == id then Some((e.maxAttempts, e.due)) else Enrolment(log, id)
  {
    assert (log + [e])[..|log|] == log;
  }

  // ---- The invariant ----

  ghost predicate Held(s: System, id: nat) {
    exists w | w in s.holding :: s.holding[w] == id
  }

  ghost predicate FailedAt(log: seq<Event>, id: nat, t: int) {
    LastFailure(log, id) == Some(t)
  }

  /** The job was enqueued, and has been handed out no more often than its limit allows. */
  ghost predicate WithinLimit(log: seq<Event>, id: nat) {
    Enrolment(log, id).Some? && Claims(log, id) <= Limit(Enrolment(log, id).value.0)
  }

  /** A queued job agrees with the log, and waits out its delay while pending. */
  ghost predicate Sound(log: seq<Event>, j: Job) {
    && Enrolment(log, j.id).Some? && Enrolment(log, j.id).value.0 == j.maxAttempts
    && j.attempts == Claims(log, j.id) <= Limit(j.maxAttempts)
    && (j.status.Pending? ==>
          && j.attempts < Limit(j.maxAttempts)
          && (j.attempts == 0 ==> j.nextRunAt == Enrolment(log, j.id).value.1)
          && (j.attempts >= 1 ==> FailedAt(log, j.id, j.nextRunAt - Backoff(j.attempts))))
  }

  /** An issued id has used no more claims than allowed, and a handler ran for each claim
      at most once; a claim still in progress has not been reported. */
  ghost predicate Counted(s: System, id: nat) {
    && (id >= s.nextId ==> Claims(s.log, id) == 0 && !Held(s, id))
    && (id < s.nextId ==> WithinLimit(s.log, id))
    && HandlerRuns(s.log, id) + (if Held(s, id) then 1 else 0) <= Claims(s.log, id)
  }

  ghost predicate JobsSound(s: System) {
    && |s.jobs| <= MAX_JOBS && Unique(s.jobs)
    && forall j | j in s.jobs :: j.id < s.nextId && Sound(s.log, j)
  }

  /** A job in the queue is running exactly while some worker holds it. */
  ghost predicate RunningIsHeld(s: System) {
    forall j | j in s.jobs :: j.status.Running? <==> Held(s, j.id)
  }

  ghost predicate HeldOnce(s: System) {
    forall v, w | v in s.holding && w in s.holding && v != w :: s.holding[v] != s.holding[w]
  }

  ghost predicate Inv(s: System) {
    && JobsSound(s) && RunningIsHeld(s) && HeldOnce(s)
    && forall id: nat :: Counted(s, id)
  }

  // ---- Each step keeps it ----

  lemma SubmitKeeps(s: System, a: Action)
    requires Inv(s) && a.Submit?
    ensures Inv(Next(s, a))
  {
    var t := Next(s, a);
    var e := t.log[|t.log| - 1];
    EvictKeeps(s.jobs);
    assert !Held(s, s.nextId) by { assert Counted(s, s.nextId); }
    forall id: nat
      ensures Counted(t, id)
    {
      assert Counted(s, id);
      LogStep(s.log, e, id);
      assert Held(t, id) <==> Held(s, id);
    }
    forall j | j in t.jobs
      ensures j.id < t.nextId && Sound(t.log, j) && (j.status.Running? <==> Held(t, j.id))
    {
      LogStep(s.log, e, j.id);
      assert Held(t, j.id) <==> Held(s, j.id);
      if j !in Evict(s.jobs) {
        assert Counted(s, s.nextId);
      }
    }
  }

  /** What replacing one job by another version of itself leaves alone. */
  lemma UpdateOne(jobs: seq<Job>, i: nat, j: Job)
    requires i < |jobs| && Unique(jobs) && j.id == jobs[i].id
    ensures Unique(jobs[i := j])
    ensures forall k | k in jobs[i := j] :: k == j || (k in jobs && k.id != j.id)
  {
    var after := jobs[i := j];
    forall k | k in after
      ensures k == j || (k in jobs && k.id != j.id)
    {
      var p :| 0 <= p < |after| && after[p] == k;
      assert p != i ==> jobs[p] == k;
    }
  }

  lemma PollKeeps(s: System, a: Action)
    requires Inv(s) && a.Poll? && Enabled(s, a)
    ensures Inv(Next(s, a))
  {
    var t := Next(s, a);
    var i := FirstDue(s.jobs, a.now);
    if i < |s.jobs| {
      var j := s.jobs[i];
      var e := Claimed(a.w, j.id, a.now);
      assert j in s.jobs;
      assert !Held(s, j.id);
      UpdateOne(s.jobs, i, Claim(j));
      forall id: nat
        ensures Held(t, id) <==> Held(s, id) || id == j.id
        ensures Counted(t, id)
      {
        HoldMore(s, t, a.w, j.id, id);
        assert Counted(s, id);
        LogStep(s.log, e, id);
      }
      forall k | k in t.jobs
        ensures k.id < t.nextId && Sound(t.log, k) && (k.status.Running? <==> Held(t, k.id))
      {
        LogStep(s.log, e, k.id);
      }
      HeldOnceMore(s, t, a.w, j.id);
    }
  }

  lemma HeldOnceMore(s: System, t: System, w: Worker, id: nat)
    requires HeldOnce(s) && w !in s.holding && !Held(s, id) && t.holding == s.holding[w := id]
    ensures HeldOnce(t)
  {
  }

  lemma HoldMore(s: System, t: System, w: Worker, id: nat, x: nat)
    requires w !in s.holding && t.holding == s.holding[w := id]
    ensures Held(t, x) <==> Held(s, x) || x == id
  {
    if Held(s, x) {
      var v :| v in s.holding && s.holding[v] == x;
      assert v in t.holding && t.holding[v] == x;
    }
    if x == id {
      assert w in t.holding && t.holding[w] == x;
    }
    if Held(t, x) && x != id {
      var v :| v in t.holding && t.holding[v] == x;
      assert v in s.holding && s.holding[v] == x;
    }
  }

  lemma HoldLess(s: System, t: System, w: Worker, x: nat)
    requires w in s.holding && t.holding == s.holding - {w} && HeldOnce(s)
    ensures Held(t, x) <==> Held(s, x) && x != s.holding[w]
  {
    if Held(s, x) && x != s.holding[w] {
      var v :| v in s.holding && s.holding[v] == x;
      assert v in t.holding && t.holding[v] == x;
    }
    if Held(t, x) {
      var v :| v in t.holding && t.holding[v] == x;
      assert v in s.holding && s.holding[v] == x && v != w;
    }
  }

  lemma ReportKeeps(s: System, a: Action)
    requires Inv(s) && a.Report? && Enabled(s, a)
    ensures Inv(Next(s, a))
  {
    var t := Next(s, a);
    var id := s.holding[a.w];
    var e := Reported(a.w, id, a.outcome, a.now);
    assert Held(s, id);
    var i := Find(s.jobs, id);
    if i < |s.jobs| {
      assert s.jobs[i] in s.jobs;
      UpdateOne(s.jobs, i, t.jobs[i]);
    }
    forall x: nat
      ensures Held(t, x) <==> Held(s, x) && x != id
      ensures Counted(t, x)
    {
      HoldLess(s, t, a.w, x);
      assert Counted(s, x);
      LogStep(s.log, e, x);
    }
    forall j | j in t.jobs
      ensures j.id < t.nextId && Sound(t.log, j) && (j.status.Running? <==> Held(t, j.id))
    {
      LogStep(s.log, e, j.id);
      assert Counted(s, j.id);
    }
  }

  lemma StepKeeps(s: System, a: Action)
    requires Inv(s) && Enabled(s, a)
    ensures Inv(Next(s, a))
  {
    match a
    case Submit(_, _, _, _) => SubmitKeeps(s, a);
    case Poll(_, _) => PollKeeps(s, a);
    case Report(_, _, _) => ReportKeeps(s, a);
  }

  lemma {:induction false} LeadsKeeps(s: System, actions: seq<Action>, t: System)
    requires Inv(s) && Leads(s, actions, t)
    ensures Inv(t)
    decreases |actions|
  {
    if actions != [] {
      StepKeeps(s, actions[0]);
      LeadsKeeps(Next(s, actions[0]), actions[1..], t);
    }
  }

  lemma RunKeeps(actions: seq<Action>, s: System)
    requires Run(actions, s)
    ensures Inv(s)
  {
    forall id: nat
      ensures Counted(INIT, id)
    {
    }
    LeadsKeeps(INIT, actions, s);
  }

  // ---- The protocol's promises, over every interleaving ----

  /** No two workers hold the same job; the queue is bounded; its running jobs are the held ones. */
  lemma ExclusiveAndBounded(actions: seq<Action>, s: System, v: Worker, w: Worker)
    requires Run(actions, s)
    ensures v in s.holding && w in s.holding && s.holding[v] == s.holding[w] ==> v == w
    ensures |s.jobs| <= 10000
    ensures forall j | j in s.jobs :: j.status.Running? <==> exists u | u in s.holding :: s.holding[u] == j.id
  {
    RunKeeps(actions, s);
    forall j | j in s.jobs
      ensures j.status.Running? <==> exists u | u in s.holding :: s.holding[u] == j.id
    {
      assert j.status.Running? <==> Held(s, j.id);
    }
  }

  /** A pending job always has an attempt left, and no job's handler ever runs more often
      than its limit, whoever runs it. */
  lemma AttemptsBounded(actions: seq<Action>, s: System, id: nat)
    requires Run(actions, s)
    ensures forall j | j in s.jobs && j.status.Pending? :: 0 <= j.attempts < Limit(j.maxAttempts)
    ensures HandlerRuns(s.log, id) <= Claims(s.log, id)
    ensures id < s.nextId ==> WithinLimit(s.log, id)
  {
    RunKeeps(actions, s);
    assert Counted(s, id);
  }

  /** A job is handed out no earlier than it was enqueued for; its n-th retry comes at least
      5s * 3^(n-1) after the failure before it, for every n whose delay fits in int64. */
  lemma RetryWaits(actions: seq<Action>, s: System, now: int)
    requires Run(actions, s)
    requires FirstDue(s.jobs, now) < |s.jobs|
    ensures var id := s.jobs[FirstDue(s.jobs, now)].id;
            var n := Claims(s.log, id);
            var failed := LastFailure(s.log, id);
            && (n == 0 ==> Enrolment(s.log, id).Some? && now >= Enrolment(s.log, id).value.1)
            && (n >= 1 ==> failed.Some? && now >= failed.value + Backoff(n))
            && (1 <= n <= 20 ==> now >= failed.value + 5_000_000_000 * Pow3(n - 1))
  {
    RunKeeps(actions, s);
    var j := s.jobs[FirstDue(s.jobs, now)];
    assert j in s.jobs && Sound(s.log, j);
    BackoffExact(j.attempts);
  }

  /** The id was issued and its job is no longer waiting or running: finished, or evicted. */
  ghost predicate Retired(s: System, id: nat) {
    id < s.nextId && forall j | j in s.jobs && j.id == id :: j.Finished()
  }

  lemma RetiredStays(s: System, a: Action, id: nat)
    requires Inv(s) && Enabled(s, a) && Retired(s, id)
    ensures Retired(Next(s, a), id) && Claims(Next(s, a).log, id) == Claims(s.log, id)
  {
    var t := Next(s, a);
    match a
    case Submit(_, _, _, _) =>
      EvictKeeps(s.jobs);
      LogStep(s.log, t.log[|s.log|], id);
    case Poll(w, now) =>
      var i := FirstDue(s.jobs, now);
      if i < |s.jobs| {
        assert s.jobs[i] in s.jobs;
        UpdateOne(s.jobs, i, Claim(s.jobs[i]));
        LogStep(s.log, t.log[|s.log|], id);
      }
    case Report(w, outcome, now) =>
      var held := s.holding[w];
      assert Held(s, held);
      LogStep(s.log, t.log[|s.log|], id);
      var i := Find(s.jobs, held);
      if i < |s.jobs| {
        assert s.jobs[i] in s.jobs;
        UpdateOne(s.jobs, i, t.jobs[i]);
      }
  }

  lemma {:induction false} RetiredForGood(s: System, more: seq<Action>, t: System, id: nat)
    requires Inv(s) && Retired(s, id) && Leads(s, more, t)
    ensures Retired(t, id) && Claims(t.log, id) == Claims(s.log, id)
    decreases |more|
  {
    if more != [] {
      RetiredStays(s, more[0], id);
      StepKeeps(s, more[0]);
      RetiredForGood(Next(s, more[0]), more[1..], t, id);
    }
  }

  /** Nothing that finished, and nothing evicted, is ever handed out again: however the run
      goes on, the job's claims stay what they were. */
  lemma FinishedForGood(actions: seq<Action>, s: System, more: seq<Action>, t: System, id: nat)
    requires Run(actions, s) && Retired(s, id) && Leads(s, more, t)
    ensures Retired(t, id) && Claims(t.log, id) == Claims(s.log, id)
  {
    RunKeeps(actions, s);
    RetiredForGood(s, more, t, id);
  }

  // ---- What becomes of each job, read off the log alone ----

  /** The latest event about a job. */
  ghost function Latest(log: seq<Event>, id: nat): Option<Event> {
    if log == [] then None
    else if log[|log| - 1].id == id then Some(log[|log| - 1])
    else Latest(log[..|log| - 1], id)
  }

  lemma LatestStep(log: seq<Event>, e: Event, id: nat)
    ensures Latest(log + [e], id) == if e.id == id then Some(e) else Latest(log, id)
  {
    assert (log + [e])[..|log|] == log;
  }

  ghost predicate FailedLast(log: seq<Event>, id: nat) {
    var e := Latest(log, id);
    e.Some? && e.value.Reported? && e.value.outcome != HandlerOk
  }

  /** A queued job is pending exactly if it was never handed out, or its last handling failed and attempts
      are left; running exactly if it was handed out last; completed exactly if its handler succeeded last;
      failed exactly if its last handling failed and the attempts are used up. */
  ghost predicate AsTold(log: seq<Event>, j: Job) {
    var e := Latest(log, j.id);
    && e.Some?
    && (j.status == Pending <==> e.value.Enqueued? || (FailedLast(log, j.id) && Claims(log, j.id) < j.maxAttempts))
    && (j.status == Running <==> e.value.Claimed?)
    && (j.status == Completed <==> e.value.Reported? && e.value.outcome == HandlerOk)
    && (j.status == Failed <==> FailedLast(log, j.id) && Claims(log, j.id) >= j.maxAttempts)
    && (FailedLast(log, j.id) ==> Claims(log, j.id) >= 1)
    && (e.value.Enqueued? ==> j.nextRunAt == e.value.due)
    && (FailedLast(log, j.id) && j.status == Pending ==> j.nextRunAt == e.value.at + Backoff(Claims(log, j.id)))
  }

  ghost predicate AllAsTold(s: System) {
    forall j | j in s.jobs :: AsTold(s.log, j)
  }

  lemma OtherAsTold(log: seq<Event>, e: Event, j: Job)
    requires AsTold(log, j) && e.id != j.id
    ensures AsTold(log + [e], j)
  {
    LatestStep(log, e, j.id);
    LogStep(log, e, j.id);
  }

  lemma SubmitTells(s: System, a: Action)
    requires Inv(s) && AllAsTold(s) && a.Submit?
    ensures AllAsTold(Next(s, a))
  {
    var t := Next(s, a);
    var e := Enqueued(s.nextId, a.maxAttempts, a.now + a.delay);
    EvictKeeps(s.jobs);
    forall j | j in t.jobs
      ensures AsTold(t.log, j)
    {
      if j in Evict(s.jobs) {
        OtherAsTold(s.log, e, j);
      } else {
        LatestStep(s.log, e, j.id);
        LogStep(s.log, e, j.id);
      }
    }
  }

  lemma PollTells(s: System, a: Action)
    requires Inv(s) && AllAsTold(s) && a.Poll? && Enabled(s, a)
    ensures AllAsTold(Next(s, a))
  {
    var t, i := Next(s, a), FirstDue(s.jobs, a.now);
    if i < |s.jobs| {
      var j := s.jobs[i];
      var e := Claimed(a.w, j.id, a.now);
      UpdateOne(s.jobs, i, Claim(j));
      forall k | k in t.jobs
        ensures AsTold(t.log, k)
      {
        LatestStep(s.log, e, k.id);
        if k.id != j.id { OtherAsTold(s.log, e, k); }
      }
    }
  }

  lemma ReportTells(s: System, a: Action)
    requires Inv(s) && AllAsTold(s) && a.Report? && Enabled(s, a)
    ensures AllAsTold(Next(s, a))
  {
    var t, id := Next(s, a), s.holding[a.w];
    var e := Reported(a.w, id, a.outcome, a.now);
    var i := Find(s.jobs, id);
    assert Held(s, id) && Counted(s, id);
    if i < |s.jobs| {
      assert s.jobs[i] in s.jobs && Sound(s.log, s.jobs[i]);
      UpdateOne(s.jobs, i, t.jobs[i]);
    }
    forall k | k in t.jobs
      ensures AsTold(t.log, k)
    {
      LatestStep(s.log, e, k.id);
      LogStep(s.log, e, k.id);
      if k.id != id { OtherAsTold(s.log, e, k); }
    }
  }

  lemma StepTells(s: System, a: Action)
    requires Inv(s) && AllAsTold(s) && Enabled(s, a)
    ensures AllAsTold(Next(s, a))
  {
    match a
    case Submit(_, _, _, _) => SubmitTells(s, a);
    case Poll(_, _) => PollTells(s, a);
    case Report(_, _, _) => ReportTells(s, a);
  }

  lemma {:induction false} LeadsTells(s: System, actions: seq<Action>, t: System)
    requires Inv(s) && AllAsTold(s) && Leads(s, actions, t)
    ensures AllAsTold(t)
    decreases |actions|
  {
    if actions != [] {
      StepTells(s, actions[0]);
      StepKeeps(s, actions[0]);
      LeadsTells(Next(s, actions[0]), actions[1..], t);
    }
  }

  /** Over every interleaving each queued job's status is what the log says, and a job to be retried is due
      exactly 5s * 3^(n-1) after its n-th failure, for every n whose delay fits in int64. */
  lemma StatusExact(actions: seq<Action>, s: System, j: Job)
    requires Run(actions, s) && j in s.jobs
    ensures AsTold(s.log, j)
    ensures Enrolment(s.log, j.id).Some? && j.maxAttempts == Enrolment(s.log, j.id).value.0
    ensures j.status == Pending && FailedLast(s.log, j.id) && 1 <= Claims(s.log, j.id) <= 20 ==>
              j.nextRunAt == Latest(s.log, j.id).value.at + 5_000_000_000 * Pow3(Claims(s.log, j.id) - 1)
  {
    RunKeeps(actions, s);
    forall id: nat
      ensures Counted(INIT, id)
    {
    }
    LeadsTells(INIT, actions, s);
    assert Sound(s.log, j);
    BackoffExact(j.attempts);
  }

  /** A poll hands out the first job in the queue that is pending and due by now, and nothing if there is
      none. */
  lemma PollExact(s: System, w: Worker, now: int, i: nat)
    requires w !in s.holding && i <= |s.jobs|
    requires forall k | 0 <= k < i :: s.jobs[k].status != Pending || s.jobs[k].nextRunAt > now
    ensures i == |s.jobs| ==> Next(s, Poll(w, now)) == s
    ensures i < |s.jobs| && s.jobs[i].status == Pending && s.jobs[i].nextRunAt <= now ==>
              var t := Next(s, Poll(w, now));
              t.log == s.log + [Claimed(w, s.jobs[i].id, now)] && t.holding == s.holding[w := s.jobs[i].id]
  {
    var d := FirstDue(s.jobs, now);
    assert d < |s.jobs| ==> Due(s.jobs[d], now);
  }

  ghost function Ids(jobs: seq<Job>): seq<nat> {
    seq(|jobs|, i requires 0 <= i < |jobs| => jobs[i].id)
  }

  /** The i-th job is the oldest finished one, or the oldest when none has finished. */
  ghost predicate FirstToGo(jobs: seq<Job>, i: nat) {
    && i < |jobs|
    && (if jobs[i].status == Completed || jobs[i].status == Failed
        then forall k | 0 <= k < i :: jobs[k].status == Pending || jobs[k].status == Running
        else i == 0 && forall k | 0 <= k < |jobs| :: jobs[k].status == Pending || jobs[k].status == Running)
  }

  /** The queue holds the submitted jobs in order of submission.  Polls and reports neither add nor remove
      any; a submission to a full queue of 10000 removes exactly one, the first to go. */
  lemma QueueExact(actions: seq<Action>, s: System, a: Action)
    requires Run(actions, s) && Enabled(s, a)
    ensures !a.Submit? ==> Ids(Next(s, a).jobs) == Ids(s.jobs)
    ensures a.Submit? && |s.jobs| < 10000 ==> Ids(Next(s, a).jobs) == Ids(s.jobs) + [s.nextId]
    ensures a.Submit? && |s.jobs| >= 10000 ==>
              exists i: nat | FirstToGo(s.jobs, i) ::
                Ids(Next(s, a).jobs) == Ids(s.jobs[..i] + s.jobs[i + 1..]) + [s.nextId]
  {
    RunKeeps(actions, s);
    if a.Submit? && |s.jobs| >= 10000 {
      EvictExactly(s.jobs);
      assert FirstToGo(s.jobs, Victim(s.jobs));
    }
  }

  // ---- poll ----

  /** One worker's poll: claim, handle, report.  `handle` stands for the handler table: it gives
      the outcome for a job, NoHandler when none is registered for its kind. */
  method PollQueue(q: MemoryQueue, handle: Job -> Outcome, now: int, later: int, w: Worker, ghost s: System)
    requires s.jobs == q.jobs && w !in s.holding
    modifies q
    ensures var i := FirstDue(s.jobs, now);
            if i < |s.jobs|
            then q.jobs == Next(Next(s, Poll(w, now)), Report(w, handle(Claim(s.jobs[i])), later)).jobs
            else q.jobs == s.jobs
  {
    ghost var mid := Next(s, Poll(w, now));
    var job := q.Dequeue(now);
    if job.None? { return; }
    assert q.jobs == mid.jobs && mid.holding[w] == job.value.id;
    var outcome := handle(job.value);
    if outcome.HandlerOk? {
      var found := q.CompleteJob(job.value.id);
    } else {
      var found := q.FailById(job.value.id, later);
    }
    assert q.jobs == Next(mid, Report(w, outcome, later)).jobs;
  }
}
