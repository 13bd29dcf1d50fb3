/** Leased jobs with fencing generations: the transitions of one job row, every run of them, and
    the queue that applies them to a table. */
module Jobs {
  import opened Common

  datatype JobState = Queued | Running | RetryWait | Succeeded | FailedRequiresReview

  datatype Job = Job(
    state: JobState, availableAt: int, createdAt: int, deadline: Option<int>,
    owner: Option<string>, leaseUntil: Option<int>,
    generation: nat, attempts: nat, maxAttempts: nat)

  const LEASE: int := 60
  const LIVE_LEASE: int := 240
  const MAX_ATTEMPTS: nat := 3

  function NewJob(availableAt: int, createdAt: int, deadline: Option<int>, maxAttempts: nat): Job {
    Job(Queued, availableAt, createdAt, deadline, None, None, 0, 0, maxAttempts)
  }

  datatype Op =
    | Claim(worker: string, now: int)
    | Heartbeat(worker: string, held: nat, now: int)
    | Extend(worker: string, held: nat, now: int)   // the live analysis takes four minutes
    | Complete(worker: string, held: nat, now: int)
    | Fail(worker: string, held: nat, retryable: bool, now: int)
    | Recover(now: int)

  // ---------------------------------------------------------------- one job

  predicate IsWaiting(j: Job) { j.state in {Queued, RetryWait} }

  predicate IsRunnable(j: Job, now: int) {
    IsWaiting(j) && j.availableAt <= now && (j.leaseUntil.Some? ==> j.leaseUntil.value <= now)
  }

  predicate IsExpired(j: Job, now: int) { j.state == Running && j.leaseUntil.Some? && j.leaseUntil.value < now }

  predicate Owns(j: Job, worker: string, held: nat) {
    j.state == Running && j.owner == Some(worker) && j.generation == held
  }

  function Pow2(n: nat): nat { if n == 0 then 1 else 2 * Pow2(n - 1) }

  function Delay(attempts: nat): int {
    var d := Pow2(if attempts == 0 then 0 else attempts - 1);
    if d < 60 then d else 60
  }

  function Claimed(j: Job, worker: string, now: int): Job {
    if j.deadline.Some? && j.deadline.value <= now then j.(state := FailedRequiresReview)
    else j.(state := Running, owner := Some(worker), leaseUntil := Some(now + LEASE),
            generation := j.generation + 1, attempts := j.attempts + 1)
  }

  function Freed(j: Job): Job { j.(owner := None, leaseUntil := None) }

  function Failed(j: Job, retryable: bool, now: int): Job {
    if retryable && j.attempts < j.maxAttempts && (j.deadline.Some? ==> now < j.deadline.value)
    then Freed(j).(state := RetryWait, availableAt := now + Delay(j.attempts))
    else Freed(j).(state := FailedRequiresReview)
  }

  function Recovered(j: Job, now: int): Job {
    if j.attempts < j.maxAttempts && (j.deadline.Some? ==> now < j.deadline.value)
    then Freed(j).(state := RetryWait, availableAt := now)
    else Freed(j).(state := FailedRequiresReview)
  }

  /** The row after a call, or nothing if the call does not apply or raises. */
  function Apply(j: Job, op: Op): Option<Job> {
    match op
    case Claim(worker, now) => if IsRunnable(j, now) then Some(Claimed(j, worker, now)) else None
    case Heartbeat(worker, held, now) =>
      if Owns(j, worker, held) && j.leaseUntil.Some? && j.leaseUntil.value >= now then Some(j.(leaseUntil := Some(now + LEASE))) else None
    case Extend(worker, held, now) =>
      if Owns(j, worker, held) then Some(j.(leaseUntil := Some(now + LIVE_LEASE))) else None
    case Complete(worker, held, now) =>
      if Owns(j, worker, held) && (j.deadline.Some? ==> j.deadline.value >= now) then Some(Freed(j).(state := Succeeded)) else None
    case Fail(worker, held, retryable, now) =>
      if Owns(j, worker, held) then Some(Failed(j, retryable, now)) else None
    case Recover(now) => if IsExpired(j, now) then Some(Recovered(j, now)) else None
  }

  // ---------------------------------------------------------------- histories

  /** What an outside observer sees of one job. `Released` is an end of a generation, by its
      holder or by recovery. */
  datatype Event = Started(held: nat, worker: string) | Released(held: nat)

  /** A job row, the log of its generations, and how many calls other than renewals it took. */
  datatype History = History(job: Job, log: seq<Event>, steps: nat)

  predicate IsRenewal(op: Op) { op.Heartbeat? || op.Extend? }

  function EventsOf(j: Job, j': Job, op: Op): seq<Event> {
    if op.Claim? && j'.state == Running then [Started(j'.generation, op.worker)]
    else if op.Claim? || IsRenewal(op) then []
    else [Released(j.generation)]
  }

  function StepJob(h: History, op: Op): History {
    match Apply(h.job, op)
    case None => h
    case Some(j') => History(j', h.log + EventsOf(h.job, j', op), if IsRenewal(op) then h.steps else h.steps + 1)
  }

  /** Ranks of a job: two for each attempt left, one more while it runs. */
  function Measure(j: Job): int {
    if j.state == Running then 2 * (j.maxAttempts - j.attempts) + 1
    else if IsWaiting(j) then 2 * (j.maxAttempts - j.attempts)
    else 0
  }

  /** A job runs exactly while it has an owner and a lease; every claim is one attempt and one
      generation; a waiting job always has an attempt left. */
  predicate RowOk(j: Job) {
    && (j.state == Running <==> j.owner.Some?) && (j.state == Running <==> j.leaseUntil.Some?)
    && j.generation == j.attempts <= j.maxAttempts && 1 <= j.maxAttempts <= MAX_ATTEMPTS
    && (IsWaiting(j) ==> j.attempts < j.maxAttempts)
    && (j.state == Queued ==> j.attempts == 0) && (j.state == Running ==> j.attempts >= 1)
  }

  /** Generation by generation: started, then released, then the next one started. */
  predicate Alternates(log: seq<Event>) {
    forall i :: 0 <= i < |log| ==> log[i].held == i / 2 + 1 && (log[i].Started? <==> i % 2 == 0)
  }

  predicate HistoryOk(h: History) {
    && RowOk(h.job) && Alternates(h.log)
    && |h.log| == 2 * h.job.generation - (if h.job.state == Running then 1 else 0)
    && (h.job.state == Running ==> h.log[|h.log| - 1] == Started(h.job.generation, h.job.owner.value))
    && h.steps + Measure(h.job) <= 2 * h.job.maxAttempts
  }

  lemma StepKeepsRow(j: Job, op: Op)
    requires RowOk(j) && Apply(j, op).Some?
    ensures RowOk(Apply(j, op).value)
    ensures Apply(j, op).value.maxAttempts == j.maxAttempts
  {}

  /** Every call but a renewal strictly lowers the measure. */
  lemma StepsDescend(j: Job, op: Op)
    requires RowOk(j) && Apply(j, op).Some?
    ensures 0 <= Measure(Apply(j, op).value)
    ensures if IsRenewal(op) then Measure(Apply(j, op).value) == Measure(j) else Measure(Apply(j, op).value) < Measure(j)
  {}

  lemma StepKeepsHistory(h: History, op: Op)
    requires HistoryOk(h)
    ensures HistoryOk(StepJob(h, op))
  {
    hide Measure;
    if Apply(h.job, op).Some? {
      StepKeepsRow(h.job, op);
      StepsDescend(h.job, op);
    }
  }

  // ---------------------------------------------------------------- the job table

  datatype Step =
    | Enqueue(id: nat, availableAt: int, createdAt: int, deadline: Option<int>, maxAttempts: nat)
    | ClaimBatch(picked: set<nat>, worker: string, now: int)
    | On(id: nat, op: Op)
    | RecoverAll(now: int)

  function StepTable(t: map<nat, History>, step: Step): map<nat, History> {
    match step
    case Enqueue(id, availableAt, createdAt, deadline, maxAttempts) =>
      if id in t || !(1 <= maxAttempts <= MAX_ATTEMPTS) then t
      else t[id := History(NewJob(availableAt, createdAt, deadline, maxAttempts), [], 0)]
    case ClaimBatch(picked, worker, now) => map k | k in t :: if k in picked then StepJob(t[k], Claim(worker, now)) else t[k]
    case On(id, op) => if id in t then t[id := StepJob(t[id], op)] else t
    case RecoverAll(now) => map k | k in t :: StepJob(t[k], Recover(now))
  }

  predicate IsRun(run: seq<map<nat, History>>, steps: seq<Step>) {
    && |run| == |steps| + 1
    && run[0] == map[]
    && forall i :: 0 <= i < |steps| ==> run[i + 1] == StepTable(run[i], steps[i])
  }

  ghost predicate TableOk(t: map<nat, History>) { forall k :: k in t ==> HistoryOk(t[k]) }

  lemma StepKeepsTable(t: map<nat, History>, step: Step)
    requires TableOk(t)
    ensures TableOk(StepTable(t, step))
  {
    hide HistoryOk, StepJob;
    var t' := StepTable(t, step);
    forall k | k in t' ensures HistoryOk(t'[k]) {
      if k in t {
        match step
        case ClaimBatch(picked, worker, now) => StepKeepsHistory(t[k], Claim(worker, now));
        case On(id, op) => StepKeepsHistory(t[k], op);
        case RecoverAll(now) => StepKeepsHistory(t[k], Recover(now));
        case _ =>
      } else {
        NewHistoryOk(step.availableAt, step.createdAt, step.deadline, step.maxAttempts);
      }
    }
  }

  lemma NewHistoryOk(availableAt: int, createdAt: int, deadline: Option<int>, maxAttempts: nat)
    requires 1 <= maxAttempts <= MAX_ATTEMPTS
    ensures HistoryOk(History(NewJob(availableAt, createdAt, deadline, maxAttempts), [], 0))
  {}

  lemma {:induction false} ReachableOk(run: seq<map<nat, History>>, steps: seq<Step>, i: nat)
    requires IsRun(run, steps) && i < |run|
    ensures TableOk(run[i])
  {
    hide StepTable, HistoryOk;
    if i > 0 {
      ReachableOk(run, steps, i - 1);
      StepKeepsTable(run[i - 1], steps[i - 1]);
    }
  }

  // ---------------------------------------------------------------- what every run keeps

  /** In every run a job is running exactly while it has an owner and a lease; its generation is
      its number of attempts and of claims, never more than its budget; each generation starts
      once, ends at most once, and ends before the next one starts. */
  lemma Fencing(run: seq<map<nat, History>>, steps: seq<Step>, i: nat, k: nat)
    requires IsRun(run, steps) && i < |run| && k in run[i]
    ensures var j, log := run[i][k].job, run[i][k].log;
            && (j.state == Running <==> j.owner.Some?) && (j.state == Running <==> j.leaseUntil.Some?)
            && j.generation == j.attempts == Starts(log) <= j.maxAttempts <= 3
            && (forall a, b :: 0 <= a < b < |log| ==>
                  && log[a] != log[b] && (log[a].Released? && log[b].Released? ==> log[a].held != log[b].held)
                  && (log[a].held < log[b].held || (log[a].held == log[b].held && log[a].Started? && log[b].Released?)))
  {
    ReachableOk(run, steps, i);
    StartsCount(run[i][k].log);
  }

  function Starts(log: seq<Event>): nat {
    if log == [] then 0 else Starts(log[..|log| - 1]) + (if log[|log| - 1].Started? then 1 else 0)
  }

  lemma {:induction false} StartsCount(log: seq<Event>)
    requires Alternates(log)
    ensures Starts(log) == (|log| + 1) / 2
  {
    if log != [] { StartsCount(log[..|log| - 1]); }
  }

  /** Only the worker of the latest start, under its own generation, can renew, complete or fail
      the job, and only while that generation has not been released. */
  lemma OnlyTheLatestHolder(run: seq<map<nat, History>>, steps: seq<Step>, i: nat, k: nat, op: Op)
    requires IsRun(run, steps) && i < |run| && k in run[i]
    requires op.Heartbeat? || op.Extend? || op.Complete? || op.Fail?
    requires Apply(run[i][k].job, op).Some?
    ensures var log := run[i][k].log; |log| > 0 && log[|log| - 1] == Started(op.held, op.worker)
  {
    ReachableOk(run, steps, i);
  }

  /** At every moment a running job's lease is either renewable by its owner or recoverable,
      never both. */
  lemma RenewableOrRecoverable(run: seq<map<nat, History>>, steps: seq<Step>, i: nat, k: nat, t: int)
    requires IsRun(run, steps) && i < |run| && k in run[i] && run[i][k].job.state == Running
    ensures var j := run[i][k].job;
            j.owner.Some? && (Apply(j, Heartbeat(j.owner.value, j.generation, t)).Some? <==> Apply(j, Recover(t)).None?)
  {
    ReachableOk(run, steps, i);
  }

  /** A job takes at most two calls per attempt, renewals aside, and while it waits it always has
      an attempt left. */
  lemma Termination(run: seq<map<nat, History>>, steps: seq<Step>, i: nat, k: nat)
    requires IsRun(run, steps) && i < |run| && k in run[i]
    ensures run[i][k].steps <= 2 * run[i][k].job.maxAttempts <= 6
    ensures IsWaiting(run[i][k].job) ==> run[i][k].job.attempts < run[i][k].job.maxAttempts
  {
    ReachableOk(run, steps, i);
  }

  // ---------------------------------------------------------------- times

  /** A silent worker keeps its job for exactly one lease, then recovery may take it. */
  lemma LeaseLength(j: Job, worker: string, now: int, t: int)
    requires RowOk(j) && Apply(j, Claim(worker, now)).Some? && Apply(j, Claim(worker, now)).value.state == Running
    ensures var held := Apply(j, Claim(worker, now)).value;
            && (Apply(held, Recover(t)).Some? <==> t > now + 60)
            && (Apply(held, Heartbeat(worker, held.generation, t)).Some? <==> t <= now + 60)
  {}

  predicate IsPast(deadline: Option<int>, now: int) { deadline.Some? && deadline.value <= now }

  /** The job goes back to the queue, or to review: it is nobody's any more. */
  predicate Returned(a: Job, b: Job, retries: bool, availableAt: int) {
    && b.owner.None? && b.leaseUntil.None?
    && b.state == (if retries then RetryWait else FailedRequiresReview)
    && b.availableAt == (if retries then availableAt else a.availableAt)
    && b == a.(state := b.state, availableAt := b.availableAt, owner := None, leaseUntil := None)
  }

  /** The call comes from the worker that holds the job. */
  predicate IsHolder(j: Job, op: Op)
    requires op.Heartbeat? || op.Extend? || op.Complete? || op.Fail?
  {
    j.state == Running && j.owner == Some(op.worker) && j.generation == op.held
  }

  /** When each call applies to a row. */
  predicate MayCall(j: Job, op: Op) {
    match op
    case Claim(_, now) =>
      j.state in {Queued, RetryWait} && j.availableAt <= now && (j.leaseUntil.Some? ==> j.leaseUntil.value <= now)
    case Heartbeat(_, _, now) => IsHolder(j, op) && j.leaseUntil.Some? && now <= j.leaseUntil.value
    case Extend(_, _, _) => IsHolder(j, op)
    case Complete(_, _, now) => IsHolder(j, op) && (j.deadline.Some? ==> now <= j.deadline.value)
    case Fail(_, _, _, _) => IsHolder(j, op)
    case Recover(now) => j.state == Running && j.leaseUntil.Some? && j.leaseUntil.value < now
  }

  /** What each call makes of a row: a claim is one attempt, one generation and sixty seconds; a
      heartbeat is sixty more, the live analysis' extension four minutes; a job given up waits for
      a retry while it has attempts and time left, one second after its first attempt and two
      after its second, or at once if its lease ran out. */
  lemma CallOutcome(j: Job, op: Op)
    requires RowOk(j)
    ensures Apply(j, op).Some? <==> MayCall(j, op)
    ensures Apply(j, op).Some? ==>
              var b := Apply(j, op).value;
              match op
              case Claim(worker, now) =>
                if IsPast(j.deadline, now) then b == j.(state := FailedRequiresReview)
                else b == Job(Running, j.availableAt, j.createdAt, j.deadline, Some(worker), Some(now + 60), j.generation + 1, j.attempts + 1, j.maxAttempts)
              case Heartbeat(_, _, now) => b == j.(leaseUntil := Some(now + 60))
              case Extend(_, _, now) => b == j.(leaseUntil := Some(now + 240))
              case Complete(_, _, _) => b == j.(state := Succeeded, owner := None, leaseUntil := None)
              case Fail(_, _, retryable, now) =>
                Returned(j, b, retryable && j.attempts < j.maxAttempts && !IsPast(j.deadline, now), now + j.attempts)
              case Recover(now) => Returned(j, b, j.attempts < j.maxAttempts && !IsPast(j.deadline, now), now)
  {
    assert Pow2(0) == 1 && Pow2(1) == 2;
  }

  /** Past its deadline every call but a renewal fails the job for review. */
  lemma LateCall(j: Job, op: Op)
    requires RowOk(j) && j.deadline.Some? && j.deadline.value < op.now && Apply(j, op).Some?
    ensures Apply(j, op).value.deadline == j.deadline
    ensures if IsRenewal(op) then Apply(j, op).value == j.(leaseUntil := Apply(j, op).value.leaseUntil)
            else Apply(j, op).value.state == FailedRequiresReview
  {}

  /** A retry waits one second after the first attempt and two after the second; there is no
      third retry. */
  lemma Backoff(j: Job, worker: string, held: nat, now: int)
    requires RowOk(j) && Apply(j, Fail(worker, held, true, now)).Some?
    ensures var after := Apply(j, Fail(worker, held, true, now)).value;
            && (after.state == RetryWait <==> j.attempts < j.maxAttempts && (j.deadline.Some? ==> now < j.deadline.value))
            && (after.state == RetryWait ==> j.attempts in {1, 2} && after.availableAt == now + j.attempts)
  {
    assert Pow2(0) == 1 && Pow2(1) == 2;
  }

  // ---------------------------------------------------------------- after the deadline

  /** The call is made after time d. */
  predicate IsAfter(step: Step, d: int) {
    match step
    case Enqueue(_, _, _, _, _) => true
    case ClaimBatch(_, _, now) => d < now
    case On(_, op) => d < op.now
    case RecoverAll(now) => d < now
  }

  predicate Renews(step: Step, k: nat) { step.On? && step.id == k && IsRenewal(step.op) }

  /** The job is as it was but for its lease, or it failed for review in between. */
  predicate IsLate(a: History, b: History) {
    && b.job.deadline == a.job.deadline
    && (b == a.(job := a.job.(leaseUntil := b.job.leaseUntil)) || (b.job.state == FailedRequiresReview && a.job.state in {Queued, Running, RetryWait}))
  }

  lemma LateStep(t: map<nat, History>, step: Step, k: nat)
    requires TableOk(t) && k in t && t[k].job.deadline.Some? && IsAfter(step, t[k].job.deadline.value)
    ensures k in StepTable(t, step) && IsLate(t[k], StepTable(t, step)[k])
    ensures !Renews(step, k) ==> StepTable(t, step)[k] == t[k] || StepTable(t, step)[k].job.state == FailedRequiresReview
  {
    hide Apply, HistoryOk;
    assert HistoryOk(t[k]);
    HistoryRow(t[k]);
    match step
    case ClaimBatch(picked, worker, now) => LateJob(t[k], Claim(worker, now));
    case On(id, op) => if id == k { LateJob(t[k], op); }
    case RecoverAll(now) => LateJob(t[k], Recover(now));
    case _ =>
  }

  lemma HistoryRow(h: History)
    requires HistoryOk(h)
    ensures RowOk(h.job)
  {}

  lemma LateJob(h: History, op: Op)
    requires RowOk(h.job) && h.job.deadline.Some? && h.job.deadline.value < op.now
    ensures IsLate(h, StepJob(h, op))
    ensures !IsRenewal(op) ==> StepJob(h, op) == h || StepJob(h, op).job.state == FailedRequiresReview
  {
    if Apply(h.job, op).Some? {
      LateCall(h.job, op);
      if IsRenewal(op) { assert h.log + [] == h.log; }
    }
  }

  lemma LateTrans(a: History, b: History, c: History)
    requires IsLate(a, b) && IsLate(b, c)
    ensures IsLate(a, c)
  {}

  /** In every run, after a job's deadline its state can only change to failed for review: until
      then only its lease changes, and that only by renewals. */
  lemma {:induction false} PastDeadline(run: seq<map<nat, History>>, steps: seq<Step>, i: nat, j: nat, k: nat)
    requires IsRun(run, steps) && i <= j < |run| && k in run[i] && run[i][k].job.deadline.Some?
    requires forall m :: i <= m < j ==> IsAfter(steps[m], run[i][k].job.deadline.value)
    ensures k in run[j] && IsLate(run[i][k], run[j][k])
    ensures (forall m :: i <= m < j ==> !Renews(steps[m], k)) ==> run[j][k] == run[i][k] || run[j][k].job.state == FailedRequiresReview
  {
    hide StepTable, IsAfter, Renews, HistoryOk;
    if i < j {
      PastDeadline(run, steps, i, j - 1, k);
      ReachableOk(run, steps, j - 1);
      LateStep(run[j - 1], steps[j - 1], k);
      LateTrans(run[i][k], run[j - 1][k], run[j][k]);
    }
  }

  /** So a running job outlives its deadline only while it is renewed: without a renewal, the
      first recovery after its lease fails it. */
  lemma UnrenewedJobFails(run: seq<map<nat, History>>, steps: seq<Step>, i: nat, j: nat, k: nat)
    requires IsRun(run, steps) && i <= j < |steps| && k in run[i]
    requires run[i][k].job.state == Running && run[i][k].job.deadline.Some? && run[i][k].job.leaseUntil.Some?
    requires forall m :: i <= m <= j ==> IsAfter(steps[m], run[i][k].job.deadline.value) && !Renews(steps[m], k)
    requires steps[j].RecoverAll? && steps[j].now > run[i][k].job.leaseUntil.value
    ensures k in run[j + 1] && run[j + 1][k].job.state == FailedRequiresReview
  {
    hide IsAfter, Renews;
    PastDeadline(run, steps, i, j, k);
    PastDeadline(run, steps, i, j + 1, k);
  }

  // ---------------------------------------------------------------- the queue

  /** Claim order: by availability, then creation, then id. */
  predicate Before(jobs: map<nat, Job>, a: nat, b: nat)
    requires a in jobs && b in jobs
  {
    || jobs[a].availableAt < jobs[b].availableAt
    || (jobs[a].availableAt == jobs[b].availableAt
        && (jobs[a].createdAt < jobs[b].createdAt || (jobs[a].createdAt == jobs[b].createdAt && a < b)))
  }

  /** The first `limit` runnable jobs in claim order. */
  ghost predicate IsBatch(jobs: map<nat, Job>, picked: seq<nat>, limit: nat, now: int) {
    && |picked| <= limit
    && (forall i :: 0 <= i < |picked| ==> picked[i] in jobs && IsRunnable(jobs[picked[i]], now))
    && (forall i, j :: 0 <= i < j < |picked| ==> Before(jobs, picked[i], picked[j]))
    && (forall k :: k in jobs && IsRunnable(jobs[k], now) && k !in picked ==>
          |picked| == limit && forall i :: 0 <= i < |picked| ==> Before(jobs, picked[i], k))
  }

  /** The rows behind a table of histories. */
  function Rows(t: map<nat, History>): map<nat, Job> { map k | k in t :: t[k].job }

  /** What claiming a batch does to the rows is one step of a run. */
  lemma ClaimIsStep(t: map<nat, History>, picked: seq<nat>, limit: nat, worker: string, now: int)
    requires IsBatch(Rows(t), picked, limit, now)
    ensures Rows(StepTable(t, ClaimBatch((set k | k in picked), worker, now)))
         == map k | k in Rows(t) :: if k in picked then Claimed(Rows(t)[k], worker, now) else Rows(t)[k]
  {
    hide Claimed, Recovered, IsRunnable, IsExpired, Before;
    forall k | k in t && k in picked ensures IsRunnable(t[k].job, now) {}
  }

  /** And so is the recovery sweep. */
  lemma RecoveryIsStep(t: map<nat, History>, now: int)
    ensures Rows(StepTable(t, RecoverAll(now)))
         == map k | k in Rows(t) :: if IsExpired(Rows(t)[k], now) then Recovered(Rows(t)[k], now) else Rows(t)[k]
  {
    hide Recovered, IsExpired;
  }

  class JobQueue {
    var jobs: map<nat, Job>

    constructor ()
      ensures jobs == map[]
    {
      jobs := map[];
    }

    method EnqueueJob(id: nat, availableAt: int, createdAt: int, deadline: Option<int>, maxAttempts: nat) returns (ok: bool)
      requires id !in jobs
      modifies this
      ensures ok == (1 <= maxAttempts <= 3)
      ensures jobs == if ok then old(jobs)[id := Job(Queued, availableAt, createdAt, deadline, None, None, 0, 0, maxAttempts)] else old(jobs)
    {
      ok := 1 <= maxAttempts <= MAX_ATTEMPTS;
      if ok { jobs := jobs[id := NewJob(availableAt, createdAt, deadline, maxAttempts)]; }
    }

    /** Claims the first runnable jobs; one past its deadline fails instead and still uses up a
        place of the batch. */
    method ClaimJobs(worker: string, limit: nat, now: int) returns (ok: bool, claimed: seq<nat>, ghost picked: seq<nat>)
      modifies this
      ensures ok == (limit >= 1)
      ensures !ok ==> jobs == old(jobs) && claimed == []
      ensures ok ==> IsBatch(old(jobs), picked, limit, now)
      ensures ok ==> jobs == map k | k in old(jobs) :: if k in picked then Claimed(old(jobs)[k], worker, now) else old(jobs)[k]
      ensures forall k :: k in claimed <==> k in old(jobs) && k in picked && jobs[k].state == Running
    {
      hide Claimed, Before;
      claimed, picked, ok := [], [], limit >= 1;
      if !ok { return; }
      var stored := jobs;
      var runnable := set k | k in jobs && IsRunnable(jobs[k], now);
      var left := runnable;
      var taken := 0;
      while taken < limit && left != {}
        invariant left <= runnable && taken == |picked| <= limit
        invariant forall k :: k in runnable <==> k in left || k in picked
        invariant forall k :: k in left ==> k !in picked
        invariant forall i :: 0 <= i < |picked| ==> picked[i] in runnable
        invariant forall i, j :: 0 <= i < j < |picked| ==> Before(old(jobs), picked[i], picked[j])
        invariant forall i, k :: 0 <= i < |picked| && k in left ==> Before(old(jobs), picked[i], k)
        invariant jobs == map k | k in old(jobs) :: if k in picked then Claimed(old(jobs)[k], worker, now) else old(jobs)[k]
        invariant forall k :: k in claimed <==> k in picked && k in old(jobs) && Claimed(old(jobs)[k], worker, now).state == Running
      {
        var id := First(stored, left);
        left := left - {id};
        picked := picked + [id];
        taken := taken + 1;
        var running := ClaimOne(id, worker, now);
        if running { claimed := claimed + [id]; }
      }
    }

    method ClaimOne(id: nat, worker: string, now: int) returns (running: bool)
      requires id in jobs
      modifies this
      ensures jobs == old(jobs)[id := Claimed(old(jobs)[id], worker, now)]
      ensures running == (jobs[id].state == Running)
    {
      var job := jobs[id];
      running := !(job.deadline.Some? && job.deadline.value <= now);
      if !running {
        job := job.(state := FailedRequiresReview);
      } else {
        job := job.(state := Running, owner := Some(worker));
        job := job.(leaseUntil := Some(now + LEASE));
        job := job.(generation := job.generation + 1);
        job := job.(attempts := job.attempts + 1);
      }
      jobs := jobs[id := job];
    }

    /** Renews, extends, completes or fails one job. */
    method Call(id: nat, op: Op) returns (ok: bool)
      requires !op.Claim? && !op.Recover?
      modifies this
      ensures ok == (id in old(jobs) && Apply(old(jobs)[id], op).Some?)
      ensures jobs == if ok then old(jobs)[id := Apply(old(jobs)[id], op).value] else old(jobs)
    {
      if id !in jobs { return false; }
      var job := jobs[id];
      if !Owns(job, op.worker, op.held) { return false; }
      match op {
        case Heartbeat(_, _, now) =>
          if job.leaseUntil.None? || job.leaseUntil.value < now { return false; }
          job := job.(leaseUntil := Some(now + LEASE));
        case Extend(_, _, now) =>
          job := job.(leaseUntil := Some(now + LIVE_LEASE));
        case Complete(_, _, now) =>
          if job.deadline.Some? && job.deadline.value < now { return false; }
          job := job.(state := Succeeded, owner := None, leaseUntil := None);
        case Fail(_, _, retryable, now) =>
          var canRetry := retryable && job.attempts < job.maxAttempts;
          if job.deadline.Some? && now >= job.deadline.value { canRetry := false; }
          if canRetry {
            job := job.(state := RetryWait, availableAt := now + Delay(job.attempts));
          } else {
            job := job.(state := FailedRequiresReview);
          }
          job := job.(owner := None, leaseUntil := None);
      }
      jobs := jobs[id := job];
      return true;
    }

    method RecoverExpired(now: int) returns (recovered: nat)
      modifies this
      ensures jobs == map k | k in old(jobs) :: if IsExpired(old(jobs)[k], now) then Recovered(old(jobs)[k], now) else old(jobs)[k]
      ensures recovered == |set k | k in old(jobs) && IsExpired(old(jobs)[k], now)|
    {
      var expired := set k | k in jobs && IsExpired(jobs[k], now);
      var left := expired;
      recovered := 0;
      while left != {}
        invariant left <= expired && recovered + |left| == |expired|
        invariant jobs == map k | k in old(jobs) :: if k in expired - left then Recovered(old(jobs)[k], now) else old(jobs)[k]
      {
        var id :| id in left;
        var job := jobs[id];
        job := job.(owner := None, leaseUntil := None);
        if job.attempts < job.maxAttempts && (job.deadline.None? || now < job.deadline.value) {
          job := job.(state := RetryWait, availableAt := now);
        } else {
          job := job.(state := FailedRequiresReview);
        }
        jobs := jobs[id := job];
        left := left - {id};
        recovered := recovered + 1;
      }
    }
  }

  /** The earliest of some rows in claim order. */
  method First(jobs: map<nat, Job>, ids: set<nat>) returns (id: nat)
    requires ids != {} && forall k :: k in ids ==> k in jobs
    ensures id in ids && forall k :: k in ids && k != id ==> Before(jobs, id, k)
  {
    id :| id in ids;
    var left := ids - {id};
    while left != {}
      invariant left <= ids && id in ids
      invariant forall k :: k in ids && k !in left && k != id ==> Before(jobs, id, k)
    {
      var k :| k in left;
      if Before(jobs, k, id) { id := k; }
      left := left - {k};
    }
  }
}
