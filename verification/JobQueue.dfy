/**
 The fill-actor job queue as values: what each repository call does to the stored jobs, and what
 holds over every interleaving of calls by any number of owners. The calls themselves are methods
 of `Repository.MemoryRepository`.
 */
module JobQueue {
  import opened Options
  import opened Records

  datatype JobState = QUEUED | RUNNING | COMPLETED | PARTIAL_FAILED | FAILED_JOB

  datatype JobOperation = CREATE_PLAN | APPLY

  const JOB_CANCELLED := "job_cancelled"

  datatype Stage = StageQueued | StageWorking(name: string) | StageDone

  datatype Progress = Progress(stage: Stage, completed: nat, total: Option<nat>, current: Option<string>,
                               startedAt: int, updatedAt: int)

  /** `_terminal_progress`: the counts stay, the stage is done. */
  function TerminalProgress(progress: Progress, now: int, clearCurrent: bool): Progress {
    Progress(StageDone, progress.completed, progress.total, if clearCurrent then None else progress.current, now, now)
  }

  datatype Job = Job(jobId: string, operation: JobOperation, state: JobState, createdAt: int, updatedAt: int,
                     planId: Option<string>, error: Option<string>, owner: Option<string>, lease: Option<int>,
                     progress: Progress)
  {
    predicate Active() { state in {QUEUED, RUNNING} }

    predicate Terminal() { state !in {QUEUED, RUNNING} }
  }

  datatype ApplyResult = ApplyResult(planId: string, revision: string, results: seq<MoveResult>)

  datatype ApplyJob = ApplyJob(job: Job, revision: string, candidateIds: seq<string>, result: Option<ApplyResult>)

  /** The checks of `ApplyJobRecord.__post_init__`. */
  predicate ProperApplyJob(record: ApplyJob) {
    && record.job.operation == APPLY && record.revision != ""
    && (forall i, j | 0 <= i < j < |record.candidateIds| :: record.candidateIds[i] != record.candidateIds[j])
    && (record.result.Some? ==>
          && record.job.state == COMPLETED && record.result.value.revision == record.revision
          && (record.job.planId.Some? ==> record.result.value.planId == record.job.planId.value))
  }

  datatype Queue = Queue(jobs: map<string, Job>, applyJobs: map<string, ApplyJob>)

  /** What the queue keeps: rows filed under their id, an owner and a lease exactly while running, and
      every apply job readable, that is, still a proper record with the job's current row. */
  ghost predicate Sound(q: Queue) {
    && (forall id | id in q.jobs :: SoundJob(id, q.jobs[id]))
    && (forall id | id in q.applyJobs :: id in q.jobs && ProperApplyJob(q.applyJobs[id].(job := q.jobs[id])))
  }

  predicate SoundJob(id: string, job: Job) {
    job.jobId == id && (job.owner.Some? <==> job.state == RUNNING) && (job.lease.Some? <==> job.state == RUNNING)
  }

  function ActiveJobs(q: Queue): set<string> {
    set id | id in q.jobs && q.jobs[id].Active()
  }

  // -- what each call writes -------------------------------------------------

  /** A job as `start_plan` and `start_apply` enqueue it. */
  predicate Fresh(job: Job) {
    job.state == QUEUED && job.owner == None && job.lease == None && job.error == None
  }

  function Claimed(job: Job, owner: string, now: int, lease: int): Job {
    job.(state := RUNNING, updatedAt := now, error := None, owner := Some(owner), lease := Some(lease))
  }

  function Renewed(job: Job, now: int, lease: int): Job {
    job.(updatedAt := now, error := None, lease := Some(lease))
  }

  function Ended(job: Job, state: JobState, error: Option<string>, now: int, progress: Progress): Job {
    job.(state := state, updatedAt := now, error := error, owner := None, lease := None, progress := progress)
  }

  function Cancelled(job: Job, now: int): Job {
    Ended(job, FAILED_JOB, Some(JOB_CANCELLED), now, TerminalProgress(job.progress, now, job.operation == APPLY))
  }

  function Expired(job: Job, now: int, error: string): Job {
    Ended(job, FAILED_JOB, Some(error), now, TerminalProgress(job.progress, now, job.operation == APPLY))
  }

  /** Whether `owner` may still act on the job at `now`. */
  predicate Owned(job: Job, owner: string, now: int) {
    job.state == RUNNING && job.owner == Some(owner) && job.lease.Some? && job.lease.value > now
  }

  predicate LeaseOver(job: Job, now: int) {
    job.state == RUNNING && (job.lease == None || job.lease.value <= now)
  }

  /** Claim order: creation time, then id. */
  predicate Before(a: Job, b: Job) {
    a.createdAt < b.createdAt || (a.createdAt == b.createdAt && IdBefore(a.jobId, b.jobId))
  }

  predicate IdBefore(a: string, b: string) {
    if b == "" then false else a == "" || a[0] < b[0] || (a[0] == b[0] && IdBefore(a[1..], b[1..]))
  }

  lemma {:induction false} IdsAreOrdered(a: string, b: string, c: string)
    ensures a == b || IdBefore(a, b) || IdBefore(b, a)
    ensures IdBefore(a, b) && IdBefore(b, c) ==> IdBefore(a, c)
    ensures !IdBefore(a, a)
  {
    if a != "" {
      IdsAreOrdered(a[1..], if b == "" then "" else b[1..], if c == "" then "" else c[1..]);
      if b != "" && a[0] == b[0] && a[1..] == b[1..] {
        assert a == [a[0]] + a[1..] == b;
      }
    }
  }

  /** The oldest queued job. */
  ghost predicate IsNext(q: Queue, id: string) {
    && id in q.jobs && q.jobs[id].state == QUEUED
    && forall other | other in q.jobs && other != id && q.jobs[other].state == QUEUED ::
         Before(q.jobs[id], q.jobs[other])
  }

  ghost predicate NoneQueued(q: Queue) {
    forall id | id in q.jobs :: q.jobs[id].state != QUEUED
  }

  // -- the calls -------------------------------------------------------------

  datatype Call =
    | Enqueue(job: Job, cap: nat)
    | EnqueueApply(record: ApplyJob, cap: nat)
    | Claim(owner: string, now: int, lease: int)
    | Renew(id: string, owner: string, now: int, lease: int)
    | Report(id: string, owner: string, progress: Progress, now: int)
    | Finish(id: string, owner: string, state: JobState, error: Option<string>, now: int, progress: Progress,
             result: Option<ApplyResult>)
    | Cancel(id: string, now: int)
    | Expire(now: int, reason: string)
    | DropPlan(planId: string)

  /** The call as the job manager makes it. */
  predicate Proper(call: Call) {
    match call
    case Enqueue(job, _) => Fresh(job) && job.operation == CREATE_PLAN
    case EnqueueApply(record, _) => Fresh(record.job) && ProperApplyJob(record)
    case Finish(_, _, state, _, _, _, _) => state !in {QUEUED, RUNNING}
    case _ => true
  }

  predicate MayAct(q: Queue, id: string, owner: string, now: int) {
    id in q.jobs && Owned(q.jobs[id], owner, now)
  }

  function Put(q: Queue, id: string, job: Job): Queue {
    q.(jobs := q.jobs[id := job])
  }

  /** A finish with a result is refused with an exception unless the apply record stays proper. */
  predicate ResultFits(q: Queue, id: string, job: Job, result: Option<ApplyResult>) {
    || result == None
    || (id in q.applyJobs
        && ProperApplyJob(ApplyJob(job, q.applyJobs[id].revision, q.applyJobs[id].candidateIds, result)))
  }

  function Finished(q: Queue, id: string, job: Job, result: Option<ApplyResult>): Queue
    requires result.Some? ==> id in q.applyJobs
  {
    if result == None then Put(q, id, job)
    else
      var a := q.applyJobs[id];
      Queue(q.jobs[id := job], q.applyJobs[id := ApplyJob(job, a.revision, a.candidateIds, result)])
  }

  function WithoutPlan(job: Job, planId: string): Job {
    if job.planId == Some(planId) then job.(planId := None) else job
  }

  /** What one call does; the choice of the next job is the only one it leaves open. */
  ghost predicate Step(q: Queue, call: Call, q': Queue) {
    match call
    case Enqueue(job, cap) =>
      q' == if |ActiveJobs(q)| >= cap || job.jobId in q.jobs then q else Put(q, job.jobId, job)
    case EnqueueApply(record, cap) =>
      q' == if |ActiveJobs(q)| >= cap || record.job.jobId in q.jobs then q
            else Queue(q.jobs[record.job.jobId := record.job], q.applyJobs[record.job.jobId := record])
    case Claim(owner, now, lease) =>
      || (NoneQueued(q) && q' == q)
      || (exists id :: IsNext(q, id) && q' == Put(q, id, Claimed(q.jobs[id], owner, now, lease)))
    case Renew(id, owner, now, lease) =>
      q' == if MayAct(q, id, owner, now) then Put(q, id, Renewed(q.jobs[id], now, lease)) else q
    case Report(id, owner, progress, now) =>
      q' == if MayAct(q, id, owner, now) then Put(q, id, q.jobs[id].(error := None, progress := progress)) else q
    case Finish(id, owner, state, error, now, progress, result) =>
      q' == if MayAct(q, id, owner, now) && ResultFits(q, id, Ended(q.jobs[id], state, error, now, progress), result)
            then Finished(q, id, Ended(q.jobs[id], state, error, now, progress), result) else q
    case Cancel(id, now) =>
      q' == if id in q.jobs && q.jobs[id].operation == CREATE_PLAN && q.jobs[id].Active()
            then Put(q, id, Cancelled(q.jobs[id], now)) else q
    case Expire(now, error) =>
      q' == q.(jobs := map id | id in q.jobs ::
                 if LeaseOver(q.jobs[id], now) then Expired(q.jobs[id], now, error) else q.jobs[id])
    case DropPlan(planId) =>
      q' == Queue(map id | id in q.jobs :: WithoutPlan(q.jobs[id], planId),
                  map id | id in q.applyJobs && id in q.jobs ::
                    q.applyJobs[id].(job := WithoutPlan(q.jobs[id], planId)))
  }

  // -- every interleaving ----------------------------------------------------

  /** How far a job has come. */
  function Rank(q: Queue, id: string): nat {
    if id !in q.jobs then 0 else if q.jobs[id].state == QUEUED then 1 else if q.jobs[id].state == RUNNING then 2 else 3
  }

  /** A job's row before and after any one call, whoever makes it. */
  ghost predicate RowMoves(q: Queue, call: Call, q': Queue, id: string) {
    && Rank(q, id) <= Rank(q', id) && (id in q.jobs ==> id in q'.jobs)
    && (Rank(q, id) < 2 && Rank(q', id) == 2 ==> Rank(q, id) == 1 && call.Claim?)
    && (Rank(q, id) == 2 && Rank(q', id) == 3 ==>
          || (call.Finish? && call.id == id && MayAct(q, id, call.owner, call.now))
          || (call.Cancel? && call.id == id && q.jobs[id].operation == CREATE_PLAN)
          || (call.Expire? && LeaseOver(q.jobs[id], call.now)))
    && (Rank(q, id) == 2 && Rank(q', id) == 2 ==> q'.jobs[id].owner == q.jobs[id].owner)
    && (Rank(q, id) == 3 ==>
          q'.jobs[id] == q.jobs[id] || (call.DropPlan? && q'.jobs[id] == q.jobs[id].(planId := None)))
  }

  lemma StepMovesRow(q: Queue, call: Call, q': Queue, id: string)
    requires Sound(q) && Proper(call) && Step(q, call, q')
    ensures RowMoves(q, call, q', id)
  {
    if call.Enqueue? || call.EnqueueApply? {
      EnqueueMovesRow(q, call, q', id);
    } else if call.Claim? {
      ClaimMovesRow(q, call, q', id);
    } else if call.Expire? || call.DropPlan? {
      SweepMovesRow(q, call, q', id);
    } else {
      OwnCallMovesRow(q, call, q', id);
    }
  }

  lemma EnqueueMovesRow(q: Queue, call: Call, q': Queue, id: string)
    requires Sound(q) && Proper(call) && Step(q, call, q') && (call.Enqueue? || call.EnqueueApply?)
    ensures RowMoves(q, call, q', id)
  {
  }

  lemma ClaimMovesRow(q: Queue, call: Call, q': Queue, id: string)
    requires Sound(q) && Step(q, call, q') && call.Claim?
    ensures RowMoves(q, call, q', id)
  {
  }

  lemma SweepMovesRow(q: Queue, call: Call, q': Queue, id: string)
    requires Sound(q) && Step(q, call, q') && (call.Expire? || call.DropPlan?)
    ensures RowMoves(q, call, q', id)
  {
  }

  lemma OwnCallMovesRow(q: Queue, call: Call, q': Queue, id: string)
    requires Sound(q) && Proper(call) && Step(q, call, q')
    requires call.Renew? || call.Report? || call.Finish? || call.Cancel?
    ensures RowMoves(q, call, q', id)
  {
  }

  lemma StepKeepsSound(q: Queue, call: Call, q': Queue)
    requires Sound(q) && Proper(call) && Step(q, call, q')
    ensures Sound(q')
  {
    match call {
      case Enqueue(_, _) => EnqueueKeepsSound(q, call, q');
      case EnqueueApply(_, _) => EnqueueKeepsSound(q, call, q');
      case Finish(_, _, _, _, _, _, _) => FinishKeepsSound(q, call, q');
      case Expire(_, _) => SweepKeepsSound(q, call, q');
      case DropPlan(_) => SweepKeepsSound(q, call, q');
      case Claim(_, _, _) => ClaimKeepsSound(q, call, q');
      case _ => RowKeepsSound(q, call, q');
    }
  }

  lemma EnqueueKeepsSound(q: Queue, call: Call, q': Queue)
    requires Sound(q) && Proper(call) && Step(q, call, q') && (call.Enqueue? || call.EnqueueApply?)
    ensures Sound(q')
  {
  }

  lemma ClaimKeepsSound(q: Queue, call: Call, q': Queue)
    requires Sound(q) && Step(q, call, q') && call.Claim?
    ensures Sound(q')
  {
  }

  lemma FinishKeepsSound(q: Queue, call: Call, q': Queue)
    requires Sound(q) && Proper(call) && Step(q, call, q') && call.Finish?
    ensures Sound(q')
  {
  }

  lemma RowKeepsSound(q: Queue, call: Call, q': Queue)
    requires Sound(q) && Step(q, call, q') && (call.Renew? || call.Report? || call.Cancel?)
    ensures Sound(q')
  {
  }

  lemma SweepKeepsSound(q: Queue, call: Call, q': Queue)
    requires Sound(q) && Step(q, call, q') && (call.Expire? || call.DropPlan?)
    ensures Sound(q')
  {
  }

  /** A run: `calls` by any owners in any order, `qs[i]` the queue before call `i`. */
  ghost predicate Run(qs: seq<Queue>, calls: seq<Call>) {
    && |qs| == |calls| + 1 && Sound(qs[0])
    && forall i | 0 <= i < |calls| :: CallAt(qs, calls, i)
  }

  ghost predicate CallAt(qs: seq<Queue>, calls: seq<Call>, i: nat)
    requires i < |calls| && i + 1 < |qs|
  {
    Proper(calls[i]) && Step(qs[i], calls[i], qs[i + 1])
  }

  lemma {:induction false} RunStaysSound(qs: seq<Queue>, calls: seq<Call>, k: nat)
    requires Run(qs, calls) && k < |qs|
    ensures Sound(qs[k])
  {
    if k > 0 {
      RunStaysSound(qs, calls, k - 1);
      assert CallAt(qs, calls, k - 1);
      StepKeepsSound(qs[k - 1], calls[k - 1], qs[k]);
    }
  }

  lemma RunMovesRow(qs: seq<Queue>, calls: seq<Call>, k: nat, id: string)
    requires Run(qs, calls) && k < |calls|
    ensures RowMoves(qs[k], calls[k], qs[k + 1], id)
  {
    RunStaysSound(qs, calls, k);
    assert CallAt(qs, calls, k);
    StepMovesRow(qs[k], calls[k], qs[k + 1], id);
  }

  lemma {:induction false} JobsNeverStepBack(qs: seq<Queue>, calls: seq<Call>, i: nat, j: nat, id: string)
    requires Run(qs, calls) && i <= j < |qs|
    ensures Rank(qs[i], id) <= Rank(qs[j], id)
    decreases j
  {
    if i < j {
      JobsNeverStepBack(qs, calls, i, j - 1, id);
      RunMovesRow(qs, calls, j - 1, id);
    }
  }

  /** Call `k` takes the job from its queue. */
  ghost predicate Claims(qs: seq<Queue>, k: nat, id: string)
    requires k + 1 < |qs|
  {
    Rank(qs[k], id) < 2 && Rank(qs[k + 1], id) == 2
  }

  /** Call `k` ends the job. */
  ghost predicate Ends(qs: seq<Queue>, k: nat, id: string)
    requires k + 1 < |qs|
  {
    Rank(qs[k], id) < 3 && Rank(qs[k + 1], id) == 3
  }

  /** Nobody claims a job twice, and nobody ends one twice: whichever of finish, cancel and expiry
      comes first wins, and the others find the job ended. */
  lemma ClaimedAndEndedOnce(qs: seq<Queue>, calls: seq<Call>, i: nat, j: nat, id: string)
    requires Run(qs, calls) && i < j < |calls|
    ensures !(Claims(qs, i, id) && Claims(qs, j, id))
    ensures !(Ends(qs, i, id) && Ends(qs, j, id))
    ensures !(Ends(qs, i, id) && Claims(qs, j, id))
  {
    JobsNeverStepBack(qs, calls, i + 1, j, id);
  }

  /** An ended job keeps its row, state, error and progress for good; only its plan may go. */
  lemma {:induction false} EndedIsFinal(qs: seq<Queue>, calls: seq<Call>, i: nat, j: nat, id: string)
    requires Run(qs, calls) && i <= j < |qs| && Rank(qs[i], id) == 3
    ensures Rank(qs[j], id) == 3 && qs[j].jobs[id] in {qs[i].jobs[id], qs[i].jobs[id].(planId := None)}
    decreases j
  {
    if i < j {
      EndedIsFinal(qs, calls, i, j - 1, id);
      RunMovesRow(qs, calls, j - 1, id);
    }
  }

  function TimeOf(call: Call): Option<int> {
    match call
    case Claim(_, now, _) => Some(now)
    case Renew(_, _, now, _) => Some(now)
    case Report(_, _, _, now) => Some(now)
    case Finish(_, _, _, _, now, _, _) => Some(now)
    case Cancel(_, now) => Some(now)
    case Expire(now, _) => Some(now)
    case _ => None
  }

  /** From call `i` on no clock shows a time before `t`. */
  ghost predicate NotBefore(calls: seq<Call>, i: nat, t: int) {
    forall k | i <= k < |calls| && TimeOf(calls[k]).Some? :: TimeOf(calls[k]).value >= t
  }

  lemma {:induction false} LostStaysLost(qs: seq<Queue>, calls: seq<Call>, i: nat, j: nat, id: string, owner: string,
                                         t: int)
    requires Run(qs, calls) && i <= j < |qs| && NotBefore(calls, i, t)
    requires Rank(qs[i], id) >= 2 && !MayAct(qs[i], id, owner, t)
    ensures !MayAct(qs[j], id, owner, t)
    decreases j
  {
    if i < j {
      LostStaysLost(qs, calls, i, j - 1, id, owner, t);
      JobsNeverStepBack(qs, calls, i, j - 1, id);
      RunStaysSound(qs, calls, j - 1);
      assert CallAt(qs, calls, j - 1);
      NobodyRegains(qs[j - 1], calls[j - 1], qs[j], id, owner, t);
    }
  }

  lemma NobodyRegains(q: Queue, call: Call, q': Queue, id: string, owner: string, t: int)
    requires Sound(q) && Proper(call) && Step(q, call, q') && Rank(q, id) >= 2 && !MayAct(q, id, owner, t)
    requires TimeOf(call).Some? ==> TimeOf(call).value >= t
    ensures !MayAct(q', id, owner, t)
  {
  }

  ghost predicate ActsOn(call: Call, id: string, owner: string) {
    (call.Renew? || call.Report? || call.Finish?) && call.id == id && call.owner == owner
  }

  /** Once a job has left an owner's hands, because it ended, another holds it or the lease ran out,
      that owner's renewals, reports and finishes change nothing ever again. */
  lemma FormerOwnersChangeNothing(qs: seq<Queue>, calls: seq<Call>, i: nat, j: nat, id: string, owner: string, t: int)
    requires Run(qs, calls) && i <= j < |calls| && NotBefore(calls, i, t)
    requires Rank(qs[i], id) >= 2 && !MayAct(qs[i], id, owner, t)
    requires ActsOn(calls[j], id, owner)
    ensures qs[j + 1] == qs[j]
  {
    LostStaysLost(qs, calls, i, j, id, owner, t);
    assert TimeOf(calls[j]).value >= t && CallAt(qs, calls, j);
  }

  /** Queued and running jobs together never exceed the manager's cap. */
  lemma {:induction false} CapHolds(qs: seq<Queue>, calls: seq<Call>, k: nat, cap: nat)
    requires Run(qs, calls) && k < |qs| && |ActiveJobs(qs[0])| <= cap
    requires forall c | c in calls && (c.Enqueue? || c.EnqueueApply?) :: c.cap == cap
    ensures |ActiveJobs(qs[k])| <= cap
  {
    if k > 0 {
      CapHolds(qs, calls, k - 1, cap);
      RunStaysSound(qs, calls, k - 1);
      assert calls[k - 1] in calls && CallAt(qs, calls, k - 1);
      StepKeepsCap(qs[k - 1], calls[k - 1], qs[k], cap);
    }
  }

  lemma StepKeepsCap(q: Queue, call: Call, q': Queue, cap: nat)
    requires Sound(q) && Proper(call) && Step(q, call, q') && |ActiveJobs(q)| <= cap
    requires call.Enqueue? || call.EnqueueApply? ==> call.cap == cap
    ensures |ActiveJobs(q')| <= cap
  {
    match call {
      case Enqueue(job, _) => if q' != q { ActiveGrows(q, q', job.jobId); }
      case EnqueueApply(record, _) => if q' != q { ActiveGrows(q, q', record.job.jobId); }
      case _ => ActiveShrinks(q, call, q');
    }
  }

  lemma ActiveGrows(q: Queue, q': Queue, id: string)
    requires q'.jobs == q.jobs || q'.jobs - {id} == q.jobs
    ensures |ActiveJobs(q')| <= |ActiveJobs(q)| + 1
  {
    assert ActiveJobs(q') <= ActiveJobs(q) + {id} by {
      forall x | x in ActiveJobs(q') && x != id ensures x in ActiveJobs(q) {
        assert x in q'.jobs - {id};
      }
    }
    Smaller(ActiveJobs(q'), ActiveJobs(q) + {id});
  }

  lemma ActiveShrinks(q: Queue, call: Call, q': Queue)
    requires Sound(q) && Proper(call) && Step(q, call, q') && !call.Enqueue? && !call.EnqueueApply?
    ensures |ActiveJobs(q')| <= |ActiveJobs(q)|
  {
    assert ActiveJobs(q') <= ActiveJobs(q);
    Smaller(ActiveJobs(q'), ActiveJobs(q));
  }

  lemma {:induction false} Smaller<T>(a: set<T>, b: set<T>)
    requires a <= b
    ensures |a| <= |b|
    decreases a
  {
    if x :| x in a {
      Smaller(a - {x}, b - {x});
    }
  }

  /** An apply result is stored by the finish of its completed job, once, and stays; whatever becomes
      of the plan, the job can still be read as a proper record. */
  lemma {:induction false} ApplyResultsStay(qs: seq<Queue>, calls: seq<Call>, i: nat, j: nat, id: string)
    requires Run(qs, calls) && i <= j < |qs| && id in qs[i].applyJobs && qs[i].applyJobs[id].result.Some?
    ensures id in qs[j].applyJobs && qs[j].applyJobs[id].result == qs[i].applyJobs[id].result
    ensures id in qs[j].jobs && qs[j].jobs[id].state == COMPLETED
    ensures ProperApplyJob(qs[j].applyJobs[id].(job := qs[j].jobs[id]))
    decreases j
  {
    RunStaysSound(qs, calls, j);
    if i < j {
      ApplyResultsStay(qs, calls, i, j - 1, id);
      RunStaysSound(qs, calls, j - 1);
      assert CallAt(qs, calls, j - 1);
      ResultStays(qs[j - 1], calls[j - 1], qs[j], id);
    }
  }

  lemma ResultStays(q: Queue, call: Call, q': Queue, id: string)
    requires Sound(q) && Proper(call) && Step(q, call, q') && id in q.applyJobs && q.applyJobs[id].result.Some?
    ensures id in q'.applyJobs && q'.applyJobs[id].result == q.applyJobs[id].result
  {
    if call.Finish? && call.id == id {
    }
  }
}
