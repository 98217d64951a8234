/**
 `MemoryFillActorRepository`, the executable specification of the fill actor's storage. Each method
 is one atomic step under the repository's lock. The calls of the job queue are tied to
 `JobQueue.Step`, whose runs are studied there; the rest is about what may be stored for a plan and
 when a plan may go.
 */
module Repository {
  import opened Options
  import opened Records
  import opened JobQueue
  import CloudMove

  datatype Candidate = LocalFile(videoId: string) | CloudStrm(videoId: string, source: string, destinationDir: string)

  datatype Plan = Plan(candidates: map<string, Candidate>, expiresAt: int)

  datatype CancelOutcome = CANCELLED | ALREADY_CANCELLED | ALREADY_TERMINAL | NOT_CANCELLABLE | NOT_FOUND

  datatype EnqueueOutcome = ENQUEUED | EXISTING | CONFLICTING | FULL

  datatype FinishOutcome = Done(saved: bool) | Rejected

  datatype SaveOutcome = Saved | NoSuchCandidate | Refused

  /** Rows of plans other than `planIds`. */
  function OfOthers<V>(rows: map<Key, V>, planIds: set<string>): map<Key, V> {
    map k | k in rows && k.planId !in planIds :: rows[k]
  }

  function JobsWithoutPlans(jobs: map<string, Job>, planIds: set<string>): map<string, Job> {
    map id | id in jobs ::
      if jobs[id].planId.Some? && jobs[id].planId.value in planIds then jobs[id].(planId := None) else jobs[id]
  }

  predicate InPlans(plans: map<string, Plan>, key: Key) {
    key.planId in plans && key.candidateId in plans[key.planId].candidates
  }

  ghost predicate Anchored<V>(rows: map<Key, V>, plans: map<string, Plan>) {
    forall k | k in rows :: InPlans(plans, k)
  }

  ghost predicate AllFit(operations: map<Key, CloudMove.Operation>, plans: map<string, Plan>) {
    forall k | k in operations :: InPlans(plans, k) && Fits(plans[k.planId].candidates[k.candidateId], operations[k])
  }

  /** Apply records around the job rows as they are now. */
  function Rejoined(applyJobs: map<string, ApplyJob>, jobs: map<string, Job>): map<string, ApplyJob> {
    map id | id in applyJobs && id in jobs :: applyJobs[id].(job := jobs[id])
  }

  lemma RetainedAnchored<V>(rows: map<Key, V>, plans: map<string, Plan>, planId: string, plan: Plan)
    requires Anchored(rows, plans)
    ensures Anchored(Retained(rows, planId, plan), plans[planId := plan])
  {
  }

  lemma RetainedFit(operations: map<Key, CloudMove.Operation>, plans: map<string, Plan>, planId: string, plan: Plan)
    requires AllFit(operations, plans)
    ensures AllFit(Retained(operations, planId, plan), plans[planId := plan]) <==>
              forall k | k in Retained(operations, planId, plan) && k.planId == planId ::
                  Fits(plan.candidates[k.candidateId], operations[k])
  {
    var kept, plans' := Retained(operations, planId, plan), plans[planId := plan];
    forall k | k in kept
      ensures InPlans(plans', k)
      ensures plans'[k.planId].candidates[k.candidateId] ==
              (if k.planId == planId then plan else plans[k.planId]).candidates[k.candidateId]
    {}
    if forall k | k in kept && k.planId == planId :: Fits(plan.candidates[k.candidateId], operations[k]) {
      forall k | k in kept ensures Fits(plans'[k.planId].candidates[k.candidateId], kept[k]) {}
    }
  }

  lemma OthersAnchored<V>(rows: map<Key, V>, plans: map<string, Plan>, planId: string)
    requires Anchored(rows, plans)
    ensures Anchored(OfOthers(rows, {planId}), plans - {planId})
  {
  }

  lemma OthersFit(operations: map<Key, CloudMove.Operation>, plans: map<string, Plan>, planId: string)
    requires AllFit(operations, plans)
    ensures AllFit(OfOthers(operations, {planId}), plans - {planId})
  {
  }

  lemma DropIsAStep(q: Queue, planId: string)
    requires Sound(q)
    ensures var jobs := JobsWithoutPlans(q.jobs, {planId});
            && Step(q, DropPlan(planId), Queue(jobs, Rejoined(q.applyJobs, jobs)))
            && Sound(Queue(jobs, Rejoined(q.applyJobs, jobs)))
    ensures Rejoined(q.applyJobs, JobsWithoutPlans(q.jobs, {planId})).Keys == q.applyJobs.Keys
  {
    var jobs := JobsWithoutPlans(q.jobs, {planId});
    StepKeepsSound(q, DropPlan(planId), Queue(jobs, Rejoined(q.applyJobs, jobs)));
  }

  ghost function JobsExpired(jobs: map<string, Job>, ids: set<string>, now: int, reason: string): map<string, Job> {
    map id | id in jobs :: if id in ids then Expired(jobs[id], now, reason) else jobs[id]
  }

  /** Rows a re-saved plan keeps. */
  function Retained<V>(rows: map<Key, V>, planId: string, plan: Plan): map<Key, V> {
    map k | k in rows && (k.planId != planId || k.candidateId in plan.candidates) :: rows[k]
  }

  class MemoryRepository {
    var plans: map<string, Plan>
    var moveResults: map<Key, MoveResult>
    var jobs: map<string, Job>
    var applyJobs: map<string, ApplyJob>
    var moveJournal: map<Key, JournalState>
    var cloudOperations: map<Key, CloudMove.Operation>

    function Jobs(): Queue
      reads this
    {
      Queue(jobs, applyJobs)
    }

    predicate HasCandidate(key: Key)
      reads this
    {
      InPlans(plans, key)
    }

    /** Every row about a candidate belongs to one that exists, and the queue is sound. */
    ghost predicate Valid()
      reads this
    {
      && Named(moveResults) && Sound(Jobs())
      && Anchored(moveResults, plans) && Anchored(moveJournal, plans) && Anchored(cloudOperations, plans)
    }

    /** Every cloud operation is its candidate's: the right kind, the same paths. */
    ghost predicate Matched()
      reads this
    {
      AllFit(cloudOperations, plans)
    }

    constructor ()
      ensures Valid() && Matched() && plans == map[] && jobs == map[]
    {
      plans, moveResults, jobs, applyJobs, moveJournal, cloudOperations := map[], map[], map[], map[], map[], map[];
    }

    // -- the job queue -------------------------------------------------------

    method EnqueueJob(job: Job, maxActive: nat) returns (queued: bool)
      requires Valid() && Fresh(job) && job.operation == CREATE_PLAN
      modifies `jobs
      ensures Valid() && Step(old(Jobs()), Enqueue(job, maxActive), Jobs())
      ensures queued <==> |ActiveJobs(old(Jobs()))| < maxActive && job.jobId !in old(jobs)
    {
      var active := set id | id in jobs && jobs[id].state in {QUEUED, RUNNING};
      assert active == ActiveJobs(Jobs());
      if |active| >= maxActive || job.jobId in jobs { return false; }
      StepKeepsSound(Jobs(), Enqueue(job, maxActive), Put(Jobs(), job.jobId, job));
      jobs := jobs[job.jobId := job];
      return true;
    }

    method EnqueueApplyJob(record: ApplyJob, maxActive: nat) returns (outcome: EnqueueOutcome, stored: Option<ApplyJob>)
      requires Valid() && Proper(EnqueueApply(record, maxActive))
      modifies `jobs, `applyJobs
      ensures Valid() && Step(old(Jobs()), EnqueueApply(record, maxActive), Jobs())
      ensures outcome == ENQUEUED <==> Jobs() != old(Jobs())
      // A repeated request is answered with the job it already started, as it stands now.
      ensures outcome == EXISTING ==> stored.Some? && record.job.jobId in jobs
      ensures outcome == EXISTING ==>
                stored.value.candidateIds == record.candidateIds && stored.value.revision == record.revision
      ensures outcome == EXISTING ==> stored.value.job == jobs[record.job.jobId] && ProperApplyJob(stored.value)
      ensures outcome == FULL ==> |ActiveJobs(Jobs())| >= maxActive && record.job.jobId !in jobs
    {
      var id := record.job.jobId;
      if id in jobs {
        if id in applyJobs && applyJobs[id].job.planId == record.job.planId
           && applyJobs[id].revision == record.revision && applyJobs[id].candidateIds == record.candidateIds
        {
          return EXISTING, Some(applyJobs[id].(job := jobs[id]));
        }
        return CONFLICTING, None;
      }
      var active := set x | x in jobs && jobs[x].state in {QUEUED, RUNNING};
      assert active == ActiveJobs(Jobs());
      if |active| >= maxActive { return FULL, None; }
      StepKeepsSound(Jobs(), EnqueueApply(record, maxActive), Queue(jobs[id := record.job], applyJobs[id := record]));
      jobs, applyJobs := jobs[id := record.job], applyJobs[id := record];
      return ENQUEUED, Some(record);
    }

    /** The oldest queued job goes to the caller. */
    method ClaimNextJob(owner: string, now: int, lease: int) returns (claimed: Option<Job>)
      requires Valid()
      modifies `jobs
      ensures Valid() && Step(old(Jobs()), Claim(owner, now, lease), Jobs())
      ensures claimed == None <==> NoneQueued(old(Jobs()))
      ensures claimed.Some? ==>
                IsNext(old(Jobs()), claimed.value.jobId) && MayAct(Jobs(), claimed.value.jobId, owner, lease - 1)
      ensures claimed.Some? ==> jobs[claimed.value.jobId] == claimed.value
    {
      var oldest := OldestQueued(Jobs());
      if oldest == None { return None; }
      var first := oldest.value;
      var job := Claimed(jobs[first], owner, now, lease);
      StepKeepsSound(Jobs(), Claim(owner, now, lease), Put(Jobs(), first, job));
      jobs := jobs[first := job];
      return Some(job);
    }

    method RenewOwnedJobLease(id: string, owner: string, now: int, lease: int) returns (renewed: bool)
      requires Valid()
      modifies `jobs
      ensures Valid() && Step(old(Jobs()), Renew(id, owner, now, lease), Jobs())
      ensures renewed <==> MayAct(old(Jobs()), id, owner, now)
    {
      if !MayAct(Jobs(), id, owner, now) { return false; }
      StepKeepsSound(Jobs(), Renew(id, owner, now, lease), Put(Jobs(), id, Renewed(jobs[id], now, lease)));
      jobs := jobs[id := Renewed(jobs[id], now, lease)];
      return true;
    }

    method UpdateOwnedJobProgress(id: string, owner: string, progress: Progress, now: int) returns (owned: bool)
      requires Valid()
      modifies `jobs
      ensures Valid() && Step(old(Jobs()), Report(id, owner, progress, now), Jobs())
      ensures owned <==> MayAct(old(Jobs()), id, owner, now)
    {
      if !MayAct(Jobs(), id, owner, now) { return false; }
      var job := jobs[id].(error := None, progress := progress);
      StepKeepsSound(Jobs(), Report(id, owner, progress, now), Put(Jobs(), id, job));
      jobs := jobs[id := job];
      return true;
    }

    /** A result that does not fit the apply record raises before anything is stored. */
    method FinishOwnedJob(id: string, owner: string, state: JobState, error: Option<string>, now: int,
                          progress: Progress, result: Option<ApplyResult>)
      returns (outcome: FinishOutcome)
      requires Valid() && state !in {QUEUED, RUNNING}
      modifies `jobs, `applyJobs
      ensures Valid() && Step(old(Jobs()), Finish(id, owner, state, error, now, progress, result), Jobs())
      ensures outcome == Done(false) <==> !MayAct(old(Jobs()), id, owner, now)
      ensures outcome == Rejected ==> Jobs() == old(Jobs()) && result.Some?
      ensures outcome == Done(true) ==> id in jobs && jobs[id].state == state && jobs[id].error == error
      ensures outcome == Done(true) && result.Some? ==>
                id in applyJobs && applyJobs[id].result == result && state == COMPLETED
    {
      if !MayAct(Jobs(), id, owner, now) { return Done(false); }
      var finished := Ended(jobs[id], state, error, now, progress);
      if !ResultFits(Jobs(), id, finished, result) { return Rejected; }
      StepKeepsSound(Jobs(), Finish(id, owner, state, error, now, progress, result),
          JobQueue.Finished(Jobs(), id, finished, result));
      if result.Some? {
        applyJobs := applyJobs[id := ApplyJob(finished, applyJobs[id].revision, applyJobs[id].candidateIds, result)];
      }
      jobs := jobs[id := finished];
      return Done(true);
    }

    static predicate WasCancelled(job: Job) {
      job.state == FAILED_JOB && job.error == Some(JOB_CANCELLED)
    }

    method CancelJob(id: string, now: int) returns (outcome: CancelOutcome)
      requires Valid()
      modifies `jobs
      ensures Valid() && Step(old(Jobs()), Cancel(id, now), Jobs())
      ensures outcome == NOT_FOUND <==> id !in old(jobs)
      ensures outcome == NOT_CANCELLABLE <==> id in old(jobs) && old(jobs[id]).operation == APPLY
      ensures outcome == CANCELLED <==>
                id in old(jobs) && old(jobs[id]).operation == CREATE_PLAN && old(jobs[id]).Active()
      ensures outcome == ALREADY_CANCELLED <==>
                id in old(jobs) && old(jobs[id]).operation == CREATE_PLAN && WasCancelled(old(jobs[id]))
      ensures outcome == ALREADY_TERMINAL <==>
        && id in old(jobs) && old(jobs[id]).operation == CREATE_PLAN
        && old(jobs[id]).Terminal() && !WasCancelled(old(jobs[id]))
    {
      if id !in jobs { return NOT_FOUND; }
      var current := jobs[id];
      if current.operation == APPLY { return NOT_CANCELLABLE; }
      if current.state == FAILED_JOB && current.error == Some(JOB_CANCELLED) { return ALREADY_CANCELLED; }
      if current.state !in {QUEUED, RUNNING} { return ALREADY_TERMINAL; }
      StepKeepsSound(Jobs(), Cancel(id, now), Put(Jobs(), id, JobQueue.Cancelled(current, now)));
      jobs := jobs[id := JobQueue.Cancelled(current, now)];
      return CANCELLED;
    }

    method FailExpiredJobs(now: int, reason: string) returns (count: nat)
      requires Valid()
      modifies `jobs
      ensures Valid() && Step(old(Jobs()), Expire(now, reason), Jobs())
      ensures count == |set id | id in old(jobs) && LeaseOver(old(jobs)[id], now)|
    {
      var expired := set id | id in jobs && LeaseOver(jobs[id], now);
      ghost var before := Jobs();
      var todo := expired;
      while todo != {}
        invariant todo <= expired <= before.jobs.Keys
        invariant jobs == JobsExpired(before.jobs, expired - todo, now, reason)
        decreases todo
      {
        var id :| id in todo;
        assert expired - (todo - {id}) == (expired - todo) + {id};
        todo := todo - {id};
        jobs := jobs[id := Expired(jobs[id], now, reason)];
      }
      StepKeepsSound(before, Expire(now, reason), Jobs());
      return |expired|;
    }

    // -- plans and what hangs on them ----------------------------------------

    /** What keeps a plan: an open journal, an open operation or an apply job under way. */
    predicate Busy(planId: string)
      reads this
    {
      || (exists k | k in moveJournal :: k.planId == planId && moveJournal[k] != JournalReconciled)
      || (exists k | k in cloudOperations :: k.planId == planId && !cloudOperations[k].state.Terminal())
      || (exists id | id in jobs :: jobs[id].operation == APPLY && jobs[id].planId == Some(planId) && jobs[id].Active())
    }

    /** A plan replaces what was stored under its id, and rows of candidates it no longer has go. An
        operation that stays may stop matching its candidate: exactly when the new plan gives that
        candidate another kind or other paths. */
    method SavePlan(planId: string, plan: Plan)
      requires Valid()
      modifies `plans, `moveResults, `moveJournal, `cloudOperations
      ensures Valid() && plans == old(plans)[planId := plan]
      ensures moveResults == Retained(old(moveResults), planId, plan)
      ensures moveJournal == Retained(old(moveJournal), planId, plan)
      ensures cloudOperations == Retained(old(cloudOperations), planId, plan)
      ensures old(Matched()) ==>
                (Matched() <==>
                 forall k | k in cloudOperations && k.planId == planId ::
                   Fits(plan.candidates[k.candidateId], cloudOperations[k]))
    {
      RetainedAnchored(moveResults, plans, planId, plan);
      RetainedAnchored(moveJournal, plans, planId, plan);
      RetainedAnchored(cloudOperations, plans, planId, plan);
      if Matched() { RetainedFit(cloudOperations, plans, planId, plan); }
      plans := plans[planId := plan];
      moveResults := Retained(moveResults, planId, plan);
      moveJournal := Retained(moveJournal, planId, plan);
      cloudOperations := Retained(cloudOperations, planId, plan);
    }

    method DeletePlanDependents(planId: string)
      requires Sound(Jobs())
      modifies `moveResults, `moveJournal, `cloudOperations, `jobs, `applyJobs
      ensures moveResults == OfOthers(old(moveResults), {planId}) && moveJournal == OfOthers(old(moveJournal), {planId})
      ensures cloudOperations == OfOthers(old(cloudOperations), {planId})
      ensures jobs == JobsWithoutPlans(old(jobs), {planId}) && applyJobs.Keys == old(applyJobs).Keys
      ensures Sound(Jobs()) && Step(old(Jobs()), DropPlan(planId), Jobs())
    {
      moveResults := OfOthers(moveResults, {planId});
      moveJournal := OfOthers(moveJournal, {planId});
      cloudOperations := OfOthers(cloudOperations, {planId});
      DropIsAStep(Jobs(), planId);
      jobs := JobsWithoutPlans(jobs, {planId});
      applyJobs := Rejoined(applyJobs, jobs);
    }

    /** A plan and all that hangs on it. */
    method DropPlanRow(planId: string)
      requires Valid()
      modifies this
      ensures Valid() && (old(Matched()) ==> Matched())
      ensures plans == old(plans) - {planId}
      ensures moveResults == OfOthers(old(moveResults), {planId}) && moveJournal == OfOthers(old(moveJournal), {planId})
      ensures cloudOperations == OfOthers(old(cloudOperations), {planId})
      ensures jobs == JobsWithoutPlans(old(jobs), {planId}) && applyJobs.Keys == old(applyJobs).Keys
      ensures Step(old(Jobs()), DropPlan(planId), Jobs())
    {
      OthersAnchored(moveResults, plans, planId);
      OthersAnchored(moveJournal, plans, planId);
      OthersAnchored(cloudOperations, plans, planId);
      if Matched() { OthersFit(cloudOperations, plans, planId); }
      plans := plans - {planId};
      DeletePlanDependents(planId);
    }

    method DeletePlan(planId: string) returns (removed: bool)
      requires Valid()
      modifies this
      ensures Valid() && (old(Matched()) ==> Matched())
      ensures removed <==> planId in old(plans) && !old(Busy(planId))
      ensures !removed ==> plans == old(plans) && moveResults == old(moveResults) && moveJournal == old(moveJournal)
      ensures !removed ==> cloudOperations == old(cloudOperations) && Jobs() == old(Jobs())
      ensures removed ==> plans == old(plans) - {planId} && moveResults == OfOthers(old(moveResults), {planId})
      ensures removed ==>
                && moveJournal == OfOthers(old(moveJournal), {planId})
                && cloudOperations == OfOthers(old(cloudOperations), {planId})
      ensures removed ==> Step(old(Jobs()), DropPlan(planId), Jobs())
    {
      if Busy(planId) || planId !in plans { return false; }
      DropPlanRow(planId);
      return true;
    }

    /** Every plan past its time goes, unless it is busy; all that goes with it is its own. */
    method PurgeExpiredPlans(now: int) returns (count: nat)
      requires Valid()
      modifies this
      ensures Valid() && (old(Matched()) ==> Matched())
      ensures var gone := set p | p in old(plans) && old(plans)[p].expiresAt <= now && !old(Busy(p));
              && count == |gone| && plans == old(plans) - gone
              && moveResults == OfOthers(old(moveResults), gone) && moveJournal == OfOthers(old(moveJournal), gone)
              && cloudOperations == OfOthers(old(cloudOperations), gone)
              && jobs == JobsWithoutPlans(old(jobs), gone) && applyJobs.Keys == old(applyJobs).Keys
    {
      var expired := set p | p in plans && plans[p].expiresAt <= now && !Busy(p);
      DropPlanRows(expired);
      return |expired|;
    }

    method DropPlanRows(gone: set<string>)
      requires Valid()
      modifies this
      ensures Valid() && (old(Matched()) ==> Matched())
      ensures plans == old(plans) - gone && jobs == JobsWithoutPlans(old(jobs), gone)
      ensures applyJobs.Keys == old(applyJobs).Keys
      ensures moveResults == OfOthers(old(moveResults), gone) && moveJournal == OfOthers(old(moveJournal), gone)
      ensures cloudOperations == OfOthers(old(cloudOperations), gone)
    {
      var todo := gone;
      ghost var done := {};
      NobodyGone(moveResults, moveJournal, cloudOperations, jobs);
      while todo != {}
        invariant todo + done == gone && todo !! done
        invariant Valid() && (old(Matched()) ==> Matched())
        invariant plans == old(plans) - done && applyJobs.Keys == old(applyJobs).Keys
        invariant moveResults == OfOthers(old(moveResults), done) && moveJournal == OfOthers(old(moveJournal), done)
        invariant cloudOperations == OfOthers(old(cloudOperations), done) && jobs == JobsWithoutPlans(old(jobs), done)
        decreases todo
      {
        var planId :| planId in todo;
        OneMoreGone(old(moveResults), old(moveJournal), old(cloudOperations), old(jobs), done, planId);
        todo, done := todo - {planId}, done + {planId};
        DropPlanRow(planId);
      }
      assert done == gone;
    }

    /** Stored under the candidate the result is about. */
    method SaveMoveResult(planId: string, result: MoveResult, videoId: string) returns (outcome: SaveOutcome)
      requires Valid()
      modifies `moveResults
      ensures Valid()
      ensures var key := Key(planId, result.candidateId);
              && (outcome == Saved <==>
                  HasCandidate(key) && plans[planId].candidates[result.candidateId].videoId == videoId)
              && moveResults == if outcome == Saved then old(moveResults)[key := result] else old(moveResults)
    {
      var key := Key(planId, result.candidateId);
      if !HasCandidate(key) { return NoSuchCandidate; }
      if plans[planId].candidates[result.candidateId].videoId != videoId { return Refused; }
      moveResults := moveResults[key := result];
      return Saved;
    }

    method GetMoveResult(planId: string, candidateId: string) returns (result: Option<MoveResult>)
      requires Valid()
      ensures result.Some? <==> Key(planId, candidateId) in moveResults
      ensures result.Some? ==>
                result.value == moveResults[Key(planId, candidateId)] && result.value.candidateId == candidateId
    {
      var key := Key(planId, candidateId);
      return if key in moveResults then Some(moveResults[key]) else None;
    }

    method SaveMoveJournal(key: Key, state: JournalState) returns (outcome: SaveOutcome)
      requires Valid()
      modifies `moveJournal
      ensures Valid()
      ensures outcome == Saved <==>
                && HasCandidate(key)
                && JournalMayBecome(if key in old(moveJournal) then Some(old(moveJournal)[key]) else None, state)
      ensures moveJournal == if outcome == Saved then old(moveJournal)[key := state] else old(moveJournal)
    {
      if !HasCandidate(key) { return NoSuchCandidate; }
      if !JournalMayBecome(if key in moveJournal then Some(moveJournal[key]) else None, state) { return Refused; }
      moveJournal := moveJournal[key := state];
      return Saved;
    }

    /** `_save_cloud_move_operation_locked`. */
    method SaveCloudOperation(key: Key, op: CloudMove.Operation) returns (outcome: SaveOutcome)
      requires Valid()
      modifies `cloudOperations
      ensures Valid() && (old(Matched()) ==> Matched())
      ensures outcome == Saved <==>
                && HasCandidate(key)
                && Storable(plans[key.planId].candidates[key.candidateId], key, op, old(cloudOperations))
      ensures cloudOperations == if outcome == Saved then old(cloudOperations)[key := op] else old(cloudOperations)
      ensures outcome == Saved && CloudMove.OneOpenPerSource(old(cloudOperations)) ==>
                CloudMove.OneOpenPerSource(cloudOperations)
    {
      if !HasCandidate(key) { return NoSuchCandidate; }
      if !Storable(plans[key.planId].candidates[key.candidateId], key, op, cloudOperations) { return Refused; }
      cloudOperations := cloudOperations[key := op];
      return Saved;
    }

    /** `finalize_cloud_move`: operation and result are stored together or not at all. */
    method FinalizeCloudMove(key: Key, op: CloudMove.Operation, result: MoveResult, videoId: string)
      returns (outcome: SaveOutcome)
      requires Valid()
      modifies `cloudOperations, `moveResults
      ensures Valid() && (old(Matched()) ==> Matched())
      ensures if outcome == Saved
              then cloudOperations == old(cloudOperations)[key := op] && moveResults == old(moveResults)[key := result]
              else cloudOperations == old(cloudOperations) && moveResults == old(moveResults)
      ensures outcome == Saved <==>
                && op.state.Terminal() && result.candidateId == key.candidateId && HasCandidate(key)
                && plans[key.planId].candidates[key.candidateId].videoId == videoId
                && Storable(plans[key.planId].candidates[key.candidateId], key, op, old(cloudOperations))
    {
      if !op.state.Terminal() || result.candidateId != key.candidateId { return Refused; }
      if !HasCandidate(key) { return NoSuchCandidate; }
      if plans[key.planId].candidates[key.candidateId].videoId != videoId { return Refused; }
      outcome := SaveCloudOperation(key, op);
      if outcome == Saved {
        moveResults := moveResults[key := result];
      }
    }
  }

  /** A plan saved anew under its ID can leave a stored operation without a matching candidate: here the
      candidate comes back with another destination. */
  method SavingAnewCanUnfit() returns (repository: MemoryRepository)
    ensures repository.Valid() && !repository.Matched()
  {
    repository := new MemoryRepository();
    var key := Key("p", "c");
    repository.SavePlan("p", Plan(map["c" := CloudStrm("v", "s", "d")], 0));
    var op := CloudMove.Operation("t", "s", "d", Prepared, 0, None);
    var _ := repository.SaveCloudOperation(key, op);
    assert key in repository.cloudOperations && repository.cloudOperations[key] == op;
    var anew := Plan(map["c" := CloudStrm("v", "s", "elsewhere")], 0);
    repository.SavePlan("p", anew);
    assert key in repository.cloudOperations && !Fits(anew.candidates["c"], repository.cloudOperations[key]);
  }

  /** The head of the sort by creation time and id. */
  method OldestQueued(q: Queue) returns (oldest: Option<string>)
    requires Sound(q)
    ensures oldest == None <==> NoneQueued(q)
    ensures oldest.Some? ==> IsNext(q, oldest.value)
  {
    var queued := set id | id in q.jobs && q.jobs[id].state == QUEUED;
    assert forall id | id in q.jobs && q.jobs[id].state == QUEUED :: id in queued;
    if queued == {} { return None; }
    var first :| first in queued;
    var rest := queued - {first};
    while rest != {}
      invariant rest <= queued && first in queued && first !in rest
      invariant forall id | id in queued && id !in rest && id != first :: Before(q.jobs[first], q.jobs[id])
      decreases rest
    {
      var id :| id in rest;
      rest := rest - {id};
      OrderJobs(q.jobs[id], q.jobs[first]);
      if Before(q.jobs[id], q.jobs[first]) {
        forall x | x in queued && Before(q.jobs[first], q.jobs[x]) ensures Before(q.jobs[id], q.jobs[x]) {
          IdsAreOrdered(q.jobs[id].jobId, q.jobs[first].jobId, q.jobs[x].jobId);
        }
        first := id;
      }
    }
    return Some(first);
  }

  /** The operation is this candidate's. */
  predicate Fits(candidate: Candidate, op: CloudMove.Operation) {
    candidate.CloudStrm? && candidate.source == op.source && candidate.destinationDir == op.destinationDir
  }

  /** The checks of `_save_cloud_move_operation_locked`. */
  predicate Storable(candidate: Candidate, key: Key, op: CloudMove.Operation, operations: map<Key,
                     CloudMove.Operation>)
  {
    && Fits(candidate, op)
    && CloudMayBecome(if key in operations then Some(operations[key].state) else None, op.state)
    && (key in operations ==> operations[key].attemptId == op.attemptId)
    && (!op.state.Terminal() ==>
          !exists k | k in operations ::
             k != key && operations[k].source == op.source && !operations[k].state.Terminal())
  }

  lemma NobodyGone(results: map<Key, MoveResult>, journal: map<Key, JournalState>, operations: map<Key,
                   CloudMove.Operation>, jobs: map<string, Job>)
    ensures OfOthers(results, {}) == results && OfOthers(journal, {}) == journal
    ensures OfOthers(operations, {}) == operations && JobsWithoutPlans(jobs, {}) == jobs
  {
  }

  lemma OneMoreGone(results: map<Key, MoveResult>, journal: map<Key, JournalState>, operations: map<Key,
                    CloudMove.Operation>,
                    jobs: map<string, Job>, gone: set<string>, planId: string)
    ensures OfOthers(OfOthers(results, gone), {planId}) == OfOthers(results, gone + {planId})
    ensures OfOthers(OfOthers(journal, gone), {planId}) == OfOthers(journal, gone + {planId})
    ensures OfOthers(OfOthers(operations, gone), {planId}) == OfOthers(operations, gone + {planId})
    ensures JobsWithoutPlans(JobsWithoutPlans(jobs, gone), {planId}) == JobsWithoutPlans(jobs, gone + {planId})
  {
  }

  lemma OrderJobs(a: Job, b: Job)
    requires a.jobId != b.jobId
    ensures Before(a, b) || Before(b, a)
  {
    IdsAreOrdered(a.jobId, b.jobId, a.jobId);
  }
}
