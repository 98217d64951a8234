/**
 One apply job from its claim to its end: the runner, the apply loop it waits for, the heartbeat
 that may find the lease lost, and the shutdowns and cancels that may arrive at any await.

 Between awaits nothing interleaves, so each method here is the stretch of code from one await of
 one task to its next, and an execution is any sequence of them. A stop request records its reason
 and cancels the runner; a cancelled runner meets the cancellation at its next await and drains the
 apply loop before it decides what to record.
 */
module ApplyRun {
  import opened Options
  import opened Records
  import LocalMove
  import CloudMove

  /** Lowest priority first. */
  datatype Stop = SHUTDOWN | OWNERSHIP_LOST | USER_CANCEL

  function Priority(stop: Stop): nat {
    match stop case SHUTDOWN => 0 case OWNERSHIP_LOST => 1 case USER_CANCEL => 2
  }

  datatype Failure = JobInterrupted | ApplyFailed | NotReady | PayloadMissing | ServiceError(code: nat)

  datatype Verdict = Unset | Completed(results: seq<MoveResult>) | FailedWith(failure: Failure)

  /** The task that moves files: not there, between candidates or inside a move, over, or raising. */
  datatype Work = NotStarted | Looping | Moving | Returned | Crashed

  /** The code a terminal write is made from: the try block, one of its handlers, or the cleanup. */
  datatype Place = InTry | InHandler | InCleanup

  /** Where the runner awaits. */
  datatype Phase = NotBegun | Checking | AwaitingApply | StoppingHeart | HandlerHeart | Finishing | Writing | Written
                 | Draining | CleanupHeart | ReadingStored | Ended

  /** One result for every selected candidate, in selection order. */
  ghost predicate Exact(results: seq<MoveResult>, selection: seq<string>) {
    |results| == |selection| && Ordered(results, selection)
  }

  /** Results for the first of the selected candidates. */
  ghost predicate Ordered(results: seq<MoveResult>, selection: seq<string>) {
    |results| <= |selection| && forall i | 0 <= i < |results| :: results[i].candidateId == selection[i]
  }

  class Execution {
    const selection: seq<string>
    var phase: Phase
    /** Which write is under way, from `Finishing` on. */
    var place: Place
    var verdict: Verdict
    var work: Work
    /** `results` of the apply loop. */
    var results: seq<MoveResult>
    var stop: Option<Stop>
    var delivered: bool
    /** A cancellation was requested, and is still to be met. */
    var cancelled: bool
    var pending: bool
    /** The progress reporter's. */
    var owned: bool
    var closed: bool
    /** The cleanup did not find the job's row. */
    var storedMissing: bool
    var recorded: Verdict

    predicate InsideTry()
      reads this
    {
      || phase.Checking? || phase.AwaitingApply? || phase.StoppingHeart?
      || ((phase.Finishing? || phase.Writing? || phase.Written?) && place.InTry?)
    }

    /** The cleanup runs as a task of its own, behind a wait that swallows cancellations. */
    predicate InsideCleanup()
      reads this
    {
      || phase.Draining? || phase.CleanupHeart? || phase.ReadingStored?
      || ((phase.Finishing? || phase.Writing? || phase.Written?) && place.InCleanup?)
    }

    ghost predicate Valid()
      reads this
    {
      && Ordered(results, selection)
      // The loop stops early only for a stop request ...
      && (work.Returned? && |results| < |selection| ==> stop.Some?)
      && (work.Moving? ==> |results| < |selection|)
      // ... which cancels the runner, and the try block cannot go on past a cancellation.
      && (delivered ==> cancelled)
      && (stop.Some? && !phase.Ended? ==> cancelled)
      && (cancelled && (InsideTry() || phase.NotBegun?) ==> pending)
      && (phase.NotBegun? || phase.Checking? ==> work.NotStarted?)
      && (phase.StoppingHeart? ==> work.Returned? && |results| == |selection|)
      && (phase.CleanupHeart? || phase.ReadingStored? ==> !work.Looping? && !work.Moving?)
      && (phase.Finishing? || phase.Writing? ==> Backed(verdict) && !verdict.Unset?)
      && ((phase.Finishing? || phase.Writing?) && place.InCleanup? ==>
            !work.Looping? && !work.Moving? && (verdict.FailedWith? ==> Interrupted()))
      && (phase.Writing? ==> closed && recorded.Unset?)
      && (!recorded.Unset? ==> closed)
      && Backed(recorded)
    }

    /** A completion carries what the loop returned, and that is one result per candidate. */
    ghost predicate Backed(verdict: Verdict)
      reads this
    {
      verdict.Completed? ==> work.Returned? && |results| == |selection| && verdict.results == results
    }

    /** The cleanup gives the results up only when a candidate has none, or the job's row was gone. */
    predicate Interrupted()
      reads this
    {
      storedMissing || !work.Returned? || |results| != |selection|
    }

    constructor (selection: seq<string>)
      ensures Valid() && this.selection == selection && recorded.Unset? && phase == NotBegun && results == []
      ensures stop == None && !pending && !delivered && !cancelled && owned && !closed
    {
      this.selection := selection;
      phase, place, verdict, work, results := NotBegun, InTry, Unset, NotStarted, [];
      stop, delivered, cancelled, pending := None, false, false, false;
      owned, closed, storedMissing, recorded := true, false, false, Unset;
    }

    // -- what arrives from outside -------------------------------------------

    /** `_JobExecution.request_stop`. */
    method RequestStop(reason: Stop)
      requires Valid()
      modifies `stop, `delivered, `cancelled, `pending
      ensures Valid()
      ensures !old(delivered) && !old(cancelled) && !phase.Ended? ==> pending
      ensures stop ==
                if old(stop).Some? && Priority(old(stop).value) >= Priority(reason) then old(stop) else Some(reason)
    {
      if stop == None || Priority(reason) > Priority(stop.value) {
        stop := Some(reason);
      }
      if !delivered && !phase.Ended? {
        delivered := true;
        if !cancelled {
          cancelled, pending := true, true;
        }
      }
    }

    /** The worker awaiting the runner is cancelled, and the runner with it. */
    method CancelWorker()
      requires Valid()
      modifies `cancelled, `pending
      ensures Valid()
      ensures !phase.Ended? ==> cancelled && pending
    {
      if !phase.Ended? {
        cancelled, pending := true, true;
      }
    }

    /** `mark_unowned`, or a flush the repository refused. */
    method LoseOwnership()
      requires Valid()
      modifies `owned
      ensures Valid() && !owned
    {
      owned := false;
    }

    /** The runner resumes with a cancellation. */
    method MeetCancellation()
      requires Valid()
      modifies `phase, `pending
      ensures Valid()
      ensures old(pending && InsideTry()) ==> phase == Draining
      ensures old(pending && InsideCleanup()) ==> phase == old(phase) && !pending
    {
      if pending && !phase.Ended? {
        if InsideTry() {
          phase := Draining;
        } else if !InsideCleanup() {
          phase := Ended;
        }
        pending := false;
      }
    }

    // -- `FillActorService.apply` --------------------------------------------

    /** The top of the loop: stop, or take the next candidate. */
    method NextCandidate()
      requires Valid()
      modifies `work
      ensures Valid()
      ensures old(work).Looping? ==> work == if stop.Some? || |results| == |selection| then Returned else Moving
    {
      if work.Looping? {
        work := if stop.Some? || |results| == |selection| then Returned else Moving;
      }
    }

    /** The move's result, or the stored one, is appended as it is; that it is the candidate's own is
        for the movers to see to (see `AskMover`). */
    method EndMove(result: MoveResult)
      requires Valid() && work.Moving? && result.candidateId == selection[|results|]
      modifies `results, `work
      ensures Valid() && results == old(results) + [result] && work == Looping
    {
      results := results + [result];
      work := Looping;
    }

    method WorkCrashes()
      requires Valid()
      modifies `work
      ensures Valid()
    {
      if work.Looping? || work.Moving? {
        work := Crashed;
      }
    }

    // -- the runner, where no cancellation is waiting for it -------------------

    predicate Ready()
      reads this
    {
      !pending || InsideCleanup()
    }

    method Begin()
      requires Valid() && Ready() && phase.NotBegun?
      modifies `phase
      ensures Valid() && phase == Checking
    {
      phase := Checking;
    }

    method Conclude(place: Place, verdict: Verdict)
      requires Valid() && !phase.Ended? && !verdict.Unset? && Backed(verdict) && !work.Looping? && !work.Moving?
      requires place.InTry? ==> InsideTry()
      requires place.InCleanup? ==> verdict.FailedWith? ==> Interrupted()
      modifies `phase, `place, `verdict
      ensures Valid() && phase == Finishing && this.place == place && this.verdict == verdict
    {
      phase, this.place, this.verdict := Finishing, place, verdict;
    }

    /** The checks before the loop: the claim turned out stale, or the job is refused, or a check
        raises, or the loop starts. */
    method Check(stale: bool, refusal: Option<Failure>, raises: bool)
      requires Valid() && Ready() && phase.Checking?
      modifies `phase, `owned, `work, `place, `verdict
      ensures Valid()
      ensures stale ==> phase == Ended && !owned
      ensures !stale ==> owned == old(owned)
      ensures !stale && refusal.Some? ==>
                phase == Finishing && verdict == FailedWith(refusal.value) && work == old(work)
      ensures !stale && refusal == None && raises ==>
                phase == Finishing && verdict == FailedWith(ApplyFailed) && work == old(work)
      ensures !stale && refusal == None && !raises ==> phase == AwaitingApply && work == Looping
    {
      if stale {
        owned, phase := false, Ended;
      } else if refusal.Some? {
        Conclude(InTry, FailedWith(refusal.value));
      } else if raises {
        Conclude(InHandler, FailedWith(ApplyFailed));
      } else {
        phase, work := AwaitingApply, Looping;
      }
    }

    /** The awaited loop is over. */
    method ApplyEnds()
      requires Valid() && Ready() && phase.AwaitingApply?
      modifies `phase
      ensures Valid()
      ensures phase == if work.Returned? then StoppingHeart else if work.Crashed? then HandlerHeart else AwaitingApply
    {
      if work.Returned? {
        phase := StoppingHeart;
      } else if work.Crashed? {
        phase := HandlerHeart;
      }
    }

    /** The heartbeat has stopped; what follows depends on where it was stopped from. */
    method HeartStopped()
      requires Valid() && Ready()
      requires phase.StoppingHeart? || (phase.HandlerHeart? && work.Crashed?) || phase.CleanupHeart?
      modifies `phase, `owned, `place, `verdict
      ensures Valid()
      ensures old(phase).StoppingHeart? ==> phase == Finishing && place == InTry && verdict == Completed(results)
      ensures old(phase).HandlerHeart? ==>
                phase == Finishing && place == InHandler && verdict == FailedWith(ApplyFailed)
      ensures phase.Ended? || owned == old(owned)
      ensures old(phase).CleanupHeart? ==> phase == if stop.Some? && !stop.value.SHUTDOWN? then Ended else ReadingStored
    {
      if phase.StoppingHeart? {
        Conclude(InTry, Completed(results));
      } else if phase.HandlerHeart? {
        Conclude(InHandler, FailedWith(ApplyFailed));
      } else if stop.Some? && !stop.value.SHUTDOWN? {
        owned, phase := false, Ended;
      } else {
        phase := ReadingStored;
      }
    }

    /** `_OwnedProgressReporter.finish`, up to the write. */
    method Close()
      requires Valid() && Ready() && phase.Finishing?
      modifies `phase, `closed
      ensures Valid()
      ensures closed && phase == if old(closed) then Ended else Writing
    {
      phase := if closed then Ended else Writing;
      closed := true;
    }

    /** The repository takes the write only from the owner with a live lease, and it can fail. */
    method Write(lands: bool)
      requires Valid() && Ready() && phase.Writing?
      modifies `phase, `recorded
      ensures Valid() && old(recorded).Unset? && phase == Written
      ensures recorded == if old(owned) && lands then old(verdict) else Unset
    {
      if owned && lands {
        recorded := verdict;
      }
      phase := Written;
    }

    method Resume()
      requires Valid() && Ready() && phase.Written?
      modifies `phase
      ensures Valid() && phase == Ended
    {
      phase := Ended;
    }

    // -- `_cleanup_stopped_apply` --------------------------------------------

    /** The loop is waited for, however long its move takes. What it ends with stays as it is. */
    method Drain()
      requires Valid() && phase.Draining?
      modifies `phase
      ensures Valid()
      ensures phase == if work.Looping? || work.Moving? then Draining else CleanupHeart
    {
      if !work.Looping? && !work.Moving? {
        phase := CleanupHeart;
      }
    }

    method ReadStored(found: bool)
      requires Valid() && phase.ReadingStored?
      modifies `phase, `place, `verdict, `storedMissing
      ensures Valid() && phase == Finishing && place == InCleanup
      ensures verdict == if found && work.Returned? && |results| == |selection| then Completed(results)
                         else FailedWith(JobInterrupted)
    {
      if found && work.Returned? && |results| == |selection| {
        Conclude(InCleanup, Completed(results));
      } else {
        storedMissing := !found;
        Conclude(InCleanup, FailedWith(JobInterrupted));
      }
    }

    /** The first `n` moves, one after another. */
    method MoveSome(moves: seq<MoveResult>, n: nat)
      requires Valid() && work.Looping? && results == [] && stop == None && Exact(moves, selection) && n <= |moves|
      modifies `work, `results
      ensures Valid() && work.Looping? && results == moves[..n]
    {
      for i := 0 to n
        invariant Valid() && work.Looping? && results == moves[..i]
      {
        NextCandidate();
        EndMove(moves[i]);
      }
    }

    method MoveAll(moves: seq<MoveResult>)
      requires Valid() && work.Looping? && results == [] && stop == None && Exact(moves, selection)
      modifies `work, `results
      ensures Valid() && work.Returned? && results == moves
    {
      MoveSome(moves, |moves|);
      NextCandidate();
    }

    /** The cleanup waits while the last move is under way. */
    method DrainLast(last: MoveResult)
      requires Valid() && phase.Draining? && work.Moving? && |results| + 1 == |selection|
      requires last.candidateId == selection[|results|]
      modifies `phase, `work, `results
      ensures Valid() && phase.CleanupHeart? && work.Returned? && results == old(results) + [last]
    {
      Drain();
      EndMove(last);
      NextCandidate();
      Drain();
    }

    /** The rest of the cleanup after a shutdown that cut nothing short. */
    method CleanUpWhole()
      requires Valid() && phase.CleanupHeart? && work.Returned? && |results| == |selection| && stop == Some(SHUTDOWN)
      requires owned && !closed
      modifies this
      ensures Valid() && recorded == Completed(old(results))
    {
      HeartStopped();
      ReadStored(true);
      Close();
      Write(true);
    }

    /** The next stretch of the runner, if it is not waiting for something else. */
    method Run(step: RunnerStep)
      requires Valid()
      modifies this
      ensures Valid() && (!old(recorded).Unset? ==> recorded == old(recorded))
    {
      if !Ready() {
        return;
      }
      match phase {
        case NotBegun => Begin();
        case Checking => Check(step.stale, step.refusal, step.raises);
        case AwaitingApply => ApplyEnds();
        case StoppingHeart => HeartStopped();
        case HandlerHeart => if work.Crashed? { HeartStopped(); }
        case Finishing => Close();
        case Writing => Write(step.lands);
        case Written => Resume();
        case Draining => Drain();
        case CleanupHeart => HeartStopped();
        case ReadingStored => ReadStored(step.found);
        case Ended =>
      }
    }
  }

  /** What the outside answers to the runner's next call. */
  datatype RunnerStep = RunnerStep(stale: bool, refusal: Option<Failure>, raises: bool, lands: bool, found: bool)

  /** What a move finds and meets: the stored results, the disk and its mount, the remote. Each move of
      a run has its own, since anything may have happened in between. */
  datatype Outside = Outside(stored: map<Key, MoveResult>, env: LocalMove.Environment, disk: LocalMove.Durable,
                             remote: CloudMove.Remote, cloud: CloudMove.Instant)

  /** The candidates of the plan, local files and CloudDrive files. */
  datatype Catalog = Catalog(files: map<Key, LocalMove.Record>, cloud: map<Key, CloudMove.Candidate>) {
    ghost predicate Admits(outside: Outside) {
      && Named(outside.stored) && outside.env.Sound() && LocalMove.InOrder(outside.disk)
      && CloudMove.Sane(outside.cloud, cloud)
    }

    predicate Knows(key: Key) { key in files || key in cloud }
  }

  /** One turn of the loop: the stored result if there is one, and otherwise `_run_move`, which is the
      local mover or the CloudDrive one. Whichever answers, the answer is about this candidate. */
  method AskMover(key: Key, catalog: Catalog, outside: Outside) returns (result: MoveResult)
    requires catalog.Admits(outside) && catalog.Knows(key) && LocalMove.Catalogued(catalog.files)
    ensures result.candidateId == key.candidateId
    ensures key in outside.stored ==> result == outside.stored[key]
  {
    if key in outside.stored {
      assert outside.stored[key].candidateId == key.candidateId;
      return outside.stored[key];
    }
    if key in catalog.files {
      var mover := new LocalMove.Mover(outside.env, outside.disk, {catalog.files[key].Paths()});
      result := mover.RunMove(key, catalog.files[key]);
    } else {
      var mover := new CloudMove.CloudMover(outside.remote, catalog.cloud, outside.cloud);
      result := mover.RunCloudMove(key);
    }
  }

  datatype Event =
    | StopRequested(reason: Stop)
    | WorkerCancelled
    | OwnershipLost
    | CancellationMet
    | LoopTurns
    | MoveEnds(outside: Outside)
    | LoopCrashes
    | RunnerSteps(step: RunnerStep)

  /** However stop requests, cancellations, lost leases and failing writes fall between the awaits, and
      whatever each move meets, an apply job is recorded as completed only with exactly one result per
      selected candidate, in selection order, and what was recorded stays. */
  method AnyRun(planId: string, selection: seq<string>, catalog: Catalog, events: seq<Event>)
    returns (recorded: seq<Verdict>)
    requires LocalMove.Catalogued(catalog.files)
    requires forall i | 0 <= i < |selection| :: catalog.Knows(Key(planId, selection[i]))
    requires forall k | 0 <= k < |events| && events[k].MoveEnds? :: catalog.Admits(events[k].outside)
    ensures |recorded| == |events|
    ensures forall i | 0 <= i < |recorded| && recorded[i].Completed? :: Exact(recorded[i].results, selection)
    ensures forall i, j | 0 <= i < j < |recorded| && !recorded[i].Unset? :: recorded[j] == recorded[i]
  {
    var e := new Execution(selection);
    recorded := [];
    for k := 0 to |events|
      invariant e.Valid() && e.selection == selection && fresh(e) && |recorded| == k
      invariant forall i | 0 <= i < k && recorded[i].Completed? :: Exact(recorded[i].results, selection)
      invariant forall i | 0 <= i < k && !recorded[i].Unset? :: e.recorded == recorded[i]
      invariant forall i, j | 0 <= i < j < k && !recorded[i].Unset? :: recorded[j] == recorded[i]
    {
      match events[k] {
        case StopRequested(reason) => e.RequestStop(reason);
        case WorkerCancelled => e.CancelWorker();
        case OwnershipLost => e.LoseOwnership();
        case CancellationMet => e.MeetCancellation();
        case LoopTurns => e.NextCandidate();
        case MoveEnds(outside) =>
          if e.work.Moving? {
            var result := AskMover(Key(planId, selection[|e.results|]), catalog, outside);
            e.EndMove(result);
          }
        case LoopCrashes => e.WorkCrashes();
        case RunnerSteps(step) => e.Run(step);
      }
      recorded := recorded + [e.recorded];
    }
  }

  /** Undisturbed, a job is recorded as completed with the results of all its moves. */
  method Undisturbed(selection: seq<string>, results: seq<MoveResult>) returns (recorded: Verdict)
    requires Exact(results, selection)
    ensures recorded == Completed(results)
  {
    var e := new Execution(selection);
    e.Begin();
    e.Check(false, None, false);
    e.MoveAll(results);
    e.ApplyEnds();
    e.HeartStopped();
    e.Close();
    e.Write(true);
    recorded := e.recorded;
  }

  /** A shutdown that arrives once the last move is under way waits for it and still records the
      results, since every candidate has its own. */
  method ShutdownDuringLastMove(selection: seq<string>, results: seq<MoveResult>) returns (recorded: Verdict)
    requires Exact(results, selection) && |selection| > 0
    ensures recorded == Completed(results)
  {
    var e := new Execution(selection);
    e.Begin();
    e.Check(false, None, false);
    var last := |selection| - 1;
    e.MoveSome(results, last);
    e.NextCandidate();
    e.RequestStop(SHUTDOWN);
    e.MeetCancellation();
    e.DrainLast(results[last]);
    assert results[..last] + [results[last]] == results;
    e.CleanUpWhole();
    recorded := e.recorded;
  }
}
