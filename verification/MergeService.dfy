/**
 `MergeService`: one poll at a time it walks each open merge task through the merge Job, the
 CloudDrive upload, the check, the deletion of the parts and the move into the intake.

 CloudDrive, Kubernetes, the archive and the clock are a `World` of arbitrary answers. Before every
 call to the outside a moment passes (`Look`): others change the files they may change, and the call
 can raise or the process can die. A process keeps nothing in memory that matters, so a run with
 crashes is a sequence of calls on the rows and files the last one left.
 */
module MergeService {
  import opened Options
  import opened MergeTasks

  datatype Answer = Fine | Raised | Stopped

  /** The worker's status file. */
  datatype Report = NoReport | Broken | Reported(blob: Blob)

  datatype JobState = JobMissing | JobFailed | JobSucceeded | JobActive

  datatype Copy = NoCopy | CopyCompleted | CopyFailed(errors: string) | CopyUnderway(paused: bool)

  /** What CloudDrive's upload queue says of an upload it gave up on. */
  datatype Fatal = NotFatal | GaveUp(text: string, permanent: bool)

  /** Ten minutes, half an hour, two minutes, five minutes and two hours, in seconds. */
  const STAGED_FILE_WAIT := 600
  const HASH_WAIT := 1800
  const COPY_LISTING_GRACE := 120
  const ARCHIVE_NUDGE_INTERVAL := 300
  const ARCHIVE_WAIT := 7200

  datatype World = World(
    faithful: Faithful,
    others: (nat, set<nat>, Files) -> Files,
    answer: nat -> Answer,
    /** Whether merging is configured and its Job template mounted. */
    available: nat -> bool,
    clock: nat -> int,
    /** Whether a part lies outside the CloudDrive mount, so that a task's paths cannot be told. */
    pathless: Avid -> bool,
    report: (nat, nat, Avid) -> Report,
    job: nat -> JobState,
    copy: (nat, nat) -> Copy,
    fatal: nat -> Fatal,
    /** Whether CloudDrive took a copy, lists a SHA-1, really deleted a part or a folder, really
        moved a file, and said that it moved it. */
    takes: nat -> bool,
    hashed: nat -> bool,
    deletes: (nat, Part) -> bool,
    clears: nat -> bool,
    moves: nat -> bool,
    claims: nat -> bool)
  {
    /** Others keep to what is theirs, and a merge Job that reports success merged all the parts. */
    ghost predicate Sound() {
      && (forall t, protected, files: Files | files.intake.Keys <= files.folders ::
             OthersMay(protected, files, others(t, protected, files)))
      && (forall t, id, avid :: report(t, id, avid).Reported? ==> faithful(avid, report(t, id, avid).blob))
    }

    /** Nothing goes wrong and nobody else is at work. */
    ghost predicate Smooth() {
      && (forall t, protected, files :: others(t, protected, files) == files)
      && (forall t :: answer(t) == Fine && available(t) && takes(t) && hashed(t) && clears(t) && moves(t) && claims(t))
      && (forall t, part :: deletes(t, part))
      && (forall avid :: !pathless(avid))
    }
  }

  /** How a state handler ended: it is done for this poll, it gave the task up, something else was
      raised, or the process died. */
  datatype Outcome = Finished | GivenUp | Trouble | Died

  function Ended(answer: Answer): Outcome {
    match answer case Fine => Finished case Raised => Trouble case Stopped => Died
  }

  datatype ActionError = TaskNotFound | NotCancellable | DiscardFailed | NotFailed | ActionTrouble | ActionDied

  datatype Action = Acted(task: Task) | Refused(error: ActionError)

  /** The Job always reports one and the same file, and it is on the work volume. */
  ghost predicate ReportsWhole(world: World, files: Files, task: Task) {
    && world.report(0, task.id, task.avid).Reported?
    && (forall t :: world.report(t, task.id, task.avid) == world.report(0, task.id, task.avid))
    && task.avid in files.outputs && files.outputs[task.avid] == world.report(0, task.id, task.avid).blob.size
  }

  /** Where a poll without trouble takes a task, as far as that can be told beforehand. */
  ghost function Due(world: World, files: Files, task: Task): Option<MergeState> {
    match task.state
    case QUEUED => Some(if task.avid in files.library then FAILED else MERGING)
    case MERGING => if ReportsWhole(world, files, task) then Some(UPLOADING) else None
    case UPLOADING => if forall t :: world.copy(t, task.id) == CopyCompleted then Some(VERIFYING) else None
    case VERIFYING =>
      if task.id !in files.staged then None
      else if Some(files.staged[task.id]) == task.merged && task.avid !in files.library then Some(REPLACING)
      else Some(FAILED)
    case REPLACING => Some(if task.id in files.staged || task.avid in files.intake then ARCHIVING else FAILED)
    case ARCHIVING => if task.avid !in files.folders then Some(DONE) else None
    case _ => Some(task.state)
  }

  class Service {
    const world: World
    var tasks: map<nat, Task>
    var files: Files
    var now: nat

    ghost predicate Valid()
      reads this
    {
      Safe(tasks, files, world.faithful) && world.Sound()
    }

    /** A process starts on the rows and files it finds. */
    constructor (world: World, tasks: map<nat, Task>, files: Files)
      requires Safe(tasks, files, world.faithful) && world.Sound()
      ensures Valid() && this.world == world && this.tasks == tasks && this.files == files
    {
      this.world, this.tasks, this.files, now := world, tasks, files, 0;
    }

    /** Only this task's row changed, and only the way one poll may change it. */
    twostate predicate Stepped(task: Task)
      reads this
    {
      && old(now) <= now && task.id in tasks && tasks - {task.id} == old(tasks) - {task.id}
      && (tasks[task.id] == task || StepMay(task, tasks[task.id]))
    }

    predicate Current(task: Task)
      reads this
    {
      task.id in tasks && tasks[task.id] == task
    }

    // -- the outside ---------------------------------------------------------

    /** A moment passes before a call. */
    method Look() returns (answer: Answer)
      requires Valid()
      modifies `files, `now
      ensures Valid() && old(files).library <= files.library && now == old(now) + 1
      ensures forall a :: Landed(old(files), a, world.faithful) ==> Landed(files, a, world.faithful)
      ensures world.Smooth() ==> files == old(files) && answer == Fine
    {
      answer := LookHolding({});
    }

    /** `held` are staging folders nobody touches between a check of theirs and the act it allows. */
    method LookHolding(held: set<nat>) returns (answer: Answer)
      requires Valid()
      modifies `files, `now
      ensures Valid() && old(files).library <= files.library && now == old(now) + 1
      ensures forall id | id in held && id in old(files).staged ::
                id in files.staged && files.staged[id] == old(files).staged[id]
      ensures forall a :: Landed(old(files), a, world.faithful) ==> Landed(files, a, world.faithful)
      ensures world.Smooth() ==> files == old(files) && answer == Fine
    {
      ghost var was := files;
      var protected := (set id | id in tasks && tasks[id].Phase() == REPLACING) + held;
      assert OthersMay(protected, files, world.others(now, protected, files));
      files := world.others(now, protected, files);
      answer := world.answer(now);
      now := now + 1;
      OthersKeepSafe(protected, tasks, was, files, world.faithful);
      OthersKeepLanded(protected, was, files, world.faithful);
    }

    /** `transition`: a compare-and-set on the state column. */
    method Transition(id: nat, expected: MergeState, row: Task) returns (moved: bool)
      requires Valid() && id in tasks && row.avid == tasks[id].avid && TaskSound(id, row, files, world.faithful)
      requires row.Open() ==> tasks[id].Open()
      requires row.state == MERGING ==> NoneMerging(tasks)
      requires MayHaveDeleted(tasks[id], files) ==> MayHaveDeleted(row, files)
      modifies `tasks
      ensures Valid() && moved == (old(tasks)[id].state == expected)
      ensures moved ==> id in tasks && tasks[id] == row.(updatedAt := world.clock(now), changedAt := world.clock(now))
      ensures tasks == if moved then old(tasks)[id := tasks[id]] else old(tasks)
    {
      moved := tasks[id].state == expected;
      if moved {
        var stamped := row.(updatedAt := world.clock(now), changedAt := world.clock(now));
        PutTask(tasks, files, world.faithful, id, stamped);
        tasks := tasks[id := stamped];
      }
    }

    /** `update`: other columns, the state stays. */
    method Update(id: nat, attempts: nat, notice: Option<string>)
      requires Valid() && id in tasks && attempts <= MAX_UPLOAD_ATTEMPTS
      modifies `tasks
      ensures Valid() && id in tasks
      ensures tasks == old(tasks)[id := old(tasks)[id].(uploadAttempts := attempts, notice := notice,
                                                        updatedAt := world.clock(now))]
    {
      var row := tasks[id].(uploadAttempts := attempts, notice := notice, updatedAt := world.clock(now));
      assert TaskSound(id, tasks[id], files, world.faithful);
      PutTask(tasks, files, world.faithful, id, row);
      tasks := tasks[id := row];
    }

    /** Deletes any of a replacing task's parts; only some may really go. */
    method DeleteOriginals(task: Task, parts: set<Part>)
      requires Valid() && Current(task) && task.state == REPLACING && forall p | p in parts :: p.avid == task.avid
      modifies `files
      ensures Valid() && files == old(files).(gone := files.gone)
      ensures forall p | p in files.gone && p !in old(files).gone :: p in parts
      ensures world.Smooth() ==> files.gone == old(files).gone + parts
    {
      var more := set p | p in parts && world.deletes(now, p);
      DeleteParts(tasks, files, world.faithful, task.id, more);
      files := files.(gone := files.gone + more);
    }

    method ChangeWorkFiles(after: Files)
      requires Valid() && after == files.(folders := after.folders, outputs := after.outputs)
      requires files.folders <= after.folders
      modifies `files
      ensures Valid() && files == after
    {
      forall id | id in tasks ensures TaskSound(id, tasks[id], after, world.faithful) {
        assert TaskSound(id, tasks[id], files, world.faithful);
      }
      ChangeFiles(tasks, files, after, world.faithful);
      files := after;
    }

    /** Empties a staging folder, where its task does not need the file any more. */
    method ClearStaging(id: nat)
      requires Valid()
      requires id in tasks && tasks[id].Phase() == REPLACING ==> Landed(files, tasks[id].avid, world.faithful)
      modifies `files
      ensures Valid() && files == old(files).(staged := files.staged)
      ensures forall x | x in files.staged :: x in old(files).staged && files.staged[x] == old(files).staged[x]
    {
      if world.clears(now) {
        var after := files.(staged := files.staged - {id});
        forall x | x in tasks ensures TaskSound(x, tasks[x], after, world.faithful) {
          assert TaskSound(x, tasks[x], files, world.faithful);
        }
        ChangeFiles(tasks, files, after, world.faithful);
        files := after;
      }
    }

    /** `move_file` into the title's folder, which skips a name that is taken. */
    method MoveIntoIntake(task: Task) returns (claimed: bool)
      requires Valid() && Current(task) && task.state == REPLACING
      modifies `files
      ensures Valid() && (files == old(files) || files == Moved(old(files), task.id, task.avid))
      ensures world.Smooth() ==> claimed && files == Moved(old(files), task.id, task.avid)
    {
      if world.moves(now) {
        var after := Moved(files, task.id, task.avid);
        assert TaskSound(task.id, task, files, world.faithful);
        if after != files {
          assert after.intake[task.avid] == files.staged[task.id];
          assert Landed(after, task.avid, world.faithful);
          forall a | a in after.intake ensures Landed(after, a, world.faithful) {
            assert a != task.avid ==> a in files.intake && Landed(files, a, world.faithful);
          }
          forall x | x in tasks ensures TaskSound(x, tasks[x], after, world.faithful) {
            assert TaskSound(x, tasks[x], files, world.faithful);
            assert x == task.id || (x in files.staged ==> x in after.staged && after.staged[x] == files.staged[x]);
          }
          ChangeFiles(tasks, files, after, world.faithful);
        }
        files := after;
      }
      claimed := world.claims(now);
    }

    /** Others act between two polls. */
    method Outside(after: Files)
      requires Valid() && OthersMay(Protected(tasks), files, after)
      modifies `files
      ensures Valid() && files == after
    {
      OthersKeepSafe(Protected(tasks), tasks, files, after, world.faithful);
      files := after;
    }

    // -- queued and merging --------------------------------------------------

    /** `_refuse_whole_copy`: GivenUp when the library holds the title whole. */
    method RefuseWholeCopy(task: Task, held: set<nat>) returns (outcome: Outcome)
      requires Valid()
      modifies `files, `now
      ensures Valid() && old(now) <= now
      ensures forall id | id in held && id in old(files).staged ::
                id in files.staged && files.staged[id] == old(files).staged[id]
      ensures outcome == GivenUp ==> task.avid in files.library
      ensures outcome == Finished ==> task.avid !in files.library
      ensures world.Smooth() ==>
                files == old(files) && outcome == if task.avid in files.library then GivenUp else Finished
    {
      var answer := LookHolding(held);
      if answer != Fine {
        return Ended(answer);
      }
      return if task.avid in files.library then GivenUp else Finished;
    }

    /** `_start_merge`. */
    method StartMerge(task: Task) returns (outcome: Outcome)
      requires Valid() && Current(task) && task.state == QUEUED && NoneMerging(tasks)
      modifies `tasks, `files, `now
      ensures Valid() && Stepped(task) && (outcome == GivenUp ==> tasks == old(tasks))
      ensures tasks[task.id].state in {QUEUED, MERGING}
      ensures outcome == GivenUp ==> task.avid in files.library
      ensures outcome == Finished ==> tasks[task.id].state == MERGING && tasks[task.id].jobStarted
      ensures world.Smooth() ==>
                files == old(files) && outcome == if task.avid in files.library then GivenUp else Finished
    {
      outcome := RefuseWholeCopy(task, {});
      if outcome != Finished {
        return;
      }
      var answer := Look();
      if answer != Fine {
        return Ended(answer);
      }
      assert TaskSound(task.id, task, files, world.faithful);
      var _ := Transition(task.id, QUEUED, task.(state := MERGING, jobStarted := true, notice := None));
    }

    /** `_watch_merge`. */
    method WatchMerge(task: Task) returns (outcome: Outcome)
      requires Valid() && Current(task) && task.state == MERGING
      modifies `tasks, `files, `now
      ensures Valid() && Stepped(task) && (outcome == GivenUp ==> tasks == old(tasks))
      ensures tasks[task.id].state in {MERGING, UPLOADING}
      ensures tasks[task.id].state == UPLOADING ==> tasks[task.id].uploadAttempts == 0 && tasks[task.id].merged.Some?
      ensures tasks[task.id].state == UPLOADING ==> exists t | old(now) <= t <= now ::
        world.report(t, task.id, task.avid) == Reported(tasks[task.id].merged.value)
      ensures world.Smooth() ==> files == old(files)
      ensures world.Smooth() && ReportsWhole(world, files, task) ==>
                outcome == Finished && tasks[task.id].state == UPLOADING
      ensures world.Smooth() && ReportsWhole(world, files, task) ==>
                tasks[task.id].merged == Some(world.report(0, task.id, task.avid).blob)
    {
      assert TaskSound(task.id, task, files, world.faithful);
      var answer := Look();
      if answer != Fine {
        return Ended(answer);
      }
      var report := world.report(now, task.id, task.avid);
      if report.Reported? {
        if task.avid !in files.outputs || files.outputs[task.avid] != report.blob.size {
          return GivenUp;
        }
        outcome := Upload(task, report.blob);
        return;
      }
      if report == Broken {
        return GivenUp;
      }
      outcome := WatchJob(task);
    }

    /** The Job's file is there: its Job and report are dropped once the row says so. */
    method Upload(task: Task, blob: Blob) returns (outcome: Outcome)
      requires Valid() && Current(task) && task.state == MERGING && world.faithful(task.avid, blob)
      modifies `tasks, `files, `now
      ensures Valid() && Stepped(task) && outcome != GivenUp && tasks[task.id].state in {MERGING, UPLOADING}
      ensures tasks[task.id].state == UPLOADING ==>
                tasks[task.id].uploadAttempts == 0 && tasks[task.id].merged == Some(blob)
      ensures world.Smooth() ==> files == old(files) && outcome == Finished && tasks[task.id].state == UPLOADING
    {
      assert TaskSound(task.id, task, files, world.faithful);
      var answer := Look();
      if answer != Fine {
        return Ended(answer);
      }
      var _ := Transition(task.id, MERGING,
          task.(state := UPLOADING, merged := Some(blob), uploadAttempts := 0, notice := None));
      answer := Look();
      return Ended(answer);
    }

    /** The rest of `_watch_merge`, while the Job has not reported. */
    method WatchJob(task: Task) returns (outcome: Outcome)
      requires Valid() && Current(task) && task.state == MERGING
      modifies `tasks, `files, `now
      ensures Valid() && Stepped(task) && (outcome == GivenUp ==> tasks == old(tasks))
      ensures tasks[task.id].state == MERGING
      ensures world.Smooth() ==> files == old(files)
    {
      assert TaskSound(task.id, task, files, world.faithful);
      var answer := Look();
      if answer != Fine {
        return Ended(answer);
      }
      var job := if task.jobStarted then world.job(now) else JobMissing;
      if job in {JobMissing, JobFailed} {
        return GivenUp;
      }
      if job == JobSucceeded {
        answer := Look();
        if answer != Fine {
          return Ended(answer);
        }
        // A report written since the first look waits for the next poll.
        return if world.report(now, task.id, task.avid) == NoReport then GivenUp else Finished;
      }
      Update(task.id, task.uploadAttempts, None);
      return Finished;
    }

    // -- uploading and verifying ---------------------------------------------

    method MoveOn(task: Task, state: MergeState)
      requires Valid() && Current(task) && task.state == UPLOADING && state in {VERIFYING, QUEUED}
      modifies `tasks
      ensures Valid() && Stepped(task) && tasks[task.id].state == state
      ensures state == QUEUED ==> tasks[task.id].merged == None
    {
      assert TaskSound(task.id, task, files, world.faithful);
      if state == VERIFYING {
        var _ := Transition(task.id, UPLOADING, task.(state := VERIFYING, notice := None));
      } else {
        var _ := Transition(task.id, UPLOADING, task.(state := QUEUED, jobStarted := false, merged := None,
                                                      notice := Some("the merged file was lost; merging again")));
      }
    }

    ghost predicate StagedInFull(task: Task)
      reads this
    {
      task.merged.Some? && task.id in files.staged && files.staged[task.id].size == task.merged.value.size
    }

    /** `_watch_upload`. */
    method WatchUpload(task: Task) returns (outcome: Outcome)
      requires Valid() && Current(task) && task.state == UPLOADING
      modifies `tasks, `files, `now
      ensures Valid() && Stepped(task) && (outcome == GivenUp ==> tasks == old(tasks))
      ensures tasks[task.id].state in {UPLOADING, VERIFYING, QUEUED}
      ensures tasks[task.id].state == VERIFYING ==>
        || (exists t | old(now) <= t <= now :: world.copy(t, task.id) == CopyCompleted)
        || (task.uploadAttempts > 0 && StagedInFull(task))
      ensures tasks[task.id].state == QUEUED ==> task.avid !in files.outputs
      ensures outcome == GivenUp && task.uploadAttempts < MAX_UPLOAD_ATTEMPTS ==>
        exists t | old(now) <= t <= now :: world.fatal(t).GaveUp? && world.fatal(t).permanent
      ensures world.Smooth() ==> files == old(files)
      ensures world.Smooth() && (forall t :: world.copy(t, task.id) == CopyCompleted) ==>
                outcome == Finished && tasks[task.id].state == VERIFYING
      ensures world.Smooth() && (forall t :: world.copy(t, task.id) == NoCopy) && task.avid !in files.outputs ==>
        outcome == Finished && tasks[task.id].state == QUEUED && tasks[task.id].merged == None
      ensures world.Smooth() && (forall t :: world.copy(t, task.id) == NoCopy) && task.avid in files.outputs
              && task.uploadAttempts == 0 ==>
        tasks[task.id].state == UPLOADING
    {
      assert TaskSound(task.id, task, files, world.faithful);
      var answer := Look();
      if answer != Fine {
        return Ended(answer);
      }
      var copy := world.copy(now, task.id);
      if copy == CopyCompleted {
        MoveOn(task, VERIFYING);
        return Finished;
      }
      if task.avid !in files.outputs {
        MoveOn(task, QUEUED);
        return Finished;
      }
      match copy {
        case NoCopy => outcome := WatchUnlisted(task);
        case CopyFailed(errors) =>
          if task.uploadAttempts >= MAX_UPLOAD_ATTEMPTS {
            return GivenUp;
          }
          outcome := Restart(task, errors);
        case CopyUnderway(paused) => outcome := WatchUnderway(task, paused);
      }
    }

    /** CloudDrive lists no copy: it may have dropped a finished one, or not listed a fresh one yet. */
    method WatchUnlisted(task: Task) returns (outcome: Outcome)
      requires Valid() && Current(task) && task.state == UPLOADING
      modifies `tasks, `files, `now
      ensures Valid() && Stepped(task) && (outcome == GivenUp ==> tasks == old(tasks))
      ensures tasks[task.id].state in {UPLOADING, VERIFYING}
      ensures outcome == GivenUp ==> task.uploadAttempts >= MAX_UPLOAD_ATTEMPTS
      ensures tasks[task.id].state == VERIFYING ==> task.uploadAttempts > 0 && StagedInFull(task)
      ensures world.Smooth() ==> files == old(files)
    {
      assert TaskSound(task.id, task, files, world.faithful);
      if task.uploadAttempts > 0 {
        var answer := Look();
        if answer != Fine {
          return Ended(answer);
        }
        if task.id in files.staged && files.staged[task.id].size == task.merged.value.size {
          MoveOn(task, VERIFYING);
          return Finished;
        }
        if world.clock(now) - task.updatedAt < COPY_LISTING_GRACE {
          return Finished;
        }
      }
      outcome := IssueCopy(task);
    }

    /** `_issue_copy`. */
    method IssueCopy(task: Task) returns (outcome: Outcome)
      requires Valid() && Current(task) && task.state == UPLOADING
      modifies `tasks, `files, `now
      ensures Valid() && Stepped(task)
      ensures outcome == GivenUp ==> tasks == old(tasks) && task.uploadAttempts >= MAX_UPLOAD_ATTEMPTS
      ensures tasks[task.id].state == UPLOADING
      ensures outcome == Finished ==> tasks[task.id].uploadAttempts == task.uploadAttempts + 1
      ensures world.Smooth() ==> files == old(files)
    {
      if task.uploadAttempts >= MAX_UPLOAD_ATTEMPTS {
        return GivenUp;
      }
      var answer := Look();
      if answer != Fine {
        return Ended(answer);
      }
      Update(task.id, task.uploadAttempts + 1, if world.takes(now) then None else Some("CloudDrive refused the copy"));
      return Finished;
    }

    /** CloudDrive is told to copy again. */
    method Restart(task: Task, notice: string) returns (outcome: Outcome)
      requires Valid() && Current(task) && task.state == UPLOADING && task.uploadAttempts < MAX_UPLOAD_ATTEMPTS
      modifies `tasks, `files, `now
      ensures Valid() && Stepped(task) && outcome != GivenUp && tasks[task.id].state == UPLOADING
      ensures outcome == Finished ==> tasks[task.id].uploadAttempts == task.uploadAttempts + 1
      ensures world.Smooth() ==> files == old(files)
    {
      var answer := Look();
      if answer != Fine {
        return Ended(answer);
      }
      Update(task.id, task.uploadAttempts + 1, Some(notice));
      return Finished;
    }

    /** `_handled_fatal_upload`, and the progress written when there was nothing to handle. */
    method WatchUnderway(task: Task, paused: bool) returns (outcome: Outcome)
      requires Valid() && Current(task) && task.state == UPLOADING
      modifies `tasks, `files, `now
      ensures Valid() && Stepped(task) && (outcome == GivenUp ==> tasks == old(tasks))
      ensures tasks[task.id].state == UPLOADING
      ensures outcome == GivenUp && task.uploadAttempts < MAX_UPLOAD_ATTEMPTS ==>
        exists t | old(now) <= t <= now :: world.fatal(t).GaveUp? && world.fatal(t).permanent
      ensures tasks[task.id].uploadAttempts > task.uploadAttempts ==> exists t | old(now) <= t <= now ::
        && world.fatal(t).GaveUp?
        && (task.notice != Some(world.fatal(t).text) || world.clock(t) - task.updatedAt >= COPY_LISTING_GRACE)
      ensures world.Smooth() ==> files == old(files)
    {
      assert task.uploadAttempts <= MAX_UPLOAD_ATTEMPTS by {
        assert TaskSound(task.id, task, files, world.faithful);
      }
      var answer := Look();
      if answer != Fine {
        return Ended(answer);
      }
      var fatal := world.fatal(now);
      if fatal.GaveUp? {
        if fatal.permanent || task.uploadAttempts >= MAX_UPLOAD_ATTEMPTS {
          return GivenUp;
        }
        if task.notice != Some(fatal.text) || world.clock(now) - task.updatedAt >= COPY_LISTING_GRACE {
          outcome := Restart(task, fatal.text);
          return;
        }
        return Finished;
      }
      Update(task.id, task.uploadAttempts, if paused then Some("CloudDrive has paused the upload") else None);
      return Finished;
    }

    /** The staged file, or only its SHA-1, may still turn up in time. */
    ghost predicate Awaited(task: Task)
      reads this
    {
      var waited := world.clock(now) - task.changedAt;
      if task.id !in files.staged then waited < STAGED_FILE_WAIT
      else
        && task.merged.Some? && files.staged[task.id].size == task.merged.value.size
        && !world.hashed(now) && waited < HASH_WAIT
    }

    method Wait(task: Task, notice: string)
      requires Valid() && Current(task) && task.state in {VERIFYING, REPLACING, ARCHIVING}
      modifies `tasks
      ensures Valid() && Stepped(task) && tasks[task.id].state == task.state
    {
      assert TaskSound(task.id, task, files, world.faithful);
      Update(task.id, task.uploadAttempts, Some(notice));
    }

    /** The comparison in `_verify`: the staged file has the merged file's size and SHA-1. */
    method Compare(task: Task) returns (outcome: Outcome, same: bool)
      requires Valid() && Current(task) && task.state == VERIFYING
      modifies `tasks, `files, `now
      ensures Valid() && Stepped(task) && (outcome == GivenUp ==> tasks == old(tasks))
      ensures tasks[task.id].state == VERIFYING
      ensures same ==>
                && outcome == Finished && tasks == old(tasks) && task.id in files.staged
                && Some(files.staged[task.id]) == task.merged
      ensures outcome == GivenUp ==> !Awaited(task)
      ensures outcome == Finished && !same ==> Awaited(task)
      ensures world.Smooth() ==> files == old(files) && outcome in {Finished, GivenUp}
      ensures world.Smooth() && task.id in files.staged ==> (same <==> Some(files.staged[task.id]) == task.merged)
      ensures world.Smooth() && task.id in files.staged ==> (same <==> outcome != GivenUp)
    {
      assert task.merged.Some? by {
        assert TaskSound(task.id, task, files, world.faithful);
      }
      same := false;
      var answer := Look();
      if answer != Fine {
        return Ended(answer), false;
      }
      var waited := world.clock(now) - task.changedAt;
      if task.id !in files.staged {
        if waited >= STAGED_FILE_WAIT {
          return GivenUp, false;
        }
        Wait(task, "waiting for CloudDrive to list the uploaded file");
        return Finished, false;
      }
      var staged := files.staged[task.id];
      if staged.size != task.merged.value.size {
        return GivenUp, false;
      }
      if !world.hashed(now) {
        if waited >= HASH_WAIT {
          return GivenUp, false;
        }
        Wait(task, "waiting for 115 to report the SHA-1");
        return Finished, false;
      }
      same := staged.sha1 == task.merged.value.sha1;
      outcome := if same then Finished else GivenUp;
    }

    /** `_verify`: the parts are given up only for a staged file of the merged file's size and SHA-1,
        and only while the library has no whole copy. */
    method Verify(task: Task) returns (outcome: Outcome)
      requires Valid() && Current(task) && task.state == VERIFYING
      modifies `tasks, `files, `now
      ensures Valid() && Stepped(task) && (outcome == GivenUp ==> tasks == old(tasks))
      ensures tasks[task.id].state in {VERIFYING, REPLACING}
      ensures tasks[task.id].state == REPLACING ==>
        task.id in files.staged && Some(files.staged[task.id]) == task.merged && task.avid !in files.library
      ensures world.Smooth() ==> files == old(files)
      ensures world.Smooth() && task.id in files.staged ==>
        if Some(files.staged[task.id]) == task.merged && task.avid !in files.library
        then outcome == Finished && tasks[task.id].state == REPLACING
        else outcome == GivenUp
    {
      var same;
      outcome, same := Compare(task);
      if !same {
        return;
      }
      // The last look before the parts are deleted.
      outcome := RefuseWholeCopy(task, {task.id});
      if outcome == Finished {
        BeginSwap(task);
      }
    }

    method BeginSwap(task: Task)
      requires Valid() && Current(task) && task.state == VERIFYING && task.id in files.staged
      requires Some(files.staged[task.id]) == task.merged
      modifies `tasks
      ensures Valid() && Stepped(task) && tasks[task.id].state == REPLACING
    {
      assert TaskSound(task.id, task, files, world.faithful);
      assert StagedWhole(files, task.id, task.avid, world.faithful);
      var _ := Transition(task.id, VERIFYING, task.(state := REPLACING, notice := None));
    }

    // -- replacing and archiving ---------------------------------------------

    function Remaining(task: Task): set<Part>
      reads this
    {
      set index | index in task.parts && Part(task.avid, index) !in files.gone :: Part(task.avid, index)
    }

    /** The first half of `_replace`: true once no part is listed any more. */
    method ClearOriginals(task: Task) returns (outcome: Outcome, cleared: bool)
      requires Valid() && Current(task) && task.state == REPLACING
      modifies `tasks, `files, `now
      ensures Valid() && Stepped(task) && outcome != GivenUp && tasks[task.id].state == REPLACING
      ensures cleared ==> outcome == Finished && tasks == old(tasks) && Remaining(task) == {}
      ensures world.Smooth() ==>
                cleared && files == old(files).(gone := old(files).gone + set i | i in task.parts :: Part(task.avid, i))
    {
      cleared := false;
      var answer := Look();
      if answer != Fine {
        return Ended(answer), false;
      }
      var remaining := Remaining(task);
      if remaining == {} {
        assert forall i | i in task.parts :: Part(task.avid, i) in files.gone || Part(task.avid, i) in remaining;
        return Finished, true;
      }
      outcome, cleared := DeleteListed(task, remaining);
    }

    /** What is listed is deleted, and looked at again. */
    method DeleteListed(task: Task, remaining: set<Part>) returns (outcome: Outcome, cleared: bool)
      requires Valid() && Current(task) && task.state == REPLACING && remaining == Remaining(task)
      modifies `tasks, `files, `now
      ensures Valid() && Stepped(task) && outcome != GivenUp && tasks[task.id].state == REPLACING
      ensures cleared ==> outcome == Finished && tasks == old(tasks) && Remaining(task) == {}
      ensures world.Smooth() ==> cleared && files == old(files).(gone := old(files).gone + remaining)
    {
      DeleteOriginals(task, remaining);
      var answer := Look();
      if answer != Fine {
        return Ended(answer), false;
      }
      cleared := Remaining(task) == {};
      if !cleared {
        Wait(task, "original parts are still listed");
      }
      outcome := Finished;
    }

    /** `_replace`. Without a merged file in staging or intake it gives up, wherever the file went. */
    method Replace(task: Task) returns (outcome: Outcome)
      requires Valid() && Current(task) && task.state == REPLACING
      modifies `tasks, `files, `now
      ensures Valid() && Stepped(task) && (outcome == GivenUp ==> tasks == old(tasks))
      ensures tasks[task.id].state in {REPLACING, ARCHIVING}
      ensures tasks[task.id].state == ARCHIVING ==> Landed(files, task.avid, world.faithful)
      ensures world.Smooth() ==> if task.id in old(files).staged || task.avid in old(files).intake
        then outcome == Finished && tasks[task.id].state == ARCHIVING && task.avid in files.intake &&
          files.gone == old(files).gone + (set i | i in task.parts :: Part(task.avid, i)) &&
          files.library == old(files).library
        else outcome == GivenUp && task.id !in files.staged && task.avid !in files.intake
      ensures world.Smooth() && outcome == Finished && task.avid !in old(files).intake ==>
                files.intake[task.avid] == old(files).staged[task.id]
    {
      var cleared;
      outcome, cleared := ClearOriginals(task);
      if !cleared {
        return;
      }
      var landed;
      outcome, landed := Land(task);
      if !landed {
        return;
      }
      outcome := CleanUp(task);
    }

    /** The move into the intake, once the parts have left: the archive refuses a title it holds. */
    method Land(task: Task) returns (outcome: Outcome, landed: bool)
      requires Valid() && Current(task) && task.state == REPLACING && Remaining(task) == {}
      modifies `tasks, `files, `now
      ensures Valid() && Stepped(task) && (outcome == GivenUp ==> tasks == old(tasks))
      ensures tasks[task.id].state == REPLACING
      ensures landed ==> tasks == old(tasks) && Landed(files, task.avid, world.faithful)
      ensures world.Smooth() ==> files.gone == old(files).gone && files.library == old(files).library
      ensures world.Smooth() ==> if task.id in old(files).staged || task.avid in old(files).intake
        then landed && task.avid in files.intake
        else !landed && outcome == GivenUp && task.id !in files.staged && task.avid !in files.intake
      ensures world.Smooth() && landed && task.avid !in old(files).intake ==>
        files.intake[task.avid] == old(files).staged[task.id] && task.id !in files.staged
    {
      var answer := Look();
      if answer != Fine {
        return Ended(answer), false;
      }
      ChangeWorkFiles(files.(folders := files.folders + {task.avid}));
      answer := Look();
      if answer != Fine {
        return Ended(answer), false;
      }
      if task.id in files.staged {
        var claimed := MoveIntoIntake(task);
        if !claimed {
          Wait(task, "the move was refused");
          return Finished, false;
        }
      }
      answer := Look();
      if answer != Fine {
        return Ended(answer), false;
      }
      if task.avid !in files.intake {
        return GivenUp, false;
      }
      assert Landed(files, task.avid, world.faithful);
      return Finished, true;
    }

    /** Clears staging and work files, and hands the title to the archive. */
    method CleanUp(task: Task) returns (outcome: Outcome)
      requires Valid() && Current(task) && task.state == REPLACING && Landed(files, task.avid, world.faithful)
      modifies `tasks, `files, `now
      ensures Valid() && Stepped(task) && outcome != GivenUp
      ensures tasks[task.id].state in {REPLACING, ARCHIVING}
      ensures Landed(files, task.avid, world.faithful)
      ensures world.Smooth() ==> outcome == Finished && tasks[task.id].state == ARCHIVING
      ensures world.Smooth() ==> files == old(files).(staged := files.staged, outputs := files.outputs)
    {
      ClearStaging(task.id);
      var answer := Look();
      if answer == Stopped {
        return Died;
      }
      ChangeWorkFiles(files.(outputs := files.outputs - {task.avid}));
      outcome := HandOver(task);
    }

    /** The archive is told. */
    method HandOver(task: Task) returns (outcome: Outcome)
      requires Valid() && Current(task) && task.state == REPLACING && Landed(files, task.avid, world.faithful)
      modifies `tasks, `files, `now
      ensures Valid() && Stepped(task) && outcome != GivenUp
      ensures tasks[task.id].state in {REPLACING, ARCHIVING}
      ensures Landed(files, task.avid, world.faithful)
      ensures world.Smooth() ==> outcome == Finished && tasks[task.id].state == ARCHIVING && files == old(files)
    {
      var answer := Look();
      if answer != Fine {
        return Ended(answer);
      }
      assert TaskSound(task.id, task, files, world.faithful);
      var _ := Transition(task.id, REPLACING, task.(state := ARCHIVING, notice := None));
      answer := Look();
      return Ended(answer);
    }

    /** The archive filed the folder. */
    method Finish(task: Task)
      requires Valid() && Current(task) && task.state == ARCHIVING && task.avid !in files.folders
      modifies `tasks
      ensures Valid() && Stepped(task) && tasks[task.id].state == DONE && task.avid in files.library
    {
      assert TaskSound(task.id, task, files, world.faithful);
      var _ := Transition(task.id, ARCHIVING, task.(state := DONE, notice := None));
    }

    /** `_watch_archive`: done once the intake folder is gone. */
    method WatchArchive(task: Task) returns (outcome: Outcome)
      requires Valid() && Current(task) && task.state == ARCHIVING
      modifies `tasks, `files, `now
      ensures Valid() && Stepped(task) && (outcome == GivenUp ==> tasks == old(tasks))
      ensures tasks[task.id].state in {ARCHIVING, DONE}
      ensures tasks[task.id].state == DONE ==> task.avid in files.library
      ensures outcome == GivenUp ==> exists t | old(now) <= t <= now :: world.clock(t) - task.changedAt > ARCHIVE_WAIT
      ensures world.Smooth() ==> (tasks[task.id].state == DONE <==> task.avid !in files.folders)
      ensures world.Smooth() ==> files == old(files)
    {
      var answer := Look();
      if answer != Fine {
        return Ended(answer);
      }
      if task.avid !in files.folders {
        Finish(task);
        answer := Look();
        return Ended(answer);
      }
      outcome := WaitForArchive(task);
    }

    /** The intake folder is still there. */
    method WaitForArchive(task: Task) returns (outcome: Outcome)
      requires Valid() && Current(task) && task.state == ARCHIVING
      modifies `tasks, `files, `now
      ensures Valid() && Stepped(task) && (outcome == GivenUp ==> tasks == old(tasks))
      ensures tasks[task.id].state == ARCHIVING
      ensures outcome == GivenUp ==> exists t | old(now) <= t <= now :: world.clock(t) - task.changedAt > ARCHIVE_WAIT
      ensures world.Smooth() ==> files == old(files)
    {
      var at := now;
      var clock := world.clock(at);
      if clock - task.changedAt > ARCHIVE_WAIT {
        // Whether or not the library holds a whole copy, which only the message tells.
        outcome := RefuseWholeCopy(task, {});
        return if outcome == Finished then GivenUp else outcome;
      }
      if clock - task.updatedAt > ARCHIVE_NUDGE_INTERVAL {
        outcome := Nudge(task);
        return;
      }
      return Finished;
    }

    /** The archive is asked for another pass. */
    method Nudge(task: Task) returns (outcome: Outcome)
      requires Valid() && Current(task) && task.state == ARCHIVING
      modifies `tasks, `files, `now
      ensures Valid() && Stepped(task) && outcome != GivenUp && tasks[task.id].state == ARCHIVING
      ensures world.Smooth() ==> files == old(files)
    {
      var answer := Look();
      if answer != Fine {
        return Ended(answer);
      }
      Wait(task, "waiting for the archive run to file it");
      return Finished;
    }

    // -- polling -------------------------------------------------------------

    /** The handler of the task's state. */
    method Handle(task: Task) returns (outcome: Outcome)
      requires Valid() && Current(task) && task.state in WORKING && (task.state == QUEUED ==> NoneMerging(tasks))
      modifies `tasks, `files, `now
      ensures Valid() && Stepped(task) && (outcome == GivenUp ==> tasks == old(tasks))
      ensures tasks[task.id].state == MERGING ==> task.state in {QUEUED, MERGING}
      ensures tasks[task.id].state != FAILED
      ensures world.Smooth() && Due(world, old(files), task).Some? ==>
                (if outcome == GivenUp then FAILED else tasks[task.id].state) == Due(world, old(files), task).value
      ensures world.Smooth() && task.state == REPLACING && task.id !in old(files).staged
              && task.avid !in old(files).intake ==>
        outcome == GivenUp && task.id !in files.staged && task.avid !in files.intake
    {
      if world.pathless(task.avid) {
        return GivenUp;
      }
      match task.state {
        case QUEUED => outcome := StartMerge(task);
        case MERGING => outcome := WatchMerge(task);
        case UPLOADING => outcome := WatchUpload(task);
        case VERIFYING => outcome := Verify(task);
        case REPLACING => outcome := Replace(task);
        case ARCHIVING => outcome := WatchArchive(task);
      }
    }

    /** The task fails, and remembers where. */
    method Fail(task: Task)
      requires Valid() && Current(task) && task.state in WORKING
      modifies `tasks
      ensures Valid() && Stepped(task) && tasks[task.id].state == FAILED
    {
      assert TaskSound(task.id, task, files, world.faithful);
      var _ := Transition(task.id, task.state, task.(state := FAILED, failedState := Some(task.state), notice := None));
    }

    /** `_step`: a task given up fails where it stands; any other trouble is only noted. */
    method Step(task: Task) returns (outcome: Outcome)
      requires Valid() && Current(task) && task.state in WORKING && (task.state == QUEUED ==> NoneMerging(tasks))
      modifies `tasks, `files, `now
      ensures Valid() && Stepped(task)
      ensures tasks[task.id].state == MERGING ==> task.state in {QUEUED, MERGING}
      ensures outcome == GivenUp <==> tasks[task.id].state == FAILED
      ensures world.Smooth() && Due(world, old(files), task).Some? ==>
                tasks[task.id].state == Due(world, old(files), task).value
      ensures world.Smooth() && task.state == REPLACING && task.id !in old(files).staged
              && task.avid !in old(files).intake ==>
        tasks[task.id].state == FAILED && task.id !in files.staged && task.avid !in files.intake
    {
      outcome := Handle(task);
      if outcome == GivenUp {
        Fail(task);
      } else if outcome == Trouble {
        Note(task);
      }
    }

    /** A passing problem is shown while the step is retried. */
    method Note(task: Task)
      requires Valid() && task.id in tasks && (tasks[task.id] == task || StepMay(task, tasks[task.id]))
      requires task.state in WORKING
      modifies `tasks
      ensures Valid() && tasks - {task.id} == old(tasks) - {task.id} && task.id in tasks
      ensures tasks[task.id].state == old(tasks)[task.id].state && StepMay(task, tasks[task.id])
    {
      assert TaskSound(task.id, tasks[task.id], files, world.faithful);
      Update(task.id, tasks[task.id].uploadAttempts, Some("it could not advance"));
    }

    ghost predicate OnlyOpen(id: nat)
      reads this
    {
      id in tasks && tasks[id].state in WORKING && forall other | other in tasks && tasks[other].Open() :: other == id
    }

    /** `tick`: every open task advances by at most one step, and at most one merge starts. Without
        trouble, a task (`sole`) that is the only open one goes where it is due. */
    method Tick(ghost sole: nat)
      requires Valid()
      modifies `tasks, `files, `now
      ensures Valid() && Polled(old(tasks), tasks)
      ensures world.Smooth() && old(OnlyOpen(sole)) && Due(world, old(files), old(tasks)[sole]).Some? ==>
        sole in tasks && tasks[sole].state == Due(world, old(files), old(tasks)[sole]).value
      ensures !world.available(old(now)) ==> tasks == old(tasks)
    {
      if !world.available(now) {
        return;
      }
      var answer := Look();
      if answer != Fine {
        return;
      }
      var rows := Snapshot();
      ghost var due := None;
      if world.Smooth() && OnlyOpen(sole) {
        OneRow(tasks, rows, sole);
        due := Due(world, files, tasks[sole]);
      }
      StepAll(rows, due);
    }

    /** The loop of `tick` over the rows as they were read. `due` is where the only one goes, if known. */
    method StepAll(rows: seq<Task>, ghost due: Option<MergeState>)
      requires Valid() && Unvisited(rows, 0, tasks, tasks)
      requires forall i | 0 <= i < |rows| :: rows[i].state in WORKING || rows[i].state == FAILED
      requires forall i, j | 0 <= i < j < |rows| :: rows[i].id < rows[j].id
      requires forall id | id in tasks && tasks[id].state == MERGING :: tasks[id] in rows
      requires due.Some? ==>
                world.Smooth() && |rows| == 1 && rows[0].state in WORKING && Due(world, files, rows[0]) == due
      modifies `tasks, `files, `now
      ensures Valid() && Polled(old(tasks), tasks)
      ensures due.Some? ==> rows[0].id in tasks && tasks[rows[0].id].state == due.value
    {
      var merging := exists i | 0 <= i < |rows| :: rows[i].state == MERGING;
      if !merging {
        NobodyListed(rows, tasks);
      }
      for i := 0 to |rows|
        invariant Valid() && Polled(old(tasks), tasks) && (merging || NoneMerging(tasks))
        invariant Unvisited(rows, i, old(tasks), tasks)
        invariant due.Some? && i == 0 ==> files == old(files) && (merging ==> rows[0].state == MERGING)
        invariant due.Some? && i == 1 ==> rows[0].id in tasks && tasks[rows[0].id].state == due.value
      {
        var row := rows[i];
        if row.state == FAILED || (row.state == QUEUED && merging) {
          continue;
        }
        merging := merging || row.state == QUEUED;
        ghost var before := tasks;
        var outcome := Step(row);
        OneVisit(rows, i, old(tasks), before, tasks);
        if outcome == Died {
          return;
        }
      }
    }

    method Snapshot() returns (rows: seq<Task>)
      requires Valid()
      ensures forall i | 0 <= i < |rows| :: rows[i].Open() && (rows[i].state in WORKING || rows[i].state == FAILED)
      ensures forall i, j | 0 <= i < j < |rows| :: rows[i].id < rows[j].id
      ensures forall id | id in tasks && tasks[id].Open() :: tasks[id] in rows
      ensures Unvisited(rows, 0, tasks, tasks)
    {
      assert forall id | id in tasks :: TaskSound(id, tasks[id], files, world.faithful);
      rows := OpenTasks(tasks);
    }

    // -- a title that meets no trouble -----------------------------------------

    /** The merge Job runs and writes its file, and CloudDrive is asked to copy it. */
    method MergeSmoothly(task: Task)
      requires Valid() && Current(task) && task.state == QUEUED && NoneMerging(tasks) && world.Smooth()
      requires task.avid !in files.library && forall t :: world.copy(t, task.id) == NoCopy
      requires world.report(0, task.id, task.avid).Reported?
      requires forall t :: world.report(t, task.id, task.avid) == world.report(0, task.id, task.avid)
      modifies `tasks, `files, `now
      ensures Valid() && task.id in tasks && tasks[task.id].state == UPLOADING
      ensures tasks[task.id].id == task.id && tasks[task.id].avid == task.avid && tasks[task.id].parts == task.parts
      ensures tasks[task.id].merged == Some(world.report(0, task.id, task.avid).blob)
      ensures files == old(files).(outputs := files.outputs)
    {
      var outcome := StartMerge(task);
      var size := world.report(0, task.id, task.avid).blob.size;
      ChangeWorkFiles(files.(outputs := files.outputs[task.avid := size]));
      outcome := WatchMerge(tasks[task.id]);
      outcome := WatchUpload(tasks[task.id]);
    }

    /** CloudDrive finishes the copy, and it is the merged file. */
    method UploadSmoothly(task: Task)
      requires Valid() && Current(task) && task.state == UPLOADING && task.merged.Some? && world.Smooth()
      requires task.avid !in files.library && forall t :: world.copy(t, task.id) == CopyCompleted
      modifies `tasks, `files, `now
      ensures Valid() && task.id in tasks && tasks[task.id].state == REPLACING
      ensures tasks[task.id].id == task.id && tasks[task.id].avid == task.avid && tasks[task.id].parts == task.parts
      ensures tasks[task.id].merged == task.merged
      ensures files == old(files).(staged := old(files).staged[task.id := task.merged.value])
    {
      var staged := files.staged[task.id := task.merged.value];
      Outside(files.(staged := staged));
      var outcome := WatchUpload(task);
      outcome := Verify(tasks[task.id]);
    }

    /** The swap, after which the archive files the folder. */
    method SwapSmoothly(task: Task)
      requires Valid() && Current(task) && task.state == REPLACING && world.Smooth()
      requires task.id in files.staged && task.avid !in files.intake
      modifies `tasks, `files, `now
      ensures Valid() && task.id in tasks && tasks[task.id].state == DONE && tasks[task.id].merged == task.merged
      ensures tasks[task.id].id == task.id
      ensures files.gone == old(files).gone + set i | i in task.parts :: Part(task.avid, i)
      ensures task.avid in files.library
    {
      var outcome := Replace(task);
      assert files.intake[task.avid] == old(files).staged[task.id];
      Outside(files.(folders := files.folders - {task.avid}, intake := files.intake - {task.avid},
          library := files.library + {task.avid}));
      outcome := WatchArchive(tasks[task.id]);
    }

    /** The swap goes well up to its last write, the process dies, and the archive files the folder. */
    method DieBeforeTheWrite(task: Task)
      requires Valid() && Current(task) && task.state == REPLACING && world.Smooth()
      requires task.id in files.staged && task.avid !in files.intake
      modifies `tasks, `files, `now
      ensures Valid() && tasks == old(tasks) && task.id !in files.staged && task.avid !in files.intake
      ensures task.avid in files.library
    {
      var outcome, cleared := ClearOriginals(task);
      var landed;
      outcome, landed := Land(task);
      Outside(files.(folders := files.folders - {task.avid}, intake := files.intake - {task.avid},
          library := files.library + {task.avid}));
    }

    // -- operator actions ----------------------------------------------------

    /** `_discard_duplicate`: the merged copy goes only once the library is seen to hold the title. */
    method DiscardDuplicate(task: Task) returns (refused: Option<ActionError>)
      requires Valid() && Current(task) && task.Phase() == ARCHIVING
      modifies `files, `now
      ensures Valid() && (refused == None ==> task.avid in files.library) && refused != Some(TaskNotFound)
      ensures world.Smooth() && task.avid in files.library ==> refused == None
      ensures world.Smooth() ==> files.library == old(files).library
    {
      var answer := Look();
      if answer != Fine {
        return Some(if answer == Stopped then ActionDied else DiscardFailed);
      }
      if task.avid !in files.library {
        return Some(NotCancellable);
      }
      if world.clears(now) {
        DropIntake(task.avid);
      }
      answer := Look();
      if answer != Fine {
        return Some(if answer == Stopped then ActionDied else DiscardFailed);
      }
      return if task.avid in files.folders then Some(DiscardFailed) else None;
    }

    method DropIntake(avid: Avid)
      requires Valid() && avid in files.library
      modifies `files
      ensures Valid()
      ensures files == old(files).(folders := old(files).folders - {avid}, intake := old(files).intake - {avid})
    {
      var after := files.(folders := files.folders - {avid}, intake := files.intake - {avid});
      forall a | Landed(files, a, world.faithful) ensures Landed(after, a, world.faithful) {
      }
      forall id | id in tasks ensures TaskSound(id, tasks[id], after, world.faithful) {
        assert TaskSound(id, tasks[id], files, world.faithful);
      }
      ChangeFiles(tasks, files, after, world.faithful);
      files := after;
    }

    /** `cancel`. A task whose parts may be gone is removed only when the library holds the title. */
    method Cancel(id: nat) returns (action: Action)
      requires Valid()
      modifies `tasks, `files, `now
      ensures Valid()
      ensures action.Acted? ==>
                && id in old(tasks) && id in tasks && CancelMay(old(tasks)[id], tasks[id])
                && tasks == old(tasks)[id := tasks[id]]
      ensures action.Acted? && old(tasks)[id].Phase() == ARCHIVING ==> tasks[id].avid in files.library
      ensures action.Refused? ==> tasks == old(tasks)
      ensures action == Refused(TaskNotFound) <==> id !in old(tasks)
      ensures id in old(tasks) && (old(tasks)[id].state !in CANCELLABLE || old(tasks)[id].Phase() == REPLACING) ==>
                action == Refused(NotCancellable)
      ensures world.Smooth() && id in old(tasks) && old(tasks)[id].state in CANCELLABLE
              && old(tasks)[id].Phase() != REPLACING ==>
        (action.Acted? <==> (old(tasks)[id].Phase() == ARCHIVING ==> old(tasks)[id].avid in old(files).library))
    {
      if id !in tasks {
        return Refused(TaskNotFound);
      }
      var task := tasks[id];
      if task.state !in CANCELLABLE || task.Phase() == REPLACING {
        return Refused(NotCancellable);
      }
      if world.pathless(task.avid) {
        return Refused(ActionTrouble);
      }
      assert TaskSound(id, task, files, world.faithful);
      if task.Phase() == ARCHIVING {
        var refused := DiscardDuplicate(task);
        if refused.Some? {
          return Refused(refused.value);
        }
      }
      action := Remove(task);
    }

    /** The rest of `cancel`. */
    method Remove(task: Task) returns (action: Action)
      requires Valid() && Current(task) && task.state in CANCELLABLE && task.Phase() != REPLACING
      requires task.Phase() == ARCHIVING ==> task.avid in files.library
      modifies `tasks, `files, `now
      ensures Valid() && action != Refused(TaskNotFound)
      ensures action.Acted? ==>
                Current(action.task) && CancelMay(task, action.task) && tasks == old(tasks)[task.id := action.task]
      ensures action.Acted? && task.Phase() == ARCHIVING ==> task.avid in files.library
      ensures action.Refused? ==> tasks == old(tasks)
      ensures world.Smooth() ==> action.Acted?
    {
      var answer := Look();
      if answer == Stopped {
        return Refused(ActionDied);
      }
      if task.merged.Some? {
        ClearStaging(task.id);
      }
      answer := Look();
      if answer != Fine {
        return Refused(if answer == Stopped then ActionDied else ActionTrouble);
      }
      ChangeWorkFiles(files.(outputs := files.outputs - {task.avid}));
      assert TaskSound(task.id, task, files, world.faithful);
      var _ := Transition(task.id, task.state, task.(state := CANCELLED, notice := None));
      return Acted(tasks[task.id]);
    }

    /** `retry`: a failed task resumes where it failed, or as far before as the work must be redone. */
    method Retry(id: nat) returns (action: Action)
      requires Valid()
      modifies `tasks, `files, `now
      ensures Valid()
      ensures action.Acted? <==> tasks != old(tasks)
      ensures action.Acted? ==>
                && id in old(tasks) && id in tasks && RetryMay(old(tasks)[id], tasks[id])
                && tasks == old(tasks)[id := tasks[id]]
      ensures action.Acted? && tasks[id].state == UPLOADING ==> tasks[id].uploadAttempts == 0
      ensures action.Acted? && tasks[id].state == QUEUED ==> !tasks[id].jobStarted
      ensures action == Refused(TaskNotFound) <==> id !in old(tasks)
      ensures action == Refused(NotFailed) <==> id in old(tasks) && old(tasks)[id].state != FAILED
      ensures world.Smooth() ==>
                files == old(files) && (id in old(tasks) && old(tasks)[id].state == FAILED ==> action.Acted?)
    {
      if id !in tasks {
        return Refused(TaskNotFound);
      }
      var task := tasks[id];
      if task.state != FAILED {
        return Refused(NotFailed);
      }
      assert TaskSound(id, task, files, world.faithful);
      var answer := Look();
      if answer != Fine {
        return Refused(if answer == Stopped then ActionDied else ActionTrouble);
      }
      assert TaskSound(id, task, files, world.faithful);
      var state := Resume(task.failedState.value);
      var row := task.(state := state, failedState := None, notice := None,
                       jobStarted := task.jobStarted && state != QUEUED,
                       uploadAttempts := if state == UPLOADING then 0 else task.uploadAttempts);
      var _ := Transition(id, FAILED, row);
      return Acted(tasks[id]);
    }

    /** `create`, which the unique index refuses for a title that has an open task. */
    method Create(id: nat, avid: Avid, parts: set<nat>) returns (created: bool)
      requires Valid() && id !in tasks
      modifies `tasks
      ensures Valid()
      ensures created <==>
                forall other | other in old(tasks) && old(tasks)[other].Open() :: old(tasks)[other].avid != avid
      ensures created ==>
                && id in tasks && tasks == old(tasks)[id := tasks[id]] && tasks[id].avid == avid
                && tasks[id].parts == parts
      ensures created ==> tasks[id].state == QUEUED
      ensures !created ==> tasks == old(tasks)
    {
      if exists other | other in tasks :: tasks[other].Open() && tasks[other].avid == avid {
        return false;
      }
      var at := world.clock(now);
      var row := Task(id, avid, parts, QUEUED, None, false, None, 0, None, at, at);
      AddTask(tasks, files, world.faithful, id, row);
      tasks := tasks[id := row];
      return true;
    }
  }

  predicate IsLeast(id: nat, ids: set<nat>) {
    id in ids && forall other | other in ids :: id <= other
  }

  lemma {:induction false} HasLeast(ids: set<nat>) returns (least: nat)
    requires ids != {}
    ensures IsLeast(least, ids)
  {
    var some :| some in ids;
    var rest := ids - {some};
    least := some;
    if rest != {} {
      var lower := HasLeast(rest);
      least := if some <= lower then some else lower;
    }
    forall other | other in ids ensures least <= other {
      assert other == some || other in rest;
    }
  }

  /** `open_tasks`: every task not done or cancelled, oldest first. */
  method OpenTasks(tasks: map<nat, Task>) returns (rows: seq<Task>)
    requires forall id | id in tasks :: tasks[id].id == id
    ensures forall i | 0 <= i < |rows| :: rows[i].id in tasks && tasks[rows[i].id] == rows[i] && rows[i].Open()
    ensures forall i, j | 0 <= i < j < |rows| :: rows[i].id < rows[j].id
    ensures forall id | id in tasks && tasks[id].Open() :: tasks[id] in rows
  {
    rows := [];
    var left := set id | id in tasks && tasks[id].Open();
    while left != {}
      invariant forall id | id in left :: id in tasks && tasks[id].Open()
      invariant forall i | 0 <= i < |rows| :: rows[i].id in tasks && tasks[rows[i].id] == rows[i] && rows[i].Open()
      invariant forall i, j | 0 <= i < j < |rows| :: rows[i].id < rows[j].id
      invariant forall i, id | 0 <= i < |rows| && id in left :: rows[i].id < id
      invariant forall id | id in tasks && tasks[id].Open() :: id in left || tasks[id] in rows
      decreases left
    {
      ghost var least := HasLeast(left);
      assert least in left && forall other | other in left :: least <= other;
      var id :| id in left && forall other | other in left :: id <= other;
      rows, left := rows + [tasks[id]], left - {id};
    }
  }

  lemma OneRow(tasks: map<nat, Task>, rows: seq<Task>, sole: nat)
    requires sole in tasks && tasks[sole] in rows && Unvisited(rows, 0, tasks, tasks)
    requires forall i | 0 <= i < |rows| :: rows[i].Open()
    requires forall i, j | 0 <= i < j < |rows| :: rows[i].id < rows[j].id
    requires forall other | other in tasks && tasks[other].Open() :: other == sole
    ensures |rows| == 1 && rows[0] == tasks[sole]
  {
    assert |rows| > 0;
    assert rows[0].id == sole == rows[|rows| - 1].id;
  }

  /** How a whole poll may change the table. */
  ghost predicate Polled(before: map<nat, Task>, after: map<nat, Task>) {
    && after.Keys == before.Keys
    && forall id | id in after :: after[id] == before[id] || StepMay(before[id], after[id])
  }

  /** What is left of the loop in `tick`: the rows not yet visited are as they were read. */
  ghost predicate Unvisited(rows: seq<Task>, i: nat, before: map<nat, Task>, tasks: map<nat, Task>) {
    forall j | i <= j < |rows| ::
        rows[j].id in tasks && rows[j].id in before && tasks[rows[j].id] == rows[j] == before[rows[j].id]
  }

  lemma NobodyListed(rows: seq<Task>, tasks: map<nat, Task>)
    requires forall id | id in tasks && tasks[id].state == MERGING :: tasks[id] in rows
    requires !exists i | 0 <= i < |rows| :: rows[i].state == MERGING
    ensures NoneMerging(tasks)
  {
  }

  lemma OneVisit(rows: seq<Task>, i: nat, before: map<nat, Task>, tasks: map<nat, Task>, after: map<nat, Task>)
    requires forall i, j | 0 <= i < j < |rows| :: rows[i].id < rows[j].id
    requires i < |rows| && Polled(before, tasks) && Unvisited(rows, i, before, tasks)
    requires rows[i].id in after && after - {rows[i].id} == tasks - {rows[i].id}
    requires after[rows[i].id] == rows[i] || StepMay(rows[i], after[rows[i].id])
    ensures Polled(before, after) && Unvisited(rows, i + 1, before, after)
    ensures NoneMerging(tasks) && after[rows[i].id].state != MERGING ==> NoneMerging(after)
  {
    var id := rows[i].id;
    assert id in tasks;
    forall x | x != id ensures (x in after <==> x in tasks) && (x in after ==> after[x] == tasks[x]) {
      assert x in after - {id} <==> x in tasks - {id};
      if x in after - {id} {
        assert (after - {id})[x] == (tasks - {id})[x];
      }
    }
  }

  // -- whole runs ------------------------------------------------------------

  datatype Call = Poll | CancelTask(id: nat) | RetryTask(id: nat) | CreateTask(id: nat, avid: Avid, parts: set<nat>)

  /** What one call may do to the table: rows move as rows may, and none disappears. */
  ghost predicate Evolved(before: map<nat, Task>, after: map<nat, Task>) {
    forall id | id in before :: id in after && RowMay(before[id], after[id])
  }

  /** One call of one process, which may die during it. */
  method OneCall(world: World, tasks: map<nat, Task>, files: Files, call: Call)
    returns (tasks': map<nat, Task>, files': Files)
    requires Safe(tasks, files, world.faithful) && world.Sound()
    ensures Safe(tasks', files', world.faithful) && Evolved(tasks, tasks')
  {
    var service := new Service(world, tasks, files);
    match call {
      case Poll => service.Tick(0);
      case CancelTask(id) => var _ := service.Cancel(id);
      case RetryTask(id) => var _ := service.Retry(id);
      case CreateTask(id, avid, parts) => if id !in tasks { var _ := service.Create(id, avid, parts); }
    }
    return service.tasks, service.files;
  }

  /** Any sequence of polls, cancels, retries and new tasks, each against a world of its own whims
      and each perhaps cut short: no title is lost, at most one task is merging, uploads are tried
      at most five times, and a title has parts missing only if a task of its may have deleted them. */
  method AnyRun(worlds: nat -> World, faithful: Faithful, tasks: map<nat, Task>, files: Files, calls: seq<Call>)
    returns (tasks': map<nat, Task>, files': Files)
    requires Safe(tasks, files, faithful) && forall i :: worlds(i).faithful == faithful && worlds(i).Sound()
    ensures forall avid :: Held(tasks', files', faithful, avid)
    ensures forall avid | !Intact(files', avid) :: SomeoneDeleted(tasks', files', avid)
    ensures OneMerging(tasks') && OneOpenPerAvid(tasks')
    ensures forall id | id in tasks' :: tasks'[id].uploadAttempts <= MAX_UPLOAD_ATTEMPTS
    ensures forall id | id in tasks' && tasks'[id].state == DONE :: tasks'[id].avid in files'.library
  {
    tasks', files' := tasks, files;
    for i := 0 to |calls|
      invariant Safe(tasks', files', faithful)
    {
      tasks', files' := OneCall(worlds(i), tasks', files', calls[i]);
    }
    forall avid ensures Held(tasks', files', faithful, avid) {
      SafeHoldsEveryTitle(tasks', files', faithful, avid);
    }
    assert forall id | id in tasks' :: TaskSound(id, tasks'[id], files', faithful);
  }

  /** A trap in `_replace`, when the process dies between the move into the intake and the write that
      says so, and the archive then files the folder: the title is safe in the library, but the
      task keeps failing at the swap however often it is retried, and cannot be removed. */
  method NeverLeavesSwap(world: World, tasks: map<nat, Task>, files: Files, id: nat, rounds: nat)
    returns (left: Task, action: Action)
    requires Safe(tasks, files, world.faithful) && world.Sound() && world.Smooth()
    requires id in tasks && tasks[id].Phase() == REPLACING && id !in files.staged && tasks[id].avid !in files.intake
    ensures left.id == id && left.Phase() == REPLACING && left.avid in files.library
    ensures action == Refused(NotCancellable)
  {
    var service := new Service(world, tasks, files);
    assert TaskSound(id, tasks[id], files, world.faithful);
    for i := 0 to rounds
      invariant service.Valid() && service.world == world && id in service.tasks
      invariant service.tasks[id].avid == tasks[id].avid
      invariant service.tasks[id].Phase() == REPLACING && id !in service.files.staged
      invariant tasks[id].avid !in service.files.intake
    {
      assert TaskSound(id, service.tasks[id], service.files, world.faithful);
      if service.tasks[id].state == FAILED {
        var _ := service.Retry(id);
      } else {
        var _ := service.Step(service.tasks[id]);
      }
    }
    assert TaskSound(id, service.tasks[id], service.files, world.faithful);
    left := service.tasks[id];
    action := service.Cancel(id);
  }

  /** A title merged from start to end while nothing goes wrong, in a `first` world until CloudDrive
      was asked for the copy and a `second` one from when it finished it: the library ends up with
      the merged file, and all the parts are gone. */
  method Journey(first: World, second: World, tasks: map<nat, Task>, files: Files, id: nat)
    returns (done: Task, after: Files)
    requires Safe(tasks, files, first.faithful) && first.faithful == second.faithful
    requires first.Sound() && first.Smooth() && second.Sound() && second.Smooth()
    requires id in tasks && tasks[id].state == QUEUED && NoneMerging(tasks)
    requires tasks[id].avid !in files.library && tasks[id].avid !in files.intake
    requires first.report(0, id, tasks[id].avid).Reported?
    requires forall t :: first.report(t, id, tasks[id].avid) == first.report(0, id, tasks[id].avid)
    requires forall t :: first.copy(t, id) == NoCopy && second.copy(t, id) == CopyCompleted
    ensures done.state == DONE && done.id == id && done.merged == Some(first.report(0, id, tasks[id].avid).blob)
    ensures forall i | i in tasks[id].parts :: Part(tasks[id].avid, i) in after.gone
    ensures tasks[id].avid in after.library
  {
    assert TaskSound(id, tasks[id], files, first.faithful);
    var start := new Service(first, tasks, files);
    start.MergeSmoothly(tasks[id]);
    var finish := new Service(second, start.tasks, start.files);
    finish.UploadSmoothly(finish.tasks[id]);
    finish.SwapSmoothly(finish.tasks[id]);
    return finish.tasks[id], finish.files;
  }
}
