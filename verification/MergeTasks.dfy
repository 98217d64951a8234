/**
 Merging a multi-part title into one file: the stored tasks, the files CloudDrive and the work
 volume hold, and what must be true of both between any two writes so that no title is ever lost.
 `MergeService` walks tasks through it.
 */
module MergeTasks {
  import opened Options

  type Avid = string

  datatype MergeState = QUEUED | MERGING | UPLOADING | VERIFYING | REPLACING | ARCHIVING | DONE | FAILED | CANCELLED

  const WORKING := {QUEUED, MERGING, UPLOADING, VERIFYING, REPLACING, ARCHIVING}
  const FINISHED := {DONE, CANCELLED}
  /** Past these the originals may be gone. */
  const CANCELLABLE := {QUEUED, MERGING, UPLOADING, VERIFYING, FAILED}

  const MAX_UPLOAD_ATTEMPTS := 5

  /** What identifies a file's content: its size and its SHA-1. */
  datatype Blob = Blob(size: nat, sha1: string)

  datatype Task = Task(id: nat, avid: Avid, parts: set<nat>, state: MergeState, failedState: Option<MergeState>,
                       jobStarted: bool, merged: Option<Blob>, uploadAttempts: nat, notice: Option<string>,
                       updatedAt: int, changedAt: int)
  {
    predicate Open() { state !in FINISHED }

    /** The step a task is at, or failed at. */
    function Phase(): MergeState {
      if state == FAILED && failedState.Some? then failedState.value else state
    }
  }

  /** One part file of a title in the library. */
  datatype Part = Part(avid: Avid, index: nat)

  /** The files outside the table. A title's intake folder holds the merged file or nothing. */
  datatype Files = Files(
    /** Parts that have been deleted. */
    gone: set<Part>,
    /** The file in a task's own staging folder. */
    staged: map<nat, Blob>,
    /** Titles with a folder in the intake, and the merged file in it. */
    folders: set<Avid>,
    intake: map<Avid, Blob>,
    /** Titles the library lists a whole copy of, beside their parts. */
    library: set<Avid>,
    /** The merged file on the work volume and its size. */
    outputs: map<Avid, nat>)

  /** Whether a file with this size and SHA-1 is a merge of all of a title's parts. */
  type Faithful = (Avid, Blob) -> bool

  ghost predicate Intact(files: Files, avid: Avid) {
    forall p | p in files.gone :: p.avid != avid
  }

  ghost predicate StagedWhole(files: Files, id: nat, avid: Avid, faithful: Faithful) {
    id in files.staged && faithful(avid, files.staged[id])
  }

  ghost predicate IntakeWhole(files: Files, avid: Avid, faithful: Faithful) {
    avid in files.intake && faithful(avid, files.intake[avid])
  }

  /** The merged file made it out of staging: it is in the intake, or the library has the title. */
  ghost predicate Landed(files: Files, avid: Avid, faithful: Faithful) {
    IntakeWhole(files, avid, faithful) || avid in files.library
  }

  /** What holds of one task's row, whatever happened so far. */
  ghost predicate TaskSound(id: nat, task: Task, files: Files, faithful: Faithful) {
    && task.id == id && task.uploadAttempts <= MAX_UPLOAD_ATTEMPTS
    && (task.state == FAILED ==> task.failedState.Some? && task.failedState.value in WORKING)
    && (task.Phase() in {UPLOADING, VERIFYING, REPLACING, ARCHIVING} ==>
          task.merged.Some? && faithful(task.avid, task.merged.value))
    && (task.Phase() == REPLACING ==> StagedWhole(files, id, task.avid, faithful) || Landed(files, task.avid, faithful))
    && (task.Phase() == ARCHIVING ==> Landed(files, task.avid, faithful))
    && (task.state == DONE ==> task.avid in files.library)
  }

  /** A task whose title's parts may be deleted: at or past the swap, or removed once the library
      was seen to hold the title whole. */
  ghost predicate MayHaveDeleted(task: Task, files: Files) {
    task.Phase() in {REPLACING, ARCHIVING} || (task.state in FINISHED && task.avid in files.library)
  }

  ghost predicate SomeoneDeleted(tasks: map<nat, Task>, files: Files, avid: Avid) {
    exists id | id in tasks :: tasks[id].avid == avid && MayHaveDeleted(tasks[id], files)
  }

  ghost predicate OneOpenPerAvid(tasks: map<nat, Task>) {
    forall a, b | a in tasks && b in tasks && a != b && tasks[a].Open() && tasks[b].Open() ::
        tasks[a].avid != tasks[b].avid
  }

  ghost predicate OneMerging(tasks: map<nat, Task>) {
    forall a, b | a in tasks && b in tasks && tasks[a].state == MERGING && tasks[b].state == MERGING :: a == b
  }

  ghost predicate NoneMerging(tasks: map<nat, Task>) {
    forall a | a in tasks :: tasks[a].state != MERGING
  }

  /** A merged file lies in its title's folder, and is whole unless the library has the title anyway. */
  ghost predicate IntakeSound(files: Files, faithful: Faithful) {
    && files.intake.Keys <= files.folders
    && forall a | a in files.intake :: Landed(files, a, faithful)
  }

  /** The invariant of every run. */
  ghost predicate Safe(tasks: map<nat, Task>, files: Files, faithful: Faithful) {
    && (forall id | id in tasks :: TaskSound(id, tasks[id], files, faithful))
    && (forall p | p in files.gone :: SomeoneDeleted(tasks, files, p.avid))
    && OneOpenPerAvid(tasks) && OneMerging(tasks)
    && IntakeSound(files, faithful)
  }

  /** A title is held: by all its parts, by a checked merged file in staging or intake, or by the library. */
  ghost predicate Held(tasks: map<nat, Task>, files: Files, faithful: Faithful, avid: Avid) {
    || Intact(files, avid)
    || avid in files.library
    || IntakeWhole(files, avid, faithful)
    || exists id :: StagedWhole(files, id, avid, faithful)
  }

  /** The invariant means that no title is ever lost. */
  lemma SafeHoldsEveryTitle(tasks: map<nat, Task>, files: Files, faithful: Faithful, avid: Avid)
    requires Safe(tasks, files, faithful)
    ensures Held(tasks, files, faithful, avid)
  {
    if !Intact(files, avid) {
      var p :| p in files.gone && p.avid == avid;
      var id :| id in tasks && tasks[id].avid == avid && MayHaveDeleted(tasks[id], files);
      assert TaskSound(id, tasks[id], files, faithful);
    }
  }

  // -- what others may do ----------------------------------------------------

  /** Staging folders whose file is all that is left of a title. */
  ghost function Protected(tasks: map<nat, Task>): set<nat> {
    set id | id in tasks && tasks[id].Phase() == REPLACING
  }

  /** Others restore parts, add whole copies, file intake folders into the library, fill and empty
      staging folders nobody relies on, and lose work files. They delete nothing else and put
      nothing into a title's intake folder. */
  ghost predicate OthersMay(protected: set<nat>, before: Files, after: Files) {
    && after.gone <= before.gone && before.library <= after.library
    && (forall id | id in protected && id in before.staged ::
           id in after.staged && after.staged[id] == before.staged[id])
    && (forall a | a in after.intake :: a in before.intake && after.intake[a] == before.intake[a])
    && (forall a | a in before.intake && a !in after.intake :: a in after.library)
    && after.intake.Keys <= after.folders
  }

  lemma OthersKeepLanded(protected: set<nat>, before: Files, after: Files, faithful: Faithful)
    requires OthersMay(protected, before, after)
    ensures forall a :: Landed(before, a, faithful) ==> Landed(after, a, faithful)
  {
  }

  lemma OthersKeepSafe(protected: set<nat>, tasks: map<nat, Task>, before: Files, after: Files, faithful: Faithful)
    requires Safe(tasks, before, faithful) && OthersMay(protected, before, after) && Protected(tasks) <= protected
    ensures Safe(tasks, after, faithful)
  {
    OthersKeepLanded(protected, before, after, faithful);
    forall id | id in tasks ensures TaskSound(id, tasks[id], after, faithful) {
      assert TaskSound(id, tasks[id], before, faithful);
      assert tasks[id].Phase() == REPLACING ==> id in Protected(tasks);
    }
    forall p | p in after.gone ensures SomeoneDeleted(tasks, after, p.avid) {
      assert SomeoneDeleted(tasks, before, p.avid);
      var id :| id in tasks && tasks[id].avid == p.avid && MayHaveDeleted(tasks[id], before);
      assert MayHaveDeleted(tasks[id], after);
    }
  }

  // -- writes ----------------------------------------------------------------

  /** Changing one row keeps the invariant if the row stays sound, stays open only if it was, starts
      merging only if nobody is, and keeps answering for the parts it may have deleted. */
  lemma PutTask(tasks: map<nat, Task>, files: Files, faithful: Faithful, id: nat, task: Task)
    requires Safe(tasks, files, faithful) && id in tasks && task.avid == tasks[id].avid
    requires TaskSound(id, task, files, faithful)
    requires task.Open() ==> tasks[id].Open()
    requires task.state == MERGING ==> NoneMerging(tasks) || tasks[id].state == MERGING
    requires MayHaveDeleted(tasks[id], files) ==> MayHaveDeleted(task, files)
    ensures Safe(tasks[id := task], files, faithful)
  {
    var tasks' := tasks[id := task];
    forall p | p in files.gone ensures SomeoneDeleted(tasks', files, p.avid) {
      assert SomeoneDeleted(tasks, files, p.avid);
      var w :| w in tasks && tasks[w].avid == p.avid && MayHaveDeleted(tasks[w], files);
      assert w in tasks' && tasks'[w].avid == p.avid && MayHaveDeleted(tasks'[w], files);
    }
  }

  /** Deleting parts is safe for a task that is replacing. */
  lemma DeleteParts(tasks: map<nat, Task>, files: Files, faithful: Faithful, id: nat, more: set<Part>)
    requires Safe(tasks, files, faithful) && id in tasks && tasks[id].state == REPLACING
    requires forall p | p in more :: p.avid == tasks[id].avid
    ensures Safe(tasks, files.(gone := files.gone + more), faithful)
  {
    var after := files.(gone := files.gone + more);
    forall x | x in tasks ensures TaskSound(x, tasks[x], after, faithful) {
      assert TaskSound(x, tasks[x], files, faithful);
    }
    forall p | p in after.gone ensures SomeoneDeleted(tasks, after, p.avid) {
      if p in more {
        assert MayHaveDeleted(tasks[id], after);
      } else {
        assert SomeoneDeleted(tasks, files, p.avid);
        var w :| w in tasks && tasks[w].avid == p.avid && MayHaveDeleted(tasks[w], files);
        assert MayHaveDeleted(tasks[w], after);
      }
    }
  }

  /** Other file changes are safe if every task stays sound and the library does not shrink. */
  lemma ChangeFiles(tasks: map<nat, Task>, files: Files, after: Files, faithful: Faithful)
    requires Safe(tasks, files, faithful) && after.gone == files.gone && files.library <= after.library
    requires IntakeSound(after, faithful)
    requires forall id | id in tasks :: TaskSound(id, tasks[id], after, faithful)
    ensures Safe(tasks, after, faithful)
  {
    forall p | p in after.gone ensures SomeoneDeleted(tasks, after, p.avid) {
      assert SomeoneDeleted(tasks, files, p.avid);
      var w :| w in tasks && tasks[w].avid == p.avid && MayHaveDeleted(tasks[w], files);
      assert MayHaveDeleted(tasks[w], after);
    }
  }

  /** A new row: the table's unique index refuses a second open one for a title. */
  lemma AddTask(tasks: map<nat, Task>, files: Files, faithful: Faithful, id: nat, task: Task)
    requires Safe(tasks, files, faithful) && id !in tasks && task.state == QUEUED
    requires TaskSound(id, task, files, faithful)
    requires forall other | other in tasks && tasks[other].Open() :: tasks[other].avid != task.avid
    ensures Safe(tasks[id := task], files, faithful)
  {
    var tasks' := tasks[id := task];
    forall p | p in files.gone ensures SomeoneDeleted(tasks', files, p.avid) {
      assert SomeoneDeleted(tasks, files, p.avid);
      var w :| w in tasks && tasks[w].avid == p.avid && MayHaveDeleted(tasks[w], files);
      assert tasks'[w] == tasks[w];
    }
  }

  // -- how a row moves -------------------------------------------------------

  /** The states one poll may take a task to, from where it is. */
  function NextStates(state: MergeState): set<MergeState> {
    match state
    case QUEUED => {QUEUED, MERGING, FAILED}
    case MERGING => {MERGING, UPLOADING, FAILED}
    case UPLOADING => {UPLOADING, VERIFYING, QUEUED, FAILED}
    case VERIFYING => {VERIFYING, REPLACING, FAILED}
    case REPLACING => {REPLACING, ARCHIVING, FAILED}
    case ARCHIVING => {ARCHIVING, DONE, FAILED}
    case _ => {state}
  }

  /** Where a retry resumes. */
  function Resume(failed: MergeState): MergeState {
    match failed
    case UPLOADING => UPLOADING
    case VERIFYING => UPLOADING
    case REPLACING => REPLACING
    case ARCHIVING => ARCHIVING
    case _ => QUEUED
  }

  predicate StepMay(before: Task, after: Task) {
    && after.id == before.id && after.avid == before.avid && after.parts == before.parts
    && before.Open() && before.state != FAILED && after.state in NextStates(before.state)
    && (after.state == FAILED && before.state != FAILED ==> after.failedState == Some(before.state))
    && (after.state == before.state ==> after.failedState == before.failedState)
    && (before.state in {UPLOADING, VERIFYING, REPLACING, ARCHIVING} && after.state != QUEUED ==>
          after.merged == before.merged)
  }

  predicate CancelMay(before: Task, after: Task) {
    && after == before.(state := CANCELLED, notice := None, updatedAt := after.updatedAt, changedAt := after.changedAt)
    && before.state in CANCELLABLE && before.Phase() != REPLACING
  }

  predicate RetryMay(before: Task, after: Task) {
    && after.id == before.id && after.avid == before.avid
    && after.parts == before.parts && after.merged == before.merged
    && before.state == FAILED && before.failedState.Some? && after.state == Resume(before.failedState.value)
  }

  predicate RowMay(before: Task, after: Task) {
    after == before || StepMay(before, after) || CancelMay(before, after) || RetryMay(before, after)
  }

  /** The successive rows of one task, from the moment it was queued. */
  ghost predicate History(rows: seq<Task>) {
    && |rows| > 0 && rows[0].state == QUEUED
    && forall i | 0 <= i < |rows| - 1 :: RowMay(rows[i], rows[i + 1])
  }

  /** The write that ends the check of an uploaded file. */
  predicate Checked(rows: seq<Task>, i: nat, merged: Option<Blob>) {
    i + 1 < |rows| && rows[i].state == VERIFYING && rows[i + 1].state == REPLACING && rows[i].merged == merged
  }

  ghost predicate CheckedBefore(rows: seq<Task>, merged: Option<Blob>) {
    exists i: nat :: Checked(rows, i, merged)
  }

  /** Whatever failures, retries and lost files a task went through, it is at or past the swap only
      after the very file it now holds the size and SHA-1 of was checked. */
  lemma {:induction false} SwapFollowsCheck(rows: seq<Task>)
    requires History(rows) && (rows[|rows| - 1].Phase() in {REPLACING, ARCHIVING} || rows[|rows| - 1].state == DONE)
    ensures CheckedBefore(rows, rows[|rows| - 1].merged)
    decreases |rows|
  {
    var n := |rows| - 1;
    var before, after := rows[n - 1], rows[n];
    assert RowMay(before, after);
    if before.Phase() in {REPLACING, ARCHIVING} || before.state == DONE {
      SwapFollowsCheck(rows[..n]);
      var i: nat :| Checked(rows[..n], i, before.merged);
      assert Checked(rows, i, after.merged);
    } else {
      assert Checked(rows, n - 1, after.merged);
    }
  }

  /** A finished task never changes again. */
  lemma {:induction false} FinishedIsFinal(rows: seq<Task>, i: nat)
    requires History(rows) && i < |rows| && rows[i].state in FINISHED
    ensures rows[|rows| - 1] == rows[i]
    decreases |rows| - i
  {
    if i + 1 < |rows| {
      assert RowMay(rows[i], rows[i + 1]);
      FinishedIsFinal(rows, i + 1);
    }
  }

  // -- a file that was there first -------------------------------------------

  /** Moving a staged file into the intake: an existing file of that name is left alone. */
  function Moved(files: Files, id: nat, avid: Avid): Files {
    if id in files.staged && avid in files.folders && avid !in files.intake then
      files.(staged := files.staged - {id}, intake := files.intake[avid := files.staged[id]])
    else
      files
  }

  /** The swap's last two file operations, the move into the intake and the clearing of the
      staging folder, keep a title exactly if no foreign file was in the way. */
  lemma SwapKeepsUnlessInTheWay(files: Files, id: nat, avid: Avid, faithful: Faithful)
    requires StagedWhole(files, id, avid, faithful) && avid in files.folders
    ensures var after := Moved(files, id, avid);
      Landed(after.(staged := after.staged - {id}), avid, faithful)
      <==> avid !in files.intake || IntakeWhole(files, avid, faithful) || avid in files.library
  {
    var after := Moved(files, id, avid);
    if avid !in files.intake {
      assert after.intake[avid] == files.staged[id];
    }
  }
}
