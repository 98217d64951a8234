/**
 The crash-safe move of one local file, `FillActorService` without CloudDrive.

 Everything the mover does not control is an `Environment`: which filesystem calls fail and whether
 they acted all the same, what other programs do to the tree, which path checks and root checks
 pass. A contract without a premise on the environment holds for all of them.

 `trace` is the durable state after each of the mover's own writes. The process can die between any
 two of them, so a restart finds one of its entries.
 */
module LocalMove {
  import opened Options
  import opened Filesystem
  import opened Records

  datatype Errno = EEXIST | ENOENT | EXDEV | EPERM | EINVAL | ENOSYS | EOPNOTSUPP | EIO

  const RENAME_UNSUPPORTED := {EINVAL, ENOSYS, EOPNOTSUPP}
  const LINK_UNSUPPORTED := {EPERM, EOPNOTSUPP, ENOSYS}

  predicate Unsupported(error: Option<Errno>) {
    error.Some? && error.value in RENAME_UNSUPPORTED
  }

  /** How one filesystem call goes: an NFS server may act and still report an error. */
  datatype Fault = Works | Fails(errno: Errno) | ActsAndFails(errno: Errno) {
    function Error(): Option<Errno> { if Works? then None else Some(errno) }
  }

  datatype Call = RenamingNoReplace | Renaming | Linking | Unlinking

  datatype Check =
    | NoSourceSymlink | NoDestinationSymlink | DestinationRootPresent | PathsWithinRoots | ParentReady | RootsReady

  datatype Environment = Environment(
    /** Whether the mount takes a rename with the no-replace flag. */
    renames: bool,
    fault: (nat, Call) -> Fault,
    /** What other programs do to the tree just before instant `t`. */
    others: (nat, Files) -> Files,
    passes: (nat, Check) -> bool)
  {
    /** Whatever others do, a name stays bound to an inode that has attributes. */
    ghost predicate Sound() {
      forall t, f :: WellFormed(f) ==> WellFormed(others(t, f))
    }

    /** Nobody else touches the tree. */
    ghost predicate Calm() {
      forall t, f :: others(t, f) == f
    }

    /** Calm, a call that fails did nothing, and a name is reported as taken only when it is. Calls
        and checks may fail at any moment. */
    ghost predicate Steady() {
      Calm() && (forall t, c :: !fault(t, c).ActsAndFails? && fault(t, c) != Fails(EEXIST))
    }

    /** Steady, and nothing fails by itself. */
    ghost predicate Smooth() {
      Steady() && (forall t, c :: fault(t, c) == Works) && (forall t, c :: passes(t, c))
    }

    /** Calm, and the same at every moment: what one mount does to one mover. */
    ghost predicate Constant() {
      && Calm()
      && (forall t, c :: fault(t, c) == fault(0, c))
      && (forall t, c :: passes(t, c) == passes(0, c))
    }

    // What the mover meets in a calm environment follows from the answers at the moments it asks; `t`
    // is the moment at which the stretch of code in question begins.

    predicate Ready(t: nat) { passes(t, RootsReady) }

    /** The path checks recovery begins with pass. */
    predicate PathsFine(t: nat) {
      passes(t, NoSourceSymlink) && passes(t + 1, NoDestinationSymlink) && passes(t + 2, PathsWithinRoots)
    }

    /** The moment after the first path check that fails. */
    function PathsOver(t: nat): nat {
      if !passes(t, NoSourceSymlink) then t + 1 else if !passes(t + 1, NoDestinationSymlink) then t + 2 else t + 3
    }

    /** The checks an attempt begins with pass. */
    predicate Admits(t: nat) {
      && passes(t, NoSourceSymlink) && passes(t + 1, NoDestinationSymlink)
      && passes(t + 2, DestinationRootPresent) && passes(t + 3, PathsWithinRoots)
      && passes(t + 7, ParentReady) && passes(t + 8, NoDestinationSymlink)
    }

    /** They get as far as finding a path outside its root. */
    predicate Outside(t: nat) {
      && passes(t, NoSourceSymlink) && passes(t + 1, NoDestinationSymlink)
      && passes(t + 2, DestinationRootPresent) && !passes(t + 3, PathsWithinRoots)
    }

    /** The rename with the no-replace flag is refused as unsupported. */
    predicate Refuses(t: nat) {
      var reply := fault(t, RenamingNoReplace);
      if reply.Fails? then reply.errno in RENAME_UNSUPPORTED else !renames
    }

    /** A rename into quarantine is reported done ... */
    predicate Parks(t: nat) {
      if Refuses(t + 1) then fault(t + 2, Renaming) == Works else fault(t + 1, RenamingNoReplace) == Works
    }

    /** ... or not even done ... */
    predicate ParksNot(t: nat) {
      if Refuses(t + 1) then fault(t + 2, Renaming).Fails? else fault(t + 1, RenamingNoReplace).Fails?
    }

    /** ... and over by this moment if it is reported as failed. */
    function ParkOver(t: nat): nat
      requires !Parks(t)
    {
      if Refuses(t + 1) then (if fault(t + 2, Renaming).Fails? then t + 2 else t + 3)
      else if fault(t + 1, RenamingNoReplace).Fails? then t + 1
      else if fault(t + 1, RenamingNoReplace).errno in RENAME_UNSUPPORTED then t + 3 else t + 2
    }

    /** An attempt links the destination and then cannot let the source's name go. */
    predicate Stuck(t: nat) {
      Admits(t) && Refuses(t + 10) && fault(t + 12, Linking) == Works && !Parks(t + 16)
    }

    /** An attempt links the destination and is told it did not. */
    predicate LinkDenied(t: nat) {
      Admits(t) && Refuses(t + 10) && fault(t + 12, Linking).ActsAndFails?
    }

    /** An attempt renames the file and is told it did not. */
    predicate RenameDenied(t: nat) {
      Admits(t) && !Refuses(t + 10) && fault(t + 10, RenamingNoReplace).ActsAndFails?
    }

    /** The moment such an attempt is over: a refusal as unsupported has it try a link in vain. */
    function DeniedOver(t: nat): nat
      requires RenameDenied(t)
    {
      if fault(t + 10, RenamingNoReplace).errno in RENAME_UNSUPPORTED then t + 13 else t + 11
    }

    /** Recovery's attempt leaves the file under two names and has the journal closed. */
    predicate Abandons(t: nat) {
      || (Stuck(t) && Ready(ParkOver(t + 16)))
      || (LinkDenied(t) && Ready(t + 13))
    }

    /** Exactly when recovery from `f` closes the journal on a file it leaves under two names. */
    ghost predicate Strands(t: nat, f: Files, r: Record, state: JournalState) {
      Ready(t) && Deserts(t + 1, f, r, state)
    }

    /** The same once the roots are known to be there. */
    ghost predicate Deserts(t: nat, f: Files, r: Record, state: JournalState) {
      if !PathsFine(t) then Leftover(f, r) && Ready(PathsOver(t)) else Abandoned(t + 3, f, r, state)
    }

    /** The same once the paths are known to be right. */
    ghost predicate Abandoned(t: nat, f: Files, r: Record, state: JournalState) {
      if r.quarantine in f.names then ThreeNames(f, r) && fault(t + 9, Unlinking) == Works
      else state == JournalPrepared && AtSource(f, r) && Abandons(t + 6)
    }

    /** Exactly when recovery closes the journal on a path check alone, once the roots are known to be
        there: the checks it begins with, or the ones its attempt begins with. */
    ghost predicate Blinks(t: nat, f: Files, r: Record, state: JournalState) {
      if !PathsFine(t) then Ready(PathsOver(t)) else Overlooks(t + 3, f, r, state)
    }

    ghost predicate Overlooks(t: nat, f: Files, r: Record, state: JournalState) {
      state == JournalPrepared && AtSource(f, r) && Outside(t + 6) && Ready(t + 10)
    }

    /** Exactly when a first attempt stores a result that is not true of the tree. */
    predicate Misleads(t: nat) {
      (LinkDenied(t) && Ready(t + 13)) || (RenameDenied(t) && Ready(DeniedOver(t)))
    }
  }

  datatype Fingerprint = Fingerprint(inode: Inode, size: nat, mtime: int, ctime: int)

  datatype Record = Record(candidateId: string, source: Path, destination: Path, quarantine: Path,
                           fingerprint: Fingerprint) {
    function Paths(): set<Path> { {source, destination, quarantine} }

    predicate OwnQuarantine() { quarantine != source && quarantine != destination }

    ghost predicate Distinct() {
      source != destination && source != quarantine && destination != quarantine
    }
  }

  /** Everything that survives the process. */
  datatype Durable = Durable(files: Files, journal: map<Key, JournalState>, results: map<Key, MoveResult>)

  /** A journal closed for good has its result stored. */
  predicate Settled(d: Durable) {
    forall k | k in d.journal && d.journal[k] == JournalReconciled :: k in d.results
  }

  /** What a process may find. */
  ghost predicate InOrder(d: Durable) {
    WellFormed(d.files) && Settled(d) && Named(d.results)
  }

  /** `tale` is how `d` came about: a legal run from `start` in which each own step is confined to the
      names of one recorded move, and which kept the results found. */
  ghost predicate Recount(start: Files, kept: map<Key, MoveResult>, owners: set<set<Path>>, tale: seq<Step>,
                          d: Durable)
  {
    && InOrder(d) && ResultsKept(kept, d.results)
    && Legal(start, tale) && Reached(start, tale) == d.files
    && EachOwned(tale, owners)
  }

  ghost predicate EachOwned(tale: seq<Step>, owners: set<set<Path>>) {
    forall i {:trigger OwnedStep(tale[i], owners)} | 0 <= i < |tale| :: OwnedStep(tale[i], owners)
  }

  ghost predicate OwnedStep(step: Step, owners: set<set<Path>>) {
    step.Ours? ==> step.mine in owners
  }

  /** Each entry of `trace` has its tale, and no entry lacks a result of an earlier one. */
  ghost predicate Recounted(start: Files, kept: map<Key, MoveResult>, owners: set<set<Path>>,
                            tales: seq<seq<Step>>, trace: seq<Durable>)
  {
    && |tales| == |trace|
    && (forall i {:trigger Recount(start, kept, owners, tales[i], trace[i])} | 0 <= i < |trace| ::
          Recount(start, kept, owners, tales[i], trace[i]))
    && (forall i, j {:trigger ResultsKept(trace[i].results, trace[j].results)} | 0 <= i < j < |trace| ::
          ResultsKept(trace[i].results, trace[j].results))
  }

  /** Every result stored at a crash point is in `results`, unchanged. */
  ghost predicate AllKept(trace: seq<Durable>, results: map<Key, MoveResult>) {
    forall i {:trigger ResultsKept(trace[i].results, results)} | 0 <= i < |trace| ::
      ResultsKept(trace[i].results, results)
  }

  lemma TrailGrows(start: Files, kept: map<Key, MoveResult>, owners: set<set<Path>>,
                   tales: seq<seq<Step>>, trace: seq<Durable>, tale: seq<Step>, d: Durable)
    requires Recounted(start, kept, owners, tales, trace) && Recount(start, kept, owners, tale, d)
    requires AllKept(trace, d.results)
    ensures Recounted(start, kept, owners, tales + [tale], trace + [d]) && AllKept(trace + [d], d.results)
  {
    var tales', trace' := tales + [tale], trace + [d];
    forall i | 0 <= i < |trace'| ensures Recount(start, kept, owners, tales'[i], trace'[i]) {
      if i < |trace| { assert Recount(start, kept, owners, tales[i], trace[i]); }
    }
    forall i, j | 0 <= i < j < |trace'| ensures ResultsKept(trace'[i].results, trace'[j].results) {
      assert if j < |trace| then ResultsKept(trace[i].results, trace[j].results)
             else ResultsKept(trace[i].results, d.results);
    }
    forall i | 0 <= i < |trace'| ensures ResultsKept(trace'[i].results, d.results) {
      if i < |trace| { assert ResultsKept(trace[i].results, d.results); }
    }
  }

  lemma EachInOrder(start: Files, kept: map<Key, MoveResult>, owners: set<set<Path>>,
                    tales: seq<seq<Step>>, trace: seq<Durable>)
    requires Recounted(start, kept, owners, tales, trace)
    ensures forall d | d in trace :: InOrder(d) && ResultsKept(kept, d.results)
  {
    forall i | 0 <= i < |trace| ensures InOrder(trace[i]) && ResultsKept(kept, trace[i].results) {
      assert Recount(start, kept, owners, tales[i], trace[i]);
    }
  }

  lemma StillKept(trace: seq<Durable>, results: map<Key, MoveResult>, key: Key, result: MoveResult)
    requires AllKept(trace, results) && key !in results
    ensures AllKept(trace, results[key := result])
  {
    forall i | 0 <= i < |trace| ensures ResultsKept(trace[i].results, results[key := result]) {
      assert ResultsKept(trace[i].results, results);
    }
  }

  /** A tale goes on with one more step. */
  lemma TaleGrows(start: Files, kept: map<Key, MoveResult>, owners: set<set<Path>>, tale: seq<Step>, d: Durable,
                  step: Step)
    requires Recount(start, kept, owners, tale, d) && LegalStep(d.files, step) && OwnedStep(step, owners)
    ensures Recount(start, kept, owners, tale + [step], d.(files := AfterStep(d.files, step)))
  {
    LegalMore(start, tale, step);
    var tale' := tale + [step];
    forall i | 0 <= i < |tale'| ensures OwnedStep(tale'[i], owners) {
      if i < |tale| { assert OwnedStep(tale[i], owners); }
    }
  }

  // -- the stages of a move that goes well -----------------------------------

  function Identity(files: Files, path: Path, mark: Fingerprint): bool {
    && path in files.names && files.names[path] == mark.inode && mark.inode in files.stats
    && files.stats[mark.inode].size == mark.size && files.stats[mark.inode].mtime == mark.mtime
  }

  /** As scanned: the change time agrees too. */
  function Unchanged(files: Files, path: Path, mark: Fingerprint): bool {
    Identity(files, path, mark) && files.stats[mark.inode].ctime == mark.ctime
  }

  ghost predicate AtSource(f: Files, r: Record) {
    Unchanged(f, r.source, r.fingerprint) && r.destination !in f.names && r.quarantine !in f.names
  }

  ghost predicate AtBoth(f: Files, r: Record) {
    Identity(f, r.source, r.fingerprint) && Identity(f, r.destination, r.fingerprint) && r.quarantine !in f.names
  }

  ghost predicate Parked(f: Files, r: Record) {
    r.source !in f.names && Identity(f, r.destination, r.fingerprint) && Identity(f, r.quarantine, r.fingerprint)
  }

  ghost predicate Arrived(f: Files, r: Record) {
    r.source !in f.names && Identity(f, r.destination, r.fingerprint) && r.quarantine !in f.names
  }

  ghost predicate Midway(f: Files, r: Record) {
    AtSource(f, r) || AtBoth(f, r) || Parked(f, r) || Arrived(f, r)
  }

  /** The whole promise of a finished move. */
  ghost predicate Finished(d: Durable, key: Key, r: Record) {
    && Arrived(d.files, r)
    && key in d.journal && d.journal[key] == JournalReconciled
    && key in d.results && d.results[key] == MoveResult(r.candidateId, MOVED, None)
  }

  /** Where a crash can leave a move that would have succeeded. */
  ghost predicate Recoverable(d: Durable, key: Key, r: Record) {
    && key in d.journal
    && (key !in d.results ==>
          && Midway(d.files, r)
          && (d.journal[key] == JournalPrepared || (d.journal[key] != JournalReconciled && Arrived(d.files, r))))
    && (key in d.results ==> Arrived(d.files, r) && d.results[key] == MoveResult(r.candidateId, MOVED, None))
  }

  /** A state on the way of `key`'s move that began in `d`: a restart can finish it, and nothing of
      anybody else's has changed. */
  ghost predicate OnCourse(d: Durable, d': Durable, key: Key, r: Record) {
    Recoverable(d', key, r) && Elsewhere(d.files, d'.files, r) && OtherRows(d, d', key)
  }

  /** Nothing that belongs to another move changed: other paths, other inodes, other rows. */
  ghost predicate Elsewhere(f: Files, f': Files, r: Record) {
    && Untouched(f, f', r.Paths())
    && f.stats - {r.fingerprint.inode} == f'.stats - {r.fingerprint.inode}
  }

  ghost predicate OtherRows(d: Durable, d': Durable, key: Key) {
    SameBut(d.journal, d'.journal, key) && SameBut(d.results, d'.results, key)
  }

  ghost predicate SameBut<V>(m: map<Key, V>, m': map<Key, V>, key: Key) {
    forall k | k != key :: (k in m <==> k in m') && (k in m ==> m[k] == m'[k])
  }

  /** The catalog's promise: records are filed under their own ID, and the quarantine name is the move's own. */
  ghost predicate Catalogued(records: map<Key, Record>) {
    forall k | k in records ::
      records[k].OwnQuarantine() && records[k].candidateId == k.candidateId
  }

  /** Of these moves none shares a path or a file with another. */
  ghost predicate Apart(records: map<Key, Record>, keys: set<Key>) {
    && (forall k | k in keys && k in records :: records[k].Distinct())
    && (forall k, k' | k in keys && k in records && k' in keys && k' in records && k != k' ::
          records[k].Paths() !! records[k'].Paths() && records[k].fingerprint.inode != records[k'].fingerprint.inode)
  }

  /** The three names of each recorded move. */
  function Owners(records: map<Key, Record>): set<set<Path>> {
    set k | k in records :: records[k].Paths()
  }

  /** The moves in `begun`, among them all with an open journal, can be finished from here and do not
      get in each other's way. Nothing is said of moves that have not begun, and of those closed
      earlier only if `begun` lists them. */
  ghost predicate Pending(d: Durable, records: map<Key, Record>, begun: set<Key>) {
    && begun <= d.journal.Keys && begun <= records.Keys && Apart(records, begun)
    && (forall k | k in begun :: Recoverable(d, k, records[k]))
    && (forall k | k in records && k in d.journal && d.journal[k] != JournalReconciled :: k in begun)
  }

  ghost predicate ResultsKept(before: map<Key, MoveResult>, after: map<Key, MoveResult>) {
    forall k | k in before :: k in after && after[k] == before[k]
  }

  lemma PendingKept(d: Durable, d': Durable, key: Key, records: map<Key, Record>, begun: set<Key>)
    requires key in records && Pending(d, records, begun) && OnCourse(d, d', key, records[key])
    requires Apart(records, begun + {key})
    ensures Pending(d', records, begun + {key})
  {
    forall k | k in begun && k != key ensures Recoverable(d', k, records[k]) {
      RecoverableElsewhere(d, d', k, records[k], records[key]);
    }
  }

  /** The journals still open are among the listed ones. */
  predicate OnlyListed(journal: map<Key, JournalState>, listing: seq<Key>) {
    && (forall k | k in listing :: k in journal)
    && forall k | k in journal && k !in listing :: journal[k] == JournalReconciled
  }

  /** The first `n` listed journals are closed, those of dropped candidates aside. */
  predicate ListedClosed(journal: map<Key, JournalState>, listing: seq<Key>, n: nat, records: map<Key, Record>)
    requires n <= |listing|
  {
    forall j | 0 <= j < n && listing[j] in records ::
      listing[j] in journal && journal[listing[j]] == JournalReconciled
  }

  lemma StillListed(before: map<Key, JournalState>, after: map<Key, JournalState>, listing: seq<Key>, next: nat)
    requires OnlyListed(before, listing) && next < |listing|
    requires SameBut(before, after, listing[next]) && after.Keys == before.Keys
    ensures OnlyListed(after, listing)
  {
  }

  lemma OneMoreClosed(before: map<Key, JournalState>, after: map<Key, JournalState>, listing: seq<Key>, next: nat,
                      records: map<Key, Record>)
    requires next < |listing| && ListedClosed(before, listing, next, records)
    requires SameBut(before, after, listing[next]) && listing[next] in after
    requires listing[next] in records ==> after[listing[next]] == JournalReconciled
    ensures ListedClosed(after, listing, next + 1, records)
  {
  }

  lemma ClosedIsFinished(d: Durable, records: map<Key, Record>, begun: set<Key>)
    requires Pending(d, records, begun) && Settled(d)
    requires forall k | k in begun :: d.journal[k] == JournalReconciled
    ensures forall k | k in begun :: Finished(d, k, records[k])
  {
  }

  /** The crash points of one candidate's move are crash points of all of them. */
  lemma CoursePending(d: Durable, d': Durable, trail: seq<Durable>, first: nat, key: Key, records: map<Key, Record>,
                      begun: set<Key>)
    requires key in records && Pending(d, records, begun) && OnCourse(d, d', key, records[key])
    requires Apart(records, begun + {key})
    requires forall i | first <= i < |trail| :: OnCourse(d, trail[i], key, records[key])
    ensures Pending(d', records, begun + {key})
    ensures forall i | first <= i < |trail| :: Pending(trail[i], records, begun + {key})
  {
    PendingKept(d, d', key, records, begun);
    forall i | first <= i < |trail| ensures Pending(trail[i], records, begun + {key}) {
      PendingKept(d, trail[i], key, records, begun);
    }
  }

  lemma RecoverableElsewhere(d: Durable, d': Durable, k: Key, r: Record, mover: Record)
    requires Elsewhere(d.files, d'.files, mover) && r.Paths() !! mover.Paths()
    requires r.fingerprint.inode != mover.fingerprint.inode
    requires (k in d.journal <==> k in d'.journal) && (k in d.results <==> k in d'.results)
    requires k in d.journal ==> d.journal[k] == d'.journal[k]
    requires k in d.results ==> d.results[k] == d'.results[k]
    ensures k in d.journal && Recoverable(d, k, r) ==> Recoverable(d', k, r)
  {
    forall p | p in r.Paths() ensures SameName(d.files, d'.files, p) {
      assert p in d.files.names - mover.Paths() <==> p in d.files.names;
      assert p in d'.files.names - mover.Paths() <==> p in d'.files.names;
    }
    var inode := r.fingerprint.inode;
    assert inode in d.files.stats - {mover.fingerprint.inode} <==> inode in d.files.stats;
    assert inode in d'.files.stats - {mover.fingerprint.inode} <==> inode in d'.files.stats;
    assert r.source in r.Paths() && r.destination in r.Paths() && r.quarantine in r.Paths();
  }

  /** The codes that begin with `reconcile_quarantine_`; no journal is closed with one. */
  predicate InQuarantine(result: MoveResult) {
    && result.error.Some?
    && (result.error.value == ReconcileQuarantineFailed || result.error.value == ReconcileQuarantineConflict
        || result.error.value == ReconcileQuarantineCleanupFailed)
  }

  /** An attempt that stopped halfway: `_run_move` leaves its journal open. */
  predicate Halfway(result: MoveResult) {
    result.error == Some(MoveRollbackFailed) || InQuarantine(result)
  }

  /** `_reconcile_candidate` closes the journal with this result; note that MoveRollbackFailed,
      which `_run_move` keeps open, is among those it closes with. */
  predicate Closes(result: MoveResult) {
    && !InQuarantine(result)
    && result.error != Some(ReconcileRollbackConflict) && result.error != Some(ReconcileRollbackFailed)
  }

  /** A code that says what was seen is true of the tree. */
  ghost predicate Grounds(f: Files, r: Record, result: MoveResult) {
    && (result.error == Some(SourceMissing) ==> r.source !in f.names)
    && (result.error == Some(SourceChanged) ==> r.source in f.names && !Unchanged(f, r.source, r.fingerprint))
    && (result.error == Some(DestinationExists) ==> r.destination in f.names)
  }

  /** A code that says nothing of what was seen. */
  predicate Groundless(result: MoveResult) {
    && result.error != Some(SourceMissing) && result.error != Some(SourceChanged)
    && result.error != Some(DestinationExists)
  }

  /** What the result of one attempt says about the tree before (`f`) and after (`f'`) it. */
  ghost predicate AttemptTold(f: Files, f': Files, r: Record, result: MoveResult) {
    && (result.state == MOVED ==>
          && result.error == None && Unchanged(f, r.source, r.fingerprint) && r.destination !in f.names
          && r.source !in f'.names && Identity(f', r.destination, r.fingerprint)
          && (r.quarantine in f.names <==> r.quarantine in f'.names))
    && (result.state != MOVED ==> result.error.Some?)
    && (result.state != MOVED && !Halfway(result) ==> f' == f)
    && Grounds(f, r, result)
    && (result.error == Some(MoveRollbackFailed) ==> r.quarantine in f.names || HalfLinked(f', r))
  }

  /** The file is under both its names: the move has begun and not ended. */
  ghost predicate HalfLinked(f: Files, r: Record) {
    Identity(f, r.source, r.fingerprint) && Identity(f, r.destination, r.fingerprint)
  }

  /** What a finished move must not leave behind. */
  ghost predicate Leftover(f: Files, r: Record) {
    HalfLinked(f, r) || r.quarantine in f.names
  }

  /** The journal is closed for good and the tree is not in order. */
  ghost predicate Stranded(d: Durable, key: Key, r: Record) {
    key in d.journal && d.journal[key] == JournalReconciled && Leftover(d.files, r)
  }

  /** Recovery closed the journal on a path check alone. */
  predicate ClosedUnlooked(d: Durable, key: Key) {
    key in d.journal && d.journal[key] == JournalReconciled && key in d.results && Unlooked(d.results[key])
  }

  predicate Unlooked(result: MoveResult) {
    result.error == Some(ReconcileSymlink) || result.error == Some(PathOutsideRoot)
  }

  /** A first attempt stopped between two names, the journal open for recovery. */
  ghost predicate OpenHalfway(d: Durable, key: Key, r: Record) {
    && key in d.journal && d.journal[key] == JournalPrepared && key !in d.results
    && (AtBoth(d.files, r) || Parked(d.files, r))
  }

  /** A stored result is true of what became of the tree. */
  ghost predicate Tells(f: Files, f': Files, r: Record, result: MoveResult) {
    if result.state == MOVED then r.source !in f'.names && Identity(f', r.destination, r.fingerprint) else f' == f
  }

  /** A code that lets the journal be closed and is about a move that did not happen. */
  predicate Plain(r: Record, result: MoveResult) {
    Refused(r, result) && !Unlooked(result)
  }

  /** The rename is done and reported as unsupported all the same. */
  predicate LateRefusal(reply: Fault) {
    reply.ActsAndFails? && reply.errno in RENAME_UNSUPPORTED
  }

  /** How an attempt on an untouched source that begins at `t` ends in a calm environment by `later`. */
  ghost predicate AttemptEnds(env: Environment, t: nat, f: Files, f': Files, later: nat, r: Record,
                              result: MoveResult)
  {
    if env.Admits(t) then RenameEnds(env, t + 9, f, f', later, r, result)
    else
      && Refused(r, result) && f' == f
      && (Unlooked(result) <==> env.Outside(t)) && (env.Outside(t) ==> later == t + 4)
  }

  ghost predicate RenameEnds(env: Environment, t: nat, f: Files, f': Files, later: nat, r: Record, result: MoveResult) {
    if env.Refuses(t + 1) then LinkEnds(env, t + 1, f, f', later, r, result)
    else
      match env.fault(t + 1, RenamingNoReplace)
      case Works => result == MoveResult(r.candidateId, MOVED, None) && Arrived(f', r)
      case Fails(_) => Plain(r, result) && f' == f
      case ActsAndFails(errno) =>
        && Plain(r, result) && Arrived(f', r)
        && later == if errno in RENAME_UNSUPPORTED then t + 4 else t + 2
  }

  ghost predicate LinkEnds(env: Environment, t: nat, f: Files, f': Files, later: nat, r: Record, result: MoveResult) {
    match env.fault(t + 2, Linking)
    case Works => BothEnds(env, t + 6, f', later, r, result, MoveRollbackFailed)
    case Fails(_) => Plain(r, result) && f' == f
    case ActsAndFails(_) => Plain(r, result) && AtBoth(f', r) && later == t + 3
  }

  /** How a first attempt on an untouched source that begins at `t` leaves the rows in a calm environment. */
  ghost predicate FirstEnds(env: Environment, t: nat, f: Files, d: Durable, key: Key, r: Record) {
    && (env.Stuck(t) ==> OpenHalfway(d, key, r) && (env.ParksNot(t + 16) ==> AtBoth(d.files, r)))
    && (Stranded(d, key, r) <==> env.LinkDenied(t) && env.Ready(t + 13))
    && (Misled(f, d, key) <==> env.Misleads(t))
    && (key in d.results ==> key in d.journal && d.journal[key] == JournalReconciled)
    && (key in d.results && d.results[key].state == MOVED ==> Arrived(d.files, r))
  }

  /** What is stored says that nothing happened, and something did. */
  ghost predicate Misled(f: Files, d: Durable, key: Key) {
    key in d.results && d.results[key].state != MOVED && d.files != f
  }

  /** The result is stored and the journal closed. */
  function Closed(d: Durable, key: Key, result: MoveResult): Durable {
    Durable(d.files, d.journal[key := JournalReconciled], d.results[key := result])
  }

  lemma AttemptConcluded(env: Environment, t: nat, f: Files, left: Durable, d: Durable, later: nat, key: Key, r: Record,
                         result: MoveResult)
    requires AtSource(f, r) && r.Distinct() && AttemptEnds(env, t, f, left.files, later, r, result)
    requires key !in left.results && key in left.journal && left.journal[key] == JournalPrepared
    requires var stored := !Halfway(result) && (result.state == MOVED || env.Ready(later));
             d == if stored then Closed(left, key, result) else left
    ensures FirstEnds(env, t, f, d, key, r)
  {
  }

  /** This result will close the journal, roots permitting, on a tree that is not in order. */
  ghost predicate Deserted(env: Environment, f': Files, later: nat, r: Record, result: MoveResult) {
    Closes(result) && Leftover(f', r) && (result.state == MOVED || env.Ready(later))
  }

  /** How recovery ends in a calm environment, from the first path check on ... */
  ghost predicate FilesystemEnds(env: Environment, t: nat, f: Files, f': Files, later: nat, r: Record,
                                 state: JournalState, result: MoveResult)
  {
    && (Deserted(env, f', later, r, result) <==> env.Deserts(t, f, r, state))
    && (Unlooked(result) && env.Ready(later) <==> env.Blinks(t, f, r, state))
    && (Unlooked(result) ==> f' == f && result.state != MOVED)
    && (env.PathsFine(t) && env.ParksNot(t + 10) && AtBoth(f, r) ==> f' == f && !Closes(result))
  }

  /** ... from the first look at the tree on ... */
  ghost predicate NamesEnds(env: Environment, t: nat, f: Files, f': Files, later: nat, r: Record, state: JournalState,
                            result: MoveResult)
  {
    if r.quarantine in f.names then QuarantineEnds(env, t + 6, f, f', later, r, result)
    else PlainEnds(env, t + 6, f, f', later, r, state, result)
  }

  /** ... and from there on where nothing is quarantined. */
  ghost predicate PlainEnds(env: Environment, t: nat, f: Files, f': Files, later: nat, r: Record, state: JournalState,
                            result: MoveResult)
  {
    var untouched := state == JournalPrepared && AtSource(f, r);
    && (Deserted(env, f', later, r, result) <==> untouched && env.Abandons(t))
    && (Unlooked(result) && env.Ready(later) <==> untouched && env.Outside(t) && env.Ready(t + 4))
    && (Unlooked(result) ==> f' == f && result.state != MOVED)
    && (env.ParksNot(t + 1) && AtBoth(f, r) ==> f' == f && !Closes(result))
  }

  /** An attempt of recovery's. */
  lemma AttemptIsPlain(env: Environment, t: nat, f: Files, f': Files, later: nat, r: Record, result: MoveResult)
    requires AtSource(f, r) && r.Distinct() && AttemptEnds(env, t, f, f', later, r, result)
    ensures PlainEnds(env, t, f, f', later, r, JournalPrepared, result)
  {
  }

  /** Recovery of a file under both names. */
  lemma BothIsPlain(env: Environment, t: nat, f: Files, f': Files, later: nat, r: Record, state: JournalState,
                    result: MoveResult)
    requires AtBoth(f, r) && BothEnds(env, t + 1, f', later, r, result, ReconcileQuarantineFailed)
    requires env.ParksNot(t + 1) ==> f' == f
    ensures PlainEnds(env, t, f, f', later, r, state, result)
  {
  }

  /** The same where the quarantined name is there. */
  ghost predicate QuarantineEnds(env: Environment, t: nat, f: Files, f': Files, later: nat, r: Record,
                                 result: MoveResult)
  {
    && (Deserted(env, f', later, r, result) <==> ThreeNames(f, r) && env.fault(t + 3, Unlinking) == Works)
    && !Unlooked(result)
  }

  lemma QuarantineIsTold(env: Environment, t: nat, f: Files, f': Files, later: nat, r: Record, result: MoveResult)
    requires QuarantineTold(f', r, result, false)
    requires result.state != FAILED ==> (Leftover(f', r) <==> ThreeNames(f, r))
    requires ThreeNames(f, r) ==> (result.state == MOVED <==> env.fault(t + 3, Unlinking) == Works)
    ensures QuarantineEnds(env, t, f, f', later, r, result)
  {
  }

  lemma NamesEndFilesystem(env: Environment, t: nat, f: Files, f': Files, later: nat, r: Record, state: JournalState,
                           result: MoveResult)
    requires env.PathsFine(t) && NamesEnds(env, t + 3, f, f', later, r, state, result)
    ensures FilesystemEnds(env, t, f, f', later, r, state, result)
  {
  }

  lemma PathsEndFilesystem(env: Environment, t: nat, f: Files, r: Record, state: JournalState, result: MoveResult)
    requires !env.PathsFine(t) && Unlooked(result) && result.state != MOVED
    ensures FilesystemEnds(env, t, f, f, env.PathsOver(t), r, state, result)
  {
  }

  /** How recovery leaves the rows. */
  ghost predicate RecoveryEnds(env: Environment, t: nat, f: Files, d: Durable, key: Key, r: Record,
                               state: JournalState)
  {
    && (Stranded(d, key, r) <==> env.Deserts(t, f, r, state))
    && (ClosedUnlooked(d, key) <==> env.Blinks(t, f, r, state))
    && (ClosedUnlooked(d, key) ==> d.files == f)
  }

  lemma RecoveryConcluded(env: Environment, t: nat, f: Files, left: Durable, d: Durable, later: nat, key: Key,
                          r: Record, result: MoveResult)
    requires key !in left.results && key in left.journal && left.journal[key] != JournalReconciled
    requires FilesystemEnds(env, t, f, left.files, later, r, left.journal[key], result)
    requires var stored := Closes(result) && (result.state == MOVED || env.Ready(later));
             d == if stored then Closed(left, key, result) else left
    ensures RecoveryEnds(env, t, f, d, key, r, left.journal[key])
  {
  }

  /** How letting the source's name go ends in a calm environment when both names are there. */
  ghost predicate BothEnds(env: Environment, t: nat, f': Files, later: nat, r: Record, result: MoveResult,
                           failure: ErrorCode)
  {
    if env.Parks(t) then (result == MoveResult(r.candidateId, MOVED, None) && Arrived(f', r)) || InQuarantine(result)
    else
      && result == MoveResult(r.candidateId, FAILED, Some(failure)) && later == env.ParkOver(t)
      && (if env.ParksNot(t) then AtBoth(f', r) else Parked(f', r))
  }

  /** What the result of finishing a quarantined move says about the tree after it; `honest` if a
      call that fails did nothing. */
  ghost predicate QuarantineTold(f': Files, r: Record, result: MoveResult, honest: bool) {
    match result.state
    case MOVED => result.error == None && r.quarantine !in f'.names && Identity(f', r.destination, r.fingerprint)
    case STALE =>
      && result.error == Some(SourceChangedDuringReconcile)
      && r.quarantine !in f'.names
      && Identity(f', r.source, r.fingerprint) && !Identity(f', r.destination, r.fingerprint)
    case FAILED =>
      && (result.error == Some(ReconcileQuarantineConflict) || result.error == Some(ReconcileQuarantineCleanupFailed))
      && (honest ==> r.quarantine in f'.names)
    case _ => false
  }

  /** What the result of undoing a rename that took another file says about the tree. */
  ghost predicate UndoTold(f: Files, f': Files, r: Record, result: MoveResult, honest: bool) {
    if result.state == STALE then
      && result.error == Some(SourceChangedDuringMove)
      && r.destination !in f'.names && (r.quarantine in f.names <==> r.quarantine in f'.names)
    else
      && result.state == FAILED
      && (result.error == Some(ReconcileRollbackConflict) || result.error == Some(ReconcileRollbackFailed))
      && (honest ==> f' == f)
  }

  /** How putting a quarantined name back can end; `honest` if a call that fails did nothing. */
  ghost predicate Restored(f: Files, f': Files, destination: Path, r: Record, error: Option<Errno>, honest: bool)
    requires r.quarantine in f.names
  {
    var other := if destination == r.source then r.destination else r.source;
    && (error == None ==>
          && r.quarantine !in f'.names && destination in f'.names
          && f'.names[destination] == f.names[r.quarantine])
    && (error != None && honest ==> r.quarantine in f'.names && f'.names[r.quarantine] == f.names[r.quarantine])
    && (other != destination && other != r.quarantine ==> SameName(f, f', other))
    && SameContents(f, f')
  }

  /** The names are those `deed` leaves, and contents are as they were. */
  ghost predicate Renamed(f: Files, f': Files, deed: Deed)
    requires WellFormed(f)
  {
    Allowed(f, deed) && f'.names == Perform(f, deed, 0).names && SameContents(f, f')
  }

  /** How a name's rename into quarantine that begins at `t` ends in a calm environment by `later`. */
  ghost predicate ParkEnds(env: Environment, t: nat, f: Files, f': Files, later: nat, from: Path, r: Record,
                           error: Option<Errno>)
    requires WellFormed(f)
  {
    && (error == None <==> env.Parks(t)) && (error != None ==> later == env.ParkOver(t))
    && (if env.ParksNot(t) then f' == f else Renamed(f, f', Moved(from, r.quarantine)))
  }

  /** One name is as it was. */
  predicate SameName(f: Files, f': Files, path: Path) {
    (path in f.names <==> path in f'.names) && (path in f.names ==> f'.names[path] == f.names[path])
  }

  /** The file is under both its names and in quarantine as well. */
  ghost predicate ThreeNames(f: Files, r: Record) {
    HalfLinked(f, r) && Identity(f, r.quarantine, r.fingerprint)
  }

  /** An attempt was refused before it touched anything. */
  predicate Refused(r: Record, result: MoveResult) {
    && result.candidateId == r.candidateId && result.state != MOVED && result.error.Some?
    && !Halfway(result) && Closes(result)
  }

  /** What the result of undoing a link that caught another file, `caught`, says about the tree. */
  ghost predicate RollbackTold(f: Files, f': Files, caught: Inode, r: Record, result: MoveResult) {
    && SameContents(f, f') && SameName(f, f', r.source)
    && match result.state
       case STALE =>
         && result.error == Some(SourceChangedDuringMove) && r.quarantine !in f'.names && r.destination !in f'.names
         && r.source in f'.names && f'.names[r.source] == caught
       case CONFLICT =>
         && result.error == Some(DestinationChangedDuringMove) && r.quarantine !in f'.names
         && r.destination in f'.names && f'.names[r.destination] == caught
       case FAILED =>
         && result.error == Some(MoveRollbackFailed)
         && (f' == f || (r.quarantine in f'.names && f'.names[r.quarantine] == caught))
       case _ => false
  }

  /** How letting the source's name go can end when both names are there. */
  ghost predicate BothTold(f': Files, r: Record, result: MoveResult, failure: ErrorCode) {
    || (result == MoveResult(r.candidateId, MOVED, None) && Arrived(f', r))
    || (result == MoveResult(r.candidateId, FAILED, Some(failure)) && AtBoth(f', r))
    || (result == MoveResult(r.candidateId, FAILED, Some(ReconcileQuarantineCleanupFailed)) && Parked(f', r))
  }

  /** What the result of reconciling says about the tree after it: a result the journal is closed
      with leaves neither a quarantined name nor a file under both its names, but for the three
      codes with which the journal is closed all the same; `Environment.Strands` says when. */
  ghost predicate ReconcileTold(f': Files, r: Record, result: MoveResult) {
    && (result.state == MOVED ==>
          result.error == None && r.quarantine !in f'.names && Identity(f', r.destination, r.fingerprint))
    && (result.state != MOVED ==> result.error.Some?)
    && (Closes(result) && result.state != MOVED && result.error != Some(MoveRollbackFailed) && !Unlooked(result) ==>
          r.quarantine !in f'.names && !HalfLinked(f', r))
    && (result.error == Some(MoveRollbackFailed) ==> HalfLinked(f', r))
  }

  datatype Sight = Sight(sourceMatches: bool, sourceMatchesLinked: bool, destinationMatches: bool,
                         sourceExists: bool, destinationExists: bool, quarantined: bool)

  ghost function SightOf(f: Files, r: Record): Sight {
    Sight(Unchanged(f, r.source, r.fingerprint), Identity(f, r.source, r.fingerprint),
          Identity(f, r.destination, r.fingerprint),
          r.source in f.names, r.destination in f.names, r.quarantine in f.names)
  }

  datatype Outcome = Returned(result: MoveResult) | Raised {
    predicate About(r: Record) { Returned? ==> result.candidateId == r.candidateId }
  }

  class Mover {
    const env: Environment
    var tree: Files
    var journal: map<Key, JournalState>
    var results: map<Key, MoveResult>
    /** Instants pass with every look at the tree and every change. */
    var now: nat
    var trace: seq<Durable>
    /** What happened to the tree since the process started, others' changes included ... */
    ghost var story: seq<Step>
    /** ... and what had happened by each of the writes in `trace`. */
    ghost var tales: seq<seq<Step>>
    /** What the process found, and the names each recorded move may touch. */
    ghost const start: Files
    ghost const kept: map<Key, MoveResult>
    ghost const owners: set<set<Path>>

    function State(): Durable
      reads this
    {
      Durable(tree, journal, results)
    }

    ghost predicate Valid()
      reads this
    {
      && env.Sound()
      && Recount(start, kept, owners, story, State())
      && Recounted(start, kept, owners, tales, trace)
      && AllKept(trace, results)
    }

    /** Rows as they were. */
    twostate predicate RowsKept()
      reads this
    {
      journal == old(journal) && results == old(results)
    }

    /** The logs only grow, and the mover's own new steps are confined to `mine`. */
    twostate predicate LogsGrow(mine: set<Path>)
      reads this
    {
      && old(story) <= story && old(trace) <= trace
      && forall i | |old(story)| <= i < |story| && story[i].Ours? :: story[i].mine <= mine
    }

    /** The tree is what others made of it; nobody made anything of it in a calm environment. */
    twostate predicate OthersActed()
      reads this
    {
      tree == env.others(old(now), old(tree)) && (env.Calm() ==> tree == old(tree)) && now == old(now) + 1
    }

    /** Nothing happened. */
    twostate predicate Idle()
      reads this
    {
      tree == old(tree) && trace == old(trace)
    }

    /** Exactly this happened. */
    twostate predicate Did(deed: Deed)
      requires WellFormed(old(tree))
      reads this
    {
      Allowed(old(tree), deed) && tree == Perform(old(tree), deed, now - 1) && trace == old(trace) + [State()]
    }

    /** How a filesystem call ended in a calm environment: done if it says so, and if it does not,
        nothing happened in a steady one. */
    twostate predicate DoneOrNot(deed: Deed, new error: Option<Errno>)
      requires WellFormed(old(tree))
      reads this
    {
      if error == None then Did(deed)
      else Idle() || (!env.Steady() && Renamed(old(tree), tree, deed))
    }

    /** The move of `r` is through, crash points included. */
    twostate predicate Delivered(r: Record)
      reads this
    {
      Arrived(tree, r) && Elsewhere(old(tree), tree, r) && OnTheWay(|old(trace)|, old(tree), r)
    }

    /** A process starts, for the first time or after a crash, on what it finds. */
    constructor (env: Environment, found: Durable, ghost owners: set<set<Path>>)
      requires env.Sound() && InOrder(found)
      ensures Valid() && this.env == env && State() == found && trace == [] && story == []
      ensures start == found.files && kept == found.results && this.owners == owners && now == 0
    {
      this.env := env;
      tree := found.files;
      journal, results := found.journal, found.results;
      now, trace := 0, [];
      story, tales := [], [];
      start, kept, this.owners := found.files, found.results, owners;
    }

    /** A filesystem call at moment `at` ended as the environment would have it. */
    twostate predicate Answered(at: nat, call: Call, deed: Deed, new error: Option<Errno>)
      requires WellFormed(old(tree))
      reads this
    {
      var reply := env.fault(at, call);
      && error == reply.Error()
      && if reply.Fails? then Idle() && now == at else Did(deed) && now == at + 1
    }

    // -- filesystem calls ----------------------------------------------------

    /** Other programs get their turn. */
    method Others()
      requires Valid()
      modifies `tree, `now, `story
      ensures Valid() && LogsGrow({}) && OthersActed()
    {
      var after := env.others(now, tree);
      TaleGrows(start, kept, owners, story, State(), Theirs(after));
      story := story + [Theirs(after)];
      tree, now := after, now + 1;
    }

    method Exists(path: Path) returns (there: bool)
      requires Valid()
      modifies `tree, `now, `story
      ensures Valid() && LogsGrow({}) && OthersActed()
      ensures there == (path in tree.names)
    {
      Others();
      there := path in tree.names;
    }

    /** `_matches_linked_fingerprint_if_present`: a hard link keeps all but the change time. */
    method MatchesLinked(path: Path, mark: Fingerprint) returns (same: bool)
      requires Valid()
      modifies `tree, `now, `story
      ensures Valid() && LogsGrow({}) && OthersActed()
      ensures same == Identity(tree, path, mark)
    {
      Others();
      same := Identity(tree, path, mark);
    }

    method MatchesFully(path: Path, mark: Fingerprint) returns (same: bool)
      requires Valid()
      modifies `tree, `now, `story
      ensures Valid() && LogsGrow({}) && OthersActed()
      ensures same == Unchanged(tree, path, mark)
    {
      Others();
      same := Unchanged(tree, path, mark);
    }

    method SameInode(first: Path, second: Path) returns (same: bool)
      requires Valid()
      modifies `tree, `now, `story
      ensures Valid() && LogsGrow({}) && OthersActed()
      ensures same == (first in tree.names && second in tree.names && tree.names[first] == tree.names[second])
    {
      Others();
      same := first in tree.names && second in tree.names && tree.names[first] == tree.names[second];
    }

    /** Carry out an allowed deed; the tree after it is a crash point. */
    method Do(deed: Deed, r: Record)
      requires Valid() && Allowed(tree, deed) && PathsOf(deed) <= r.Paths() && r.Paths() in owners
      modifies `tree, `now, `story, `trace, `tales
      ensures Valid()
      ensures tree == Perform(old(tree), deed, old(now)) && now == old(now) + 1
      ensures story == old(story) + [Ours(deed, old(now), r.Paths())]
      ensures trace == old(trace) + [State()] && Renamed(old(tree), tree, deed)
    {
      var after := Perform(tree, deed, now);
      PerformedIsRenamed(tree, deed, now);
      TaleGrows(start, kept, owners, story, State(), Ours(deed, now, r.Paths()));
      story := story + [Ours(deed, now, r.Paths())];
      tree, now := after, now + 1;
      TrailGrows(start, kept, owners, tales, trace, story, State());
      trace, tales := trace + [State()], tales + [story];
    }

    /** `renameat2` with the no-replace flag: the kernel checks and renames in one step. */
    method RenameNoReplace(from: Path, to: Path, r: Record) returns (error: Option<Errno>)
      requires Valid() && {from, to} <= r.Paths() && r.Paths() in owners
      modifies `tree, `now, `story, `trace, `tales
      ensures Valid() && LogsGrow(r.Paths())
      ensures env.Calm() ==> DoneOrNot(Moved(from, to), error)
      ensures env.Steady() && error == Some(EEXIST) ==> to in old(tree.names)
      ensures env.Smooth() && !env.renames ==> error == Some(EINVAL)
      ensures env.Smooth() && env.renames && from in old(tree.names) && to !in old(tree.names) ==> error == None
      ensures env.Calm() && env.Refuses(old(now) + 1) ==> Unsupported(error) && Idle() && now == old(now) + 1
      ensures env.Calm() && !env.Refuses(old(now) + 1) && from in old(tree.names) && to !in old(tree.names) ==>
                Answered(old(now) + 1, RenamingNoReplace, Moved(from, to), error)
    {
      Others();
      var fault := env.fault(now, RenamingNoReplace);
      if fault.Fails? { return Some(fault.errno); }
      if !env.renames { return Some(EINVAL); }
      if from !in tree.names { return Some(ENOENT); }
      if to in tree.names { return Some(EEXIST); }
      Do(Moved(from, to), r);
      return if fault.ActsAndFails? then Some(fault.errno) else None;
    }

    /** A plain rename, which would replace its target: callers have just seen that there is none. */
    method Rename(from: Path, to: Path, r: Record) returns (error: Option<Errno>)
      requires Valid() && {from, to} <= r.Paths() && to !in tree.names && r.Paths() in owners
      modifies `tree, `now, `story, `trace, `tales
      ensures Valid() && LogsGrow(r.Paths())
      ensures env.Calm() ==> DoneOrNot(Moved(from, to), error)
      ensures env.Smooth() && from in old(tree.names) ==> error == None
      ensures env.Calm() && from in old(tree.names) ==> Answered(old(now), Renaming, Moved(from, to), error)
    {
      var fault := env.fault(now, Renaming);
      if fault.Fails? { return Some(fault.errno); }
      if from !in tree.names { return Some(ENOENT); }
      Do(Moved(from, to), r);
      return if fault.ActsAndFails? then Some(fault.errno) else None;
    }

    method Link(from: Path, to: Path, r: Record) returns (error: Option<Errno>)
      requires Valid() && {from, to} <= r.Paths() && r.Paths() in owners
      modifies `tree, `now, `story, `trace, `tales
      ensures Valid() && LogsGrow(r.Paths())
      ensures env.Calm() ==> DoneOrNot(Linked(from, to), error)
      ensures env.Steady() && error == Some(EEXIST) ==> to in old(tree.names)
      ensures env.Smooth() && from in old(tree.names) && to !in old(tree.names) ==> error == None
      ensures env.Calm() && from in old(tree.names) && to !in old(tree.names) ==>
                Answered(old(now) + 1, Linking, Linked(from, to), error)
      ensures env.Calm() && from !in old(tree.names) ==> now == old(now) + 1
    {
      Others();
      var fault := env.fault(now, Linking);
      if fault.Fails? { return Some(fault.errno); }
      if from !in tree.names { return Some(ENOENT); }
      if to in tree.names { return Some(EEXIST); }
      Do(Linked(from, to), r);
      return if fault.ActsAndFails? then Some(fault.errno) else None;
    }

    /** Callers have just seen the inode under another name. */
    method Unlink(path: Path, r: Record) returns (error: Option<Errno>)
      requires Valid() && path in r.Paths() && path in tree.names && NamedElsewhere(tree, path)
      requires r.Paths() in owners
      modifies `tree, `now, `story, `trace, `tales
      ensures Valid() && LogsGrow(r.Paths())
      ensures env.Calm() ==> DoneOrNot(Unlinked(path), error)
      ensures env.Smooth() ==> error == None
      ensures env.Calm() ==> Answered(old(now), Unlinking, Unlinked(path), error)
    {
      var fault := env.fault(now, Unlinking);
      if fault.Fails? { return Some(fault.errno); }
      Do(Unlinked(path), r);
      return if fault.ActsAndFails? then Some(fault.errno) else None;
    }

    /** Every crash point from `first` on lies on the way of `r`'s move and leaves the rest alone. */
    ghost predicate OnTheWay(first: nat, start: Files, r: Record)
      reads this
    {
      forall i | first <= i < |trace| ::
        && Midway(trace[i].files, r) && Elsewhere(start, trace[i].files, r)
        && trace[i].journal == journal && trace[i].results == results
    }

    // -- quarantine ----------------------------------------------------------

    method MoveToQuarantine(from: Path, r: Record) returns (error: Option<Errno>)
      requires Valid() && (from == r.source || from == r.destination) && r.Paths() in owners
      modifies `tree, `now, `story, `trace, `tales
      ensures Valid() && LogsGrow(r.Paths())
      ensures env.Calm() ==> DoneOrNot(Moved(from, r.quarantine), error)
      ensures env.Smooth() && from in old(tree.names) && r.quarantine !in old(tree.names) ==> error == None
      ensures env.Calm() && from in old(tree.names) && r.quarantine !in old(tree.names) ==>
                ParkEnds(env, old(now), old(tree), tree, now, from, r, error)
    {
      error := RenameNoReplace(from, r.quarantine, r);
      if !Unsupported(error) { return; }
      error := MoveToFree(from, r);
    }

    /** Where the mount does not take the flag: a look, and a plain rename. */
    method MoveToFree(from: Path, r: Record) returns (error: Option<Errno>)
      requires Valid() && (from == r.source || from == r.destination) && r.Paths() in owners
      modifies `tree, `now, `story, `trace, `tales
      ensures Valid() && LogsGrow(r.Paths())
      ensures env.Calm() ==> DoneOrNot(Moved(from, r.quarantine), error)
      ensures env.Smooth() && from in old(tree.names) && r.quarantine !in old(tree.names) ==> error == None
      ensures env.Calm() && r.quarantine in old(tree.names) ==> error != None && Idle() && now == old(now) + 1
      ensures env.Calm() && from in old(tree.names) && r.quarantine !in old(tree.names) ==>
                Answered(old(now) + 1, Renaming, Moved(from, r.quarantine), error)
    {
      var there := Exists(r.quarantine);
      if there { return Some(EEXIST); }
      error := Rename(from, r.quarantine, r);
    }

    method RestoreQuarantineNoReplace(destination: Path, r: Record) returns (error: Option<Errno>)
      requires Valid() && (destination == r.source || destination == r.destination) && destination != r.quarantine
      requires r.Paths() in owners
      modifies `tree, `now, `story, `trace, `tales
      ensures Valid() && LogsGrow(r.Paths())
      ensures env.Calm() && r.quarantine in old(tree.names) ==>
                Restored(old(tree), tree, destination, r, error, env.Steady())
    {
      var there := Exists(destination);
      if there {
        error := DropIfSame(destination, r, EEXIST);
        return;
      }
      error := RenameNoReplace(r.quarantine, destination, r);
      if !Unsupported(error) { return; }
      error := RestoreByLink(destination, r);
    }

    method RestoreByLink(destination: Path, r: Record) returns (error: Option<Errno>)
      requires Valid() && (destination == r.source || destination == r.destination) && destination != r.quarantine
      requires r.Paths() in owners
      modifies `tree, `now, `story, `trace, `tales
      ensures Valid() && LogsGrow(r.Paths())
      ensures env.Calm() && r.quarantine in old(tree.names) ==>
                Restored(old(tree), tree, destination, r, error, env.Steady())
      ensures env.Calm() && r.quarantine !in old(tree.names) ==> error != None && tree == old(tree)
    {
      error := Link(r.quarantine, destination, r);
      if error != None { return; }
      error := DropIfSame(destination, r, EIO);
    }

    /** Unlink the quarantined name if the destination holds the same file. */
    method DropIfSame(destination: Path, r: Record, otherwise: Errno) returns (error: Option<Errno>)
      requires Valid() && (destination == r.source || destination == r.destination) && destination != r.quarantine
      requires r.Paths() in owners
      modifies `tree, `now, `story, `trace, `tales
      ensures Valid() && LogsGrow(r.Paths())
      ensures env.Calm() && r.quarantine in old(tree.names) && destination in old(tree.names) ==>
                Restored(old(tree), tree, destination, r, error, env.Steady())
    {
      var same := SameInode(r.quarantine, destination);
      if !same { return Some(otherwise); }
      SecondName(tree, r.quarantine, destination);
      error := Unlink(r.quarantine, r);
    }

    /** `_finish_quarantined_reconcile`: the quarantined name goes once the destination is known to
        hold the same inode, and back where it came from otherwise. */
    method FinishQuarantined(r: Record) returns (result: MoveResult)
      requires Valid() && r.OwnQuarantine() && r.Paths() in owners
      modifies `tree, `now, `story, `trace, `tales
      ensures Valid() && LogsGrow(r.Paths()) && result.candidateId == r.candidateId
      ensures env.Smooth() && r.source != r.destination && Parked(old(tree), r) ==>
                result == MoveResult(r.candidateId, MOVED, None) && Delivered(r)
      ensures env.Calm() && r.source != r.destination && r.quarantine in old(tree.names) ==>
                QuarantineTold(tree, r, result, env.Steady())
      ensures env.Steady() && r.source != r.destination && Parked(old(tree), r) ==>
                BothTold(tree, r, result, ReconcileQuarantineCleanupFailed)
      ensures env.Calm() && r.source != r.destination && r.quarantine in old(tree.names) && result.state != FAILED ==>
                (Leftover(tree, r) <==> ThreeNames(old(tree), r))
      ensures env.Calm() && r.source != r.destination && Parked(old(tree), r) ==>
                (result == MoveResult(r.candidateId, MOVED, None) && Arrived(tree, r)) || InQuarantine(result)
      ensures env.Calm() && ThreeNames(old(tree), r) ==>
                (result.state == MOVED <==> env.fault(old(now) + 3, Unlinking) == Works)
    {
      var quarantineMatches := MatchesLinked(r.quarantine, r.fingerprint);
      var destinationMatches := MatchesLinked(r.destination, r.fingerprint);
      if !quarantineMatches && !destinationMatches {
        return MoveResult(r.candidateId, FAILED, Some(ReconcileQuarantineConflict));
      }
      if quarantineMatches && destinationMatches {
        var same := SameInode(r.quarantine, r.destination);
        if same {
          result := DropArrived(r);
          return;
        }
      }
      result := PutBack(r, !quarantineMatches);
    }

    /** The destination holds the quarantined file: the quarantined name goes. */
    method DropArrived(r: Record) returns (result: MoveResult)
      requires Valid() && r.OwnQuarantine() && r.Paths() in owners
      requires r.quarantine in tree.names && r.destination in tree.names
      requires tree.names[r.quarantine] == tree.names[r.destination]
      modifies `tree, `now, `story, `trace, `tales
      ensures Valid() && LogsGrow(r.Paths()) && result.candidateId == r.candidateId
      ensures env.Smooth() && r.source != r.destination && Parked(old(tree), r) ==>
                result == MoveResult(r.candidateId, MOVED, None) && Delivered(r)
      ensures env.Steady() && r.source != r.destination && Parked(old(tree), r) ==>
                BothTold(tree, r, result, ReconcileQuarantineCleanupFailed)
      ensures env.Calm() && r.source != r.destination && Identity(old(tree), r.destination, r.fingerprint) ==>
                && QuarantineTold(tree, r, result, env.Steady())
                && (result.state != FAILED ==> (Leftover(tree, r) <==> HalfLinked(old(tree), r)))
      ensures env.Calm() && r.source != r.destination && Parked(old(tree), r) ==>
                (result == MoveResult(r.candidateId, MOVED, None) && Arrived(tree, r)) || InQuarantine(result)
      ensures env.Calm() ==> (result.state == MOVED <==> env.fault(old(now), Unlinking) == Works)
    {
      SecondName(tree, r.quarantine, r.destination);
      var error := Unlink(r.quarantine, r);
      if error != None {
        return MoveResult(r.candidateId, FAILED, Some(ReconcileQuarantineCleanupFailed));
      }
      return MoveResult(r.candidateId, MOVED, None);
    }

    /** The quarantined name returns to the source: another file's, when the scanned one has arrived. */
    method PutBack(r: Record, arrived: bool) returns (result: MoveResult)
      requires Valid() && r.OwnQuarantine() && r.Paths() in owners
      modifies `tree, `now, `story, `trace, `tales
      ensures Valid() && LogsGrow(r.Paths()) && result.candidateId == r.candidateId
      ensures env.Calm() && r.source != r.destination && r.quarantine in old(tree.names)
              && Identity(old(tree), r.destination, r.fingerprint) == arrived
              && Identity(old(tree), r.quarantine, r.fingerprint) == !arrived ==>
                QuarantineTold(tree, r, result, env.Steady()) && (result.state != FAILED ==> !Leftover(tree, r))
    {
      var error := RestoreQuarantineNoReplace(r.source, r);
      if error != None {
        return MoveResult(r.candidateId, FAILED, Some(ReconcileQuarantineConflict));
      }
      return if arrived then MoveResult(r.candidateId, MOVED, None)
             else MoveResult(r.candidateId, STALE, Some(SourceChangedDuringReconcile));
    }

    // -- one attempt ---------------------------------------------------------

    method Passes(check: Check) returns (ok: bool)
      requires Valid()
      modifies `now
      ensures Valid() && ok == env.passes(old(now), check) && now == old(now) + 1
    {
      ok := env.passes(now, check);
      now := now + 1;
    }

    /** `_rollback_unexpected_link`: the link turned out to hold another file. */
    method RollbackUnexpectedLink(r: Record) returns (result: MoveResult)
      requires Valid() && r.OwnQuarantine() && r.Paths() in owners
      modifies `tree, `now, `story, `trace, `tales
      ensures Valid() && LogsGrow(r.Paths()) && result.candidateId == r.candidateId
      ensures env.Steady() && r.source != r.destination && r.destination in old(tree.names) ==>
                RollbackTold(old(tree), tree, old(tree).names[r.destination], r, result)
    {
      var error := MoveToQuarantine(r.destination, r);
      if error != None {
        return MoveResult(r.candidateId, FAILED, Some(MoveRollbackFailed));
      }
      result := DropCaught(r);
    }

    /** The caught file is in quarantine: it goes if the source holds it too, and back otherwise. */
    method DropCaught(r: Record) returns (result: MoveResult)
      requires Valid() && r.OwnQuarantine() && r.Paths() in owners
      modifies `tree, `now, `story, `trace, `tales
      ensures Valid() && LogsGrow(r.Paths()) && result.candidateId == r.candidateId
      ensures env.Steady() && r.source != r.destination
              && r.quarantine in old(tree.names) && r.destination !in old(tree.names) ==>
                RollbackTold(old(tree), tree, old(tree).names[r.quarantine], r, result)
    {
      var there := Exists(r.source);
      if there {
        var same := SameInode(r.quarantine, r.source);
        if same {
          SecondName(tree, r.quarantine, r.source);
          var error := Unlink(r.quarantine, r);
          if error != None {
            return MoveResult(r.candidateId, FAILED, Some(MoveRollbackFailed));
          }
          return MoveResult(r.candidateId, STALE, Some(SourceChangedDuringMove));
        }
      }
      result := GiveBack(r);
    }

    method GiveBack(r: Record) returns (result: MoveResult)
      requires Valid() && r.OwnQuarantine() && r.Paths() in owners
      modifies `tree, `now, `story, `trace, `tales
      ensures Valid() && LogsGrow(r.Paths()) && result.candidateId == r.candidateId
      ensures env.Steady() && r.source != r.destination && r.quarantine in old(tree.names) ==>
                result.state != STALE && RollbackTold(old(tree), tree, old(tree).names[r.quarantine], r, result)
    {
      var error := RestoreQuarantineNoReplace(r.destination, r);
      if error != None {
        return MoveResult(r.candidateId, FAILED, Some(MoveRollbackFailed));
      }
      return MoveResult(r.candidateId, CONFLICT, Some(DestinationChangedDuringMove));
    }

    /** `_apply_hardlink_fallback`, for mounts that refuse the rename flag. */
    method ApplyHardlinkFallback(r: Record) returns (result: MoveResult)
      requires Valid() && r.OwnQuarantine() && r.Paths() in owners
      modifies `tree, `now, `story, `trace, `tales
      ensures Valid() && LogsGrow(r.Paths()) && result.candidateId == r.candidateId
      ensures env.Smooth() && r.source != r.destination && AtSource(old(tree), r) ==>
                result == MoveResult(r.candidateId, MOVED, None) && Delivered(r)
      ensures env.Steady() && r.source != r.destination
              && Unchanged(old(tree), r.source, r.fingerprint) && r.destination !in old(tree.names) ==>
                AttemptTold(old(tree), tree, r, result)
      ensures env.Calm() && r.source != r.destination && AtSource(old(tree), r) ==>
                LinkEnds(env, old(now), old(tree), tree, now, r, result)
      ensures env.Calm() && r.source !in old(tree.names) && r.quarantine !in old(tree.names) ==>
                tree == old(tree) && Plain(r, result) && now == old(now) + 2
    {
      var there := Exists(r.quarantine);
      if there {
        return MoveResult(r.candidateId, FAILED, Some(MoveRollbackFailed));
      }
      var error := LinkSource(r);
      if error != None {
        return LinkFailure(r, error.value);
      }
      result := FinishLinked(r);
    }

    method LinkSource(r: Record) returns (error: Option<Errno>)
      requires Valid() && r.OwnQuarantine() && r.Paths() in owners
      modifies `tree, `now, `story, `trace, `tales
      ensures Valid() && LogsGrow(r.Paths())
      ensures env.Smooth() && r.source != r.destination && AtSource(old(tree), r) ==>
                error == None && Elsewhere(old(tree), tree, r) && trace == old(trace) + [State()]
      ensures env.Calm() && r.source != r.destination && AtSource(old(tree), r) ==>
                && (error == None ==> AtBoth(tree, r))
                && (env.Steady() && error != None ==> tree == old(tree) && error != Some(EEXIST))
      ensures env.Calm() && r.source != r.destination && AtSource(old(tree), r) ==>
                && (error == None <==> env.fault(old(now) + 1, Linking) == Works)
                && (if env.fault(old(now) + 1, Linking).Fails? then tree == old(tree)
                    else AtBoth(tree, r) && now == old(now) + 2)
      ensures env.Calm() && r.source !in old(tree.names) ==> error != None && tree == old(tree) && now == old(now) + 1
    {
      error := Link(r.source, r.destination, r);
    }

    static function LinkFailure(r: Record, errno: Errno): (result: MoveResult)
      ensures result.candidateId == r.candidateId && result.state != MOVED && result.error.Some?
      ensures !Halfway(result) && Closes(result) && !Unlooked(result)
      ensures result.error != Some(SourceMissing) && result.error != Some(SourceChanged)
      ensures result.error == Some(DestinationExists) <==> errno == EEXIST
    {
      if errno == EEXIST then MoveResult(r.candidateId, CONFLICT, Some(DestinationExists))
      else MoveResult(r.candidateId, FAILED, Some(
        if errno == EXDEV then CrossDeviceMove else if errno in LINK_UNSUPPORTED then MoveUnsupported else MoveFailed))
    }

    /** The second half of `_apply_hardlink_fallback`: both names are there, the source's has to go. */
    method FinishLinked(r: Record) returns (result: MoveResult)
      requires Valid() && r.OwnQuarantine() && r.Paths() in owners
      modifies `tree, `now, `story, `trace, `tales
      ensures Valid() && LogsGrow(r.Paths()) && result.candidateId == r.candidateId
      ensures env.Smooth() && r.source != r.destination && AtBoth(old(tree), r) ==>
                result == MoveResult(r.candidateId, MOVED, None) && Delivered(r)
      ensures env.Steady() && r.source != r.destination && AtBoth(old(tree), r) ==>
                BothTold(tree, r, result, MoveRollbackFailed)
      ensures env.Calm() && r.source != r.destination && AtBoth(old(tree), r) ==>
                BothEnds(env, old(now) + 3, tree, now, r, result, MoveRollbackFailed)
    {
      var destinationMatches := MatchesLinked(r.destination, r.fingerprint);
      var sourceMatches := MatchesLinked(r.source, r.fingerprint);
      if !destinationMatches {
        result := RollbackUnexpectedLink(r);
        return;
      }
      result := LetGo(r, sourceMatches);
    }

    /** Unless the source's name is gone or another file's by now, it has to be let go. */
    method LetGo(r: Record, sourceMatches: bool) returns (result: MoveResult)
      requires Valid() && r.OwnQuarantine() && r.Paths() in owners
      modifies `tree, `now, `story, `trace, `tales
      ensures Valid() && LogsGrow(r.Paths()) && result.candidateId == r.candidateId
      ensures env.Smooth() && r.source != r.destination && sourceMatches && AtBoth(old(tree), r) ==>
                result == MoveResult(r.candidateId, MOVED, None) && Delivered(r)
      ensures env.Steady() && r.source != r.destination && sourceMatches && AtBoth(old(tree), r) ==>
                BothTold(tree, r, result, MoveRollbackFailed)
      ensures env.Calm() && r.source != r.destination && sourceMatches && AtBoth(old(tree), r) ==>
                BothEnds(env, old(now) + 1, tree, now, r, result, MoveRollbackFailed)
    {
      var there := Exists(r.source);
      if !there || !sourceMatches {
        return MoveResult(r.candidateId, MOVED, None);
      }
      result := FinishBoth(r, MoveRollbackFailed);
    }

    /** The first of the two steps that let the source's name go when both names are there. */
    method ParkSource(r: Record) returns (error: Option<Errno>)
      requires Valid() && r.OwnQuarantine() && r.Paths() in owners
      modifies `tree, `now, `story, `trace, `tales
      ensures Valid() && LogsGrow(r.Paths())
      ensures env.Smooth() && r.source != r.destination && AtBoth(old(tree), r) ==>
                error == None && Elsewhere(old(tree), tree, r) && trace == old(trace) + [State()]
      ensures env.Calm() && r.source != r.destination && AtBoth(old(tree), r) ==>
                if error == None then Parked(tree, r) else Leftover(tree, r) && (env.Steady() ==> tree == old(tree))
      ensures env.Calm() && r.source != r.destination && AtBoth(old(tree), r) ==>
                && (error == None <==> env.Parks(old(now)))
                && (error != None ==> now == env.ParkOver(old(now)))
                && (if env.ParksNot(old(now)) then tree == old(tree) else Parked(tree, r))
    {
      error := MoveToQuarantine(r.source, r);
    }

    /** Quarantine the source's name, then let it go. */
    method FinishBoth(r: Record, failure: ErrorCode) returns (result: MoveResult)
      requires failure in {MoveRollbackFailed, ReconcileQuarantineFailed}
      requires Valid() && r.OwnQuarantine() && r.Paths() in owners
      modifies `tree, `now, `story, `trace, `tales
      ensures Valid() && LogsGrow(r.Paths()) && result.candidateId == r.candidateId
      ensures env.Smooth() && r.source != r.destination && AtBoth(old(tree), r) ==>
                result == MoveResult(r.candidateId, MOVED, None) && Delivered(r)
      ensures env.Steady() && r.source != r.destination && AtBoth(old(tree), r) ==> BothTold(tree, r, result, failure)
      ensures env.Calm() && r.source != r.destination && AtBoth(old(tree), r) ==>
                && BothEnds(env, old(now), tree, now, r, result, failure)
                && (env.ParksNot(old(now)) ==> tree == old(tree))
    {
      var error := ParkSource(r);
      if error != None {
        return MoveResult(r.candidateId, FAILED, Some(failure));
      }
      result := FinishQuarantined(r);
    }

    method InvalidPath() returns (code: Option<ErrorCode>)
      requires Valid()
      modifies `now
      ensures Valid()
      ensures code == None || code == Some(SourceSymlink) || code == Some(DestinationSymlink)
              || code == Some(DestinationRootMissing) || code == Some(PathOutsideRoot)
      ensures env.Smooth() ==> code == None
      ensures code == None || code == Some(PathOutsideRoot) ==> now == old(now) + 4
      ensures code == Some(PathOutsideRoot) <==> env.Outside(old(now))
      ensures code == None <==>
                && env.passes(old(now), NoSourceSymlink) && env.passes(old(now) + 1, NoDestinationSymlink)
                && env.passes(old(now) + 2, DestinationRootPresent) && env.passes(old(now) + 3, PathsWithinRoots)
    {
      var ok := Passes(NoSourceSymlink);
      if !ok { return Some(SourceSymlink); }
      ok := Passes(NoDestinationSymlink);
      if !ok { return Some(DestinationSymlink); }
      ok := Passes(DestinationRootPresent);
      if !ok { return Some(DestinationRootMissing); }
      ok := Passes(PathsWithinRoots);
      return if ok then None else Some(PathOutsideRoot);
    }

    /** The checks `_apply_one` starts with: why it gives up before touching anything, if it does.
        The fingerprint of a source that has just vanished raises. */
    method Refusal(r: Record) returns (refusal: Option<Outcome>)
      requires Valid()
      modifies `tree, `now, `story
      ensures Valid() && LogsGrow(r.Paths())
      ensures refusal != None && refusal.value.Returned? ==> Refused(r, refusal.value.result)
      ensures env.Calm() ==> tree == old(tree) && refusal != Some(Raised)
      ensures env.Smooth() && AtSource(old(tree), r) ==> refusal == None
      ensures env.Steady() && refusal == None ==>
                Unchanged(tree, r.source, r.fingerprint) && r.destination !in tree.names
      ensures env.Calm() && refusal != None && refusal.value.Returned? ==> Grounds(tree, r, refusal.value.result)
      ensures env.Calm() && AtSource(old(tree), r) ==> (refusal == None <==> env.Admits(old(now)))
      ensures env.Calm() && refusal == None ==> now == old(now) + 9
      ensures env.Calm() && refusal != None ==>
                && (Unlooked(refusal.value.result) <==> env.Outside(old(now)))
                && (env.Outside(old(now)) ==> now == old(now) + 4)
    {
      var invalid := InvalidPath();
      if invalid != None { return Some(Returned(MoveResult(r.candidateId, INVALID_PATH, invalid))); }
      refusal := Objection(r);
      if refusal != None { return; }
      refusal := NoWay(r);
    }

    /** What `_apply_one` has against the way to the destination. */
    method NoWay(r: Record) returns (refusal: Option<Outcome>)
      requires Valid()
      modifies `now
      ensures Valid() && refusal != Some(Raised)
      ensures refusal == None <==> env.passes(old(now), ParentReady) && env.passes(old(now) + 1, NoDestinationSymlink)
      ensures refusal == None ==> now == old(now) + 2
      ensures refusal != None ==> Plain(r, refusal.value.result) && Groundless(refusal.value.result)
    {
      var ok := Passes(ParentReady);
      if !ok { return Some(Returned(MoveResult(r.candidateId, INVALID_PATH, Some(DestinationParentUnavailable)))); }
      ok := Passes(NoDestinationSymlink);
      if !ok { return Some(Returned(MoveResult(r.candidateId, INVALID_PATH, Some(DestinationSymlink)))); }
      return None;
    }

    /** What `_apply_one` has against the source or the destination as they are. */
    method Objection(r: Record) returns (refusal: Option<Outcome>)
      requires Valid()
      modifies `tree, `now, `story
      ensures Valid() && LogsGrow(r.Paths())
      ensures refusal != None && refusal.value.Returned? ==>
                Plain(r, refusal.value.result)
      ensures env.Calm() ==> tree == old(tree) && refusal != Some(Raised)
      ensures env.Calm() ==>
                (refusal == None <==> Unchanged(tree, r.source, r.fingerprint) && r.destination !in tree.names)
      ensures refusal == None ==> now == old(now) + 3
      ensures env.Calm() && refusal != None && refusal.value.Returned? ==> Grounds(tree, r, refusal.value.result)
    {
      refusal := NoSource(r);
      if refusal != None { return; }
      var there := Exists(r.destination);
      return if there then Some(Returned(MoveResult(r.candidateId, CONFLICT, Some(DestinationExists)))) else None;
    }

    method NoSource(r: Record) returns (refusal: Option<Outcome>)
      requires Valid()
      modifies `tree, `now, `story
      ensures Valid() && LogsGrow({}) && (env.Calm() ==> tree == old(tree) && refusal != Some(Raised))
      ensures refusal != None && refusal.value.Returned? ==> Plain(r, refusal.value.result)
      ensures env.Calm() ==> (refusal == None <==> Unchanged(tree, r.source, r.fingerprint))
      ensures refusal == None ==> now == old(now) + 2
      ensures env.Calm() && refusal != None && refusal.value.Returned? ==> Grounds(tree, r, refusal.value.result)
    {
      var there := Exists(r.source);
      if !there { return Some(Returned(MoveResult(r.candidateId, STALE, Some(SourceMissing)))); }
      there := Exists(r.source);
      if !there { return Some(Raised); }
      if !Unchanged(tree, r.source, r.fingerprint) {
        return Some(Returned(MoveResult(r.candidateId, STALE, Some(SourceChanged))));
      }
      return None;
    }

    /** `_apply_one`. */
    method ApplyOne(r: Record) returns (outcome: Outcome)
      requires Valid() && r.OwnQuarantine() && r.Paths() in owners
      modifies `tree, `now, `story, `trace, `tales
      ensures Valid() && LogsGrow(r.Paths()) && outcome.About(r)
      ensures env.Smooth() && r.source != r.destination && AtSource(old(tree), r) ==>
                outcome == Returned(MoveResult(r.candidateId, MOVED, None)) && Delivered(r)
      ensures env.Steady() && r.source != r.destination ==>
                outcome.Returned? && AttemptTold(old(tree), tree, r, outcome.result)
      ensures env.Calm() && r.source != r.destination && AtSource(old(tree), r) ==>
                outcome.Returned? && AttemptEnds(env, old(now), old(tree), tree, now, r, outcome.result)
    {
      var refusal := Refusal(r);
      if refusal.Some? { return refusal.value; }
      var result := RenameOrLink(r);
      return Returned(result);
    }

    /** `_apply_one` once its checks have passed. */
    method RenameOrLink(r: Record) returns (result: MoveResult)
      requires Valid() && r.OwnQuarantine() && r.Paths() in owners
      modifies `tree, `now, `story, `trace, `tales
      ensures Valid() && LogsGrow(r.Paths()) && result.candidateId == r.candidateId
      ensures env.Smooth() && r.source != r.destination && AtSource(old(tree), r) ==>
                result == MoveResult(r.candidateId, MOVED, None) && Delivered(r)
      ensures env.Steady() && r.source != r.destination
              && Unchanged(old(tree), r.source, r.fingerprint) && r.destination !in old(tree.names) ==>
                AttemptTold(old(tree), tree, r, result)
      ensures env.Calm() && r.source != r.destination && AtSource(old(tree), r) ==>
                RenameEnds(env, old(now), old(tree), tree, now, r, result)
    {
      var answer := TryRename(r);
      if answer.Some? { return answer.value; }
      result := ApplyHardlinkFallback(r);
    }

    /** The rename; no answer if the mount does not take it. */
    method TryRename(r: Record) returns (answer: Option<MoveResult>)
      requires Valid() && r.OwnQuarantine() && r.Paths() in owners
      modifies `tree, `now, `story, `trace, `tales
      ensures Valid() && LogsGrow(r.Paths())
      ensures answer.Some? ==> answer.value.candidateId == r.candidateId
      ensures env.Smooth() && r.source != r.destination && AtSource(old(tree), r) ==>
                if env.renames then answer == Some(MoveResult(r.candidateId, MOVED, None)) && Delivered(r)
                else answer == None && Idle()
      ensures env.Steady() && r.source != r.destination
              && Unchanged(old(tree), r.source, r.fingerprint) && r.destination !in old(tree.names) ==>
                if answer == None then Idle() else AttemptTold(old(tree), tree, r, answer.value)
      ensures env.Calm() && env.Refuses(old(now) + 1) ==> answer == None && Idle() && now == old(now) + 1
      ensures env.Calm() && !env.Refuses(old(now) + 1) && r.source != r.destination && AtSource(old(tree), r) ==>
                if answer == None
                then Arrived(tree, r) && now == old(now) + 2 && LateRefusal(env.fault(old(now) + 1, RenamingNoReplace))
                else RenameEnds(env, old(now), old(tree), tree, now, r, answer.value)
    {
      var error := RenameNoReplace(r.source, r.destination, r);
      if Unsupported(error) { return None; }
      if error != None { return Some(RenameFailure(r, error.value)); }
      if env.Calm() && r.source != r.destination && Unchanged(old(tree), r.source, r.fingerprint) {
        RenamingArrives(old(tree), r, now - 1);
      }
      var result := ConfirmRenamed(r);
      return Some(result);
    }

    static function RenameFailure(r: Record, errno: Errno): (result: MoveResult)
      ensures result.candidateId == r.candidateId && result.state != MOVED && result.error.Some?
      ensures !Halfway(result) && Closes(result) && !Unlooked(result)
      ensures result.error != Some(SourceMissing) && result.error != Some(SourceChanged)
      ensures result.error == Some(DestinationExists) <==> errno == EEXIST
    {
      if errno == EEXIST then MoveResult(r.candidateId, CONFLICT, Some(DestinationExists))
      else MoveResult(r.candidateId, FAILED, Some(if errno == EXDEV then CrossDeviceMove else MoveFailed))
    }

    /** The look at the destination that ends `_apply_one`; another file goes back. */
    method ConfirmRenamed(r: Record) returns (result: MoveResult)
      requires Valid() && r.OwnQuarantine() && r.Paths() in owners
      modifies `tree, `now, `story, `trace, `tales
      ensures Valid() && LogsGrow(r.Paths()) && result.candidateId == r.candidateId
      ensures env.Calm() && Identity(old(tree), r.destination, r.fingerprint) ==>
                result == MoveResult(r.candidateId, MOVED, None) && Idle()
    {
      var destinationMatches := MatchesLinked(r.destination, r.fingerprint);
      if !destinationMatches {
        var error := RenameNoReplace(r.destination, r.source, r);
        if error != None {
          return MoveResult(r.candidateId, FAILED, Some(MoveRollbackFailed));
        }
        return MoveResult(r.candidateId, STALE, Some(SourceChangedDuringMove));
      }
      return MoveResult(r.candidateId, MOVED, None);
    }

    /** A prepared move whose destination holds another file: a rename that took the wrong one. */
    method RollBackPrepared(r: Record, sourceExists: bool) returns (result: MoveResult)
      requires Valid() && r.OwnQuarantine() && r.Paths() in owners
      modifies `tree, `now, `story, `trace, `tales
      ensures Valid() && LogsGrow(r.Paths()) && result.candidateId == r.candidateId
      ensures env.Calm() && r.source != r.destination && sourceExists == (r.source in old(tree.names)) ==>
                UndoTold(old(tree), tree, r, result, env.Steady())
    {
      if sourceExists {
        return MoveResult(r.candidateId, FAILED, Some(ReconcileRollbackConflict));
      }
      var error := RenameNoReplace(r.destination, r.source, r);
      if error == Some(EEXIST) {
        return MoveResult(r.candidateId, FAILED, Some(ReconcileRollbackConflict));
      }
      if error != None {
        return MoveResult(r.candidateId, FAILED, Some(ReconcileRollbackFailed));
      }
      return MoveResult(r.candidateId, STALE, Some(SourceChangedDuringMove));
    }

    /** The looks `_reconcile_filesystem` takes before it decides, in its order. */
    method Look(r: Record) returns (sight: Sight)
      requires Valid()
      modifies `tree, `now, `story
      ensures Valid() && LogsGrow(r.Paths())
      ensures env.Calm() ==> tree == old(tree) && sight == SightOf(tree, r)
      ensures now == old(now) + 6
    {
      var sourceMatches, sourceMatchesLinked, destinationMatches := LookAtFiles(r);
      var sourceExists, destinationExists, quarantined := LookAtNames(r);
      sight := Sight(sourceMatches, sourceMatchesLinked, destinationMatches,
                     sourceExists, destinationExists, quarantined);
    }

    method LookAtFiles(r: Record) returns (source: bool, sourceLinked: bool, destination: bool)
      requires Valid()
      modifies `tree, `now, `story
      ensures Valid() && LogsGrow({}) && now == old(now) + 3
      ensures env.Calm() ==>
                && tree == old(tree) && source == Unchanged(tree, r.source, r.fingerprint)
                && sourceLinked == Identity(tree, r.source, r.fingerprint)
                && destination == Identity(tree, r.destination, r.fingerprint)
    {
      source := MatchesFully(r.source, r.fingerprint);
      sourceLinked := MatchesLinked(r.source, r.fingerprint);
      destination := MatchesLinked(r.destination, r.fingerprint);
    }

    method LookAtNames(r: Record) returns (source: bool, destination: bool, quarantine: bool)
      requires Valid()
      modifies `tree, `now, `story
      ensures Valid() && LogsGrow({}) && now == old(now) + 3
      ensures env.Calm() ==>
                && tree == old(tree) && source == (r.source in tree.names)
                && destination == (r.destination in tree.names) && quarantine == (r.quarantine in tree.names)
    {
      source := Exists(r.source);
      destination := Exists(r.destination);
      quarantine := Exists(r.quarantine);
    }

    /** `_reconcile_filesystem`: pick a journalled move up wherever it stopped. */
    method ReconcileFilesystem(r: Record, state: JournalState) returns (outcome: Outcome)
      requires Valid() && r.OwnQuarantine() && r.Paths() in owners
      modifies `tree, `now, `story, `trace, `tales
      ensures Valid() && LogsGrow(r.Paths()) && outcome.About(r)
      ensures env.Smooth() && r.source != r.destination && Midway(old(tree), r)
              && (AtSource(old(tree), r) ==> state == JournalPrepared) ==>
                && outcome == Returned(MoveResult(r.candidateId, MOVED, None)) && Delivered(r)
                && (Arrived(old(tree), r) ==> trace == old(trace))
      ensures env.Steady() && r.source != r.destination ==> outcome.Returned? && ReconcileTold(tree, r, outcome.result)
      ensures env.Calm() && r.source != r.destination ==>
                outcome.Returned? && FilesystemEnds(env, old(now), old(tree), tree, now, r, state, outcome.result)
    {
      var code := CheckPaths();
      if code != None {
        var result := MoveResult(r.candidateId, INVALID_PATH, code);
        if env.Calm() {
          PathsEndFilesystem(env, old(now), old(tree), r, state, result);
        }
        return Returned(result);
      }
      outcome := ReconcileNames(r, state);
      if env.Calm() && r.source != r.destination {
        NamesEndFilesystem(env, old(now), old(tree), tree, now, r, state, outcome.result);
      }
    }

    /** The path checks recovery begins with. */
    method CheckPaths() returns (code: Option<ErrorCode>)
      requires Valid()
      modifies `now
      ensures Valid() && (code == None || code == Some(ReconcileSymlink) || code == Some(PathOutsideRoot))
      ensures code == None <==> env.PathsFine(old(now))
      ensures now == env.PathsOver(old(now))
    {
      var ok := Passes(NoSourceSymlink);
      if ok { ok := Passes(NoDestinationSymlink); }
      if !ok { return Some(ReconcileSymlink); }
      ok := Passes(PathsWithinRoots);
      return if ok then None else Some(PathOutsideRoot);
    }

    /** `_reconcile_filesystem` once the paths are known to be right. */
    method ReconcileNames(r: Record, state: JournalState) returns (outcome: Outcome)
      requires Valid() && r.OwnQuarantine() && r.Paths() in owners
      modifies `tree, `now, `story, `trace, `tales
      ensures Valid() && LogsGrow(r.Paths()) && outcome.About(r)
      ensures env.Smooth() && r.source != r.destination && Midway(old(tree), r)
              && (AtSource(old(tree), r) ==> state == JournalPrepared) ==>
                && outcome == Returned(MoveResult(r.candidateId, MOVED, None)) && Delivered(r)
                && (Arrived(old(tree), r) ==> trace == old(trace))
      ensures env.Steady() && r.source != r.destination ==> outcome.Returned? && ReconcileTold(tree, r, outcome.result)
      ensures env.Calm() && r.source != r.destination ==>
                outcome.Returned? && NamesEnds(env, old(now), old(tree), tree, now, r, state, outcome.result)
    {
      var sight := Look(r);
      if sight.quarantined {
        var result := ReconcileQuarantined(r);
        return Returned(result);
      }
      outcome := ReconcilePlain(r, state, sight);
    }

    /** The part of `_reconcile_filesystem` where the quarantined name is there. */
    method ReconcileQuarantined(r: Record) returns (result: MoveResult)
      requires Valid() && r.OwnQuarantine() && r.Paths() in owners
      modifies `tree, `now, `story, `trace, `tales
      ensures Valid() && LogsGrow(r.Paths()) && result.candidateId == r.candidateId
      ensures env.Smooth() && r.source != r.destination && Parked(old(tree), r) ==>
                result == MoveResult(r.candidateId, MOVED, None) && Delivered(r)
      ensures env.Steady() && r.source != r.destination && r.quarantine in old(tree.names) ==>
                ReconcileTold(tree, r, result)
      ensures env.Calm() && r.source != r.destination && r.quarantine in old(tree.names) ==>
                QuarantineEnds(env, old(now), old(tree), tree, now, r, result)
    {
      result := FinishQuarantined(r);
      if env.Calm() && r.source != r.destination && r.quarantine in old(tree.names) {
        QuarantineIsTold(env, old(now), old(tree), tree, now, r, result);
      }
    }

    /** The rest of `_reconcile_filesystem` where nothing is quarantined. */
    method ReconcilePlain(r: Record, state: JournalState, sight: Sight) returns (outcome: Outcome)
      requires Valid() && r.OwnQuarantine() && r.Paths() in owners
      modifies `tree, `now, `story, `trace, `tales
      ensures Valid() && LogsGrow(r.Paths()) && outcome.About(r)
      ensures env.Smooth() && r.source != r.destination && sight == SightOf(old(tree), r)
              && (AtBoth(old(tree), r) || Arrived(old(tree), r)
                  || (AtSource(old(tree), r) && state == JournalPrepared)) ==>
                && outcome == Returned(MoveResult(r.candidateId, MOVED, None)) && Delivered(r)
                && (Arrived(old(tree), r) ==> trace == old(trace))
      ensures env.Steady() && r.source != r.destination && sight == SightOf(old(tree), r) && !sight.quarantined ==>
                outcome.Returned? && ReconcileTold(tree, r, outcome.result)
      ensures env.Calm() && r.source != r.destination && sight == SightOf(old(tree), r) && !sight.quarantined ==>
                outcome.Returned? && PlainEnds(env, old(now), old(tree), tree, now, r, state, outcome.result)
    {
      var same := false;
      if sight.sourceMatchesLinked && sight.destinationMatches {
        same := SameInode(r.source, r.destination);
      }
      if same {
        var result := ReconcileBoth(r);
        if env.Calm() && r.source != r.destination && AtBoth(old(tree), r) {
          BothIsPlain(env, old(now), old(tree), tree, now, r, state, result);
        }
        return Returned(result);
      }
      outcome := ReconcileApart(r, state, sight);
    }

    /** The part of `_reconcile_filesystem` where the file is under both its names. */
    method ReconcileBoth(r: Record) returns (result: MoveResult)
      requires Valid() && r.OwnQuarantine() && r.Paths() in owners
      modifies `tree, `now, `story, `trace, `tales
      ensures Valid() && LogsGrow(r.Paths()) && result.candidateId == r.candidateId
      ensures env.Smooth() && r.source != r.destination && AtBoth(old(tree), r) ==>
                result == MoveResult(r.candidateId, MOVED, None) && Delivered(r)
      ensures env.Steady() && r.source != r.destination && AtBoth(old(tree), r) ==> ReconcileTold(tree, r, result)
      ensures env.Calm() && r.source != r.destination && AtBoth(old(tree), r) ==>
                && BothEnds(env, old(now), tree, now, r, result, ReconcileQuarantineFailed)
                && (env.ParksNot(old(now)) ==> tree == old(tree))
    {
      result := FinishBoth(r, ReconcileQuarantineFailed);
    }

    /** The rest of `_reconcile_filesystem`: nothing quarantined, source and destination apart. */
    method ReconcileApart(r: Record, state: JournalState, sight: Sight) returns (outcome: Outcome)
      requires Valid() && r.OwnQuarantine() && r.Paths() in owners
      modifies `tree, `now, `story, `trace, `tales
      ensures Valid() && LogsGrow(r.Paths()) && outcome.About(r)
      ensures env.Smooth() && r.source != r.destination && sight == SightOf(old(tree), r)
              && (Arrived(old(tree), r) || (AtSource(old(tree), r) && state == JournalPrepared)) ==>
                && outcome == Returned(MoveResult(r.candidateId, MOVED, None)) && Delivered(r)
                && (Arrived(old(tree), r) ==> trace == old(trace))
      ensures env.Steady() && r.source != r.destination
              && sight == SightOf(old(tree), r) && !sight.quarantined && !HalfLinked(old(tree), r) ==>
                outcome.Returned? && ReconcileTold(tree, r, outcome.result)
      ensures env.Calm() && r.source != r.destination
              && sight == SightOf(old(tree), r) && !sight.quarantined && !HalfLinked(old(tree), r) ==>
                outcome.Returned? && PlainEnds(env, old(now), old(tree), tree, now, r, state, outcome.result)
    {
      if sight.destinationMatches && (!sight.sourceExists || !sight.sourceMatchesLinked) {
        return Returned(MoveResult(r.candidateId, MOVED, None));
      }
      if sight.sourceMatches && !sight.destinationExists && state == JournalPrepared {
        outcome := ApplyOne(r);
        if env.Calm() && r.source != r.destination && AtSource(old(tree), r) {
          AttemptIsPlain(env, old(now), old(tree), tree, now, r, outcome.result);
        }
        return;
      }
      if state == JournalPrepared && sight.destinationExists && !sight.destinationMatches {
        var result := RollBackPrepared(r, sight.sourceExists);
        return Returned(result);
      }
      if sight.sourceExists && !sight.sourceMatchesLinked {
        return Returned(MoveResult(r.candidateId, STALE, Some(SourceChanged)));
      }
      if sight.destinationExists {
        return Returned(MoveResult(r.candidateId, CONFLICT, Some(ReconcileDestinationConflict)));
      }
      if state in {JournalLinked, JournalSourceRemoved} {
        return Returned(MoveResult(r.candidateId, FAILED, Some(ReconcileDestinationMissing)));
      }
      return Returned(MoveResult(r.candidateId, STALE, Some(SourceMissing)));
    }

    // -- durable rows --------------------------------------------------------

    /** The repository raises on a transition its table does not list; the service never asks for one. */
    method SaveJournal(key: Key, state: JournalState)
      requires Valid() && JournalMayBecome(if key in journal then Some(journal[key]) else None, state)
      requires state == JournalReconciled ==> key in results
      modifies `journal, `trace, `tales
      ensures Valid() && journal == old(journal)[key := state] && trace == old(trace) + [State()]
    {
      journal := journal[key := state];
      TrailGrows(start, kept, owners, tales, trace, story, State());
      trace, tales := trace + [State()], tales + [story];
    }

    /** Stored once: nothing below asks to store a second result for a candidate. */
    method SaveResult(key: Key, result: MoveResult)
      requires Valid() && key !in results && result.candidateId == key.candidateId
      modifies `results, `trace, `tales
      ensures Valid() && results == old(results)[key := result] && trace == old(trace) + [State()]
    {
      StillKept(trace, results, key, result);
      results := results[key := result];
      TrailGrows(start, kept, owners, tales, trace, story, State());
      trace, tales := trace + [State()], tales + [story];
    }

    /** Every crash point from `first` on is one a restart can finish `key`'s move from. */
    ghost predicate AllOnCourse(first: nat, d: Durable, key: Key, r: Record)
      reads this
    {
      forall i | first <= i < |trace| :: OnCourse(d, trace[i], key, r)
    }

    /** `_persist_move_completion`. */
    method PersistMoveCompletion(key: Key, r: Record, result: MoveResult, journalState: JournalState, ghost d: Durable)
      requires Valid() && key !in results && result.candidateId == key.candidateId
      requires key in journal && journal[key] == journalState && journalState != JournalReconciled
      modifies `journal, `results, `trace, `tales
      ensures Valid() && LogsGrow(r.Paths())
      ensures journal == old(journal)[key := JournalReconciled] && results == old(results)[key := result]
      ensures Arrived(tree, r) && result == MoveResult(r.candidateId, MOVED, None)
              && OnCourse(d, old(State()), key, r) ==>
                AllOnCourse(|old(trace)|, d, key, r)
    {
      if result.state == MOVED {
        MarkMoved(key, r, journalState, d);
      }
      CloseWith(key, r, result, d);
    }

    method CloseWith(key: Key, r: Record, result: MoveResult, ghost d: Durable)
      requires Valid() && key !in results && key in journal && result.candidateId == key.candidateId
      modifies `journal, `results, `trace, `tales
      ensures Valid() && LogsGrow(r.Paths())
      ensures journal == old(journal)[key := JournalReconciled] && results == old(results)[key := result]
      ensures Arrived(tree, r) && result == MoveResult(r.candidateId, MOVED, None)
              && OnCourse(d, old(State()), key, r) ==>
                AllOnCourse(|old(trace)|, d, key, r)
    {
      ghost var moved := result == MoveResult(r.candidateId, MOVED, None);
      ghost var good := moved && Arrived(tree, r) && OnCourse(d, State(), key, r);
      SaveResult(key, result);
      assert good ==> OnCourse(d, State(), key, r);
      SaveJournal(key, JournalReconciled);
      assert good ==> OnCourse(d, State(), key, r);
    }

    method MarkMoved(key: Key, r: Record, journalState: JournalState, ghost d: Durable)
      requires Valid() && key !in results && key in journal && journal[key] == journalState
      requires journalState != JournalReconciled
      modifies `journal, `trace, `tales
      ensures Valid() && LogsGrow(r.Paths())
      ensures journal == old(journal)[key := JournalSourceRemoved]
      ensures Arrived(tree, r) && OnCourse(d, old(State()), key, r) ==>
                AllOnCourse(|old(trace)|, d, key, r) && OnCourse(d, State(), key, r)
    {
      var state := journalState;
      if state == JournalPrepared {
        SaveJournal(key, JournalLinked);
        state := JournalLinked;
      }
      if state == JournalLinked {
        SaveJournal(key, JournalSourceRemoved);
      }
    }

    /** The end of an attempt or a recovery: the result is stored and the journal closed, unless the
        roots have gone, which may be why nothing moved, or the journal is to stay open. */
    method Conclude(key: Key, r: Record, result: MoveResult, open: bool, ghost d: Durable)
      requires Valid() && key !in results && result.candidateId == key.candidateId
      requires key in journal && journal[key] != JournalReconciled
      modifies `now, `journal, `results, `trace, `tales
      ensures Valid() && LogsGrow(r.Paths())
      ensures var stored := !open && (result.state == MOVED || env.Ready(old(now)));
              && State() == (if stored then Closed(old(State()), key, result) else old(State()))
              && (!stored ==> trace == old(trace))
      ensures !open && Arrived(tree, r) && result == MoveResult(r.candidateId, MOVED, None)
              && OnCourse(d, old(State()), key, r) ==>
                AllOnCourse(|old(trace)|, d, key, r)
    {
      if result.state != MOVED {
        var ready := Passes(RootsReady);
        if !ready { return; }
      }
      if open { return; }
      PersistMoveCompletion(key, r, result, journal[key], d);
    }

    // -- operations, each run under the mutation lock ------------------------

    /** `_run_move` for a local candidate. */
    method RunMove(key: Key, r: Record) returns (result: MoveResult)
      requires Valid() && r.OwnQuarantine() && r.Paths() in owners
      requires r.candidateId == key.candidateId
      modifies this
      ensures Valid() && LogsGrow(r.Paths()) && OtherRows(old(State()), State(), key)
      ensures result.candidateId == key.candidateId
      ensures key in old(results) ==> key in results && results[key] == old(results[key])
      // A candidate with a result is answered from it, and nothing is touched.
      ensures key in old(results) ==> RowsKept() && story == old(story) && trace == old(trace)
      // What a first attempt stores is true of the tree it leaves, if a call that fails did nothing ...
      ensures env.Steady() && r.source != r.destination && key !in old(journal) && key !in old(results)
              && key in results ==>
                && results[key] == result && key in journal && journal[key] == JournalReconciled
                && Tells(old(tree), tree, r, result)
      ensures env.Smooth() && r.Distinct() && key !in old(journal) && key !in old(results) && AtSource(old(tree), r) ==>
                && Finished(State(), key, r)
                && AllOnCourse(|old(trace)|, old(State()), key, r) && OnCourse(old(State()), State(), key, r)
      // ... and exactly when it is not, and when the file is left under two names, the journal open or closed.
      ensures env.Calm() && env.Ready(old(now)) && env.Ready(old(now) + 1) && r.Distinct()
              && key !in old(journal) && key !in old(results) && AtSource(old(tree), r) ==>
                FirstEnds(env, old(now) + 2, old(tree), State(), key, r)
    {
      var ready := Passes(RootsReady);
      if ready { ready := Passes(RootsReady); }
      if !ready { return MoveResult(r.candidateId, FAILED, Some(RootsUnavailable)); }
      if key in results { return results[key]; }
      if key in journal && journal[key] != JournalReconciled {
        var outcome := ReconcileCandidate(key, r);
        return if outcome.Raised? then MoveResult(r.candidateId, FAILED, Some(MoveFailed)) else outcome.result;
      }
      result := FirstAttempt(key, r);
    }

    method FirstAttempt(key: Key, r: Record) returns (result: MoveResult)
      requires Valid() && r.OwnQuarantine() && key !in results && key !in journal
      requires r.candidateId == key.candidateId && r.Paths() in owners
      modifies this
      ensures Valid() && LogsGrow(r.Paths()) && OtherRows(old(State()), State(), key)
      ensures result.candidateId == key.candidateId
      ensures env.Steady() && r.source != r.destination && key in results ==>
                && results[key] == result && key in journal && journal[key] == JournalReconciled
                && Tells(old(tree), tree, r, result)
      ensures env.Smooth() && r.Distinct() && AtSource(old(tree), r) ==>
                && Finished(State(), key, r)
                && AllOnCourse(|old(trace)|, old(State()), key, r) && OnCourse(old(State()), State(), key, r)
      ensures env.Calm() && r.Distinct() && AtSource(old(tree), r) ==>
                FirstEnds(env, old(now), old(tree), State(), key, r)
    {
      SaveJournal(key, JournalPrepared);
      result := Attempt(key, r, old(State()));
    }

    /** The attempt, its journal begun; `d` is what it began in. */
    method Attempt(key: Key, r: Record, ghost d: Durable) returns (result: MoveResult)
      requires Valid() && r.OwnQuarantine() && key !in results
      requires r.candidateId == key.candidateId && r.Paths() in owners
      requires key in journal && journal[key] == JournalPrepared
      modifies this
      ensures Valid() && LogsGrow(r.Paths()) && OtherRows(old(State()), State(), key)
      ensures result.candidateId == key.candidateId
      ensures env.Steady() && r.source != r.destination && key in results ==>
                && results[key] == result && key in journal && journal[key] == JournalReconciled
                && Tells(old(tree), tree, r, result)
      ensures env.Smooth() && r.Distinct() && AtSource(old(tree), r) && OnCourse(d, old(State()), key, r) ==>
                && Finished(State(), key, r)
                && AllOnCourse(|old(trace)|, d, key, r) && OnCourse(d, State(), key, r)
      ensures env.Calm() && r.Distinct() && AtSource(old(tree), r) ==>
                FirstEnds(env, old(now), old(tree), State(), key, r)
    {
      var outcome := ApplyOne(r);
      if outcome.Raised? { return MoveResult(r.candidateId, FAILED, Some(MoveFailed)); }
      result := outcome.result;
      ghost var left, later := State(), now;
      Conclude(key, r, result, Halfway(result), d);
      if env.Calm() && r.Distinct() && AtSource(old(tree), r) {
        AttemptConcluded(env, old(now), old(tree), left, State(), later, key, r, result);
      }
    }

    /** `_reconcile_candidate`. */
    method ReconcileCandidate(key: Key, r: Record) returns (outcome: Outcome)
      requires Valid() && r.OwnQuarantine() && r.Paths() in owners
      requires r.candidateId == key.candidateId
      requires key in journal && journal[key] != JournalReconciled
      modifies this
      ensures Valid() && LogsGrow(r.Paths()) && OtherRows(old(State()), State(), key) && key in journal
      ensures outcome.Returned? ==> outcome.result.candidateId == key.candidateId
      ensures key in old(results) ==> key in results && results[key] == old(results[key])
      ensures env.Steady() && r.source != r.destination && key !in old(results) && key in results ==>
                && outcome == Returned(results[key]) && journal[key] == JournalReconciled
                && Closes(results[key]) && ReconcileTold(tree, r, results[key])
      ensures env.Smooth() && r.Distinct() && Recoverable(old(State()), key, r) ==>
                && outcome.Returned? && Finished(State(), key, r)
                && AllOnCourse(|old(trace)|, old(State()), key, r) && OnCourse(old(State()), State(), key, r)
      // Exactly when the journal is closed on a tree that is not in order, and on a path check alone ...
      ensures env.Calm() && r.Distinct() && key !in old(results) ==>
                && (Stranded(State(), key, r) <==> env.Strands(old(now), old(tree), r, old(journal[key])))
                && (ClosedUnlooked(State(), key) <==>
                    env.Ready(old(now)) && env.Blinks(old(now) + 1, old(tree), r, old(journal[key])))
                && (ClosedUnlooked(State(), key) ==> tree == old(tree))
      // ... and where a file under both its names stays so, with the journal open.
      ensures env.Calm() && env.PathsFine(old(now) + 1) && env.ParksNot(old(now) + 11)
              && r.Distinct() && key !in old(results) && AtBoth(old(tree), r) ==>
                State() == old(State())
    {
      var ready := Passes(RootsReady);
      if !ready { return Returned(MoveResult(r.candidateId, FAILED, Some(RootsUnavailable))); }
      if key in results {
        SaveJournal(key, JournalReconciled);
        return Returned(results[key]);
      }
      outcome := Resume(key, r);
    }

    method Resume(key: Key, r: Record) returns (outcome: Outcome)
      requires Valid() && r.OwnQuarantine() && r.Paths() in owners
      requires r.candidateId == key.candidateId
      requires key in journal && journal[key] != JournalReconciled && key !in results
      modifies this
      ensures Valid() && LogsGrow(r.Paths()) && OtherRows(old(State()), State(), key) && key in journal
      ensures outcome.About(r)
      ensures env.Steady() && r.source != r.destination && key in results ==>
                && outcome == Returned(results[key]) && journal[key] == JournalReconciled
                && Closes(results[key]) && ReconcileTold(tree, r, results[key])
      ensures env.Smooth() && r.Distinct() && Recoverable(old(State()), key, r) ==>
                && outcome.Returned? && Finished(State(), key, r)
                && AllOnCourse(|old(trace)|, old(State()), key, r) && OnCourse(old(State()), State(), key, r)
      ensures env.Calm() && r.Distinct() ==>
                RecoveryEnds(env, old(now), old(tree), State(), key, r, old(journal[key]))
      ensures env.Calm() && env.PathsFine(old(now)) && env.ParksNot(old(now) + 10)
              && r.Distinct() && AtBoth(old(tree), r) ==>
                State() == old(State())
    {
      ghost var smooth := env.Smooth() && r.Distinct() && Recoverable(State(), key, r);
      outcome := ReconcileFilesystem(r, journal[key]);
      assert smooth ==> OnCourse(old(State()), State(), key, r) && AllOnCourse(|old(trace)|, old(State()), key, r);
      if outcome.Raised? { return; }
      ghost var left, later := State(), now;
      Conclude(key, r, outcome.result, !Closes(outcome.result), old(State()));
      if env.Calm() && r.Distinct() {
        RecoveryConcluded(env, old(now), old(tree), left, State(), later, key, r, outcome.result);
      }
    }

    /** `reconcile_moves`: one pass over the journals that are open, in any order. An exception ends it. */
    method ReconcileMoves(listing: seq<Key>, records: map<Key, Record>, ghost begun: set<Key>)
      returns (results': seq<MoveResult>)
      requires Valid() && Catalogued(records) && owners == Owners(records)
      requires forall k :: k in listing <==> k in journal && journal[k] != JournalReconciled
      modifies this
      ensures Valid() && OnlyGrows()
      ensures ResultsKept(old(results), results)
      ensures env.Smooth() && Pending(old(State()), records, begun) ==>
                && Pending(State(), records, begun) && AllPending(|old(trace)|, records, begun)
                && forall k | k in begun :: Finished(State(), k, records[k])
    {
      results' := [];
      var ready := Passes(RootsReady);
      if !ready { return; }
      ghost var first := |trace|;
      ghost var going := Going(records, begun, first);
      for next := 0 to |listing|
        invariant Valid() && OnlyGrows() && ResultsKept(old(results), results)
        invariant OnlyListed(journal, listing)
        invariant going ==> Going(records, begun, first) && ListedClosed(journal, listing, next, records)
      {
        var outcome := ReconcileNext(listing, next, records, begun, first);
        if outcome == Some(Raised) { return; }
        results' := if outcome == None then results' else results' + [outcome.value.result];
      }
      if going {
        ClosedIsFinished(State(), records, begun);
      }
    }

    /** The logs only grow; `Valid` says whose the own steps are. */
    twostate predicate OnlyGrows()
      reads this
    {
      old(story) <= story && old(trace) <= trace
    }

    /** One turn of the pass. */
    method ReconcileNext(listing: seq<Key>, next: nat, records: map<Key, Record>, ghost begun: set<Key>,
                         ghost first: nat)
      returns (outcome: Option<Outcome>)
      requires Valid() && Catalogued(records) && owners == Owners(records)
      requires next < |listing| && OnlyListed(journal, listing) && first <= |trace|
      modifies this
      ensures Valid() && OnlyGrows() && ResultsKept(old(results), results) && OnlyListed(journal, listing)
      ensures old(Going(records, begun, first) && ListedClosed(journal, listing, next, records)) ==>
                && outcome != Some(Raised) && Going(records, begun, first)
                && ListedClosed(journal, listing, next + 1, records)
    {
      ghost var before := journal;
      outcome := ReconcileListed(listing[next], records, begun, first);
      StillListed(before, journal, listing, next);
      ghost var closed := listing[next] in records ==> journal[listing[next]] == JournalReconciled;
      if closed && ListedClosed(before, listing, next, records) {
        OneMoreClosed(before, journal, listing, next, records);
      }
    }

    /** One listed journal: skipped when its candidate is gone or its journal closed meanwhile. The
        pass began when the trace was `first` long. */
    method ReconcileListed(key: Key, records: map<Key, Record>, ghost begun: set<Key>, ghost first: nat)
      returns (outcome: Option<Outcome>)
      requires Valid() && Catalogued(records) && owners == Owners(records) && key in journal && first <= |trace|
      modifies this
      ensures Valid() && OnlyGrows() && OtherRows(old(State()), State(), key) && journal.Keys == old(journal.Keys)
      ensures ResultsKept(old(results), results)
      ensures old(Going(records, begun, first)) ==>
                && outcome != Some(Raised) && Going(records, begun, first)
                && (key in records ==> journal[key] == JournalReconciled)
    {
      if key !in records || journal[key] == JournalReconciled { return None; }
      var result := ReconcileCandidate(key, records[key]);
      if old(Going(records, begun, first)) {
        assert begun + {key} == begun;
        CoursePending(old(State()), State(), trace, |old(trace)|, key, records, begun);
      }
      return Some(result);
    }

    /** A pass in a smooth environment: every move can be finished, now and at every crash point so far. */
    ghost predicate Going(records: map<Key, Record>, begun: set<Key>, first: nat)
      reads this
    {
      env.Smooth() && Pending(State(), records, begun) && AllPending(first, records, begun)
    }

    ghost predicate AllPending(first: nat, records: map<Key, Record>, begun: set<Key>)
      reads this
    {
      forall i | first <= i < |trace| :: Pending(trace[i], records, begun)
    }
  }

  lemma PerformedIsRenamed(f: Files, deed: Deed, time: int)
    requires WellFormed(f) && Allowed(f, deed)
    ensures Renamed(f, Perform(f, deed, time), deed)
  {
  }

  lemma RenamingArrives(f: Files, r: Record, time: int)
    requires WellFormed(f) && Unchanged(f, r.source, r.fingerprint) && r.destination !in f.names
    requires r.source != r.quarantine
    requires r.destination != r.quarantine
    ensures var f' := Perform(f, Moved(r.source, r.destination), time);
            && r.source !in f'.names && Identity(f', r.destination, r.fingerprint)
            && (r.quarantine in f.names <==> r.quarantine in f'.names) && Elsewhere(f, f', r)
  {
  }

  lemma SecondName(files: Files, path: Path, other: Path)
    requires path != other && path in files.names && other in files.names && files.names[path] == files.names[other]
    ensures NamedElsewhere(files, path)
  {
    assert (files.names - {path})[other] == files.names[path];
  }

  /** The condition at each stage of a move on a mount that is the same at every moment. Where a call
      that fails did nothing, recovery closes the journal on an untouched source and leaves both names
      exactly if the no-replace rename is refused, the link made and the plain rename fails, all checks
      passing; a move that is halfway is abandoned exactly if a path check fails, and one that has
      arrived never. */
  lemma StrandsAtStage(env: Environment, t: nat, f: Files, r: Record, state: JournalState)
    requires env.Constant() && r.Distinct()
    ensures AtSource(f, r) && env.Steady() ==>
              (env.Strands(t, f, r, state) <==>
               && state == JournalPrepared && env.Ready(0) && env.Admits(0) && env.Refuses(0)
               && env.fault(0, Linking) == Works && env.fault(0, Renaming) != Works)
    ensures AtBoth(f, r) || Parked(f, r) ==> (env.Strands(t, f, r, state) <==> env.Ready(0) && !env.PathsFine(0))
    ensures Arrived(f, r) ==> !env.Strands(t, f, r, state)
  {
    assert env.Steady() ==> !env.fault(t + 23, Linking).ActsAndFails?;
  }

  // -- mounts on which a move is not finished --------------------------------

  const KEY := Key("plan", "candidate")
  const RECORD := Record("candidate", "inbox/a", "library/a", "library/q", Fingerprint(7, 100, 20, 21))
  const STATS := map[7 := Stat(100, 20, 21)]

  /** A mount with hard links on which nothing can be renamed. */
  const LINKS_ONLY :=
    Environment(false, (t, c) => if c == Renaming then Fails(EIO) else Works, (t, f) => f, (t, c) => true)

  /** The process dies between the journal's first row and the link. Recovery links, cannot let the
      source go, and closes the journal for good. */
  method DeathBeforeTheLink() returns (final: Durable)
    ensures Stranded(final, KEY, RECORD)
  {
    var found := Durable(Files(map[RECORD.source := 7], STATS), map[KEY := JournalPrepared], map[]);
    var mover := new Mover(LINKS_ONLY, found, {RECORD.Paths()});
    assert LINKS_ONLY.Strands(0, found.files, RECORD, JournalPrepared);
    var _ := mover.ReconcileCandidate(KEY, RECORD);
    final := mover.State();
  }

  /** The same death on a mount whose plain rename fails a single time. */
  method OneFailure() returns (final: Durable)
    ensures Stranded(final, KEY, RECORD)
  {
    var env := Environment(false, (t, c) => if t == 28 && c == Renaming then Fails(EIO) else Works, (t, f) => f,
                           (t, c) => true);
    var found := Durable(Files(map[RECORD.source := 7], STATS), map[KEY := JournalPrepared], map[]);
    var mover := new Mover(env, found, {RECORD.Paths()});
    assert env.Strands(0, found.files, RECORD, JournalPrepared);
    var _ := mover.ReconcileCandidate(KEY, RECORD);
    final := mover.State();
  }

  /** On the same mount as before a first attempt leaves both names with the journal open, and so does every
      recovery after it. */
  method OpenForever(recoveries: nat) returns (final: Durable)
    ensures KEY in final.journal && final.journal[KEY] == JournalPrepared && KEY !in final.results
    ensures AtBoth(final.files, RECORD)
  {
    var found := Durable(Files(map[RECORD.source := 7], STATS), map[], map[]);
    var mover := new Mover(LINKS_ONLY, found, {RECORD.Paths()});
    assert LINKS_ONLY.Stuck(2) && LINKS_ONLY.ParksNot(18) && AtSource(found.files, RECORD);
    var _ := mover.RunMove(KEY, RECORD);
    final := mover.State();
    for i := 0 to recoveries
      invariant InOrder(final) && OpenHalfway(final, KEY, RECORD) && AtBoth(final.files, RECORD)
    {
      final := RecoverInVain(final);
    }
  }

  /** A recovery on that mount. */
  method RecoverInVain(found: Durable) returns (final: Durable)
    requires InOrder(found) && OpenHalfway(found, KEY, RECORD) && AtBoth(found.files, RECORD)
    ensures final == found
  {
    var mover := new Mover(LINKS_ONLY, found, {RECORD.Paths()});
    assert LINKS_ONLY.PathsFine(1) && LINKS_ONLY.ParksNot(11);
    var _ := mover.ReconcileCandidate(KEY, RECORD);
    final := mover.State();
  }

  /** A link that is made and reported as failed: the first attempt itself closes the journal. */
  method LinkDenied() returns (final: Durable)
    ensures Stranded(final, KEY, RECORD)
  {
    var env := Environment(false, (t, c) => if c == Linking then ActsAndFails(EIO) else Works, (t, f) => f,
        (t, c) => true);
    var found := Durable(Files(map[RECORD.source := 7], STATS), map[], map[]);
    var mover := new Mover(env, found, {RECORD.Paths()});
    assert env.LinkDenied(2) && AtSource(found.files, RECORD);
    var _ := mover.RunMove(KEY, RECORD);
    final := mover.State();
  }

  /** A rename that is done and reported as failed: the stored result denies it, and the journal is closed. */
  method RenameDenied() returns (final: Durable)
    ensures KEY in final.results && final.results[KEY].state != MOVED
    ensures KEY in final.journal && final.journal[KEY] == JournalReconciled
    ensures final.files != Files(map[RECORD.source := 7], STATS)
  {
    var env := Environment(true, (t, c) => if c == RenamingNoReplace then ActsAndFails(EIO) else Works, (t, f) => f,
                           (t, c) => true);
    var found := Durable(Files(map[RECORD.source := 7], STATS), map[], map[]);
    var mover := new Mover(env, found, {RECORD.Paths()});
    assert env.RenameDenied(2) && env.Misleads(2) && AtSource(found.files, RECORD);
    var _ := mover.RunMove(KEY, RECORD);
    final := mover.State();
  }

  /** A move that stopped with the file under both names, and one of the three path checks failing when
      recovery looks: the journal is closed and the tree left as it was. */
  method ClosedOnAPathCheck(check: Check) returns (final: Durable)
    requires check == NoSourceSymlink || check == NoDestinationSymlink || check == PathsWithinRoots
    ensures Stranded(final, KEY, RECORD) && ClosedUnlooked(final, KEY)
    ensures final.files == Files(map[RECORD.source := 7, RECORD.destination := 7], STATS)
  {
    var env := Environment(true, (t, c) => Works, (t, f) => f, (t, c) => c != check);
    var found := Durable(Files(map[RECORD.source := 7, RECORD.destination := 7], STATS), map[KEY := JournalPrepared],
        map[]);
    var mover := new Mover(env, found, {RECORD.Paths()});
    assert !env.PathsFine(1) && HalfLinked(found.files, RECORD);
    var _ := mover.ReconcileCandidate(KEY, RECORD);
    final := mover.State();
  }

  // -- whole runs ------------------------------------------------------------

  datatype Work = Move(key: Key) | Reconcile

  /** One process: its surroundings, what it is asked to do, and the durable write after which it
      dies; at 0 it dies before the first, and past its last write it does not die. */
  datatype Life = Life(env: Environment, work: seq<Work>, crash: nat)

  /** Any number of processes, one after another, each in surroundings of its own in which anything
      may fail and anybody may interfere, each cut off anywhere. The whole is one legal run in which
      every own step is harmless and confined to the three names of one recorded move; at every crash
      point a closed journal has its result; and no result, once stored, is ever lost or changed. */
  method AnyRun(lives: seq<Life>, listings: Durable -> seq<Key>, found: Durable, records: map<Key, Record>)
    returns (final: Durable, trail: seq<Durable>, ghost story: seq<Step>)
    requires forall i | 0 <= i < |lives| :: lives[i].env.Sound()
    requires InOrder(found) && Catalogued(records)
    requires forall d: Durable, k :: k in listings(d) <==> k in d.journal && d.journal[k] != JournalReconciled
    ensures Legal(found.files, story) && Reached(found.files, story) == final.files
    ensures EachOwned(story, Owners(records))
    ensures InOrder(final) && forall d | d in trail :: InOrder(d)
    ensures Chained(found.results, trail, final.results)
  {
    final, trail, story := found, [], [];
    for i := 0 to |lives|
      invariant Legal(found.files, story) && Reached(found.files, story) == final.files
      invariant EachOwned(story, Owners(records))
      invariant InOrder(final) && forall d | d in trail :: InOrder(d)
      invariant Chained(found.results, trail, final.results)
    {
      var left, more, steps := OneLife(lives[i], listings, final, records);
      LegalConcat(found.files, story, steps);
      ChainConcat(found.results, trail, final.results, more, left.results);
      final, trail, story := left, trail + more, story + steps;
    }
  }

  /** From `first` over each entry of `trail` to `last`, results are only added. */
  ghost predicate Chained(first: map<Key, MoveResult>, trail: seq<Durable>, last: map<Key, MoveResult>) {
    && ResultsKept(first, last)
    && (forall i | 0 <= i < |trail| :: ResultsKept(first, trail[i].results) && ResultsKept(trail[i].results, last))
    && (forall i, j | 0 <= i < j < |trail| :: ResultsKept(trail[i].results, trail[j].results))
  }

  lemma ChainConcat(first: map<Key, MoveResult>, trail: seq<Durable>, middle: map<Key, MoveResult>,
                    more: seq<Durable>, last: map<Key, MoveResult>)
    requires Chained(first, trail, middle) && Chained(middle, more, last)
    ensures Chained(first, trail + more, last)
  {
  }

  /** What one process leaves, and its crash points up to its death. */
  method OneLife(life: Life, listings: Durable -> seq<Key>, found: Durable, records: map<Key, Record>)
    returns (left: Durable, trail: seq<Durable>, ghost story: seq<Step>)
    requires life.env.Sound() && InOrder(found) && Catalogued(records)
    requires forall d: Durable, k :: k in listings(d) <==> k in d.journal && d.journal[k] != JournalReconciled
    ensures Legal(found.files, story) && Reached(found.files, story) == left.files
    ensures EachOwned(story, Owners(records))
    ensures InOrder(left) && forall d | d in trail :: InOrder(d)
    ensures Chained(found.results, trail, left.results)
  {
    var mover := new Mover(life.env, found, Owners(records));
    for i := 0 to |life.work|
      invariant mover.Valid() && fresh(mover)
      invariant mover.start == found.files && mover.kept == found.results && mover.owners == Owners(records)
    {
      match life.work[i]
      case Move(key) =>
        if key in records {
          var _ := mover.RunMove(key, records[key]);
        }
      case Reconcile =>
        var _ := mover.ReconcileMoves(listings(mover.State()), records, {});
    }
    left := Survivor(found, mover.trace, mover.State(), life.crash);
    trail := if life.crash <= |mover.trace| then mover.trace[..life.crash] else mover.trace;
    story := if life.crash == 0 then []
             else if life.crash <= |mover.trace| then mover.tales[life.crash - 1] else mover.story;
    CutShort(found, records, mover.tales, mover.trace, mover.story, mover.State(), life.crash);
  }

  /** A process cut off after its `crash`-th write leaves the run up to there. */
  lemma CutShort(found: Durable, records: map<Key, Record>, tales: seq<seq<Step>>, trace: seq<Durable>,
                 tale: seq<Step>, d: Durable, crash: nat)
    requires InOrder(found) && Recount(found.files, found.results, Owners(records), tale, d)
    requires Recounted(found.files, found.results, Owners(records), tales, trace) && AllKept(trace, d.results)
    ensures var left := Survivor(found, trace, d, crash);
            var trail := if crash <= |trace| then trace[..crash] else trace;
            var story := if crash == 0 then [] else if crash <= |trace| then tales[crash - 1] else tale;
            && Recount(found.files, found.results, Owners(records), story, left)
            && (forall d | d in trail :: InOrder(d)) && Chained(found.results, trail, left.results)
  {
    EachInOrder(found.files, found.results, Owners(records), tales, trace);
    if 0 < crash <= |trace| {
      assert Recount(found.files, found.results, Owners(records), tales[crash - 1], trace[crash - 1]);
    }
  }

  /** A move begun on a clean tree, with other moves pending. The process dies after any of its durable
      writes, again and again: in the move itself, then in one reconcile pass after another. The first
      pass that is left to run ends with every move that had begun finished. */
  method MoveThroughCrashes(env: nat -> Environment, crashes: seq<nat>, listings: Durable -> seq<Key>, found: Durable,
                            key: Key, records: map<Key, Record>, ghost begun: set<Key>) returns (final: Durable)
    requires forall i :: env(i).Sound() && env(i).Smooth()
    requires forall d: Durable, k :: k in listings(d) <==> k in d.journal && d.journal[k] != JournalReconciled
    requires InOrder(found) && Catalogued(records) && Pending(found, records, begun) && Apart(records, begun + {key})
    requires key in records && key !in found.journal && key !in found.results && AtSource(found.files, records[key])
    ensures forall k | k in begun :: Finished(final, k, records[k])
    ensures crashes == [] || crashes[0] > 0 ==> Finished(final, key, records[key])
  {
    var done, left := MovePass(env(0), found, key, records, if crashes == [] then 0 else crashes[0], begun);
    final := if crashes == [] then done else left;
    ghost var all := begun + (if crashes == [] || crashes[0] > 0 then {key} else {});
    var i := 1;
    while i < |crashes|
      invariant InOrder(final) && Pending(final, records, all)
    {
      var _, left := ReconcilePass(env(i), final, listings(final), records, crashes[i], all);
      final, i := left, i + 1;
    }
    var last, _ := ReconcilePass(env(|crashes|), final, listings(final), records, 0, all);
    final := last;
  }

  /** A fresh process moves; `left` is what it leaves if it dies after its `crash`-th write. */
  method MovePass(env: Environment, found: Durable, key: Key, records: map<Key, Record>, crash: nat,
                  ghost begun: set<Key>)
    returns (final: Durable, left: Durable)
    requires env.Sound() && env.Smooth() && InOrder(found) && Catalogued(records)
    requires Pending(found, records, begun) && Apart(records, begun + {key})
    requires key in records && key !in found.journal && key !in found.results && AtSource(found.files, records[key])
    ensures Finished(final, key, records[key])
    ensures InOrder(final) && Pending(final, records, begun + {key})
    ensures InOrder(left) && Pending(left, records, begun + (if crash > 0 then {key} else {}))
  {
    var mover := new Mover(env, found, Owners(records));
    assert records[key].Distinct() by {
      assert key in begun + {key};
    }
    var _ := mover.RunMove(key, records[key]);
    final := mover.State();
    EachInOrder(mover.start, mover.kept, mover.owners, mover.tales, mover.trace);
    left := Survivor(found, mover.trace, final, crash);
    CoursePending(found, final, mover.trace, 0, key, records, begun);
    assert begun + {} == begun;
  }

  /** A fresh process reconciles; `left` is what it leaves if it dies after its `crash`-th write. */
  method ReconcilePass(env: Environment, found: Durable, listing: seq<Key>, records: map<Key, Record>, crash: nat,
                       ghost begun: set<Key>)
    returns (final: Durable, left: Durable)
    requires env.Sound() && env.Smooth() && InOrder(found) && Catalogued(records)
    requires Pending(found, records, begun)
    requires forall k :: k in listing <==> k in found.journal && found.journal[k] != JournalReconciled
    ensures InOrder(final) && Pending(final, records, begun)
    ensures InOrder(left) && Pending(left, records, begun)
    ensures forall k | k in begun :: Finished(final, k, records[k])
  {
    var mover := new Mover(env, found, Owners(records));
    var _ := mover.ReconcileMoves(listing, records, begun);
    final := mover.State();
    EachInOrder(mover.start, mover.kept, mover.owners, mover.tales, mover.trace);
    left := Survivor(found, mover.trace, final, crash);
  }

  /** What a process leaves that died right after its `crash`-th write, if it made that many. */
  function Survivor(before: Durable, trace: seq<Durable>, after: Durable, crash: nat): Durable {
    if crash == 0 then before else if crash <= |trace| then trace[crash - 1] else after
  }
}
