/**
 The CloudDrive move: a journalled call to a remote `MoveFile` that must never be made twice, and
 the later passes that only watch what became of it.

 The remote is a `Remote` of arbitrary answers: it may act at once, later or never, refuse, or lose
 the connection. `submissions` logs every MoveFile call; `trace` holds what a process that dies
 after any of its writes or calls leaves to the next one. The mutation lock makes one process at a
 time run these methods, so a run of several processes is a sequence of them.
 */
module CloudMove {
  import opened Options
  import opened Records

  type CloudPath = string

  /** What `matches_identity` compares; the path is not part of it. */
  datatype Identity = Identity(fileId: string, name: string, size: nat, writeTime: nat, hashes: seq<(string, string)>)

  datatype Candidate = Candidate(source: CloudPath, destinationDir: CloudPath, file: Identity) {
    function Destination(): CloudPath { destinationDir + "/" + file.name }
  }

  /** An answer to "is there a file at this path". */
  datatype Sight = Unreachable | Absent | Present(file: Identity)

  datatype Listing = ListingFailed | NoDirectory | Listed

  datatype Response = TransportFailed | Answered(success: bool)

  datatype Remote = Remote(
    configured: nat -> bool,
    rootsReady: nat -> bool,
    mappingFault: nat -> Option<ErrorCode>,
    destinationUnchanged: nat -> bool,
    stat: (nat, CloudPath) -> Sight,
    list: (nat, CloudPath) -> Listing,
    ensureDirectory: nat -> bool,
    submit: nat -> Response,
    clock: nat -> int,
    token: nat -> string)

  const VERIFY_ATTEMPTS := 5
  /** Fifteen minutes, in seconds. */
  const OBSERVATION_GRACE := 900

  datatype Operation = Operation(attemptId: string, source: CloudPath, destinationDir: CloudPath, state: CloudState,
                                 updatedAt: int, error: Option<ErrorCode>)

  datatype Instant = Instant(operations: map<Key, Operation>, results: map<Key, MoveResult>, submissions: seq<Key>)

  function Calls(log: seq<Key>, key: Key): nat {
    multiset(log)[key]
  }

  /** The record invariant of an operation: an error code exactly in the states that need one. */
  predicate ErrorRule(op: Operation) {
    op.error.Some? <==> op.state.NeedsError()
  }

  /** The stored result of a terminal operation says what the operation says. */
  predicate Agrees(op: Operation, result: MoveResult) {
    && result.error == op.error
    && (op.state == Succeeded <==> result.state == MOVED)
    && (op.state == Conflict <==> result.state == CONFLICT)
  }

  function Get<V>(rows: map<Key, V>, key: Key): Option<V> {
    if key in rows then Some(rows[key]) else None
  }

  /** What is true of one candidate's rows: the operation is the candidate's, an error code is there
      exactly when one is due, a terminal operation has its result and an open one has none, and
      MoveFile was called at most once, and never before the call was announced. */
  predicate RowSane(operation: Option<Operation>, result: Option<MoveResult>, calls: nat,
                    candidate: Option<Candidate>)
  {
    && calls <= 1
    && match operation
       case None => calls == 0
       case Some(op) =>
         && candidate.Some? && op.source == candidate.value.source
         && op.destinationDir == candidate.value.destinationDir
         && ErrorRule(op)
         && (op.state.Terminal() <==> result.Some?)
         && (result.Some? ==> Agrees(op, result.value))
         && (op.state == Prepared || op.error == Some(CloudMoveNotSubmitted) ==> calls == 0)
  }

  /** What is true between any two writes of any run. */
  ghost predicate Sane(i: Instant, candidates: map<Key, Candidate>) {
    && (forall k :: RowSane(Get(i.operations, k), Get(i.results, k), Calls(i.submissions, k), Get(candidates, k)))
    && OneOpenPerSource(i.operations) && Named(i.results)
  }

  ghost predicate OneOpenPerSource(operations: map<Key, Operation>) {
    forall k, k' | k in operations && k' in operations && k != k'
                   && !operations[k].state.Terminal() && !operations[k'].state.Terminal() ::
      operations[k].source != operations[k'].source
  }

  /** How stored rows may change from one moment of a run to a later one. */
  ghost predicate Evolves(before: Instant, after: Instant) {
    && (forall k :: RowEvolves(Get(before.operations, k), Get(after.operations, k),
                               Get(before.results, k), Get(after.results, k)))
    && before.submissions <= after.submissions
  }

  predicate RowEvolves(op: Option<Operation>, op': Option<Operation>, result: Option<MoveResult>,
                       result': Option<MoveResult>)
  {
    && (result.Some? ==> result' == result)
    && (op.Some? ==> op'.Some? && Onward(op.value, op'.value))
  }

  /** Same attempt, never a step back, and a terminal operation is never written again. */
  predicate Onward(before: Operation, after: Operation) {
    && before.attemptId == after.attemptId
    && CloudProgress(before.state) <= CloudProgress(after.state)
    && (before.state.Terminal() ==> after == before)
  }

  /** Nothing but `key`'s rows changed. */
  ghost predicate OnlyRow(before: Instant, after: Instant, key: Key) {
    && before.operations - {key} == after.operations - {key}
    && before.results - {key} == after.results - {key}
  }

  /** Writing one candidate's rows keeps everybody's, if its own come out sane. */
  lemma PutRows(i: Instant, i': Instant, key: Key, candidates: map<Key, Candidate>)
    requires Sane(i, candidates) && OnlyRow(i, i', key) && i.submissions == i'.submissions
    requires RowSane(Get(i'.operations, key), Get(i'.results, key), Calls(i.submissions, key), Get(candidates, key))
    requires RowEvolves(Get(i.operations, key), Get(i'.operations, key), Get(i.results, key), Get(i'.results, key))
    requires key in i'.operations && !i'.operations[key].state.Terminal() ==>
               SourceFree(i.operations, key, i'.operations[key].source)
    requires key in i'.results ==> i'.results[key].candidateId == key.candidateId
    ensures Sane(i', candidates) && Evolves(i, i')
  {
    forall k | k != key
      ensures Get(i'.operations, k) == Get(i.operations, k) && Get(i'.results, k) == Get(i.results, k)
    {
      assert k in i.operations - {key} <==> k in i'.operations - {key};
      assert k in i.results - {key} <==> k in i'.results - {key};
    }
    forall k ensures RowSane(Get(i'.operations, k), Get(i'.results, k), Calls(i'.submissions, k), Get(candidates, k)) {
      assert RowSane(Get(i.operations, k), Get(i.results, k), Calls(i.submissions, k), Get(candidates, k));
    }
    forall k | k in i'.results && k != key ensures i'.results[k].candidateId == k.candidateId {
      assert Get(i'.results, k) == Get(i.results, k);
      assert i.results[k].candidateId == k.candidateId;
    }
    forall k, k' | k in i'.operations && k' in i'.operations && k != k'
                   && !i'.operations[k].state.Terminal() && !i'.operations[k'].state.Terminal()
      ensures i'.operations[k].source != i'.operations[k'].source
    {
      assert k == key || Get(i'.operations, k) == Get(i.operations, k);
      assert k' == key || Get(i'.operations, k') == Get(i.operations, k');
    }
  }

  /** No other operation on `source` is open. */
  ghost predicate SourceFree(operations: map<Key, Operation>, key: Key, source: CloudPath) {
    forall k | k in operations && k != key && !operations[k].state.Terminal() :: operations[k].source != source
  }

  class CloudMover {
    const remote: Remote
    const candidates: map<Key, Candidate>
    var operations: map<Key, Operation>
    var results: map<Key, MoveResult>
    var submissions: seq<Key>
    /** Every question to the outside happens at its own instant. */
    var now: nat
    var trace: seq<Instant>
    /** What this process started on. */
    ghost const origin: Instant

    function State(): Instant
      reads this
    {
      Instant(operations, results, submissions)
    }

    ghost predicate Valid()
      reads this
    {
      && Sane(State(), candidates) && Evolves(origin, State())
      && forall i | i in trace :: Sane(i, candidates) && Evolves(origin, i)
    }

    /** What every operation keeps. */
    twostate predicate Progress(key: Key)
      reads this
    {
      Evolves(old(State()), State()) && OnlyRow(old(State()), State(), key) && old(trace) <= trace && old(now) <= now
    }

    /** A process starts, for the first time or after a crash, on what it finds. */
    constructor (remote: Remote, candidates: map<Key, Candidate>, found: Instant)
      requires Sane(found, candidates)
      ensures Valid() && this.remote == remote && this.candidates == candidates && State() == found && trace == []
      ensures origin == found
    {
      this.remote, this.candidates := remote, candidates;
      operations, results, submissions := found.operations, found.results, found.submissions;
      now, trace, origin := 0, [], found;
    }

    // -- the repository ------------------------------------------------------

    /** `_save_cloud_move_operation_locked`, which raises unless all of this holds. */
    ghost predicate Acceptable(key: Key, op: Operation)
      reads this
    {
      && key in candidates && op.source == candidates[key].source && op.destinationDir == candidates[key].destinationDir
      && ErrorRule(op)
      && CloudMayBecome(if key in operations then Some(operations[key].state) else None, op.state)
      && (key in operations ==> operations[key].attemptId == op.attemptId)
      && (!op.state.Terminal() ==> SourceFree(operations, key, op.source))
    }

    /** An update of an open operation; the repository never has to refuse one. */
    method SaveOperation(key: Key, op: Operation)
      requires Valid() && Acceptable(key, op) && !op.state.Terminal() && key in operations && key !in results
      requires op.error != Some(CloudMoveNotSubmitted)
      modifies `operations, `trace
      ensures Valid() && Progress(key) && operations == old(operations)[key := op]
    {
      operations := operations[key := op];
      PutRows(old(State()), State(), key, candidates);
      EvolvesOn(origin, old(State()), State());
      trace := trace + [State()];
    }

    /** The first write of an operation, refused while another one for the same source is open. */
    method OpenOperation(key: Key, op: Operation) returns (saved: bool)
      requires Valid() && op.state == Prepared && ErrorRule(op) && key !in operations && key !in results
      requires key in candidates && op.source == candidates[key].source
      requires op.destinationDir == candidates[key].destinationDir
      modifies `operations, `trace
      ensures Valid() && Progress(key)
      ensures saved <==> SourceFree(old(operations), key, op.source)
      ensures operations == if saved then old(operations)[key := op] else old(operations)
    {
      if exists k | k in operations :: !operations[k].state.Terminal() && operations[k].source == op.source {
        return false;
      }
      operations := operations[key := op];
      PutRows(old(State()), State(), key, candidates);
      EvolvesOn(origin, old(State()), State());
      trace := trace + [State()];
      return true;
    }

    /** `finalize_cloud_move`: operation and result in one write. */
    method Finalize(key: Key, op: Operation, result: MoveResult)
      requires Valid() && Acceptable(key, op) && op.state.Terminal() && key in operations && key !in results
      requires result.candidateId == key.candidateId
      requires Agrees(op, result) && (op.error == Some(CloudMoveNotSubmitted) ==> Calls(submissions, key) == 0)
      requires !operations[key].state.Terminal()
      modifies `operations, `results, `trace
      ensures Valid() && Progress(key)
      ensures operations == old(operations)[key := op] && results == old(results)[key := result]
    {
      operations, results := operations[key := op], results[key := result];
      PutRows(old(State()), State(), key, candidates);
      EvolvesOn(origin, old(State()), State());
      trace := trace + [State()];
    }

    /** A verdict reached before anything was announced. */
    method SaveResult(key: Key, result: MoveResult)
      requires Valid() && key !in operations && key !in results && result.candidateId == key.candidateId
      modifies `results, `trace
      ensures Valid() && Progress(key) && results == old(results)[key := result]
    {
      results := results[key := result];
      PutRows(old(State()), State(), key, candidates);
      EvolvesOn(origin, old(State()), State());
      trace := trace + [State()];
    }

    // -- the remote ----------------------------------------------------------

    method Stat(path: CloudPath) returns (sight: Sight)
      modifies `now
      ensures sight == remote.stat(old(now), path) && now == old(now) + 1
    {
      sight, now := remote.stat(now, path), now + 1;
    }

    method ListDirectory(path: CloudPath) returns (listing: Listing)
      modifies `now
      ensures listing == remote.list(old(now), path) && now == old(now) + 1
    {
      listing, now := remote.list(now, path), now + 1;
    }

    /** The one call that must not be repeated: only for an operation announced and not yet made. */
    method SubmitMove(key: Key) returns (response: Response)
      requires Valid() && key in operations && operations[key].state == Submitting && Calls(submissions, key) == 0
      modifies `submissions, `trace, `now
      ensures Valid() && Progress(key) && submissions == old(submissions) + [key]
    {
      response, now := remote.submit(now), now + 1;
      submissions := submissions + [key];
      CountCall(old(State()), State(), key, candidates);
      EvolvesOn(origin, old(State()), State());
      trace := trace + [State()];
    }

    // -- the service, under the mutation lock --------------------------------

    method Result(key: Key, state: MoveState, error: ErrorCode) returns (result: MoveResult)
      ensures result == MoveResult(key.candidateId, state, Some(error))
    {
      return MoveResult(key.candidateId, state, Some(error));
    }

    /** A verdict that ends the candidate before any operation exists. */
    method Settle(key: Key, state: MoveState, error: ErrorCode) returns (result: MoveResult)
      requires Valid() && key !in operations && key !in results
      modifies `results, `trace
      ensures Valid() && Progress(key) && operations == old(operations) && submissions == old(submissions)
      ensures result == MoveResult(key.candidateId, state, Some(error)) && key in results && results[key] == result
    {
      result := MoveResult(key.candidateId, state, Some(error));
      SaveResult(key, result);
    }

    /** `_advance_cloud_operation`. */
    method Advance(key: Key, state: CloudState, error: Option<ErrorCode>)
      requires Valid() && key in operations && key !in results && !state.Terminal()
      requires CloudMayBecome(Some(operations[key].state), state)
      requires (error.Some? <==> state.NeedsError()) && error != Some(CloudMoveNotSubmitted)
      modifies `operations, `trace, `now
      ensures Valid() && Progress(key) && results == old(results) && submissions == old(submissions)
      ensures key in operations && operations[key].state == state && operations[key].error == error
    {
      var op := operations[key];
      OpenIsAlone(State(), key, candidates);
      var updatedAt := remote.clock(now);
      now := now + 1;
      SaveOperation(key, op.(state := state, updatedAt := updatedAt, error := error));
    }

    /** `_complete_cloud_move`. */
    method Complete(key: Key, state: CloudState, moveState: MoveState, error: Option<ErrorCode>)
      returns (result: MoveResult)
      requires Valid() && key in operations && key !in results && state.Terminal()
      requires CloudMayBecome(Some(operations[key].state), state)
      requires error.Some? <==> state != Succeeded
      requires (state == Succeeded <==> moveState == MOVED) && (state == Conflict <==> moveState == CONFLICT)
      requires error == Some(CloudMoveNotSubmitted) ==> operations[key].state == Prepared
      modifies `operations, `results, `trace, `now
      ensures Valid() && Progress(key) && submissions == old(submissions)
      ensures result == MoveResult(key.candidateId, moveState, error) && key in results && results[key] == result
      ensures key in operations && operations[key].state == state
    {
      OpenRow(State(), key, candidates);
      result := MoveResult(key.candidateId, moveState, error);
      var updatedAt := remote.clock(now);
      now := now + 1;
      Finalize(key, operations[key].(state := state, updatedAt := updatedAt, error := error), result);
    }

    /** `_observe_cloud_move`: look at both ends and conclude, or keep the operation open. */
    method Observe(key: Key, response: Option<bool>, final: bool) returns (result: MoveResult)
      requires Valid() && key in operations && key in candidates && key !in results
      requires operations[key].state in {Verifying, Unknown}
      modifies `operations, `results, `trace, `now
      ensures Valid() && Progress(key) && submissions == old(submissions)
      ensures result.candidateId == key.candidateId
      // What is stored rests on what was seen just now, source first.
      ensures key in results ==> results[key] == result
      ensures key in results ==>
                Supports(candidates[key], remote.stat(old(now), candidates[key].source),
                         remote.stat(old(now) + 1, candidates[key].Destination()),
                         old(operations[key]), response, final, remote.clock(old(now) + 2), result)
      ensures key !in results ==> StillOpen(key, final, result)
      // A move seen through is never missed.
      ensures remote.stat(old(now), candidates[key].source) == Absent
              && remote.stat(old(now) + 1, candidates[key].Destination()) == Present(candidates[key].file) ==>
                result == MoveResult(key.candidateId, MOVED, None) && key in results
    {
      OpenRow(State(), key, candidates);
      var c := candidates[key];
      var op := operations[key];
      var source := Stat(op.source);
      var destination := Absent;
      if source != Unreachable {
        destination := Stat(op.destinationDir + "/" + c.file.name);
      }
      if source == Unreachable || destination == Unreachable {
        if op.state != Unknown {
          Advance(key, Unknown, Some(CloudObservationFailed));
        }
        result := Result(key, FAILED, CloudMoveStatusUnknown);
        return;
      }
      result := Conclude(key, source, destination, response, final);
    }

    /** The verdict on what `_observe_cloud_move` saw, if what it saw allows one. */
    method Conclude(key: Key, source: Sight, destination: Sight, response: Option<bool>, final: bool)
      returns (result: MoveResult)
      requires Valid() && key in operations && key in candidates && key !in results
      requires operations[key].state in {Verifying, Unknown}
      requires source != Unreachable && destination != Unreachable
      modifies `operations, `results, `trace, `now
      ensures Valid() && Progress(key) && submissions == old(submissions)
      ensures result.candidateId == key.candidateId
      ensures key in results ==> results[key] == result
      ensures key in results ==>
                Supports(candidates[key], source, destination, old(operations[key]), response, final,
                         remote.clock(old(now)), result)
      ensures key !in results ==> StillOpen(key, final, result)
      ensures source == Absent && destination == Present(candidates[key].file) ==>
                result == MoveResult(key.candidateId, MOVED, None) && key in results
    {
      var file := candidates[key].file;
      var sourceMatches := source == Present(file);
      var destinationMatches := destination == Present(file);
      if source == Absent && destinationMatches {
        result := Complete(key, Succeeded, MOVED, None);
        return;
      }
      if sourceMatches && destination != Absent && !destinationMatches {
        result := Complete(key, Conflict, CONFLICT, Some(CloudDestinationExists));
        return;
      }
      if source != Absent && !sourceMatches {
        result := Complete(key, Failed, STALE, Some(CloudSourceChanged));
        return;
      }
      if response == Some(false) && sourceMatches && destination == Absent {
        result := Complete(key, Failed, FAILED, Some(CloudMoveRejected));
        return;
      }
      var overdue := remote.clock(now) - operations[key].updatedAt >= OBSERVATION_GRACE;
      if final && response == None && sourceMatches && destination == Absent && overdue {
        result := Complete(key, Failed, FAILED, Some(CloudMoveNotObserved));
        return;
      }
      if !final {
        result := Result(key, FAILED, CloudMoveVerifying);
        return;
      }
      if operations[key].state != Unknown {
        Advance(key, Unknown, Some(CloudMoveStatusUnknown));
      }
      result := Result(key, FAILED, CloudMoveStatusUnknown);
    }

    /** No verdict yet: the operation stays under observation. */
    ghost predicate StillOpen(key: Key, final: bool, result: MoveResult)
      reads this
    {
      && key in operations && operations[key].state in {Verifying, Unknown}
      && result.state == FAILED && result.error in {Some(CloudMoveStatusUnknown), Some(CloudMoveVerifying)}
      && (final ==> result.error == Some(CloudMoveStatusUnknown))
      && (result.error == Some(CloudMoveStatusUnknown) ==> operations[key].state == Unknown)
    }

    /** `_recover_cloud_move`. Its answer to a terminal operation is dead code: every caller has just
        found that there is no result, and then the operation is open. */
    method Recover(key: Key) returns (result: MoveResult)
      requires Valid() && key in operations && key !in results
      modifies `operations, `results, `trace, `now
      ensures Valid() && Progress(key) && submissions == old(submissions)
      ensures result.candidateId == key.candidateId
      ensures key in operations && (key in results ==> results[key] == result)
      ensures old(operations[key]).state == Prepared ==>
                result == MoveResult(key.candidateId, FAILED, Some(CloudMoveNotSubmitted)) && key in results
    {
      OpenRow(State(), key, candidates);
      if operations[key].state.Terminal() {
        assert false;
      }
      if operations[key].state == Prepared {
        result := Complete(key, Failed, FAILED, Some(CloudMoveNotSubmitted));
        return;
      }
      if operations[key].state == Submitting {
        Advance(key, Unknown, Some(CloudMoveInterrupted));
      }
      OpenRow(State(), key, candidates);
      result := Observe(key, None, true);
    }

    /** The preflight of `_run_cloud_move`: why no operation is begun, and whether that is final. */
    method Preflight(key: Key) returns (refusal: Option<(MoveState, ErrorCode)>, final: bool)
      requires key in candidates
      modifies `now
      ensures old(now) <= now
      // The last two looks before the announcement.
      ensures refusal == None ==>
                && old(now) + 2 <= now
                && remote.stat(now - 2, candidates[key].source) == Present(candidates[key].file)
                && remote.stat(now - 1, candidates[key].Destination()) == Absent
      ensures refusal.Some? ==>
                refusal.value.0 in {STALE, CONFLICT, INVALID_PATH, FAILED} && (final <==> refusal.value.0 != FAILED)
      ensures refusal.Some? && !final ==> refusal.value.1 == CloudPreflightFailed
    {
      var c := candidates[key];
      var fault := remote.mappingFault(now);
      now := now + 1;
      if fault.Some? { return Some((STALE, fault.value)), true; }
      var source := Stat(c.source);
      if source == Unreachable { return Some((FAILED, CloudPreflightFailed)), false; }
      var listing := ListDirectory(c.destinationDir);
      if listing == ListingFailed { return Some((FAILED, CloudPreflightFailed)), false; }
      if source == Absent { return Some((STALE, CloudSourceMissing)), true; }
      if source != Present(c.file) { return Some((STALE, CloudSourceChanged)), true; }
      if listing == NoDirectory {
        if !remote.destinationUnchanged(now) { return Some((INVALID_PATH, CloudDestinationChanged)), true; }
        var ensured := remote.ensureDirectory(now);
        now := now + 1;
        if ensured {
          listing := ListDirectory(c.destinationDir);
        }
        if listing != Listed { return Some((INVALID_PATH, CloudDestinationMissing)), true; }
      }
      // The listing just taken is looked through for the destination's name.
      var destination := Stat(c.Destination());
      if destination.Present? { return Some((CONFLICT, CloudDestinationExists)), true; }
      // Looked at again right before the announcement.
      source := Stat(c.source);
      if source == Unreachable { return Some((FAILED, CloudPreflightFailed)), false; }
      destination := Stat(c.Destination());
      if destination == Unreachable { return Some((FAILED, CloudPreflightFailed)), false; }
      if source != Present(c.file) { return Some((STALE, CloudSourceChanged)), true; }
      if destination != Absent { return Some((CONFLICT, CloudDestinationExists)), true; }
      return None, true;
    }

    predicate Started(t: nat) {
      remote.configured(t) && remote.rootsReady(t)
    }

    /** `_run_cloud_move`. */
    method RunCloudMove(key: Key) returns (result: MoveResult)
      requires Valid() && key in candidates
      modifies this
      ensures Valid() && Progress(key)
      ensures result.candidateId == key.candidateId
      ensures key in old(results) ==> State() == old(State()) && trace == old(trace)
      ensures !remote.configured(old(now)) ==> result.error == Some(CloudMoveNotConfigured)
      ensures Started(old(now)) && key in old(results) ==> result == old(results)[key]
      ensures Started(old(now)) && key !in results && key !in operations ==>
                result.error in {Some(CloudPreflightFailed), Some(CloudMoveInProgress)}
      ensures key in results ==>
                result == results[key] || result.error in {Some(CloudMoveNotConfigured), Some(RootsUnavailable)}
      // An operation that is already there is only watched.
      ensures key in old(operations) ==> submissions == old(submissions)
      // One begun by this call has had its one MoveFile, and is decided or under observation.
      ensures key !in old(operations) && key in operations ==>
                submissions == old(submissions) + [key] && (key in results || operations[key].state == Unknown)
      ensures key !in operations ==> submissions == old(submissions)
      ensures key !in operations && key !in results ==>
                result.error in {Some(CloudMoveNotConfigured), Some(RootsUnavailable), Some(CloudPreflightFailed),
                                 Some(CloudMoveInProgress)}
    {
      if !remote.configured(now) {
        result := Result(key, FAILED, CloudMoveNotConfigured);
        return;
      }
      if !remote.rootsReady(now) {
        result := Result(key, FAILED, RootsUnavailable);
        return;
      }
      if key in results {
        assert results[key].candidateId == key.candidateId;
        return results[key];
      }
      if key in operations {
        result := Recover(key);
        return;
      }
      var refusal, final := Preflight(key);
      if refusal.Some? {
        if final {
          result := Settle(key, refusal.value.0, refusal.value.1);
        } else {
          result := Result(key, refusal.value.0, refusal.value.1);
        }
        return;
      }
      result := Begin(key);
    }

    /** Announce, call once, and watch. */
    method Begin(key: Key) returns (result: MoveResult)
      requires Valid() && key in candidates && key !in results && key !in operations
      modifies this
      ensures Valid() && Progress(key)
      ensures result.candidateId == key.candidateId
      ensures key in results ==> result == results[key]
      ensures if key in operations
              then submissions == old(submissions) + [key] && (key in results || operations[key].state == Unknown)
              else State() == old(State()) && result.error == Some(CloudMoveInProgress)
    {
      var c := candidates[key];
      var begun := OpenOperation(key,
          Operation(remote.token(now), c.source, c.destinationDir, Prepared, remote.clock(now), None));
      if !begun {
        result := Result(key, FAILED, CloudMoveInProgress);
        return;
      }
      Announce(key);
      result := SubmitAndVerify(key);
    }

    method Announce(key: Key)
      requires Valid() && key in operations && key !in results && operations[key].state == Prepared
      modifies `operations, `trace, `now
      ensures Valid() && Progress(key) && results == old(results) && submissions == old(submissions)
      ensures key in operations && operations[key].state == Submitting && Calls(submissions, key) == 0
    {
      OpenRow(State(), key, candidates);
      Advance(key, Submitting, None);
    }

    /** The call, and up to five looks at what it did. */
    method SubmitAndVerify(key: Key) returns (result: MoveResult)
      requires Valid() && key in operations && key !in results && operations[key].state == Submitting
      requires Calls(submissions, key) == 0
      modifies this
      ensures Valid() && Progress(key) && submissions == old(submissions) + [key] && key in operations
      ensures result.candidateId == key.candidateId
      ensures key in results ==> results[key] == result
      ensures key !in results ==>
                key in operations && operations[key].state == Unknown && result.error == Some(CloudMoveStatusUnknown)
    {
      var response := SubmitMove(key);
      if response == TransportFailed {
        Advance(key, Unknown, Some(CloudMoveTransportUnknown));
        OpenRow(State(), key, candidates);
        result := Observe(key, None, true);
        return;
      }
      Advance(key, Verifying, None);
      result := Verify(key, response.success);
    }

    method Verify(key: Key, success: bool) returns (result: MoveResult)
      requires Valid() && key in operations && key !in results && operations[key].state == Verifying
      modifies `operations, `results, `trace, `now
      ensures Valid() && Progress(key) && submissions == old(submissions) && key in operations
      ensures result.candidateId == key.candidateId
      ensures key in results ==> results[key] == result
      ensures key !in results ==>
                key in operations && operations[key].state == Unknown && result.error == Some(CloudMoveStatusUnknown)
    {
      OpenRow(State(), key, candidates);
      var attempt := 0;
      while attempt < VERIFY_ATTEMPTS
        invariant 0 <= attempt <= VERIFY_ATTEMPTS && Valid() && Progress(key) && submissions == old(submissions)
        invariant key in operations && key in candidates && key !in results
        invariant operations[key].state in {Verifying, Unknown}
        invariant attempt == VERIFY_ATTEMPTS ==> operations[key].state == Unknown
      {
        ghost var before := State();
        result := Observe(key, Some(success), attempt == VERIFY_ATTEMPTS - 1);
        EvolvesOn(old(State()), before, State());
        attempt := attempt + 1;
        if result.error != Some(CloudMoveVerifying) { return; }
      }
      result := Result(key, FAILED, CloudMoveStatusUnknown);
    }

    /** `reconcile_moves` in cloud mode: watch every open operation once more. */
    method ReconcileMoves(listing: seq<Key>) returns (watched: seq<MoveResult>)
      requires Valid()
      requires forall k | k in listing :: k in operations && !operations[k].state.Terminal()
      modifies this
      ensures Valid() && Evolves(old(State()), State()) && old(trace) <= trace
      ensures submissions == old(submissions)
    {
      watched := [];
      if !remote.rootsReady(now) { return; }
      var next := 0;
      while next < |listing|
        invariant 0 <= next <= |listing| && Valid() && Evolves(old(State()), State()) && old(trace) <= trace
        invariant submissions == old(submissions)
      {
        var key := listing[next];
        next := next + 1;
        if key in operations && !operations[key].state.Terminal() {
          ghost var before := State();
          OpenRow(before, key, candidates);
          var result := Recover(key);
          EvolvesOn(old(State()), before, State());
          watched := watched + [result];
        }
      }
    }
  }

  /** What a stored verdict rests on, given what was seen at both ends. */
  ghost predicate Supports(c: Candidate, source: Sight, destination: Sight, op: Operation, response: Option<bool>,
                           final: bool, clock: int, result: MoveResult)
  {
    && source != Unreachable && destination != Unreachable
    && (result.state == MOVED <==> source == Absent && destination == Present(c.file))
    && (result.state == CONFLICT <==>
          source == Present(c.file) && destination.Present? && destination != Present(c.file))
    && (result.state == STALE <==> source.Present? && source != Present(c.file))
    && (result.state == FAILED ==> source == Present(c.file) && destination == Absent)
    && result.state in {MOVED, CONFLICT, STALE, FAILED}
    && (result.state == MOVED ==> result.error == None)
    && (result.state == CONFLICT ==> result.error == Some(CloudDestinationExists))
    && (result.state == STALE ==> result.error == Some(CloudSourceChanged))
    && (result.state == FAILED ==>
          result.error == Some(if response == Some(false) then CloudMoveRejected else CloudMoveNotObserved))
    && (result.state == FAILED ==>
          response == Some(false) || (final && response == None && clock - op.updatedAt >= OBSERVATION_GRACE))
  }

  lemma OpenRow(i: Instant, key: Key, candidates: map<Key, Candidate>)
    requires Sane(i, candidates) && key in i.operations
    ensures RowSane(Some(i.operations[key]), Get(i.results, key), Calls(i.submissions, key), Get(candidates, key))
    ensures key in candidates && (i.operations[key].state.Terminal() <==> key in i.results)
  {
    assert RowSane(Get(i.operations, key), Get(i.results, key), Calls(i.submissions, key), Get(candidates, key));
  }

  lemma OpenIsAlone(i: Instant, key: Key, candidates: map<Key, Candidate>)
    requires Sane(i, candidates) && key in i.operations && key !in i.results
    ensures key in candidates && SourceFree(i.operations, key, i.operations[key].source)
    ensures RowSane(Some(i.operations[key]), None, Calls(i.submissions, key), Get(candidates, key))
  {
    OpenRow(i, key, candidates);
  }

  lemma CountCall(i: Instant, i': Instant, key: Key, candidates: map<Key, Candidate>)
    requires Sane(i, candidates) && i'.operations == i.operations && i'.results == i.results
    requires i'.submissions == i.submissions + [key]
    requires key in i.operations && i.operations[key].state == Submitting && Calls(i.submissions, key) == 0
    ensures Sane(i', candidates) && Evolves(i, i')
  {
    forall k ensures RowSane(Get(i'.operations, k), Get(i'.results, k), Calls(i'.submissions, k), Get(candidates, k)) {
      assert RowSane(Get(i.operations, k), Get(i.results, k), Calls(i.submissions, k), Get(candidates, k));
      assert Calls(i'.submissions, k) == Calls(i.submissions, k) + (if k == key then 1 else 0);
    }
    OpenRow(i, key, candidates);
  }

  lemma EvolvesOn(a: Instant, b: Instant, c: Instant)
    requires Evolves(a, b) && Evolves(b, c)
    ensures Evolves(a, c)
  {
    forall k ensures RowEvolves(Get(a.operations, k), Get(c.operations, k), Get(a.results, k), Get(c.results, k)) {
      assert RowEvolves(Get(a.operations, k), Get(b.operations, k), Get(a.results, k), Get(b.results, k));
      assert RowEvolves(Get(b.operations, k), Get(c.operations, k), Get(b.results, k), Get(c.results, k));
    }
  }

  datatype Work = Run(key: Key) | Reconcile

  /** Any number of processes, one after another under the lock, each against a remote of its own
      whims, each dying after any of its writes or calls (`crashes`). However that goes: MoveFile is
      called at most once per candidate, an operation that ended as never submitted has no call,
      no source has two open operations, and stored results and terminal operations stay as they are. */
  method AnyRun(remotes: nat -> Remote, candidates: map<Key, Candidate>, found: Instant, work: seq<Work>,
                crashes: nat -> nat,
                listings: map<Key, Operation> -> seq<Key>) returns (final: Instant)
    requires Sane(found, candidates)
    requires forall ops: map<Key, Operation>, k :: k in listings(ops) ==> k in ops && !ops[k].state.Terminal()
    ensures Evolves(found, final) && OneOpenPerSource(final.operations)
    ensures forall k :: Calls(final.submissions, k) <= 1
    ensures forall k | k in final.operations && final.operations[k].error == Some(CloudMoveNotSubmitted) ::
              Calls(final.submissions, k) == 0
    ensures forall k | k in final.operations && final.operations[k].state.Terminal() ::
              k in final.results && Agrees(final.operations[k], final.results[k])
    ensures Named(final.results)
  {
    final := found;
    for i := 0 to |work|
      invariant Sane(final, candidates) && Evolves(found, final)
    {
      ghost var before := final;
      final := OneProcess(remotes(i), candidates, final, work[i], crashes(i), listings);
      EvolvesOn(found, before, final);
    }
    SaneMeans(final, candidates);
  }

  lemma SaneMeans(i: Instant, candidates: map<Key, Candidate>)
    requires Sane(i, candidates)
    ensures forall k :: Calls(i.submissions, k) <= 1
    ensures forall k | k in i.operations && i.operations[k].error == Some(CloudMoveNotSubmitted) ::
              Calls(i.submissions, k) == 0
    ensures forall k | k in i.operations && i.operations[k].state.Terminal() ::
              k in i.results && Agrees(i.operations[k], i.results[k])
  {
    forall k
      ensures Calls(i.submissions, k) <= 1
      ensures k in i.operations ==>
                RowSane(Some(i.operations[k]), Get(i.results, k), Calls(i.submissions, k), Get(candidates, k))
    {
      assert RowSane(Get(i.operations, k), Get(i.results, k), Calls(i.submissions, k), Get(candidates, k));
    }
  }

  method OneProcess(remote: Remote, candidates: map<Key, Candidate>, found: Instant, work: Work, crash: nat,
                    listings: map<Key, Operation> -> seq<Key>)
    returns (left: Instant)
    requires Sane(found, candidates)
    requires forall ops: map<Key, Operation>, k :: k in listings(ops) ==> k in ops && !ops[k].state.Terminal()
    ensures Sane(left, candidates) && Evolves(found, left)
  {
    var mover := new CloudMover(remote, candidates, found);
    match work {
      case Run(key) => if key in candidates { var _ := mover.RunCloudMove(key); }
      case Reconcile => var _ := mover.ReconcileMoves(listings(mover.operations));
    }
    left := if crash < |mover.trace| then mover.trace[crash] else mover.State();
  }
}
