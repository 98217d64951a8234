/**
 `_queue_missing`: a pool of workers hands each missing title to the acquisition gateway. The workers
 share a queue, a semaphore that other jobs take permits from too, and a lock around the progress
 report. Each method of `Pool` is the stretch of one worker's code up to its next await, so any
 schedule is a sequence of them. Titles are told apart by their position in the input.
 */
module MissingQueue {
  import opened Options

  datatype Outcome = Accepted | SubmitFailed | Other(code: nat)

  /** Where a title is: in the queue, with a worker that awaits a permit, is in the gateway, or has
      its answer and awaits the lock, or counted as completed. */
  datatype Place = InQueue | Wanting | Calling | Answered | Told

  /** How many stretches of code a title still needs. */
  function Needs(place: Place): nat {
    match place case InQueue => 5 case Wanting => 4 case Calling => 3 case Answered => 2 case Told => 0
  }

  function Weight(places: seq<Place>): nat {
    if places == [] then 0 else Needs(places[0]) + Weight(places[1..])
  }

  lemma {:induction false} WeightOfUpdate(places: seq<Place>, p: nat, place: Place)
    requires p < |places|
    ensures Weight(places[p := place]) == Weight(places) - Needs(places[p]) + Needs(place)
  {
    if p == 0 {
      assert places[0 := place][1..] == places[1..];
    } else {
      assert places[p := place][1..] == places[1..][p - 1 := place];
      WeightOfUpdate(places[1..], p - 1, place);
    }
  }

  class Pool {
    const ids: seq<string>
    /** What the gateway answers, or SubmitFailed when it raises. */
    const answers: nat -> Outcome
    const workers: nat
    /** The semaphore's permits, of which other jobs hold `taken`. */
    const permits: nat
    var taken: nat
    var places: seq<Place>
    /** The titles still in the queue start here. */
    var next: nat
    /** Workers at the top of the loop, and workers that found the queue empty. */
    var idle: nat
    var gone: nat
    /** Titles a worker is busy with, the ones in the gateway, the one being reported. */
    var busy: set<nat>
    var calling: set<nat>
    var reporting: Option<nat>
    /** Titles counted as completed, and what each report said. */
    var told: set<nat>
    var reported: seq<nat>
    /** Titles handed to the gateway, in order. */
    var handed: seq<nat>
    var results: map<string, Outcome>

    ghost predicate Valid()
      reads this
    {
      && |places| == |ids| && next <= |ids| && |calling| + taken <= permits
      && (forall p | p in busy :: p < |ids|) && (forall p | p in calling :: p < |ids|)
      && (forall p | p in told :: p < |ids|) && (forall p | p in handed :: p < |ids|)
      && (reporting.Some? ==> reporting.value < |ids| && places[reporting.value].Told?)
      && (forall p | 0 <= p < |ids| :: PlaceSound(p))
      && idle + gone + |busy| == workers && (gone > 0 ==> next == |ids|)
      && (forall i, j | 0 <= i < j < |handed| :: handed[i] != handed[j])
      && |reported| == |told| && forall k | 0 <= k < |reported| :: reported[k] == k + 1
    }

    /** A title taken from the queue is with one worker until it is done; it is handed on when it gets
        a permit, and keeps an answer the gateway gave for it. */
    ghost predicate PlaceSound(p: nat)
      reads this
      requires p < |ids| == |places|
    {
      && (places[p].InQueue? <==> p >= next)
      && (p in busy <==> places[p].Wanting? || places[p].Calling? || places[p].Answered? || reporting == Some(p))
      && (p in calling <==> places[p].Calling?)
      && (p in told <==> places[p].Told?)
      && (p in handed <==> places[p].Calling? || places[p].Answered? || places[p].Told?)
      && (places[p].Answered? || places[p].Told? ==> ids[p] in results)
      && (ids[p] in results ==> AnswerFor(ids, answers, p, results[ids[p]]))
    }

    /** What is left to do; every stretch of a worker's code does some of it. */
    ghost function Left(): int
      reads this
    {
      Weight(places) + (if reporting.Some? then 1 else 0) + workers - gone
    }

    constructor (ids: seq<string>, answers: nat -> Outcome, concurrency: nat, taken: nat)
      requires taken <= concurrency
      ensures Valid() && this.ids == ids && this.answers == answers && permits == concurrency && gone == 0
      ensures this.taken == taken
      ensures workers == if concurrency < |ids| then concurrency else |ids|
    {
      this.ids, this.answers, permits, this.taken := ids, answers, concurrency, taken;
      workers := if concurrency < |ids| then concurrency else |ids|;
      idle := if concurrency < |ids| then concurrency else |ids|;
      places := seq(|ids|, p => InQueue);
      next, gone, busy, calling, reporting, told := 0, 0, {}, {}, None, {};
      reported, handed, results := [], [], map[];
    }

    predicate Stands(p: nat, place: Place)
      reads this
    {
      p < |places| && places[p] == place
    }

    /** `queue.get_nowait()`. */
    method Fetch()
      requires Valid() && idle > 0
      modifies `places, `next, `idle, `gone, `busy, `calling, `reporting, `told, `reported, `handed, `results
      ensures Left() == old(Left()) - 1
      ensures Valid() && handed == old(handed) && reported == old(reported)
    {
      assert next < |ids| ==> PlaceSound(next);
      idle := idle - 1;
      if next == |ids| {
        gone := gone + 1;
      } else {
        WeightOfUpdate(places, next, Wanting);
        places, busy, next := places[next := Wanting], busy + {next}, next + 1;
      }
      forall q | 0 <= q < |ids| ensures PlaceSound(q) {
        assert old(PlaceSound(q));
      }
    }

    /** The semaphore lets a worker in, and it calls the gateway. */
    method Enter(p: nat)
      requires Valid() && Stands(p, Wanting) && |calling| + taken < permits
      modifies `places, `next, `idle, `gone, `busy, `calling, `reporting, `told, `reported, `handed, `results
      ensures Left() == old(Left()) - 1
      ensures Valid() && handed == old(handed) + [p] && reported == old(reported)
    {
      assert PlaceSound(p);
      WeightOfUpdate(places, p, Calling);
      places, calling, handed := places[p := Calling], calling + {p}, handed + [p];
      forall q | 0 <= q < |ids| ensures PlaceSound(q) {
        assert old(PlaceSound(q));
      }
    }

    /** The gateway answered or raised. */
    method Leave(p: nat)
      requires Valid() && Stands(p, Calling)
      modifies `places, `next, `idle, `gone, `busy, `calling, `reporting, `told, `reported, `handed, `results
      ensures Left() == old(Left()) - 1
      ensures Valid() && handed == old(handed) && reported == old(reported)
      ensures ids[p] in results && results[ids[p]] == answers(p)
    {
      assert PlaceSound(p);
      WeightOfUpdate(places, p, Answered);
      places, calling := places[p := Answered], calling - {p};
      results := results[ids[p] := answers(p)];
      forall q | 0 <= q < |ids| ensures PlaceSound(q) {
        assert old(PlaceSound(q));
      }
    }

    /** The worker gets the lock, counts its title and reports. */
    method Report(p: nat)
      requires Valid() && Stands(p, Answered) && reporting == None
      modifies `places, `next, `idle, `gone, `busy, `calling, `reporting, `told, `reported, `handed, `results
      ensures Left() == old(Left()) - 1
      ensures Valid() && handed == old(handed) && reported == old(reported) + [|old(reported)| + 1]
    {
      assert PlaceSound(p);
      WeightOfUpdate(places, p, Told);
      places, told, reporting := places[p := Told], told + {p}, Some(p);
      reported := reported + [|reported| + 1];
      forall q | 0 <= q < |ids| ensures PlaceSound(q) {
        assert old(PlaceSound(q));
      }
    }

    /** The report is out, and the worker turns to the next title. */
    method Release()
      requires Valid() && reporting.Some?
      modifies `places, `next, `idle, `gone, `busy, `calling, `reporting, `told, `reported, `handed, `results
      ensures Left() == old(Left()) - 1
      ensures Valid() && handed == old(handed) && reported == old(reported)
    {
      assert PlaceSound(reporting.value);
      busy, reporting, idle := busy - {reporting.value}, None, idle + 1;
      forall q | 0 <= q < |ids| ensures PlaceSound(q) {
        assert old(PlaceSound(q));
      }
    }

    /** Another job takes or gives back permits. */
    method Others(now: nat)
      requires Valid() && |calling| + now <= permits
      modifies `taken
      ensures Valid()
    {
      taken := now;
      forall q | 0 <= q < |ids| ensures PlaceSound(q) {
        assert old(PlaceSound(q));
      }
    }

    /** Until all workers are gone, some worker can go on, unless other jobs hold every permit. */
    method SomeoneCanGoOn() returns (event: Event)
      requires Valid() && gone < workers && taken < permits
      ensures !event.PermitsTaken? && Possible(event)
    {
      if idle > 0 {
        return Fetches;
      }
      if reporting.Some? {
        return Releases;
      }
      var p :| p in busy;
      assert PlaceSound(p);
      if places[p].Wanting? && calling != {} {
        p :| p in calling;
        assert PlaceSound(p);
      }
      return if places[p].Wanting? then Enters(p) else if places[p].Calling? then Leaves(p) else Reports(p);
    }

    /** Whether this stretch of code can run now. */
    predicate Possible(event: Event)
      reads this
    {
      match event
      case Fetches => idle > 0
      case Enters(p) => Stands(p, Wanting) && |calling| + taken < permits
      case Leaves(p) => Stands(p, Calling)
      case Reports(p) => Stands(p, Answered) && reporting == None
      case Releases => reporting.Some?
      case PermitsTaken(now) => |calling| + now <= permits
    }

    method Do(event: Event)
      requires Valid()
      modifies this
      ensures Valid() && (event.PermitsTaken? || taken == old(taken))
      ensures old(Possible(event)) && !event.PermitsTaken? ==> Left() == old(Left()) - 1
    {
      if Possible(event) {
        match event {
          case Fetches => Fetch();
          case Enters(p) => Enter(p);
          case Leaves(p) => Leave(p);
          case Reports(p) => Report(p);
          case Releases => Release();
          case PermitsTaken(now) => Others(now);
        }
      }
    }

    /** `[results[video_id] for video_id in video_ids]`, once the workers are gone. */
    method Outcomes() returns (outcomes: seq<Result>)
      requires Valid() && gone == workers && (gone > 0 || ids == [])
      ensures |outcomes| == |ids| && |reported| == |ids| && forall p | 0 <= p < |ids| :: p in handed
      ensures forall p | 0 <= p < |ids| :: outcomes[p].id == ids[p] && AnswerFor(ids, answers, p, outcomes[p].outcome)
    {
      assert busy == {};
      forall p | 0 <= p < |ids|
        ensures p in told && p in handed && ids[p] in results && AnswerFor(ids, answers, p, results[ids[p]])
      {
        assert PlaceSound(p);
      }
      SizeOfAll(told, |ids|);
      outcomes := Collect(ids, results);
    }
  }

  datatype Result = Result(id: string, outcome: Outcome)

  method Collect(ids: seq<string>, results: map<string, Outcome>) returns (outcomes: seq<Result>)
    requires forall p | 0 <= p < |ids| :: ids[p] in results
    ensures |outcomes| == |ids| && forall p | 0 <= p < |ids| :: outcomes[p] == Result(ids[p], results[ids[p]])
  {
    outcomes := [];
    for p := 0 to |ids|
      invariant |outcomes| == p
      invariant forall q | 0 <= q < p :: outcomes[q] == Result(ids[q], results[ids[q]])
    {
      outcomes := outcomes + [Result(ids[p], results[ids[p]])];
    }
  }

  datatype Event = Fetches | Enters(p: nat) | Leaves(p: nat) | Reports(p: nat) | Releases | PermitsTaken(now: nat)

  /** What the run came to. `outcomes` is there once all workers are gone. */
  datatype Summary = Summary(handed: seq<nat>, reported: seq<nat>, calling: nat, outcomes: Option<seq<Result>>)

  /** For every schedule: no title is handed on twice, no more than `concurrency` calls are in flight,
      reports count 1, 2, 3 ... without gap or repeat; and when the workers are gone, every title was
      handed on, every title was reported, and the outcomes are in input order. */
  method AnyRun(ids: seq<string>, answers: nat -> Outcome, concurrency: nat, schedule: seq<Event>) returns (s: Summary)
    requires concurrency > 0
    ensures forall i, j | 0 <= i < j < |s.handed| :: s.handed[i] != s.handed[j]
    ensures forall i | 0 <= i < |s.handed| :: s.handed[i] < |ids|
    ensures s.calling <= concurrency
    ensures |s.reported| <= |ids| && forall k | 0 <= k < |s.reported| :: s.reported[k] == k + 1
    ensures s.outcomes.Some? ==> |s.reported| == |ids| && forall p | 0 <= p < |ids| :: p in s.handed
    ensures s.outcomes.Some? ==> |s.outcomes.value| == |ids|
    ensures s.outcomes.Some? ==>
              forall p | 0 <= p < |ids| ::
                s.outcomes.value[p].id == ids[p] && AnswerFor(ids, answers, p, s.outcomes.value[p].outcome)
    ensures s.outcomes.Some? && Distinct(ids) ==>
              forall p | 0 <= p < |ids| :: s.outcomes.value[p] == Result(ids[p], answers(p))
  {
    var pool := new Pool(ids, answers, concurrency, 0);
    for k := 0 to |schedule|
      invariant fresh(pool) && pool.Valid() && pool.ids == ids
    {
      pool.Do(schedule[k]);
    }
    SizeOfAll(pool.told, |ids|);
    var outcomes := None;
    if pool.gone == pool.workers && (pool.gone > 0 || ids == []) {
      var all := pool.Outcomes();
      outcomes := Some(all);
    }
    assert forall i | 0 <= i < |pool.handed| :: pool.handed[i] in pool.handed;
    return Summary(pool.handed, pool.reported, |pool.calling|, outcomes);
  }

  /** Left alone, the pool always ends, with every title's own answer. */
  method RunToTheEnd(ids: seq<string>, answers: nat -> Outcome, concurrency: nat) returns (outcomes: seq<Result>)
    requires concurrency > 0
    ensures |outcomes| == |ids|
    ensures forall p | 0 <= p < |ids| :: outcomes[p].id == ids[p] && AnswerFor(ids, answers, p, outcomes[p].outcome)
  {
    var pool := new Pool(ids, answers, concurrency, 0);
    while pool.gone < pool.workers
      invariant fresh(pool) && pool.Valid() && pool.ids == ids && pool.answers == answers && pool.taken == 0
      invariant pool.permits == concurrency
      invariant pool.workers == if concurrency < |ids| then concurrency else |ids|
      decreases pool.Left()
    {
      var event := pool.SomeoneCanGoOn();
      pool.Do(event);
    }
    outcomes := pool.Outcomes();
  }

  ghost predicate AnswerFor(ids: seq<string>, answers: nat -> Outcome, p: nat, outcome: Outcome)
    requires p < |ids|
  {
    exists q | 0 <= q < |ids| :: ids[q] == ids[p] && outcome == answers(q)
  }

  ghost predicate Distinct(ids: seq<string>) {
    forall i, j | 0 <= i < j < |ids| :: ids[i] != ids[j]
  }

  lemma {:induction false} SizeOfAll(told: set<nat>, n: nat)
    requires forall p | p in told :: p < n
    ensures |told| <= n
    ensures (forall p | 0 <= p < n :: p in told) ==> |told| == n
  {
    if n > 0 {
      SizeOfAll(told - {n - 1}, n - 1);
    } else {
      assert told == {};
    }
  }
}
