/**
 When to look for magnets again: a schedule anchored on the release date. Instants are microseconds,
 the resolution the program's clock has.
 */
module Cadence {
  import opened Options

  const HOUR := 3_600_000_000
  const DAY := 24 * HOUR

  const PREHEAT_INTERVAL := 7 * DAY
  const WINDOW_BEFORE := 7 * DAY
  const WINDOW_AFTER := 14 * DAY
  const WINDOW_INTERVAL := 4 * HOUR

  datatype Band = Band(end: int, interval: int)

  const LONG_TAIL := [Band(21 * DAY, DAY), Band(42 * DAY, 3 * DAY), Band(90 * DAY, 7 * DAY)]
  const LONG_TAIL_FLOOR := 30 * DAY

  /** The first band that has not ended at this age. */
  function TailInterval(age: int, bands: seq<Band>): int {
    if bands == [] then LONG_TAIL_FLOOR
    else if age < bands[0].end then bands[0].interval
    else TailInterval(age, bands[1..])
  }

  function WindowStart(release: int): int {
    release - WINDOW_BEFORE
  }

  predicate InWindow(t: int, release: int) {
    WindowStart(release) <= t < release + WINDOW_AFTER
  }

  function NextResolveAt(now: int, release: Option<int>, fallback: int): (next: int)
    ensures fallback > 0 ==> next > now
  {
    if release == None then now + fallback
    else
      var start := WindowStart(release.value);
      if now < start then (if now + PREHEAT_INTERVAL < start then now + PREHEAT_INTERVAL else start)
      else if now < release.value + WINDOW_AFTER then now + WINDOW_INTERVAL
      else TailOf(now, release.value)
  }

  function TailOf(now: int, release: int): (next: int)
    ensures next > now
  {
    TailGrows(now - release, now - release, LONG_TAIL);
    now + TailInterval(now - release, LONG_TAIL)
  }

  predicate Growing(bands: seq<Band>) {
    && (forall i | 0 <= i < |bands| :: 0 < bands[i].interval <= LONG_TAIL_FLOOR)
    && (forall i, j | 0 <= i < j < |bands| :: bands[i].interval <= bands[j].interval)
  }

  /** An older release is looked at no more often. */
  lemma {:induction false} TailGrows(age: int, older: int, bands: seq<Band>)
    requires age <= older && Growing(bands)
    ensures 0 < TailInterval(age, bands) <= TailInterval(older, bands) <= LONG_TAIL_FLOOR
    ensures forall i | 0 <= i < |bands| && (forall b | b in bands :: bands[i].interval <= b.interval) ::
              bands[i].interval <= TailInterval(age, bands)
  {
    if bands != [] {
      TailGrows(age, older, bands[1..]);
      if age < bands[0].end <= older {
        AtLeastFirst(older, bands);
      }
    }
  }

  lemma {:induction false} AtLeastFirst(age: int, bands: seq<Band>)
    requires |bands| > 0 && Growing(bands)
    ensures bands[0].interval <= TailInterval(age, bands)
  {
    if |bands| > 1 {
      AtLeastFirst(age, bands[1..]);
    }
  }

  /** A later pass that comes up empty never leads to an earlier next one. */
  lemma Monotone(now: int, later: int, release: Option<int>, fallback: int)
    requires now <= later && fallback > 0
    ensures NextResolveAt(now, release, fallback) <= NextResolveAt(later, release, fallback)
  {
    if release.Some? {
      TailGrows(now - release.value, later - release.value, LONG_TAIL);
      AtLeastFirst(later - release.value, LONG_TAIL);
    }
  }

  /** Passes made exactly when scheduled. */
  function Punctual(now: int, release: int, fallback: int, passes: nat): int {
    if passes == 0 then now else NextResolveAt(Punctual(now, release, fallback, passes - 1), Some(release), fallback)
  }

  /** From any time ahead of the release window, punctual passes meet its first instant. */
  lemma {:induction false} MeetsTheWindow(now: int, release: int, fallback: int) returns (passes: nat)
    requires now < WindowStart(release)
    ensures Punctual(now, release, fallback, passes) == WindowStart(release)
    ensures forall n: nat | n < passes :: Punctual(now, release, fallback, n) < WindowStart(release)
    decreases WindowStart(release) - now
  {
    var next := NextResolveAt(now, Some(release), fallback);
    assert Punctual(now, release, fallback, 0) == now;
    assert Punctual(now, release, fallback, 1) == next;
    if next == WindowStart(release) {
      return 1;
    }
    var rest := MeetsTheWindow(next, release, fallback);
    forall n: nat | n <= rest ensures Punctual(now, release, fallback, n + 1) == Punctual(next, release, fallback, n) {
      OnePassOn(now, release, fallback, n);
    }
    forall n: nat | n < rest + 1 ensures Punctual(now, release, fallback, n) < WindowStart(release) {
      if n > 0 {
        assert Punctual(now, release, fallback, (n - 1) + 1) == Punctual(next, release, fallback, n - 1);
      }
    }
    return rest + 1;
  }

  lemma {:induction false} OnePassOn(now: int, release: int, fallback: int, n: nat)
    ensures Punctual(now, release, fallback, n + 1) ==
            Punctual(NextResolveAt(now, Some(release), fallback), release, fallback, n)
  {
    if n > 0 {
      OnePassOn(now, release, fallback, n - 1);
    } else {
      assert Punctual(now, release, fallback, 1) ==
        NextResolveAt(Punctual(now, release, fallback, 0), Some(release), fallback);
    }
  }

  /** Passes each no earlier than scheduled. */
  ghost predicate Scheduled(times: seq<int>, release: int, fallback: int) {
    forall i | 0 <= i < |times| - 1 :: times[i + 1] >= NextResolveAt(times[i], Some(release), fallback)
  }

  function CountInWindow(times: seq<int>, release: int): nat {
    if times == [] then 0 else (if InWindow(times[0], release) then 1 else 0) + CountInWindow(times[1..], release)
  }

  lemma {:induction false} PassesAreSpread(times: seq<int>, release: int, fallback: int)
    requires Scheduled(times, release, fallback) && |times| > 0
    ensures times[0] >= release + WINDOW_AFTER ==> CountInWindow(times, release) == 0
    ensures times[0] < release + WINDOW_AFTER && CountInWindow(times, release) > 0 ==>
      WINDOW_INTERVAL * (CountInWindow(times, release) - 1)
      < release + WINDOW_AFTER - (if times[0] < WindowStart(release) then WindowStart(release) else times[0])
  {
    if |times| > 1 {
      var rest := times[1..];
      forall i | 0 <= i < |rest| - 1 ensures rest[i + 1] >= NextResolveAt(rest[i], Some(release), fallback) {
        assert times[(i + 1) + 1] >= NextResolveAt(times[i + 1], Some(release), fallback);
      }
      PassesAreSpread(rest, release, fallback);
      assert times[0 + 1] >= NextResolveAt(times[0], Some(release), fallback);
      if times[0] >= release + WINDOW_AFTER {
        assert TailOf(times[0], release) > times[0];
      }
    } else {
      assert times[1..] == [];
    }
  }

  /** However late passes run, the release window costs at most 126 of them. */
  lemma AtMost126InTheWindow(times: seq<int>, release: int, fallback: int)
    requires Scheduled(times, release, fallback)
    ensures CountInWindow(times, release) <= 126
  {
    if |times| > 0 {
      PassesAreSpread(times, release, fallback);
    }
  }

  /** Punctual passes from the window's first instant make exactly that many: the 126th interval ends it. */
  lemma {:induction false} WindowTakes126(release: int, fallback: int, passes: nat)
    requires passes <= 126
    ensures Punctual(WindowStart(release), release, fallback, passes) == WindowStart(release) + passes * WINDOW_INTERVAL
    ensures InWindow(Punctual(WindowStart(release), release, fallback, passes), release) <==> passes < 126
  {
    if passes > 0 {
      WindowTakes126(release, fallback, passes - 1);
    }
  }
}
