/**
 Automatic merging: which title, if any, one round queues. The library scan, CloudDrive's listings
 and the free space are answers of a `Library`; the task table is the one `MergeTasks` describes.
 */
module AutoMerge {
  import opened Options
  import opened MergeTasks
  import MergeService

  /** A part's file on the CloudDrive mount. */
  datatype Target = Target(directory: string, name: string)

  datatype Title = Title(avid: Avid, parts: seq<Target>, complete: bool)

  datatype Config = Config(enabled: bool, includeStackable: bool, pauseOnFailure: bool, reserve: nat)

  datatype Scan = Scan(titles: seq<Title>, scannedAt: int)

  datatype AutoState = OFF | UNAVAILABLE | PAUSED | BUSY | IDLE

  datatype Refusal = SizeUnknown | PartsMissing | WholeCopy | NotQueued(code: string)

  /** Emby stacks a single digit only. */
  const MAX_STACKED_PARTS := 9

  datatype Library = Library(
    available: nat -> bool,
    free: nat -> int,
    /** The files of a directory by name with their sizes, or nothing when it cannot be listed. */
    list: (nat, string) -> Option<map<string, nat>>,
    /** Whether one of these names is a whole copy of the title. */
    whole: (Avid, set<string>) -> bool,
    /** A title's directory read again; a title can be gone by then. */
    rescan: (nat, Title) -> Option<Title>,
    /** Why queueing a title is refused for its container or its intake route. */
    refuses: (nat, Title) -> Option<string>,
    /** The size of every part file there is. */
    sizeOf: Target -> nat)
  {
    /** Part sizes never change, listings report them, and a rescan finds the title it looks for. */
    ghost predicate Sound() {
      && (forall t, d, name | list(t, d).Some? && name in list(t, d).value ::
             list(t, d).value[name] == sizeOf(Target(d, name)))
      && (forall t, title | rescan(t, title).Some? :: rescan(t, title).value.avid == title.avid)
    }

    /** Every answer is the same throughout the round. The scan may be a day older than the round, so a
        directory read again need not be as it was scanned. */
    ghost predicate Still() {
      && (forall t, title :: rescan(t, title) == rescan(0, title) && refuses(t, title) == refuses(0, title))
      && (forall t, d :: list(t, d) == list(0, d))
    }

    /** The directories of these titles are as they were scanned. */
    ghost predicate AsScanned(titles: seq<Title>) {
      forall t, title | title in titles :: rescan(t, title) == Some(title)
    }

    /** What queueing an ID takes, where answers do not change: its first title's directory as it is
        now, if that can be queued. */
    function Current(titles: seq<Title>, avid: Avid): (title: Option<Title>)
      requires exists t | t in titles :: t.avid == avid
    {
      var found := rescan(0, FirstOf(titles, avid).value);
      if found.Some? && found.value.complete && refuses(0, found.value) == None then found else None
    }

    /** This title was read again at some moment in between, in the directory of the first of its ID. */
    ghost predicate Reread(titles: seq<Title>, title: Title, from: nat, until: nat) {
      exists t | from <= t < until ::
        FirstOf(titles, title.avid).Some? && rescan(t, FirstOf(titles, title.avid).value) == Some(title)
    }

    /** CloudDrive lists every part of the title, and they fit. */
    predicate ListsAll(title: Title, room: int)
      requires title.parts != []
    {
      var listing := list(0, title.parts[0].directory);
      listing.Some? && (forall p | p in title.parts :: p.name in listing.value) && Total(title.parts) <= room
    }

    /** ... and no whole copy of it. */
    predicate Takes(title: Title, room: int)
      requires title.parts != []
    {
      ListsAll(title, room) && !whole(title.avid, list(0, title.parts[0].directory).value.Keys)
    }

    /** ... or a whole copy too, for which its ID is refused until the next scan. */
    predicate Spoils(title: Title, room: int)
      requires title.parts != []
    {
      ListsAll(title, room) && whole(title.avid, list(0, title.parts[0].directory).value.Keys)
    }

    function Total(parts: seq<Target>): nat {
      if parts == [] then 0 else sizeOf(parts[0]) + Total(parts[1..])
    }
  }

  function SumListed(listing: map<string, nat>, parts: seq<Target>): nat
    requires forall p | p in parts :: p.name in listing
  {
    if parts == [] then 0 else listing[parts[0].name] + SumListed(listing, parts[1..])
  }

  /** One directory's listing has the sizes of all its parts. */
  lemma {:induction false} SumIsTotal(library: Library, t: nat, directory: string, parts: seq<Target>)
    requires library.Sound() && library.list(t, directory).Some?
    requires forall p | p in parts :: p.directory == directory && p.name in library.list(t, directory).value
    ensures SumListed(library.list(t, directory).value, parts) == library.Total(parts)
  {
    if parts != [] {
      assert parts[0] in parts && parts[0] == Target(directory, parts[0].name);
      SumIsTotal(library, t, directory, parts[1..]);
    }
  }

  /** Titles someone cancelled a task for, and those a task already merged. */
  function Settled(tasks: map<nat, Task>): set<Avid> {
    set id | id in tasks && tasks[id].state in FINISHED :: tasks[id].avid
  }

  function Failures(tasks: map<nat, Task>): set<Avid> {
    set id | id in tasks && tasks[id].state == FAILED :: tasks[id].avid
  }

  function Indices(n: nat): set<nat> {
    if n == 0 then {} else Indices(n - 1) + {n - 1}
  }

  /** `_eligible`; a complete title's parts lie in one directory. */
  predicate Eligible(title: Title, config: Config, settled: set<Avid>) {
    && title.complete && title.avid !in settled
    && (config.includeStackable || |title.parts| > MAX_STACKED_PARTS)
  }

  /** What a scan guarantees of the titles it calls complete. */
  predicate WellFormed(title: Title) {
    title.complete ==> |title.parts| > 1 && forall p | p in title.parts :: p.directory == title.parts[0].directory
  }

  /** `current_title` looks the title up again by its ID: the first of that ID in the scan. */
  function FirstOf(titles: seq<Title>, avid: Avid): (first: Option<Title>)
    ensures first.Some? <==> exists t | t in titles :: t.avid == avid
    ensures first.Some? ==> first.value in titles && first.value.avid == avid
  {
    if titles == [] then None
    else if titles[0].avid == avid then Some(titles[0])
    else FirstOf(titles[1..], avid)
  }

  ghost predicate DistinctAvids(titles: seq<Title>) {
    forall i, j | 0 <= i < j < |titles| :: titles[i].avid != titles[j].avid
  }

  lemma {:induction false} FirstOfDistinct(titles: seq<Title>, i: nat)
    requires DistinctAvids(titles) && i < |titles|
    ensures FirstOf(titles, titles[i].avid) == Some(titles[i])
  {
    if i > 0 {
      FirstOfDistinct(titles[1..], i - 1);
    }
  }

  /** What a round is allowed to do to the table: one new row for a title that never had one, while
      every open task is a failed one and failures do not pause the rounds. */
  ghost predicate AutoCreates(config: Config, before: map<nat, Task>, after: map<nat, Task>, id: nat) {
    && config.enabled && id !in before && id in after && after == before[id := after[id]] && after[id].state == QUEUED
    && (forall other | other in before :: before[other].avid != after[id].avid)
    && (forall other | other in before && before[other].Open() ::
           before[other].state == FAILED && !config.pauseOnFailure)
  }

  /** No round queues anything next to a task under way, or next to a failure that pauses. */
  ghost predicate Unblocked(config: Config, tasks: map<nat, Task>, available: bool) {
    && config.enabled && available
    && forall id | id in tasks && tasks[id].Open() :: tasks[id].state == FAILED && !config.pauseOnFailure
  }

  // -- which title a round queues where answers do not change -------------------

  /** The round looks at this title: it may be merged, and has no row of its own. */
  ghost predicate Looked(title: Title, config: Config, tasks: map<nat, Task>) {
    WellFormed(title) && Eligible(title, config, Settled(tasks)) && title.avid !in Failures(tasks)
  }

  /** Everything a round goes by. */
  datatype Setting = Setting(library: Library, titles: seq<Title>, config: Config, tasks: map<nat, Task>, room: int)
  {
    /** What is queued if this title passes. */
    function Found(i: nat): Option<Title>
      requires i < |titles|
    {
      library.Current(titles, titles[i].avid)
    }

    /** This title leads the round to queue the first title of its ID, read again. */
    ghost predicate Chooses(i: nat)
      requires i < |titles|
    {
      && Looked(titles[i], config, tasks) && library.Takes(titles[i], room) && Found(i).Some?
      && (forall j | 0 <= j < i && titles[j].avid == titles[i].avid :: !SpoiledBy(j))
    }

    ghost predicate SpoiledBy(j: nat)
      requires j < |titles|
    {
      Looked(titles[j], config, tasks) && library.Spoils(titles[j], room)
    }

    ghost predicate Decides(i: nat)
      requires i < |titles|
    {
      Chooses(i) && forall j | 0 <= j < i :: !Chooses(j)
    }

    /** What a round on a new scan queues. */
    ghost predicate IsChoice(queued: Option<Title>) {
      if queued == None then forall i | 0 <= i < |titles| :: !Chooses(i)
      else exists i | 0 <= i < |titles| :: Decides(i) && queued == Found(i)
    }

    /** The title that was checked fits, and the one that is queued does not. */
    ghost predicate Mistaken(i: nat)
      requires i < |titles|
    {
      Decides(i) && library.Total(Found(i).value.parts) > room
    }
  }

  /** A round queues a title that does not fit exactly if the title it settles on leads to a directory
      that has come to hold more than there is room for. */
  lemma UnfitExactlyIf(s: Setting, queued: Option<Title>)
    requires s.IsChoice(queued)
    ensures (queued.Some? && s.library.Total(queued.value.parts) > s.room) <==>
              exists i | 0 <= i < |s.titles| :: s.Mistaken(i)
  {
    if i :| 0 <= i < |s.titles| && s.Mistaken(i) {
      assert queued.Some?;
      OneDecides(s, i, queued);
    }
    if queued.Some? && s.library.Total(queued.value.parts) > s.room {
      var k :| 0 <= k < |s.titles| && s.Decides(k) && queued == s.Found(k);
      assert s.Mistaken(k);
    }
  }

  /** It takes one of two things: another title of the ID before the one that was checked, or a
      directory that is no longer as it was scanned. */
  lemma MistakenOnlyIf(s: Setting, i: nat)
    requires i < |s.titles| && s.Mistaken(i)
    ensures FirstOf(s.titles, s.titles[i].avid) != Some(s.titles[i]) || s.Found(i) != Some(s.titles[i])
  {
  }

  /** With each ID listed once only the latter is left: the directory that was checked now holds more
      than there is room for. */
  lemma DistinctMistakenExactlyIf(s: Setting, i: nat)
    requires DistinctAvids(s.titles) && i < |s.titles| && s.Decides(i)
    ensures s.library.rescan(0, s.titles[i]).Some?
    ensures s.Mistaken(i) <==> s.library.Total(s.library.rescan(0, s.titles[i]).value.parts) > s.room
    ensures s.Mistaken(i) ==> s.library.rescan(0, s.titles[i]) != Some(s.titles[i])
  {
    FirstOfDistinct(s.titles, i);
  }

  lemma OneDecides(s: Setting, i: nat, queued: Option<Title>)
    requires s.IsChoice(queued) && i < |s.titles| && s.Decides(i)
    ensures queued == s.Found(i)
  {
    var k :| 0 <= k < |s.titles| && s.Decides(k) && queued == s.Found(k);
    assert k == i;
  }

  /** Why an ID is refused once the round looked at title `j` of a new scan. */
  ghost predicate RefusedBy(s: Setting, avid: Avid, j: nat)
    requires j < |s.titles|
  {
    && s.titles[j].avid == avid && Looked(s.titles[j], s.config, s.tasks)
    && (s.library.Spoils(s.titles[j], s.room) || s.Found(j) == None)
  }

  ghost predicate RefusedBefore(s: Setting, avid: Avid, n: nat)
    requires n <= |s.titles|
  {
    exists j | 0 <= j < n :: RefusedBy(s, avid, j)
  }

  /** What the round knows after the first `n` titles of a new scan, none of which it queued. */
  ghost predicate Passed(s: Setting, refused: map<Avid, Refusal>, n: nat)
    requires n <= |s.titles|
  {
    && (forall avid | avid in refused :: RefusedBefore(s, avid, n))
    && (forall j | 0 <= j < n && s.SpoiledBy(j) :: s.titles[j].avid in refused)
    && (forall j | 0 <= j < n :: !s.Chooses(j))
  }

  lemma PassedOver(s: Setting, refused: map<Avid, Refusal>, i: nat)
    requires i < |s.titles| && Passed(s, refused, i) && !Looked(s.titles[i], s.config, s.tasks)
    ensures Passed(s, refused, i + 1)
  {
    forall a | a in refused ensures RefusedBefore(s, a, i + 1) {
      assert RefusedBefore(s, a, i);
    }
  }

  lemma ItIsPassed(s: Setting, before: map<Avid, Refusal>, after: map<Avid, Refusal>, i: nat)
    requires i < |s.titles| && Looked(s.titles[i], s.config, s.tasks) && Passed(s, before, i)
    requires forall avid | avid in after :: avid in before || avid == s.titles[i].avid
    requires forall avid | avid in before :: avid in after
    requires s.titles[i].avid !in before ==>
      (s.titles[i].avid in after <==> s.library.Takes(s.titles[i], s.room) || s.library.Spoils(s.titles[i], s.room))
    requires s.titles[i].avid !in before && s.library.Takes(s.titles[i], s.room) ==> s.Found(i) == None
    ensures Passed(s, after, i + 1)
  {
    assert s.titles[i].avid !in before && s.titles[i].avid in after ==> RefusedBy(s, s.titles[i].avid, i);
    EachRefused(s, before, after, i);
    EachSpoiled(s, before, after, i);
    NoneChosen(s, before, i);
  }

  lemma EachRefused(s: Setting, before: map<Avid, Refusal>, after: map<Avid, Refusal>, i: nat)
    requires i < |s.titles| && Looked(s.titles[i], s.config, s.tasks)
    requires forall avid | avid in before :: RefusedBefore(s, avid, i)
    requires forall avid | avid in after :: avid in before || avid == s.titles[i].avid
    requires s.titles[i].avid !in before && s.titles[i].avid in after ==> RefusedBy(s, s.titles[i].avid, i)
    ensures forall avid | avid in after :: RefusedBefore(s, avid, i + 1)
  {
    forall avid | avid in after ensures RefusedBefore(s, avid, i + 1) {
      if avid in before {
        assert RefusedBefore(s, avid, i);
      } else {
        assert RefusedBy(s, avid, i);
      }
    }
  }

  lemma EachSpoiled(s: Setting, before: map<Avid, Refusal>, after: map<Avid, Refusal>, i: nat)
    requires i < |s.titles| && forall avid | avid in before :: avid in after
    requires forall j | 0 <= j < i && s.SpoiledBy(j) :: s.titles[j].avid in before
    requires s.SpoiledBy(i) ==> s.titles[i].avid in after
    ensures forall j | 0 <= j < i + 1 && s.SpoiledBy(j) :: s.titles[j].avid in after
  {
  }

  lemma NotChosen(s: Setting, refused: map<Avid, Refusal>, i: nat)
    requires i < |s.titles| && Looked(s.titles[i], s.config, s.tasks) && Passed(s, refused, i)
    requires s.titles[i].avid !in refused && s.library.Takes(s.titles[i], s.room) ==> s.Found(i) == None
    ensures !s.Chooses(i)
  {
    if s.titles[i].avid in refused {
      assert RefusedBefore(s, s.titles[i].avid, i);
      var j :| 0 <= j < i && RefusedBy(s, s.titles[i].avid, j);
      assert s.library.Spoils(s.titles[j], s.room) ==> s.SpoiledBy(j);
    }
  }

  lemma NoneChosen(s: Setting, refused: map<Avid, Refusal>, i: nat)
    requires i < |s.titles| && Looked(s.titles[i], s.config, s.tasks) && Passed(s, refused, i)
    requires s.titles[i].avid !in refused && s.library.Takes(s.titles[i], s.room) ==> s.Found(i) == None
    ensures forall j | 0 <= j < i + 1 :: !s.Chooses(j)
  {
    NotChosen(s, refused, i);
  }

  lemma ItDecides(s: Setting, refused: map<Avid, Refusal>, i: nat)
    requires i < |s.titles| && Looked(s.titles[i], s.config, s.tasks) && Passed(s, refused, i)
    requires s.titles[i].avid !in refused && s.library.Takes(s.titles[i], s.room) && s.Found(i).Some?
    ensures s.Decides(i)
  {
  }

  class AutoMerger {
    const library: Library
    /** Each title's total, read once. */
    var sizes: map<seq<Target>, nat>
    /** Titles refused for a reason only a new scan can change, and the scan they came from. */
    var refused: map<Avid, Refusal>
    var refusedScan: Option<int>
    var status: AutoState
    var now: nat

    ghost predicate Valid()
      reads this
    {
      library.Sound() && forall parts | parts in sizes :: sizes[parts] == library.Total(parts)
    }

    constructor (library: Library)
      requires library.Sound()
      ensures Valid() && this.library == library && refused == map[] && refusedScan == None
      ensures now == 0
    {
      this.library := library;
      sizes, refused, refusedScan, status, now := map[], map[], None, OFF, 0;
    }

    /** `_blocked`. */
    method Blocked(config: Config, tasks: map<nat, Task>) returns (blocked: Option<AutoState>)
      ensures blocked == None <==> Unblocked(config, tasks, library.available(now))
    {
      if !config.enabled {
        return Some(OFF);
      }
      if !library.available(now) {
        return Some(UNAVAILABLE);
      }
      var failed := exists id | id in tasks :: tasks[id].state == FAILED;
      if failed && config.pauseOnFailure {
        return Some(PAUSED);
      }
      return if exists id | id in tasks :: tasks[id].Open() && tasks[id].state != FAILED then Some(BUSY) else None;
    }

    /** `_size`: the parts' total as CloudDrive lists them, or why it is unknown. */
    method Size(title: Title) returns (size: Option<nat>, reason: Option<Refusal>)
      requires Valid() && title.complete && WellFormed(title)
      modifies `sizes, `now
      ensures Valid() && (size.Some? ==> size.value == library.Total(title.parts))
      ensures size.None? <==> reason.Some?
      ensures library.Still() && library.ListsAll(title, library.Total(title.parts)) ==> size.Some?
      ensures old(now) <= now
    {
      if title.parts in sizes {
        return Some(sizes[title.parts]), None;
      }
      var listing := library.list(now, title.parts[0].directory);
      now := now + 1;
      if listing.None? {
        return None, Some(SizeUnknown);
      }
      if exists p | p in title.parts :: p.name !in listing.value {
        return None, Some(PartsMissing);
      }
      SumIsTotal(library, now - 1, title.parts[0].directory, title.parts);
      sizes := sizes[title.parts := SumListed(listing.value, title.parts)];
      return Some(sizes[title.parts]), None;
    }

    /** `_unlisted`: why CloudDrive, asked afresh, does not list every part alone. */
    method Unlisted(title: Title) returns (reason: Option<Refusal>)
      requires Valid() && title.complete && WellFormed(title)
      modifies `now
      ensures old(now) <= now
      ensures reason == None <==>
        library.list(old(now), title.parts[0].directory).Some? &&
        (forall p | p in title.parts :: p.name in library.list(old(now), title.parts[0].directory).value) &&
        !library.whole(title.avid, library.list(old(now), title.parts[0].directory).value.Keys)
      ensures reason == Some(WholeCopy) <==>
        library.list(old(now), title.parts[0].directory).Some? &&
        (forall p | p in title.parts :: p.name in library.list(old(now), title.parts[0].directory).value) &&
        library.whole(title.avid, library.list(old(now), title.parts[0].directory).value.Keys)
    {
      var listing := library.list(now, title.parts[0].directory);
      now := now + 1;
      if listing.None? {
        return Some(SizeUnknown);
      }
      if exists p | p in title.parts :: p.name !in listing.value {
        return Some(PartsMissing);
      }
      return if library.whole(title.avid, listing.value.Keys) then Some(WholeCopy) else None;
    }

    /** `enqueue`: the title as its directory holds it now, if it can be queued at all. */
    method Enqueue(titles: seq<Title>, avid: Avid) returns (title: Option<Title>, code: string)
      requires Valid() && exists t | t in titles :: t.avid == avid
      modifies `now
      ensures now == old(now) + 1
      ensures title.Some? ==> title.value.avid == avid && title.value.complete
      ensures title.Some? ==> title == library.rescan(old(now), FirstOf(titles, avid).value)
      ensures library.Still() ==> title == library.Current(titles, avid)
    {
      var found := library.rescan(now, FirstOf(titles, avid).value);
      now := now + 1;
      if found.None? {
        return None, "merge_title_not_found";
      }
      if !found.value.complete {
        return None, "merge_title_incomplete";
      }
      var refusal := library.refuses(now, found.value);
      if refusal.Some? {
        return None, refusal.value;
      }
      return found, "";
    }

    /** `_try_queue`. */
    method TryQueue(titles: seq<Title>, title: Title, room: int) returns (queued: Option<Title>)
      requires Valid() && title in titles && title.complete && WellFormed(title)
      modifies this
      ensures Valid() && refusedScan == old(refusedScan)
      ensures title.avid in old(refused) ==> queued == None
      ensures queued.Some? ==> queued.value.avid == title.avid && library.Total(title.parts) <= room
      ensures queued.Some? ==> library.Reread(titles, queued.value, old(now), now)
      ensures old(now) <= now
      ensures queued == None ==> old(refused).Keys <= refused.Keys <= old(refused).Keys + {title.avid}
      // Where answers do not change: the title is checked, and the first of its ID queued as it is now.
      ensures library.Still() && title.avid !in old(refused) ==>
                queued == if library.Takes(title, room) then library.Current(titles, title.avid) else None
      ensures library.Still() && title.avid !in old(refused) && queued == None ==>
                (title.avid in refused <==> library.Takes(title, room) || library.Spoils(title, room))
    {
      if title.avid in refused {
        return None;
      }
      var size, reason := Size(title);
      if size.None? || size.value > room {
        return None;
      }
      reason := Unlisted(title);
      if reason.Some? {
        sizes := sizes - {title.parts};
        if reason.value == WholeCopy {
          refused := refused[title.avid := WholeCopy];
        }
        return None;
      }
      var code;
      queued, code := Enqueue(titles, title.avid);
      if queued.None? {
        refused := refused[title.avid := NotQueued(code)];
      }
    }

    /** The loop of `step`. */
    method Pick(titles: seq<Title>, config: Config, tasks: map<nat, Task>, room: int) returns (queued: Option<Title>)
      requires Valid() && forall title | title in titles :: WellFormed(title)
      modifies this
      ensures Valid() && refusedScan == old(refusedScan)
      ensures queued.Some? ==>
                && queued.value.avid !in old(refused) && queued.value.avid !in Settled(tasks)
                && queued.value.avid !in Failures(tasks)
      ensures queued.Some? ==>
                exists title | title in titles ::
                  title.avid == queued.value.avid && library.Total(title.parts) <= room
      ensures queued.Some? ==> library.Reread(titles, queued.value, old(now), now)
      ensures old(now) <= now
      ensures queued.Some? && library.AsScanned(titles) && DistinctAvids(titles) ==>
                library.Total(queued.value.parts) <= room
      ensures library.Still() && old(refused) == map[] ==>
                Setting(library, titles, config, tasks, room).IsChoice(queued)
    {
      ghost var calm := library.Still() && refused == map[];
      ghost var s := Setting(library, titles, config, tasks, room);
      queued := None;
      for i := 0 to |titles|
        invariant Valid() && refusedScan == old(refusedScan) && old(refused).Keys <= refused.Keys && queued == None
        invariant old(now) <= now
        invariant calm ==> Passed(s, refused, i)
      {
        var title := titles[i];
        ghost var before := refused;
        if !Eligible(title, config, Settled(tasks)) || title.avid in Failures(tasks) {
          if calm {
            PassedOver(s, refused, i);
          }
          continue;
        }
        queued := TryQueue(titles, title, room);
        if queued.Some? {
          if calm {
            ItDecides(s, before, i);
          }
          if DistinctAvids(titles) {
            FirstOfDistinct(titles, i);
          }
          return;
        }
        if calm {
          ItIsPassed(s, before, refused, i);
        }
      }
    }

    /** A new scan forgets what was refused in the last one. */
    method Consider(scan: Scan, config: Config, tasks: map<nat, Task>, room: int) returns (queued: Option<Title>)
      requires Valid() && forall title | title in scan.titles :: WellFormed(title)
      modifies this
      ensures Valid()
      ensures queued.Some? ==> queued.value.avid !in Settled(tasks) && queued.value.avid !in Failures(tasks)
      ensures queued.Some? && old(refusedScan) == Some(scan.scannedAt) ==> queued.value.avid !in old(refused)
      ensures queued.Some? ==>
                exists title | title in scan.titles ::
                  title.avid == queued.value.avid && library.Total(title.parts) <= room
      ensures queued.Some? ==> library.Reread(scan.titles, queued.value, old(now), now)
      ensures queued.Some? && library.AsScanned(scan.titles) && DistinctAvids(scan.titles) ==>
                library.Total(queued.value.parts) <= room
      ensures library.Still() && old(refusedScan) != Some(scan.scannedAt) ==>
        Setting(library, scan.titles, config, tasks, room).IsChoice(queued)
    {
      if Some(scan.scannedAt) != refusedScan {
        refused, refusedScan := map[], Some(scan.scannedAt);
      }
      queued := Pick(scan.titles, config, tasks, room);
    }

    /** `step`: one round, with no other task created meanwhile. `newId` is the next row's ID. */
    method Step(config: Config, tasks: map<nat, Task>, scan: Option<Scan>, newId: nat)
      returns (after: map<nat, Task>, queued: Option<Title>)
      requires Valid() && newId !in tasks
      requires scan.Some? ==> forall title | title in scan.value.titles :: WellFormed(title)
      modifies this
      ensures Valid()
      ensures queued == None ==> after == tasks
      ensures queued.Some? ==> AutoCreates(config, tasks, after, newId) && after[newId].avid == queued.value.avid
      ensures queued.Some? ==>
                scan.Some? && exists title | title in scan.value.titles ::
                  title.avid == queued.value.avid
                  && library.Total(title.parts) <= library.free(old(now)) - config.reserve
      ensures queued.Some? ==> library.Reread(scan.value.titles, queued.value, old(now), now)
      ensures queued.Some? && library.AsScanned(scan.value.titles) && DistinctAvids(scan.value.titles) ==>
        library.Total(queued.value.parts) <= library.free(old(now)) - config.reserve
      ensures queued.Some? && old(refusedScan) == Some(scan.value.scannedAt) ==> queued.value.avid !in old(refused)
      ensures queued.Some? ==> after[newId].parts == Indices(|queued.value.parts|)
      // Where answers do not change, a round on a new scan queues exactly the choice, if it may queue one.
      ensures library.Still() && scan.Some? && old(refusedScan) != Some(scan.value.scannedAt) ==>
        if Unblocked(config, tasks, library.available(old(now)))
        then Setting(library, scan.value.titles, config, tasks,
                     library.free(old(now)) - config.reserve).IsChoice(queued)
        else queued == None
    {
      after, queued := tasks, None;
      var blocked := Blocked(config, tasks);
      if blocked.Some? {
        status := blocked.value;
        return;
      }
      if scan.None? {
        status := UNAVAILABLE;
        return;
      }
      queued := Consider(scan.value, config, tasks, library.free(now) - config.reserve);
      if queued.Some? {
        after := Insert(config, tasks, newId, queued.value);
      }
      status := if queued.Some? then BUSY else IDLE;
    }
  }

  /** The row `enqueue` creates; its times play no part here. */
  method Insert(config: Config, tasks: map<nat, Task>, newId: nat, title: Title) returns (after: map<nat, Task>)
    requires newId !in tasks && Unblocked(config, tasks, true) && title.avid !in Settled(tasks)
    requires title.avid !in Failures(tasks)
    ensures AutoCreates(config, tasks, after, newId) && after[newId].avid == title.avid
    ensures after[newId].parts == Indices(|title.parts|)
  {
    NeverHadOne(tasks, title.avid);
    after := tasks[newId := Task(newId, title.avid, Indices(|title.parts|), QUEUED, None, false, None, 0, None, 0, 0)];
  }

  /** A title neither settled nor failed has no row at all while every open task is a failed one. */
  lemma NeverHadOne(tasks: map<nat, Task>, avid: Avid)
    requires forall id | id in tasks && tasks[id].Open() :: tasks[id].state == FAILED
    requires avid !in Settled(tasks) && avid !in Failures(tasks)
    ensures forall id | id in tasks :: tasks[id].avid != avid
  {
    forall id | id in tasks ensures tasks[id].avid != avid {
      assert tasks[id].state in FINISHED || tasks[id].state == FAILED;
    }
  }

  /** What happens to the table from one moment to the next: an automatic round's new row, or
      anything operators and the merge loop do to rows, new ones included. */
  datatype Event = Round(config: Config, id: nat) | Else

  ghost predicate Happens(before: map<nat, Task>, event: Event, after: map<nat, Task>) {
    match event
    case Round(config, id) => AutoCreates(config, before, after, id)
    case Else => MergeService.Evolved(before, after)
  }

  ghost predicate TableHistory(tables: seq<map<nat, Task>>, events: seq<Event>) {
    |tables| == |events| + 1 && forall i | 0 <= i < |events| :: Happens(tables[i], events[i], tables[i + 1])
  }

  /** A row is never dropped and never changes its title. */
  lemma {:induction false} RowsStay(tables: seq<map<nat, Task>>, events: seq<Event>, i: nat, j: nat, id: nat)
    requires TableHistory(tables, events) && i <= j < |tables| && id in tables[i]
    ensures id in tables[j] && tables[j][id].avid == tables[i][id].avid
    decreases j - i
  {
    if i < j {
      assert Happens(tables[i], events[i], tables[i + 1]);
      RowsStay(tables, events, i + 1, j, id);
    }
  }

  /** However operators retry, cancel and queue in between, automatic merging takes a title at most
      once, and never one that had a task before. */
  lemma NeverTwice(tables: seq<map<nat, Task>>, events: seq<Event>, i: nat, j: nat)
    requires TableHistory(tables, events) && i < j < |events| && events[i].Round? && events[j].Round?
    ensures tables[i + 1][events[i].id].avid != tables[j + 1][events[j].id].avid
  {
    assert Happens(tables[i], events[i], tables[i + 1]);
    RowsStay(tables, events, i + 1, j, events[i].id);
    assert Happens(tables[j], events[j], tables[j + 1]);
  }

  // -- rounds that queue what does not fit ---------------------------------------

  /** A first round on a scan, with no task on record. */
  method FirstRound(s: Setting) returns (after: map<nat, Task>, queued: Option<Title>)
    requires s.library.Sound() && s.library.Still() && s.tasks == map[] && s.config.enabled
    requires s.library.available(0) && s.room == s.library.free(0) - s.config.reserve
    requires forall title | title in s.titles :: WellFormed(title)
    ensures s.IsChoice(queued)
    ensures queued.Some? ==>
              0 in after && after[0].avid == queued.value.avid && after[0].parts == Indices(|queued.value.parts|)
  {
    var merger := new AutoMerger(s.library);
    after, queued := merger.Step(s.config, s.tasks, Some(Scan(s.titles, 0)), 0);
  }

  const BIG := Title("A", [Target("a", "1"), Target("a", "2"), Target("a", "3")], true)
  const SMALL := Title("A", [Target("b", "1"), Target("b", "2")], true)
  /** The big title before its third part arrived. */
  const YOUNG := Title("A", [Target("a", "1"), Target("a", "2")], true)

  /** A library with room for two parts of unit size; its directories read again as `rescan` has it. */
  function Roomy(rescan: Title -> Title): (library: Library)
    requires forall title :: rescan(title).avid == title.avid
    ensures library.Sound() && library.Still()
  {
    var entries := map["1" := 1, "2" := 1, "3" := 1];
    Library(t => true, t => 2, (t, directory) => Some(entries), (avid, names) => false,
            (t, title) => Some(rescan(title)), (t, title) => None, target => 1)
  }

  /** One ID in two directories, both as they were scanned ... */
  function TwoScanned(): Setting {
    Setting(Roomy(title => title), [BIG, SMALL], Config(true, true, false, 0), map[], 2)
  }

  /** ... and one directory to which a part has come since. */
  function YoungScanned(): Setting {
    Setting(Roomy(title => if title == YOUNG then BIG else title), [YOUNG], Config(true, true, false, 0), map[], 2)
  }

  lemma {:induction false} UnitTotal(library: Library, parts: seq<Target>)
    requires forall target :: library.sizeOf(target) == 1
    ensures library.Total(parts) == |parts|
  {
    if parts != [] {
      UnitTotal(library, parts[1..]);
    }
  }

  lemma Totals(library: Library)
    requires forall target :: library.sizeOf(target) == 1
    ensures library.Total(BIG.parts) == 3 && library.Total(SMALL.parts) == 2 && library.Total(YOUNG.parts) == 2
    ensures WellFormed(BIG) && WellFormed(SMALL) && WellFormed(YOUNG)
  {
    UnitTotal(library, BIG.parts);
    UnitTotal(library, SMALL.parts);
    UnitTotal(library, YOUNG.parts);
  }

  /** The small title is the one that decides. */
  lemma SmallDecides()
    ensures TwoScanned().Mistaken(1) && TwoScanned().Found(1) == Some(BIG)
  {
    var s := TwoScanned();
    Totals(s.library);
    assert s.titles[0] == BIG && s.titles[1] == SMALL;
    assert !s.Chooses(0);
    assert s.library.Takes(SMALL, 2);
    assert FirstOf([BIG, SMALL], SMALL.avid) == Some(BIG);
    assert s.Chooses(1);
  }

  lemma YoungDecides()
    ensures YoungScanned().Mistaken(0) && YoungScanned().Found(0) == Some(BIG) && DistinctAvids(YoungScanned().titles)
  {
    var s := YoungScanned();
    Totals(s.library);
    assert s.titles[0] == YOUNG && FirstOf([YOUNG], YOUNG.avid) == Some(YOUNG);
    assert s.library.Takes(YOUNG, 2);
    assert s.Chooses(0);
  }

  /** The size check looks at one title and queueing at the first of its ID: with the parts of one ID
      in two directories a round finds that the small title fits, and queues the big one, which does not. */
  method TwoDirectories() returns (after: map<nat, Task>, queued: Option<Title>)
    ensures queued == Some(BIG) && 0 in after && after[0].avid == BIG.avid && after[0].parts == Indices(|BIG.parts|)
    ensures TwoScanned().library.Total(BIG.parts) > TwoScanned().room
  {
    var s := TwoScanned();
    Totals(s.library);
    SmallDecides();
    after, queued := FirstRound(s);
    OneDecides(s, 1, queued);
  }

  /** The size check looks at the parts that were scanned and queueing at the directory as it is now:
      with a part that came in between a round finds that the two scanned ones fit, and queues three. */
  method GrownDirectory() returns (after: map<nat, Task>, queued: Option<Title>)
    ensures queued == Some(BIG) && 0 in after && after[0].avid == BIG.avid && after[0].parts == Indices(|BIG.parts|)
    ensures DistinctAvids(YoungScanned().titles) && YoungScanned().library.Total(BIG.parts) > YoungScanned().room
  {
    var s := YoungScanned();
    Totals(s.library);
    YoungDecides();
    after, queued := FirstRound(s);
    OneDecides(s, 0, queued);
  }
}
