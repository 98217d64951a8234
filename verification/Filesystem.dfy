/**
 The directory tree a local move works on: names bound to inodes, and what `stat` reports about
 each inode. Hard links are two names bound to one inode. An `Inode` stands for the device and
 inode numbers together, so two devices never share one.
 */
module Filesystem {
  type Path = string
  type Inode = nat

  datatype Stat = Stat(size: nat, mtime: int, ctime: int)

  datatype Files = Files(names: map<Path, Inode>, stats: map<Inode, Stat>)

  predicate WellFormed(files: Files) {
    forall p | p in files.names :: files.names[p] in files.stats
  }

  /** The three ways a mover changes the tree. */
  datatype Deed = Moved(from: Path, to: Path) | Linked(from: Path, to: Path) | Unlinked(path: Path)

  /** A deed that neither overwrites a name nor takes an inode's last one away. */
  predicate Allowed(files: Files, deed: Deed) {
    match deed
    case Moved(from, to) => from in files.names && to !in files.names
    case Linked(from, to) => from in files.names && to !in files.names
    case Unlinked(path) => path in files.names && NamedElsewhere(files, path)
  }

  predicate NamedElsewhere(files: Files, path: Path)
    requires path in files.names
  {
    files.names[path] in (files.names - {path}).Values
  }

  function Subject(files: Files, deed: Deed): Inode
    requires Allowed(files, deed)
  {
    match deed
    case Moved(from, _) => files.names[from]
    case Linked(from, _) => files.names[from]
    case Unlinked(path) => files.names[path]
  }

  /** The tree after `deed`; like link, unlink and rename it stamps the inode's change time. */
  function Perform(files: Files, deed: Deed, time: int): (after: Files)
    requires WellFormed(files) && Allowed(files, deed)
    ensures WellFormed(after)
  {
    var inode := Subject(files, deed);
    var names :=
      match deed
      case Moved(from, to) => (files.names - {from})[to := inode]
      case Linked(_, to) => files.names[to := inode]
      case Unlinked(path) => files.names - {path};
    Files(names, files.stats[inode := files.stats[inode].(ctime := time)])
  }

  function PathsOf(deed: Deed): set<Path> {
    match deed
    case Moved(from, to) => {from, to}
    case Linked(from, to) => {from, to}
    case Unlinked(path) => {path}
  }

  /** What an operator is promised about one change: names outside `mine` keep their binding,
      no name is rebound, every inode that had a name still has one, and contents stay. */
  ghost predicate Harmless(before: Files, after: Files, mine: set<Path>) {
    && Untouched(before, after, mine)
    && (forall p | p in before.names && p in after.names :: before.names[p] == after.names[p])
    && after.names.Values == before.names.Values
    && SameContents(before, after)
  }

  ghost predicate Untouched(before: Files, after: Files, mine: set<Path>) {
    before.names - mine == after.names - mine
  }

  /** No inode appears or disappears and none changes size or modification time. */
  ghost predicate SameContents(before: Files, after: Files) {
    && before.stats.Keys == after.stats.Keys
    && forall i | i in before.stats ::
           before.stats[i].size == after.stats[i].size && before.stats[i].mtime == after.stats[i].mtime
  }

  lemma AllowedIsHarmless(files: Files, deed: Deed, time: int, mine: set<Path>)
    requires WellFormed(files) && Allowed(files, deed) && PathsOf(deed) <= mine
    ensures Harmless(files, Perform(files, deed, time), mine)
  {
    var after := Perform(files, deed, time);
    forall i ensures i in after.names.Values <==> i in files.names.Values {
      if i in files.names.Values {
        var p :| p in files.names && files.names[p] == i;
        match deed
        case Moved(from, to) => assert after.names[if p == from then to else p] == i;
        case Linked(from, to) => assert after.names[p] == i;
        case Unlinked(path) =>
          if p == path {
            var other :| other in files.names - {path} && files.names[other] == i;
            assert after.names[other] == i;
          } else {
            assert after.names[p] == i;
          }
      }
    }
  }

  /** One change of the tree in a run: anything at all by other programs, or a deed of the mover,
      which owns the paths in `mine`. */
  datatype Step = Theirs(after: Files) | Ours(deed: Deed, time: int, mine: set<Path>)

  /** A run in which the mover's own steps are allowed where they happen. */
  ghost predicate Legal(start: Files, story: seq<Step>)
    decreases |story|, 0
  {
    && WellFormed(start)
    && (story != [] ==>
          var past := story[..|story| - 1];
          Legal(start, past) && LegalStep(Reached(start, past), story[|story| - 1]))
  }

  ghost predicate LegalStep(files: Files, step: Step) {
    match step
    case Theirs(after) => WellFormed(after)
    case Ours(deed, _, mine) => Allowed(files, deed) && PathsOf(deed) <= mine
  }

  ghost function AfterStep(files: Files, step: Step): (after: Files)
    requires WellFormed(files) && LegalStep(files, step)
    ensures WellFormed(after)
  {
    if step.Theirs? then step.after else Perform(files, step.deed, step.time)
  }

  /** The tree a run ends with. */
  ghost function Reached(start: Files, story: seq<Step>): (files: Files)
    requires Legal(start, story)
    ensures WellFormed(files)
    decreases |story|, 1
  {
    if story == [] then start
    else
      var past := story[..|story| - 1];
      AfterStep(Reached(start, past), story[|story| - 1])
  }

  lemma {:induction false} LegalPrefix(start: Files, story: seq<Step>, k: nat)
    requires Legal(start, story) && k <= |story|
    ensures Legal(start, story[..k])
    decreases |story|
  {
    if k == |story| {
      assert story[..k] == story;
    } else {
      LegalPrefix(start, story[..|story| - 1], k);
      assert story[..|story| - 1][..k] == story[..k];
    }
  }

  lemma LegalMore(start: Files, story: seq<Step>, step: Step)
    requires Legal(start, story) && LegalStep(Reached(start, story), step)
    ensures Legal(start, story + [step])
    ensures Reached(start, story + [step]) == AfterStep(Reached(start, story), step)
  {
    assert (story + [step])[..|story|] == story;
  }

  /** One run after another is a run. */
  lemma {:induction false} LegalConcat(start: Files, story: seq<Step>, more: seq<Step>)
    requires Legal(start, story) && Legal(Reached(start, story), more)
    ensures Legal(start, story + more)
    ensures Reached(start, story + more) == Reached(Reached(start, story), more)
    decreases |more|
  {
    if more == [] {
      assert story + more == story;
    } else {
      var past, last := more[..|more| - 1], more[|more| - 1];
      LegalConcat(start, story, past);
      LegalMore(start, story + past, last);
      assert story + more == story + past + [last];
    }
  }

  ghost predicate OnlyOurs(story: seq<Step>, begin: nat, end: nat, mine: set<Path>)
    requires begin <= end <= |story|
  {
    forall i | begin <= i < end :: story[i].Ours? && story[i].mine <= mine
  }

  /** Between two moments of a run in which nobody else acted, however much the mover did: the very
      same inodes are named, their contents are the same, and paths it does not own are as they were.
      So if a file lost its last name, somebody else took it. */
  lemma {:induction false} OnlyOthersLoseFiles(start: Files, story: seq<Step>, begin: nat, end: nat, mine: set<Path>)
    requires Legal(start, story) && begin <= end <= |story| && OnlyOurs(story, begin, end, mine)
    ensures Legal(start, story[..begin]) && Legal(start, story[..end])
    ensures Reached(start, story[..end]).names.Values == Reached(start, story[..begin]).names.Values
    ensures SameContents(Reached(start, story[..begin]), Reached(start, story[..end]))
    ensures Untouched(Reached(start, story[..begin]), Reached(start, story[..end]), mine)
    decreases end
  {
    LegalPrefix(start, story, begin);
    LegalPrefix(start, story, end);
    if begin != end {
      OnlyOthersLoseFiles(start, story, begin, end - 1, mine);
      assert story[..end][..end - 1] == story[..end - 1];
      var last := story[end - 1];
      AllowedIsHarmless(Reached(start, story[..end - 1]), last.deed, last.time, mine);
    }
  }

  /** A name that is bound before and after a step of the mover is bound to the same inode. */
  lemma OurStepsNeverReplace(start: Files, story: seq<Step>, k: nat, path: Path)
    requires Legal(start, story) && k < |story| && story[k].Ours?
    ensures Legal(start, story[..k]) && Legal(start, story[..k + 1])
    ensures var before, after := Reached(start, story[..k]).names, Reached(start, story[..k + 1]).names;
            path in before && path in after ==> after[path] == before[path]
  {
    LegalPrefix(start, story, k);
    LegalPrefix(start, story, k + 1);
    assert story[..k + 1][..k] == story[..k];
    AllowedIsHarmless(Reached(start, story[..k]), story[k].deed, story[k].time, story[k].mine);
  }
}
