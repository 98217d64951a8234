/**
 The worker's stream check before a concat. The concat demuxer pairs the parts' streams by index, so
 every input must carry the same streams at the same indexes; parts that only order them
 differently are remuxed, video before audio.
 */
module StreamOrder {
  /** A stream's codec type; `tag` tells the others apart (subtitle, data, attachment ...). */
  datatype Kind = Video | Audio | Other(tag: nat)

  /** One stream with the tuple of properties the check compares, as a number. */
  datatype Stream = Stream(kind: Kind, properties: nat)

  /** A media file, by all its streams in index order. */
  type Media = seq<Stream>

  function Layout(file: Media): (layout: seq<Kind>)
    ensures |layout| == |file| && forall k | 0 <= k < |file| :: layout[k] == file[k].kind
  {
    if file == [] then [] else [file[0].kind] + Layout(file[1..])
  }

  function Keep(file: Media, kind: Kind): (kept: Media)
    ensures |kept| <= |file| && forall s | s in kept :: s.kind == kind && s in file
  {
    if file == [] then []
    else if file[0].kind == kind then [file[0]] + Keep(file[1..], kind)
    else Keep(file[1..], kind)
  }

  /** `Probe.signature`: the video and audio streams, in the file's order. */
  function Signature(file: Media): Media {
    if file == [] then []
    else if file[0].kind.Other? then Signature(file[1..])
    else [file[0]] + Signature(file[1..])
  }

  /** `Probe.by_kind`: a stable sort that puts video before audio. */
  function ByKind(signature: Media): Media {
    Keep(signature, Video) + Keep(signature, Audio)
  }

  /** `Probe.in_order`. */
  predicate InOrder(file: Media) {
    Layout(file) == Layout(ByKind(Signature(file)))
  }

  /** What ffmpeg writes for `-map 0:v -map 0:a?`: all video streams, then all audio streams. */
  function Remuxed(file: Media): Media {
    Keep(file, Video) + Keep(file, Audio)
  }

  lemma {:induction false} SignatureKeeps(file: Media, kind: Kind)
    requires !kind.Other?
    ensures Keep(Signature(file), kind) == Keep(file, kind)
  {
    if file != [] {
      SignatureKeeps(file[1..], kind);
      if !file[0].kind.Other? {
        assert ([file[0]] + Signature(file[1..]))[1..] == Signature(file[1..]);
      }
    }
  }

  lemma {:induction false} KeepAppends(a: Media, b: Media, kind: Kind)
    ensures Keep(a + b, kind) == Keep(a, kind) + Keep(b, kind)
  {
    if a == [] {
      assert a + b == b;
    } else {
      assert (a + b)[1..] == a[1..] + b;
      KeepAppends(a[1..], b, kind);
    }
  }

  lemma {:induction false} KeepAll(file: Media, kind: Kind)
    requires forall s | s in file :: s.kind == kind
    ensures Keep(file, kind) == file && forall other | other != kind :: Keep(file, other) == []
    ensures !kind.Other? ==> Signature(file) == file
  {
    if file != [] {
      KeepAll(file[1..], kind);
    }
  }

  lemma {:induction false} SignatureAppends(a: Media, b: Media)
    ensures Signature(a + b) == Signature(a) + Signature(b)
  {
    if a == [] {
      assert a + b == b;
    } else {
      assert (a + b)[1..] == a[1..] + b;
      SignatureAppends(a[1..], b);
    }
  }

  lemma Recovers(v: Media, a: Media)
    requires (forall s | s in v :: s.kind == Video) && (forall s | s in a :: s.kind == Audio)
    ensures Keep(v + a, Video) == v && Keep(v + a, Audio) == a
  {
    KeepAppends(v, a, Video);
    KeepAppends(v, a, Audio);
    KeepAll(v, Video);
    KeepAll(a, Audio);
  }

  /** Video streams followed by audio streams can be told apart again. */
  lemma SplitsOneWay(v: Media, a: Media, v': Media, a': Media)
    requires (forall s | s in v :: s.kind == Video) && (forall s | s in a :: s.kind == Audio)
    requires (forall s | s in v' :: s.kind == Video) && (forall s | s in a' :: s.kind == Audio)
    requires v + a == v' + a'
    ensures v == v' && a == a'
  {
    Recovers(v, a);
    Recovers(v', a');
  }

  /** Files whose streams agree kind by kind, and that lay the kinds out alike, agree stream by stream. */
  lemma {:induction false} SameLayoutSameStreams(a: Media, b: Media)
    requires Layout(a) == Layout(b)
    requires Keep(a, Video) == Keep(b, Video) && Keep(a, Audio) == Keep(b, Audio)
    ensures Signature(a) == Signature(b)
    ensures forall k | 0 <= k < |a| :: a[k].kind == b[k].kind && (a[k].kind.Other? || a[k] == b[k])
  {
    if a != [] {
      assert |b| == |a| && a[0].kind == b[0].kind;
      assert Layout(a)[1..] == Layout(a[1..]) && Layout(b)[1..] == Layout(b[1..]);
      forall kind | kind == Video || kind == Audio
        ensures Keep(a[1..], kind) == Keep(b[1..], kind) && (a[0].kind == kind ==> a[0] == b[0])
      {
        if a[0].kind == kind {
          assert Keep(a, kind)[0] == a[0] && Keep(b, kind)[0] == b[0];
          assert Keep(a, kind)[1..] == Keep(a[1..], kind) && Keep(b, kind)[1..] == Keep(b[1..], kind);
        }
      }
      SameLayoutSameStreams(a[1..], b[1..]);
      forall k | 0 <= k < |a| ensures a[k].kind == b[k].kind && (a[k].kind.Other? || a[k] == b[k]) {
        if k > 0 {
          assert a[k] == a[1..][k - 1] && b[k] == b[1..][k - 1];
        }
      }
    }
  }

  /** A file in order already is its video streams followed by its audio streams. */
  lemma InOrderIsRemuxed(file: Media)
    requires Layout(file) == Layout(Remuxed(file))
    ensures file == Remuxed(file)
  {
    var v, a := Keep(file, Video), Keep(file, Audio);
    var n := |v|;
    forall k | 0 <= k < |file| ensures file[k].kind == if k < n then Video else Audio {
      assert Layout(file)[k] == Remuxed(file)[k].kind;
    }
    assert file == file[..n] + file[n..];
    Recovers(file[..n], file[n..]);
  }

  lemma RemuxedShape(file: Media)
    ensures Signature(Remuxed(file)) == Remuxed(file)
    ensures Keep(Remuxed(file), Video) == Keep(file, Video) && Keep(Remuxed(file), Audio) == Keep(file, Audio)
  {
    var v, a := Keep(file, Video), Keep(file, Audio);
    Recovers(v, a);
    KeepAll(v, Video);
    KeepAll(a, Audio);
    SignatureAppends(v, a);
  }

  lemma ByKindIsRemuxed(file: Media)
    ensures ByKind(Signature(file)) == Remuxed(file)
  {
    SignatureKeeps(file, Video);
    SignatureKeeps(file, Audio);
  }

  datatype Outcome = Refused | Concat(inputs: seq<Media>)

  /** Same kinds at the same indexes, and the very same video and audio streams there. */
  ghost predicate PairsUp(a: Media, b: Media) {
    && |a| == |b|
    && forall k | 0 <= k < |a| :: a[k].kind == b[k].kind && (a[k].kind.Other? || a[k] == b[k])
  }

  /** The check before anything is written: all parts carry the same streams, kind by kind. */
  method CarrySame(parts: seq<Media>) returns (same: bool)
    requires |parts| > 0
    ensures same <==> forall i | 0 <= i < |parts| :: Remuxed(parts[i]) == Remuxed(parts[0])
  {
    ByKindIsRemuxed(parts[0]);
    for i := 0 to |parts|
      invariant forall j | 0 <= j < i :: Remuxed(parts[j]) == Remuxed(parts[0])
    {
      ByKindIsRemuxed(parts[i]);
      if ByKind(Signature(parts[i])) != ByKind(Signature(parts[0])) {
        return false;
      }
    }
    return true;
  }

  /** Every stray part is remuxed; a part in order needs no remux to be in video-first order. */
  method Reorder(parts: seq<Media>) returns (inputs: seq<Media>)
    ensures |inputs| == |parts| && forall i | 0 <= i < |parts| :: inputs[i] == Remuxed(parts[i])
  {
    inputs := parts;
    for i := 0 to |parts|
      invariant |inputs| == |parts|
      invariant forall j | 0 <= j < i :: inputs[j] == Remuxed(parts[j])
      invariant forall j | i <= j < |parts| :: inputs[j] == parts[j]
    {
      ByKindIsRemuxed(parts[i]);
      if InOrder(parts[i]) {
        InOrderIsRemuxed(parts[i]);
      } else {
        inputs := inputs[i := Remuxed(parts[i])];
      }
    }
  }

  /** The check and the reordering in `merge`: the inputs of the concat pair up, each has all the
      video and audio of its part in the part's order, and nothing is remuxed while all layouts agree. */
  method Prepare(parts: seq<Media>) returns (outcome: Outcome)
    ensures outcome == Refused <==> |parts| < 2 || exists i | 0 <= i < |parts| :: Remuxed(parts[i]) != Remuxed(parts[0])
    ensures outcome.Concat? ==> |outcome.inputs| == |parts|
    ensures outcome.Concat? ==>
              forall i, j | 0 <= i < |parts| && 0 <= j < |parts| :: PairsUp(outcome.inputs[i], outcome.inputs[j])
    ensures outcome.Concat? ==> forall i | 0 <= i < |parts| :: Remuxed(outcome.inputs[i]) == Remuxed(parts[i])
    ensures outcome.Concat? && (forall i | 0 <= i < |parts| :: Layout(parts[i]) == Layout(parts[0])) ==>
              outcome.inputs == parts
  {
    if |parts| < 2 {
      return Refused;
    }
    var same := CarrySame(parts);
    if !same {
      return Refused;
    }
    if exists i | 0 <= i < |parts| :: Layout(parts[i]) != Layout(parts[0]) {
      var inputs := Reorder(parts);
      forall i | 0 <= i < |parts| ensures Remuxed(inputs[i]) == Remuxed(parts[i]) {
        RemuxedShape(parts[i]);
      }
      return Concat(inputs);
    }
    forall i, j | 0 <= i < |parts| && 0 <= j < |parts| ensures PairsUp(parts[i], parts[j]) {
      LikeFiles(parts[i], parts[j]);
    }
    return Concat(parts);
  }

  lemma LikeFiles(a: Media, b: Media)
    requires Layout(a) == Layout(b) && Remuxed(a) == Remuxed(b)
    ensures PairsUp(a, b) && Signature(a) == Signature(b)
  {
    SplitsOneWay(Keep(a, Video), Keep(a, Audio), Keep(b, Video), Keep(b, Audio));
    SameLayoutSameStreams(a, b);
  }

  /** The video-first order is the only one that keeps each kind's own order: a stable sort. */
  lemma {:induction false} SortedStreamsStay(file: Media)
    requires forall s | s in file :: !s.kind.Other?
    ensures multiset(ByKind(file)) == multiset(file)
  {
    if file != [] {
      var rest := file[1..];
      assert file == [file[0]] + rest;
      SortedStreamsStay(rest);
      assert multiset(Keep(file, Video)) + multiset(Keep(file, Audio)) ==
        multiset{file[0]} + multiset(Keep(rest, Video)) + multiset(Keep(rest, Audio));
      assert multiset(ByKind(rest)) == multiset(Keep(rest, Video)) + multiset(Keep(rest, Audio));
    }
  }
}
