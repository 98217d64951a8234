/**
 Reading an actor's video list from JavBus: finding the last page behind a sliding window of page
 links, and putting the pages together whatever order their fetches finish in.
 */
module ActorPages {
  import opened Options

  type VideoId = string

  /** A page as it is parsed: the videos listed, and the pages it links. */
  datatype Page = Page(ids: seq<VideoId>, links: set<nat>)

  /** What the site answers for each page number; nothing when there is no such page. */
  type Site = nat -> Option<Page>

  datatype PaginationError =
    | NoActor | TooManyLinked | Gap(page: nat) | NoEnd | EmptyGap(page: nat) | EmptyPage(page: nat)

  datatype Result<T> = Ok(value: T) | Err(error: PaginationError)

  /** `max(links, default)`. */
  function LinkedMax(links: set<nat>, default: nat): (linked: nat)
    ensures links == {} ==> linked == default
    ensures links != {} ==> linked in links && forall page | page in links :: page <= linked
  {
    if links == {} then default
    else
      HasGreatest(links);
      var page :| page in links && forall other | other in links :: other <= page;
      page
  }

  lemma {:induction false} Greatest(links: set<nat>) returns (top: nat)
    requires links != {}
    ensures top in links && forall page | page in links :: page <= top
  {
    top :| top in links;
    var rest := links - {top};
    if rest != {} {
      var next := Greatest(rest);
      if next > top {
        top := next;
      }
    }
    forall page | page in links ensures page <= top {
      assert page in rest || page !in rest;
    }
  }

  lemma HasGreatest(links: set<nat>)
    requires links != {}
    ensures exists page :: page in links && forall other | other in links :: other <= page
  {
    var top := Greatest(links);
  }

  ghost predicate Within(links: set<nat>, last: nat) {
    forall page | page in links :: page <= last
  }

  /** A site with pages 1 to `last`: none empty, none repeated, linking each other only. What it
      answers for the page after the last is nothing, an empty page that links no further, or the
      first or last page again. */
  ghost predicate Proper(site: Site, last: nat) {
    && last >= 1
    && (forall p | 1 <= p <= last :: site(p).Some? && site(p).value.ids != [] && Within(site(p).value.links, last))
    && (forall p, q | 1 <= p < q <= last :: site(p).value.ids != site(q).value.ids)
    && (site(last + 1).None?
        || (site(last + 1).value.ids == [] && Within(site(last + 1).value.links, last))
        || (site(last + 1).value.ids != [] && site(last + 1).value.ids in {site(1).value.ids, site(last).value.ids}))
  }

  /** Why a search may stop at `last`: there is nothing after it, or only pages already seen. */
  ghost predicate Ends(site: Site, last: nat) {
    || site(last + 1).None?
    || (site(last + 1).value.ids == [] && Within(site(last + 1).value.links, last))
    || (exists p :: 1 <= p <= last && site(p).Some? && site(p).value.ids == site(last + 1).value.ids)
    || (last == 1 && site(1) == Some(Page([], {})))
  }

  /** `get_total_page`. */
  method GetTotalPage(site: Site, limit: nat) returns (total: Result<nat>, fetches: nat)
    ensures fetches <= limit + 1 && (limit > 0 ==> fetches <= limit)
    ensures total.Ok? ==> total.value >= 1 && site(total.value).Some? && Ends(site, total.value)
    ensures total.Ok? ==> total.value == 1 || total.value < limit
    ensures forall last: nat | Proper(site, last) && last < limit :: total == Ok(last)
    ensures forall last: nat | Proper(site, last) && last >= limit :: total.Err?
  {
    fetches := 1;
    var first := site(1);
    if first.None? {
      return Err(NoActor), 1;
    }
    if first.value.ids == [] && first.value.links == {} {
      return Ok(1), 1;
    }
    var fingerprints := if first.value.ids == [] then {} else {first.value.ids};
    var highest := 1;
    var links := first.value.links;
    while true
      invariant 1 <= fetches <= highest && (highest == 1 || highest <= limit)
      invariant site(highest).Some? && links == site(highest).value.links
      invariant forall ids | ids in fingerprints :: Seen(site, highest, ids)
      invariant site(1).Some? && (site(1).value.ids != [] ==> site(1).value.ids in fingerprints)
      invariant site(highest).value.ids != [] ==> site(highest).value.ids in fingerprints
      invariant forall last: nat | Proper(site, last) :: highest <= last
      decreases limit + 2 - highest
    {
      var linked := LinkedMax(links, highest);
      if linked > limit {
        return Err(TooManyLinked), fetches;
      }
      if linked > highest {
        highest, fetches := linked, fetches + 1;
        var page := site(highest);
        if page.None? {
          return Err(Gap(highest)), fetches;
        }
        links := page.value.links;
        if page.value.ids != [] {
          fingerprints := fingerprints + {page.value.ids};
        }
        continue;
      }
      if highest >= limit {
        return Err(NoEnd), fetches;
      }
      var probe := highest + 1;
      var page := site(probe);
      fetches := fetches + 1;
      if page.None? {
        return Ok(highest), fetches;
      }
      if page.value.ids == [] {
        if LinkedMax(page.value.links, highest) > highest {
          return Err(EmptyGap(probe)), fetches;
        }
        return Ok(highest), fetches;
      }
      if page.value.ids in fingerprints {
        assert Seen(site, highest, page.value.ids);
        return Ok(highest), fetches;
      }
      fingerprints := fingerprints + {page.value.ids};
      highest, links := probe, page.value.links;
    }
  }

  /** The page with these videos is one of the first `highest`. */
  ghost predicate Seen(site: Site, highest: nat, ids: seq<VideoId>) {
    exists p :: 1 <= p <= highest && site(p).Some? && site(p).value.ids == ids
  }

  // -- the pages together ----------------------------------------------------

  function Flatten(pages: seq<seq<VideoId>>): seq<VideoId> {
    if pages == [] then [] else pages[0] + Flatten(pages[1..])
  }

  /** Each value once, where it comes first: `list(dict.fromkeys(...))`. */
  function Firsts(ids: seq<VideoId>): (firsts: seq<VideoId>)
    ensures forall id :: id in firsts <==> id in ids
    ensures forall i, j | 0 <= i < j < |firsts| :: firsts[i] != firsts[j]
  {
    if ids == [] then []
    else
      var before := Firsts(ids[..|ids| - 1]);
      assert ids == ids[..|ids| - 1] + [ids[|ids| - 1]];
      if ids[|ids| - 1] in before then before else before + [ids[|ids| - 1]]
  }

  ghost predicate FirstAt(ids: seq<VideoId>, i: nat, id: VideoId) {
    i < |ids| && ids[i] == id && id !in ids[..i]
  }

  /** The videos come in the order of their first mention. */
  lemma {:induction false} FirstsKeepOrder(ids: seq<VideoId>, i: nat, j: nat, a: nat, b: nat)
    requires i < j < |Firsts(ids)| && FirstAt(ids, a, Firsts(ids)[i]) && FirstAt(ids, b, Firsts(ids)[j])
    ensures a < b
    decreases |ids|
  {
    var most, last := ids[..|ids| - 1], ids[|ids| - 1];
    var before := Firsts(most);
    assert ids == most + [last];
    if a < |most| && b < |most| {
      assert most[..a] == ids[..a] && most[..b] == ids[..b];
      assert ids[b] in most && ids[b] in before;
      FirstsKeepOrder(most, i, j, a, b);
    }
  }

  /** Every page's fetch finishes, each once. */
  ghost predicate IsOrder(order: seq<nat>, n: nat) {
    |order| == n && (forall p | 0 <= p < n :: p in order) && forall k | 0 <= k < n :: order[k] < n
  }

  /** `scrape`, once the number of pages is known. `answers` is what each page's fetch brings, and
      `order` the order in which the fetches finish. */
  method Scrape(answers: seq<seq<VideoId>>, order: seq<nat>) returns (videos: Result<seq<VideoId>>)
    requires IsOrder(order, |answers|)
    ensures videos == if |answers| > 1 && [] in answers then Err(EmptyPage(FirstEmpty(answers)))
                      else Ok(Firsts(Flatten(answers)))
  {
    var byPage: map<nat, seq<VideoId>> := map[];
    for k := 0 to |order|
      invariant forall p | p in byPage :: p < |answers| && byPage[p] == answers[p]
      invariant forall i | 0 <= i < k :: order[i] in byPage
    {
      byPage := byPage[order[k] := answers[order[k]]];
    }
    var pages: seq<seq<VideoId>> := [];
    for p := 0 to |answers|
      invariant pages == answers[..p]
    {
      assert p in order;
      pages := pages + [byPage[p]];
    }
    assert pages == answers;
    if |answers| > 1 && [] in pages {
      return Err(EmptyPage(FirstEmpty(answers)));
    }
    return Ok(Firsts(Flatten(pages)));
  }

  /** The number of the first empty page. */
  function FirstEmpty(pages: seq<seq<VideoId>>): (page: nat)
    requires [] in pages
    ensures 1 <= page <= |pages| && pages[page - 1] == [] && [] !in pages[..page - 1]
  {
    if pages[0] == [] then 1
    else
      assert forall k | 1 <= k < |pages| :: pages[k] == pages[1..][k - 1];
      var rest := FirstEmpty(pages[1..]);
      assert pages[..rest] == [pages[0]] + pages[1..][..rest - 1];
      rest + 1
  }

  function Listed(site: Site, n: nat): (answers: seq<seq<VideoId>>)
    ensures |answers| == n
    ensures forall p | 0 <= p < n :: answers[p] == (if site(p + 1).Some? then site(p + 1).value.ids else [])
  {
    seq(n, p requires 0 <= p < n => if site(p + 1).Some? then site(p + 1).value.ids else [])
  }

  /** All of a proper site's videos, each once, in page order, whatever order the fetches finish in. */
  method ScrapeSite(site: Site, limit: nat, order: nat -> seq<nat>) returns (videos: Result<seq<VideoId>>)
    requires forall n :: IsOrder(order(n), n)
    ensures forall last: nat | Proper(site, last) && last < limit :: videos == Ok(Firsts(Flatten(Listed(site, last))))
  {
    var total, _ := GetTotalPage(site, limit);
    if total.Err? {
      return Err(total.error);
    }
    videos := Scrape(Listed(site, total.value), order(total.value));
    forall last: nat | Proper(site, last) && last < limit ensures [] !in Listed(site, last) && total == Ok(last) {
      assert forall p | 0 <= p < last :: Listed(site, last)[p] == site(p + 1).value.ids;
    }
  }
}
