/** `MissAVCrawler` (src/services/missavCrawler.js): the fetch-and-cheerio
    crawler of missav.com. It parses each source page into `VideoData`
    records, accumulates sources until ten videos exist, removes repeated
    URLs keeping the first, and picks one. */
module MissavCrawler {
  import opened Wrappers
  import opened Strings
  import opened Patterns
  import opened Dom
  import opened Urls
  import opened Passes
  import opened Runtime
  import opened Helpers
  import opened VideoData
  import opened Config

  // ---------------------------------------------------------------------
  // parseVideosFromHTML

  /** The `href` test: present, with `/en/`, and a case-sensitive code. */
  predicate Admits(href: Option<string>) {
    Truthy(href) && Contains(href.value, "/en/") && Test(CodeCs, href.value)
  }

  /** `.text-secondary` text, image `alt`, image `title`, element `title`;
      else the code after a slash in the URL; else `'JAV Video'`. */
  function VideoTitle(e: Element, href: string): (r: string)
    ensures r != ""
    ensures Truthy(LeadTitle(e)) ==> r == LeadTitle(e).value
    ensures !Truthy(LeadTitle(e)) && Test(SlashCodeCs, href) ==> r == Capture(SlashCodeCs, href).value
    ensures !Truthy(LeadTitle(e)) && !Test(SlashCodeCs, href) ==> r == "JAV Video"
  {
    var t := OrElse(LeadTitle(e), "");
    if t != "" then t
    else match Capture(SlashCodeCs, href)
      case Some(c) => c
      case None => "JAV Video"
  }

  /** `data-src || src || data-original || data-lazy-src` of the first image, as found. */
  function VideoImage(e: Element): Option<string> {
    ImageAttrs(FirstImg(e))
  }

  /** What the `elements.each` callback does with one element; `now` stands
      for the `new Date()` of the record. */
  function ParseVideo(e: Element, now: int): (r: Option<Video>)
    ensures r.Some? <==> Admits(Own(e, "href")) && Contains(PrefixUnlessHttp(Own(e, "href").value, ComHost), "missav.com")
    ensures r.Some? ==> r.value.IsValid() && r.value.url == PrefixUnlessHttp(Own(e, "href").value, ComHost)
    ensures r.Some? ==> r.value.title == VideoTitle(e, Own(e, "href").value) && r.value.image == VideoImage(e)
  {
    var href := Own(e, "href");
    if !Admits(href) then None
    else
      var url := PrefixUnlessHttp(href.value, ComHost);
      var title := VideoTitle(e, href.value);
      var v := Video(title, url, VideoImage(e), "MissAV", now);
      if title != "" && url != "" && v.IsValid() then Some(v) else None
  }

  /** A relative `href` that passes the test always gives a valid record. */
  lemma RelativeIsValid(e: Element, now: int)
    requires Admits(Own(e, "href")) && !StartsWith(Own(e, "href").value, "http")
    ensures ParseVideo(e, now).Some?
  {
    var url := PrefixUnlessHttp(Own(e, "href").value, ComHost);
    assert url[8..8 + |"missav.com"|] == "missav.com";
    ContainsAt(url, 8, "missav.com");
  }

  function Parser(now: int): Element -> Option<Video> {
    e => ParseVideo(e, now)
  }

  /** `parseVideosFromHTML` as a function: stop after the pass reaching twenty. */
  function ParsedVideos(query: Query, now: int): seq<Video> {
    Run(Parser(now), Results(query, VideoSelectors), None, 20)
  }

  /** Every parsed video is valid and came from an admitted `href`. */
  lemma ParsedValid(query: Query, now: int, v: Video)
    requires v in ParsedVideos(query, now)
    ensures v.IsValid() && v.title != ""
    ensures exists s, i :: 0 <= s < |VideoSelectors| && 0 <= i < |query(VideoSelectors[s])|
                        && Admits(Own(query(VideoSelectors[s])[i], "href"))
  {
    var ess := Results(query, VideoSelectors);
    RunMember(Parser(now), ess, None, 20, v);
    var s, i :| 0 <= s < |ess| && 0 <= i < |ess[s]| && Parser(now)(ess[s][i]) == Some(v);
    assert ParseVideo(ess[s][i], now) == Some(v);
  }

  method ParsePass(elements: seq<Element>, now: int) returns (found: seq<Video>)
    ensures found == Keep(Parser(now), Limit(elements, None))
  {
    found := [];
    var i := 0;
    while i < |elements|
      invariant 0 <= i <= |elements|
      invariant found == Keep(Parser(now), elements[..i])
    {
      var v := ParseVideo(elements[i], now);
      assert v == Parser(now)(elements[i]);
      if v.Some? {
        found := found + [v.value];
      }
      KeepStep(Parser(now), elements, i);
      i := i + 1;
    }
    assert elements[..|elements|] == elements;
  }

  // ---------------------------------------------------------------------
  // De-duplication: `filter((v, i, self) => i === self.findIndex(w => w.url === v.url))`

  /** `self.findIndex(w => w.url === url)`, with `|vs|` for -1. */
  function FindIndex(vs: seq<Video>, url: string): (k: nat)
    ensures k <= |vs|
    ensures k < |vs| ==> vs[k].url == url
    ensures forall j :: 0 <= j < k ==> vs[j].url != url
    decreases |vs|
  {
    if vs == [] then 0
    else if vs[0].url == url then 0
    else 1 + FindIndex(vs[1..], url)
  }

  /** The filter applied to the first `n` elements. */
  function UniqueUpTo(vs: seq<Video>, n: nat): seq<Video>
    requires n <= |vs|
  {
    if n == 0 then []
    else UniqueUpTo(vs, n - 1) + (if FindIndex(vs, vs[n - 1].url) == n - 1 then [vs[n - 1]] else [])
  }

  function Unique(vs: seq<Video>): seq<Video> {
    UniqueUpTo(vs, |vs|)
  }

  predicate DistinctUrls(vs: seq<Video>) {
    forall i, j :: 0 <= i < j < |vs| ==> vs[i].url != vs[j].url
  }

  function UrlSet(vs: seq<Video>): set<string> {
    set v | v in vs :: v.url
  }

  /** The reference: walk the list keeping a video when its URL was not seen. */
  function KeepFirst(vs: seq<Video>, seen: set<string>): seq<Video>
    decreases |vs|
  {
    if vs == [] then []
    else if vs[0].url in seen then KeepFirst(vs[1..], seen)
    else [vs[0]] + KeepFirst(vs[1..], seen + {vs[0].url})
  }

  lemma {:induction false} KeepFirstSnoc(xs: seq<Video>, x: Video, seen: set<string>)
    ensures KeepFirst(xs + [x], seen) == KeepFirst(xs, seen) + (if x.url in seen + UrlSet(xs) then [] else [x])
    decreases |xs|
  {
    if xs == [] {
      assert xs + [x] == [x];
      assert UrlSet(xs) == {};
    } else {
      assert (xs + [x])[1..] == xs[1..] + [x];
      UrlSetCons(xs);
      if xs[0].url in seen {
        KeepFirstSnoc(xs[1..], x, seen);
      } else {
        KeepFirstSnoc(xs[1..], x, seen + {xs[0].url});
      }
    }
  }

  lemma UrlSetCons(xs: seq<Video>)
    requires xs != []
    ensures UrlSet(xs) == {xs[0].url} + UrlSet(xs[1..])
  {
    forall u | u in UrlSet(xs) ensures u in {xs[0].url} + UrlSet(xs[1..]) {
      var v :| v in xs && v.url == u;
      if v != xs[0] {
        assert v in xs[1..];
      }
    }
  }

  lemma FindIndexUnseen(vs: seq<Video>, n: nat)
    requires n < |vs|
    ensures FindIndex(vs, vs[n].url) == n <==> vs[n].url !in UrlSet(vs[..n])
  {
    var k := FindIndex(vs, vs[n].url);
    if k < n {
      assert vs[..n][k] == vs[k];
      assert vs[k] in vs[..n];
    }
    if vs[n].url in UrlSet(vs[..n]) {
      var v :| v in vs[..n] && v.url == vs[n].url;
      var j :| 0 <= j < n && vs[..n][j] == v;
      assert vs[j].url == vs[n].url;
    }
  }

  /** The `findIndex` filter is the walk that keeps first occurrences. */
  lemma {:induction false} UniqueUpToIsKeepFirst(vs: seq<Video>, n: nat)
    requires n <= |vs|
    ensures UniqueUpTo(vs, n) == KeepFirst(vs[..n], {})
  {
    if n > 0 {
      UniqueUpToIsKeepFirst(vs, n - 1);
      assert vs[..n] == vs[..n - 1] + [vs[n - 1]];
      KeepFirstSnoc(vs[..n - 1], vs[n - 1], {});
      FindIndexUnseen(vs, n - 1);
    }
  }

  lemma UniqueIsKeepFirst(vs: seq<Video>)
    ensures Unique(vs) == KeepFirst(vs, {})
  {
    UniqueUpToIsKeepFirst(vs, |vs|);
    assert vs[..|vs|] == vs;
  }

  /** The filter keeps only first occurrences of the list's videos. */
  lemma {:induction false} UniqueUpToFrom(vs: seq<Video>, n: nat)
    requires n <= |vs|
    ensures forall x :: x in UniqueUpTo(vs, n) ==> exists j :: 0 <= j < n && vs[j] == x && FindIndex(vs, x.url) == j
  {
    if n > 0 {
      UniqueUpToFrom(vs, n - 1);
    }
  }

  /** No URL is kept twice. */
  lemma {:induction false} UniqueUpToDistinctUrls(vs: seq<Video>, n: nat)
    requires n <= |vs|
    ensures DistinctUrls(UniqueUpTo(vs, n))
  {
    if n > 0 {
      UniqueUpToDistinctUrls(vs, n - 1);
      UniqueUpToFrom(vs, n - 1);
      var prev := UniqueUpTo(vs, n - 1);
      var x := vs[n - 1];
      if FindIndex(vs, x.url) == n - 1 {
        forall i | 0 <= i < |prev| ensures prev[i].url != x.url {
          assert prev[i] in prev;
        }
        DistinctSnoc(prev, x);
      }
    }
  }

  lemma DistinctSnoc(prev: seq<Video>, x: Video)
    requires DistinctUrls(prev)
    requires forall i :: 0 <= i < |prev| ==> prev[i].url != x.url
    ensures DistinctUrls(prev + [x])
  {
  }

  /** Every URL of the list is still present. */
  lemma {:induction false} UniqueUpToCovers(vs: seq<Video>, n: nat)
    requires n <= |vs|
    ensures forall j :: 0 <= j < n ==> vs[j].url in UrlSet(UniqueUpTo(vs, n))
  {
    if n > 0 {
      UniqueUpToCovers(vs, n - 1);
      var prev := UniqueUpTo(vs, n - 1);
      var cur := UniqueUpTo(vs, n);
      assert forall y :: y in prev ==> y in cur;
      var k := FindIndex(vs, vs[n - 1].url);
      if k < n - 1 {
        assert vs[k].url in UrlSet(prev);
      } else {
        assert vs[n - 1] in cur;
      }
    }
  }

  lemma UniqueSpec(vs: seq<Video>)
    ensures forall x :: x in Unique(vs) ==> x in vs
    ensures DistinctUrls(Unique(vs))
    ensures UrlSet(Unique(vs)) == UrlSet(vs)
  {
    UniqueUpToFrom(vs, |vs|);
    UniqueUpToDistinctUrls(vs, |vs|);
    UniqueUpToCovers(vs, |vs|);
    forall u | u in UrlSet(vs) ensures u in UrlSet(Unique(vs)) {
      var v :| v in vs && v.url == u;
      var j :| 0 <= j < |vs| && vs[j] == v;
    }
  }

  /** A list whose URLs are distinct is left as it is. */
  lemma {:induction false} UniqueUpToDistinct(vs: seq<Video>, n: nat)
    requires n <= |vs| && DistinctUrls(vs)
    ensures UniqueUpTo(vs, n) == vs[..n]
  {
    if n > 0 {
      UniqueUpToDistinct(vs, n - 1);
      assert FindIndex(vs, vs[n - 1].url) == n - 1;
      assert vs[..n] == vs[..n - 1] + [vs[n - 1]];
    }
  }

  /** Removing repeats twice is removing them once. */
  lemma UniqueIdempotent(vs: seq<Video>)
    ensures Unique(Unique(vs)) == Unique(vs)
  {
    UniqueSpec(vs);
    var u := Unique(vs);
    UniqueUpToDistinct(u, |u|);
    assert u[..|u|] == u;
  }

  // ---------------------------------------------------------------------
  // getRandomHotVideo

  /** The videos of each source: `fetched(url)` is the page `fetchWithRetry`
      returns, or None when it throws; a failing source adds nothing. */
  function SourcePools(fetched: string -> Option<Page>, now: int): (r: seq<seq<Video>>)
    ensures |r| == |MissavUrls|
    ensures forall k :: 0 <= k < |r| ==> r[k] == if fetched(MissavUrls[k]).Some? then ParsedVideos(fetched(MissavUrls[k]).value.query, now) else []
  {
    seq(|MissavUrls|, k requires 0 <= k < |MissavUrls| =>
      if fetched(MissavUrls[k]).Some? then ParsedVideos(fetched(MissavUrls[k]).value.query, now) else [])
  }

  /** The accumulated pool: the sources in order until the pool holds ten. */
  function Accumulated(fetched: string -> Option<Page>, now: int): seq<Video> {
    var pools := SourcePools(fetched, now);
    Flatten(pools[..StopAt(pools, 10)])
  }

  /** The pick: nothing when the pool is empty, otherwise the de-duplicated
      video at the random index. */
  function HotPick(fetched: string -> Option<Page>, now: int, rnd: real): (r: Option<Video>)
    requires 0.0 <= rnd < 1.0
    ensures r.None? <==> Accumulated(fetched, now) == []
    ensures r.Some? ==> r.value in Unique(Accumulated(fetched, now)) && r.value in Accumulated(fetched, now)
  {
    var pool := Accumulated(fetched, now);
    if |pool| == 0 then None
    else
      var unique := Unique(pool);
      UniqueSpec(pool);
      assert pool[0].url in UrlSet(unique);
      Some(unique[RandomIndex(rnd, |unique|)])
  }

  /** A picked video is valid. */
  lemma PickValid(fetched: string -> Option<Page>, now: int, rnd: real)
    requires 0.0 <= rnd < 1.0 && HotPick(fetched, now, rnd).Some?
    ensures HotPick(fetched, now, rnd).value.IsValid()
  {
    var v := HotPick(fetched, now, rnd).value;
    var pools := SourcePools(fetched, now);
    FlattenMember(pools[..StopAt(pools, 10)], v);
    var k :| 0 <= k < StopAt(pools, 10) && v in pools[..StopAt(pools, 10)][k];
    var page := fetched(MissavUrls[k]);
    ParsedValid(page.value.query, now, v);
  }

  // ---------------------------------------------------------------------
  // getFallbackVideo

  const FallbackSelector := "a[href*=\"/en/\"][href*=\"-\"]"

  /** The record built from the first link of the fallback page, or nothing
      when the fetch fails, there is no link, or it has no `href` (the
      `href.startsWith` call throws, and the exception is caught). */
  function Fallback(page: Option<Page>, now: int): (r: Option<Video>)
    ensures r.Some? <==> page.Some? && page.value.query(FallbackSelector) != []
                         && Own(page.value.query(FallbackSelector)[0], "href").Some?
    ensures r.Some? ==> StartsWith(r.value.title, SosPrefix) && r.value.FormattedTitle() == r.value.title
    ensures r.Some? ==>
              var link := page.value.query(FallbackSelector)[0];
              var img := FirstImg(link);
              r.value.title == SosPrefix + OrElse(Or(Attr(img, "alt"), Attr(img, "title")), "JAV Video")
              && r.value.url == PrefixUnlessHttp(Own(link, "href").value, ComHost)
              && r.value.image == Or(Attr(img, "data-src"), Attr(img, "src"))
              && r.value.source == "MissAV" && r.value.timestamp == now
  {
    if page.None? || page.value.query(FallbackSelector) == [] then None
    else
      var link := page.value.query(FallbackSelector)[0];
      var href := Own(link, "href");
      if href.None? then None
      else
        var img := FirstImg(link);
        var title := OrElse(Or(Attr(img, "alt"), Attr(img, "title")), "JAV Video");
        StartsWithConcat(SosPrefix, title, SosPrefix);
        assert StartsWith(SosPrefix + title, Sos) by {
          assert (SosPrefix + title)[..1] == Sos;
        }
        Some(Video(SosPrefix + title, PrefixUnlessHttp(href.value, ComHost), Or(Attr(img, "data-src"), Attr(img, "src")), "MissAV", now))
  }

  /** The page `getFallbackVideo` reads: its single attempt must answer ok,
      and `load` (`cheerio.load`) turns the body into the page. */
  function FallbackPage(respond: nat -> Outcome<string>, load: string -> Query): Option<Page> {
    if respond(1).Ok() then Some(Page(respond(1).body, load(respond(1).body))) else None
  }

  // ---------------------------------------------------------------------
  // The crawler object

  class Crawler {
    var lastRequestTime: int
    const requestDelay: int

    constructor ()
      ensures lastRequestTime == 0 && requestDelay == 2000
    {
      lastRequestTime := 0;
      requestDelay := 2000;
    }

    method RateLimitDelay(now: int, later: int) returns (wait: int)
      modifies this`lastRequestTime
      ensures wait == RateLimitWait(now, old(lastRequestTime), requestDelay)
      ensures lastRequestTime == later
    {
      wait := RateLimitWait(now, lastRequestTime, requestDelay);
      lastRequestTime := later;
    }

    /** `fetchWithRetry`: `respond(a)` is what attempt `a` (from 1) gets;
        after a failure that is not the last one allowed it waits
        `2^a * 1000` ms. */
    method FetchWithRetry(now: int, later: int, respond: nat -> Outcome<string>, maxRetries: int)
      returns (r: Settled<string, Outcome<string>>, attempts: nat, waits: seq<int>)
      modifies this`lastRequestTime
      ensures lastRequestTime == later
      ensures maxRetries < 1 ==> attempts == 0 && r == Undefined
      ensures maxRetries >= 1 ==> 1 <= attempts <= maxRetries && !r.Undefined?
      ensures forall a :: 1 <= a < attempts ==> !respond(a).Ok()
      ensures r.Resolved? <==> exists a :: 1 <= a <= maxRetries && respond(a).Ok()
      ensures r.Resolved? ==> respond(attempts).Ok() && r.value == respond(attempts).body
      ensures r.Rejected? ==> attempts == maxRetries && r.error == respond(attempts)
      ensures |waits| == if attempts == 0 then 0 else attempts - 1
      ensures forall j :: 0 <= j < |waits| ==> waits[j] == Pow2(j + 1) * 1000
    {
      var rateWait := RateLimitDelay(now, later);
      r, attempts, waits := Undefined, 0, [];
      var attempt := 1;
      while attempt <= maxRetries
        invariant 1 <= attempt && attempts == attempt - 1 && |waits| == attempt - 1
        invariant maxRetries >= 1 ==> attempt <= maxRetries
        invariant maxRetries < 1 ==> attempt == 1
        invariant forall a :: 1 <= a < attempt ==> !respond(a).Ok()
        invariant forall j :: 0 <= j < |waits| ==> waits[j] == Pow2(j + 1) * 1000
      {
        attempts := attempt;
        var response := respond(attempt);
        if response.Ok() {
          r := Resolved(response.body);
          return;
        }
        if attempt == maxRetries {
          r := Rejected(response);
          return;
        }
        waits := waits + [Pow2(attempt) * 1000];
        attempt := attempt + 1;
      }
    }

    /** `parseVideosFromHTML` */
    method ParseVideosFromHtml(page: Page, now: int) returns (videos: seq<Video>)
      ensures videos == ParsedVideos(page.query, now)
    {
      ghost var outs := Outputs(Parser(now), Results(page.query, VideoSelectors), None);
      videos := [];
      var s := 0;
      while s < |VideoSelectors|
        invariant 0 <= s <= |VideoSelectors|
        invariant videos == Flatten(outs[..s])
        invariant StopAt(outs, 20) == StopFrom(outs, 20, s + 1)
      {
        var found := ParsePass(page.query(VideoSelectors[s]), now);
        videos := videos + found;
        FlattenStep(outs, s);
        s := s + 1;
        if |videos| >= 20 {
          break;
        }
      }
    }

    /** `getRandomHotVideo`: the sources are tried in order, a failing one is
        skipped, and accumulation stops once ten videos exist. */
    method GetRandomHotVideo(fetched: string -> Option<Page>, now: int, rnd: real) returns (video: Option<Video>)
      requires 0.0 <= rnd < 1.0
      ensures video == HotPick(fetched, now, rnd)
    {
      ghost var pools := SourcePools(fetched, now);
      var allVideos := [];
      var u := 0;
      while u < |MissavUrls|
        invariant 0 <= u <= |MissavUrls|
        invariant allVideos == Flatten(pools[..u])
        invariant StopAt(pools, 10) == StopFrom(pools, 10, u + 1)
      {
        var html := fetched(MissavUrls[u]);
        if html.Some? {
          var videos := ParseVideosFromHtml(html.value, now);
          allVideos := allVideos + videos;
          FlattenStep(pools, u);
          u := u + 1;
          if |allVideos| >= 10 {
            break;
          }
        } else {
          FlattenStep(pools, u);
          u := u + 1;
        }
      }
      if |allVideos| == 0 {
        return None;
      }
      var uniqueVideos := Unique(allVideos);
      UniqueSpec(allVideos);
      assert allVideos[0].url in UrlSet(uniqueVideos);
      video := Some(uniqueVideos[RandomIndex(rnd, |uniqueVideos|)]);
    }

    /** `getFallbackVideo`: `respond(1)` is what the single attempt of
        `fetchWithRetry('https://missav.com/en', 1)` gets, `now` and `later`
        are the clock around its rate limit, and `stamp` is the record's
        `new Date()`. */
    method GetFallbackVideo(now: int, later: int, respond: nat -> Outcome<string>, load: string -> Query, stamp: int)
      returns (video: Option<Video>)
      modifies this`lastRequestTime
      ensures lastRequestTime == later
      ensures video == Fallback(FallbackPage(respond, load), stamp)
    {
      var r, attempts, waits := FetchWithRetry(now, later, respond, 1);
      if !r.Resolved? {
        return None;
      }
      var html := r.value;
      var firstLinks := load(html)(FallbackSelector);
      if |firstLinks| == 0 {
        return None;
      }
      var firstLink := firstLinks[0];
      var href := Own(firstLink, "href");
      if href.None? {
        return None;
      }
      var url := if StartsWith(href.value, "http") then href.value else ComHost + href.value;
      var img := FirstImg(firstLink);
      var title := OrElse(Or(Attr(img, "alt"), Attr(img, "title")), "JAV Video");
      var image := Or(Attr(img, "data-src"), Attr(img, "src"));
      video := Some(Video(SosPrefix + title, url, image, "MissAV", stamp));
    }
  }
}
