/** The exported `MissAVCrawler` instance of src/services/crawler.js: one
    fetch per listing page until one answers, cheerio parsing of the links
    under `/dm18/vi/`, a random pick, and a fallback page. `load` stands for
    `cheerio.load`, taking an HTML text to the page's selector results. */
module Crawler {
  import opened Wrappers
  import opened Strings
  import opened Patterns
  import opened Dom
  import opened Urls
  import opened Passes
  import opened Runtime
  import opened VideoData
  import opened Config

  /** `this.baseUrl` */
  const Base := WsHost

  /** `normalizeUrl(href)`: the base URL for a missing or empty `href`. */
  function NormalizeUrl(href: Option<string>): (r: string)
    ensures StartsWith(r, "http")
    ensures Truthy(href) ==> EndsWith(r, href.value)
    ensures Truthy(href) && StartsWith(href.value, "http") ==> r == href.value
    ensures !Truthy(href) ==> r == Base
    ensures Truthy(href) && StartsWith(href.value, "//") ==> r == "https:" + href.value
    ensures Truthy(href) && !StartsWith(href.value, "http") && !StartsWith(href.value, "//") ==> r == Base + href.value
  {
    if !Truthy(href) then Base else Fix(href.value, Base, false)
  }

  /** A normalized URL is its own normalization. */
  lemma NormalizeUrlIdempotent(href: Option<string>)
    ensures NormalizeUrl(Some(NormalizeUrl(href))) == NormalizeUrl(href)
  {
  }

  // ---------------------------------------------------------------------
  // isValidVideoLink

  /** `/\/dm18\/vi\/[^\/]+/`, `/[A-Z]{2,}-?\d{3,}/`, `/\d{6}_\d{3}/`, `/\/\d+\//` */
  const Dm18Path := Regex(["/dm18/vi/"], [NonSlashRun], false)
  const SixThree := Regex([""], [SixUnderscoreThree], false)
  const NumberDir := Regex(["/"], [DigitsSlash], false)
  const LinkPatterns := [Dm18Path, CodeCs, SixThree, NumberDir]

  predicate IsValidVideoLink(href: Option<string>) {
    Truthy(href)
    && (exists k :: 0 <= k < |LinkPatterns| && Test(LinkPatterns[k], href.value))
    && Contains(href.value, "/dm18/vi/")
  }

  /** `/dm18/vi/` occurs at `i` with a character other than `/` after it. */
  predicate Dm18At(h: string, i: nat) {
    i + 10 <= |h| && h[i..i + 9] == "/dm18/vi/" && h[i + 9] != '/'
  }

  /** The first pattern, `/\/dm18\/vi\/[^\/]+/`, matches exactly where
      `/dm18/vi/` is followed by a character other than `/`. */
  lemma Dm18PathShape(h: string)
    ensures Test(Dm18Path, h) <==> exists i: nat :: Dm18At(h, i)
  {
    if Test(Dm18Path, h) {
      var i := Search(Dm18Path, h, 0).value.start;
      SinglePrefix(Dm18Path, h, i);
      assert LiteralAt(h, i, "/dm18/vi/", false);
      assert h[i..i + 9] == "/dm18/vi/" by {
        forall k | 0 <= k < 9 ensures h[i..i + 9][k] == "/dm18/vi/"[k] {
          assert SameChar(h[i + k], "/dm18/vi/"[k], false);
        }
      }
      assert AtomAt(NonSlashRun, h, i + 9, false).Some?;
      assert Dm18At(h, i);
    }
    if exists i: nat :: Dm18At(h, i) {
      var i: nat :| Dm18At(h, i);
      Dm18LinkValid(h, i);
    }
  }

  /** `isValidVideoLink`: a link is valid exactly when it holds `/dm18/vi/`
      followed by a character other than `/`, or holds `/dm18/vi/` and
      matches one of the other three patterns. */
  lemma ValidLinkShape(h: string)
    ensures IsValidVideoLink(Some(h)) <==>
      (exists i: nat :: Dm18At(h, i))
      || (Contains(h, "/dm18/vi/") && (Test(CodeCs, h) || Test(SixThree, h) || Test(NumberDir, h)))
  {
    Dm18PathShape(h);
    if exists i: nat :: Dm18At(h, i) {
      var i: nat :| Dm18At(h, i);
      ContainsAt(h, i, "/dm18/vi/");
    }
    if Contains(h, "/dm18/vi/") {
      ContainsIndex(h, "/dm18/vi/");
      var i: nat :| OccursAt(h, "/dm18/vi/", i);
      assert h != "";
      if Test(Dm18Path, h) { assert Test(LinkPatterns[0], h); }
      if Test(CodeCs, h) { assert Test(LinkPatterns[1], h); }
      if Test(SixThree, h) { assert Test(LinkPatterns[2], h); }
      if Test(NumberDir, h) { assert Test(LinkPatterns[3], h); }
    }
    if IsValidVideoLink(Some(h)) {
      var k :| 0 <= k < |LinkPatterns| && Test(LinkPatterns[k], h);
      assert k == 0 || k == 1 || k == 2 || k == 3;
    }
  }

  /** `/dm18/vi/` followed by a character other than `/` makes a valid link. */
  lemma Dm18LinkValid(h: string, i: nat)
    requires i + 10 <= |h| && h[i..i + 9] == "/dm18/vi/" && h[i + 9] != '/'
    ensures Test(Dm18Path, h) && IsValidVideoLink(Some(h))
  {
    assert LiteralAt(h, i, "/dm18/vi/", false) by {
      forall k | 0 <= k < 9 ensures SameChar(h[i + k], "/dm18/vi/"[k], false) {
        assert h[i + k] == h[i..i + 9][k];
      }
    }
    assert AtomAt(NonSlashRun, h, i + 9, false).Some?;
    assert AltsAt(Dm18Path.alts, h, i + 9, false).Some?;
    assert MatchAt(Dm18Path, h, i).Some?;
    SearchFinds(Dm18Path, h, 0, i);
    assert Test(LinkPatterns[0], h);
    ContainsAt(h, i, "/dm18/vi/");
  }

  // ---------------------------------------------------------------------
  // parseVideoFromHtml

  /** The `videos.each` test: keep an element whose own `href` is a valid link. */
  function KeepLink(e: Element): (r: Option<Element>)
    ensures r.Some? <==> IsValidVideoLink(Own(e, "href"))
    ensures r.Some? ==> r.value == e
  {
    if Truthy(Own(e, "href")) && IsValidVideoLink(Own(e, "href")) then Some(e) else None
  }

  /** The kept elements of a page: the selector passes until twenty are kept. */
  function KeptLinks(query: Query): seq<Element> {
    Run(KeepLink, Results(query, VideoSelectors), None, 20)
  }

  lemma KeptLinksValid(query: Query, e: Element)
    requires e in KeptLinks(query)
    ensures IsValidVideoLink(Own(e, "href"))
  {
    RunMember(KeepLink, Results(query, VideoSelectors), None, 20, e);
  }

  method KeepPass(elements: seq<Element>) returns (kept: seq<Element>)
    ensures kept == Keep(KeepLink, Limit(elements, None))
  {
    kept := [];
    var i := 0;
    while i < |elements|
      invariant 0 <= i <= |elements|
      invariant kept == Keep(KeepLink, elements[..i])
    {
      var href := Own(elements[i], "href");
      KeepStep(KeepLink, elements, i);
      if Truthy(href) && IsValidVideoLink(href) {
        assert KeepLink(elements[i]) == Some(elements[i]);
        kept := kept + [elements[i]];
      } else {
        assert KeepLink(elements[i]) == None;
      }
      i := i + 1;
    }
    assert elements[..|elements|] == elements;
  }

  method CollectLinks(query: Query) returns (allVideos: seq<Element>)
    ensures allVideos == KeptLinks(query)
  {
    ghost var outs := Outputs(KeepLink, Results(query, VideoSelectors), None);
    allVideos := [];
    var s := 0;
    while s < |VideoSelectors|
      invariant 0 <= s <= |VideoSelectors|
      invariant allVideos == Flatten(outs[..s])
      invariant StopAt(outs, 20) == StopFrom(outs, 20, s + 1)
    {
      var kept := KeepPass(query(VideoSelectors[s]));
      allVideos := allVideos + kept;
      FlattenStep(outs, s);
      s := s + 1;
      if |allVideos| >= 20 {
        break;
      }
    }
  }

  // ---------------------------------------------------------------------
  // selectRandomVideo, extractTitle, extractImage

  /** `/([A-Z]{2,}-?\d{3,}|\d{6}_\d{3})/` */
  const CodeOrNumber := Regex([""], [Code, SixUnderscoreThree], false)

  /** The `||` chain of `extractTitle`, `''` when every source is empty. */
  function TitleSources(e: Element): string {
    OrElse(Or(Or(LeadTitle(e), Some(Trim(TextOf(e.descendants, AnyClass({"title"}))))),
              Some(Trim(TextOf(e.descendants, Tag("h3"))))), "")
  }

  /** `extractTitle(element, href)` */
  function ExtractTitle(e: Element, href: Option<string>): (r: string)
    ensures r != ""
    ensures TitleSources(e) != "" ==> r == TitleSources(e)
    ensures TitleSources(e) == "" && Truthy(href) && Test(CodeOrNumber, href.value) ==>
              r == Capture(CodeOrNumber, href.value).value
    ensures TitleSources(e) == "" && Truthy(href) && !Test(CodeOrNumber, href.value) ==> r == "JAV Video"
    ensures TitleSources(e) == "" && !Truthy(href) ==> r == "Hot JAV Video"
  {
    var title := TitleSources(e);
    var title' := if title == "" && Truthy(href) then
                    (match Capture(CodeOrNumber, href.value) case Some(c) => c case None => "JAV Video")
                  else title;
    if title' != "" then title' else "Hot JAV Video"
  }

  /** `extractImage(element)`: the first truthy of five attributes of the
      first image, normalized; a falsy value is returned as found. */
  function ExtractImage(e: Element): (r: Option<string>)
    ensures Truthy(r) ==> StartsWith(r.value, "http")
    ensures Truthy(ImageAttrs(FirstImg(e))) ==> r == Some(NormalizeUrl(ImageAttrs(FirstImg(e))))
    ensures !Truthy(ImageAttrs(FirstImg(e))) && Truthy(Attr(FirstImg(e), "data-srcset")) ==>
              r == Some(NormalizeUrl(Attr(FirstImg(e), "data-srcset")))
    ensures !Truthy(ImageAttrs(FirstImg(e))) && !Truthy(Attr(FirstImg(e), "data-srcset")) ==>
              r == Attr(FirstImg(e), "data-srcset")
  {
    var image := ImageSource(FirstImg(e));
    if Truthy(image) then Some(NormalizeUrl(image)) else image
  }

  /** `selectRandomVideo(allVideos)` */
  function SelectRandomVideo(allVideos: seq<Element>, rnd: real): Listing
    requires 0.0 <= rnd < 1.0 && |allVideos| > 0
  {
    var selected := allVideos[RandomIndex(rnd, |allVideos|)];
    var href := Own(selected, "href");
    Listing(FirePrefix + ExtractTitle(selected, href), NormalizeUrl(href), ExtractImage(selected))
  }

  /** The random pick is one of the candidates, described by its own link,
      title and image. */
  lemma PickedElement(allVideos: seq<Element>, rnd: real) returns (i: nat)
    requires 0.0 <= rnd < 1.0 && |allVideos| > 0
    ensures i < |allVideos|
    ensures SelectRandomVideo(allVideos, rnd).url == NormalizeUrl(Own(allVideos[i], "href"))
    ensures SelectRandomVideo(allVideos, rnd).title == FirePrefix + ExtractTitle(allVideos[i], Own(allVideos[i], "href"))
    ensures SelectRandomVideo(allVideos, rnd).image == ExtractImage(allVideos[i])
  {
    i := RandomIndex(rnd, |allVideos|);
  }

  /** `parseVideoFromHtml(html)`: None where it throws (no video kept). */
  function ParseVideoFromHtml(query: Query, rnd: real): (r: Option<Listing>)
    requires 0.0 <= rnd < 1.0
    ensures r.None? <==> KeptLinks(query) == []
  {
    var all := KeptLinks(query);
    if all == [] then None else Some(SelectRandomVideo(all, rnd))
  }

  /** A kept link normalizes to a URL that still holds `/dm18/vi/`. */
  lemma KeptLinkUrl(query: Query, e: Element)
    requires e in KeptLinks(query)
    ensures Contains(NormalizeUrl(Own(e, "href")), "/dm18/vi/")
  {
    KeptLinksValid(query, e);
    var h := Own(e, "href").value;
    var u := NormalizeUrl(Own(e, "href"));
    if !StartsWith(h, "http") {
      var p := u[..|u| - |h|];
      assert u == p + h;
      ContainsSuffix(p, h, "/dm18/vi/");
    }
  }

  /** The picked video links into `/dm18/vi/` and has a `🔥` title. */
  lemma ParsedLinkIsDm18(query: Query, rnd: real)
    requires 0.0 <= rnd < 1.0 && ParseVideoFromHtml(query, rnd).Some?
    ensures Contains(ParseVideoFromHtml(query, rnd).value.url, "/dm18/vi/")
    ensures StartsWith(ParseVideoFromHtml(query, rnd).value.title, FirePrefix)
  {
    var all := KeptLinks(query);
    var i := PickedElement(all, rnd);
    KeptLinkUrl(query, all[i]);
    StartsWithConcat(FirePrefix, ExtractTitle(all[i], Own(all[i], "href")), FirePrefix);
  }

  // ---------------------------------------------------------------------
  // getFallbackVideo and getRandomHotVideo

  const FallbackSelector := "a[href*=\"/dm18/vi/\"]"

  /** `getFallbackVideo()`: `response` is what `fetch(baseUrl + '/dm18/vi')` gives. */
  function FallbackVideo(response: Outcome<string>, load: string -> Query): (r: Option<Listing>)
    ensures r.Some? <==> response.Ok() && load(response.body)(FallbackSelector) != []
    ensures r.Some? ==> StartsWith(r.value.title, SosPrefix) && StartsWith(r.value.url, "http")
    ensures r.Some? ==> r.value.image.Some? && StartsWith(r.value.image.value, "http")
    ensures r.Some? ==>
      var link := load(response.body)(FallbackSelector)[0];
      var img := FirstImg(link);
      r.value.title == SosPrefix + OrElse(Or(Attr(img, "alt"), Attr(img, "title")), "JAV Video")
      && r.value.url == NormalizeUrl(Own(link, "href"))
      && r.value.image == Some(NormalizeUrl(Or(Attr(img, "data-src"), Attr(img, "src"))))
  {
    if !response.Ok() || load(response.body)(FallbackSelector) == [] then None
    else
      var link := load(response.body)(FallbackSelector)[0];
      var img := FirstImg(link);
      var title := OrElse(Or(Attr(img, "alt"), Attr(img, "title")), "JAV Video");
      StartsWithConcat(SosPrefix, title, SosPrefix);
      Some(Listing(SosPrefix + title, NormalizeUrl(Own(link, "href")),
                   Some(NormalizeUrl(Or(Attr(img, "data-src"), Attr(img, "src"))))))
  }

  /** Without `data-src` or `src` the fallback's image is the site's base URL. */
  lemma FallbackImageWithoutSource(response: Outcome<string>, load: string -> Query)
    requires FallbackVideo(response, load).Some?
    requires var img := FirstImg(load(response.body)(FallbackSelector)[0]);
             !Truthy(Attr(img, "data-src")) && !Truthy(Attr(img, "src"))
    ensures FallbackVideo(response, load).value.image == Some(Base)
  {
  }

  /** `getRandomHotVideo()`: `respond(url)` is what `fetch(url)` gives for
      each listing page and `fallback` what the fallback page's fetch gives. */
  function HotVideo(respond: string -> Outcome<string>, load: string -> Query,
                    fallback: Outcome<string>, rnd: real): (r: Option<Listing>)
    requires 0.0 <= rnd < 1.0
    ensures r.Some? ==> StartsWith(r.value.url, "http")
    ensures r.Some? ==> StartsWith(r.value.title, FirePrefix) || StartsWith(r.value.title, SosPrefix)
  {
    var html := FirstOkBody(respond, MissavUrls);
    if html == "" then FallbackVideo(fallback, load)
    else
      var parsed := ParseVideoFromHtml(load(html), rnd);
      if parsed.Some? then
        ParsedLinkIsDm18(load(html), rnd);
        parsed
      else FallbackVideo(fallback, load)
  }

  /** The video comes from the listing page, with a `🔥` title, exactly when
      the first page answering ok holds a valid link; otherwise it is the
      fallback's `🆘` video or nothing. */
  lemma HotVideoSource(respond: string -> Outcome<string>, load: string -> Query,
                       fallback: Outcome<string>, rnd: real)
    requires 0.0 <= rnd < 1.0
    ensures var r := HotVideo(respond, load, fallback, rnd);
            (r.Some? && StartsWith(r.value.title, FirePrefix)) <==>
            (FirstOkBody(respond, MissavUrls) != "" && KeptLinks(load(FirstOkBody(respond, MissavUrls))) != [])
    ensures FirstOkBody(respond, MissavUrls) == "" || KeptLinks(load(FirstOkBody(respond, MissavUrls))) == [] ==>
            HotVideo(respond, load, fallback, rnd) == FallbackVideo(fallback, load)
  {
    var html := FirstOkBody(respond, MissavUrls);
    if html != "" && KeptLinks(load(html)) != [] {
      ParsedLinkIsDm18(load(html), rnd);
    } else {
      var r := FallbackVideo(fallback, load);
      if r.Some? {
        assert r.value.title[0] == SosPrefix[0];
        assert SosPrefix[0] != FirePrefix[0];
      }
    }
  }

  method GetRandomHotVideo(respond: string -> Outcome<string>, load: string -> Query,
                           fallback: Outcome<string>, rnd: real) returns (video: Option<Listing>)
    requires 0.0 <= rnd < 1.0
    ensures video == HotVideo(respond, load, fallback, rnd)
  {
    var html := FetchFirstOk(respond, MissavUrls);
    if html == "" {
      return FallbackVideo(fallback, load);
    }
    var allVideos := CollectLinks(load(html));
    if |allVideos| == 0 {
      return FallbackVideo(fallback, load);
    }
    video := Some(SelectRandomVideo(allVideos, rnd));
  }
}
