/** The crawler of index_new.js (`getRandomHotMissAVVideo`): the first hot
    page of missav.com that answers supplies the HTML, links under `/en/`
    with a code are collected, one is picked, and a fallback reads the home
    page. `load` stands for `cheerio.load`. */
module IndexNew {
  import opened Wrappers
  import opened Strings
  import opened Patterns
  import opened Dom
  import opened Urls
  import opened Passes
  import opened Runtime
  import opened VideoData
  import MissavCrawler

  const HotUrls := ["https://missav.com/en/hot", "https://missav.com/en/trending",
                    "https://missav.com/en/popular", "https://missav.com/en"]

  const IndexSelectors := [".group .thumbnail", ".thumbnail", "a[href*=\"/en/\"][href*=\"-\"]",
                           ".group a[href*=\"/en/\"]", ".grid .thumbnail", ".movie-list a",
                           "a[href*=\"missav.com/en/\"]"]

  /** The returned object: `url` and `image` are whatever the code computed,
      possibly `undefined`. */
  datatype Hot = Hot(title: string, url: Option<string>, image: Option<string>)

  /** The `videos.each` test: an `href` with `/en/` and a case-sensitive code. */
  function CollectLink(e: Element): (r: Option<Element>)
    ensures r.Some? <==> MissavCrawler.Admits(Own(e, "href"))
    ensures r.Some? ==> r.value == e
  {
    if MissavCrawler.Admits(Own(e, "href")) then Some(e) else None
  }

  /** The collected links: the selector passes until ten are held. */
  function Collected(query: Query): seq<Element> {
    Run(CollectLink, Results(query, IndexSelectors), None, 10)
  }

  lemma CollectedAdmitted(query: Query, e: Element)
    requires e in Collected(query)
    ensures MissavCrawler.Admits(Own(e, "href"))
  {
    RunMember(CollectLink, Results(query, IndexSelectors), None, 10, e);
  }

  method CollectPass(elements: seq<Element>) returns (kept: seq<Element>)
    ensures kept == Keep(CollectLink, Limit(elements, None))
  {
    kept := [];
    var i := 0;
    while i < |elements|
      invariant 0 <= i <= |elements|
      invariant kept == Keep(CollectLink, elements[..i])
    {
      var href := Own(elements[i], "href");
      if Truthy(href) && Contains(href.value, "/en/") && Test(CodeCs, href.value) {
        kept := kept + [elements[i]];
      }
      KeepStep(CollectLink, elements, i);
      i := i + 1;
    }
    assert elements[..|elements|] == elements;
  }

  method CollectVideos(query: Query) returns (allVideos: seq<Element>)
    ensures allVideos == Collected(query)
  {
    ghost var outs := Outputs(CollectLink, Results(query, IndexSelectors), None);
    allVideos := [];
    var s := 0;
    while s < |IndexSelectors|
      invariant 0 <= s <= |IndexSelectors|
      invariant allVideos == Flatten(outs[..s])
      invariant StopAt(outs, 10) == StopFrom(outs, 10, s + 1)
    {
      var kept := CollectPass(query(IndexSelectors[s]));
      allVideos := allVideos + kept;
      FlattenStep(outs, s);
      s := s + 1;
      if |allVideos| >= 10 {
        break;
      }
    }
  }

  // ---------------------------------------------------------------------
  // The picked video

  /** `href && !href.startsWith('http') ? 'https://missav.com' + href : href` */
  function HotUrl(href: Option<string>): (r: Option<string>)
    ensures Truthy(href) ==> r.Some? && StartsWith(r.value, "http") && EndsWith(r.value, href.value)
    ensures Truthy(href) && StartsWith(href.value, "http") ==> r == href
    ensures Truthy(href) && !StartsWith(href.value, "http") ==> r == Some(ComHost + href.value)
    ensures !Truthy(href) ==> r == href
  {
    if Truthy(href) && !StartsWith(href.value, "http") then Some(PrefixUnlessHttp(href.value, ComHost)) else href
  }

  /** The `||` chain: `.text-secondary` text, image `alt`, image `title`, element `title`. */
  function TitleSources(e: Element): string {
    OrElse(LeadTitle(e), "")
  }

  /** The title: the chain, else the code after a slash in `href`, else
      `'JAV Video'` (with an `href`) or `'Hot JAV Video'` (without one). */
  function HotTitle(e: Element, href: Option<string>): (r: string)
    ensures r != ""
    ensures TitleSources(e) != "" ==> r == TitleSources(e)
    ensures TitleSources(e) == "" && Truthy(href) ==> r == OrElse(Capture(SlashCodeCs, href.value), "JAV Video")
    ensures TitleSources(e) == "" && !Truthy(href) ==> r == "Hot JAV Video"
  {
    var title := TitleSources(e);
    var title' := if title == "" && Truthy(href) then
                    (match Capture(SlashCodeCs, href.value) case Some(c) => c case None => "JAV Video")
                  else title;
    if title' != "" then title' else "Hot JAV Video"
  }

  /** The image: the first truthy of four attributes of the first image,
      with `//` given `https:` and anything not `http` given `https://missav.com`. */
  function HotImage(e: Element): (r: Option<string>)
    ensures Truthy(r) ==> StartsWith(r.value, "http")
    ensures !Truthy(ImageAttrs(FirstImg(e))) ==> r == ImageAttrs(FirstImg(e))
    ensures var a := ImageAttrs(FirstImg(e));
            Truthy(a) ==>
              (StartsWith(a.value, "//") ==> r == Some("https:" + a.value))
              && (StartsWith(a.value, "http") ==> r == a)
              && (!StartsWith(a.value, "//") && !StartsWith(a.value, "http") ==> r == Some(ComHost + a.value))
  {
    var image := ImageAttrs(FirstImg(e));
    if Truthy(image) then Some(Fix(image.value, ComHost, false)) else image
  }

  /** Unlike the other crawlers, a `data:` image is prefixed with the host too. */
  lemma DataImagePrefixed(e: Element)
    requires var img := FirstImg(e);
             Truthy(Attr(img, "data-src")) && StartsWith(Attr(img, "data-src").value, "data:")
    ensures HotImage(e) == Some(ComHost + Attr(FirstImg(e), "data-src").value)
  {
    var s := Attr(FirstImg(e), "data-src").value;
    assert s[..2][1] == 'a';
    assert s[..4][0] == 'd';
  }

  /** The video built from the picked element. */
  function Describe(selected: Element): (r: Hot)
    ensures StartsWith(r.title, FirePrefix)
  {
    var href := Own(selected, "href");
    StartsWithConcat(FirePrefix, HotTitle(selected, href), FirePrefix);
    Hot(FirePrefix + HotTitle(selected, href), HotUrl(href), HotImage(selected))
  }

  // ---------------------------------------------------------------------
  // The fallback and the whole function

  const FallbackSelector := "a[href*=\"/en/\"][href*=\"-\"]"

  /** The fallback: `response` is what `fetch('https://missav.com/en')` gives;
      its status is not checked. Nothing is returned when the fetch throws,
      no link matches, or the first link has no `href` (`href.startsWith` throws). */
  function Fallback(response: Outcome<string>, load: string -> Query): (r: Option<Hot>)
    ensures r.Some? ==> StartsWith(r.value.title, SosPrefix) && r.value.url.Some? && StartsWith(r.value.url.value, "http")
    ensures r.Some? <==> response.Answered? && load(response.body)(FallbackSelector) != []
                         && Own(load(response.body)(FallbackSelector)[0], "href").Some?
    ensures r.Some? ==>
              var link := load(response.body)(FallbackSelector)[0];
              var img := FirstImg(link);
              r.value.title == SosPrefix + OrElse(Or(Attr(img, "alt"), Attr(img, "title")), "JAV Video")
              && r.value.url == Some(PrefixUnlessHttp(Own(link, "href").value, ComHost))
              && r.value.image == Or(Attr(img, "data-src"), Attr(img, "src"))
  {
    if response.Unreachable? || load(response.body)(FallbackSelector) == [] then None
    else
      var link := load(response.body)(FallbackSelector)[0];
      var href := Own(link, "href");
      if href.None? then None
      else
        var img := FirstImg(link);
        var title := OrElse(Or(Attr(img, "alt"), Attr(img, "title")), "JAV Video");
        StartsWithConcat(SosPrefix, title, SosPrefix);
        Some(Hot(SosPrefix + title, Some(PrefixUnlessHttp(href.value, ComHost)), Or(Attr(img, "data-src"), Attr(img, "src"))))
  }

  /** `getRandomHotMissAVVideo`: the listing path, or the fallback when no
      hot page answers with HTML or none of its links is collected. */
  function HotVideo(respond: string -> Outcome<string>, load: string -> Query,
                    fallback: Outcome<string>, rnd: real): (r: Option<Hot>)
    requires 0.0 <= rnd < 1.0
  {
    var html := FirstOkBody(respond, HotUrls);
    if html == "" then Fallback(fallback, load)
    else
      var all := Collected(load(html));
      if all == [] then Fallback(fallback, load)
      else Some(Describe(all[RandomIndex(rnd, |all|)]))
  }

  /** The video comes from a hot page, with a `🔥` title, exactly when the
      first hot page answering ok holds a collected link; its URL is then
      absolute and contains `/en/`. Otherwise it is the fallback. */
  lemma HotVideoSource(respond: string -> Outcome<string>, load: string -> Query,
                       fallback: Outcome<string>, rnd: real)
    requires 0.0 <= rnd < 1.0
    ensures var r := HotVideo(respond, load, fallback, rnd);
            (r.Some? && StartsWith(r.value.title, FirePrefix)) <==>
            (FirstOkBody(respond, HotUrls) != "" && Collected(load(FirstOkBody(respond, HotUrls))) != [])
    ensures var html := FirstOkBody(respond, HotUrls);
            html != "" && Collected(load(html)) != [] ==>
              var r := HotVideo(respond, load, fallback, rnd).value;
              r.url.Some? && StartsWith(r.url.value, "http") && Contains(r.url.value, "/en/")
    ensures FirstOkBody(respond, HotUrls) == "" || Collected(load(FirstOkBody(respond, HotUrls))) == [] ==>
            HotVideo(respond, load, fallback, rnd) == Fallback(fallback, load)
  {
    var html := FirstOkBody(respond, HotUrls);
    if html != "" && Collected(load(html)) != [] {
      var all := Collected(load(html));
      var e := all[RandomIndex(rnd, |all|)];
      CollectedAdmitted(load(html), e);
      var h := Own(e, "href").value;
      var u := HotUrl(Own(e, "href")).value;
      if !StartsWith(h, "http") {
        assert u == ComHost + h;
        ContainsSuffix(ComHost, h, "/en/");
      }
    } else {
      var r := Fallback(fallback, load);
      if r.Some? {
        assert r.value.title[0] == SosPrefix[0];
        assert SosPrefix[0] != FirePrefix[0];
      }
    }
  }

  /** The video built from the picked element, step by step: `title` and
      `image` are reassigned in place. */
  method DescribeSelected(selectedVideo: Element) returns (video: Hot)
    ensures video == Describe(selectedVideo)
  {
    var href := Own(selectedVideo, "href");
    var url := if Truthy(href) && !StartsWith(href.value, "http") then Some(ComHost + href.value) else href;
    var title := TitleSources(selectedVideo);
    if title == "" && Truthy(href) {
      var m := Capture(SlashCodeCs, href.value);
      title := if m.Some? then m.value else "JAV Video";
    }
    title := if title != "" then title else "Hot JAV Video";
    assert title == HotTitle(selectedVideo, href);
    var img := FirstImg(selectedVideo);
    var image := ImageAttrs(img);
    if Truthy(image) {
      if StartsWith(image.value, "//") {
        image := Some("https:" + image.value);
      } else if !StartsWith(image.value, "http") {
        image := Some(ComHost + image.value);
      }
    }
    video := Hot(FirePrefix + title, url, image);
  }

  method GetRandomHotMissAvVideo(respond: string -> Outcome<string>, load: string -> Query,
                                 fallback: Outcome<string>, rnd: real) returns (video: Option<Hot>)
    requires 0.0 <= rnd < 1.0
    ensures video == HotVideo(respond, load, fallback, rnd)
  {
    var html := FetchFirstOk(respond, HotUrls);
    if html == "" {
      return Fallback(fallback, load);
    }
    var allVideos := CollectVideos(load(html));
    if |allVideos| == 0 {
      return Fallback(fallback, load);
    }
    var selected := DescribeSelected(allVideos[RandomIndex(rnd, |allVideos|)]);
    video := Some(selected);
  }
}
