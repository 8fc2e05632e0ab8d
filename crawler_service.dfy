/** `CrawlerService` (src/services/crawlerService.js): the Puppeteer-based
    crawler. It has an in-page extractor that walks six selectors, a cheerio
    parser that walks eight, the selection and image fix of the Puppeteer
    path, the rate limiter, and a fetch loop with a progressive retry delay. */
module CrawlerService {
  import opened Wrappers
  import opened Strings
  import opened Patterns
  import opened Dom
  import opened Urls
  import opened Passes
  import opened Runtime
  import opened Helpers
  import opened VideoData

  // ---------------------------------------------------------------------
  // The in-page extractor (extractVideosFromPage)

  const PageSelectors := [
    "a[href*=\"/vi/\"]:has(img):has(.text-secondary)",
    "a[href*=\"/dm18/vi/\"]:has(img):has(.text-secondary)",
    "a[href*=\"/vi/\"]:has(img)",
    "a[href*=\"/dm18/vi/\"]:has(img)",
    ".thumbnail a:has(img)",
    ".group a:has(img)"
  ]

  /** `/\/vi\/([A-Z]{2,}-?\d{3,}|fc2-ppv-\d{6,}|\w+\d{3,})/i` */
  const ViCode := Regex(["/vi/"], [Code, Fc2, WordDigits(3)], true)

  /** An entry of the in-page extractor. */
  datatype Entry = Entry(title: string, videoCode: string, url: string, image: string)

  /** The fast skip: no `href`, no `/vi/` in it, or a listing page. */
  predicate Skipped(href: Option<string>) {
    !Truthy(href) || !Contains(href.value, "/vi/")
    || Contains(href.value, "/genres") || Contains(href.value, "/vip")
    || Contains(href.value, "/makers") || Contains(href.value, "/categories")
  }

  /** Priority 1: the text of the first `.text-secondary, .title, .video-title`. */
  function DescTitle(e: Element, code: string): (r: Option<string>)
    ensures r.Some? ==> r.value != "" && |r.value| > |code| && !Contains(r.value, "http")
  {
    var d := First(e.descendants, AnyClass({"text-secondary", "title", "video-title"}));
    if d.Some? && Trim(d.value.text) != "" && |Trim(d.value.text)| > |code| && !Contains(Trim(d.value.text), "http")
    then Some(Trim(d.value.text)) else None
  }

  /** Priority 2: the `alt` (else `title`) of the first image, unless it
      names a thumbnail or an image. */
  function AltTitle(e: Element, code: string): (r: Option<string>)
    ensures r.Some? ==> r.value != "" && |r.value| > |code|
    ensures r.Some? ==> !Contains(Lower(r.value), "thumbnail") && !Contains(Lower(r.value), "image")
  {
    var img := FirstImg(e);
    if img.None? then None
    else
      var alt := OrElse(Or(Attr(img, "alt"), Attr(img, "title")), "");
      if alt != "" && |alt| > |code| && !Contains(Lower(alt), "thumbnail") && !Contains(Lower(alt), "image")
      then Some(alt) else None
  }

  const NearbyTags := {"span", "p", "div"}

  /** A nearby text that can serve as a title. */
  predicate NearbyText(text: string, code: string) {
    text != "" && |text| > 10 && |text| < 100 && !Contains(text, code) && !Contains(text, "http")
  }

  /** A `span`, `p` or `div` whose trimmed text can serve as a title. */
  predicate Nearby(n: Node, code: string) {
    n.tag in NearbyTags && NearbyText(Trim(n.text), code)
  }

  /** Priority 3: the first qualifying text of a `span`, `p` or `div` inside. */
  function NearbyTitle(ns: seq<Node>, code: string): (r: Option<string>)
    ensures r.Some? ==> NearbyText(r.value, code)
    ensures r.Some? <==> exists k :: 0 <= k < |ns| && Nearby(ns[k], code)
    decreases |ns|
  {
    if ns == [] then None
    else if Nearby(ns[0], code) then Some(Trim(ns[0].text))
    else
      var rest := NearbyTitle(ns[1..], code);
      assert forall k :: 1 <= k < |ns| ==> ns[k] == ns[1..][k - 1];
      rest
  }

  /** The loop over `element.querySelectorAll('span, p, div')`, with its `break`. */
  method FindNearbyTitle(ns: seq<Node>, code: string) returns (t: Option<string>)
    ensures t == NearbyTitle(ns, code)
  {
    var k := 0;
    while k < |ns|
      invariant 0 <= k <= |ns|
      invariant NearbyTitle(ns[k..], code) == NearbyTitle(ns, code)
    {
      var text := Trim(ns[k].text);
      if ns[k].tag in NearbyTags && NearbyText(text, code) {
        assert Nearby(ns[k..][0], code);
        return Some(text);
      }
      assert ns[k..][1..] == ns[k + 1..];
      k := k + 1;
    }
    return None;
  }

  /** The title chain before the final fallback: "" when no source qualifies. */
  function TitleCandidate(e: Element, code: string): string {
    var desc := DescTitle(e, code);
    var alt := AltTitle(e, code);
    var near := NearbyTitle(e.descendants, code);
    if desc.Some? then desc.value
    else if alt.Some? then alt.value
    else if near.Some? then near.value
    else ""
  }

  /** The chosen title: the candidate, or `'Hot JAV Video'` when there is
      none or it is the code itself. */
  function RealTitle(e: Element, code: string): (r: string)
    ensures r != ""
    ensures TitleCandidate(e, code) == "" || TitleCandidate(e, code) == code ==> r == "Hot JAV Video"
    ensures TitleCandidate(e, code) != "" && TitleCandidate(e, code) != code ==> r == TitleCandidate(e, code)
  {
    var t := TitleCandidate(e, code);
    if t == "" || t == code then "Hot JAV Video" else t
  }

  /** `data-src || src || data-original || ''` of the first image, or ''. */
  function PageImage(e: Element): string {
    var img := FirstImg(e);
    if img.None? then ""
    else OrElse(Or(Or(Attr(img, "data-src"), Attr(img, "src")), Attr(img, "data-original")), "")
  }

  /** What the extractor does with one matched element. */
  function ExtractEntry(e: Element): (r: Option<Entry>)
    ensures r.Some? <==> !Skipped(Own(e, "href")) && Test(ViCode, Own(e, "href").value)
    ensures r.Some? ==>
      var h := Own(e, "href").value;
      r.value.videoCode == Upper(Capture(ViCode, h).value) && r.value.videoCode != ""
      && 1 <= |r.value.title| <= 100
      && (TitleCandidate(e, r.value.videoCode) == "" ==> r.value.title == "Hot JAV Video")
      && r.value.url == PrefixUnlessHttp(h, WsHost)
    ensures r.Some? ==> r.value.title == Take(RealTitle(e, r.value.videoCode), 100) && r.value.image == PageImage(e)
  {
    var href := Own(e, "href");
    if Skipped(href) then None
    else
      var codeMatch := Capture(ViCode, href.value);
      if codeMatch.None? then None
      else
        var videoCode := Upper(codeMatch.value);
        var title := RealTitle(e, videoCode);
        Some(Entry(Take(title, 100), videoCode, PrefixUnlessHttp(href.value, WsHost), PageImage(e)))
  }

  /** The title chain of the loop body, step by step: each source is tried
      while `realTitle` is still empty. */
  method ChooseTitle(e: Element, videoCode: string) returns (realTitle: string)
    ensures realTitle == RealTitle(e, videoCode)
  {
    realTitle := "";
    var desc := DescTitle(e, videoCode);
    if desc.Some? {
      realTitle := desc.value;
    }
    if realTitle == "" {
      var alt := AltTitle(e, videoCode);
      if alt.Some? {
        realTitle := alt.value;
      }
    }
    if realTitle == "" {
      var near := FindNearbyTitle(e.descendants, videoCode);
      if near.Some? {
        realTitle := near.value;
      }
    }
    assert realTitle == TitleCandidate(e, videoCode);
    if realTitle == "" || realTitle == videoCode {
      realTitle := "Hot JAV Video";
    }
  }

  /** The body of the inner `for` loop, step by step. */
  method ExtractElement(e: Element) returns (entry: Option<Entry>)
    ensures entry == ExtractEntry(e)
  {
    var href := Own(e, "href");
    if Skipped(href) {
      return None;
    }
    var codeMatch := Capture(ViCode, href.value);
    if codeMatch.None? {
      return None;
    }
    var videoCode := Upper(codeMatch.value);
    var realTitle := ChooseTitle(e, videoCode);
    var image := PageImage(e);
    var fullUrl := PrefixUnlessHttp(href.value, WsHost);
    entry := Some(Entry(Take(realTitle, 100), videoCode, fullUrl, image));
  }

  /** The extractor as a function: at most six matches per selector, and no
      further selector once four entries exist. */
  function Extracted(query: Query): seq<Entry> {
    Run(ExtractEntry, Results(query, PageSelectors), Some(6), 4)
  }

  /** `extractVideosFromPage` */
  method ExtractVideosFromPage(query: Query) returns (videos: seq<Entry>)
    ensures videos == Extracted(query)
  {
    ghost var outs := Outputs(ExtractEntry, Results(query, PageSelectors), Some(6));
    videos := [];
    var s := 0;
    while s < |PageSelectors|
      invariant 0 <= s <= |PageSelectors|
      invariant videos == Flatten(outs[..s])
      invariant StopAt(outs, 4) == StopFrom(outs, 4, s + 1)
    {
      var kept := KeepLoop(ExtractEntry, query(PageSelectors[s]), Some(6));
      videos := videos + kept;
      FlattenStep(outs, s);
      s := s + 1;
      if |videos| >= 4 {
        break;
      }
    }
  }

  /** An entry of the extractor and the matched element it came from: the
      `href` has `/vi/`, is no listing page, has a code after `/vi/`, and the
      entry's code is that code upper-cased. */
  predicate Admitted(e: Element, x: Entry) {
    var h := Own(e, "href");
    h.Some? && Contains(h.value, "/vi/")
    && !Contains(h.value, "/genres") && !Contains(h.value, "/vip")
    && !Contains(h.value, "/makers") && !Contains(h.value, "/categories")
    && Test(ViCode, h.value) && x.videoCode == Upper(Capture(ViCode, h.value).value)
    && x.url == PrefixUnlessHttp(h.value, WsHost) && 1 <= |x.title| <= 100
  }

  lemma ExtractedAdmitted(query: Query, x: Entry)
    requires x in Extracted(query)
    ensures exists s, i :: 0 <= s < |PageSelectors| && 0 <= i < |query(PageSelectors[s])| && i < 6
                        && Admitted(query(PageSelectors[s])[i], x)
  {
    var ess := Results(query, PageSelectors);
    RunMember(ExtractEntry, ess, Some(6), 4, x);
    var s, i :| 0 <= s < |ess| && 0 <= i < |ess[s]| && i < 6 && ExtractEntry(ess[s][i]) == Some(x);
    assert Admitted(ess[s][i], x);
  }

  // ---------------------------------------------------------------------
  // The Puppeteer path (getRandomHotVideoWithPuppeteer)

  const PuppeteerUrls := ["https://missav.ws/dm18/vi", "https://missav.ws/vi"]

  /** The picked entry as returned: `'🔥 '` before the title, and a relative
      image made absolute on missav.ws. */
  function Present(x: Entry): (r: Entry)
    ensures r.title == FirePrefix + x.title
    ensures r.videoCode == x.videoCode && r.url == x.url
    ensures x.image == "" ==> r.image == ""
    ensures x.image != "" ==> StartsWith(r.image, "http") && EndsWith(r.image, x.image)
    ensures StartsWith(x.image, "http") ==> r.image == x.image
    ensures StartsWith(x.image, "//") ==> r.image == "https:" + x.image
    ensures x.image != "" && !StartsWith(x.image, "http") && !StartsWith(x.image, "//") ==> r.image == WsHost + x.image
  {
    var image := if x.image != "" && !StartsWith(x.image, "http") then Fix(x.image, WsHost, false) else x.image;
    assert StartsWith(x.image, "//") ==> !StartsWith(x.image, "http") by {
      if StartsWith(x.image, "//") {
        assert x.image[0] == x.image[..2][0];
      }
    }
    Entry(FirePrefix + x.title, x.videoCode, x.url, image)
  }

  /** The title and image fix applied to the selected entry, step by step. */
  method PresentSelected(x: Entry) returns (selected: Entry)
    ensures selected == Present(x)
  {
    selected := x.(title := FirePrefix + x.title);
    if selected.image != "" && !StartsWith(selected.image, "http") {
      selected := selected.(image := if StartsWith(selected.image, "//") then "https:" + selected.image
                                     else WsHost + selected.image);
    }
  }

  /** The entries a visit yields; a page that fails to load yields none. */
  function Pool(visit: string -> Option<Query>, url: string): seq<Entry> {
    match visit(url)
    case None => []
    case Some(q) => Extracted(q)
  }

  function PuppeteerPools(visit: string -> Option<Query>): (r: seq<seq<Entry>>)
    ensures |r| == |PuppeteerUrls| && forall k :: 0 <= k < |r| ==> r[k] == Pool(visit, PuppeteerUrls[k])
  {
    seq(|PuppeteerUrls|, k requires 0 <= k < |PuppeteerUrls| => Pool(visit, PuppeteerUrls[k]))
  }

  /** The pick: from the first URL that yields entries, the entry at the
      random index, presented; nothing when both URLs yield none. */
  function PuppeteerPick(visit: string -> Option<Query>, rnd: real): Option<Entry>
    requires 0.0 <= rnd < 1.0
  {
    var pools := PuppeteerPools(visit);
    var k := FirstNonEmpty(pools);
    if k == |pools| then None
    else Some(Present(pools[k][RandomIndex(rnd, |pools[k]|)]))
  }

  /** Nothing exactly when both URLs yield no entries; otherwise an entry of
      the first URL that yields any, presented. */
  lemma PuppeteerPickFirst(visit: string -> Option<Query>, rnd: real)
    requires 0.0 <= rnd < 1.0
    ensures PuppeteerPick(visit, rnd).None? <==> forall k :: 0 <= k < |PuppeteerUrls| ==> Pool(visit, PuppeteerUrls[k]) == []
    ensures PuppeteerPick(visit, rnd).Some? ==>
              exists k, i :: 0 <= k < |PuppeteerUrls| && 0 <= i < |Pool(visit, PuppeteerUrls[k])|
                             && (forall j :: 0 <= j < k ==> Pool(visit, PuppeteerUrls[j]) == [])
                             && PuppeteerPick(visit, rnd).value == Present(Pool(visit, PuppeteerUrls[k])[i])
  {
    var pools := PuppeteerPools(visit);
    var k := FirstNonEmpty(pools);
    if k < |pools| {
      var i := RandomIndex(rnd, |pools[k]|);
      assert PuppeteerPick(visit, rnd).value == Present(Pool(visit, PuppeteerUrls[k])[i]);
    }
  }

  /** The pick when URL `u` is the first to yield entries. */
  lemma PuppeteerPickAt(visit: string -> Option<Query>, rnd: real, u: nat)
    requires 0.0 <= rnd < 1.0 && u < |PuppeteerUrls|
    requires Pool(visit, PuppeteerUrls[u]) != []
    requires forall j :: 0 <= j < u ==> Pool(visit, PuppeteerUrls[j]) == []
    ensures var p := Pool(visit, PuppeteerUrls[u]);
            PuppeteerPick(visit, rnd) == Some(Present(p[RandomIndex(rnd, |p|)]))
  {
    FirstNonEmptyAt(PuppeteerPools(visit), u);
  }

  /** No pick when no URL yields anything. */
  lemma PuppeteerPickNone(visit: string -> Option<Query>, rnd: real)
    requires 0.0 <= rnd < 1.0
    requires forall j :: 0 <= j < |PuppeteerUrls| ==> Pool(visit, PuppeteerUrls[j]) == []
    ensures PuppeteerPick(visit, rnd) == None
  {
    FirstNonEmptyAt(PuppeteerPools(visit), |PuppeteerUrls|);
  }

  /** One URL of the loop: visit it, extract its entries and present the one
      at the random index; nothing when the visit fails or yields none. */
  method VisitOne(visit: string -> Option<Query>, url: string, rnd: real) returns (video: Option<Entry>)
    requires 0.0 <= rnd < 1.0
    ensures var p := Pool(visit, url);
            video == if p == [] then None else Some(Present(p[RandomIndex(rnd, |p|)]))
  {
    var doc := visit(url);
    if doc.None? {
      return None;
    }
    var videos := ExtractVideosFromPage(doc.value);
    if |videos| == 0 {
      return None;
    }
    var selected := PresentSelected(videos[RandomIndex(rnd, |videos|)]);
    return Some(selected);
  }

  /** `rnd` is the value of `Math.random()`. */
  method VisitAndPick(visit: string -> Option<Query>, rnd: real) returns (video: Option<Entry>)
    requires 0.0 <= rnd < 1.0
    ensures video == PuppeteerPick(visit, rnd)
  {
    var u := 0;
    while u < |PuppeteerUrls|
      invariant 0 <= u <= |PuppeteerUrls|
      invariant forall j :: 0 <= j < u ==> Pool(visit, PuppeteerUrls[j]) == []
    {
      video := VisitOne(visit, PuppeteerUrls[u], rnd);
      if video.Some? {
        PuppeteerPickAt(visit, rnd, u);
        return;
      }
      u := u + 1;
    }
    PuppeteerPickNone(visit, rnd);
    return None;
  }

  // ---------------------------------------------------------------------
  // The cheerio parser (isValidVideoUrl, parseVideos)

  const HtmlSelectors := [
    "a[href*=\"/vi/\"]", ".thumbnail", ".group a", "a[href*=\"dm18/vi/\"]",
    "a[href*=\"dm13/vi/\"]", ".grid a", "a img", "div[class*=\"grid\"] a"
  ]

  /** The five patterns of `isValidVideoUrl`, all with the `i` flag. */
  const ValidPatterns := [
    Regex(["/vi/"], [Code], true),
    Regex(["/vi/"], [Fc2], true),
    Regex(["/vi/"], [DashDigits], true),
    Regex(["dm18/vi/"], [Code], true),
    Regex(["dm13/vi/"], [Code], true)
  ]

  /** `isValidVideoUrl` */
  predicate IsValidVideoUrl(href: Option<string>) {
    Truthy(href) && exists k :: 0 <= k < |ValidPatterns| && Test(ValidPatterns[k], href.value)
  }

  /** Of the five patterns two decide: a `dm18/vi/` or `dm13/vi/` code is a
      `/vi/` code, and an `fc2-ppv-` number is a run ending in `-` and three
      digits. */
  lemma ValidUrlReduces(h: string)
    ensures IsValidVideoUrl(Some(h)) <==> h != "" && (Test(ValidPatterns[0], h) || Test(ValidPatterns[2], h))
  {
    if IsValidVideoUrl(Some(h)) {
      var k :| 0 <= k < |ValidPatterns| && Test(ValidPatterns[k], h);
      PatternReduces(h, k);
    }
    if h != "" && Test(ValidPatterns[0], h) {
      assert IsValidVideoUrl(Some(h));
    }
    if h != "" && Test(ValidPatterns[2], h) {
      assert IsValidVideoUrl(Some(h));
    }
  }

  /** Each of the five patterns implies the first or the third. */
  lemma PatternReduces(h: string, k: nat)
    requires k < |ValidPatterns| && Test(ValidPatterns[k], h)
    ensures Test(ValidPatterns[0], h) || Test(ValidPatterns[2], h)
  {
    if k == 1 {
      TestFc2IsDashDigits(h);
    } else if k == 3 {
      TestShifts("dm18/vi/", "/vi/", [Code], true, h, 4);
    } else if k == 4 {
      TestShifts("dm13/vi/", "/vi/", [Code], true, h, 4);
    }
  }

  /** `$el.attr('href')`, else that of the first `a` inside, else that of a
      parent `a`. */
  function HrefOf(e: Element): (r: Option<string>)
    ensures Truthy(Own(e, "href")) ==> r == Own(e, "href")
    ensures !Truthy(Own(e, "href")) && Truthy(Attr(First(e.descendants, Tag("a")), "href")) ==>
              r == Attr(First(e.descendants, Tag("a")), "href")
    ensures !Truthy(Own(e, "href")) && !Truthy(Attr(First(e.descendants, Tag("a")), "href")) ==>
              r == Attr(ParentLink(e), "href")
  {
    var own := Own(e, "href");
    if Truthy(own) then own
    else Or(Attr(First(e.descendants, Tag("a")), "href"), Attr(ParentLink(e), "href"))
  }

  /** `$el.parent('a')`: the parent when it is an `a`. */
  function ParentLink(e: Element): (r: Option<Node>)
    ensures r.Some? <==> e.parent.Some? && e.parent.value.tag == "a"
    ensures r.Some? ==> r == e.parent
  {
    if e.parent.Some? && e.parent.value.tag == "a" then e.parent else None
  }

  /** `/\/([A-Z]{2,}-?\d{3,}|fc2-ppv-\d{6,})/i` */
  const SlashCode := Regex(["/"], [Code, Fc2], true)

  /** The `||` chain of `parseVideos`: image `alt`, image `title`, element
      `title`, then the element's trimmed text. */
  function HtmlTitleSources(e: Element): Option<string> {
    var img := FirstImg(e);
    Or(Or(Or(Attr(img, "alt"), Attr(img, "title")), Own(e, "title")), Some(Trim(e.node.text)))
  }

  /** Image `alt`, image `title`, element `title`, element text; else the
      code in the URL upper-cased; else `'Hot JAV'`. */
  function HtmlTitle(e: Element, href: string): (r: string)
    ensures r != ""
    ensures Truthy(HtmlTitleSources(e)) ==> r == HtmlTitleSources(e).value
    ensures !Truthy(HtmlTitleSources(e)) && Test(SlashCode, href) ==> r == Upper(Capture(SlashCode, href).value)
    ensures !Truthy(HtmlTitleSources(e)) && !Test(SlashCode, href) ==> r == "Hot JAV"
  {
    var t := HtmlTitleSources(e);
    if Truthy(t) then t.value
    else match Capture(SlashCode, href)
      case Some(c) => Upper(c)
      case None => "Hot JAV"
  }

  /** The first image's `data-src || src || data-original || data-lazy-src`,
      made absolute on missav.ws unless it is `http` or `data:`. */
  function HtmlImage(e: Element): (r: Option<string>)
    ensures Truthy(r) ==> StartsWith(r.value, "http") || StartsWith(r.value, "data:")
    ensures !Truthy(ImageAttrs(FirstImg(e))) ==> r == ImageAttrs(FirstImg(e))
    ensures var a := ImageAttrs(FirstImg(e));
            Truthy(a) ==>
              (StartsWith(a.value, "//") ==> r == Some("https:" + a.value))
              && (StartsWith(a.value, "http") || StartsWith(a.value, "data:") ==> r == a)
              && (!StartsWith(a.value, "//") && !StartsWith(a.value, "http") && !StartsWith(a.value, "data:") ==>
                    r == Some(WsHost + a.value))
  {
    var image := ImageAttrs(FirstImg(e));
    if Truthy(image) then Some(Fix(image.value, WsHost, true)) else image
  }

  /** What `parseVideos` does with one element, given `lastVideoUrl`. */
  function ParseEntry(e: Element, last: Option<string>): (r: Option<Listing>)
    ensures r.Some? <==> IsValidVideoUrl(HrefOf(e)) && Some(PrefixUnlessHttp(HrefOf(e).value, WsHost)) != last
    ensures r.Some? ==> Some(r.value.url) != last && r.value.url == PrefixUnlessHttp(HrefOf(e).value, WsHost)
    ensures r.Some? ==> StartsWith(r.value.title, FirePrefix) && |r.value.title| > |FirePrefix|
    ensures r.Some? ==> r.value.title == FirePrefix + HtmlTitle(e, HrefOf(e).value) && r.value.image == HtmlImage(e)
  {
    var href := HrefOf(e);
    if !IsValidVideoUrl(href) then None
    else
      var url := PrefixUnlessHttp(href.value, WsHost);
      var title := HtmlTitle(e, href.value);
      if title != "" && url != "" && Some(url) != last then
        StartsWithConcat(FirePrefix, title, FirePrefix);
        Some(Listing(FirePrefix + title, url, HtmlImage(e)))
      else None
  }

  function Parser(last: Option<string>): Element -> Option<Listing> {
    e => ParseEntry(e, last)
  }

  /** `parseVideos` as a function: every selector's matches, and no further
      selector once fifteen entries exist. */
  function Parsed(query: Query, last: Option<string>): seq<Listing> {
    Run(Parser(last), Results(query, HtmlSelectors), None, 15)
  }

  /** No parsed entry repeats the last URL sent. */
  lemma ParsedAvoidsLast(query: Query, last: Option<string>, x: Listing)
    requires x in Parsed(query, last)
    ensures Some(x.url) != last && StartsWith(x.title, FirePrefix)
    ensures exists s, i :: 0 <= s < |HtmlSelectors| && 0 <= i < |query(HtmlSelectors[s])|
                        && IsValidVideoUrl(HrefOf(query(HtmlSelectors[s])[i]))
  {
    var ess := Results(query, HtmlSelectors);
    RunMember(Parser(last), ess, None, 15, x);
    var s, i :| 0 <= s < |ess| && 0 <= i < |ess[s]| && Parser(last)(ess[s][i]) == Some(x);
    assert ParseEntry(ess[s][i], last) == Some(x);
  }

  // ---------------------------------------------------------------------
  // The fetch loop (fetchWithRetry)

  /** The pause on a 403 answer. */
  function Pause(o: Outcome<string>): seq<int> {
    if o.Answered? && o.status == 403 then [5000] else []
  }

  /** The pauses after the failed attempts `1..n`: 5000 ms after a 403, then
      `attempt * 2000` ms unless the attempt was the last one allowed. */
  function FailureWaits(respond: nat -> Outcome<string>, n: nat, maxRetries: int): seq<int> {
    if n == 0 then []
    else FailureWaits(respond, n - 1, maxRetries) + Pause(respond(n)) + (if n == maxRetries then [] else [n * 2000])
  }

  /** Without a 403, the pauses are 2 s, 4 s, 6 s, ... */
  lemma {:induction false} ProgressiveDelays(respond: nat -> Outcome<string>, n: nat, maxRetries: int)
    requires n < maxRetries
    requires forall a :: 1 <= a <= n ==> Pause(respond(a)) == []
    ensures |FailureWaits(respond, n, maxRetries)| == n
    ensures forall j :: 0 <= j < n ==> FailureWaits(respond, n, maxRetries)[j] == (j + 1) * 2000
  {
    if n > 0 {
      ProgressiveDelays(respond, n - 1, maxRetries);
    }
  }

  // ---------------------------------------------------------------------
  // The service object

  class Service {
    var lastRequestTime: int
    var lastVideoUrl: Option<string>
    const requestDelay: int

    constructor ()
      ensures lastRequestTime == 0 && requestDelay == 1000 && lastVideoUrl == None
    {
      lastRequestTime := 0;
      requestDelay := 1000;
      lastVideoUrl := None;
    }

    /** `rateLimitDelay`: `now` and `later` are the two readings of
        `Date.now()`, before and after the wait. */
    method RateLimitDelay(now: int, later: int) returns (wait: int)
      modifies this`lastRequestTime
      ensures wait == RateLimitWait(now, old(lastRequestTime), requestDelay)
      ensures lastRequestTime == later
    {
      wait := RateLimitWait(now, lastRequestTime, requestDelay);
      lastRequestTime := later;
    }

    /** `getRandomHotVideoWithPuppeteer`: `launched` says whether the browser
        and its page could be set up. */
    method GetRandomHotVideoWithPuppeteer(now: int, later: int, launched: bool, visit: string -> Option<Query>, rnd: real)
      returns (video: Option<Entry>, wait: int)
      requires 0.0 <= rnd < 1.0
      modifies this`lastRequestTime
      ensures wait == RateLimitWait(now, old(lastRequestTime), requestDelay) && lastRequestTime == later
      ensures video == if launched then PuppeteerPick(visit, rnd) else None
    {
      wait := RateLimitDelay(now, later);
      if !launched {
        return None, wait;
      }
      video := VisitAndPick(visit, rnd);
    }

    /** `getRandomHotVideo`: `lastVideoUrl` changes only when a video is found. */
    method GetRandomHotVideo(now: int, later: int, launched: bool, visit: string -> Option<Query>, rnd: real)
      returns (video: Option<Entry>)
      requires 0.0 <= rnd < 1.0
      modifies this`lastRequestTime, this`lastVideoUrl
      ensures video == if launched then PuppeteerPick(visit, rnd) else None
      ensures lastVideoUrl == if video.Some? then Some(video.value.url) else old(lastVideoUrl)
      ensures lastRequestTime == later
    {
      var wait;
      video, wait := GetRandomHotVideoWithPuppeteer(now, later, launched, visit, rnd);
      if video.Some? {
        lastVideoUrl := Some(video.value.url);
      }
    }

    /** `parseVideos`, which skips the URL sent last. */
    method ParseVideos(page: Page) returns (videos: seq<Listing>)
      ensures videos == Parsed(page.query, lastVideoUrl)
    {
      var last := lastVideoUrl;
      ghost var outs := Outputs(Parser(last), Results(page.query, HtmlSelectors), None);
      videos := [];
      var s := 0;
      while s < |HtmlSelectors|
        invariant 0 <= s <= |HtmlSelectors|
        invariant videos == Flatten(outs[..s])
        invariant StopAt(outs, 15) == StopFrom(outs, 15, s + 1)
      {
        var found := KeepLoop(Parser(last), page.query(HtmlSelectors[s]), None);
        videos := videos + found;
        FlattenStep(outs, s);
        s := s + 1;
        if |videos| >= 15 {
          break;
        }
      }
    }

    /** `fetchWithRetry`: `respond(a)` is what attempt `a` (from 1) gets. The
        error of a rejection is the last attempt's outcome. */
    method FetchWithRetry(now: int, later: int, respond: nat -> Outcome<string>, maxRetries: int)
      returns (r: Settled<string, Outcome<string>>, attempts: nat, waits: seq<int>)
      modifies this`lastRequestTime
      ensures lastRequestTime == later
      ensures maxRetries < 1 ==> attempts == 0 && r == Undefined
      ensures maxRetries >= 1 ==> 1 <= attempts <= maxRetries && !r.Undefined?
      ensures forall a :: 1 <= a < attempts ==> !respond(a).Ok()
      ensures r.Resolved? <==> exists a :: 1 <= a <= maxRetries && respond(a).Ok()
      ensures r.Resolved? ==> respond(attempts).Ok() && r.value == respond(attempts).body
      ensures r.Rejected? ==> attempts == maxRetries && r.error == respond(attempts)
      ensures waits == FailureWaits(respond, if r.Resolved? then attempts - 1 else attempts, maxRetries)
    {
      var rateWait := RateLimitDelay(now, later);
      r, attempts, waits := Undefined, 0, [];
      var attempt := 1;
      while attempt <= maxRetries
        invariant 1 <= attempt && attempts == attempt - 1
        invariant maxRetries >= 1 ==> attempt <= maxRetries
        invariant maxRetries < 1 ==> attempt == 1
        invariant forall a :: 1 <= a < attempt ==> !respond(a).Ok()
        invariant waits == FailureWaits(respond, attempt - 1, maxRetries)
      {
        attempts := attempt;
        var response := respond(attempt);
        if response.Ok() {
          r := Resolved(response.body);
          return;
        }
        waits := waits + Pause(response);
        if attempt == maxRetries {
          r := Rejected(response);
          return;
        }
        waits := waits + [attempt * 2000];
        attempt := attempt + 1;
      }
    }
  }
}
