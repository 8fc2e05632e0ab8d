/** `DetailedCrawler` (src/services/detailedCrawler.js): the Puppeteer
    crawler that reads a code, title, URL and image for each link of up to
    four listing pages and returns one video with a full title
    `title (CODE)`. A page is given by the selector results of the loaded
    document (`visit(url)`, None when `page.goto` throws). */
module DetailedCrawler {
  import opened Wrappers
  import opened Strings
  import opened Patterns
  import opened Dom
  import opened Urls
  import opened Passes
  import opened Runtime

  const DetailedUrls := ["https://missav.ws/dm18/vi", "https://missav.ws/vi/new",
                         "https://missav.ws/vi/hot", "https://missav.com/en"]

  const DetailedSelectors := ["a[href*=\"/vi/\"]", "a[href*=\"/en/\"]", ".thumbnail",
                              ".group a", ".grid a", "a img"]

  /** `/\/(?:vi|en)\/([A-Z]{2,}-?\d{3,}|fc2-ppv-\d{6,}|\w+\d+)/i` */
  const ValidJav := Regex(["/vi/", "/en/"], [Code, Fc2, WordDigits(1)], true)

  /** `/\/(?:vi|en)\/([A-Z]{2,}-?\d{3,}|fc2-ppv-\d{6,}|[A-Z]{2,}\d{3,}|\w+\d+)/i` */
  const CodeMatch := Regex(["/vi/", "/en/"], [Code, Fc2, LettersDigits, WordDigits(1)], true)

  /** One object pushed by the in-page extractor. */
  datatype Detailed = Detailed(title: string, videoCode: string, url: string, image: string)

  /** The returned video, with `fullTitle`. */
  datatype Enhanced = Enhanced(title: string, videoCode: string, url: string, image: string, fullTitle: string)

  // ---------------------------------------------------------------------
  // The video code

  const Fc2Prefix := "FC2-PPV-"

  /** The first position from `i` where `lit` occurs ignoring case, or `|s|`. */
  function CiIndex(s: string, lit: string, i: nat): (k: nat)
    requires i <= |s|
    ensures i <= k <= |s|
    ensures k < |s| ==> LiteralAt(s, k, lit, true)
    ensures forall j :: i <= j < k ==> !LiteralAt(s, j, lit, true)
    decreases |s| - i
  {
    if i == |s| then |s|
    else if LiteralAt(s, i, lit, true) then i
    else CiIndex(s, lit, i + 1)
  }

  /** `s.replace(/FC2-PPV-/i, 'FC2-PPV-')` */
  function ReplaceFc2(s: string): string {
    var k := CiIndex(s, Fc2Prefix, 0);
    if k < |s| then s[..k] + Fc2Prefix + s[k + |Fc2Prefix|..] else s
  }

  /** After `toUpperCase()` the replacement changes nothing. */
  lemma ReplaceFc2OfUpper(t: string)
    ensures ReplaceFc2(Upper(t)) == Upper(t)
  {
    var s := Upper(t);
    var k := CiIndex(s, Fc2Prefix, 0);
    if k < |s| {
      forall j | 0 <= j < |Fc2Prefix| ensures s[k + j] == Fc2Prefix[j] {
        assert SameChar(s[k + j], Fc2Prefix[j], true);
        assert s[k + j] == UpperChar(t[k + j]);
      }
      assert s[k..k + |Fc2Prefix|] == Fc2Prefix;
      assert s == s[..k] + s[k..k + |Fc2Prefix|] + s[k + |Fc2Prefix|..];
    }
  }

  /** `videoCode`: the upper-cased capture of `codeMatch`, or `''`. */
  function VideoCode(href: string): (r: string)
    ensures Test(ValidJav, href) ==> r != ""
    ensures forall k :: 0 <= k < |r| ==> !('a' <= r[k] <= 'z')
    ensures Capture(CodeMatch, href).Some? ==> r == Upper(Capture(CodeMatch, href).value)
    ensures Capture(CodeMatch, href).None? ==> r == ""
  {
    match Capture(CodeMatch, href)
    case Some(c) =>
      ReplaceFc2OfUpper(c);
      ReplaceFc2(Upper(c))
    case None =>
      assert !Test(ValidJav, href) by {
        if Test(ValidJav, href) {
          TestWidens(ValidJav, CodeMatch, href);
        }
      }
      ""
  }

  // ---------------------------------------------------------------------
  // Title, image and URL of one element

  /** `element.querySelector('img') || element.parentElement?.querySelector('img')` */
  function DetailImg(e: Element): (r: Option<Node>)
    ensures r.Some? ==> r.value.tag == "img"
    ensures r.Some? <==> (exists k :: 0 <= k < |e.descendants| && e.descendants[k].tag == "img")
                         || (e.parent.Some? && exists k :: 0 <= k < |e.parentDescendants| && e.parentDescendants[k].tag == "img")
  {
    var own := First(e.descendants, Tag("img"));
    if own.Some? then own
    else if e.parent.Some? then First(e.parentDescendants, Tag("img"))
    else None
  }

  /** `a || b` on elements, which are always truthy. */
  function Either(a: Option<Node>, b: Option<Node>): Option<Node> {
    if a.Some? then a else b
  }

  /** `.text-secondary`, `.title`, `h3`, `.video-title`, each by its own `querySelector`. */
  function TextElement(e: Element): Option<Node> {
    Either(Either(Either(First(e.descendants, AnyClass({"text-secondary"})), First(e.descendants, AnyClass({"title"}))),
                  First(e.descendants, Tag("h3"))), First(e.descendants, AnyClass({"video-title"})))
  }

  /** The title before the code fallback: image `alt` or `title`, else the
      trimmed text of the text element, else `''`. */
  function FoundTitle(e: Element): string {
    var img := DetailImg(e);
    var fromImg := if img.Some? then OrElse(Or(Attr(img, "alt"), Attr(img, "title")), "") else "";
    if fromImg != "" then fromImg
    else match TextElement(e)
      case Some(n) => Trim(n.text)
      case None => ""
  }

  /** The title: the found one when it has three characters or more, else the code. */
  function DetailTitle(e: Element, code: string): (r: string)
    ensures |r| >= 3 || r == code
    ensures |FoundTitle(e)| >= 3 ==> r == FoundTitle(e)
    ensures |FoundTitle(e)| < 3 ==> r == code
  {
    var t := FoundTitle(e);
    if t == "" || |t| < 3 then code else t
  }

  /** The first truthy of five attributes of the image, or `''`. */
  function ImageAttr(img: Option<Node>): string {
    if img.Some? then OrElse(ImageSource(img), "") else ""
  }

  /** `image.split(' ')[0]` when the image holds a space (a `srcset` value). */
  function CutAtSpace(image: string): (r: string)
    ensures ' ' !in r
    ensures StartsWith(image, r)
    ensures r == "" ==> image == "" || image[0] == ' '
    ensures ' ' in image ==> |r| < |image| && image[|r|] == ' '
    ensures ' ' !in image ==> r == image
  {
    if image != "" && ' ' in image then BeforeSpace(image) else image
  }

  /** The raw image: the attribute value cut at its first space. */
  function RawImage(e: Element): (r: string)
    ensures ' ' !in r
  {
    CutAtSpace(ImageAttr(DetailImg(e)))
  }

  /** The image after the fix: empty, or absolute, or a `data:` URL, and
      still without a space. */
  function DetailImage(raw: string): (r: string)
    requires ' ' !in raw
    ensures ' ' !in r
    ensures raw == "" <==> r == ""
    ensures r != "" ==> StartsWith(r, "http") || StartsWith(r, "data:")
    ensures r != "" ==> EndsWith(r, raw)
    ensures StartsWith(raw, "//") ==> r == "https:" + raw
    ensures StartsWith(raw, "http") || StartsWith(raw, "data:") ==> r == raw
    ensures raw != "" && !StartsWith(raw, "//") && !StartsWith(raw, "http") && !StartsWith(raw, "data:") ==>
              r == WsHost + raw
  {
    if raw == "" then "" else Fix(raw, WsHost, true)
  }

  /** `fullUrl` */
  function DetailUrl(href: string): (r: string)
    ensures StartsWith(r, "http") && EndsWith(r, href)
    ensures StartsWith(href, "http") ==> r == href
    ensures !StartsWith(href, "http") ==> StartsWith(r, WsHost + "/")
    ensures StartsWith(href, "/") ==> r == WsHost + href
    ensures !StartsWith(href, "http") && !StartsWith(href, "/") ==> r == WsHost + "/" + href
  {
    if StartsWith(href, "http") then
      assert href[0] == href[..4][0];
      href
    else if StartsWith(href, "/") then
      assert (WsHost + href)[..|WsHost + "/"|] == WsHost + href[..1];
      WsHost + href
    else
      StartsWithConcat(WsHost + "/", href, WsHost + "/");
      WsHost + "/" + href
  }

  /** What the loop body does with one element: skip it without an `href`
      or without a match of `isValidJAV`, otherwise build the object. */
  function Detail(e: Element): (r: Option<Detailed>)
    ensures r.Some? <==> Truthy(Own(e, "href")) && Test(ValidJav, Own(e, "href").value)
  {
    var href := Own(e, "href");
    if !Truthy(href) || !Test(ValidJav, href.value) then None
    else
      var code := VideoCode(href.value);
      Some(Detailed(DetailTitle(e, code), code, DetailUrl(href.value), DetailImage(RawImage(e))))
  }

  /** An object that is built has a code, a title of three characters or
      the code, the full URL of its `href` and an image without spaces. */
  lemma DetailSound(e: Element)
    requires Detail(e).Some?
    ensures var d := Detail(e).value;
            d.videoCode != "" && d.title != "" && (|d.title| >= 3 || d.title == d.videoCode)
            && d.url == DetailUrl(Own(e, "href").value) && StartsWith(d.url, "http") && ' ' !in d.image
  {
  }

  /** The loop body written as the source writes it, step by step. */
  method ProcessElement(e: Element) returns (r: Option<Detailed>)
    ensures r == Detail(e)
  {
    var href := Own(e, "href");
    if !Truthy(href) {
      return None;
    }
    if !Test(ValidJav, href.value) {
      return None;
    }
    var videoCode := VideoCode(href.value);
    var title := "";
    var image := "";
    var img := DetailImg(e);
    if img.Some? {
      title := OrElse(Or(Attr(img, "alt"), Attr(img, "title")), "");
      image := OrElse(Or(Or(Or(Or(Attr(img, "data-src"), Attr(img, "src")), Attr(img, "data-original")),
                            Attr(img, "data-lazy-src")), Attr(img, "data-srcset")), "");
      assert image == ImageAttr(img);
      if image != "" && ' ' in image {
        image := BeforeSpace(image);
      }
    }
    assert image == CutAtSpace(ImageAttr(img));
    if title == "" {
      var textElement := TextElement(e);
      if textElement.Some? {
        title := Trim(textElement.value.text);
      }
    }
    assert title == FoundTitle(e);
    if title == "" || |title| < 3 {
      title := videoCode;
    }
    var fullUrl := DetailUrl(href.value);
    if image != "" {
      image := Fix(image, WsHost, true);
    }
    assert title == DetailTitle(e, videoCode) && image == DetailImage(RawImage(e));
    r := Some(Detailed(title, videoCode, fullUrl, image));
  }

  // ---------------------------------------------------------------------
  // The selector loop inside `page.evaluate`

  /** The objects of a page: at most fifteen elements per selector, and no
      further selector once ten objects exist. */
  function DetailedVideos(query: Query): seq<Detailed> {
    Run(Detail, Results(query, DetailedSelectors), Some(15), 10)
  }

  /** Every object comes from one of the first fifteen elements of some
      selector, and has the properties `DetailSound` states. */
  lemma DetailedVideosFrom(query: Query, d: Detailed)
    requires d in DetailedVideos(query)
    ensures exists s, i :: 0 <= s < |DetailedSelectors| && 0 <= i < |query(DetailedSelectors[s])| && i < 15
                        && Detail(query(DetailedSelectors[s])[i]) == Some(d)
  {
    RunMember(Detail, Results(query, DetailedSelectors), Some(15), 10, d);
  }

  lemma DetailedVideoSound(query: Query, d: Detailed)
    requires d in DetailedVideos(query)
    ensures d.videoCode != "" && (|d.title| >= 3 || d.title == d.videoCode) && StartsWith(d.url, "http")
  {
    DetailedVideosFrom(query, d);
    var s, i :| 0 <= s < |DetailedSelectors| && 0 <= i < |query(DetailedSelectors[s])| && i < 15
                && Detail(query(DetailedSelectors[s])[i]) == Some(d);
    DetailSound(query(DetailedSelectors[s])[i]);
  }

  method EvaluatePage(query: Query) returns (videoElements: seq<Detailed>)
    ensures videoElements == DetailedVideos(query)
  {
    ghost var outs := Outputs(Detail, Results(query, DetailedSelectors), Some(15));
    videoElements := [];
    var s := 0;
    while s < |DetailedSelectors|
      invariant 0 <= s <= |DetailedSelectors|
      invariant videoElements == Flatten(outs[..s])
      invariant StopAt(outs, 10) == StopFrom(outs, 10, s + 1)
    {
      var found := KeepLoop(Detail, query(DetailedSelectors[s]), Some(15));
      videoElements := videoElements + found;
      FlattenStep(outs, s);
      s := s + 1;
      if |videoElements| >= 10 {
        break;
      }
    }
  }

  // ---------------------------------------------------------------------
  // The URL loop and the pick

  /** `enhancedVideo` */
  function Enhance(d: Detailed): Enhanced {
    Enhanced(d.title, d.videoCode, d.url, d.image, d.title + " (" + d.videoCode + ")")
  }

  function Pool(visit: string -> Option<Query>, url: string): seq<Detailed> {
    match visit(url)
    case None => []
    case Some(q) => DetailedVideos(q)
  }

  function Pools(visit: string -> Option<Query>, urls: seq<string>): (r: seq<seq<Detailed>>)
    ensures |r| == |urls| && forall k :: 0 <= k < |r| ==> r[k] == Pool(visit, urls[k])
  {
    seq(|urls|, k requires 0 <= k < |urls| => Pool(visit, urls[k]))
  }

  /** The pick over the URLs `urls` (the crawler passes `DetailedUrls`): an
      object of the first URL that yields any, enhanced; nothing when no URL
      yields one. */
  function DetailedPick(visit: string -> Option<Query>, urls: seq<string>, rnd: real): Option<Enhanced>
    requires 0.0 <= rnd < 1.0
  {
    var pools := Pools(visit, urls);
    var k := FirstNonEmpty(pools);
    if k == |pools| then None
    else Some(Enhance(pools[k][RandomIndex(rnd, |pools[k]|)]))
  }

  /** Nothing exactly when no URL yields an object; otherwise an object of
      the first URL that yields any, enhanced. */
  lemma DetailedPickFirst(visit: string -> Option<Query>, urls: seq<string>, rnd: real)
    requires 0.0 <= rnd < 1.0
    ensures DetailedPick(visit, urls, rnd).None? <==> forall k :: 0 <= k < |urls| ==> Pool(visit, urls[k]) == []
    ensures DetailedPick(visit, urls, rnd).Some? ==>
              exists k, i :: 0 <= k < |urls| && 0 <= i < |Pool(visit, urls[k])|
                             && (forall j :: 0 <= j < k ==> Pool(visit, urls[j]) == [])
                             && DetailedPick(visit, urls, rnd).value == Enhance(Pool(visit, urls[k])[i])
  {
    var pools := Pools(visit, urls);
    var k := FirstNonEmpty(pools);
    if k < |pools| {
      var i := RandomIndex(rnd, |pools[k]|);
      assert DetailedPick(visit, urls, rnd).value == Enhance(Pool(visit, urls[k])[i]);
    }
  }

  /** The returned video has a code, a title of three characters or the code,
      an absolute URL, and the full title `title (CODE)`. */
  lemma DetailedPickSound(visit: string -> Option<Query>, urls: seq<string>, rnd: real)
    requires 0.0 <= rnd < 1.0 && DetailedPick(visit, urls, rnd).Some?
    ensures var v := DetailedPick(visit, urls, rnd).value;
            v.videoCode != "" && (|v.title| >= 3 || v.title == v.videoCode) && StartsWith(v.url, "http")
            && v.fullTitle == v.title + " (" + v.videoCode + ")"
  {
    DetailedPickFirst(visit, urls, rnd);
    var v := DetailedPick(visit, urls, rnd).value;
    var k, i :| 0 <= k < |urls| && 0 <= i < |Pool(visit, urls[k])|
                && v == Enhance(Pool(visit, urls[k])[i]);
    var d := Pool(visit, urls[k])[i];
    assert visit(urls[k]).Some? && d in DetailedVideos(visit(urls[k]).value);
    DetailedVideoSound(visit(urls[k]).value, d);
    assert d.videoCode != "";
    assert v == Enhance(d);
    assert v.videoCode == d.videoCode;
  }

  /** The pick when `urls[u]` is the first URL to yield objects. */
  lemma DetailedPickAt(visit: string -> Option<Query>, urls: seq<string>, rnd: real, u: nat)
    requires 0.0 <= rnd < 1.0 && u < |urls|
    requires Pool(visit, urls[u]) != []
    requires forall j :: 0 <= j < u ==> Pool(visit, urls[j]) == []
    ensures var p := Pool(visit, urls[u]);
            DetailedPick(visit, urls, rnd) == Some(Enhance(p[RandomIndex(rnd, |p|)]))
  {
    FirstNonEmptyAt(Pools(visit, urls), u);
  }

  /** No pick when no URL yields anything. */
  lemma DetailedPickNone(visit: string -> Option<Query>, urls: seq<string>, rnd: real)
    requires 0.0 <= rnd < 1.0
    requires forall j :: 0 <= j < |urls| ==> Pool(visit, urls[j]) == []
    ensures DetailedPick(visit, urls, rnd) == None
  {
    FirstNonEmptyAt(Pools(visit, urls), |urls|);
  }

  /** One URL of the loop: visit it, evaluate the page and pick one of its
      objects; nothing when the visit fails or the page has none. */
  method VisitOne(visit: string -> Option<Query>, url: string, rnd: real) returns (video: Option<Enhanced>)
    requires 0.0 <= rnd < 1.0
    ensures var p := Pool(visit, url);
            video == if p == [] then None else Some(Enhance(p[RandomIndex(rnd, |p|)]))
  {
    var doc := visit(url);
    if doc.None? {
      return None;
    }
    var videos := EvaluatePage(doc.value);
    if |videos| == 0 {
      return None;
    }
    var selected := videos[RandomIndex(rnd, |videos|)];
    return Some(Enhance(selected));
  }

  method VisitAndPick(visit: string -> Option<Query>, urls: seq<string>, rnd: real) returns (video: Option<Enhanced>)
    requires 0.0 <= rnd < 1.0
    ensures video == DetailedPick(visit, urls, rnd)
  {
    var u := 0;
    while u < |urls|
      invariant 0 <= u <= |urls|
      invariant forall j :: 0 <= j < u ==> Pool(visit, urls[j]) == []
    {
      video := VisitOne(visit, urls[u], rnd);
      if video.Some? {
        DetailedPickAt(visit, urls, rnd, u);
        return;
      }
      u := u + 1;
    }
    DetailedPickNone(visit, urls, rnd);
    return None;
  }

  class Crawler {
    var lastRequestTime: int
    const requestDelay: int

    constructor ()
      ensures lastRequestTime == 0 && requestDelay == 2000
    {
      lastRequestTime := 0;
      requestDelay := 2000;
    }

    /** `rateLimitDelay`: `now` and `later` are `Date.now()` before and after the wait. */
    method RateLimitDelay(now: int, later: int) returns (wait: int)
      modifies this`lastRequestTime
      ensures wait == RateLimitWait(now, old(lastRequestTime), requestDelay)
      ensures lastRequestTime == later
    {
      wait := RateLimitWait(now, lastRequestTime, requestDelay);
      lastRequestTime := later;
    }

    /** `getRandomHotVideo`: `launched` says whether the browser and its
        page could be set up (an error there returns null). */
    method GetRandomHotVideo(now: int, later: int, launched: bool, visit: string -> Option<Query>, rnd: real)
      returns (video: Option<Enhanced>)
      requires 0.0 <= rnd < 1.0
      modifies this`lastRequestTime
      ensures lastRequestTime == later
      ensures video == if launched then DetailedPick(visit, DetailedUrls, rnd) else None
    {
      var wait := RateLimitDelay(now, later);
      if !launched {
        return None;
      }
      video := VisitAndPick(visit, DetailedUrls, rnd);
    }
  }
}
