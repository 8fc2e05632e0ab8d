# horney_bot video crawlers in Dafny

The bot posts a random "hot" video from the MissAV sites to Discord. This
project models the part that finds that video. It covers five crawlers and the
`VideoData` record they build:

- `CrawlerService` (Puppeteer + cheerio, missav.ws),
- `MissAVCrawler` (fetch + cheerio, missav.com),
- the exported crawler of `src/services/crawler.js` (fetch + cheerio, `/dm18/vi/`),
- `DetailedCrawler` (Puppeteer, code and full title),
- `getRandomHotMissAVVideo` of `index_new.js`.

Each crawler is modelled on the same steps:

- **Candidate extraction.** Run a list of CSS selectors over a page and walk
  each selector's matches, at most a fixed number per selector. Keep the
  elements whose `href` passes a regular-expression test. Stop taking
  selectors once enough candidates exist.
- **Normalisation.** Turn the `href` and image attributes into absolute URLs
  by testing a prefix and gluing a host in front.
- **Selection.** Pick one candidate with `Math.floor(Math.random() * n)`.
  Sources are tried in order (listing-page URLs, Puppeteer visits). When none
  yields a candidate, a fallback page or `null` is used.

Modules:

- `Patterns`: the regular expressions, as a small leftmost, first-alternative,
  greedy-with-backtracking matcher. It covers just the atoms the crawlers use.
- `Dom`: a page as the function from a selector to the elements it matches.
- `Passes`: the shared "selectors until enough" loop, as a function `Run`.
  Every crawler's loop (a `method`) is proved equal to it.
- `Urls`, `Strings`, `Runtime`, `Helpers`: the URL fixes, JavaScript string
  built-ins, retry and back-off schedules, and the first-ok fetch loop.
- `VideoData`: the record with its cleaners.
- `Config`: the URL and selector lists of `src/config/constants.js`.
- One module per crawler.

Object state is modelled as classes: the rate limiter's `lastRequestTime`
and `CrawlerService`'s `lastVideoUrl`. Things outside the program become
parameters:

- the clock is the readings `now`/`later`;
- `Math.random()` is a real `rnd` in `[0, 1)`;
- each `fetch` is an `Outcome` (answered with a status and a body, or
  unreachable);
- `cheerio.load` is a function `load` from HTML to selector results;
- a Puppeteer `page.goto` + `evaluate` is `visit(url)`, which is `None` when
  the navigation throws.

## Model

| member | source | states |
|---|---|---|
| Strings.TrimSlice | src/services/crawlerService.js:84-85 | `trim()` leaves a slice of the text: only whitespace is cut, at both ends, and the result neither starts nor ends with whitespace |
| Dom.ImageAttrs | index_new.js:184-187 | the first truthy of `data-src`, `src`, `data-original` and `data-lazy-src`, in that order; with none truthy, `data-lazy-src` as found |
| Urls.PrefixUnlessHttp | src/services/crawlerService.js:131 | an `href` starting with `http` is kept; any other becomes exactly the host followed by the `href` |
| Urls.PrefixUnlessHttpIdempotent | src/services/missavCrawler.js:91 | prefixing an already prefixed URL changes nothing |
| Urls.Fix | src/services/crawlerService.js:405-411 | `//x` becomes `https://x`; an `http` value, and a `data:` one where allowed, is kept as it is; any other value becomes exactly the host followed by it; the result always ends with the input |
| Urls.FixIdempotent | src/utils/videoData.js:34-44 | fixing a fixed URL changes nothing |
| VideoData.Video.FormattedTitle | src/utils/videoData.js:24-29 | an already marked title is returned unchanged; any other becomes exactly `'🔥 '` followed by the title |
| VideoData.FormattedTitleIdempotent | src/utils/videoData.js:24-29 | formatting a formatted title changes nothing |
| VideoData.Video.CleanUrl | src/utils/videoData.js:34-44 | `null` exactly for an empty URL; `//x` becomes `https://x`; an `http` URL is kept; any other becomes `https://missav.com` followed by it |
| VideoData.CleanUrlIdempotent | src/utils/videoData.js:34-44 | cleaning a clean URL changes nothing |
| VideoData.Video.CleanImageUrl | src/utils/videoData.js:49-58 | `null` exactly for a falsy image; `//x` becomes `https://x`; an `http` image is kept; any other becomes `https://missav.com` followed by it |
| VideoData.CleanImageUrlIdempotent | src/utils/videoData.js:49-58 | cleaning a clean image URL changes nothing |
| VideoData.Video.JavCode | src/utils/videoData.js:63-71 | a code exists exactly when the URL or the title holds one; the URL's code wins; the code is non-empty |
| VideoData.Video.ToObject | src/utils/videoData.js:76-85 | the object's title, URL, image and code are `getFormattedTitle`, `getCleanUrl`, `getCleanImageUrl` and `getJavCode`; source and timestamp are copied |
| VideoData.ValidCleanUrl | src/utils/videoData.js:17-44 | a valid record's clean URL exists and still contains `missav.com` |
| Helpers.Retry | src/utils/helpers.js:66-78 | `fn` is called until it returns, at most `maxRetries` times; it resolves exactly when some call within the limit returns; after the last failure it rejects with that error; pause `j` is `delay * 2^j`, and there is no pause after the last call |
| Runtime.RateLimitWait | src/services/crawlerService.js:240-251 | no wait once `requestDelay` ms have passed since the last request; otherwise a wait that ends exactly `requestDelay` ms after it |
| Runtime.RandomIndex | src/services/missavCrawler.js:172 | `Math.floor(Math.random() * n)` is an index below `n` |
| Runtime.FirstOkBody | src/services/crawler.js:25-47 | the HTML is the body of the first URL answered with an ok status; with no ok answer it is empty |
| Runtime.FetchFirstOk | src/services/crawler.js:25-43 | the loop that breaks at the first ok answer and skips errors yields `FirstOkBody` |
| Passes.Limit | src/services/crawlerService.js:62 | the first `min(length, cap)` matches, or all of them without a cap |
| Passes.StopAt | src/services/missavCrawler.js:127 | the passes run up to the first one after which the threshold is reached, and no earlier pass reaches it |
| Passes.RunMember | src/services/missavCrawler.js:76-128 | every candidate comes from a match within the cap of some selector, through the per-element step |
| Passes.LaterIgnored | src/services/missavCrawler.js:127 | selectors after the stopping pass are never consulted |
| Passes.FirstNonEmpty | src/services/crawlerService.js:190-227 | the first source that yields entries; all earlier ones yield none |
| Patterns.Search | src/services/crawlerService.js:74 | the leftmost position where the pattern matches; none to its left; when there is none, no position matches |
| Patterns.Capture | src/utils/videoData.js:64-68 | there is a capture exactly when the pattern matches, and it is non-empty |
| Patterns.AltsSome | src/services/crawler.js:163 | an alternation matches at a position exactly when one of its alternatives does |
| Patterns.TestWidens | src/services/detailedCrawler.js:147-155 | adding alternatives keeps every match, so `codeMatch` matches whenever `isValidJAV` does |
| Patterns.TestShifts | src/services/crawlerService.js:337-338 | a match of `dm18/vi/<code>` is a match of `/vi/<code>` |
| Patterns.TestFc2IsDashDigits | src/services/crawlerService.js:335-336 | an `fc2-ppv-` number after `/vi/` also matches the general `/vi/[^/]+-\d{3,}` pattern |
| CrawlerService.DescTitle | src/services/crawlerService.js:83-89 | a description title is non-empty, longer than the code and holds no `http` |
| CrawlerService.AltTitle | src/services/crawlerService.js:92-102 | an image title is longer than the code and names neither a thumbnail nor an image, in any case |
| CrawlerService.NearbyTitle | src/services/crawlerService.js:105-115 | a nearby title exists exactly when some `span`, `p` or `div` has a trimmed text of 11 to 99 characters without the code or `http` |
| CrawlerService.FindNearbyTitle | src/services/crawlerService.js:106-114 | the loop with its `break` yields the first such text |
| CrawlerService.RealTitle | src/services/crawlerService.js:117-120 | the title is `'Hot JAV Video'` when no source qualifies or the candidate equals the code, and the candidate otherwise |
| CrawlerService.ExtractEntry | src/services/crawlerService.js:64-140 | an entry is made exactly when the `href` is present, holds `/vi/`, is no listing page and has a code after `/vi/`; its code is that capture upper-cased; its title is the first 100 characters of the real title (1 to 100 characters, `'Hot JAV Video'` when no candidate is found); its URL is the `href` on missav.ws; its image is the first image's `data-src`, else `src`, else `data-original`, else `''` |
| CrawlerService.ExtractElement | src/services/crawlerService.js:63-140 | the step-by-step loop body gives `ExtractEntry` |
| CrawlerService.ChooseTitle | src/services/crawlerService.js:80-120 | the description, image-alt and nearby-text steps, with the closing default, give the element's `RealTitle` |
| CrawlerService.ExtractVideosFromPage | src/services/crawlerService.js:45-148 | the selector loop equals `Run` over the six selectors, six matches each, stopping at four entries |
| CrawlerService.ExtractedAdmitted | src/services/crawlerService.js:59-143 | every extracted entry comes from one of the first six matches of a selector whose `href` passes every extraction test |
| CrawlerService.Present | src/services/crawlerService.js:207-215 | the title gets `'🔥 '`; a non-empty image becomes absolute and ends with the original; code and URL are unchanged |
| CrawlerService.PuppeteerPickFirst | src/services/crawlerService.js:188-232 | nothing exactly when both URLs yield no entries; otherwise an entry of the first URL that yields any, presented |
| CrawlerService.VisitAndPick | src/services/crawlerService.js:190-232 | the URL loop, where a failed visit moves on, yields `PuppeteerPick` |
| CrawlerService.VisitOne | src/services/crawlerService.js:190-217 | one URL: nothing when the visit fails or yields no entries; otherwise the entry at the random index, presented |
| CrawlerService.PuppeteerPickAt | src/services/crawlerService.js:190-217 | when a URL is the first to yield entries, the pick is the entry at the random index of that URL's entries |
| CrawlerService.PuppeteerPickNone | src/services/crawlerService.js:190-232 | when no URL yields entries, the pick is nothing |
| CrawlerService.ValidUrlReduces | src/services/crawlerService.js:330-342 | `isValidVideoUrl` holds exactly when the `href` is non-empty and matches the standard-code or the general `/vi/` pattern; the other three patterns add nothing |
| CrawlerService.PatternReduces | src/services/crawlerService.js:333-339 | a match of any of the five patterns is a match of the standard-code or the general `/vi/` pattern |
| CrawlerService.HrefOf | src/services/crawlerService.js:371-376 | an element's own truthy `href` is used as it is; otherwise the first descendant link's truthy `href`; otherwise the `href` of the parent when the parent is an `a` |
| CrawlerService.ParentLink | src/services/crawlerService.js:375 | `$el.parent('a')` is the parent exactly when the parent is an `a` element |
| CrawlerService.HtmlTitle | src/services/crawlerService.js:386-395 | the title is never empty; it is the first truthy of image `alt`, image `title`, element `title` and the element's trimmed text; otherwise the upper-cased code after a `/` in the `href`; otherwise `'Hot JAV'` |
| CrawlerService.HtmlImage | src/services/crawlerService.js:398-411 | the first image's `data-src`, else `src`, else `data-original`, else `data-lazy-src`: a falsy one is returned as found; `//` gets `https:`; `http` and `data:` are kept; anything else is prefixed with the missav.ws host; a truthy result is absolute or `data:` |
| CrawlerService.ParseEntry | src/services/crawlerService.js:370-419 | an entry is made exactly when the `href` is a valid video URL whose full URL differs from the last one sent; its URL is that full URL, its title is `'🔥 '` followed by the element's title, and its image is the element's image |
| Passes.KeepLoop | src/services/crawlerService.js:368-424 | the loop over one selector's matches, within the cap, keeps the value each match yields, in order, and skips the others |
| CrawlerService.ParsedAvoidsLast | src/services/crawlerService.js:347-431 | no parsed entry repeats the last URL sent; each has a `🔥` title and comes from an element with a valid `href` |
| CrawlerService.ProgressiveDelays | src/services/crawlerService.js:315-322 | without a 403, the pauses are 2 s, 4 s, 6 s, ... |
| CrawlerService.Service.constructor | src/services/crawlerService.js:10-15 | no request yet, a 1000 ms delay, no last URL |
| CrawlerService.Service.RateLimitDelay | src/services/crawlerService.js:240-251 | waits `RateLimitWait` and records the time after the wait |
| CrawlerService.Service.GetRandomHotVideoWithPuppeteer | src/services/crawlerService.js:164-239 | rate-limits; returns `null` when the browser cannot start and `PuppeteerPick` otherwise |
| CrawlerService.Service.GetRandomHotVideo | src/services/crawlerService.js:436-448 | returns the Puppeteer video; `lastVideoUrl` becomes its URL, and is unchanged when there is none |
| CrawlerService.Service.ParseVideos | src/services/crawlerService.js:347-431 | the selector loop equals `Run` over the eight selectors, stopping at fifteen, skipping `lastVideoUrl` |
| CrawlerService.Service.FetchWithRetry | src/services/crawlerService.js:287-325 | resolves with the body of the first ok attempt, exactly when one exists within the limit; otherwise rejects after the last attempt with its outcome; pauses are 5 s after a 403 and `attempt * 2000` ms before a retry |
| MissavCrawler.VideoTitle | src/services/missavCrawler.js:94-104 | the first truthy of the `.text-secondary` text, image `alt`, image `title` and element `title`; else the code after a slash in the `href`; else `'JAV Video'` |
| MissavCrawler.ParseVideo | src/services/missavCrawler.js:80-118 | a record is made exactly when the `href` holds `/en/` and an upper-case code and its full URL is on missav.com; the record is valid and has the full URL, the title and the image as found |
| MissavCrawler.RelativeIsValid | src/services/missavCrawler.js:86-117 | a relative `href` that passes the test always gives a record |
| MissavCrawler.ParsedValid | src/services/missavCrawler.js:72-131 | every parsed video is valid and comes from an admitted `href` |
| MissavCrawler.ParsePass | src/services/missavCrawler.js:80-122 | the `each` callback keeps the records of all matches, in order |
| MissavCrawler.FindIndex | src/services/missavCrawler.js:166 | `findIndex`: the first index with that URL, and `length` (for -1) when there is none |
| MissavCrawler.FindIndexUnseen | src/services/missavCrawler.js:165-167 | an element is its URL's first index exactly when no earlier element has that URL |
| MissavCrawler.UniqueUpToIsKeepFirst | src/services/missavCrawler.js:165-167 | the `findIndex` filter on a prefix equals the walk that keeps a video when its URL was not seen |
| MissavCrawler.UniqueIsKeepFirst | src/services/missavCrawler.js:165-167 | the filter equals the keep-first walk over the whole list |
| MissavCrawler.UniqueSpec | src/services/missavCrawler.js:165-167 | the unique videos are videos of the list, have distinct URLs and cover every URL of the list |
| MissavCrawler.UniqueUpToDistinct | src/services/missavCrawler.js:165-167 | a list with distinct URLs is left as it is |
| MissavCrawler.UniqueIdempotent | src/services/missavCrawler.js:165-167 | removing duplicates twice is removing them once |
| MissavCrawler.SourcePools | src/services/missavCrawler.js:142-157 | a source that throws contributes nothing; any other contributes its parsed videos |
| MissavCrawler.HotPick | src/services/missavCrawler.js:136-180 | `null` exactly when the accumulated pool is empty; otherwise a video of the de-duplicated pool |
| MissavCrawler.PickValid | src/services/missavCrawler.js:136-180 | the picked video is valid |
| MissavCrawler.Fallback | src/services/missavCrawler.js:185-207 | a record exactly when the page loaded and its first matching link has an `href`; its title is `'🆘 '` followed by the image's `alt`, else its `title`, else `'JAV Video'`, which formatting leaves as it is; its URL is the `href` under `https://missav.com` unless it starts with `http`; its image is its `data-src`, else its `src` |
| MissavCrawler.Crawler.constructor | src/services/missavCrawler.js:11-14 | no request yet and a 2000 ms delay |
| MissavCrawler.Crawler.RateLimitDelay | src/services/missavCrawler.js:19-30 | waits `RateLimitWait` and records the time after the wait |
| MissavCrawler.Crawler.FetchWithRetry | src/services/missavCrawler.js:35-67 | resolves with the body of the first ok attempt, exactly when one exists; otherwise rejects after the last; back-off pause `j` is `2^(j+1)` seconds |
| MissavCrawler.Crawler.ParseVideosFromHtml | src/services/missavCrawler.js:72-131 | the selector loop equals `Run` over the eleven selectors, stopping at twenty |
| MissavCrawler.Crawler.GetRandomHotVideo | src/services/missavCrawler.js:136-180 | the source loop, the de-duplication and the pick yield `HotPick` |
| MissavCrawler.Crawler.GetFallbackVideo | src/services/missavCrawler.js:185-207 | one rate-limited attempt through the class's `fetchWithRetry`, then the first link and its url, title and image, step by step, yield `Fallback` of the fetched page |
| Crawler.NormalizeUrl | src/services/crawler.js:136-146 | a falsy `href` gives the base URL; an `http` one is kept; `//x` becomes `https://x`; any other becomes the base URL followed by it |
| Crawler.NormalizeUrlIdempotent | src/services/crawler.js:136-146 | normalizing a normalized URL changes nothing |
| Crawler.ValidLinkShape | src/services/crawler.js:94-106 | `isValidVideoLink` holds exactly when the link holds `/dm18/vi/` followed by a character other than `/`, or holds `/dm18/vi/` and matches the code, `123456_789` or `/digits/` pattern |
| Crawler.Dm18PathShape | src/services/crawler.js:99 | the pattern `/\/dm18\/vi\/[^\/]+/` matches exactly when `/dm18/vi/` is followed by a character other than `/` |
| Crawler.Dm18LinkValid | src/services/crawler.js:94-106 | `/dm18/vi/` followed by a character other than `/` matches the first pattern and is always a valid link |
| Crawler.KeepLink | src/services/crawler.js:69-77 | an element is kept exactly when its `href` is a valid link |
| Crawler.KeptLinksValid | src/services/crawler.js:60-80 | every collected element has a valid link |
| Crawler.KeepPass | src/services/crawler.js:69-77 | the `each` callback keeps the valid elements, in order |
| Crawler.CollectLinks | src/services/crawler.js:62-80 | the selector loop equals `Run` over the eleven selectors, stopping at twenty |
| Crawler.ExtractTitle | src/services/crawler.js:151-168 | never empty; the first truthy source; else the code or number in the `href`, else `'JAV Video'`; `'Hot JAV Video'` without an `href` |
| Crawler.ExtractImage | src/services/crawler.js:173-186 | the first truthy of `data-src`, `src`, `data-original`, `data-lazy-src` and `data-srcset`, normalized; with none truthy, `data-srcset` as found |
| Crawler.PickedElement | src/services/crawler.js:111-131 | the video of one of the elements: its normalized URL, `'🔥 '` and its title, and its image |
| Crawler.ParseVideoFromHtml | src/services/crawler.js:60-89 | fails (throws) exactly when no element is kept |
| Crawler.ParsedLinkIsDm18 | src/services/crawler.js:60-131 | the picked video's URL contains `/dm18/vi/` and its title starts with `'🔥 '` |
| Crawler.KeptLinkUrl | src/services/crawler.js:117-146 | a kept link still holds `/dm18/vi/` once normalized |
| Crawler.FallbackVideo | src/services/crawler.js:191-222 | a fallback video is made exactly when the answer is ok and holds a `/dm18/vi/` link; its title is `'🆘 '` followed by the first link's image `alt`, else its `title`, else `'JAV Video'`; its URL is the link's `href` normalised; its image is the normalised `data-src`, else `src`; URL and image are absolute |
| Crawler.FallbackImageWithoutSource | src/services/crawler.js:214 | an image without `data-src` and `src` becomes the site's base URL |
| Crawler.HotVideo | src/services/crawler.js:17-55 | a returned video is absolute and carries `🔥` or `🆘` |
| Crawler.HotVideoSource | src/services/crawler.js:17-55 | the video has a `🔥` title exactly when the first page answering ok holds a valid link; otherwise it is the fallback, even when a later page would have had links |
| Crawler.GetRandomHotVideo | src/services/crawler.js:17-55 | the fetch loop, the parse and the fallback yield `HotVideo` |
| DetailedCrawler.CiIndex | src/services/detailedCrawler.js:154 | the first position from the start where `FC2-PPV-` occurs ignoring case, or the length when it does not occur |
| DetailedCrawler.ReplaceFc2OfUpper | src/services/detailedCrawler.js:154 | after `toUpperCase()` the `FC2-PPV-` replacement changes nothing |
| DetailedCrawler.VideoCode | src/services/detailedCrawler.js:151-155 | the code is the upper-cased `codeMatch` capture when there is one and `''` otherwise; an `href` that passes `isValidJAV` always has a non-empty code; the code has no lower-case letter |
| DetailedCrawler.DetailImg | src/services/detailedCrawler.js:162 | an image exists exactly when the element or its parent holds one |
| DetailedCrawler.DetailTitle | src/services/detailedCrawler.js:164-191 | a found title of three characters or more is kept; a shorter or missing one gives the code |
| DetailedCrawler.CutAtSpace | src/services/detailedCrawler.js:172-174 | a value with a space is cut right before its first space; a value without one is kept |
| DetailedCrawler.DetailImage | src/services/detailedCrawler.js:197-204 | empty stays empty; `//x` becomes `https://x`; an `http` or `data:` value is kept; any other becomes `https://missav.ws` followed by it |
| DetailedCrawler.DetailUrl | src/services/detailedCrawler.js:194-195 | an `http` `href` is kept; `/x` becomes `https://missav.ws/x`; any other `x` becomes `https://missav.ws/` followed by `x` |
| DetailedCrawler.Detail | src/services/detailedCrawler.js:141-211 | an object is made exactly when the `href` is present and passes `isValidJAV` |
| DetailedCrawler.DetailSound | src/services/detailedCrawler.js:141-211 | an object has a code, a title of three characters or the code, the full URL of its `href`, and an image without spaces |
| DetailedCrawler.ProcessElement | src/services/detailedCrawler.js:140-211 | the step-by-step loop body gives `Detail` |
| DetailedCrawler.DetailedVideosFrom | src/services/detailedCrawler.js:136-216 | every object comes from one of the first fifteen matches of a selector |
| DetailedCrawler.DetailedVideoSound | src/services/detailedCrawler.js:136-216 | every object of a page has a code, a title of three or the code, and an absolute URL |
| DetailedCrawler.VisitOne | src/services/detailedCrawler.js:106-245 | one URL: nothing when the visit fails or the page has no object; otherwise the object at the random index, enhanced |
| DetailedCrawler.EvaluatePage | src/services/detailedCrawler.js:121-219 | the selector loop equals `Run` over the six selectors, fifteen each, stopping at ten |
| DetailedCrawler.DetailedPickFirst | src/services/detailedCrawler.js:99-255 | nothing exactly when no URL yields an object; otherwise an object of the first URL that yields any, enhanced |
| DetailedCrawler.DetailedPickSound | src/services/detailedCrawler.js:223-245 | the returned video has a code, a title of three or the code, an absolute URL, and the full title `title (CODE)` |
| DetailedCrawler.VisitAndPick | src/services/detailedCrawler.js:106-255 | the URL loop, where a failed visit moves on, yields `DetailedPick` |
| DetailedCrawler.DetailedPickAt | src/services/detailedCrawler.js:106-245 | when a URL is the first to yield objects, the pick is its object at the random index, enhanced |
| DetailedCrawler.DetailedPickNone | src/services/detailedCrawler.js:106-255 | when no URL yields an object, the pick is nothing |
| DetailedCrawler.Crawler.constructor | src/services/detailedCrawler.js:9-13 | no request yet and a 2000 ms delay |
| DetailedCrawler.Crawler.RateLimitDelay | src/services/detailedCrawler.js:54-64 | waits `RateLimitWait` and records the time after the wait |
| DetailedCrawler.Crawler.GetRandomHotVideo | src/services/detailedCrawler.js:69-261 | rate-limits; `null` when the browser cannot be set up, `DetailedPick` over the four URLs otherwise |
| IndexNew.CollectLink | index_new.js:138-146 | an element is collected exactly when its `href` holds `/en/` and an upper-case code |
| IndexNew.CollectedAdmitted | index_new.js:134-149 | every collected element passes that test |
| IndexNew.CollectPass | index_new.js:138-146 | the `each` callback keeps those elements, in order |
| IndexNew.CollectVideos | index_new.js:131-149 | the selector loop equals `Run` over the seven selectors, stopping at ten |
| IndexNew.HotUrl | index_new.js:163-165 | a truthy `href` that does not start with `http` becomes `https://missav.com` followed by it; any other `href` is returned as is |
| IndexNew.HotTitle | index_new.js:168-180 | never empty; the first truthy source; else the code after a slash in the `href` or `'JAV Video'`; `'Hot JAV Video'` without an `href` |
| IndexNew.HotImage | index_new.js:183-195 | the first truthy of `data-src`, `src`, `data-original` and `data-lazy-src`; `//x` becomes `https://x`, an `http` value is kept, any other gets `https://missav.com` in front; a falsy value is returned as found |
| IndexNew.DataImagePrefixed | index_new.js:189-195 | a `data:` image gets the missav.com host in front |
| IndexNew.Describe | index_new.js:161-206 | the returned title starts with `'🔥 '` |
| IndexNew.DescribeSelected | index_new.js:159-206 | the step-by-step URL, title and image assignments give `Describe` of the picked element |
| IndexNew.Fallback | index_new.js:211-235 | a video exactly when the home page answers (any status) with a matching first link that has an `href`; its title is `'🆘 '` followed by the image's `alt`, else its `title`, else `'JAV Video'`, its URL the `href` under `https://missav.com` unless it starts with `http`, its image its `data-src`, else its `src` |
| IndexNew.HotVideoSource | index_new.js:67-237 | the video has a `🔥` title exactly when the first hot page answering ok holds a collected link, and then its URL is absolute and contains `/en/`; otherwise it is the fallback |
| IndexNew.GetRandomHotMissAvVideo | index_new.js:67-237 | the fetch loop, the collection, the pick and the fallback yield `HotVideo` |

## Left out

- Network, browser and timers are not performed. A `fetch` is an `Outcome`, a Puppeteer navigation plus `evaluate` is `visit`, `cheerio.load` is `load`, and a wait is returned as a number of milliseconds.
- CSS selector matching is not modelled. A page is the function from a selector to its matches, and the relation between an HTML text and that function is not stated.
- The HTTP headers, user agents, timeouts, viewport and request interception are left out. They do not change which video is chosen.
- Logging, the text of error messages and `Logger` are left out.
- `Math.random` is a real in `[0, 1)`, not a double. `String.length` counts characters, not UTF-16 code units, so the 100-character cut and the length tests of titles can differ on characters outside the BMP.
- `toUpperCase`, `toLowerCase` and the `i` flag act on ASCII letters only.
- MissavCrawler.Crawler.GetRandomHotVideo: the page of each source is given as what its `fetchWithRetry` settled to. The updates of `lastRequestTime` inside the source loop are not tracked.
- Helpers.Retry, CrawlerService.Service.FetchWithRetry and MissavCrawler.Crawler.FetchWithRetry: the default arguments of `retry` (`maxRetries = 3`, `delay = 1000`) and of both `fetchWithRetry` (`maxRetries = 3`) are not modelled; callers always pass the limits.
- `new Date()` of `VideoData` is a parameter `now`.
- Closing pages and browsers, and errors while closing, are left out. `CrawlerService.initBrowser`, `closeBrowser` and `DetailedCrawler`'s kept `browser` are stood in for by the `launched` parameter.
- `getRandomHeaders` is left out because it only builds headers.
- DetailedCrawler.Enhance has no contract of its own. What it builds is stated by DetailedCrawler.DetailedPickSound.
- The Discord, Express and scheduling code of `index_new.js` and the senders is not part of this model.
