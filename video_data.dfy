/** The `VideoData` record: a scraped video with the cleaners and accessors
    the senders call on it. The record is built once and never changed, so
    it is a datatype and every method is a function of its fields. */
module VideoData {
  import opened Wrappers
  import opened Strings
  import opened Patterns
  import opened Urls

  const Fire := "\U{1F525}"
  const Camera := "\U{1F3A5}"
  const Sos := "\U{1F198}"
  /** The `'🔥 '` and `'🆘 '` prefixes the crawlers put in front of titles. */
  const FirePrefix := Fire + " "
  const SosPrefix := Sos + " "

  /** A title that already carries one of the three marks. */
  predicate Marked(t: string) {
    StartsWith(t, Fire) || StartsWith(t, Camera) || StartsWith(t, Sos)
  }

  /** The plain object of `toObject`. */
  datatype Plain = Plain(title: string, url: Option<string>, image: Option<string>, source: string,
                         timestamp: int, javCode: Option<string>)

  /** `new VideoData(title, url, image, source)`; `timestamp` is the value
      of the constructor's `new Date()`. */
  datatype Video = Video(title: string, url: string, image: Option<string>, source: string, timestamp: int) {

    /** `isValid()`: a title, a URL, and the URL is on missav.com. */
    predicate IsValid() {
      title != "" && url != "" && Contains(url, "missav.com")
    }

    /** `getFormattedTitle()` */
    function FormattedTitle(): (r: string)
      ensures Marked(r)
      ensures EndsWith(r, title)
      ensures Marked(title) ==> r == title
      ensures !Marked(title) ==> r == FirePrefix + title
    {
      if Marked(title) then title
      else
        StartsWithConcat(Fire, " " + title, Fire);
        assert Fire + " " + title == Fire + (" " + title);
        Fire + " " + title
    }

    /** `getCleanUrl()` */
    function CleanUrl(): (r: Option<string>)
      ensures r.None? <==> url == ""
      ensures r.Some? ==> StartsWith(r.value, "http") && EndsWith(r.value, url)
      ensures StartsWith(url, "//") ==> r == Some("https:" + url)
      ensures StartsWith(url, "http") ==> r == Some(url)
      ensures url != "" && !StartsWith(url, "//") && !StartsWith(url, "http") ==> r == Some(ComHost + url)
    {
      if url == "" then None else Some(Fix(url, ComHost, false))
    }

    /** `getCleanImageUrl()` */
    function CleanImageUrl(): (r: Option<string>)
      ensures r.None? <==> !Truthy(image)
      ensures r.Some? ==> StartsWith(r.value, "http") && EndsWith(r.value, image.value)
      ensures Truthy(image) && StartsWith(image.value, "//") ==> r == Some("https:" + image.value)
      ensures Truthy(image) && StartsWith(image.value, "http") ==> r == image
      ensures Truthy(image) && !StartsWith(image.value, "//") && !StartsWith(image.value, "http") ==>
                r == Some(ComHost + image.value)
    {
      if !Truthy(image) then None else Some(Fix(image.value, ComHost, false))
    }

    /** `getJavCode()`: the first code in the URL, else the first in the title. */
    function JavCode(): (r: Option<string>)
      ensures r.Some? <==> Test(CodeCs, url) || Test(CodeCs, title)
      ensures Test(CodeCs, url) ==> r == Capture(CodeCs, url)
      ensures !Test(CodeCs, url) ==> r == Capture(CodeCs, title)
      ensures r.Some? ==> r.value != ""
    {
      if Test(CodeCs, url) then Capture(CodeCs, url) else Capture(CodeCs, title)
    }

    /** `toObject()` */
    function ToObject(): (r: Plain)
      ensures Marked(r.title) && EndsWith(r.title, title)
      ensures r.url.None? <==> url == ""
      ensures r.url.Some? ==> StartsWith(r.url.value, "http") && EndsWith(r.url.value, url)
      ensures r.image.None? <==> !Truthy(image)
      ensures r.javCode.Some? <==> Test(CodeCs, url) || Test(CodeCs, title)
      ensures r.title == FormattedTitle() && r.url == CleanUrl() && r.image == CleanImageUrl() && r.javCode == JavCode()
      ensures r.source == source && r.timestamp == timestamp
    {
      Plain(FormattedTitle(), CleanUrl(), CleanImageUrl(), source, timestamp, JavCode())
    }
  }

  /** Formatting a formatted title changes nothing. */
  lemma FormattedTitleIdempotent(v: Video)
    ensures v.(title := v.FormattedTitle()).FormattedTitle() == v.FormattedTitle()
  {
  }

  /** Cleaning a clean URL changes nothing. */
  lemma CleanUrlIdempotent(v: Video)
    requires v.url != ""
    ensures v.(url := v.CleanUrl().value).CleanUrl() == v.CleanUrl()
  {
    FixIdempotent(v.url, ComHost, false);
  }

  lemma CleanImageUrlIdempotent(v: Video)
    requires Truthy(v.image)
    ensures v.(image := v.CleanImageUrl()).CleanImageUrl() == v.CleanImageUrl()
  {
    FixIdempotent(v.image.value, ComHost, false);
  }

  /** A valid video's clean URL exists and is still on missav.com. */
  lemma ValidCleanUrl(v: Video)
    requires v.IsValid()
    ensures v.CleanUrl().Some? && Contains(v.CleanUrl().value, "missav.com")
  {
    var r := v.CleanUrl().value;
    assert r == r[..|r| - |v.url|] + v.url;
    ContainsSuffix(r[..|r| - |v.url|], v.url, "missav.com");
  }
}
