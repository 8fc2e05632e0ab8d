/** How the crawlers turn the `href` and image values of a page into absolute
    URLs. None of them resolves a reference the way a URL parser would: each
    only tests a prefix and glues a host in front. */
module Urls {
  import opened Strings

  const WsHost := "https://missav.ws"
  const ComHost := "https://missav.com"

  /** `s` is the end of `r`: a fix only ever puts something in front. */
  predicate EndsWith(r: string, s: string) {
    |s| <= |r| && r[|r| - |s|..] == s
  }

  /** `href.startsWith('http') ? href : host + href` */
  function PrefixUnlessHttp(href: string, host: string): (r: string)
    ensures EndsWith(r, href)
    ensures StartsWith(href, "http") ==> r == href
    ensures !StartsWith(href, "http") ==> r == host + href && StartsWith(r, host)
    ensures StartsWith(host, "http") ==> StartsWith(r, "http")
  {
    if StartsWith(href, "http") then href else host + href
  }

  lemma PrefixUnlessHttpIdempotent(href: string, host: string)
    requires StartsWith(host, "http")
    ensures PrefixUnlessHttp(PrefixUnlessHttp(href, host), host) == PrefixUnlessHttp(href, host)
  {
  }

  /** The image (or URL) fix of a value the code has already found truthy:
      a protocol-relative `//...` gets `https:` in front, a value that starts
      with `http` (or with `data:` when `keepData`) is kept, and anything else
      gets `host` in front. */
  function Fix(s: string, host: string, keepData: bool): (r: string)
    ensures EndsWith(r, s)
    ensures StartsWith(s, "http") ==> r == s
    ensures StartsWith(s, "//") ==> r == "https:" + s
    ensures keepData && StartsWith(s, "data:") ==> r == s
    ensures !StartsWith(s, "//") && !StartsWith(s, "http") && !(keepData && StartsWith(s, "data:")) ==> r == host + s
    ensures StartsWith(host, "http") ==> StartsWith(r, "http") || (keepData && StartsWith(r, "data:"))
  {
    if StartsWith(s, "//") then
      assert s[..2][0] == s[0];
      "https:" + s
    else if StartsWith(s, "http") || (keepData && StartsWith(s, "data:")) then s
    else host + s
  }

  lemma {:induction false} StartsWithConcat(a: string, b: string, p: string)
    requires StartsWith(a, p)
    ensures StartsWith(a + b, p)
  {
    assert (a + b)[..|p|] == a[..|p|];
  }

  /** Fixing a fixed value changes nothing. */
  lemma FixIdempotent(s: string, host: string, keepData: bool)
    requires StartsWith(host, "http")
    ensures Fix(Fix(s, host, keepData), host, keepData) == Fix(s, host, keepData)
  {
    var r := Fix(s, host, keepData);
    if StartsWith(r, "http") {
      assert !StartsWith(r, "//") by { assert r[0] == 'h'; }
    } else {
      assert keepData && StartsWith(r, "data:");
      assert !StartsWith(r, "//") by { assert r[0] == 'd'; }
    }
  }
}
