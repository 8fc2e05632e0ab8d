/** What the crawlers take from their JavaScript runtime: timers and the clock
    (`setTimeout`, `Date.now`), `Math.random`, and the answers of `fetch`.
    None of these is performed here; their values are parameters. */
module Runtime {

  /** `Math.pow(2, n)` for the attempt numbers the retry loops use. */
  function Pow2(n: nat): (r: nat)
    ensures r >= 1
  {
    if n == 0 then 1 else 2 * Pow2(n - 1)
  }

  /** The wait of a `rateLimitDelay`: nothing once `requestDelay` milliseconds
      have passed since `last`, otherwise exactly what is missing. */
  function RateLimitWait(now: int, last: int, requestDelay: int): (w: int)
    ensures w >= 0
    ensures w > 0 <==> now - last < requestDelay
    ensures w > 0 ==> now + w == last + requestDelay
  {
    if now - last < requestDelay then requestDelay - (now - last) else 0
  }

  /** `Math.floor(rnd * n)` for a value `rnd` of `Math.random()`. */
  function RandomIndex(rnd: real, n: nat): (i: nat)
    requires 0.0 <= rnd < 1.0 && n > 0
    ensures i < n
  {
    ProductBelow(rnd, n);
    (rnd * n as real).Floor
  }

  lemma ProductBelow(rnd: real, n: nat)
    requires 0.0 <= rnd < 1.0 && n > 0
    ensures 0.0 <= rnd * n as real < n as real
  {
    assert (1.0 - rnd) * n as real > 0.0;
  }

  /** What a `fetch` gives: a response with its status and body, or an
      exception (host unreachable, timeout). */
  datatype Outcome<P> = Answered(status: int, body: P) | Unreachable {
    /** `response.ok` */
    predicate Ok() {
      Answered? && 200 <= status <= 299
    }
  }

  /** The index of the first answer that is ok, or `|outcomes|` when none is. */
  function FirstOk<P>(outcomes: seq<Outcome<P>>): (k: nat)
    ensures k <= |outcomes|
    ensures k < |outcomes| ==> outcomes[k].Ok()
    ensures forall j :: 0 <= j < k ==> !outcomes[j].Ok()
    decreases |outcomes|
  {
    if outcomes == [] then 0
    else if outcomes[0].Ok() then 0
    else 1 + FirstOk(outcomes[1..])
  }

  /** What fetching each of `urls` gives, in order. */
  function Responses<P>(respond: string -> Outcome<P>, urls: seq<string>): (r: seq<Outcome<P>>)
    ensures |r| == |urls| && forall k :: 0 <= k < |urls| ==> r[k] == respond(urls[k])
  {
    seq(|urls|, k requires 0 <= k < |urls| => respond(urls[k]))
  }

  /** The HTML a source loop ends with: the body of the first of `urls` that
      answers with an ok status, or `''` when none does. */
  function FirstOkBody(respond: string -> Outcome<string>, urls: seq<string>): (html: string)
    ensures html != "" ==> exists u :: 0 <= u < |urls| && respond(urls[u]).Ok() && html == respond(urls[u]).body
    ensures (forall u :: 0 <= u < |urls| ==> !respond(urls[u]).Ok()) ==> html == ""
    ensures forall u :: 0 <= u < |urls| && respond(urls[u]).Ok() && (forall j :: 0 <= j < u ==> !respond(urls[j]).Ok()) ==>
              html == respond(urls[u]).body
  {
    var outcomes := Responses(respond, urls);
    var k := FirstOk(outcomes);
    if k < |outcomes| then outcomes[k].body else ""
  }

  /** The source loop: try `urls` in order, keep the body of the first ok
      answer and stop; an error or a status that is not ok moves on. */
  method FetchFirstOk(respond: string -> Outcome<string>, urls: seq<string>) returns (html: string)
    ensures html == FirstOkBody(respond, urls)
  {
    ghost var outcomes := Responses(respond, urls);
    html := "";
    var u := 0;
    while u < |urls|
      invariant 0 <= u <= |urls|
      invariant forall j :: 0 <= j < u ==> !outcomes[j].Ok()
    {
      var res := respond(urls[u]);
      if res.Ok() {
        assert outcomes[u] == res;
        assert FirstOk(outcomes) == u;
        html := res.body;
        return;
      }
      u := u + 1;
    }
  }
}
