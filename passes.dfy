/** The shape every crawler version shares: the selectors are tried in order,
    each selector's matches (at most the first `cap` of them, when there is a
    cap) are turned one by one into results or skipped, and the loop stops
    after the first selector pass that leaves at least `t` results. `Run` is
    that loop as a function; each version's method is proved equal to it. */
module Passes {
  import opened Wrappers
  import opened Strings

  /** The plain `{ title, url, image }` object several versions return. */
  datatype Listing = Listing(title: string, url: string, image: Option<string>)

  function Flatten<B>(xss: seq<seq<B>>): (r: seq<B>)
    decreases |xss|
  {
    if xss == [] then [] else Flatten(xss[..|xss| - 1]) + xss[|xss| - 1]
  }

  /** One more pass adds its results at the end. */
  lemma FlattenStep<B>(outs: seq<seq<B>>, s: nat)
    requires s < |outs|
    ensures Flatten(outs[..s + 1]) == Flatten(outs[..s]) + outs[s]
  {
    assert outs[..s + 1][..s] == outs[..s];
  }

  lemma {:induction false} FlattenMember<B>(xss: seq<seq<B>>, x: B)
    requires x in Flatten(xss)
    ensures exists s :: 0 <= s < |xss| && x in xss[s]
    decreases |xss|
  {
    var last := |xss| - 1;
    if x in xss[last] {
    } else {
      FlattenMember(xss[..last], x);
      var s :| 0 <= s < last && x in xss[..last][s];
      assert xss[..last][s] == xss[s];
    }
  }

  function Out<B>(o: Option<B>): seq<B> {
    if o.Some? then [o.value] else []
  }

  /** The results `f` gives for the elements of `xs` that it does not skip, in order. */
  function Keep<A, B>(f: A -> Option<B>, xs: seq<A>): (r: seq<B>)
    ensures |r| <= |xs|
    decreases |xs|
  {
    if xs == [] then [] else Keep(f, xs[..|xs| - 1]) + Out(f(xs[|xs| - 1]))
  }

  /** One more element adds its result, if any, at the end. */
  lemma KeepStep<A, B>(f: A -> Option<B>, xs: seq<A>, i: nat)
    requires i < |xs|
    ensures Keep(f, xs[..i + 1]) == Keep(f, xs[..i]) + Out(f(xs[i]))
  {
    assert xs[..i + 1][..i] == xs[..i];
  }

  lemma {:induction false} KeepMember<A, B>(f: A -> Option<B>, xs: seq<A>, y: B)
    requires y in Keep(f, xs)
    ensures exists i :: 0 <= i < |xs| && f(xs[i]) == Some(y)
    decreases |xs|
  {
    var last := |xs| - 1;
    if y in Out(f(xs[last])) {
    } else {
      KeepMember(f, xs[..last], y);
      var i :| 0 <= i < last && f(xs[..last][i]) == Some(y);
      assert xs[..last][i] == xs[i];
    }
  }

  /** The first `cap` elements (`i < Math.min(elements.length, cap)`), or all of them. */
  function Limit<A>(xs: seq<A>, cap: Option<nat>): (r: seq<A>)
    ensures |r| <= |xs| && r == xs[..|r|]
    ensures cap.Some? ==> |r| == Min(|xs|, cap.value)
    ensures cap.None? ==> r == xs
  {
    if cap.Some? && cap.value < |xs| then xs[..cap.value] else xs
  }

  /** One selector pass as the crawlers loop over it: walk the first `cap`
      matches (all of them without a cap) in order, and push what `f` makes
      of each element it does not skip. */
  method KeepLoop<A, B>(f: A -> Option<B>, elements: seq<A>, cap: Option<nat>) returns (found: seq<B>)
    ensures found == Keep(f, Limit(elements, cap))
  {
    var n := |Limit(elements, cap)|;
    found := [];
    var i := 0;
    while i < n
      invariant 0 <= i <= n
      invariant found == Keep(f, elements[..i])
    {
      var item := f(elements[i]);
      if item.Some? {
        found := found + [item.value];
      }
      KeepStep(f, elements, i);
      i := i + 1;
    }
  }

  /** What each selector pass would add, pass by pass. */
  function Outputs<A, B>(f: A -> Option<B>, ess: seq<seq<A>>, cap: Option<nat>): (r: seq<seq<B>>)
    ensures |r| == |ess|
    ensures forall k :: 0 <= k < |ess| ==> r[k] == Keep(f, Limit(ess[k], cap))
    ensures cap.Some? ==> forall k :: 0 <= k < |ess| ==> |r[k]| <= cap.value
  {
    seq(|ess|, k requires 0 <= k < |ess| => Keep(f, Limit(ess[k], cap)))
  }

  /** The number of passes run when pass `j` is the next candidate for the break. */
  function StopFrom<B>(outs: seq<seq<B>>, t: nat, j: nat): (k: nat)
    requires j >= 1
    ensures Min(j, |outs|) <= k <= |outs|
    ensures forall i :: j <= i < k ==> |Flatten(outs[..i])| < t
    ensures k < |outs| ==> |Flatten(outs[..k])| >= t
    decreases |outs| - j
  {
    if j >= |outs| then |outs|
    else if |Flatten(outs[..j])| >= t then j
    else StopFrom(outs, t, j + 1)
  }

  /** The number of passes run: up to and including the first one after which
      at least `t` results exist, or all of them. */
  function StopAt<B>(outs: seq<seq<B>>, t: nat): (k: nat)
    ensures k <= |outs|
    ensures forall i :: 1 <= i < k ==> |Flatten(outs[..i])| < t
    ensures k < |outs| ==> k >= 1 && |Flatten(outs[..k])| >= t
  {
    StopFrom(outs, t, 1)
  }

  lemma {:induction false} StopFromUnique<B>(outs: seq<seq<B>>, t: nat, j: nat, k: nat)
    requires 1 <= j <= k <= |outs|
    requires forall i :: j <= i < k ==> |Flatten(outs[..i])| < t
    requires k == |outs| || |Flatten(outs[..k])| >= t
    ensures StopFrom(outs, t, j) == k
    decreases k - j
  {
    if j < k {
      StopFromUnique(outs, t, j + 1, k);
    }
  }

  /** A loop that ran `k` passes without an earlier break, and then broke or
      ran out of selectors, ran `StopAt` passes. */
  lemma StopAtUnique<B>(outs: seq<seq<B>>, t: nat, k: nat)
    requires k <= |outs| && (k >= 1 || outs == [])
    requires forall i :: 1 <= i < k ==> |Flatten(outs[..i])| < t
    requires k == |outs| || |Flatten(outs[..k])| >= t
    ensures StopAt(outs, t) == k
  {
    if k >= 1 {
      StopFromUnique(outs, t, 1, k);
    }
  }

  /** The selector loop as a function: the results of the passes that run, in
      selector order and then element order, with no de-duplication. */
  function Run<A, B>(f: A -> Option<B>, ess: seq<seq<A>>, cap: Option<nat>, t: nat): seq<B> {
    var outs := Outputs(f, ess, cap);
    Flatten(outs[..StopAt(outs, t)])
  }

  /** Every result comes from one element a selector matched, among the first
      `cap` matches of that selector. */
  lemma RunMember<A, B>(f: A -> Option<B>, ess: seq<seq<A>>, cap: Option<nat>, t: nat, y: B)
    requires y in Run(f, ess, cap, t)
    ensures exists s, i :: 0 <= s < |ess| && 0 <= i < |ess[s]| && (cap.Some? ==> i < cap.value) && f(ess[s][i]) == Some(y)
  {
    var outs := Outputs(f, ess, cap);
    var ran := outs[..StopAt(outs, t)];
    FlattenMember(ran, y);
    var s :| 0 <= s < |ran| && y in ran[s];
    assert ran[s] == Keep(f, Limit(ess[s], cap));
    KeepMember(f, Limit(ess[s], cap), y);
    var i :| 0 <= i < |Limit(ess[s], cap)| && f(Limit(ess[s], cap)[i]) == Some(y);
    assert Limit(ess[s], cap)[i] == ess[s][i];
  }

  /** Once the passes have produced `t` results, later selectors are never
      tried: adding selectors after them changes nothing. */
  lemma LaterIgnored<A, B>(f: A -> Option<B>, ess: seq<seq<A>>, more: seq<seq<A>>, cap: Option<nat>, t: nat)
    requires t > 0 && |Run(f, ess, cap, t)| >= t
    ensures Run(f, ess + more, cap, t) == Run(f, ess, cap, t)
  {
    var outs := Outputs(f, ess, cap);
    var all := Outputs(f, ess + more, cap);
    var k := StopAt(outs, t);
    assert all[..|ess|] == outs by {
      forall s | 0 <= s < |ess| ensures all[s] == outs[s] {
        assert (ess + more)[s] == ess[s];
      }
    }
    assert k >= 1;
    forall i | 1 <= i <= k ensures all[..i] == outs[..i] {
      assert all[..i] == all[..|ess|][..i];
    }
    StopAtUnique(all, t, k);
  }

  /** The first source whose pool is not empty, or `|pools|`. */
  function FirstNonEmpty<B>(pools: seq<seq<B>>): (k: nat)
    ensures k <= |pools|
    ensures k < |pools| ==> pools[k] != []
    ensures forall j :: 0 <= j < k ==> pools[j] == []
    decreases |pools|
  {
    if pools == [] then 0
    else if pools[0] != [] then 0
    else 1 + FirstNonEmpty(pools[1..])
  }

  lemma FirstNonEmptyAt<B>(pools: seq<seq<B>>, k: nat)
    requires k <= |pools|
    requires k < |pools| ==> pools[k] != []
    requires forall j :: 0 <= j < k ==> pools[j] == []
    ensures FirstNonEmpty(pools) == k
  {
  }
}
