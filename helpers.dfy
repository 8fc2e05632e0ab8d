/** The generic `retry(fn, maxRetries, delay)` helper: `fn` is called until
    it returns, with an exponential pause after each failure but the last. */
module Helpers {
  import opened Runtime

  /** What one call of `fn` does: return a value or throw. */
  datatype Attempt<T, E> = Returns(value: T) | Throws(error: E)

  /** How the promise of an async function settles. */
  datatype Settled<T, E> = Resolved(value: T) | Rejected(error: E) | Undefined

  /** `retry`: `fn(i)` is what the `i`-th call (from 0) does; `calls` is how
      many calls were made and `waits` the pauses taken, in order. */
  method Retry<T, E>(fn: nat -> Attempt<T, E>, maxRetries: int, delay: int)
    returns (r: Settled<T, E>, calls: nat, waits: seq<int>)
    ensures maxRetries <= 0 ==> calls == 0 && r == Undefined
    ensures maxRetries > 0 ==> 1 <= calls <= maxRetries && !r.Undefined?
    ensures forall j :: 0 <= j < calls - 1 ==> fn(j).Throws?
    ensures r.Resolved? <==> exists j :: 0 <= j < maxRetries && fn(j).Returns?
    ensures r.Resolved? ==> fn(calls - 1) == Returns(r.value)
    ensures r.Rejected? ==> calls == maxRetries && fn(calls - 1) == Throws(r.error)
    ensures |waits| == if calls == 0 then 0 else calls - 1
    ensures forall j :: 0 <= j < |waits| ==> waits[j] == delay * Pow2(j)
  {
    r, calls, waits := Undefined, 0, [];
    var i := 0;
    while i < maxRetries
      invariant calls == i && |waits| == i
      invariant maxRetries > 0 ==> i < maxRetries
      invariant maxRetries <= 0 ==> i == 0
      invariant forall j :: 0 <= j < i ==> fn(j).Throws?
      invariant forall j :: 0 <= j < i ==> waits[j] == delay * Pow2(j)
    {
      calls := calls + 1;
      var attempt := fn(i);
      if attempt.Returns? {
        r := Resolved(attempt.value);
        return;
      }
      if i == maxRetries - 1 {
        r := Rejected(attempt.error);
        return;
      }
      waits := waits + [delay * Pow2(i)];
      i := i + 1;
    }
  }
}
