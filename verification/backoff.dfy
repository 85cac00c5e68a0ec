/**
 * Doubling back-off. Both retry loops of the system wait `delay`, then `2 * delay`, then
 * `4 * delay`, ... between attempts: `getMoviesWithCache` starts at 100 ms, `processBooking`
 * at 1000 ms, and each allows 3 retries.
 */
module Backoff {

  function Pow2(k: nat): (p: nat)
    ensures p >= 1
  {
    if k == 0 then 1 else 2 * Pow2(k - 1)
  }

  /** The waits of `n` retries that start at `delay` and double each time. */
  function Delays(delay: nat, n: nat): (waits: seq<nat>)
    ensures |waits| == n
    decreases n
  {
    if n == 0 then [] else [delay] + Delays(2 * delay, n - 1)
  }

  /** There is one wait per retry, and the `k`-th wait is `delay * 2^k`. */
  lemma {:induction false} DelaysAt(delay: nat, n: nat, k: nat)
    requires k < n
    ensures Delays(delay, n)[k] == delay * Pow2(k)
    decreases n
  {
    if k > 0 {
      DelaysAt(2 * delay, n - 1, k - 1);
      assert Delays(delay, n)[k] == Delays(2 * delay, n - 1)[k - 1];
      calc {
        (2 * delay) * Pow2(k - 1);
        { MulAssoc(2, delay, Pow2(k - 1)); }
        delay * (2 * Pow2(k - 1));
      }
    }
  }

  lemma MulAssoc(a: nat, b: nat, c: nat)
    ensures (a * b) * c == b * (a * c)
  {
  }

  /** Each wait is twice the one before it. */
  lemma DelaysDouble(delay: nat, n: nat, k: nat)
    requires 0 < k < n
    ensures Delays(delay, n)[k] == 2 * Delays(delay, n)[k - 1]
  {
    DelaysAt(delay, n, k);
    DelaysAt(delay, n, k - 1);
  }
}
