/** The waiting time before a retry, the same in outbox.js and webhook-worker.js. */
module Retry {

  const BASE_MS: int := 1000
  const MAX_MS: int := 300_000

  function Pow2(n: nat): (r: nat)
    ensures r >= 1
  {
    if n == 0 then 1 else 2 * Pow2(n - 1)
  }

  function RetryDelay(attempts: int): int {
    var delay := BASE_MS * Pow2(if attempts < 0 then 0 else attempts);
    if delay < MAX_MS then delay else MAX_MS
  }

  /** Waiting times start at the base, double, and are capped from the ninth attempt on. */
  lemma {:induction false} RetryDelayBounds(a: int, b: int)
    requires a <= b
    ensures BASE_MS <= RetryDelay(a) <= RetryDelay(b) <= MAX_MS
    ensures a >= 9 ==> RetryDelay(a) == 300_000
    ensures a <= 8 ==> RetryDelay(a) < MAX_MS
    ensures a <= 0 ==> RetryDelay(a) == 1000
    ensures 0 <= a < 8 ==> RetryDelay(a + 1) == 2 * RetryDelay(a)
  {
    Pow2Monotone(if a < 0 then 0 else a, if b < 0 then 0 else b);
    assert Pow2(8) == 256 && Pow2(9) == 512 by {
      assert Pow2(2) == 4 && Pow2(4) == 16 && Pow2(6) == 64;
    }
    if 0 <= a < 8 { Pow2Monotone(a + 1, 8); }
    if a >= 9 { Pow2Monotone(9, a); } else { Pow2Monotone(if a < 0 then 0 else a, 8); }
  }

  lemma Pow2Monotone(a: nat, b: nat)
    requires a <= b
    ensures Pow2(a) <= Pow2(b)
  {
    if a < b { Pow2Monotone(a, b - 1); }
  }
}
