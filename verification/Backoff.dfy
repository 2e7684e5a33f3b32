/** The delay before the next attempt (internal/outbox/processor.go).  The random draw is a real
    number; rounding of binary floating point is not modelled. */
module Backoff {
  import opened Core

  function RetryBaseDelay(attempt: int): Time {
    if attempt <= 1 then 5 * SECOND
    else if attempt == 2 then 15 * SECOND
    else if attempt == 3 then 30 * SECOND
    else if attempt == 4 then MINUTE
    else 5 * MINUTE
  }

  /** `rand.Float64()` */
  type Draw = r: real | 0.0 <= r < 1.0 witness 0.0

  function RetryDelay(attempt: int, draw: Draw): Time {
    var base := RetryBaseDelay(attempt) as real;
    var minDelay := base * (1.0 - 0.25);
    var spread := base * (2.0 * 0.25);
    (minDelay + draw * spread).Floor
  }

  const SHORTEST_DELAY: Time := 3_750_000_000

  /** For every draw the delay is at least 0.75 and less than 1.25 of its base. */
  lemma DelayBounds(attempt: int, draw: Draw)
    ensures 3 * RetryBaseDelay(attempt) <= 4 * RetryDelay(attempt, draw) < 5 * RetryBaseDelay(attempt)
    ensures SHORTEST_DELAY <= RetryDelay(attempt, draw)
  {
  }

  /** In the middle of the draw the delay is 5 s, 15 s, 30 s, 1 min and from the fifth attempt on 5 min;
      at its low end it is three quarters of that. */
  lemma DelayValues(attempt: int)
    ensures attempt <= 1 ==> RetryDelay(attempt, 0.5) == 5_000_000_000 && RetryDelay(attempt, 0.0) == 3_750_000_000
    ensures attempt == 2 ==> RetryDelay(attempt, 0.5) == 15_000_000_000 && RetryDelay(attempt, 0.0) == 11_250_000_000
    ensures attempt == 3 ==> RetryDelay(attempt, 0.5) == 30_000_000_000 && RetryDelay(attempt, 0.0) == 22_500_000_000
    ensures attempt == 4 ==> RetryDelay(attempt, 0.5) == 60_000_000_000 && RetryDelay(attempt, 0.0) == 45_000_000_000
    ensures attempt >= 5 ==> RetryDelay(attempt, 0.5) == 300_000_000_000 && RetryDelay(attempt, 0.0) == 225_000_000_000
  {
  }

  /** Up to the fifth attempt every delay exceeds every delay of the attempt before. */
  lemma DelayGrows(attempt: int, draw: Draw, next: Draw)
    requires 1 <= attempt < 5
    ensures RetryDelay(attempt, draw) < RetryDelay(attempt + 1, next)
  {
  }

  /** The least and the greatest total of the delays after attempts 1 to n - 1. */
  function LeastSpan(n: nat): Time {
    if n <= 1 then 0 else LeastSpan(n - 1) + 3 * RetryBaseDelay(n - 1) / 4
  }

  function GreatestSpan(n: nat): Time {
    if n <= 1 then 0 else GreatestSpan(n - 1) + 5 * RetryBaseDelay(n - 1) / 4
  }

  lemma DelayWithinSpans(attempt: nat, draw: Draw)
    requires attempt > 0
    ensures LeastSpan(attempt + 1) - LeastSpan(attempt) <= RetryDelay(attempt, draw)
         <= GreatestSpan(attempt + 1) - GreatestSpan(attempt)
  {
  }

  /** Ten attempts span 1207.5 s at least and 2012.5 s of backoff at most. */
  lemma TenAttempts()
    ensures LeastSpan(10) == 1207 * SECOND + SECOND / 2
    ensures GreatestSpan(10) == 2012 * SECOND + SECOND / 2
  {
    assert LeastSpan(5) == 82 * SECOND + SECOND / 2;
    assert GreatestSpan(5) == 137 * SECOND + SECOND / 2;
    assert LeastSpan(8) == LeastSpan(5) + 3 * 225 * SECOND;
    assert GreatestSpan(8) == GreatestSpan(5) + 3 * 375 * SECOND;
  }
}
