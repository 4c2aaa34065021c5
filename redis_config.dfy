/** The reconnection back-off handed to the Redis client. */
module RedisConfig {

  /** retryStrategy: 50 ms per attempt so far, capped at two seconds. */
  function RetryStrategy(times: int): (delay: int)
    ensures delay <= 2000
    ensures times <= 40 ==> delay == 50 * times
    ensures times >= 40 ==> delay == 2000
  {
    var delay := if times * 50 <= 2000 then times * 50 else 2000;
    delay
  }

  /** More attempts never shorten the delay. */
  lemma RetryStrategyMonotone(a: int, b: int)
    requires a <= b
    ensures RetryStrategy(a) <= RetryStrategy(b)
  {
  }
}
