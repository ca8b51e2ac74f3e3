/**
 The circuit-breaker registry of package appcore_utils: one gobreaker
 circuit breaker per name, created on first use with fixed settings.

 The breaker's Closed/Open/Half-open state machine is library code; a
 CircuitBreaker here holds only the settings it was created with.
 */
module AppcoreUtils {

  /** An unsigned 32-bit counter, as in gobreaker.Counts. */
  type Uint32 = x: int | 0 <= x < 0x1_0000_0000

  /** One second as a time.Duration, in nanoseconds. */
  const Second: int := 1_000_000_000

  const BreakerInterval: int := 5 * Second
  const BreakerTimeout: int := 15 * Second

  /** gobreaker.Counts: the request counts of the current generation. */
  datatype Counts = Counts(
    requests: Uint32,
    totalSuccesses: Uint32,
    totalFailures: Uint32,
    consecutiveSuccesses: Uint32,
    consecutiveFailures: Uint32)

  /**
   The trip test of circuit-breaker.go: at least 3 requests and a failure
   ratio of at least 0.6, stated on integers as 5 * failures >= 3 * requests.
   */
  predicate ReadyToTrip(c: Counts): (r: bool)
    ensures r ==> c.requests >= 3 && c.totalFailures >= 2
    ensures c.requests >= 3 && c.totalFailures == c.requests ==> r
  {
    c.requests >= 3 && 5 * c.totalFailures >= 3 * c.requests
  }

  /** The integer test is the failure-ratio test: failures / requests >= 0.6 over exact reals. */
  lemma ReadyToTripIsRatio(c: Counts)
    ensures ReadyToTrip(c) <==>
              c.requests >= 3 && (c.totalFailures as real) / (c.requests as real) >= 0.6
  {
    if c.requests >= 3 {
      var f, r := c.totalFailures as real, c.requests as real;
      DivAtLeast(f, r, 0.6);
      assert (5 * c.totalFailures) as real == 5.0 * f && (3 * c.requests) as real == 3.0 * r;
    }
  }

  /** For a positive divisor, a quotient reaches t exactly when the dividend reaches t times the divisor. */
  lemma DivAtLeast(f: real, r: real, t: real)
    requires r > 0.0
    ensures f / r >= t <==> f >= t * r
  {
    var q := f / r;
    assert q * r == f;
    if q >= t {
      ScaleMonotone(t, q, r);
    } else {
      ScaleMonotone(q, t, r);
    }
  }

  /** Multiplying by a positive factor keeps the order. */
  lemma ScaleMonotone(a: real, b: real, r: real)
    requires a <= b && r > 0.0
    ensures a * r <= b * r
    ensures a < b ==> a * r < b * r
  {
    assert b * r - a * r == (b - a) * r;
  }

  /** Examples: 2 failures in 3 requests trip, 2 in 2 do not (too few requests), 3 in 5 is exactly 0.6 and trips. */
  lemma ReadyToTripExamples()
    ensures ReadyToTrip(Counts(3, 1, 2, 0, 2))
    ensures !ReadyToTrip(Counts(2, 0, 2, 0, 2))
    ensures ReadyToTrip(Counts(5, 2, 3, 0, 1))
    ensures !ReadyToTrip(Counts(5, 3, 2, 1, 0))
  {
  }

  /** gobreaker.Settings, as far as the registry fills them in. */
  datatype Settings = Settings(
    name: string,
    interval: int,
    timeout: int,
    readyToTrip: Counts -> bool)

  /** A gobreaker circuit breaker, reduced to the settings it was created with. */
  class CircuitBreaker {
    const name: string
    const interval: int
    const timeout: int
    const readyToTrip: Counts -> bool

    /** gobreaker.NewCircuitBreaker(st) */
    constructor (st: Settings)
      ensures name == st.name && interval == st.interval && timeout == st.timeout
      ensures readyToTrip == st.readyToTrip
    {
      name, interval, timeout, readyToTrip := st.name, st.interval, st.timeout, st.readyToTrip;
    }
  }

  /** cb carries the registry's settings for the given name. */
  ghost predicate HasRegistrySettings(cb: CircuitBreaker, name: string)
  {
    && cb.name == name
    && cb.interval == BreakerInterval
    && cb.timeout == BreakerTimeout
    && forall c :: cb.readyToTrip(c) == ReadyToTrip(c)
  }

  /** The registry: a name-keyed map of circuit breakers. */
  class Breaker {
    var goBreaker: map<string, CircuitBreaker>

    /** Every registered breaker carries the settings for the name it is registered under. */
    ghost predicate Valid()
      reads this
    {
      forall n | n in goBreaker :: HasRegistrySettings(goBreaker[n], n)
    }

    /** NewGoBreaker: an empty registry. */
    constructor NewGoBreaker()
      ensures goBreaker == map[] && Valid()
    {
      goBreaker := map[];
    }

    /**
     Use: get-or-create. The first Use(name) creates a breaker with the fixed
     settings and registers it under name; later calls return that same
     instance and change nothing. No other entry is touched.
     */
    method Use(name: string) returns (cb: CircuitBreaker)
      requires Valid()
      modifies this
      ensures Valid()
      ensures name in goBreaker && cb == goBreaker[name]
      ensures HasRegistrySettings(cb, name)
      ensures name in old(goBreaker) ==> goBreaker == old(goBreaker)
      ensures name !in old(goBreaker) ==> fresh(cb) && goBreaker == old(goBreaker)[name := cb]
    {
      if name !in goBreaker {
        var st := Settings(name, BreakerInterval, BreakerTimeout, ReadyToTrip);
        var created := new CircuitBreaker(st);
        goBreaker := goBreaker[name := created];
      }
      cb := goBreaker[name];
    }
  }

  /** Registered breakers are distinct instances: distinct names never share a breaker. */
  lemma DistinctBreakers(registry: Breaker, n: string, m: string)
    requires registry.Valid()
    requires n in registry.goBreaker && m in registry.goBreaker && n != m
    ensures registry.goBreaker[n] != registry.goBreaker[m]
  {
    assert HasRegistrySettings(registry.goBreaker[n], n);
    assert HasRegistrySettings(registry.goBreaker[m], m);
  }
}
