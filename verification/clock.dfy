/** Monotonic time as plain milliseconds. `Instant::now()` becomes an explicit `now` argument. */
module Clock {

  /**
   * `later.duration_since(earlier)` / `earlier.elapsed()` in milliseconds:
   * Rust saturates at zero when `earlier` lies in the future.
   */
  function Elapsed(now: nat, since: nat): (r: nat)
    ensures since <= now ==> since + r == now
    ensures now < since ==> r == 0
  {
    if now >= since then now - since else 0
  }

  /** Comparing an elapsed time with a bound is comparing `now` with a deadline. */
  lemma ElapsedExceeds(now: nat, since: nat, bound: nat)
    ensures Elapsed(now, since) > bound <==> now > since + bound
  {
  }
}
