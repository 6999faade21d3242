/** The time budget of one delivery: the retry loop of the queued sink against
    `TerminalDrainTimeout`. Durations are nanoseconds in 64-bit integers, and
    every operation on them wraps around as Go's does. */
module DeliveryBudget {
  import opened Wrappers

  const SECOND := 1_000_000_000
  const MAX_ADX_ATTEMPTS := 10
  const DEFAULT_ADX_ATTEMPTS := 3
  const DEFAULT_ADX_RETRY_BACKOFF := SECOND
  const DEFAULT_ADX_FINAL_STATUS_TIMEOUT := 10 * 60 * SECOND
  const TERMINAL_DRAIN_GRACE := 30 * SECOND
  const MAX_TERMINAL_DRAIN_TIMEOUT := 2 * 60 * 60 * SECOND

  const TWO_63 := 0x8000_0000_0000_0000

  predicate IsInt64(x: int) { -TWO_63 <= x < TWO_63 }

  /** The 64-bit two's complement value of an integer. */
  function Wrap(x: int): (r: int)
    ensures IsInt64(r)
    ensures r == x <==> IsInt64(x)
  {
    (x + TWO_63) % (2 * TWO_63) - TWO_63
  }

  function Pow2(n: nat): nat {
    if n == 0 then 1 else 2 * Pow2(n - 1)
  }

  /** `TerminalDrainTimeout`; None stands for its errors. */
  function TerminalDrainTimeout(maxAttempts: int, retryBackoff: int, finalStatusTimeout: int): Option<int> {
    if maxAttempts < 0 || maxAttempts > MAX_ADX_ATTEMPTS then None
    else
      var attempts := if maxAttempts == 0 then DEFAULT_ADX_ATTEMPTS else maxAttempts;
      if retryBackoff < 0 then None
      else
        var backoff := if retryBackoff == 0 then DEFAULT_ADX_RETRY_BACKOFF else retryBackoff;
        if backoff > MAX_TERMINAL_DRAIN_TIMEOUT then None
        else if finalStatusTimeout < 0 then None
        else
          var final := if finalStatusTimeout == 0 then DEFAULT_ADX_FINAL_STATUS_TIMEOUT else finalStatusTimeout;
          if final > MAX_TERMINAL_DRAIN_TIMEOUT then None
          else
            var backoffWindows := Wrap(Pow2(attempts - 1) - 1);
            var timeout := Wrap(Wrap(Wrap(attempts * final) + Wrap(backoffWindows * backoff)) + TERMINAL_DRAIN_GRACE);
            if timeout > MAX_TERMINAL_DRAIN_TIMEOUT then None else Some(timeout)
  }

  /** The sink's own reading of its configuration. */
  datatype Config = Config(maxAttempts: int, retryBackoff: int, finalStatusTimeout: int) {
    function Attempts(): int { if maxAttempts <= 0 then DEFAULT_ADX_ATTEMPTS else maxAttempts }
    function Backoff(): int { if retryBackoff <= 0 then DEFAULT_ADX_RETRY_BACKOFF else retryBackoff }
    function FinalTimeout(): int { if finalStatusTimeout <= 0 then DEFAULT_ADX_FINAL_STATUS_TIMEOUT else finalStatusTimeout }

    /** The longest a delivery can take, over unbounded integers. */
    function Budget(): int
    {
      if Attempts() < 1 then 0 else Attempts() * FinalTimeout() + (Pow2(Attempts() - 1) - 1) * Backoff()
    }

    function Timeout(): Option<int> { TerminalDrainTimeout(maxAttempts, retryBackoff, finalStatusTimeout) }
  }

  lemma Pow2Values()
    ensures Pow2(0) == 1 && Pow2(1) == 2 && Pow2(2) == 4 && Pow2(3) == 8 && Pow2(4) == 16 && Pow2(5) == 32
    ensures Pow2(6) == 64 && Pow2(7) == 128 && Pow2(8) == 256 && Pow2(9) == 512
  {
    assert Pow2(2) == 4 && Pow2(4) == 16 && Pow2(6) == 64 && Pow2(8) == 256;
  }

  lemma Pow2Range(n: nat)
    requires n <= 9
    ensures 1 <= Pow2(n) <= 512
  {
    Pow2Values();
    if n == 0 {} else if n == 1 {} else if n == 2 {} else if n == 3 {} else if n == 4 {}
    else if n == 5 {} else if n == 6 {} else if n == 7 {} else if n == 8 {}
  }

  lemma ProductRange(a: int, b: int, m: int, n: int)
    requires 0 <= a <= m && 0 <= b <= n
    ensures 0 <= a * b <= m * n
  {
    assert a * b <= m * b && m * b <= m * n;
  }

  /** The values the timeout is computed from are in range. */
  predicate InRange(c: Config) {
    && 0 <= c.maxAttempts <= MAX_ADX_ATTEMPTS
    && 0 <= c.retryBackoff <= MAX_TERMINAL_DRAIN_TIMEOUT
    && 0 <= c.finalStatusTimeout <= MAX_TERMINAL_DRAIN_TIMEOUT
  }

  lemma WrapExact(x: int)
    requires IsInt64(x)
    ensures Wrap(x) == x
  {
  }

  lemma NoOverflow(attempts: nat, windows: nat, final: nat, backoff: nat)
    requires attempts <= 10 && windows <= 511
    requires final <= MAX_TERMINAL_DRAIN_TIMEOUT && backoff <= MAX_TERMINAL_DRAIN_TIMEOUT
    ensures Wrap(attempts * final) == attempts * final && Wrap(windows * backoff) == windows * backoff
    ensures Wrap(Wrap(attempts * final + windows * backoff) + TERMINAL_DRAIN_GRACE) ==
            attempts * final + windows * backoff + TERMINAL_DRAIN_GRACE
  {
    hide Wrap;
    ProductRange(attempts, final, 10, MAX_TERMINAL_DRAIN_TIMEOUT);
    ProductRange(windows, backoff, 511, MAX_TERMINAL_DRAIN_TIMEOUT);
    var p, q := attempts * final, windows * backoff;
    WrapExact(p);
    WrapExact(q);
    WrapExact(p + q);
    WrapExact(p + q + TERMINAL_DRAIN_GRACE);
  }

  /** The machine arithmetic of the timeout. */
  function WrappedSum(attempts: int, windows: int, final: int, backoff: int): int {
    Wrap(Wrap(Wrap(attempts * final) + Wrap(windows * backoff)) + TERMINAL_DRAIN_GRACE)
  }

  lemma TimeoutIsWrappedSum(c: Config)
    requires InRange(c)
    ensures 1 <= c.Attempts() <= 10 && 0 <= c.Backoff() <= MAX_TERMINAL_DRAIN_TIMEOUT
    ensures 0 <= c.FinalTimeout() <= MAX_TERMINAL_DRAIN_TIMEOUT
    ensures var sum := WrappedSum(c.Attempts(), Wrap(Pow2(c.Attempts() - 1) - 1), c.FinalTimeout(), c.Backoff());
            c.Timeout() == if sum > MAX_TERMINAL_DRAIN_TIMEOUT then None else Some(sum)
  {
    hide Wrap, Pow2;
  }

  lemma InRangeTimeout(c: Config)
    requires InRange(c)
    ensures c.Timeout() == if c.Budget() + TERMINAL_DRAIN_GRACE > MAX_TERMINAL_DRAIN_TIMEOUT then None
                           else Some(c.Budget() + TERMINAL_DRAIN_GRACE)
  {
    TimeoutIsWrappedSum(c);
    hide Wrap, Pow2, InRange, TerminalDrainTimeout, Config.Timeout, Config.Attempts, Config.FinalTimeout, Config.Backoff;
    Pow2Range(c.Attempts() - 1);
    WrapExact(Pow2(c.Attempts() - 1) - 1);
    NoOverflow(c.Attempts(), Pow2(c.Attempts() - 1) - 1, c.FinalTimeout(), c.Backoff());
  }

  /** No configuration overflows: the timeout is the exact worst case of the
      retry loop plus the grace, and a configuration is accepted exactly when
      its values are in range and that sum is. */
  lemma TimeoutIsBudgetPlusGrace(c: Config)
    requires IsInt64(c.maxAttempts) && IsInt64(c.retryBackoff) && IsInt64(c.finalStatusTimeout)
    ensures c.Timeout().Some? <==>
            InRange(c) && c.Budget() + TERMINAL_DRAIN_GRACE <= MAX_TERMINAL_DRAIN_TIMEOUT
    ensures c.Timeout().Some? ==> c.Timeout().value == c.Budget() + TERMINAL_DRAIN_GRACE
  {
    hide Config.Budget, Wrap, Pow2;
    if InRange(c) {
      InRangeTimeout(c);
    }
  }

  // ------------------------------------------------------------------ the retry loop

  datatype Outcome = Ingested | Transient | Fatal | Cancelled

  /** One attempt: what came of it, how long it took, and how much of the
      back-off after it passed before the context was cancelled, if it was. */
  datatype Attempt = Attempt(outcome: Outcome, duration: nat, cutAfter: Option<nat>)

  /** The time of the first `n` attempts with all their back-offs, at worst. */
  function WorstCase(c: Config, n: nat): int {
    n * c.FinalTimeout() + (Pow2(n) - 1) * c.Backoff()
  }

  /** The back-off after attempt number `attempt`, over unbounded integers. */
  function Doubled(c: Config, attempt: nat): int
    requires attempt >= 1
  {
    c.Backoff() * Pow2(attempt - 1)
  }

  /** The back-off as the machine computes it. */
  function Wait(c: Config, attempt: nat): int
    requires attempt >= 1
  {
    Wrap(c.Backoff() * Wrap(Pow2(attempt - 1)))
  }

  /** No back-off of an accepted configuration wraps around. */
  lemma WaitIsExact(c: Config, attempt: nat)
    requires IsInt64(c.maxAttempts) && IsInt64(c.retryBackoff) && IsInt64(c.finalStatusTimeout)
    requires c.Timeout().Some? && 1 <= attempt <= c.Attempts()
    ensures Wait(c, attempt) == Doubled(c, attempt) >= 0
  {
    TimeoutIsBudgetPlusGrace(c);
    TimeoutIsWrappedSum(c);
    hide Pow2, Wrap, TerminalDrainTimeout, Config.Budget, Config.Backoff, Config.Timeout, InRange;
    Pow2Range(attempt - 1);
    ProductRange(c.Backoff(), Pow2(attempt - 1), MAX_TERMINAL_DRAIN_TIMEOUT, 512);
    WrapExact(Pow2(attempt - 1));
    WrapExact(c.Backoff() * Pow2(attempt - 1));
  }

  lemma WorstCaseStep(c: Config, n: nat)
    ensures WorstCase(c, n + 1) == WorstCase(c, n) + c.FinalTimeout() + Doubled(c, n + 1)
    ensures WorstCase(c, 0) == 0
    ensures Doubled(c, n + 1) >= 0 && c.FinalTimeout() >= 0
  {
    assert Pow2(n + 1) == 2 * Pow2(n);
    assert (2 * Pow2(n) - 1) * c.Backoff() == (Pow2(n) - 1) * c.Backoff() + c.Backoff() * Pow2(n);
    assert (n + 1) * c.FinalTimeout() == n * c.FinalTimeout() + c.FinalTimeout();
  }

  lemma {:induction false} WorstCaseGrows(c: Config, n: nat, m: nat)
    requires n <= m
    ensures 0 <= WorstCase(c, n) <= WorstCase(c, m)
    decreases m
  {
    if m == 0 {
      WorstCaseStep(c, 0);
    } else {
      WorstCaseStep(c, m - 1);
      if n == m {
        WorstCaseGrows(c, 0, m - 1);
      } else {
        WorstCaseGrows(c, n, m - 1);
      }
    }
  }

  /** All attempts time out and are worth retrying. */
  ghost predicate AlwaysTimesOut(c: Config, script: seq<Attempt>) {
    forall i | 0 <= i < |script| ::
      script[i].outcome == Transient && script[i].duration == c.FinalTimeout() && script[i].cutAfter == None
  }

  /** The loop of `Deliver`, attempts and back-offs taken from a script. It never
      exceeds the budget, and the script of timeouts uses up all of it. */
  method Deliver(c: Config, script: seq<Attempt>) returns (delivered: bool, elapsed: int, submissions: int)
    requires IsInt64(c.maxAttempts) && IsInt64(c.retryBackoff) && IsInt64(c.finalStatusTimeout)
    requires c.Timeout().Some?
    requires |script| == c.Attempts()
    requires forall i | 0 <= i < |script| :: script[i].duration <= c.FinalTimeout()
    ensures 0 <= elapsed <= c.Budget() == c.Timeout().value - TERMINAL_DRAIN_GRACE
    ensures AlwaysTimesOut(c, script) ==> !delivered && elapsed == c.Budget() && submissions == c.Attempts()
    ensures 1 <= submissions <= c.Attempts()
    ensures delivered <==>
              exists k :: 0 <= k < |script| && script[k].outcome == Ingested
                && forall i | 0 <= i < k :: script[i].outcome == Transient && script[i].cutAfter == None
  {
    hide Pow2, WorstCase, TerminalDrainTimeout, Config.Budget, Config.FinalTimeout, Config.Backoff, Wait, Doubled;
    TimeoutIsBudgetPlusGrace(c);
    LastAttempt(c);
    WorstCaseStep(c, 0);
    delivered, elapsed, submissions := false, 0, 0;
    var attempt := 1;
    while attempt <= c.Attempts()
      invariant 1 <= attempt <= c.Attempts()
      invariant 0 <= elapsed <= WorstCase(c, attempt - 1)
      invariant AlwaysTimesOut(c, script) ==> elapsed == WorstCase(c, attempt - 1)
      invariant submissions == attempt - 1
      invariant forall i | 0 <= i < attempt - 1 :: script[i].outcome == Transient && script[i].cutAfter == None
    {
      var now := script[attempt - 1];
      submissions := submissions + 1;
      elapsed := elapsed + now.duration;
      WorstCaseStep(c, attempt - 1);
      WorstCaseGrows(c, attempt - 1, c.Attempts() - 1);
      if now.outcome == Ingested {
        return true, elapsed, submissions;
      }
      if now.outcome != Transient || attempt == c.Attempts() {
        return false, elapsed, submissions;
      }
      WorstCaseGrows(c, attempt, c.Attempts() - 1);
      WaitIsExact(c, attempt);
      var wait := Wait(c, attempt);
      if now.cutAfter.Some? {
        elapsed := elapsed + if now.cutAfter.value < wait then now.cutAfter.value else wait;
        return false, elapsed, submissions;
      }
      elapsed := elapsed + wait;
      attempt := attempt + 1;
    }
  }

  lemma LastAttempt(c: Config)
    requires c.Attempts() >= 1
    ensures c.Budget() == WorstCase(c, c.Attempts() - 1) + c.FinalTimeout()
  {
    var n := c.Attempts() - 1;
    assert (n + 1) * c.FinalTimeout() == n * c.FinalTimeout() + c.FinalTimeout();
  }

  // ------------------------------------------------------------------------ shutdown

  /** `shutdownCompletionWait`. */
  function ShutdownCompletionWait(timeout: int): int
    requires timeout >= 0
  {
    var half := timeout / 2;
    if TERMINAL_DRAIN_GRACE > half then half else TERMINAL_DRAIN_GRACE
  }

  /** Waiting for the workload's completion at shutdown still leaves time for a
      delivery that needs its whole budget. */
  lemma ShutdownLeavesOneDelivery(c: Config)
    requires IsInt64(c.maxAttempts) && IsInt64(c.retryBackoff) && IsInt64(c.finalStatusTimeout)
    requires c.Timeout().Some?
    ensures c.Timeout().value > 0
    ensures c.Timeout().value - ShutdownCompletionWait(c.Timeout().value) >= c.Budget() > 0
  {
    hide Pow2, WorstCase, TerminalDrainTimeout, Config.Budget, Config.Backoff, Wait, Doubled;
    TimeoutIsBudgetPlusGrace(c);
    LastAttempt(c);
    WorstCaseGrows(c, 0, c.Attempts() - 1);
  }
}
