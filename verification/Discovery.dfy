/** The discovery retry loop (discovery_retry.go). */
module Discovery {
  import opened Clock

  const RETRY_BASE_DELAY: Duration := 500_000_000
  const RETRY_MAX_DELAY: Duration := 8 * SECOND
  const PER_ATTEMPT_TIMEOUT: Duration := 15 * SECOND

  /** The longest budget under which the shift below cannot overflow: 255.5 s. */
  const SAFE_BUDGET: Duration := 255_500_000_000

  function Pow2(n: nat): (p: nat)
    ensures p >= 1
  {
    if n == 0 then 1 else 2 * Pow2(n - 1)
  }

  /** The int64 value of an integer: two's complement wrap-around. */
  function Wrap64(n: int): int {
    (n + 0x8000_0000_0000_0000) % 0x1_0000_0000_0000_0000 - 0x8000_0000_0000_0000
  }

  /** `discoveryRetryBaseDelay << shift`. */
  function ShiftedDelay(shift: nat): Duration {
    Wrap64(RETRY_BASE_DELAY * Pow2(shift))
  }

  /** The backoff before jitter, after `failed + 1` attempts have failed. */
  function BaseDelay(failed: nat): Duration {
    var base := ShiftedDelay(failed);
    if base > RETRY_MAX_DELAY then RETRY_MAX_DELAY else base
  }

  predicate Overflows(shift: nat) {
    ShiftedDelay(shift) != RETRY_BASE_DELAY * Pow2(shift)
  }

  datatype Answer = Found | Permanent | Transient

  /**
   What the environment does in one round: how long the attempt takes, what it says, the jitter drawn
   as a fraction of half the base delay, how late the sleep ends, and whether the caller gives up.
   */
  datatype Round = Round(took: nat, answer: Answer, jitter: nat, late: nat, cancelled: bool)

  datatype Outcome = Provider | LastError | Exhausted | Cancelled

  function Min(a: Duration, b: Duration): Duration {
    if a < b then a else b
  }

  /** rand.Int63n(base / 2) for a positive base, which is never a single nanosecond. */
  function Jitter(base: Duration, drawn: nat): Duration {
    if base > 1 then drawn % (base / 2) else 0
  }

  function Backoff(failed: nat, drawn: nat): Duration {
    BaseDelay(failed) + Jitter(BaseDelay(failed), drawn)
  }

  /** The least time `n` backoffs take: 0.5, 1, 2 and 4 s, then 8 s each. */
  function LeastElapsed(n: nat): Duration {
    if n == 0 then 0 else LeastElapsed(n - 1) + Min(RETRY_BASE_DELAY * Pow2(n - 1), RETRY_MAX_DELAY)
  }

  lemma SmallPowers()
    ensures Pow2(4) == 16 && Pow2(5) == 32
    ensures Pow2(34) == 0x4_0000_0000 && Pow2(35) == 0x8_0000_0000
  {
    assert Pow2(8) == 256 && Pow2(16) == 65536 by {
      assert Pow2(4) == 16;
      assert Pow2(8) == 16 * Pow2(4) by { Pow2Adds(4, 4); }
      assert Pow2(16) == 256 * Pow2(8) by { Pow2Adds(8, 8); }
    }
    Pow2Adds(16, 16);
    Pow2Adds(32, 2);
    Pow2Adds(32, 3);
  }

  lemma {:induction false} Pow2Adds(a: nat, b: nat)
    ensures Pow2(a + b) == Pow2(a) * Pow2(b)
  {
    if a > 0 {
      Pow2Adds(a - 1, b);
    }
  }

  lemma {:induction false} Pow2Monotone(a: nat, b: nat)
    requires a <= b
    ensures Pow2(a) <= Pow2(b)
    decreases b - a
  {
    if a < b {
      Pow2Monotone(a, b - 1);
    }
  }

  /** int64 holds the delay up to shift 34 and no further. */
  lemma OverflowStartsAt35(shift: nat)
    ensures shift <= 34 ==> !Overflows(shift)
    ensures Overflows(35)
  {
    SmallPowers();
    if shift <= 34 {
      Pow2Monotone(shift, 34);
    }
  }

  /** Until the overflow every base delay lies in [0.5 s, 8 s] and every backoff in [0.5 s, 12 s). */
  lemma {:induction false} BackoffRange(failed: nat, drawn: nat)
    requires failed <= 34
    ensures BaseDelay(failed) == Min(RETRY_BASE_DELAY * Pow2(failed), RETRY_MAX_DELAY)
    ensures RETRY_BASE_DELAY <= BaseDelay(failed) <= RETRY_MAX_DELAY
    ensures RETRY_BASE_DELAY <= Backoff(failed, drawn) < 12 * SECOND
  {
    OverflowStartsAt35(failed);
  }

  /** Every jitter up to half the base delay can be drawn. */
  lemma JitterReaches(base: Duration, drawn: nat)
    requires drawn < base / 2
    ensures Jitter(base, drawn) == drawn
  {
  }

  /** The backoffs really spread: every one from the base delay to one and a half of it can come up. */
  lemma EveryBackoffIsPossible(failed: nat, drawn: nat)
    requires drawn < BaseDelay(failed) / 2
    ensures Backoff(failed, drawn) == BaseDelay(failed) + drawn
  {
    JitterReaches(BaseDelay(failed), drawn);
  }

  lemma {:induction false} LeastElapsedFromFour(n: nat)
    requires n >= 4
    ensures LeastElapsed(n) == 7_500_000_000 + 8 * SECOND * (n - 4)
  {
    SmallPowers();
    if n == 4 {
      assert LeastElapsed(4) == LeastElapsed(3) + 4 * SECOND;
      assert LeastElapsed(3) == LeastElapsed(2) + 2 * SECOND;
    } else {
      LeastElapsedFromFour(n - 1);
      Pow2Monotone(4, n - 1);
    }
  }

  /** Shift 35 needs 255.5 s of backoffs before it. */
  lemma {:induction false} ShiftNeedsTime(n: nat)
    ensures LeastElapsed(n) < SAFE_BUDGET <==> n <= 34
    ensures n <= 35 ==> LeastElapsed(n) <= SAFE_BUDGET
    decreases if n < 4 then 4 - n else 0
  {
    if n >= 4 {
      LeastElapsedFromFour(n);
    } else {
      ShiftNeedsTime(n + 1);
    }
  }

  // ----- the loop -----

  /** How a call ended, after how many attempts, and when the last attempt ended. */
  datatype End = End(outcome: Outcome, attempts: nat, lastEnd: Duration)

  /**
   The rest of the loop: `attempts` made, `elapsed` since the start. When the environment runs out the caller
   has given up.
   */
  function Loop(budget: Duration, environment: seq<Round>, attempts: nat, elapsed: Duration, lastEnd: Duration): End
    requires attempts <= |environment|
    decreases |environment| - attempts
  {
    var remaining := budget - elapsed;
    if remaining <= 0 then End(Exhausted, attempts, lastEnd)
    else if attempts == |environment| then End(Cancelled, attempts, lastEnd)
    else
      var round := environment[attempts];
      var timeout := Min(PER_ATTEMPT_TIMEOUT, remaining);
      var ended := elapsed + Min(round.took, timeout);
      var backoff := Backoff(attempts, round.jitter);
      if round.took <= timeout && round.answer.Found? then End(Provider, attempts + 1, ended)
      else if round.took <= timeout && round.answer.Permanent? then End(LastError, attempts + 1, ended)
      else if backoff > budget - ended then End(LastError, attempts + 1, ended)
      else if round.cancelled then End(Cancelled, attempts + 1, ended)
      else
        var slept := (if backoff > 0 then backoff else 0) + round.late;
        Loop(budget, environment, attempts + 1, ended + slept, ended)
  }

  /** Without a positive budget there is one plain attempt, under no timeout of the loop's own. */
  function Discover(budget: Duration, environment: seq<Round>): End {
    if budget > 0 then Loop(budget, environment, 0, 0, 0)
    else if environment == [] then End(Cancelled, 0, 0)
    else End(if environment[0].answer.Found? then Provider else LastError, 1, environment[0].took)
  }

  /** discoverWithRetry. An attempt cut off by its own timeout fails transiently. */
  method DiscoverWithRetry(budget: Duration, environment: seq<Round>)
    returns (outcome: Outcome, attempts: nat, lastEnd: Duration)
    ensures End(outcome, attempts, lastEnd) == Discover(budget, environment)
  {
    if budget <= 0 {
      if environment == [] {
        return Cancelled, 0, 0;
      }
      return (if environment[0].answer.Found? then Provider else LastError), 1, environment[0].took;
    }
    var elapsed: Duration := 0;
    attempts, lastEnd := 0, 0;
    while true
      invariant attempts <= |environment|
      invariant Loop(budget, environment, attempts, elapsed, lastEnd) == Loop(budget, environment, 0, 0, 0)
      decreases |environment| - attempts
    {
      var remaining := budget - elapsed;
      if remaining <= 0 {
        return Exhausted, attempts, lastEnd;
      }
      if attempts == |environment| {
        return Cancelled, attempts, lastEnd;
      }
      var perAttempt := PER_ATTEMPT_TIMEOUT;
      if remaining < perAttempt {
        perAttempt := remaining;
      }
      var round := environment[attempts];
      var answer := if round.took > perAttempt then Transient else round.answer;
      elapsed := elapsed + Min(round.took, perAttempt);
      lastEnd := elapsed;
      attempts := attempts + 1;
      if answer.Found? {
        return Provider, attempts, lastEnd;
      }
      if answer.Permanent? {
        return LastError, attempts, lastEnd;
      }
      var base := ShiftedDelay(attempts - 1);
      if base > RETRY_MAX_DELAY {
        base := RETRY_MAX_DELAY;
      }
      var backoff := base + Jitter(base, round.jitter);
      if backoff > budget - elapsed {
        return LastError, attempts, lastEnd;
      }
      if round.cancelled {
        return Cancelled, attempts, lastEnd;
      }
      elapsed := elapsed + (if backoff > 0 then backoff else 0) + round.late;
    }
  }

  /** No attempt reaches past the deadline, whatever the budget and the environment. */
  lemma {:induction false} NoAttemptPassesTheDeadline(budget: Duration, environment: seq<Round>, attempts: nat,
                                                      elapsed: Duration, lastEnd: Duration)
    requires attempts <= |environment| && 0 <= lastEnd <= elapsed && lastEnd <= budget
    ensures 0 <= Loop(budget, environment, attempts, elapsed, lastEnd).lastEnd <= budget
    decreases |environment| - attempts
  {
    if budget > elapsed && attempts < |environment| {
      var round := environment[attempts];
      var ended := elapsed + Min(round.took, Min(PER_ATTEMPT_TIMEOUT, budget - elapsed));
      var backoff := Backoff(attempts, round.jitter);
      var slept := (if backoff > 0 then backoff else 0) + round.late;
      NoAttemptPassesTheDeadline(budget, environment, attempts + 1, ended + slept, ended);
    }
  }

  // ----- how a call ends -----

  /** When attempt `n` starts, if every attempt before it failed and was slept off. */
  function StartOf(budget: Duration, environment: seq<Round>, n: nat): Duration
    requires n <= |environment|
  {
    if n == 0 then 0
    else
      var round, start := environment[n - 1], StartOf(budget, environment, n - 1);
      var backoff := Backoff(n - 1, round.jitter);
      start + Min(round.took, Allowed(budget, start)) + (if backoff > 0 then backoff else 0) + round.late
  }

  /** What an attempt may take: fifteen seconds, or what is left of the budget. */
  function Allowed(budget: Duration, start: Duration): Duration {
    Min(15 * SECOND, budget - start)
  }

  /** Attempt `n` answers within its time. */
  predicate Answers(budget: Duration, environment: seq<Round>, n: nat, answer: Answer)
    requires n < |environment|
  {
    environment[n].answer == answer && environment[n].took <= Allowed(budget, StartOf(budget, environment, n))
  }

  /** The backoff after attempt `n` would pass the deadline. */
  predicate NoTimeToWait(budget: Duration, environment: seq<Round>, n: nat)
    requires n < |environment|
  {
    var start := StartOf(budget, environment, n);
    Backoff(n, environment[n].jitter) > budget - start - Min(environment[n].took, Allowed(budget, start))
  }

  /** An attempt after which the loop goes on. */
  predicate GoesOn(budget: Duration, environment: seq<Round>, n: nat)
    requires n < |environment|
  {
    && StartOf(budget, environment, n) < budget
    && !Answers(budget, environment, n, Found) && !Answers(budget, environment, n, Permanent)
    && !NoTimeToWait(budget, environment, n) && !environment[n].cancelled
  }

  /** The call ended like this after this many attempts, the last of which ended then. */
  ghost predicate EndsWith(budget: Duration, environment: seq<Round>, end: End, from: nat, lastEnd: Duration) {
    var n := end.attempts;
    && from <= n <= |environment|
    && (forall i :: from <= i < n - 1 ==> GoesOn(budget, environment, i))
    && (match end.outcome
        case Exhausted => StartOf(budget, environment, n) >= budget && (n > from ==> GoesOn(budget, environment, n - 1))
        case Provider => n > from && Answers(budget, environment, n - 1, Found)
        case LastError =>
          && n > from
          && (Answers(budget, environment, n - 1, Permanent)
              || (!Answers(budget, environment, n - 1, Found) && NoTimeToWait(budget, environment, n - 1)))
        case Cancelled =>
          || (n == |environment| && (n > from ==> GoesOn(budget, environment, n - 1))
              && StartOf(budget, environment, n) < budget)
          || (n > from && environment[n - 1].cancelled && !NoTimeToWait(budget, environment, n - 1)
              && !Answers(budget, environment, n - 1, Found) && !Answers(budget, environment, n - 1, Permanent)))
    && (if n == from then end.lastEnd == lastEnd
        else
          var start := StartOf(budget, environment, n - 1);
          start < budget && end.lastEnd == start + Min(environment[n - 1].took, Allowed(budget, start)))
  }

  lemma LoopGoesOn(budget: Duration, environment: seq<Round>, n: nat, lastEnd: Duration)
    requires n < |environment| && GoesOn(budget, environment, n)
    ensures var start := StartOf(budget, environment, n);
            Loop(budget, environment, n, start, lastEnd) ==
            Loop(budget, environment, n + 1, StartOf(budget, environment, n + 1),
                 start + Min(environment[n].took, Allowed(budget, start)))
  {
  }

  lemma LoopStops(budget: Duration, environment: seq<Round>, n: nat, lastEnd: Duration)
    requires n <= |environment| && (n < |environment| ==> !GoesOn(budget, environment, n))
    ensures EndsWith(budget, environment, Loop(budget, environment, n, StartOf(budget, environment, n), lastEnd), n,
            lastEnd)
  {
  }

  lemma EndsFromEarlier(budget: Duration, environment: seq<Round>, end: End, n: nat, lastEnd: Duration)
    requires n < |environment| && GoesOn(budget, environment, n)
    requires var start := StartOf(budget, environment, n);
             EndsWith(budget, environment, end, n + 1, start + Min(environment[n].took, Allowed(budget, start)))
    ensures EndsWith(budget, environment, end, n, lastEnd)
  {
  }

  lemma {:induction false} LoopEndsWith(budget: Duration, environment: seq<Round>, n: nat, lastEnd: Duration)
    requires n <= |environment|
    ensures EndsWith(budget, environment, Loop(budget, environment, n, StartOf(budget, environment, n), lastEnd), n,
            lastEnd)
    decreases |environment| - n
  {
    if n < |environment| && GoesOn(budget, environment, n) {
      var start := StartOf(budget, environment, n);
      LoopEndsWith(budget, environment, n + 1, start + Min(environment[n].took, Allowed(budget, start)));
      LoopGoesOn(budget, environment, n, lastEnd);
      EndsFromEarlier(budget, environment, Loop(budget, environment, n, start, lastEnd), n, lastEnd);
    } else {
      LoopStops(budget, environment, n, lastEnd);
    }
  }

  /**
   A healthy provider is found and nothing else is: discovery returns a provider exactly when its last attempt answered
   with one within its time (fifteen seconds, or what was left of the budget), and gives up with an error
   exactly on a permanent answer or when there is no time left to wait; every attempt before the last failed
   in a way that is worth repeating. Without a budget the one attempt decides.
   */
  lemma DiscoveryEndsExactly(budget: Duration, environment: seq<Round>)
    ensures var end := Discover(budget, environment);
            if budget > 0 then EndsWith(budget, environment, end, 0, 0)
            else if environment == [] then end.outcome.Cancelled?
            else end.attempts == 1 && end.outcome == (if environment[0].answer.Found? then Provider else LastError)
  {
    if budget > 0 {
      LoopEndsWith(budget, environment, 0, 0);
    }
  }

  predicate NobodyCancels(environment: seq<Round>) {
    forall i :: 0 <= i < |environment| ==> !environment[i].cancelled
  }

  /**
   Within the safe budget the elapsed time stays ahead of the backoffs, so the loop stops by itself after at
   most 35 attempts.
   */
  lemma {:induction false} SafeLoop(budget: Duration, environment: seq<Round>, attempts: nat, elapsed: Duration,
                                    lastEnd: Duration)
    requires budget <= SAFE_BUDGET && attempts <= |environment|
    requires elapsed >= LeastElapsed(attempts) && attempts <= 35
    ensures var end := Loop(budget, environment, attempts, elapsed, lastEnd);
            && end.attempts <= 35
            && (|environment| > 35 && NobodyCancels(environment) ==> !end.outcome.Cancelled?)
    decreases |environment| - attempts
  {
    ShiftNeedsTime(attempts);
    if budget > elapsed && attempts < |environment| {
      var round := environment[attempts];
      var ended := elapsed + Min(round.took, Min(PER_ATTEMPT_TIMEOUT, budget - elapsed));
      BackoffRange(attempts, round.jitter);
      SafeLoop(budget, environment, attempts + 1, ended + Backoff(attempts, round.jitter) + round.late, ended);
    }
  }

  const IDLE: Round := Round(0, Transient, 0, 0, false)

  /** An instant failure whose backoff still fits costs exactly that backoff. */
  lemma IdleStep(budget: Duration, environment: seq<Round>, attempts: nat, elapsed: Duration, lastEnd: Duration,
                 backoff: Duration)
    requires attempts < |environment| && environment[attempts] == IDLE
    requires backoff == Backoff(attempts, 0) && 0 < backoff <= budget - elapsed
    ensures Loop(budget, environment, attempts, elapsed, lastEnd)
            == Loop(budget, environment, attempts + 1, elapsed + backoff, elapsed)
  {
  }

  lemma LastIdleStep(budget: Duration, environment: seq<Round>, elapsed: Duration, lastEnd: Duration)
    requires |environment| == 36 && elapsed < budget
    requires environment[35] == IDLE
    ensures Loop(budget, environment, 35, elapsed, lastEnd).attempts == 36
  {
  }

  lemma IdleBackoff(attempts: nat, drawn: nat)
    requires attempts < 35 && drawn == 0
    ensures LeastElapsed(attempts) + Backoff(attempts, drawn) == LeastElapsed(attempts + 1) <= SAFE_BUDGET
    ensures Backoff(attempts, drawn) > 0
  {
    BackoffRange(attempts, drawn);
    ShiftNeedsTime(attempts + 1);
  }

  /** An environment of instant failures without jitter takes the least backoffs and no more. */
  lemma {:induction false} IdleLoop(budget: Duration, environment: seq<Round>, attempts: nat, lastEnd: Duration)
    requires budget > SAFE_BUDGET && attempts <= 35
    requires |environment| == 36 && forall i :: 0 <= i < 36 ==> environment[i] == IDLE
    ensures Loop(budget, environment, attempts, LeastElapsed(attempts), lastEnd).attempts == 36
    decreases 36 - attempts
  {
    if attempts < 35 {
      IdleBackoff(attempts, 0);
      IdleStep(budget, environment, attempts, LeastElapsed(attempts), lastEnd, Backoff(attempts, 0));
      IdleLoop(budget, environment, attempts + 1, LeastElapsed(attempts));
    } else {
      ShiftNeedsTime(attempts);
      LastIdleStep(budget, environment, LeastElapsed(attempts), lastEnd);
    }
  }

  /**
   The exact budget. In every environment discovery makes at most 35 attempts, so it never evaluates an
   overflowing shift, if and only if the budget is at most 255.5 s; the 36th attempt's backoff overflows.
   */
  lemma SafeExactlyUpTo255Seconds(budget: Duration)
    ensures (forall environment :: Discover(budget, environment).attempts <= 35) <==> budget <= SAFE_BUDGET
    ensures forall shift: nat :: shift < 35 ==> !Overflows(shift)
    ensures Overflows(35)
  {
    if budget <= SAFE_BUDGET {
      forall environment ensures Discover(budget, environment).attempts <= 35 {
        SafeLoop(budget, environment, 0, 0, 0);
      }
    } else {
      var environment := seq(36, _ => IDLE);
      IdleLoop(budget, environment, 0, 0);
      assert Discover(budget, environment).attempts == 36;
    }
    forall shift: nat | shift < 35 ensures !Overflows(shift) {
      OverflowStartsAt35(shift);
    }
    OverflowStartsAt35(35);
  }
}
