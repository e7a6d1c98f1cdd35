/** Capped backoff with one pending, abortable wait (`src/runtime/retryPolicy.ts`). */
module RetryPolicy {
  const MAX_BACKOFF_MS := 30_000
  const FIRST_RETRY_DELAY_MS := 500

  function Power2(n: nat): nat {
    if n == 0 then 1 else 2 * Power2(n - 1)
  }

  /** The wait before the given attempt, counted from one. */
  function DelayMs(attempt: nat, maxDelayMs: nat): nat
    requires attempt > 0
  {
    var uncapped := FIRST_RETRY_DELAY_MS * Power2(attempt - 1);
    if uncapped < maxDelayMs then uncapped else maxDelayMs
  }

  /** Waits never shorten and never exceed the ceiling; from the seventh on they sit on the bundled one. */
  lemma {:induction false} DelaysAreCappedAndNeverShorten(attempt: nat, later: nat, maxDelayMs: nat)
    requires 0 < attempt <= later
    ensures DelayMs(attempt, maxDelayMs) <= DelayMs(later, maxDelayMs) <= maxDelayMs
    ensures later >= 7 ==> DelayMs(later, MAX_BACKOFF_MS) == MAX_BACKOFF_MS
    decreases later
  {
    if attempt < later {
      DelaysAreCappedAndNeverShorten(attempt, later - 1, maxDelayMs);
    }
    if later >= 7 {
      SixtyFourFold(later - 1);
    }
  }

  lemma {:induction false} SixtyFourFold(n: nat)
    requires n >= 6
    ensures Power2(n) >= 64
  {
    if n == 6 {
      assert Power2(3) == 8;
    } else {
      SixtyFourFold(n - 1);
    }
  }

  /** The first wait is half a second and each next one twice as long, up to the ceiling. */
  lemma DelaysDouble(attempt: nat, maxDelayMs: nat)
    requires attempt > 0
    ensures DelayMs(1, maxDelayMs) == if maxDelayMs < 500 then maxDelayMs else 500
    ensures var next := 2 * DelayMs(attempt, maxDelayMs); DelayMs(attempt + 1, maxDelayMs) == if next < maxDelayMs then next else maxDelayMs
  {
    assert Power2(attempt) == 2 * Power2(attempt - 1);
  }

  /** Under the bundled ceiling the waits are these. */
  lemma BundledDelays()
    ensures DelayMs(1, MAX_BACKOFF_MS) == 500 && DelayMs(2, MAX_BACKOFF_MS) == 1_000 && DelayMs(3, MAX_BACKOFF_MS) == 2_000
    ensures DelayMs(4, MAX_BACKOFF_MS) == 4_000 && DelayMs(5, MAX_BACKOFF_MS) == 8_000 && DelayMs(6, MAX_BACKOFF_MS) == 16_000
    ensures forall attempt :: attempt >= 7 ==> DelayMs(attempt, MAX_BACKOFF_MS) == 30_000
  {
    assert Power2(0) == 1 && Power2(1) == 2 && Power2(2) == 4 && Power2(3) == 8 && Power2(4) == 16 && Power2(5) == 32;
    forall attempt | attempt >= 7 ensures DelayMs(attempt, MAX_BACKOFF_MS) == 30_000 {
      SixtyFourFold(attempt - 1);
    }
  }

  datatype Policy = Policy(attempt: nat, pending: bool, aborted: bool)

  /** A schedule while one is pending is dropped, and an aborted wait ends as soon as it begins. */
  function Scheduled(p: Policy): Policy {
    if p.pending then p else p.(attempt := p.attempt + 1, pending := !p.aborted)
  }

  /** The policy: how many delays were handed out since the last reset, and the guard over the one scheduled chain. */
  class RetrySchedule {
    const maxDelayMs: nat
    var attempt: nat
    var pending: bool
    var aborted: bool

    function Held(): Policy
      reads this
    {
      Policy(attempt, pending, aborted)
    }

    constructor (maxDelayMs: nat)
      ensures Held() == Policy(0, false, false) && this.maxDelayMs == maxDelayMs
    {
      this.maxDelayMs := maxDelayMs;
      attempt, pending, aborted := 0, false, false;
    }

    method NextDelayMs() returns (delay: nat)
      modifies `attempt
      ensures attempt == old(attempt) + 1 && delay == DelayMs(attempt, maxDelayMs)
    {
      attempt := attempt + 1;
      var uncapped, n := FIRST_RETRY_DELAY_MS, 1;
      while n < attempt
        invariant 1 <= n <= attempt && uncapped == FIRST_RETRY_DELAY_MS * Power2(n - 1)
      {
        uncapped, n := 2 * uncapped, n + 1;
      }
      delay := if uncapped < maxDelayMs then uncapped else maxDelayMs;
    }

    /** `started` says whether a wait began, of which `delay` is the length. */
    method Schedule() returns (started: bool, delay: nat)
      modifies `attempt, `pending
      ensures Held() == Scheduled(old(Held()))
      ensures started <==> !old(pending)
      ensures started ==> delay == DelayMs(attempt, maxDelayMs)
    {
      if pending {
        return false, 0;
      }
      pending := true;
      delay := NextDelayMs();
      if aborted {
        pending := false;
      }
      return true, delay;
    }

    /** The scheduled work has settled, or the shutdown cut the wait in front of it short. */
    method ChainEnds()
      modifies `pending
      ensures Held() == old(Held()).(pending := false)
    {
      pending := false;
    }

    method Reset()
      modifies `attempt
      ensures Held() == old(Held()).(attempt := 0)
    {
      attempt := 0;
    }
  }
}
