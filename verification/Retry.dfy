/**
 The RPC retry loop of the import client: which failures are sent again, how
 often, and how long the client sleeps in between.
 */
module Retry {
  import opened Wrappers

  datatype Code =
    | Unavailable | DeadlineExceeded | ResourceExhausted | Cancelled
    | Internal | NotFound | AlreadyExists | InvalidArgument | FailedPrecondition | Unknown

  datatype Status = Status(code: Code, message: string)

  const U64_MAX: nat := 0xFFFF_FFFF_FFFF_FFFF
  const U32_MAX: nat := 0xFFFF_FFFF

  type U64 = n: nat | n <= U64_MAX
  type U32 = n: nat | n <= U32_MAX

  /** `jitterRatio` is the source's 64-bit float, taken as a real. */
  datatype Policy = Policy(maxAttempts: U32, baseDelayMs: U64, maxDelayMs: U64, jitterRatio: real)

  predicate FoundAt(text: string, part: string, i: nat) {
    i + |part| <= |text| && text[i..i + |part|] == part
  }

  predicate Contains(text: string, part: string) {
    exists i: nat | i <= |text| :: FoundAt(text, part, i)
  }

  predicate IsRetryable(status: Status) {
    || status.code in {Unavailable, DeadlineExceeded, ResourceExhausted, Cancelled}
    || (status.code == Internal && (Contains(status.message, "40001") || Contains(status.message, "40P01")))
  }

  function Pow2(e: nat): nat {
    if e == 0 then 1 else 2 * Pow2(e - 1)
  }

  function SaturatingMul(a: U64, b: U64): U64 {
    if a * b <= U64_MAX then a * b else U64_MAX
  }

  function SaturatingAdd(a: U64, b: U64): U64 {
    if a + b <= U64_MAX then a + b else U64_MAX
  }

  function Min(a: nat, b: nat): nat {
    if a <= b then a else b
  }

  /** `1u64 << exp`; the shift stays inside the word because `exp <= 30`. */
  function ShiftOne(exp: nat): (r: U64)
    requires exp <= 30
    ensures r == Pow2(exp)
  {
    assert Pow2(exp) <= U64_MAX by {
      assert Pow2(10) == 1024;
      assert Pow2(20) == 1024 * Pow2(10);
      assert Pow2(30) == 1024 * Pow2(20);
      Pow2Monotone(exp, 30);
    }
    if exp == 0 then 1 else 2 * ShiftOne(exp - 1)
  }

  /** The delay before jitter, in milliseconds, after the failed call `attempt`. */
  function RawDelay(policy: Policy, attempt: nat): (raw: U64)
    ensures raw <= policy.maxDelayMs
  {
    var exp := Min(if attempt == 0 then 0 else attempt - 1, 30);
    Min(SaturatingMul(policy.baseDelayMs, ShiftOne(exp)), policy.maxDelayMs)
  }

  /** The saturating arithmetic loses nothing: the delay is the mathematical one. */
  lemma RawDelayIsExact(policy: Policy, attempt: nat)
    requires attempt >= 1
    ensures RawDelay(policy, attempt)
         == Min(policy.baseDelayMs * Pow2(Min(attempt - 1, 30)), policy.maxDelayMs)
  {
  }

  lemma {:induction false} Pow2Monotone(a: nat, b: nat)
    requires a <= b
    ensures 1 <= Pow2(a) <= Pow2(b)
    decreases b
  {
    if a < b {
      Pow2Monotone(a, b - 1);
    } else if a > 0 {
      Pow2Monotone(a - 1, a - 1);
    }
  }

  lemma RawDelayMonotone(policy: Policy, attempt: nat, later: nat)
    requires 1 <= attempt <= later
    ensures RawDelay(policy, attempt) <= RawDelay(policy, later) <= policy.maxDelayMs
  {
    Pow2Monotone(Min(attempt - 1, 30), Min(later - 1, 30));
    RawDelayIsExact(policy, attempt);
    RawDelayIsExact(policy, later);
    ScaledMonotone(policy.baseDelayMs, Pow2(Min(attempt - 1, 30)), Pow2(Min(later - 1, 30)));
  }

  lemma ScaledMonotone(scale: nat, a: nat, b: nat)
    requires a <= b
    ensures scale * a <= scale * b
  {
  }

  /**
   The delay actually slept. `nanos` is the clock reading the source draws its
   jitter from.
   */
  function Backoff(policy: Policy, attempt: nat, nanos: nat): (delay: U64)
    ensures RawDelay(policy, attempt) <= delay
    ensures delay <= 2 * policy.maxDelayMs
    ensures policy.jitterRatio <= 0.0 ==> delay == RawDelay(policy, attempt)
  {
    var raw := RawDelay(policy, attempt);
    if policy.jitterRatio <= 0.0 then
      raw
    else
      var clamp := if policy.jitterRatio > 1.0 then 1.0 else policy.jitterRatio;
      SaturatingAdd(raw, Jitter(raw, clamp, nanos))
  }

  /** The share of the delay, at most all of it, that the ratio and the clock add, before rounding. */
  ghost function Spread(policy: Policy, attempt: nat, nanos: nat): real {
    if policy.jitterRatio <= 0.0 then 0.0
    else
      var share := if policy.jitterRatio >= 1.0 then 1.0 else policy.jitterRatio;
      RawDelay(policy, attempt) as real * share * ((nanos % 1000) as real / 1000.0)
  }

  lemma BackoffSpreads(policy: Policy, attempt: nat, nanos: nat)
    requires 2 * policy.maxDelayMs <= U64_MAX
    ensures var added := (Backoff(policy, attempt, nanos) - RawDelay(policy, attempt)) as real;
      added <= Spread(policy, attempt, nanos) < added + 1.0
  {
    hide RawDelay;
    var raw := RawDelay(policy, attempt);
    if policy.jitterRatio > 0.0 {
      var clamp := if policy.jitterRatio > 1.0 then 1.0 else policy.jitterRatio;
      hide Jitter;
      assert Backoff(policy, attempt, nanos) == raw + Jitter(raw, clamp, nanos);
    }
  }

  function Jitter(raw: U64, clamp: real, nanos: nat): (jitter: U64)
    requires 0.0 <= clamp <= 1.0
    ensures jitter <= raw
    ensures jitter as real <= raw as real * clamp * ((nanos % 1000) as real / 1000.0) < jitter as real + 1.0
  {
    var frac := (nanos % 1000) as real / 1000.0;
    assert 0.0 <= frac <= 1.0;
    var maxJitter := Part(raw as real, clamp);
    Truncate(Part(maxJitter, frac), raw)
  }

  function Part(whole: real, share: real): (part: real)
    requires 0.0 <= whole && 0.0 <= share <= 1.0
    ensures part == whole * share && 0.0 <= part <= whole
  {
    PartOf(whole, share);
    whole * share
  }

  function Truncate(x: real, bound: nat): (n: nat)
    requires 0.0 <= x <= bound as real
    ensures n <= bound && n as real <= x < n as real + 1.0
  {
    x.Floor
  }

  lemma PartOf(whole: real, share: real)
    requires 0.0 <= whole && 0.0 <= share <= 1.0
    ensures 0.0 <= whole * share <= whole
  {
    assert whole - whole * share == whole * (1.0 - share);
  }

  /** `op(k)` is the answer the operation gives to its k-th call, from 0. */
  type Operation<T> = nat -> Result<T, Status>

  /** The failed call `calls - 1` is the one the loop gives up on, or it succeeded. */
  predicate Settles<T>(policy: Policy, op: Operation<T>, calls: nat)
    requires calls >= 1
  {
    || op(calls - 1).Ok?
    || calls >= policy.maxAttempts
    || !IsRetryable(op(calls - 1).error)
  }

  /** How many calls are made in all, `calls` of them already. */
  function CallsMade<T>(policy: Policy, op: Operation<T>, calls: nat): (total: nat)
    requires calls >= 1
    ensures calls <= total
    ensures total <= calls || total <= policy.maxAttempts
    ensures Settles(policy, op, total)
    ensures forall k :: calls <= k < total ==> !Settles(policy, op, k)
    decreases policy.maxAttempts - calls
  {
    if Settles(policy, op, calls) then calls else CallsMade(policy, op, calls + 1)
  }

  /** The sleeps after the first `retries` calls. */
  function Slept(policy: Policy, nanos: nat -> nat, retries: nat): nat {
    if retries == 0 then 0
    else Slept(policy, nanos, retries - 1) + Backoff(policy, retries, nanos(retries))
  }

  lemma {:induction false} SleepsAtMost(policy: Policy, nanos: nat -> nat, retries: nat)
    ensures Slept(policy, nanos, retries) <= (2 * policy.maxDelayMs) * retries
  {
    if retries > 0 {
      hide RawDelay, Backoff;
      SleepsAtMost(policy, nanos, retries - 1);
      OnceMore(2 * policy.maxDelayMs, retries - 1);
    }
  }

  lemma OnceMore(cap: nat, n: nat)
    ensures cap * (n + 1) == cap * n + cap
  {
  }

  /** The plain delays double from the base to the cap. */
  ghost function Doubling(policy: Policy, retries: nat): nat {
    if retries == 0 then 0
    else Doubling(policy, retries - 1) + Min(policy.baseDelayMs * Pow2(Min(retries - 1, 30)), policy.maxDelayMs)
  }

  /** The client never retries sooner than that, and without jitter exactly then. */
  lemma {:induction false} SleepsDouble(policy: Policy, nanos: nat -> nat, retries: nat)
    ensures Slept(policy, nanos, retries) >= Doubling(policy, retries)
    ensures policy.jitterRatio <= 0.0 ==> Slept(policy, nanos, retries) == Doubling(policy, retries)
  {
    if retries > 0 {
      hide RawDelay, Backoff;
      SleepsDouble(policy, nanos, retries - 1);
      RawDelayIsExact(policy, retries);
    }
  }

  /**
   The retry loop. `nanos` is the clock at each sleep. It makes at most
   max(1, maxAttempts) calls, sleeps only after retryable failures, answers with
   the last call's answer, and sleeps at most twice the cap per retry.
   */
  method RetryStatus<T>(policy: Policy, op: Operation<T>, nanos: nat -> nat)
    returns (r: Result<T, Status>, calls: U32, slept: nat)
    ensures calls == CallsMade(policy, op, 1) && r == op(calls - 1)
    ensures 1 <= calls && (calls == 1 || calls <= policy.maxAttempts)
    ensures forall k :: 0 <= k < calls - 1 ==> op(k).Err? && IsRetryable(op(k).error)
    ensures slept == Slept(policy, nanos, calls - 1) <= 2 * policy.maxDelayMs * (calls - 1)
  {
    hide Backoff, IsRetryable;
    var attempt: U32 := 1;
    slept := 0;
    while true
      invariant 1 <= attempt && (attempt == 1 || attempt <= policy.maxAttempts)
      invariant CallsMade(policy, op, attempt) == CallsMade(policy, op, 1)
      invariant forall k :: 0 <= k < attempt - 1 ==> op(k).Err? && IsRetryable(op(k).error)
      invariant slept == Slept(policy, nanos, attempt - 1)
      decreases policy.maxAttempts - attempt
    {
      var answer := op(attempt - 1);
      SleepsAtMost(policy, nanos, attempt - 1);
      match answer {
        case Ok(_) => return answer, attempt, slept;
        case Err(status) =>
          if attempt >= policy.maxAttempts || !IsRetryable(status) {
            return answer, attempt, slept;
          }
          slept := slept + Backoff(policy, attempt, nanos(attempt));
          attempt := attempt + 1;
      }
    }
  }

  /** A failure worth sending again: the service is away, slow, busy or gave up, or a transaction lost a race. */
  ghost predicate IsTransient(status: Status) {
    match status.code
    case Unavailable => true
    case DeadlineExceeded => true
    case ResourceExhausted => true
    case Cancelled => true
    case Internal => exists i: nat :: FoundAt(status.message, "40001", i) || FoundAt(status.message, "40P01", i)
    case _ => false
  }

  /** A call that always fails is made until the attempts are used up, or once, if the failure is of no other kind. */
  lemma AlwaysFailing<T>(policy: Policy, op: Operation<T>, status: Status, calls: nat)
    requires 1 <= calls && (calls == 1 || calls <= policy.maxAttempts)
    requires forall k: nat :: op(k) == Err(status)
    ensures CallsMade(policy, op, calls)
         == if IsTransient(status) && policy.maxAttempts > calls then policy.maxAttempts else calls
    decreases policy.maxAttempts - calls
  {
    TransientIsRetryable(status);
    if !Settles(policy, op, calls) {
      AlwaysFailing(policy, op, status, calls + 1);
    }
  }

  lemma TransientIsRetryable(status: Status)
    ensures IsRetryable(status) <==> IsTransient(status)
  {
    hide FoundAt;
    if status.code == Internal && IsTransient(status) {
      var i: nat :| FoundAt(status.message, "40001", i) || FoundAt(status.message, "40P01", i);
      FoundWithin(status.message, "40001", i);
      FoundWithin(status.message, "40P01", i);
    }
  }

  lemma FoundWithin(text: string, part: string, i: nat)
    ensures FoundAt(text, part, i) ==> i <= |text|
  {
  }
}
