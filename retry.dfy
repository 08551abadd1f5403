/** RetryingActionExecutor (agent.py `_safe_say`, `_safe_generate_reply`): a speech or
    reply action tried up to `retries` times, each attempt bounded by a timeout, reported
    as a boolean and never raised. Both source functions run the same loop over different
    provider calls, so they are one method here; what each attempt does is an oracle. */
module Retry {

  /** What one `asyncio.wait_for(action, timeout)` attempt came to. */
  datatype AttemptOutcome = Completed | Failed | TimedOut

  /** The default attempt count of both wrappers. */
  const DefaultRetries: int := 2

  /** Some attempt among the first `retries` completes. */
  predicate Succeeds(outcomes: seq<AttemptOutcome>, retries: int)
    requires retries <= |outcomes|
  {
    exists i :: 0 <= i < retries && outcomes[i] == Completed
  }

  /** How many attempts the retry loop makes: up to and including the first completion
      among the first `retries`, or all `retries` of them (none when `retries <= 0`). */
  function AttemptsMade(outcomes: seq<AttemptOutcome>, retries: int): (n: nat)
    requires retries <= |outcomes|
    ensures n <= if retries > 0 then retries else 0
    ensures Succeeds(outcomes, retries) <==> n >= 1 && outcomes[n - 1] == Completed
    ensures forall i :: 0 <= i < n - 1 ==> outcomes[i] != Completed
    ensures !Succeeds(outcomes, retries) ==> n == if retries > 0 then retries else 0
    decreases retries
  {
    if retries <= 0 then 0
    else if outcomes[0] == Completed then 1
    else
      var n := 1 + AttemptsMade(outcomes[1..], retries - 1);
      assert forall i :: 1 <= i < retries ==> outcomes[i] == outcomes[1..][i - 1];
      n
  }

  /** With the default two retries the provider is called once or twice: once exactly
      when the first attempt completes. */
  lemma DefaultAttemptsOneOrTwo(outcomes: seq<AttemptOutcome>)
    requires DefaultRetries <= |outcomes|
    ensures 1 <= AttemptsMade(outcomes, DefaultRetries) <= 2
    ensures AttemptsMade(outcomes, DefaultRetries) == 1 <==> outcomes[0] == Completed
  {
  }

  /** `_safe_say` / `_safe_generate_reply`. `outcomes[i]` is how attempt `i + 1` ends; an
      error and a timeout are both caught. Returns whether an attempt completed and how
      many attempts were made. */
  method SafeRun(outcomes: seq<AttemptOutcome>, retries: int) returns (ok: bool, attempts: nat)
    requires retries <= |outcomes|
    ensures ok <==> Succeeds(outcomes, retries)
    ensures attempts <= if retries > 0 then retries else 0
    ensures ok ==> attempts >= 1 && outcomes[attempts - 1] == Completed
    ensures forall i :: 0 <= i < attempts - 1 ==> outcomes[i] != Completed
    ensures !ok ==> attempts == if retries > 0 then retries else 0
    ensures attempts == AttemptsMade(outcomes, retries)
  {
    var attempt := 1;
    while attempt <= retries
      invariant 1 <= attempt
      invariant attempt - 1 <= if retries > 0 then retries else 0
      invariant forall i :: 0 <= i < attempt - 1 ==> outcomes[i] != Completed
    {
      if outcomes[attempt - 1] == Completed {
        return true, attempt;
      }
      attempt := attempt + 1;
    }
    return false, attempt - 1;
  }

  /** An action that always times out, with the default two attempts: two attempts, then
      false. */
  method AlwaysTimingOut() returns (ok: bool, attempts: nat)
    ensures !ok && attempts == 2
  {
    var outcomes := [TimedOut, TimedOut];
    assert !Succeeds(outcomes, DefaultRetries) by {
      assert forall i :: 0 <= i < 2 ==> outcomes[i] != Completed;
    }
    ok, attempts := SafeRun(outcomes, DefaultRetries);
  }

  /** An action that fails once and then completes: true after exactly two attempts. */
  method CompletesOnSecondAttempt() returns (ok: bool, attempts: nat)
    ensures ok && attempts == 2
  {
    var outcomes := [Failed, Completed];
    assert outcomes[1] == Completed;
    ok, attempts := SafeRun(outcomes, DefaultRetries);
  }
}
