/** SilenceWatchdog (agent.py `_silence_watchdog`): every five seconds, compare the time
    since the last conversational progress with the threshold; on the first poll where it
    has reached the threshold, request one transfer and stop.

    The watchdog runs here on its own, over a finite horizon of polls: `observed[k]` is
    the value of `activity["last_activity"]` that poll `k` reads, at time
    `PollTime(start, k)`. A watchdog that has not fired by the last poll is still waiting. */
module Watchdog {
  import opened Common
  import opened Text
  import opened Transfer

  /** Seconds slept before each check. */
  const PollInterval: nat := 5

  /** `SILENCE_TRANSFER_SECONDS` when unset. */
  const DefaultSilenceSeconds: int := 60

  /** Time of poll `k` (counting from 0) for a watchdog started at `start`. */
  function PollTime(start: nat, k: nat): nat
  {
    start + PollInterval * (k + 1)
  }

  /** The reason text `silence>{threshold}s`. */
  function SilenceReason(threshold: int): string
  {
    "silence>" + IntToDecimal(threshold) + "s"
  }

  /** The reason names the threshold: between `silence>` and the final `s` stands the
      decimal text of the threshold (with its sign when negative), which reads back as the
      threshold. */
  lemma SilenceReasonCarriesThreshold(threshold: int)
    ensures var r := SilenceReason(threshold);
      && |r| > 9 && r[..8] == "silence>" && r[|r| - 1] == 's'
      && IsIntText(r[8..|r| - 1]) && IntValue(r[8..|r| - 1]) == threshold
  {
    var r := SilenceReason(threshold);
    assert r[8..|r| - 1] == IntToDecimal(threshold);
    IntRoundTrip(threshold);
  }

  /** Poll `k` sees at least `threshold` seconds without progress. */
  predicate SilentAt(start: nat, threshold: int, observed: seq<nat>, k: nat)
    requires k < |observed|
  {
    PollTime(start, k) - observed[k] >= threshold
  }

  /** `_silence_watchdog`. `threshold` is the parsed `SILENCE_TRANSFER_SECONDS` (None when
      `int()` raised, which ends the task before its first poll); the remaining parameters
      are what `_transfer_now` sees, with `apiSucceeds` the oracle for its API call.
      Returns the poll at which it fired and the transfer it made. */
  method SilenceWatchdog(
    start: nat, threshold: Option<int>, observed: seq<nat>,
    env: Env, sipDomain: string, hint: Option<string>, participants: seq<string>, apiSucceeds: bool)
    returns (firedAt: Option<nat>, attempt: Option<TransferAttempt>)
    ensures threshold.None? ==> firedAt.None?
    ensures firedAt.Some? <==> attempt.Some?
    ensures firedAt.Some? ==>
      threshold.Some? && firedAt.value < |observed| && SilentAt(start, threshold.value, observed, firedAt.value)
    ensures threshold.Some? ==>
      forall j :: 0 <= j < |observed| && (firedAt.None? || j < firedAt.value) ==>
        !SilentAt(start, threshold.value, observed, j)
    ensures attempt.Some? ==>
      && attempt.value.reason == SilenceReason(threshold.value)
      && attempt.value.request == TransferPlan(env, sipDomain, hint, participants)
      && (attempt.value.succeeded <==> attempt.value.request.Some? && apiSucceeds)
  {
    firedAt, attempt := None, None;
    if threshold.None? {
      return;
    }
    var limit := threshold.value;
    var k := 0;
    while k < |observed|
      invariant 0 <= k <= |observed|
      invariant forall j :: 0 <= j < k ==> !SilentAt(start, limit, observed, j)
    {
      var now := PollTime(start, k);
      if now - observed[k] >= limit {
        var ok, request := TransferNow(env, sipDomain, hint, participants, apiSucceeds);
        firedAt := Some(k);
        attempt := Some(TransferAttempt(SilenceReason(limit), request, ok));
        return;
      }
      k := k + 1;
    }
  }

  /** A silent call with the default threshold of 60: activity touched at 0 and never again.
      The watchdog stays quiet at every poll up to 55 s and fires at the poll at 60 s. */
  method SilentCallExample() returns (firedAt: Option<nat>, attempt: Option<TransferAttempt>)
    ensures firedAt == Some(11) && PollTime(0, 11) == 60
    ensures attempt.Some? && attempt.value.reason == SilenceReason(60)
  {
    var observed: seq<nat> := seq(20, _ => 0);
    assert SilentAt(0, 60, observed, 11);
    firedAt, attempt := SilenceWatchdog(0, Some(DefaultSilenceSeconds), observed, map[], "", None, [], false);
    assert forall j :: 0 <= j < 11 ==> !SilentAt(0, 60, observed, j);
  }
}
