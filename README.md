# Outbound calling agent: a verified model of its call flow

`agent.py` is the worker for one outbound (or inbound) telephone call. It validates its
configuration, reads the number to dial from the job metadata, dials it over a SIP trunk,
greets the callee, asks a follow-up question, and hands the call to a human number when a
stage fails or the line stays silent. This project models those decisions in Dafny and
proves what they guarantee. It has one module per component:

- `Text` (`text.dfy`): the string operations the agent relies on. These are digit
  extraction (`re.sub(r"\D", "", s)`), `replace`, `startswith`, `lower`, `strip` and
  integer formatting.
- `Phone` (`phone.dfy`): phone normalisation to `+<digits>`, and the `sip_<digits>`
  participant identity.
- `Config` (`config.dfy`): `_validate_runtime_config`. It lists the missing variables
  for the chosen providers, removes duplicates, and raises exactly when the list is
  non-empty.
- `Retry` (`retry.dfy`): `_safe_say` and `_safe_generate_reply`. They run the same
  bounded retry loop, so they are one method here. Each attempt's outcome
  (completed, failed, timed out) comes from an input sequence.
- `Transfer` (`transfer.dfy`): `_format_transfer_destination` and `_transfer_now`.
  - The transfer has three gates: the enable flag, the destination, the identity.
  - The identity falls back to the first remote participant.
  - The one API call's result is an input.
- `Watchdog` (`watchdog.dfy`): `_silence_watchdog`. It is modelled on its own, as a
  sequential poll every five seconds over a finite horizon. `observed[k]` is the
  last-activity value that poll `k` reads.
- `Orchestrator` (`orchestrator.dfy`): `entrypoint`.
  - Every external effect is an input in `CallInputs`. These are the dial result, the
    clock readings, the attempt outcomes and the transfer API results.
  - Every call the entrypoint makes is an `Event` in a trace.
  - The shared `activity["last_activity"]` is the class `ActivityClock`. Its field is
    updated in place and it remembers every value it held.
  - The answered call is specified event by event by the predicate `Dialogue`, stated
    over what the stages came to (greeting, reply, and the result of each transfer).
    `Conversation` instantiates it for a call's inputs. `DialogueReasons` and
    `DialogueShape` derive what it implies about the transfers.
- `Common` (`common.dfy`): `Option` and the environment as a map. `GetEnv` is
  `os.getenv` with a default. `IsSet` is the truthiness of `os.getenv`: present and not
  empty.

Two kinds of configuration are kept apart:

- `OUTBOUND_TRUNK_ID` and `VOBIZ_SIP_DOMAIN` are read once, when the module is
  imported (agent.py:35-36). They are separate inputs (`trunkId`, `sipDomain`, where ""
  stands for unset).
- `_validate_runtime_config` and `_transfer_now` read the live environment (`env`).

## Model

| member | source | states |
|---|---|---|
| Text.Digits | agent.py:82 | `re.sub(r"\D", "", s)`: the result is only digits, no longer than the input, and holds exactly the input's digit characters |
| Text.RemoveAll | agent.py:193 | `str.replace(pat, "")`: the result is a subsequence of the input; the characters kept stay in their order |
| Text.SubsequenceChars | agent.py:193 | a subsequence holds only characters of the text it came from, so the removal adds no character |
| Text.RemoveAllNoOccurrence | agent.py:193 | text in which the pattern does not occur is returned unchanged |
| Text.RemoveAllAbsent | agent.py:193 | removing a pattern that has a character absent from the text leaves the text unchanged |
| Text.TrimStart | agent.py:209 | drops exactly the leading whitespace: the result is a suffix, what was dropped is all whitespace, and the result is empty or starts with non-whitespace |
| Text.TrimEnd | agent.py:209 | the mirror image for trailing whitespace |
| Text.Strip | agent.py:209 | `str.strip()`: empty exactly when the input is all whitespace; otherwise a slice of the input, with whitespace before and after it and none at its ends |
| Text.NatToDecimal | agent.py:249 | decimal text of a natural number: non-empty, all digits, no leading zero |
| Text.DecimalRoundTrip | agent.py:249 | the decimal text reads back as the number it was made from |
| Text.IntToDecimal | agent.py:249 | decimal text of an integer, as an f-string writes it: the decimal text of a non-negative integer, and `-` followed by the decimal text of its magnitude for a negative one |
| Text.IntRoundTrip | agent.py:249 | the text of any integer, negative ones included, reads back as that integer |
| Text.LowerSpec | agent.py:53-54 | `str.lower()` on ASCII: same length, no upper-case letter left, and each character kept or, when it is an upper-case letter, moved to its lower case |
| Text.LowerOfLowerCase | agent.py:204 | text with no upper-case letter is its own lower case. Every literal a lower-cased setting is compared with (`true`, `openai`, `gemini`, `cartesia`, `livekit`) is such text, so each is matched by exactly the settings that fold to it |
| Text.LowerIdempotent | agent.py:53-54 | lower-casing twice is lower-casing once |
| Phone.NormalizePhoneNumber | agent.py:80-85 | empty exactly when the input has no digit; otherwise `+` and digits, holding exactly the input's digits in order |
| Phone.ParticipantIdentityForPhone | agent.py:88-91 | always `sip_` and more; `sip_unknown` exactly when there is no digit; otherwise `sip_` followed by the input's digits |
| Phone.NormalizeIdempotent | agent.py:80-85 | normalising twice is normalising once |
| Phone.CanonicalIsNormal | agent.py:80-85 | a number of the form `+<digits>` is left unchanged |
| Phone.IdentityOfNormalized | agent.py:80-91 | the identity of the normalised number equals the identity of the raw input |
| Phone.IdentityOfCanonical | agent.py:88-91 | a canonical `+d` has the identity `sip_d` |
| Config.Dedup | agent.py:75 | `list(dict.fromkeys(s))`: no repeats, the same set of elements, no longer than the input |
| Config.DedupKeepsFirstOccurrenceOrder | agent.py:75 | the kept elements appear in the order of their first occurrence in the input |
| Config.DedupOfDistinct | agent.py:75 | a list without repeats is returned unchanged |
| Config.DedupExtends | agent.py:75 | de-duplicating `p + q` starts with the de-duplicated `p` |
| Config.UnsetKeysSpec | agent.py:51 | the comprehension keeps exactly the keys that are unset or empty |
| Config.UnsetKeysDistinct | agent.py:45-51 | filtering a list without repeats gives a list without repeats |
| Config.MissingVariablesExact | agent.py:44-75 | a variable is reported exactly when the job needs it and it is unset or empty. The job needs the four common credentials, and the provider key implied by the lower-cased `LLM_PROVIDER` (default `livekit`) and `TTS_PROVIDER` (default `openai`) |
| Config.MissingCommonFirst | agent.py:51-75 | the unset common credentials come first, in their fixed order |
| Config.DistinctCountsOnce | agent.py:75 | in a list without repeats, each element occurs once |
| Config.OpenAiKeyReportedOnce | agent.py:53-75 | with both providers on `openai` and no key, `OPENAI_API_KEY` is reported exactly once |
| Config.ValidateRuntimeConfig | agent.py:44-77 | the imperative collection computes exactly `MissingVariables`, and it raises exactly when that list is non-empty |
| Retry.SafeRun | agent.py:162-187 | true exactly when one of the first `retries` attempts completes. It stops at the first completion, makes at most `retries` attempts (none when `retries <= 0`), and after failing it has made exactly `retries`. The count is exactly `AttemptsMade` |
| Retry.AttemptsMade | agent.py:164-172 | the number of provider calls: at most `retries` (none when `retries <= 0`). When an attempt completes, the last call is the first completion; otherwise it is all `retries` |
| Retry.DefaultAttemptsOneOrTwo | agent.py:162-172 | with the default two retries the provider is called once or twice, once exactly when the first attempt completes |
| Retry.AlwaysTimingOut | agent.py:162-172 | an action that always times out, with the default two retries: false after exactly two attempts |
| Retry.CompletesOnSecondAttempt | agent.py:162-172 | an action that fails once and then completes: true after exactly two attempts |
| Transfer.FormatTransferDestination | agent.py:190-200 | every result starts with `sip:` or `tel:`, and holds an `@` exactly when the input did or a domain is set |
| Transfer.FormatIdempotent | agent.py:190-200 | for a fixed domain, formatting a formatted destination changes nothing |
| Transfer.FormatKeepsDestination | agent.py:190-200 | without a domain route, the input is kept whole, behind at most a four-character scheme |
| Transfer.FormatAddsSchemeOnlyWhenMissing | agent.py:196-200 | an address that already has its scheme is returned unchanged |
| Transfer.FormatAddsMissingScheme | agent.py:195-199 | `sip:` is put in front of an `@` address without it; with no domain, `tel:` goes in front of a bare number without a scheme |
| Transfer.FormatDomainRoute | agent.py:191-193 | with a domain and no `@`, the result is `sip:` + (input with `tel:` then `sip:` removed) + `@` + domain, and the user part holds no `@` |
| Transfer.PlainNumberViaDomain | agent.py:191-193 | a number with no `:` is routed through the domain unchanged |
| Transfer.ResolveIdentity | agent.py:213-218 | the identity is `sip_` + the hint's digits. Without digits it is the first remote participant, or `sip_unknown` in an empty room |
| Transfer.TransferPlanExact | agent.py:203-239 | the API is called exactly when transfers are enabled, the stripped destination is non-blank and the identity is non-empty. The request carries that identity and the formatted destination |
| Transfer.IdentityNeverBlocksWithoutEmptyParticipant | agent.py:213-221 | past the two gates, only an empty participant identity stops the transfer; an empty room still transfers as `sip_unknown` |
| Transfer.TransferEnabledByDefault | agent.py:204 | an unset `AUTO_TRANSFER_ON_FAILURE` means enabled |
| Transfer.FindIdentity | agent.py:214-218 | the identity loop computes exactly `ResolveIdentity`: the number's identity, or the first remote participant's when that is `sip_unknown` |
| Transfer.TransferNow | agent.py:203-239 | the request made is exactly `TransferPlan` (none when a gate returns False), and the result is true exactly when a request was made and the API call returned |
| Watchdog.SilenceReasonCarriesThreshold | agent.py:249 | for every integer threshold, negative ones included: the reason is `silence>`, then integer text, then `s`, and that text reads back as the threshold's signed value |
| Watchdog.SilenceWatchdog | agent.py:242-250 | it fires only at a poll (every 5 s) where now − last activity ≥ threshold, never at an earlier poll, and never when the threshold does not parse. It then makes one `_transfer_now` request with reason `silence>{threshold}s` and stops, whatever the result |
| Watchdog.SilentCallExample | agent.py:242-250 | threshold 60 and no activity after time 0: it stays quiet through 55 s and fires at the poll at 60 s |
| Orchestrator.ActivityClock.constructor | agent.py:349 | the timestamp starts at the answer time |
| Orchestrator.ActivityClock.Touch | agent.py:355 | the timestamp moves forward to `now`, and the recorded history grows by that value and stays non-decreasing |
| Orchestrator.TransferStage | agent.py:357 | one `_transfer_now` call recorded with its reason, the planned request and its result |
| Orchestrator.GreetingStage | agent.py:352-359 | the greeting attempt, with its number of `session.say` calls, then the `greeting_failed` transfer exactly when it failed, carrying the planned request and the first transfer's result. It stops exactly when that transfer succeeds, and the timestamp moves only on success |
| Orchestrator.ReplyStage | agent.py:362-375 | the follow-up attempt with its fixed instructions and its number of `generate_reply` calls, then the `llm_reply_failed` transfer exactly when it failed, carrying the planned request and the second transfer's result. It stops exactly when that transfer succeeds, and the timestamp moves only on success |
| Orchestrator.StoppedAfterGreeting | agent.py:356-359 | a failed greeting whose transfer succeeds ends the conversation: the watchdog start, the greeting and its transfer, and nothing more |
| Orchestrator.DialogueOfStages | agent.py:352-379 | the greeting stage, then (unless its transfer succeeded) the reply stage, then the hard fallback exactly when both failed and the reply's transfer failed, give `Dialogue`: every event in place, with its text or instructions, its number of provider calls, its outcome, and each transfer's reason, request and result |
| Orchestrator.ReasonsAfterGreeting | agent.py:362-375 | after a successful greeting the only possible transfer is `llm_reply_failed`, made exactly when the reply failed |
| Orchestrator.ReasonsAfterFailedGreeting | agent.py:352-379 | after a failed greeting: `greeting_failed` alone when that transfer succeeded or the reply succeeded; `greeting_failed`, `llm_reply_failed` when the reply's transfer succeeded; all three in order otherwise |
| Orchestrator.DialogueReasons | agent.py:352-379 | the transfer reasons are exactly `greeting_failed` when the greeting failed, then (unless that transfer succeeded) `llm_reply_failed` when the reply failed, then `both_greeting_and_reply_failed` when both failed and the reply's transfer failed |
| Orchestrator.DialogueShape | agent.py:352-379 | the follow-up is attempted exactly when the greeting succeeded or its transfer failed; after the watchdog start there are only greetings, replies and transfers; a successful transfer is always the last event; every transfer makes the same request |
| Orchestrator.Converse | agent.py:349-379 | the answered call satisfies `Conversation`, event by event, with each stage's provider-call count given by `AttemptsMade`. The timestamp holds the answer time, then the greeting time on success, then the reply time on success, and never decreases |
| Orchestrator.AnsweredTraceShape | agent.py:339-379 | the trace of an answered call holds its one dial and one watchdog start, and no shutdown |
| Orchestrator.Inbound | agent.py:385-389 | with no number: the fixed greeting and then the fixed reply, each attempted whatever the other's outcome and each with its `AttemptsMade` count of provider calls; no dial, no watchdog, no transfer |
| Orchestrator.DialAndConverse | agent.py:335-384 | a dial that raises gives a shutdown with nothing else; an answered dial is followed by exactly the `Conversation` of the call |
| Orchestrator.Outbound | agent.py:325-384 | with a number: dialing disabled returns with no event; a missing trunk shuts down without dialing; otherwise the dial, then a shutdown when it raises or exactly the `Conversation` when answered |
| Orchestrator.Entrypoint | agent.py:288-389 | configuration errors stop everything; no number leads to the inbound branch, with each stage's count of provider calls; with a number, dialing disabled returns at once, and a missing trunk shuts down without dialing. Without a dial there is no watchdog and no transfer; an answered call is one dial followed by exactly the `Conversation` of the call; the timestamp never decreases |

## Left out

- The digit test `\D` is Unicode-aware in Python. The model's `IsDigit` accepts ASCII
  `0`-`9` only. In the same way, `Lower` folds only ASCII letters, and `Strip` removes
  only the whitespace characters below U+0080.
- Lower: the agent only compares lower-cased settings with `true`, `openai`, `gemini`,
  `cartesia` and `livekit`. In Python, only two non-ASCII characters lower-case to
  something with ASCII in it: U+212A to `k`, and U+0130 to `i` followed by U+0307.
  - The first four literals hold no `k`, so neither character can give one of them,
    and the ASCII fold gives the same answer for every setting.
  - `livekit` does hold a `k`: Python lower-cases `LIVE` U+212A `IT` to `livekit`,
    and `Lower` does not. Both `livekit` branches do nothing (agent.py:60-62, 70-72),
    and a provider that matches no branch appends nothing either. So the missing
    variables are the same whichever way such a setting is folded.
  - This argument is not proved in Dafny.
- The LiveKit SDK calls are inputs, not code:
  - `session.say` and `session.generate_reply`: the attempt outcomes in `CallInputs`;
  - `create_sip_participant`: `dialAnswered`;
  - `transfer_sip_participant`: `transferApiOk`, and `TransferNow`'s `apiSucceeds`;
  - `ctx.shutdown`: recorded as the `Shutdown` event; it returns nothing.
- `session.start` (agent.py:323) has no field and no event. The model assumes it
  returns; if it raised, the entrypoint would stop there, and the model does not
  cover that.
- asyncio is not modelled: the `wait_for` timeout, `sleep(0.25)`, `CancelledError`, and
  how the watchdog task interleaves with the entrypoint. The entrypoint records only
  that the watchdog started; `Watchdog.SilenceWatchdog` models its run separately.
  Because of this, the model does not show that a watchdog transfer can follow or
  precede the entrypoint's own transfers. The source has no guard that stops two
  transfers of one call.
- `time.monotonic()` is a float clock. Here its readings are natural numbers given as
  inputs: `answerTime`, `greetTime`, `replyTime`, and the watchdog's `start` and
  `observed`.
- Watchdog.SilenceWatchdog: the source polls forever. The model covers a finite
  horizon of polls, and a watchdog that has not fired by the last poll is still
  waiting.
- Watchdog.SilenceWatchdog: `int(os.getenv("SILENCE_TRANSFER_SECONDS", "60"))` is given
  as its result, `Option<int>`. None means `int()` raised and the task ended before
  its first poll.
- JSON metadata parsing (agent.py:302-308) is given as its result: the `phone_number`
  string, or None when there is no metadata or parsing fails.
- Each attempt sequence must cover the default two retries, and three transfer
  results must be supplied (`WellFormed`). These are requirements on the inputs, not on
  the source's callers.
- The `except` at agent.py:381-384 is reached only by the dial. `_safe_say`,
  `_safe_generate_reply` and `_transfer_now` catch their own exceptions.
- `_load_property_brief` (CSV file reading), `_build_llm`, `personal_tts.py`,
  `personal_stt.py` and `OutboundAssistant` are not part of this model. They only
  configure providers and prompt text.
- `make_call.py` and `setup_trunk.py` are not part of this model. They are
  command-line scripts doing network I/O.
- Logging, dotenv loading and the `sys.path` set-up are not modelled.
- There is no at-most-once transfer guard: an answered call whose stages all fail makes
  three transfers (agent.py:357, 372, 379; `DialogueReasons`), and the watchdog may add
  a fourth.
- With outbound calling disabled and a number present, the entrypoint returns at once
  without greeting anyone (agent.py:326-329; `Outbound`: `trace == []`). It does not
  fall back to the inbound greeting.
