/** CallSessionOrchestrator (agent.py `entrypoint`): validate the configuration, then
    either greet an inbound caller, or dial the number from the job metadata, greet, ask
    a follow-up, and fall back to transfers when a stage fails.

    Every external effect is an oracle in `CallInputs` and every call the entrypoint makes
    is an `Event` appended to the call trace. The watchdog task the entrypoint starts is
    recorded as `WatchdogStarted`; its own run is `Watchdog.SilenceWatchdog`. */
module Orchestrator {
  import opened Common
  import opened Text
  import opened Phone
  import opened Config
  import opened Retry
  import opened Transfer

  const DefaultProGreeting: string :=
    "Namaste. Main AdvisorMax se bol raha hoon. Aap kis shehar ya location mein zameen kharidna chahte hain?"
  const FollowUpInstructions: string :=
    "Continue in Hindi unless user chooses another language. Ask a clear land-buying qualification question about preferred location."
  const InboundGreeting: string := "Hello, this is the Vobiz assistant. How can I help you today?"
  const InboundInstructions: string := "Greet the user professionally."

  const GreetingFailed: string := "greeting_failed"
  const ReplyFailed: string := "llm_reply_failed"
  const BothFailed: string := "both_greeting_and_reply_failed"

  /** What the entrypoint does, in order. */
  datatype Event =
    | Dial(callTo: string, identity: string, answered: bool)
    | WatchdogStarted(start: nat)
    | Say(text: string, attempts: nat, ok: bool)
    | Reply(instructions: string, attempts: nat, ok: bool)
    | TransferTried(attempt: TransferAttempt)
    | Shutdown

  /** Everything outside the entrypoint's own code.
      - `env`: the environment when the job runs.
      - `trunkId`, `sipDomain`: the module constants `OUTBOUND_TRUNK_ID` and `SIP_DOMAIN`,
        read once at import ("" for unset).
      - `metadataPhone`: the `phone_number` field of the job metadata; None when there is no
        metadata or it does not parse.
      - `participants`: identities of the room's remote participants, in dictionary order.
      - `dialAnswered`: whether `create_sip_participant` returned (False: it raised).
      - `answerTime`, `greetTime`, `replyTime`: `time.monotonic()` after the answer, after
        the greeting and after the reply.
      - `sayOutcomes`, `replyOutcomes`: the attempts of the greeting and of the reply.
      - `transferApiOk`: the API result of the greeting-failed, reply-failed and hard
        fallback transfers, in that order. */
  datatype CallInputs = CallInputs(
    env: Env,
    trunkId: string,
    sipDomain: string,
    metadataPhone: Option<string>,
    participants: seq<string>,
    dialAnswered: bool,
    answerTime: nat,
    greetTime: nat,
    replyTime: nat,
    sayOutcomes: seq<AttemptOutcome>,
    replyOutcomes: seq<AttemptOutcome>,
    transferApiOk: seq<bool>)

  /** The oracles cover every attempt the call can make, and the clock is monotonic. */
  predicate WellFormed(call: CallInputs)
  {
    && |call.sayOutcomes| >= DefaultRetries
    && |call.replyOutcomes| >= DefaultRetries
    && |call.transferApiOk| >= 3
    && call.answerTime <= call.greetTime <= call.replyTime
  }

  predicate NonDecreasing(s: seq<nat>)
  {
    forall i, j :: 0 <= i < j < |s| ==> s[i] <= s[j]
  }

  /** Shared `activity["last_activity"]`, with every value it has held. */
  class ActivityClock {
    var lastActivity: nat
    var writes: seq<nat>

    ghost predicate Valid()
      reads this
    {
      writes != [] && lastActivity == writes[|writes| - 1] && NonDecreasing(writes)
    }

    constructor (now: nat)
      ensures Valid() && lastActivity == now && writes == [now]
    {
      lastActivity := now;
      writes := [now];
    }

    /** `activity["last_activity"] = time.monotonic()`; the clock never goes back. */
    method Touch(now: nat)
      requires Valid() && lastActivity <= now
      modifies this
      ensures Valid() && lastActivity == now && writes == old(writes) + [now]
    {
      lastActivity := now;
      writes := writes + [now];
    }
  }

  /** `phone_number` after metadata parsing: normalised when the field was read. */
  function PhoneNumber(call: CallInputs): Option<string>
  {
    if call.metadataPhone.Some? then Some(NormalizePhoneNumber(call.metadataPhone.value)) else None
  }

  /** `if phone_number:`. */
  predicate HasPhone(call: CallInputs)
  {
    PhoneNumber(call).Some? && PhoneNumber(call).value != ""
  }

  predicate OutboundEnabled(env: Env)
  {
    Lower(GetEnv(env, "ENABLE_OUTBOUND_CALLS", "false")) == "true"
  }

  /** The configuration passes, there is a number, dialing is enabled and a trunk is set. */
  predicate Dials(call: CallInputs)
  {
    MissingVariables(call.env) == [] && HasPhone(call) && OutboundEnabled(call.env) && call.trunkId != ""
  }

  predicate Answered(call: CallInputs)
  {
    Dials(call) && call.dialAnswered
  }

  predicate Greeted(call: CallInputs)
    requires WellFormed(call)
  {
    Succeeds(call.sayOutcomes, DefaultRetries)
  }

  predicate Replied(call: CallInputs)
    requires WellFormed(call)
  {
    Succeeds(call.replyOutcomes, DefaultRetries)
  }

  /** The provider calls the greeting makes (`session.say`). */
  function GreetAttempts(call: CallInputs): nat
    requires WellFormed(call)
  {
    AttemptsMade(call.sayOutcomes, DefaultRetries)
  }

  /** The provider calls the reply makes (`session.generate_reply`). */
  function ReplyAttempts(call: CallInputs): nat
    requires WellFormed(call)
  {
    AttemptsMade(call.replyOutcomes, DefaultRetries)
  }

  /** The request every transfer of this call makes (None: `_transfer_now` returns False
      before the API call). */
  function Plan(call: CallInputs): Option<TransferRequest>
  {
    TransferPlan(call.env, call.sipDomain, PhoneNumber(call), call.participants)
  }

  /** The transfer of stage `k` (0 greeting, 1 reply, 2 hard fallback) would return True. */
  predicate TransferSucceeds(call: CallInputs, k: nat)
    requires WellFormed(call) && k < 3
  {
    Plan(call).Some? && call.transferApiOk[k]
  }

  /** The reasons of the transfers in a trace, in order. */
  function TransferReasons(trace: seq<Event>): seq<string>
  {
    if trace == [] then []
    else
      var rest := TransferReasons(trace[1..]);
      if trace[0].TransferTried? then [trace[0].attempt.reason] + rest else rest
  }

  predicate HasReply(trace: seq<Event>)
  {
    exists i :: 0 <= i < |trace| && trace[i].Reply?
  }

  /** Only greetings, replies and transfers. */
  predicate ConversationOnly(trace: seq<Event>)
  {
    forall i :: 0 <= i < |trace| ==> trace[i].Say? || trace[i].Reply? || trace[i].TransferTried?
  }

  predicate HasDialOrWatchdog(trace: seq<Event>)
  {
    exists i :: 0 <= i < |trace| && (trace[i].Dial? || trace[i].WatchdogStarted?)
  }

  /** Runs one transfer of the call and records it. */
  method TransferStage(call: CallInputs, reason: string, k: nat) returns (ev: Event, ok: bool)
    requires WellFormed(call) && k < 3
    ensures ev.TransferTried? && ev.attempt.reason == reason && ev.attempt.succeeded == ok
    ensures ev.attempt.request == Plan(call)
    ensures ok <==> TransferSucceeds(call, k)
  {
    var request;
    ok, request := TransferNow(call.env, call.sipDomain, PhoneNumber(call), call.participants, call.transferApiOk[k]);
    ev := TransferTried(TransferAttempt(reason, request, ok));
  }

  /** Every transfer in `trace` makes the request `plan`. */
  predicate SameRequest(trace: seq<Event>, plan: Option<TransferRequest>)
  {
    forall i :: 0 <= i < |trace| && trace[i].TransferTried? ==> trace[i].attempt.request == plan
  }

  /** `e` records a transfer with this reason, request and result. */
  predicate TransferOf(e: Event, reason: string, succeeded: bool, plan: Option<TransferRequest>)
  {
    e.TransferTried? && e.attempt.reason == reason && e.attempt.request == plan && e.attempt.succeeded == succeeded
  }

  /** The answered part of a call, event by event, in terms of what its stages came to
      (`greeted` and `replied` with the attempts each made, and the results of the three
      possible transfers): the watchdog starts at `start` and the greeting `greeting` is
      attempted; a failed greeting is
      followed by its transfer, which ends the call's part when it succeeds; otherwise the
      follow-up reply is attempted, a failed reply is followed by its transfer, and when
      both failed and the reply's transfer failed, the hard fallback transfer comes last. */
  predicate Dialogue(
    start: nat, greeting: string, greeted: bool, replied: bool,
    greetAttempts: nat, replyAttempts: nat,
    greetTransferred: bool, replyTransferred: bool, fallbackTransferred: bool,
    plan: Option<TransferRequest>, events: seq<Event>)
  {
    && |events| >= 3 && events[0] == WatchdogStarted(start)
    && events[1].Say? && events[1].text == greeting && events[1].attempts == greetAttempts
    && (events[1].ok <==> greeted)
    && (!greeted ==> TransferOf(events[2], GreetingFailed, greetTransferred, plan))
    && if !greeted && greetTransferred then |events| == 3
       else
         var j := if greeted then 2 else 3;
         && |events| == j + 1 + (if replied then 0 else if greeted || replyTransferred then 1 else 2)
         && events[j].Reply? && events[j].instructions == FollowUpInstructions && events[j].attempts == replyAttempts
         && (events[j].ok <==> replied)
         && (!replied ==> TransferOf(events[j + 1], ReplyFailed, replyTransferred, plan))
         && (!greeted && !replied && !replyTransferred ==>
               TransferOf(events[j + 2], BothFailed, fallbackTransferred, plan))
  }

  /** `Dialogue` for the outcomes the call's oracles give. */
  predicate Conversation(call: CallInputs, events: seq<Event>)
    requires WellFormed(call)
  {
    Dialogue(call.answerTime, GetEnv(call.env, "OUTBOUND_GREETING", DefaultProGreeting),
      Greeted(call), Replied(call), GreetAttempts(call), ReplyAttempts(call),
      TransferSucceeds(call, 0), TransferSucceeds(call, 1), TransferSucceeds(call, 2), Plan(call), events)
  }

  /** One step of `TransferReasons`, at position `i`. */
  lemma ReasonsAt(events: seq<Event>, i: nat)
    requires i < |events|
    ensures TransferReasons(events[i..]) ==
      (if events[i].TransferTried? then [events[i].attempt.reason] else []) + TransferReasons(events[i + 1..])
  {
    assert events[i..][1..] == events[i + 1..];
  }

  /** The reasons when the greeting succeeded: `llm_reply_failed` exactly when the reply
      failed. */
  lemma ReasonsAfterGreeting(
    start: nat, greeting: string, replied: bool,
    greetAttempts: nat, replyAttempts: nat,
    greetTransferred: bool, replyTransferred: bool, fallbackTransferred: bool,
    plan: Option<TransferRequest>, events: seq<Event>)
    requires Dialogue(start, greeting, true, replied, greetAttempts, replyAttempts,
      greetTransferred, replyTransferred, fallbackTransferred, plan, events)
    ensures TransferReasons(events) == (if replied then [] else [ReplyFailed])
  {
    var n := |events|;
    assert events[n..] == [] && events[0..] == events;
    ReasonsAt(events, 0);
    ReasonsAt(events, 1);
    ReasonsAt(events, 2);
    if !replied {
      ReasonsAt(events, 3);
    }
  }

  /** The reasons when the greeting failed: `greeting_failed`, then, unless its transfer
      succeeded, `llm_reply_failed` when the reply failed and the fallback's reason when
      the reply's transfer failed too. */
  lemma ReasonsAfterFailedGreeting(
    start: nat, greeting: string, replied: bool,
    greetAttempts: nat, replyAttempts: nat,
    greetTransferred: bool, replyTransferred: bool, fallbackTransferred: bool,
    plan: Option<TransferRequest>, events: seq<Event>)
    requires Dialogue(start, greeting, false, replied, greetAttempts, replyAttempts,
      greetTransferred, replyTransferred, fallbackTransferred, plan, events)
    ensures TransferReasons(events) ==
      if greetTransferred || replied then [GreetingFailed]
      else if replyTransferred then [GreetingFailed, ReplyFailed]
      else [GreetingFailed, ReplyFailed, BothFailed]
  {
    var n := |events|;
    assert events[n..] == [] && events[0..] == events;
    ReasonsAt(events, 0);
    ReasonsAt(events, 1);
    ReasonsAt(events, 2);
    if !greetTransferred {
      ReasonsAt(events, 3);
      if !replied {
        ReasonsAt(events, 4);
        if !replyTransferred {
          ReasonsAt(events, 5);
        }
      }
    }
  }

  /** The transfer reasons of the answered part: `greeting_failed` when the greeting
      failed, then (unless that transfer succeeded) `llm_reply_failed` when the reply
      failed, then `both_greeting_and_reply_failed` when both failed and the reply's
      transfer failed too. So no transfer when both succeed, one when a failed greeting is
      transferred, and all three in this order when everything fails. */
  lemma DialogueReasons(
    start: nat, greeting: string, greeted: bool, replied: bool,
    greetAttempts: nat, replyAttempts: nat,
    greetTransferred: bool, replyTransferred: bool, fallbackTransferred: bool,
    plan: Option<TransferRequest>, events: seq<Event>)
    requires Dialogue(start, greeting, greeted, replied, greetAttempts, replyAttempts,
      greetTransferred, replyTransferred, fallbackTransferred, plan, events)
    ensures TransferReasons(events) ==
      (if greeted then [] else [GreetingFailed])
      + (if !greeted && greetTransferred then [] else
           (if replied then [] else [ReplyFailed])
           + (if !greeted && !replied && !replyTransferred then [BothFailed] else []))
  {
    if greeted {
      ReasonsAfterGreeting(start, greeting, replied, greetAttempts, replyAttempts,
        greetTransferred, replyTransferred, fallbackTransferred, plan, events);
    } else {
      ReasonsAfterFailedGreeting(start, greeting, replied, greetAttempts, replyAttempts,
        greetTransferred, replyTransferred, fallbackTransferred, plan, events);
    }
  }

  /** The shape of the answered part: the follow-up is attempted exactly when the greeting
      succeeded or its transfer failed; after the watchdog start there are only greetings,
      replies and transfers; a successful transfer is the last event; and every transfer
      asks for the same request. */
  lemma DialogueShape(
    start: nat, greeting: string, greeted: bool, replied: bool,
    greetAttempts: nat, replyAttempts: nat,
    greetTransferred: bool, replyTransferred: bool, fallbackTransferred: bool,
    plan: Option<TransferRequest>, events: seq<Event>)
    requires Dialogue(start, greeting, greeted, replied, greetAttempts, replyAttempts,
      greetTransferred, replyTransferred, fallbackTransferred, plan, events)
    ensures HasReply(events) <==> greeted || !greetTransferred
    ensures ConversationOnly(events[1..])
    ensures forall i :: 0 <= i < |events| - 1 && events[i].TransferTried? ==> !events[i].attempt.succeeded
    ensures SameRequest(events, plan)
  {
    if greeted || !greetTransferred {
      var j := if greeted then 2 else 3;
      assert events[j].Reply?;
    }
  }

  /** The events of the greeting stage: the greeting attempt, then the `greeting_failed`
      transfer exactly when it failed. */
  predicate GreetingEvents(
    greeting: string, greeted: bool, attempts: nat, transferred: bool, plan: Option<TransferRequest>, events: seq<Event>)
  {
    && |events| == (if greeted then 1 else 2)
    && events[0].Say? && events[0].text == greeting && events[0].attempts == attempts && (events[0].ok <==> greeted)
    && (!greeted ==> TransferOf(events[1], GreetingFailed, transferred, plan))
  }

  /** The events of the reply stage: the follow-up attempt, then the `llm_reply_failed`
      transfer exactly when it failed. */
  predicate ReplyEvents(replied: bool, attempts: nat, transferred: bool, plan: Option<TransferRequest>, events: seq<Event>)
  {
    && |events| == (if replied then 1 else 2)
    && events[0].Reply? && events[0].instructions == FollowUpInstructions && events[0].attempts == attempts
    && (events[0].ok <==> replied)
    && (!replied ==> TransferOf(events[1], ReplyFailed, transferred, plan))
  }

  /** A greeting that fails and is transferred ends the conversation. */
  lemma StoppedAfterGreeting(
    start: nat, greeting: string, replied: bool, greetAttempts: nat, replyAttempts: nat,
    replyTransferred: bool, fallbackTransferred: bool, plan: Option<TransferRequest>, stage: seq<Event>)
    requires GreetingEvents(greeting, false, greetAttempts, true, plan, stage)
    ensures Dialogue(start, greeting, false, replied, greetAttempts, replyAttempts,
      true, replyTransferred, fallbackTransferred, plan, [WatchdogStarted(start)] + stage)
  {
  }

  /** Otherwise the reply stage runs, followed by the hard fallback `fallback` when both
      stages failed and the reply's transfer failed too. */
  lemma DialogueOfStages(
    start: nat, greeting: string, greeted: bool, replied: bool, greetAttempts: nat, replyAttempts: nat,
    greetTransferred: bool, replyTransferred: bool, fallbackTransferred: bool, plan: Option<TransferRequest>,
    greetStage: seq<Event>, replyStage: seq<Event>, fallback: seq<Event>)
    requires GreetingEvents(greeting, greeted, greetAttempts, greetTransferred, plan, greetStage)
    requires ReplyEvents(replied, replyAttempts, replyTransferred, plan, replyStage)
    requires greeted || !greetTransferred
    requires if !greeted && !replied && !replyTransferred then
        |fallback| == 1 && TransferOf(fallback[0], BothFailed, fallbackTransferred, plan)
      else fallback == []
    ensures Dialogue(start, greeting, greeted, replied, greetAttempts, replyAttempts,
      greetTransferred, replyTransferred, fallbackTransferred, plan,
      [WatchdogStarted(start)] + greetStage + replyStage + fallback)
  {
    var events := [WatchdogStarted(start)] + greetStage + replyStage + fallback;
    var j := 1 + |greetStage|;
    assert events[j] == replyStage[0];
    if !replied {
      assert events[j + 1] == replyStage[1];
    }
  }

  /** An answered call's trace holds its one dial and no shutdown: after the dial, the
      watchdog starts once and the rest is conversation. */
  lemma AnsweredTraceShape(call: CallInputs, trace: seq<Event>)
    requires WellFormed(call) && |trace| >= 1 && trace[0].Dial? && Conversation(call, trace[1..])
    ensures Shutdown !in trace
    ensures forall i :: 1 <= i < |trace| ==> !trace[i].Dial?
    ensures forall i :: 2 <= i < |trace| ==> !trace[i].WatchdogStarted?
  {
    var events := trace[1..];
    DialogueShape(call.answerTime, GetEnv(call.env, "OUTBOUND_GREETING", DefaultProGreeting),
      Greeted(call), Replied(call), GreetAttempts(call), ReplyAttempts(call),
      TransferSucceeds(call, 0), TransferSucceeds(call, 1), TransferSucceeds(call, 2), Plan(call), events);
    assert forall i :: 2 <= i < |trace| ==> trace[i] == events[1..][i - 2];
  }

  /** The greeting (`_safe_say` of `OUTBOUND_GREETING`) and, when it fails, the
      `greeting_failed` transfer. `stop` is the early return after a successful transfer. */
  method GreetingStage(call: CallInputs, activity: ActivityClock) returns (events: seq<Event>, greeted: bool, stop: bool)
    requires WellFormed(call) && activity.Valid() && activity.lastActivity <= call.greetTime
    modifies activity
    ensures activity.Valid()
    ensures activity.writes == old(activity.writes) + (if Greeted(call) then [call.greetTime] else [])
    ensures greeted <==> Greeted(call)
    ensures stop <==> !Greeted(call) && TransferSucceeds(call, 0)
    ensures GreetingEvents(GetEnv(call.env, "OUTBOUND_GREETING", DefaultProGreeting), greeted, GreetAttempts(call),
      TransferSucceeds(call, 0), Plan(call), events)
  {
    var greeting := GetEnv(call.env, "OUTBOUND_GREETING", DefaultProGreeting);
    var attempts;
    greeted, attempts := SafeRun(call.sayOutcomes, DefaultRetries);
    events := [Say(greeting, attempts, greeted)];
    stop := false;
    if greeted {
      activity.Touch(call.greetTime);
    } else {
      var ev;
      ev, stop := TransferStage(call, GreetingFailed, 0);
      events := events + [ev];
    }
  }

  /** The follow-up (`_safe_generate_reply`) and, when it fails, the `llm_reply_failed`
      transfer. `stop` is the early return after a successful transfer. */
  method ReplyStage(call: CallInputs, activity: ActivityClock) returns (events: seq<Event>, replied: bool, stop: bool)
    requires WellFormed(call) && activity.Valid() && activity.lastActivity <= call.replyTime
    modifies activity
    ensures activity.Valid()
    ensures activity.writes == old(activity.writes) + (if Replied(call) then [call.replyTime] else [])
    ensures replied <==> Replied(call)
    ensures stop <==> !Replied(call) && TransferSucceeds(call, 1)
    ensures ReplyEvents(replied, ReplyAttempts(call), TransferSucceeds(call, 1), Plan(call), events)
  {
    var attempts;
    replied, attempts := SafeRun(call.replyOutcomes, DefaultRetries);
    events := [Reply(FollowUpInstructions, attempts, replied)];
    stop := false;
    if replied {
      activity.Touch(call.replyTime);
    } else {
      var ev;
      ev, stop := TransferStage(call, ReplyFailed, 1);
      events := events + [ev];
    }
  }

  /** The answered-call part of `entrypoint`: the shared timestamp and the watchdog start,
      the greeting stage, the reply stage, and the hard fallback. Returns the events and
      every value the timestamp held. */
  method Converse(call: CallInputs) returns (events: seq<Event>, activityLog: seq<nat>)
    requires WellFormed(call)
    ensures Conversation(call, events)
    // The timestamp starts at the answer, moves only on a successful greeting or reply,
    // and never decreases.
    ensures activityLog == [call.answerTime]
      + (if Greeted(call) then [call.greetTime] else [])
      + (if Replied(call) && (Greeted(call) || !TransferSucceeds(call, 0)) then [call.replyTime] else [])
    ensures NonDecreasing(activityLog)
  {
    var greetingText := GetEnv(call.env, "OUTBOUND_GREETING", DefaultProGreeting);
    var activity := new ActivityClock(call.answerTime);
    var greeting, greeted, stop := GreetingStage(call, activity);
    events := [WatchdogStarted(call.answerTime)] + greeting;
    if stop {
      StoppedAfterGreeting(call.answerTime, greetingText, Replied(call), GreetAttempts(call), ReplyAttempts(call),
        TransferSucceeds(call, 1), TransferSucceeds(call, 2), Plan(call), greeting);
      activityLog := activity.writes;
      return;
    }

    var reply, replied;
    reply, replied, stop := ReplyStage(call, activity);
    var fallback := [];
    if !stop && !greeted && !replied {
      var ev, _ := TransferStage(call, BothFailed, 2);
      fallback := [ev];
    }
    DialogueOfStages(call.answerTime, greetingText, greeted, replied, GreetAttempts(call), ReplyAttempts(call),
      TransferSucceeds(call, 0), TransferSucceeds(call, 1), TransferSucceeds(call, 2), Plan(call),
      greeting, reply, fallback);
    events := events + reply + fallback;
    activityLog := activity.writes;
  }

  /** The inbound branch of `entrypoint`: the fixed greeting, then the fixed reply, each
      attempted whatever the other came to. */
  method Inbound(call: CallInputs) returns (trace: seq<Event>)
    requires WellFormed(call)
    ensures |trace| == 2
    ensures trace[0].Say? && trace[0].text == InboundGreeting && (trace[0].ok <==> Greeted(call))
    ensures trace[0].attempts == GreetAttempts(call)
    ensures trace[1].Reply? && trace[1].instructions == InboundInstructions && (trace[1].ok <==> Replied(call))
    ensures trace[1].attempts == ReplyAttempts(call)
    ensures !HasDialOrWatchdog(trace) && TransferReasons(trace) == []
  {
    var greeted, sayAttempts := SafeRun(call.sayOutcomes, DefaultRetries);
    var replied, replyAttempts := SafeRun(call.replyOutcomes, DefaultRetries);
    trace := [Say(InboundGreeting, sayAttempts, greeted), Reply(InboundInstructions, replyAttempts, replied)];
    assert TransferReasons(trace[1..]) == [] by {
      assert trace[1..][1..] == [];
    }
  }

  /** The `try` block of `entrypoint`: dial `number` and, once answered, converse; when the
      dial raises, shut down. */
  method DialAndConverse(call: CallInputs, number: string) returns (trace: seq<Event>, activityLog: seq<nat>)
    requires WellFormed(call)
    ensures !call.dialAnswered ==>
      trace == [Dial(number, ParticipantIdentityForPhone(number), false), Shutdown] && activityLog == []
    ensures call.dialAnswered ==>
      && |trace| >= 3
      && trace[0] == Dial(number, ParticipantIdentityForPhone(number), true)
      && Conversation(call, trace[1..])
    ensures NonDecreasing(activityLog)
  {
    trace := [Dial(number, ParticipantIdentityForPhone(number), call.dialAnswered)];
    if !call.dialAnswered {
      return trace + [Shutdown], [];
    }
    var events;
    events, activityLog := Converse(call);
    trace := trace + events;
    assert trace[1..] == events;
  }

  /** The `if phone_number:` branch of `entrypoint`: return at once when dialing is
      disabled, shut down when no trunk is set, otherwise dial `number`. */
  method Outbound(call: CallInputs, number: string) returns (trace: seq<Event>, activityLog: seq<nat>)
    requires WellFormed(call)
    ensures !OutboundEnabled(call.env) ==> trace == [] && activityLog == []
    ensures OutboundEnabled(call.env) && call.trunkId == "" ==> trace == [Shutdown] && activityLog == []
    ensures OutboundEnabled(call.env) && call.trunkId != "" && !call.dialAnswered ==>
      trace == [Dial(number, ParticipantIdentityForPhone(number), false), Shutdown] && activityLog == []
    ensures OutboundEnabled(call.env) && call.trunkId != "" && call.dialAnswered ==>
      && |trace| >= 3
      && trace[0] == Dial(number, ParticipantIdentityForPhone(number), true)
      && Conversation(call, trace[1..])
    ensures NonDecreasing(activityLog)
  {
    trace, activityLog := [], [];
    var outboundEnabled := Lower(GetEnv(call.env, "ENABLE_OUTBOUND_CALLS", "false")) == "true";
    assert outboundEnabled == OutboundEnabled(call.env);
    if !outboundEnabled {
      return;
    }
    if call.trunkId == "" {
      trace := [Shutdown];
      return;
    }
    trace, activityLog := DialAndConverse(call, number);
  }

  /** `entrypoint`. Returns the missing variables (non-empty: `_validate_runtime_config`
      raised and nothing else ran), the trace of calls, and every value the shared
      last-activity timestamp held. */
  method Entrypoint(call: CallInputs) returns (missing: seq<string>, trace: seq<Event>, activityLog: seq<nat>)
    requires WellFormed(call)
    ensures missing == MissingVariables(call.env)
    ensures missing != [] ==> trace == [] && activityLog == []
    // No usable number: one greeting and one reply, whatever their outcome; no dial,
    // no watchdog, no transfer.
    ensures missing == [] && !HasPhone(call) ==>
      && |trace| == 2 && activityLog == []
      && trace[0].Say? && trace[0].text == InboundGreeting && (trace[0].ok <==> Greeted(call))
      && trace[0].attempts == GreetAttempts(call)
      && trace[1].Reply? && trace[1].instructions == InboundInstructions && (trace[1].ok <==> Replied(call))
      && trace[1].attempts == ReplyAttempts(call)
    ensures !Dials(call) ==> !HasDialOrWatchdog(trace) && TransferReasons(trace) == []
    // A number but dialing disabled: return at once.
    ensures missing == [] && HasPhone(call) && !OutboundEnabled(call.env) ==> trace == []
    // No trunk: shut down without dialing.
    ensures missing == [] && HasPhone(call) && OutboundEnabled(call.env) && call.trunkId == "" ==>
      trace == [Shutdown]
    // The dial raised: shut down, no greeting, no transfer.
    ensures Dials(call) && !call.dialAnswered ==>
      trace == [Dial(PhoneNumber(call).value, ParticipantIdentityForPhone(PhoneNumber(call).value), false), Shutdown]
    // Answered: the dial, then the conversation.
    ensures Answered(call) ==>
      && |trace| >= 3
      && trace[0] == Dial(PhoneNumber(call).value, ParticipantIdentityForPhone(PhoneNumber(call).value), true)
      && Conversation(call, trace[1..])
    ensures !Answered(call) ==> activityLog == []
    ensures NonDecreasing(activityLog)
  {
    trace, activityLog := [], [];
    var raised;
    missing, raised := ValidateRuntimeConfig(call.env);
    if raised {
      return;
    }

    var phoneNumber: Option<string> := None;
    if call.metadataPhone.Some? {
      phoneNumber := Some(NormalizePhoneNumber(call.metadataPhone.value));
    }

    assert phoneNumber == PhoneNumber(call);
    if phoneNumber.Some? && phoneNumber.value != "" {
      trace, activityLog := Outbound(call, phoneNumber.value);
    } else {
      trace := Inbound(call);
    }
  }
}
