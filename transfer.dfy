/** TransferCoordinator (agent.py `_format_transfer_destination`, `_transfer_now`): the
    configuration gate, the destination address, the participant to hand off, and the one
    telephony API call. The API call is an oracle: `apiSucceeds` says whether it returned
    or raised. */
module Transfer {
  import opened Common
  import opened Text
  import opened Phone

  /** The request sent to `transfer_sip_participant`. */
  datatype TransferRequest = TransferRequest(participantIdentity: string, transferTo: string)

  /** One `_transfer_now` call as the call trace records it: the diagnostic reason, the API
      request it made (None when a gate stopped it first) and its boolean result. */
  datatype TransferAttempt = TransferAttempt(reason: string, request: Option<TransferRequest>, succeeded: bool)

  /** The destination with any `tel:` and then any `sip:` text taken out. */
  function SchemeStripped(destination: string): string
  {
    RemoveAll(RemoveAll(destination, "tel:"), "sip:")
  }

  /** `_format_transfer_destination`. `sipDomain` is the module constant `SIP_DOMAIN`; the
      empty string stands for both an unset and an empty variable. Every result is a `sip:`
      or `tel:` URI, and it holds an `@` exactly when the input did or a domain is set. */
  function FormatTransferDestination(destination: string, sipDomain: string): (r: string)
    ensures StartsWith(r, "sip:") || StartsWith(r, "tel:")
    ensures '@' in r <==> '@' in destination || sipDomain != ""
  {
    if '@' !in destination then
      if sipDomain != "" then
        var r := "sip:" + SchemeStripped(destination) + "@" + sipDomain;
        assert r[|r| - |sipDomain| - 1] == '@';
        r
      else if !StartsWith(destination, "tel:") && !StartsWith(destination, "sip:") then
        "tel:" + destination
      else destination
    else if !StartsWith(destination, "sip:") then
      var r := "sip:" + destination;
      assert r[4..] == destination;
      r
    else destination
  }

  /** For a fixed domain, formatting a formatted destination changes nothing. */
  lemma FormatIdempotent(destination: string, sipDomain: string)
    ensures var r := FormatTransferDestination(destination, sipDomain);
      FormatTransferDestination(r, sipDomain) == r
  {
  }

  /** Without a domain route (an `@` already present, or no domain), the configured text
      is kept whole and at most a four-character scheme is put in front of it. */
  lemma FormatKeepsDestination(destination: string, sipDomain: string)
    requires '@' in destination || sipDomain == ""
    ensures var r := FormatTransferDestination(destination, sipDomain);
      EndsWith(r, destination) && |r| <= |destination| + 4
  {
  }

  /** A scheme is added only when one is missing: an address that already starts with
      `sip:` (or, with no domain and no `@`, with `tel:`) is returned unchanged. */
  lemma FormatAddsSchemeOnlyWhenMissing(destination: string, sipDomain: string)
    requires StartsWith(destination, "sip:") || ('@' !in destination && sipDomain == "" && StartsWith(destination, "tel:"))
    requires '@' in destination || sipDomain == ""
    ensures FormatTransferDestination(destination, sipDomain) == destination
  {
  }

  /** A missing scheme is added: `sip:` in front of an address with an `@`, and, with no
      domain, `tel:` in front of a bare number. */
  lemma FormatAddsMissingScheme(destination: string, sipDomain: string)
    requires !StartsWith(destination, "sip:")
    requires '@' in destination || (sipDomain == "" && !StartsWith(destination, "tel:"))
    ensures FormatTransferDestination(destination, sipDomain) ==
      (if '@' in destination then "sip:" else "tel:") + destination
  {
  }

  /** With a domain and no `@`, the address is `sip:<user>@<domain>`, where the user part
      is the destination with its scheme text removed and holds no `@`. */
  lemma FormatDomainRoute(destination: string, sipDomain: string)
    requires '@' !in destination && sipDomain != ""
    ensures var r := FormatTransferDestination(destination, sipDomain);
      var user := SchemeStripped(destination);
      '@' !in user && r == "sip:" + user + "@" + sipDomain && EndsWith(r, "@" + sipDomain)
  {
    var inner := RemoveAll(destination, "tel:");
    var user := SchemeStripped(destination);
    assert '@' !in inner by {
      forall i | 0 <= i < |inner| ensures inner[i] != '@' {
        SubsequenceChars(inner, destination, inner[i]);
      }
    }
    assert '@' !in user by {
      forall i | 0 <= i < |user| ensures user[i] != '@' {
        SubsequenceChars(user, inner, user[i]);
      }
    }
    var r := FormatTransferDestination(destination, sipDomain);
    assert r == ("sip:" + user) + ("@" + sipDomain);
  }

  /** A plain number (no `:` anywhere) is routed through the domain as it is. */
  lemma {:induction false} PlainNumberViaDomain(destination: string, sipDomain: string)
    requires '@' !in destination && ':' !in destination && sipDomain != ""
    ensures FormatTransferDestination(destination, sipDomain) == "sip:" + destination + "@" + sipDomain
  {
    assert "tel:"[3] == ':' && "sip:"[3] == ':';
    RemoveAllAbsent(destination, "tel:", ':');
    RemoveAllAbsent(destination, "sip:", ':');
  }

  /** `AUTO_TRANSFER_ON_FAILURE`, default `true`, compared after lower-casing. */
  predicate AutoTransferEnabled(env: Env)
  {
    Lower(GetEnv(env, "AUTO_TRANSFER_ON_FAILURE", "true")) == "true"
  }

  /** `DEFAULT_TRANSFER_NUMBER`, default empty, stripped of surrounding whitespace. */
  function ConfiguredDestination(env: Env): string
  {
    Strip(GetEnv(env, "DEFAULT_TRANSFER_NUMBER", ""))
  }

  /** `phone_number or ""`. */
  function PhoneOrEmpty(hint: Option<string>): string
  {
    if hint.Some? then hint.value else ""
  }

  /** The participant to transfer: the one named by the number's digits, otherwise the
      first remote participant, otherwise the unknown sentinel. */
  function ResolveIdentity(hint: Option<string>, participants: seq<string>): (id: string)
    ensures Digits(PhoneOrEmpty(hint)) != "" ==> id == "sip_" + Digits(PhoneOrEmpty(hint))
    ensures Digits(PhoneOrEmpty(hint)) == "" && participants != [] ==> id == participants[0]
    ensures Digits(PhoneOrEmpty(hint)) == "" && participants == [] ==> id == UnknownIdentity
  {
    var id := ParticipantIdentityForPhone(PhoneOrEmpty(hint));
    assert id != UnknownIdentity ==> id == id[..4] + id[4..];
    if id == UnknownIdentity && participants != [] then participants[0] else id
  }

  /** The API request `_transfer_now` makes, or None when it returns False before the call. */
  function TransferPlan(env: Env, sipDomain: string, hint: Option<string>, participants: seq<string>): Option<TransferRequest>
  {
    if !AutoTransferEnabled(env) then None
    else
      var destination := ConfiguredDestination(env);
      if destination == "" then None
      else
        var identity := ResolveIdentity(hint, participants);
        if identity == "" then None
        else Some(TransferRequest(identity, FormatTransferDestination(destination, sipDomain)))
  }

  /** The API is called exactly when transfers are enabled, a destination is configured
      (not blank) and a non-empty identity resolves; the request then carries that
      identity and the formatted destination. */
  lemma TransferPlanExact(env: Env, sipDomain: string, hint: Option<string>, participants: seq<string>)
    ensures var plan := TransferPlan(env, sipDomain, hint, participants);
      && (plan.Some? <==>
            AutoTransferEnabled(env)
            && !AllSpace(GetEnv(env, "DEFAULT_TRANSFER_NUMBER", ""))
            && ResolveIdentity(hint, participants) != "")
      && (plan.Some? ==>
            plan.value.participantIdentity == ResolveIdentity(hint, participants)
            && plan.value.transferTo == FormatTransferDestination(ConfiguredDestination(env), sipDomain)
            && (StartsWith(plan.value.transferTo, "sip:") || StartsWith(plan.value.transferTo, "tel:")))
  {
  }

  /** Only an empty participant identity stops a transfer after the gates: a number with
      digits or an empty room always yields a request. */
  lemma IdentityNeverBlocksWithoutEmptyParticipant(env: Env, sipDomain: string, hint: Option<string>, participants: seq<string>)
    requires AutoTransferEnabled(env) && ConfiguredDestination(env) != ""
    requires Digits(PhoneOrEmpty(hint)) != "" || participants == [] || participants[0] != ""
    ensures TransferPlan(env, sipDomain, hint, participants).Some?
  {
  }

  /** Unset `AUTO_TRANSFER_ON_FAILURE` means enabled. */
  lemma TransferEnabledByDefault(env: Env)
    requires "AUTO_TRANSFER_ON_FAILURE" !in env
    ensures AutoTransferEnabled(env)
  {
    assert Lower("true") == "true";
  }

  /** The identity lookup of `_transfer_now`: the number's identity, or, when that is the
      unknown sentinel, the first remote participant's. */
  method FindIdentity(hint: Option<string>, participants: seq<string>) returns (identity: string)
    ensures identity == ResolveIdentity(hint, participants)
  {
    identity := ParticipantIdentityForPhone(PhoneOrEmpty(hint));
    if identity == UnknownIdentity {
      for i := 0 to |participants|
        invariant i == 0
      {
        identity := participants[i];
        break;
      }
    }
  }

  /** `_transfer_now`. `request` is the API call made (None: no call); `ok` is the result. */
  method TransferNow(env: Env, sipDomain: string, hint: Option<string>, participants: seq<string>, apiSucceeds: bool)
    returns (ok: bool, request: Option<TransferRequest>)
    ensures request == TransferPlan(env, sipDomain, hint, participants)
    ensures ok <==> request.Some? && apiSucceeds
  {
    ok, request := false, None;
    var enabled := Lower(GetEnv(env, "AUTO_TRANSFER_ON_FAILURE", "true")) == "true";
    assert enabled == AutoTransferEnabled(env);
    if !enabled {
      return;
    }

    var destination := Strip(GetEnv(env, "DEFAULT_TRANSFER_NUMBER", ""));
    assert destination == ConfiguredDestination(env);
    if destination == "" {
      return;
    }

    destination := FormatTransferDestination(destination, sipDomain);
    var identity := FindIdentity(hint, participants);
    if identity == "" {
      return;
    }

    request := Some(TransferRequest(identity, destination));
    ok := apiSucceeds;
  }
}
