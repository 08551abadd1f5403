/** Configuration validation at job start (agent.py `_validate_runtime_config`): which
    environment variables must be set, given the selected language-model and speech
    providers, reported once each in order of first detection. */
module Config {
  import opened Common
  import opened Text

  /** Credentials every job needs, in the order they are checked. */
  const RequiredCommon: seq<string> :=
    ["LIVEKIT_URL", "LIVEKIT_API_KEY", "LIVEKIT_API_SECRET", "OUTBOUND_TRUNK_ID"]

  function LlmProvider(env: Env): string
  {
    Lower(GetEnv(env, "LLM_PROVIDER", "livekit"))
  }

  function TtsProvider(env: Env): string
  {
    Lower(GetEnv(env, "TTS_PROVIDER", "openai"))
  }

  /** The keys among `keys` that are unset or empty, in order. */
  function UnsetKeys(env: Env, keys: seq<string>): seq<string>
  {
    if keys == [] then []
    else
      var init, last := keys[..|keys| - 1], keys[|keys| - 1];
      UnsetKeys(env, init) + (if IsSet(env, last) then [] else [last])
  }

  /** The key the language-model branch appends, if any. */
  function LlmKeyMissing(env: Env): seq<string>
  {
    var llm := LlmProvider(env);
    if llm == "gemini" && !IsSet(env, "GEMINI_API_KEY") then ["GEMINI_API_KEY"]
    else if llm == "openai" && !IsSet(env, "OPENAI_API_KEY") then ["OPENAI_API_KEY"]
    else []
  }

  /** The key the speech-synthesis branch appends, if any. */
  function TtsKeyMissing(env: Env): seq<string>
  {
    var tts := TtsProvider(env);
    if tts == "cartesia" && !IsSet(env, "CARTESIA_API_KEY") then ["CARTESIA_API_KEY"]
    else if tts == "openai" && !IsSet(env, "OPENAI_API_KEY") then ["OPENAI_API_KEY"]
    else if tts == "gemini" && !IsSet(env, "GEMINI_API_KEY") then ["GEMINI_API_KEY"]
    else []
  }

  /** The `missing` list before duplicates are removed. */
  function RawMissing(env: Env): seq<string>
  {
    UnsetKeys(env, RequiredCommon) + LlmKeyMissing(env) + TtsKeyMissing(env)
  }

  /** The reported list: `RawMissing` with later repeats dropped. */
  function MissingVariables(env: Env): seq<string>
  {
    Dedup(RawMissing(env))
  }

  /** Independent statement of which variables the job needs. */
  predicate MustBeSet(env: Env, key: string)
  {
    || key in RequiredCommon
    || (key == "GEMINI_API_KEY" && (LlmProvider(env) == "gemini" || TtsProvider(env) == "gemini"))
    || (key == "OPENAI_API_KEY" && (LlmProvider(env) == "openai" || TtsProvider(env) == "openai"))
    || (key == "CARTESIA_API_KEY" && TtsProvider(env) == "cartesia")
  }

  predicate NoDuplicates(s: seq<string>)
  {
    forall i, j :: 0 <= i < j < |s| ==> s[i] != s[j]
  }

  /** `list(dict.fromkeys(s))`: each element once, at its first occurrence. */
  function Dedup(s: seq<string>): (r: seq<string>)
    ensures NoDuplicates(r)
    ensures forall x :: x in r <==> x in s
    ensures |r| <= |s|
  {
    if s == [] then []
    else
      var init, last := s[..|s| - 1], s[|s| - 1];
      assert s == init + [last];
      var d := Dedup(init);
      if last in d then d else d + [last]
  }

  /** Position of the first occurrence of `x` in `s`. */
  function FirstIndex(s: seq<string>, x: string): (k: nat)
    requires x in s
    ensures k < |s| && s[k] == x && x !in s[..k]
  {
    if s[0] == x then 0
    else
      var k := FirstIndex(s[1..], x);
      assert s[..k + 1] == [s[0]] + s[1..][..k];
      k + 1
  }

  lemma FirstIndexUnique(s: seq<string>, x: string, k: nat)
    requires k < |s| && s[k] == x && x !in s[..k]
    ensures FirstIndex(s, x) == k
  {
  }

  lemma FirstIndexExtend(p: seq<string>, y: string, x: string)
    requires x in p
    ensures FirstIndex(p + [y], x) == FirstIndex(p, x)
  {
    var k := FirstIndex(p, x);
    assert (p + [y])[..k] == p[..k];
    FirstIndexUnique(p + [y], x, k);
  }

  /** Removing duplicates keeps the order of first occurrences. */
  lemma {:induction false} DedupKeepsFirstOccurrenceOrder(s: seq<string>, i: nat, j: nat)
    requires i < j < |Dedup(s)|
    ensures FirstIndex(s, Dedup(s)[i]) < FirstIndex(s, Dedup(s)[j])
    decreases |s|
  {
    var init, last := s[..|s| - 1], s[|s| - 1];
    assert s == init + [last];
    var d := Dedup(init);
    var x, y := Dedup(s)[i], Dedup(s)[j];
    assert x in d;
    FirstIndexExtend(init, last, x);
    if j < |d| {
      assert y in d;
      FirstIndexExtend(init, last, y);
      DedupKeepsFirstOccurrenceOrder(init, i, j);
    } else {
      assert y == last && last !in init;
      FirstIndexUnique(s, y, |s| - 1);
    }
  }

  /** A list without repeats is left as it is. */
  lemma {:induction false} DedupOfDistinct(s: seq<string>)
    requires NoDuplicates(s)
    ensures Dedup(s) == s
  {
    if s != [] {
      var init, last := s[..|s| - 1], s[|s| - 1];
      DedupOfDistinct(init);
      assert last !in init;
    }
  }

  /** Removing repeats from `p + q` starts with the result for `p`. */
  lemma {:induction false} DedupExtends(p: seq<string>, q: seq<string>)
    ensures |Dedup(p)| <= |Dedup(p + q)| && Dedup(p + q)[..|Dedup(p)|] == Dedup(p)
    decreases |q|
  {
    if q == [] {
      assert p + q == p;
    } else {
      var q0 := q[..|q| - 1];
      assert p + q == (p + q0) + [q[|q| - 1]];
      DedupExtends(p, q0);
      var dp, dpq0 := Dedup(p), Dedup(p + q0);
      assert Dedup(p + q) == dpq0 || Dedup(p + q) == dpq0 + [q[|q| - 1]];
      assert (dpq0 + [q[|q| - 1]])[..|dp|] == dpq0[..|dp|];
    }
  }

  lemma {:induction false} UnsetKeysSpec(env: Env, keys: seq<string>)
    ensures forall k :: k in UnsetKeys(env, keys) <==> k in keys && !IsSet(env, k)
  {
    if keys != [] {
      var init, last := keys[..|keys| - 1], keys[|keys| - 1];
      assert keys == init + [last];
      UnsetKeysSpec(env, init);
    }
  }

  lemma {:induction false} UnsetKeysDistinct(env: Env, keys: seq<string>)
    requires NoDuplicates(keys)
    ensures NoDuplicates(UnsetKeys(env, keys))
  {
    if keys != [] {
      var init, last := keys[..|keys| - 1], keys[|keys| - 1];
      UnsetKeysDistinct(env, init);
      UnsetKeysSpec(env, init);
      assert last !in init;
    }
  }

  /** The reported list names exactly the required variables that are unset or empty. */
  lemma MissingVariablesExact(env: Env, key: string)
    ensures key in MissingVariables(env) <==> MustBeSet(env, key) && !IsSet(env, key)
  {
    UnsetKeysSpec(env, RequiredCommon);
  }

  /** The unset credentials come first, in their fixed order. */
  lemma MissingCommonFirst(env: Env)
    ensures var common := UnsetKeys(env, RequiredCommon);
      |common| <= |MissingVariables(env)| && MissingVariables(env)[..|common|] == common
  {
    var common := UnsetKeys(env, RequiredCommon);
    UnsetKeysDistinct(env, RequiredCommon);
    DedupOfDistinct(common);
    assert RawMissing(env) == common + (LlmKeyMissing(env) + TtsKeyMissing(env));
    DedupExtends(common, LlmKeyMissing(env) + TtsKeyMissing(env));
  }

  lemma {:induction false} DistinctCountsOnce(s: seq<string>, x: string)
    requires NoDuplicates(s) && x in s
    ensures multiset(s)[x] == 1
  {
    var init, last := s[..|s| - 1], s[|s| - 1];
    assert s == init + [last];
    if last == x {
      assert x !in init;
    } else {
      DistinctCountsOnce(init, x);
    }
  }

  /** With both providers on OpenAI and no key, the key is reported exactly once. */
  lemma OpenAiKeyReportedOnce(env: Env)
    requires LlmProvider(env) == "openai" && TtsProvider(env) == "openai"
    requires !IsSet(env, "OPENAI_API_KEY")
    ensures multiset(MissingVariables(env))["OPENAI_API_KEY"] == 1
  {
    MissingVariablesExact(env, "OPENAI_API_KEY");
    DistinctCountsOnce(MissingVariables(env), "OPENAI_API_KEY");
  }

  /** `_validate_runtime_config`: collects the missing variables and raises exactly when
      there is one. `raised` stands for the `RuntimeError`. */
  method ValidateRuntimeConfig(env: Env) returns (missing: seq<string>, raised: bool)
    ensures missing == MissingVariables(env)
    ensures raised <==> missing != []
  {
    var found: seq<string> := [];
    for i := 0 to |RequiredCommon|
      invariant found == UnsetKeys(env, RequiredCommon[..i])
    {
      assert RequiredCommon[..i + 1][..i] == RequiredCommon[..i];
      if !IsSet(env, RequiredCommon[i]) {
        found := found + [RequiredCommon[i]];
      }
    }
    assert RequiredCommon[..|RequiredCommon|] == RequiredCommon;
    ghost var common := found;

    var llm := Lower(GetEnv(env, "LLM_PROVIDER", "livekit"));
    var tts := Lower(GetEnv(env, "TTS_PROVIDER", "openai"));

    if llm == "gemini" && !IsSet(env, "GEMINI_API_KEY") {
      found := found + ["GEMINI_API_KEY"];
    } else if llm == "openai" && !IsSet(env, "OPENAI_API_KEY") {
      found := found + ["OPENAI_API_KEY"];
    }

    if tts == "cartesia" && !IsSet(env, "CARTESIA_API_KEY") {
      found := found + ["CARTESIA_API_KEY"];
    } else if tts == "openai" && !IsSet(env, "OPENAI_API_KEY") {
      found := found + ["OPENAI_API_KEY"];
    } else if tts == "gemini" && !IsSet(env, "GEMINI_API_KEY") {
      found := found + ["GEMINI_API_KEY"];
    }

    assert found == common + LlmKeyMissing(env) + TtsKeyMissing(env);
    missing := Dedup(found);
    raised := missing != [];
  }
}
