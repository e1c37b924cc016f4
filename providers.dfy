/** Which language model an id resolves to (lib/ai/providers.ts). Outside the
    test environment every id goes to Hugging Face; reasoning ids are wrapped
    so that `<thinking>` sections are extracted, after one trailing
    "-thinking" is removed from the id. In the test environment only the four
    mock names resolve. */
module Providers {
  import opened Wrappers
  import opened Strings

  const THINKING_SUFFIX: string := "-thinking"

  /** The names the test environment's custom provider knows. */
  const MOCK_NAMES: seq<string> := ["chat-model", "chat-model-reasoning", "title-model", "artifact-model"]

  const TITLE_MODEL_ID: string := "meta-llama/Llama-3.1-8B-Instruct"
  const ARTIFACT_MODEL_ID: string := "mistralai/Mistral-7B-Instruct-v0.3"

  /** What a lookup hands back: a mock model, a Hugging Face model, or a
      Hugging Face model wrapped by the reasoning middleware with its tag. */
  datatype LanguageModel =
    | MockModel(name: string)
    | HostedModel(id: string)
    | ReasoningModel(baseId: string, tagName: string)

  /** `modelId.includes("reasoning") || modelId.endsWith("-thinking")`. */
  predicate IsReasoning(modelId: string) {
    Contains(modelId, "reasoning") || EndsWith(modelId, THINKING_SUFFIX)
  }

  /** `modelId.replace(/-thinking$/, "")`: one trailing "-thinking" removed,
      any other id unchanged. */
  function BaseId(modelId: string): (r: string)
    ensures EndsWith(modelId, THINKING_SUFFIX) ==> r + THINKING_SUFFIX == modelId
    ensures !EndsWith(modelId, THINKING_SUFFIX) ==> r == modelId
    ensures |r| <= |modelId|
  {
    if EndsWith(modelId, THINKING_SUFFIX) then modelId[..|modelId| - |THINKING_SUFFIX|] else modelId
  }

  /** Removing the suffix is not idempotent: a doubled suffix loses one copy
      per call. */
  lemma BaseIdNotIdempotent()
    ensures BaseId("x-thinking-thinking") == "x-thinking"
    ensures BaseId(BaseId("x-thinking-thinking")) == "x"
  {
    assert EndsWith("x-thinking-thinking", THINKING_SUFFIX);
    assert EndsWith("x-thinking", THINKING_SUFFIX);
  }

  /** Appending the suffix to any id and resolving strips exactly that copy. */
  lemma BaseIdStripsOneSuffix(id: string)
    ensures BaseId(id + THINKING_SUFFIX) == id
  {
    var s := id + THINKING_SUFFIX;
    assert s[|s| - |THINKING_SUFFIX|..] == THINKING_SUFFIX;
    assert s[..|s| - |THINKING_SUFFIX|] == id;
  }

  /** `getLanguageModel`. In the test environment the mock provider answers
      for its four names and throws for any other (`None`), before any
      reasoning check; otherwise the id is resolved on Hugging Face. */
  function GetLanguageModel(testEnv: bool, modelId: string): (r: Option<LanguageModel>)
    ensures testEnv ==> (r.Some? <==> modelId in MOCK_NAMES)
    ensures testEnv && r.Some? ==> r.value == MockModel(modelId)
    ensures !testEnv ==> r.Some? && !r.value.MockModel?
    ensures !testEnv && IsReasoning(modelId) ==> r == Some(ReasoningModel(BaseId(modelId), "thinking"))
    ensures !testEnv && !IsReasoning(modelId) ==> r == Some(HostedModel(modelId))
  {
    if testEnv then
      if modelId in MOCK_NAMES then Some(MockModel(modelId)) else None
    else if IsReasoning(modelId) then
      Some(ReasoningModel(BaseId(modelId), "thinking"))
    else
      Some(HostedModel(modelId))
  }

  /** The id that reaches Hugging Face outside tests. */
  function HostedId(m: LanguageModel): string {
    match m
    case MockModel(name) => name
    case HostedModel(id) => id
    case ReasoningModel(baseId, _) => baseId
  }

  /** Outside tests the id sent to Hugging Face is the requested id, possibly
      without one trailing "-thinking"; it differs from the requested id only
      for a reasoning id ending in the suffix. */
  lemma HostedIdIsRequestedId(modelId: string)
    ensures var id := HostedId(GetLanguageModel(false, modelId).value);
            (id == modelId || id + THINKING_SUFFIX == modelId) &&
            (id != modelId <==> EndsWith(modelId, THINKING_SUFFIX))
  {
    var id := HostedId(GetLanguageModel(false, modelId).value);
    if EndsWith(modelId, THINKING_SUFFIX) {
      assert |id| < |modelId|;
    }
  }

  /** In the test environment the mock's "chat-model-reasoning" is returned
      as the mock itself, never wrapped, although its name marks a reasoning
      id. */
  lemma MockReasoningNotWrapped()
    ensures IsReasoning("chat-model-reasoning")
    ensures GetLanguageModel(true, "chat-model-reasoning") == Some(MockModel("chat-model-reasoning"))
  {
    assert At("chat-model-reasoning", "reasoning", 11);
  }

  /** `getTitleModel`. */
  function GetTitleModel(testEnv: bool): (r: LanguageModel)
    ensures !r.ReasoningModel?
  {
    if testEnv then MockModel("title-model") else HostedModel(TITLE_MODEL_ID)
  }

  /** `getArtifactModel`. */
  function GetArtifactModel(testEnv: bool): (r: LanguageModel)
    ensures !r.ReasoningModel?
  {
    if testEnv then MockModel("artifact-model") else HostedModel(ARTIFACT_MODEL_ID)
  }

  /** No fixed id marks a reasoning model, so the title and artifact models
      are what `getLanguageModel` gives for their ids. */
  lemma FixedModelsAgreeWithLookup(testEnv: bool)
    ensures Some(GetTitleModel(testEnv)) == GetLanguageModel(testEnv, if testEnv then "title-model" else TITLE_MODEL_ID)
    ensures Some(GetArtifactModel(testEnv)) ==
            GetLanguageModel(testEnv, if testEnv then "artifact-model" else ARTIFACT_MODEL_ID)
  {
    if !testEnv {
      NotReasoning(TITLE_MODEL_ID);
      NotReasoning(ARTIFACT_MODEL_ID);
    }
  }

  /** An id without the letter 'g' is not a reasoning id: both "reasoning"
      and "-thinking" end in 'g'. */
  lemma NotReasoning(id: string)
    requires forall i :: 0 <= i < |id| ==> id[i] != 'g'
    ensures !IsReasoning(id)
  {
    forall i: nat | i <= |id|
      ensures !At(id, "reasoning", i)
    {
      if i + 9 <= |id| {
        assert id[i..i + 9][8] == id[i + 8];
      }
    }
    if |id| >= |THINKING_SUFFIX| {
      assert id[|id| - |THINKING_SUFFIX|..][8] == id[|id| - 1];
    }
  }
}
