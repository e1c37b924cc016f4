/** The moderation verdict (lib/ai/moderation-ai.ts): the moderation model's
    reply, trimmed and upper-cased, is "UNSAFE" for an unsafe message; every
    other reply counts as safe. A failed model call is reported as the
    "offline:chat" error instead of a verdict. The model's reply is an input:
    `None` when the call fails. */
module Moderation {
  import opened Wrappers
  import opened Strings
  import opened Providers

  const MODERATION_MODEL_NAME: string := "meta-llama/Llama-3.1-8B-Instruct"

  /** The code of the error thrown when moderation cannot run. */
  const OFFLINE: string := "offline:chat"

  /** The verdict read from a reply: `true` when the message is unsafe. A
      reply that is neither "SAFE" nor "UNSAFE" is treated as safe. */
  function Verdict(reply: string): (unsafe: bool)
    ensures unsafe <==> ToUpper(Trim(reply)) == "UNSAFE"
  {
    var parsed := ToUpper(Trim(reply));
    if parsed == "UNSAFE" then true
    else if parsed == "SAFE" then false
    else false
  }

  /** `checkMessageWithAI`. The model lookup and the call both sit inside the
      `try`, so a lookup the provider refuses (every lookup of this id in the
      test environment) fails the same way as the call. */
  function CheckMessage(testEnv: bool, reply: Option<string>): (r: Result<bool, string>)
    ensures r.Failure? ==> r.error == OFFLINE
    ensures r.Success? <==> !testEnv && reply.Some?
    ensures r.Success? ==> (r.value <==> ToUpper(Trim(reply.value)) == "UNSAFE")
  {
    match GetLanguageModel(testEnv, MODERATION_MODEL_NAME)
    case None => Failure(OFFLINE)
    case Some(_) =>
      match reply
      case None => Failure(OFFLINE)
      case Some(text) => Success(Verdict(text))
  }

  /** White space around the reply never changes the verdict. */
  lemma VerdictIgnoresPadding(pad1: string, reply: string, pad2: string)
    requires AllSpace(pad1) && AllSpace(pad2)
    ensures Verdict(pad1 + reply + pad2) == Verdict(reply)
  {
    TrimPadded(pad1, reply, pad2);
  }

  /** "unsafe" in any mix of cases is unsafe, with or without padding. */
  lemma UnsafeInAnyCase()
    ensures Verdict("unSafe")
  {
    TrimUnpadded("unSafe");
    UpperOfMixedCase();
  }

  lemma UpperOfMixedCase()
    ensures ToUpper("unSafe") == "UNSAFE"
  {
  }

  lemma PaddedUnsafe(pad1: string, pad2: string)
    requires AllSpace(pad1) && AllSpace(pad2)
    ensures Verdict(pad1 + "unSafe" + pad2)
  {
    UnsafeInAnyCase();
    VerdictIgnoresPadding(pad1, "unSafe", pad2);
  }

  /** "safe" in any case is safe. */
  lemma SafeInAnyCase()
    ensures !Verdict("Safe")
  {
    TrimUnpadded("Safe");
  }

  /** The check fails open: a reply with anything more than the word, such as
      "UNSAFE.", counts as safe. */
  lemma VerdictFailsOpen()
    ensures !Verdict("UNSAFE.")
  {
    TrimUnpadded("UNSAFE.");
  }

  /** The moderation model id is not a reasoning id, so it reaches Hugging
      Face unwrapped and unchanged. */
  lemma ModerationModelUnwrapped()
    ensures !IsReasoning(MODERATION_MODEL_NAME)
    ensures GetLanguageModel(false, MODERATION_MODEL_NAME) == Some(HostedModel(MODERATION_MODEL_NAME))
  {
    NotReasoning(MODERATION_MODEL_NAME);
  }
}
