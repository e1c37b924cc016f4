/** The client's data types and the static model catalog `MODELS`
    (src/lib/models.ts). */
module Catalog {
  import opened Wrappers
  import opened Strings
  import opened Seqs

  datatype Provider = Groq | Google | Puter | HuggingFace | OpenRouter
  datatype Tier = Free | Premium

  /** One catalog entry. The optional `icon` and `requiresPuter` fields are
      unused by every entry and are not modelled. */
  datatype AIModel = AIModel(id: string, name: string, provider: Provider, brand: string,
                             tier: Tier, description: string)

  /** A chat message: the role is only ever user or assistant. An absent
      `isBlind` is `false`. */
  datatype Role = User | Assistant
  datatype Message = Message(role: Role, content: string, modelId: Option<string>, isBlind: bool)

  /** A conversation; `createdAt` is a millisecond timestamp. */
  datatype Conversation = Conversation(id: string, title: string, messages: seq<Message>,
                                       modelId: string, createdAt: int)

  function IdOf(m: AIModel): string { m.id }
  function BrandOf(m: AIModel): string { m.brand }
  function TierOf(m: AIModel): Tier { m.tier }

  /** The catalog. An id with an organisation is written as the organisation
      prefix followed by the model's own name. */
  const MODELS: seq<AIModel> := [
    AIModel("llama-3.3-70b-versatile", "Llama 3.3", Groq, "Meta", Free,
            "Meta flagship versatile model."),
    AIModel("llama-3.1-8b-instant", "Llama 3.1", Groq, "Meta", Free,
            "Ultra-fast inference."),
    AIModel("meta-llama/" + "llama-4-maverick-17b-128e-instruct", "Llama 4 Maverick", Groq, "Meta", Free,
            "Meta Llama 4 - 17B Instruct (128E)."),
    AIModel("meta-llama/" + "llama-4-scout-17b-16e-instruct", "Llama 4 Scout", Groq, "Meta", Free,
            "Meta Llama 4 - 17B Instruct (16E)."),
    AIModel("openai/" + "gpt-oss-120b", "GPT OSS 120B", Groq, "OpenAI", Free,
            "Large open-weights GPT series."),
    AIModel("moonshotai/" + "kimi-k2-instruct-0905", "Kimi K2", Groq, "Moonshot", Free,
            "Advanced reasoning model."),
    AIModel("qwen/" + "qwen3-32b", "Qwen 3", Groq, "Alibaba", Free,
            "Alibaba next-gen open model.")
  ]

  /** The catalog is non-empty, so `MODELS[0]` is always a model. */
  lemma CatalogNonEmpty()
    ensures |MODELS| == 7
  {
  }

  /** Catalog ids are pairwise distinct. */
  lemma CatalogIdsDistinct()
    ensures DistinctKeys(MODELS, IdOf)
  {
    forall i, j | 0 <= i < j < |MODELS| ensures MODELS[i].id != MODELS[j].id {
      // the seven ids have seven different lengths
      assert |MODELS[i].id| != |MODELS[j].id|;
    }
  }

  /** Every entry is served by Groq and is in the free tier. */
  lemma CatalogAllGroqFree()
    ensures forall m :: m in MODELS ==> m.provider == Groq && m.tier == Free
  {
  }

  /** All seven models are free, so two different free models always exist
      for a blind test. */
  lemma FreeModelsAtLeastTwo()
    ensures Select(MODELS, TierOf, Free) == MODELS
    ensures |Select(MODELS, TierOf, Free)| >= 2
  {
    SelectAllMatching(MODELS, TierOf, Free);
  }
}
