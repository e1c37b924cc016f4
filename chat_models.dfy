/** The Hugging Face chat catalog (lib/ai/models.ts): six models, the default
    model id, and the catalog grouped by provider for the model picker. The
    grouping is a `reduce` that creates a provider's array the first time the
    provider is met and pushes each model onto it; the object's keys keep
    their insertion order (for ordinary, non-numeric provider names), which is
    modelled as a separate key sequence. */
module ChatModels {
  import opened Seqs

  datatype ChatModel = ChatModel(id: string, name: string, provider: string, description: string)

  function ProviderOf(m: ChatModel): string { m.provider }

  const DEFAULT_CHAT_MODEL: string := "meta-llama/Llama-3.1-8B-Instruct"

  const CHAT_MODELS: seq<ChatModel> := [
    ChatModel("meta-llama/Llama-3.1-8B-Instruct", "Llama 3.1 8B", "meta",
              "Fast and efficient Llama model for daily tasks"),
    ChatModel("meta-llama/Llama-3.1-70B-Instruct", "Llama 3.1 70B", "meta",
              "Highly capable for complex reasoning and tasks"),
    ChatModel("NousResearch/Hermes-3-Llama-3.1-8B", "Hermes 3 (Llama 8B)", "meta",
              "Llama 3.1 fine-tuned for better instruction following"),
    ChatModel("Qwen/Qwen2.5-7B-Instruct", "Qwen 2.5 7B", "alibaba",
              "Alibaba's latest efficient 7B model"),
    ChatModel("Qwen/Qwen2.5-32B-Instruct", "Qwen 2.5 32B", "alibaba",
              "Perfect balance between speed and performance"),
    ChatModel("Qwen/Qwen2.5-72B-Instruct", "Qwen 2.5 72B", "alibaba",
              "Most powerful Qwen model for expert results")
  ]

  /** The default model is the first catalog entry. */
  lemma DefaultModelInCatalog()
    ensures exists m :: m in CHAT_MODELS && m.id == DEFAULT_CHAT_MODEL
  {
    assert CHAT_MODELS[0].id == DEFAULT_CHAT_MODEL;
  }

  /** The providers of `models` in the order they first occur. */
  function ProviderKeys(models: seq<ChatModel>): seq<string> {
    if models == [] then []
    else
      var keys := ProviderKeys(models[..|models| - 1]);
      var p := models[|models| - 1].provider;
      if p in keys then keys else keys + [p]
  }

  /** The keys are exactly the providers that occur, each listed once. */
  lemma {:induction false} ProviderKeysSpec(models: seq<ChatModel>)
    ensures forall p :: p in ProviderKeys(models) <==> exists m :: m in models && m.provider == p
    ensures forall i, j :: 0 <= i < j < |ProviderKeys(models)| ==> ProviderKeys(models)[i] != ProviderKeys(models)[j]
    decreases |models|
  {
    if models != [] {
      var init := models[..|models| - 1];
      var last := models[|models| - 1];
      ProviderKeysSpec(init);
      var keys := ProviderKeys(init);
      var keys' := ProviderKeys(models);
      assert keys' == if last.provider in keys then keys else keys + [last.provider];
      forall i, j | 0 <= i < j < |keys'|
        ensures keys'[i] != keys'[j]
      {
        if j == |keys| {
          assert keys'[i] == keys[i] && keys'[j] == last.provider;
        } else {
          assert keys'[i] == keys[i] && keys'[j] == keys[j];
        }
      }
      assert models == init + [last];
      assert forall m :: m in models <==> m in init || m == last;
    }
  }

  /** `groups` and `keys` are the grouping of `models`: the keys in
      first-occurrence order, and for each key its models in order. */
  ghost predicate Grouped(models: seq<ChatModel>, groups: map<string, seq<ChatModel>>, keys: seq<string>) {
    keys == ProviderKeys(models) &&
    (forall p :: p in groups <==> p in keys) &&
    forall p :: p in groups ==> groups[p] == Select(models, ProviderOf, p) && groups[p] != []
  }

  /** `chatModels.reduce(...)`: `groups` maps each provider to its models in
      catalog order and `keys` lists the providers in the order they first occur. */
  method GroupByProvider(models: seq<ChatModel>) returns (groups: map<string, seq<ChatModel>>, keys: seq<string>)
    ensures Grouped(models, groups, keys)
  {
    groups := map[];
    keys := [];
    for i := 0 to |models|
      invariant Grouped(models[..i], groups, keys)
    {
      var m := models[i];
      assert models[..i + 1] == models[..i] + [m];
      GroupedSnoc(models[..i], m, groups, keys);
      if m.provider !in groups {
        groups := groups[m.provider := []];
        keys := keys + [m.provider];
      }
      groups := groups[m.provider := groups[m.provider] + [m]];
    }
    assert models[..|models|] == models;
  }

  /** One step of the `reduce`: create the provider's group when it is new,
      then push the model onto it. */
  lemma GroupedSnoc(s: seq<ChatModel>, m: ChatModel, groups: map<string, seq<ChatModel>>, keys: seq<string>)
    requires Grouped(s, groups, keys)
    ensures var created := if m.provider in groups then groups else groups[m.provider := []];
            var keys' := if m.provider in groups then keys else keys + [m.provider];
            Grouped(s + [m], created[m.provider := created[m.provider] + [m]], keys')
  {
    KeysSnoc(s, m);
    ProviderKeysSpec(s);
    GroupsSnoc(s, m, groups);
  }

  /** The group contents after that step: each group is its provider's
      selection of the extended catalog. */
  lemma GroupsSnoc(s: seq<ChatModel>, m: ChatModel, groups: map<string, seq<ChatModel>>)
    requires forall p :: p in groups ==> groups[p] == Select(s, ProviderOf, p) && groups[p] != []
    requires forall x :: x in s ==> x.provider in groups
    ensures var created := if m.provider in groups then groups else groups[m.provider := []];
            var groups' := created[m.provider := created[m.provider] + [m]];
            forall p :: p in groups' ==> groups'[p] == Select(s + [m], ProviderOf, p) && groups'[p] != []
  {
    var created := if m.provider in groups then groups else groups[m.provider := []];
    assert created[m.provider] == Select(s, ProviderOf, m.provider) by {
      if m.provider !in groups {
        SelectNoneMatching(s, ProviderOf, m.provider);
      }
    }
    SelectSnoc(s, m);
  }

  /** Appending a model extends its provider's selection by that model and
      leaves every other provider's selection as it is. */
  lemma SelectSnoc(s: seq<ChatModel>, m: ChatModel)
    ensures forall p :: Select(s + [m], ProviderOf, p) ==
                        Select(s, ProviderOf, p) + (if m.provider == p then [m] else [])
  {
    forall p ensures Select(s + [m], ProviderOf, p) ==
                     Select(s, ProviderOf, p) + (if m.provider == p then [m] else [])
    {
      SelectAppend(s, [m], ProviderOf, p);
      assert [m][1..] == [];
    }
  }

  /** The total size of the groups listed in `keys`. */
  function GroupSizes(models: seq<ChatModel>, keys: seq<string>): nat {
    if keys == [] then 0
    else GroupSizes(models, keys[..|keys| - 1]) + |Select(models, ProviderOf, keys[|keys| - 1])|
  }

  /** Every model lands in exactly one group: the group sizes add up to the
      catalog length. */
  lemma {:induction false} GroupSizesSum(models: seq<ChatModel>)
    ensures GroupSizes(models, ProviderKeys(models)) == |models|
    decreases |models|
  {
    if models != [] {
      var init := models[..|models| - 1];
      var last := models[|models| - 1];
      assert models == init + [last];
      GroupSizesSum(init);
      ProviderKeysSpec(init);
      GroupSizesStep(init, last, ProviderKeys(init));
      if last.provider !in ProviderKeys(init) {
        SelectNoneMatching(init, ProviderOf, last.provider);
        SelectAppend(init, [last], ProviderOf, last.provider);
      }
    }
  }

  /** Appending one model grows the listed groups by one when its provider is
      among the keys, and leaves them as they are otherwise. */
  lemma {:induction false} GroupSizesStep(init: seq<ChatModel>, last: ChatModel, keys: seq<string>)
    requires forall i, j :: 0 <= i < j < |keys| ==> keys[i] != keys[j]
    ensures GroupSizes(init + [last], keys) ==
            GroupSizes(init, keys) + (if last.provider in keys then 1 else 0)
    decreases |keys|
  {
    if keys != [] {
      var front := keys[..|keys| - 1];
      var k := keys[|keys| - 1];
      GroupSizesStep(init, last, front);
      SelectAppend(init, [last], ProviderOf, k);
      assert last.provider in keys <==> last.provider in front || last.provider == k;
      assert k !in front;
    }
  }

  /** A run of models of one provider has that provider as its only key. */
  lemma {:induction false} OneProviderKeys(s: seq<ChatModel>, p: string)
    requires s != [] && forall i :: 0 <= i < |s| ==> s[i].provider == p
    ensures ProviderKeys(s) == [p]
    decreases |s|
  {
    var init := s[..|s| - 1];
    assert s == init + [s[|s| - 1]];
    KeysSnoc(init, s[|s| - 1]);
    if init != [] {
      OneProviderKeys(init, p);
    }
  }

  /** A run of models of provider `p` followed by a run of provider `q` has
      the keys `p`, then `q`. */
  lemma {:induction false} TwoProviderKeys(a: seq<ChatModel>, b: seq<ChatModel>, p: string, q: string)
    requires a != [] && forall i :: 0 <= i < |a| ==> a[i].provider == p
    requires b != [] && forall i :: 0 <= i < |b| ==> b[i].provider == q
    requires p != q
    ensures ProviderKeys(a + b) == [p, q]
    decreases |b|
  {
    var front := b[..|b| - 1];
    var last := b[|b| - 1];
    assert a + b == (a + front) + [last];
    KeysSnoc(a + front, last);
    if front == [] {
      assert a + front == a;
      OneProviderKeys(a, p);
    } else {
      TwoProviderKeys(a, front, p, q);
    }
  }

  /** Two runs of distinct providers group into two keys, each group holding
      its whole run. */
  lemma TwoRunsGroups(a: seq<ChatModel>, b: seq<ChatModel>, p: string, q: string)
    requires a != [] && forall i :: 0 <= i < |a| ==> a[i].provider == p
    requires b != [] && forall i :: 0 <= i < |b| ==> b[i].provider == q
    requires p != q
    ensures ProviderKeys(a + b) == [p, q]
    ensures Select(a + b, ProviderOf, p) == a
    ensures Select(a + b, ProviderOf, q) == b
  {
    TwoProviderKeys(a, b, p, q);
    SelectAppend(a, b, ProviderOf, p);
    SelectAppend(a, b, ProviderOf, q);
    SelectAllMatching(a, ProviderOf, p);
    SelectNoneMatching(b, ProviderOf, p);
    SelectNoneMatching(a, ProviderOf, q);
    SelectAllMatching(b, ProviderOf, q);
  }

  /** The picker shows two groups, Meta first, each with three models. */
  lemma CatalogGroups()
    ensures ProviderKeys(CHAT_MODELS) == ["meta", "alibaba"]
    ensures |Select(CHAT_MODELS, ProviderOf, "meta")| == 3
    ensures |Select(CHAT_MODELS, ProviderOf, "alibaba")| == 3
  {
    var meta, alibaba := CHAT_MODELS[..3], CHAT_MODELS[3..];
    assert CHAT_MODELS == meta + alibaba;
    assert forall i :: 0 <= i < |meta| ==> meta[i].provider == "meta";
    assert forall i :: 0 <= i < |alibaba| ==> alibaba[i].provider == "alibaba";
    TwoRunsGroups(meta, alibaba, "meta", "alibaba");
  }

  lemma KeysSnoc(s: seq<ChatModel>, m: ChatModel)
    ensures ProviderKeys(s + [m]) ==
            if m.provider in ProviderKeys(s) then ProviderKeys(s) else ProviderKeys(s) + [m.provider]
  {
    assert (s + [m])[..|s|] == s;
  }
}
