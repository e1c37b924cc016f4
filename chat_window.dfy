/** The chat window's derived values (src/components/ChatWindow.tsx): the
    current model with its fallback, the brand list and brand filter of the
    model selector, and the guard of the send button. */
module ChatWindow {
  import opened Wrappers
  import opened Strings
  import opened Seqs
  import opened Catalog

  /** The catalog entry with the given id, or the first catalog entry when
      there is none. */
  function CurrentModel(currentModelId: string): (m: AIModel)
    ensures m in MODELS
    ensures (exists k :: 0 <= k < |MODELS| && MODELS[k].id == currentModelId) ==> m.id == currentModelId
    ensures (forall k :: 0 <= k < |MODELS| ==> MODELS[k].id != currentModelId) ==> m == MODELS[0]
  {
    match Find(MODELS, IdOf, currentModelId)
    case Some(found) => found
    case None => MODELS[0]
  }

  /** Every element sorts strictly before every later one: sorted and free of
      duplicates. */
  predicate StrictlySorted(s: seq<string>) {
    forall i, j :: 0 <= i < j < |s| ==> Below(s[i], s[j])
  }

  /** Adds `x` to a strictly sorted list at its place, unless it is there. */
  function InsertBrand(x: string, s: seq<string>): (r: seq<string>)
    requires StrictlySorted(s)
    ensures StrictlySorted(r)
    ensures forall y :: y in r <==> y == x || y in s
  {
    if s == [] then [x]
    else if x == s[0] then s
    else if Below(x, s[0]) then
      assert StrictlySorted([x] + s) by {
        forall i, j | 0 <= i < j < |[x] + s| ensures Below(([x] + s)[i], ([x] + s)[j]) {
          if i == 0 && j > 1 {
            BelowTransitive(x, s[0], s[j - 1]);
          }
        }
      }
      [x] + s
    else
      var r := [s[0]] + InsertBrand(x, s[1..]);
      assert StrictlySorted(r) by {
        BelowTotal(x, s[0]);
        forall i, j | 0 <= i < j < |r| ensures Below(r[i], r[j]) {
          if i == 0 {
            assert r[j] in InsertBrand(x, s[1..]);
            assert r[j] == x || r[j] in s[1..];
          }
        }
      }
      r
  }

  /** `Array.from(new Set(models.map(m => m.brand))).sort()`: the brands, each
      once, in string order. Sorting a duplicate-free list has one result, so
      the set-then-sort is modelled as inserting each brand at its place. */
  function Brands(models: seq<AIModel>): (r: seq<string>)
  {
    if models == [] then [] else InsertBrand(models[0].brand, Brands(models[1..]))
  }

  /** The brand list is duplicate-free, sorted, and holds exactly the brands of
      the models. */
  lemma {:induction false} BrandsSpec(models: seq<AIModel>)
    ensures StrictlySorted(Brands(models))
    ensures forall b :: b in Brands(models) <==> exists m :: m in models && m.brand == b
  {
    if models != [] {
      BrandsSpec(models[1..]);
      forall b ensures b in Brands(models) <==> exists m :: m in models && m.brand == b {
        if b in Brands(models) && b != models[0].brand {
          var m :| m in models[1..] && m.brand == b;
          assert m in models;
        }
      }
    }
  }

  /** No two entries of a strictly sorted list are equal. */
  lemma StrictlySortedDistinct(s: seq<string>)
    requires StrictlySorted(s)
    ensures forall i, j :: 0 <= i < j < |s| ==> s[i] != s[j]
  {
    forall i, j | 0 <= i < j < |s| ensures s[i] != s[j] {
      BelowIrreflexive(s[i]);
    }
  }

  /** The models offered for the selected brand: the whole catalog when no brand
      is selected (an empty brand name is falsy and counts as none), otherwise
      that brand's models. */
  function FilteredModels(selectedBrand: Option<string>): (r: seq<AIModel>)
    ensures selectedBrand.None? || selectedBrand.value == [] ==> r == MODELS
    ensures selectedBrand.Some? && selectedBrand.value != [] ==>
              SubseqOf(r, MODELS) &&
              forall m :: m in r <==> m in MODELS && m.brand == selectedBrand.value
  {
    if selectedBrand.None? || selectedBrand.value == [] then MODELS
    else Select(MODELS, BrandOf, selectedBrand.value)
  }

  /** Effect of the send button. */
  datatype SendEffect = Ignored | Send(content: string, modelId: string)

  /** `handleSend`: nothing happens for blank input, while a reply is loading or
      during a blind test; otherwise the input, untrimmed, is sent with the
      current model id and the input box is cleared. Returns the effect and the
      new content of the input box. */
  function HandleSend(input: string, isLoading: bool, isBlindTest: bool, currentModelId: string)
    : (r: (SendEffect, string))
    ensures r.0.Send? <==>
              (exists i :: 0 <= i < |input| && !IsSpace(input[i])) && !isLoading && !isBlindTest
    ensures r.0.Send? ==> r.0 == Send(input, currentModelId) && r.1 == []
    ensures r.0.Ignored? ==> r.1 == input
  {
    if Trim(input) == [] || isLoading || isBlindTest then (Ignored, input)
    else (Send(input, currentModelId), [])
  }
}
