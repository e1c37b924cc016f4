# DockyAI core in Dafny

DockyAI is a chat front end. A user keeps several conversations, picks a
model from a catalog of Groq-hosted models and chats with it. Now and then a
reply is replaced by a blind test: two anonymous models answer and the user
votes for one. A leaderboard ranks the models by their votes. This project
models the logic under that interface and proves what it promises:

- `ThinkTags` splits a reply into text and `<think>` thought parts
  (`parseContent`). The loop is kept and proved equal to a recursive scan.
  The scan is proved to round-trip: the parts, joined back, give the reply.
- `Catalog` holds the client's data types and the constant model catalog
  `MODELS`, with its invariants.
- `ChatWindow` holds the chat window's derived values: the current-model
  fallback, the sorted brand list, the brand filter and the send guard.
- `Leaderboard` holds the ranking: vote lookup, demonstration counts and a
  stable sort by votes, most first.
- `Sidebar` holds the history list: an in-place, stable, newest-first sort
  of an `array`, the title placeholder and the highlighted row.
- `Dashboard` is the conversation store of the main page. It is a `Store`
  class whose methods are the page's handlers. Every method is proved to
  move `Snapshot()` exactly as a pure step function does, and the properties
  are proved about those step functions.
- `ChatRoute` is the server route that relays a chat to Groq: request
  checks, the model keyword whitelist, message normalisation, streaming the
  non-empty deltas through a `StreamController` class, and error responses.
- `Providers` classifies model ids (`getLanguageModel`): mock models in the
  test environment, reasoning detection and `-thinking` suffix removal.
- `Moderation` reads the moderation model's verdict.
- `ChatModels` holds the Hugging Face chat catalog and its grouping by
  provider (`modelsByProvider`). The grouping is an imperative loop over a
  map.
- `Wrappers`, `Seqs` and `Strings` are shared helpers. `Option`/`Result`
  live in `Wrappers`. `Seqs` has `filter`/`find` over sequences. `Strings`
  has the JavaScript string operations the core uses: `includes`,
  `indexOf`, `endsWith`, `trim`, `toLowerCase`, `toUpperCase` and the
  default sort order.

Random draws (`Math.random`), the clock (`Date.now`), the signed-in Puter
user and every reply of a model provider are parameters of the operations
that use them. A provider call's result is an `Outcome`: the reply text, or
the message of the error it raised.

## Model

| member | source | states |
|---|---|---|
| ThinkTags.ParseContent | src/components/ChatWindow.tsx:25-45 | The `while` loop over `<think>` matches returns exactly the parts of the recursive scan `Parse`. The loop terminates: `lastIndex` grows by at least the seven characters of `<think>` per match. |
| ThinkTags.ParseRoundTrip | src/components/ChatWindow.tsx:26-44 | Joining the parts back gives the input exactly: text verbatim, each thought between `<think>` and `</think>`, and no closing tag only when the last thought is never closed. An unclosed thought is the last part. |
| ThinkTags.PartsRoundTrip | src/components/ChatWindow.tsx:26-42 | The same round trip for the scan started at any position of the text: the parts render back to the rest of the text from that position. |
| ThinkTags.ThoughtRoundTrip | src/components/ChatWindow.tsx:26-37 | Rendering the parts that follow an opening tag gives back the tag and the text after it. |
| ThinkTags.UnclosedEndsInThought | src/components/ChatWindow.tsx:26-36 | When the scan ends inside a thought that is never closed, that thought is the last part. |
| ThinkTags.ParseWellFormed | src/components/ChatWindow.tsx:26-44 | A thought never contains `</think>`, because it stops at the first one. A text part never contains `<think>`. A text part is non-empty unless the input is empty, and empty input gives one empty text part. |
| ThinkTags.PartsWellFormed | src/components/ChatWindow.tsx:26-41 | Every part the scan produces is well formed: non-empty text without `<think>`, or a thought without `</think>`. |
| ThinkTags.ParseWithoutThink | src/components/ChatWindow.tsx:40-44 | Input without `<think>` gives exactly one text part equal to the input. |
| ThinkTags.PartsEmptyIff | src/components/ChatWindow.tsx:40-44 | The scan finds no part exactly when it starts at the end of the text. From position 0 this means the input is empty, so the fallback at line 44 is taken only then. |
| ChatWindow.CurrentModel | src/components/ChatWindow.tsx:129 | The result is a catalog model. It is the entry with the given id when there is one, otherwise the first catalog entry. |
| ChatWindow.InsertBrand | src/components/ChatWindow.tsx:131 | Adding a brand to a strictly sorted list keeps it strictly sorted and adds exactly that brand. |
| ChatWindow.BrandsSpec | src/components/ChatWindow.tsx:131 | The brand list is strictly sorted in JavaScript's default string order, so it is sorted and duplicate-free. It holds exactly the brands of the models. |
| ChatWindow.StrictlySortedDistinct | src/components/ChatWindow.tsx:131 | A strictly sorted list has no two equal entries. |
| ChatWindow.FilteredModels | src/components/ChatWindow.tsx:132-134 | With no brand selected (or an empty, falsy one) the result is the whole catalog. Otherwise it is exactly that brand's models, in catalog order. |
| ChatWindow.HandleSend | src/components/ChatWindow.tsx:150-154 | A message is sent exactly when the input has a non-white-space character and there is neither a pending reply nor a blind test. Then the untrimmed input goes out with the current model id and the box is cleared. Otherwise nothing changes. |
| Leaderboard.VoteOf | src/components/Leaderboard.tsx:16 | A model's count is its stored count, or 0 when nobody has voted for it. |
| Leaderboard.DemoVote | src/components/Leaderboard.tsx:24 | The demonstration count of a catalog position comes from the fixed list, and is 0 past the ninth position. |
| Leaderboard.Tally | src/components/Leaderboard.tsx:13-17 | One entry per catalog model, in catalog order, with its id, name, provider and stored count. |
| Leaderboard.DemoTally | src/components/Leaderboard.tsx:21-25 | One entry per catalog model, in catalog order, with the demonstration count of its position. |
| Leaderboard.InsertPermutes | src/components/Leaderboard.tsx:18 | One insertion step of the sort adds the entry and loses none. |
| Leaderboard.InsertKeepsOrder | src/components/Leaderboard.tsx:18 | One insertion step keeps the list ordered by votes, most first. |
| Leaderboard.InsertStable | src/components/Leaderboard.tsx:18 | An inserted entry goes ahead of every later entry with the same count. |
| Leaderboard.SortByVotesSpec | src/components/Leaderboard.tsx:18 | The sort is a permutation and orders by votes, most first. It is stable: entries with equal counts keep their relative order. |
| Leaderboard.SortByVotesSorted | src/components/Leaderboard.tsx:26 | A list already ordered by votes is left unchanged. |
| Leaderboard.RankingsOfVotes | src/components/Leaderboard.tsx:12-30 | With stored votes, the ranking lists every catalog model exactly once with its stored count. Counts never increase down the ranking, and ties keep catalog order. |
| Leaderboard.DemoRankingsInCatalogOrder | src/components/Leaderboard.tsx:20-27 | With no stored vote, the ranking is the catalog in its own order, with the demonstration counts. |
| Leaderboard.ConversionFigure | src/components/Leaderboard.tsx:94 | The conversion figure is 12 minus the rank index up to rank index 10, and exactly 2 from there on. |
| Sidebar.SortNewestFirst | src/components/Sidebar.tsx:96 | Sorts the given array in place, newest first. It is a permutation, and conversations with equal timestamps keep their order (a stable sort). |
| Sidebar.SiftUp | src/components/Sidebar.tsx:96 | One insertion step extends the newest-first prefix by one element. It permutes and keeps the order of equal timestamps. |
| Sidebar.SwapKeepsTies | src/components/Sidebar.tsx:96 | Swapping two neighbours with different timestamps keeps the order among equal timestamps. |
| Sidebar.DisplayTitle | src/components/Sidebar.tsx:116 | An empty title shows as a non-empty placeholder; any other title shows as itself. |
| Sidebar.HighlightUnique | src/components/Sidebar.tsx:102-110 | A row is highlighted exactly when its id is the active id. With distinct ids, at most one row is highlighted. |
| Sidebar.ShowHistory | src/components/Sidebar.tsx:90-116 | No conversation shows the placeholder. Otherwise there is one row per conversation, after the caller's array has been sorted in place, newest first and stably. |
| Dashboard.Store.ShowSidebar | src/components/Sidebar.tsx:81-96 | On the chat page, the sidebar sorts the store's own conversation list (passed at src/app/page.tsx:227) in place: newest first, the same conversations, ties in their old order, and nothing else changes. On the leaderboard page, nothing changes. |
| Dashboard.NewChatKeepsNewestFirst | src/app/page.tsx:48-57 | When the clock never goes backwards, a new chat keeps the store in the sidebar's newest-first order. |
| Catalog.CatalogNonEmpty | src/lib/models.ts:29-86 | The catalog has seven entries, so the `MODELS[0]` default always exists. |
| Catalog.CatalogIdsDistinct | src/lib/models.ts:31-79 | Catalog ids are pairwise distinct. |
| Catalog.CatalogAllGroqFree | src/lib/models.ts:29-86 | Every catalog entry is served by Groq and is in the free tier. |
| Catalog.FreeModelsAtLeastTwo | src/lib/models.ts:29-86 | The free models are the whole catalog, so there are at least two, as a blind pair needs. |
| Dashboard.Active | src/app/page.tsx:81 | There is no active conversation when the active id is absent or empty, or when no conversation has it. Otherwise it is the first conversation with that id, as `find` returns. |
| Dashboard.Patch | src/app/page.tsx:211-222 | Only the edited field of the conversations with the given id changes. Length, order, ids, timestamps and every other conversation are unchanged. |
| Dashboard.PatchMessagesTwice | src/app/page.tsx:99 | Two successive message updates of one conversation leave only the second. |
| Dashboard.PatchAbsent | src/app/page.tsx:211-213 | An update of an id that no conversation has changes nothing. |
| Dashboard.TitleFrom | src/app/page.tsx:186 | Content of at most 30 characters is its own title. Longer content gives its first 30 characters followed by "...". |
| Dashboard.Pick | src/app/page.tsx:110-111 | The index drawn from a random number in [0, 1) is below the list length. |
| Dashboard.TriggerBlindCatalog | src/app/page.tsx:103-104 | A blind test starts exactly when none is running, the conversation has at least three messages with the new one, the draw is below 0.1 and the model is a catalog model, since every catalog model is free. |
| Dashboard.BlindPair | src/app/page.tsx:109-111 | The two blind models are free catalog models with different ids. |
| Dashboard.BlindText | src/app/page.tsx:119-120 | A blind answer shows the reply when there is a non-empty one, and "Erreur" otherwise. It is never empty. |
| Dashboard.BlindResponses | src/app/page.tsx:109-121 | Two blind answers with different ids, those of the drawn pair, each carrying its model's text. |
| Dashboard.TurnOf | src/app/page.tsx:122-179 | A Puter model without a signed-in user fails with "Veuillez connecter Puter.". Otherwise the turn succeeds exactly when the call does, with its reply. A failure keeps the call's message when there is one. An empty failure message becomes "Le service Puter a rencontré une erreur." for Puter and "Erreur de streaming" for Groq. |
| Dashboard.ReplyMessage | src/app/page.tsx:181-191 | The closing message is an assistant message that is not blind. It holds the reply tagged with the model id, or "Erreur : " and the error message with no model id. |
| Dashboard.NoPuterModel | src/app/page.tsx:125 | No catalog model goes through the Puter branch. |
| Dashboard.Deduct | src/app/page.tsx:141-142 | The credits fall by one and never go below 0. An unset count starts from 100. |
| Dashboard.Bump | src/app/page.tsx:207 | The winner's count, 0 when absent, rises by exactly one. Every other count is untouched. |
| Dashboard.SmoothStream | src/app/page.tsx:83-91 | One update per character. Each update extends the previous one by the next character, and the last update is the whole text. |
| Dashboard.Loaded | src/app/page.tsx:26-39 | Saved conversations are kept, with the first one active. Without any, a single new chat is active. |
| Dashboard.NewChatStep | src/app/page.tsx:48-63 | The new conversation is put in front: "Nouvelle discussion", no messages, the first catalog model. It becomes active on the chat page, and blind state and streamed text are cleared. The other conversations are kept in order. |
| Dashboard.DeleteStep | src/app/page.tsx:65-79 | Exactly the conversations with that id are removed: the count drops by the number of conversations with the id, and every other id keeps its conversations in order. If it was active, the first remaining one becomes active, or none. Otherwise the active id is unchanged. |
| Dashboard.DeleteUnique | src/app/page.tsx:67 | With distinct ids, deleting an existing conversation removes one entry. |
| Dashboard.SelectStep | src/app/page.tsx:229-235 | The chosen conversation becomes active on the chat page, with blind state and streamed text cleared. |
| Dashboard.EditStep | src/app/page.tsx:211-217 | Only the edited field of the matching conversations changes, and nothing else in the store. |
| Dashboard.ChangeModelStep | src/app/page.tsx:219-222 | With no active id nothing happens. Otherwise the active conversation's model changes and nothing else. |
| Dashboard.StartBlindSpec | src/app/page.tsx:96-121 | A blind test starts with the two drawn models' answers, which have different ids. The conversation receives only the user message, and every other conversation is unchanged. Credits, votes, the active id and the page are untouched. The send settles with loading off and no streamed text. |
| Dashboard.CloseTurnSpec | src/app/page.tsx:96-193 | Exactly two messages are appended: the user's, then the reply or the error. The title changes only after a successful first exchange. Every other conversation is unchanged. One credit is deducted exactly on a successful Puter turn, and otherwise the credits are unchanged. Votes, the active id, the page and blind state are unchanged. Loading ends and the streamed text is cleared. |
| Dashboard.SendStep | src/app/page.tsx:93-197 | Without an active conversation nothing changes. Otherwise loading ends, the streamed text is cleared, and the number of conversations, the active id and the votes are kept. The blind-state invariant is preserved. |
| Dashboard.SendKeepsCredits | src/app/page.tsx:125-147 | With the current catalog, sending never changes the credits. |
| Dashboard.VoteStep | src/app/page.tsx:199-209 | Without an active conversation nothing changes. Otherwise blind mode ends and the winner gains exactly one vote, with other counts untouched. |
| Dashboard.VoteAppendsWinner | src/app/page.tsx:201-203 | The vote appends the winner's answer as a blind assistant message tagged with the winner's id. |
| Dashboard.VotedTextSpec | src/app/page.tsx:201 | The voted text is the answer of the first blind response with the winner's id, and "" when no response has that id. |
| Dashboard.VoteStepSpec | src/app/page.tsx:199-209 | With an active conversation, the conversations with its id receive the voted answer (or "") as a blind assistant message tagged with the winner's id, and every other conversation is unchanged. Blind mode ends and the votes change as `Bump` says. The page, loading, streamed text, active id and credits are kept. |
| Dashboard.Store.Load | src/app/page.tsx:26-39 | The store starts in the `Loaded` state, with the blind-state invariant holding. |
| Dashboard.Store.NewChat | src/app/page.tsx:48-63 | The store moves as `NewChatStep` and keeps its invariant. |
| Dashboard.Store.DeleteConversation | src/app/page.tsx:65-79 | The store moves as `DeleteStep` and keeps its invariant. |
| Dashboard.Store.SelectConversation | src/app/page.tsx:229-235 | The store moves as `SelectStep` and keeps its invariant. |
| Dashboard.Store.UpdateMessages | src/app/page.tsx:211-213 | The store moves as `EditStep` with the new messages. |
| Dashboard.Store.UpdateTitle | src/app/page.tsx:215-217 | The store moves as `EditStep` with the new title. |
| Dashboard.Store.ChangeModel | src/app/page.tsx:219-222 | The store moves as `ChangeModelStep`. |
| Dashboard.Store.SendMessage | src/app/page.tsx:93-197 | The store moves as `SendStep` and keeps its invariant. |
| Dashboard.Store.StartBlindTest | src/app/page.tsx:99-121 | The blind branch, step by step, ends in the state `StartBlind` describes. |
| Dashboard.Store.AnswerTurn | src/app/page.tsx:99-195 | The other branch stores the user message, then shows a successful reply one character at a time in the streamed text: the contents shown are its successive prefixes, and nothing is shown for an error. It then stores the reply or the error, the title and the credit, and ends in the state `CloseTurn` describes. |
| Dashboard.Store.Reveal | src/app/page.tsx:83-91 | Each update of `smoothStream` is shown in turn in the streamed text: the contents shown are the successive prefixes of the reply, the streamed text ends holding the whole reply, and nothing else in the store changes. |
| Dashboard.Store.BlindVote | src/app/page.tsx:199-209 | The store moves as `VoteStep` and keeps its invariant. |
| ChatRoute.Normalize | src/app/api/chat/route.ts:24-27 | The role is "assistant" exactly when it was "assistant", and "user" otherwise. Missing or empty content becomes "". |
| ChatRoute.NormalizeAll | src/app/api/chat/route.ts:24-27 | The forwarded messages keep their count and order. |
| ChatRoute.NormalizeIdempotent | src/app/api/chat/route.ts:24-27 | Normalising already-forwarded messages changes nothing. |
| ChatRoute.Gate | src/app/api/chat/route.ts:8-29 | 400 "malformed" when the model id is missing or empty or `messages` is not an array. 400 naming the model when its id contains no keyword. Otherwise Groq is called with that model and the normalised messages, streaming. |
| ChatRoute.ErrorResponse | src/app/api/chat/route.ts:57-64 | The status is the error's own status when it is truthy, else 500. The message is the API message, else the error message, else the default text. It is never empty. |
| ChatRoute.Consumed | src/app/api/chat/route.ts:35-41 | When iterating fails before the end, the chunks read are the prefix that ends at the failure. When it never fails, or fails only at or past the end, all chunks are read. |
| ChatRoute.Pieces | src/app/api/chat/route.ts:35-39 | Only non-empty deltas are enqueued, at most one per chunk. |
| ChatRoute.PiecesSpellReply | src/app/api/chat/route.ts:35-39 | The enqueued pieces spell the concatenation of every delta in order: skipping empty deltas loses nothing. |
| ChatRoute.StreamController.Start | src/app/api/chat/route.ts:33-46 | The non-empty deltas of the chunks read are enqueued in order, the ones read before a failure included. The stream is closed exactly once. |
| ChatRoute.Post | src/app/api/chat/route.ts:6-66 | A parse error gives the error response and a rejected request its 400. A failed Groq call gives the error response built from that call's error. Otherwise the response is a stream whose text is the concatenation of the deltas read. |
| ChatRoute.ToLowerIdempotent | src/app/api/chat/route.ts:16 | Lower-casing twice is lower-casing once. |
| ChatRoute.GroqCheckIgnoresCase | src/app/api/chat/route.ts:16 | An id and its lower case are accepted or refused together. |
| ChatRoute.CatalogModelsAccepted | src/app/api/chat/route.ts:15-16 | Every id of the client catalog contains a keyword, so the route relays every model the client offers. |
| ChatRoute.MetaLlamaAccepted | src/app/api/chat/route.ts:15-16 | The two catalog ids under "meta-llama/" are accepted, because "llama" occurs in that prefix. |
| ChatRoute.Accepted | src/app/api/chat/route.ts:15-16 | An id holding a keyword, with no upper-case letter before the keyword ends, is accepted. |
| ChatRoute.LowerPrefixKept | src/app/api/chat/route.ts:16 | Lower-casing keeps a prefix that has no upper-case letter. |
| Providers.BaseId | lib/ai/providers.ts:17 | An id ending in "-thinking" loses exactly that one suffix. Any other id is unchanged. |
| Providers.BaseIdNotIdempotent | lib/ai/providers.ts:47 | Suffix removal is not idempotent: "x-thinking-thinking" becomes "x-thinking", then "x". |
| Providers.BaseIdStripsOneSuffix | lib/ai/providers.ts:47 | Adding "-thinking" to any id and stripping it gives the id back. |
| Providers.GetLanguageModel | lib/ai/providers.ts:38-56 | In the test environment the four mock names resolve to themselves, and any other id fails before the reasoning check. Outside it, an id containing "reasoning" or ending in "-thinking" is wrapped with the "thinking" tag around its base id. Any other id goes to Hugging Face unchanged. |
| Providers.HostedIdIsRequestedId | lib/ai/providers.ts:43-55 | Outside tests the id sent is the requested one. It differs only for an id ending in "-thinking", and then only by that suffix. |
| Providers.MockReasoningNotWrapped | lib/ai/providers.ts:19-41 | The mock "chat-model-reasoning" is returned as the mock and is not wrapped, although its name marks a reasoning id. |
| Providers.GetTitleModel | lib/ai/providers.ts:58-63 | The title model is never a wrapped reasoning model. |
| Providers.GetArtifactModel | lib/ai/providers.ts:65-70 | The artifact model is never a wrapped reasoning model. |
| Providers.FixedModelsAgreeWithLookup | lib/ai/providers.ts:58-70 | In both environments, the title and artifact models are what the lookup gives for their fixed names. |
| Providers.NotReasoning | lib/ai/providers.ts:43-44 | An id without the letter 'g' is not a reasoning id. |
| Moderation.Verdict | lib/ai/moderation-ai.ts:17-29 | A reply is unsafe exactly when, trimmed and upper-cased, it is "UNSAFE". |
| Moderation.CheckMessage | lib/ai/moderation-ai.ts:9-37 | It gives a verdict exactly when the model resolves and answers. In the test environment it never resolves. Otherwise the result is the "offline:chat" error. |
| Moderation.VerdictIgnoresPadding | lib/ai/moderation-ai.ts:17 | White space around the reply never changes the verdict. |
| Moderation.UnsafeInAnyCase | lib/ai/moderation-ai.ts:17-20 | "unSafe" is unsafe. |
| Moderation.PaddedUnsafe | lib/ai/moderation-ai.ts:17-20 | "unSafe" with any white space around it is unsafe. |
| Moderation.SafeInAnyCase | lib/ai/moderation-ai.ts:21-22 | "Safe" is safe. |
| Moderation.VerdictFailsOpen | lib/ai/moderation-ai.ts:23-28 | Any other reply, such as "UNSAFE.", counts as safe. |
| Moderation.ModerationModelUnwrapped | lib/ai/moderation-ai.ts:7-12 | The moderation model id is not a reasoning id, so it reaches Hugging Face unchanged and unwrapped. |
| ChatModels.DefaultModelInCatalog | lib/ai/models.ts:2-14 | The default chat model is a catalog id. |
| ChatModels.ProviderKeysSpec | lib/ai/models.ts:55-57 | The group keys are exactly the providers that occur in the catalog, and no provider is listed twice. |
| ChatModels.GroupByProvider | lib/ai/models.ts:53-62 | Each provider maps to its models in catalog order, and no group is empty. The keys are the providers in the order they first occur. |
| ChatModels.GroupedSnoc | lib/ai/models.ts:54-59 | One step of the `reduce` (creating the group if new, then pushing) keeps the grouping exact. |
| ChatModels.SelectSnoc | lib/ai/models.ts:58 | Pushing a model extends only its own provider's group. |
| ChatModels.GroupSizesSum | lib/ai/models.ts:53-62 | The group sizes add up to the number of models: each model lands in exactly one group. |
| ChatModels.CatalogGroups | lib/ai/models.ts:11-62 | The catalog groups into "meta" and then "alibaba", three models each. |
| Strings.Trim | lib/ai/moderation-ai.ts:17 | The trimmed text neither starts nor ends with white space, and it is empty exactly when the text is all white space. |
| Strings.TrimPadded | lib/ai/moderation-ai.ts:17 | Trimming ignores any white space added on either side. |
| Strings.IndexFrom | src/components/ChatWindow.tsx:26 | The search from a position returns the first occurrence of the pattern at or after that position, or none exactly when no occurrence starts there or later. |
| Strings.ToUpper | lib/ai/moderation-ai.ts:17 | Upper-casing maps each character and keeps the length. |
| Strings.BelowTotal | src/components/ChatWindow.tsx:131 | The default sort order compares any two different strings. It is also irreflexive (`BelowIrreflexive`) and transitive (`BelowTransitive`). |

## Left out

- Rendering, styling, icons, scrolling, click-outside listeners and `src/app/layout.tsx` are not modelled: they have no state worth stating.
- `localStorage` and JSON are not modelled. The saved conversations, votes and credits are parameters of `Dashboard.Store.Load` and fields of the store. The persist effect, which writes the conversations back after every change, is left out.
- The ChatWindow's own credit display (reading the stored credits after each load) is left out. It is display only.
- The Groq, Google, Puter and Hugging Face SDK calls and `generateText` are not modelled. Their replies, streamed chunks, errors and the moderation reply are inputs. `src/lib/actions.ts` is not part of this model. Its `chatWithModel` is assumed to settle with a reply or a non-empty error text. A server-action call that rejects (a failed request, or a thrown `null` whose `error.message` throws inside the catch at src/lib/actions.ts:37) is not modelled. `src/components/PuterProvider.tsx` is not part of this model.
- `setTimeout` pacing, `TextEncoder`/`TextDecoder` and the client's reader loop over the streamed body are not modelled. The Groq and Puter branches of a send receive the whole reply as one `Outcome`. Its reveal is modelled one character at a time for every branch, as `smoothStream` and the Groq reader loop do. The Puter SDK shows its chunks as they arrive, and those chunk boundaries are not modelled.
- `ReadableStream` is not modelled beyond the enqueue and close calls of `ChatRoute.StreamController`. Bytes are not modelled: a piece is the text it encodes.
- React batches its state updates asynchronously, and handlers can see stale closures. The handlers are modelled as sequential calls. The intermediate states of a send are steps of `Dashboard.Store.AnswerTurn` and `Dashboard.Store.StartBlindTest`: loading on, and in `AnswerTurn` the streamed text growing through the updates of `Dashboard.SmoothStream`. The contract of `AnswerTurn` states the settled state and the list of contents shown, not the timing of each step.
- Dashboard.SendStep: if the blind branch's calls threw, blind mode would stay on without answers. A rejected server-action call is not modelled, so this case is left out.
- Dashboard.TurnOf: the `chatWithModel` branch treats any `Failure` as an error. The source uses the reply when `error` is empty, and `chatWithModel` is assumed never to return an empty error.
- The shown model id fallback passed to the chat window (`activeConversation?.modelId || MODELS[0].id`) is not modelled separately. `ChatWindow.CurrentModel` covers the same fallback.
- JSON values of the wrong type in a chat request (a non-string `modelId`, a non-string role or content) are not modelled. `modelId` and `content` are optional strings, and a role is any optional string.
- Strings are sequences of Unicode scalar values, not UTF-16 code units. `Strings.Below` compares scalar values, which orders supplementary-plane characters differently from JavaScript.
- Strings.ToLower and Strings.ToUpper map only the characters whose case mapping involves an ASCII letter. Other characters are kept as they are. This never changes whether a lower-cased id contains an ASCII keyword or whether a verdict equals "SAFE" or "UNSAFE".
- Dashboard.Deduct: the stored credits are an optional integer. A stored string that `parseInt` cannot read (giving `NaN`) is not modelled.
- Providers.GetLanguageModel: in the test environment, the mock models' own behaviour is not modelled, only which of them a name resolves to. The reasoning middleware is represented by its tag name only.
- Moderation.CheckMessage: the prompt text (`moderationPrompt`) and the logging are not part of this model.
- Server-side orchestration (quotas, guest sessions, persistence, settings) is not part of this model.
- ChatModels.GroupByProvider: the key order is that of an object whose keys are ordinary provider names. JavaScript lists integer-like keys first, in numeric order. A provider named after an `Object.prototype` member (such as "constructor") finds an inherited value, so no group is created and the `push` at lib/ai/models.ts:58 throws. Neither case is modelled. The catalog's providers, "meta" and "alibaba", are ordinary names.
- Dashboard.Store.ShowSidebar: the store and the sidebar share one list. The model reproduces that sharing by writing the sorted list back into the store. It does not model when React renders, so the sort happens only when `ShowSidebar` is called. Dashboard.DeleteStep picks the first remaining conversation in whatever order the store holds at that moment. That order is newest first after a chat-page render. It agrees with insertion order only while creation times never decrease (`NewChatKeepsNewestFirst`).
