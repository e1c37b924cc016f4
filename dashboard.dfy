/** The client's conversation store (src/app/page.tsx): the list of
    conversations, the active one, blind-test mode, the stored votes and
    credits, and the handlers that change them. Random draws, the clock and
    the replies of the providers are parameters of the handlers. */
module Dashboard {
  import opened Wrappers
  import opened Seqs
  import opened Catalog
  import Leaderboard
  import Sidebar

  datatype Page = ChatPage | LeaderboardPage

  /** One of the two anonymous answers of a blind test. */
  datatype BlindResponse = BlindResponse(id: string, content: string)

  /** What a call to a provider produced: the reply text, or the message its
      error carries ("" when it carries none). */
  datatype Outcome = Reply(text: string) | Failure(message: string)

  function ConvId(c: Conversation): string { c.id }
  function ResponseId(b: BlindResponse): string { b.id }

  const NEW_TITLE: string := "Nouvelle discussion"

  /** A fresh conversation: default title, no messages, first catalog model. */
  function NewConversation(id: string, now: int): Conversation {
    Conversation(id, NEW_TITLE, [], MODELS[0].id, now)
  }

  /** The conversation the send and vote handlers act on. There is none when
      the active id is absent or empty (both falsy) or no conversation has it;
      otherwise it is the first conversation with that id. */
  function Active(convs: seq<Conversation>, activeId: Option<string>): (r: Option<Conversation>)
    ensures r.None? <==> activeId.None? || activeId.value == [] ||
                         forall i :: 0 <= i < |convs| ==> convs[i].id != activeId.value
    ensures r.Some? ==> activeId.Some? && r.value.id == activeId.value &&
                        exists i :: 0 <= i < |convs| && convs[i] == r.value &&
                                    forall j :: 0 <= j < i ==> convs[j].id != activeId.value
  {
    if activeId.None? || activeId.value == [] then None else Find(convs, ConvId, activeId.value)
  }

  /** One field update of a conversation. */
  datatype Edit = SetMessages(messages: seq<Message>) | SetTitle(title: string) | SetModel(modelId: string)

  function Apply(c: Conversation, e: Edit): Conversation {
    match e
    case SetMessages(m) => c.(messages := m)
    case SetTitle(t) => c.(title := t)
    case SetModel(m) => c.(modelId := m)
  }

  /** `prev.map(c => c.id === id ? { ...c, field } : c)`: the edited field of
      every conversation with that id takes the new value. The length, the
      order, the ids and timestamps, the other fields and the other
      conversations are unchanged. */
  function Patch(convs: seq<Conversation>, id: string, e: Edit): (r: seq<Conversation>)
    ensures |r| == |convs|
    ensures forall i :: 0 <= i < |r| ==> r[i].id == convs[i].id && r[i].createdAt == convs[i].createdAt
    ensures forall i :: 0 <= i < |r| && convs[i].id != id ==> r[i] == convs[i]
    ensures forall i :: 0 <= i < |r| && convs[i].id == id ==>
              r[i].messages == (if e.SetMessages? then e.messages else convs[i].messages) &&
              r[i].title == (if e.SetTitle? then e.title else convs[i].title) &&
              r[i].modelId == (if e.SetModel? then e.modelId else convs[i].modelId)
  {
    seq(|convs|, i requires 0 <= i < |convs| => if convs[i].id == id then Apply(convs[i], e) else convs[i])
  }

  /** Setting the messages twice leaves only the second value. */
  lemma PatchMessagesTwice(convs: seq<Conversation>, id: string, a: seq<Message>, b: seq<Message>)
    ensures Patch(Patch(convs, id, SetMessages(a)), id, SetMessages(b)) == Patch(convs, id, SetMessages(b))
  {
    var l := Patch(Patch(convs, id, SetMessages(a)), id, SetMessages(b));
    var r := Patch(convs, id, SetMessages(b));
    assert forall i :: 0 <= i < |l| ==> l[i] == r[i];
  }

  /** An edit of an id no conversation has changes nothing. */
  lemma PatchAbsent(convs: seq<Conversation>, id: string, e: Edit)
    requires forall i :: 0 <= i < |convs| ==> convs[i].id != id
    ensures Patch(convs, id, e) == convs
  {
  }

  /** `content.substring(0, 30) + (content.length > 30 ? "..." : "")`. */
  function TitleFrom(content: string): (r: string)
    ensures |content| <= 30 ==> r == content
    ensures |content| > 30 ==> |r| == 33 && r[..30] == content[..30] && r[30..] == "..."
  {
    if |content| > 30 then content[..30] + "..." else content
  }

  /** `Math.floor(draw * n)` for a draw of `Math.random()`: an index below `n`. */
  function Pick(draw: real, n: nat): (k: nat)
    requires 0.0 <= draw < 1.0 && n > 0
    ensures k < n
  {
    assert 0.0 <= draw * n as real < n as real by {
      assert draw * n as real <= draw * n as real + (1.0 - draw) * n as real;
    }
    (draw * n as real).Floor
  }

  /** Whether a send starts a blind test: not already in one, at least three
      messages with the new one, a draw below 0.1, and a free current model. */
  function TriggerBlind(isBlindTest: bool, count: nat, draw: real, model: Option<AIModel>): bool {
    !isBlindTest && count >= 3 && draw < 0.1 && model.Some? && model.value.tier == Free
  }

  /** Every catalog model is free, so the tier test admits exactly the catalog
      ids. */
  lemma TriggerBlindCatalog(isBlindTest: bool, count: nat, draw: real, modelId: string)
    ensures TriggerBlind(isBlindTest, count, draw, Find(MODELS, IdOf, modelId)) <==>
            !isBlindTest && count >= 3 && draw < 0.1 && exists m :: m in MODELS && m.id == modelId
  {
    CatalogAllGroqFree();
  }

  /** The two models of a blind test: the first drawn among the free models,
      the second among the free models with another id. */
  function BlindPair(pick1: real, pick2: real): (r: (AIModel, AIModel))
    requires 0.0 <= pick1 < 1.0 && 0.0 <= pick2 < 1.0
    ensures r.0 in MODELS && r.1 in MODELS
    ensures r.0.tier == Free && r.1.tier == Free
    ensures r.0.id != r.1.id
  {
    var free := Select(MODELS, TierOf, Free);
    FreeModelsAtLeastTwo();
    CatalogIdsDistinct();
    var m1 := free[Pick(pick1, |free|)];
    var rest := Drop(free, IdOf, m1.id);
    DropOnePresent(free, IdOf, m1);
    var m2 := rest[Pick(pick2, |free| - 1)];
    (m1, m2)
  }

  /** `r.content || "Erreur"`: an empty or failed blind answer shows "Erreur". */
  function BlindText(o: Outcome): (r: string)
    ensures r != []
    ensures o.Reply? && o.text != [] ==> r == o.text
  {
    if o.Reply? && o.text != [] then o.text else "Erreur"
  }

  function BlindResponses(pick1: real, pick2: real, answer1: Outcome, answer2: Outcome): (r: seq<BlindResponse>)
    requires 0.0 <= pick1 < 1.0 && 0.0 <= pick2 < 1.0
    ensures |r| == 2 && r[0].id != r[1].id
    ensures r[0].id == BlindPair(pick1, pick2).0.id && r[1].id == BlindPair(pick1, pick2).1.id
    ensures r[0].content == BlindText(answer1) && r[1].content == BlindText(answer2)
  {
    var pair := BlindPair(pick1, pick2);
    [BlindResponse(pair.0.id, BlindText(answer1)), BlindResponse(pair.1.id, BlindText(answer2))]
  }

  /** How a non-blind send ends: with the reply, or with the message of the
      error it raised. */
  datatype Turn = Answered(text: string) | Errored(message: string)

  /** The error texts a failed Puter or Groq call falls back to when its
      error carries no message. */
  const PUTER_FAILED: string := "Le service Puter a rencontr\U{00E9} une erreur."
  const STREAM_FAILED: string := "Erreur de streaming"
  /** The error of a Puter model used without a signed-in user. */
  const PUTER_SIGN_IN: string := "Veuillez connecter Puter."

  /** The Puter branch needs a signed-in user and falls back to its own error
      text; the Groq branch falls back to "Erreur de streaming"; any other
      model goes through `chatWithModel`, whose error text is used as is. */
  function TurnOf(model: Option<AIModel>, signedIn: bool, reply: Outcome): (t: Turn)
    ensures model.Some? && model.value.provider == Puter && !signedIn ==>
              t == Errored(PUTER_SIGN_IN)
    ensures !(model.Some? && model.value.provider == Puter && !signedIn) ==>
              (t.Answered? <==> reply.Reply?) &&
              (t.Answered? ==> t.text == reply.text) &&
              (reply.Failure? && reply.message != [] ==> t.message == reply.message)
    ensures t.Errored? && model.Some? && model.value.provider in {Puter, Groq} ==> t.message != []
    ensures model.Some? && model.value.provider == Puter && signedIn && reply.Failure? && reply.message == [] ==>
              t == Errored(PUTER_FAILED)
    ensures model.Some? && model.value.provider == Groq && reply.Failure? && reply.message == [] ==>
              t == Errored(STREAM_FAILED)
  {
    if model.Some? && model.value.provider == Puter then
      if !signedIn then Errored(PUTER_SIGN_IN)
      else if reply.Reply? then Answered(reply.text)
      else if reply.message != [] then Errored(reply.message)
      else Errored(PUTER_FAILED)
    else if model.Some? && model.value.provider == Groq then
      if reply.Reply? then Answered(reply.text)
      else if reply.message != [] then Errored(reply.message)
      else Errored(STREAM_FAILED)
    else
      if reply.Reply? then Answered(reply.text) else Errored(reply.message)
  }

  /** The assistant message that closes a non-blind turn: the reply tagged with
      the model id, or "Erreur : " and the error message, untagged. */
  function ReplyMessage(t: Turn, modelId: string): (m: Message)
    ensures m.role == Assistant && !m.isBlind
    ensures t.Answered? ==> m.content == t.text && m.modelId == Some(modelId)
    ensures t.Errored? ==> m.content == "Erreur : " + t.message && m.modelId == None
  {
    match t
    case Answered(text) => Message(Assistant, text, Some(modelId), false)
    case Errored(message) => Message(Assistant, "Erreur : " + message, None, false)
  }

  /** Whether the model with that id is served by Puter, whose successful calls
      cost a credit. */
  predicate IsPuter(model: Option<AIModel>) {
    model.Some? && model.value.provider == Puter
  }

  /** No catalog model is served by Puter, so no send ever costs a credit. */
  lemma NoPuterModel(modelId: string)
    ensures !IsPuter(Find(MODELS, IdOf, modelId))
  {
    CatalogAllGroqFree();
  }

  /** `Math.max(0, parseInt(stored || '100') - 1)`: one credit less, starting
      from 100 when nothing is stored, never below 0. */
  function Deduct(credits: Option<int>): (r: int)
    ensures r >= 0
    ensures credits.None? ==> r == 99
    ensures credits.Some? && credits.value >= 1 ==> r == credits.value - 1
    ensures credits.Some? && credits.value < 1 ==> r == 0
  {
    var current := if credits.Some? then credits.value else 100;
    if current - 1 > 0 then current - 1 else 0
  }

  /** `votes[winnerId] = (votes[winnerId] || 0) + 1`: the winner gains exactly
      one vote and every other count is untouched. */
  function Bump(votes: map<string, nat>, winnerId: string): (r: map<string, nat>)
    ensures Leaderboard.VoteOf(r, winnerId) == Leaderboard.VoteOf(votes, winnerId) + 1
    ensures forall id :: id != winnerId ==> Leaderboard.VoteOf(r, id) == Leaderboard.VoteOf(votes, id)
    ensures r.Keys == votes.Keys + {winnerId}
  {
    votes[winnerId := Leaderboard.VoteOf(votes, winnerId) + 1]
  }

  /** `smoothStream`: the successive contents shown while a reply is revealed
      one character at a time; each extends the previous by one character and
      the last is the whole text. */
  method SmoothStream(text: string) returns (updates: seq<string>)
    ensures |updates| == |text|
    ensures forall k :: 0 <= k < |updates| ==> updates[k] == text[..k + 1]
    ensures forall k :: 0 < k < |updates| ==> updates[k] == updates[k - 1] + [text[k]]
    ensures text != [] ==> updates[|text| - 1] == text
  {
    var current := "";
    updates := [];
    for i := 0 to |text|
      invariant current == text[..i]
      invariant |updates| == i
      invariant forall k :: 0 <= k < i ==> updates[k] == text[..k + 1]
    {
      current := current + [text[i]];
      assert current == text[..i + 1];
      updates := updates + [current];
    }
    assert text != [] ==> text[..|text|] == text;
  }

  /** The store's state: the fields of the `Store` class as one value. */
  datatype State = State(
    conversations: seq<Conversation>,
    activeId: Option<string>,
    page: Page,
    isLoading: bool,
    streamingContent: string,
    isBlindTest: bool,
    blindResponses: seq<BlindResponse>,
    votes: map<string, nat>,
    credits: Option<int>)

  /** Blind answers exist only during a blind test, and then there are two,
      from models with different ids. */
  predicate Consistent(s: State) {
    (!s.isBlindTest ==> s.blindResponses == []) &&
    (s.blindResponses != [] ==> |s.blindResponses| == 2 && s.blindResponses[0].id != s.blindResponses[1].id)
  }

  /** The mount effect: the saved conversations with the first one active, or
      a new chat when none are saved. */
  function Loaded(saved: Option<seq<Conversation>>, storedVotes: map<string, nat>,
                  storedCredits: Option<int>, newId: string, now: int): (r: State)
    ensures Consistent(r) && !r.isBlindTest && r.page == ChatPage && !r.isLoading
    ensures saved.Some? && saved.value != [] ==>
              r.conversations == saved.value && r.activeId == Some(saved.value[0].id)
    ensures saved.None? || saved.value == [] ==>
              r.conversations == [NewConversation(newId, now)] && r.activeId == Some(newId)
    ensures r.votes == storedVotes && r.credits == storedCredits
  {
    if saved.Some? && saved.value != [] then
      State(saved.value, Some(saved.value[0].id), ChatPage, false, [], false, [], storedVotes, storedCredits)
    else
      State([NewConversation(newId, now)], Some(newId), ChatPage, false, [], false, [], storedVotes, storedCredits)
  }

  /** `handleNewChat`: a fresh conversation goes first and becomes active on
      the chat page; blind mode and the streamed text are cleared. */
  function NewChatStep(s: State, newId: string, now: int): (r: State)
    ensures Consistent(r)
    ensures |r.conversations| == |s.conversations| + 1 && r.conversations[1..] == s.conversations
    ensures r.conversations[0].id == newId && r.conversations[0].title == NEW_TITLE &&
            r.conversations[0].messages == [] && r.conversations[0].modelId == MODELS[0].id
    ensures r.activeId == Some(newId) && r.page == ChatPage
    ensures !r.isBlindTest && r.streamingContent == []
    ensures r.isLoading == s.isLoading && r.votes == s.votes && r.credits == s.credits
  {
    s.(conversations := [NewConversation(newId, now)] + s.conversations, activeId := Some(newId),
       page := ChatPage, isBlindTest := false, blindResponses := [], streamingContent := [])
  }

  /** A new chat goes first, so the store stays in the sidebar's newest-first
      order as long as the clock never reads earlier than an existing
      conversation's creation time. */
  lemma NewChatKeepsNewestFirst(s: State, newId: string, now: int)
    requires Sidebar.NewestFirst(s.conversations)
    requires forall c :: c in s.conversations ==> c.createdAt <= now
    ensures Sidebar.NewestFirst(NewChatStep(s, newId, now).conversations)
  {
    var r := NewChatStep(s, newId, now).conversations;
    forall i, j | 0 <= i < j < |r| ensures r[i].createdAt >= r[j].createdAt {
      assert r[j] == s.conversations[j - 1];
      if i > 0 {
        assert r[i] == s.conversations[i - 1];
      }
    }
  }

  /** `handleDeleteConversation`: every conversation with the id goes and the
      others keep their order; if it was the active one, the first remaining
      conversation becomes active, or none. */
  function DeleteStep(s: State, id: string): (r: State)
    ensures Consistent(s) ==> Consistent(r)
    ensures forall c :: c in r.conversations <==> c in s.conversations && c.id != id
    ensures SubseqOf(r.conversations, s.conversations)
    ensures |r.conversations| == |s.conversations| - |Select(s.conversations, ConvId, id)|
    ensures forall k :: k != id ==> Select(r.conversations, ConvId, k) == Select(s.conversations, ConvId, k)
    ensures s.activeId == Some(id) && r.conversations != [] ==> r.activeId == Some(r.conversations[0].id)
    ensures s.activeId == Some(id) && r.conversations == [] ==> r.activeId == None
    ensures s.activeId != Some(id) ==> r.activeId == s.activeId
    ensures r == s.(conversations := r.conversations, activeId := r.activeId)
  {
    var filtered := Drop(s.conversations, ConvId, id);
    SelectDropSize(s.conversations, ConvId, id);
    assert forall k :: k != id ==> Select(filtered, ConvId, k) == Select(s.conversations, ConvId, k) by {
      forall k | k != id ensures Select(filtered, ConvId, k) == Select(s.conversations, ConvId, k) {
        SelectOfDrop(s.conversations, ConvId, k, id);
      }
    }
    if s.activeId == Some(id) then
      s.(conversations := filtered, activeId := if |filtered| > 0 then Some(filtered[0].id) else None)
    else
      s.(conversations := filtered)
  }

  /** Deleting a conversation whose id is unique removes exactly one entry. */
  lemma DeleteUnique(s: State, id: string)
    requires DistinctKeys(s.conversations, ConvId)
    requires exists c :: c in s.conversations && c.id == id
    ensures |DeleteStep(s, id).conversations| == |s.conversations| - 1
  {
    var c :| c in s.conversations && c.id == id;
    DropOnePresent(s.conversations, ConvId, c);
  }

  /** Choosing a conversation in the sidebar: it becomes active on the chat
      page; blind mode and the streamed text are cleared. */
  function SelectStep(s: State, id: string): (r: State)
    ensures Consistent(r)
    ensures r.activeId == Some(id) && r.page == ChatPage && !r.isBlindTest && r.streamingContent == []
    ensures r.conversations == s.conversations && r.votes == s.votes && r.credits == s.credits
  {
    s.(activeId := Some(id), page := ChatPage, isBlindTest := false, blindResponses := [], streamingContent := [])
  }

  /** `updateConversationMessages`, `updateConversationTitle` and
      `handleModelChange` with an active id: one field of the conversations
      with that id changes, nothing else. */
  function EditStep(s: State, id: string, e: Edit): (r: State)
    ensures Consistent(s) ==> Consistent(r)
    ensures r == s.(conversations := r.conversations)
    ensures |r.conversations| == |s.conversations|
    ensures forall i :: 0 <= i < |s.conversations| && s.conversations[i].id != id ==>
              r.conversations[i] == s.conversations[i]
    ensures forall i :: 0 <= i < |s.conversations| && s.conversations[i].id == id ==>
              r.conversations[i] == Apply(s.conversations[i], e)
  {
    s.(conversations := Patch(s.conversations, id, e))
  }

  /** `handleModelChange`: nothing happens when no id is active (an empty id
      is falsy). */
  function ChangeModelStep(s: State, modelId: string): (r: State)
    ensures s.activeId.None? || s.activeId.value == [] ==> r == s
    ensures s.activeId.Some? && s.activeId.value != [] ==> r == EditStep(s, s.activeId.value, SetModel(modelId))
  {
    if s.activeId.None? || s.activeId.value == [] then s
    else EditStep(s, s.activeId.value, SetModel(modelId))
  }

  /** The user message a send appends. */
  function UserMessage(content: string): Message {
    Message(User, content, None, false)
  }

  /** The blind branch of a send: the conversation receives only the user
      message, and blind mode starts with the two answers. */
  function StartBlind(s: State, conv: Conversation, content: string, responses: seq<BlindResponse>): (r: State)
  {
    s.(conversations := Patch(s.conversations, conv.id, SetMessages(conv.messages + [UserMessage(content)])),
       isBlindTest := true, blindResponses := responses,
       streamingContent := [], isLoading := false)
  }

  /** A blind test starts with the answers of the two drawn models, which
      are free catalog models with different ids; the conversation receives
      only the user message and the credits are untouched. */
  lemma StartBlindSpec(s: State, conv: Conversation, content: string,
                       pick1: real, pick2: real, answer1: Outcome, answer2: Outcome)
    requires 0.0 <= pick1 < 1.0 && 0.0 <= pick2 < 1.0
    ensures var r := StartBlind(s, conv, content, BlindResponses(pick1, pick2, answer1, answer2));
            var pair := BlindPair(pick1, pick2);
            r.isBlindTest && |r.blindResponses| == 2 &&
            r.blindResponses[0].id == pair.0.id && r.blindResponses[1].id == pair.1.id &&
            r.blindResponses[0].id != r.blindResponses[1].id &&
            r.credits == s.credits && r.votes == s.votes &&
            forall i :: 0 <= i < |s.conversations| ==>
              if s.conversations[i].id == conv.id then
                r.conversations[i].messages == conv.messages + [UserMessage(content)]
              else r.conversations[i] == s.conversations[i]
    ensures var r := StartBlind(s, conv, content, BlindResponses(pick1, pick2, answer1, answer2));
            !r.isLoading && r.streamingContent == [] && r.activeId == s.activeId && r.page == s.page &&
            |r.conversations| == |s.conversations|
  {
    var r := StartBlind(s, conv, content, BlindResponses(pick1, pick2, answer1, answer2));
    assert r.blindResponses == BlindResponses(pick1, pick2, answer1, answer2);
  }

  /** The other branch of a send: the turn closes with the reply or the error;
      the first successful exchange sets the title, and a successful Puter call
      costs a credit. */
  function CloseTurn(s: State, conv: Conversation, content: string, modelId: string,
                     model: Option<AIModel>, signedIn: bool, reply: Outcome): (r: State)
  {
    var turn := TurnOf(model, signedIn, reply);
    var answered := Patch(s.conversations, conv.id,
                          SetMessages(conv.messages + [UserMessage(content), ReplyMessage(turn, modelId)]));
    s.(conversations := if turn.Answered? && conv.messages == []
                        then Patch(answered, conv.id, SetTitle(TitleFrom(content)))
                        else answered,
       credits := if turn.Answered? && IsPuter(model) then Some(Deduct(s.credits)) else s.credits,
       streamingContent := [], isLoading := false)
  }

  /** Closing a turn appends exactly two messages to the conversation: the
      user's, then the reply tagged with the model id or "Erreur : " and the
      error. The title changes only on a successful first exchange, to the
      first 30 characters of the message, followed by "..." when it is longer.
      Every other conversation is unchanged. */
  lemma CloseTurnSpec(s: State, conv: Conversation, content: string, modelId: string,
                      model: Option<AIModel>, signedIn: bool, reply: Outcome)
    ensures var r := CloseTurn(s, conv, content, modelId, model, signedIn, reply);
            var turn := TurnOf(model, signedIn, reply);
            |r.conversations| == |s.conversations| &&
            forall i :: 0 <= i < |s.conversations| ==>
              if s.conversations[i].id == conv.id then
                r.conversations[i].messages == conv.messages + [UserMessage(content), ReplyMessage(turn, modelId)] &&
                r.conversations[i].title == (if turn.Answered? && conv.messages == [] then TitleFrom(content)
                                             else s.conversations[i].title) &&
                r.conversations[i].modelId == s.conversations[i].modelId
              else r.conversations[i] == s.conversations[i]
    ensures var r := CloseTurn(s, conv, content, modelId, model, signedIn, reply);
            var turn := TurnOf(model, signedIn, reply);
            r.credits == (if turn.Answered? && IsPuter(model) then Some(Deduct(s.credits)) else s.credits) &&
            r.votes == s.votes && r.activeId == s.activeId && r.page == s.page &&
            r.isBlindTest == s.isBlindTest && r.blindResponses == s.blindResponses &&
            !r.isLoading && r.streamingContent == []
  {
    var turn := TurnOf(model, signedIn, reply);
    var final := conv.messages + [UserMessage(content), ReplyMessage(turn, modelId)];
    var answered := Patch(s.conversations, conv.id, SetMessages(final));
    var r := CloseTurn(s, conv, content, modelId, model, signedIn, reply);
    forall i | 0 <= i < |s.conversations| && s.conversations[i].id == conv.id
      ensures r.conversations[i].messages == final
      ensures r.conversations[i].title == (if turn.Answered? && conv.messages == [] then TitleFrom(content)
                                           else s.conversations[i].title)
    {
      assert answered[i].messages == final && answered[i].title == s.conversations[i].title;
    }
  }

  /** `handleSendMessage`, once every awaited call has settled. Without an
      active conversation nothing changes. Otherwise the user message is
      appended and a blind test starts, or the turn closes. */
  function SendStep(s: State, content: string, modelId: string, signedIn: bool, draw: real,
                    pick1: real, pick2: real, reply: Outcome, answer1: Outcome, answer2: Outcome): (r: State)
    requires 0.0 <= pick1 < 1.0 && 0.0 <= pick2 < 1.0
    ensures Consistent(s) ==> Consistent(r)
    ensures Active(s.conversations, s.activeId).None? ==> r == s
    ensures Active(s.conversations, s.activeId).Some? ==>
              !r.isLoading && r.streamingContent == [] && r.activeId == s.activeId && r.page == s.page &&
              r.votes == s.votes && |r.conversations| == |s.conversations|
  {
    match Active(s.conversations, s.activeId)
    case None => s
    case Some(conv) =>
      var model := Find(MODELS, IdOf, modelId);
      if TriggerBlind(s.isBlindTest, |conv.messages| + 1, draw, model)
      then StartBlind(s, conv, content, BlindResponses(pick1, pick2, answer1, answer2))
      else CloseTurn(s, conv, content, modelId, model, signedIn, reply)
  }

  /** The two branches of a send with an active conversation. */
  lemma SendStepBranches(s: State, content: string, modelId: string, signedIn: bool, draw: real,
                         pick1: real, pick2: real, reply: Outcome, answer1: Outcome, answer2: Outcome,
                         conv: Conversation)
    requires 0.0 <= pick1 < 1.0 && 0.0 <= pick2 < 1.0
    requires Active(s.conversations, s.activeId) == Some(conv)
    ensures var r := SendStep(s, content, modelId, signedIn, draw, pick1, pick2, reply, answer1, answer2);
            var model := Find(MODELS, IdOf, modelId);
            if TriggerBlind(s.isBlindTest, |conv.messages| + 1, draw, model)
            then r == StartBlind(s, conv, content, BlindResponses(pick1, pick2, answer1, answer2))
            else r == CloseTurn(s, conv, content, modelId, model, signedIn, reply)
  {
  }

  /** No catalog model is served by Puter, so sending never changes the
      credits. */
  lemma SendKeepsCredits(s: State, content: string, modelId: string, signedIn: bool, draw: real,
                         pick1: real, pick2: real, reply: Outcome, answer1: Outcome, answer2: Outcome)
    requires 0.0 <= pick1 < 1.0 && 0.0 <= pick2 < 1.0
    ensures SendStep(s, content, modelId, signedIn, draw, pick1, pick2, reply, answer1, answer2).credits == s.credits
  {
    NoPuterModel(modelId);
  }

  /** `blindResponses.find(r => r.id === winnerId)?.content || ""`: the
      answer of the first blind response with the winner's id, or "" when
      none has it. */
  function VotedText(responses: seq<BlindResponse>, winnerId: string): string {
    var winner := Find(responses, ResponseId, winnerId);
    if winner.Some? then winner.value.content else ""
  }

  /** The voted text is that of the first response with the winner's id, and
      "" when no response has it. */
  lemma VotedTextSpec(responses: seq<BlindResponse>, winnerId: string)
    ensures (forall k :: 0 <= k < |responses| ==> responses[k].id != winnerId) ==>
              VotedText(responses, winnerId) == ""
    ensures forall k :: (0 <= k < |responses| && responses[k].id == winnerId &&
                         forall j :: 0 <= j < k ==> responses[j].id != winnerId) ==>
                        VotedText(responses, winnerId) == responses[k].content
  {
    var winner := Find(responses, ResponseId, winnerId);
    if winner.Some? {
      var i :| 0 <= i < |responses| && responses[i] == winner.value && winner.value.id == winnerId
               && forall j :: 0 <= j < i ==> responses[j].id != winnerId;
      forall k | 0 <= k < |responses| && responses[k].id == winnerId &&
                 (forall j :: 0 <= j < k ==> responses[j].id != winnerId)
        ensures VotedText(responses, winnerId) == responses[k].content
      {
        assert !(i < k) && !(k < i);
      }
    }
  }

  /** `handleBlindVote`: the winner's answer ("" when no answer has that id)
      is appended as a blind assistant message tagged with the winner's id,
      blind mode ends and the winner gains one vote. Without an active
      conversation nothing changes. */
  function VoteStep(s: State, winnerId: string): (r: State)
    ensures Consistent(r) || r == s
    ensures Active(s.conversations, s.activeId).None? ==> r == s
    ensures Active(s.conversations, s.activeId).Some? ==>
              !r.isBlindTest && r.blindResponses == [] &&
              Leaderboard.VoteOf(r.votes, winnerId) == Leaderboard.VoteOf(s.votes, winnerId) + 1 &&
              (forall id :: id != winnerId ==> Leaderboard.VoteOf(r.votes, id) == Leaderboard.VoteOf(s.votes, id)) &&
              r.activeId == s.activeId && r.credits == s.credits && |r.conversations| == |s.conversations|
  {
    match Active(s.conversations, s.activeId)
    case None => s
    case Some(conv) =>
      var text := VotedText(s.blindResponses, winnerId);
      s.(conversations := Patch(s.conversations, conv.id,
                                SetMessages(conv.messages + [Message(Assistant, text, Some(winnerId), true)])),
         blindResponses := [], isBlindTest := false, votes := Bump(s.votes, winnerId))
  }

  /** `VoteStep` with an active conversation, written out. */
  lemma VoteStepUnfold(s: State, winnerId: string, conv: Conversation, text: string,
                        patched: seq<Conversation>, bumped: map<string, nat>)
    requires Active(s.conversations, s.activeId) == Some(conv)
    requires text == VotedText(s.blindResponses, winnerId)
    requires patched == Patch(s.conversations, conv.id,
                              SetMessages(conv.messages + [Message(Assistant, text, Some(winnerId), true)]))
    requires bumped == Bump(s.votes, winnerId)
    ensures VoteStep(s, winnerId) ==
            s.(conversations := patched, blindResponses := [], isBlindTest := false, votes := bumped)
  {
  }

  /** The message a vote appends carries the winner's answer when the winner
      is one of the two blind answers. */
  lemma VoteAppendsWinner(s: State, winnerId: string, k: nat)
    requires Active(s.conversations, s.activeId).Some?
    requires Consistent(s) && k < |s.blindResponses| && s.blindResponses[k].id == winnerId
    ensures var conv := Active(s.conversations, s.activeId).value;
            forall i :: 0 <= i < |s.conversations| && s.conversations[i].id == conv.id ==>
              VoteStep(s, winnerId).conversations[i].messages ==
                conv.messages + [Message(Assistant, s.blindResponses[k].content, Some(winnerId), true)]
  {
    assert VotedText(s.blindResponses, winnerId) == s.blindResponses[k].content by {
      VotedTextSpec(s.blindResponses, winnerId);
      if k == 1 {
        assert s.blindResponses[0].id != winnerId;
      }
    }
  }

  /** A vote changes nothing but the conversation it is cast in, the blind
      state and the votes: the conversations with the active id receive the
      voted answer as a blind assistant message tagged with the winner's id
      ("" when no answer has that id), every other conversation stays as it
      was, and the page, loading, streamed text, active id and credits are
      kept. */
  lemma VoteStepSpec(s: State, winnerId: string)
    requires Active(s.conversations, s.activeId).Some?
    ensures var r := VoteStep(s, winnerId);
            var conv := Active(s.conversations, s.activeId).value;
            var voted := Message(Assistant, VotedText(s.blindResponses, winnerId), Some(winnerId), true);
            r == s.(conversations := r.conversations, blindResponses := [], isBlindTest := false, votes := r.votes) &&
            |r.conversations| == |s.conversations| &&
            forall i :: 0 <= i < |s.conversations| ==>
              if s.conversations[i].id == conv.id then
                r.conversations[i] == s.conversations[i].(messages := conv.messages + [voted])
              else r.conversations[i] == s.conversations[i]
    ensures (forall k :: 0 <= k < |s.blindResponses| ==> s.blindResponses[k].id != winnerId) ==>
              VotedText(s.blindResponses, winnerId) == ""
  {
    VotedTextSpec(s.blindResponses, winnerId);
  }

  class Store {
    var conversations: seq<Conversation>
    var activeId: Option<string>
    var page: Page
    var isLoading: bool
    var streamingContent: string
    var isBlindTest: bool
    var blindResponses: seq<BlindResponse>
    /** The stored vote counts (`docky_votes`). */
    var votes: map<string, nat>
    /** The stored credit count (`docky_credits`), `None` when unset. */
    var credits: Option<int>

    function Snapshot(): State
      reads this
    {
      State(conversations, activeId, page, isLoading, streamingContent, isBlindTest, blindResponses, votes, credits)
    }

    predicate Valid()
      reads this
    {
      Consistent(Snapshot())
    }

    constructor Load(saved: Option<seq<Conversation>>, storedVotes: map<string, nat>,
                     storedCredits: Option<int>, newId: string, now: int)
      ensures Valid()
      ensures Snapshot() == Loaded(saved, storedVotes, storedCredits, newId, now)
    {
      if saved.Some? && saved.value != [] {
        conversations := saved.value;
        activeId := Some(saved.value[0].id);
      } else {
        conversations := [NewConversation(newId, now)];
        activeId := Some(newId);
      }
      page := ChatPage;
      isLoading := false;
      streamingContent := [];
      isBlindTest := false;
      blindResponses := [];
      votes := storedVotes;
      credits := storedCredits;
    }

    method NewChat(newId: string, now: int)
      requires Valid()
      modifies this
      ensures Valid()
      ensures Snapshot() == NewChatStep(old(Snapshot()), newId, now)
    {
      conversations := [NewConversation(newId, now)] + conversations;
      activeId := Some(newId);
      page := ChatPage;
      isBlindTest := false;
      blindResponses := [];
      streamingContent := [];
    }

    method DeleteConversation(id: string)
      requires Valid()
      modifies this
      ensures Valid()
      ensures Snapshot() == DeleteStep(old(Snapshot()), id)
    {
      var filtered := Drop(conversations, ConvId, id);
      if activeId == Some(id) {
        if |filtered| > 0 {
          activeId := Some(filtered[0].id);
        } else {
          activeId := None;
        }
      }
      conversations := filtered;
    }

    method SelectConversation(id: string)
      requires Valid()
      modifies this
      ensures Valid()
      ensures Snapshot() == SelectStep(old(Snapshot()), id)
    {
      activeId := Some(id);
      page := ChatPage;
      isBlindTest := false;
      blindResponses := [];
      streamingContent := [];
    }

    method UpdateMessages(id: string, messages: seq<Message>)
      requires Valid()
      modifies this
      ensures Valid()
      ensures Snapshot() == EditStep(old(Snapshot()), id, SetMessages(messages))
    {
      conversations := Patch(conversations, id, SetMessages(messages));
    }

    method UpdateTitle(id: string, title: string)
      requires Valid()
      modifies this
      ensures Valid()
      ensures Snapshot() == EditStep(old(Snapshot()), id, SetTitle(title))
    {
      conversations := Patch(conversations, id, SetTitle(title));
    }

    method ChangeModel(modelId: string)
      requires Valid()
      modifies this
      ensures Valid()
      ensures Snapshot() == ChangeModelStep(old(Snapshot()), modelId)
    {
      if activeId.None? || activeId.value == [] {
        return;
      }
      conversations := Patch(conversations, activeId.value, SetModel(modelId));
    }

    method SendMessage(content: string, modelId: string, signedIn: bool, draw: real,
                       pick1: real, pick2: real, reply: Outcome, answer1: Outcome, answer2: Outcome)
      requires Valid()
      requires 0.0 <= pick1 < 1.0 && 0.0 <= pick2 < 1.0
      modifies this
      ensures Valid()
      ensures Snapshot() == SendStep(old(Snapshot()), content, modelId, signedIn, draw, pick1, pick2,
                                     reply, answer1, answer2)
    {
      var active := Active(conversations, activeId);
      if active.None? {
        return;
      }
      var conv := active.value;
      SendStepBranches(Snapshot(), content, modelId, signedIn, draw, pick1, pick2, reply, answer1, answer2, conv);
      var model := Find(MODELS, IdOf, modelId);
      if TriggerBlind(isBlindTest, |conv.messages| + 1, draw, model) {
        var responses := BlindResponses(pick1, pick2, answer1, answer2);
        StartBlindTest(conv, content, responses);
      } else {
        var _ := AnswerTurn(conv, content, modelId, model, signedIn, reply);
      }
    }

    /** The blind branch of a send: the user message is stored and the two
        drawn models' answers are shown. */
    method StartBlindTest(conv: Conversation, content: string, responses: seq<BlindResponse>)
      modifies this
      ensures Snapshot() == StartBlind(old(Snapshot()), conv, content, responses)
    {
      var updated := conv.messages + [UserMessage(content)];
      conversations := Patch(conversations, conv.id, SetMessages(updated));
      isLoading := true;
      streamingContent := [];
      isBlindTest := true;
      blindResponses := responses;
      isLoading := false;
    }

    /** The ordinary branch of a send: the user message, then the reply
        revealed one character at a time in `streamingContent` (`revealed`
        lists the successive contents shown), then the reply or the error is
        stored, with the title on a successful first exchange. */
    method AnswerTurn(conv: Conversation, content: string, modelId: string,
                      model: Option<AIModel>, signedIn: bool, reply: Outcome) returns (revealed: seq<string>)
      modifies this
      ensures Snapshot() == CloseTurn(old(Snapshot()), conv, content, modelId, model, signedIn, reply)
      ensures var turn := TurnOf(model, signedIn, reply);
              (turn.Errored? ==> revealed == []) &&
              (turn.Answered? ==> |revealed| == |turn.text| &&
                                  forall k :: 0 <= k < |revealed| ==> revealed[k] == turn.text[..k + 1])
    {
      var turn := TurnOf(model, signedIn, reply);
      ghost var before := conversations;
      var updated := conv.messages + [UserMessage(content)];
      conversations := Patch(conversations, conv.id, SetMessages(updated));
      isLoading := true;
      streamingContent := [];
      revealed := [];
      if turn.Answered? {
        revealed := Reveal(turn.text);
        if IsPuter(model) {
          credits := Some(Deduct(credits));
        }
      }
      var final := updated + [ReplyMessage(turn, modelId)];
      assert final == conv.messages + [UserMessage(content), ReplyMessage(turn, modelId)];
      PatchMessagesTwice(before, conv.id, updated, final);
      conversations := Patch(conversations, conv.id, SetMessages(final));
      assert conversations == Patch(before, conv.id, SetMessages(final));
      streamingContent := [];
      if turn.Answered? && conv.messages == [] {
        conversations := Patch(conversations, conv.id, SetTitle(TitleFrom(content)));
      }
      isLoading := false;
    }

    /** Shows a reply one character at a time: `streamingContent` takes each
        update of `smoothStream` in turn (`revealed` lists them) and ends
        holding the whole reply. Nothing else changes. */
    method Reveal(text: string) returns (revealed: seq<string>)
      modifies this
      ensures Snapshot() == old(Snapshot()).(streamingContent := if text == [] then old(streamingContent) else text)
      ensures |revealed| == |text| && forall k :: 0 <= k < |revealed| ==> revealed[k] == text[..k + 1]
    {
      revealed := SmoothStream(text);
      ghost var waiting := Snapshot();
      for k := 0 to |revealed|
        invariant Snapshot() == waiting.(streamingContent := if k == 0 then waiting.streamingContent else revealed[k - 1])
      {
        streamingContent := revealed[k];
      }
    }

    method BlindVote(winnerId: string)
      requires Valid()
      modifies this
      ensures Valid()
      ensures Snapshot() == VoteStep(old(Snapshot()), winnerId)
    {
      var active := Active(conversations, activeId);
      if active.None? {
        return;
      }
      var conv := active.value;
      var text := VotedText(blindResponses, winnerId);
      var patched := Patch(conversations, conv.id,
                           SetMessages(conv.messages + [Message(Assistant, text, Some(winnerId), true)]));
      var bumped := Bump(votes, winnerId);
      VoteStepUnfold(Snapshot(), winnerId, conv, text, patched, bumped);
      CommitVote(patched, bumped);
    }

    /** The assignments that close a vote: the patched conversations, the
        blind state cleared and the bumped votes. */
    method CommitVote(patched: seq<Conversation>, bumped: map<string, nat>)
      modifies this
      ensures Snapshot() == old(Snapshot()).(conversations := patched, blindResponses := [],
                                             isBlindTest := false, votes := bumped)
    {
      conversations := patched;
      blindResponses := [];
      isBlindTest := false;
      votes := bumped;
    }

    /** The sidebar's render on the chat page. The sidebar receives the
        store's own conversation array and sorts it in place, newest first,
        so the store keeps that order for the handlers that follow (which
        conversation becomes active after a delete, what is saved). On the
        leaderboard page the history is not shown and nothing changes. */
    method ShowSidebar() returns (h: Option<Sidebar.History>)
      requires Valid()
      modifies this
      ensures Valid()
      ensures page != ChatPage ==> h.None? && Snapshot() == old(Snapshot())
      ensures page == ChatPage ==> Snapshot() == old(Snapshot()).(conversations := conversations)
      ensures page == ChatPage ==> Sidebar.NewestFirst(conversations) &&
                                   multiset(conversations) == multiset(old(conversations)) &&
                                   Sidebar.SameTies(conversations, old(conversations))
      ensures page == ChatPage && conversations == [] ==> h == Some(Sidebar.Placeholder)
      ensures page == ChatPage && conversations != [] ==>
                h == Some(Sidebar.Rows(Sidebar.RowsOf(conversations, activeId)))
    {
      if page != ChatPage {
        return None;
      }
      var convs := conversations;
      var a := new Conversation[|convs|](i requires 0 <= i < |convs| => convs[i]);
      assert a[..] == convs;
      var history := Sidebar.ShowHistory(a, activeId);
      conversations := a[..];
      h := Some(history);
    }
  }
}
