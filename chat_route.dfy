/** The server route that relays a chat to Groq (src/app/api/chat/route.ts).
    A request names a model and carries messages; the route rejects a
    malformed request or a model outside the Groq keyword list with status
    400, forwards the normalised messages, and streams back the non-empty
    deltas of the reply. Any error thrown on the way becomes a JSON error
    with the error's status (500 by default) and its most specific message.
    The Groq SDK is not modelled: its stream is an input, with the index at
    which iterating it fails, if it does. */
module ChatRoute {
  import opened Wrappers
  import opened Strings
  import opened Seqs
  import opened Catalog

  /** A message as it arrives in the JSON body: either field may be absent. */
  datatype RawMessage = RawMessage(role: Option<string>, content: Option<string>)

  /** The parsed body. `messages` is `None` when it is absent or not an array. */
  datatype Body = Body(modelId: Option<string>, messages: Option<seq<RawMessage>>)

  /** A message as forwarded to Groq. */
  datatype ChatMessage = ChatMessage(role: Role, content: string)

  /** What an error thrown inside the handler carries: `status`,
      `error.message` (the API's own message) and `message`. */
  datatype Thrown = Thrown(status: Option<int>, apiMessage: Option<string>, message: Option<string>)

  /** One streamed chunk: the `delta.content` of its first choice, if any. */
  type Chunk = Option<string>

  /** The call the route makes to Groq. */
  datatype GroqCall = GroqCall(model: string, messages: seq<ChatMessage>, stream: bool)

  datatype Response =
    | JsonError(status: int, error: string)
    | EventStream(body: seq<string>)

  const MALFORMED: string := "Requ\U{00EA}te malform\U{00E9}e : modelId ou messages manquants."
  const DEFAULT_ERROR: string := "Erreur interne du serveur"

  /** The 400 text for a model the route does not relay. */
  function NotGroq(modelId: string): string {
    "Le mod\U{00E8}le " + modelId + " n'est pas g\U{00E9}r\U{00E9} par le flux Groq."
  }

  const KEYWORDS: seq<string> := ["llama", "deepseek", "qwen", "gemma", "mixtral", "kimi", "gpt"]

  /** The lower-cased id contains one of the keywords. */
  predicate IsGroqModel(modelId: string) {
    exists k :: 0 <= k < |KEYWORDS| && Contains(ToLower(modelId), KEYWORDS[k])
  }

  /** The JavaScript truthiness of an optional string: present and non-empty. */
  predicate Truthy(s: Option<string>) {
    s.Some? && s.value != []
  }

  /** `role` is kept when it is "user" or "assistant" and is "user"
      otherwise; a missing or empty `content` becomes "". */
  function Normalize(m: RawMessage): (c: ChatMessage)
    ensures m.role == Some("assistant") <==> c.role == Assistant
    ensures c.content == (if Truthy(m.content) then m.content.value else "")
  {
    ChatMessage(if m.role == Some("assistant") then Assistant else User,
                if Truthy(m.content) then m.content.value else "")
  }

  function NormalizeAll(ms: seq<RawMessage>): (r: seq<ChatMessage>)
    ensures |r| == |ms|
    ensures forall i :: 0 <= i < |ms| ==> r[i] == Normalize(ms[i])
  {
    seq(|ms|, i requires 0 <= i < |ms| => Normalize(ms[i]))
  }

  function RoleName(r: Role): string {
    match r
    case User => "user"
    case Assistant => "assistant"
  }

  /** A forwarded message written back as JSON. */
  function AsRaw(c: ChatMessage): RawMessage {
    RawMessage(Some(RoleName(c.role)), Some(c.content))
  }

  /** Normalising is idempotent: messages that already went through the
      route would be forwarded unchanged, with count and order kept. */
  lemma NormalizeIdempotent(ms: seq<RawMessage>)
    ensures var once := NormalizeAll(ms);
            NormalizeAll(seq(|once|, i requires 0 <= i < |once| => AsRaw(once[i]))) == once
  {
    var once := NormalizeAll(ms);
    var raw := seq(|once|, i requires 0 <= i < |once| => AsRaw(once[i]));
    var twice := NormalizeAll(raw);
    forall i | 0 <= i < |once| ensures twice[i] == once[i] {
      assert raw[i] == AsRaw(once[i]);
      assert once[i].role == Assistant ==> RoleName(once[i].role) == "assistant";
      assert once[i].role == User ==> RoleName(once[i].role) != "assistant";
    }
  }

  /** The checks before the Groq call: the 400 response, or the call. */
  function Gate(b: Body): (r: Result<GroqCall, Response>)
    ensures r.Failure? ==> r.error.JsonError? && r.error.status == 400
    ensures r.Success? <==> Truthy(b.modelId) && b.messages.Some? && IsGroqModel(b.modelId.value)
    ensures !Truthy(b.modelId) || b.messages.None? ==> r == Failure(JsonError(400, MALFORMED))
    ensures Truthy(b.modelId) && b.messages.Some? && !IsGroqModel(b.modelId.value) ==>
              r == Failure(JsonError(400, NotGroq(b.modelId.value)))
    ensures r.Success? ==> r.value.model == b.modelId.value && r.value.stream &&
                           |r.value.messages| == |b.messages.value| &&
                           forall i :: 0 <= i < |r.value.messages| ==>
                             r.value.messages[i] == Normalize(b.messages.value[i])
  {
    if !Truthy(b.modelId) || b.messages.None? then Failure(JsonError(400, MALFORMED))
    else if !IsGroqModel(b.modelId.value) then Failure(JsonError(400, NotGroq(b.modelId.value)))
    else Success(GroqCall(b.modelId.value, NormalizeAll(b.messages.value), true))
  }

  /** The response for a thrown error: `error.status || 500` and
      `error.error?.message || error.message || "Erreur interne du serveur"`. */
  function ErrorResponse(e: Thrown): (r: Response)
    ensures r.JsonError? && r.status != 0 && r.error != []
    ensures e.status.Some? && e.status.value != 0 ==> r.status == e.status.value
    ensures e.status.None? || e.status.value == 0 ==> r.status == 500
    ensures Truthy(e.apiMessage) ==> r.error == e.apiMessage.value
    ensures !Truthy(e.apiMessage) && Truthy(e.message) ==> r.error == e.message.value
    ensures !Truthy(e.apiMessage) && !Truthy(e.message) ==> r.error == DEFAULT_ERROR
  {
    JsonError(if e.status.Some? && e.status.value != 0 then e.status.value else 500,
              if Truthy(e.apiMessage) then e.apiMessage.value
              else if Truthy(e.message) then e.message.value
              else DEFAULT_ERROR)
  }

  /** `chunk.choices[0]?.delta?.content || ""`. */
  function Delta(c: Chunk): string {
    if c.Some? then c.value else ""
  }

  /** The chunks read before iteration fails at `failsAt`, or all of them. */
  function Consumed(chunks: seq<Chunk>, failsAt: Option<nat>): (r: seq<Chunk>)
    ensures r <= chunks
    ensures failsAt.None? ==> r == chunks
    ensures failsAt.Some? && failsAt.value >= |chunks| ==> r == chunks
    ensures failsAt.Some? && failsAt.value <= |chunks| ==> |r| == failsAt.value
  {
    if failsAt.Some? && failsAt.value < |chunks| then chunks[..failsAt.value] else chunks
  }

  /** The pieces enqueued for the chunks: their non-empty deltas, in order. */
  function Pieces(chunks: seq<Chunk>): (r: seq<string>)
    ensures forall k :: 0 <= k < |r| ==> r[k] != []
    ensures |r| <= |chunks|
  {
    if chunks == [] then []
    else
      var last := Delta(chunks[|chunks| - 1]);
      Pieces(chunks[..|chunks| - 1]) + (if last != [] then [last] else [])
  }

  function Deltas(chunks: seq<Chunk>): (r: seq<string>)
    ensures |r| == |chunks| && forall k :: 0 <= k < |r| ==> r[k] == Delta(chunks[k])
  {
    seq(|chunks|, k requires 0 <= k < |chunks| => Delta(chunks[k]))
  }

  /** Skipping the empty deltas never changes the streamed text: the body is
      the concatenation of every delta, in order. */
  lemma {:induction false} PiecesSpellReply(chunks: seq<Chunk>)
    ensures Concat(Pieces(chunks)) == Concat(Deltas(chunks))
    decreases |chunks|
  {
    if chunks != [] {
      var init := chunks[..|chunks| - 1];
      var last := Delta(chunks[|chunks| - 1]);
      PiecesSpellReply(init);
      assert Deltas(chunks) == Deltas(init) + [last];
      ConcatAppend(Deltas(init), [last]);
      ConcatAppend(Pieces(init), if last != [] then [last] else []);
      assert Concat([last]) == last by {
        assert [last][..0] == [];
      }
      assert Concat(if last != [] then [last] else []) == last by {
        if last != [] {
          assert [last][..0] == [];
        }
      }
    }
  }

  /** The `ReadableStream` controller the route's `start` writes to. */
  class StreamController {
    var enqueued: seq<string>
    var closeCount: nat

    constructor ()
      ensures enqueued == [] && closeCount == 0
    {
      enqueued := [];
      closeCount := 0;
    }

    /** `start(controller)`: every non-empty delta is enqueued in order; when
        iterating fails, the chunks read so far stay enqueued; either way the
        stream is closed exactly once, by the `finally`. */
    method Start(chunks: seq<Chunk>, failsAt: Option<nat>)
      requires closeCount == 0
      modifies this
      ensures enqueued == old(enqueued) + Pieces(Consumed(chunks, failsAt))
      ensures closeCount == 1
    {
      var read := Consumed(chunks, failsAt);
      var i := 0;
      while i < |read|
        invariant 0 <= i <= |read|
        invariant enqueued == old(enqueued) + Pieces(read[..i])
        invariant closeCount == 0
      {
        var content := Delta(read[i]);
        assert read[..i + 1][..i] == read[..i];
        if content != [] {
          enqueued := enqueued + [content];
        }
        i := i + 1;
      }
      assert read[..i] == read;
      closeCount := closeCount + 1;
    }
  }

  /** `POST`. `body` is the parsed JSON or the error parsing threw; `upstream`
      is the stream Groq returns or the error the call threw; the stream
      fails at `failsAt` if that is given. */
  function Post(body: Result<Body, Thrown>, upstream: Result<seq<Chunk>, Thrown>,
                failsAt: Option<nat>): (r: Response)
    ensures body.Failure? ==> r == ErrorResponse(body.error)
    ensures body.Success? && Gate(body.value).Failure? ==> r == Gate(body.value).error
    ensures body.Success? && Gate(body.value).Success? && upstream.Failure? ==> r == ErrorResponse(upstream.error)
    ensures r.EventStream? <==> body.Success? && Gate(body.value).Success? && upstream.Success?
    ensures r.EventStream? ==> Concat(r.body) == Concat(Deltas(Consumed(upstream.value, failsAt)))
  {
    match body
    case Failure(e) => ErrorResponse(e)
    case Success(b) =>
      match Gate(b)
      case Failure(rejection) => rejection
      case Success(_) =>
        match upstream
        case Failure(e) => ErrorResponse(e)
        case Success(chunks) =>
          PiecesSpellReply(Consumed(chunks, failsAt));
          EventStream(Pieces(Consumed(chunks, failsAt)))
  }

  /** Lower-casing is idempotent: every character `ToLower` produces is one
      it keeps. */
  lemma {:induction false} ToLowerIdempotent(s: string)
    ensures ToLower(ToLower(s)) == ToLower(s)
  {
    LowerOutputFixed(s);
    ToLowerFixed(ToLower(s));
  }

  lemma {:induction false} LowerOutputFixed(s: string)
    ensures forall i :: 0 <= i < |ToLower(s)| ==> LowerFixed(ToLower(s)[i])
  {
    if s != [] {
      LowerOutputFixed(s[1..]);
      var head := LowerChar(s[0]);
      assert forall i :: 0 <= i < |head| ==> LowerFixed(head[i]);
      assert ToLower(s) == head + ToLower(s[1..]);
    }
  }

  /** The keyword check ignores case: an id and its lower case are accepted
      or refused together. */
  lemma GroqCheckIgnoresCase(modelId: string)
    ensures IsGroqModel(ToLower(modelId)) <==> IsGroqModel(modelId)
  {
    ToLowerIdempotent(modelId);
  }

  /** Every catalog id contains a keyword, so the route relays every model
      the client offers. */
  lemma CatalogModelsAccepted()
    ensures forall m :: m in MODELS ==> IsGroqModel(m.id)
  {
    forall i | 0 <= i < |MODELS| ensures IsGroqModel(MODELS[i].id) {
      if i == 0 {
        VersatileAccepted();
      } else if i == 1 {
        InstantAccepted();
      } else if i < 4 {
        MetaLlamaAccepted(i);
      } else if i == 4 {
        GptAccepted();
      } else if i == 5 {
        KimiAccepted();
      } else {
        QwenAccepted();
      }
    }
  }

  lemma VersatileAccepted()
    ensures IsGroqModel(MODELS[0].id)
  {
    Accepted(MODELS[0].id, 0, 0);
  }

  lemma InstantAccepted()
    ensures IsGroqModel(MODELS[1].id)
  {
    Accepted(MODELS[1].id, 0, 0);
  }

  /** The ids under "meta-llama/" hold "llama" in that prefix. */
  lemma MetaLlamaAccepted(i: nat)
    requires 2 <= i < 4
    ensures IsGroqModel(MODELS[i].id)
  {
    Accepted(MODELS[i].id, 0, 5);
  }

  lemma GptAccepted()
    ensures IsGroqModel(MODELS[4].id)
  {
    Accepted(MODELS[4].id, 6, 7);
  }

  lemma KimiAccepted()
    ensures IsGroqModel(MODELS[5].id)
  {
    Accepted(MODELS[5].id, 5, 11);
  }

  lemma QwenAccepted()
    ensures IsGroqModel(MODELS[6].id)
  {
    Accepted(MODELS[6].id, 2, 0);
  }

  /** An id whose first characters, up to the end of keyword `k` at `at`,
      have no upper case is accepted. */
  lemma Accepted(id: string, k: nat, at: nat)
    requires k < |KEYWORDS| && at + |KEYWORDS[k]| <= |id|
    requires forall j :: 0 <= j < |KEYWORDS[k]| ==> id[at + j] == KEYWORDS[k][j]
    requires forall i :: 0 <= i < at + |KEYWORDS[k]| ==> LowerFixed(id[i])
    ensures IsGroqModel(id)
  {
    var n := at + |KEYWORDS[k]|;
    assert At(id, KEYWORDS[k], at);
    LowerPrefixKept(id, n);
    var low := ToLower(id);
    assert low[at..n] == low[..n][at..n] == id[..n][at..n] == id[at..n];
    assert At(low, KEYWORDS[k], at);
  }

  /** `ToLower` keeps a prefix without upper-case letters. */
  lemma {:induction false} LowerPrefixKept(s: string, n: nat)
    requires n <= |s| && forall i :: 0 <= i < n ==> LowerFixed(s[i])
    ensures n <= |ToLower(s)| && ToLower(s)[..n] == s[..n]
  {
    if n > 0 {
      LowerPrefixKept(s[1..], n - 1);
      assert ToLower(s) == [s[0]] + ToLower(s[1..]);
    }
  }
}
