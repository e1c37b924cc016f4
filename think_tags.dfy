/** Splitting a model reply into text and thought parts around
    `<think>...</think>` (the `parseContent` helper of the chat window's message
    bubble). The helper runs the global regular expression
    `<think>([\s\S]*?)(?:<\/think>|$)` over the text: each match starts at the
    next `<think>` at or after the regex's `lastIndex`, and its lazy body runs
    to the first `</think>` after the tag, or to the end of the text when the
    thought is never closed. The scan is modelled on positions of the whole
    text, as the regex sees it. */
module ThinkTags {
  import opened Wrappers
  import opened Strings

  const Open: string := "<think>"
  const Close: string := "</think>"

  datatype Part = Text(content: string) | Thought(content: string)

  /** The parts of `t` from position `from` on: the text before the next
      `<think>` (when there is any), then the parts from that tag on; or the
      rest as one text part when no tag follows. */
  function Parts(t: string, from: nat): seq<Part>
    requires from <= |t|
    decreases |t| - from, 1
  {
    match IndexFrom(t, Open, from)
    case None => if from == |t| then [] else [Text(t[from..])]
    case Some(i) => Lead(t[from..i]) + ThoughtParts(t, i + |Open|)
  }

  function Lead(s: string): seq<Part> {
    if s == [] then [] else [Text(s)]
  }

  /** The parts of `t` from `body` on, where `body` follows a `<think>`: the
      thought up to the first `</think>`, or to the end when it is never
      closed, then the parts after the closing tag. */
  function ThoughtParts(t: string, body: nat): seq<Part>
    requires body <= |t|
    decreases |t| - body, 0
  {
    match IndexFrom(t, Close, body)
    case None => [Thought(t[body..])]
    case Some(j) => [Thought(t[body..j])] + Parts(t, j + |Close|)
  }

  /** Whether the scan of `t` from `from` ends inside a thought that is never
      closed. */
  predicate Unclosed(t: string, from: nat)
    requires from <= |t|
    decreases |t| - from, 1
  {
    match IndexFrom(t, Open, from)
    case None => false
    case Some(i) => ThoughtUnclosed(t, i + |Open|)
  }

  predicate ThoughtUnclosed(t: string, body: nat)
    requires body <= |t|
    decreases |t| - body, 0
  {
    match IndexFrom(t, Close, body)
    case None => true
    case Some(j) => Unclosed(t, j + |Close|)
  }

  /** What `parseContent` returns: the parts of the whole text, or a single
      text part holding the whole input when there are none. */
  function Parse(text: string): seq<Part> {
    var parts := Parts(text, 0);
    if |parts| > 0 then parts else [Text(text)]
  }

  /** Puts the parts back together: text verbatim, a thought wrapped in
      `<think>` and `</think>`, except that the last part, when it is a thought
      and `closeLast` is false, gets no closing tag. */
  function Render(parts: seq<Part>, closeLast: bool): string {
    if parts == [] then ""
    else match parts[0]
      case Text(c) => c + Render(parts[1..], closeLast)
      case Thought(c) =>
        Open + c + (if |parts| == 1 && !closeLast then "" else Close) + Render(parts[1..], closeLast)
  }

  /** The scan finds parts exactly while text remains. */
  lemma PartsEmptyIff(t: string, from: nat)
    requires from <= |t|
    ensures Parts(t, from) == [] <==> from == |t|
  {
  }

  /** An unclosed final thought is the last part. */
  lemma {:induction false} UnclosedEndsInThought(t: string, from: nat)
    requires from <= |t| && Unclosed(t, from)
    ensures |Parts(t, from)| > 0 && Parts(t, from)[|Parts(t, from)| - 1].Thought?
    decreases |t| - from, 1
  {
    var i := IndexFrom(t, Open, from).value;
    ThoughtUnclosedEndsInThought(t, i + |Open|);
  }

  lemma {:induction false} ThoughtUnclosedEndsInThought(t: string, body: nat)
    requires body <= |t| && ThoughtUnclosed(t, body)
    ensures |ThoughtParts(t, body)| > 0 && ThoughtParts(t, body)[|ThoughtParts(t, body)| - 1].Thought?
    decreases |t| - body, 0
  {
    match IndexFrom(t, Close, body)
    case None =>
    case Some(j) =>
      UnclosedEndsInThought(t, j + |Close|);
  }

  lemma RenderTextCons(c: string, rest: seq<Part>, closeLast: bool)
    ensures Render([Text(c)] + rest, closeLast) == c + Render(rest, closeLast)
  {
    assert ([Text(c)] + rest)[1..] == rest;
  }

  lemma RenderThoughtCons(c: string, rest: seq<Part>, closeLast: bool)
    ensures Render([Thought(c)] + rest, closeLast)
         == Open + c + (if rest == [] && !closeLast then "" else Close) + Render(rest, closeLast)
  {
    assert ([Thought(c)] + rest)[1..] == rest;
  }

  /** The rest of a string from `from`, cut around an occurrence of `pat`. */
  lemma SplitAt(t: string, from: nat, pat: string, i: nat)
    requires from <= i && At(t, pat, i)
    ensures t[from..] == t[from..i] + pat + t[i + |pat|..]
  {
    assert t[from..] == t[from..i] + t[i..i + |pat|] + t[i + |pat|..];
  }

  /** Re-joining the parts found from `from` gives the rest of the text back
      exactly: every thought gets its closing tag except an unclosed final
      one. */
  lemma {:induction false} PartsRoundTrip(t: string, from: nat)
    requires from <= |t|
    ensures Render(Parts(t, from), !Unclosed(t, from)) == t[from..]
    decreases |t| - from, 1
  {
    OpenStep(t, from);
    match IndexFrom(t, Open, from)
    case None =>
      if from < |t| { RenderTextCons(t[from..], [], true); }
    case Some(i) =>
      var body := i + |Open|;
      var tp, closeLast := ThoughtParts(t, body), !ThoughtUnclosed(t, body);
      var ps, cl0 := Parts(t, from), !Unclosed(t, from);
      assert ps == Lead(t[from..i]) + tp && cl0 == closeLast;
      ThoughtRoundTrip(t, body);
      LeadRender(t[from..i], tp, closeLast);
      SplitAt(t, from, Open, i);
      assert Render(ps, cl0) == Render(Lead(t[from..i]) + tp, closeLast);
  }

  lemma LeadRender(pre: string, tp: seq<Part>, closeLast: bool)
    ensures Render(Lead(pre) + tp, closeLast) == pre + Render(tp, closeLast)
  {
    if pre != [] {
      RenderTextCons(pre, tp, closeLast);
    } else {
      assert Lead(pre) + tp == tp;
    }
  }

  /** The same for the text after a `<think>`: rendering its parts yields the
      tag followed by the rest of the text. */
  lemma {:induction false} ThoughtRoundTrip(t: string, body: nat)
    requires body <= |t|
    ensures Render(ThoughtParts(t, body), !ThoughtUnclosed(t, body)) == Open + t[body..]
    decreases |t| - body, 0
  {
    ThoughtStep(t, body);
    match IndexFrom(t, Close, body)
    case None =>
      RenderThoughtCons(t[body..], [], false);
    case Some(j) =>
      var next := j + |Close|;
      var tail, cl := Parts(t, next), !Unclosed(t, next);
      var tp, cl0 := ThoughtParts(t, body), !ThoughtUnclosed(t, body);
      assert tp == [Thought(t[body..j])] + tail;
      assert cl0 == cl;
      SplitAt(t, body, Close, j);
      PartsRoundTrip(t, next);
      PartsEmptyIff(t, next);
      CloseJoin(t[body..], t[body..j], t[next..], tail, cl);
      assert Render(tp, cl0) == Render([Thought(t[body..j])] + tail, cl);
  }

  /** One step of the scan outside a thought. */
  lemma OpenStep(t: string, from: nat)
    requires from <= |t|
    ensures IndexFrom(t, Open, from).None? ==>
      Parts(t, from) == (if from == |t| then [] else [Text(t[from..])]) && !Unclosed(t, from)
    ensures IndexFrom(t, Open, from).Some? ==>
      var i := IndexFrom(t, Open, from).value;
      i + |Open| <= |t| &&
      Parts(t, from) == Lead(t[from..i]) + ThoughtParts(t, i + |Open|) &&
      Unclosed(t, from) == ThoughtUnclosed(t, i + |Open|)
  {
  }

  /** One step of the scan inside a thought. */
  lemma ThoughtStep(t: string, body: nat)
    requires body <= |t|
    ensures IndexFrom(t, Close, body).None? ==>
      ThoughtParts(t, body) == [Thought(t[body..])] && ThoughtUnclosed(t, body)
    ensures IndexFrom(t, Close, body).Some? ==>
      var j := IndexFrom(t, Close, body).value;
      j + |Close| <= |t| &&
      ThoughtParts(t, body) == [Thought(t[body..j])] + Parts(t, j + |Close|) &&
      ThoughtUnclosed(t, body) == Unclosed(t, j + |Close|)
  {
  }

  /** Rendering a closed thought followed by parts that render as `rest`. */
  lemma CloseJoin(s: string, c: string, rest: string, tail: seq<Part>, closeLast: bool)
    requires s == c + Close + rest
    requires Render(tail, closeLast) == rest && (tail != [] || closeLast)
    ensures Render([Thought(c)] + tail, closeLast) == Open + s
  {
    RenderThoughtCons(c, tail, closeLast);
    assert Open + c + Close + rest == Open + s;
  }

  /** Round trip of `parseContent` itself. */
  lemma ParseRoundTrip(text: string)
    ensures Render(Parse(text), !Unclosed(text, 0)) == text
    ensures Unclosed(text, 0) ==> Parse(text)[|Parse(text)| - 1].Thought?
  {
    PartsRoundTrip(text, 0);
    assert text[0..] == text;
    PartsEmptyIff(text, 0);
    if Unclosed(text, 0) { UnclosedEndsInThought(text, 0); }
  }

  /** A piece of `t` that no occurrence of `pat` starts inside does not
      contain `pat`. */
  lemma NotInSlice(t: string, pat: string, from: nat, end: nat)
    requires from <= end <= |t| && |pat| > 0
    requires forall k: nat :: from <= k < end ==> !At(t, pat, k)
    ensures !Contains(t[from..end], pat)
  {
    var u := t[from..end];
    forall k: nat | k <= |u|
      ensures !At(u, pat, k)
    {
      if k + |pat| <= |u| {
        SliceOfSlice(t, from, end, k, k + |pat|);
        assert !At(t, pat, from + k);
      }
    }
  }

  lemma SliceOfSlice(t: string, a: nat, b: nat, c: nat, d: nat)
    requires a <= b <= |t| && c <= d <= b - a
    ensures t[a..b][c..d] == t[a + c..a + d]
  {
    forall i | 0 <= i < d - c
      ensures t[a..b][c..d][i] == t[a + c..a + d][i]
    {
      assert t[a..b][c..d][i] == t[a..b][c + i];
      assert t[a..b][c + i] == t[a + c + i];
    }
  }

  /** Text parts are non-empty and hold no `<think>`; thoughts hold no
      `</think>`. */
  predicate WellFormed(p: Part) {
    match p
    case Text(c) => c != [] && !Contains(c, Open)
    case Thought(c) => !Contains(c, Close)
  }

  lemma {:induction false} PartsWellFormed(t: string, from: nat)
    requires from <= |t|
    ensures forall p :: p in Parts(t, from) ==> WellFormed(p)
    decreases |t| - from, 1
  {
    match IndexFrom(t, Open, from)
    case None =>
      NotInSlice(t, Open, from, |t|);
      assert t[from..|t|] == t[from..];
    case Some(i) =>
      NotInSlice(t, Open, from, i);
      ThoughtPartsWellFormed(t, i + |Open|);
  }

  lemma {:induction false} ThoughtPartsWellFormed(t: string, body: nat)
    requires body <= |t|
    ensures forall p :: p in ThoughtParts(t, body) ==> WellFormed(p)
    decreases |t| - body, 0
  {
    match IndexFrom(t, Close, body)
    case None =>
      NotInSlice(t, Close, body, |t|);
      assert t[body..|t|] == t[body..];
    case Some(j) =>
      NotInSlice(t, Close, body, j);
      PartsWellFormed(t, j + |Close|);
  }

  /** What `parseContent` promises about its parts: thoughts never contain
      `</think>`, text parts never contain `<think>`, and text parts are empty
      only for the empty input, which yields one empty text part. */
  lemma ParseWellFormed(text: string)
    ensures forall p :: p in Parse(text) && p.Thought? ==> !Contains(p.content, Close)
    ensures forall p :: p in Parse(text) && p.Text? ==> !Contains(p.content, Open)
    ensures forall p :: p in Parse(text) && p.Text? && text != [] ==> p.content != []
    ensures text == [] ==> Parse(text) == [Text([])]
  {
    PartsWellFormed(text, 0);
    PartsEmptyIff(text, 0);
  }

  /** Input without `<think>` comes back as one text part equal to the input. */
  lemma ParseWithoutThink(text: string)
    requires !Contains(text, Open)
    ensures Parse(text) == [Text(text)]
  {
    assert text[0..] == text;
  }

  /** One round of the loop: the next `<think>` after `from` opens the
      thought at `body`; the round yields the text before the tag (if any) and
      `thought`, and the scan resumes at `next`, past the thought's
      `</think>`, or at the end of the text when it is never closed. */
  lemma ScanRound(t: string, from: nat, index: nat, body: nat, thought: Part, next: nat)
    requires from <= |t| && IndexFrom(t, Open, from) == Some(index) && body == index + |Open|
    requires IndexFrom(t, Close, body).None? ==> thought == Thought(t[body..]) && next == |t|
    requires IndexFrom(t, Close, body).Some? ==>
      thought == Thought(t[body..IndexFrom(t, Close, body).value]) && next == IndexFrom(t, Close, body).value + |Close|
    ensures body <= next <= |t|
    ensures Parts(t, from) == Lead(t[from..index]) + ([thought] + Parts(t, next))
  {
    var th, rest := ThoughtParts(t, body), Parts(t, next);
    assert Parts(t, from) == Lead(t[from..index]) + th by {
      OpenStep(t, from);
    }
    if IndexFrom(t, Close, body).None? {
      assert th == [thought] by {
        ThoughtStep(t, body);
      }
      assert rest == [] by {
        OpenStep(t, |t|);
      }
      assert th == [thought] + rest;
    } else {
      assert next <= |t| && th == [thought] + rest by {
        ThoughtStep(t, body);
      }
    }
  }

  lemma Regroup<T>(a: seq<T>, b: seq<T>, c: seq<T>, d: seq<T>)
    ensures a + (b + (c + d)) == a + b + c + d
  {
  }

  /** The `while` loop of `parseContent`: each match moves `lastIndex` past
      the thought (at least the seven characters of `<think>`), text before a
      match is pushed only when non-empty, and the rest after the last match
      is pushed as text. */
  method ParseContent(text: string) returns (parts: seq<Part>)
    ensures parts == Parse(text)
  {
    var lastIndex := 0;
    parts := [];
    ghost var goal := Parts(text, 0);
    ghost var tail := goal;
    while true
      invariant lastIndex <= |text|
      invariant tail == Parts(text, lastIndex)
      invariant parts + tail == goal
      decreases |text| - lastIndex
    {
      var found := IndexFrom(text, Open, lastIndex);
      if found.None? {
        break;
      }
      var index := found.value;
      var bodyStart := index + |Open|;
      var closing := IndexFrom(text, Close, bodyStart);
      var thought, next;
      if closing.None? {
        thought, next := Thought(text[bodyStart..]), |text|;
      } else {
        thought, next := Thought(text[bodyStart..closing.value]), closing.value + |Close|;
      }
      ghost var lead, after := Lead(text[lastIndex..index]), Parts(text, next);
      ScanRound(text, lastIndex, index, bodyStart, thought, next);
      assert tail == lead + ([thought] + after);
      Regroup(parts, lead, [thought], after);
      ghost var before := parts;
      if index > lastIndex {
        parts := parts + [Text(text[lastIndex..index])];
      }
      assert parts == before + lead;
      parts := parts + [thought];
      lastIndex, tail := next, after;
    }
    if lastIndex < |text| {
      parts := parts + [Text(text[lastIndex..])];
    }
    if |parts| == 0 {
      parts := [Text(text)];
    }
  }
}
