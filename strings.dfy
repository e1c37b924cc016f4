/** String operations of JavaScript that the core relies on: `indexOf`/`includes`,
    `endsWith`, `trim`, `toLowerCase`, `toUpperCase` and the default order of
    `Array.prototype.sort`. Strings are sequences of Unicode scalar values. */
module Strings {
  import opened Wrappers

  /** `pat` occurs in `s` starting at index `i`. */
  predicate At(s: string, pat: string, i: nat) {
    i + |pat| <= |s| && s[i..i + |pat|] == pat
  }

  /** JavaScript's `s.includes(pat)`. */
  predicate Contains(s: string, pat: string) {
    exists i: nat :: i <= |s| && At(s, pat, i)
  }

  /** `pat` occurs in `s` starting at index `i`, compared one character at a
      time as the search does. */
  predicate MatchesAt(s: string, pat: string, i: nat)
    decreases |pat|
  {
    if pat == [] then i <= |s| else i < |s| && s[i] == pat[0] && MatchesAt(s, pat[1..], i + 1)
  }

  lemma {:induction false} MatchesAtIff(s: string, pat: string, i: nat)
    ensures MatchesAt(s, pat, i) <==> At(s, pat, i)
    decreases |pat|
  {
    if pat != [] {
      MatchesAtIff(s, pat[1..], i + 1);
      if i + |pat| <= |s| {
        assert s[i..i + |pat|] == [s[i]] + s[i + 1..i + 1 + |pat[1..]|];
        assert pat == [pat[0]] + pat[1..];
      }
    }
  }

  /** The search behind `indexOf`: the first position at or after `from`
      where `pat` occurs. */
  function FindFrom(s: string, pat: string, from: nat): Option<nat>
    decreases |s| - from
  {
    if from + |pat| > |s| then None
    else if MatchesAt(s, pat, from) then Some(from)
    else FindFrom(s, pat, from + 1)
  }

  lemma {:induction false} FindFromFirst(s: string, pat: string, from: nat)
    ensures var r := FindFrom(s, pat, from);
      (r.Some? ==> from <= r.value && At(s, pat, r.value) && forall k: nat :: from <= k < r.value ==> !At(s, pat, k)) &&
      (r.None? ==> forall k: nat :: from <= k ==> !At(s, pat, k))
    decreases |s| - from
  {
    MatchesAtIff(s, pat, from);
    if from + |pat| <= |s| && !At(s, pat, from) {
      FindFromFirst(s, pat, from + 1);
    }
  }

  /** The first occurrence of `pat` in `s` at or after `from`
      (JavaScript's `s.indexOf(pat, from)`, with `None` for -1). */
  function IndexFrom(s: string, pat: string, from: nat): (r: Option<nat>)
    ensures r.Some? ==> from <= r.value && At(s, pat, r.value)
    ensures r.Some? ==> forall k: nat :: from <= k < r.value ==> !At(s, pat, k)
    ensures r.None? ==> forall k: nat :: from <= k ==> !At(s, pat, k)
  {
    FindFromFirst(s, pat, from);
    FindFrom(s, pat, from)
  }

  /** JavaScript's `s.endsWith(suffix)`. */
  predicate EndsWith(s: string, suffix: string) {
    |suffix| <= |s| && s[|s| - |suffix|..] == suffix
  }

  /** The characters `String.prototype.trim` removes: WhiteSpace and
      LineTerminator of ECMA-262 (tab, vertical tab, form feed, space,
      no-break space, byte order mark, the space separators of category Zs,
      line feed, carriage return, line and paragraph separators). */
  predicate IsSpace(c: char) {
    c == '\t' || c == '\n' || c == '\U{000B}' || c == '\U{000C}' || c == '\r' || c == ' '
    || c == '\U{00A0}' || c == '\U{1680}' || ('\U{2000}' <= c <= '\U{200A}')
    || c == '\U{2028}' || c == '\U{2029}' || c == '\U{202F}' || c == '\U{205F}'
    || c == '\U{3000}' || c == '\U{FEFF}'
  }

  function TrimStart(s: string): (r: string)
    ensures |r| <= |s| && r == s[|s| - |r|..]
    ensures r == [] || !IsSpace(r[0])
    ensures forall i :: 0 <= i < |s| - |r| ==> IsSpace(s[i])
  {
    if s != [] && IsSpace(s[0]) then TrimStart(s[1..]) else s
  }

  function TrimEnd(s: string): (r: string)
    ensures |r| <= |s| && r == s[..|r|]
    ensures r == [] || !IsSpace(r[|r| - 1])
    ensures forall i :: |r| <= i < |s| ==> IsSpace(s[i])
  {
    if s != [] && IsSpace(s[|s| - 1]) then TrimEnd(s[..|s| - 1]) else s
  }

  /** JavaScript's `s.trim()`: the longest middle part of `s` that neither
      starts nor ends with white space. */
  function Trim(s: string): (r: string)
    ensures r == [] || (!IsSpace(r[0]) && !IsSpace(r[|r| - 1]))
    ensures r == [] <==> forall i :: 0 <= i < |s| ==> IsSpace(s[i])
  {
    var t := TrimStart(s);
    var r := TrimEnd(t);
    assert r == [] ==> t == [];
    r
  }

  predicate AllSpace(s: string) {
    forall i :: 0 <= i < |s| ==> IsSpace(s[i])
  }

  /** Leading white space is what `TrimStart` removes, however much of it. */
  lemma {:induction false} TrimStartPadded(pad: string, s: string)
    requires AllSpace(pad)
    ensures TrimStart(pad + s) == TrimStart(s)
  {
    if pad == [] {
      assert pad + s == s;
    } else {
      assert (pad + s)[1..] == pad[1..] + s;
      TrimStartPadded(pad[1..], s);
    }
  }

  /** Trailing white space is what `TrimEnd` removes, however much of it. */
  lemma {:induction false} TrimEndPadded(s: string, pad: string)
    requires AllSpace(pad)
    ensures TrimEnd(s + pad) == TrimEnd(s)
    decreases |pad|
  {
    if pad == [] {
      assert s + pad == s;
    } else {
      assert (s + pad)[..|s + pad| - 1] == s + pad[..|pad| - 1];
      TrimEndPadded(s, pad[..|pad| - 1]);
    }
  }

  /** Once the start of `s` is past its white space, text appended after `s`
      survives `TrimStart`. */
  lemma {:induction false} TrimStartExtend(s: string, x: string)
    requires TrimStart(s) != []
    ensures TrimStart(s + x) == TrimStart(s) + x
  {
    assert s != [] && (s + x)[0] == s[0];
    if IsSpace(s[0]) {
      assert TrimStart(s) == TrimStart(s[1..]);
      assert (s + x)[1..] == s[1..] + x;
      TrimStartExtend(s[1..], x);
      assert TrimStart(s + x) == TrimStart(s[1..] + x);
    } else {
      assert TrimStart(s) == s;
    }
  }

  /** `trim` ignores white space added on either side. */
  lemma TrimPadded(pad1: string, s: string, pad2: string)
    requires AllSpace(pad1) && AllSpace(pad2)
    ensures Trim(pad1 + s + pad2) == Trim(s)
  {
    assert pad1 + s + pad2 == pad1 + (s + pad2);
    TrimStartPadded(pad1, s + pad2);
    if TrimStart(s) != [] {
      TrimStartExtend(s, pad2);
      TrimEndPadded(TrimStart(s), pad2);
    } else {
      assert AllSpace(s + pad2);
      assert s + pad2 == (s + pad2) + [];
      TrimStartPadded(s + pad2, []);
    }
  }

  /** A string that starts and ends with other characters than white space
      is its own trim. */
  lemma TrimUnpadded(s: string)
    requires s != [] && !IsSpace(s[0]) && !IsSpace(s[|s| - 1])
    ensures Trim(s) == s
  {
    assert TrimStart(s) == s;
    assert TrimEnd(s) == s;
  }

  /** `toLowerCase` of one character, as the strings it becomes. Exact for every
      character whose lower case is or contains an ASCII letter: 'A'..'Z', the
      Kelvin sign (to "k") and capital I with dot above (to "i" followed by a
      combining dot). Other characters are kept: JavaScript maps some of them
      to other non-ASCII characters, which never matters when looking for an
      ASCII keyword. */
  function LowerChar(c: char): string {
    if 'A' <= c <= 'Z' then [(c as int + 32) as char]
    else if c == '\U{212A}' then "k"
    else if c == '\U{0130}' then "i\U{0307}"
    else [c]
  }

  /** JavaScript's `s.toLowerCase()` (see `LowerChar`). */
  function ToLower(s: string): (r: string)
    ensures |r| >= |s|
  {
    if s == [] then [] else LowerChar(s[0]) + ToLower(s[1..])
  }

  /** A character that `LowerChar` keeps as it is. */
  predicate LowerFixed(c: char) {
    !('A' <= c <= 'Z') && c != '\U{212A}' && c != '\U{0130}'
  }

  /** A string without upper-case letters is its own lower case. */
  lemma {:induction false} ToLowerFixed(s: string)
    requires forall i :: 0 <= i < |s| ==> LowerFixed(s[i])
    ensures ToLower(s) == s
  {
    if s != [] {
      ToLowerFixed(s[1..]);
    }
  }

  /** `toUpperCase` of one character. Exact for every character whose upper
      case is a single ASCII letter: 'a'..'z', the long s (to 'S') and the
      dotless i (to 'I'). Other characters are kept; JavaScript maps some of
      them to non-ASCII characters or to several letters (sharp s, U+00DF, to
      "SS", the ligature U+FB01 to "FI"), and none of those letter pairs occurs in the words
      the core compares with ("SAFE", "UNSAFE"). */
  function UpperChar(c: char): char {
    if 'a' <= c <= 'z' then (c as int - 32) as char
    else if c == '\U{017F}' then 'S'
    else if c == '\U{0131}' then 'I'
    else c
  }

  /** JavaScript's `s.toUpperCase()` (see `UpperChar`). */
  function ToUpper(s: string): (r: string)
    ensures |r| == |s|
    ensures forall i :: 0 <= i < |s| ==> r[i] == UpperChar(s[i])
  {
    if s == [] then [] else [UpperChar(s[0])] + ToUpper(s[1..])
  }

  /** The order `Array.prototype.sort` uses without a comparator: `a` sorts
      strictly before `b`, comparing character by character, a proper prefix
      first. */
  predicate Below(a: string, b: string)
    decreases |a|
  {
    if a == [] then b != []
    else if b == [] then false
    else if a[0] != b[0] then a[0] < b[0]
    else Below(a[1..], b[1..])
  }

  lemma {:induction false} BelowIrreflexive(a: string)
    ensures !Below(a, a)
  {
    if a != [] {
      BelowIrreflexive(a[1..]);
    }
  }

  lemma {:induction false} BelowTransitive(a: string, b: string, c: string)
    requires Below(a, b) && Below(b, c)
    ensures Below(a, c)
    decreases |a|
  {
    if a != [] && b != [] && c != [] && a[0] == b[0] && b[0] == c[0] {
      BelowTransitive(a[1..], b[1..], c[1..]);
    }
  }

  /** Two different strings are always ordered one way or the other. */
  lemma {:induction false} BelowTotal(a: string, b: string)
    requires a != b
    ensures Below(a, b) || Below(b, a)
    decreases |a|
  {
    if a != [] && b != [] && a[0] == b[0] {
      assert a == [a[0]] + a[1..] && b == [b[0]] + b[1..];
      BelowTotal(a[1..], b[1..]);
    }
  }
}
