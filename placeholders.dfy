/**
 * The left-to-right scan that `String.prototype.replace` performs with the
 * global pattern `{{\s*([^}]+)\s*}}`, shared by every template renderer.
 *
 * A match starts at `{{`, takes everything up to the first `}` (at least one
 * character), and needs a second `}` right after it. Where there is no match
 * the scan moves on by one character; after a match it resumes behind the
 * match, so replacement text is never scanned again.
 */
module Placeholders {
  import opened JsStrings

  /** One unit of a body as the scan sees it: a literal character or a match. */
  datatype Token = Text(c: char) | Hole(raw: string)

  /** The text between the braces of a match: non-empty and free of `}`. */
  predicate IsRaw(raw: string) {
    raw != [] && '}' !in raw
  }

  /** A key that every renderer looks up unchanged: a raw text with no whitespace at either end. */
  predicate IsCleanKey(k: string) {
    IsRaw(k) && !IsSpace(k[0]) && !IsSpace(k[|k| - 1])
  }

  /** The length of the match at the start of `s`, or 0 when the pattern does not match there. */
  function MatchLength(s: string): (n: nat)
    ensures n == 0 || (5 <= n <= |s| && s[0] == s[1] == '{' && s[n - 2] == s[n - 1] == '}' && IsRaw(s[2..n - 2]))
  {
    if |s| >= 2 && s[0] == '{' && s[1] == '{' then
      var j := IndexFrom(s, '}', 2);
      if 2 < j && j + 1 < |s| && s[j + 1] == '}' then j + 2 else 0
    else 0
  }

  /** The body split into literal characters and matches, in scan order. */
  function Tokenize(s: string): (toks: seq<Token>)
    ensures forall k :: 0 <= k < |toks| && toks[k].Hole? ==> IsRaw(toks[k].raw)
    decreases |s|
  {
    if s == [] then []
    else
      var n := MatchLength(s);
      if n > 0 then [Hole(s[2..n - 2])] + Tokenize(s[n..])
      else [Text(s[0])] + Tokenize(s[1..])
  }

  /** The output of the scan: literal characters copied, each match replaced by `sub` of its raw text. */
  function Expand(toks: seq<Token>, sub: string -> string): string {
    if toks == [] then ""
    else
      (match toks[0]
        case Text(c) => [c]
        case Hole(raw) => sub(raw))
      + Expand(toks[1..], sub)
  }

  /** The text a match was made from. */
  function Verbatim(raw: string): string {
    "{{" + raw + "}}"
  }

  /**
   * The capture group for a raw text: the greedy `\s*` drops leading
   * whitespace but must leave one character for `[^}]+`; trailing whitespace
   * stays in the capture.
   */
  function Capture(raw: string): (key: string)
    ensures raw != [] ==> key != []
    ensures |key| <= |raw| && key == raw[|raw| - |key|..]
    ensures AllSpace(raw[..|raw| - |key|])
    ensures |key| <= 1 || !IsSpace(key[0])
  {
    if |raw| > 1 && IsSpace(raw[0]) then
      var key := Capture(raw[1..]);
      CaptureStep(raw, key);
      key
    else raw
  }

  lemma CaptureStep(raw: string, key: string)
    requires |raw| > 1 && IsSpace(raw[0])
    requires |key| <= |raw| - 1 && key == raw[1..][|raw| - 1 - |key|..]
    requires AllSpace(raw[1..][..|raw| - 1 - |key|])
    ensures key == raw[|raw| - |key|..]
    ensures AllSpace(raw[..|raw| - |key|])
  {
    var n := |raw| - |key|;
    assert raw[1..][n - 1..] == raw[n..];
    forall k | 0 <= k < n
      ensures IsSpace(raw[..n][k])
    {
      if k > 0 {
        assert raw[..n][k] == raw[1..][..n - 1][k - 1];
      }
    }
  }

  /** Putting the matched texts back in place of the matches restores the body. */
  lemma {:induction false} TokenizeRoundTrip(s: string)
    ensures Expand(Tokenize(s), Verbatim) == s
    decreases |s|
  {
    if s != [] {
      var n := MatchLength(s);
      if n > 0 {
        var raw, rest := s[2..n - 2], s[n..];
        VerbatimSlice(s, n);
        assert s == Verbatim(raw) + rest;
        TokenizeHole(raw, rest);
        TokenizeRoundTrip(rest);
        ExpandHole(raw, Tokenize(rest), Verbatim);
      } else {
        var rest := s[1..];
        TokenizeRoundTrip(rest);
        RoundTripText(s);
      }
    }
  }

  lemma RoundTripText(s: string)
    requires s != [] && MatchLength(s) == 0
    ensures Expand(Tokenize(s), Verbatim) == [s[0]] + Expand(Tokenize(s[1..]), Verbatim)
  {
    assert Tokenize(s) == [Text(s[0])] + Tokenize(s[1..]);
    ExpandText(s[0], Tokenize(s[1..]), Verbatim);
  }

  /** A character other than a brace is in the matched text only when it is in the raw text. */
  lemma VerbatimFree(raw: string, c: char)
    requires c !in raw && c != '{' && c != '}'
    ensures c !in Verbatim(raw)
  {
  }

  lemma VerbatimSlice(s: string, n: nat)
    requires 4 <= n <= |s| && s[0] == s[1] == '{' && s[n - 2] == s[n - 1] == '}'
    ensures s[..n] == Verbatim(s[2..n - 2])
  {
    assert s[..2] == "{{";
    assert s[n - 2..n] == "}}";
    assert s[..n] == s[..2] + s[2..n - 2] + s[n - 2..n];
  }

  lemma ExpandHole(raw: string, toks: seq<Token>, sub: string -> string)
    ensures Expand([Hole(raw)] + toks, sub) == sub(raw) + Expand(toks, sub)
  {
    assert ([Hole(raw)] + toks)[1..] == toks;
  }

  lemma ExpandText(c: char, toks: seq<Token>, sub: string -> string)
    ensures Expand([Text(c)] + toks, sub) == [c] + Expand(toks, sub)
  {
    assert ([Text(c)] + toks)[1..] == toks;
  }

  lemma {:induction false} ExpandAppend(a: seq<Token>, b: seq<Token>, sub: string -> string)
    ensures Expand(a + b, sub) == Expand(a, sub) + Expand(b, sub)
  {
    if a != [] {
      ExpandAppend(a[1..], b, sub);
      assert (a + b)[1..] == a[1..] + b;
    } else {
      assert a + b == b;
    }
  }

  /** Literal text without `{` is copied, a placeholder is replaced, and the scan resumes behind it. */
  lemma ExpandStep(a: string, raw: string, rest: string, sub: string -> string)
    requires '{' !in a && IsRaw(raw)
    ensures Expand(Tokenize(a + Verbatim(raw) + rest), sub) == a + sub(raw) + Expand(Tokenize(rest), sub)
  {
    var v := Verbatim(raw) + rest;
    assert a + Verbatim(raw) + rest == a + v;
    ExpandLiteralPrefix(a, v, sub);
    TokenizeHole(raw, rest);
    ExpandHole(raw, Tokenize(rest), sub);
  }

  /** Literal text without `{` in front of a body is copied unchanged, and the body is scanned as if alone. */
  lemma ExpandLiteralPrefix(a: string, v: string, sub: string -> string)
    requires '{' !in a
    ensures Expand(Tokenize(a + v), sub) == a + Expand(Tokenize(v), sub)
  {
    TokenizeLiteral(a, v);
    ExpandAppend(Texts(a), Tokenize(v), sub);
    ExpandTexts(a, sub);
  }

  /** Every token is literal: the scan found no match. */
  predicate NoMatch(toks: seq<Token>) {
    forall k :: 0 <= k < |toks| ==> toks[k].Text?
  }

  /** Without matches, the replacement plays no part in the output. */
  lemma {:induction false} ExpandNoMatch(toks: seq<Token>, f: string -> string, g: string -> string)
    requires NoMatch(toks)
    ensures Expand(toks, f) == Expand(toks, g)
  {
    if toks != [] {
      ExpandNoMatch(toks[1..], f, g);
    }
  }

  /** A body the scan finds no match in comes out of any replacement unchanged. */
  lemma ExpandUnmatchedBody(s: string, sub: string -> string)
    requires NoMatch(Tokenize(s))
    ensures Expand(Tokenize(s), sub) == s
  {
    ExpandNoMatch(Tokenize(s), sub, Verbatim);
    TokenizeRoundTrip(s);
  }

  /** A body without `{` has no match. */
  lemma {:induction false} NoBraceNoMatch(s: string)
    requires '{' !in s
    ensures Tokenize(s) == Texts(s)
  {
    if s != [] {
      NoBraceNoMatch(s[1..]);
    }
  }

  /** One literal token per character. */
  function Texts(a: string): (toks: seq<Token>)
    ensures |toks| == |a|
    ensures forall k :: 0 <= k < |a| ==> toks[k] == Text(a[k])
  {
    if a == [] then [] else [Text(a[0])] + Texts(a[1..])
  }

  lemma {:induction false} ExpandTexts(a: string, sub: string -> string)
    ensures Expand(Texts(a), sub) == a
  {
    if a != [] {
      ExpandTexts(a[1..], sub);
    }
  }

  /** Text before a match that holds no `{` is scanned character by character. */
  lemma {:induction false} TokenizeLiteral(a: string, s: string)
    requires '{' !in a
    ensures Tokenize(a + s) == Texts(a) + Tokenize(s)
  {
    if a == [] {
      assert a + s == s;
    } else {
      assert (a + s)[1..] == a[1..] + s;
      TokenizeLiteral(a[1..], s);
    }
  }

  /** `{{raw}}` is matched as a whole, and the scan resumes right behind it. */
  lemma TokenizeHole(raw: string, s: string)
    requires IsRaw(raw)
    ensures Tokenize(Verbatim(raw) + s) == [Hole(raw)] + Tokenize(s)
  {
    var t := Verbatim(raw) + s;
    var m := 2 + |raw|;
    assert t[m] == '}' && t[m + 1] == '}';
    assert forall k | 2 <= k < m :: t[k] == raw[k - 2];
    IndexFromFirst(t, '}', 2, m);
    assert t[2..m] == raw;
    assert t[m + 2..] == s;
  }

  /** A clean key is its own capture. */
  lemma CaptureClean(k: string)
    requires IsCleanKey(k)
    ensures Capture(k) == k
  {
  }

  /** Leading whitespace before a clean key is not part of the capture. */
  lemma {:induction false} CaptureLeadingSpace(w: string, k: string)
    requires AllSpace(w) && k != [] && !IsSpace(k[0])
    ensures Capture(w + k) == k
  {
    if w != [] {
      assert (w + k)[1..] == w[1..] + k;
      CaptureLeadingSpace(w[1..], k);
    } else {
      assert w + k == k;
    }
  }

  /** Trailing whitespace after a key is part of the capture. */
  lemma CaptureTrailingSpace(k: string, w: string)
    requires k != [] && !IsSpace(k[0])
    ensures Capture(k + w) == k + w
  {
  }

  /** Literal template text: it holds no `{`, so no match can start inside it. */
  type Plain = s: string | '{' !in s

  /** A placeholder name every renderer looks up unchanged. */
  type Key = k: string | IsCleanKey(k) witness "k"

  /** A body given as literal text and named placeholders, the form template tables use. */
  datatype Segment = Lit(text: Plain) | Field(name: Key)

  function Assemble(segs: seq<Segment>): string {
    if segs == [] then ""
    else
      (match segs[0]
        case Lit(text) => text
        case Field(name) => Verbatim(name))
      + Assemble(segs[1..])
  }

  /** `n` names one of the placeholders of a body. */
  predicate Mentions(segs: seq<Segment>, n: string) {
    exists k | 0 <= k < |segs| :: segs[k].Field? && segs[k].name == n
  }

  /** The output for an assembled body: literal parts copied, each name replaced by `sub(name)`. */
  function Fill(segs: seq<Segment>, sub: string -> string): string {
    if segs == [] then ""
    else
      (match segs[0]
        case Lit(text) => text
        case Field(name) => sub(name))
      + Fill(segs[1..], sub)
  }

  /** The scan over an assembled body copies its literal parts and replaces exactly its named placeholders. */
  lemma {:induction false} ExpandAssembled(segs: seq<Segment>, sub: string -> string)
    ensures Expand(Tokenize(Assemble(segs)), sub) == Fill(segs, sub)
  {
    if segs != [] {
      ExpandAssembled(segs[1..], sub);
      var rest := Assemble(segs[1..]);
      match segs[0]
      case Lit(text) =>
        TokenizeLiteral(text, rest);
        ExpandAppend(Texts(text), Tokenize(rest), sub);
        ExpandTexts(text, sub);
      case Field(name) =>
        TokenizeHole(name, rest);
        ExpandHole(name, Tokenize(rest), sub);
    }
  }
}
