/**
 * The server-side renderer (backend/src/utils/renderTemplate.js): the
 * `&`/`<`/`>` escaper, the single-pass placeholder substitution, and the
 * tag-stripping, whitespace-collapsing text extractor.
 */
module TemplateRender {
  import opened Wrappers
  import opened JsStrings
  import opened Placeholders

  /** A JSON value a caller may store under a key of the values object. */
  datatype Value = Null | Str(text: string) | Num(n: int)

  /** `String(v)`. */
  function ToText(v: Value): string {
    match v
    case Null => "null"
    case Str(t) => t
    case Num(n) => IntToString(n)
  }

  /** `values?.[key]`: the stored value, or `None` (`undefined`) for an absent key. */
  function Lookup(values: map<string, Value>, key: string): (r: Option<Value>)
    ensures r.Some? <==> key in values
  {
    if key in values then Some(values[key]) else None
  }

  /** `s.replace(/c/g, w)` for a single character `c`. */
  function ReplaceAll(s: string, c: char, w: string): (r: string)
    ensures c !in w ==> c !in r
    ensures c !in s ==> r == s
  {
    if s == [] then "" else (if s[0] == c then w else [s[0]]) + ReplaceAll(s[1..], c, w)
  }

  lemma {:induction false} ReplaceAllAppend(a: string, b: string, c: char, w: string)
    ensures ReplaceAll(a + b, c, w) == ReplaceAll(a, c, w) + ReplaceAll(b, c, w)
  {
    if a == [] {
      assert a + b == b;
    } else {
      assert (a + b)[1..] == a[1..] + b;
      ReplaceAllAppend(a[1..], b, c, w);
    }
  }

  /** One character as the full escaper writes it. */
  function EscapeChar(c: char): string {
    if c == '&' then "&amp;" else if c == '<' then "&lt;" else if c == '>' then "&gt;" else [c]
  }

  /** The three global replacements of `safeEscapeValue`, in source order: `&` first, then `<`, then `>`. */
  function EscapeHtml(s: string): string {
    ReplaceAll(ReplaceAll(ReplaceAll(s, '&', "&amp;"), '<', "&lt;"), '>', "&gt;")
  }

  /** The characters escaped one by one, each exactly once. */
  function EscapeEach(s: string): string {
    if s == [] then "" else EscapeChar(s[0]) + EscapeEach(s[1..])
  }

  /**
   * Because `&` is replaced first, the chain of replacements escapes every
   * character exactly once: the `&` of an entity written by a later step is
   * never escaped again.
   */
  lemma {:induction false} EscapeHtmlIsPerCharacter(s: string)
    ensures EscapeHtml(s) == EscapeEach(s)
  {
    if s != [] {
      var c, rest := s[0], s[1..];
      assert s == [c] + rest;
      EscapeHtmlAppend([c], rest);
      EscapeHtmlChar(c);
      EscapeHtmlIsPerCharacter(rest);
    }
  }

  /** The chain of replacements works on the two halves of a text independently. */
  lemma EscapeHtmlAppend(a: string, b: string)
    ensures EscapeHtml(a + b) == EscapeHtml(a) + EscapeHtml(b)
  {
    ReplaceAllAppend(a, b, '&', "&amp;");
    var a1, b1 := ReplaceAll(a, '&', "&amp;"), ReplaceAll(b, '&', "&amp;");
    ReplaceAllAppend(a1, b1, '<', "&lt;");
    var a2, b2 := ReplaceAll(a1, '<', "&lt;"), ReplaceAll(b1, '<', "&lt;");
    ReplaceAllAppend(a2, b2, '>', "&gt;");
  }

  /** On one character the chain of replacements writes exactly that character's escape. */
  lemma EscapeHtmlChar(c: char)
    ensures EscapeHtml([c]) == EscapeChar(c)
  {
    var a1 := ReplaceAll([c], '&', "&amp;");
    assert a1 == if c == '&' then "&amp;" else [c];
    var a2 := ReplaceAll(a1, '<', "&lt;");
    assert a2 == if c == '<' then "&lt;" else a1;
    assert ReplaceAll(a2, '>', "&gt;") == if c == '>' then "&gt;" else a2;
  }

  /** The text at the start of `t` is one of the three entities the escaper writes. */
  predicate EntityStart(t: string) {
    (|t| >= 5 && t[..5] == "&amp;") || (|t| >= 4 && (t[..4] == "&lt;" || t[..4] == "&gt;"))
  }

  /** Every `&` in `r` begins `&amp;`, `&lt;` or `&gt;`. */
  predicate AmpersandsAreEntities(r: string) {
    forall k :: 0 <= k < |r| && r[k] == '&' ==> EntityStart(r[k..])
  }

  /** What the escaper guarantees of its output. */
  lemma {:induction false} EscapeEachSafe(s: string)
    ensures '<' !in EscapeEach(s) && '>' !in EscapeEach(s)
    ensures AmpersandsAreEntities(EscapeEach(s))
  {
    if s != [] {
      EscapeEachSafe(s[1..]);
      var e, rest := EscapeChar(s[0]), EscapeEach(s[1..]);
      var r := e + rest;
      EscapeCharSafe(s[0], rest);
      forall k | 0 <= k < |r| && r[k] == '&' ensures EntityStart(r[k..]) {
        if k < |e| {
          assert e[k] == '&';
          assert k == 0 && r[k..] == r;
        } else {
          assert r[k..] == rest[k - |e|..];
          assert rest[k - |e|] == '&';
        }
      }
    }
  }

  /** One escaped character holds no `<` or `>`, and a `&` in it can only be the start of its entity. */
  lemma EscapeCharSafe(c: char, rest: string)
    ensures '<' !in EscapeChar(c) && '>' !in EscapeChar(c)
    ensures forall k | 0 < k < |EscapeChar(c)| :: EscapeChar(c)[k] != '&'
    ensures EscapeChar(c)[0] == '&' ==> EntityStart(EscapeChar(c) + rest)
  {
    var e := EscapeChar(c);
    if c == '&' {
      assert (e + rest)[..5] == e;
    } else if c == '<' || c == '>' {
      assert (e + rest)[..4] == e;
    }
  }

  /** Decoding of the three entities, left to right. */
  function Unescape(s: string): string {
    if s == [] then ""
    else if |s| >= 5 && s[..5] == "&amp;" then "&" + Unescape(s[5..])
    else if |s| >= 4 && s[..4] == "&lt;" then "<" + Unescape(s[4..])
    else if |s| >= 4 && s[..4] == "&gt;" then ">" + Unescape(s[4..])
    else [s[0]] + Unescape(s[1..])
  }

  /** Decoding the escaped text gives the original back: the escaper loses nothing. */
  lemma {:induction false} EscapeHtmlRoundTrip(s: string)
    ensures Unescape(EscapeHtml(s)) == s
  {
    EscapeHtmlIsPerCharacter(s);
    EscapeEachRoundTrip(s);
  }

  lemma {:induction false} EscapeEachRoundTrip(s: string)
    ensures Unescape(EscapeEach(s)) == s
  {
    if s != [] {
      EscapeEachRoundTrip(s[1..]);
      UnescapeEscapeChar(s[0], EscapeEach(s[1..]));
      assert s == [s[0]] + s[1..];
    }
  }

  /** Decoding reads one escaped character back and goes on with the rest. */
  lemma UnescapeEscapeChar(c: char, rest: string)
    ensures Unescape(EscapeChar(c) + rest) == [c] + Unescape(rest)
  {
    var r := EscapeChar(c) + rest;
    if c == '&' {
      assert r[..5] == "&amp;" && r[5..] == rest;
    } else if c == '<' {
      assert r[..4] == "&lt;" && r[4..] == rest;
      assert |r| >= 5 ==> r[..5][1] == 'l';
    } else if c == '>' {
      assert r[..4] == "&gt;" && r[4..] == rest;
      assert |r| >= 5 ==> r[..5][1] == 'g';
    } else {
      assert r[0] == c && r[1..] == rest;
      assert |r| >= 4 ==> r[..4][0] == c;
      assert |r| >= 5 ==> r[..5][0] == c;
    }
  }

  /**
   * `safeEscapeValue`: `null` and `undefined` give the empty string; any
   * other value is converted with `String` and escaped.
   */
  function SafeEscapeValue(v: Option<Value>): (r: string)
    ensures v.None? || v == Some(Null) ==> r == ""
    ensures v.Some? && v.value != Null ==> Unescape(r) == ToText(v.value)
    ensures '<' !in r && '>' !in r && AmpersandsAreEntities(r)
  {
    match v
    case None => ""
    case Some(Null) => ""
    case Some(x) =>
      EscapeHtmlIsPerCharacter(ToText(x));
      EscapeEachSafe(ToText(x));
      EscapeHtmlRoundTrip(ToText(x));
      EscapeHtml(ToText(x))
  }

  /** The escaper leaves text without `&`, `<` and `>` unchanged. */
  lemma SafeEscapeValuePlain(s: string)
    requires '&' !in s && '<' !in s && '>' !in s
    ensures SafeEscapeValue(Some(Str(s))) == s
  {
  }

  /** `values?.[key] ?? ''`: an absent or null key reads as the empty string. */
  function ValueOrEmpty(values: map<string, Value>, key: string): (v: Value)
    ensures key !in values || values[key] == Null ==> v == Str("")
    ensures key in values && values[key] != Null ==> v == values[key]
  {
    match Lookup(values, key)
    case None => Str("")
    case Some(Null) => Str("")
    case Some(x) => x
  }

  /** What one match is replaced by: the escaped value of its captured key, which keeps trailing whitespace. */
  function Replacement(values: map<string, Value>, raw: string): (r: string)
    ensures Capture(raw) !in values || values[Capture(raw)] == Null ==> r == ""
    ensures Capture(raw) in values && values[Capture(raw)] != Null ==> Unescape(r) == ToText(values[Capture(raw)])
    ensures '<' !in r && '>' !in r
  {
    var v := ValueOrEmpty(values, Capture(raw));
    SafeEscapeValuePlain("");
    SafeEscapeValue(Some(v))
  }

  function Substitution(values: map<string, Value>): string -> string {
    raw => Replacement(values, raw)
  }

  /** `renderTemplate(body, values)`. */
  function RenderTemplate(body: string, values: map<string, Value>): (r: string)
    ensures body == "" ==> r == ""
  {
    if body == "" then "" else Expand(Tokenize(body), Substitution(values))
  }

  /** A body in which the scan finds no placeholder is returned unchanged, whatever the values. */
  lemma RenderTemplateUnmatched(body: string, values: map<string, Value>)
    requires NoMatch(Tokenize(body))
    ensures RenderTemplate(body, values) == body
  {
    ExpandUnmatchedBody(body, Substitution(values));
  }

  /**
   * Literal text before a placeholder is copied verbatim, the placeholder
   * becomes its replacement, and the scan continues on the rest of the body
   * only: replacement text is never scanned again.
   */
  lemma RenderTemplateStep(a: string, raw: string, rest: string, values: map<string, Value>)
    requires '{' !in a && IsRaw(raw)
    ensures RenderTemplate(a + Verbatim(raw) + rest, values)
         == a + Replacement(values, raw) + RenderTemplate(rest, values)
  {
    var sub := Substitution(values);
    var body := a + Verbatim(raw) + rest;
    ExpandStep(a, raw, rest, sub);
    assert body != "";
    assert RenderTemplate(body, values) == Expand(Tokenize(body), sub);
    assert sub(raw) == Replacement(values, raw);
    if rest == "" {
      assert Tokenize(rest) == [];
    }
  }

  /** A body that is one placeholder renders as that placeholder's replacement. */
  lemma RenderTemplateSingle(raw: string, values: map<string, Value>)
    requires IsRaw(raw)
    ensures RenderTemplate(Verbatim(raw), values) == Replacement(values, raw)
  {
    var sub := Substitution(values);
    TokenizeHole(raw, "");
    assert Verbatim(raw) + "" == Verbatim(raw);
    assert Tokenize("") == [];
    ExpandHole(raw, [], sub);
    assert sub(raw) == Replacement(values, raw);
  }

  /** A value that itself looks like a placeholder is emitted literally, even when its key is supplied. */
  lemma RenderTemplateNoRescan(key: string, inner: string, values: map<string, Value>)
    requires IsCleanKey(key) && IsRaw(inner)
    requires '&' !in inner && '<' !in inner && '>' !in inner
    requires key in values && values[key] == Str(Verbatim(inner))
    ensures RenderTemplate(Verbatim(key), values) == Verbatim(inner)
  {
    var v := Verbatim(inner);
    VerbatimFree(inner, '&');
    VerbatimFree(inner, '<');
    VerbatimFree(inner, '>');
    SafeEscapeValuePlain(v);
    CaptureClean(key);
    assert ValueOrEmpty(values, key) == Str(v);
    RenderTemplateSingle(key, values);
  }

  /** A placeholder whose key is absent or null renders as the empty string. */
  lemma RenderTemplateMissingKey(raw: string, values: map<string, Value>)
    requires IsRaw(raw)
    requires Capture(raw) !in values || values[Capture(raw)] == Null
    ensures RenderTemplate(Verbatim(raw), values) == ""
  {
    RenderTemplateSingle(raw, values);
  }

  /**
   * Whitespace inside the braces after the key is part of the looked-up key:
   * `{{ total }}` reads the key `"total "`, so it renders empty when only
   * `"total"` is supplied.
   */
  lemma RenderTemplateTrailingSpace(w1: string, k: string, w2: string, values: map<string, Value>)
    requires AllSpace(w1) && AllSpace(w2) && w2 != []
    requires k != [] && !IsSpace(k[0]) && '}' !in k && '}' !in w1 && '}' !in w2
    requires k + w2 !in values
    ensures RenderTemplate(Verbatim(w1 + k + w2), values) == ""
  {
    assert w1 + k + w2 == w1 + (k + w2);
    CaptureLeadingSpace(w1, k + w2);
    RenderTemplateMissingKey(w1 + k + w2, values);
  }

  /** Rendering a body built from literal parts and named placeholders fills in exactly those names. */
  lemma RenderTemplateAssembled(segs: seq<Segment>, values: map<string, Value>)
    ensures RenderTemplate(Assemble(segs), values) == Fill(segs, Substitution(values))
  {
    ExpandAssembled(segs, Substitution(values));
  }

  /** `/<\/?[^>]+(>|$)/g` removal: a `<` followed by anything but `>` starts a tag that runs to the first `>` or to the end. */
  function RemoveTagsLoose(s: string): (r: string)
    ensures forall c :: c in r ==> c in s
    ensures s != [] && s[0] != '<' ==> r != [] && r[0] == s[0]
    ensures forall k :: 0 <= k < |r| && r[k] == '<' ==> k == |r| - 1 || r[k + 1] == '>'
  {
    if s == [] then ""
    else if s[0] == '<' && |s| >= 2 && s[1] != '>' then
      if '>' in s[1..] then RemoveTagsLoose(s[IndexFrom(s, '>', 1) + 1..]) else ""
    else [s[0]] + RemoveTagsLoose(s[1..])
  }

  lemma {:induction false} RemoveTagsLooseNoTag(s: string)
    requires '<' !in s
    ensures RemoveTagsLoose(s) == s
  {
    if s != [] {
      RemoveTagsLooseNoTag(s[1..]);
    }
  }

  /** A tag that is closed is deleted with its brackets; the text before it is kept. */
  lemma {:induction false} RemoveTagsLooseTag(a: string, t: string, b: string)
    requires '<' !in a && t != [] && '>' !in t
    ensures RemoveTagsLoose(a + "<" + t + ">" + b) == a + RemoveTagsLoose(b)
  {
    if a == [] {
      assert a + "<" + t + ">" + b == "<" + t + ">" + b;
      RemoveTagsLooseLeadingTag(t, b);
    } else {
      var tail := "<" + t + ">" + b;
      assert a + "<" + t + ">" + b == [a[0]] + (a[1..] + tail);
      assert a[1..] + "<" + t + ">" + b == a[1..] + tail;
      RemoveTagsLooseTag(a[1..], t, b);
      RemoveTagsLooseCons(a[0], a[1..] + tail);
      assert [a[0]] + (a[1..] + RemoveTagsLoose(b)) == a + RemoveTagsLoose(b);
    }
  }

  /** A tag that is never closed runs to the end of the text: only the text before it is kept. */
  lemma {:induction false} RemoveTagsLooseUnclosed(a: string, t: string)
    requires '<' !in a && t != [] && '>' !in t
    ensures RemoveTagsLoose(a + "<" + t) == a
  {
    if a == [] {
      var s := "<" + t;
      assert a + "<" + t == s;
      assert s[1..] == t && s[1] == t[0];
    } else {
      assert a + "<" + t == [a[0]] + (a[1..] + "<" + t);
      RemoveTagsLooseUnclosed(a[1..], t);
      RemoveTagsLooseCons(a[0], a[1..] + "<" + t);
      assert [a[0]] + a[1..] == a;
    }
  }

  /** `<>` is not a tag: both brackets are kept. */
  lemma RemoveTagsLooseEmptyTag(b: string)
    ensures RemoveTagsLoose("<>" + b) == "<>" + RemoveTagsLoose(b)
  {
    var s := "<>" + b;
    assert s[1..] == ">" + b;
    RemoveTagsLooseCons('>', b);
  }

  lemma RemoveTagsLooseCons(c: char, r: string)
    requires c != '<'
    ensures RemoveTagsLoose([c] + r) == [c] + RemoveTagsLoose(r)
  {
    assert ([c] + r)[1..] == r;
  }

  lemma RemoveTagsLooseLeadingTag(t: string, b: string)
    requires t != [] && '>' !in t
    ensures RemoveTagsLoose("<" + t + ">" + b) == RemoveTagsLoose(b)
  {
    var s := "<" + t + ">" + b;
    var m := 1 + |t|;
    assert s[1] == t[0];
    assert s[m] == '>';
    assert forall k | 1 <= k < m :: s[k] == t[k - 1];
    IndexFromFirst(s, '>', 1, m);
    assert '>' in s[1..] by { assert s[1..][m - 1] == '>'; }
    assert s[m + 1..] == b;
  }

  /** `/\s+/g` replaced by one space: the non-whitespace characters are kept, in order. */
  function CollapseSpaces(s: string): (r: string)
    ensures NoDoubleSpace(r)
    ensures forall k :: 0 <= k < |r| && IsSpace(r[k]) ==> r[k] == ' '
    ensures s != [] && !IsSpace(s[0]) ==> r != [] && r[0] == s[0]
    ensures NonSpace(r) == NonSpace(s)
    decreases |s|
  {
    if s == [] then ""
    else if IsSpace(s[0]) then
      var t := TrimStart(s);
      NonSpaceTrimStart(s, t);
      NonSpaceCons(' ', CollapseSpaces(t));
      " " + CollapseSpaces(t)
    else
      NonSpaceCons(s[0], CollapseSpaces(s[1..]));
      NonSpaceCons(s[0], s[1..]);
      [s[0]] + CollapseSpaces(s[1..])
  }

  /** Dropping leading whitespace keeps the other characters. */
  lemma NonSpaceTrimStart(s: string, t: string)
    requires t == TrimStart(s)
    ensures NonSpace(t) == NonSpace(s)
  {
    var i := |s| - |t|;
    SliceSplit(s, i);
    NonSpaceAppend(s[..i], s[i..]);
    NonSpaceAllSpace(s[..i]);
  }

  lemma NonSpaceCons(c: char, s: string)
    ensures NonSpace([c] + s) == (if IsSpace(c) then [] else [c]) + NonSpace(s)
  {
    assert ([c] + s)[1..] == s;
  }

  /** A run of whitespace between two words becomes one space. */
  lemma CollapseSpacesWord(x: string, w: string, y: string)
    requires NoSpace(x)
    requires w != [] && AllSpace(w) && (y == [] || !IsSpace(y[0]))
    ensures CollapseSpaces(x + w + y) == x + " " + CollapseSpaces(y)
  {
    Associative(x, w, y);
    CollapseSpacesPrefix(x, w + y);
    CollapseSpacesRun(w, y);
    Associative(x, " ", CollapseSpaces(y));
  }

  /** A prefix without whitespace is copied as it is. */
  lemma {:induction false} CollapseSpacesPrefix(x: string, t: string)
    requires NoSpace(x)
    ensures CollapseSpaces(x + t) == x + CollapseSpaces(t)
  {
    if x == [] {
      assert x + t == t;
    } else {
      var rest := x[1..] + t;
      Associative([x[0]], x[1..], t);
      assert [x[0]] + x[1..] == x;
      assert NoSpace(x[1..]);
      CollapseSpacesPrefix(x[1..], t);
      CollapseSpacesCons(x[0], rest);
      Associative([x[0]], x[1..], CollapseSpaces(t));
    }
  }

  /** No whitespace character at all. */
  predicate NoSpace(x: string) {
    forall k :: 0 <= k < |x| ==> !IsSpace(x[k])
  }

  lemma CollapseSpacesRun(w: string, y: string)
    requires w != [] && AllSpace(w) && (y == [] || !IsSpace(y[0]))
    ensures CollapseSpaces(w + y) == " " + CollapseSpaces(y)
  {
    TrimStartSpaces(w, y);
    assert (w + y)[0] == w[0];
  }

  lemma CollapseSpacesCons(c: char, r: string)
    requires !IsSpace(c)
    ensures CollapseSpaces([c] + r) == [c] + CollapseSpaces(r)
  {
    assert ([c] + r)[0] == c && ([c] + r)[1..] == r;
  }

  lemma {:induction false} CollapseSpacesNoSpace(s: string)
    requires forall k :: 0 <= k < |s| ==> !IsSpace(s[k])
    ensures CollapseSpaces(s) == s
  {
    if s != [] {
      CollapseSpacesNoSpace(s[1..]);
    }
  }

  /** `stripHtml`: tags removed, whitespace runs collapsed to one space, the ends trimmed. */
  function StripHtml(html: string): (r: string)
    ensures html == "" ==> r == ""
    ensures r == [] || (!IsSpace(r[0]) && !IsSpace(r[|r| - 1]))
    ensures NoDoubleSpace(r)
    ensures NonSpace(r) == NonSpace(RemoveTagsLoose(html))
  {
    if html == "" then ""
    else
      var c := CollapseSpaces(RemoveTagsLoose(html));
      TrimNoDoubleSpace(c);
      TrimKeepsNonSpace(c);
      Trim(c)
  }

  /** No two whitespace characters in a row. */
  predicate NoDoubleSpace(s: string) {
    forall k :: 0 <= k < |s| - 1 ==> !(IsSpace(s[k]) && IsSpace(s[k + 1]))
  }

  lemma SliceNoDoubleSpace(c: string, i: nat, j: nat)
    requires i <= j <= |c| && NoDoubleSpace(c)
    ensures NoDoubleSpace(c[i..j])
  {
    forall k | 0 <= k < j - i - 1
      ensures !(IsSpace(c[i..j][k]) && IsSpace(c[i..j][k + 1]))
    {
      assert c[i..j][k] == c[i + k] && c[i..j][k + 1] == c[i + k + 1];
    }
  }

  /** Trimming a text without two whitespace characters in a row keeps it so. */
  lemma TrimNoDoubleSpace(c: string)
    requires NoDoubleSpace(c)
    ensures NoDoubleSpace(Trim(c))
  {
    var u := TrimStart(c);
    assert u == c[|c| - |u|..|c|];
    SliceNoDoubleSpace(c, |c| - |u|, |c|);
    var t := TrimEnd(u);
    assert t == u[0..|t|];
    SliceNoDoubleSpace(u, 0, |t|);
    assert Trim(c) == t;
  }

  /** `trim` only removes characters. */
  lemma TrimChars(s: string)
    ensures forall c :: c in Trim(s) ==> c in s
  {
    var t := TrimStart(s);
    var u := TrimEnd(t);
    assert Trim(s) == u;
    SliceChars(s, |s| - |t|, |s|);
    SliceChars(t, 0, |u|);
  }

  /** A slice holds only characters of the text it is cut from. */
  lemma SliceChars(s: string, i: nat, j: nat)
    requires i <= j <= |s|
    ensures forall c | c in s[i..j] :: c in s
  {
    forall c | c in s[i..j] ensures c in s {
      var k :| 0 <= k < j - i && s[i..j][k] == c;
      assert s[i + k] == c;
    }
  }

  /** Text with no `<` and no whitespace passes through: entities such as `&lt;` are not decoded. */
  lemma StripHtmlPlainText(s: string)
    requires '<' !in s && forall k :: 0 <= k < |s| ==> !IsSpace(s[k])
    ensures StripHtml(s) == s
  {
    if s != "" {
      RemoveTagsLooseNoTag(s);
      CollapseSpacesNoSpace(s);
    }
  }

  /** A word wrapped in an element loses the tags: `<p>word</p>` strips to `word`. */
  lemma StripHtmlElement(t: string, x: string, u: string)
    requires t != [] && '>' !in t && u != [] && '>' !in u
    requires '<' !in x && NoSpace(x)
    ensures StripHtml("<" + t + ">" + x + "<" + u + ">") == x
  {
    var p := "<" + t + ">";
    var b := x + "<" + u + ">";
    Associative(p, x + "<" + u, ">");
    Associative(p, x + "<", u);
    Associative(p, x, "<");
    RemoveTagsLooseLeadingTag(t, b);
    var e: string := "";
    RemoveTagsLooseTag(x, u, e);
    assert b + e == b && x + e == x;
    CollapseSpacesNoSpace(x);
  }

  /** Two words separated by whitespace, with no tags, strip to the words joined by one space. */
  lemma StripHtmlTwoWords(x: string, w: string, y: string)
    requires x != [] && y != [] && NoSpace(x) && NoSpace(y) && w != [] && AllSpace(w)
    requires '<' !in x && '<' !in w && '<' !in y
    ensures StripHtml(x + w + y) == x + " " + y
  {
    var s := x + w + y;
    RemoveTagsLooseNoTag(s);
    CollapseSpacesWord(x, w, y);
    CollapseSpacesNoSpace(y);
    var r := x + " " + y;
    assert r[0] == x[0] && r[|r| - 1] == y[|y| - 1];
    TrimOfTrimmed(r);
  }
}
