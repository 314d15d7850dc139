/**
 * Text-level HTML helpers that several files repeat: the `<`/`>`-only
 * escaper and the tag remover `replace(/<[^>]*>/g, "")`.
 */
module Html {
  import opened JsStrings

  /** One character as the `<`/`>`-only escapers write it. */
  function EscapeAngle(c: char): string {
    if c == '<' then "&lt;" else if c == '>' then "&gt;" else [c]
  }

  /**
   * `String(v).replace(/</g, "&lt;").replace(/>/g, "&gt;")`: angle brackets
   * become entities, `&` and everything else is copied.
   */
  function EscapeAngles(s: string): (r: string)
    ensures '<' !in r && '>' !in r
    ensures '<' !in s && '>' !in s ==> r == s
    ensures |r| >= |s|
  {
    if s == [] then "" else EscapeAngle(s[0]) + EscapeAngles(s[1..])
  }

  /** The escape works on the two halves of a text independently: it is the per-character map `EscapeAngle`. */
  lemma {:induction false} EscapeAnglesAppend(a: string, b: string)
    ensures EscapeAngles(a + b) == EscapeAngles(a) + EscapeAngles(b)
  {
    if a == [] {
      assert a + b == b;
    } else {
      assert (a + b)[1..] == a[1..] + b;
      EscapeAnglesAppend(a[1..], b);
      Associative(EscapeAngle(a[0]), EscapeAngles(a[1..]), EscapeAngles(b));
    }
  }

  /** Inside any text, `<` is written `&lt;`, `>` is written `&gt;` and any other character is copied. */
  lemma EscapeAnglesAt(a: string, c: char, b: string)
    ensures EscapeAngles(a + [c] + b)
            == EscapeAngles(a) + (if c == '<' then "&lt;" else if c == '>' then "&gt;" else [c]) + EscapeAngles(b)
  {
    var e := EscapeAngle(c);
    assert EscapeAngles([c]) == e by {
      assert [c][1..] == [];
    }
    EscapeAnglesAppend(a, [c]);
    EscapeAnglesAppend(a + [c], b);
  }

  /** Reading `&lt;` and `&gt;` back as angle brackets. */
  function UnescapeAngles(s: string): (r: string)
    ensures |r| <= |s|
  {
    if s == [] then ""
    else if |s| >= 4 && s[..4] == "&lt;" then "<" + UnescapeAngles(s[4..])
    else if |s| >= 4 && s[..4] == "&gt;" then ">" + UnescapeAngles(s[4..])
    else [s[0]] + UnescapeAngles(s[1..])
  }

  /** On a text without `&` the escape loses nothing: decoding gives the text back. */
  lemma {:induction false} EscapeAnglesRoundTrip(s: string)
    requires '&' !in s
    ensures UnescapeAngles(EscapeAngles(s)) == s
  {
    if s != [] {
      var c, rest := s[0], s[1..];
      EscapeAnglesRoundTrip(rest);
      UnescapeEscapeAngle(c, EscapeAngles(rest));
      assert s == [c] + rest;
    }
  }

  lemma UnescapeEscapeAngle(c: char, rest: string)
    requires c != '&'
    ensures UnescapeAngles(EscapeAngle(c) + rest) == [c] + UnescapeAngles(rest)
  {
    var r := EscapeAngle(c) + rest;
    if c == '<' {
      assert r[..4] == "&lt;" && r[4..] == rest;
    } else if c == '>' {
      assert r[..4] == "&gt;" && r[4..] == rest;
      assert r[..4][1] == 'g';
    } else {
      assert r[0] == c && r[1..] == rest;
      assert |r| >= 4 ==> r[..4][0] == c;
    }
  }

  /** The angle-only escape is not injective: a raw `<` and the text `&lt;` come out the same. */
  lemma EscapeAnglesConflates()
    ensures EscapeAngles("<") == EscapeAngles("&lt;") == "&lt;"
  {
  }

  /** A `&` passes through unescaped. */
  lemma EscapeAnglesKeepsAmpersand(s: string)
    ensures EscapeAngles("&" + s) == "&" + EscapeAngles(s)
  {
    assert ("&" + s)[1..] == s;
  }

  /**
   * `s.replace(/<[^>]*>/g, "")`: from each `<` that has a `>` somewhere after
   * it, everything up to and including the first such `>` is deleted; an
   * unclosed `<` and all other characters are kept.
   */
  function RemoveTags(s: string): (r: string)
    ensures forall c :: c in r ==> c in s
    ensures forall i, j :: 0 <= i < j < |r| && r[i] == '<' ==> r[j] != '>'
    ensures |r| <= |s|
  {
    if s == [] then ""
    else if s[0] == '<' && '>' in s[1..] then
      RemoveTags(s[IndexFrom(s, '>', 1) + 1..])
    else
      var rest := RemoveTags(s[1..]);
      assert s[0] == '<' ==> '>' !in rest;
      [s[0]] + rest
  }

  /** Text without `<` is left as it is. */
  lemma {:induction false} RemoveTagsNoTag(s: string)
    requires '<' !in s
    ensures RemoveTags(s) == s
  {
    if s != [] {
      RemoveTagsNoTag(s[1..]);
    }
  }

  /** Text without `>` is left as it is: an unclosed `<` is not a tag. */
  lemma {:induction false} RemoveTagsUnclosed(s: string)
    requires '>' !in s
    ensures RemoveTags(s) == s
  {
    if s != [] {
      RemoveTagsUnclosed(s[1..]);
    }
  }

  /** A tag is deleted whole, the text before it is kept, and the scan goes on behind it. */
  lemma {:induction false} RemoveTagsTag(a: string, t: string, b: string)
    requires '<' !in a && '>' !in t
    ensures RemoveTags(a + "<" + t + ">" + b) == a + RemoveTags(b)
  {
    if a == [] {
      assert a + "<" + t + ">" + b == "<" + t + ">" + b;
      RemoveTagsLeadingTag(t, b);
    } else {
      var tail := "<" + t + ">" + b;
      assert a + "<" + t + ">" + b == [a[0]] + (a[1..] + tail);
      assert a[1..] + "<" + t + ">" + b == a[1..] + tail;
      RemoveTagsTag(a[1..], t, b);
      RemoveTagsCons(a[0], a[1..] + tail);
      assert [a[0]] + (a[1..] + RemoveTags(b)) == a + RemoveTags(b);
    }
  }

  lemma RemoveTagsCons(c: char, r: string)
    requires c != '<'
    ensures RemoveTags([c] + r) == [c] + RemoveTags(r)
  {
    assert ([c] + r)[1..] == r;
  }

  lemma RemoveTagsLeadingTag(t: string, b: string)
    requires '>' !in t
    ensures RemoveTags("<" + t + ">" + b) == RemoveTags(b)
  {
    var s := "<" + t + ">" + b;
    var m := 1 + |t|;
    assert s[m] == '>';
    assert forall k | 1 <= k < m :: s[k] == t[k - 1];
    IndexFromFirst(s, '>', 1, m);
    assert '>' in s[1..] by { assert s[1..][m - 1] == '>'; }
    assert s[m + 1..] == b;
  }
}
