/**
 * The JavaScript string primitives the model relies on: the `\s` class and
 * `trim`, ASCII `toLowerCase`, `includes`, `Array.join`/`String.split` on one
 * character, and the decimal conversions `String(n)` and `parseInt(s, 10)`.
 */
module JsStrings {
  import opened Wrappers

  /** The characters matched by `\s` and removed by `trim`: WhiteSpace and LineTerminator. */
  predicate IsSpace(c: char) {
    c == ' ' || c == '\t' || c == '\n' || c == '\r' || c == '\U{000B}' || c == '\U{000C}'
    || c == '\U{00A0}' || c == '\U{FEFF}' || c == '\U{1680}' || ('\U{2000}' <= c <= '\U{200A}')
    || c == '\U{2028}' || c == '\U{2029}' || c == '\U{202F}' || c == '\U{205F}' || c == '\U{3000}'
  }

  predicate AllSpace(s: string) {
    forall k :: 0 <= k < |s| ==> IsSpace(s[k])
  }

  /** `trimStart`: the suffix left after dropping the leading whitespace. */
  function TrimStart(s: string): (r: string)
    ensures |r| <= |s| && r == s[|s| - |r|..]
    ensures AllSpace(s[..|s| - |r|])
    ensures r == [] || !IsSpace(r[0])
  {
    if s != [] && IsSpace(s[0]) then TrimStart(s[1..]) else s
  }

  /** `trimEnd`: the prefix left after dropping the trailing whitespace. */
  function TrimEnd(s: string): (r: string)
    ensures |r| <= |s| && r == s[..|r|]
    ensures AllSpace(s[|r|..])
    ensures r == [] || !IsSpace(r[|r| - 1])
  {
    if s != [] && IsSpace(s[|s| - 1]) then TrimEnd(s[..|s| - 1]) else s
  }

  /** `String.prototype.trim`. */
  function Trim(s: string): (r: string)
    ensures r == [] || (!IsSpace(r[0]) && !IsSpace(r[|r| - 1]))
    ensures |r| <= |s|
  {
    TrimEnd(TrimStart(s))
  }

  /** `trim` removes whitespace and nothing else: `s` is whitespace, the result, whitespace. */
  lemma TrimDropsOnlySpace(s: string)
    ensures exists a, b :: s == a + Trim(s) + b && AllSpace(a) && AllSpace(b)
  {
    var t := TrimStart(s);
    var r := TrimEnd(t);
    assert r == Trim(s);
    SurroundedBySpace(s, t, r);
  }

  /** `trim` keeps every character that is not whitespace, in order. */
  lemma TrimKeepsNonSpace(s: string)
    ensures NonSpace(Trim(s)) == NonSpace(s)
  {
    var t := TrimStart(s);
    var r := TrimEnd(t);
    assert r == Trim(s);
    NonSpaceParts(s, t, r);
  }

  lemma SurroundedBySpace(s: string, t: string, r: string)
    requires |t| <= |s| && t == s[|s| - |t|..] && |r| <= |t| && r == t[..|r|]
    requires AllSpace(s[..|s| - |t|]) && AllSpace(t[|r|..])
    ensures exists a, b :: s == a + r + b && AllSpace(a) && AllSpace(b)
  {
    SliceParts(s, t, r);
    var i := |s| - |t|;
    SliceSplit3(s, i, i + |r|);
    assert s == s[..i] + r + s[i + |r|..];
  }

  /** `t` is a suffix of `s` and `r` a prefix of `t`. */
  lemma SliceParts(s: string, t: string, r: string)
    requires |t| <= |s| && t == s[|s| - |t|..] && |r| <= |t| && r == t[..|r|]
    ensures s[|s| - |t|..|s| - |t| + |r|] == r && s[|s| - |t| + |r|..] == t[|r|..]
  {
    SliceOfSuffix(s, |s| - |t|, |r|);
  }

  lemma SliceOfSuffix(s: string, i: nat, n: nat)
    requires i + n <= |s|
    ensures s[i..][..n] == s[i..i + n] && s[i..][n..] == s[i + n..]
  {
  }

  /** Dropping whitespace from both ends keeps every other character. */
  lemma NonSpaceParts(s: string, t: string, r: string)
    requires |t| <= |s| && t == s[|s| - |t|..] && |r| <= |t| && r == t[..|r|]
    requires AllSpace(s[..|s| - |t|]) && AllSpace(t[|r|..])
    ensures NonSpace(r) == NonSpace(s)
  {
    var i := |s| - |t|;
    SliceSplit(s, i);
    SliceSplit(t, |r|);
    NonSpaceAppend(s[..i], t);
    NonSpaceAppend(r, t[|r|..]);
    NonSpaceAllSpace(s[..i]);
    NonSpaceAllSpace(t[|r|..]);
  }

  lemma Associative(a: string, b: string, c: string)
    ensures a + (b + c) == a + b + c
  {
  }

  lemma SliceSplit3(s: string, i: nat, j: nat)
    requires i <= j <= |s|
    ensures s == s[..i] + s[i..j] + s[j..]
  {
  }

  lemma SliceSplit(s: string, i: nat)
    requires i <= |s|
    ensures s == s[..i] + s[i..]
  {
  }

  /** The characters of `s` that are not whitespace, in order. */
  function NonSpace(s: string): (r: string)
    ensures |r| <= |s|
    ensures forall k :: 0 <= k < |r| ==> !IsSpace(r[k])
  {
    if s == [] then []
    else if IsSpace(s[0]) then NonSpace(s[1..])
    else [s[0]] + NonSpace(s[1..])
  }

  lemma {:induction false} NonSpaceAppend(a: string, b: string)
    ensures NonSpace(a + b) == NonSpace(a) + NonSpace(b)
  {
    if a != [] {
      assert (a + b)[1..] == a[1..] + b;
      NonSpaceAppend(a[1..], b);
    } else {
      assert a + b == b;
    }
  }

  lemma {:induction false} NonSpaceAllSpace(w: string)
    requires AllSpace(w)
    ensures NonSpace(w) == []
  {
    if w != [] {
      NonSpaceAllSpace(w[1..]);
    }
  }

  /** Trim is the identity on a string with no whitespace at either end. */
  lemma TrimOfTrimmed(s: string)
    requires s == [] || (!IsSpace(s[0]) && !IsSpace(s[|s| - 1]))
    ensures Trim(s) == s
  {
  }

  /** `trim` drops whitespace after a word that ends in a non-space character, and keeps the word. */
  lemma TrimSpaceAfter(s: string, w: string)
    requires s != [] && !IsSpace(s[0]) && !IsSpace(s[|s| - 1]) && AllSpace(w)
    ensures Trim(s + w) == s
  {
    assert (s + w)[0] == s[0];
    assert TrimStart(s + w) == s + w;
    TrimEndSpaces(s, w);
  }

  lemma {:induction false} TrimEndSpaces(s: string, w: string)
    requires (s == [] || !IsSpace(s[|s| - 1])) && AllSpace(w)
    ensures TrimEnd(s + w) == s
    decreases |w|
  {
    if w != [] {
      var shorter := w[..|w| - 1];
      assert (s + w)[..|s + w| - 1] == s + shorter;
      TrimEndSpaces(s, shorter);
    } else {
      assert s + w == s;
    }
  }

  /** Lower-casing of one character, on the ASCII letters only. */
  function LowerChar(c: char): char {
    if 'A' <= c <= 'Z' then (c as int + 32) as char else c
  }

  /** `toLowerCase`, on the ASCII letters only. */
  function ToLower(s: string): (r: string)
    ensures |r| == |s|
    ensures forall k :: 0 <= k < |s| ==> r[k] == LowerChar(s[k])
  {
    if s == [] then [] else [LowerChar(s[0])] + ToLower(s[1..])
  }

  /** Lower-casing is idempotent. */
  lemma ToLowerIdempotent(s: string)
    ensures ToLower(ToLower(s)) == ToLower(s)
  {
  }

  /** `s.includes(sub)`: `sub` occurs in `s` at some position. */
  predicate Includes(s: string, sub: string) {
    exists i | 0 <= i <= |s| - |sub| :: OccursAt(s, sub, i)
  }

  /** `sub` occurs in `s` starting at index `i`. */
  predicate OccursAt(s: string, sub: string, i: nat) {
    i + |sub| <= |s| && s[i..i + |sub|] == sub
  }

  /** `parts.join(sep)`. */
  function Join(parts: seq<string>, sep: string): string {
    if parts == [] then ""
    else if |parts| == 1 then parts[0]
    else parts[0] + sep + Join(parts[1..], sep)
  }

  /** The index of the first `c` at or after `i`, or `|s|` when there is none. */
  function IndexFrom(s: string, c: char, i: nat): (j: nat)
    requires i <= |s|
    ensures i <= j <= |s|
    ensures c !in s[i..j]
    ensures j < |s| ==> s[j] == c
    decreases |s| - i
  {
    if i == |s| || s[i] == c then i
    else
      var j := IndexFrom(s, c, i + 1);
      assert s[i..j] == [s[i]] + s[i + 1..j];
      j
  }

  /** The search stops at the first `c` from `i` on. */
  lemma {:induction false} IndexFromFirst(s: string, c: char, i: nat, m: nat)
    requires i <= m < |s| && s[m] == c
    requires forall k | i <= k < m :: s[k] != c
    ensures IndexFrom(s, c, i) == m
    decreases m - i
  {
    if i < m {
      IndexFromFirst(s, c, i + 1, m);
    }
  }

  /** `s.split(c)` on a one-character separator: the pieces between occurrences of `c`. */
  function Split(s: string, c: char): (r: seq<string>)
    ensures |r| >= 1
    ensures forall k :: 0 <= k < |r| ==> c !in r[k]
  {
    if c !in s then [s]
    else
      var i := IndexOf(s, c);
      [s[..i]] + Split(s[i + 1..], c)
  }

  /** The index of the first occurrence of `c`, which must be present. */
  function IndexOf(s: string, c: char): (i: nat)
    requires c in s
    ensures i < |s| && s[i] == c && c !in s[..i]
  {
    if s[0] == c then 0 else 1 + IndexOf(s[1..], c)
  }

  /** Splitting a join on the separator gives the parts back, when no part holds the separator. */
  lemma {:induction false} SplitJoin(parts: seq<string>, c: char)
    requires |parts| >= 1
    requires forall k :: 0 <= k < |parts| ==> c !in parts[k]
    ensures Split(Join(parts, [c]), c) == parts
  {
    if |parts| == 1 {
    } else {
      var rest := Join(parts[1..], [c]);
      var s := parts[0] + [c] + rest;
      assert s[|parts[0]|] == c;
      assert IndexOf(s, c) == |parts[0]| by {
        IndexOfAfterFree(parts[0], [c] + rest, c);
        assert s == parts[0] + ([c] + rest);
      }
      assert s[..|parts[0]|] == parts[0];
      assert s[|parts[0]| + 1..] == rest;
      SplitJoin(parts[1..], c);
    }
  }

  lemma IndexOfAfterFree(a: string, b: string, c: char)
    requires c !in a && b != [] && b[0] == c
    ensures c in a + b && IndexOf(a + b, c) == |a|
  {
    if a == [] {
      assert a + b == b;
    } else {
      assert (a + b)[1..] == a[1..] + b;
      IndexOfAfterFree(a[1..], b, c);
    }
  }

  predicate IsDigit(c: char) {
    '0' <= c <= '9'
  }

  function DigitChar(d: nat): (c: char)
    requires d < 10
    ensures IsDigit(c)
  {
    ('0' as int + d) as char
  }

  function DigitValue(c: char): nat
    requires IsDigit(c)
  {
    c as int - '0' as int
  }

  predicate AllDigits(s: string) {
    forall k :: 0 <= k < |s| ==> IsDigit(s[k])
  }

  /** The value of a string of decimal digits. */
  function DigitsValue(s: string): nat
    requires AllDigits(s)
  {
    if s == [] then 0 else DigitsValue(s[..|s| - 1]) * 10 + DigitValue(s[|s| - 1])
  }

  /** `String(n)` for a natural number: its decimal digits, without leading zeros. */
  function NatToString(n: nat): (r: string)
    ensures r != [] && AllDigits(r)
    ensures |r| > 1 ==> r[0] != '0'
    ensures DigitsValue(r) == n
  {
    if n < 10 then [DigitChar(n)]
    else
      var r := NatToString(n / 10) + [DigitChar(n % 10)];
      assert r[..|r| - 1] == NatToString(n / 10);
      r
  }

  /** `String(i)` for an integer. */
  function IntToString(i: int): (r: string)
    ensures r != []
    ensures i >= 0 ==> AllDigits(r)
    ensures i < 0 ==> r[0] == '-' && AllDigits(r[1..])
    ensures ParseInt(r) == Some(i)
  {
    if i >= 0 then
      ParseIntOfNatToString(i);
      NatToString(i)
    else
      ParseIntOfNegative(-i);
      "-" + NatToString(-i)
  }

  /** The length of the longest prefix of `s` made of digits. */
  function LeadingDigits(s: string): (n: nat)
    ensures n <= |s| && AllDigits(s[..n])
    ensures n < |s| ==> !IsDigit(s[n])
  {
    if s == [] || !IsDigit(s[0]) then 0
    else
      var n := 1 + LeadingDigits(s[1..]);
      assert s[..n] == [s[0]] + s[1..][..n - 1];
      n
  }

  /**
   * `parseInt(s, 10)`: leading whitespace is skipped, one optional sign is
   * read, then the longest run of digits; `None` stands for `NaN`, the result
   * when no digit follows.
   */
  function ParseInt(s: string): (r: Option<int>)
    ensures r.None? <==> LeadingDigits(SignFree(TrimStart(s))) == 0
  {
    var t := TrimStart(s);
    var body := SignFree(t);
    var n := LeadingDigits(body);
    if n == 0 then None
    else
      var v: int := DigitsValue(body[..n]);
      Some(if t != [] && t[0] == '-' then -v else v)
  }

  /** The text after one leading `+` or `-`, if there is one. */
  function SignFree(t: string): (r: string)
    ensures r == t || (t != [] && (t[0] == '+' || t[0] == '-') && r == t[1..])
  {
    if t != [] && (t[0] == '+' || t[0] == '-') then t[1..] else t
  }

  /** `parseInt` reads back what `String` writes, for every natural number. */
  lemma ParseIntOfNatToString(n: nat)
    ensures ParseInt(NatToString(n)) == Some(n)
  {
    var s := NatToString(n);
    assert TrimStart(s) == s;
    assert SignFree(s) == s;
    assert LeadingDigits(s) == |s| by { LeadingDigitsAll(s); }
    assert s[..|s|] == s;
  }

  /**
   * `parseInt` skips leading whitespace and one sign, reads the longest run of
   * digits and ignores whatever follows it.
   */
  lemma ParseIntValue(w: string, sign: string, d: string, rest: string)
    requires AllSpace(w) && (sign == "" || sign == "+" || sign == "-")
    requires d != [] && AllDigits(d) && (rest == [] || !IsDigit(rest[0]))
    ensures ParseInt(w + sign + d + rest) == Some(if sign == "-" then -(DigitsValue(d) as int) else DigitsValue(d) as int)
  {
    var body := d + rest;
    var t := sign + body;
    assert w + sign + d + rest == w + t;
    SignedText(sign, body);
    TrimStartSpaces(w, t);
    LeadingDigitsPrefix(d, rest);
    assert body[..|d|] == d;
    ParseIntSteps(w + t, t, body, d);
  }

  lemma SignedText(sign: string, body: string)
    requires (sign == "" || sign == "+" || sign == "-") && body != [] && IsDigit(body[0])
    ensures var t := sign + body;
      && t != [] && !IsSpace(t[0]) && SignFree(t) == body
      && (t[0] == '-') == (sign == "-")
  {
    var t := sign + body;
    if sign == "" {
      assert t == body;
    } else {
      assert t[0] == sign[0];
      DropFirst(sign, body);
    }
  }

  lemma ParseIntSteps(s: string, t: string, body: string, d: string)
    requires t == TrimStart(s) && body == SignFree(t) && |d| == LeadingDigits(body) && d != [] && body[..|d|] == d
    ensures ParseInt(s) == Some(if t != [] && t[0] == '-' then -(DigitsValue(d) as int) else DigitsValue(d) as int)
  {
    ParseIntShape(s);
  }

  lemma ParseIntShape(s: string)
    ensures var t := TrimStart(s); var body := SignFree(t); var n := LeadingDigits(body);
      ParseInt(s) == if n == 0 then None else Some(if t != [] && t[0] == '-' then -(DigitsValue(body[..n]) as int) else DigitsValue(body[..n]) as int)
  {
  }


  lemma DropFirst(c: string, x: string)
    requires |c| == 1
    ensures (c + x)[1..] == x
  {
  }

  lemma ParseIntOfNegative(n: nat)
    ensures ParseInt("-" + NatToString(n)) == Some(-(n as int))
  {
    var d := NatToString(n);
    var w: string := "";
    var rest: string := "";
    ParseIntValue(w, "-", d, rest);
    assert w + "-" == "-";
    assert "-" + d + rest == "-" + d;
  }

  lemma {:induction false} TrimStartSpaces(w: string, t: string)
    requires AllSpace(w) && (t == [] || !IsSpace(t[0]))
    ensures TrimStart(w + t) == t
  {
    if w != [] {
      assert (w + t)[1..] == w[1..] + t;
      TrimStartSpaces(w[1..], t);
    } else {
      assert w + t == t;
    }
  }

  lemma {:induction false} LeadingDigitsPrefix(d: string, rest: string)
    requires AllDigits(d) && (rest == [] || !IsDigit(rest[0]))
    ensures LeadingDigits(d + rest) == |d|
  {
    if d != [] {
      assert (d + rest)[1..] == d[1..] + rest;
      LeadingDigitsPrefix(d[1..], rest);
    } else {
      assert d + rest == rest;
    }
  }

  lemma {:induction false} LeadingDigitsAll(s: string)
    requires AllDigits(s)
    ensures LeadingDigits(s) == |s|
  {
    if s != [] {
      LeadingDigitsAll(s[1..]);
    }
  }
}
