/** Character classes and string operations shared by the server route
    and the client pages: JavaScript's `\s`, `\w` and `\d` classes,
    `String.prototype.trim`, global single-character replacement and
    character filtering. Strings are sequences of Unicode scalar values. */
module Text {

  import opened Wrappers

  /** JavaScript's `\s` class, which is also the set `trim()` strips:
      WhiteSpace and LineTerminator code points of ECMAScript. */
  predicate IsWhitespace(c: char) {
    if c <= ' ' then c == ' ' || ('\t' <= c <= '\r')
    else if c < '\U{00A0}' then false
    else
      || c == '\U{00A0}' || c == '\U{1680}'
      || ('\U{2000}' <= c <= '\U{200A}')
      || c == '\U{2028}' || c == '\U{2029}' || c == '\U{202F}' || c == '\U{205F}'
      || c == '\U{3000}' || c == '\U{FEFF}'
  }

  /** JavaScript's `\d` class (ASCII only). */
  predicate IsDigit(c: char) {
    '0' <= c <= '9'
  }

  predicate IsAsciiLetter(c: char) {
    ('A' <= c <= 'Z') || ('a' <= c <= 'z')
  }

  /** JavaScript's `\w` class without the `u` flag: ASCII letters, digits and `_`. */
  predicate IsWordChar(c: char) {
    IsAsciiLetter(c) || IsDigit(c) || c == '_'
  }

  predicate AllDigits(s: string) {
    forall i :: 0 <= i < |s| ==> IsDigit(s[i])
  }

  predicate NoWhitespace(s: string) {
    forall i :: 0 <= i < |s| ==> !IsWhitespace(s[i])
  }

  /** Removes leading whitespace. */
  function TrimStart(s: string): (r: string)
    ensures |r| <= |s| && r == s[|s| - |r|..]
    ensures r == [] || !IsWhitespace(r[0])
    ensures forall i :: 0 <= i < |s| - |r| ==> IsWhitespace(s[i])
  {
    if s != [] && IsWhitespace(s[0]) then
      var r := TrimStart(s[1..]);
      assert forall i :: 1 <= i < |s| - |r| ==> s[i] == s[1..][i - 1];
      r
    else s
  }

  /** Removes trailing whitespace. */
  function TrimEnd(s: string): (r: string)
    ensures |r| <= |s| && r == s[..|r|]
    ensures r == [] || !IsWhitespace(r[|r| - 1])
    ensures forall i :: |r| <= i < |s| ==> IsWhitespace(s[i])
  {
    if s != [] && IsWhitespace(s[|s| - 1]) then TrimEnd(s[..|s| - 1]) else s
  }

  /** `String.prototype.trim`. */
  function Trim(s: string): (r: string)
    ensures |r| <= |s|
    ensures r == [] || (!IsWhitespace(r[0]) && !IsWhitespace(r[|r| - 1]))
  {
    TrimEnd(TrimStart(s))
  }

  /** A string with no whitespace at either end is its own trim. */
  lemma TrimOfTrimmed(s: string)
    requires s == [] || (!IsWhitespace(s[0]) && !IsWhitespace(s[|s| - 1]))
    ensures Trim(s) == s
  {
  }

  /** Every character of the trim is a character of the input. */
  lemma TrimKeepsChars(s: string)
    ensures forall i :: 0 <= i < |Trim(s)| ==> Trim(s)[i] in s
  {
    var a := TrimStart(s);
    var b := TrimEnd(a);
    forall i | 0 <= i < |b|
      ensures b[i] in s
    {
      assert b[i] == a[i] == s[|s| - |a| + i];
    }
  }

  /** A property every character has survives trimming. */
  lemma TrimPreserves(p: char -> bool, s: string)
    requires forall i :: 0 <= i < |s| ==> p(s[i])
    ensures forall i :: 0 <= i < |Trim(s)| ==> p(Trim(s)[i])
  {
    var a := TrimStart(s);
    var b := TrimEnd(a);
    forall i | 0 <= i < |b| ensures p(b[i]) {
      assert b[i] == a[i] == s[|s| - |a| + i];
    }
  }

  /** Keeps the characters satisfying `keep`, in order. */
  function Filter(keep: char -> bool, s: string): (r: string)
    ensures |r| <= |s|
    ensures forall i :: 0 <= i < |r| ==> keep(r[i]) && r[i] in s
  {
    if s == [] then []
    else if keep(s[0]) then [s[0]] + Filter(keep, s[1..])
    else Filter(keep, s[1..])
  }

  /** Filtering a string all of whose characters are kept is the identity. */
  lemma {:induction false} FilterAllKept(keep: char -> bool, s: string)
    requires forall i :: 0 <= i < |s| ==> keep(s[i])
    ensures Filter(keep, s) == s
  {
    if s != [] {
      FilterAllKept(keep, s[1..]);
    }
  }

  /** Filtering distributes over concatenation. */
  lemma {:induction false} FilterAppend(keep: char -> bool, a: string, b: string)
    ensures Filter(keep, a + b) == Filter(keep, a) + Filter(keep, b)
  {
    if a == [] {
      assert a + b == b;
    } else {
      assert (a + b)[1..] == a[1..] + b;
      FilterAppend(keep, a[1..], b);
    }
  }

  /** `s.replace(/<c>/g, rep)` for a single-character pattern and a
      replacement string without `$` patterns. */
  function ReplaceAll(s: string, c: char, rep: string): (r: string)
    ensures c !in rep ==> c !in r
    ensures |rep| == 1 ==> |r| == |s|
  {
    if s == [] then []
    else (if s[0] == c then rep else [s[0]]) + ReplaceAll(s[1..], c, rep)
  }

  /** Replacing a character by itself changes nothing. */
  lemma {:induction false} ReplaceAllBySelf(s: string, c: char)
    ensures ReplaceAll(s, c, [c]) == s
  {
    if s != [] {
      ReplaceAllBySelf(s[1..], c);
    }
  }

  /** A string without the character is left unchanged. */
  lemma {:induction false} ReplaceAllAbsent(s: string, c: char, rep: string)
    requires c !in s
    ensures ReplaceAll(s, c, rep) == s
  {
    if s != [] {
      ReplaceAllAbsent(s[1..], c, rep);
    }
  }

  /** `String.prototype.indexOf` for one character; None stands for -1. */
  function IndexOf(s: string, c: char): (r: Option<nat>)
    ensures r.None? <==> c !in s
    ensures r.Some? ==> r.value < |s| && s[r.value] == c && c !in s[..r.value]
  {
    if s == [] then None
    else if s[0] == c then Some(0)
    else match IndexOf(s[1..], c)
      case None => None
      case Some(k) => assert s[..k + 1] == [s[0]] + s[1..][..k]; Some(k + 1)
  }

  /** `String.prototype.lastIndexOf` for one character; None stands for -1. */
  function LastIndexOf(s: string, c: char): (r: Option<nat>)
    ensures r.None? <==> c !in s
    ensures r.Some? ==> r.value < |s| && s[r.value] == c && c !in s[r.value + 1..]
  {
    if s == [] then None
    else if s[|s| - 1] == c then Some(|s| - 1)
    else
      var init := s[..|s| - 1];
      assert s == init + [s[|s| - 1]];
      LastIndexOf(init, c)
  }

  /** The first occurrence is the one with no occurrence before it. */
  lemma IndexOfIs(s: string, c: char, k: nat)
    requires k < |s| && s[k] == c && c !in s[..k]
    ensures IndexOf(s, c) == Some(k)
  {
    assert s[k] in s;
    var v := IndexOf(s, c).value;
    NotInPrefix(s, c, v);
    NotInPrefix(s, c, k);
  }

  /** The last occurrence is the one with no occurrence after it. */
  lemma LastIndexOfIs(s: string, c: char, k: nat)
    requires k < |s| && s[k] == c && c !in s[k + 1..]
    ensures LastIndexOf(s, c) == Some(k)
  {
    assert s[k] in s;
    var v := LastIndexOf(s, c).value;
    NotInSuffix(s, c, v + 1);
    NotInSuffix(s, c, k + 1);
  }

  lemma NotInPrefix(s: string, c: char, n: nat)
    requires n <= |s| && c !in s[..n]
    ensures forall j :: 0 <= j < n ==> s[j] != c
  {
    forall j | 0 <= j < n ensures s[j] != c {
      assert s[..n][j] == s[j];
    }
  }

  lemma NotInSuffix(s: string, c: char, n: nat)
    requires n <= |s| && c !in s[n..]
    ensures forall j :: n <= j < |s| ==> s[j] != c
  {
    forall j | n <= j < |s| ensures s[j] != c {
      assert s[n..][j - n] == s[j];
    }
  }

  /** Number of occurrences of `c` in `s`. */
  function Count(s: string, c: char): (n: nat)
    ensures n <= |s|
    ensures n == 0 <==> c !in s
  {
    if s == [] then 0 else (if s[0] == c then 1 else 0) + Count(s[1..], c)
  }

  lemma {:induction false} CountAppend(a: string, b: string, c: char)
    ensures Count(a + b, c) == Count(a, c) + Count(b, c)
  {
    if a == [] {
      assert a + b == b;
    } else {
      assert (a + b)[1..] == a[1..] + b;
      CountAppend(a[1..], b, c);
    }
  }

  /** `toLowerCase` on ASCII letters; every other character is unchanged. */
  function LowerChar(c: char): char {
    if 'A' <= c <= 'Z' then (c as int + 32) as char else c
  }

  /** Lower-casing a string with no upper-case ASCII letter changes nothing. */
  lemma ToLowerOfLower(s: string)
    requires forall i :: 0 <= i < |s| ==> !('A' <= s[i] <= 'Z')
    ensures ToLower(s) == s
  {
  }

  function ToLower(s: string): (r: string)
    ensures |r| == |s|
    ensures forall i :: 0 <= i < |s| ==> r[i] == LowerChar(s[i])
  {
    if s == [] then [] else [LowerChar(s[0])] + ToLower(s[1..])
  }
}
