/** The server's input hygiene (src/app/api/diagnostic/route.ts):
    `sanitizeString`, `isValidEmail`, `isValidRegion` and `isValidPath`.
    The email shape `^[^\s@]+@[^\s@]+\.[^\s@]+$` is also the client pages'
    shape check, so it is defined here once. */
module Validation {

  import opened Wrappers
  import opened Text
  import opened Domain

  /** Characters `[^\w\s@.-]` does not remove. */
  predicate IsSafeChar(c: char) {
    IsWordChar(c) || IsWhitespace(c) || c == '@' || c == '.' || c == '-'
  }

  predicate NotAngle(c: char) {
    c != '<' && c != '>'
  }

  /** `sanitizeString(input, maxLength)` on a string input: trim, keep the
      first `maxLength` characters, drop `<` and `>`, then drop every
      character outside the safe set. Trimming happens BEFORE filtering,
      so the result may again end in whitespace. */
  function SanitizeString(input: string, maxLength: nat): (r: string)
    ensures input == [] ==> r == []
    ensures |r| <= maxLength
    ensures forall i :: 0 <= i < |r| ==> IsSafeChar(r[i]) && r[i] != '<' && r[i] != '>'
    ensures forall i :: 0 <= i < |r| ==> r[i] in input
  {
    if input == [] then []
    else
      var t := Trim(input);
      var cut := if |t| <= maxLength then t else t[..maxLength];
      TrimKeepsChars(input);
      assert forall i :: 0 <= i < |cut| ==> cut[i] in input by {
        forall i | 0 <= i < |cut| ensures cut[i] in input {
          assert cut[i] == t[i];
        }
      }
      Filter(IsSafeChar, Filter(NotAngle, cut))
  }

  /** Sanitizing a sanitized string only trims it again: the filters have
      nothing left to remove and the length cap is already met. */
  lemma SanitizeTwice(input: string, maxLength: nat)
    ensures SanitizeString(SanitizeString(input, maxLength), maxLength)
         == Trim(SanitizeString(input, maxLength))
  {
    var s := SanitizeString(input, maxLength);
    if s != [] {
      var t := Trim(s);
      TrimKeepsChars(s);
      assert forall i :: 0 <= i < |t| ==> NotAngle(t[i]) && IsSafeChar(t[i]);
      FilterAllKept(NotAngle, t);
      FilterAllKept(IsSafeChar, t);
    }
  }

  /** A trimmed string of safe characters within the cap is left unchanged. */
  lemma SanitizeClean(s: string, maxLength: nat)
    requires |s| <= maxLength
    requires forall i :: 0 <= i < |s| ==> IsSafeChar(s[i])
    requires s == [] || (!IsWhitespace(s[0]) && !IsWhitespace(s[|s| - 1]))
    ensures SanitizeString(s, maxLength) == s
  {
    if s != [] {
      TrimOfTrimmed(s);
      assert forall i :: 0 <= i < |s| ==> NotAngle(s[i]);
      FilterAllKept(NotAngle, s);
      FilterAllKept(IsSafeChar, s);
    }
  }

  /** Hence a sanitized string with no whitespace at either end is a fixed point. */
  lemma SanitizeFixedPoint(input: string, maxLength: nat)
    requires var s := SanitizeString(input, maxLength);
      s == [] || (!IsWhitespace(s[0]) && !IsWhitespace(s[|s| - 1]))
    ensures SanitizeString(SanitizeString(input, maxLength), maxLength)
         == SanitizeString(input, maxLength)
  {
    SanitizeTwice(input, maxLength);
    TrimOfTrimmed(SanitizeString(input, maxLength));
  }

  /** Sanitizing is not idempotent: `"a !"` loses its `!` after the trim,
      leaving a trailing space that only a second pass removes. */
  lemma SanitizeNotIdempotent()
    ensures SanitizeString("a !", 500) == "a "
    ensures SanitizeString("a ", 500) == "a"
  {
    SanitizeFirstPass("a !");
    SanitizeSecondPass();
  }

  lemma SanitizeFirstPass(s: string)
    requires s == "a !"
    ensures SanitizeString(s, 500) == "a "
  {
    FirstPassOnlyFilters(s);
    FirstPassDropsBang(s);
  }

  /** `"a !"` is already trimmed, short and free of angle brackets. */
  lemma FirstPassOnlyFilters(s: string)
    requires s == "a !"
    ensures SanitizeString(s, 500) == Filter(IsSafeChar, s)
  {
    assert !IsWhitespace(s[0]) && !IsWhitespace(s[2]);
    TrimOfTrimmed(s);
    assert forall i :: 0 <= i < |s| ==> NotAngle(s[i]);
    FilterAllKept(NotAngle, s);
  }

  lemma FirstPassDropsBang(s: string)
    requires s == "a !"
    ensures Filter(IsSafeChar, s) == "a "
  {
    var kept, dropped := s[..2], s[2..];
    assert kept == "a ";
    assert s == kept + dropped;
    FilterAppend(IsSafeChar, kept, dropped);
    assert forall i :: 0 <= i < |kept| ==> IsSafeChar(kept[i]);
    FilterAllKept(IsSafeChar, kept);
    assert Filter(IsSafeChar, dropped) == [];
  }

  lemma SanitizeSecondPass()
    ensures SanitizeString("a ", 500) == "a"
  {
    var s := "a ";
    assert !IsWhitespace(s[0]) && IsWhitespace(s[1]);
    assert TrimStart(s) == s;
    assert s[..1] == "a";
    assert TrimEnd("a") == "a";
    assert TrimEnd(s) == "a";
    FilterAllKept(NotAngle, "a");
    FilterAllKept(IsSafeChar, "a");
  }

  /** A character `[^\s@]` matches. */
  predicate EmailChar(c: char) {
    !IsWhitespace(c) && c != '@'
  }

  /** `[^\s@]+` */
  predicate EmailRun(s: string) {
    s != [] && forall i :: 0 <= i < |s| ==> EmailChar(s[i])
  }

  /** The regular expression read literally: `s` splits as
      run `@` run `.` run, with `@` at `at` and the chosen `.` at `dot`. */
  ghost predicate SplitsAsEmail(s: string, at: int, dot: int) {
    && 0 <= at < dot < |s|
    && s[at] == '@' && s[dot] == '.'
    && EmailRun(s[..at]) && EmailRun(s[at + 1..dot]) && EmailRun(s[dot + 1..])
  }

  ghost predicate MatchesEmailPattern(s: string) {
    exists at, dot :: SplitsAsEmail(s, at, dot)
  }

  /** The shape test computed directly: a non-empty local part before the
      first `@`, no whitespace anywhere, no second `@`, and a `.` in the
      domain that is neither its first nor its last character. */
  predicate HasEmailShape(s: string) {
    match IndexOf(s, '@')
    case None => false
    case Some(at) =>
      var local := s[..at];
      var domain := s[at + 1..];
      && EmailRun(local)
      && (forall i :: 0 <= i < |domain| ==> EmailChar(domain[i]))
      && exists k :: 0 < k < |domain| - 1 && domain[k] == '.'
  }

  /** The computed shape test agrees with the regular expression. */
  lemma EmailShapeMatchesPattern(s: string)
    ensures HasEmailShape(s) <==> MatchesEmailPattern(s)
  {
    if HasEmailShape(s) {
      ShapeGivesPattern(s);
    }
    if MatchesEmailPattern(s) {
      var at, dot :| SplitsAsEmail(s, at, dot);
      PatternGivesShape(s, at, dot);
    }
  }

  lemma ShapeGivesPattern(s: string)
    requires HasEmailShape(s)
    ensures MatchesEmailPattern(s)
  {
    var at := IndexOf(s, '@').value;
    var domain := s[at + 1..];
    var k :| 0 < k < |domain| - 1 && domain[k] == '.';
    var dot := at + 1 + k;
    assert s[at + 1..dot] == domain[..k];
    assert s[dot + 1..] == domain[k + 1..];
    assert SplitsAsEmail(s, at, dot);
  }

  lemma PatternGivesShape(s: string, at: int, dot: int)
    requires SplitsAsEmail(s, at, dot)
    ensures HasEmailShape(s)
  {
    assert '@' !in s[..at];
    assert IndexOf(s, '@') == Some(at);
    var domain := s[at + 1..];
    var k := dot - at - 1;
    assert domain[..k] == s[at + 1..dot];
    assert domain[k + 1..] == s[dot + 1..];
    assert domain == domain[..k] + [domain[k]] + domain[k + 1..];
    assert domain[k] == '.';
    assert forall i :: 0 <= i < |domain| ==> EmailChar(domain[i]);
  }

  /** Any three runs joined as `local@host.tld` have the email shape. */
  lemma EmailFromParts(local: string, host: string, tld: string)
    requires EmailRun(local) && EmailRun(host) && EmailRun(tld)
    ensures HasEmailShape(local + "@" + host + "." + tld)
  {
    var s := local + "@" + host + "." + tld;
    var at := |local|;
    var dot := |local| + 1 + |host|;
    assert s[..at] == local;
    assert s[at + 1..dot] == host;
    assert s[dot + 1..] == tld;
    assert SplitsAsEmail(s, at, dot);
    EmailShapeMatchesPattern(s);
  }

  /** An address without `@` never has the email shape. */
  lemma NoAtNoEmail(s: string)
    requires '@' !in s
    ensures !HasEmailShape(s)
  {
  }

  /** `isValidEmail`: the shape test and the 254-character bound of RFC 5321. */
  predicate IsValidEmail(email: string) {
    HasEmailShape(email) && |email| <= 254
  }

  /** An address as a person would describe it: at most 254 characters, no
      whitespace, exactly one `@` with something before it, and a `.` after
      the character that follows the `@` and before the last character. */
  ghost predicate WellFormedAddress(e: string) {
    && |e| <= 254
    && NoWhitespace(e)
    && Count(e, '@') == 1
    && exists at, dot :: 0 < at && at + 1 < dot < |e| - 1 && e[at] == '@' && e[dot] == '.'
  }

  lemma {:induction false} CountOneSplit(s: string, c: char, i: int)
    requires 0 <= i < |s| && s[i] == c
    ensures Count(s, c) == 1 <==> c !in s[..i] && c !in s[i + 1..]
  {
    assert s == s[..i] + ([s[i]] + s[i + 1..]);
    CountAppend(s[..i], [s[i]] + s[i + 1..], c);
    CountAppend([s[i]], s[i + 1..], c);
  }

  /** `isValidEmail` holds exactly for the well-formed addresses. */
  lemma IsValidEmailCharacterised(e: string)
    ensures IsValidEmail(e) <==> WellFormedAddress(e)
  {
    if IsValidEmail(e) {
      var at := IndexOf(e, '@').value;
      var domain := e[at + 1..];
      var k :| 0 < k < |domain| - 1 && domain[k] == '.';
      assert e[at + 1 + k] == '.';
      assert '@' !in domain;
      CountOneSplit(e, '@', at);
      forall i | 0 <= i < |e| ensures !IsWhitespace(e[i]) {
        if i < at { assert e[i] == e[..at][i]; }
        else if i > at { assert e[i] == domain[i - at - 1]; }
      }
    }
    if WellFormedAddress(e) {
      var at, dot :| 0 < at && at + 1 < dot < |e| - 1 && e[at] == '@' && e[dot] == '.';
      CountOneSplit(e, '@', at);
      assert IndexOf(e, '@') == Some(at);
      var domain := e[at + 1..];
      assert domain[dot - at - 1] == '.';
      forall i | 0 <= i < |domain| ensures EmailChar(domain[i]) {
        assert domain[i] == e[at + 1 + i];
        assert domain[i] in e[at + 1..];
      }
    }
  }

  /** `isValidRegion` */
  predicate IsValidRegion(region: string) {
    region == "india" || region == "europe" || region == "uk"
  }

  /** `isValidPath`: exactly the wire names of the four paths. */
  predicate IsValidPath(path: string) {
    path in ["scaler", "founder", "operator", "explorer"]
  }

  lemma ValidPathIsPathName(path: string)
    ensures IsValidPath(path) <==> ParsePath(path).Some?
  {
  }
}
