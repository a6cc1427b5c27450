/** The range heuristic the route applies to the LLM's cost and upside
    ranges (route.ts:369-387): the matches of `/[\d,]+/g`, the first two
    with their commas removed and read by `parseInt`, and the floor of
    their mean. NaN is `None`. */
module RangeParse {

  import opened Wrappers
  import opened Text
  import opened Decimal

  /** `[\d,]` */
  predicate IsRangeChar(c: char) {
    IsDigit(c) || c == ','
  }

  predicate AllRangeChars(s: string) {
    forall i :: 0 <= i < |s| ==> IsRangeChar(s[i])
  }

  predicate NoRangeChars(s: string) {
    forall i :: 0 <= i < |s| ==> !IsRangeChar(s[i])
  }

  predicate NotComma(c: char) {
    c != ','
  }

  /** The length of the longest prefix made of range characters. */
  function RunLength(s: string): (n: nat)
    ensures n <= |s|
    ensures forall i :: 0 <= i < n ==> IsRangeChar(s[i])
    ensures n == |s| || !IsRangeChar(s[n])
  {
    if s != [] && IsRangeChar(s[0]) then 1 + RunLength(s[1..]) else 0
  }

  /** Any prefix of range characters followed by a non-range character
      (or by the end) is the longest one. */
  lemma {:induction false} RunLengthStops(s: string, n: nat)
    requires n <= |s|
    requires forall i :: 0 <= i < n ==> IsRangeChar(s[i])
    requires n == |s| || !IsRangeChar(s[n])
    ensures RunLength(s) == n
  {
    if n > 0 {
      RunLengthStops(s[1..], n - 1);
    }
  }

  /** The matches of `/[\d,]+/g`, left to right. */
  function Runs(s: string): (rs: seq<string>)
    ensures forall k :: 0 <= k < |rs| ==> rs[k] != [] && AllRangeChars(rs[k])
    decreases |s|
  {
    if s == [] then []
    else if !IsRangeChar(s[0]) then Runs(s[1..])
    else
      var n := RunLength(s);
      [s[..n]] + Runs(s[n..])
  }

  function Concat(rs: seq<string>): string {
    if rs == [] then [] else rs[0] + Concat(rs[1..])
  }

  /** Read together the matches are exactly the range characters of the
      text: nothing is dropped, nothing is invented, order is kept. */
  lemma {:induction false} RunsCoverRangeChars(s: string)
    ensures Concat(Runs(s)) == Filter(IsRangeChar, s)
    decreases |s|
  {
    if s == [] {
    } else if !IsRangeChar(s[0]) {
      RunsCoverRangeChars(s[1..]);
    } else {
      var n := RunLength(s);
      var rs := Runs(s);
      assert rs == [s[..n]] + Runs(s[n..]);
      assert rs[1..] == Runs(s[n..]);
      RunsCoverRangeChars(s[n..]);
      assert s == s[..n] + s[n..];
      FilterAppend(IsRangeChar, s[..n], s[n..]);
      FilterAllKept(IsRangeChar, s[..n]);
    }
  }

  /** Characters outside `[\d,]` before the text are skipped. */
  lemma {:induction false} RunsSkip(p: string, s: string)
    requires NoRangeChars(p)
    ensures Runs(p + s) == Runs(s)
  {
    if p == [] {
      assert p + s == s;
    } else {
      assert (p + s)[0] == p[0];
      assert (p + s)[1..] == p[1..] + s;
      RunsSkip(p[1..], s);
    }
  }

  /** A match ends at the first character outside `[\d,]`, and matching
      resumes after it: the matches of the two sides are kept apart. */
  lemma {:induction false} RunsSplit(s: string, sep: char, t: string)
    requires !IsRangeChar(sep)
    ensures Runs(s + [sep] + t) == Runs(s) + Runs(t)
    decreases |s|
  {
    var whole := s + [sep] + t;
    if s == [] {
      assert whole == [sep] + t;
      assert whole[1..] == t;
    } else if !IsRangeChar(s[0]) {
      assert whole[1..] == s[1..] + [sep] + t;
      RunsSplit(s[1..], sep, t);
    } else {
      var n := RunLength(s);
      RunLengthStops(whole, n);
      assert whole[..n] == s[..n];
      assert whole[n..] == s[n..] + [sep] + t;
      RunsSplit(s[n..], sep, t);
    }
  }

  /** A number written after some non-numeric prefix (a currency symbol)
      is one match. */
  lemma RunsOfAmount(sym: string, n: nat)
    requires NoRangeChars(sym)
    ensures Runs(sym + NatToString(n)) == [NatToString(n)]
  {
    var d := NatToString(n);
    RunsSkip(sym, d);
    RunLengthStops(d, |d|);
    assert d[..|d|] == d;
    assert d[|d|..] == [];
  }

  /** `parseInt(run.replace(/,/g, ""))` on one match: NaN exactly when the
      match holds no digit. */
  function RunValue(run: string): (v: Option<int>)
    requires AllRangeChars(run)
    ensures v.None? <==> forall i :: 0 <= i < |run| ==> run[i] == ','
    ensures v.Some? ==> 0 <= v.value
  {
    var digits := Filter(NotComma, run);
    assert AllDigits(digits);
    DigitsParse(digits);
    FilterEmpty(NotComma, run);
    ParseInt(digits)
  }

  /** `parseInt` reads a non-empty digit string as its decimal value. */
  lemma DigitsParse(s: string)
    requires AllDigits(s)
    ensures s == [] ==> ParseInt(s).None?
    ensures s != [] ==> ParseInt(s) == Some(Value(s))
  {
    if s != [] {
      assert !IsWhitespace(s[0]) && s[0] != '+' && s[0] != '-';
      assert TrimStart(s) == s;
      LeadingDigitsOfDigits(s);
    }
  }

  lemma {:induction false} FilterEmpty(keep: char -> bool, s: string)
    ensures Filter(keep, s) == [] <==> forall i :: 0 <= i < |s| ==> !keep(s[i])
  {
    if s != [] {
      FilterEmpty(keep, s[1..]);
      assert forall i :: 1 <= i < |s| ==> s[i] == s[1..][i - 1];
    }
  }

  /** The commas of a rendered number are dropped before reading it. */
  lemma RunValueOfAmount(n: nat)
    ensures RunValue(NatToString(n)) == Some(n)
  {
    var d := NatToString(n);
    FilterAllKept(NotComma, d);
    ParseIntOfNatToString(n);
  }

  /** One range member of `numbers`. An absent or empty member, or fewer
      than two matches, leaves the figure at its initial 0; later matches
      are ignored; NaN in either of the first two gives NaN. */
  function ParseRange(field: Option<string>): (r: Option<int>)
    ensures (field.None? || |Runs(field.value)| < 2) ==> r == Some(0)
    ensures field.Some? && |Runs(field.value)| >= 2 ==>
      (r.None? <==> RunValue(Runs(field.value)[0]).None? || RunValue(Runs(field.value)[1]).None?)
  {
    if field.None? || field.value == [] then Some(0) else FromRuns(Runs(field.value))
  }

  /** The figure given the matches: the floor of the mean of the first two. */
  function FromRuns(runs: seq<string>): Option<int>
    requires forall i :: 0 <= i < |runs| ==> AllRangeChars(runs[i])
  {
    if |runs| < 2 then Some(0)
    else
      match (RunValue(runs[0]), RunValue(runs[1]))
      case (Some(low), Some(high)) => Some((low + high) / 2)
      case _ => None
  }

  /** When both ends parse, the figure is the floor of their mean and lies
      between them. */
  lemma MeanBetween(field: string)
    requires |Runs(field)| >= 2
    requires RunValue(Runs(field)[0]).Some? && RunValue(Runs(field)[1]).Some?
    ensures var low := RunValue(Runs(field)[0]).value;
      var high := RunValue(Runs(field)[1]).value;
      && ParseRange(Some(field)).Some?
      && 2 * ParseRange(Some(field)).value <= low + high < 2 * ParseRange(Some(field)).value + 2
      && (low <= high ==> low <= ParseRange(Some(field)).value <= high)
      && (high <= low ==> high <= ParseRange(Some(field)).value <= low)
  {
  }

  /** A range written the way the prompt asks for it, `€1,000–€3,000` with
      any symbol outside `[\d,]` and any separator outside `[\d,]`, is read
      back as the floor of the mean of its two amounts. */
  lemma {:induction false} RangeRoundTrip(sym: string, sep: char, low: nat, high: nat)
    requires NoRangeChars(sym) && !IsRangeChar(sep)
    ensures ParseRange(Some(sym + NatToString(low) + [sep] + sym + NatToString(high)))
         == Some((low + high) / 2)
  {
    var a := sym + NatToString(low);
    var b := sym + NatToString(high);
    assert sym + NatToString(low) + [sep] + sym + NatToString(high) == a + [sep] + b;
    RunsSplit(a, sep, b);
    RunsOfAmount(sym, low);
    RunsOfAmount(sym, high);
    var runs := Runs(a + [sep] + b);
    assert runs == [NatToString(low), NatToString(high)];
    assert a + [sep] + b != [];
    RunValueOfAmount(low);
    RunValueOfAmount(high);
    TwoRunsDecide(NatToString(low), NatToString(high), low, high);
  }

  lemma TwoRunsDecide(a: string, b: string, low: int, high: int)
    requires AllRangeChars(a) && AllRangeChars(b)
    requires RunValue(a) == Some(low) && RunValue(b) == Some(high)
    ensures FromRuns([a, b]) == Some((low + high) / 2)
  {
  }

  /** Only the first two matches decide the figure. */
  lemma SameLeadingRuns(x: string, y: string)
    requires |Runs(x)| >= 2 && |Runs(y)| >= 2
    requires Runs(x)[0] == Runs(y)[0] && Runs(x)[1] == Runs(y)[1]
    ensures ParseRange(Some(x)) == ParseRange(Some(y))
  {
    assert x != [] && y != [];
    LeadingRunsDecide(Runs(x), Runs(y));
  }

  lemma LeadingRunsDecide(rx: seq<string>, ry: seq<string>)
    requires forall i :: 0 <= i < |rx| ==> AllRangeChars(rx[i])
    requires forall i :: 0 <= i < |ry| ==> AllRangeChars(ry[i])
    requires |rx| >= 2 && |ry| >= 2 && rx[0] == ry[0] && rx[1] == ry[1]
    ensures FromRuns(rx) == FromRuns(ry)
  {
  }

  /** Text after the second match never changes the figure. */
  lemma LaterTextIgnored(s: string, sep: char, t: string)
    requires !IsRangeChar(sep)
    requires |Runs(s)| >= 2
    ensures ParseRange(Some(s + [sep] + t)) == ParseRange(Some(s))
  {
    RunsSplit(s, sep, t);
    SameLeadingRuns(s + [sep] + t, s);
  }

  /** A leading match of commas alone, such as `, 1000`, reads as NaN. */
  lemma CommaRunIsNaN(field: string)
    requires |Runs(field)| >= 2
    requires forall i :: 0 <= i < |Runs(field)[0]| ==> Runs(field)[0][i] == ','
    ensures ParseRange(Some(field)).None?
  {
  }
}
