/**
 * Extraction of a probability estimate from free text, in three stages tried in
 * order on the lower-cased text:
 *   1. the leftmost match of `(\d{1,3})[\s]*(?:%|percent)?\s*(?:-|to)\s*(\d{1,3})\s*(?:%|percent)`,
 *      used only when its bounds are valid (both at most 100, low below high);
 *   2. the first value in [1, 99] among all non-overlapping `(\d{1,3})\s*(?:%|percent)` matches;
 *   3. the leftmost `(?:probability|likelihood|chance|estimate)[^\d]*?(0\.\d{1,4})`, when in (0, 1).
 *
 * The three regular expressions are written below as data (`Pattern`) and run by a
 * matcher that never backtracks. For these patterns backtracking has no other choice
 * to offer: a `\d{1,3}` group is always followed by something that cannot start with
 * a digit, so it can only match a whole run of one to three digits; `\s*` and an
 * optional word are followed by something that cannot start with a space or with
 * that word; and the lazy `[^\d]*?` is followed by `0`, so it stops at the first digit.
 */
module ProbabilityParse {
  import opened Wrappers
  import opened Text

  /** The returned dictionary: `point_estimate`, `range_low`, `range_high`. */
  datatype Estimate = Estimate(point: real, rangeLow: Option<real>, rangeHigh: Option<real>)

  /** The regular-expression pieces the three patterns are made of. */
  datatype Element =
    | WholeRun(max: nat)          // `(\d{1,max})` where no digit can follow: a captured run of 1..max digits
    | LeadingDigits(max: nat)     // `\d{1,max}` at the end of a group: the first 1..max digits, captured
    | Spaces                      // `\s*`
    | Word(alternatives: seq<string>)          // `(?:a|b|...)`
    | OptionalWord(alternatives: seq<string>)  // `(?:a|b|...)?`
    | UntilDigit                  // `[^\d]*?` followed by a digit

  type Pattern = seq<Element>

  /** The captured groups of a match, in order. */
  type Captures = seq<string>

  const RangePattern: Pattern :=
    [WholeRun(3), Spaces, OptionalWord(["%", "percent"]), Spaces, Word(["-", "to"]), Spaces,
     WholeRun(3), Spaces, Word(["%", "percent"])]

  const PercentPattern: Pattern := [WholeRun(3), Spaces, Word(["%", "percent"])]

  /** Its group `0\.\d{1,4}` is captured here as the digits after `0.`. */
  const DecimalPattern: Pattern :=
    [Word(["probability", "likelihood", "chance", "estimate"]), UntilDigit, Word(["0."]), LeadingDigits(4)]

  /** The end of the run of digits that starts at `i`. */
  function DigitRunEnd(t: string, i: nat): (j: nat)
    requires i <= |t|
    ensures i <= j <= |t|
    ensures AllDigits(t[i..j])
    ensures j == |t| || !IsDigit(t[j])
    decreases |t| - i
  {
    if i < |t| && IsDigit(t[i]) then DigitRunEnd(t, i + 1) else i
  }

  /** The end of the run of `\s` characters that starts at `i`. */
  function SkipSpaces(t: string, i: nat): (j: nat)
    requires i <= |t|
    ensures i <= j <= |t|
    ensures forall k :: i <= k < j ==> IsSpace(t[k])
    ensures j == |t| || !IsSpace(t[j])
    decreases |t| - i
  {
    if i < |t| && IsSpace(t[i]) then SkipSpaces(t, i + 1) else i
  }

  /** The first digit at or after `i`. */
  function FirstDigitFrom(t: string, i: nat): (j: nat)
    requires i <= |t|
    ensures i <= j <= |t|
    ensures forall k :: i <= k < j ==> !IsDigit(t[k])
    ensures j == |t| || IsDigit(t[j])
    decreases |t| - i
  {
    if i == |t| || IsDigit(t[i]) then i else FirstDigitFrom(t, i + 1)
  }

  /** An alternation of words at `i`: the end of the first alternative that occurs there. */
  function WordEnd(t: string, i: nat, alternatives: seq<string>): (r: Option<nat>)
    requires i <= |t|
    ensures r.Some? <==> exists k :: 0 <= k < |alternatives| && OccursAt(t, i, alternatives[k])
    ensures r.Some? ==> i <= r.value <= |t|
    ensures r.Some? ==> exists k :: 0 <= k < |alternatives| && OccursAt(t, i, alternatives[k]) &&
                          r.value == i + |alternatives[k]|
  {
    if alternatives == [] then None
    else if OccursAt(t, i, alternatives[0]) then Some(i + |alternatives[0]|)
    else
      var r := WordEnd(t, i, alternatives[1..]);
      assert forall k :: 1 <= k < |alternatives| ==> alternatives[k] == alternatives[1..][k - 1];
      r
  }

  /** The number of capturing groups of a pattern. */
  function GroupCount(p: Pattern): nat {
    if p == [] then 0
    else (if p[0].WholeRun? || p[0].LeadingDigits? then 1 else 0) + GroupCount(p[1..])
  }

  /** Every captured group is a non-empty string of digits. */
  predicate DigitGroups(groups: Captures) {
    forall k :: 0 <= k < |groups| ==> |groups[k]| > 0 && AllDigits(groups[k])
  }

  /** Puts the group captured at `t[i..j]` in front of a match of the rest of the pattern. */
  function Prepend(t: string, i: nat, j: nat, rest: Option<(Captures, nat)>): Option<(Captures, nat)>
    requires i <= j <= |t|
  {
    match rest
    case None => None
    case Some((groups, e)) => Some(([t[i..j]] + groups, e))
  }

  /** The pattern anchored at `i`: its groups and its end, or `None` when it does not match there. */
  function Match(t: string, i: nat, p: Pattern): (r: Option<(Captures, nat)>)
    requires i <= |t|
    ensures r.Some? ==> i <= r.value.1 <= |t|
    ensures r.Some? ==> |r.value.0| == GroupCount(p) && DigitGroups(r.value.0)
    decreases |p|
  {
    if p == [] then Some(([], i))
    else
      match p[0]
      case WholeRun(max) =>
        var j := DigitRunEnd(t, i);
        if 1 <= j - i <= max then Prepend(t, i, j, Match(t, j, p[1..])) else None
      case LeadingDigits(max) =>
        var j := DigitRunEnd(t, i);
        var e := if j <= i + max then j else i + max;
        assert t[i..e] == t[i..j][..e - i];
        if j == i || max == 0 then None else Prepend(t, i, e, Match(t, e, p[1..]))
      case Spaces => Match(t, SkipSpaces(t, i), p[1..])
      case Word(alternatives) =>
        var end := WordEnd(t, i, alternatives);
        if end.None? then None else Match(t, end.value, p[1..])
      case OptionalWord(alternatives) =>
        var end := WordEnd(t, i, alternatives);
        Match(t, if end.None? then i else end.value, p[1..])
      case UntilDigit => Match(t, FirstDigitFrom(t, i), p[1..])
  }

  /** `g` is the slice `t[a..b]` for some `i <= a <= b <= e`. */
  predicate SliceWithin(t: string, i: nat, e: nat, g: string)
    requires e <= |t|
  {
    exists a: nat, b: nat :: i <= a <= b <= e && g == t[a..b]
  }

  /** Every captured group is a piece of the text inside the matched span. */
  predicate CapturedFrom(t: string, i: nat, e: nat, groups: Captures) {
    e <= |t| && forall k :: 0 <= k < |groups| ==> SliceWithin(t, i, e, groups[k])
  }

  /** The groups of a match are the text's own characters, taken from where the pattern matched. */
  lemma {:induction false} MatchCapturesText(t: string, i: nat, p: Pattern)
    requires i <= |t| && Match(t, i, p).Some?
    ensures CapturedFrom(t, i, Match(t, i, p).value.1, Match(t, i, p).value.0)
    decreases |p|, 0
  {
    if p != [] {
      var e := Match(t, i, p).value.1;
      match p[0]
      case WholeRun(max) =>
        var j := DigitRunEnd(t, i);
        CapturedAfterPiece(t, i, j, p[1..]);
      case LeadingDigits(max) =>
        var j := DigitRunEnd(t, i);
        var c := if j <= i + max then j else i + max;
        CapturedAfterPiece(t, i, c, p[1..]);
      case Spaces =>
        MatchCapturesText(t, SkipSpaces(t, i), p[1..]);
        CapturedLater(t, i, SkipSpaces(t, i), e, Match(t, i, p).value.0);
      case Word(alternatives) =>
        var end := WordEnd(t, i, alternatives).value;
        MatchCapturesText(t, end, p[1..]);
        CapturedLater(t, i, end, e, Match(t, i, p).value.0);
      case OptionalWord(alternatives) =>
        var end := WordEnd(t, i, alternatives);
        var next := if end.None? then i else end.value;
        MatchCapturesText(t, next, p[1..]);
        CapturedLater(t, i, next, e, Match(t, i, p).value.0);
      case UntilDigit =>
        MatchCapturesText(t, FirstDigitFrom(t, i), p[1..]);
        CapturedLater(t, i, FirstDigitFrom(t, i), e, Match(t, i, p).value.0);
    }
  }

  /** A group captured at `t[i..j]`, followed by a match of the rest of the pattern at `j`. */
  lemma {:induction false} CapturedAfterPiece(t: string, i: nat, j: nat, rest: Pattern)
    requires i <= j <= |t| && Match(t, j, rest).Some?
    ensures var m := Match(t, j, rest).value;
            CapturedFrom(t, i, m.1, [t[i..j]] + m.0)
    decreases |rest|, 1
  {
    var m := Match(t, j, rest).value;
    MatchCapturesText(t, j, rest);
    var groups := [t[i..j]] + m.0;
    forall k | 0 <= k < |groups|
      ensures SliceWithin(t, i, m.1, groups[k])
    {
      if k == 0 {
        assert groups[0] == t[i..j];
      } else {
        assert groups[k] == m.0[k - 1];
      }
    }
  }

  lemma CapturedLater(t: string, i: nat, j: nat, e: nat, groups: Captures)
    requires i <= j && CapturedFrom(t, j, e, groups)
    ensures CapturedFrom(t, i, e, groups)
  {
    forall k | 0 <= k < |groups|
      ensures SliceWithin(t, i, e, groups[k])
    {
      assert SliceWithin(t, j, e, groups[k]);
      var a: nat, b: nat :| j <= a <= b <= e && groups[k] == t[a..b];
    }
  }

  /** `re.search`: the leftmost position at or after `s` where the pattern matches. */
  function Search(t: string, s: nat, p: Pattern): (r: Option<nat>)
    requires s <= |t|
    ensures r.Some? ==> s <= r.value <= |t| && Match(t, r.value, p).Some?
    ensures r.Some? ==> forall k :: s <= k < r.value ==> Match(t, k, p).None?
    ensures r.None? ==> forall k :: s <= k <= |t| ==> Match(t, k, p).None?
    decreases |t| - s
  {
    if Match(t, s, p).Some? then Some(s)
    else if s == |t| then None
    else Search(t, s + 1, p)
  }

  /**
   * `re.findall` of a pattern with one group, from `i` on: after a match the scan
   * resumes where it ended (one character further on after an empty match).
   */
  function FindAll(t: string, i: nat, p: Pattern): (r: seq<string>)
    requires i <= |t| && GroupCount(p) == 1
    ensures forall k :: 0 <= k < |r| ==> |r[k]| > 0 && AllDigits(r[k])
    decreases |t| - i
  {
    if i == |t| then []
    else
      match Match(t, i, p)
      case Some((groups, e)) => [groups[0]] + FindAll(t, if e > i then e else i + 1, p)
      case None => FindAll(t, i + 1, p)
  }

  /**
   * `re.findall` and `re.search` agree on where the first match is: the list of
   * captures is non-empty exactly when a search from `i` matches before the end,
   * and its first element is the group of that match.
   */
  lemma {:induction false} FindAllStartsAtSearch(t: string, i: nat, p: Pattern)
    requires i <= |t| && GroupCount(p) == 1
    ensures FindAll(t, i, p) != [] <==> Search(t, i, p).Some? && Search(t, i, p).value < |t|
    ensures FindAll(t, i, p) != [] ==> FindAll(t, i, p)[0] == Match(t, Search(t, i, p).value, p).value.0[0]
    decreases |t| - i
  {
    if i < |t| && Match(t, i, p).None? {
      FindAllStartsAtSearch(t, i + 1, p);
    }
  }

  /** Every `findall` capture is a piece of the text at or after `i`. */
  lemma {:induction false} FindAllCapturesText(t: string, i: nat, p: Pattern)
    requires i <= |t| && GroupCount(p) == 1
    ensures forall k :: 0 <= k < |FindAll(t, i, p)| ==> SliceWithin(t, i, |t|, FindAll(t, i, p)[k])
    decreases |t| - i
  {
    if i < |t| {
      var next := if Match(t, i, p).Some? && Match(t, i, p).value.1 > i then Match(t, i, p).value.1 else i + 1;
      var rest := FindAll(t, next, p);
      FindAllCapturesText(t, next, p);
      forall k | 0 <= k < |rest|
        ensures SliceWithin(t, i, |t|, rest[k])
      {
        SliceWiden(t, next, i, |t|, |t|, rest[k]);
      }
      if Match(t, i, p).Some? {
        var m := Match(t, i, p).value;
        MatchCapturesText(t, i, p);
        assert SliceWithin(t, i, m.1, m.0[0]);
        SliceWiden(t, i, i, m.1, |t|, m.0[0]);
        assert FindAll(t, i, p) == [m.0[0]] + rest;
      } else {
        assert FindAll(t, i, p) == rest;
      }
    }
  }

  lemma SliceWiden(t: string, i: nat, i': nat, e: nat, e': nat, g: string)
    requires i' <= i && e <= e' <= |t| && SliceWithin(t, i, e, g)
    ensures SliceWithin(t, i', e', g)
  {
    var a: nat, b: nat :| i <= a <= b <= e && g == t[a..b];
  }

  /** The value of `0.` followed by the digit string `fraction`, as `float` reads it. */
  function DecimalFraction(fraction: string): (v: real)
    requires AllDigits(fraction)
    ensures 0.0 <= v < 1.0
    ensures v == 0.0 <==> DecimalValue(fraction) == 0
  {
    DecimalValueBound(fraction);
    FractionInUnit(DecimalValue(fraction), Pow10(|fraction|));
    DecimalValue(fraction) as real / Pow10(|fraction|) as real
  }

  lemma FractionInUnit(x: nat, d: nat)
    requires x < d
    ensures 0.0 <= x as real / d as real < 1.0
    ensures x as real / d as real == 0.0 <==> x == 0
  {
    var q := x as real / d as real;
    assert q * d as real == x as real;
  }

  /** The bounds a range must have to be used: both at most 100 and the low one below the high one. */
  predicate ValidBounds(low: nat, high: nat) {
    low <= 100 && high <= 100 && low < high
  }

  /** The two numbers of the range match at `pos`. */
  function RangeBounds(text: string, pos: nat): (nat, nat)
    requires pos <= |text| && Match(text, pos, RangePattern).Some?
  {
    var groups := Match(text, pos, RangePattern).value.0;
    assert |groups| == 2 by { assert GroupCount(RangePattern) == 2; }
    (DecimalValue(groups[0]), DecimalValue(groups[1]))
  }

  /** The dictionary returned for a range given in percent: its midpoint and both bounds, as fractions. */
  function RangeEstimate(low: nat, high: nat): Estimate {
    Estimate((low + high) as real / 2.0 / 100.0, Some(low as real / 100.0), Some(high as real / 100.0))
  }

  /** Stage 1: the first range match, kept only when its bounds are valid. */
  function RangeStage(text: string): (r: Option<Estimate>)
    ensures r.Some? ==> Search(text, 0, RangePattern).Some? && r.value.rangeLow.Some? && r.value.rangeHigh.Some?
  {
    match Search(text, 0, RangePattern)
    case None => None
    case Some(pos) =>
      var (low, high) := RangeBounds(text, pos);
      if ValidBounds(low, high) then Some(RangeEstimate(low, high)) else None
  }

  /** Between 1 and 99 percent inclusive: 0 and 100 are not taken as estimates. */
  predicate Plausible(v: nat) {
    1 <= v <= 99
  }

  /** The numbers of all percentage matches, in order. */
  function PercentValues(text: string): (r: seq<nat>)
    ensures |r| == |FindAll(text, 0, PercentPattern)|
    ensures forall k :: 0 <= k < |r| ==> r[k] == DecimalValue(FindAll(text, 0, PercentPattern)[k])
  {
    assert GroupCount(PercentPattern) == 1;
    var matches := FindAll(text, 0, PercentPattern);
    seq(|matches|, k requires 0 <= k < |matches| => DecimalValue(matches[k]))
  }

  /** Where the first plausible value of the list stands. */
  function FirstPlausible(values: seq<nat>): (r: Option<nat>)
    ensures r.Some? ==> r.value < |values| && Plausible(values[r.value])
    ensures r.Some? ==> forall k :: 0 <= k < r.value ==> !Plausible(values[k])
    ensures r.None? ==> forall k :: 0 <= k < |values| ==> !Plausible(values[k])
  {
    if values == [] then None
    else if Plausible(values[0]) then Some(0)
    else match FirstPlausible(values[1..])
      case None => None
      case Some(k) => Some(k + 1)
  }

  /** The dictionary returned for a single percentage: the value as a fraction, without bounds. */
  function PercentEstimate(v: nat): Estimate {
    Estimate(v as real / 100.0, None, None)
  }

  /** Stage 2: the first plausible percentage. */
  function PercentStage(text: string): (r: Option<Estimate>)
    ensures r.Some? ==> r.value.rangeLow.None? && r.value.rangeHigh.None?
    ensures r.Some? <==> exists k :: 0 <= k < |PercentValues(text)| && Plausible(PercentValues(text)[k])
  {
    var values := PercentValues(text);
    match FirstPlausible(values)
    case None => None
    case Some(k) => Some(PercentEstimate(values[k]))
  }

  /** The number captured by the decimal match at `pos`. */
  function DecimalValueAt(text: string, pos: nat): real
    requires pos <= |text| && Match(text, pos, DecimalPattern).Some?
  {
    var groups := Match(text, pos, DecimalPattern).value.0;
    assert |groups| == 1 by { assert GroupCount(DecimalPattern) == 1; }
    DecimalFraction(groups[0])
  }

  /** Stage 3: the first decimal introduced by a keyword, kept only when strictly between 0 and 1. */
  function DecimalStage(text: string): (r: Option<Estimate>)
    ensures r.Some? ==> Search(text, 0, DecimalPattern).Some? && r.value.rangeLow.None? && r.value.rangeHigh.None?
  {
    match Search(text, 0, DecimalPattern)
    case None => None
    case Some(pos) =>
      var v := DecimalValueAt(text, pos);
      if 0.0 < v < 1.0 then Some(Estimate(v, None, None)) else None
  }

  /** The three stages in order on an already lower-cased text. */
  function ParseLowered(text: string): Option<Estimate> {
    var range := RangeStage(text);
    if range.Some? then range
    else
      var percent := PercentStage(text);
      if percent.Some? then percent else DecimalStage(text)
  }

  /** `parse_probability_from_response`. */
  function ParseProbability(response: string): Option<Estimate> {
    ParseLowered(Lower(response))
  }

  /**
   * The parser as the source runs it: the range stage, then its loop over the
   * percentage matches, then the decimal stage.
   */
  method ParseProbabilityFromResponse(response: string) returns (r: Option<Estimate>)
    ensures r == ParseProbability(response)
  {
    var text := Lower(response);
    var range := RangeStage(text);
    if range.Some? {
      return range;
    }
    var matches := PercentValues(text);
    var i := 0;
    while i < |matches|
      invariant 0 <= i <= |matches|
      invariant forall k :: 0 <= k < i ==> !Plausible(matches[k])
    {
      var v := matches[i];
      if 1 <= v <= 99 {
        FirstPlausibleIsFirst(matches, i);
        return Some(PercentEstimate(v));
      }
      i := i + 1;
    }
    r := DecimalStage(text);
  }

  /** The stages in order: the first that finds something decides. */
  lemma ParseByStages(response: string)
    ensures var text := Lower(response);
            RangeStage(text).Some? ==> ParseProbability(response) == RangeStage(text)
    ensures var text := Lower(response);
            RangeStage(text).None? ==>
              ParseProbability(response) == if PercentStage(text).Some? then PercentStage(text) else DecimalStage(text)
  {
  }

  /**
   * Text whose percentages are all 0% or 100%, with nothing for the range and
   * decimal stages, yields no estimate.
   */
  lemma ExtremePercentagesIgnored(response: string)
    requires var text := Lower(response);
             RangeStage(text).None? && DecimalStage(text).None? &&
             forall k :: 0 <= k < |PercentValues(text)| ==> PercentValues(text)[k] == 0 || PercentValues(text)[k] == 100
    ensures ParseProbability(response).None?
  {
  }

  /** FirstPlausible picks the index the source's loop stops at. */
  lemma {:induction false} FirstPlausibleIsFirst(values: seq<nat>, i: nat)
    requires i < |values| && Plausible(values[i])
    requires forall k :: 0 <= k < i ==> !Plausible(values[k])
    ensures FirstPlausible(values) == Some(i)
  {
    if i > 0 {
      FirstPlausibleIsFirst(values[1..], i - 1);
    }
  }

  /**
   * Every estimate found is a probability. A range comes with both bounds, the point
   * is their midpoint and lies strictly between them; a single percentage lies in
   * [0.01, 0.99], a decimal strictly between 0 and 1.
   */
  lemma {:induction false} EstimateWellFormed(response: string)
    ensures var r := ParseProbability(response);
            r.Some? ==> 0.0 < r.value.point < 1.0 && (r.value.rangeLow.Some? <==> r.value.rangeHigh.Some?)
    ensures var r := ParseProbability(response);
            r.Some? && r.value.rangeLow.Some? ==>
              0.0 <= r.value.rangeLow.value < r.value.point < r.value.rangeHigh.value <= 1.0 &&
              r.value.point == (r.value.rangeLow.value + r.value.rangeHigh.value) / 2.0
    ensures var r := ParseProbability(response);
            r.Some? && r.value.rangeLow.None? && PercentStage(Lower(response)).Some? ==>
              0.01 <= r.value.point <= 0.99
  {
    var text := Lower(response);
    RangeStageWellFormed(text);
    PercentStageWellFormed(text);
    DecimalStageWellFormed(text);
  }

  lemma RangeStageWellFormed(text: string)
    ensures var r := RangeStage(text);
            r.Some? ==>
              r.value.rangeLow.Some? && r.value.rangeHigh.Some? &&
              0.0 <= r.value.rangeLow.value < r.value.point < r.value.rangeHigh.value <= 1.0 &&
              r.value.point == (r.value.rangeLow.value + r.value.rangeHigh.value) / 2.0
  {
  }

  lemma PercentStageWellFormed(text: string)
    ensures var r := PercentStage(text);
            r.Some? ==> r.value.rangeLow.None? && r.value.rangeHigh.None? && 0.01 <= r.value.point <= 0.99
  {
  }

  lemma DecimalStageWellFormed(text: string)
    ensures var r := DecimalStage(text);
            r.Some? ==> r.value.rangeLow.None? && r.value.rangeHigh.None? && 0.0 < r.value.point < 1.0
  {
  }

  /** The range pattern matches at `pos` and nowhere before it. */
  predicate FirstRangeMatch(text: string, pos: nat) {
    pos <= |text| && Match(text, pos, RangePattern).Some? &&
    forall k :: 0 <= k < pos ==> Match(text, k, RangePattern).None?
  }

  /** The leftmost range match of the text exists and has valid bounds. */
  ghost predicate LeftmostRangeValid(text: string) {
    exists pos :: FirstRangeMatch(text, pos) && ValidBounds(RangeBounds(text, pos).0, RangeBounds(text, pos).1)
  }

  /** Stage 1 succeeds exactly when the leftmost range match has valid bounds. */
  lemma RangeStageIffLeftmostValid(text: string)
    ensures RangeStage(text).Some? <==> LeftmostRangeValid(text)
  {
    var found := Search(text, 0, RangePattern);
    SearchFindsFirstRangeMatch(text);
    if found.Some? {
      forall q | FirstRangeMatch(text, q)
        ensures q == found.value
      {
        FirstRangeMatchUnique(text, q, found.value);
      }
    }
  }

  lemma FirstRangeMatchUnique(text: string, p: nat, q: nat)
    requires FirstRangeMatch(text, p) && FirstRangeMatch(text, q)
    ensures p == q
  {
  }

  /** The search from the start finds the leftmost range match, and finds nothing when there is none. */
  lemma SearchFindsFirstRangeMatch(text: string)
    ensures Search(text, 0, RangePattern).Some? ==> FirstRangeMatch(text, Search(text, 0, RangePattern).value)
    ensures Search(text, 0, RangePattern).None? ==> forall q :: !FirstRangeMatch(text, q)
  {
  }

  /** Only stage 1 reports bounds. */
  lemma {:induction false} BoundsOnlyFromRangeStage(text: string)
    ensures ParseLowered(text).Some? && ParseLowered(text).value.rangeLow.Some? <==> RangeStage(text).Some?
  {
    RangeStageWellFormed(text);
    PercentStageWellFormed(text);
    DecimalStageWellFormed(text);
  }

  /**
   * A range is reported exactly when the leftmost range match has valid bounds: a
   * valid range further on is never reached once the first match is invalid, and a
   * range always wins over the other two stages.
   */
  lemma {:induction false} RangeStageTakesLeftmostMatch(response: string)
    ensures ParseProbability(response).Some? && ParseProbability(response).value.rangeLow.Some? <==>
              LeftmostRangeValid(Lower(response))
  {
    BoundsOnlyFromRangeStage(Lower(response));
    RangeStageIffLeftmostValid(Lower(response));
  }

  /** The decimal pattern matches at `pos` and nowhere before it. */
  predicate FirstDecimalMatch(text: string, pos: nat) {
    pos <= |text| && Match(text, pos, DecimalPattern).Some? &&
    forall k :: 0 <= k < pos ==> Match(text, k, DecimalPattern).None?
  }

  /** The leftmost decimal match of the text exists and its number lies strictly between 0 and 1. */
  ghost predicate LeftmostDecimalValid(text: string) {
    exists pos :: FirstDecimalMatch(text, pos) && 0.0 < DecimalValueAt(text, pos) < 1.0
  }

  /** A valid leftmost range match gives its two numbers in percent, and their midpoint. */
  lemma RangeStageValue(text: string, pos: nat)
    requires FirstRangeMatch(text, pos)
    ensures var (low, high) := RangeBounds(text, pos);
            RangeStage(text) == if ValidBounds(low, high) then Some(RangeEstimate(low, high)) else None
  {
    SearchFindsFirstRangeMatch(text);
    FirstRangeMatchUnique(text, pos, Search(text, 0, RangePattern).value);
  }

  /** The percentage reported is the first plausible one, divided by 100. */
  lemma PercentStageValue(text: string, k: nat)
    requires k < |PercentValues(text)| && Plausible(PercentValues(text)[k])
    requires forall j :: 0 <= j < k ==> !Plausible(PercentValues(text)[j])
    ensures PercentStage(text) == Some(PercentEstimate(PercentValues(text)[k]))
  {
    var values := PercentValues(text);
    FirstPlausibleIsFirst(values, k);
    assert FirstPlausible(values) == Some(k);
  }

  /** The decimal reported is the number of the leftmost decimal match, when it lies in (0, 1). */
  lemma DecimalStageValue(text: string, pos: nat)
    requires FirstDecimalMatch(text, pos)
    ensures var v := DecimalValueAt(text, pos);
            DecimalStage(text) == if 0.0 < v < 1.0 then Some(Estimate(v, None, None)) else None
  {
    var found := Search(text, 0, DecimalPattern);
    assert found == Some(pos);
  }

  /** Stage 3 succeeds exactly when the leftmost decimal match lies in (0, 1). */
  lemma DecimalStageIffLeftmostValid(text: string)
    ensures DecimalStage(text).Some? <==> LeftmostDecimalValid(text)
  {
    var found := Search(text, 0, DecimalPattern);
    if found.Some? {
      DecimalStageValue(text, found.value);
      forall q | FirstDecimalMatch(text, q)
        ensures q == found.value
      {
        DecimalStageValue(text, q);
      }
    }
  }

  /** A valid leftmost range in the lower-cased text is what the parser reports. */
  lemma ParseReportsRange(response: string, pos: nat)
    requires FirstRangeMatch(Lower(response), pos)
    requires ValidBounds(RangeBounds(Lower(response), pos).0, RangeBounds(Lower(response), pos).1)
    ensures ParseProbability(response) ==
              Some(RangeEstimate(RangeBounds(Lower(response), pos).0, RangeBounds(Lower(response), pos).1))
  {
    RangeStageValue(Lower(response), pos);
  }

  /** Without a valid range, the first plausible percentage is what the parser reports. */
  lemma ParseReportsPercentage(response: string, k: nat)
    requires !LeftmostRangeValid(Lower(response))
    requires var values := PercentValues(Lower(response));
             k < |values| && Plausible(values[k]) && forall j :: 0 <= j < k ==> !Plausible(values[j])
    ensures ParseProbability(response) == Some(PercentEstimate(PercentValues(Lower(response))[k]))
  {
    var text := Lower(response);
    RangeStageIffLeftmostValid(text);
    PercentStageValue(text, k);
    ParseByStages(response);
  }

  /** Without a valid range or a plausible percentage, the leftmost decimal decides. */
  lemma ParseReportsDecimal(response: string, pos: nat)
    requires !LeftmostRangeValid(Lower(response))
    requires forall j :: 0 <= j < |PercentValues(Lower(response))| ==> !Plausible(PercentValues(Lower(response))[j])
    requires FirstDecimalMatch(Lower(response), pos)
    ensures var v := DecimalValueAt(Lower(response), pos);
            ParseProbability(response) == if 0.0 < v < 1.0 then Some(Estimate(v, None, None)) else None
  {
    var text := Lower(response);
    RangeStageIffLeftmostValid(text);
    DecimalStageValue(text, pos);
    ParseByStages(response);
  }

  /** The parser finds nothing exactly when none of the three stages applies. */
  lemma ParseNoneIff(response: string)
    ensures var text := Lower(response);
            ParseProbability(response).None? <==>
              !LeftmostRangeValid(text) &&
              (forall j :: 0 <= j < |PercentValues(text)| ==> !Plausible(PercentValues(text)[j])) &&
              !LeftmostDecimalValid(text)
  {
    RangeStageIffLeftmostValid(Lower(response));
    DecimalStageIffLeftmostValid(Lower(response));
  }

  /** The parse does not depend on letter case. */
  lemma ParseIgnoresCase(response: string)
    ensures ParseProbability(Lower(response)) == ParseProbability(response)
  {
    LowerIdempotent(response);
  }
}
