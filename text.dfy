/**
 * Character classes and string helpers with Python's meaning:
 * `\d`, `\s` / `str.isspace`, `str.lower`, `str.strip`, `str.startswith`,
 * substring `in`, and the decimal value of a digit string.
 */
module Text {

  /** An ASCII decimal digit. */
  predicate IsDigit(c: char) {
    '0' <= c <= '9'
  }

  /** The characters for which Python's `str.isspace()` holds (and which `\s` matches). */
  predicate IsSpace(c: char) {
    var n := c as int;
    n == 0x20 || 0x09 <= n <= 0x0D || 0x1C <= n <= 0x1F || n == 0x85 || n == 0xA0 ||
    n == 0x1680 || 0x2000 <= n <= 0x200A || n == 0x2028 || n == 0x2029 ||
    n == 0x202F || n == 0x205F || n == 0x3000
  }

  predicate AllDigits(s: string) {
    forall i :: 0 <= i < |s| ==> IsDigit(s[i])
  }

  function DigitValue(c: char): (d: nat)
    requires IsDigit(c)
    ensures d < 10
  {
    c as int - '0' as int
  }

  /** The number a string of decimal digits denotes; leading zeros are allowed, as in `float("024")`. */
  function DecimalValue(s: string): nat
    requires AllDigits(s)
  {
    if s == [] then 0 else DecimalValue(s[..|s| - 1]) * 10 + DigitValue(s[|s| - 1])
  }

  /** An upper bound that grows with the number of digits. */
  function Pow10(k: nat): (r: nat)
    ensures r >= 1
  {
    if k == 0 then 1 else 10 * Pow10(k - 1)
  }

  lemma {:induction false} DecimalValueBound(s: string)
    requires AllDigits(s)
    ensures DecimalValue(s) < Pow10(|s|)
  {
    if s != [] {
      DecimalValueBound(s[..|s| - 1]);
    }
  }

  /** `str.lower()` on ASCII letters. */
  function LowerChar(c: char): (r: char)
    ensures 'A' <= c <= 'Z' ==> r as int == c as int + 32
    ensures !('A' <= c <= 'Z') ==> r == c
  {
    if 'A' <= c <= 'Z' then (c as int + 32) as char else c
  }

  function Lower(s: string): string {
    if s == [] then [] else [LowerChar(s[0])] + Lower(s[1..])
  }

  /** `lower()` maps each character on its own and keeps the length. */
  lemma {:induction false} LowerAt(s: string)
    ensures |Lower(s)| == |s|
    ensures forall i :: 0 <= i < |s| ==> Lower(s)[i] == LowerChar(s[i])
  {
    if s != [] {
      LowerAt(s[1..]);
    }
  }

  lemma {:induction false} LowerIdempotent(s: string)
    ensures Lower(Lower(s)) == Lower(s)
  {
    var once := Lower(s);
    var twice := Lower(once);
    LowerAt(s);
    LowerAt(once);
    assert |twice| == |once|;
    forall i | 0 <= i < |once|
      ensures twice[i] == once[i]
    {
      assert once[i] == LowerChar(s[i]);
    }
  }

  /** Drops leading whitespace. */
  function TrimStart(s: string): (r: string)
    ensures |r| <= |s|
    ensures r == [] || !IsSpace(r[0])
  {
    if s != [] && IsSpace(s[0]) then TrimStart(s[1..]) else s
  }

  /** Drops trailing whitespace. */
  function TrimEnd(s: string): (r: string)
    ensures |r| <= |s|
    ensures r != [] ==> r[0] == s[0]
    ensures r == [] || !IsSpace(r[|r| - 1])
  {
    if s != [] && IsSpace(s[|s| - 1]) then TrimEnd(s[..|s| - 1]) else s
  }

  /** `str.strip()`: the string without its leading and trailing whitespace. */
  function Strip(s: string): (r: string)
    ensures |r| <= |s|
    ensures r == [] || (!IsSpace(r[0]) && !IsSpace(r[|r| - 1]))
  {
    TrimEnd(TrimStart(s))
  }

  /** `s.startswith(prefix)`. */
  predicate StartsWith(s: string, prefix: string) {
    |prefix| <= |s| && s[..|prefix|] == prefix
  }

  /** The word `w` occurs in `t` at position `i`. */
  predicate OccursAt(t: string, i: nat, w: string) {
    i + |w| <= |t| && t[i..i + |w|] == w
  }

  /** Python's `sub in s` for two strings. */
  predicate ContainsSub(s: string, sub: string)
    decreases |s|
  {
    StartsWith(s, sub) || (s != [] && ContainsSub(s[1..], sub))
  }

  /** `lstrip` drops a prefix made only of whitespace. */
  lemma {:induction false} TrimStartDropsSpaces(s: string)
    ensures var r := TrimStart(s);
            r == s[|s| - |r|..] && forall i :: 0 <= i < |s| - |r| ==> IsSpace(s[i])
  {
    if s != [] && IsSpace(s[0]) {
      TrimStartDropsSpaces(s[1..]);
    }
  }

  /** `rstrip` drops a suffix made only of whitespace. */
  lemma {:induction false} TrimEndDropsSpaces(s: string)
    ensures var r := TrimEnd(s);
            r == s[..|r|] && forall i :: |r| <= i < |s| ==> IsSpace(s[i])
  {
    if s != [] && IsSpace(s[|s| - 1]) {
      TrimEndDropsSpaces(s[..|s| - 1]);
    }
  }

  /** `strip()` keeps a contiguous piece of the string and drops only whitespace around it. */
  lemma StripDropsOnlySpaces(s: string)
    ensures var i, r := |s| - |TrimStart(s)|, Strip(s);
            i + |r| <= |s| && r == s[i..i + |r|] &&
            (forall k :: 0 <= k < i ==> IsSpace(s[k])) &&
            (forall k :: i + |r| <= k < |s| ==> IsSpace(s[k]))
  {
    var t := TrimStart(s);
    TrimStartDropsSpaces(s);
    TrimEndDropsSpaces(t);
    var i := |s| - |t|;
    var r := TrimEnd(t);
    assert t == s[i..];
    assert r == t[..|r|];
    SuffixSpaces(s, t, i, |r|);
  }

  lemma SuffixSpaces(s: string, t: string, i: nat, n: nat)
    requires i <= |s| && t == s[i..] && n <= |t|
    requires forall k :: n <= k < |t| ==> IsSpace(t[k])
    ensures forall k :: i + n <= k < |s| ==> IsSpace(s[k])
  {
    forall k | i + n <= k < |s|
      ensures IsSpace(s[k])
    {
      assert s[k] == t[k - i];
    }
  }

  /** A string with no surrounding whitespace is its own `strip()`. */
  lemma StripUnchanged(s: string)
    requires s == [] || (!IsSpace(s[0]) && !IsSpace(s[|s| - 1]))
    ensures Strip(s) == s
  {
  }

  lemma LowerCharSpace(c: char)
    ensures IsSpace(LowerChar(c)) <==> IsSpace(c)
  {
  }

  lemma {:induction false} TrimStartLower(s: string)
    ensures TrimStart(Lower(s)) == Lower(TrimStart(s))
  {
    if s != [] {
      var l := Lower(s);
      assert l == [LowerChar(s[0])] + Lower(s[1..]);
      assert l[0] == LowerChar(s[0]) && l[1..] == Lower(s[1..]);
      LowerCharSpace(s[0]);
      if IsSpace(s[0]) {
        TrimStartLower(s[1..]);
        assert TrimStart(l) == TrimStart(l[1..]);
      } else {
        assert TrimStart(l) == l;
      }
    }
  }

  lemma LowerInit(s: string)
    requires s != []
    ensures |Lower(s)| == |s|
    ensures Lower(s)[..|s| - 1] == Lower(s[..|s| - 1])
    ensures Lower(s)[|s| - 1] == LowerChar(s[|s| - 1])
  {
    LowerAt(s);
    LowerAt(s[..|s| - 1]);
  }

  lemma {:induction false} TrimEndLower(s: string)
    ensures TrimEnd(Lower(s)) == Lower(TrimEnd(s))
  {
    LowerAt(s);
    if s != [] {
      LowerInit(s);
      LowerCharSpace(s[|s| - 1]);
      if IsSpace(s[|s| - 1]) {
        TrimEndLower(s[..|s| - 1]);
      }
    }
  }

  /** `s.lower().strip() == s.strip().lower()`: lower-casing never creates or removes whitespace. */
  lemma StripLowerCommute(s: string)
    ensures Strip(Lower(s)) == Lower(Strip(s))
  {
    TrimStartLower(s);
    TrimEndLower(TrimStart(s));
  }

  /** `sep.join(parts)`. */
  function Join(parts: seq<string>, sep: string): string {
    if parts == [] then []
    else if |parts| == 1 then parts[0]
    else parts[0] + sep + Join(parts[1..], sep)
  }
}
