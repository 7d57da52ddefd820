/** Python `str` operations the runner relies on, written out over `seq<char>`:
    `in`, `startswith`, `endswith`, `split(sep)`, `sep.join`, `replace`,
    `rstrip()`/`strip()` and `upper()` (exact for ASCII letters and the ten
    other characters whose upper-case form is ASCII). */
module Strings {

  datatype Option<T> = None | Some(value: T)

  predicate StartsWith(s: string, prefix: string) {
    |prefix| <= |s| && s[..|prefix|] == prefix
  }

  predicate EndsWith(s: string, suffix: string) {
    |suffix| <= |s| && s[|s| - |suffix|..] == suffix
  }

  /** `sub` occurs in `s` starting at index `i`. */
  predicate OccursAt(s: string, sub: string, i: int) {
    0 <= i && i + |sub| <= |s| && s[i..i + |sub|] == sub
  }

  /** Python's `sub in s`. */
  predicate Contains(s: string, sub: string)
    decreases |s|
  {
    StartsWith(s, sub) || (|s| > 0 && Contains(s[1..], sub))
  }

  lemma {:induction false} ContainsIffOccurs(s: string, sub: string)
    ensures Contains(s, sub) <==> exists i :: OccursAt(s, sub, i)
    decreases |s|
  {
    assert OccursAt(s, sub, 0) <==> StartsWith(s, sub);
    if |s| > 0 {
      ContainsIffOccurs(s[1..], sub);
      forall j | OccursAt(s[1..], sub, j) ensures OccursAt(s, sub, j + 1) {
        assert s[1..][j..j + |sub|] == s[j + 1..j + 1 + |sub|];
      }
      forall i | OccursAt(s, sub, i) && i > 0 ensures OccursAt(s[1..], sub, i - 1) {
        assert s[1..][i - 1..i - 1 + |sub|] == s[i..i + |sub|];
      }
    }
  }

  /** The empty string is `in` every string, so an empty keyword filters nothing. */
  lemma EmptyIsContained(s: string)
    ensures Contains(s, "")
  {
    assert StartsWith(s, "");
  }

  /** An occurrence past the first character is an occurrence in the tail. */
  lemma OccursInTail(s: string, sub: string, j: int)
    requires |s| > 0 && j > 0
    ensures OccursAt(s, sub, j) <==> OccursAt(s[1..], sub, j - 1)
  {
    if j + |sub| <= |s| {
      assert s[1..][j - 1..j - 1 + |sub|] == s[j..j + |sub|];
    }
  }

  /** Index of the leftmost occurrence of `sep`, as `str.find` (None for -1). */
  function Find(s: string, sep: string): (r: Option<nat>)
    ensures r.Some? ==> OccursAt(s, sep, r.value)
    ensures r.Some? ==> forall j :: 0 <= j < r.value ==> !OccursAt(s, sep, j)
    ensures r.None? ==> forall j :: !OccursAt(s, sep, j)
    decreases |s|
  {
    if StartsWith(s, sep) then Some(0)
    else if |s| == 0 then None
    else
      var r := Find(s[1..], sep);
      assert forall j :: j > 0 ==> (OccursAt(s, sep, j) <==> OccursAt(s[1..], sep, j - 1)) by {
        forall j | j > 0 ensures OccursAt(s, sep, j) <==> OccursAt(s[1..], sep, j - 1) {
          OccursInTail(s, sep, j);
        }
      }
      assert !OccursAt(s, sep, 0);
      match r
      case None => None
      case Some(k) => Some(k + 1)
  }

  lemma FindNoneIffNotContains(s: string, sep: string)
    ensures Find(s, sep).None? <==> !Contains(s, sep)
  {
    ContainsIffOccurs(s, sep);
  }

  /** Python's `s.split(sep)` for a non-empty separator: the leftmost occurrence
      is cut first and scanning resumes after it (non-overlapping). */
  function Split(s: string, sep: string): (parts: seq<string>)
    requires |sep| > 0
    ensures |parts| >= 1
    decreases |s|
  {
    match Find(s, sep)
    case None => [s]
    case Some(i) => [s[..i]] + Split(s[i + |sep|..], sep)
  }

  /** Python's `sep.join(parts)`. */
  function Join(parts: seq<string>, sep: string): string
    decreases |parts|
  {
    if |parts| == 0 then ""
    else if |parts| == 1 then parts[0]
    else parts[0] + sep + Join(parts[1..], sep)
  }

  lemma JoinCons(head: string, tail: seq<string>, sep: string)
    requires |tail| >= 1
    ensures Join([head] + tail, sep) == head + sep + Join(tail, sep)
  {
    assert ([head] + tail)[1..] == tail;
  }

  /** Cutting `s` around an occurrence of `sub` and gluing it back. */
  lemma Reassemble(s: string, sub: string, i: int)
    requires OccursAt(s, sub, i)
    ensures s[..i] + sub + s[i + |sub|..] == s
  {
    assert s[i..] == s[i..i + |sub|] + s[i + |sub|..];
    assert s == s[..i] + s[i..];
  }

  /** Joining the pieces of a split with the same separator gives back the input. */
  lemma {:induction false} SplitJoin(s: string, sep: string)
    requires |sep| > 0
    ensures Join(Split(s, sep), sep) == s
    decreases |s|
  {
    var r := Find(s, sep);
    if r.Some? {
      var i := r.value;
      var rest := s[i + |sep|..];
      SplitJoin(rest, sep);
      var tail := Split(rest, sep);
      Reassemble(s, sep, i);
      calc {
        Join(Split(s, sep), sep);
        Join([s[..i]] + tail, sep);
        { JoinCons(s[..i], tail, sep); }
        s[..i] + sep + Join(tail, sep);
        s[..i] + sep + rest;
      }
    }
  }

  /** No piece of a split contains the separator. */
  lemma {:induction false} SplitPartsAvoidSep(s: string, sep: string)
    requires |sep| > 0
    ensures forall k :: 0 <= k < |Split(s, sep)| ==> !Contains(Split(s, sep)[k], sep)
    decreases |s|
  {
    match Find(s, sep)
    case None =>
      FindNoneIffNotContains(s, sep);
    case Some(i) =>
      var rest := s[i + |sep|..];
      SplitPartsAvoidSep(rest, sep);
      var head := s[..i];
      ContainsIffOccurs(head, sep);
      forall j | OccursAt(head, sep, j) ensures false {
        assert head[j..j + |sep|] == s[j..j + |sep|];
        assert OccursAt(s, sep, j);
      }
      var parts := Split(s, sep);
      assert parts == [head] + Split(rest, sep);
      forall k | 0 <= k < |parts| ensures !Contains(parts[k], sep) {
        if k > 0 {
          assert parts[k] == Split(rest, sep)[k - 1];
        }
      }
  }

  /** The separator occurs iff the split has at least two pieces. */
  lemma SplitCountsOccurrence(s: string, sep: string)
    requires |sep| > 0
    ensures Contains(s, sep) <==> |Split(s, sep)| >= 2
  {
    FindNoneIffNotContains(s, sep);
    match Find(s, sep)
    case None =>
    case Some(i) =>
  }

  /** `a + sep + b` splits at the written separator when no occurrence starts
      earlier, i.e. inside `a` or straddling the end of `a`. */
  lemma SplitAtFirst(a: string, sep: string, b: string)
    requires |sep| > 0
    requires forall j :: 0 <= j < |a| ==> !OccursAt(a + sep, sep, j)
    ensures Split(a + sep + b, sep) == [a] + Split(b, sep)
  {
    var s := a + sep + b;
    assert s[|a|..|a| + |sep|] == sep;
    assert OccursAt(s, sep, |a|);
    forall j | 0 <= j < |a| ensures !OccursAt(s, sep, j) {
      assert s[j..j + |sep|] == (a + sep)[j..j + |sep|];
      assert !OccursAt(a + sep, sep, j);
    }
    match Find(s, sep)
    case None =>
    case Some(i) =>
      assert i == |a|;
      assert s[..i] == a;
      assert s[i + |sep|..] == b;
  }

  /** `s.split(sep)[0]`: the text before the first separator, or all of `s`. */
  function FirstPart(s: string, sep: string): (r: string)
    requires |sep| > 0
    ensures StartsWith(s, r)
    ensures !Contains(r, sep)
    ensures r == s || OccursAt(s, sep, |r|)
    ensures r == s <==> !Contains(s, sep)
  {
    SplitPartsAvoidSep(s, sep);
    FindNoneIffNotContains(s, sep);
    match Find(s, sep)
    case None => Split(s, sep)[0]
    case Some(i) =>
      assert Split(s, sep)[0] == s[..i];
      Split(s, sep)[0]
  }

  /** `s.split(sep)[1]` when `sep` occurs: the text between the first and the
      second separator. */
  lemma SecondPart(s: string, sep: string)
    requires |sep| > 0
    ensures Find(s, sep).Some? ==>
      |Split(s, sep)| >= 2
      && Split(s, sep)[0] == s[..Find(s, sep).value]
      && Split(s, sep)[1] == FirstPart(s[Find(s, sep).value + |sep|..], sep)
  {
  }

  /** An occurrence of `a + b` is an occurrence of `a`. */
  lemma ContainsPrefix(s: string, a: string, b: string)
    requires Contains(s, a + b)
    ensures Contains(s, a)
  {
    ContainsIffOccurs(s, a + b);
    ContainsIffOccurs(s, a);
    var i :| OccursAt(s, a + b, i);
    assert s[i..i + |a|] == s[i..i + |a + b|][..|a|];
    assert OccursAt(s, a, i);
  }

  /** A string without the separator splits into itself. */
  lemma SplitWithoutSep(s: string, sep: string)
    requires |sep| > 0
    requires !Contains(s, sep)
    ensures Split(s, sep) == [s]
  {
    FindNoneIffNotContains(s, sep);
  }

  function SumLengths(parts: seq<string>): nat
  {
    if |parts| == 0 then 0 else |parts[0]| + SumLengths(parts[1..])
  }

  lemma {:induction false} JoinLength(parts: seq<string>, sep: string)
    requires |parts| >= 1
    ensures |Join(parts, sep)| == SumLengths(parts) + (|parts| - 1) * |sep|
    decreases |parts|
  {
    if |parts| > 1 {
      JoinLength(parts[1..], sep);
    }
  }

  /** Python's `s.replace(old, new)` for a non-empty `old`: every
      non-overlapping occurrence, left to right. */
  function Replace(s: string, pattern: string, repl: string): string
    requires |pattern| > 0
  {
    Join(Split(s, pattern), repl)
  }

  /** Replacing by something no longer than the pattern never lengthens a string. */
  lemma ReplaceShrinks(s: string, pattern: string, repl: string)
    requires |pattern| > 0
    requires |repl| <= |pattern|
    ensures |Replace(s, pattern, repl)| <= |s|
  {
    var parts := Split(s, pattern);
    JoinLength(parts, pattern);
    JoinLength(parts, repl);
    SplitJoin(s, pattern);
    MulMonotone(|parts| - 1, |repl|, |pattern|);
  }

  lemma MulMonotone(a: nat, b: nat, c: nat)
    requires b <= c
    ensures a * b <= a * c
  {
  }

  /** The characters Python's `str.isspace` accepts. */
  predicate IsSpace(c: char) {
    c == ' ' || c == '\t' || c == '\n' || c == '\r' || c == '\U{000B}' || c == '\U{000C}'
    || ('\U{001C}' <= c <= '\U{001F}') || c == '\U{0085}' || c == '\U{00A0}' || c == '\U{1680}'
    || ('\U{2000}' <= c <= '\U{200A}') || c == '\U{2028}' || c == '\U{2029}' || c == '\U{202F}'
    || c == '\U{205F}' || c == '\U{3000}'
  }

  predicate AllSpace(s: string) {
    forall i :: 0 <= i < |s| ==> IsSpace(s[i])
  }

  /** Python's `s.rstrip()`. */
  function RStrip(s: string): (r: string)
    ensures StartsWith(s, r)
    ensures AllSpace(s[|r|..])
    ensures r == "" || !IsSpace(r[|r| - 1])
  {
    if |s| > 0 && IsSpace(s[|s| - 1]) then
      var r := RStrip(s[..|s| - 1]);
      assert s[..|s| - 1][..|r|] == s[..|r|];
      assert s[|r|..] == s[..|s| - 1][|r|..] + [s[|s| - 1]];
      r
    else s
  }

  /** Python's `s.lstrip()`. */
  function LStrip(s: string): (r: string)
    ensures EndsWith(s, r)
    ensures AllSpace(s[..|s| - |r|])
    ensures r == "" || !IsSpace(r[0])
  {
    if |s| > 0 && IsSpace(s[0]) then
      var r := LStrip(s[1..]);
      assert s[..|s| - |r|] == [s[0]] + s[1..][..|s[1..]| - |r|];
      r
    else s
  }

  /** Python's `s.strip()`. */
  function Strip(s: string): string {
    LStrip(RStrip(s))
  }

  lemma {:induction false} RStripIdempotent(s: string)
    ensures RStrip(RStrip(s)) == RStrip(s)
  {
  }

  /** A string that is only whitespace strips to the empty string. */
  lemma {:induction false} RStripAllSpace(s: string)
    requires AllSpace(s)
    ensures RStrip(s) == ""
    decreases |s|
  {
    if |s| > 0 {
      RStripAllSpace(s[..|s| - 1]);
    }
  }

  predicate IsAscii(s: string) {
    forall i :: 0 <= i < |s| ==> s[i] < '\U{0080}'
  }

  /** The characters outside ASCII whose upper-case form in Python is made
      of ASCII letters only: sharp s, dotless i, long s and the seven Latin
      ligatures U+FB00 to U+FB06. */
  predicate FoldsToAscii(c: char) {
    c == '\U{00DF}' || c == '\U{0131}' || c == '\U{017F}' || ('\U{FB00}' <= c <= '\U{FB06}')
  }

  /** Python's `c.upper()` for an ASCII character or one that folds to
      ASCII letters; any other character is kept as it is. */
  function UpperChar(c: char): (r: string)
    ensures 1 <= |r| <= 3
    ensures c < '\U{0080}' ==> |r| == 1
    ensures FoldsToAscii(c) ==> forall i :: 0 <= i < |r| ==> 'A' <= r[i] <= 'Z'
    ensures !FoldsToAscii(c) && !('a' <= c <= 'z') ==> r == [c]
  {
    if 'a' <= c <= 'z' then [(c as int - 32) as char]
    else if c == '\U{00DF}' then "SS"
    else if c == '\U{0131}' then "I"
    else if c == '\U{017F}' then "S"
    else if c == '\U{FB00}' then "FF"
    else if c == '\U{FB01}' then "FI"
    else if c == '\U{FB02}' then "FL"
    else if c == '\U{FB03}' then "FFI"
    else if c == '\U{FB04}' then "FFL"
    else if c == '\U{FB05}' || c == '\U{FB06}' then "ST"
    else [c]
  }

  /** Python's `s.upper()`, exact whenever the result is ASCII; other
      characters outside ASCII are kept as they are. On ASCII input it is
      letter-by-letter. */
  function Upper(s: string): (r: string)
    ensures |s| <= |r| <= 3 * |s|
    ensures IsAscii(s) ==> |r| == |s|
    ensures IsAscii(s) ==> forall i :: 0 <= i < |s| ==> ('a' <= s[i] <= 'z' ==> r[i] as int == s[i] as int - 32)
    ensures IsAscii(s) ==> forall i :: 0 <= i < |s| ==> !('a' <= s[i] <= 'z') ==> r[i] == s[i]
  {
    if |s| == 0 then ""
    else UpperChar(s[0]) + Upper(s[1..])
  }

  lemma UpperCons(c: char, s: string)
    ensures Upper([c] + s) == UpperChar(c) + Upper(s)
  {
    assert ([c] + s)[1..] == s;
  }

  lemma {:induction false} UpperSnoc(s: string, c: char)
    ensures Upper(s + [c]) == Upper(s) + UpperChar(c)
    decreases |s|
  {
    if |s| == 0 {
      assert s + [c] == [c] + "";
    } else {
      assert (s + [c])[1..] == s[1..] + [c];
      UpperSnoc(s[1..], c);
    }
  }

  /** An upper-cased string made only of ASCII capitals comes from a string
      of ASCII letters and characters that fold to ASCII letters, so a
      string with any other character never upper-cases to such a name. */
  lemma {:induction false} UpperCapitalsSource(s: string)
    requires forall i :: 0 <= i < |Upper(s)| ==> 'A' <= Upper(s)[i] <= 'Z'
    ensures forall i :: 0 <= i < |s| ==> 'a' <= s[i] <= 'z' || 'A' <= s[i] <= 'Z' || FoldsToAscii(s[i])
    decreases |s|
  {
    if |s| > 0 {
      var head := UpperChar(s[0]);
      assert Upper(s) == head + Upper(s[1..]);
      assert Upper(s)[0] == head[0];
      forall i | 0 <= i < |Upper(s[1..])|
        ensures 'A' <= Upper(s[1..])[i] <= 'Z'
      {
        assert Upper(s[1..])[i] == Upper(s)[|head| + i];
      }
      UpperCapitalsSource(s[1..]);
      forall i | 1 <= i < |s|
        ensures 'a' <= s[i] <= 'z' || 'A' <= s[i] <= 'Z' || FoldsToAscii(s[i])
      {
        assert s[i] == s[1..][i - 1];
      }
    }
  }

  /** Python's `str(n)` for a natural number. */
  function NatToString(n: nat): (r: string)
    ensures |r| >= 1
    ensures forall i :: 0 <= i < |r| ==> '0' <= r[i] <= '9'
  {
    if n < 10 then [DigitChar(n)] else NatToString(n / 10) + [DigitChar(n % 10)]
  }

  function DigitChar(d: nat): (c: char)
    requires d < 10
    ensures '0' <= c <= '9'
  {
    ('0' as int + d) as char
  }

  /** Distinct numbers print differently. */
  lemma {:induction false} NatToStringInjective(a: nat, b: nat)
    requires NatToString(a) == NatToString(b)
    ensures a == b
  {
    var sa, sb := NatToString(a), NatToString(b);
    if a < 10 && b < 10 {
      assert DigitChar(a) == sa[0] == sb[0] == DigitChar(b);
    } else if a >= 10 && b >= 10 {
      assert DigitChar(a % 10) == sa[|sa| - 1] == sb[|sb| - 1] == DigitChar(b % 10);
      assert NatToString(a / 10) == sa[..|sa| - 1] == sb[..|sb| - 1] == NatToString(b / 10);
      NatToStringInjective(a / 10, b / 10);
    }
  }
}
