/**
  The fragment of Python's `str` semantics that the controller's text handling
  relies on: character classes (`isspace`, `isprintable`, ASCII letters and
  digits), `lower`, `startswith`, `strip`, `split()`, `join` and `int(str)`.
 */
module PyText {
  import opened Wrappers

  // ----------------------------------------------------------------------
  // Character classes
  // ----------------------------------------------------------------------

  /** `str.isspace()` for one character: the Unicode White_Space set plus the
      information separators U+001C..U+001F, as CPython defines it. */
  predicate IsSpace(c: char) {
    ('\t' <= c <= '\r') || ('\U{1c}' <= c <= ' ') || c == '\U{85}' || c == '\U{a0}'
    || c == '\U{1680}' || ('\U{2000}' <= c <= '\U{200a}') || c == '\U{2028}' || c == '\U{2029}'
    || c == '\U{202f}' || c == '\U{205f}' || c == '\U{3000}'
  }

  /** `str.isprintable()` for one character: false for the controls (Cc), the
      format characters (Cf), the private-use characters (Co) and every
      separator (Z*) except the ASCII space. */
  predicate IsPrintable(c: char) {
    !(IsControlOrSeparator(c) || IsFormat(c) || IsPrivateUse(c))
  }

  /** Cc and Z*: the C0 and C1 controls, DEL, and the space, line and
      paragraph separators other than the ASCII space. */
  predicate IsControlOrSeparator(c: char) {
    c < ' ' || ('\U{7f}' <= c <= '\U{a0}') || c == '\U{1680}' || ('\U{2000}' <= c <= '\U{200a}')
    || c == '\U{2028}' || c == '\U{2029}' || c == '\U{202f}' || c == '\U{205f}' || c == '\U{3000}'
  }

  /** Cf, the format characters (with U+2065, unassigned, inside their run). */
  predicate IsFormat(c: char) {
    c == '\U{ad}' || ('\U{600}' <= c <= '\U{605}') || c == '\U{61c}' || c == '\U{6dd}'
    || c == '\U{70f}' || c == '\U{890}' || c == '\U{891}' || c == '\U{8e2}' || c == '\U{180e}'
    || ('\U{200b}' <= c <= '\U{200f}') || ('\U{202a}' <= c <= '\U{202e}')
    || ('\U{2060}' <= c <= '\U{206f}')
    || c == '\U{feff}' || ('\U{fff9}' <= c <= '\U{fffb}')
    || c == '\U{110bd}' || c == '\U{110cd}' || ('\U{13430}' <= c <= '\U{1343f}')
    || ('\U{1bca0}' <= c <= '\U{1bca3}') || ('\U{1d173}' <= c <= '\U{1d17a}')
    || c == '\U{e0001}' || ('\U{e0020}' <= c <= '\U{e007f}')
  }

  /** Co, the private-use planes and area. */
  predicate IsPrivateUse(c: char) {
    ('\U{e000}' <= c <= '\U{f8ff}') || ('\U{f0000}' <= c <= '\U{ffffd}')
    || ('\U{100000}' <= c <= '\U{10fffd}')
  }

  /** Python's `isprintable` excludes every whitespace character except the space. */
  lemma SpaceIsOnlyPrintableWhitespace(c: char)
    ensures IsSpace(c) && IsPrintable(c) <==> c == ' '
  {
  }

  predicate IsAsciiLetter(c: char) {
    ('A' <= c <= 'Z') || ('a' <= c <= 'z')
  }

  predicate IsDigit(c: char) {
    '0' <= c <= '9'
  }

  function DigitValue(c: char): (d: nat)
    requires IsDigit(c)
    ensures d < 10
  {
    (c as int) - ('0' as int)
  }

  function DigitChar(d: nat): (c: char)
    requires d < 10
    ensures IsDigit(c) && DigitValue(c) == d
  {
    ('0' as int + d) as char
  }

  // ----------------------------------------------------------------------
  // lower / startswith
  // ----------------------------------------------------------------------

  function LowerChar(c: char): (r: char)
    ensures 'A' <= c <= 'Z' ==> r as int == c as int + 32
    ensures !('A' <= c <= 'Z') ==> r == c
  {
    if 'A' <= c <= 'Z' then (c as int + 32) as char else c
  }

  /** `str.lower()` restricted to ASCII case mapping. */
  function Lower(s: string): (r: string)
    ensures |r| == |s|
    ensures forall i :: 0 <= i < |s| && 'A' <= s[i] <= 'Z' ==> r[i] as int == s[i] as int + 32
    ensures forall i :: 0 <= i < |s| && !('A' <= s[i] <= 'Z') ==> r[i] == s[i]
  {
    seq(|s|, i requires 0 <= i < |s| => LowerChar(s[i]))
  }

  predicate StartsWith(s: string, prefix: string) {
    |prefix| <= |s| && s[..|prefix|] == prefix
  }

  predicate EndsWith(s: string, suffix: string) {
    |suffix| <= |s| && s[|s| - |suffix|..] == suffix
  }

  // ----------------------------------------------------------------------
  // strip
  // ----------------------------------------------------------------------

  /** `str.lstrip()`: drop the leading whitespace. */
  function StripLeft(s: string): (r: string)
    ensures |r| <= |s| && r == s[|s| - |r|..]
    ensures r == [] || !IsSpace(r[0])
  {
    if s != [] && IsSpace(s[0]) then StripLeft(s[1..]) else s
  }

  /** `str.rstrip()`: drop the trailing whitespace. */
  function StripRight(s: string): (r: string)
    ensures |r| <= |s| && r == s[..|r|]
    ensures r == [] || !IsSpace(r[|r| - 1])
  {
    if s != [] && IsSpace(s[|s| - 1]) then StripRight(s[..|s| - 1]) else s
  }

  /** `str.strip()`: the longest infix that neither starts nor ends with whitespace. */
  function Strip(s: string): (r: string)
    ensures r == [] || (!IsSpace(r[0]) && !IsSpace(r[|r| - 1]))
  {
    StripRight(StripLeft(s))
  }

  /** Where the infix that `strip()` keeps starts. */
  function StripStart(s: string): (lo: nat)
    ensures lo + |Strip(s)| <= |s|
  {
    |s| - |StripLeft(s)|
  }

  /** `strip()` keeps an infix of its argument. */
  lemma StripInfix(s: string)
    ensures Strip(s) == s[StripStart(s)..StripStart(s) + |Strip(s)|]
    ensures multiset(Strip(s)) <= multiset(s)
  {
    var l := StripLeft(s);
    var lo := |s| - |l|;
    var r := StripRight(l);
    assert Strip(s) == r && StripStart(s) == lo;
    assert l == s[lo..] && r == l[..|r|];
    assert s[lo..][..|r|] == s[lo..lo + |r|];
    SliceMultiset(s, lo, lo + |r|);
  }

  /** `strip()` leaves text that neither starts nor ends with whitespace alone. */
  lemma StripIdentity(s: string)
    requires s != [] && !IsSpace(s[0]) && !IsSpace(s[|s| - 1])
    ensures Strip(s) == s
  {
    assert StripLeft(s) == s;
  }

  lemma {:induction false} StripLeftRemovesSpace(s: string)
    ensures forall i :: 0 <= i < |s| - |StripLeft(s)| ==> IsSpace(s[i])
  {
    if s != [] && IsSpace(s[0]) {
      StripLeftRemovesSpace(s[1..]);
      forall i | 1 <= i < |s| - |StripLeft(s)|
        ensures IsSpace(s[i])
      {
        assert s[i] == s[1..][i - 1];
      }
    }
  }

  lemma {:induction false} StripRightRemovesSpace(s: string)
    ensures forall i :: |StripRight(s)| <= i < |s| ==> IsSpace(s[i])
  {
    if s != [] && IsSpace(s[|s| - 1]) {
      StripRightRemovesSpace(s[..|s| - 1]);
    }
  }

  /** Everything `strip()` drops is whitespace. */
  lemma StripRemovesOnlySpace(s: string)
    ensures forall i :: 0 <= i < StripStart(s) ==> IsSpace(s[i])
    ensures forall i :: StripStart(s) + |Strip(s)| <= i < |s| ==> IsSpace(s[i])
  {
    StripLeftRemovesSpace(s);
    var l := StripLeft(s);
    StripRightRemovesSpace(l);
    forall i | StripStart(s) + |Strip(s)| <= i < |s|
      ensures IsSpace(s[i])
    {
      assert s[i] == l[i - StripStart(s)];
    }
  }

  lemma SliceMultiset<T>(s: seq<T>, lo: nat, hi: nat)
    requires lo <= hi <= |s|
    ensures multiset(s[lo..hi]) <= multiset(s)
  {
    assert s == s[..lo] + s[lo..hi] + s[hi..];
  }

  // ----------------------------------------------------------------------
  // split() and join
  // ----------------------------------------------------------------------

  predicate NoSpace(w: string) {
    forall i :: 0 <= i < |w| ==> !IsSpace(w[i])
  }

  /** The longest prefix of `s` that holds no whitespace. */
  function TakeWord(s: string): (w: string)
    ensures |w| <= |s| && w == s[..|w|]
    ensures NoSpace(w)
    ensures |w| == |s| || IsSpace(s[|w|])
  {
    if s == [] || IsSpace(s[0]) then [] else [s[0]] + TakeWord(s[1..])
  }

  /** `str.split()` with no separator: the maximal runs of non-whitespace. */
  function Split(s: string): seq<string>
    decreases |s|
  {
    if s == [] then []
    else if IsSpace(s[0]) then Split(s[1..])
    else
      var w := TakeWord(s);
      [w] + Split(s[|w|..])
  }

  /** Every token of `split()` is non-empty and holds no whitespace. */
  lemma {:induction false} SplitWords(s: string)
    ensures forall k :: 0 <= k < |Split(s)| ==> Split(s)[k] != [] && NoSpace(Split(s)[k])
    decreases |s|
  {
    if s == [] {
    } else if IsSpace(s[0]) {
      SplitWords(s[1..]);
    } else {
      var w := TakeWord(s);
      SplitWords(s[|w|..]);
      var rest := Split(s[|w|..]);
      assert Split(s) == [w] + rest;
      forall k | 0 <= k < |Split(s)|
        ensures Split(s)[k] != [] && NoSpace(Split(s)[k])
      {
        if k > 0 {
          assert Split(s)[k] == rest[k - 1];
        }
      }
    }
  }

  /** A word followed by whitespace or nothing is exactly what `TakeWord` takes. */
  lemma {:induction false} TakeWordOf(w: string, rest: string)
    requires NoSpace(w)
    requires rest == [] || IsSpace(rest[0])
    ensures TakeWord(w + rest) == w
  {
    if w != [] {
      assert (w + rest)[1..] == w[1..] + rest;
      TakeWordOf(w[1..], rest);
    } else {
      assert w + rest == rest;
    }
  }

  /** A word followed by whitespace or nothing is the first token of `split()`. */
  lemma SplitCons(w: string, rest: string)
    requires w != [] && NoSpace(w)
    requires rest == [] || IsSpace(rest[0])
    ensures Split(w + rest) == [w] + Split(rest)
  {
    var s := w + rest;
    assert s[0] == w[0];
    TakeWordOf(w, rest);
    assert s[|w|..] == rest;
  }

  /** `sep.join(parts)`. */
  function Join(sep: string, parts: seq<string>): string
  {
    if |parts| == 0 then []
    else if |parts| == 1 then parts[0]
    else parts[0] + sep + Join(sep, parts[1..])
  }

  // ----------------------------------------------------------------------
  // int(str) and its inverse str(int)
  // ----------------------------------------------------------------------

  /** A run of ASCII digits with single underscores allowed between digits, the
      body that `int(str)` accepts in base 10. */
  predicate DigitRun(s: string) {
    |s| >= 1 && IsDigit(s[0]) && IsDigit(s[|s| - 1])
    && (forall i :: 0 <= i < |s| ==> IsDigit(s[i]) || s[i] == '_')
    && (forall i :: 0 <= i < |s| - 1 ==> IsDigit(s[i]) || IsDigit(s[i + 1]))
  }

  /** The value of a digit run, underscores ignored. */
  function RunValue(s: string): nat
    requires forall i :: 0 <= i < |s| ==> IsDigit(s[i]) || s[i] == '_'
  {
    if s == [] then 0
    else if s[|s| - 1] == '_' then RunValue(s[..|s| - 1])
    else RunValue(s[..|s| - 1]) * 10 + DigitValue(s[|s| - 1])
  }

  /** `int(s)` in base 10 over ASCII digits: surrounding whitespace is ignored,
      then one optional sign and a digit run; anything else raises (None). */
  function ParseInt(s: string): (r: Option<int>)
    ensures r.Some? ==> Strip(s) != []
  {
    ParseSigned(Strip(s))
  }

  /** An optional sign followed by a digit run. */
  function ParseSigned(t: string): (r: Option<int>)
    ensures r.Some? ==> t != []
  {
    if t == [] then None
    else
      var body := if t[0] == '-' || t[0] == '+' then t[1..] else t;
      if DigitRun(body) then
        var v: int := RunValue(body);
        Some(if t[0] == '-' then -v else v)
      else None
  }

  /** `str(n)` for a natural number. */
  function NatToString(n: nat): (s: string)
    ensures DigitRun(s)
    ensures forall i :: 0 <= i < |s| ==> IsDigit(s[i])
  {
    if n < 10 then [DigitChar(n)] else NatToString(n / 10) + [DigitChar(n % 10)]
  }

  /** `str(k)` for an integer. */
  function IntToString(k: int): string {
    if k < 0 then "-" + NatToString(-k) else NatToString(k)
  }

  lemma {:induction false} NatToStringValue(n: nat)
    ensures RunValue(NatToString(n)) == n
  {
    if n >= 10 {
      var s := NatToString(n);
      NatToStringValue(n / 10);
      assert s[..|s| - 1] == NatToString(n / 10);
    }
  }

  lemma ParseSignedToString(k: int)
    ensures ParseSigned(IntToString(k)) == Some(k)
  {
    var m: nat := if k < 0 then -k else k;
    var digits := NatToString(m);
    NatToStringValue(m);
    var s := IntToString(k);
    if k < 0 {
      assert s[0] == '-';
      assert s[1..] == digits;
    } else {
      assert s == digits;
      assert IsDigit(s[0]);
    }
  }

  lemma StripIntToString(k: int)
    ensures Strip(IntToString(k)) == IntToString(k)
  {
    var digits := NatToString(if k < 0 then -k else k);
    var s := IntToString(k);
    var first, last := s[0], s[|s| - 1];
    assert last == digits[|digits| - 1];
    assert IsDigit(last) && !IsSpace(last);
    assert first == '-' || IsDigit(first);
    assert !IsSpace(first);
    StripIdentity(s);
  }

  /** `int(str(k)) == k`: the decimal rendering of any integer parses back. */
  lemma ParseIntToString(k: int)
    ensures ParseInt(IntToString(k)) == Some(k)
  {
    StripIntToString(k);
    ParseSignedToString(k);
  }
}
