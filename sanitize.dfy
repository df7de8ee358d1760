/**
  `_sanitize_cmd`: turns the raw characters typed since the last Enter into the
  command text that the interception test looks at. Four passes, in order:
  remove every CSI sequence `ESC [ [0-9;?]* [A-Za-z]` (one left-to-right pass of
  `re.sub`), remove every remaining ESC, keep only printable characters, strip
  surrounding whitespace.
 */
module Sanitize {
  import opened PyText

  const Esc: char := '\U{1b}'

  /** The parameter bytes the pattern accepts between `ESC [` and the final letter. */
  predicate IsCsiParam(c: char) {
    IsDigit(c) || c == ';' || c == '?'
  }

  predicate NoEsc(s: string) {
    forall i :: 0 <= i < |s| ==> s[i] != Esc
  }

  predicate AllParams(p: string) {
    forall i :: 0 <= i < |p| ==> IsCsiParam(p[i])
  }

  /** Length of the run of parameter bytes that starts `s`. */
  function ParamRun(s: string): (k: nat)
    ensures k <= |s|
    ensures AllParams(s[..k])
    ensures k == |s| || !IsCsiParam(s[k])
  {
    if s != [] && IsCsiParam(s[0]) then
      var k := 1 + ParamRun(s[1..]);
      assert s[..k] == [s[0]] + s[1..][..k - 1];
      k
    else 0
  }

  /** Length of the match of `ESC [ [0-9;?]* [A-Za-z]` at the start of `s`, or 0
      when the pattern does not match there. The parameter class holds no
      letter, so the greedy run is the only candidate. */
  function CsiLen(s: string): (k: nat)
    ensures k <= |s|
    ensures k > 0 ==> k >= 3 && s[0] == Esc
  {
    if |s| >= 2 && s[0] == Esc && s[1] == '[' then
      var p := ParamRun(s[2..]);
      if 2 + p < |s| && IsAsciiLetter(s[2 + p]) then 3 + p else 0
    else 0
  }

  /** `_ANSI_RE.sub("", s)`: scan left to right, drop each match, resume after it. */
  function StripCsi(s: string): string
    decreases |s|
  {
    if s == [] then []
    else if CsiLen(s) > 0 then StripCsi(s[CsiLen(s)..])
    else [s[0]] + StripCsi(s[1..])
  }

  /** `s.replace("\x1b", "")`. */
  function RemoveEsc(s: string): string {
    if s == [] then []
    else (if s[0] == Esc then [] else [s[0]]) + RemoveEsc(s[1..])
  }

  predicate KeepChar(c: char) {
    IsPrintable(c) || c == ' '
  }

  predicate AllKept(s: string) {
    forall i :: 0 <= i < |s| ==> KeepChar(s[i])
  }

  /** `"".join(ch for ch in s if ch.isprintable() or ch == " ")`. */
  function KeepPrintable(s: string): string {
    if s == [] then []
    else (if KeepChar(s[0]) then [s[0]] else []) + KeepPrintable(s[1..])
  }

  /** The CSI pass only removes characters. */
  lemma {:induction false} StripCsiShrinks(s: string)
    ensures multiset(StripCsi(s)) <= multiset(s)
    decreases |s|
  {
    if s != [] {
      if CsiLen(s) > 0 {
        var k := CsiLen(s);
        StripCsiShrinks(s[k..]);
        assert s == s[..k] + s[k..];
      } else {
        StripCsiShrinks(s[1..]);
        assert s == [s[0]] + s[1..];
      }
    }
  }

  /** ESC removal leaves no ESC. */
  lemma {:induction false} RemoveEscNoEsc(s: string)
    ensures NoEsc(RemoveEsc(s))
  {
    if s != [] {
      RemoveEscNoEsc(s[1..]);
      var x := if s[0] == Esc then [] else [s[0]];
      var t := RemoveEsc(s[1..]);
      assert RemoveEsc(s) == x + t;
      forall i | 0 <= i < |x| + |t|
        ensures (x + t)[i] != Esc
      {
        if i >= |x| {
          assert (x + t)[i] == t[i - |x|];
        }
      }
    }
  }

  /** ESC removal removes nothing but ESC characters. */
  lemma {:induction false} RemoveEscCounts(s: string)
    ensures multiset(RemoveEsc(s)) <= multiset(s)
    ensures forall c :: c != Esc ==> multiset(RemoveEsc(s))[c] == multiset(s)[c]
  {
    if s != [] {
      RemoveEscCounts(s[1..]);
      assert s == [s[0]] + s[1..];
      var x := if s[0] == Esc then [] else [s[0]];
      assert multiset(RemoveEsc(s)) == multiset(x) + multiset(RemoveEsc(s[1..]));
    }
  }

  /** Text without ESC is left alone. */
  lemma {:induction false} RemoveEscIdentity(s: string)
    requires NoEsc(s)
    ensures RemoveEsc(s) == s
  {
    if s != [] {
      RemoveEscIdentity(s[1..]);
      assert s == [s[0]] + s[1..];
    }
  }

  /** The printable filter leaves only characters it accepts. */
  lemma {:induction false} KeepPrintableKept(s: string)
    ensures AllKept(KeepPrintable(s))
  {
    if s != [] {
      KeepPrintableKept(s[1..]);
      var x := if KeepChar(s[0]) then [s[0]] else [];
      var t := KeepPrintable(s[1..]);
      assert KeepPrintable(s) == x + t;
      forall i | 0 <= i < |x| + |t|
        ensures KeepChar((x + t)[i])
      {
        if i >= |x| {
          assert (x + t)[i] == t[i - |x|];
        }
      }
    }
  }

  /** The printable filter removes nothing it accepts. */
  lemma {:induction false} KeepPrintableCounts(s: string)
    ensures multiset(KeepPrintable(s)) <= multiset(s)
    ensures forall c :: KeepChar(c) ==> multiset(KeepPrintable(s))[c] == multiset(s)[c]
  {
    if s != [] {
      KeepPrintableCounts(s[1..]);
      assert s == [s[0]] + s[1..];
      var x := if KeepChar(s[0]) then [s[0]] else [];
      assert multiset(KeepPrintable(s)) == multiset(x) + multiset(KeepPrintable(s[1..]));
    }
  }

  /** Text the filter accepts throughout is left alone. */
  lemma {:induction false} KeepPrintableIdentity(s: string)
    requires AllKept(s)
    ensures KeepPrintable(s) == s
  {
    if s != [] {
      KeepPrintableIdentity(s[1..]);
      assert s == [s[0]] + s[1..];
    }
  }

  /** ESC is a control character, so text the printable filter keeps has none. */
  lemma KeptHasNoEsc(s: string)
    requires AllKept(s)
    ensures NoEsc(s)
  {
    forall i | 0 <= i < |s|
      ensures s[i] != Esc
    {
      assert KeepChar(s[i]);
    }
  }

  /** No ESC and nothing the printable filter would drop. */
  predicate Clean(s: string) {
    NoEsc(s) && AllKept(s)
  }

  /** `_sanitize_cmd(s)`: the result only drops characters of `s`, holds no ESC
      and no unprintable character, and neither starts nor ends with
      whitespace. */
  function SanitizeCmd(s: string): (r: string)
    ensures Clean(r)
    ensures r == [] || (!IsSpace(r[0]) && !IsSpace(r[|r| - 1]))
    ensures multiset(r) <= multiset(s)
  {
    var a := StripCsi(s);
    var b := RemoveEsc(a);
    var c := KeepPrintable(b);
    StripCsiShrinks(s);
    RemoveEscCounts(a);
    KeepPrintableKept(b);
    KeepPrintableCounts(b);
    KeptHasNoEsc(c);
    StripClean(c);
    Strip(c)
  }

  /** Stripping clean text leaves it clean. */
  lemma StripClean(c: string)
    requires Clean(c)
    ensures Clean(Strip(c)) && multiset(Strip(c)) <= multiset(c)
  {
    StripInfix(c);
    var lo, r := StripStart(c), Strip(c);
    forall i | 0 <= i < |r|
      ensures r[i] == c[lo + i]
    {
    }
  }

  // ----------------------------------------------------------------------
  // What the CSI pass removes and what it keeps
  // ----------------------------------------------------------------------

  /** Text without ESC passes through the CSI pass unchanged. */
  lemma {:induction false} StripCsiNoEscPrefix(u: string, t: string)
    requires NoEsc(u)
    ensures StripCsi(u + t) == u + StripCsi(t)
  {
    if u != [] {
      var s := u + t;
      assert s[0] == u[0] && CsiLen(s) == 0;
      assert s[1..] == u[1..] + t;
      StripCsiNoEscPrefix(u[1..], t);
    } else {
      assert u + t == t;
    }
  }

  /** Whether `ESC [ params c ...` is a match depends only on `c`. */
  lemma CsiLenOf(p: string, c: char, t: string)
    requires AllParams(p) && !IsCsiParam(c)
    ensures CsiLen([Esc, '['] + p + [c] + t) == if IsAsciiLetter(c) then 3 + |p| else 0
  {
    var s := [Esc, '['] + p + [c] + t;
    assert s[2..] == p + ([c] + t);
    ParamRunOf(p, [c] + t);
    assert s[2 + |p|] == c;
  }

  /** A complete CSI sequence at the front is removed. */
  lemma StripCsiDropsSequence(p: string, f: char, t: string)
    requires AllParams(p) && IsAsciiLetter(f)
    ensures StripCsi([Esc, '['] + p + [f] + t) == StripCsi(t)
  {
    var s := [Esc, '['] + p + [f] + t;
    CsiLenOf(p, f, t);
    assert s[3 + |p|..] == t;
  }

  /** `ESC [ params c` whose final character is neither a letter, nor a
      parameter byte, nor ESC (the `~` of a bracketed-paste marker) is not a
      match: every one of its characters, the ESC included, survives the CSI
      pass. */
  lemma StripCsiKeepsUnterminated(p: string, c: char, t: string)
    requires AllParams(p) && !IsAsciiLetter(c) && !IsCsiParam(c) && c != Esc
    ensures StripCsi([Esc, '['] + p + [c] + t) == [Esc, '['] + p + [c] + StripCsi(t)
  {
    var body := ['['] + p + [c];
    var s := [Esc, '['] + p + [c] + t;
    CsiLenOf(p, c, t);
    assert StripCsi(s) == [Esc] + StripCsi(s[1..]);
    assert s[1..] == body + t;
    assert NoEsc(body) by {
      forall i | 0 <= i < |body|
        ensures body[i] != Esc
      {
        if 0 < i <= |p| {
          assert body[i] == p[i - 1];
        }
      }
    }
    StripCsiNoEscPrefix(body, t);
    assert [Esc] + (body + t) == s;
  }

  lemma {:induction false} ParamRunOf(p: string, t: string)
    requires AllParams(p)
    requires t == [] || !IsCsiParam(t[0])
    ensures ParamRun(p + t) == |p|
  {
    if p != [] {
      assert (p + t)[1..] == p[1..] + t;
      ParamRunOf(p[1..], t);
    } else {
      assert p + t == t;
    }
  }

  // ----------------------------------------------------------------------
  // Sanitising clean text, and idempotence
  // ----------------------------------------------------------------------

  /** Text that is already free of ESC and unprintable characters is only stripped. */
  lemma SanitizeClean(s: string)
    requires NoEsc(s) && AllKept(s)
    ensures SanitizeCmd(s) == Strip(s)
  {
    StripCsiNoEscPrefix(s, []);
    assert s + [] == s;
    RemoveEscIdentity(s);
    KeepPrintableIdentity(s);
  }

  /** Sanitising twice is the same as sanitising once. */
  lemma SanitizeIdempotent(s: string)
    ensures SanitizeCmd(SanitizeCmd(s)) == SanitizeCmd(s)
  {
    var r := SanitizeCmd(s);
    SanitizeClean(r);
    if r != [] {
      StripIdentity(r);
    }
  }

  lemma {:induction false} RemoveEscConcat(a: string, b: string)
    ensures RemoveEsc(a + b) == RemoveEsc(a) + RemoveEsc(b)
  {
    if a != [] {
      assert (a + b)[1..] == a[1..] + b;
      RemoveEscConcat(a[1..], b);
    } else {
      assert a + b == b;
    }
  }

  lemma RemoveEscLeading(t: string)
    ensures RemoveEsc([Esc] + t) == RemoveEsc(t)
  {
    var s := [Esc] + t;
    assert s[0] == Esc && s[1..] == t;
  }

  /** Two ESC-free pieces, each behind an ESC, lose only the ESCs. */
  lemma RemoveEscAround(head: string, mid: string)
    requires NoEsc(head) && NoEsc(mid)
    ensures RemoveEsc([Esc] + head + ([Esc] + mid)) == head + mid
  {
    RemoveEscConcat([Esc] + head, [Esc] + mid);
    RemoveEscLeading(head);
    RemoveEscLeading(mid);
    RemoveEscIdentity(head);
    RemoveEscIdentity(mid);
  }

  /** Text pasted into a terminal in bracketed-paste mode: `ESC[200~ w ESC[201~`. */
  function BracketedPaste(w: string): string {
    [Esc] + "[200~" + w + ([Esc] + "[201~")
  }

  /** Neither paste marker is a CSI match, so the CSI pass keeps everything. */
  lemma BracketedPasteCsi(w: string)
    requires NoEsc(w)
    ensures StripCsi(BracketedPaste(w)) == BracketedPaste(w)
  {
    var tail := [Esc] + "[201~";
    assert tail == [Esc, '['] + "201" + ['~'] + [];
    StripCsiKeepsUnterminated("201", '~', []);
    StripCsiNoEscPrefix(w, tail);
    assert BracketedPaste(w) == [Esc, '['] + "200" + ['~'] + (w + tail);
    StripCsiKeepsUnterminated("200", '~', w + tail);
  }

  /** The two markers and the pasted text are all kept by the printable filter. */
  lemma BracketedPasteKept(w: string)
    requires AllKept(w)
    ensures AllKept("[200~" + w + "[201~")
  {
    var open, close := "[200~", "[201~";
    assert AllKept(open) && AllKept(close);
    var c := open + w + close;
    forall i | 0 <= i < |c|
      ensures KeepChar(c[i])
    {
      if i < |open| {
        assert c[i] == open[i];
      } else if i < |open| + |w| {
        assert c[i] == w[i - |open|];
      } else {
        assert c[i] == close[i - |open| - |w|];
      }
    }
  }

  /** Removing ESC from the wrapped text leaves the markers without their ESCs. */
  lemma BracketedPasteEsc(w: string)
    requires NoEsc(w)
    ensures RemoveEsc(BracketedPaste(w)) == "[200~" + w + "[201~"
  {
    var open, close := "[200~", "[201~";
    assert NoEsc(open) && NoEsc(close);
    forall i | 0 <= i < |open + w|
      ensures (open + w)[i] != Esc
    {
      if i >= |open| {
        assert (open + w)[i] == w[i - |open|];
      }
    }
    RemoveEscAround(open + w, close);
    assert BracketedPaste(w) == [Esc] + (open + w) + ([Esc] + close);
  }

  /** The bracketed-paste wrapper `ESC[200~ ... ESC[201~` is not a CSI match, so
      only its two ESC characters go and the markers stay around the pasted
      text: a pasted command is never seen bare by the interception test. */
  lemma BracketedPasteSanitized(w: string)
    requires AllKept(w)
    ensures SanitizeCmd(BracketedPaste(w)) == "[200~" + w + "[201~"
  {
    KeptHasNoEsc(w);
    BracketedPasteCsi(w);
    BracketedPasteEsc(w);
    var clean := "[200~" + w + "[201~";
    BracketedPasteKept(w);
    KeepPrintableIdentity(clean);
    assert clean[0] == '[' && clean[|clean| - 1] == '~';
    StripIdentity(clean);
    SanitizeSteps(BracketedPaste(w), clean);
  }

  /** Helper: unfolds `SanitizeCmd` once the first three passes are known. */
  lemma SanitizeSteps(s: string, c: string)
    requires KeepPrintable(RemoveEsc(StripCsi(s))) == c
    ensures SanitizeCmd(s) == Strip(c)
  {
  }
}
