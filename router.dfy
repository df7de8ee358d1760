/**
  The terminal input router (`_on_term_in`): every character typed into the
  browser terminal is forwarded to the shell, while a per-connection line
  buffer reconstructs what has been typed since the last Enter. An Enter
  whose sanitised line starts with `log` (in any case) is not forwarded:
  the router erases the shell's line with Ctrl-U and CR and asks for a
  log-tail reply instead.
 */
module InputRouter {
  import opened Wrappers
  import opened PyText
  import opened Sanitize
  import opened LogTail

  // ----------------------------------------------------------------------
  // Payload normalisation
  // ----------------------------------------------------------------------

  /** What a `term_in` event can carry. A dict's keys are `None` when missing;
      bytes are given already decoded; any other value is given as its `str()`. */
  datatype Payload =
    | NoPayload
    | Dict(data: Option<string>, text: Option<string>, input: Option<string>)
    | Bytes(decoded: string)
    | Other(shown: string)

  /** Python truthiness of an optional string. */
  predicate Given(field: Option<string>) {
    field.Some? && field.value != []
  }

  /** The text the handler goes on to process, or `None` when it returns early
      (no payload, or empty text). A dict yields the first non-empty one of
      `data`, `text`, `input`. */
  function Normalize(p: Payload): (r: Option<string>)
    ensures r.Some? ==> r.value != []
    ensures p.Dict? ==> (r.Some? <==> Given(p.data) || Given(p.text) || Given(p.input))
    ensures p.Dict? && Given(p.data) ==> r == p.data
    ensures p.Dict? && !Given(p.data) && Given(p.text) ==> r == p.text
    ensures p.Dict? && !Given(p.data) && !Given(p.text) && Given(p.input) ==> r == p.input
    ensures p.NoPayload? ==> r == None
    ensures p.Bytes? ==> r == (if p.decoded == [] then None else Some(p.decoded))
    ensures p.Other? ==> r == (if p.shown == [] then None else Some(p.shown))
  {
    var text :=
      match p
      case NoPayload => []
      case Dict(data, text, input) =>
        if Given(data) then data.value
        else if Given(text) then text.value
        else if Given(input) then input.value
        else []
      case Bytes(decoded) => decoded
      case Other(shown) => shown;
    if text == [] then None else Some(text)
  }

  // ----------------------------------------------------------------------
  // One character at a time
  // ----------------------------------------------------------------------

  predicate IsBackspace(c: char) {
    c == '\U{7f}' || c == '\U{8}'
  }

  predicate IsEnter(c: char) {
    c == '\r' || c == '\n'
  }

  /** Ctrl-U then CR: what replaces an intercepted Enter on the pty. */
  const LineKill: string := "\U{15}\r"

  /** `low.startswith("logs") or low.startswith("log")` on the lower-cased command. */
  predicate IsLogCommand(cmd: string) {
    StartsWith(Lower(cmd), "logs") || StartsWith(Lower(cmd), "log")
  }

  /** The interception test is a case-insensitive `log` prefix: it also holds for
      `logout` and `login`, and the `logs` alternative adds nothing. */
  lemma IsLogCommandIff(cmd: string)
    ensures IsLogCommand(cmd) <==>
      |cmd| >= 3 && cmd[0] in "lL" && cmd[1] in "oO" && cmd[2] in "gG"
  {
    var low := Lower(cmd);
    if |cmd| >= 3 {
      assert low[..3] == [LowerChar(cmd[0]), LowerChar(cmd[1]), LowerChar(cmd[2])];
    }
    if StartsWith(low, "logs") {
      assert low[..3] == low[..4][..3];
    }
  }

  /** The router's state between characters, and what it has produced so far. */
  datatype Routed = Routed(buf: string, writes: seq<string>, requests: seq<int>)

  /** One iteration of the loop over the text. */
  function Feed(st: Routed, ch: char): Routed {
    if IsBackspace(ch) then
      Routed(if st.buf == [] then [] else st.buf[..|st.buf| - 1], st.writes + [[ch]], st.requests)
    else if IsEnter(ch) then
      var cmd := SanitizeCmd(st.buf);
      if IsLogCommand(cmd) then Routed([], st.writes + [LineKill], st.requests + [LogCount(cmd)])
      else Routed([], st.writes + [[ch]], st.requests)
    else Routed(st.buf + [ch], st.writes + [[ch]], st.requests)
  }

  /** The whole loop, as a left fold of `Feed` over the text. */
  function FeedAll(st: Routed, text: string): Routed
    decreases |text|
  {
    if text == [] then st else Feed(FeedAll(st, text[..|text| - 1]), text[|text| - 1])
  }

  /** `for ch in text:` of `_on_term_in`, for a connection whose buffer holds
      `buf`: the new buffer, the pty writes in order, and the counts of the
      log-tail replies asked for, in order. */
  method Route(buf: string, text: string) returns (newBuf: string, writes: seq<string>, requests: seq<int>)
    ensures Routed(newBuf, writes, requests) == FeedAll(Routed(buf, [], []), text)
  {
    newBuf, writes, requests := buf, [], [];
    for i := 0 to |text|
      invariant Routed(newBuf, writes, requests) == FeedAll(Routed(buf, [], []), text[..i])
    {
      assert text[..i + 1][..i] == text[..i];
      var ch := text[i];
      if IsBackspace(ch) {
        newBuf := if newBuf == [] then [] else newBuf[..|newBuf| - 1];
        writes := writes + [[ch]];
      } else if IsEnter(ch) {
        var cmd := SanitizeCmd(newBuf);
        newBuf := [];
        if IsLogCommand(cmd) {
          writes := writes + [LineKill];
          requests := requests + [LogCount(cmd)];
        } else {
          writes := writes + [[ch]];
        }
      } else {
        newBuf := newBuf + [ch];
        writes := writes + [[ch]];
      }
    }
    assert text[..|text|] == text;
  }

  // ----------------------------------------------------------------------
  // An independent account of the line buffer
  // ----------------------------------------------------------------------

  /** Line editing without Enter: a backspace drops the last character (and
      does nothing to an empty line), anything else is appended. */
  function Edit(b: string, keys: string): string
    decreases |keys|
  {
    if keys == [] then b
    else
      var before := Edit(b, keys[..|keys| - 1]);
      var k := keys[|keys| - 1];
      if IsBackspace(k) then (if before == [] then [] else before[..|before| - 1])
      else before + [k]
  }

  predicate HasEnter(s: string) {
    exists i :: 0 <= i < |s| && IsEnter(s[i])
  }

  /** The position of the last Enter in `s`. */
  function LastEnter(s: string): (i: nat)
    requires HasEnter(s)
    ensures i < |s| && IsEnter(s[i])
    ensures forall j :: i < j < |s| ==> !IsEnter(s[j])
    decreases |s|
  {
    if IsEnter(s[|s| - 1]) then |s| - 1
    else
      assert HasEnter(s[..|s| - 1]) by {
        var j :| 0 <= j < |s| && IsEnter(s[j]);
        assert s[..|s| - 1][j] == s[j];
      }
      LastEnter(s[..|s| - 1])
  }

  /** The line being typed after `s`, starting from buffer `buf`: the keys after
      the last Enter applied to an empty line, or all of `s` applied to `buf`. */
  function LineAfter(buf: string, s: string): string {
    if HasEnter(s) then LineSince(s) else Edit(buf, s)
  }

  /** The keys after the last Enter applied to an empty line. */
  function LineSince(s: string): string
    requires HasEnter(s)
  {
    Edit([], s[LastEnter(s) + 1..])
  }

  /** Whether the Enter at `text[i]` is intercepted. */
  predicate Intercepted(buf: string, text: string, i: nat)
    requires i < |text|
  {
    IsEnter(text[i]) && IsLogCommand(SanitizeCmd(LineAfter(buf, text[..i])))
  }

  lemma LineAfterSnoc(buf: string, s: string, c: char)
    ensures LineAfter(buf, s + [c]) ==
      if IsEnter(c) then []
      else
        var b := LineAfter(buf, s);
        if IsBackspace(c) then (if b == [] then [] else b[..|b| - 1]) else b + [c]
  {
    if IsEnter(c) {
      LineAfterEnter(buf, s, c);
    } else if HasEnter(s) {
      LineAfterKeyAfterEnter(buf, s, c);
    } else {
      LineAfterKeyNoEnter(buf, s, c);
    }
  }

  lemma LineAfterEnter(buf: string, s: string, c: char)
    requires IsEnter(c)
    ensures LineAfter(buf, s + [c]) == []
  {
    var t := s + [c];
    assert IsEnter(t[|s|]);
    assert HasEnter(t);
    assert LastEnter(t) == |s|;
  }

  lemma LineAfterKeyAfterEnter(buf: string, s: string, c: char)
    requires !IsEnter(c) && HasEnter(s)
    ensures LineAfter(buf, s + [c]) == Edit([], s[LastEnter(s) + 1..] + [c])
  {
    LastEnterSnoc(s, c);
    LineSinceSnoc(s, c);
  }

  lemma LineSinceSnoc(s: string, c: char)
    requires !IsEnter(c) && HasEnter(s) && HasEnter(s + [c]) && LastEnter(s + [c]) == LastEnter(s)
    ensures LineSince(s + [c]) == Edit([], s[LastEnter(s) + 1..] + [c])
  {
    SliceSnoc(s, c, LastEnter(s) + 1);
  }

  lemma SliceSnoc(s: string, c: char, i: nat)
    requires i <= |s|
    ensures (s + [c])[i..] == s[i..] + [c]
  {
  }

  /** A key other than Enter leaves the last Enter where it was. */
  lemma LastEnterSnoc(s: string, c: char)
    requires !IsEnter(c) && HasEnter(s)
    ensures HasEnter(s + [c]) && LastEnter(s + [c]) == LastEnter(s)
  {
    var t := s + [c];
    assert t[LastEnter(s)] == s[LastEnter(s)];
    assert t[..|t| - 1] == s;
  }

  lemma LineAfterKeyNoEnter(buf: string, s: string, c: char)
    requires !IsEnter(c) && !HasEnter(s)
    ensures LineAfter(buf, s + [c]) == Edit(buf, s + [c])
  {
    var t := s + [c];
    assert !HasEnter(t) by {
      forall i | 0 <= i < |t|
        ensures !IsEnter(t[i])
      {
        if i < |s| {
          assert t[i] == s[i];
        }
      }
    }
  }

  /** The router's buffer is always the line typed since the last Enter. */
  lemma {:induction false} BufferIsLine(buf: string, text: string)
    ensures FeedAll(Routed(buf, [], []), text).buf == LineAfter(buf, text)
    decreases |text|
  {
    if text != [] {
      var s, c := text[..|text| - 1], text[|text| - 1];
      BufferIsLine(buf, s);
      assert s + [c] == text;
      LineAfterSnoc(buf, s, c);
    } else {
      assert !HasEnter(text);
    }
  }

  // ----------------------------------------------------------------------
  // What reaches the pty
  // ----------------------------------------------------------------------

  /** What one step adds to the writes and to the requests. */
  lemma FeedOutputs(st: Routed, c: char)
    ensures var cut := IsEnter(c) && IsLogCommand(SanitizeCmd(st.buf));
      Feed(st, c).writes == st.writes + [if cut then LineKill else [c]] &&
      Feed(st, c).requests == st.requests + (if cut then [LogCount(SanitizeCmd(st.buf))] else [])
    ensures IsEnter(c) ==> Feed(st, c).buf == []
  {
  }

  /** Appending a character does not change whether an earlier Enter is intercepted. */
  lemma InterceptedPrefix(buf: string, s: string, c: char, i: nat)
    requires i < |s|
    ensures Intercepted(buf, s + [c], i) == Intercepted(buf, s, i)
  {
    assert (s + [c])[..i] == s[..i] && (s + [c])[i] == s[i];
  }

  /** One write per character: the character itself, or `Ctrl-U CR` in place
      of an intercepted Enter. */
  lemma {:induction false} WritesPerChar(buf: string, text: string)
    ensures var w := FeedAll(Routed(buf, [], []), text).writes;
      |w| == |text| &&
      forall i :: 0 <= i < |text| ==>
        w[i] == if Intercepted(buf, text, i) then LineKill else [text[i]]
    decreases |text|
  {
    if text != [] {
      var s, c := text[..|text| - 1], text[|text| - 1];
      assert text == s + [c];
      WritesPerChar(buf, s);
      BufferIsLine(buf, s);
      var st := FeedAll(Routed(buf, [], []), s);
      FeedOutputs(st, c);
      var w := FeedAll(Routed(buf, [], []), text).writes;
      forall i | 0 <= i < |text|
        ensures w[i] == if Intercepted(buf, text, i) then LineKill else [text[i]]
      {
        if i < |s| {
          InterceptedPrefix(buf, s, c, i);
          assert w[i] == st.writes[i];
        } else {
          assert text[..i] == s;
        }
      }
    }
  }

  /** The counts asked for by the intercepted Enters of `text`, in order: each
      is the count read from the line typed before that Enter. */
  function InterceptedCounts(buf: string, text: string): seq<int>
    decreases |text|
  {
    if text == [] then []
    else
      var s := text[..|text| - 1];
      InterceptedCounts(buf, s) +
        (if Intercepted(buf, text, |text| - 1) then [LogCount(SanitizeCmd(LineAfter(buf, s)))] else [])
  }

  /** One log request per intercepted Enter, in order, each with the count of
      the line it ended. */
  lemma {:induction false} RequestsAreCounts(buf: string, text: string)
    ensures FeedAll(Routed(buf, [], []), text).requests == InterceptedCounts(buf, text)
    decreases |text|
  {
    if text != [] {
      var s, c := text[..|text| - 1], text[|text| - 1];
      RequestsAreCounts(buf, s);
      BufferIsLine(buf, s);
      FeedOutputs(FeedAll(Routed(buf, [], []), s), c);
    }
  }

  /** The writes, concatenated. */
  function Concat(ws: seq<string>): string
    decreases |ws|
  {
    if ws == [] then [] else Concat(ws[..|ws| - 1]) + ws[|ws| - 1]
  }

  /** When no Enter is intercepted, the pty receives exactly the input text. */
  lemma {:induction false} ForwardsText(buf: string, text: string)
    requires forall i :: 0 <= i < |text| ==> !Intercepted(buf, text, i)
    ensures Concat(FeedAll(Routed(buf, [], []), text).writes) == text
    decreases |text|
  {
    if text != [] {
      var s, c := text[..|text| - 1], text[|text| - 1];
      forall i | 0 <= i < |s|
        ensures !Intercepted(buf, s, i)
      {
        assert text[..i] == s[..i] && text[i] == s[i];
        assert !Intercepted(buf, text, i);
      }
      ForwardsText(buf, s);
      WritesPerChar(buf, text);
      var w := FeedAll(Routed(buf, [], []), text).writes;
      assert w[..|w| - 1] == FeedAll(Routed(buf, [], []), s).writes;
      assert text[..|s|] == s;
      assert w[|w| - 1] == [c];
      assert s + [c] == text;
    }
  }

  /** One log-tail request per `Ctrl-U CR` write, each asking for 1 to 500 lines. */
  lemma {:induction false} RequestsMatchKills(buf: string, text: string)
    ensures var r := FeedAll(Routed(buf, [], []), text);
      multiset(r.writes)[LineKill] == |r.requests| &&
      forall j :: 0 <= j < |r.requests| ==> 1 <= r.requests[j] <= 500
    decreases |text|
  {
    if text != [] {
      var s, c := text[..|text| - 1], text[|text| - 1];
      RequestsMatchKills(buf, s);
      var st := FeedAll(Routed(buf, [], []), s);
      assert [c] != LineKill by {
        assert |[c]| != |LineKill|;
      }
      FeedOutputs(st, c);
      var r := Feed(st, c);
      assert r.writes == st.writes + [r.writes[|r.writes| - 1]];
      assert multiset(r.writes) == multiset(st.writes) + multiset([r.writes[|r.writes| - 1]]);
    }
  }

  // ----------------------------------------------------------------------
  // Typing one line
  // ----------------------------------------------------------------------

  predicate PlainKeys(s: string) {
    forall i :: 0 <= i < |s| ==> !IsEnter(s[i]) && !IsBackspace(s[i])
  }

  lemma {:induction false} EditPlain(b: string, s: string)
    requires PlainKeys(s)
    ensures Edit(b, s) == b + s
    decreases |s|
  {
    if s != [] {
      EditPlain(b, s[..|s| - 1]);
      assert b + s[..|s| - 1] + [s[|s| - 1]] == b + s;
    } else {
      assert b + s == b;
    }
  }

  /** Typing a line of ordinary characters on an empty buffer and then Enter:
      the line is intercepted exactly when its sanitised form is a log command,
      and then asks for the count its second token gives. */
  lemma TypedLine(line: string, enter: char)
    requires PlainKeys(line) && IsEnter(enter)
    ensures var r := FeedAll(Routed([], [], []), line + [enter]);
      var cmd := SanitizeCmd(line);
      r.buf == [] &&
      |r.writes| == |line| + 1 &&
      (forall i :: 0 <= i < |line| ==> r.writes[i] == [line[i]]) &&
      r.writes[|line|] == (if IsLogCommand(cmd) then LineKill else [enter]) &&
      r.requests == (if IsLogCommand(cmd) then [LogCount(cmd)] else [])
  {
    var text := line + [enter];
    assert text[..|line|] == line;
    var st := FeedAll(Routed([], [], []), line);
    PlainLineTyped(line);
    EnterAfterLine(st, line, enter);
    assert FeedAll(Routed([], [], []), text) == Feed(st, enter);
  }

  /** The Enter that ends a line typed key by key. */
  lemma EnterAfterLine(st: Routed, line: string, enter: char)
    requires st.buf == line && st.requests == [] && |st.writes| == |line|
    requires forall i :: 0 <= i < |line| ==> st.writes[i] == [line[i]]
    requires IsEnter(enter)
    ensures var r := Feed(st, enter);
      var cmd := SanitizeCmd(line);
      r.buf == [] &&
      |r.writes| == |line| + 1 &&
      (forall i :: 0 <= i < |line| ==> r.writes[i] == [line[i]]) &&
      r.writes[|line|] == (if IsLogCommand(cmd) then LineKill else [enter]) &&
      r.requests == (if IsLogCommand(cmd) then [LogCount(cmd)] else [])
  {
    FeedOutputs(st, enter);
  }

  /** Ordinary characters on an empty buffer are echoed one by one and collect
      in the buffer. */
  lemma PlainLineTyped(line: string)
    requires PlainKeys(line)
    ensures var st := FeedAll(Routed([], [], []), line);
      st.buf == line && st.requests == [] && |st.writes| == |line| &&
      forall i :: 0 <= i < |line| ==> st.writes[i] == [line[i]]
  {
    BufferIsLine([], line);
    assert !HasEnter(line);
    EditPlain([], line);
    assert [] + line == line;
    WritesPerChar([], line);
    NoRequestsWithoutEnter([], line);
  }

  /** Without an Enter nothing is intercepted, whatever the buffer holds. */
  lemma {:induction false} NoRequestsWithoutEnter(buf: string, s: string)
    requires forall i :: 0 <= i < |s| ==> !IsEnter(s[i])
    ensures FeedAll(Routed(buf, [], []), s).requests == []
    decreases |s|
  {
    if s != [] {
      NoRequestsWithoutEnter(buf, s[..|s| - 1]);
    }
  }

  /** Writes of one character each spell out those characters. */
  lemma {:induction false} ConcatSingles(ws: seq<string>, text: string)
    requires |ws| == |text|
    requires forall i :: 0 <= i < |ws| ==> ws[i] == [text[i]]
    ensures Concat(ws) == text
    decreases |ws|
  {
    if ws != [] {
      var n := |ws| - 1;
      ConcatSingles(ws[..n], text[..n]);
      assert text[..n] + [text[n]] == text;
    }
  }

  /** One write per character of `line`, then one of `c`, spell out `line + [c]`. */
  lemma SinglesThenLast(ws: seq<string>, line: string, c: char)
    requires |ws| == |line| + 1 && ws[|line|] == [c]
    requires forall i :: 0 <= i < |line| ==> ws[i] == [line[i]]
    ensures Concat(ws) == line + [c]
  {
    var text := line + [c];
    forall i | 0 <= i < |ws|
      ensures ws[i] == [text[i]]
    {
      if i < |line| {
        assert text[i] == line[i];
      }
    }
    ConcatSingles(ws, text);
  }

  lemma BracketedPastePlain(w: string)
    requires PlainKeys(w)
    ensures PlainKeys(BracketedPaste(w))
  {
    var line := BracketedPaste(w);
    var open, close := [Esc] + "[200~", [Esc] + "[201~";
    assert line == open + w + close;
    forall i | 0 <= i < |line|
      ensures !IsEnter(line[i]) && !IsBackspace(line[i])
    {
      if i < |open| {
        assert line[i] == open[i];
      } else if i < |open| + |w| {
        assert line[i] == w[i - |open|];
      } else {
        assert line[i] == close[i - |open| - |w|];
      }
    }
  }

  lemma BracketedPasteNotLogCommand(w: string)
    requires AllKept(w)
    ensures !IsLogCommand(SanitizeCmd(BracketedPaste(w)))
  {
    BracketedPasteSanitized(w);
    var cmd := SanitizeCmd(BracketedPaste(w));
    assert cmd[0] == '[';
    IsLogCommandIff(cmd);
  }

  /** A typed line that is not a log command reaches the shell unchanged, Enter included. */
  lemma ForwardedLine(line: string, enter: char)
    requires PlainKeys(line) && IsEnter(enter)
    requires !IsLogCommand(SanitizeCmd(line))
    ensures var r := FeedAll(Routed([], [], []), line + [enter]);
      r.requests == [] && Concat(r.writes) == line + [enter]
  {
    var r := FeedAll(Routed([], [], []), line + [enter]);
    TypedLine(line, enter);
    SinglesThenLast(r.writes, line, enter);
  }

  /** A command pasted in bracketed-paste mode is never intercepted: its
      sanitised form starts with `[200~`, so the Enter goes to the shell. */
  lemma BracketedPasteForwarded(w: string, enter: char)
    requires AllKept(w) && PlainKeys(w) && IsEnter(enter)
    ensures var r := FeedAll(Routed([], [], []), BracketedPaste(w) + [enter]);
      r.requests == [] && Concat(r.writes) == BracketedPaste(w) + [enter]
  {
    BracketedPastePlain(w);
    BracketedPasteNotLogCommand(w);
    ForwardedLine(BracketedPaste(w), enter);
  }
}
