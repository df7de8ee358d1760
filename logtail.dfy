/**
  The log-tail reply: how records of the day's action log are rendered
  (`_log_tail_lines`), how many records the terminal `logs N` command and the
  `/api/log_tail?n=` route ask for, and how the terminal reply is framed.
  Reading the file and decoding JSON are not modelled: the file is given as
  its lines, each one already decoded into the fields the tail shows.
 */
module LogTail {
  import opened Wrappers
  import opened PyText

  // ----------------------------------------------------------------------
  // Records
  // ----------------------------------------------------------------------

  /** The JSON scalars a record field can hold. */
  datatype JsonVal = JNull | JBool(b: bool) | JInt(i: int) | JStr(s: string)

  /** The fields of a record the tail shows; `None` is a key the object lacks. */
  datatype Record = Record(
    ts: Option<JsonVal>,
    event: Option<JsonVal>,
    bench: Option<JsonVal>,
    rail: Option<JsonVal>,
    state: Option<JsonVal>)

  /** One line of the log file: a JSON object, or text that did not decode to one
      (which the tail shows verbatim). */
  datatype LogLine = Object(rec: Record) | Raw(text: string)

  /** `j.get(key, "")`. */
  function Get(field: Option<JsonVal>): JsonVal {
    field.GetOr(JStr(""))
  }

  /** `f"{v}"` for a decoded JSON scalar. */
  function Render(v: JsonVal): string {
    match v
    case JNull => "None"
    case JBool(b) => if b then "True" else "False"
    case JInt(i) => IntToString(i)
    case JStr(s) => s
  }

  /** Python truthiness of a decoded JSON scalar. */
  predicate Truthy(v: JsonVal) {
    match v
    case JNull => false
    case JBool(b) => b
    case JInt(i) => i != 0
    case JStr(s) => s != []
  }

  const Gap: string := "  "

  /** The per-record line: `ts  event`, then `  bench` and `  rail` when truthy,
      then `  ON`/`  OFF` unless the state is the empty string. */
  function FormatRecord(r: Record): string {
    var bench, rail, state := Get(r.bench), Get(r.rail), Get(r.state);
    Render(Get(r.ts)) + Gap + Render(Get(r.event))
    + (if Truthy(bench) then Gap + Render(bench) else [])
    + (if Truthy(rail) then Gap + Render(rail) else [])
    + (if state != JStr("") then Gap + (if Truthy(state) then "ON" else "OFF") else [])
  }

  function FormatLine(line: LogLine): string {
    match line
    case Object(r) => FormatRecord(r)
    case Raw(text) => text
  }

  /** The fields a record line shows, in order. */
  function Shown(r: Record): (parts: seq<string>)
    ensures |parts| >= 2
    ensures parts[0] == Render(Get(r.ts)) && parts[1] == Render(Get(r.event))
  {
    var bench, rail, state := Get(r.bench), Get(r.rail), Get(r.state);
    [Render(Get(r.ts)), Render(Get(r.event))]
    + (if Truthy(bench) then [Render(bench)] else [])
    + (if Truthy(rail) then [Render(rail)] else [])
    + (if state != JStr("") then [if Truthy(state) then "ON" else "OFF"] else [])
  }

  lemma {:induction false} JoinSnoc(sep: string, parts: seq<string>, x: string)
    requires parts != []
    ensures Join(sep, parts + [x]) == Join(sep, parts) + sep + x
  {
    if |parts| == 1 {
      assert parts + [x] == [parts[0], x];
    } else {
      assert (parts + [x])[1..] == parts[1..] + [x];
      JoinSnoc(sep, parts[1..], x);
    }
  }

  /** An optional column: nothing, or one value. */
  function Column(present: bool, x: string): seq<string> {
    if present then [x] else []
  }

  /** The text an optional column adds after the columns before it. */
  function ColumnText(present: bool, x: string): string {
    if present then Gap + x else []
  }

  lemma JoinColumn(parts: seq<string>, present: bool, x: string)
    requires parts != []
    ensures Join(Gap, parts + Column(present, x)) == Join(Gap, parts) + ColumnText(present, x)
  {
    if present {
      JoinSnoc(Gap, parts, x);
    } else {
      assert parts + Column(present, x) == parts;
    }
  }

  /** A record line is exactly its shown fields joined by two spaces. */
  lemma FormatRecordJoinsShown(r: Record)
    ensures FormatRecord(r) == Join(Gap, Shown(r))
  {
    var bench, rail, state := Get(r.bench), Get(r.rail), Get(r.state);
    var p0 := [Render(Get(r.ts)), Render(Get(r.event))];
    assert Join(Gap, p0) == Render(Get(r.ts)) + Gap + Render(Get(r.event));
    var c1 := Column(Truthy(bench), Render(bench));
    var c2 := Column(Truthy(rail), Render(rail));
    var c3 := Column(state != JStr(""), if Truthy(state) then "ON" else "OFF");
    JoinColumn(p0, Truthy(bench), Render(bench));
    JoinColumn(p0 + c1, Truthy(rail), Render(rail));
    JoinColumn(p0 + c1 + c2, state != JStr(""), if Truthy(state) then "ON" else "OFF");
    assert Shown(r) == p0 + c1 + c2 + c3;
  }

  /** The state column: a record whose `state` is anything but the empty string
      ends in `  ON` when that value is truthy and `  OFF` otherwise. */
  lemma FormatRecordState(r: Record)
    ensures Get(r.state) != JStr("") ==>
      EndsWith(FormatRecord(r), Gap + (if Truthy(Get(r.state)) then "ON" else "OFF"))
  {
  }

  // ----------------------------------------------------------------------
  // Selecting and rendering the tail
  // ----------------------------------------------------------------------

  function Min(a: int, b: int): int {
    if a <= b then a else b
  }

  /** `lines[-n:]`: a suffix of `lines`; the last `n` of them for positive `n`,
      all of them for `n == 0`, all but the first `-n` for negative `n`. */
  function PyTail<T>(lines: seq<T>, n: int): (r: seq<T>)
    ensures |r| <= |lines| && r == lines[|lines| - |r|..]
    ensures n > 0 ==> |r| == Min(n, |lines|)
    ensures n == 0 ==> r == lines
    ensures n < 0 ==> |r| == if -n >= |lines| then 0 else |lines| + n
  {
    if n > 0 then
      if n >= |lines| then lines else lines[|lines| - n..]
    else if n == 0 then lines
    else if -n >= |lines| then []
    else lines[-n..]
  }

  /** The placeholder for a day without a log file. */
  const NoLogs: string := "[no logs for today]"

  /** The placeholder for an empty selection. */
  const Empty: string := "[log file empty]"

  /** What `_log_tail_lines(n)` returns for today's file (`None` when there is
      none), each line already decoded. */
  function LogTailLines(file: Option<seq<LogLine>>, n: int): (out: seq<string>)
    ensures out != []
    ensures file.None? ==> out == [NoLogs]
    ensures file.Some? && PyTail(file.value, n) == [] ==> out == [Empty]
  {
    match file
    case None => [NoLogs]
    case Some(lines) =>
      var tail := PyTail(lines, n);
      if tail == [] then [Empty]
      else seq(|tail|, i requires 0 <= i < |tail| => FormatLine(tail[i]))
  }

  /** The loop of `_log_tail_lines`: format the selected lines one by one. */
  method RenderTail(file: Option<seq<LogLine>>, n: int) returns (out: seq<string>)
    ensures out == LogTailLines(file, n)
  {
    if file.None? {
      return [NoLogs];
    }
    var tail := PyTail(file.value, n);
    out := [];
    var i := 0;
    while i < |tail|
      invariant 0 <= i <= |tail|
      invariant |out| == i
      invariant forall k :: 0 <= k < i ==> out[k] == FormatLine(tail[k])
    {
      out := out + [FormatLine(tail[i])];
      i := i + 1;
    }
    if out == [] {
      out := [Empty];
    } else {
      assert out == seq(|tail|, k requires 0 <= k < |tail| => FormatLine(tail[k]));
    }
  }

  /** For a positive count, the reply shows the last `min(n, len)` lines of the
      file, oldest first, or one placeholder when there is nothing to show. */
  lemma LogTailShape(lines: seq<LogLine>, n: int)
    requires n > 0
    ensures lines == [] ==> LogTailLines(Some(lines), n) == [Empty]
    ensures lines != [] ==>
      var out := LogTailLines(Some(lines), n);
      |out| == Min(n, |lines|) &&
      forall i :: 0 <= i < |out| ==> out[i] == FormatLine(lines[|lines| - |out| + i])
  {
  }

  // ----------------------------------------------------------------------
  // How many lines are asked for
  // ----------------------------------------------------------------------

  /** `max(lo, min(hi, v))`. */
  function Clamp(v: int, lo: int, hi: int): int {
    if v > hi then (if hi < lo then lo else hi) else if v < lo then lo else v
  }

  /** The count in `_emit_logs`: the second whitespace token as an integer,
      clamped to [1, 500]; 50 when there is no second token or it does not parse. */
  function LogCount(cmd: string): (n: int)
    ensures 1 <= n <= 500
  {
    var parts := Split(cmd);
    if |parts| > 1 then
      match ParseInt(parts[1])
      case Some(v) => Clamp(v, 1, 500)
      case None => 50
    else 50
  }

  /** Two words separated by one space split into those two words. */
  lemma SplitTwo(w1: string, w2: string)
    requires w1 != [] && NoSpace(w1) && w2 != [] && NoSpace(w2)
    ensures Split(w1 + " " + w2) == [w1, w2]
  {
    var rest := " " + w2;
    assert w1 + " " + w2 == w1 + rest;
    SplitCons(w1, rest);
    assert rest[1..] == w2;
    assert Split(rest) == Split(w2);
    SplitCons(w2, []);
    assert w2 + [] == w2;
  }

  /** `logs K` asks for `K` clamped to [1, 500]. */
  lemma LogCountOf(word: string, k: int)
    requires word != [] && NoSpace(word)
    ensures LogCount(word + " " + IntToString(k)) == Clamp(k, 1, 500)
  {
    IntToStringWord(k);
    SplitTwo(word, IntToString(k));
    ParseIntToString(k);
  }

  /** `str(k)` is a single token. */
  lemma IntToStringWord(k: int)
    ensures IntToString(k) != [] && NoSpace(IntToString(k))
  {
    var digits := NatToString(if k < 0 then -k else k);
    var s := IntToString(k);
    forall i | 0 <= i < |s|
      ensures !IsSpace(s[i])
    {
      if k < 0 && i > 0 {
        assert s[i] == digits[i - 1];
      }
    }
  }

  /** A bare command word asks for the default 50. */
  lemma LogCountDefault(word: string)
    requires word != [] && NoSpace(word)
    ensures LogCount(word) == 50
  {
    SplitCons(word, []);
    assert word + [] == word;
  }

  /** The count of `/api/log_tail`: `?n=` (default `"200"`) as an integer clamped
      to [1, 2000], or 200 when it does not parse. */
  function ApiLogTailCount(arg: Option<string>): (n: int)
    ensures 1 <= n <= 2000
  {
    match ParseInt(arg.GetOr(IntToString(200)))
    case Some(v) => Clamp(v, 1, 2000)
    case None => 200
  }

  lemma ApiLogTailCountOf(k: int)
    ensures ApiLogTailCount(Some(IntToString(k))) == Clamp(k, 1, 2000)
  {
    ParseIntToString(k);
  }

  lemma ApiLogTailCountDefault()
    ensures ApiLogTailCount(None) == 200
  {
    ParseIntToString(200);
  }

  // ----------------------------------------------------------------------
  // Framing the terminal reply
  // ----------------------------------------------------------------------

  const CrLf: string := "\r\n"

  /** The `term_out` text of a log-tail reply. */
  function Frame(lines: seq<string>): (f: string)
    ensures |f| >= 4
    ensures f[..2] == CrLf && f[|f| - 2..] == CrLf
  {
    CrLf + Join(CrLf, lines) + CrLf
  }

  predicate NoCr(s: string) {
    forall i :: 0 <= i < |s| ==> s[i] != '\r'
  }

  /** How a reader of the terminal stream cuts text at each CRLF. */
  function SplitCrLf(s: string): (r: seq<string>)
    ensures |r| >= 1
    decreases |s|
  {
    if s == [] then [[]]
    else if |s| >= 2 && s[0] == '\r' && s[1] == '\n' then [[]] + SplitCrLf(s[2..])
    else
      var t := SplitCrLf(s[1..]);
      [[s[0]] + t[0]] + t[1..]
  }

  /** The lines between the leading and the trailing CRLF of a framed reply. */
  function Unframe(f: string): seq<string>
    requires |f| >= 4
  {
    SplitCrLf(f[2..|f| - 2])
  }

  lemma {:induction false} SplitCrLfLine(x: string, rest: string)
    requires NoCr(x)
    ensures SplitCrLf(x + CrLf + rest) == [x] + SplitCrLf(rest)
  {
    if x == [] {
      assert x + CrLf + rest == CrLf + rest;
      assert (CrLf + rest)[2..] == rest;
    } else {
      var s := x + CrLf + rest;
      assert s[0] == x[0] && s[0] != '\r';
      assert s[1..] == x[1..] + CrLf + rest;
      SplitCrLfLine(x[1..], rest);
      assert [x[0]] + x[1..] == x;
    }
  }

  lemma {:induction false} SplitCrLfLast(x: string)
    requires NoCr(x)
    ensures SplitCrLf(x) == [x]
  {
    if x != [] {
      SplitCrLfLast(x[1..]);
      assert [x[0]] + x[1..] == x;
    }
  }

  lemma {:induction false} SplitJoin(lines: seq<string>)
    requires lines != []
    requires forall i :: 0 <= i < |lines| ==> NoCr(lines[i])
    ensures SplitCrLf(Join(CrLf, lines)) == lines
  {
    if |lines| == 1 {
      SplitCrLfLast(lines[0]);
    } else {
      SplitJoin(lines[1..]);
      SplitCrLfLine(lines[0], Join(CrLf, lines[1..]));
      assert [lines[0]] + lines[1..] == lines;
    }
  }

  /** Framing loses nothing: a reader that drops the outer CRLFs and cuts at each
      CRLF gets the reply lines back, as long as no line holds a carriage return. */
  lemma FrameRoundTrip(lines: seq<string>)
    requires lines != []
    requires forall i :: 0 <= i < |lines| ==> NoCr(lines[i])
    ensures Unframe(Frame(lines)) == lines
  {
    var f := Frame(lines);
    assert f[2..|f| - 2] == Join(CrLf, lines);
    SplitJoin(lines);
  }
}
