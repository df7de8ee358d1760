/**
  The daily action logs `bench_actions_YYYY-MM-DD.jsonl`: the name a day's
  log is written under, the date read back from a file name the way
  `datetime.strptime(…, "%Y-%m-%d")` reads it, and the purge that deletes
  the logs of days strictly before a cutoff day.
 */
module LogFiles {
  import opened Wrappers
  import opened PyText

  // ----------------------------------------------------------------------
  // Proleptic Gregorian dates
  // ----------------------------------------------------------------------

  datatype Date = Date(year: int, month: int, day: int)

  predicate IsLeap(y: int) {
    y % 4 == 0 && (y % 100 != 0 || y % 400 == 0)
  }

  function DaysInMonth(y: int, m: int): int
    requires 1 <= m <= 12
  {
    if m == 2 then (if IsLeap(y) then 29 else 28)
    else if m == 4 || m == 6 || m == 9 || m == 11 then 30
    else 31
  }

  /** A date `datetime` can represent: years 1 to 9999. */
  predicate ValidDate(d: Date) {
    1 <= d.year <= 9999 && 1 <= d.month <= 12 && 1 <= d.day <= DaysInMonth(d.year, d.month)
  }

  /** The order of `datetime` values at midnight: by year, then month, then day. */
  predicate Before(a: Date, b: Date) {
    a.year < b.year || (a.year == b.year && (a.month < b.month || (a.month == b.month && a.day < b.day)))
  }

  lemma BeforeOrder(a: Date, b: Date, c: Date)
    ensures !Before(a, a)
    ensures Before(a, b) && Before(b, c) ==> Before(a, c)
    ensures Before(a, b) || a == b || Before(b, a)
  {
  }

  // ----------------------------------------------------------------------
  // Writing a day's file name
  // ----------------------------------------------------------------------

  function Pad2(n: nat): (s: string)
    requires n < 100
    ensures |s| == 2 && IsDigit(s[0]) && IsDigit(s[1])
  {
    [DigitChar(n / 10), DigitChar(n % 10)]
  }

  function Pad4(n: nat): (s: string)
    requires n < 10000
    ensures |s| == 4 && forall i :: 0 <= i < 4 ==> IsDigit(s[i])
  {
    [DigitChar(n / 1000), DigitChar(n / 100 % 10), DigitChar(n / 10 % 10), DigitChar(n % 10)]
  }

  /** `date.isoformat()`: `YYYY-MM-DD`, zero-padded. */
  function IsoDate(d: Date): (s: string)
    requires ValidDate(d)
    ensures |s| == 10
  {
    Pad4(d.year) + "-" + Pad2(d.month) + "-" + Pad2(d.day)
  }

  const Prefix: string := "bench_actions_"
  const Suffix: string := ".jsonl"

  /** The name `_log_path_for_today` gives the log of day `d`. */
  function LogFileName(d: Date): string
    requires ValidDate(d)
  {
    Prefix + IsoDate(d) + Suffix
  }

  // ----------------------------------------------------------------------
  // Reading a date back: strptime with "%Y-%m-%d"
  // ----------------------------------------------------------------------

  /** One directive's match: the number read and the characters it took. */
  datatype Field = Field(value: nat, len: nat)

  /** `%Y`: exactly four ASCII digits. */
  function MatchYear(s: string): Option<nat> {
    if |s| >= 4 && IsDigit(s[0]) && IsDigit(s[1]) && IsDigit(s[2]) && IsDigit(s[3])
    then Some(DigitValue(s[0]) * 1000 + DigitValue(s[1]) * 100 + DigitValue(s[2]) * 10 + DigitValue(s[3]))
    else None
  }

  /** The alternatives of `%m`, `1[0-2]|0[1-9]|[1-9]`, that match at the start
      of `s`, in the order the regular expression tries them. */
  function MonthAlternatives(s: string): (alts: seq<Field>)
    ensures forall k :: 0 <= k < |alts| ==> 1 <= alts[k].value <= 12 && 1 <= alts[k].len <= |s|
    ensures forall k :: 0 <= k < |alts| ==> alts[k].len <= 2
  {
    (if |s| >= 2 && s[0] == '1' && '0' <= s[1] <= '2' then [Field(10 + DigitValue(s[1]), 2)] else [])
    + (if |s| >= 2 && s[0] == '0' && '1' <= s[1] <= '9' then [Field(DigitValue(s[1]), 2)] else [])
    + (if |s| >= 1 && '1' <= s[0] <= '9' then [Field(DigitValue(s[0]), 1)] else [])
  }

  /** The alternatives of `%d`, `3[01]|[12]\d|0[1-9]|[1-9]| [1-9]`, that match
      at the start of `s`, in the order the regular expression tries them. */
  function DayAlternatives(s: string): (alts: seq<Field>)
    ensures forall k :: 0 <= k < |alts| ==> 1 <= alts[k].value <= 31 && 1 <= alts[k].len <= |s|
    ensures forall k :: 0 <= k < |alts| ==> alts[k].len <= 2
  {
    (if |s| >= 2 && s[0] == '3' && '0' <= s[1] <= '1' then [Field(30 + DigitValue(s[1]), 2)] else [])
    + (if |s| >= 2 && '1' <= s[0] <= '2' && IsDigit(s[1]) then [Field(DigitValue(s[0]) * 10 + DigitValue(s[1]), 2)] else [])
    + (if |s| >= 2 && s[0] == '0' && '1' <= s[1] <= '9' then [Field(DigitValue(s[1]), 2)] else [])
    + (if |s| >= 1 && '1' <= s[0] <= '9' then [Field(DigitValue(s[0]), 1)] else [])
    + (if |s| >= 2 && s[0] == ' ' && '1' <= s[1] <= '9' then [Field(DigitValue(s[1]), 2)] else [])
  }

  /** Matching `%m-%d` against `s` (what follows `YYYY-`): the first month
      alternative after which a `-` and some day alternative match wins, and
      the day is the first alternative that matches; the pattern ends there. */
  function MatchMonthDay(s: string, alts: seq<Field>): (r: Option<(Field, Field)>)
    requires forall k :: 0 <= k < |alts| ==> 1 <= alts[k].value <= 12 && 1 <= alts[k].len <= |s|
    requires forall k :: 0 <= k < |alts| ==> alts[k].len <= 2
    ensures r.Some? ==> 1 <= r.value.0.value <= 12 && 1 <= r.value.1.value <= 31
    ensures r.Some? ==> 1 <= r.value.0.len <= 2 && 1 <= r.value.1.len <= 2
    ensures r.Some? ==> r.value.0.len + 1 + r.value.1.len <= |s|
    decreases |alts|
  {
    if alts == [] then None
    else
      var m := alts[0];
      if m.len < |s| && s[m.len] == '-' && DayAlternatives(s[m.len + 1..]) != []
      then Some((m, DayAlternatives(s[m.len + 1..])[0]))
      else MatchMonthDay(s, alts[1..])
  }

  /** `datetime.strptime(ds, "%Y-%m-%d")`: the pattern must match at the
      start, the match must cover the whole string ("unconverted data
      remains" otherwise), and the numbers must form a real date. */
  function ParseIsoDate(ds: string): (r: Option<Date>)
    ensures r.Some? ==> ValidDate(r.value)
    ensures r.Some? ==> 8 <= |ds| <= 10
  {
    var y := MatchYear(ds);
    if y.None? || |ds| < 5 || ds[4] != '-' then None
    else
      var rest := ds[5..];
      var md := MatchMonthDay(rest, MonthAlternatives(rest));
      if md.None? then None
      else
        var (m, d) := md.value;
        var date := Date(y.value, m.value, d.value);
        if 5 + m.len + 1 + d.len != |ds| then None
        else if !ValidDate(date) then None
        else Some(date)
  }

  /** The prefix and the suffix cannot overlap: a name with both holds both in full. */
  lemma AffixesApart(name: string)
    requires StartsWith(name, Prefix) && EndsWith(name, Suffix)
    ensures |Prefix| + |Suffix| <= |name|
  {
    var j := |name| - |Suffix|;
    assert name[13] == '_' by {
      assert name[..|Prefix|][13] == Prefix[13];
    }
    forall i | j <= i < |name|
      ensures name[i] != '_'
    {
      assert name[i] == name[j..][i - j] == Suffix[i - j];
    }
  }

  /** `_parse_date_from_filename`: the date between `bench_actions_` and
      `.jsonl`, or `None` for any other name or an unreadable date. */
  function ParseDateFromFilename(name: string): (r: Option<Date>)
    ensures r.Some? ==> ValidDate(r.value)
    ensures r.Some? ==> StartsWith(name, Prefix) && EndsWith(name, Suffix)
  {
    if !StartsWith(name, Prefix) || !EndsWith(name, Suffix) then None
    else
      AffixesApart(name);
      ParseIsoDate(name[|Prefix|..|name| - |Suffix|])
  }

  // ----------------------------------------------------------------------
  // Round trip
  // ----------------------------------------------------------------------

  lemma Pad4Value(n: nat)
    requires n < 10000
    ensures MatchYear(Pad4(n) + "-") == Some(n)
  {
    var s := Pad4(n) + "-";
    assert s[..4] == Pad4(n);
    var q1 := n / 10;
    var q2 := q1 / 10;
    assert q2 == n / 100;
    assert q2 / 10 == n / 1000;
    assert n == q2 / 10 * 1000 + q2 % 10 * 100 + q1 % 10 * 10 + n % 10;
  }

  /** Zero-padded months 01 to 12 match in two characters. */
  lemma MonthOfPad2(m: nat, rest: string)
    requires 1 <= m <= 12
    ensures MonthAlternatives(Pad2(m) + rest) != []
    ensures MonthAlternatives(Pad2(m) + rest)[0] == Field(m, 2)
  {
    var s := Pad2(m) + rest;
    assert s[0] == DigitChar(m / 10) && s[1] == DigitChar(m % 10);
  }

  /** Zero-padded days 01 to 31 match in two characters, whatever follows. */
  lemma DayOfPad2(d: nat, rest: string)
    requires 1 <= d <= 31
    ensures DayAlternatives(Pad2(d) + rest) != []
    ensures DayAlternatives(Pad2(d) + rest)[0] == Field(d, 2)
  {
    var s := Pad2(d) + rest;
    assert s[0] == DigitChar(d / 10) && s[1] == DigitChar(d % 10);
  }

  /** After a four-digit year and its dash, the rest is matched on its own. */
  lemma YearPrefix(y: nat, rest: string)
    requires y < 10000
    ensures var ds := Pad4(y) + "-" + rest;
      MatchYear(ds) == Some(y) && |ds| >= 5 && ds[4] == '-' && ds[5..] == rest
  {
    var ds := Pad4(y) + "-" + rest;
    assert ds[..5] == Pad4(y) + "-";
    Pad4Value(y);
    assert MatchYear(ds) == MatchYear(ds[..5]);
  }

  /** The date a log is written under is the date read back from its name. */
  lemma IsoDateRoundTrip(d: Date)
    requires ValidDate(d)
    ensures ParseIsoDate(IsoDate(d)) == Some(d)
  {
    var ds := IsoDate(d);
    var tail := "-" + Pad2(d.day);
    var rest := Pad2(d.month) + tail;
    assert ds == Pad4(d.year) + "-" + rest;
    assert ds[..5] == Pad4(d.year) + "-";
    Pad4Value(d.year);
    assert MatchYear(ds) == MatchYear(ds[..5]);
    assert ds[5..] == rest;
    MonthOfPad2(d.month, tail);
    DayOfPad2(d.day, []);
    assert Pad2(d.day) + [] == Pad2(d.day);
    assert rest[3..] == Pad2(d.day);
  }

  /** A name made of the prefix, some text and the suffix reads as that text. */
  lemma ParseBetweenAffixes(ds: string)
    ensures ParseDateFromFilename(Prefix + ds + Suffix) == ParseIsoDate(ds)
  {
    var name := Prefix + ds + Suffix;
    assert name[..|Prefix|] == Prefix;
    assert name[|name| - |Suffix|..] == Suffix;
    assert name[|Prefix|..|name| - |Suffix|] == ds;
  }

  lemma FileNameRoundTrip(d: Date)
    requires ValidDate(d)
    ensures ParseDateFromFilename(LogFileName(d)) == Some(d)
  {
    ParseBetweenAffixes(IsoDate(d));
    IsoDateRoundTrip(d);
  }

  /** The reader accepts more than the writer produces: a one-digit month and
      day without their leading zero. */
  lemma UnpaddedAccepted(d: Date)
    requires ValidDate(d) && d.month <= 9 && d.day <= 9
    ensures ParseIsoDate(Pad4(d.year) + "-" + [DigitChar(d.month)] + "-" + [DigitChar(d.day)]) == Some(d)
  {
    var day := [DigitChar(d.day)];
    var rest := [DigitChar(d.month)] + "-" + day;
    assert Pad4(d.year) + "-" + [DigitChar(d.month)] + "-" + day == Pad4(d.year) + "-" + rest;
    YearPrefix(d.year, rest);
    assert MonthAlternatives(rest) == [Field(d.month, 1)];
    assert rest[2..] == day;
    assert DayAlternatives(day) == [Field(d.day, 1)];
  }

  /** A space in place of a one-digit day's leading zero is read too. */
  lemma SpacePaddedDayAccepted(d: Date)
    requires ValidDate(d) && d.day <= 9
    ensures ParseIsoDate(Pad4(d.year) + "-" + Pad2(d.month) + "- " + [DigitChar(d.day)]) == Some(d)
  {
    var day := " " + [DigitChar(d.day)];
    var tail := "-" + day;
    var rest := Pad2(d.month) + tail;
    assert Pad4(d.year) + "-" + Pad2(d.month) + "- " + [DigitChar(d.day)] == Pad4(d.year) + "-" + rest;
    YearPrefix(d.year, rest);
    MonthOfPad2(d.month, tail);
    assert rest[3..] == day;
    assert DayAlternatives(day) == [Field(d.day, 2)];
  }

  /** February 29 is read exactly in leap years. */
  lemma LeapDay(y: nat)
    requires 1 <= y <= 9999
    ensures ParseIsoDate(Pad4(y) + "-02-29") == if IsLeap(y) then Some(Date(y, 2, 29)) else None
  {
    var rest := "02-29";
    YearPrefix(y, rest);
    assert MonthAlternatives(rest) == [Field(2, 2)];
    assert rest[3..] == "29";
    assert DayAlternatives("29") == [Field(29, 2), Field(2, 1)];
  }

  /** The day is the first alternative that matches and the pattern ends
      there, so any text after a written date is left over and rejected. */
  lemma TrailingDataRejected(d: Date, extra: string)
    requires ValidDate(d) && extra != []
    ensures ParseIsoDate(IsoDate(d) + extra) == None
  {
    var tail := "-" + Pad2(d.day) + extra;
    var rest := Pad2(d.month) + tail;
    assert IsoDate(d) + extra == Pad4(d.year) + "-" + rest;
    YearPrefix(d.year, rest);
    MonthOfPad2(d.month, tail);
    assert rest[3..] == Pad2(d.day) + extra;
    DayOfPad2(d.day, extra);
  }

  // ----------------------------------------------------------------------
  // Purging old logs
  // ----------------------------------------------------------------------

  /** A file the purge deletes: its name reads as a day strictly before the cutoff day. */
  predicate Stale(name: string, cutoff: Date) {
    var d := ParseDateFromFilename(name);
    d.Some? && Before(d.value, cutoff)
  }

  /** The names the purge removes, in listing order: the stale ones whose
      removal succeeds. */
  function Expired(names: seq<string>, cutoff: Date, removable: set<string>): seq<string>
    decreases |names|
  {
    if names == [] then []
    else
      var last := names[|names| - 1];
      Expired(names[..|names| - 1], cutoff, removable)
      + (if Stale(last, cutoff) && last in removable then [last] else [])
  }

  /** `purge_old_logs`: walk the directory listing, delete every stale log,
      and count the deletions that succeeded; a failing listing deletes
      nothing and reports 0. `removable` are the names whose `os.remove`
      succeeds. */
  method PurgeOldLogs(listing: Option<seq<string>>, cutoff: Date, removable: set<string>)
    returns (deleted: nat, removed: seq<string>)
    ensures removed == if listing.Some? then Expired(listing.value, cutoff, removable) else []
    ensures deleted == |removed|
  {
    if listing.None? {
      return 0, [];
    }
    var names := listing.value;
    deleted, removed := 0, [];
    for k := 0 to |names|
      invariant removed == Expired(names[..k], cutoff, removable)
      invariant deleted == |removed|
    {
      assert names[..k + 1][..k] == names[..k];
      var d := ParseDateFromFilename(names[k]);
      if d.Some? && Before(d.value, cutoff) && names[k] in removable {
        removed := removed + [names[k]];
        deleted := deleted + 1;
      }
    }
    assert names[..|names|] == names;
  }

  /** The purge removes exactly the listed names that are stale and removable. */
  lemma {:induction false} ExpiredExactly(names: seq<string>, cutoff: Date, removable: set<string>, name: string)
    ensures name in Expired(names, cutoff, removable) <==>
      name in names && Stale(name, cutoff) && name in removable
    decreases |names|
  {
    if names != [] {
      var front := names[..|names| - 1];
      ExpiredExactly(front, cutoff, removable, name);
      assert names == front + [names[|names| - 1]];
    }
  }

  /** A later cutoff deletes everything an earlier one does. */
  lemma ExpiredGrows(names: seq<string>, c1: Date, c2: Date, removable: set<string>)
    requires !Before(c2, c1)
    ensures forall name :: name in Expired(names, c1, removable) ==> name in Expired(names, c2, removable)
  {
    forall name | name in Expired(names, c1, removable)
      ensures name in Expired(names, c2, removable)
    {
      ExpiredExactly(names, c1, removable, name);
      ExpiredExactly(names, c2, removable, name);
      var d := ParseDateFromFilename(name).value;
      BeforeOrder(d, c1, c2);
    }
  }

  /** The log of day `d` is purged exactly when `d` is before the cutoff: the
      cutoff day's own log is kept. */
  lemma LogPurgedIffBefore(d: Date, cutoff: Date)
    requires ValidDate(d)
    ensures Stale(LogFileName(d), cutoff) <==> Before(d, cutoff)
  {
    FileNameRoundTrip(d);
  }
}
