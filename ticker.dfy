/**
  The one-line status text the display scrolls: one `B<n>:ON`/`B<n>:OFF`
  field per bench, then the four VBUS enables as bits and the data gates of
  ports 3 and 4. The text is read back here token by token to show that it
  carries exactly those flags.
 */
module Ticker {
  import opened Wrappers
  import opened PyText
  import opened Channels

  /** `b_on`: a bench counts as ON when its HV, 12V and 5V rails all read ON. */
  predicate BenchOn(m: map<Channel, bool>, b: nat) {
    Lookup(m, Rail(b, HV)) && Lookup(m, Rail(b, V12)) && Lookup(m, Rail(b, V5))
  }

  /** `int(flag)` as a digit. */
  function Bit(x: bool): char {
    if x then '1' else '0'
  }

  function OnOff(x: bool): string {
    if x then "ON" else "OFF"
  }

  /** `B<n>:ON` or `B<n>:OFF`. */
  function BenchField(m: map<Channel, bool>, n: nat): string
    requires 1 <= n <= 4
  {
    "B" + [DigitChar(n)] + ":" + OnOff(BenchOn(m, n))
  }

  /** The VBUS bits of ports 1 to 4, in order. */
  function VbusBits(m: map<Channel, bool>): string {
    [Bit(Lookup(m, Vbus(1))), Bit(Lookup(m, Vbus(2))), Bit(Lookup(m, Vbus(3))), Bit(Lookup(m, Vbus(4)))]
  }

  /** The USB half of the ticker: `USB VBUS[<bits>] DATA3:<bit> DATA4:<bit>`. */
  function UsbField(m: map<Channel, bool>): string {
    "USB" + " " + ("VBUS[" + VbusBits(m) + "]") + " " + ("DATA3:" + [Bit(Lookup(m, DataGate(3)))])
    + " " + ("DATA4:" + [Bit(Lookup(m, DataGate(4)))])
  }

  /** `_bench_state_summary`: the bench fields joined by single spaces, a
      `  |  ` separator, then the USB field. */
  function Summary(m: map<Channel, bool>): string {
    Join(" ", [BenchField(m, 1), BenchField(m, 2), BenchField(m, 3), BenchField(m, 4)])
    + "  |  " + UsbField(m)
  }

  /** After `bench_enable_power` the bench shows ON; after `bench_kill_power`
      it shows OFF; the other benches show what they showed before. */
  lemma BenchPowerShows(m: map<Channel, bool>, b: nat, on: bool, other: nat)
    requires 1 <= b <= 4 && other != b
    ensures BenchOn(Assign(m, BenchRails(b), on), b) == on
    ensures BenchOn(Assign(m, BenchRails(b), on), other) == BenchOn(m, other)
  {
    AssignReads(m, BenchRails(b), on, Rail(b, HV));
    AssignReads(m, BenchRails(b), on, Rail(b, V12));
    AssignReads(m, BenchRails(b), on, Rail(b, V5));
    AssignReads(m, BenchRails(b), on, Rail(other, HV));
    AssignReads(m, BenchRails(b), on, Rail(other, V12));
    AssignReads(m, BenchRails(b), on, Rail(other, V5));
  }

  // ----------------------------------------------------------------------
  // Reading the ticker back
  // ----------------------------------------------------------------------

  /** What the ticker shows: bench ON flags and VBUS enables for 1 to 4, and
      the data gates of ports 3 and 4. */
  datatype View = View(benches: seq<bool>, vbus: seq<bool>, data3: bool, data4: bool)

  /** The flags the ticker is meant to show for a state. */
  function ViewOf(m: map<Channel, bool>): View {
    View([BenchOn(m, 1), BenchOn(m, 2), BenchOn(m, 3), BenchOn(m, 4)],
         [Lookup(m, Vbus(1)), Lookup(m, Vbus(2)), Lookup(m, Vbus(3)), Lookup(m, Vbus(4))],
         Lookup(m, DataGate(3)), Lookup(m, DataGate(4)))
  }

  function ReadBit(c: char): Option<bool> {
    if c == '1' then Some(true) else if c == '0' then Some(false) else None
  }

  /** A token `<tag>ON` or `<tag>OFF`. */
  function ReadOnOff(w: string, tag: string): Option<bool> {
    if w == tag + "ON" then Some(true)
    else if w == tag + "OFF" then Some(false)
    else None
  }

  /** A token `<tag>` followed by one bit. */
  function ReadLabelledBit(w: string, tag: string): Option<bool> {
    if |w| == |tag| + 1 && w[..|tag|] == tag then ReadBit(w[|tag|]) else None
  }

  /** The `VBUS[....]` token. */
  function ReadVbus(w: string): Option<seq<bool>> {
    if |w| == 10 && w[..5] == "VBUS[" && w[9] == ']'
       && ReadBit(w[5]).Some? && ReadBit(w[6]).Some? && ReadBit(w[7]).Some? && ReadBit(w[8]).Some?
    then Some([ReadBit(w[5]).value, ReadBit(w[6]).value, ReadBit(w[7]).value, ReadBit(w[8]).value])
    else None
  }

  /** Reads the whitespace-separated tokens of a ticker line back into flags;
      `None` for a line of any other shape. */
  function ReadTicker(ws: seq<string>): Option<View> {
    if |ws| != 9 || ws[4] != "|" || ws[5] != "USB" then None
    else
      var b1, b2, b3, b4 := ReadOnOff(ws[0], "B1:"), ReadOnOff(ws[1], "B2:"),
                            ReadOnOff(ws[2], "B3:"), ReadOnOff(ws[3], "B4:");
      var v, d3, d4 := ReadVbus(ws[6]), ReadLabelledBit(ws[7], "DATA3:"), ReadLabelledBit(ws[8], "DATA4:");
      if b1.None? || b2.None? || b3.None? || b4.None? || v.None? || d3.None? || d4.None? then None
      else Some(View([b1.value, b2.value, b3.value, b4.value], v.value, d3.value, d4.value))
  }

  /** The tokens of the ticker line: the four bench fields, the bar, and the
      USB field's four words. */
  lemma SummaryTokens(m: map<Channel, bool>)
    ensures Split(Summary(m)) ==
      [BenchField(m, 1), BenchField(m, 2), BenchField(m, 3), BenchField(m, 4), "|"] + UsbTokens(m)
  {
    BenchFieldWord(m, 1);
    BenchFieldWord(m, 2);
    BenchFieldWord(m, 3);
    BenchFieldWord(m, 4);
    SplitUsb(m);
    SplitHalves(BenchField(m, 1), BenchField(m, 2), BenchField(m, 3), BenchField(m, 4), UsbField(m));
  }

  /** Four words joined by spaces, the bar, then any text: the words, the bar
      token, then the text's own tokens. */
  lemma SplitHalves(a: string, b: string, c: string, d: string, u: string)
    requires a != [] && NoSpace(a) && b != [] && NoSpace(b)
    requires c != [] && NoSpace(c) && d != [] && NoSpace(d)
    ensures Split(Join(" ", [a, b, c, d]) + "  |  " + u) == [a, b, c, d, "|"] + Split(u)
  {
    var fields := [a, b, c, d];
    var bar := "  |  " + u;
    SplitBar(u);
    SplitJoin(fields, bar);
    Assoc(Join(" ", fields), "  |  ", u);
    assert fields + (["|"] + Split(u)) == [a, b, c, d, "|"] + Split(u);
  }

  /** The four words of the USB field. */
  function UsbTokens(m: map<Channel, bool>): seq<string> {
    ["USB", "VBUS[" + VbusBits(m) + "]", "DATA3:" + [Bit(Lookup(m, DataGate(3)))],
     "DATA4:" + [Bit(Lookup(m, DataGate(4)))]]
  }

  lemma SplitUsb(m: map<Channel, bool>)
    ensures Split(UsbField(m)) == UsbTokens(m)
  {
    var usb := UsbTokens(m);
    UsbWords(m);
    JoinFour(usb[0], usb[1], usb[2], usb[3]);
    assert UsbField(m) == Join(" ", usb) + [];
    SplitJoin(usb, []);
  }

  /** The words of the USB field hold no whitespace. */
  lemma UsbWords(m: map<Channel, bool>)
    ensures NoSpace("VBUS[" + VbusBits(m) + "]")
    ensures NoSpace("DATA3:" + [Bit(Lookup(m, DataGate(3)))])
    ensures NoSpace("DATA4:" + [Bit(Lookup(m, DataGate(4)))])
  {
  }

  lemma JoinFour(a: string, b: string, c: string, d: string)
    ensures Join(" ", [a, b, c, d]) == a + " " + b + " " + c + " " + d
  {
    calc {
      Join(" ", [a, b, c, d]);
      { assert [a, b, c, d][1..] == [b, c, d]; }
      a + " " + Join(" ", [b, c, d]);
      { assert [b, c, d][1..] == [c, d]; }
      a + " " + (b + " " + Join(" ", [c, d]));
      { assert [c, d][1..] == [d]; }
      a + " " + (b + " " + (c + " " + d));
      a + " " + b + " " + c + " " + d;
    }
  }

  /** The bar between the halves is one token of its own. */
  lemma SplitBar(u: string)
    ensures Split("  |  " + u) == ["|"] + Split(u)
  {
    assert "  |  " + u == " " + (" " + ("|" + (" " + (" " + u))));
    SplitSpace(" " + ("|" + (" " + (" " + u))));
    SplitSpace("|" + (" " + (" " + u)));
    SplitCons("|", " " + (" " + u));
    SplitSpace(" " + u);
    SplitSpace(u);
  }

  /** The ticker reads back as the flags of the state it was made from. */
  lemma TickerRoundTrip(m: map<Channel, bool>)
    ensures ReadTicker(Split(Summary(m))) == Some(ViewOf(m))
  {
    SummaryTokens(m);
    ReadBenchField(m, 1);
    ReadBenchField(m, 2);
    ReadBenchField(m, 3);
    ReadBenchField(m, 4);
    assert "B" + [DigitChar(1)] + ":" == "B1:" && "B" + [DigitChar(2)] + ":" == "B2:";
    assert "B" + [DigitChar(3)] + ":" == "B3:" && "B" + [DigitChar(4)] + ":" == "B4:";
    ReadUsbTokens(m);
    ReadTokens(BenchField(m, 1), BenchField(m, 2), BenchField(m, 3), BenchField(m, 4),
               UsbTokens(m), ViewOf(m));
  }

  /** `ReadTicker` on a line of the right shape whose tokens each read back. */
  lemma ReadTokens(a: string, b: string, c: string, d: string, u: seq<string>, v: View)
    requires |u| == 4 && u[0] == "USB" && |v.benches| == 4
    requires ReadOnOff(a, "B1:") == Some(v.benches[0]) && ReadOnOff(b, "B2:") == Some(v.benches[1])
    requires ReadOnOff(c, "B3:") == Some(v.benches[2]) && ReadOnOff(d, "B4:") == Some(v.benches[3])
    requires ReadVbus(u[1]) == Some(v.vbus)
    requires ReadLabelledBit(u[2], "DATA3:") == Some(v.data3)
    requires ReadLabelledBit(u[3], "DATA4:") == Some(v.data4)
    ensures ReadTicker([a, b, c, d, "|"] + u) == Some(v)
  {
    var ws := [a, b, c, d, "|"] + u;
    assert ws[4] == "|" && ws[5] == "USB";
    assert [v.benches[0], v.benches[1], v.benches[2], v.benches[3]] == v.benches;
  }

  /** A bench field reads back as the bench's ON flag. */
  lemma ReadBenchField(m: map<Channel, bool>, n: nat)
    requires 1 <= n <= 4
    ensures ReadOnOff(BenchField(m, n), "B" + [DigitChar(n)] + ":") == Some(BenchOn(m, n))
  {
    var tag := "B" + [DigitChar(n)] + ":";
    if !BenchOn(m, n) {
      assert (tag + "ON") != (tag + "OFF") by {
        assert |tag + "ON"| != |tag + "OFF"|;
      }
    }
  }

  /** The USB words read back as the VBUS enables and the data gates. */
  lemma ReadUsbTokens(m: map<Channel, bool>)
    ensures ReadVbus(UsbTokens(m)[1]) == Some(ViewOf(m).vbus)
    ensures ReadLabelledBit(UsbTokens(m)[2], "DATA3:") == Some(Lookup(m, DataGate(3)))
    ensures ReadLabelledBit(UsbTokens(m)[3], "DATA4:") == Some(Lookup(m, DataGate(4)))
  {
    var vb := "VBUS[" + VbusBits(m) + "]";
    assert vb[..5] == "VBUS[" && vb[5..9] == VbusBits(m);
    assert ("DATA3:" + [Bit(Lookup(m, DataGate(3)))])[..6] == "DATA3:";
    assert ("DATA4:" + [Bit(Lookup(m, DataGate(4)))])[..6] == "DATA4:";
  }

  /** A bench field is one word. */
  lemma BenchFieldWord(m: map<Channel, bool>, n: nat)
    requires 1 <= n <= 4
    ensures BenchField(m, n) != [] && NoSpace(BenchField(m, n))
  {
  }

  /** Leading whitespace does not change the tokens. */
  lemma SplitSpace(s: string)
    ensures Split(" " + s) == Split(s)
  {
    assert (" " + s)[1..] == s;
  }

  /** Words joined by single spaces, followed by whitespace or nothing, split
      back into the same words. */
  lemma {:induction false} SplitJoin(ws: seq<string>, rest: string)
    requires forall k :: 0 <= k < |ws| ==> ws[k] != [] && NoSpace(ws[k])
    requires rest == [] || IsSpace(rest[0])
    ensures Split(Join(" ", ws) + rest) == ws + Split(rest)
    decreases |ws|
  {
    if |ws| == 0 {
      assert Join(" ", ws) + rest == rest;
    } else if |ws| == 1 {
      SplitCons(ws[0], rest);
    } else {
      var tail := Join(" ", ws[1..]) + rest;
      calc {
        Split(Join(" ", ws) + rest);
        { assert Join(" ", ws) + rest == ws[0] + (" " + tail); }
        Split(ws[0] + (" " + tail));
        { SplitCons(ws[0], " " + tail); }
        [ws[0]] + Split(" " + tail);
        { SplitSpace(tail); }
        [ws[0]] + Split(tail);
        { SplitJoin(ws[1..], rest); }
        [ws[0]] + (ws[1..] + Split(rest));
        { assert ws == [ws[0]] + ws[1..]; }
        ws + Split(rest);
      }
    }
  }
}
