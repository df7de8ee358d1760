/**
  The bench controller's outputs: 32 named channels on two I/O expanders. The
  controller keeps a semantic `state` per channel (a rail, VBUS or data gate
  is `true` when enabled; `lr1`/`lr2` are `true` when switched to REMOTE) and
  drives each channel's pin to the level that encodes that state. Channels
  without a hardware pin are virtual: their state is kept and a warning is
  printed once. Rail and USB-channel changes are logged, changes only.
 */
module Channels {
  import opened Wrappers
  import opened PyText

  // ----------------------------------------------------------------------
  // Channels
  // ----------------------------------------------------------------------

  datatype RailKind = HV | V12 | V5

  /** A channel of the `CHANNELS` table, by what it switches:
      `Rail(b, k)` is `bench<b>_hv`, `bench<b>_12v` or `bench<b>_5v`;
      `DataGate(p)` is `port<p>_en` (the USB data switch's active-low !OE);
      `Vbus(p)` is `port<p>_vcc_en`; `Lr(p)` is `lr<p>`, the local/remote
      select; the rest are the compressor, lights, indicators and spares. */
  datatype Channel =
    | Rail(bench: nat, kind: RailKind)
    | DataGate(port: nat)
    | Vbus(port: nat)
    | Lr(port: nat)
    | AirCompressor
    | Lights
    | Stat(n: nat)
    | StackR | StackA | StackG
    | Ring(n: nat)
    | Spare(n: nat)

  /** Row `j` of the `CHANNELS` table: the 5V rails of benches 1 to 4, their
      12V rails, the data gates of ports 4 and 3, two spares, the VBUS enables
      of ports 3, 4, 2 and 1, the HV rails, the compressor and the lights, the
      two selects, the status, stack and ring indicators, and a last spare. */
  function TableEntry(j: nat): Channel
    requires j < 32
  {
    if j < 4 then Rail(j + 1, V5)
    else if j < 8 then Rail(j - 3, V12)
    else if j < 10 then DataGate(12 - j)
    else if j < 12 then Spare(j - 9)
    else if j == 12 then Vbus(3)
    else if j == 13 then Vbus(4)
    else if j == 14 then Vbus(2)
    else if j == 15 then Vbus(1)
    else if j < 20 then Rail(j - 15, HV)
    else if j == 20 then AirCompressor
    else if j == 21 then Lights
    else if j < 24 then Lr(j - 21)
    else if j < 26 then Stat(j - 23)
    else if j == 26 then StackR
    else if j == 27 then StackA
    else if j == 28 then StackG
    else if j < 31 then Ring(j - 28)
    else Spare(3)
  }

  /** The keys of `CHANNELS`, in the table's order. */
  function AllChannels(): (table: seq<Channel>)
    ensures |table| == 32
  {
    seq(32, j requires 0 <= j < 32 => TableEntry(j))
  }

  /** A channel of the table, by its shape: the index `TableIndex` finds it at
      and `TableListed` together say this is membership in `AllChannels`. */
  predicate TableChannel(ch: Channel) {
    match ch
    case Rail(b, _) => 1 <= b <= 4
    case DataGate(p) => p == 3 || p == 4
    case Vbus(p) => 1 <= p <= 4
    case Lr(p) => p == 1 || p == 2
    case Stat(n) => n == 1 || n == 2
    case Ring(n) => n == 1 || n == 2
    case Spare(n) => 1 <= n <= 3
    case _ => true
  }

  /** Where a channel of the table sits in `AllChannels`. */
  function TableIndex(ch: Channel): (j: nat)
    requires TableChannel(ch)
    ensures j < |AllChannels()| && AllChannels()[j] == ch
  {
    match ch
    case Rail(b, k) =>
      (if k == V5 then 0 else if k == V12 then 4 else 16) +
      (if b == 1 then 0 else if b == 2 then 1 else if b == 3 then 2 else 3)
    case DataGate(p) => (if p == 3 then 9 else 8)
    case Vbus(p) => (if p == 3 then 12 else if p == 4 then 13 else if p == 2 then 14 else 15)
    case Spare(n) => (if n == 3 then 31 else n + 9)
    case AirCompressor => 20
    case Lights => 21
    case Lr(p) => p + 21
    case Stat(n) => n + 23
    case StackR => 26
    case StackA => 27
    case StackG => 28
    case Ring(n) => n + 28
  }

  /** Every entry of `AllChannels` is a channel of the table. */
  lemma TableListed()
    ensures forall j :: 0 <= j < |AllChannels()| ==> TableChannel(AllChannels()[j])
  {
  }

  /** `RAIL_CHANNELS`: the three rails of benches 1 to 4. */
  predicate IsRail(ch: Channel) {
    ch.Rail? && 1 <= ch.bench <= 4
  }

  /** A name that starts with `port` and ends with `_en` (`_vcc_en` included):
      the VBUS enables and the data gates. */
  predicate IsUsbChannel(ch: Channel) {
    ch.Vbus? || ch.DataGate?
  }

  /** `BENCHES[bench<b>]`: the rails a bench switches, in `BENCHES`' order. */
  function BenchRails(b: nat): (rails: seq<Channel>)
    ensures |rails| == 3
    ensures forall k :: 0 <= k < 3 ==> rails[k].Rail? && rails[k].bench == b
    ensures forall j, k :: 0 <= j < k < 3 ==> rails[j] != rails[k]
  {
    [Rail(b, HV), Rail(b, V12), Rail(b, V5)]
  }

  lemma BenchRailsAreChannels(b: nat)
    requires 1 <= b <= 4
    ensures forall ch :: ch in BenchRails(b) ==> TableChannel(ch) && IsRail(ch)
  {
  }

  // ----------------------------------------------------------------------
  // Polarity
  // ----------------------------------------------------------------------

  /** Relay boards switch a rail on with a LOW pin. */
  const RelayActiveLow: bool := true

  /** `_compute_pin_level`: VBUS enables are active-high, the data gates are
      active-low (`ON` pulls !OE low), every other channel follows the relay
      polarity. With active-low relays, only VBUS is driven high for `on`. */
  function PinLevel(ch: Channel, on: bool): (level: bool)
    ensures level == (if ch.Vbus? then on else !on)
  {
    if ch.Vbus? then on
    else if ch.DataGate? then !on
    else if on then !RelayActiveLow else RelayActiveLow
  }

  /** The semantic state a pin level encodes, inverse to `PinLevel`. */
  function StateOfLevel(ch: Channel, level: bool): bool {
    if ch.Vbus? then level else !level
  }

  lemma {:induction false} LevelRoundTrip(ch: Channel, on: bool, level: bool)
    ensures StateOfLevel(ch, PinLevel(ch, on)) == on
    ensures PinLevel(ch, StateOfLevel(ch, level)) == level
  {
  }

  /** A pin write: the level `_set_pin_level` is asked to drive on a channel. */
  datatype Drive = Drive(ch: Channel, level: bool)

  /** A `log_event` record of a channel change. */
  datatype Event =
    | RailChange(bench: nat, kind: RailKind, on: bool, prev: bool)
    | UsbChannelChange(ch: Channel, on: bool, prev: bool)

  /** What `set_channel` logs when `ch` goes from `prev` to `on`: a rail change
      for a rail, a USB-channel change for a VBUS enable or data gate, and
      nothing when the state does not change. */
  function ChangeEvents(ch: Channel, prev: bool, on: bool): (ev: seq<Event>)
    ensures |ev| <= 1
    ensures ev != [] <==> prev != on && (IsRail(ch) || IsUsbChannel(ch))
    ensures ev != [] ==> ev[0].on == on && ev[0].prev == prev
  {
    if prev == on then []
    else if IsRail(ch) then [RailChange(ch.bench, ch.kind, on, prev)]
    else if IsUsbChannel(ch) then [UsbChannelChange(ch, on, prev)]
    else []
  }

  /** `state.get(ch, False)`. */
  function Lookup(m: map<Channel, bool>, ch: Channel): bool {
    ch in m && m[ch]
  }

  // ----------------------------------------------------------------------
  // Several channels at once
  // ----------------------------------------------------------------------

  /** The state after setting each of `chs` to `on`, in order. */
  function Assign(m: map<Channel, bool>, chs: seq<Channel>, on: bool): map<Channel, bool>
    decreases |chs|
  {
    if chs == [] then m
    else Assign(m, chs[..|chs| - 1], on)[chs[|chs| - 1] := on]
  }

  /** The change events of setting each of `chs` to `on`, in order, each against
      the state left by the ones before. */
  function Changes(m: map<Channel, bool>, chs: seq<Channel>, on: bool): seq<Event>
    decreases |chs|
  {
    if chs == [] then []
    else
      var front, last := chs[..|chs| - 1], chs[|chs| - 1];
      Changes(m, front, on) + ChangeEvents(last, Lookup(Assign(m, front, on), last), on)
  }

  /** The pin writes of setting each of `chs` to `on`, in order. */
  function Drives(chs: seq<Channel>, on: bool): (ds: seq<Drive>)
    ensures |ds| == |chs|
    ensures forall k :: 0 <= k < |chs| ==> ds[k] == Drive(chs[k], PinLevel(chs[k], on))
  {
    seq(|chs|, k requires 0 <= k < |chs| => Drive(chs[k], PinLevel(chs[k], on)))
  }

  /** After the assignments, the channels of `chs` read `on` and every other
      channel reads as before. */
  lemma {:induction false} AssignReads(m: map<Channel, bool>, chs: seq<Channel>, on: bool, ch: Channel)
    ensures Lookup(Assign(m, chs, on), ch) == if ch in chs then on else Lookup(m, ch)
    ensures ch in Assign(m, chs, on) <==> ch in m || ch in chs
    decreases |chs|
  {
    if chs != [] {
      var front := chs[..|chs| - 1];
      AssignReads(m, front, on, ch);
      assert chs == front + [chs[|chs| - 1]];
    }
  }

  /** Setting channels that already read `on` logs nothing. */
  lemma {:induction false} ChangesNone(m: map<Channel, bool>, chs: seq<Channel>, on: bool)
    requires forall ch :: ch in chs ==> Lookup(m, ch) == on
    ensures Changes(m, chs, on) == []
    decreases |chs|
  {
    if chs != [] {
      var front, last := chs[..|chs| - 1], chs[|chs| - 1];
      assert forall ch :: ch in front ==> ch in chs;
      ChangesNone(m, front, on);
      AssignReads(m, front, on, last);
    }
  }

  /** Every change logged by a run of assignments is a change of one of the
      channels, to `on`, from the state it had. */
  lemma {:induction false} ChangesAreChanges(m: map<Channel, bool>, chs: seq<Channel>, on: bool)
    ensures |Changes(m, chs, on)| <= |chs|
    ensures forall e :: e in Changes(m, chs, on) ==> e.on == on && e.prev == !on
    decreases |chs|
  {
    if chs != [] {
      var front, last := chs[..|chs| - 1], chs[|chs| - 1];
      ChangesAreChanges(m, front, on);
    }
  }

  /** Setting the same channels to the same value again logs nothing: a second
      `bench_kill_power` on a bench finds its rails already OFF. */
  lemma SetTwiceLogsNothing(m: map<Channel, bool>, chs: seq<Channel>, on: bool)
    ensures Changes(Assign(m, chs, on), chs, on) == []
  {
    forall ch | ch in chs
      ensures Lookup(Assign(m, chs, on), ch) == on
    {
      AssignReads(m, chs, on, ch);
    }
    ChangesNone(Assign(m, chs, on), chs, on);
  }

  // ----------------------------------------------------------------------
  // USB port policy
  // ----------------------------------------------------------------------

  /** The channels that switch a USB port's data lines: port 1 needs both
      `lr1` and `lr2` REMOTE, port 2 only `lr2`, ports 3 and 4 their data gate. */
  function DataChannels(port: int): (chs: seq<Channel>)
    requires 1 <= port <= 4
    ensures 1 <= |chs| <= 2
  {
    if port == 1 then [Lr(1), Lr(2)]
    else if port == 2 then [Lr(2)]
    else [DataGate(port)]
  }

  /** The change events `set_channel` logs for a port's data step: only the
      data gates of ports 3 and 4 go through `set_channel`. */
  function DataEvents(m: map<Channel, bool>, port: int, enable: bool): seq<Event>
    requires 1 <= port <= 4
  {
    if port <= 2 then [] else ChangeEvents(DataGate(port), Lookup(m, DataGate(port)), enable)
  }

  /** `usb_port_enable`'s pin writes: with both flags off VBUS is cut before
      the data lines; otherwise the data step comes first. */
  function UsbDrives(port: int, data: bool, vbus: bool): seq<Drive>
    requires 1 <= port <= 4
  {
    if !data && !vbus then [Drive(Vbus(port), false)] + Drives(DataChannels(port), false)
    else Drives(DataChannels(port), data) + [Drive(Vbus(port), vbus)]
  }

  /** The state after `usb_port_enable`. */
  function UsbState(m: map<Channel, bool>, port: int, data: bool, vbus: bool): map<Channel, bool>
    requires 1 <= port <= 4
  {
    Assign(m, DataChannels(port), data)[Vbus(port) := vbus]
  }

  /** The change events of `usb_port_enable`, in the order of its steps. */
  function UsbEvents(m: map<Channel, bool>, port: int, data: bool, vbus: bool): seq<Event>
    requires 1 <= port <= 4
  {
    var v := ChangeEvents(Vbus(port), Lookup(m, Vbus(port)), vbus);
    if !data && !vbus then v + DataEvents(m, port, false)
    else DataEvents(m, port, data) + v
  }

  /** The ordering rule: turning a port on enables its data lines before
      powering VBUS, turning it off cuts VBUS before the data lines, and a
      mixed request sets data and then VBUS. Enabling data pulls the port's
      select or gate pins LOW. */
  lemma UsbOrder(port: int, data: bool, vbus: bool)
    requires 1 <= port <= 4
    ensures var t, n := UsbDrives(port, data, vbus), |DataChannels(port)|;
      |t| == n + 1 &&
      (data || vbus ==>
        t[n] == Drive(Vbus(port), vbus) &&
        forall k :: 0 <= k < n ==> t[k].ch in DataChannels(port) && t[k].level == !data) &&
      (!data && !vbus ==>
        t[0] == Drive(Vbus(port), false) &&
        forall k :: 1 <= k <= n ==> t[k].ch in DataChannels(port) && t[k].level)
  {
  }

  /** Which pins a port's data step drives. */
  lemma DataPolicy(port: int, enable: bool)
    requires 1 <= port <= 4
    ensures Drives(DataChannels(port), enable) ==
      if port == 1 then [Drive(Lr(1), !enable), Drive(Lr(2), !enable)]
      else if port == 2 then [Drive(Lr(2), !enable)]
      else [Drive(DataGate(port), !enable)]
  {
  }

  // ----------------------------------------------------------------------
  // The controller
  // ----------------------------------------------------------------------

  /** `DEFAULT_LR_LOCAL`: at boot the selects are driven HIGH (local). */
  const DefaultLrLocal: bool := true
  /** `DEFAULT_USB_DATA_DISABLED`, `DEFAULT_USB_VBUS_DISABLED`, `BOOT_SAFE_KILL_ALL`. */
  const DefaultUsbDataDisabled: bool := true
  const DefaultUsbVbusDisabled: bool := true
  const BootSafeKillAll: bool := true

  /** The keys of `BENCHES`, in order. */
  const BenchNames: seq<string> := ["bench1", "bench2", "bench3", "bench4"]

  /** The bench a key of `BENCHES` names. */
  function BenchNumber(name: string): (b: Option<nat>)
    ensures b.Some? <==> name in BenchNames
    ensures b.Some? ==> 1 <= b.value <= 4 && BenchNames[b.value - 1] == name
  {
    if name == "bench1" then Some(1)
    else if name == "bench2" then Some(2)
    else if name == "bench3" then Some(3)
    else if name == "bench4" then Some(4)
    else None
  }

  lemma BenchNamed(k: nat)
    requires k < |BenchNames|
    ensures BenchNumber(BenchNames[k]) == Some(k + 1)
  {
    if k == 0 {
    } else if k == 1 {
    } else if k == 2 {
    } else {
    }
  }

  /** The rails of benches 1 to `k`, bench by bench. */
  function RailsOf(k: nat): seq<Channel> {
    if k == 0 then [] else RailsOf(k - 1) + BenchRails(k)
  }

  /** The extra channels the boot defaults drive OFF after the table. */
  const BootGates: seq<Channel> := [DataGate(3), DataGate(4)]
  const BootVbus: seq<Channel> := [Vbus(1), Vbus(2), Vbus(3), Vbus(4)]

  /** Driving one more channel updates that channel's level and no other. */
  lemma AssignSnoc(m: map<Channel, bool>, chs: seq<Channel>, ch: Channel, on: bool)
    ensures Assign(m, chs + [ch], on) == Assign(m, chs, on)[ch := on]
  {
    assert (chs + [ch])[..|chs|] == chs;
  }

  /** Driving one more channel adds that channel's change events, if any. */
  lemma ChangesSnoc(m: map<Channel, bool>, chs: seq<Channel>, ch: Channel, on: bool)
    ensures Changes(m, chs + [ch], on) == Changes(m, chs, on) + ChangeEvents(ch, Lookup(Assign(m, chs, on), ch), on)
  {
    assert (chs + [ch])[..|chs|] == chs;
  }

  /** The pin writes of two runs are those of each run, in order. */
  lemma DrivesAppend(a: seq<Channel>, b: seq<Channel>, on: bool)
    ensures Drives(a + b, on) == Drives(a, on) + Drives(b, on)
  {
  }

  /** Turning OFF channels that already read OFF changes nothing. */
  lemma RailsAlreadyOff(m: map<Channel, bool>, chs: seq<Channel>)
    requires forall ch :: TableChannel(ch) ==> ch in m && !m[ch]
    requires forall ch :: ch in chs ==> TableChannel(ch)
    ensures Assign(m, chs, false) == m
  {
    var a := Assign(m, chs, false);
    forall ch
      ensures (ch in a <==> ch in m) && (ch in a ==> a[ch] == m[ch])
    {
      AssignReads(m, chs, false, ch);
    }
  }

  /** Pin levels that encode the same states on the same pins are the same. */
  lemma LevelsOfState(l0: map<Channel, bool>, l1: map<Channel, bool>, m: map<Channel, bool>)
    requires l0.Keys == l1.Keys
    requires forall ch :: ch in l0 ==> l0[ch] == PinLevel(ch, Lookup(m, ch))
    requires forall ch :: ch in l1 ==> l1[ch] == PinLevel(ch, Lookup(m, ch))
    ensures l0 == l1
  {
  }

  class Controller {
    /** The channels whose pin was set up at start-up (`relay_pins`). */
    const wired: set<Channel>
    /** The semantic `state` dict. */
    var state: map<Channel, bool>
    /** The level each wired pin was last driven to. */
    var levels: map<Channel, bool>
    /** Every `_set_pin_level` call, in order. */
    var requests: seq<Drive>
    /** `_missing_pin_warned`. */
    var warned: set<Channel>
    /** The missing-pin warnings printed, in order. */
    var warnings: seq<Channel>
    /** The `log_event` records of channel changes, in order. */
    var events: seq<Event>

    /** One warning per virtual channel, ever. */
    ghost predicate WarnedOnce()
      reads this
    {
      (forall i, j :: 0 <= i < j < |warnings| ==> warnings[i] != warnings[j]) &&
      (forall ch :: ch in warnings <==> ch in warned) &&
      (forall ch :: ch in warned ==> ch !in wired)
    }

    /** Every driven pin outputs the level that encodes its channel's state, and
        only wired pins are driven. */
    ghost predicate Valid()
      reads this
    {
      (forall ch :: ch in wired ==> TableChannel(ch)) &&
      (forall ch :: ch in levels ==> ch in wired && levels[ch] == PinLevel(ch, Lookup(state, ch))) &&
      WarnedOnce()
    }

    /** The start-up state: every channel of the table OFF, nothing driven yet. */
    constructor (wired: set<Channel>)
      requires forall ch :: ch in wired ==> TableChannel(ch)
      ensures Valid() && this.wired == wired
      ensures state == map ch | ch in AllChannels() :: false
      ensures levels == map[] && requests == [] && warned == {} && warnings == [] && events == []
    {
      this.wired := wired;
      state := map ch | ch in AllChannels() :: false;
      levels, requests := map[], [];
      warned, warnings, events := {}, [], [];
    }

    /** The channels of `chs` that have a pin. */
    function Driven(chs: seq<Channel>): set<Channel> {
      set ch | ch in chs && ch in wired
    }

    /** The channels of `chs` without a pin, the ones a write warns about. */
    function Virtual(chs: seq<Channel>): set<Channel> {
      set ch | ch in chs && ch !in wired
    }

    /** `get_channel`. */
    function Get(ch: Channel): bool
      reads this
    {
      Lookup(state, ch)
    }

    /** `_safe_warn_missing`: warn about a channel without a pin, once. */
    method SafeWarnMissing(ch: Channel)
      requires WarnedOnce() && ch !in wired
      modifies this
      ensures WarnedOnce()
      ensures warned == old(warned) + {ch}
      ensures warnings == if ch in old(warned) then old(warnings) else old(warnings) + [ch]
      ensures state == old(state) && levels == old(levels) && requests == old(requests) && events == old(events)
    {
      if ch !in warned {
        warned := warned + {ch};
        warnings := warnings + [ch];
      }
    }

    /** `_set_pin_level`: drive the pin, or warn when the channel has none. */
    method SetPinLevel(ch: Channel, level: bool) returns (ok: bool)
      requires WarnedOnce()
      modifies this
      ensures WarnedOnce()
      ensures ok <==> ch in wired
      ensures requests == old(requests) + [Drive(ch, level)]
      ensures levels == if ok then old(levels)[ch := level] else old(levels)
      ensures warned == if ok then old(warned) else old(warned) + {ch}
      ensures ok ==> warnings == old(warnings)
      ensures state == old(state) && events == old(events)
    {
      requests := requests + [Drive(ch, level)];
      if ch !in wired {
        SafeWarnMissing(ch);
        return false;
      }
      levels := levels[ch := level];
      return true;
    }

    /** Drive a channel's pin to the level for `on`, then record `on` as its
        state: the common step of `set_channel`, `set_lr` and the boot defaults. */
    method Apply(ch: Channel, on: bool)
      requires Valid()
      modifies this
      ensures Valid()
      ensures state == old(state)[ch := on]
      ensures requests == old(requests) + [Drive(ch, PinLevel(ch, on))]
      ensures levels == if ch in wired then old(levels)[ch := PinLevel(ch, on)] else old(levels)
      ensures ch in wired ==> levels.Keys == old(levels).Keys + {ch}
      ensures warned == if ch in wired then old(warned) else old(warned) + {ch}
      ensures events == old(events)
    {
      var _ := SetPinLevel(ch, PinLevel(ch, on));
      state := state[ch := on];
    }

    /** `set_channel`: drive, record, and log the change if there was one. */
    method SetChannel(ch: Channel, on: bool)
      requires Valid()
      modifies this
      ensures Valid()
      ensures state == old(state)[ch := on]
      ensures requests == old(requests) + [Drive(ch, PinLevel(ch, on))]
      ensures events == old(events) + ChangeEvents(ch, old(Get(ch)), on)
      ensures levels == if ch in wired then old(levels)[ch := PinLevel(ch, on)] else old(levels)
      ensures ch in wired ==> levels.Keys == old(levels).Keys + {ch}
      ensures warned == if ch in wired then old(warned) else old(warned) + {ch}
    {
      var prev := Get(ch);
      Apply(ch, on);
      events := events + ChangeEvents(ch, prev, on);
    }

    /** `set_lr`: only ports 1 and 2 have a select; `remote` drives it LOW.
        Nothing is logged. */
    method SetLr(port: int, remote: bool) returns (r: Outcome<string>)
      requires Valid()
      modifies this
      ensures Valid()
      ensures r.Pass? <==> port == 1 || port == 2
      ensures r.Fail? ==> state == old(state) && requests == old(requests) && warned == old(warned) && levels == old(levels)
      ensures r.Pass? ==>
        state == old(state)[Lr(port) := remote] &&
        requests == old(requests) + [Drive(Lr(port), !remote)] &&
        levels.Keys == old(levels).Keys + Driven([Lr(port)]) &&
        warned == old(warned) + Virtual([Lr(port)])
      ensures events == old(events)
    {
      if port != 1 && port != 2 {
        return Fail("LR port must be 1 or 2");
      }
      One(Lr(port));
      Apply(Lr(port), remote);
      return Pass;
    }

    /** `usb_set_data`: port 1 switches both selects, port 2 only `lr2`
        (through `set_lr`, so nothing is logged); ports 3 and 4 switch their
        data gate through `set_channel`. Other ports raise. */
    method UsbSetData(port: int, enable: bool) returns (r: Outcome<string>)
      requires Valid()
      modifies this
      ensures Valid()
      ensures r.Pass? <==> 1 <= port <= 4
      ensures r.Fail? ==> state == old(state) && requests == old(requests) && events == old(events)
      ensures r.Fail? ==> levels == old(levels) && warned == old(warned)
      ensures r.Pass? ==>
        state == Assign(old(state), DataChannels(port), enable) &&
        requests == old(requests) + Drives(DataChannels(port), enable) &&
        events == old(events) + DataEvents(old(state), port, enable) &&
        levels.Keys == old(levels).Keys + Driven(DataChannels(port)) &&
        warned == old(warned) + Virtual(DataChannels(port))
    {
      if port == 1 {
        ghost var l0, w0 := levels.Keys, warned;
        var _ := SetLr(1, enable);
        ghost var l1, w1 := levels.Keys, warned;
        var _ := SetLr(2, enable);
        assert DataChannels(1) == [Lr(1)] + [Lr(2)];
        TwoRuns(l0, l1, levels.Keys, w0, w1, warned, [Lr(1)], [Lr(2)]);
        return Pass;
      }
      if port == 2 {
        var _ := SetLr(2, enable);
        assert DataChannels(2) == [Lr(2)];
        return Pass;
      }
      if port == 3 || port == 4 {
        One(DataGate(port));
        SetChannel(DataGate(port), enable);
        assert DataChannels(port) == [DataGate(port)];
        return Pass;
      }
      return Fail("USB port must be 1..4");
    }

    /** `usb_set_vbus`: switch the port's VBUS enable through `set_channel`. */
    method UsbSetVbus(port: int, enable: bool) returns (r: Outcome<string>)
      requires Valid()
      modifies this
      ensures Valid()
      ensures r.Pass? <==> 1 <= port <= 4
      ensures r.Fail? ==> state == old(state) && requests == old(requests) && events == old(events)
      ensures r.Fail? ==> levels == old(levels) && warned == old(warned)
      ensures r.Pass? ==>
        state == old(state)[Vbus(port) := enable] &&
        requests == old(requests) + [Drive(Vbus(port), enable)] &&
        events == old(events) + ChangeEvents(Vbus(port), old(Get(Vbus(port))), enable) &&
        levels.Keys == old(levels).Keys + Driven([Vbus(port)]) &&
        warned == old(warned) + Virtual([Vbus(port)])
    {
      if !(1 <= port <= 4) {
        return Fail("USB port must be 1..4");
      }
      One(Vbus(port));
      SetChannel(Vbus(port), enable);
      return Pass;
    }

    /** `usb_port_enable`: both on enables data before VBUS, both off cuts VBUS
        before data, mixed flags set data then VBUS. A port outside 1..4 raises
        before anything is written. */
    method UsbPortEnable(port: int, data: bool, vbus: bool) returns (r: Outcome<string>)
      requires Valid()
      modifies this
      ensures Valid()
      ensures r.Pass? <==> 1 <= port <= 4
      ensures r.Fail? ==> state == old(state) && requests == old(requests) && events == old(events)
      ensures r.Fail? ==> levels == old(levels) && warned == old(warned)
      ensures r.Pass? ==>
        state == UsbState(old(state), port, data, vbus) &&
        requests == old(requests) + UsbDrives(port, data, vbus) &&
        events == old(events) + UsbEvents(old(state), port, data, vbus) &&
        levels.Keys == old(levels).Keys + Driven(DataChannels(port) + [Vbus(port)]) &&
        warned == old(warned) + Virtual(DataChannels(port) + [Vbus(port)])
    {
      if !(1 <= port <= 4) {
        r := UsbSetData(port, data);
        return;
      }
      ghost var m, rs, es := state, requests, events;
      ghost var l0, w0 := levels.Keys, warned;
      if !data && !vbus {
        var _ := UsbSetVbus(port, false);
        ghost var l1, w1 := levels.Keys, warned;
        var _ := UsbSetData(port, false);
        TwoRuns(l0, l1, levels.Keys, w0, w1, warned, [Vbus(port)], DataChannels(port));
        UsbStepsCommute(m, port);
        Assoc(rs, [Drive(Vbus(port), false)], Drives(DataChannels(port), false));
        Assoc(es, ChangeEvents(Vbus(port), Lookup(m, Vbus(port)), false), DataEvents(m, port, false));
      } else {
        var _ := UsbSetData(port, data);
        ghost var l1, w1 := levels.Keys, warned;
        var _ := UsbSetVbus(port, vbus);
        TwoRuns(l0, l1, levels.Keys, w0, w1, warned, DataChannels(port), [Vbus(port)]);
        AssignReads(m, DataChannels(port), data, Vbus(port));
        Assoc(rs, Drives(DataChannels(port), data), [Drive(Vbus(port), vbus)]);
        Assoc(es, DataEvents(m, port, data), ChangeEvents(Vbus(port), Lookup(m, Vbus(port)), vbus));
      }
      return Pass;
    }

    /** The loop of `bench_kill_power` and `bench_enable_power`: each of
        `chs`, in order, through `set_channel`. */
    method SetChannels(chs: seq<Channel>, on: bool)
      requires Valid()
      modifies this
      ensures Valid()
      ensures state == Assign(old(state), chs, on)
      ensures requests == old(requests) + Drives(chs, on)
      ensures events == old(events) + Changes(old(state), chs, on)
      ensures levels.Keys == old(levels).Keys + Driven(chs)
      ensures warned == old(warned) + Virtual(chs)
    {
      for k := 0 to |chs|
        invariant Valid()
        invariant state == Assign(old(state), chs[..k], on)
        invariant requests == old(requests) + Drives(chs[..k], on)
        invariant events == old(events) + Changes(old(state), chs[..k], on)
        invariant levels.Keys == old(levels).Keys + Driven(chs[..k])
        invariant warned == old(warned) + Virtual(chs[..k])
      {
        assert chs[..k + 1] == chs[..k] + [chs[k]];
        ghost var l0, w0 := levels, warned;
        DrivesAppend(chs[..k], [chs[k]], on);
        AssignSnoc(old(state), chs[..k], chs[k], on);
        ChangesSnoc(old(state), chs[..k], chs[k], on);
        Assoc(old(requests), Drives(chs[..k], on), Drives([chs[k]], on));
        Assoc(old(events), Changes(old(state), chs[..k], on), ChangeEvents(chs[k], Get(chs[k]), on));
        SetChannel(chs[k], on);
        Step(chs[..k], chs[k], old(levels).Keys, old(warned), l0, levels, w0, warned);
      }
      assert chs[..|chs|] == chs;
    }

    /** `bench_kill_power`: an unknown bench name raises; otherwise the bench's rails
        are set OFF in `BENCHES`' order (HV, 12V, 5V). */
    method BenchKillPower(bench: string) returns (r: Outcome<string>)
      requires Valid()
      modifies this
      ensures Valid()
      ensures r.Pass? <==> bench in BenchNames
      ensures r.Fail? ==> r.error == "Unknown bench '" + bench + "'"
      ensures r.Fail? ==> state == old(state) && requests == old(requests) && events == old(events)
      ensures r.Pass? ==>
        var rails := BenchRails(BenchNumber(bench).value);
        state == Assign(old(state), rails, false) &&
        requests == old(requests) + Drives(rails, false) &&
        events == old(events) + Changes(old(state), rails, false) &&
        levels.Keys == old(levels).Keys + Driven(rails) &&
        warned == old(warned) + Virtual(rails)
      ensures r.Fail? ==> levels == old(levels) && warned == old(warned)
    {
      var b := BenchNumber(bench);
      if b.None? {
        return Fail("Unknown bench '" + bench + "'");
      }
      SetChannels(BenchRails(b.value), false);
      return Pass;
    }

    /** `bench_enable_power`: an unknown bench name raises; otherwise the bench's rails
        are set ON in `BENCHES`' order (HV, 12V, 5V). */
    method BenchEnablePower(bench: string) returns (r: Outcome<string>)
      requires Valid()
      modifies this
      ensures Valid()
      ensures r.Pass? <==> bench in BenchNames
      ensures r.Fail? ==> r.error == "Unknown bench '" + bench + "'"
      ensures r.Fail? ==> state == old(state) && requests == old(requests) && events == old(events)
      ensures r.Pass? ==>
        var rails := BenchRails(BenchNumber(bench).value);
        state == Assign(old(state), rails, true) &&
        requests == old(requests) + Drives(rails, true) &&
        events == old(events) + Changes(old(state), rails, true) &&
        levels.Keys == old(levels).Keys + Driven(rails) &&
        warned == old(warned) + Virtual(rails)
      ensures r.Fail? ==> levels == old(levels) && warned == old(warned)
    {
      var b := BenchNumber(bench);
      if b.None? {
        return Fail("Unknown bench '" + bench + "'");
      }
      SetChannels(BenchRails(b.value), true);
      return Pass;
    }

    /** `_apply_boot_defaults`: every channel of the table is driven to its OFF
        level in the table's order (the selects to LOCAL), then the data gates
        of ports 3 and 4, the four VBUS enables and every bench's rails are
        driven OFF again. Afterwards every channel reads OFF, every wired pin
        has been driven, every virtual channel has been warned about, and
        nothing is logged: the rail kill finds the rails already OFF. */
    method ApplyBootDefaults()
      requires Valid()
      modifies this
      ensures Valid()
      ensures forall ch :: TableChannel(ch) ==> ch in state && !state[ch]
      ensures forall ch :: ch in wired ==> ch in levels
      ensures forall ch :: TableChannel(ch) && ch !in wired ==> ch in warned
      ensures state == Assign(old(state), AllChannels(), false)
      ensures forall ch :: ch !in AllChannels() && ch in old(state) ==> ch in state && state[ch] == old(state)[ch]
      ensures levels.Keys == old(levels).Keys + Driven(AllChannels())
      ensures warned == old(warned) + Virtual(AllChannels())
      ensures requests ==
        old(requests) + Drives(AllChannels(), false) + Drives(BootGates, false) +
        Drives(BootVbus, false) + Drives(RailsOf(|BenchNames|), false)
      ensures events == old(events)
    {
      DriveTableOff();
      SafetyPasses();
    }

    /** The passes of the boot defaults after the table loop: the data gates,
        the VBUS enables and the rail kill, each over channels that already
        read OFF, so only pin writes are added. */
    method SafetyPasses()
      requires Valid() && AllStatesOff() && AllWiredDriven() && AllVirtualWarned()
      modifies this
      ensures Valid() && AllStatesOff() && AllWiredDriven() && AllVirtualWarned()
      ensures state == old(state) && levels == old(levels) && warned == old(warned)
      ensures requests ==
        old(requests) + Drives(BootGates, false) + Drives(BootVbus, false) + Drives(RailsOf(|BenchNames|), false)
      ensures events == old(events)
    {
      if DefaultUsbDataDisabled {
        DriveOffAgain(BootGates);
      }
      if DefaultUsbVbusDisabled {
        DriveOffAgain(BootVbus);
      }
      if BootSafeKillAll {
        KillAllRails();
      }
    }

    /** The channel loops of the boot defaults: each of `chs`, in order, driven
        to OFF and recorded OFF, the selects to `not DEFAULT_LR_LOCAL`. Nothing
        is logged. */
    method DriveOff(chs: seq<Channel>)
      requires Valid()
      modifies this
      ensures Valid()
      ensures state == Assign(old(state), chs, false)
      ensures forall ch :: ch in chs ==> ch in state && !state[ch]
      ensures forall ch :: ch !in chs && ch in old(state) ==> ch in state && state[ch] == old(state)[ch]
      ensures forall ch :: ch in chs && ch in wired ==> ch in levels
      ensures forall ch :: ch in chs && ch !in wired ==> ch in warned
      ensures levels.Keys == old(levels).Keys + Driven(chs)
      ensures warned == old(warned) + Virtual(chs)
      ensures requests == old(requests) + Drives(chs, false)
      ensures events == old(events)
    {
      for k := 0 to |chs|
        invariant Valid() && events == old(events)
        invariant state == Assign(old(state), chs[..k], false)
        invariant levels.Keys == old(levels).Keys + Driven(chs[..k])
        invariant warned == old(warned) + Virtual(chs[..k])
        invariant requests == old(requests) + Drives(chs[..k], false)
      {
        var ch := chs[k];
        DrivesAppend(chs[..k], [ch], false);
        assert chs[..k + 1] == chs[..k] + [ch];
        AssignSnoc(old(state), chs[..k], ch, false);
        ghost var l0, w0 := levels, warned;
        Apply(ch, if ch.Lr? then !DefaultLrLocal else false);
        Step(chs[..k], ch, old(levels).Keys, old(warned), l0, levels, w0, warned);
      }
      assert chs[..|chs|] == chs;
      forall ch
        ensures ch in chs ==> ch in state && !state[ch]
        ensures ch !in chs && ch in old(state) ==> ch in state && state[ch] == old(state)[ch]
      {
        AssignReads(old(state), chs, false, ch);
      }
    }

    /** The first loop of the boot defaults, over the whole table: afterwards
        every channel reads OFF and has been driven or warned about. */
    method DriveTableOff()
      requires Valid()
      modifies this
      ensures Valid() && AllStatesOff() && AllWiredDriven() && AllVirtualWarned()
      ensures state == Assign(old(state), AllChannels(), false)
      ensures forall ch :: ch !in AllChannels() && ch in old(state) ==> ch in state && state[ch] == old(state)[ch]
      ensures levels.Keys == old(levels).Keys + Driven(AllChannels())
      ensures warned == old(warned) + Virtual(AllChannels())
      ensures requests == old(requests) + Drives(AllChannels(), false)
      ensures events == old(events)
    {
      DriveOff(AllChannels());
      AllChannelsCovered();
    }

    /** The later channel loops of the boot defaults: the channels already read
        OFF and are already driven or warned about, so only the pin writes are
        added. */
    method DriveOffAgain(chs: seq<Channel>)
      requires Valid() && AllStatesOff() && AllWiredDriven() && AllVirtualWarned()
      requires forall ch :: ch in chs ==> TableChannel(ch)
      modifies this
      ensures Valid() && AllStatesOff() && AllWiredDriven() && AllVirtualWarned()
      ensures state == old(state) && levels == old(levels) && warned == old(warned)
      ensures requests == old(requests) + Drives(chs, false)
      ensures events == old(events)
    {
      RailsAlreadyOff(state, chs);
      AlreadyCovered(chs);
      DriveOff(chs);
      LevelsOfState(old(levels), levels, state);
    }

    /** The last loop of the boot defaults: `bench_kill_power` on every bench.
        The rails already read OFF, so nothing is logged. */
    method KillAllRails()
      requires Valid() && AllStatesOff() && AllWiredDriven() && AllVirtualWarned()
      modifies this
      ensures Valid() && AllStatesOff() && AllWiredDriven() && AllVirtualWarned()
      ensures requests == old(requests) + Drives(RailsOf(|BenchNames|), false)
      ensures state == old(state) && levels == old(levels) && warned == old(warned)
      ensures events == old(events)
    {
      for k := 0 to |BenchNames|
        invariant Valid() && AllStatesOff() && AllWiredDriven() && AllVirtualWarned()
        invariant requests == old(requests) + Drives(RailsOf(k), false)
        invariant state == old(state) && levels == old(levels) && warned == old(warned)
        invariant events == old(events)
      {
        DrivesAppend(RailsOf(k), BenchRails(k + 1), false);
        Assoc(old(requests), Drives(RailsOf(k), false), Drives(BenchRails(k + 1), false));
        KillBench(k);
      }
    }

    /** One step of the loop above: `bench_kill_power` on the `k`-th bench name
        rewrites OFF over OFF, so only the pin writes are added. */
    method KillBench(k: nat)
      requires k < |BenchNames|
      requires Valid() && AllStatesOff() && AllWiredDriven() && AllVirtualWarned()
      modifies this
      ensures Valid() && AllStatesOff() && AllWiredDriven() && AllVirtualWarned()
      ensures requests == old(requests) + Drives(BenchRails(k + 1), false)
      ensures state == old(state) && levels == old(levels) && warned == old(warned)
      ensures events == old(events)
    {
      var rails := BenchRails(k + 1);
      BenchRailsAreChannels(k + 1);
      BenchNamed(k);
      ChangesNone(state, rails, false);
      RailsAlreadyOff(state, rails);
      AlreadyCovered(rails);
      var _ := BenchKillPower(BenchNames[k]);
      LevelsOfState(old(levels), levels, state);
    }

    /** Channels of the table are already driven or warned about once the boot
        loop has covered them. */
    lemma AlreadyCovered(chs: seq<Channel>)
      requires AllWiredDriven() && AllVirtualWarned()
      requires forall ch :: ch in chs ==> TableChannel(ch)
      ensures Driven(chs) <= levels.Keys && Virtual(chs) <= warned
    {
    }

    /** Extending a run by one channel adds that channel to the driven or the
        virtual channels. */
    lemma Snoc(chs: seq<Channel>, ch: Channel)
      ensures Driven(chs + [ch]) == Driven(chs) + (if ch in wired then {ch} else {})
      ensures Virtual(chs + [ch]) == Virtual(chs) + (if ch in wired then {} else {ch})
    {
      assert forall x :: x in chs + [ch] <==> x in chs || x == ch;
    }

    /** A single channel is driven or virtual as its pin decides. */
    lemma One(ch: Channel)
      ensures Driven([ch]) == (if ch in wired then {ch} else {})
      ensures Virtual([ch]) == (if ch in wired then {} else {ch})
    {
      assert forall x :: x in [ch] <==> x == ch;
    }

    /** The channels of two runs are those of each. */
    lemma Append(a: seq<Channel>, b: seq<Channel>)
      ensures Driven(a + b) == Driven(a) + Driven(b)
      ensures Virtual(a + b) == Virtual(a) + Virtual(b)
    {
      assert forall x :: x in a + b <==> x in a || x in b;
    }

    /** Two runs one after the other drive and warn about the channels of
        both, in either order. */
    lemma TwoRuns(k0: set<Channel>, k1: set<Channel>, k2: set<Channel>,
                  w0: set<Channel>, w1: set<Channel>, w2: set<Channel>, a: seq<Channel>, b: seq<Channel>)
      requires k1 == k0 + Driven(a) && w1 == w0 + Virtual(a)
      requires k2 == k1 + Driven(b) && w2 == w1 + Virtual(b)
      ensures k2 == k0 + Driven(a + b) && w2 == w0 + Virtual(a + b)
      ensures k2 == k0 + Driven(b + a) && w2 == w0 + Virtual(b + a)
    {
      Append(a, b);
      Append(b, a);
    }

    /** Channels of the table are among those the first boot loop drives. */
    lemma WithinTable(chs: seq<Channel>)
      requires forall ch :: ch in chs ==> TableChannel(ch)
      ensures Driven(chs) <= Driven(AllChannels()) && Virtual(chs) <= Virtual(AllChannels())
    {
      forall ch | ch in chs
        ensures ch in AllChannels()
      {
        var j := TableIndex(ch);
      }
    }

    /** One write of a loop over `chs + [ch]`: the driven pins and the warned
        channels grow by `ch` as its pin decides. */
    lemma Step(chs: seq<Channel>, ch: Channel, keys: set<Channel>, seen: set<Channel>,
               l0: map<Channel, bool>, l1: map<Channel, bool>, w0: set<Channel>, w1: set<Channel>)
      requires l0.Keys == keys + Driven(chs) && w0 == seen + Virtual(chs)
      requires ch in wired ==> l1.Keys == l0.Keys + {ch} && w1 == w0
      requires ch !in wired ==> l1 == l0 && w1 == w0 + {ch}
      ensures l1.Keys == keys + Driven(chs + [ch]) && w1 == seen + Virtual(chs + [ch])
    {
      Snoc(chs, ch);
    }

    /** Every channel of the table reads OFF. */
    ghost predicate AllStatesOff()
      reads this
    {
      forall ch :: TableChannel(ch) ==> ch in state && !state[ch]
    }

    /** Every wired pin has been driven. */
    ghost predicate AllWiredDriven()
      reads this
    {
      forall ch :: ch in wired ==> ch in levels
    }

    /** Every channel of the table without a pin has been warned about. */
    ghost predicate AllVirtualWarned()
      reads this
    {
      forall ch :: TableChannel(ch) && ch !in wired ==> ch in warned
    }

    /** The boot loop over the table leaves every channel OFF, driven or warned. */
    lemma AllChannelsCovered()
      requires Valid()
      requires forall ch :: ch in AllChannels() ==> ch in state && !state[ch]
      requires forall ch :: ch in AllChannels() && ch in wired ==> ch in levels
      requires forall ch :: ch in AllChannels() && ch !in wired ==> ch in warned
      ensures AllStatesOff() && AllWiredDriven() && AllVirtualWarned()
    {
      forall ch | TableChannel(ch)
        ensures ch in state && !state[ch]
        ensures ch !in wired ==> ch in warned
      {
        var j := TableIndex(ch);
      }
      forall ch | ch in wired
        ensures ch in levels
      {
        var j := TableIndex(ch);
      }
    }
  }

  /** Cutting VBUS first leaves the data step the same as on the old state. */
  lemma UsbStepsCommute(m: map<Channel, bool>, port: int)
    requires 1 <= port <= 4
    ensures Assign(m[Vbus(port) := false], DataChannels(port), false) == UsbState(m, port, false, false)
    ensures DataEvents(m[Vbus(port) := false], port, false) == DataEvents(m, port, false)
  {
    var v := Vbus(port);
    if port == 1 {
      AssignTwo(m, Lr(1), Lr(2), false);
      AssignTwo(m[v := false], Lr(1), Lr(2), false);
    } else {
      var chs := DataChannels(port);
      AssignOne(m, chs[0], false);
      AssignOne(m[v := false], chs[0], false);
    }
  }

  lemma AssignOne(m: map<Channel, bool>, a: Channel, on: bool)
    ensures Assign(m, [a], on) == m[a := on]
  {
    assert [a][..0] == [];
  }

  lemma AssignTwo(m: map<Channel, bool>, a: Channel, b: Channel, on: bool)
    ensures Assign(m, [a, b], on) == m[a := on][b := on]
  {
    assert [a, b][..1] == [a];
    AssignOne(m, a, on);
  }

  lemma Assoc<T>(a: seq<T>, b: seq<T>, c: seq<T>)
    ensures a + b + c == a + (b + c)
  {
  }
}
