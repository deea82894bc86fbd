// The pad-controller library (zynmidicontroller): a Launchkey Mini MK3 is driven through
// a queue of 3-byte messages for the device, and the device's pads and knobs are
// translated, one JACK period at a time, into messages for the MIDI router.
module MidiController {
  import opened Midi

  /** A 3-byte MIDI message: status and two data bytes. */
  datatype Msg = Msg(status: nat, d1: nat, d2: nat)

  predicate IsBytes(m: Msg) { m.status < 256 && m.d1 < 256 && m.d2 < 256 }

  /** Every message of es is made of bytes. */
  predicate AllBytes(es: seq<Msg>) { forall k :: 0 <= k < |es| ==> IsBytes(es[k]) }

  /** C's conversion of an int to uint8_t / unsigned char: reduction modulo 256. */
  function Byte(x: int): (b: nat)
    ensures b < 256 && (0 <= x < 256 ==> b == x)
    ensures (x - b) % 256 == 0
  {
    x % 256
  }

  /** Notes of the drum pads (only the first 16 are used). */
  const DRUM_PADS: seq<nat> := [40, 41, 42, 43, 44, 45, 46, 47, 48, 49, 50, 51, 36, 37, 38, 39,
                                40, 41, 42, 43, 44, 45, 46, 47]
  /** Notes of the 16 session pads. */
  const SESSION_PADS: seq<nat> := [96, 97, 98, 99, 100, 101, 102, 103, 112, 113, 114, 115, 116, 117, 118, 119]
  /** Colour of each session pad. */
  const PAD_COLOUR: seq<nat> := [67, 35, 9, 51, 105, 63, 94, 126, 67, 35, 9, 51, 105, 63, 94, 126]
  const DRUM_COLOUR: nat := 79
  const DRUM_ON_COLOUR: nat := 90
  const STARTING_COLOUR: nat := 123
  const STOPPING_COLOUR: nat := 120

  /** The guard of sendDeviceMidi as written: `status < 128 || value1 > 127 && value2 > 127`
      rejects, and && binds tighter than ||, so a message with only one data byte above
      127 is accepted. */
  predicate AcceptedAsWritten(m: Msg)
  {
    !(m.status < 128 || (m.d1 > 127 && m.d2 > 127))
  }

  /** The guard as intended: a status byte and two 7-bit data bytes. */
  predicate Accepted(m: Msg)
  {
    128 <= m.status && m.d1 <= 127 && m.d2 <= 127
  }

  /** A pad-mode message with data byte 200 (selectPads(200)) passes the written guard
      although 200 is no MIDI data byte; the intended guard drops it. */
  lemma AcceptedAsWrittenAdmitsBadData()
    ensures AcceptedAsWritten(Msg(0xBF, 3, 200)) && !Accepted(Msg(0xBF, 3, 200))
  {
  }

  /** The two guards agree on every message whose data bytes are 7-bit, and the intended
      guard accepts only what the written one accepts. */
  lemma AcceptedRefinesAsWritten(m: Msg)
    ensures Accepted(m) ==> AcceptedAsWritten(m)
    ensures m.d1 <= 127 && m.d2 <= 127 ==> (Accepted(m) <==> AcceptedAsWritten(m))
  {
  }

  /** What a message queued by sendDeviceMidi adds to the queue. */
  function Queued(m: Msg): (q: seq<Msg>)
    ensures q == [] || q == [m]
    ensures q == [m] <==> Accepted(m)
  {
    if Accepted(m) then [m] else []
  }

  /** The messages a pad helper queues for session pad `pad` entering status k
      (0 stopped, 1 starting, 2 playing, 3 stopping). */
  function PadMessages(k: nat, pad: nat): seq<Msg>
    requires k <= 3 && pad < 16
  {
    var note, colour := SESSION_PADS[pad], PAD_COLOUR[pad];
    match k
    case 0 => [Msg(0x90, note, colour)]
    case 1 => [Msg(0x90, note, colour), Msg(0x91, note, STARTING_COLOUR)]
    case 2 => [Msg(0x92, note, colour)]
    case 3 => [Msg(0x90, note, colour), Msg(0x91, note, STOPPING_COLOUR)]
  }

  /** Statuses 0 to 3 queue 1, 2, 1 and 2 messages, every one of them accepted and
      carrying the pad's session note: the pad helpers never lose a message. */
  lemma PadMessagesShape(k: nat, pad: nat)
    requires k <= 3 && pad < 16
    ensures |PadMessages(k, pad)| == (if k % 2 == 0 then 1 else 2)
    ensures forall m :: m in PadMessages(k, pad) ==> Accepted(m) && m.d1 == SESSION_PADS[pad]
    ensures PadMessages(k, pad)[0].status == (if k == 2 then 0x92 else 0x90)
  {
  }

  /** The drum-pad colours initLaunchkey sends. */
  function DrumInit(): (s: seq<Msg>)
    ensures |s| == 16
    ensures forall pad :: 0 <= pad < 16 ==> s[pad] == Msg(0x99, DRUM_PADS[pad], DRUM_COLOUR)
  {
    seq(16, pad requires 0 <= pad < 16 => Msg(0x99, DRUM_PADS[pad], DRUM_COLOUR))
  }

  /** The stopped colours of all session pads, as initLaunchkey sends them. */
  function StoppedAll(): (s: seq<Msg>)
    ensures |s| == 16
    ensures forall pad :: 0 <= pad < 16 ==> [s[pad]] == PadMessages(0, pad)
  {
    seq(16, pad requires 0 <= pad < 16 => Msg(0x90, SESSION_PADS[pad], PAD_COLOUR[pad]))
  }

  /** The session-mode message of enableSession. */
  function SessionMsg(enable: bool): Msg
  {
    Msg(0x9F, 12, if enable then 127 else 0)
  }

  /** Everything initLaunchkey queues: session mode on, the 16 drum-pad colours, the 16
      session pads stopped and knob bank 1. */
  function InitMessages(): seq<Msg>
  {
    [SessionMsg(true)] + DrumInit() + StoppedAll() + [Msg(0xBF, 9, 1)]
  }

  /** The note and colour tables hold MIDI data bytes. */
  lemma TablesAreData()
    ensures forall pad :: 0 <= pad < 16 ==> DRUM_PADS[pad] < 128
    ensures forall pad :: 0 <= pad < 16 ==> SESSION_PADS[pad] < 128 && PAD_COLOUR[pad] < 128
  {
  }

  /** Initialisation queues 34 messages and the guard lets every one of them through. */
  lemma InitMessagesAccepted()
    ensures |InitMessages()| == 34
    ensures forall k :: 0 <= k < |InitMessages()| ==> Accepted(InitMessages()[k])
  {
    TablesAreData();
    var d, p := DrumInit(), StoppedAll();
    assert forall k :: 0 <= k < 16 ==> Accepted(d[k]);
    assert forall k :: 0 <= k < 16 ==> Accepted(p[k]) by {
      forall k | 0 <= k < 16 ensures Accepted(p[k]) {
        assert [p[k]] == PadMessages(0, k);
      }
    }
    var s := InitMessages();
    forall k | 0 <= k < |s|
      ensures Accepted(s[k])
    {
      if 1 <= k < 17 {
        assert s[k] == d[k - 1];
      } else if 17 <= k < 33 {
        assert s[k] == p[k - 17];
      }
    }
  }

  // ---------------------------------------------------------------------------
  // Translation of controller input (onJackProcess, first half)
  // ---------------------------------------------------------------------------

  /** Knob state and the output of one or more events: the CC offset and shift flag
      after them, the messages queued for the device and those sent to the router. */
  datatype Mapped = Mapped(offset: int, shift: bool, device: seq<Msg>, router: seq<Msg>)


  /** A note of the drum-pad range, 36 to 51. */
  predicate DrumNote(note: nat) { 35 < note < 52 }

  /** A knob controller number, 21 to 28. */
  predicate Knob(cc: nat) { 20 < cc < 29 }

  /** An event that produces a router message: a drum pad or a knob. */
  predicate Routed(e: Msg)
    requires e.status < 256
  {
    (Command(e.status) in {0x80, 0x90} && DrumNote(e.d1)) || (Command(e.status) == 0xB0 && Knob(e.d1))
  }

  /** One input event as onJackProcess handles it, with knob offset `offset`, shift
      flag `shift` and router channel `channel`. */
  function MapEvent(e: Msg, offset: int, shift: bool, channel: nat): (r: Mapped)
    requires IsBytes(e) && channel < 16
    ensures |r.device| <= 1 && |r.router| <= 1
    ensures r.device != [] <==> Command(e.status) in {0x80, 0x90} && DrumNote(e.d1)
    ensures r.router != [] <==> Routed(e)
    ensures Command(e.status) != 0xB0 ==> r.offset == offset && r.shift == shift
    ensures forall m :: m in r.device + r.router ==> IsBytes(m)
    ensures forall m :: m in r.device ==> Accepted(m)
  {
    var cmd := Command(e.status);
    if cmd == 0x90 then
      if DrumNote(e.d1) then Mapped(offset, shift, [Msg(0x99, e.d1, DRUM_ON_COLOUR)], [Msg(0x99, e.d1, e.d2)])
      else Mapped(offset, shift, [], [])
    else if cmd == 0x80 then
      if DrumNote(e.d1) then Mapped(offset, shift, [Msg(0x99, e.d1, DRUM_COLOUR)], [Msg(0x89, e.d1, e.d2)])
      else Mapped(offset, shift, [], [])
    else if cmd == 0xB0 then
      var offset' := if e.d1 == 9 then 8 * (e.d2 - 1) else offset;
      var shift' := if e.d1 == 108 then e.d2 != 0 else shift;
      var router := if Knob(e.d1) then [Msg(0xB0 + channel, Byte(e.d1 + offset' + (if shift' then 40 else 0)), e.d2)] else [];
      Mapped(offset', shift', [], router)
    else Mapped(offset, shift, [], [])
  }

  /** A drum pad pressed lights it in the "on" colour and sends the note on channel 10
      with its velocity; released, it goes back to the drum colour and sends a note-off
      on channel 10. */
  lemma DrumPadMapping(e: Msg, offset: int, shift: bool, channel: nat)
    requires IsBytes(e) && channel < 16 && DrumNote(e.d1)
    ensures Command(e.status) == 0x90 ==>
      MapEvent(e, offset, shift, channel) == Mapped(offset, shift, [Msg(0x99, e.d1, 90)], [Msg(0x99, e.d1, e.d2)])
    ensures Command(e.status) == 0x80 ==>
      MapEvent(e, offset, shift, channel) == Mapped(offset, shift, [Msg(0x99, e.d1, 79)], [Msg(0x89, e.d1, e.d2)])
  {
  }

  /** CC 9 selects knob bank v, an offset of 8·(v − 1); CC 108 is the shift button,
      held while its value is non-zero. */
  lemma KnobBankAndShift(e: Msg, offset: int, shift: bool, channel: nat)
    requires IsBytes(e) && channel < 16 && Command(e.status) == 0xB0
    ensures e.d1 == 9 ==> MapEvent(e, offset, shift, channel).offset == 8 * (e.d2 - 1)
    ensures e.d1 == 108 ==> MapEvent(e, offset, shift, channel).shift == (e.d2 != 0)
    ensures e.d1 != 9 ==> MapEvent(e, offset, shift, channel).offset == offset
    ensures e.d1 != 108 ==> MapEvent(e, offset, shift, channel).shift == shift
  {
  }

  /** A knob sends a control change on the selected channel, its number moved by the
      bank offset, and by a further 40 while shift is held; the value passes unchanged. */
  lemma KnobMapping(e: Msg, offset: int, shift: bool, channel: nat)
    requires IsBytes(e) && channel < 16 && Command(e.status) == 0xB0 && Knob(e.d1)
    ensures var r := MapEvent(e, offset, shift, channel);
      r.router == [Msg(0xB0 + channel, Byte(e.d1 + offset + (if shift then 40 else 0)), e.d2)]
      && r.router[0].status % 16 == channel && r.router[0].status / 16 == 0xB
      && (0 <= e.d1 + offset + (if shift then 40 else 0) < 256 ==>
            r.router[0].d1 == e.d1 + offset + (if shift then 40 else 0))
  {
  }

  /** The events of a period, in order. */
  function MapEvents(es: seq<Msg>, offset: int, shift: bool, channel: nat): Mapped
    requires channel < 16 && AllBytes(es)
  {
    if es == [] then Mapped(offset, shift, [], [])
    else
      var r := MapEvents(es[..|es| - 1], offset, shift, channel);
      var s := MapEvent(es[|es| - 1], r.offset, r.shift, channel);
      Mapped(s.offset, s.shift, r.device + s.device, r.router + s.router)
  }

  /** Translating one more event extends the translation of the events before it. */
  lemma MapEventsSnoc(es: seq<Msg>, i: nat, offset: int, shift: bool, channel: nat)
    requires channel < 16 && i < |es| && AllBytes(es)
    ensures var r := MapEvents(es[..i], offset, shift, channel);
      var s := MapEvent(es[i], r.offset, r.shift, channel);
      MapEvents(es[..i + 1], offset, shift, channel) == Mapped(s.offset, s.shift, r.device + s.device, r.router + s.router)
  {
    assert es[..i + 1][..i] == es[..i];
  }

  /** Over a whole period: at most one device and one router message per event, every
      queued device message passes the guard, and the knob state after the period is
      that of the last event. */
  lemma {:induction false} MapEventsBounds(es: seq<Msg>, offset: int, shift: bool, channel: nat)
    requires channel < 16 && AllBytes(es)
    ensures var r := MapEvents(es, offset, shift, channel);
      |r.device| <= |es| && |r.router| <= |es|
      && (forall m :: m in r.device ==> Accepted(m))
      && (forall m :: m in r.router ==> IsBytes(m))
    decreases |es|
  {
    if es != [] {
      MapEventsBounds(es[..|es| - 1], offset, shift, channel);
    }
  }

  /** Translating a period in two parts, the second starting from the knob state the
      first leaves, gives the same as translating it at once. */
  lemma {:induction false} MapEventsSplit(a: seq<Msg>, b: seq<Msg>, offset: int, shift: bool, channel: nat)
    requires channel < 16 && AllBytes(a) && AllBytes(b)
    ensures AllBytes(a + b)
    ensures var r := MapEvents(a, offset, shift, channel);
      var s := MapEvents(b, r.offset, r.shift, channel);
      MapEvents(a + b, offset, shift, channel) == Mapped(s.offset, s.shift, r.device + s.device, r.router + s.router)
    decreases |b|
  {
    if b == [] {
      assert a + b == a;
    } else {
      var b' := b[..|b| - 1];
      assert (a + b)[..|a + b| - 1] == a + b';
      assert (a + b)[|a + b| - 1] == b[|b| - 1];
      MapEventsSplit(a, b', offset, shift, channel);
      var r := MapEvents(a, offset, shift, channel);
      var s' := MapEvents(b', r.offset, r.shift, channel);
      var t := MapEvent(b[|b| - 1], s'.offset, s'.shift, channel);
      assert r.device + s'.device + t.device == r.device + (s'.device + t.device);
      assert r.router + s'.router + t.router == r.router + (s'.router + t.router);
    }
  }

  /** The first n elements of s, or all of it when it is shorter: what fits in a JACK
      MIDI buffer with room for n events. */
  function Prefix<T>(s: seq<T>, n: nat): (p: seq<T>)
    ensures |p| == if n < |s| then n else |s|
    ensures p <= s
  {
    if n < |s| then s[..n] else s
  }

  /** Offering one more message to a buffer takes it when there is room. */
  lemma PrefixSnoc<T>(s: seq<T>, x: seq<T>, n: nat)
    requires |x| <= 1
    ensures Prefix(s + x, n) == if |Prefix(s, n)| < n then Prefix(s, n) + x else Prefix(s, n)
  {
    if |s| < n && |x| == 1 {
      assert Prefix(s + x, n) == s + x;
    }
  }

  // ---------------------------------------------------------------------------
  // Library state
  // ---------------------------------------------------------------------------

  /** The library's globals: device connection flags, shift, knob offset, router channel,
      session pad statuses and the device message queue. */
  class Controller {
    var inputConnected: bool
    var outputConnected: bool
    var shift: bool
    var ccOffset: int
    var midiChannel: nat
    const padStatus: array<nat>
    var queue: seq<Msg>

    /** Sixteen pad statuses of at most 3, a channel below 16 and only accepted byte
        messages in the queue. */
    predicate Valid()
      reads this, padStatus
    {
      padStatus.Length == 16 && midiChannel < 16
      && (forall k :: 0 <= k < 16 ==> padStatus[k] <= 3)
      && (forall k :: 0 <= k < |queue| ==> IsBytes(queue[k]) && Accepted(queue[k]))
    }

    /** The globals at library load. */
    constructor ()
      ensures Valid() && fresh(padStatus)
      ensures !inputConnected && !outputConnected && !shift && ccOffset == 0 && midiChannel == 0
      ensures padStatus[..] == seq(16, _ => 0) && queue == []
    {
      inputConnected, outputConnected, shift := false, false, false;
      ccOffset, midiChannel := 0, 0;
      padStatus := new nat[16](_ => 0);
      queue := [];
    }

    /** isDeviceConnected: both the device's input and its output are connected. */
    predicate Connected()
      reads this
    {
      outputConnected && inputConnected
    }

    /** sendDeviceMidi: appends an accepted message to the queue (intended guard). */
    method SendDeviceMidi(status: nat, d1: nat, d2: nat)
      requires Valid() && IsBytes(Msg(status, d1, d2))
      modifies this`queue
      ensures Valid()
      ensures queue == old(queue) + Queued(Msg(status, d1, d2))
    {
      if status < 128 || d1 > 127 || d2 > 127 {
        return;
      }
      queue := queue + [Msg(status, d1, d2)];
    }

    /** stopped(pad): the pad's colour on channel 1; status 0. */
    method Stopped(pad: nat)
      requires Valid() && pad < 16
      modifies this`queue, padStatus
      ensures Valid()
      ensures queue == old(queue) + PadMessages(0, pad) && padStatus[..] == old(padStatus[..])[pad := 0]
    {
      SendDeviceMidi(0x90, SESSION_PADS[pad], PAD_COLOUR[pad]);
      padStatus[pad] := 0;
    }

    /** starting(pad): the pad's colour, then the starting colour flashing; status 1. */
    method Starting(pad: nat)
      requires Valid() && pad < 16
      modifies this`queue, padStatus
      ensures Valid()
      ensures queue == old(queue) + PadMessages(1, pad) && padStatus[..] == old(padStatus[..])[pad := 1]
    {
      SendDeviceMidi(0x90, SESSION_PADS[pad], PAD_COLOUR[pad]);
      SendDeviceMidi(0x91, SESSION_PADS[pad], STARTING_COLOUR);
      padStatus[pad] := 1;
    }

    /** playing(pad): the pad's colour pulsing; status 2. */
    method Playing(pad: nat)
      requires Valid() && pad < 16
      modifies this`queue, padStatus
      ensures Valid()
      ensures queue == old(queue) + PadMessages(2, pad) && padStatus[..] == old(padStatus[..])[pad := 2]
    {
      SendDeviceMidi(0x92, SESSION_PADS[pad], PAD_COLOUR[pad]);
      padStatus[pad] := 2;
    }

    /** stopping(pad): the pad's colour, then the stopping colour flashing; status 3. */
    method Stopping(pad: nat)
      requires Valid() && pad < 16
      modifies this`queue, padStatus
      ensures Valid()
      ensures queue == old(queue) + PadMessages(3, pad) && padStatus[..] == old(padStatus[..])[pad := 3]
    {
      SendDeviceMidi(0x90, SESSION_PADS[pad], PAD_COLOUR[pad]);
      SendDeviceMidi(0x91, SESSION_PADS[pad], STOPPING_COLOUR);
      padStatus[pad] := 3;
    }

    /** setMidiChannel: only channels 0 to 15 are taken. */
    method SetMidiChannel(channel: nat)
      requires Valid()
      modifies this`midiChannel
      ensures Valid()
      ensures midiChannel == if channel < 16 then channel else old(midiChannel)
    {
      if channel < 16 {
        midiChannel := channel;
      }
    }

    /** selectKnobs: with the device connected and a bank below 7, stores the bank as
        the knob offset and tells the device (CC 9 on channel 16). */
    method SelectKnobs(bank: nat)
      requires Valid()
      modifies this`ccOffset, this`queue
      ensures Valid()
      ensures Connected() && bank < 7 ==> ccOffset == bank && queue == old(queue) + [Msg(0xBF, 9, bank)]
      ensures !(Connected() && bank < 7) ==> ccOffset == old(ccOffset) && queue == old(queue)
    {
      if Connected() && bank < 7 {
        ccOffset := bank;
        SendDeviceMidi(0xBF, 9, bank);
      }
    }

    /** selectPads: with the device connected, asks for pad mode `mode` (CC 3 on channel
        16, the mode reduced to a byte). */
    method SelectPads(mode: nat)
      requires Valid()
      modifies this`queue
      ensures Valid()
      ensures queue == old(queue) + (if Connected() then Queued(Msg(0xBF, 3, Byte(mode))) else [])
    {
      if Connected() {
        SendDeviceMidi(0xBF, 3, Byte(mode));
      }
    }

    /** enableSession: with the device connected, switches session mode on or off. */
    method EnableSession(enable: bool)
      requires Valid()
      modifies this`queue
      ensures Valid()
      ensures queue == old(queue) + (if Connected() then [SessionMsg(enable)] else [])
    {
      if Connected() {
        SendDeviceMidi(0x9F, 12, if enable then 127 else 0);
      }
    }

    /** The drum-pad loop of initLaunchkey: every drum pad in the drum colour. */
    method ColourDrumPads()
      requires Valid()
      modifies this`queue
      ensures Valid()
      ensures queue == old(queue) + DrumInit()
    {
      TablesAreData();
      ghost var all := DrumInit();
      var pad := 0;
      while pad < 16
        invariant pad <= 16 && Valid()
        invariant queue == old(queue) + all[..pad]
      {
        SendDeviceMidi(0x99, DRUM_PADS[pad], DRUM_COLOUR);
        assert all[..pad + 1] == all[..pad] + [all[pad]];
        pad := pad + 1;
      }
      assert all[..16] == all;
    }

    /** The session-pad loop of initLaunchkey: every session pad stopped. */
    method StopAllPads()
      requires Valid()
      modifies this`queue, padStatus
      ensures Valid()
      ensures queue == old(queue) + StoppedAll() && padStatus[..] == seq(16, _ => 0)
    {
      ghost var all := StoppedAll();
      var pad := 0;
      while pad < 16
        invariant pad <= 16 && Valid()
        invariant queue == old(queue) + all[..pad]
        invariant forall k :: 0 <= k < pad ==> padStatus[k] == 0
      {
        Stopped(pad);
        assert all[..pad + 1] == all[..pad] + [all[pad]];
        pad := pad + 1;
      }
      assert all[..16] == all;
    }

    /** initLaunchkey: with the device connected, queues InitMessages, leaves every
        session pad stopped and selects knob bank 1; otherwise does nothing. */
    method InitLaunchkey()
      requires Valid()
      modifies this`queue, this`ccOffset, padStatus
      ensures Valid()
      ensures Connected() ==> queue == old(queue) + InitMessages() && ccOffset == 1 && padStatus[..] == seq(16, _ => 0)
      ensures !Connected() ==> queue == old(queue) && ccOffset == old(ccOffset) && padStatus[..] == old(padStatus[..])
    {
      if !Connected() {
        return;
      }
      EnableSession(true);
      ColourDrumPads();
      StopAllPads();
      SelectKnobs(1);
    }

    /** The effect of onJackConnect once a port of the device has been recognised among
        the connected port's aliases: the input (or output) flag follows the connection,
        then the device is initialised. */
    method DeviceConnection(input: bool, connect: bool)
      requires Valid()
      modifies this`inputConnected, this`outputConnected, this`queue, this`ccOffset, padStatus
      ensures Valid()
      ensures (if input then inputConnected else outputConnected) == connect
      ensures (if input then outputConnected == old(outputConnected) else inputConnected == old(inputConnected))
      ensures Connected() ==> queue == old(queue) + InitMessages() && ccOffset == 1 && padStatus[..] == seq(16, _ => 0)
      ensures !Connected() ==> queue == old(queue) && ccOffset == old(ccOffset) && padStatus[..] == old(padStatus[..])
    {
      if input {
        inputConnected := connect;
      } else {
        outputConnected := connect;
      }
      InitLaunchkey();
    }

    /** One input event: the knob state and the device queue are updated as MapEvent
        says and the router messages are returned. */
    method HandleEvent(e: Msg) returns (out: seq<Msg>)
      requires Valid() && IsBytes(e)
      modifies this`ccOffset, this`shift, this`queue
      ensures Valid()
      ensures var r := MapEvent(e, old(ccOffset), old(shift), midiChannel);
        ccOffset == r.offset && shift == r.shift && queue == old(queue) + r.device && out == r.router
    {
      var r := MapEvent(e, ccOffset, shift, midiChannel);
      out := [];
      var cmd := e.status / 16 * 16;
      if cmd == 0x90 {
        if 35 < e.d1 < 52 {
          SendDeviceMidi(0x99, e.d1, DRUM_ON_COLOUR);
          out := [Msg(0x99, e.d1, e.d2)];
        }
      } else if cmd == 0x80 {
        if 35 < e.d1 < 52 {
          SendDeviceMidi(0x99, e.d1, DRUM_COLOUR);
          out := [Msg(0x89, e.d1, e.d2)];
        }
      } else if cmd == 0xB0 {
        if e.d1 == 9 {
          ccOffset := 8 * (e.d2 - 1);
        } else if e.d1 == 108 {
          shift := e.d2 != 0;
        }
        if 20 < e.d1 < 29 {
          var cc := e.d1 + ccOffset + (if shift then 40 else 0);
          out := [Msg(0xB0 + midiChannel, Byte(cc), e.d2)];
        }
      }
    }

    /** The end of onJackProcess: queued messages are written to the device buffer in
        order until it is full (room events); the queue is then emptied, unsent messages
        included. */
    method Flush(room: nat) returns (sent: seq<Msg>)
      requires Valid()
      modifies this`queue
      ensures Valid()
      ensures sent == Prefix(old(queue), room) && queue == []
    {
      sent := [];
      var k := 0;
      while k < |queue|
        invariant k <= |queue| && k <= room && sent == queue[..k]
      {
        if k == room {
          break;
        }
        sent := sent + [queue[k]];
        k := k + 1;
      }
      queue := [];
    }

    /** onJackProcess: translates the period's input events, with room for routerRoom
        events in the router buffer and deviceRoom in the device buffer; a message that
        does not fit is dropped. */
    method Process(events: seq<Msg>, routerRoom: nat, deviceRoom: nat) returns (router: seq<Msg>, device: seq<Msg>)
      requires Valid() && AllBytes(events)
      modifies this`ccOffset, this`shift, this`queue
      ensures Valid() && queue == []
      ensures var m := MapEvents(events, old(ccOffset), old(shift), midiChannel);
        ccOffset == m.offset && shift == m.shift
        && router == Prefix(m.router, routerRoom)
        && device == Prefix(old(queue) + m.device, deviceRoom)
    {
      router := [];
      var i := 0;
      while i < |events|
        invariant i <= |events| && Valid()
        invariant var m := MapEvents(events[..i], old(ccOffset), old(shift), midiChannel);
          ccOffset == m.offset && shift == m.shift && queue == old(queue) + m.device
          && router == Prefix(m.router, routerRoom)
      {
        ghost var before := MapEvents(events[..i], old(ccOffset), old(shift), midiChannel);
        ghost var step := MapEvent(events[i], before.offset, before.shift, midiChannel);
        ghost var q := queue;
        var out := HandleEvent(events[i]);
        assert queue == old(queue) + (before.device + step.device) by {
          assert queue == q + step.device;
        }
        MapEventsSnoc(events, i, old(ccOffset), old(shift), midiChannel);
        PrefixSnoc(before.router, out, routerRoom);
        if |router| < routerRoom {
          router := router + out;
        }
        i := i + 1;
      }
      assert events[..i] == events;
      device := Flush(deviceRoom);
    }
  }

  /** At the end of every period the device queue is empty, and what reached the device
      is the queue in order, cut off only when the buffer was full. */
  lemma ProcessSendsInOrder(q: seq<Msg>, room: nat)
    ensures Prefix(q, room) <= q
    ensures |q| <= room ==> Prefix(q, room) == q
    ensures room < |q| ==> |Prefix(q, room)| == room
  {
  }
}
