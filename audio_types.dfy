// Constants, state enumerations, C numeric conversions and the change-notification
// rule of the multi-instance audio file player (zynaudioplayer).
module AudioTypes {
  import opened Wrappers

  /** Number of player slots in the library's table. */
  const MAX_PLAYERS: nat := 17
  /** Frames read from the file per block by a newly added player. */
  const DEFAULT_INPUT_BUFFER: nat := 48000
  /** Ring buffers hold this many blocks in a newly added player. */
  const DEFAULT_BUFFER_COUNT: nat := 5
  /** JACK samplerate assumed until the server reports one. */
  const DEFAULT_SAMPLERATE: nat := 44100
  /** libsamplerate converter types used by the player (enumeration of samplerate.h). */
  const SRC_SINC_FASTEST: nat := 2
  const SRC_LINEAR: nat := 4
  /** Centre value of a 14-bit MIDI pitch-bend. */
  const PITCH_BEND_CENTRE: nat := 0x2000
  /** Equal-temperament frequency ratio of one semitone. */
  const SEMITONE: real := 1.059463094359
  /** Smallest gain change that is notified. */
  const GAIN_DELTA: real := 0.01

  const U32: nat := 0x1_0000_0000
  const U64: nat := 0x1_0000_0000_0000_0000

  /** play_state: the realtime transport machine. */
  datatype PlayState = Stopped | Starting | Playing | Stopping

  /** file_read_status: the file-reader machine. */
  datatype ReadStatus = Idle | Seeking | Loading | Looping

  /** file_open: 0 closed, 1 opening (reader thread starting), 2 open. */
  datatype FileState = Closed | Opening | Open

  /** What libsndfile reports about an opened file (SF_INFO). */
  datatype SoundInfo = SoundInfo(samplerate: nat, channels: int, frames: nat, format: int)

  /** The numeric value of a play state as the C enum and the notifications carry it. */
  function StateCode(s: PlayState): (c: nat)
    ensures c < 4
  {
    match s
    case Stopped => 0
    case Starting => 1
    case Playing => 2
    case Stopping => 3
  }

  /** Distinct play states are reported with distinct codes. */
  lemma StateCodeInjective(s: PlayState, t: PlayState)
    requires StateCode(s) == StateCode(t)
    ensures s == t
  {
  }

  // ---------------------------------------------------------------------------
  // C conversions
  // ---------------------------------------------------------------------------

  /** Conversion of a floating value to an integer type: truncation toward zero. */
  function Trunc(x: real): (n: int)
    ensures x >= 0.0 ==> 0 <= n && n as real <= x < n as real + 1.0
    ensures x < 0.0 ==> n <= 0 && n as real - 1.0 < x <= n as real
  {
    if x >= 0.0 then x.Floor else -((-x).Floor)
  }

  /** Storing a signed value into a 32-bit unsigned field (jack_nframes_t). */
  function ToU32(x: int): (n: nat)
    ensures n < U32
    ensures 0 <= x < U32 ==> n == x
    ensures x < 0 && -x < U32 ==> n == U32 + x
  {
    x % U32
  }

  /** A signed 64-bit value as the unsigned operand of a comparison with a size_t. */
  function ToU64(x: int): (n: nat)
    ensures n < U64
    ensures 0 <= x < U64 ==> n == x
    ensures x < 0 && -x < U64 ==> n == U64 + x
  {
    x % U64
  }

  /** C integer division (truncation toward zero) by a positive divisor. */
  function CDiv(a: int, b: nat): (q: int)
    requires b > 0
    ensures a >= 0 ==> q >= 0 && q * b <= a < (q + 1) * b
    ensures a < 0 ==> q <= 0 && (q - 1) * b < a <= q * b
  {
    DivBounds(if a >= 0 then a else -a, b);
    if a >= 0 then a / b
    else
      var q := (-a) / b;
      assert (-q) * b == -(q * b) && (-q - 1) * b == -((q + 1) * b);
      -q
  }

  /** Euclidean division of a non-negative dividend brackets it between two multiples. */
  lemma DivBounds(a: int, b: int)
    requires a >= 0 && b > 0
    ensures 0 <= a / b && (a / b) * b <= a < (a / b + 1) * b
  {
    var q, r := a / b, a % b;
    assert a == q * b + r && 0 <= r < b;
    assert (q + 1) * b == q * b + b;
  }

  // Real arithmetic steps the solver is given one at a time.

  lemma MulMonotonic(x: real, y: real, p: real)
    requires x <= y && p > 0.0
    ensures x * p <= y * p
  {
  }

  lemma MulStrict(x: real, y: real, p: real)
    requires x < y && p > 0.0
    ensures x * p < y * p
  {
  }

  lemma QuotientTimes(x: real, y: real)
    requires y > 0.0
    ensures (x / y) * y == x
  {
  }

  lemma DivSelf(y: real)
    requires y > 0.0
    ensures y / y == 1.0
  {
  }

  lemma DivAtLeast(x: real, y: real, c: real)
    requires y > 0.0 && x >= c * y
    ensures x / y >= c
  {
  }

  /** The ratio of two rates: one for equal rates, and below 0.1 only when the dividend
      is below a tenth of the divisor. */
  lemma RateRatio(x: real, y: real)
    requires y > 0.0
    ensures (x / y) * y == x
    ensures x == y ==> x / y == 1.0
    ensures x / y < 0.1 ==> x < 0.1 * y
  {
    QuotientTimes(x, y);
    if x == y {
      DivSelf(y);
    }
    if x >= 0.1 * y {
      DivAtLeast(x, y, 0.1);
    }
  }

  /** A frame count rescaled by the samplerate ratio and stored in an integer field. */
  function Scale(n: int, ratio: real): (m: int)
    ensures ratio > 0.0 && n >= 0 ==> 0 <= m && m as real <= n as real * ratio
  {
    Trunc(n as real * ratio)
  }

  /** Rescaling never reverses the order of two frame counts. */
  lemma ScaleMonotonic(a: int, b: int, ratio: real)
    requires 0 <= a <= b && ratio > 0.0
    ensures Scale(a, ratio) <= Scale(b, ratio)
  {
    MulMonotonic(a as real, b as real, ratio);
    TruncMonotonic(a as real * ratio, b as real * ratio);
  }

  lemma TruncMonotonic(x: real, y: real)
    requires 0.0 <= x <= y
    ensures Trunc(x) <= Trunc(y)
  {
    assert Trunc(x) as real < (Trunc(y) + 1) as real;
  }

  // ---------------------------------------------------------------------------
  // Pitch ratio of a MIDI note
  // ---------------------------------------------------------------------------

  /** b raised to a natural power. */
  function Pow(b: real, e: nat): (r: real)
    requires b > 0.0
    ensures r > 0.0
    ensures b > 1.0 && e > 0 ==> r > 1.0
  {
    if e == 0 then 1.0 else b * Pow(b, e - 1)
  }

  /** The pitch_shift a note-on sets: SEMITONE raised to (60 - note). It counts output
      samples per input sample, so middle C plays at the recorded speed and a lower note
      plays slower. */
  function PitchRatio(note: nat): (r: real)
    ensures r > 0.0
    ensures note == 60 ==> r == 1.0
    ensures note < 60 ==> r > 1.0
    ensures note > 60 ==> r < 1.0
  {
    if note <= 60 then Pow(SEMITONE, 60 - note) else 1.0 / Pow(SEMITONE, note - 60)
  }

  /** Each semitone up divides the pitch ratio by SEMITONE: the 12-tone equal-tempered scale. */
  lemma {:induction false} PitchRatioStep(note: nat)
    ensures PitchRatio(note) == SEMITONE * PitchRatio(note + 1)
  {
    if note + 1 <= 60 {
      assert Pow(SEMITONE, 60 - note) == SEMITONE * Pow(SEMITONE, 60 - note - 1);
    } else {
      var p := Pow(SEMITONE, note - 60);
      assert Pow(SEMITONE, note + 1 - 60) == SEMITONE * p;
      if note == 60 {
        assert p == 1.0;
      } else {
        calc {
          SEMITONE * PitchRatio(note + 1);
          SEMITONE * (1.0 / (SEMITONE * p));
          1.0 / p;
        }
      }
    }
  }

  // ---------------------------------------------------------------------------
  // Change notification (send_notifications)
  // ---------------------------------------------------------------------------

  /** The selector a caller passes, and the tag of each notification the callback receives. */
  datatype NotifyParam =
    | NotifyAll | NotifyTransport | NotifyPosition | NotifyGain | NotifyLoop
    | NotifyLoopStart | NotifyLoopEnd | NotifyTrackA | NotifyTrackB | NotifyQuality

  /** The watched values as the player holds them now; position and loop times in seconds. */
  datatype Watched = Watched(
    playState: PlayState, position: real, gain: real, loop: bool,
    loopStart: int, loopEnd: int, trackA: int, trackB: int, quality: nat,
    loopStartTime: real, loopEndTime: real)

  /** The last_* fields: each watched value as it was last notified. A play state of
      None stands for the out-of-range value written when a file is opened. */
  datatype Snapshot = Snapshot(
    playState: Option<PlayState>, position: real, gain: real, loop: bool,
    loopStart: int, loopEnd: int, trackA: int, trackB: int, quality: nat)

  /** One call of the client's callback: player handle, tag and value. */
  datatype Event = Event(handle: nat, param: NotifyParam, value: real)

  /** The fields in the order send_notifications visits them. */
  const Fields: seq<NotifyParam> := [NotifyTransport, NotifyPosition, NotifyGain, NotifyLoop,
    NotifyLoopStart, NotifyLoopEnd, NotifyTrackA, NotifyTrackB, NotifyQuality]

  predicate Selected(param: NotifyParam, f: NotifyParam) { param == NotifyAll || param == f }

  function Abs(x: real): real { if x < 0.0 then -x else x }

  /** Whether field f has moved away from its snapshot far enough to be notified. */
  predicate Changed(f: NotifyParam, w: Watched, s: Snapshot, delta: real)
  {
    match f
    case NotifyAll => false
    case NotifyTransport => s.playState != Some(w.playState)
    case NotifyPosition => Abs(w.position - s.position) >= delta
    case NotifyGain => Abs(w.gain - s.gain) >= GAIN_DELTA
    case NotifyLoop => w.loop != s.loop
    case NotifyLoopStart => w.loopStart != s.loopStart
    case NotifyLoopEnd => w.loopEnd != s.loopEnd
    case NotifyTrackA => w.trackA != s.trackA
    case NotifyTrackB => w.trackB != s.trackB
    case NotifyQuality => w.quality != s.quality
  }

  /** The snapshot with field f brought up to date. */
  function Record(f: NotifyParam, w: Watched, s: Snapshot): Snapshot
  {
    match f
    case NotifyAll => s
    case NotifyTransport => s.(playState := Some(w.playState))
    case NotifyPosition => s.(position := w.position)
    case NotifyGain => s.(gain := w.gain)
    case NotifyLoop => s.(loop := w.loop)
    case NotifyLoopStart => s.(loopStart := w.loopStart)
    case NotifyLoopEnd => s.(loopEnd := w.loopEnd)
    case NotifyTrackA => s.(trackA := w.trackA)
    case NotifyTrackB => s.(trackB := w.trackB)
    case NotifyQuality => s.(quality := w.quality)
  }

  /** The value handed to the callback for field f. */
  function Value(f: NotifyParam, w: Watched): real
  {
    match f
    case NotifyAll => 0.0
    case NotifyTransport => StateCode(w.playState) as real
    case NotifyPosition => w.position
    case NotifyGain => w.gain
    case NotifyLoop => if w.loop then 1.0 else 0.0
    case NotifyLoopStart => w.loopStartTime
    case NotifyLoopEnd => w.loopEndTime
    case NotifyTrackA => w.trackA as real
    case NotifyTrackB => w.trackB as real
    case NotifyQuality => w.quality as real
  }

  /** Visits `fields` in order; every selected field that changed is recorded in the
      snapshot and yields one event. */
  function DispatchFrom(handle: nat, param: NotifyParam, fields: seq<NotifyParam>, w: Watched,
                        s: Snapshot, delta: real): (r: (Snapshot, seq<Event>))
    decreases |fields|
  {
    if fields == [] then (s, [])
    else
      var f := fields[0];
      if Selected(param, f) && Changed(f, w, s, delta) then
        var rest := DispatchFrom(handle, param, fields[1..], w, Record(f, w, s), delta);
        (rest.0, [Event(handle, f, Value(f, w))] + rest.1)
      else
        DispatchFrom(handle, param, fields[1..], w, s, delta)
  }

  /** send_notifications: the new snapshot and the events, in callback order. */
  function Dispatch(handle: nat, param: NotifyParam, w: Watched, s: Snapshot, delta: real): (Snapshot, seq<Event>)
  {
    DispatchFrom(handle, param, Fields, w, s, delta)
  }

  predicate Distinct(fields: seq<NotifyParam>)
  {
    forall i, j :: 0 <= i < j < |fields| ==> fields[i] != fields[j]
  }

  /** send_notifications visits each field once and never visits NotifyAll. */
  lemma FieldsDistinct()
    ensures Distinct(Fields) && NotifyAll !in Fields
  {
  }

  /** Recording a field settles it: with a positive position tolerance it no longer
      counts as changed. */
  lemma RecordSettles(f: NotifyParam, w: Watched, s: Snapshot, delta: real)
    requires delta > 0.0
    ensures !Changed(f, w, Record(f, w, s), delta)
  {
  }

  /** Recording one field does not affect whether another field has changed. */
  lemma RecordOther(f: NotifyParam, g: NotifyParam, w: Watched, s: Snapshot, delta: real)
    requires f != g
    ensures Changed(g, w, Record(f, w, s), delta) == Changed(g, w, s, delta)
  {
  }

  /** An event is sent for exactly the selected fields that changed, carrying the
      field's current value; fields not visited keep their snapshot. */
  lemma {:induction false} DispatchEvents(handle: nat, param: NotifyParam, fields: seq<NotifyParam>,
                                          w: Watched, s: Snapshot, delta: real)
    requires Distinct(fields) && NotifyAll !in fields
    ensures var r := DispatchFrom(handle, param, fields, w, s, delta);
      forall e :: e in r.1 <==>
        e.handle == handle && e.param in fields && Selected(param, e.param)
        && Changed(e.param, w, s, delta) && e.value == Value(e.param, w)
    ensures var r := DispatchFrom(handle, param, fields, w, s, delta);
      forall g :: g !in fields ==> Changed(g, w, r.0, delta) == Changed(g, w, s, delta)
    decreases |fields|
  {
    if fields != [] {
      var f := fields[0];
      var tail := fields[1..];
      assert Distinct(tail);
      assert f !in tail by {
        forall i | 0 <= i < |tail| ensures tail[i] != f { assert tail[i] == fields[i + 1]; }
      }
      if Selected(param, f) && Changed(f, w, s, delta) {
        var s' := Record(f, w, s);
        DispatchEvents(handle, param, tail, w, s', delta);
        forall g | g in tail ensures Changed(g, w, s', delta) == Changed(g, w, s, delta) {
          RecordOther(f, g, w, s, delta);
        }
        forall g | g !in fields ensures Changed(g, w, s', delta) == Changed(g, w, s, delta) {
          RecordOther(f, g, w, s, delta);
        }
      } else {
        DispatchEvents(handle, param, tail, w, s, delta);
      }
    }
  }

  /** After a dispatch every selected field is settled, provided the position tolerance
      is positive. */
  lemma {:induction false} DispatchSettles(handle: nat, param: NotifyParam, fields: seq<NotifyParam>,
                                           w: Watched, s: Snapshot, delta: real)
    requires Distinct(fields) && NotifyAll !in fields && delta > 0.0
    ensures var r := DispatchFrom(handle, param, fields, w, s, delta);
      forall f :: f in fields && Selected(param, f) ==> !Changed(f, w, r.0, delta)
    decreases |fields|
  {
    if fields != [] {
      var f := fields[0];
      var tail := fields[1..];
      assert Distinct(tail);
      assert f !in tail by {
        forall i | 0 <= i < |tail| ensures tail[i] != f { assert tail[i] == fields[i + 1]; }
      }
      var s' := if Selected(param, f) && Changed(f, w, s, delta) then Record(f, w, s) else s;
      DispatchSettles(handle, param, tail, w, s', delta);
      DispatchEvents(handle, param, tail, w, s', delta);
      RecordSettles(f, w, s, delta);
    }
  }

  /** When no selected field has changed, a dispatch sends nothing and keeps the snapshot. */
  lemma {:induction false} DispatchQuiet(handle: nat, param: NotifyParam, fields: seq<NotifyParam>,
                                         w: Watched, s: Snapshot, delta: real)
    requires forall f :: f in fields && Selected(param, f) ==> !Changed(f, w, s, delta)
    ensures DispatchFrom(handle, param, fields, w, s, delta) == (s, [])
    decreases |fields|
  {
    if fields != [] {
      assert fields[0] in fields;
      forall f | f in fields[1..] ensures f in fields { }
      DispatchQuiet(handle, param, fields[1..], w, s, delta);
    }
  }

  /** send_notifications is idempotent: a second call with nothing changed in between
      notifies nothing. */
  lemma DispatchIdempotent(handle: nat, param: NotifyParam, w: Watched, s: Snapshot, delta: real)
    requires delta > 0.0
    ensures Dispatch(handle, param, w, Dispatch(handle, param, w, s, delta).0, delta).1 == []
  {
    FieldsDistinct();
    var s' := Dispatch(handle, param, w, s, delta).0;
    DispatchSettles(handle, param, Fields, w, s, delta);
    DispatchQuiet(handle, param, Fields, w, s', delta);
  }
}
