// One audio player instance (struct AUDIO_PLAYER of zynaudioplayer): its guarded
// setters and getters, load and unload, one iteration of the file-reader thread, one
// JACK period of the realtime callback, and its reaction to a MIDI message.
// The decoder (libsndfile), the resampler (libsamplerate) and thread creation are
// oracles: their answers are parameters. The JACK samplerate g_samplerate is the
// parameter `rate`. Port buffers are arrays passed in.
//
// The instance's fields are grouped by what updates them together: the transport (play
// state, reader state, play position, loop loaded), the loop region, the open file's
// description, the mix settings, the buffer sizes, the pitch state, the reader thread's
// own variables, the two ring buffers, and the notification state.
module AudioPlayer {
  import opened Wrappers
  import opened AudioTypes
  import opened Ring
  import opened PlayerRules
  import opened PortBuffers
  import opened Midi

  /** sf_info, src_ratio, and the file's length in output frames (frames). */
  datatype Media = Media(info: SoundInfo, srcRatio: real, frames: nat)

  predicate MediaOk(m: Media)
  {
    m.info.samplerate > 0 && m.info.channels >= 1 && m.srcRatio > 0.0
    && m.frames == Scale(m.info.frames, m.srcRatio)
  }

  /** loop_start and loop_end in native frames, and their copies in output frames
      (loop_start_src and loop_end_src). */
  datatype Region = Region(start: int, end: int, startSrc: int, endSrc: int)

  predicate RegionOk(r: Region, m: Media)
  {
    0 <= r.start <= r.end <= m.info.frames
    && r.startSrc == Scale(r.start, m.srcRatio) && r.endSrc == Scale(r.end, m.srcRatio)
  }

  /** A loop inside the file stays inside it, in order, at the output rate. */
  lemma RegionOrdered(r: Region, m: Media)
    requires MediaOk(m) && RegionOk(r, m)
    ensures 0 <= r.startSrc <= r.endSrc <= m.frames
  {
    ScaleMonotonic(r.start, r.end, m.srcRatio);
    ScaleMonotonic(r.end, m.info.frames, m.srcRatio);
  }

  /** gain, track_a, track_b and src_quality. A negative track mixes the even (A) or
      odd (B) tracks. */
  datatype Mix = Mix(gain: real, trackA: int, trackB: int, quality: nat)

  /** input_buffer_size (frames read per block), output_buffer_size (frames produced per
      block after conversion) and buffer_count (blocks per ring buffer). */
  datatype Sizes = Sizes(input: nat, output: nat, count: nat)

  /** pitch_shift, pitch_bend and last_note_played. */
  datatype Pitch = Pitch(shift: real, bend: nat, lastNote: nat)

  /** file_read_pos, and the reader thread's nUnusedFrames and end-of-input flag. */
  datatype Reader = Reader(readPos: int, unused: nat, endOfInput: bool)

  /** ringbuffer_a and ringbuffer_b. */
  datatype Legs = Legs(a: Fifo, b: Fifo)

  const NoLegs: Legs := Legs(Fifo([], 0), Fifo([], 0))

  function ResetLegs(l: Legs): (r: Legs)
    ensures r.a.data == [] && r.b.data == [] && r.a.cap == l.a.cap && r.b.cap == l.b.cap
  {
    Legs(Reset(l.a), Reset(l.b))
  }

  /** The last_* snapshot, whether a callback is installed (cb_fn), pos_notify_delta,
      and every call made to the callback, in order. */
  datatype Notifier = Notifier(last: Snapshot, callback: bool, posDelta: real, sent: seq<Event>)

  /** src_ratio as set when a file opens: output rate over file rate, where a ratio
      below 0.1 (a JACK rate of 0 included) is replaced by 1. */
  function SrcRatio(rate: nat, fileRate: nat): (r: real)
    requires fileRate > 0
    ensures r >= 0.1
    ensures rate as real >= 0.1 * fileRate as real ==> r * fileRate as real == rate as real
    ensures rate == fileRate ==> r == 1.0
  {
    var q := rate as real / fileRate as real;
    RateRatio(rate as real, fileRate as real);
    if q < 0.1 then 1.0 else q
  }

  /** get_position's value: the play position in seconds at the JACK rate, 0 without an
      open file or a rate. */
  function Seconds(open: bool, pos: nat, rate: nat): real
  {
    if open && rate > 0 then pos as real / rate as real else 0.0
  }

  /** A loop bound in seconds at the file's rate, 0 for a rate of 0. */
  function LoopTime(frame: int, samplerate: nat): real
  {
    if samplerate == 0 then 0.0 else frame as real / samplerate as real
  }

  /** The values send_notifications compares with the snapshot. */
  function Observe(open: bool, playState: PlayState, pos: nat, mix: Mix, loop: bool, region: Region,
                   media: Media, rate: nat): Watched
  {
    Watched(playState, Seconds(open, pos, rate), mix.gain, loop, region.start, region.end,
            mix.trackA, mix.trackB, mix.quality,
            LoopTime(region.start, media.info.samplerate), LoopTime(region.end, media.info.samplerate))
  }

  /** send_notifications(param) on notification state n: nothing unless the file is
      open; otherwise every selected field that changed is recorded in the snapshot, and
      reported when a callback is installed. */
  function NoticeOf(n: Notifier, handle: nat, param: NotifyParam, w: Watched, open: bool): (r: Notifier)
    ensures r.callback == n.callback && r.posDelta == n.posDelta && n.sent <= r.sent
    ensures !open || !n.callback ==> r.sent == n.sent
  {
    if !open then n
    else
      var d := Dispatch(handle, param, w, n.last, n.posDelta);
      n.(last := d.0, sent := n.sent + if n.callback then d.1 else [])
  }

  /** The reader at the top of an iteration: a seek request (after which the legs are
      emptied) or a loop request is answered by a seek of the decoder, which lands at
      `seekResult` unless that is negative, and loading starts afresh; the loop is then
      marked loaded. Otherwise nothing changes. */
  function StartBlock(t: Transport, rd: Reader, seekResult: int): (Transport, Reader)
  {
    var at := if seekResult >= 0 then seekResult else rd.readPos;
    if t.readStatus == Seeking then (t.(readStatus := Loading, loopLoaded := false), Reader(at, 0, false))
    else if t.readStatus == Looping then (t.(readStatus := Loading, loopLoaded := true), Reader(at, 0, false))
    else (t, rd)
  }

  /** One block read while loading: the decoder has `available` frames from the read
      position and delivers at most the request; with conversion the converter consumes
      `used` of them and produces `produced` frames. A short read ends the file, or asks
      for the loop once. The last component is the frames handed to the demux. */
  function ReadStep(t: Transport, rd: Reader, available: nat, used: nat, produced: nat,
                    ratioIsOne: bool, loop: bool, loopEnd: int, block: nat): (Transport, Reader, nat)
    requires rd.unused <= block
  {
    if t.readStatus != Loading then (t, rd, 0)
    else
      var request := RequestSize(ratioIsOne, loop, rd.readPos, loopEnd, block, rd.unused);
      var nRead := Min(available, request);
      var status := AfterRead(nRead, loop, t.loopLoaded);
      var eoi := if nRead > 0 then rd.endOfInput else !(loop && t.loopLoaded);
      var unused := if ratioIsOne then rd.unused else nRead - Min(used, nRead);
      (t.(readStatus := status), Reader(rd.readPos + nRead, unused, eoi), if ratioIsOne then nRead else produced)
  }

  /** After the top of an iteration the reader is loading or idle: a seek or loop
      request is always answered before the read. */
  lemma StartBlockAnswers(t: Transport, rd: Reader, seekResult: int)
    ensures var s := StartBlock(t, rd, seekResult);
      s.0.readStatus !in {Seeking, Looping} && s.0.pos == t.pos && s.0.playState == t.playState
      && (t.readStatus in {Seeking, Looping} <==> s.0.readStatus == Loading && t.readStatus != Loading)
      && (t.readStatus == Looping ==> s.0.loopLoaded && s.1.unused == 0)
      && (seekResult >= 0 && t.readStatus in {Seeking, Looping} ==> s.1.readPos == seekResult)
  {
  }

  /** One read never delivers more than the request, so the leftover input stays within
      the input block; with looping on and no conversion the read position never passes
      the loop end; and a read asks for the loop only when the loop is not yet loaded, so
      at most one loop is read ahead. */
  lemma ReadStepBounds(t: Transport, rd: Reader, available: nat, used: nat, produced: nat,
                       ratioIsOne: bool, loop: bool, loopEnd: int, block: nat)
    requires rd.unused <= block
    ensures var s := ReadStep(t, rd, available, used, produced, ratioIsOne, loop, loopEnd, block);
      s.1.unused <= block
      && (ratioIsOne && loop && rd.readPos <= loopEnd ==> s.1.readPos <= loopEnd)
      && (s.0.readStatus == Looping && t.readStatus == Loading ==> !t.loopLoaded && loop)
      && (t.readStatus == Loading && ratioIsOne ==> s.2 <= available)
      && (t.readStatus == Loading ==> rd.readPos <= s.1.readPos <= rd.readPos + available)
      && (t.readStatus != Seeking ==> s.0.readStatus != Seeking)
  {
  }

  /** Sets a leg's source track while a file is open: always 0 for a mono file, and only
      tracks below the channel count (negative ones mixing) are accepted. */
  function TrackChoice(track: int, current: int, channels: int): (r: int)
    ensures current < channels && channels >= 1 ==> r < channels
    ensures track < channels && channels > 1 ==> r == track
    ensures track >= channels ==> r == current
  {
    if track >= channels then current else if channels == 1 then 0 else track
  }

  /** The state stop_playback leaves: any state but stopped becomes stopping. */
  function Halted(s: PlayState): PlayState
  {
    if s == Stopped then Stopped else Stopping
  }

  /** The effect of one period on a player in state s with port contents a0, b0, giving
      state r and port contents a1, b1, with aCount samples written and rCount drained:
      without an open file nothing changes; otherwise the transport moves by Period, the
      legs lose their first rCount samples, the first aCount port samples hold the drained
      samples (scaled by the gain, and ramped down when the period stopped the player) and
      the rest are silent. Nothing else changes. */
  ghost predicate PeriodStep(s: PlayerState, a0: seq<real>, b0: seq<real>,
                             r: PlayerState, a1: seq<real>, b1: seq<real>, aCount: nat, rCount: nat)
  {
    r == s.(t := r.t, legs := r.legs)
    && (s.fileOpen != Open ==> aCount == 0 && rCount == 0 && a1 == a0 && b1 == b0 && r == s)
    && (s.fileOpen == Open ==>
          0 <= s.region.endSrc
          && r.t == Period(s.t, rCount, r.legs.a.data == [], s.loop, s.region.startSrc, s.region.endSrc, s.media.frames)
          && aCount <= |a1| && rCount <= |s.legs.a.data| && rCount <= |s.legs.b.data|
          && r.legs.a.data == s.legs.a.data[rCount..] && r.legs.b.data == s.legs.b.data[rCount..]
          && Silent(a1, aCount) && Silent(b1, aCount)
          && Drained(a1, b1, aCount, s.pitch.shift, s.mix.gain, s.legs.a.data, s.legs.b.data,
                     Rolling(Begin(s.t).playState)
                     && Advance(Begin(s.t), rCount, r.legs.a.data == [], s.loop, s.region.startSrc, s.region.endSrc,
                                s.media.frames).playState == Stopping))
  }

  /** All of a player's variable state. */
  datatype PlayerState = PlayerState(fileOpen: FileState, t: Transport, loop: bool, region: Region, media: Media,
                                     mix: Mix, sizes: Sizes, pitch: Pitch, reader: Reader, legs: Legs,
                                     notifier: Notifier, filename: string)

  class Player {
    const handle: nat
    var fileOpen: FileState
    var t: Transport
    var loop: bool
    var region: Region
    var media: Media
    var mix: Mix
    var sizes: Sizes
    var pitch: Pitch
    var reader: Reader
    var legs: Legs
    var notifier: Notifier
    var filename: string

    predicate Valid()
      reads this`t, this`pitch, this`legs, this`fileOpen, this`media, this`region, this`mix, this`reader, this`sizes
    {
      t.pos < U32 && pitch.lastNote < 256 && Aligned(legs.a, legs.b)
      && (fileOpen == Open ==>
            MediaOk(media) && RegionOk(region, media)
            && mix.trackA < media.info.channels && mix.trackB < media.info.channels
            && pitch.shift > 0.0 && reader.unused <= sizes.input)
    }

    /** The values send_notifications compares with the snapshot now. */
    function Watch(rate: nat): Watched
      reads this`fileOpen, this`t, this`mix, this`loop, this`region, this`media
    {
      Observe(fileOpen == Open, t.playState, t.pos, mix, loop, region, media, rate)
    }

    /** send_notifications(param) applied to notification state n, now. */
    function Notice(n: Notifier, param: NotifyParam, rate: nat): Notifier
      reads this`fileOpen, this`t, this`mix, this`loop, this`region, this`media
    {
      NoticeOf(n, handle, param, Watch(rate), fileOpen == Open)
    }

    /** The state add_player gives a fresh instance with handle h: no file, stopped and
        idle at position 0, gain 1, both tracks 0, the default input block and buffer
        count, a loop over the first input block, no note played, no ring buffers and no
        notifications sent. */
    predicate Initial(h: nat)
      reads this
    {
      handle == h && fileOpen == Closed && !loop && filename == []
      && t.playState == Stopped && t.readStatus == Idle && t.pos == 0
      && mix == Mix(1.0, 0, 0, SRC_SINC_FASTEST)
      && sizes.input == DEFAULT_INPUT_BUFFER && sizes.count == DEFAULT_BUFFER_COUNT
      && media.frames == 0 && region == Region(0, DEFAULT_INPUT_BUFFER, 0, DEFAULT_INPUT_BUFFER)
      && pitch.lastNote == 0 && legs == NoLegs
      && notifier.last.trackA == 0 && notifier.last.trackB == 0 && notifier.sent == []
    }

    /** add_player's initialisation of a fresh instance. Fields add_player leaves
        uninitialised (pitch, ratio, file info, most of the snapshot, the callback, the
        reader) keep arbitrary values; the ring buffers do not exist yet. */
    constructor (h: nat)
      ensures Valid() && Initial(h)
    {
      var loaded: bool := *;
      var m: Media := *;
      var z: Sizes := *;
      var p: Pitch := *;
      var rd: Reader := *;
      var n: Notifier := *;
      handle := h;
      fileOpen := Closed;
      t := Transport(Stopped, Idle, 0, loaded);
      loop := false;
      region := Region(0, DEFAULT_INPUT_BUFFER, 0, DEFAULT_INPUT_BUFFER);
      media := m.(frames := 0);
      mix := Mix(1.0, 0, 0, SRC_SINC_FASTEST);
      sizes := z.(input := DEFAULT_INPUT_BUFFER, count := DEFAULT_BUFFER_COUNT);
      pitch := p.(lastNote := 0);
      reader := rd;
      legs := NoLegs;
      notifier := n.(last := n.last.(trackA := 0, trackB := 0), sent := []);
      filename := [];
    }

    /** send_notifications(param). */
    method Notify(param: NotifyParam, rate: nat)
      modifies this`notifier
      ensures notifier == Notice(old(notifier), param, rate)
    {
      if fileOpen != Open {
        return;
      }
      var d := Dispatch(handle, param, Watch(rate), notifier.last, notifier.posDelta);
      var events := if notifier.callback then d.1 else [];
      notifier := notifier.(last := d.0, sent := notifier.sent + events);
    }

    /** set_position once the time is converted to a frame, up to its notification:
        moves the play head to frame `req` (clamped into the loop, or onto the file),
        asks the reader to seek, and empties both legs. */
    method MoveToFrame(req: int)
      requires Valid()
      modifies this`t, this`legs
      ensures Valid()
      ensures fileOpen != Open ==> t == old(t) && legs == old(legs)
      ensures fileOpen == Open ==>
        t == old(t).(readStatus := Seeking, pos := ToU32(SeekTarget(req, loop, region.startSrc, region.endSrc, media.frames)))
        && legs == ResetLegs(old(legs))
      ensures fileOpen == Open && loop && region.endSrc < U32 ==> region.startSrc <= t.pos <= region.endSrc
    {
      if fileOpen != Open {
        return;
      }
      var target := SeekTarget(req, loop, region.startSrc, region.endSrc, media.frames);
      if loop {
        RegionOrdered(region, media);
        SeekTargetInLoop(req, region.startSrc, region.endSrc, media.frames);
      }
      t := t.(readStatus := Seeking, pos := ToU32(target));
      legs := ResetLegs(legs);
    }

    /** set_position of the time of frame `req`: the move, then a position notification. */
    method SeekTo(req: int, rate: nat)
      requires Valid()
      modifies this`t, this`legs, this`notifier
      ensures Valid()
      ensures fileOpen != Open ==> t == old(t) && legs == old(legs) && notifier == old(notifier)
      ensures fileOpen == Open ==>
        t == old(t).(readStatus := Seeking, pos := ToU32(SeekTarget(req, loop, region.startSrc, region.endSrc, media.frames)))
        && legs == ResetLegs(old(legs)) && notifier == Notice(old(notifier), NotifyPosition, rate)
      ensures fileOpen == Open && loop && region.endSrc < U32 ==> region.startSrc <= t.pos <= region.endSrc
    {
      MoveToFrame(req);
      Notify(NotifyPosition, rate);
    }

    /** set_position: `time` seconds at the JACK rate, truncated to a frame. */
    method SetPosition(time: real, rate: nat)
      requires Valid()
      modifies this`t, this`legs, this`notifier
      ensures Valid()
      ensures fileOpen != Open ==> t == old(t) && legs == old(legs) && notifier == old(notifier)
      ensures fileOpen == Open ==>
        t == old(t).(readStatus := Seeking,
                     pos := ToU32(SeekTarget(Trunc(time * rate as real), loop, region.startSrc, region.endSrc, media.frames)))
        && legs == ResetLegs(old(legs)) && notifier == Notice(old(notifier), NotifyPosition, rate)
      ensures fileOpen == Open && loop && region.endSrc < U32 ==> region.startSrc <= t.pos <= region.endSrc
    {
      SeekTo(Trunc(time * rate as real), rate);
    }

    /** set_position(get_position()): re-applies the clamp to the current play head. The
        position converts to seconds and back to the same frame (PositionRoundTrip); with
        a JACK rate of 0 it reads as 0 s, which is frame 0. */
    method ReSeek(rate: nat)
      requires Valid()
      modifies this`t, this`legs, this`notifier
      ensures Valid()
      ensures fileOpen != Open ==> t == old(t) && legs == old(legs) && notifier == old(notifier)
      ensures fileOpen == Open ==>
        t == old(t).(readStatus := Seeking,
                     pos := ToU32(SeekTarget(if rate > 0 then old(t).pos else 0, loop, region.startSrc, region.endSrc, media.frames)))
        && legs == ResetLegs(old(legs)) && notifier == Notice(old(notifier), NotifyPosition, rate)
    {
      if rate > 0 {
        PositionRoundTrip(t.pos, rate);
        SeekTo(t.pos, rate);
      } else {
        SeekTo(0, rate);
      }
    }

    /** enable_loop's move of a play head outside the loop onto the nearer loop bound,
        by set_position of the bound's time (which converts back to the bound exactly,
        EntryTimeExact). */
    method EnterLoop(rate: nat)
      requires Valid() && loop && rate > 0
      modifies this`t, this`legs, this`notifier
      ensures Valid()
      ensures var moved := fileOpen == Open && (old(t).pos < region.startSrc || old(t).pos > region.endSrc);
        var bound := if old(t).pos < region.startSrc then region.startSrc else region.endSrc;
        (moved ==> t == old(t).(readStatus := Seeking, pos := ToU32(bound)) && legs == ResetLegs(old(legs))
                   && notifier == Notice(old(notifier), NotifyPosition, rate))
        && (!moved ==> t == old(t) && legs == old(legs) && notifier == old(notifier))
      ensures fileOpen == Open && region.endSrc < U32 ==> region.startSrc <= t.pos <= region.endSrc
    {
      if fileOpen == Open {
        RegionOrdered(region, media);
      }
      if t.pos < region.startSrc {
        SeekBound(region.startSrc, rate);
      }
      if t.pos > region.endSrc {
        SeekBound(region.endSrc, rate);
      }
    }

    /** set_position of the time of a loop bound, which converts back to the bound
        exactly (EntryTimeExact) and lies inside the loop, so the play head lands on it. */
    method SeekBound(bound: int, rate: nat)
      requires Valid() && loop && rate > 0
      requires fileOpen == Open ==> region.startSrc <= bound <= region.endSrc
      modifies this`t, this`legs, this`notifier
      ensures Valid()
      ensures fileOpen != Open ==> t == old(t) && legs == old(legs) && notifier == old(notifier)
      ensures fileOpen == Open ==>
        t == old(t).(readStatus := Seeking, pos := ToU32(bound))
        && legs == ResetLegs(old(legs)) && notifier == Notice(old(notifier), NotifyPosition, rate)
    {
      EntryTimeExact(bound, rate);
      if fileOpen == Open {
        SeekTargetInLoop(bound, region.startSrc, region.endSrc, media.frames);
      }
      SeekTo(bound, rate);
    }

    /** enable_loop, as intended (the loop bound converted to seconds exactly): sets
        looping; with looping on, moves a play head outside the loop onto the nearer loop
        bound and asks an idle reader to load the loop; then notifies the loop flag. */
    method EnableLoop(b: bool, rate: nat)
      requires Valid()
      modifies this`loop, this`t, this`legs, this`notifier
      ensures Valid() && loop == b
      ensures var moved := b && rate > 0 && fileOpen == Open
                           && (old(t).pos < region.startSrc || old(t).pos > region.endSrc);
        var bound := if old(t).pos < region.startSrc then region.startSrc else region.endSrc;
        var t1 := if moved then old(t).(readStatus := Seeking, pos := ToU32(bound)) else old(t);
        t == (if b && t1.readStatus == Idle then t1.(readStatus := Looping) else t1)
        && legs == (if moved then ResetLegs(old(legs)) else old(legs))
        && notifier == Notice(if moved then Notice(old(notifier), NotifyPosition, rate) else old(notifier), NotifyLoop, rate)
      ensures b && rate > 0 && fileOpen == Open && region.endSrc < U32 ==> region.startSrc <= t.pos <= region.endSrc
    {
      loop := b;
      if b {
        LoopOn(rate);
      }
      Notify(NotifyLoop, rate);
    }

    /** enable_loop with looping on, before its notification: the play head is moved
        into the loop (when the JACK rate is known) and an idle reader is asked to load
        the loop. */
    method LoopOn(rate: nat)
      requires Valid() && loop
      modifies this`t, this`legs, this`notifier
      ensures Valid()
      ensures var moved := rate > 0 && fileOpen == Open && (old(t).pos < region.startSrc || old(t).pos > region.endSrc);
        var bound := if old(t).pos < region.startSrc then region.startSrc else region.endSrc;
        var t1 := if moved then old(t).(readStatus := Seeking, pos := ToU32(bound)) else old(t);
        t == (if t1.readStatus == Idle then t1.(readStatus := Looping) else t1)
        && legs == (if moved then ResetLegs(old(legs)) else old(legs))
        && notifier == (if moved then Notice(old(notifier), NotifyPosition, rate) else old(notifier))
      ensures rate > 0 && fileOpen == Open && region.endSrc < U32 ==> region.startSrc <= t.pos <= region.endSrc
    {
      if rate > 0 {
        EnterLoop(rate);
      }
      ghost var w := Watch(rate);
      AskForLoop();
      assert Watch(rate) == w;
    }

    /** enable_loop's request to an idle reader to load the loop. */
    method AskForLoop()
      requires Valid()
      modifies this`t
      ensures Valid()
      ensures t == (if old(t).readStatus == Idle then old(t).(readStatus := Looping) else old(t))
    {
      if t.readStatus == Idle {
        t := t.(readStatus := Looping);
      }
    }

    /** set_loop_start_time: accepts a native frame strictly before the loop end, updates
        its output-rate copy, and re-seeks (notifying the position) when the play head is
        now before the loop. */
    method SetLoopStartTime(time: real, rate: nat)
      requires Valid()
      modifies this`region, this`t, this`legs, this`notifier
      ensures Valid()
      ensures var f := LoopFrame(time, media.info.samplerate);
        var accepted := LoopStartAccepted(f, old(region).end);
        var moved := accepted && fileOpen == Open && old(t).pos < region.startSrc;
        region == (if accepted then old(region).(start := f, startSrc := Scale(f, media.srcRatio)) else old(region))
        && (moved ==>
              t == old(t).(readStatus := Seeking,
                           pos := ToU32(SeekTarget(if rate > 0 then old(t).pos else 0, loop, region.startSrc, region.endSrc, media.frames)))
              && legs == ResetLegs(old(legs)) && notifier == Notice(old(notifier), NotifyPosition, rate))
        && (moved && loop && rate > 0 ==> t.pos == ToU32(region.startSrc))
        && (!moved ==> t == old(t) && legs == old(legs) && notifier == old(notifier))
    {
      var f := LoopFrame(time, media.info.samplerate);
      if !LoopStartAccepted(f, region.end) {
        return;
      }
      region := region.(start := f, startSrc := Scale(f, media.srcRatio));
      if fileOpen == Open {
        RegionOrdered(region, media);
      }
      if t.pos < region.startSrc {
        ReSeek(rate);
      }
    }

    /** set_loop_end_time, as intended: accepts a native frame after the loop start and
        inside the file, updates its output-rate copy, and re-seeks (notifying the
        position) when the play head is now past the loop. */
    method SetLoopEndTime(time: real, rate: nat)
      requires Valid()
      modifies this`region, this`t, this`legs, this`notifier
      ensures Valid()
      ensures var f := LoopFrame(time, media.info.samplerate);
        var accepted := LoopEndAccepted(f, old(region).start, media.info.frames);
        var moved := accepted && fileOpen == Open && old(t).pos > region.endSrc;
        region == (if accepted then old(region).(end := f, endSrc := Scale(f, media.srcRatio)) else old(region))
        && (moved ==>
              t == old(t).(readStatus := Seeking,
                           pos := ToU32(SeekTarget(if rate > 0 then old(t).pos else 0, loop, region.startSrc, region.endSrc, media.frames)))
              && legs == ResetLegs(old(legs)) && notifier == Notice(old(notifier), NotifyPosition, rate))
        && (moved && loop && rate > 0 ==> t.pos == ToU32(region.endSrc))
        && (!moved ==> t == old(t) && legs == old(legs) && notifier == old(notifier))
    {
      var f := LoopFrame(time, media.info.samplerate);
      if !LoopEndAccepted(f, region.start, media.info.frames) {
        return;
      }
      region := region.(end := f, endSrc := Scale(f, media.srcRatio));
      if fileOpen == Open {
        RegionOrdered(region, media);
      }
      if t.pos > region.endSrc {
        ReSeek(rate);
      }
    }

    /** start_playback: an open player that is not playing is set starting, while the
        JACK client exists. */
    method StartPlayback(clientUp: bool, rate: nat)
      requires Valid()
      modifies this`t, this`notifier
      ensures Valid()
      ensures t == (if clientUp && fileOpen == Open && old(t).playState != Playing
                    then old(t).(playState := Starting) else old(t))
      ensures notifier == Notice(old(notifier), NotifyTransport, rate)
    {
      if clientUp && fileOpen == Open && t.playState != Playing {
        t := t.(playState := Starting);
      }
      Notify(NotifyTransport, rate);
    }

    /** stop_playback: any player that is not stopped is set stopping. */
    method StopPlayback(rate: nat)
      requires Valid()
      modifies this`t, this`notifier
      ensures Valid()
      ensures t == old(t).(playState := Halted(old(t).playState))
      ensures notifier == Notice(old(notifier), NotifyTransport, rate)
    {
      if t.playState != Stopped {
        t := t.(playState := Stopping);
      }
      Notify(NotifyTransport, rate);
    }

    /** set_gain: accepts a gain in [0, 2] while a file is open. */
    method SetGain(g: real, rate: nat)
      requires Valid()
      modifies this`mix, this`notifier
      ensures Valid()
      ensures var accepted := fileOpen == Open && 0.0 <= g <= 2.0;
        mix == (if accepted then old(mix).(gain := g) else old(mix))
        && notifier == (if accepted then Notice(old(notifier), NotifyGain, rate) else old(notifier))
      ensures Gain(this) == (if fileOpen != Open then 0.0 else if 0.0 <= g <= 2.0 then g else old(mix).gain)
    {
      if fileOpen != Open {
        return;
      }
      if g < 0.0 || g > 2.0 {
        return;
      }
      mix := mix.(gain := g);
      Notify(NotifyGain, rate);
    }

    /** set_track_a: while a file is open, selects the source track of leg A, re-seeks,
        and notifies the track. */
    method SetTrackA(track: int, rate: nat)
      requires Valid()
      modifies this`mix, this`t, this`legs, this`notifier
      ensures Valid()
      ensures fileOpen != Open ==> mix == old(mix) && t == old(t) && legs == old(legs) && notifier == old(notifier)
      ensures fileOpen == Open ==>
        mix == old(mix).(trackA := TrackChoice(track, old(mix).trackA, media.info.channels))
        && t == old(t).(readStatus := Seeking,
                        pos := ToU32(SeekTarget(if rate > 0 then old(t).pos else 0, loop, region.startSrc, region.endSrc, media.frames)))
        && legs == ResetLegs(old(legs))
        && notifier == Notice(Notice(old(notifier), NotifyPosition, rate), NotifyTrackA, rate)
    {
      if fileOpen != Open {
        return;
      }
      mix := mix.(trackA := TrackChoice(track, mix.trackA, media.info.channels));
      ReSeek(rate);
      Notify(NotifyTrackA, rate);
    }

    /** set_track_b: as set_track_a, for leg B. */
    method SetTrackB(track: int, rate: nat)
      requires Valid()
      modifies this`mix, this`t, this`legs, this`notifier
      ensures Valid()
      ensures fileOpen != Open ==> mix == old(mix) && t == old(t) && legs == old(legs) && notifier == old(notifier)
      ensures fileOpen == Open ==>
        mix == old(mix).(trackB := TrackChoice(track, old(mix).trackB, media.info.channels))
        && t == old(t).(readStatus := Seeking,
                        pos := ToU32(SeekTarget(if rate > 0 then old(t).pos else 0, loop, region.startSrc, region.endSrc, media.frames)))
        && legs == ResetLegs(old(legs))
        && notifier == Notice(Notice(old(notifier), NotifyPosition, rate), NotifyTrackB, rate)
    {
      if fileOpen != Open {
        return;
      }
      mix := mix.(trackB := TrackChoice(track, mix.trackB, media.info.channels));
      ReSeek(rate);
      Notify(NotifyTrackB, rate);
    }

    /** set_buffer_size: only while no file is open. */
    method SetBufferSize(size: nat)
      requires Valid()
      modifies this`sizes
      ensures Valid()
      ensures sizes == (if fileOpen == Closed then old(sizes).(input := size) else old(sizes))
    {
      if fileOpen == Closed {
        sizes := sizes.(input := size);
      }
    }

    /** set_buffer_count: only while no file is open, and only counts above 1. */
    method SetBufferCount(count: nat)
      requires Valid()
      modifies this`sizes
      ensures Valid()
      ensures sizes == (if fileOpen == Closed && count > 1 then old(sizes).(count := count) else old(sizes))
    {
      if fileOpen == Closed && count > 1 {
        sizes := sizes.(count := count);
      }
    }

    /** set_src_quality: accepts a converter type up to SRC_LINEAR while a file is open. */
    method SetSrcQuality(quality: nat, rate: nat) returns (ok: bool)
      requires Valid()
      modifies this`mix, this`notifier
      ensures Valid()
      ensures ok <==> fileOpen == Open && quality <= SRC_LINEAR
      ensures mix == (if ok then old(mix).(quality := quality) else old(mix))
      ensures notifier == (if ok then Notice(old(notifier), NotifyQuality, rate) else old(notifier))
    {
      ok := fileOpen == Open && quality <= SRC_LINEAR;
      if ok {
        mix := mix.(quality := quality);
        Notify(NotifyQuality, rate);
      }
    }

    /** set_pos_notify_delta. */
    method SetPosNotifyDelta(time: real)
      modifies this`notifier
      ensures notifier == old(notifier).(posDelta := time)
    {
      notifier := notifier.(posDelta := time);
    }

    // -------------------------------------------------------------------------
    // load / unload and the reader thread's start and end
    // -------------------------------------------------------------------------

    /** The reader thread's exit path: the player is stopped and rewound, the callback
        removed, the file name cleared once a file handle was closed, and both ring
        buffers released. */
    method ThreadExit(hadFile: bool)
      requires Valid() && fileOpen == Closed
      modifies this`t, this`filename, this`notifier, this`legs
      ensures Valid()
      ensures t == old(t).(playState := Stopped, pos := 0)
      ensures filename == (if hadFile then [] else old(filename))
      ensures notifier == old(notifier).(callback := false)
      ensures legs == NoLegs
    {
      t := t.(playState := Stopped, pos := 0);
      if hadFile {
        filename := [];
      }
      notifier := notifier.(callback := false);
      legs := NoLegs;
    }

    /** unload: closes an open (or opening) file: stops playback (notifying the
        transport while the file is still open), clears the callback, lets a running
        reader thread finish, and clears the file name. */
    method Unload(rate: nat)
      requires Valid()
      modifies this`t, this`notifier, this`fileOpen, this`filename, this`legs
      ensures Valid() && fileOpen == Closed
      ensures old(fileOpen) == Closed ==>
        t == old(t) && notifier == old(notifier) && filename == old(filename) && legs == old(legs)
      ensures old(fileOpen) == Opening ==>
        t == old(t).(playState := Halted(old(t).playState)) && notifier == old(notifier).(callback := false)
        && filename == [] && legs == old(legs)
      ensures old(fileOpen) == Open ==>
        t == old(t).(playState := Stopped, pos := 0) && filename == [] && legs == NoLegs
        && notifier == NoticeOf(old(notifier), handle, NotifyTransport,
                                Observe(true, Halted(old(t).playState), old(t).pos, mix, loop, region, media, rate),
                                true).(callback := false)
    {
      if fileOpen == Closed {
        return;
      }
      var threadRunning := fileOpen == Open;
      Close(rate);
      if threadRunning {
        ThreadExit(true);
      }
      filename := [];
    }

    /** The first half of unload on an open (or opening) file: playback stops, the
        transport is notified while the file is still open, the instance is marked
        closed and the callback is cleared. */
    method Close(rate: nat)
      requires Valid() && fileOpen != Closed
      modifies this`t, this`notifier, this`fileOpen
      ensures Valid() && fileOpen == Closed
      ensures t == old(t).(playState := Halted(old(t).playState))
      ensures notifier == NoticeOf(old(notifier), handle, NotifyTransport,
                                   Observe(true, Halted(old(t).playState), old(t).pos, mix, loop, region, media, rate),
                                   old(fileOpen) == Open).(callback := false)
    {
      StopPlayback(rate);
      fileOpen := Closed;
      notifier := notifier.(callback := false);
    }

    /** The start of the reader thread, up to the open check: the file's description as
        sf_open reports it (None: no file handle), no ring buffers yet, and the instance
        closed again when there is no handle or no track. */
    method Probe(sfInfo: Option<SoundInfo>)
      requires Valid() && fileOpen == Opening
      modifies this`media, this`legs, this`fileOpen
      ensures Valid()
      ensures media == old(media).(info := if sfInfo.Some? then sfInfo.value else old(media).info.(format := 0))
      ensures legs == NoLegs
      ensures fileOpen == (if sfInfo.Some? && sfInfo.value.channels >= 1 then Opening else Closed)
    {
      media := media.(info := media.info.(format := 0));
      legs := NoLegs;
      match sfInfo {
        case None =>
          fileOpen := Closed;
        case Some(i) =>
          media := media.(info := i);
          if i.channels < 1 {
            fileOpen := Closed;
          }
      }
    }

    /** The session reset of a successful open: no callback, the snapshot's play state,
        position and loop bounds marked unknown, the play head and the reader at the
        start with a seek requested. */
    method ResetSession()
      requires Valid() && fileOpen == Opening
      modifies this`notifier, this`t, this`reader
      ensures Valid()
      ensures notifier == old(notifier).(callback := false, posDelta := 0.1,
        last := old(notifier).last.(playState := None, position := -1.0, loopStart := -1, loopEnd := -1))
      ensures t == old(t).(readStatus := Seeking, pos := 0, loopLoaded := false)
      ensures reader == old(reader).(readPos := 0, unused := 0)
    {
      notifier := notifier.(callback := false, posDelta := 0.1,
        last := notifier.last.(playState := None, position := -1.0, loopStart := -1, loopEnd := -1));
      t := t.(readStatus := Seeking, pos := 0, loopLoaded := false);
      reader := reader.(readPos := 0, unused := 0);
    }

    /** The conversion set up for the opened file: the ratio, the file length and block
        size at the output rate, and both ring buffers created empty with room for
        buffer_count blocks. */
    method SizeBuffers(rate: nat)
      requires Valid() && fileOpen == Opening && media.info.samplerate > 0 && media.info.channels >= 1
      modifies this`media, this`sizes, this`legs
      ensures Valid() && MediaOk(media) && media.info == old(media).info
      ensures media.srcRatio == SrcRatio(rate, media.info.samplerate)
      ensures sizes == old(sizes).(output := Scale(old(sizes).input, media.srcRatio))
      ensures legs == Legs(Fifo([], sizes.output * sizes.count), Fifo([], sizes.output * sizes.count))
    {
      var ratio := SrcRatio(rate, media.info.samplerate);
      media := media.(srcRatio := ratio, frames := Scale(media.info.frames, ratio));
      sizes := sizes.(output := Scale(sizes.input, ratio));
      var cap := sizes.output * sizes.count;
      legs := Legs(Fifo([], cap), Fifo([], cap));
    }

    /** The instance marked open: the loop spans the whole file, and the pitch is reset. */
    method Arm()
      requires Valid() && fileOpen == Opening && MediaOk(media) && mix.trackA == 0 && mix.trackB == 0
      requires reader.unused == 0
      modifies this`region, this`pitch, this`fileOpen
      ensures Valid() && fileOpen == Open
      ensures region == Region(0, media.info.frames, 0, media.frames)
      ensures pitch == old(pitch).(shift := 1.0, bend := PITCH_BEND_CENTRE)
    {
      region := Region(0, media.info.frames, Scale(0, media.srcRatio), Scale(media.info.frames, media.srcRatio));
      pitch := pitch.(shift := 1.0, bend := PITCH_BEND_CENTRE);
      fileOpen := Open;
    }

    /** The reader thread's start (up to its reading loop), as started by load with both
        tracks reset. `sfInfo` is what sf_open reports (None: no file handle); `srcOk`
        whether a converter was created. */
    method OpenFile(sfInfo: Option<SoundInfo>, srcOk: bool, rate: nat)
      requires Valid() && fileOpen == Opening && mix.trackA == 0 && mix.trackB == 0
      requires sfInfo.Some? && sfInfo.value.channels >= 1 ==> sfInfo.value.samplerate > 0
      modifies this`media, this`legs, this`fileOpen, this`notifier, this`t, this`reader, this`sizes,
               this`region, this`pitch, this`filename
      ensures Valid()
      ensures fileOpen == (if sfInfo.Some? && sfInfo.value.channels >= 1 && srcOk then Open else Closed)
      ensures sfInfo.Some? ==> media.info == sfInfo.value
      ensures sfInfo.Some? && sfInfo.value.channels >= 1 ==>
        MediaOk(media) && media.srcRatio == SrcRatio(rate, media.info.samplerate)
        && region == Region(0, media.info.frames, 0, media.frames)
        && sizes == old(sizes).(output := Scale(old(sizes).input, media.srcRatio))
        && pitch == old(pitch).(shift := 1.0, bend := PITCH_BEND_CENTRE)
      ensures fileOpen == Open ==>
        t == old(t).(readStatus := Seeking, pos := 0, loopLoaded := false)
        && reader == old(reader).(readPos := 0, unused := 0)
        && legs == Legs(Fifo([], sizes.output * sizes.count), Fifo([], sizes.output * sizes.count))
        && notifier == old(notifier).(callback := false, posDelta := 0.1,
             last := old(notifier).last.(playState := None, position := -1.0, loopStart := -1, loopEnd := -1))
        && filename == old(filename)
      ensures fileOpen == Closed ==>
        t.playState == Stopped && t.pos == 0 && !notifier.callback && legs == NoLegs
        && filename == (if sfInfo.Some? then [] else old(filename))
    {
      Probe(sfInfo);
      if fileOpen != Closed {
        ResetSession();
        SizeBuffers(rate);
        Arm();
        if !srcOk {
          fileOpen := Closed;
        }
      }
      if fileOpen == Closed {
        ThreadExit(sfInfo.Some?);
      }
    }

    /** load: unloads, resets the tracks, records the file name, starts the reader thread
        and waits for it to open the file; installs the callback unless the file failed
        to open. `threadOk` says whether the thread could be created. */
    method Load(name: string, threadOk: bool, sfInfo: Option<SoundInfo>, srcOk: bool, cb: bool, rate: nat)
      returns (ok: bool)
      requires Valid()
      requires sfInfo.Some? && sfInfo.value.channels >= 1 ==> sfInfo.value.samplerate > 0
      modifies this`media, this`legs, this`fileOpen, this`notifier, this`t, this`reader, this`sizes,
               this`region, this`pitch, this`filename, this`mix
      ensures Valid()
      ensures ok <==> threadOk && sfInfo.Some? && sfInfo.value.channels >= 1 && srcOk
      ensures ok ==>
        fileOpen == Open && filename == name && media.info == sfInfo.value && notifier.callback == cb
        && t.readStatus == Seeking && t.pos == 0 && mix.trackA == 0 && mix.trackB == 0
        && region == Region(0, media.info.frames, 0, media.frames)
      ensures !ok ==> fileOpen == Closed && !notifier.callback
    {
      Unload(rate);
      mix := mix.(trackA := 0, trackB := 0);
      filename := name;
      fileOpen := Opening;
      if !threadOk {
        Unload(rate);
        return false;
      }
      OpenFile(sfInfo, srcOk, rate);
      if fileOpen != Closed {
        notifier := notifier.(callback := cb);
      }
      ok := fileOpen == Open;
    }

    // -------------------------------------------------------------------------
    // The reader thread: one iteration of its loop
    // -------------------------------------------------------------------------

    /** The seek or loop handling at the top of an iteration. `seekResult` is the position
        sf_seek returns for the frame asked (SeekFrame of the play head after a seek
        request, the loop start for a loop request); negative on failure. */
    method BeginBlock(seekResult: int)
      requires Valid() && fileOpen == Open
      modifies this`legs, this`t, this`reader
      ensures Valid()
      ensures (t, reader) == StartBlock(old(t), old(reader), seekResult)
      ensures legs == (if old(t).readStatus == Seeking then ResetLegs(old(legs)) else old(legs))
    {
      if t.readStatus == Seeking {
        legs := ResetLegs(legs);
        t := t.(loopLoaded := false);
        if seekResult >= 0 {
          reader := reader.(readPos := seekResult);
        }
        t := t.(readStatus := Loading);
        reader := reader.(unused := 0, endOfInput := false);
      } else if t.readStatus == Looping {
        if seekResult >= 0 {
          reader := reader.(readPos := seekResult);
        }
        t := t.(readStatus := Loading, loopLoaded := true);
        reader := reader.(unused := 0, endOfInput := false);
      }
    }

    /** The read of one block while loading (see ReadStep). Returns the frames to demux. */
    method ReadBlock(available: nat, used: nat, produced: nat) returns (nOut: nat)
      requires Valid() && fileOpen == Open
      modifies this`reader, this`t
      ensures Valid()
      ensures (t, reader, nOut)
        == ReadStep(old(t), old(reader), available, used, produced, media.srcRatio == 1.0, loop, region.end, sizes.input)
    {
      ReadStepBounds(t, reader, available, used, produced, media.srcRatio == 1.0, loop, region.end, sizes.input);
      nOut := 0;
      if t.readStatus != Loading {
        return;
      }
      var request := RequestSize(media.srcRatio == 1.0, loop, reader.readPos, region.end, sizes.input, reader.unused);
      var nRead := if available <= request then available else request;
      var status, eoi := t.readStatus, reader.endOfInput;
      if nRead > 0 {
      } else if loop {
        if !t.loopLoaded {
          status, eoi := Looping, true;
        } else {
          status, eoi := Idle, false;
        }
      } else {
        status, eoi := Idle, true;
      }
      var unused := reader.unused;
      if media.srcRatio != 1.0 {
        var consumed := if used <= nRead then used else nRead;
        unused := nRead - consumed;
        nOut := produced;
      } else {
        nOut := nRead;
      }
      reader := Reader(reader.readPos + nRead, unused, eoi);
      t := t.(readStatus := status);
    }

    /** The downmix loop for one leg: every other track of a frame from `start`, each
        divided by half the channel count. */
    static method Downmix(frame: seq<real>, start: nat, ch: nat) returns (sum: real)
      requires 2 <= ch <= |frame|
      ensures sum == EveryOther(frame, start, ch, (ch / 2) as real)
    {
      var div := (ch / 2) as real;
      sum := 0.0;
      var track := start;
      while track < ch
        invariant start <= track
        invariant sum + EveryOther(frame, track, ch, div) == EveryOther(frame, start, ch, div)
        decreases ch - track
      {
        sum := sum + frame[track] / div;
        track := track + 2;
      }
    }

    /** Demux of the first n frames of a block into legs A and B. */
    method Demux(block: seq<seq<real>>, n: nat)
      requires Valid() && fileOpen == Open && n <= |block| && Framed(block, media.info.channels as nat)
      modifies this`legs
      ensures Valid()
      ensures (legs.a, legs.b)
        == PushFrames(old(legs).a, old(legs).b, block, n, media.info.channels as nat, mix.trackA, mix.trackB)
    {
      var a, b := DemuxFrames(legs.a, legs.b, block, n, media.info.channels as nat, mix.trackA, mix.trackB);
      legs := Legs(a, b);
    }

    /** The demux loop: frame by frame, the sample for leg B is written first and leg A
        receives as many samples as B took. */
    static method DemuxFrames(a0: Fifo, b0: Fifo, block: seq<seq<real>>, n: nat, ch: nat, trackA: int, trackB: int)
      returns (a: Fifo, b: Fifo)
      requires Aligned(a0, b0) && n <= |block| && Framed(block, ch) && 1 <= ch && trackA < ch && trackB < ch
      ensures Aligned(a, b) && (a, b) == PushFrames(a0, b0, block, n, ch, trackA, trackB)
    {
      a, b := a0, b0;
      var frame := 0;
      while frame < n
        invariant frame <= n && Aligned(a, b)
        invariant (a, b) == PushFrames(a0, b0, block, frame, ch, trackA, trackB)
      {
        var fA: real;
        var fB: real;
        if ch > 1 {
          if trackA < 0 {
            fA := Downmix(block[frame], 0, ch);
          } else {
            fA := block[frame][trackA];
          }
          if trackB < 0 {
            fB := Downmix(block[frame], 1, ch);
          } else {
            fB := block[frame][trackB];
          }
        } else {
          fA := block[frame][0] / 2.0;
          fB := block[frame][0] / 2.0;
        }
        assert fA == LegA(block[frame], ch, trackA) && fB == LegB(block[frame], ch, trackB);
        PushFrameAligned(a, b, fA, fB);
        var (b', wrote) := Write(b, [fB]);
        var (a', _) := Write(a, [fA][..wrote]);
        a, b := a', b';
        frame := frame + 1;
      }
    }

    /** One iteration of the reader loop: seek or loop handling, one block read (the
        decoder's frames `decoded`; with conversion, `used` of them consumed and
        `converted` produced), the demux into the legs, and the notifications. */
    method WorkerIteration(seekResult: int, decoded: seq<seq<real>>, used: nat, converted: seq<seq<real>>, rate: nat)
      returns (ghost begun: Legs)
      requires Valid() && fileOpen == Open
      requires Framed(decoded, media.info.channels as nat) && Framed(converted, media.info.channels as nat)
      modifies this`legs, this`t, this`reader, this`notifier
      ensures Valid()
      ensures var s := StartBlock(old(t), old(reader), seekResult);
        var r := ReadStep(s.0, s.1, |decoded|, used, |converted|, media.srcRatio == 1.0, loop, region.end, sizes.input);
        var block := if media.srcRatio == 1.0 then decoded else converted;
        t == r.0 && reader == r.1 && r.2 <= |block|
        && begun == (if old(t).readStatus == Seeking then ResetLegs(old(legs)) else old(legs))
        && (legs.a, legs.b) == PushFrames(begun.a, begun.b, block, r.2, media.info.channels as nat, mix.trackA, mix.trackB)
        && notifier == Notice(old(notifier), NotifyAll, rate)
    {
      var block := if media.srcRatio == 1.0 then decoded else converted;
      var n;
      n, begun := ReadAhead(seekResult, |decoded|, used, |converted|);
      Demux(block, n);
      Notify(NotifyAll, rate);
    }

    /** The reading half of an iteration: the seek or loop handling, then one block read
        (StartBlock, then ReadStep). Returns the frames to demux and the legs as the
        seek handling left them. */
    method ReadAhead(seekResult: int, available: nat, used: nat, produced: nat) returns (n: nat, ghost begun: Legs)
      requires Valid() && fileOpen == Open
      modifies this`legs, this`t, this`reader
      ensures Valid() && legs == begun
      ensures var s := StartBlock(old(t), old(reader), seekResult);
        var r := ReadStep(s.0, s.1, available, used, produced, media.srcRatio == 1.0, loop, region.end, sizes.input);
        t == r.0 && reader == r.1 && n == r.2
        && (media.srcRatio == 1.0 ==> n <= available) && (media.srcRatio != 1.0 ==> n <= produced)
      ensures begun == (if old(t).readStatus == Seeking then ResetLegs(old(legs)) else old(legs))
    {
      BeginBlock(seekResult);
      begun := legs;
      ghost var s := (t, reader);
      n := ReadBlock(available, used, produced);
      ReadStepBounds(s.0, s.1, available, used, produced, media.srcRatio == 1.0, loop, region.end, sizes.input);
    }

    // -------------------------------------------------------------------------
    // One JACK period
    // -------------------------------------------------------------------------

    /** The start of a period: a starting player plays once the reader is not seeking. */
    method StartIfReady()
      requires Valid()
      modifies this`t
      ensures Valid() && t == Begin(old(t))
    {
      if t.playState == Starting && t.readStatus != Seeking {
        t := t.(playState := Playing);
      }
    }

    /** The drain of a rolling period, pitch-shifted or straight, then the gain: returns
        the samples written (aCount) and the samples drained from the legs (rCount). */
    method Fill(outA: array<real>, outB: array<real>) returns (aCount: nat, rCount: nat)
      requires Valid() && fileOpen == Open && outA != outB && outA.Length == outB.Length
      modifies this`legs, outA, outB
      ensures Valid()
      ensures aCount <= outA.Length && rCount <= |old(legs).a.data|
      ensures legs.a.data == old(legs).a.data[rCount..] && legs.b.data == old(legs).b.data[rCount..]
      ensures pitch.shift == 1.0 ==> rCount == aCount
      ensures aCount < outA.Length ==> legs.a.data == []
      ensures Drained(outA[..], outB[..], aCount, pitch.shift, mix.gain, old(legs).a.data, old(legs).b.data, false)
      ensures forall k :: aCount <= k < outA.Length ==> outA[k] == old(outA[k]) && outB[k] == old(outB[k])
    {
      ghost var d, e := legs.a.data, legs.b.data;
      var shift, g := pitch.shift, mix.gain;
      var a', b';
      if shift != 1.0 {
        a', b', aCount, rCount := DrainPitched(legs.a, legs.b, outA, outB, shift);
        assert forall k :: 0 <= k < aCount ==> SampleIndex(k, shift) == PitchIndex(k, shift);
      } else {
        a', b', aCount := DrainPlain(legs.a, legs.b, outA, outB);
        rCount := aCount;
        assert forall k :: 0 <= k < aCount ==> SampleIndex(k, shift) == k;
      }
      assert Drained(outA[..], outB[..], aCount, shift, 1.0, d, e, false);
      legs := Legs(a', b');
      GainBoth(outA, outB, aCount, g, shift, d, e);
    }

    /** The play head after rCount samples were drained (Advance): with looping on, the
        loop end or a dry idle reader wraps into the loop; otherwise the file end or a dry
        idle reader rewinds and stops. */
    method Move(rCount: nat)
      requires Valid() && fileOpen == Open
      modifies this`t
      ensures Valid() && 0 <= region.endSrc
      ensures t == Advance(old(t), rCount, legs.a.data == [], loop, region.startSrc, region.endSrc, media.frames)
    {
      RegionOrdered(region, media);
      var pos := ToU32(t.pos + rCount);
      var eof := t.readStatus == Idle && legs.a.data == [];
      if loop {
        if pos >= region.endSrc || eof {
          t := Transport(t.playState, Looping, Wrap(pos, region.startSrc, region.endSrc), false);
        } else {
          t := t.(pos := pos);
        }
      } else if pos >= media.frames || eof {
        t := Transport(Stopping, Seeking, 0, t.loopLoaded);
      } else {
        t := t.(pos := pos);
      }
    }

    /** The soft mute of a stopping player: the samples written fade to zero, and the
        player stops. */
    method Mute(outA: array<real>, outB: array<real>, aCount: nat, ghost d: seq<real>, ghost e: seq<real>)
      requires Valid() && t.playState == Stopping && outA != outB && aCount <= outA.Length == outB.Length
      requires Drained(outA[..], outB[..], aCount, pitch.shift, mix.gain, d, e, false)
      modifies this`t, outA, outB
      ensures Valid() && t == Finish(old(t))
      ensures Drained(outA[..], outB[..], aCount, pitch.shift, mix.gain, d, e, true)
    {
      FadeBoth(outA, outB, aCount, mix.gain, pitch.shift, d, e);
      t := t.(playState := Stopped);
    }

    /** on_jack_process for one player with an open file: writes one period of both legs
        into the port buffers and moves the transport (Period). Returns the samples
        written (aCount) and the samples drained from the legs (rCount). */
    method Run(outA: array<real>, outB: array<real>) returns (aCount: nat, rCount: nat)
      requires Valid() && fileOpen == Open && outA != outB && outA.Length == outB.Length
      modifies this`t, this`legs, outA, outB
      ensures Valid() && 0 <= region.endSrc
      ensures t == Period(old(t), rCount, legs.a.data == [], loop, region.startSrc, region.endSrc, media.frames)
      ensures !Rolling(Begin(old(t)).playState) ==> aCount == 0 && rCount == 0 && legs == old(legs)
      ensures aCount <= outA.Length && rCount <= |old(legs).a.data|
      ensures legs.a.data == old(legs).a.data[rCount..] && legs.b.data == old(legs).b.data[rCount..]
      ensures pitch.shift == 1.0 ==> rCount == aCount
      ensures Rolling(Begin(old(t)).playState) && aCount < outA.Length ==> legs.a.data == []
      ensures Silent(outA[..], aCount) && Silent(outB[..], aCount)
      ensures Drained(outA[..], outB[..], aCount, pitch.shift, mix.gain, old(legs).a.data, old(legs).b.data,
                      Rolling(Begin(old(t)).playState)
                      && Advance(Begin(old(t)), rCount, legs.a.data == [], loop, region.startSrc, region.endSrc, media.frames).playState == Stopping)
    {
      aCount, rCount := 0, 0;
      ghost var d, e := legs.a.data, legs.b.data;
      RegionOrdered(region, media);
      StartIfReady();
      ghost var faded := false;
      if t.playState == Playing || t.playState == Stopping {
        aCount, rCount := Fill(outA, outB);
        Move(rCount);
        faded := t.playState == Stopping;
      }
      if t.playState == Stopping {
        Mute(outA, outB, aCount, d, e);
      }
      SilenceBoth(outA, outB, aCount, mix.gain, pitch.shift, d, e, faded);
    }

    /** The player's whole state, as one value. */
    ghost function State(): PlayerState
      reads this
    {
      PlayerState(fileOpen, t, loop, region, media, mix, sizes, pitch, reader, legs, notifier, filename)
    }

    /** PeriodStep from the state and port contents before the period to those after. */
    twostate predicate Rendered(outA: array<real>, outB: array<real>, aCount: nat, rCount: nat)
      reads this, outA, outB
    {
      PeriodStep(old(State()), old(outA[..]), old(outB[..]), State(), outA[..], outB[..], aCount, rCount)
    }

    /** on_jack_process for this player: a player without an open file is skipped and
        its buffers are not touched; otherwise it runs one period (Run). */
    method Process(outA: array<real>, outB: array<real>) returns (aCount: nat, rCount: nat)
      requires Valid() && outA != outB && outA.Length == outB.Length
      modifies this`t, this`legs, outA, outB
      ensures Valid() && Rendered(outA, outB, aCount, rCount)
    {
      aCount, rCount := 0, 0;
      if fileOpen == Open {
        aCount, rCount := Run(outA, outB);
      }
    }

    // -------------------------------------------------------------------------
    // MIDI
    // -------------------------------------------------------------------------

    /** The effect of a channel voice message on this player, as interpreted by
        Interpret: a note-off stops playback and restores the recorded speed; a note-on
        restarts from the loop start at the note's pitch; a pitch bend is stored. */
    twostate predicate MidiApplied(status: nat, d1: nat, d2: nat, rate: nat)
      reads this
    {
      var act := Interpret(Command(status), d1, d2, old(pitch).lastNote, fileOpen == Open);
      (act == NoteOff ==>
         t == old(t).(playState := Halted(old(t).playState))
         && pitch == old(pitch).(shift := 1.0, lastNote := 0)
         && legs == old(legs) && notifier == Notice(old(notifier), NotifyTransport, rate))
      && (act.NoteOn? ==>
         t == old(t).(playState := Starting, readStatus := Seeking, pos := ToU32(region.startSrc))
         && pitch == old(pitch).(shift := PitchRatio(d1), lastNote := d1)
         && legs == ResetLegs(old(legs)) && notifier == old(notifier))
      && (act.Bend? ==>
         t == old(t) && pitch == old(pitch).(bend := act.value) && legs == old(legs) && notifier == old(notifier))
      && (act == Ignore ==>
         t == old(t) && pitch == old(pitch) && legs == old(legs) && notifier == old(notifier))
      && fileOpen == old(fileOpen) && region == old(region) && media == old(media) && mix == old(mix)
      && loop == old(loop) && sizes == old(sizes) && reader == old(reader) && filename == old(filename)
    }

    /** A channel voice message for this player (on_jack_process's MIDI loop), as
        interpreted by Interpret. */
    method Midi(status: nat, d1: nat, d2: nat, rate: nat)
      requires Valid() && status < 256 && d1 < 256 && d2 < 256
      modifies this`t, this`pitch, this`legs, this`notifier
      ensures Valid() && MidiApplied(status, d1, d2, rate)
    {
      var act := Interpret(Command(status), d1, d2, pitch.lastNote, fileOpen == Open);
      match act {
        case NoteOff =>
          StopPlayback(rate);
          pitch := pitch.(shift := 1.0, lastNote := 0);
        case NoteOn(note) =>
          pitch := pitch.(shift := PitchRatio(note));
          t := t.(pos := ToU32(region.startSrc), readStatus := Seeking);
          legs := ResetLegs(legs);
          pitch := pitch.(lastNote := note);
          t := t.(playState := Starting);
        case Bend(v) =>
          pitch := pitch.(bend := v);
        case Ignore =>
      }
    }
  }

  /** The native frame the reader seeks to after a seek request: the play head at the
      file's rate, truncated, that is the native frame whose span holds it. */
  function SeekFrame(pos: nat, ratio: real): (f: nat)
    requires ratio > 0.0
    ensures f as real * ratio <= pos as real < (f + 1) as real * ratio
  {
    TruncQuotient(pos as real, ratio);
    Trunc(pos as real / ratio)
  }

  // ---------------------------------------------------------------------------
  // Getters (a null player stands for an empty slot)
  // ---------------------------------------------------------------------------

  /** get_position: seconds at the JACK rate; 0 without an open file or a rate. */
  function Position(p: Player?, rate: nat): (s: real)
    reads p
    ensures s >= 0.0
    ensures p != null && p.fileOpen == Open && rate > 0 ==> Trunc(s * rate as real) == p.t.pos
  {
    if p == null then 0.0
    else if rate > 0 then
      PositionRoundTrip(p.t.pos, rate);
      Seconds(p.fileOpen == Open, p.t.pos, rate)
    else Seconds(p.fileOpen == Open, p.t.pos, rate)
  }

  /** get_loop_start_time: seconds at the file's rate; converting back gives the frame. */
  function LoopStartTime(p: Player?): (s: real)
    reads p
    ensures p != null && p.media.info.samplerate > 0 && 0 <= p.region.start < U32 ==>
      LoopFrame(s, p.media.info.samplerate) == p.region.start
  {
    if p == null then 0.0
    else
      if p.media.info.samplerate > 0 && 0 <= p.region.start < U32 then
        EntryTimeExact(p.region.start, p.media.info.samplerate);
        LoopTime(p.region.start, p.media.info.samplerate)
      else LoopTime(p.region.start, p.media.info.samplerate)
  }

  /** get_loop_end_time: seconds at the file's rate; converting back gives the frame. */
  function LoopEndTime(p: Player?): (s: real)
    reads p
    ensures p != null && p.media.info.samplerate > 0 && 0 <= p.region.end < U32 ==>
      LoopFrame(s, p.media.info.samplerate) == p.region.end
  {
    if p == null then 0.0
    else
      if p.media.info.samplerate > 0 && 0 <= p.region.end < U32 then
        EntryTimeExact(p.region.end, p.media.info.samplerate);
        LoopTime(p.region.end, p.media.info.samplerate)
      else LoopTime(p.region.end, p.media.info.samplerate)
  }

  function Gain(p: Player?): real
    reads p
  {
    if p == null || p.fileOpen != Open then 0.0 else p.mix.gain
  }

  /** get_duration: the file's length in seconds at its own rate. */
  function Duration(p: Player?): real
    reads p
  {
    if p != null && p.fileOpen == Open && p.media.info.samplerate > 0
    then p.media.info.frames as real / p.media.info.samplerate as real
    else 0.0
  }

  function IsLoop(p: Player?): bool
    reads p
  {
    p != null && p.fileOpen == Open && p.loop
  }

  function PlaybackState(p: Player?): PlayState
    reads p
  {
    if p == null || p.fileOpen != Open then Stopped else p.t.playState
  }

  function SrcQuality(p: Player?): nat
    reads p
  {
    if p == null || p.fileOpen != Open then SRC_SINC_FASTEST else p.mix.quality
  }

  function TrackA(p: Player?): int
    reads p
  {
    if p == null || p.fileOpen != Open then 0 else p.mix.trackA
  }

  function TrackB(p: Player?): int
    reads p
  {
    if p == null || p.fileOpen != Open then 0 else p.mix.trackB
  }

  function BufferSize(p: Player?): nat
    reads p
  {
    if p == null then 0 else p.sizes.input
  }

  function BufferCount(p: Player?): nat
    reads p
  {
    if p == null then 0 else p.sizes.count
  }

  /** get_samplerate: the file's rate, or the JACK rate without an open file. */
  function Samplerate(p: Player?, rate: nat): int
    reads p
  {
    if p == null || p.fileOpen != Open then rate else p.media.info.samplerate
  }

  function Channels(p: Player?): int
    reads p
  {
    if p == null || p.fileOpen != Open then 0 else p.media.info.channels
  }

  function Frames(p: Player?): int
    reads p
  {
    if p == null || p.fileOpen != Open then 0 else p.media.info.frames
  }

  function Format(p: Player?): int
    reads p
  {
    if p == null || p.fileOpen != Open then 0 else p.media.info.format
  }

  function Filename(p: Player?): string
    reads p
  {
    if p == null || p.fileOpen != Open then [] else p.filename
  }
}
