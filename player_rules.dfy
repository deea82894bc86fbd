// The decisions the audio player takes on plain values: where a seek lands, which
// loop bounds are accepted, how many frames the reader asks for, how source
// channels are mixed onto the two output legs, how a period advances the transport,
// and how a MIDI message is interpreted. The player class applies them to its fields.
module PlayerRules {
  import opened Wrappers
  import opened AudioTypes
  import opened Ring

  // ---------------------------------------------------------------------------
  // set_position
  // ---------------------------------------------------------------------------

  /** The frame a position request lands on. With looping on, the request is first
      capped at the loop end and then raised to the loop start. With looping off, a
      request at or past the end (compared as unsigned, so negative requests too) is
      moved to the last frame. */
  function SeekTarget(req: int, loop: bool, lss: int, les: int, outFrames: nat): int
  {
    if loop then
      var capped := if req > les then les else req;
      if capped < lss then lss else capped
    else if ToU64(req) >= outFrames then outFrames - 1
    else req
  }

  /** With looping on, a seek always lands inside the loop, and a request inside the
      loop is honoured exactly. */
  lemma SeekTargetInLoop(req: int, lss: int, les: int, outFrames: nat)
    requires lss <= les
    ensures lss <= SeekTarget(req, true, lss, les, outFrames) <= les
    ensures lss <= req <= les ==> SeekTarget(req, true, lss, les, outFrames) == req
  {
  }

  /** When the loop start lies past the loop end, the lower bound wins: the upper cap is
      applied first. */
  lemma SeekTargetStartWins(req: int, lss: int, les: int, outFrames: nat)
    requires les < lss
    ensures SeekTarget(req, true, lss, les, outFrames) == lss
  {
  }

  /** With looping off, a seek always lands on a frame of the (resampled) file; a
      negative request, compared as unsigned, lands on the last frame. */
  lemma SeekTargetInFile(req: int, outFrames: nat)
    requires 0 < outFrames <= U64 / 2 && -(U64 / 2) <= req < U64 / 2
    ensures 0 <= SeekTarget(req, false, 0, 0, outFrames) < outFrames
    ensures 0 <= req < outFrames ==> SeekTarget(req, false, 0, 0, outFrames) == req
    ensures req < 0 ==> SeekTarget(req, false, 0, 0, outFrames) == outFrames - 1
  {
  }

  /** get_position followed by set_position lands on the same frame: the position
      converts to seconds and back without loss. */
  lemma PositionRoundTrip(pos: nat, rate: nat)
    requires rate > 0
    ensures Trunc((pos as real / rate as real) * rate as real) == pos
  {
    assert (pos as real / rate as real) * rate as real == pos as real;
  }

  // ---------------------------------------------------------------------------
  // Loop bounds
  // ---------------------------------------------------------------------------

  /** A loop time converted to a native frame and stored as jack_nframes_t: truncated and
      wrapped modulo 2^32 (C leaves the conversion of an out-of-range value undefined). */
  function LoopFrame(time: real, samplerate: nat): nat
  {
    ToU32(Trunc(samplerate as real * time))
  }

  /** set_loop_start_time accepts a frame strictly before the loop end. */
  predicate LoopStartAccepted(frame: nat, loopEnd: int) { frame < loopEnd }

  /** set_loop_end_time as written: the native frame is compared with `frames`, the
      file length at the output samplerate. */
  predicate LoopEndAcceptedAsWritten(frame: nat, loopStart: int, outFrames: nat)
  {
    !(frame <= loopStart || frame >= outFrames)
  }

  /** set_loop_end_time as intended: the native frame is compared with the native file
      length. */
  predicate LoopEndAccepted(frame: nat, loopStart: int, nativeFrames: nat)
  {
    !(frame <= loopStart || frame >= nativeFrames)
  }

  /** An accepted loop end lies after the loop start and inside the file. */
  lemma LoopEndInsideFile(frame: nat, loopStart: int, nativeFrames: nat)
    requires LoopEndAccepted(frame, loopStart, nativeFrames)
    ensures loopStart < frame < nativeFrames
  {
  }

  /** As written, a file of 1000 frames played at twice its samplerate has 2000 output
      frames, so a loop end at native frame 1500, past the end of the file, is accepted. */
  lemma LoopEndAsWrittenPassesFileEnd()
    ensures Scale(1000, 2.0) == 2000
    ensures LoopEndAcceptedAsWritten(1500, 0, Scale(1000, 2.0))
    ensures !LoopEndAccepted(1500, 0, 1000)
  {
    assert 1000 as real * 2.0 == 2000.0;
  }

  /** As written, a file of 1000 frames played at half its samplerate has 500 output
      frames, so a loop end at native frame 700, inside the file, is refused. */
  lemma LoopEndAsWrittenRefusesInside()
    ensures Scale(1000, 0.5) == 500
    ensures !LoopEndAcceptedAsWritten(700, 0, Scale(1000, 0.5))
    ensures LoopEndAccepted(700, 0, 1000)
  {
    assert 1000 as real * 0.5 == 500.0;
  }

  // ---------------------------------------------------------------------------
  // enable_loop: moving the play head into the loop
  // ---------------------------------------------------------------------------

  /** As written: an output frame divided by the samplerate in integer arithmetic, so the
      time handed to set_position is truncated to whole seconds. */
  function EntryTimeAsWritten(src: int, rate: nat): real
    requires rate > 0
  {
    CDiv(src, rate) as real
  }

  /** As intended: the exact time of an output frame. */
  function EntryTime(src: int, rate: nat): (t: real)
    requires rate > 0
    ensures t * rate as real == src as real
  {
    src as real / rate as real
  }

  /** The intended entry time lands set_position exactly on the loop bound. */
  lemma EntryTimeExact(src: int, rate: nat)
    requires rate > 0
    ensures Trunc(EntryTime(src, rate) * rate as real) == src
  {
  }

  /** As written, with a loop ending at 1.5 s (frame 66150 at 44100 Hz) and the play head
      past it, the play head is moved to 1 s (frame 44100) instead of the loop end. */
  lemma EntryTimeAsWrittenTruncates()
    ensures Trunc(EntryTimeAsWritten(66150, 44100) * 44100.0) == 44100
    ensures SeekTarget(Trunc(EntryTimeAsWritten(66150, 44100) * 44100.0), true, 0, 66150, 100000) == 44100
    ensures SeekTarget(Trunc(EntryTime(66150, 44100) * 44100.0), true, 0, 66150, 100000) == 66150
  {
    assert CDiv(66150, 44100) == 1;
  }

  // ---------------------------------------------------------------------------
  // File reader: block size and end of input
  // ---------------------------------------------------------------------------

  /** Frames requested from the decoder, as written: with looping on, the block is cut
      at the loop end, and the difference is stored in a size_t. With resampling on,
      the cut is overwritten by the space left in the resampler's input block. */
  function RequestSizeAsWritten(ratioIsOne: bool, loop: bool, readPos: int, loopEnd: int,
                                block: nat, unused: nat): nat
    requires unused <= block
  {
    if ratioIsOne then
      if loop && readPos + block > loopEnd then ToU64(loopEnd - readPos) else block
    else block - unused
  }

  /** Frames requested from the decoder, as intended: a reader already at or past the
      loop end asks for nothing, which sends it back to the loop start. */
  function RequestSize(ratioIsOne: bool, loop: bool, readPos: int, loopEnd: int,
                       block: nat, unused: nat): (n: nat)
    requires unused <= block
    ensures n <= block
    ensures ratioIsOne && loop ==> readPos + n <= loopEnd || n == 0
    ensures ratioIsOne && loop && readPos + block <= loopEnd ==> n == block
    ensures !ratioIsOne ==> n == block - unused
  {
    if ratioIsOne then
      if loop && readPos + block > loopEnd then
        if loopEnd > readPos then loopEnd - readPos else 0
      else block
    else block - unused
  }

  /** As written, for a reader 200000 frames in with the loop end moved back to frame
      44100, the size_t request wraps to 2^64 - 155900, more than the 48000-frame block;
      sf_readf_float takes a signed count, so libsndfile is handed -155900. */
  lemma RequestSizeAsWrittenOverflows()
    ensures RequestSizeAsWritten(true, true, 200000, 44100, 48000, 0) == U64 - 155900
    ensures RequestSizeAsWritten(true, true, 200000, 44100, 48000, 0) > 48000
    ensures RequestSize(true, true, 200000, 44100, 48000, 0) == 0
  {
  }

  /** Both versions agree whenever the reader has not passed the loop end. */
  lemma RequestSizeAgrees(ratioIsOne: bool, loop: bool, readPos: int, loopEnd: int,
                          block: nat, unused: nat)
    requires unused <= block && (loop ==> readPos <= loopEnd) && loopEnd - readPos < U64
    ensures RequestSize(ratioIsOne, loop, readPos, loopEnd, block, unused)
         == RequestSizeAsWritten(ratioIsOne, loop, readPos, loopEnd, block, unused)
  {
  }

  /** The reader's state after a block: a short (empty) read ends loading. The first
      empty read of a loop goes back for the loop start; once the loop is loaded, or
      without looping, the reader idles. */
  function AfterRead(nRead: nat, loop: bool, loopLoaded: bool): (s: ReadStatus)
    ensures s == Loading <==> nRead > 0
    ensures s == Looping <==> nRead == 0 && loop && !loopLoaded
  {
    if nRead > 0 then Loading
    else if loop && !loopLoaded then Looping
    else Idle
  }

  // ---------------------------------------------------------------------------
  // Demux: interleaved source frames onto legs A and B
  // ---------------------------------------------------------------------------

  /** Sum of the samples of one frame at tracks t, t+2, t+4, ... below ch, each divided by div. */
  function EveryOther(frame: seq<real>, t: nat, ch: nat, div: real): real
    requires ch <= |frame| && div != 0.0
    decreases ch - t
  {
    if t >= ch then 0.0 else frame[t] / div + EveryOther(frame, t + 2, ch, div)
  }

  /** The sample sent to leg A: the chosen track, the downmix of the even tracks when the
      track is negative, or half the only channel of a mono file. */
  function LegA(frame: seq<real>, ch: nat, track: int): real
    requires 1 <= ch <= |frame| && track < ch
  {
    if ch > 1 then
      if track < 0 then EveryOther(frame, 0, ch, (ch / 2) as real) else frame[track]
    else frame[0] / 2.0
  }

  /** The sample sent to leg B: the chosen track, the downmix of the odd tracks when the
      track is negative, or half the only channel of a mono file. */
  function LegB(frame: seq<real>, ch: nat, track: int): real
    requires 1 <= ch <= |frame| && track < ch
  {
    if ch > 1 then
      if track < 0 then EveryOther(frame, 1, ch, (ch / 2) as real) else frame[track]
    else frame[0] / 2.0
  }

  /** Sum over every other track of a frame whose samples all equal c: one term for each
      of the (ch - t + 1) / 2 tracks visited. */
  lemma {:induction false} EveryOtherConstant(frame: seq<real>, t: nat, ch: nat, div: real, c: real, n: nat)
    requires ch <= |frame| && div != 0.0 && t <= ch + 1 && n == (ch - t + 1) / 2
    requires forall i :: 0 <= i < ch ==> frame[i] == c
    ensures EveryOther(frame, t, ch, div) == n as real * (c / div)
    decreases ch - t
  {
    if t < ch {
      calc {
        EveryOther(frame, t, ch, div);
        frame[t] / div + EveryOther(frame, t + 2, ch, div);
        { EveryOtherConstant(frame, t + 2, ch, div, c, n - 1); }
        c / div + (n - 1) as real * (c / div);
        { OneMoreTerm(n - 1, c / div); }
        n as real * (c / div);
      }
    } else {
      assert n == 0;
    }
  }

  lemma OneMoreTerm(m: nat, q: real)
    ensures (m + 1) as real * q == q + m as real * q
  {
  }

  /** A frame that carries the same sample c on every one of an even number of channels
      is downmixed to c on both legs, and a mono sample c to c/2 on both. */
  lemma DownmixPreservesLevel(frame: seq<real>, ch: nat, c: real)
    requires 1 <= ch <= |frame| && (ch == 1 || ch % 2 == 0)
    requires forall i :: 0 <= i < ch ==> frame[i] == c
    ensures ch > 1 ==> LegA(frame, ch, -1) == c && LegB(frame, ch, -1) == c
    ensures ch == 1 ==> LegA(frame, ch, -1) == c / 2.0 && LegB(frame, ch, -1) == c / 2.0
  {
    if ch > 1 {
      var div := (ch / 2) as real;
      EveryOtherConstant(frame, 0, ch, div, c, ch / 2);
      EveryOtherConstant(frame, 1, ch, div, c, ch / 2);
    }
  }

  /** One demuxed frame: B is written first and A receives as many samples as B took
      (the byte count returned for B is passed as A's length). */
  function PushFrame(a: Fifo, b: Fifo, fA: real, fB: real): (r: (Fifo, Fifo))
    requires Ring.Valid(a) && Ring.Valid(b)
    ensures Ring.Valid(r.0) && Ring.Valid(r.1) && r.0.cap == a.cap && r.1.cap == b.cap
  {
    var (b', w) := Write(b, [fB]);
    var (a', _) := Write(a, [fA][..w]);
    (a', b')
  }

  /** Frames of a block: each frame holds one sample per source channel. */
  predicate Framed(block: seq<seq<real>>, ch: nat)
  {
    forall k :: 0 <= k < |block| ==> |block[k]| == ch
  }

  /** The demux loop over the first n frames of a block, frame by frame. */
  function PushFrames(a: Fifo, b: Fifo, block: seq<seq<real>>, n: nat, ch: nat, trackA: int, trackB: int): (r: (Fifo, Fifo))
    requires Ring.Valid(a) && Ring.Valid(b) && n <= |block| && Framed(block, ch)
    requires 1 <= ch && trackA < ch && trackB < ch
    ensures Ring.Valid(r.0) && Ring.Valid(r.1) && r.0.cap == a.cap && r.1.cap == b.cap
  {
    if n == 0 then (a, b)
    else
      var (a', b') := PushFrames(a, b, block, n - 1, ch, trackA, trackB);
      PushFrame(a', b', LegA(block[n - 1], ch, trackA), LegB(block[n - 1], ch, trackB))
  }

  /** Two legs are aligned when they have the same capacity and the same fill. */
  predicate Aligned(a: Fifo, b: Fifo)
  {
    Ring.Valid(a) && Ring.Valid(b) && a.cap == b.cap && |a.data| == |b.data|
  }

  /** With aligned legs, waiting while both legs lack room (as the reader does) and
      waiting while either does are the same condition. */
  lemma WaitConditionsAgree(a: Fifo, b: Fifo, need: nat)
    requires Aligned(a, b)
    ensures (Space(a) < need && Space(b) < need) == (Space(a) < need || Space(b) < need)
  {
  }

  /** The samples sent to leg A and leg B by the first n frames of a block. */
  function ColumnA(block: seq<seq<real>>, n: nat, ch: nat, track: int): (c: seq<real>)
    requires n <= |block| && Framed(block, ch) && 1 <= ch && track < ch
    ensures |c| == n
  {
    if n == 0 then [] else ColumnA(block, n - 1, ch, track) + [LegA(block[n - 1], ch, track)]
  }

  function ColumnB(block: seq<seq<real>>, n: nat, ch: nat, track: int): (c: seq<real>)
    requires n <= |block| && Framed(block, ch) && 1 <= ch && track < ch
    ensures |c| == n
  {
    if n == 0 then [] else ColumnB(block, n - 1, ch, track) + [LegB(block[n - 1], ch, track)]
  }

  /** One demuxed frame on aligned legs: both legs take it when there is room, and
      neither does when they are full. */
  lemma PushFrameAligned(a: Fifo, b: Fifo, fA: real, fB: real)
    requires Aligned(a, b)
    ensures Aligned(PushFrame(a, b, fA, fB).0, PushFrame(a, b, fA, fB).1)
    ensures Space(a) > 0 ==> PushFrame(a, b, fA, fB) == (Fifo(a.data + [fA], a.cap), Fifo(b.data + [fB], b.cap))
    ensures Space(a) == 0 ==> PushFrame(a, b, fA, fB) == (a, b)
  {
    if Space(a) == 0 {
      WriteFull(b, [fB]);
      WriteFull(a, []);
    } else {
      assert [fB][..1] == [fB];
      assert [fA][..1] == [fA];
    }
  }

  /** Demuxing keeps the legs aligned and appends, in frame order, as many frames as fit:
      every frame up to the first that finds the legs full, and none after it. */
  lemma {:induction false} PushFramesContents(a: Fifo, b: Fifo, block: seq<seq<real>>, n: nat, ch: nat,
                                              trackA: int, trackB: int)
    requires Aligned(a, b) && n <= |block| && Framed(block, ch)
    requires 1 <= ch && trackA < ch && trackB < ch
    ensures var r := PushFrames(a, b, block, n, ch, trackA, trackB);
      var m := if n <= Space(a) then n else Space(a);
      Aligned(r.0, r.1)
      && r.0.data == a.data + ColumnA(block, n, ch, trackA)[..m]
      && r.1.data == b.data + ColumnB(block, n, ch, trackB)[..m]
  {
    if n > 0 {
      PushFramesContents(a, b, block, n - 1, ch, trackA, trackB);
      var prev := PushFrames(a, b, block, n - 1, ch, trackA, trackB);
      var fA := LegA(block[n - 1], ch, trackA);
      var fB := LegB(block[n - 1], ch, trackB);
      PushFrameAligned(prev.0, prev.1, fA, fB);
      var colA, colB := ColumnA(block, n - 1, ch, trackA), ColumnB(block, n - 1, ch, trackB);
      assert ColumnA(block, n, ch, trackA) == colA + [fA] && ColumnB(block, n, ch, trackB) == colB + [fB];
      var room := Space(prev.0) > 0;
      assert room <==> n <= Space(a);
      ColumnStep(a.data, colA, fA, Space(a), room);
      ColumnStep(b.data, colB, fB, Space(a), room);
    }
  }

  /** One more frame on a column of which min(|col|, s) frames were taken: appended
      when there is room, that is while fewer than s were taken. */
  lemma ColumnStep(d: seq<real>, col: seq<real>, f: real, s: nat, room: bool)
    requires room <==> |col| < s
    ensures var m0 := if |col| <= s then |col| else s;
      var m := if |col| + 1 <= s then |col| + 1 else s;
      (if room then d + col[..m0] + [f] else d + col[..m0]) == d + (col + [f])[..m]
  {
    assert (col + [f])[..|col| + 1] == col + [f];
    if |col| >= s {
      assert (col + [f])[..s] == col[..s];
    }
  }

  /** When the legs have room for the whole block, both receive every frame. */
  lemma DemuxWholeBlock(a: Fifo, b: Fifo, block: seq<seq<real>>, n: nat, ch: nat, trackA: int, trackB: int)
    requires Aligned(a, b) && n <= |block| && Framed(block, ch) && n <= Space(a)
    requires 1 <= ch && trackA < ch && trackB < ch
    ensures PushFrames(a, b, block, n, ch, trackA, trackB).0.data == a.data + ColumnA(block, n, ch, trackA)
    ensures PushFrames(a, b, block, n, ch, trackA, trackB).1.data == b.data + ColumnB(block, n, ch, trackB)
  {
    PushFramesContents(a, b, block, n, ch, trackA, trackB);
    assert ColumnA(block, n, ch, trackA)[..n] == ColumnA(block, n, ch, trackA);
    assert ColumnB(block, n, ch, trackB)[..n] == ColumnB(block, n, ch, trackB);
  }

  // ---------------------------------------------------------------------------
  // Pitch-shifted drain: which buffered sample each output sample takes
  // ---------------------------------------------------------------------------

  /** The number of samples the drain has consumed once its running count (a multiple of
      the pitch factor p) has caught up with j: the least r with r * p >= j. */
  function Catchup(j: nat, p: real): (r: nat)
    requires p > 0.0
    ensures r as real * p >= j as real
    ensures r == 0 || (r as real - 1.0) * p < j as real
  {
    var x := j as real / p;
    assert x * p == j as real;
    var r := CeilNat(x);
    MulMonotonic(x, r as real, p);
    MulStrict(r as real - 1.0, x, p);
    assert (r as real - 1.0) * p < j as real;
    r
  }

  /** The least natural number at or above a non-negative real. */
  function CeilNat(x: real): (r: nat)
    requires x >= 0.0
    ensures x <= r as real < x + 1.0
  {
    if x.Floor as real == x then x.Floor else x.Floor + 1
  }


  /** The truncated quotient y / r is the multiple of r whose span holds y. */
  lemma TruncQuotient(y: real, r: real)
    requires y >= 0.0 && r > 0.0
    ensures var n := Trunc(y / r); 0 <= n && n as real * r <= y < (n + 1) as real * r
  {
    var x := y / r;
    assert x * r == y;
    var n := Trunc(x);
    MulMonotonic(n as real, x, r);
    MulStrict(x, (n + 1) as real, r);
    assert x * r < (n + 1) as real * r;
    assert y < (n + 1) as real * r;
  }

  /** A later catch-up point never lies before an earlier one. */
  lemma CatchupMonotonic(i: nat, j: nat, p: real)
    requires i <= j && p > 0.0
    ensures Catchup(i, p) <= Catchup(j, p)
  {
    LeastReaching(Catchup(i, p), Catchup(j, p), p, i as real, j as real);
  }

  /** A count whose predecessor falls short of i is at most any count that reaches j >= i. */
  lemma LeastReaching(c1: nat, c2: nat, p: real, i: real, j: real)
    requires p > 0.0 && i <= j
    requires c1 == 0 || (c1 as real - 1.0) * p < i
    requires c2 as real * p >= j
    ensures c1 <= c2
  {
    if c2 < c1 {
      MulMonotonic(c2 as real, c1 as real - 1.0, p);
    }
  }

  /** Position in the buffered leg of the sample that output sample k repeats: the first
      output takes the oldest sample, and output k > 0 takes the sample at which the
      consumption, advancing by p per sample, first reaches k - 1. */
  function PitchIndex(k: nat, p: real): nat
    requires p > 0.0
  {
    if k == 0 then 0 else Catchup(k - 1, p)
  }

  /** Output samples follow the buffered samples in order: the drain never goes back. */
  lemma PitchIndexMonotonic(k1: nat, k2: nat, p: real)
    requires k1 <= k2 && p > 0.0
    ensures PitchIndex(k1, p) <= PitchIndex(k2, p)
  {
    if k1 > 0 { CatchupMonotonic(k1 - 1, k2 - 1, p); }
  }

  /** The pitch factor counts output samples per input sample: a factor of 2 (an octave
      down, half speed) shows every sample twice; a factor of 1/2 (an octave up, double
      speed) skips every other sample. */
  lemma PitchIndexOctaves(k: nat)
    ensures k > 0 ==> PitchIndex(k, 2.0) == k / 2
    ensures k > 0 ==> PitchIndex(k, 0.5) == 2 * (k - 1)
  {
    if k > 0 {
      var c := Catchup(k - 1, 2.0);
      assert c as real * 2.0 >= (k - 1) as real;
      assert c == 0 || (c as real - 1.0) * 2.0 < (k - 1) as real;
      var d := Catchup(k - 1, 0.5);
      assert d as real * 0.5 >= (k - 1) as real;
      assert d == 0 || (d as real - 1.0) * 0.5 < (k - 1) as real;
    }
  }

  // ---------------------------------------------------------------------------
  // One JACK period: transport state
  // ---------------------------------------------------------------------------

  /** The part of a player's state a period moves: play state, reader state, play
      position (output frames, jack_nframes_t) and whether the next loop is loaded. */
  datatype Transport = Transport(playState: PlayState, readStatus: ReadStatus, pos: nat, loopLoaded: bool)

  /** A starting player starts playing once the reader has finished seeking. */
  function Begin(t: Transport): Transport
  {
    if t.playState == Starting && t.readStatus != Seeking then t.(playState := Playing) else t
  }

  /** Whether the period drains the ring buffers. */
  predicate Rolling(s: PlayState) { s == Playing || s == Stopping }

  /** Loop wrap, as written: the position is reduced modulo the loop end and moved up by
      the loop start. The modulo by a loop end of zero is undefined in C. */
  function WrapAsWritten(pos: nat, lss: int, les: int): nat
    requires les > 0
  {
    ToU32(pos % les + lss)
  }

  /** Loop wrap, as intended: a loop end of zero sends the position to the loop start. */
  function Wrap(pos: nat, lss: int, les: int): (r: nat)
    requires les >= 0
    ensures r < U32
    ensures les > 0 ==> r == WrapAsWritten(pos, lss, les)
    ensures 0 <= lss && les > 0 && lss + les <= U32 ==> lss <= r < lss + les
  {
    if les > 0 then ToU32(pos % les + lss) else ToU32(lss)
  }

  /** After the drain: the position moves on by the samples drained (as jack_nframes_t).
      With looping on, reaching the loop end or running dry wraps into the loop and asks
      the reader for the loop start; otherwise reaching the end of the file or running
      dry rewinds and stops. */
  function Advance(t: Transport, r: nat, empty: bool, loop: bool, lss: int, les: int, outFrames: nat): Transport
    requires les >= 0
  {
    var pos := ToU32(t.pos + r);
    var eof := t.readStatus == Idle && empty;
    if loop then
      if pos >= les || eof then Transport(t.playState, Looping, Wrap(pos, lss, les), false)
      else t.(pos := pos)
    else if pos >= outFrames || eof then Transport(Stopping, Seeking, 0, t.loopLoaded)
    else t.(pos := pos)
  }

  /** A stopping player is faded out and stopped within the period. */
  function Finish(t: Transport): Transport
  {
    if t.playState == Stopping then t.(playState := Stopped) else t
  }

  /** The transport after one period in which r samples were drained, `empty` telling
      whether leg A is empty afterwards. */
  function Period(t: Transport, r: nat, empty: bool, loop: bool, lss: int, les: int, outFrames: nat): Transport
    requires les >= 0
  {
    var b := Begin(t);
    Finish(if Rolling(b.playState) then Advance(b, r, empty, loop, lss, les, outFrames) else b)
  }

  /** No period ends in STOPPING: the fade and the stop happen in the same period. */
  lemma PeriodNeverStopping(t: Transport, r: nat, empty: bool, loop: bool, lss: int, les: int, outFrames: nat)
    requires les >= 0
    ensures Period(t, r, empty, loop, lss, les, outFrames).playState != Stopping
    ensures t.playState == Stopping ==> Period(t, r, empty, loop, lss, les, outFrames).playState == Stopped
  {
  }

  /** A stopped player is left exactly as it is. */
  lemma PeriodStoppedStays(t: Transport, r: nat, empty: bool, loop: bool, lss: int, les: int, outFrames: nat)
    requires les >= 0 && t.playState == Stopped
    ensures Period(t, r, empty, loop, lss, les, outFrames) == t
  {
  }

  /** A starting player waits for the seek: while the reader is seeking nothing moves, and
      once it is not, the player plays (or, at the end of the file, stops). */
  lemma PeriodStartWaitsForSeek(t: Transport, r: nat, empty: bool, loop: bool, lss: int, les: int, outFrames: nat)
    requires les >= 0 && t.playState == Starting
    ensures t.readStatus == Seeking ==> Period(t, r, empty, loop, lss, les, outFrames) == t
    ensures t.readStatus != Seeking ==>
      Period(t, r, empty, loop, lss, les, outFrames).playState in {Playing, Stopped}
  {
  }

  /** While playing inside the file, the position advances by exactly the samples drained. */
  lemma PeriodAdvances(t: Transport, r: nat, empty: bool, loop: bool, lss: int, les: int, outFrames: nat)
    requires les >= 0 && t.playState == Playing && t.pos + r < U32
    requires !(t.readStatus == Idle && empty)
    requires loop ==> t.pos + r < les
    requires !loop ==> t.pos + r < outFrames
    ensures Period(t, r, empty, loop, lss, les, outFrames) == t.(pos := t.pos + r)
  {
  }

  /** With looping on, reaching the loop end wraps the position into the loop and asks
      the reader for the loop start again; the player keeps playing. */
  lemma PeriodWrapsLoop(t: Transport, r: nat, empty: bool, lss: int, les: int, outFrames: nat)
    requires t.playState == Playing && 0 <= lss && 0 < les && lss + les <= U32 && t.pos + r < U32
    requires t.pos + r >= les || (t.readStatus == Idle && empty)
    ensures var p := Period(t, r, empty, true, lss, les, outFrames);
      p.playState == Playing && p.readStatus == Looping && !p.loopLoaded
      && p.pos == (t.pos + r) % les + lss && lss <= p.pos < lss + les
  {
  }

  /** Without looping, reaching the end of the file (or running dry) rewinds to the start,
      stops, and asks the reader to seek. */
  lemma PeriodStopsAtEnd(t: Transport, r: nat, empty: bool, lss: int, les: int, outFrames: nat)
    requires Rolling(t.playState) && les >= 0
    requires ToU32(t.pos + r) >= outFrames || (t.readStatus == Idle && empty)
    ensures Period(t, r, empty, false, lss, les, outFrames) == Transport(Stopped, Seeking, 0, t.loopLoaded)
  {
  }

  /** As written, an open file of no frames has a loop end of zero in output frames, and
      with looping on every period takes the wrap branch, where the position is reduced
      modulo that zero loop end. */
  lemma EmptyFileWrapDividesByZero(ratio: real, pos: nat)
    requires ratio > 0.0
    ensures Scale(0, ratio) == 0
    ensures pos >= Scale(0, ratio)
    ensures Wrap(pos, 0, Scale(0, ratio)) == 0
  {
  }

  // ---------------------------------------------------------------------------
  // MIDI
  // ---------------------------------------------------------------------------

  /** What a channel voice message does to the player on its channel. */
  datatype MidiAction = NoteOff | NoteOn(note: nat) | Bend(value: nat) | Ignore

  /** Message interpretation as written: a note-off, or a note-on of velocity 0, for the
      last note played stops; any other note-on, velocity 0 included, starts. */
  function InterpretAsWritten(cmd: nat, d1: nat, d2: nat, lastNote: nat): MidiAction
  {
    if (cmd == 0x80 || (cmd == 0x90 && d2 == 0)) && lastNote == d1 then NoteOff
    else if cmd == 0x90 then NoteOn(d1)
    else if cmd == 0xE0 then Bend(d1 + 128 * d2)
    else Ignore
  }

  /** Message interpretation as intended: a note-on of velocity 0 is a note-off (so one
      for another note is ignored), and a note-on starts only a player with a file open. */
  function Interpret(cmd: nat, d1: nat, d2: nat, lastNote: nat, open: bool): (a: MidiAction)
    ensures a == NoteOff <==> (cmd == 0x80 || (cmd == 0x90 && d2 == 0)) && lastNote == d1
    ensures a.NoteOn? <==> cmd == 0x90 && d2 > 0 && open
    ensures a.NoteOn? ==> a.note == d1
    ensures a.Bend? <==> cmd == 0xE0
    ensures a.Bend? ==> a.value == d1 + 128 * d2
  {
    if (cmd == 0x80 || (cmd == 0x90 && d2 == 0)) && lastNote == d1 then NoteOff
    else if cmd == 0x90 && d2 > 0 then (if open then NoteOn(d1) else Ignore)
    else if cmd == 0xE0 then Bend(d1 + 128 * d2)
    else Ignore
  }

  /** The two interpretations agree on every message except a velocity-0 note-on for a
      note other than the last, and a note-on for a player with no file open. */
  lemma InterpretAgrees(cmd: nat, d1: nat, d2: nat, lastNote: nat, open: bool)
    requires !(cmd == 0x90 && d2 == 0 && lastNote != d1)
    requires open || cmd != 0x90
    ensures Interpret(cmd, d1, d2, lastNote, open) == InterpretAsWritten(cmd, d1, d2, lastNote)
  {
  }

  /** As written, a note-on of velocity 0 (a note-off by the MIDI convention) for note 64,
      while note 60 is the last played, starts playback of note 64. */
  lemma VelocityZeroStartsAsWritten()
    ensures InterpretAsWritten(0x90, 64, 0, 60) == NoteOn(64)
    ensures Interpret(0x90, 64, 0, 60, true) == Ignore
  {
  }

  /** As written, a note-on reaches a player whether or not a file is open. */
  lemma NoteOnWithoutFileAsWritten()
    ensures InterpretAsWritten(0x90, 64, 100, 0) == NoteOn(64)
    ensures Interpret(0x90, 64, 100, 0, false) == Ignore
  {
  }

  /** Data bytes below 128 give a 14-bit pitch-bend value. */
  lemma BendRange(d1: nat, d2: nat)
    requires d1 < 128 && d2 < 128
    ensures Interpret(0xE0, d1, d2, 0, true) == Bend(d1 + 128 * d2)
    ensures d1 + 128 * d2 < 16384
    ensures d1 == 0 && d2 == 64 ==> d1 + 128 * d2 == PITCH_BEND_CENTRE
  {
  }
}
