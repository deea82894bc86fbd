// The per-sample loops of one JACK period for one player: draining the two legs into
// the port buffers (straight, or pitch-shifted by repeating or skipping samples), the
// gain and soft-mute loops, and the silencing of what the drain did not fill.
module PortBuffers {
  import opened Ring
  import opened PlayerRules

  function Min(x: nat, y: nat): nat { if x <= y then x else y }

  /** Which buffered sample output sample k takes: sample k without pitch shift. */
  function SampleIndex(k: nat, pitch: real): nat
  {
    if pitch == 1.0 || pitch <= 0.0 then k else PitchIndex(k, pitch)
  }

  /** The soft-mute ramp of a stopping player over the aCount samples written. */
  function FadeLevel(k: nat, aCount: nat, faded: bool): real
  {
    if faded && aCount > 0 then 1.0 - k as real / aCount as real else 1.0
  }

  /** Both legs read straight into the port buffers: as many samples as the buffer
      holds or leg A has, and the same count from leg B. */
  method DrainPlain(a: Fifo, b: Fifo, outA: array<real>, outB: array<real>) returns (a': Fifo, b': Fifo, count: nat)
    requires Aligned(a, b) && outA != outB && outA.Length == outB.Length
    modifies outA, outB
    ensures Aligned(a', b') && a'.cap == a.cap
    ensures count <= outA.Length && count <= |a.data|
    ensures count < outA.Length ==> a'.data == []
    ensures a'.data == a.data[count..] && b'.data == b.data[count..]
    ensures forall k :: 0 <= k < count ==> outA[k] == a.data[k] && outB[k] == b.data[k]
    ensures forall k :: count <= k < outA.Length ==> outA[k] == old(outA[k]) && outB[k] == old(outB[k])
  {
    var (ra, xs) := Read(a, outA.Length);
    var (rb, ys) := Read(b, |xs|);
    forall k | 0 <= k < |xs| {
      outA[k] := xs[k];
    }
    forall k | 0 <= k < |ys| {
      outB[k] := ys[k];
    }
    a', b', count := ra, rb, |xs|;
    assert a.data == xs + ra.data && b.data == ys + rb.data;
    assert xs == a.data[..count] && ys == b.data[..count];
  }

  /** The catch-up loop of the pitch-shifted drain before output sample k: samples are
      consumed from both legs, the running count advancing by `pitch` each, until it
      reaches k or leg A runs dry. Starting anywhere up to the catch-up point of k with
      a sample buffered, it stops exactly there, or at the end of the data. */
  method CatchUp(a: Fifo, b: Fifo, f0: real, r0: nat, k: nat, pitch: real, ghost d: seq<real>, ghost e: seq<real>)
    returns (a': Fifo, b': Fifo, f: real, r: nat)
    requires Aligned(a, b) && pitch > 0.0 && r0 < |d| && |d| == |e|
    requires a.data == d[r0..] && b.data == e[r0..]
    requires f0 == r0 as real * pitch && r0 <= Catchup(k, pitch)
    ensures Aligned(a', b') && a'.cap == a.cap
    ensures r <= |d| && a'.data == d[r..] && b'.data == e[r..]
    ensures f == r as real * pitch
    ensures r == Min(Catchup(k, pitch), |d|)
  {
    a', b', f, r := a, b, f0, r0;
    while f < k as real
      invariant r0 <= r <= |d| && r <= Catchup(k, pitch)
      invariant Aligned(a', b') && a'.cap == a.cap
      invariant a'.data == d[r..] && b'.data == e[r..]
      invariant f == r as real * pitch
      invariant r < |d|
      decreases |d| - r
    {
      f := f + pitch;
      var (ra, _) := Read(a', 1);
      var (rb, _) := Read(b', 1);
      a', b' := ra, rb;
      r := r + 1;
      LeastReaching(r, Catchup(k, pitch), pitch, k as real, k as real);
      if |a'.data| == 0 {
        return;
      }
    }
    LeastReaching(Catchup(k, pitch), r, pitch, k as real, k as real);
  }

  /** The pitch-shifted drain: output sample k repeats the oldest sample left once the
      running count (advancing by `pitch` per sample consumed) has caught up with k - 1;
      stops when the port buffer is full or leg A or B runs dry. */
  method DrainPitched(a: Fifo, b: Fifo, outA: array<real>, outB: array<real>, pitch: real)
    returns (a': Fifo, b': Fifo, aCount: nat, rCount: nat)
    requires Aligned(a, b) && outA != outB && outA.Length == outB.Length && pitch > 0.0
    modifies outA, outB
    ensures Aligned(a', b') && a'.cap == a.cap
    ensures aCount <= outA.Length && rCount <= |a.data|
    ensures a'.data == a.data[rCount..] && b'.data == b.data[rCount..]
    ensures aCount < outA.Length ==> a'.data == []
    ensures rCount == (if aCount == 0 then 0 else Min(Catchup(aCount - 1, pitch), |a.data|))
    ensures forall k :: 0 <= k < aCount ==>
      PitchIndex(k, pitch) < |a.data| && outA[k] == a.data[PitchIndex(k, pitch)] && outB[k] == b.data[PitchIndex(k, pitch)]
    ensures forall k :: aCount <= k < outA.Length ==> outA[k] == old(outA[k]) && outB[k] == old(outB[k])
  {
    ghost var d := a.data;
    ghost var e := b.data;
    a', b' := a, b;
    aCount, rCount := 0, 0;
    var f := 0.0;
    while aCount < outA.Length
      invariant aCount <= outA.Length && rCount <= |d|
      invariant Aligned(a', b') && a'.cap == a.cap
      invariant a'.data == d[rCount..] && b'.data == e[rCount..]
      invariant f == rCount as real * pitch
      invariant rCount == (if aCount == 0 then 0 else Min(Catchup(aCount - 1, pitch), |d|))
      invariant forall k :: 0 <= k < aCount ==>
        PitchIndex(k, pitch) < |d| && outA[k] == d[PitchIndex(k, pitch)] && outB[k] == e[PitchIndex(k, pitch)]
      invariant forall k :: aCount <= k < outA.Length ==> outA[k] == old(outA[k]) && outB[k] == old(outB[k])
      decreases outA.Length - aCount
    {
      if a'.data == [] || b'.data == [] {
        break;
      }
      assert PitchIndex(aCount, pitch) == rCount;
      outA[aCount] := a'.data[0];
      outB[aCount] := b'.data[0];
      if aCount > 0 {
        CatchupMonotonic(aCount - 1, aCount, pitch);
      }
      a', b', f, rCount := CatchUp(a', b', f, rCount, aCount, pitch, d, e);
      aCount := aCount + 1;
    }
  }

  /** The gain loop: the first `count` samples scaled by g. */
  method ApplyGain(out: array<real>, count: nat, g: real)
    requires count <= out.Length
    modifies out
    ensures forall k :: 0 <= k < count ==> out[k] == old(out[k]) * g
    ensures forall k :: count <= k < out.Length ==> out[k] == old(out[k])
  {
    var offset := 0;
    while offset < count
      invariant offset <= count
      invariant forall k :: 0 <= k < offset ==> out[k] == old(out[k]) * g
      invariant forall k :: offset <= k < out.Length ==> out[k] == old(out[k])
    {
      out[offset] := out[offset] * g;
      offset := offset + 1;
    }
  }

  /** Port buffer x holds, in its first `count` samples, sample SampleIndex(k) of the
      leg contents d scaled by g, and by the soft-mute ramp when faded. */
  predicate Took(x: seq<real>, count: nat, pitch: real, g: real, d: seq<real>, faded: bool)
  {
    count <= |x|
    && forall k :: 0 <= k < count ==>
      SampleIndex(k, pitch) < |d| && x[k] == d[SampleIndex(k, pitch)] * g * FadeLevel(k, count, faded)
  }

  /** Both port buffers took their samples from the legs d and e alike. */
  predicate Drained(x: seq<real>, y: seq<real>, count: nat, pitch: real, g: real, d: seq<real>, e: seq<real>, faded: bool)
  {
    Took(x, count, pitch, g, d, faded) && Took(y, count, pitch, g, e, faded)
  }

  /** From sample `from` on, the port buffer is silent. */
  predicate Silent(x: seq<real>, from: nat)
  {
    forall k :: from <= k < |x| ==> x[k] == 0.0
  }

  /** Scaling by g what was taken unscaled gives what is taken at gain g. */
  lemma TookScaled(x: seq<real>, y: seq<real>, count: nat, pitch: real, g: real, d: seq<real>)
    requires Took(x, count, pitch, 1.0, d, false) && count <= |y|
    requires forall k :: 0 <= k < count ==> y[k] == x[k] * g
    ensures Took(y, count, pitch, g, d, false)
  {
  }

  /** Ramping down what was taken gives what is taken faded. */
  lemma TookFaded(x: seq<real>, y: seq<real>, count: nat, pitch: real, g: real, d: seq<real>)
    requires Took(x, count, pitch, g, d, false) && count <= |y|
    requires forall k :: 0 <= k < count ==> y[k] == x[k] * FadeLevel(k, count, true)
    ensures Took(y, count, pitch, g, d, true)
  {
  }

  /** What was taken depends only on the first `count` samples. */
  lemma TookPrefix(x: seq<real>, y: seq<real>, count: nat, pitch: real, g: real, d: seq<real>, faded: bool)
    requires Took(x, count, pitch, g, d, faded) && count <= |y|
    requires forall k :: 0 <= k < count ==> y[k] == x[k]
    ensures Took(y, count, pitch, g, d, faded)
  {
  }

  /** The gain loop on one port buffer after a drain. */
  method GainTook(out: array<real>, count: nat, g: real, pitch: real, ghost d: seq<real>)
    requires Took(out[..], count, pitch, 1.0, d, false)
    modifies out
    ensures Took(out[..], count, pitch, g, d, false)
    ensures forall k :: count <= k < out.Length ==> out[k] == old(out[k])
  {
    ghost var x := out[..];
    ApplyGain(out, count, g);
    TookScaled(x, out[..], count, pitch, g, d);
  }

  /** The soft-mute loop on one port buffer. */
  method FadeTook(out: array<real>, count: nat, g: real, pitch: real, ghost d: seq<real>)
    requires Took(out[..], count, pitch, g, d, false)
    modifies out
    ensures Took(out[..], count, pitch, g, d, true)
    ensures forall k :: count <= k < out.Length ==> out[k] == old(out[k])
  {
    ghost var x := out[..];
    FadeOut(out, count);
    TookFaded(x, out[..], count, pitch, g, d);
  }

  /** Silencing the tail of one port buffer keeps what was taken. */
  method SilenceTook(out: array<real>, count: nat, g: real, pitch: real, ghost d: seq<real>, ghost faded: bool)
    requires Took(out[..], count, pitch, g, d, faded)
    modifies out
    ensures Took(out[..], count, pitch, g, d, faded) && Silent(out[..], count)
  {
    ghost var x := out[..];
    Silence(out, count);
    TookPrefix(x, out[..], count, pitch, g, d, faded);
  }

  /** The gain loop run over both port buffers after a drain. */
  method GainBoth(outA: array<real>, outB: array<real>, count: nat, g: real, pitch: real,
                  ghost d: seq<real>, ghost e: seq<real>)
    requires outA != outB && outA.Length == outB.Length
    requires Drained(outA[..], outB[..], count, pitch, 1.0, d, e, false)
    modifies outA, outB
    ensures Drained(outA[..], outB[..], count, pitch, g, d, e, false)
    ensures forall k :: count <= k < outA.Length ==> outA[k] == old(outA[k]) && outB[k] == old(outB[k])
  {
    GainTook(outA, count, g, pitch, d);
    ghost var ya := outA[..];
    GainTook(outB, count, g, pitch, e);
    assert outA[..] == ya;
  }

  /** The soft-mute loop run over both port buffers. */
  method FadeBoth(outA: array<real>, outB: array<real>, count: nat, g: real, pitch: real,
                  ghost d: seq<real>, ghost e: seq<real>)
    requires outA != outB && outA.Length == outB.Length
    requires Drained(outA[..], outB[..], count, pitch, g, d, e, false)
    modifies outA, outB
    ensures Drained(outA[..], outB[..], count, pitch, g, d, e, true)
    ensures forall k :: count <= k < outA.Length ==> outA[k] == old(outA[k]) && outB[k] == old(outB[k])
  {
    FadeTook(outA, count, g, pitch, d);
    ghost var ya := outA[..];
    FadeTook(outB, count, g, pitch, e);
    assert outA[..] == ya;
  }

  /** Silencing both tails keeps what was taken. */
  method SilenceBoth(outA: array<real>, outB: array<real>, count: nat, g: real, pitch: real,
                     ghost d: seq<real>, ghost e: seq<real>, ghost faded: bool)
    requires outA != outB
    requires Drained(outA[..], outB[..], count, pitch, g, d, e, faded)
    modifies outA, outB
    ensures Drained(outA[..], outB[..], count, pitch, g, d, e, faded)
    ensures Silent(outA[..], count) && Silent(outB[..], count)
  {
    SilenceTook(outA, count, g, pitch, d, faded);
    ghost var ya := outA[..];
    SilenceTook(outB, count, g, pitch, e, faded);
    assert outA[..] == ya;
  }

  /** The soft-mute loop: sample k of `count` scaled by 1 - k/count. */
  method FadeOut(out: array<real>, count: nat)
    requires count <= out.Length
    modifies out
    ensures forall k :: 0 <= k < count ==> out[k] == old(out[k]) * FadeLevel(k, count, true)
    ensures forall k :: count <= k < out.Length ==> out[k] == old(out[k])
  {
    var offset := 0;
    while offset < count
      invariant offset <= count
      invariant forall k :: 0 <= k < offset ==> out[k] == old(out[k]) * FadeLevel(k, count, true)
      invariant forall k :: offset <= k < out.Length ==> out[k] == old(out[k])
    {
      out[offset] := out[offset] * (1.0 - offset as real / count as real);
      offset := offset + 1;
    }
  }

  /** The tail of the period is silenced. */
  method Silence(out: array<real>, from: nat)
    modifies out
    ensures forall k :: 0 <= k < from && k < out.Length ==> out[k] == old(out[k])
    ensures forall k :: from <= k < out.Length ==> out[k] == 0.0
  {
    forall k | from <= k < out.Length {
      out[k] := 0.0;
    }
  }
}
