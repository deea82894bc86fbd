// The lock-free JACK ring buffer that carries one leg (A or B) of decoded audio
// from the file-reader thread to the realtime process callback, counted in
// samples (one 4-byte float each) rather than in bytes.
module Ring {
  import opened Wrappers

  /** Buffered samples, oldest first, and the number of samples the buffer can hold. */
  datatype Fifo = Fifo(data: seq<real>, cap: nat)

  predicate Valid(f: Fifo) { |f.data| <= f.cap }

  /** jack_ringbuffer_write_space, in samples. */
  function Space(f: Fifo): (n: nat)
    requires Valid(f)
    ensures n + |f.data| == f.cap
  {
    f.cap - |f.data|
  }

  /** jack_ringbuffer_read_space, in samples. */
  function ReadSpace(f: Fifo): nat { |f.data| }

  /** jack_ringbuffer_reset: drops every buffered sample. */
  function Reset(f: Fifo): (g: Fifo)
    ensures Valid(g) && g.cap == f.cap && ReadSpace(g) == 0
  {
    Fifo([], f.cap)
  }

  /** jack_ringbuffer_write of `xs`: stores as many samples as fit, at the back, and
      reports how many were stored. */
  function Write(f: Fifo, xs: seq<real>): (r: (Fifo, nat))
    requires Valid(f)
    ensures Valid(r.0) && r.0.cap == f.cap
    ensures r.1 <= |xs| && (r.1 < |xs| ==> |r.0.data| == f.cap)
    ensures r.0.data == f.data + xs[..r.1]
  {
    var n := if |xs| <= Space(f) then |xs| else Space(f);
    (Fifo(f.data + xs[..n], f.cap), n)
  }

  /** jack_ringbuffer_read of up to `n` samples: takes them from the front. */
  function Read(f: Fifo, n: nat): (r: (Fifo, seq<real>))
    ensures r.0.cap == f.cap && (Valid(f) ==> Valid(r.0))
    ensures |r.1| <= n && (|r.1| < n ==> r.0.data == [])
    ensures f.data == r.1 + r.0.data
  {
    var k := if n <= |f.data| then n else |f.data|;
    (Fifo(f.data[k..], f.cap), f.data[..k])
  }

  /** jack_ringbuffer_peek of one sample: the oldest sample, left in place. */
  function Peek(f: Fifo): (r: Option<real>)
    ensures r.Some? <==> |f.data| > 0
    ensures r.Some? ==> Read(f, 1).1 == [r.value]
  {
    if |f.data| > 0 then Some(f.data[0]) else None
  }

  /** First in, first out: whatever is buffered comes out before what is written next,
      and what is written comes out unchanged. */
  lemma {:induction false} WriteThenRead(f: Fifo, xs: seq<real>)
    requires Valid(f)
    ensures Read(Write(f, xs).0, |f.data| + |xs|).1 == f.data + xs[..Write(f, xs).1]
    ensures Read(Write(f, xs).0, |f.data| + |xs|).0.data == []
  {
    var (g, n) := Write(f, xs);
    assert |g.data| == |f.data| + n <= |f.data| + |xs|;
  }

  /** Writing into a full buffer stores nothing and leaves it unchanged. */
  lemma WriteFull(f: Fifo, xs: seq<real>)
    requires Valid(f) && |f.data| == f.cap
    ensures Write(f, xs) == (f, 0)
  {
    assert xs[..0] == [];
    assert f.data + [] == f.data;
  }
}
