/** Value-level model of the frame re-blocking done by RNNoiseProcessor (processor.js).
    The audio callback hands over blocks of any length; the denoiser needs frames of
    exactly FrameSize samples. The state of the processor is captured by the
    datatype State; Fill models the input loop of `process`, Drain its output loop,
    Dispatch the `processFrame` call, and Step one whole `process` call. The lemmas
    give each of them its closed form. */
module Reblock {

  /** Length of the frames the RNNoise stage consumes and produces. */
  const FrameSize: nat := 480

  /** Scale between normalised samples in [-1, 1] and the 16-bit PCM range RNNoise expects. */
  const PcmScale: real := 32768.0

  /** One audio sample. A real number stands for the source's single-precision float. */
  type Sample = real

  /** Exactly one frame of samples. */
  type Frame = s: seq<Sample> | |s| == FrameSize witness seq(FrameSize, _ => 0.0)

  /** The foreign entry point rnnoise_process_frame: one PCM-scaled frame in, one out. */
  type Denoiser = Frame -> Frame

  datatype Option<T> = None | Some(value: T)

  /** The fields of RNNoiseProcessor, plus the log of frames handed to processFrame. */
  datatype State = State(
    inputBuffer: seq<Sample>,
    inputBufferPtr: nat,
    outputBuffer: seq<Sample>,
    outputBufferPtr: nat,
    outputBufferCount: nat,
    isRunning: bool,
    dispatched: seq<Frame>)

  /** The invariant every `process` call starts and ends in: both buffers hold one frame,
      both cursors are inside them, and the unread output runs up to the end of the
      output buffer, the read cursor being back at 0 once nothing is left to read. */
  ghost predicate Inv(s: State) {
    |s.inputBuffer| == FrameSize && |s.outputBuffer| == FrameSize &&
    s.inputBufferPtr < FrameSize &&
    s.outputBufferCount <= FrameSize && s.outputBufferPtr < FrameSize &&
    (s.outputBufferCount > 0 ==> s.outputBufferPtr + s.outputBufferCount == FrameSize) &&
    (s.outputBufferCount == 0 ==> s.outputBufferPtr == 0)
  }

  /** The samples received since the last dispatch. */
  ghost function Pending(s: State): (p: seq<Sample>)
    requires Inv(s)
    ensures |p| == s.inputBufferPtr < FrameSize
  {
    s.inputBuffer[..s.inputBufferPtr]
  }

  /** The state the constructor establishes: zeroed buffers, both cursors at 0, no
      processed output, model not loaded. */
  ghost function Initial(): (s: State)
    ensures Inv(s) && Pending(s) == [] && !s.isRunning
  {
    State(seq(FrameSize, _ => 0.0), 0, seq(FrameSize, _ => 0.0), 0, 0, false, [])
  }

  function ToPcm(x: Sample): real { x * PcmScale }

  function FromPcm(y: real): Sample { y / PcmScale }

  /** A frame scaled to PCM range, as processFrame writes it into the WASM heap. */
  function PcmFrame(f: Frame): Frame {
    seq(FrameSize, i requires 0 <= i < FrameSize => ToPcm(f[i]))
  }

  /** What processFrame leaves in the output buffer for the input frame f. */
  function Denoised(rnnoise: Denoiser, f: Frame): Frame {
    var r := rnnoise(PcmFrame(f));
    seq(FrameSize, i requires 0 <= i < FrameSize => FromPcm(r[i]))
  }

  /** The scaling round trip is exact: a model that returns its input unchanged
      makes processFrame hand back exactly the frame it was given. */
  lemma DenoisedIdentity(rnnoise: Denoiser, f: Frame)
    requires forall g: Frame :: rnnoise(g) == g
    ensures Denoised(rnnoise, f) == f
  {
  }

  /** processFrame: the whole input buffer goes to the model, its result replaces the
      output buffer, and the output cursor and count are reset. */
  ghost function Dispatch(s: State, rnnoise: Denoiser): (t: State)
    requires |s.inputBuffer| == FrameSize
    ensures t.outputBufferPtr == 0 && t.outputBufferCount == FrameSize
    ensures |t.outputBuffer| == FrameSize &&
            forall i :: 0 <= i < FrameSize ==>
              t.outputBuffer[i] == FromPcm(rnnoise(PcmFrame(s.inputBuffer))[i])
    ensures t.inputBuffer == s.inputBuffer && t.inputBufferPtr == s.inputBufferPtr
    ensures t.isRunning == s.isRunning
    ensures t.dispatched == s.dispatched + [s.inputBuffer]
  {
    s.(outputBuffer := Denoised(rnnoise, s.inputBuffer),
       outputBufferPtr := 0,
       outputBufferCount := FrameSize,
       dispatched := s.dispatched + [s.inputBuffer])
  }

  /** One iteration of the input loop of `process`: store x at the input cursor,
      advance it, and on reaching FrameSize dispatch the frame and rewind. */
  ghost function Accept(s: State, rnnoise: Denoiser, x: Sample): (t: State)
    requires Inv(s)
    ensures Inv(t) && t.isRunning == s.isRunning
  {
    var s1 := s.(inputBuffer := s.inputBuffer[s.inputBufferPtr := x],
                 inputBufferPtr := s.inputBufferPtr + 1);
    if s1.inputBufferPtr == FrameSize then Dispatch(s1, rnnoise).(inputBufferPtr := 0) else s1
  }

  /** The input loop of `process` over a whole block. */
  ghost function Fill(s: State, rnnoise: Denoiser, input: seq<Sample>): (t: State)
    requires Inv(s)
    ensures Inv(t) && t.isRunning == s.isRunning
    decreases |input|
  {
    if input == [] then s
    else Accept(Fill(s, rnnoise, input[..|input| - 1]), rnnoise, input[|input| - 1])
  }

  /** One iteration of the output loop of `process`: the next unread sample, or
      silence when none is left. The read cursor wraps to 0 exactly when the last
      unread sample is taken. */
  ghost function Emit(s: State): (r: (State, Sample))
    requires Inv(s)
    ensures Inv(r.0) && r.0.isRunning == s.isRunning
    ensures s.outputBufferCount > 0 ==>
              r.0.outputBufferCount == s.outputBufferCount - 1 &&
              (r.0.outputBufferPtr == 0 <==> r.0.outputBufferCount == 0)
  {
    if s.outputBufferCount > 0 then
      var p := s.outputBufferPtr + 1;
      (s.(outputBufferPtr := if p == FrameSize then 0 else p,
          outputBufferCount := s.outputBufferCount - 1),
       s.outputBuffer[s.outputBufferPtr])
    else
      (s, 0.0)
  }

  /** The output loop of `process` over an output block of n samples. */
  ghost function Drain(s: State, n: nat): (r: (State, seq<Sample>))
    requires Inv(s)
    ensures Inv(r.0) && r.0.isRunning == s.isRunning && |r.1| == n
  {
    if n == 0 then (s, [])
    else
      var d := Drain(s, n - 1);
      var e := Emit(d.0);
      (e.0, d.1 + [e.1])
  }

  /** One `process` call: `input` is the first input channel (None when it is missing),
      `block` what the output channel held before the call. The result is the new state
      and what the output channel holds afterwards. */
  ghost function Step(s: State, model: Option<Denoiser>, input: Option<seq<Sample>>,
                      block: seq<Sample>): (r: (State, seq<Sample>))
    requires Inv(s) && (s.isRunning ==> model.Some?)
    ensures Inv(r.0) && |r.1| == |block| && r.0.isRunning == s.isRunning
  {
    if input.None? || !s.isRunning then (s, block)
    else Drain(Fill(s, model.value, input.value), |block|)
  }

  /** A sequence of `process` calls on a running processor, each with the same
      output block. */
  ghost function Run(s: State, rnnoise: Denoiser, inputs: seq<seq<Sample>>,
                     block: seq<Sample>): (t: State)
    requires Inv(s) && s.isRunning
    ensures Inv(t) && t.isRunning
  {
    if inputs == [] then s
    else Step(Run(s, rnnoise, inputs[..|inputs| - 1], block), Some(rnnoise),
              Some(inputs[|inputs| - 1]), block).0
  }

  // ---------------------------------------------------------------------------
  // Splitting a sample stream into frames

  /** The complete frames at the front of a stream, in order. */
  function Chunks(s: seq<Sample>): seq<Frame>
    decreases |s|
  {
    if |s| < FrameSize then [] else [s[..FrameSize]] + Chunks(s[FrameSize..])
  }

  /** What is left of a stream after its complete frames. */
  function Remainder(s: seq<Sample>): seq<Sample>
    decreases |s|
  {
    if |s| < FrameSize then s else Remainder(s[FrameSize..])
  }

  /** The concatenation of a sequence of blocks. */
  function Concat(xs: seq<seq<Sample>>): seq<Sample> {
    if xs == [] then [] else xs[0] + Concat(xs[1..])
  }

  lemma {:induction false} ConcatSnoc(xs: seq<seq<Sample>>, y: seq<Sample>)
    ensures Concat(xs + [y]) == Concat(xs) + y
  {
    if xs != [] {
      assert (xs + [y])[1..] == xs[1..] + [y];
      ConcatSnoc(xs[1..], y);
    }
  }

  /** Frames and remainder together are the stream: splitting loses and adds nothing. */
  lemma {:induction false} ChunksSplit(s: seq<Sample>)
    ensures Concat(Chunks(s)) + Remainder(s) == s
  {
    if |s| >= FrameSize {
      ChunksSplit(s[FrameSize..]);
      assert ([s[..FrameSize]] + Chunks(s[FrameSize..]))[1..] == Chunks(s[FrameSize..]);
      assert s == s[..FrameSize] + s[FrameSize..];
    }
  }

  /** A stream of length L splits into L / FrameSize frames and L % FrameSize leftover samples. */
  lemma {:induction false} ChunksLength(s: seq<Sample>)
    ensures |Chunks(s)| == |s| / FrameSize && |Remainder(s)| == |s| % FrameSize
  {
    if |s| >= FrameSize {
      ChunksLength(s[FrameSize..]);
    }
  }

  /** Splitting a stream in two places: the frames of s + y are those of s followed by
      those of s's remainder extended by y. */
  lemma {:induction false} ChunksAppend(s: seq<Sample>, y: seq<Sample>)
    ensures Chunks(s + y) == Chunks(s) + Chunks(Remainder(s) + y)
    ensures Remainder(s + y) == Remainder(Remainder(s) + y)
  {
    if |s| >= FrameSize {
      assert (s + y)[..FrameSize] == s[..FrameSize];
      assert (s + y)[FrameSize..] == s[FrameSize..] + y;
      ChunksAppend(s[FrameSize..], y);
    }
  }

  /** A stream shorter than a frame has no complete frame and is its own remainder. */
  lemma ShortStream(s: seq<Sample>)
    requires |s| < FrameSize
    ensures Chunks(s) == [] && Remainder(s) == s
  {
  }

  /** A stream of exactly one frame is that frame and leaves nothing. */
  lemma OneFrameStream(s: seq<Sample>)
    requires |s| == FrameSize
    ensures Chunks(s) == [s] && Remainder(s) == []
  {
    assert s[..FrameSize] == s;
    assert Chunks(s[FrameSize..]) == [];
  }

  // ---------------------------------------------------------------------------
  // Closed forms of the input loop

  /** One sample into the input buffer: it is appended to the pending samples, and
      when they make a whole frame that frame is dispatched and nothing stays pending. */
  lemma AcceptSample(t: State, rnnoise: Denoiser, x: Sample)
    requires Inv(t)
    ensures var u, p := Accept(t, rnnoise, x), Pending(t) + [x];
      Pending(u) == Remainder(p) && u.dispatched == t.dispatched + Chunks(p) &&
      if |p| == FrameSize then
        u.outputBuffer == Denoised(rnnoise, p) && u.outputBufferPtr == 0 &&
        u.outputBufferCount == FrameSize
      else
        u.outputBuffer == t.outputBuffer && u.outputBufferPtr == t.outputBufferPtr &&
        u.outputBufferCount == t.outputBufferCount
  {
    var p := Pending(t) + [x];
    assert t.inputBuffer[t.inputBufferPtr := x][..t.inputBufferPtr + 1] == p;
    if |p| == FrameSize {
      OneFrameStream(p);
      assert t.inputBuffer[t.inputBufferPtr := x] == p;
    } else {
      ShortStream(p);
    }
  }

  /** Input side of `process`: the frames handed to processFrame are exactly the
      consecutive FrameSize-sample runs of the pending samples followed by the new
      block, in arrival order, and what stays pending is the rest. */
  lemma {:induction false} FillInput(s: State, rnnoise: Denoiser, input: seq<Sample>)
    requires Inv(s)
    ensures Pending(Fill(s, rnnoise, input)) == Remainder(Pending(s) + input)
    ensures Fill(s, rnnoise, input).dispatched == s.dispatched + Chunks(Pending(s) + input)
    decreases |input|
  {
    if input == [] {
      assert Pending(s) + input == Pending(s);
      ShortStream(Pending(s));
    } else {
      var front, x := input[..|input| - 1], input[|input| - 1];
      var s0 := Pending(s) + front;
      assert Pending(s) + input == s0 + [x] by { assert input == front + [x]; }
      var t := Fill(s, rnnoise, front);
      var a, b := Chunks(s0), Chunks(Remainder(s0) + [x]);
      assert Pending(t) == Remainder(s0) && t.dispatched == s.dispatched + a by {
        FillInput(s, rnnoise, front);
      }
      assert Pending(Fill(s, rnnoise, input)) == Remainder(Pending(t) + [x]) &&
             Fill(s, rnnoise, input).dispatched == t.dispatched + Chunks(Pending(t) + [x]) by {
        AcceptSample(t, rnnoise, x);
      }
      assert Chunks(s0 + [x]) == a + b && Remainder(s0 + [x]) == Remainder(Remainder(s0) + [x]) by {
        ChunksAppend(s0, [x]);
      }
      assert (s.dispatched + a) + b == s.dispatched + (a + b);
    }
  }

  /** The last complete frame of a stream that ends a frame exactly where x is added. */
  lemma LastChunk(s0: seq<Sample>, x: Sample)
    ensures var c, c0, r := Chunks(s0 + [x]), Chunks(s0), Remainder(s0) + [x];
      if |r| == FrameSize then c != [] && c[|c| - 1] == r else c == c0
  {
    ChunksAppend(s0, [x]);
    ChunksLength(s0);
    var r := Remainder(s0) + [x];
    if |r| == FrameSize {
      OneFrameStream(r);
    } else {
      ShortStream(r);
      assert Chunks(s0) + [] == Chunks(s0);
    }
  }

  /** Output side of the input loop: when no frame completes the output fields are
      untouched; otherwise the output buffer holds the denoised LAST completed frame,
      fully unread, whatever it held before. */
  lemma {:induction false} FillOutput(s: State, rnnoise: Denoiser, input: seq<Sample>)
    requires Inv(s)
    ensures var t := Fill(s, rnnoise, input); var c := Chunks(Pending(s) + input);
      t.isRunning == s.isRunning &&
      if c == [] then
        t.outputBuffer == s.outputBuffer && t.outputBufferPtr == s.outputBufferPtr &&
        t.outputBufferCount == s.outputBufferCount
      else
        t.outputBuffer == Denoised(rnnoise, c[|c| - 1]) &&
        t.outputBufferPtr == 0 && t.outputBufferCount == FrameSize
    decreases |input|
  {
    if input == [] {
      assert Pending(s) + input == Pending(s);
      ShortStream(Pending(s));
    } else {
      var front, x := input[..|input| - 1], input[|input| - 1];
      var s0 := Pending(s) + front;
      assert Pending(s) + input == s0 + [x] by { assert input == front + [x]; }
      var t := Fill(s, rnnoise, front);
      assert Pending(t) == Remainder(s0) by { FillInput(s, rnnoise, front); }
      FillOutput(s, rnnoise, front);
      AcceptSample(t, rnnoise, x);
      LastChunk(s0, x);
    }
  }

  /** Cursor arithmetic of the input loop: the input cursor ends at (old + len) % FrameSize
      and processFrame runs exactly (old + len) / FrameSize times. */
  lemma {:induction false} FillCursor(s: State, rnnoise: Denoiser, input: seq<Sample>)
    requires Inv(s)
    ensures Fill(s, rnnoise, input).inputBufferPtr == (s.inputBufferPtr + |input|) % FrameSize
    ensures |Fill(s, rnnoise, input).dispatched| ==
            |s.dispatched| + (s.inputBufferPtr + |input|) / FrameSize
  {
    FillInput(s, rnnoise, input);
    ChunksLength(Pending(s) + input);
  }

  /** A new frame throws away whatever output was still unread: after a block that
      completes a frame, the output side no longer depends on the output side before it. */
  lemma UnreadOutputDiscarded(s: State, s': State, rnnoise: Denoiser, input: seq<Sample>)
    requires Inv(s) && Inv(s')
    requires Pending(s) == Pending(s')
    requires s.inputBufferPtr + |input| >= FrameSize
    ensures var t, t' := Fill(s, rnnoise, input), Fill(s', rnnoise, input);
      t.outputBuffer == t'.outputBuffer && t.outputBufferPtr == t'.outputBufferPtr == 0 &&
      t.outputBufferCount == t'.outputBufferCount == FrameSize
  {
    FillOutput(s, rnnoise, input);
    FillOutput(s', rnnoise, input);
    ChunksLength(Pending(s) + input);
  }

  // ---------------------------------------------------------------------------
  // Closed form of the output loop

  function Min(a: int, b: int): int { if a < b then a else b }

  /** Output side of `process`: every one of the n output positions is written; the
      first min(count, n) are the unread samples in order, the rest are silence; the
      count drops by exactly that much, the cursor advances by it modulo FrameSize, and
      no other field changes. */
  lemma {:induction false} DrainOutput(s: State, n: nat)
    requires Inv(s)
    ensures var r := Drain(s, n); var k := Min(s.outputBufferCount, n);
      s.outputBufferPtr + k <= FrameSize &&
      (forall i :: 0 <= i < k ==> r.1[i] == s.outputBuffer[s.outputBufferPtr + i]) &&
      (forall i :: k <= i < n ==> r.1[i] == 0.0) &&
      r.0.outputBufferCount == s.outputBufferCount - k &&
      r.0.outputBufferPtr == (s.outputBufferPtr + k) % FrameSize &&
      r.0 == s.(outputBufferPtr := r.0.outputBufferPtr, outputBufferCount := r.0.outputBufferCount)
  {
    if n > 0 {
      DrainOutput(s, n - 1);
    }
  }

  /** Underrun: with nothing unread and no frame completed, `process` writes a block of
      silence of the full requested length. */
  lemma UnderrunIsSilence(s: State, rnnoise: Denoiser, input: seq<Sample>, block: seq<Sample>)
    requires Inv(s) && s.isRunning && s.outputBufferCount == 0
    requires s.inputBufferPtr + |input| < FrameSize
    ensures var r := Step(s, Some(rnnoise), Some(input), block);
      |r.1| == |block| && forall i :: 0 <= i < |block| ==> r.1[i] == 0.0
  {
    FillOutput(s, rnnoise, input);
    ShortStream(Pending(s) + input);
    DrainOutput(Fill(s, rnnoise, input), |block|);
  }

  /** A `process` call whose block completes exactly one frame emits the head of that
      frame, denoised, and leaves the rest of it unread: whatever the previous frame
      still had unread is never sent. */
  lemma CompletingBlockEmitsNewFrame(s: State, rnnoise: Denoiser, input: seq<Sample>,
                                     block: seq<Sample>)
    requires Inv(s) && s.isRunning && |block| <= FrameSize
    requires FrameSize <= s.inputBufferPtr + |input| < 2 * FrameSize
    ensures var r, p := Step(s, Some(rnnoise), Some(input), block), Pending(s) + input;
      r.1 == Denoised(rnnoise, p[..FrameSize])[..|block|] &&
      r.0.outputBufferCount == FrameSize - |block| &&
      r.0.outputBufferPtr == |block| % FrameSize
  {
    var p := Pending(s) + input;
    assert Chunks(p) == [p[..FrameSize]] by {
      ShortStream(p[FrameSize..]);
    }
    FillOutput(s, rnnoise, input);
    var t := Fill(s, rnnoise, input);
    DrainOutput(t, |block|);
  }

  // ---------------------------------------------------------------------------
  // Sequences of process calls

  /** The last `process` call of a run, input side: it appends its block to what the
      earlier calls left pending, dispatches the frames that completes and keeps the rest. */
  lemma RunLast(s: State, rnnoise: Denoiser, inputs: seq<seq<Sample>>, block: seq<Sample>)
    requires Inv(s) && s.isRunning && inputs != []
    ensures var r, t, x := Run(s, rnnoise, inputs[..|inputs| - 1], block),
                           Run(s, rnnoise, inputs, block), inputs[|inputs| - 1];
      Pending(t) == Remainder(Pending(r) + x) &&
      t.dispatched == r.dispatched + Chunks(Pending(r) + x)
  {
    var r := Run(s, rnnoise, inputs[..|inputs| - 1], block);
    var x := inputs[|inputs| - 1];
    FillInput(r, rnnoise, x);
    DrainOutput(Fill(r, rnnoise, x), |block|);
  }

  /** The concatenated input of a run, split before its last block. */
  lemma ConcatLast(p: seq<Sample>, inputs: seq<seq<Sample>>)
    requires inputs != []
    ensures p + Concat(inputs) == (p + Concat(inputs[..|inputs| - 1])) + inputs[|inputs| - 1]
  {
    var front, x := inputs[..|inputs| - 1], inputs[|inputs| - 1];
    assert inputs == front + [x];
    ConcatSnoc(front, x);
    AppendAssoc(p, Concat(front), x);
  }

  lemma AppendAssoc<T>(a: seq<T>, b: seq<T>, c: seq<T>)
    ensures a + (b + c) == (a + b) + c
  {
  }

  /** Over any number of `process` calls the samples left pending depend only on the
      concatenated input, not on how it was cut into blocks. */
  lemma {:induction false} RunPending(s: State, rnnoise: Denoiser, inputs: seq<seq<Sample>>,
                                      block: seq<Sample>)
    requires Inv(s) && s.isRunning
    ensures Pending(Run(s, rnnoise, inputs, block)) == Remainder(Pending(s) + Concat(inputs))
  {
    if inputs == [] {
      assert Pending(s) + Concat(inputs) == Pending(s);
      ShortStream(Pending(s));
    } else {
      var front, x := inputs[..|inputs| - 1], inputs[|inputs| - 1];
      var s0 := Pending(s) + Concat(front);
      var r := Run(s, rnnoise, front, block);
      calc {
        Pending(Run(s, rnnoise, inputs, block));
      == { RunLast(s, rnnoise, inputs, block); }
        Remainder(Pending(r) + x);
      == { RunPending(s, rnnoise, front, block); }
        Remainder(Remainder(s0) + x);
      == { ChunksAppend(s0, x); }
        Remainder(s0 + x);
      == { ConcatLast(Pending(s), inputs); }
        Remainder(Pending(s) + Concat(inputs));
      }
    }
  }

  /** Over any number of `process` calls the frames handed to processFrame are the
      consecutive FrameSize-sample runs of the concatenated input, in order. */
  lemma {:induction false} RunDispatched(s: State, rnnoise: Denoiser, inputs: seq<seq<Sample>>,
                                         block: seq<Sample>)
    requires Inv(s) && s.isRunning
    ensures Run(s, rnnoise, inputs, block).dispatched ==
            s.dispatched + Chunks(Pending(s) + Concat(inputs))
  {
    if inputs == [] {
      assert Pending(s) + Concat(inputs) == Pending(s);
      ShortStream(Pending(s));
    } else {
      var front, x := inputs[..|inputs| - 1], inputs[|inputs| - 1];
      var s0 := Pending(s) + Concat(front);
      var r := Run(s, rnnoise, front, block);
      var a, b := Chunks(s0), Chunks(Remainder(s0) + x);
      calc {
        Run(s, rnnoise, inputs, block).dispatched;
      == { RunLast(s, rnnoise, inputs, block); }
        r.dispatched + Chunks(Pending(r) + x);
      == { RunDispatched(s, rnnoise, front, block); RunPending(s, rnnoise, front, block); }
        (s.dispatched + a) + b;
      == { AppendAssoc(s.dispatched, a, b); }
        s.dispatched + (a + b);
      == { ChunksAppend(s0, x); }
        s.dispatched + Chunks(s0 + x);
      == { ConcatLast(Pending(s), inputs); }
        s.dispatched + Chunks(Pending(s) + Concat(inputs));
      }
    }
  }

  /** Frame alignment invariance: two ways of cutting the same stream into blocks
      dispatch the same frames and leave the same samples pending. */
  lemma AlignmentInvariance(s: State, rnnoise: Denoiser, a: seq<seq<Sample>>,
                            b: seq<seq<Sample>>, blockA: seq<Sample>, blockB: seq<Sample>)
    requires Inv(s) && s.isRunning && Concat(a) == Concat(b)
    ensures Run(s, rnnoise, a, blockA).dispatched == Run(s, rnnoise, b, blockB).dispatched
    ensures Pending(Run(s, rnnoise, a, blockA)) == Pending(Run(s, rnnoise, b, blockB))
  {
    RunPending(s, rnnoise, a, blockA);
    RunPending(s, rnnoise, b, blockB);
    RunDispatched(s, rnnoise, a, blockA);
    RunDispatched(s, rnnoise, b, blockB);
  }

  lemma {:induction false} ConcatUniform(xs: seq<seq<Sample>>, len: nat)
    requires forall i :: 0 <= i < |xs| ==> |xs[i]| == len
    ensures |Concat(xs)| == |xs| * len
  {
    if xs != [] {
      ConcatUniform(xs[1..], len);
    }
  }

  /** Ten 128-sample blocks into a freshly loaded processor: exactly two frames are
      dispatched, samples 0-479 and 480-959, and the last 320 samples stay buffered. */
  lemma TenQuanta(rnnoise: Denoiser, inputs: seq<seq<Sample>>, block: seq<Sample>)
    requires |inputs| == 10 && forall i :: 0 <= i < 10 ==> |inputs[i]| == 128
    ensures var t := Run(Initial().(isRunning := true), rnnoise, inputs, block);
      var c := Concat(inputs);
      |c| == 1280 && t.dispatched == [c[..480], c[480..960]] &&
      t.inputBufferPtr == 320 && Pending(t) == c[960..]
  {
    var s := Initial().(isRunning := true);
    var c := Concat(inputs);
    ConcatUniform(inputs, 128);
    RunPending(s, rnnoise, inputs, block);
    RunDispatched(s, rnnoise, inputs, block);
    assert Pending(s) + c == c;
    assert c[FrameSize..][..FrameSize] == c[480..960];
    assert c[FrameSize..][FrameSize..] == c[960..];
    ShortStream(c[960..]);
  }
}
