/** The AudioWorklet processor of processor.js as a class over two fixed arrays of
    FrameSize samples. Each method is proved against the value model in Reblock. */
module Processor {
  import opened Reblock

  class RNNoiseProcessor {
    var isRunning: bool
    /** Incoming audio collected until a whole frame is there. */
    const inputBuffer: array<Sample>
    /** The last processed frame. */
    const outputBuffer: array<Sample>
    var inputBufferPtr: nat
    var outputBufferPtr: nat
    /** How much of outputBuffer is still to be sent. */
    var outputBufferCount: nat
    /** The loaded model's rnnoise_process_frame, bound to its context; None before loading. */
    var rnnoise: Option<Denoiser>
    /** Every frame handed to processFrame so far, oldest first. */
    ghost var dispatched: seq<Frame>

    ghost function Snapshot(): State
      reads this, inputBuffer, outputBuffer
    {
      State(inputBuffer[..], inputBufferPtr, outputBuffer[..], outputBufferPtr,
            outputBufferCount, isRunning, dispatched)
    }

    ghost predicate Valid()
      reads this, inputBuffer, outputBuffer
    {
      inputBuffer != outputBuffer && Inv(Snapshot()) && (isRunning ==> rnnoise.Some?)
    }

    /** Samples received since the last dispatch. */
    ghost function PendingInput(): seq<Sample>
      reads this, inputBuffer, outputBuffer
      requires Valid()
    {
      Pending(Snapshot())
    }

    constructor ()
      ensures Valid() && fresh(inputBuffer) && fresh(outputBuffer)
      ensures Snapshot() == Initial() && rnnoise == None
    {
      var inBuf := new Sample[FrameSize](_ => 0.0);
      var outBuf := new Sample[FrameSize](_ => 0.0);
      assert inBuf[..] == seq(FrameSize, _ => 0.0);
      assert outBuf[..] == seq(FrameSize, _ => 0.0);
      isRunning := false;
      inputBuffer := inBuf;
      outputBuffer := outBuf;
      inputBufferPtr := 0;
      outputBufferPtr := 0;
      outputBufferCount := 0;
      rnnoise := None;
      dispatched := [];
    }

    /** initWasm once the instantiation has settled: `instantiated` is the model's frame
        function when instantiation, context creation and allocation all succeeded, and
        None when one of them threw. Only success sets isRunning; nothing else changes. */
    method InitWasm(instantiated: Option<Denoiser>)
      requires Valid()
      modifies this
      ensures Valid()
      ensures instantiated.Some? ==> isRunning && rnnoise == instantiated
      ensures instantiated.None? ==> isRunning == old(isRunning) && rnnoise == old(rnnoise)
      ensures Snapshot() == old(Snapshot()).(isRunning := isRunning)
    {
      if instantiated.Some? {
        rnnoise := instantiated;
        isRunning := true;
      }
    }

    /** processFrame: scale the input frame to PCM, run the model on it, scale the result
        back into the output buffer and mark all of it unread. The input buffer and its
        cursor are left alone; unread output from the previous frame is dropped. */
    method ProcessFrame()
      requires inputBuffer.Length == FrameSize && outputBuffer.Length == FrameSize
      requires inputBuffer != outputBuffer && rnnoise.Some?
      modifies this, outputBuffer
      ensures rnnoise == old(rnnoise)
      ensures Snapshot() == Dispatch(old(Snapshot()), rnnoise.value)
      ensures outputBuffer[..] == Denoised(rnnoise.value, inputBuffer[..])
    {
      var model := rnnoise.value;
      // The model's input region in the WASM heap.
      var heapIn := new real[FrameSize];
      for i := 0 to FrameSize
        modifies heapIn
        invariant forall j :: 0 <= j < i ==> heapIn[j] == ToPcm(inputBuffer[j])
      {
        heapIn[i] := ToPcm(inputBuffer[i]);
      }
      assert heapIn[..] == PcmFrame(inputBuffer[..]);
      var heapOut := model(heapIn[..]);
      for i := 0 to FrameSize
        modifies outputBuffer
        invariant forall j :: 0 <= j < i ==> outputBuffer[j] == FromPcm(heapOut[j])
      {
        outputBuffer[i] := FromPcm(heapOut[i]);
      }
      assert outputBuffer[..] == Denoised(model, inputBuffer[..]);
      dispatched := dispatched + [inputBuffer[..]];
      outputBufferCount := FrameSize;
      outputBufferPtr := 0;
    }

    /** process: `input` is the first channel of the first input (None when missing),
        `output` the first channel of the first output. Always returns true. */
    method Process(input: Option<seq<Sample>>, output: array<Sample>) returns (keepAlive: bool)
      requires Valid()
      requires output != inputBuffer && output != outputBuffer
      modifies this, inputBuffer, outputBuffer, output
      ensures keepAlive
      ensures Valid() && rnnoise == old(rnnoise) && isRunning == old(isRunning)
      ensures (Snapshot(), output[..]) ==
              Step(old(Snapshot()), old(rnnoise), input, old(output[..]))
      ensures input.None? || !old(isRunning) ==>
              Snapshot() == old(Snapshot()) && output[..] == old(output[..])
      ensures input.Some? && old(isRunning) ==>
              inputBufferPtr == (old(inputBufferPtr) + |input.value|) % FrameSize &&
              PendingInput() == Remainder(old(PendingInput()) + input.value) &&
              dispatched == old(dispatched) + Chunks(old(PendingInput()) + input.value)
    {
      if input.None? {
        return true;
      }
      var inputChannel := input.value;
      if !isRunning {
        return true;
      }
      ghost var s0 := Snapshot();
      FillInputBuffer(inputChannel);
      FillCursor(s0, rnnoise.value, inputChannel);
      FillInput(s0, rnnoise.value, inputChannel);
      SendOutputBuffer(output);
      DrainOutput(Fill(s0, rnnoise.value, inputChannel), output.Length);
      return true;
    }

    /** Step 1 of `process`: store each sample at the input cursor and dispatch a frame
        each time the cursor reaches FrameSize. */
    method FillInputBuffer(inputChannel: seq<Sample>)
      requires Valid() && isRunning
      modifies this, inputBuffer, outputBuffer
      ensures Valid() && rnnoise == old(rnnoise) && isRunning
      ensures Snapshot() == Fill(old(Snapshot()), rnnoise.value, inputChannel)
    {
      var i := 0;
      while i < |inputChannel|
        invariant 0 <= i <= |inputChannel|
        invariant Valid() && isRunning && rnnoise == old(rnnoise)
        invariant Snapshot() == Fill(old(Snapshot()), rnnoise.value, inputChannel[..i])
      {
        assert inputChannel[..i + 1][..i] == inputChannel[..i];
        ghost var next := Accept(Snapshot(), rnnoise.value, inputChannel[i]);
        assert Fill(old(Snapshot()), rnnoise.value, inputChannel[..i + 1]) == next;
        inputBuffer[inputBufferPtr] := inputChannel[i];
        inputBufferPtr := inputBufferPtr + 1;
        if inputBufferPtr == FrameSize {
          ProcessFrame();
          inputBufferPtr := 0;
        }
        i := i + 1;
      }
      assert inputChannel[..i] == inputChannel;
    }

    /** Step 2 of `process`: copy unread processed samples into the output block, and
        silence once none is left. */
    method SendOutputBuffer(output: array<Sample>)
      requires Valid()
      requires output != inputBuffer && output != outputBuffer
      modifies this, output
      ensures Valid() && rnnoise == old(rnnoise) && isRunning == old(isRunning)
      ensures (Snapshot(), output[..]) == Drain(old(Snapshot()), output.Length)
    {
      var j := 0;
      while j < output.Length
        invariant 0 <= j <= output.Length
        invariant rnnoise == old(rnnoise) && isRunning == old(isRunning)
        invariant Snapshot() == Drain(old(Snapshot()), j).0
        invariant output[..j] == Drain(old(Snapshot()), j).1
      {
        ghost var d := Drain(old(Snapshot()), j);
        ghost var e := Emit(d.0);
        assert Drain(old(Snapshot()), j + 1) == (e.0, d.1 + [e.1]);
        ghost var sent := output[..j];
        if outputBufferCount > 0 {
          output[j] := outputBuffer[outputBufferPtr];
          outputBufferPtr := outputBufferPtr + 1;
          outputBufferCount := outputBufferCount - 1;
          if outputBufferPtr == FrameSize {
            outputBufferPtr := 0;
          }
        } else {
          output[j] := 0.0;
        }
        assert Snapshot() == e.0;
        assert output[..j + 1] == sent + [e.1];
        j := j + 1;
      }
      assert output[..j] == output[..];
    }
  }
}
