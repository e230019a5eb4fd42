# RNNoise frame re-blocking, modelled in Dafny

This project models the core of `RNNoiseProcessor`, the AudioWorklet processor of the
AI voice recorder. The browser calls `process` with blocks of 128 samples. The RNNoise
denoiser needs frames of 480 samples. The processor bridges the two sizes with two
fixed buffers of 480 samples:

- an input buffer filled through a write cursor (`inputBufferPtr`); each time it fills,
  `processFrame` runs the denoiser on it;
- an output buffer holding the last processed frame, drained into each callback block
  through a read cursor (`outputBufferPtr`) and a count of unread samples
  (`outputBufferCount`), with silence once nothing is left.

Two modules:

- `Reblock` (Reblock.dfy) is the value model. `State` holds the processor's fields as
  values, plus `dispatched`, the log of every frame handed to `processFrame`. `Inv` is
  the cursor invariant. `Accept` and `Fill` model the input loop, `Emit` and `Drain` the
  output loop, `Dispatch` the `processFrame` call and `Step` one `process` call. `Run`
  chains `process` calls. `Chunks` and `Remainder` cut a sample stream into whole
  frames and a leftover; the lemmas state the input loop, the output loop and runs of
  calls in those terms.
- `Processor` (Processor.dfy) is the class `RNNoiseProcessor`. It has the two arrays,
  the three cursors, `isRunning` and the loaded model. Its methods `Process`,
  `ProcessFrame` and `InitWasm` each mirror the source method of the same name. Each
  is proved against the matching `Reblock` function. `Process` is split into `FillInputBuffer` and
  `SendOutputBuffer`, the two steps the source marks inside `process`.

Samples are `real`, and silence is `0.0`. The scaling to 16-bit PCM range (×32768) and
back (÷32768) is exact on reals. `rnnoise_process_frame` is a parameter of type
`Frame -> Frame`, where `Frame` is a sequence of exactly 480 samples. `InitWasm`
receives it as `Some(f)` when the model loaded and `None` when loading threw.

Three behaviours of the code are easy to miss:

- Before the model is loaded, `process` leaves the output block untouched. It does not
  copy the input through, and it does not write silence.
- A new frame replaces the output buffer and resets the count to 480. Any output not
  yet sent is dropped, not queued. One consequence: when a 128-sample block completes a
  frame while 96 samples of the previous frame are still unread, those 96 samples are
  never emitted. `Reblock.UnreadOutputDiscarded` and
  `Reblock.CompletingBlockEmitsNewFrame` state this.
- When one block completes several frames, all of them go to the denoiser. Only the
  last one's output is kept (`Reblock.FillOutput`).

## Model

| member | source | states |
|---|---|---|
| `Reblock.Initial` | processor.js:9-16 | The constructor's state meets the cursor invariant. Nothing is pending and the processor is not running. |
| `Reblock.Accept` | processor.js:71-78 | Storing one sample and dispatching on a full buffer keeps the cursor invariant and the running flag. |
| `Reblock.Fill` | processor.js:70-79 | After the whole input loop the input cursor is below 480 and the output-cursor invariant still holds. The running flag is unchanged. |
| `Reblock.Emit` | processor.js:84-96 | One output step keeps the invariant. When a sample is available, the count drops by one and the cursor wraps to 0 exactly when the count reaches 0. |
| `Reblock.Drain` | processor.js:82-97 | The output loop yields exactly as many samples as the block has. It keeps the invariant and the running flag. |
| `Reblock.Step` | processor.js:57-100 | A `process` call returns a block of the same length and keeps the invariant and the running flag. |
| `Reblock.DenoisedIdentity` | processor.js:104-123 | The ×32768 / ÷32768 round trip is exact: with an identity model, processFrame's output is its input frame. |
| `Reblock.Dispatch` | processor.js:102-128 | `processFrame` resets the output cursor to 0 and the count to 480, so any unread output is dropped. The output buffer becomes the whole input buffer denoised, and that frame is appended to the dispatch log. The input buffer, its cursor and the running flag are unchanged. |
| `Reblock.AcceptSample` | processor.js:71-78 | Each sample is appended to the pending samples. When they reach 480 they are dispatched as one frame, and the output buffer becomes that frame denoised, fully unread. Otherwise the output side is untouched. |
| `Reblock.FillInput` | processor.js:70-79 | The frames handed to processFrame are exactly the consecutive 480-sample runs of the pending samples followed by the block, in arrival order. The rest stays pending. |
| `Reblock.FillOutput` | processor.js:74-78 | If no frame completes, the output fields are unchanged. Otherwise the output buffer holds the last completed frame denoised, with cursor 0 and count 480. |
| `Reblock.FillCursor` | processor.js:70-79 | The input cursor ends at (old + len) % 480, and processFrame runs exactly (old + len) / 480 times. |
| `Reblock.UnreadOutputDiscarded` | processor.js:125-127 | After a block that completes a frame, the output side no longer depends on what was still unread before it. |
| `Reblock.DrainOutput` | processor.js:82-97 | Let k = min(count, n). Every output position is written: the first k are the unread samples in order, the rest are 0. The count drops by k, the cursor moves to (ptr + k) % 480, and no other field changes. |
| `Reblock.CompletingBlockEmitsNewFrame` | processor.js:74-92 | A block that completes exactly one frame emits the first samples of that frame, denoised, in order, and leaves the rest of it unread (count 480 minus the block length). Output still unread from the previous frame is not emitted. |
| `Reblock.UnderrunIsSilence` | processor.js:93-96 | With nothing unread and no frame completed, `process` writes a full block of silence. |
| `Reblock.RunLast` | processor.js:57-100 | The last call of a run appends its block to what the earlier calls left pending, dispatches the completed frames and keeps the rest. |
| `Reblock.RunPending` | processor.js:70-79 | Over any sequence of `process` calls, the pending samples are the remainder of the concatenated input. |
| `Reblock.RunDispatched` | processor.js:70-79 | Over any sequence of `process` calls, the dispatched frames are the whole 480-sample runs of the concatenated input, in order. |
| `Reblock.AlignmentInvariance` | processor.js:70-79 | Two ways of cutting the same stream into blocks dispatch the same frames and leave the same samples pending. |
| `Reblock.TenQuanta` | processor.js:70-79 | Ten 128-sample blocks into a freshly loaded processor dispatch exactly the frames made of samples 0-479 and 480-959. The last 320 samples stay buffered, with the cursor at 320. |
| `Processor.RNNoiseProcessor.constructor` | processor.js:7-16 | Both buffers are fresh, zeroed and 480 long. The cursors and the count are 0, `isRunning` is false and no model is loaded. |
| `Processor.RNNoiseProcessor.InitWasm` | processor.js:32-55 | A successful load installs the model and sets `isRunning`. A failed load changes nothing. No buffer or cursor changes. |
| `Processor.RNNoiseProcessor.ProcessFrame` | processor.js:102-128 | The output buffer becomes the denoised input buffer, with count 480 and cursor 0. The frame is logged as dispatched. The input buffer and its cursor are untouched. |
| `Processor.RNNoiseProcessor.FillInputBuffer` | processor.js:69-79 | The new state is `Fill` of the old state and the input channel. |
| `Processor.RNNoiseProcessor.SendOutputBuffer` | processor.js:81-97 | The new state and the output block are `Drain` of the old state over the block's length. |
| `Processor.RNNoiseProcessor.Process` | processor.js:57-100 | Always returns true and keeps the invariant. A missing input channel or a processor that is not running leaves every field and the output block untouched. Otherwise the result is `Step`: the input cursor ends at (old + len) % 480, the pending samples and dispatched frames are as in `FillInput`, and the output block is as in `DrainOutput`. |

## Left out

- WebAssembly instantiation, `rnnoise_create`, `malloc`, the `Memory`/`Table` setup and the `port.onmessage` handoff (processor.js:25-55) are foreign or asynchronous. They are reduced to the `Option` that `InitWasm` receives.
- `Processor.RNNoiseProcessor.InitWasm`: a load that throws after `wasmInstance` was already assigned leaves that field set in the source; the model drops such partial updates.
- `rnnoise_process_frame` is uninterpreted. The denoiser's recurrent context, which carries state from one frame to the next, is not modelled: the model is one fixed function of each frame.
- Single-precision float arithmetic (rounding, overflow of the ×32768 scaling) is not modelled. Samples are exact reals.
- The AudioWorklet's `inputs`/`outputs` arrays are reduced to the first channel of each. A missing input channel is `None`. The output channel is always present, because the source reads its length without a check. The `parameters` argument is unused in the source and left out.
- `Processor.RNNoiseProcessor.Process` requires the output channel to be a different array from the two internal buffers. In the source the output channel belongs to the browser and cannot be one of the processor's private buffers, so this rules out no real call.
- main.js (UI, browser filter nodes, recording, visualiser) and download_setup.js (downloading the model files) are not part of this model.
