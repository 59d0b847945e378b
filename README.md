# Recorder audio worklet processor — verified model

This project models `RecorderAudioWorkletProcessor`, the audio worklet processor
at the heart of a live recording pipeline. The processor sits on the audio
rendering thread, takes `record`, `pause`, `resume` and `stop` commands on its
control port, and forwards each block's channel arrays to an encoder port while
it is recording. Two entry points share two fields, the recording state
(`inactive`, `active`, `recording`, `paused`, `stopped`) and the encoder port:

- the control port's `onmessage` handler, which checks a command against the
  state, changes the state and replies with `{ id, result: null }` or a
  JSON-RPC style error (-32603 for a state that does not allow the command,
  -32601 for an unsupported method);
- `process`, called once per audio block, which ignores the block, promotes
  `active` to `recording` on the first block that has channels, forwards the
  block with each channel's buffer in the transfer list, or ends the stream
  when the channels disappear. It returns the keep-alive flag, or throws when
  there is no input at all.

Layout:

- `wrappers.dfy` (`Wrappers`): `Option` for absent values, `Result` for a value
  or a thrown error.
- `messages.dfy` (`Messages`): commands (with the `record` payload of
  `src/interfaces/record-message-event.ts`), replies and their builders, encoder
  frames, and the single ordered log of side effects. Every control-port reply,
  encoder-port post and encoder-port `close()` is logged as one `Effect`, so the
  order across the two ports is part of the model. Ports and buffers are opaque
  identities.
- `lifecycle.dfy` (`Lifecycle`): the reference specification. It holds the
  transition table (`Transition`), one command (`CommandStep`) and one block
  (`BlockStep`) as functions of the two fields, and the stream invariant. The
  invariant says what the encoder port has seen in each state: nothing before
  `record`, only non-empty data frames while recording is under way, and, once
  stopped, the data frames followed by one empty frame and the closing.
- `runs.dfy` (`Runs`): any interleaving of commands and blocks (`Run`), and the
  lemmas that hold over every such run.
- `recorder.dfy` (`Recorder`): the processor as a class with mutable fields.
  `HandleMessage` follows the handler's if-chain and `Process` follows the
  callback's fall-through from `active` into `recording`. Each is proved equal to
  the reference specification and to keep `Valid()`.
- `scenarios.dfy` (`Scenarios`): clients that replay the unit tests of
  `test/unit/recorder-audio-worklet-processor.js` and end-to-end scenarios of the
  command protocol through the class's contracts alone.

Because `Valid()` ties the encoder port to the state (present exactly in
`active`, `recording` and `paused`), and because `record` always carries a
port in this model, the `_encoderPort !== null` tests in the `stop` branch and
in `process` never decide anything. The class methods test
them as the source does. The specification functions leave them out, and the
equality proofs show that the two agree.

## Model

| member | source | states |
|---|---|---|
| `Messages.Acknowledgement` | src/recorder-audio-worklet-processor.ts:98-100 | the success reply echoes the command's id and carries `result: null` |
| `Messages.UnexpectedStateError` | src/recorder-audio-worklet-processor.ts:102-110 | the wrong-state reply echoes the id and carries code -32603, a JSON-RPC reserved code, with its fixed message |
| `Messages.UnsupportedMethodError` | src/recorder-audio-worklet-processor.ts:49-56 | the unsupported-method reply carries the numeric id and code -32601, a JSON-RPC reserved code, with its fixed message |
| `Messages.TransferList` | src/recorder-audio-worklet-processor.ts:88 | the transfer list has one entry per channel, each channel's buffer, in channel order |
| `Messages.DataFrame` | src/recorder-audio-worklet-processor.ts:86-89 | a forwarded block carries the channel arrays unchanged with their buffers as the transfer list; it is the empty end-of-stream frame only for an empty block |
| `Lifecycle.Initial` | src/recorder-audio-worklet-processor.ts:13-14 | the processor starts `inactive` with no encoder port, which satisfies the field invariant |
| `Lifecycle.Transition` | src/recorder-audio-worklet-processor.ts:17-48 | the transition table, both directions: `active` is reached only by `record` from `inactive` or `resume` from `paused`; `paused` only by `pause` from `active` or `recording`; `stopped` only by `stop` from a state that holds a port; no command leads to `recording` or `inactive`; nothing leaves `stopped`; an unsupported method changes nothing |
| `Lifecycle.CommandStep` | src/recorder-audio-worklet-processor.ts:16-58 | one command keeps the field invariant: the encoder port is present exactly in `active`, `recording` and `paused` |
| `Lifecycle.CommandStepReplies` | src/recorder-audio-worklet-processor.ts:16-58 | an answerable command gets exactly one reply and an id-less unsupported one gets none; the reply is the last effect and echoes the id; it is the whole `{ id, result: null }` exactly when the table allows the transition, and otherwise the whole error reply, -32601 with "The requested method is not supported." for an unsupported method and -32603 with "The internal state does not allow to process the given message." for the rest |
| `Lifecycle.CommandStepFields` | src/recorder-audio-worklet-processor.ts:16-48 | a refused command changes neither field and touches no encoder port; an allowed one enters the state the table gives; only `record` stores a port, and it is the port the command carries; only `stop` releases it; the encoder port sees the empty frame and then the closing exactly when the command stops the processor, and nothing otherwise |
| `Lifecycle.BlockStep` | src/recorder-audio-worklet-processor.ts:61-96 | one block keeps the field invariant and never replies on the control port; it returns `false` exactly when the processor ends up stopped; it throws "No channelData was received for the first input." exactly when audio is expected (`active` or `recording`) and no input arrived, and then changes nothing; `inactive`, `paused` and `stopped` ignore the block; the state only stays, becomes `recording` or becomes `stopped`; the encoder port receives either this very block unchanged, and the processor is then `recording`, or, from `recording`, the empty frame and the closing |
| `Lifecycle.BlockStepDecides` | src/recorder-audio-worklet-processor.ts:66-95 | a block with channels in `active` or `recording` is forwarded unchanged to the encoder port, the state becomes `recording` and the call returns `true`; zero channels in `recording` runs the stop sequence, leaves the processor `stopped` without a port and returns `false`; zero channels in `active` stays `active`, sends nothing and returns `true` |
| `Lifecycle.CommandStepKeepsStream` | src/recorder-audio-worklet-processor.ts:16-58 | a command preserves the stream invariant over the whole effect log |
| `Lifecycle.BlockStepKeepsStream` | src/recorder-audio-worklet-processor.ts:61-96 | a block preserves the stream invariant over the whole effect log |
| `Runs.Run` | src/recorder-audio-worklet-processor.ts:16-96 | any interleaving of commands and blocks keeps the field invariant and yields one outcome per block |
| `Runs.RunKeepsStream` | src/recorder-audio-worklet-processor.ts:16-96 | any interleaving preserves the stream invariant |
| `Runs.StopSequenceCounts` | src/recorder-audio-worklet-processor.ts:112-118 | the stop sequence holds exactly one closing and exactly one empty frame |
| `Runs.StreamCounts` | src/recorder-audio-worklet-processor.ts:112-118 | under the stream invariant the encoder port has received one empty frame and one closing if stopped, and none otherwise |
| `Runs.EndOfStreamOnce` | src/recorder-audio-worklet-processor.ts:112-118 | from construction, whatever the interleaving, the end-of-stream frame is sent and the port closed exactly once if the processor is stopped and never otherwise; the closing is the last encoder event, right after the empty frame, and every earlier encoder event is a non-empty data frame to the same port |
| `Runs.StoppedIsTerminal` | src/recorder-audio-worklet-processor.ts:16-96 | from `stopped`, any interleaving leaves the processor `stopped`, sends nothing to any encoder port, answers every command with an error and returns `false` for every block |
| `Runs.OneReplyPerCommand` | src/recorder-audio-worklet-processor.ts:16-58 | over any interleaving the control port receives exactly one reply per answerable command, so at most one per command, and none for blocks |
| `Recorder.RecorderAudioWorkletProcessor.constructor` | src/recorder-audio-worklet-processor.ts:10-15 | a new processor is `inactive`, has no encoder port, has sent nothing and is valid |
| `Recorder.RecorderAudioWorkletProcessor.HandleMessage` | src/recorder-audio-worklet-processor.ts:16-58 | the handler, including its redundant null-port test, leaves exactly the fields and appends exactly the effects of `CommandStep`, and keeps `Valid()` |
| `Recorder.RecorderAudioWorkletProcessor.Process` | src/recorder-audio-worklet-processor.ts:61-96 | the callback, with its fall-through from `active` into `recording`, leaves exactly the fields, appends exactly the effects and returns exactly the result of `BlockStep`, and keeps `Valid()` |
| `Recorder.RecorderAudioWorkletProcessor.SendAcknowledgement` | src/recorder-audio-worklet-processor.ts:98-100 | appends one success reply for the id and changes neither field |
| `Recorder.RecorderAudioWorkletProcessor.SendUnexpectedStateError` | src/recorder-audio-worklet-processor.ts:102-110 | appends one -32603 reply for the id and changes neither field |
| `Recorder.RecorderAudioWorkletProcessor.Stop` | src/recorder-audio-worklet-processor.ts:112-118 | posts the empty frame to the port, then closes it, then leaves the processor `stopped` with no encoder port |
| `Scenarios.RecordPauseResume` | src/recorder-audio-worklet-processor.ts:17-41 | `record`, `pause`, `resume` with ids 1, 2, 3 are each acknowledged in order and leave the processor `active` with its port |

## Left out

- The host: the `AudioWorkletProcessor` base class, `parameterDescriptors`, and the scheduler that decides when `process` runs and what it does after `false` or after an exception. Blocks and commands are modelled as calls in any order.
- Real `MessagePort` behaviour: structured cloning, detaching transferred buffers, the `DataCloneError` for a buffer listed twice, and posts to a closed port. A port is an identity, and what is sent to it is an entry in the effect log.
- Sample values: `Float32Array` contents are never read by the processor. A channel is an opaque array identity plus the identity of its buffer.
- Ids: JavaScript ids are numbers (doubles) or any other value. The model uses integer ids, and `None` for a message without a numeric id. A known method echoes its id whatever it is; the model echoes `None` for every non-numeric id.
- A `record` message without `params` would fail when its port is read. A `record` whose `encoderPort` is `null` would make the null test in `process` decide: the processor would stay `recording` and return `false`. One whose `encoderPort` is `undefined` would make `_stop` throw on `postMessage`. The TypeScript interface rules all three out, so `Record` always carries a port.
- Reply count: the model follows the code, which answers every command except an unsupported method whose id is not a number; that one gets no reply at all, so the promise is at most one reply per command, not exactly one.
- Build, bundling and test configuration (Karma, Grunt, webpack) and the integration test, which needs a real audio context and real message channels.
