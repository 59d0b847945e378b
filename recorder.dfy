/**
 * The audio worklet processor itself: two fields shared by the control-port
 * message handler and the per-block `process` callback, and the log of every
 * message it posts and every port it closes.
 */
module Recorder {
  import opened Wrappers
  import opened Messages
  import opened Lifecycle

  class RecorderAudioWorkletProcessor {
    var encoderPort: Option<PortId>
    var state: State
    /** Replies on the control port, posts to and closings of encoder ports, in order. */
    var effects: seq<Effect>

    /** The two shared fields as a value. */
    function Fields(): Machine
      reads this
    {
      Machine(state, encoderPort)
    }

    ghost predicate Valid()
      reads this
    {
      StreamInvariant(Fields(), effects)
    }

    constructor ()
      ensures Valid() && Fields() == Initial() && effects == []
    {
      encoderPort := None;
      state := Inactive;
      effects := [];
    }

    /** The control port's `onmessage` handler. */
    method HandleMessage(cmd: Command)
      requires Valid()
      modifies this
      ensures Valid()
      ensures Fields() == CommandStep(old(Fields()), cmd).next
      ensures effects == old(effects) + CommandStep(old(Fields()), cmd).effects
    {
      CommandStepKeepsStream(Fields(), effects, cmd);
      if cmd.op.Pause? {
        if state == Active || state == Recording {
          state := Paused;
          SendAcknowledgement(cmd.id);
        } else {
          SendUnexpectedStateError(cmd.id);
        }
      } else if cmd.op.Record? {
        if state == Inactive {
          encoderPort := Some(cmd.op.encoderPort);
          state := Active;
          SendAcknowledgement(cmd.id);
        } else {
          SendUnexpectedStateError(cmd.id);
        }
      } else if cmd.op.Resume? {
        if state == Paused {
          state := Active;
          SendAcknowledgement(cmd.id);
        } else {
          SendUnexpectedStateError(cmd.id);
        }
      } else if cmd.op.Stop? {
        if (state == Active || state == Paused || state == Recording) && encoderPort.Some? {
          ghost var before := effects;
          Stop(encoderPort.value);
          SendAcknowledgement(cmd.id);
          assert effects == before + (StopSequence(old(encoderPort).value) + [Replied(Acknowledgement(cmd.id))]);
        } else {
          SendUnexpectedStateError(cmd.id);
        }
      } else if cmd.id.Some? {
        effects := effects + [Replied(UnsupportedMethodError(cmd.id.value))];
      }
    }

    /**
     * The per-block callback. `inputs` are the block's inputs; only the first
     * one is looked at. A thrown error is returned as `Failure`.
     */
    method Process(inputs: seq<seq<ChannelData>>) returns (keepAlive: Result<bool, string>)
      requires Valid()
      modifies this
      ensures Valid()
      ensures Fields() == BlockStep(old(Fields()), inputs).next
      ensures effects == old(effects) + BlockStep(old(Fields()), inputs).effects
      ensures keepAlive == BlockStep(old(Fields()), inputs).keepAlive
    {
      BlockStepKeepsStream(Fields(), effects, inputs);
      var input := FirstInput(inputs);
      if state == Inactive || state == Paused {
        return Success(true);
      }
      if state == Active {
        if input.None? {
          return Failure(NoChannelDataText);
        }
        if input.value == [] {
          return Success(true);
        }
        state := Recording;
      }
      if state == Recording && encoderPort.Some? {
        if input.None? {
          return Failure(NoChannelDataText);
        }
        if input.value == [] {
          Stop(encoderPort.value);
        } else {
          effects := effects + [Posted(encoderPort.value, Frame(input.value, TransferList(input.value)))];
          return Success(true);
        }
      }
      return Success(false);
    }

    method SendAcknowledgement(id: Option<int>)
      modifies this
      ensures Fields() == old(Fields())
      ensures effects == old(effects) + [Replied(Acknowledgement(id))]
    {
      effects := effects + [Replied(Acknowledgement(id))];
    }

    method SendUnexpectedStateError(id: Option<int>)
      modifies this
      ensures Fields() == old(Fields())
      ensures effects == old(effects) + [Replied(UnexpectedStateError(id))]
    {
      effects := effects + [Replied(UnexpectedStateError(id))];
    }

    /** Ends the stream on `port`, closes it, releases it and enters `Stopped`. */
    method Stop(port: PortId)
      modifies this
      ensures Fields() == Machine(Stopped, None)
      ensures effects == old(effects) + StopSequence(port)
    {
      effects := effects + [Posted(port, Sentinel)];
      effects := effects + [Closed(port)];
      encoderPort := None;
      state := Stopped;
    }
  }
}
