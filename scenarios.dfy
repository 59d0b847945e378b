/**
 * Clients of the processor that replay the repository's unit tests and a few
 * end-to-end runs of the command protocol, using nothing but the class's contracts.
 */
module Scenarios {
  import opened Wrappers
  import opened Messages
  import opened Lifecycle
  import opened Recorder

  const Port: PortId := 7

  /** Two channels of one block, each over its own buffer. */
  const Stereo: seq<ChannelData> := [ChannelData(1, 101), ChannelData(2, 102)]

  lemma StereoFrame()
    ensures DataFrame(Stereo) == Frame(Stereo, [101, 102])
  {
    var f := DataFrame(Stereo);
    assert f.transfer[0] == 101 && f.transfer[1] == 102;
  }

  lemma MonoFrame()
    ensures DataFrame([ChannelData(3, 103)]) == Frame([ChannelData(3, 103)], [103])
  {
    var f := DataFrame([ChannelData(3, 103)]);
    assert f.transfer[0] == 103;
  }

  method StopBeforeRecord() {
    var p := new RecorderAudioWorkletProcessor();
    p.HandleMessage(Command(Some(34), Stop));
    assert p.effects == [Replied(Reply(Some(34), Error(-32603, UnexpectedStateText)))];
  }

  method RecordThenStopTwice() {
    var p := new RecorderAudioWorkletProcessor();
    p.HandleMessage(Command(Some(34), Record(Port)));
    assert p.effects == [Replied(Reply(Some(34), NullResult))];
    p.HandleMessage(Command(Some(35), Stop));
    assert p.effects == [Replied(Reply(Some(34), NullResult)),
                         Posted(Port, Frame([], [])), Closed(Port),
                         Replied(Reply(Some(35), NullResult))];
    var before := p.effects;
    p.HandleMessage(Command(Some(36), Stop));
    assert p.effects == before + [Replied(Reply(Some(36), Error(-32603, UnexpectedStateText)))];
  }

  method RecordTwice() {
    var p := new RecorderAudioWorkletProcessor();
    p.HandleMessage(Command(Some(34), Record(Port)));
    p.HandleMessage(Command(Some(35), Record(Port)));
    assert p.effects == [Replied(Reply(Some(34), NullResult)),
                         Replied(Reply(Some(35), Error(-32603, UnexpectedStateText)))];
    assert p.Fields() == Machine(Active, Some(Port));
  }

  method UnsupportedMethods() {
    var p := new RecorderAudioWorkletProcessor();
    p.HandleMessage(Command(None, Unsupported("flush")));
    assert p.effects == [];
    p.HandleMessage(Command(Some(9), Unsupported("flush")));
    assert p.effects == [Replied(Reply(Some(9), Error(-32601, UnsupportedMethodText)))];
    assert p.Fields() == Initial();
  }

  method ProcessWithoutEncoderPort() {
    var p := new RecorderAudioWorkletProcessor();
    var keepAlive := p.Process([]);
    assert keepAlive == Success(true) && p.effects == [];
  }

  method ProcessWithoutInputAfterIdlessRecord() {
    var p := new RecorderAudioWorkletProcessor();
    p.HandleMessage(Command(None, Record(Port)));
    assert p.effects == [Replied(Reply(None, NullResult))];
    var keepAlive := p.Process([]);
    assert keepAlive == Failure("No channelData was received for the first input.");
    assert p.Fields() == Machine(Active, Some(Port));
  }

  method ProcessForwardsTheFirstBlock() {
    var p := new RecorderAudioWorkletProcessor();
    p.HandleMessage(Command(None, Record(Port)));
    var keepAlive := p.Process([Stereo]);
    assert keepAlive == Success(true);
    StereoFrame();
    assert p.effects == [Replied(Reply(None, NullResult)), Posted(Port, Frame(Stereo, [101, 102]))];
    assert p.state == Recording;
  }

  method ProcessAfterStop() {
    var p := new RecorderAudioWorkletProcessor();
    p.HandleMessage(Command(None, Record(Port)));
    p.HandleMessage(Command(None, Stop));
    var before := p.effects;
    var keepAlive := p.Process([]);
    assert keepAlive == Success(false) && p.effects == before;
  }

  /** record(1), pause(2), resume(3): three acknowledgements, and active again. */
  method RecordPauseResume() returns (p: RecorderAudioWorkletProcessor)
    ensures fresh(p) && p.Valid()
    ensures p.Fields() == Machine(Active, Some(Port))
    ensures p.effects == [Replied(Reply(Some(1), NullResult)),
                          Replied(Reply(Some(2), NullResult)),
                          Replied(Reply(Some(3), NullResult))]
  {
    p := new RecorderAudioWorkletProcessor();
    p.HandleMessage(Command(Some(1), Record(Port)));
    assert p.Fields() == Machine(Active, Some(Port));
    p.HandleMessage(Command(Some(2), Pause));
    assert p.Fields() == Machine(Paused, Some(Port));
    p.HandleMessage(Command(Some(3), Resume));
  }

  /** ... then a two-channel block, then stop(4). */
  method PauseResumeThenStop() {
    var p := RecordPauseResume();
    var replies := p.effects;
    var keepAlive := p.Process([Stereo]);
    assert keepAlive == Success(true);
    StereoFrame();
    assert p.effects == replies + [Posted(Port, Frame(Stereo, [101, 102]))];
    assert p.Fields() == Machine(Recording, Some(Port));
    p.HandleMessage(Command(Some(4), Stop));
    assert p.effects == replies + [Posted(Port, Frame(Stereo, [101, 102])),
                                   Posted(Port, Sentinel), Closed(Port),
                                   Replied(Reply(Some(4), NullResult))];
  }

  method WaitForTheFirstChannel() {
    var p := new RecorderAudioWorkletProcessor();
    p.HandleMessage(Command(Some(1), Record(Port)));
    var first := p.Process([[]]);
    assert first == Success(true) && p.Fields() == Machine(Active, Some(Port));
    assert p.effects == [Replied(Reply(Some(1), NullResult))];
    MonoFrame();
    var second := p.Process([[ChannelData(3, 103)]]);
    assert second == Success(true) && p.state == Recording;
    assert p.effects == [Replied(Reply(Some(1), NullResult)), Posted(Port, Frame([ChannelData(3, 103)], [103]))];
  }

  method DisconnectionStops() {
    var p := new RecorderAudioWorkletProcessor();
    p.HandleMessage(Command(Some(1), Record(Port)));
    var first := p.Process([Stereo]);
    StereoFrame();
    assert p.Fields() == Machine(Recording, Some(Port));
    var second := p.Process([[]]);
    assert first == Success(true) && second == Success(false);
    assert p.effects == [Replied(Reply(Some(1), NullResult)),
                         Posted(Port, Frame(Stereo, [101, 102])),
                         Posted(Port, Sentinel), Closed(Port)];
    var before := p.effects;
    p.HandleMessage(Command(Some(2), Resume));
    assert p.effects == before + [Replied(Reply(Some(2), Error(-32603, UnexpectedStateText)))];
  }
}
