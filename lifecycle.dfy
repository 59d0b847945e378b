/**
 * Reference specification of the recorder's lifecycle: the transition table
 * of the command handler, the decision procedure of the block forwarder, the
 * invariant tying the state to the encoder port and to the stream the encoder
 * receives, and what holds over any interleaving of commands and blocks.
 */
module Lifecycle {
  import opened Wrappers
  import opened Messages

  datatype State = Inactive | Active | Recording | Paused | Stopped

  /** The two fields the command handler and the block forwarder share. */
  datatype Machine = Machine(state: State, encoderPort: Option<PortId>)

  /** The states in which the processor owns an encoder port. */
  predicate HoldsPort(s: State) {
    s == Active || s == Recording || s == Paused
  }

  /** The encoder port is present exactly while the state holds one. */
  predicate Consistent(m: Machine) {
    m.encoderPort.Some? <==> HoldsPort(m.state)
  }

  /** The fields as the constructor leaves them. */
  function Initial(): (m: Machine)
    ensures Consistent(m) && m.state == Inactive
  {
    Machine(Inactive, None)
  }

  /**
   * The transition table of the command handler: the state a recognised
   * method leads to, or `None` when the current state does not allow it.
   */
  function Transition(s: State, op: Method): (r: Option<State>)
    ensures r == Some(Active) <==> (s == Inactive && op.Record?) || (s == Paused && op.Resume?)
    ensures r == Some(Paused) <==> (s == Active || s == Recording) && op.Pause?
    ensures r == Some(Stopped) <==> HoldsPort(s) && op.Stop?
    ensures r != Some(Recording) && r != Some(Inactive)
    ensures s == Stopped || op.Unsupported? ==> r.None?
  {
    match op
    case Record(_) => if s == Inactive then Some(Active) else None
    case Pause => if s == Active || s == Recording then Some(Paused) else None
    case Resume => if s == Paused then Some(Active) else None
    case Stop => if HoldsPort(s) then Some(Stopped) else None
    case Unsupported(_) => None
  }

  /** Whether a command can be answered at all: an unsupported method without a numeric id cannot. */
  predicate Answerable(cmd: Command) {
    !(cmd.op.Unsupported? && cmd.id.None?)
  }

  /** The termination sequence on an encoder port: the empty frame, then the closing. */
  function StopSequence(p: PortId): seq<Effect> {
    [Posted(p, Sentinel), Closed(p)]
  }

  /** The termination sequence adds no reply and is all the encoder port sees of it. */
  lemma {:induction false} StopSequenceThen(p: PortId, tail: seq<Effect>)
    ensures Replies(StopSequence(p) + tail) == Replies(tail)
    ensures EncoderEvents(StopSequence(p) + tail) == StopSequence(p) + EncoderEvents(tail)
  {
    var s := StopSequence(p) + tail;
    assert s[1..] == [Closed(p)] + tail;
    assert s[1..][1..] == tail;
  }

  /** The fields after one call and the effects that call performed, in order. */
  datatype Step = Step(next: Machine, effects: seq<Effect>)

  /** What handling one command does. */
  function CommandStep(m: Machine, cmd: Command): (r: Step)
    requires Consistent(m)
    ensures Consistent(r.next)
  {
    if cmd.op.Unsupported? then
      Step(m, if cmd.id.Some? then [Replied(UnsupportedMethodError(cmd.id.value))] else [])
    else
      match Transition(m.state, cmd.op)
      case None => Step(m, [Replied(UnexpectedStateError(cmd.id))])
      case Some(s) =>
        var ack := [Replied(Acknowledgement(cmd.id))];
        if s == Stopped then
          Step(Machine(Stopped, None), StopSequence(m.encoderPort.value) + ack)
        else if cmd.op.Record? then
          Step(Machine(s, Some(cmd.op.encoderPort)), ack)
        else
          Step(Machine(s, m.encoderPort), ack)
  }

  /**
   * The replies to one command: exactly one to every answerable command and
   * none otherwise, coming after every other effect and echoing the id; the
   * acknowledgement exactly when the table allows the transition, and
   * otherwise the error reply, code and text, that matches the reason.
   */
  lemma CommandStepReplies(m: Machine, cmd: Command)
    requires Consistent(m)
    ensures var r := CommandStep(m, cmd);
            |Replies(r.effects)| == (if Answerable(cmd) then 1 else 0) &&
            (r.effects != [] ==> r.effects[|r.effects| - 1].Replied?) &&
            forall x :: x in Replies(r.effects) ==>
              x == (if cmd.op.Unsupported? then UnsupportedMethodError(cmd.id.value)
                    else if Transition(m.state, cmd.op).Some? then Acknowledgement(cmd.id)
                    else UnexpectedStateError(cmd.id)) &&
              x.id == cmd.id &&
              (x.outcome.NullResult? <==> Transition(m.state, cmd.op).Some?) &&
              (x.outcome.Error? ==>
                x.outcome.code == if cmd.op.Unsupported? then UnsupportedMethodCode else UnexpectedStateCode)
  {
    var r := CommandStep(m, cmd);
    if !cmd.op.Unsupported? && Transition(m.state, cmd.op) == Some(Stopped) {
      StopSequenceThen(m.encoderPort.value, [Replied(Acknowledgement(cmd.id))]);
    }
  }

  /**
   * The fields after one command: a refused command changes nothing and
   * touches no encoder port; an allowed one enters the state the table gives;
   * only `record` stores a port and only `stop` releases it; and the encoder
   * port sees the termination sequence exactly when the command stops the
   * processor, and nothing otherwise.
   */
  lemma CommandStepFields(m: Machine, cmd: Command)
    requires Consistent(m)
    ensures var r := CommandStep(m, cmd);
            (Transition(m.state, cmd.op).None? ==> r.next == m && EncoderEvents(r.effects) == []) &&
            (Transition(m.state, cmd.op).Some? ==> r.next.state == Transition(m.state, cmd.op).value) &&
            (r.next.encoderPort != m.encoderPort ==>
              (cmd.op.Record? && r.next.encoderPort == Some(cmd.op.encoderPort)) ||
              (cmd.op.Stop? && r.next.encoderPort.None?)) &&
            EncoderEvents(r.effects) ==
              if r.next.state == Stopped && m.state != Stopped then StopSequence(m.encoderPort.value) else []
  {
    if !cmd.op.Unsupported? && Transition(m.state, cmd.op) == Some(Stopped) {
      StopSequenceThen(m.encoderPort.value, [Replied(Acknowledgement(cmd.id))]);
    }
  }

  /** The first input's channel arrays, or `None` when `process` received no input at all. */
  function FirstInput(inputs: seq<seq<ChannelData>>): Option<seq<ChannelData>> {
    if inputs == [] then None else Some(inputs[0])
  }

  /** The fields after one block, the effects, and the keep-alive flag or the thrown error. */
  datatype Rendered = Rendered(next: Machine, effects: seq<Effect>, keepAlive: Result<bool, string>)

  /** What processing one block does, as a decision on the current state. */
  function BlockStep(m: Machine, inputs: seq<seq<ChannelData>>): (r: Rendered)
    requires Consistent(m)
    ensures Consistent(r.next)
    ensures Replies(r.effects) == []
    // the host is told to stop calling exactly when the processor is stopped afterwards
    ensures r.keepAlive == Success(false) <==> r.next.state == Stopped
    // a missing input is an error only while audio is expected, and then nothing changes
    ensures r.keepAlive.Failure? <==> (m.state == Active || m.state == Recording) && FirstInput(inputs).None?
    ensures r.keepAlive.Failure? ==>
              r.keepAlive.error == NoChannelDataText && r.next == m && r.effects == []
    // inactive, paused and stopped processors ignore the block
    ensures !(m.state == Active || m.state == Recording) ==> r.next == m && r.effects == []
    // the state only moves forward: to recording, or to stopped
    ensures r.next.state == m.state || r.next.state == Recording || r.next.state == Stopped
    // the encoder receives either this very block, unchanged, while recording, or the termination sequence
    ensures r.effects != [] ==>
              m.encoderPort.Some? &&
              ((r.next == Machine(Recording, m.encoderPort) && |r.effects| == 1 &&
                r.effects[0].Posted? && r.effects[0].port == m.encoderPort.value &&
                Forwards(r.effects[0].frame, inputs[0]) && inputs[0] != []) ||
               (m.state == Recording && r.next == Machine(Stopped, None) &&
                r.effects == StopSequence(m.encoderPort.value)))
  {
    match m.state
    case Inactive => Rendered(m, [], Success(true))
    case Paused => Rendered(m, [], Success(true))
    case Stopped => Rendered(m, [], Success(false))
    case Active =>
      if inputs == [] then Rendered(m, [], Failure(NoChannelDataText))
      else if inputs[0] == [] then Rendered(m, [], Success(true))
      else Forward(m, inputs[0])
    case Recording =>
      if inputs == [] then Rendered(m, [], Failure(NoChannelDataText))
      else if inputs[0] == [] then
        StopSequenceThen(m.encoderPort.value, []);
        assert StopSequence(m.encoderPort.value) + [] == StopSequence(m.encoderPort.value);
        Rendered(Machine(Stopped, None), StopSequence(m.encoderPort.value), Success(false))
      else Forward(m, inputs[0])
  }

  /** Recording one non-empty block: the block goes to the encoder port unchanged. */
  function Forward(m: Machine, channels: seq<ChannelData>): Rendered
    requires m.encoderPort.Some?
  {
    Rendered(Machine(Recording, m.encoderPort), [Posted(m.encoderPort.value, DataFrame(channels))], Success(true))
  }

  /**
   * The other direction of `BlockStep`'s contract: a block with channels is
   * forwarded while audio is expected, an empty block ends the stream while
   * recording, and an empty block while active is waited out.
   */
  lemma {:induction false} BlockStepDecides(m: Machine, inputs: seq<seq<ChannelData>>)
    requires Consistent(m)
    ensures var r := BlockStep(m, inputs);
            ((m.state == Active || m.state == Recording) && inputs != [] && inputs[0] != [] ==>
              r == Rendered(Machine(Recording, m.encoderPort),
                            [Posted(m.encoderPort.value, DataFrame(inputs[0]))], Success(true))) &&
            (m.state == Recording && inputs != [] && inputs[0] == [] ==>
              r == Rendered(Machine(Stopped, None), StopSequence(m.encoderPort.value), Success(false))) &&
            (m.state == Active && inputs != [] && inputs[0] == [] ==>
              r == Rendered(m, [], Success(true)))
  {
    if (m.state == Active || m.state == Recording) && inputs != [] && inputs[0] != [] {
      assert BlockStep(m, inputs) == Forward(m, inputs[0]);
    }
  }

  /** A run of encoder posts to `p`, each carrying at least one channel. */
  ghost predicate DataPosts(enc: seq<Effect>, p: PortId) {
    forall i :: 0 <= i < |enc| ==> enc[i].Posted? && enc[i].port == p && enc[i].frame.channels != []
  }

  /** The data frames to `p`, then exactly one empty frame to `p`, then the closing of `p`. */
  ghost predicate Terminated(enc: seq<Effect>) {
    |enc| >= 2 && enc[|enc| - 1].Closed? &&
    enc[|enc| - 2] == Posted(enc[|enc| - 1].port, Sentinel) &&
    DataPosts(enc[..|enc| - 2], enc[|enc| - 1].port)
  }

  /**
   * What the encoder port has seen so far, by state: nothing before `record`;
   * only data frames while recording is under way; and, once stopped, the data
   * frames followed by exactly one empty frame and then the closing.
   */
  ghost predicate StreamInvariant(m: Machine, effects: seq<Effect>) {
    Consistent(m) &&
    (m.state == Inactive ==> EncoderEvents(effects) == []) &&
    (HoldsPort(m.state) ==> DataPosts(EncoderEvents(effects), m.encoderPort.value)) &&
    (m.state == Stopped ==> Terminated(EncoderEvents(effects)))
  }

  lemma {:induction false} DataPostsThenStop(enc: seq<Effect>, p: PortId)
    requires DataPosts(enc, p)
    ensures Terminated(enc + StopSequence(p))
  {
    var all := enc + StopSequence(p);
    assert all[..|all| - 2] == enc;
  }

  lemma {:induction false} DataPostsThenForward(enc: seq<Effect>, p: PortId, channels: seq<ChannelData>)
    requires DataPosts(enc, p) && channels != []
    ensures DataPosts(enc + [Posted(p, DataFrame(channels))], p)
  {
  }

  lemma {:induction false} CommandStepKeepsStream(m: Machine, effects: seq<Effect>, cmd: Command)
    requires StreamInvariant(m, effects)
    ensures StreamInvariant(CommandStep(m, cmd).next, effects + CommandStep(m, cmd).effects)
  {
    var r := CommandStep(m, cmd);
    CommandStepFields(m, cmd);
    EncoderEventsAppend(effects, r.effects);
    if r.next.state == Stopped && m.state != Stopped {
      DataPostsThenStop(EncoderEvents(effects), m.encoderPort.value);
    } else {
      assert EncoderEvents(effects + r.effects) == EncoderEvents(effects);
    }
  }

  lemma {:induction false} BlockStepKeepsStream(m: Machine, effects: seq<Effect>, inputs: seq<seq<ChannelData>>)
    requires StreamInvariant(m, effects)
    ensures StreamInvariant(BlockStep(m, inputs).next, effects + BlockStep(m, inputs).effects)
  {
    var r := BlockStep(m, inputs);
    EncoderEventsAppend(effects, r.effects);
    var enc := EncoderEvents(effects);
    if (m.state == Active || m.state == Recording) && inputs != [] && inputs[0] != [] {
      var e := Posted(m.encoderPort.value, DataFrame(inputs[0]));
      assert r.effects == [e];
      assert EncoderEvents([e]) == [e];
      DataPostsThenForward(enc, m.encoderPort.value, inputs[0]);
    } else if m.state == Recording && inputs != [] {
      assert r.effects == StopSequence(m.encoderPort.value);
      StopSequenceThen(m.encoderPort.value, []);
      assert StopSequence(m.encoderPort.value) + [] == r.effects;
      DataPostsThenStop(enc, m.encoderPort.value);
    } else {
      assert r.next == m && r.effects == [];
      assert effects + r.effects == effects;
    }
  }
}
