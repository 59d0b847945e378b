/**
 * Any interleaving of delivered commands and rendered blocks, as the host
 * produces them on the processor's single thread, and what holds over it.
 */
module Runs {
  import opened Wrappers
  import opened Messages
  import opened Lifecycle

  /** One call into the processor: a control-port message or one audio block. */
  datatype Event = Deliver(cmd: Command) | Render(inputs: seq<seq<ChannelData>>)

  /** The fields after a run, every effect in order, and the outcome of every block. */
  datatype Trace = Trace(final: Machine, effects: seq<Effect>, outcomes: seq<Result<bool, string>>)

  function RenderCount(events: seq<Event>): nat
  {
    if events == [] then 0 else (if events[0].Render? then 1 else 0) + RenderCount(events[1..])
  }

  function AnswerableCount(events: seq<Event>): (n: nat)
    ensures n <= |events| - RenderCount(events)
  {
    if events == [] then 0
    else (if events[0].Deliver? && Answerable(events[0].cmd) then 1 else 0) + AnswerableCount(events[1..])
  }

  /** Runs the events in order from `m`. */
  function Run(m: Machine, events: seq<Event>): (r: Trace)
    requires Consistent(m)
    ensures Consistent(r.final)
    ensures |r.outcomes| == RenderCount(events)
    decreases |events|
  {
    if events == [] then Trace(m, [], [])
    else
      match events[0]
      case Deliver(cmd) =>
        var s := CommandStep(m, cmd);
        var rest := Run(s.next, events[1..]);
        Trace(rest.final, s.effects + rest.effects, rest.outcomes)
      case Render(inputs) =>
        var b := BlockStep(m, inputs);
        var rest := Run(b.next, events[1..]);
        Trace(rest.final, b.effects + rest.effects, [b.keepAlive] + rest.outcomes)
  }

  /** The effects of the first event, and the fields it leaves. */
  function Head(m: Machine, e: Event): (s: Step)
    requires Consistent(m)
    ensures Consistent(s.next)
  {
    match e
    case Deliver(cmd) => CommandStep(m, cmd)
    case Render(inputs) => var b := BlockStep(m, inputs); Step(b.next, b.effects)
  }

  lemma {:induction false} RunUnfold(m: Machine, events: seq<Event>)
    requires Consistent(m) && events != []
    ensures Run(m, events).final == Run(Head(m, events[0]).next, events[1..]).final
    ensures Run(m, events).effects == Head(m, events[0]).effects + Run(Head(m, events[0]).next, events[1..]).effects
  {
  }

  lemma {:induction false} HeadKeepsStream(m: Machine, effects: seq<Effect>, e: Event)
    requires StreamInvariant(m, effects)
    ensures StreamInvariant(Head(m, e).next, effects + Head(m, e).effects)
  {
    match e {
      case Deliver(cmd) => CommandStepKeepsStream(m, effects, cmd);
      case Render(inputs) => BlockStepKeepsStream(m, effects, inputs);
    }
  }

  /** The stream invariant holds after any run that starts where it holds. */
  lemma {:induction false} RunKeepsStream(m: Machine, effects: seq<Effect>, events: seq<Event>)
    requires StreamInvariant(m, effects)
    ensures StreamInvariant(Run(m, events).final, effects + Run(m, events).effects)
    decreases |events|
  {
    if events == [] {
      assert effects + [] == effects;
    } else {
      var h := Head(m, events[0]);
      var rest := Run(h.next, events[1..]);
      var r := Run(m, events);
      assert r.final == rest.final && r.effects == h.effects + rest.effects by {
        RunUnfold(m, events);
      }
      assert effects + r.effects == (effects + h.effects) + rest.effects;
      HeadKeepsStream(m, effects, events[0]);
      RunKeepsStream(h.next, effects + h.effects, events[1..]);
    }
  }

  predicate IsClosing(e: Effect) { e.Closed? }
  predicate IsEndOfStream(e: Effect) { e.Posted? && e.frame == Sentinel }

  lemma StopSequenceCounts(p: PortId)
    ensures CountWhere(StopSequence(p), IsClosing) == 1
    ensures CountWhere(StopSequence(p), IsEndOfStream) == 1
  {
    assert StopSequence(p)[1..][1..] == [];
  }

  lemma {:induction false} DataPostsCountNothing(enc: seq<Effect>, p: PortId)
    requires DataPosts(enc, p)
    ensures CountWhere(enc, IsClosing) == 0
    ensures CountWhere(enc, IsEndOfStream) == 0
  {
    assert forall i :: 0 <= i < |enc| ==> !IsEndOfStream(enc[i]) by {
      forall i | 0 <= i < |enc| ensures !IsEndOfStream(enc[i]) {
        assert enc[i].frame.channels != [];
      }
    }
  }

  /** Under the stream invariant the encoder sees one empty frame and one closing once stopped, none before. */
  lemma {:induction false} StreamCounts(m: Machine, effects: seq<Effect>)
    requires StreamInvariant(m, effects)
    ensures CountWhere(EncoderEvents(effects), IsClosing) == if m.state == Stopped then 1 else 0
    ensures CountWhere(EncoderEvents(effects), IsEndOfStream) == if m.state == Stopped then 1 else 0
  {
    var enc := EncoderEvents(effects);
    if m.state == Stopped {
      var n := |enc|;
      var p := enc[n - 1].port;
      var data := enc[..n - 2];
      assert enc == data + StopSequence(p);
      DataPostsCountNothing(data, p);
      StopSequenceCounts(p);
      CountWhereAppend(data, StopSequence(p), IsClosing);
      CountWhereAppend(data, StopSequence(p), IsEndOfStream);
    } else if HoldsPort(m.state) {
      DataPostsCountNothing(enc, m.encoderPort.value);
    }
  }

  /**
   * From construction, whatever the interleaving: the encoder port receives
   * the end-of-stream frame and is closed exactly once if the processor ends
   * up stopped and never otherwise, the closing is the last thing it sees,
   * and everything before the empty frame is a non-empty data frame.
   */
  lemma {:induction false} EndOfStreamOnce(events: seq<Event>)
    ensures var r := Run(Initial(), events);
            var enc := EncoderEvents(r.effects);
            CountWhere(enc, IsClosing) == (if r.final.state == Stopped then 1 else 0) &&
            CountWhere(enc, IsEndOfStream) == (if r.final.state == Stopped then 1 else 0) &&
            (r.final.state == Stopped ==> Terminated(enc)) &&
            (HoldsPort(r.final.state) ==> DataPosts(enc, r.final.encoderPort.value))
  {
    var r := Run(Initial(), events);
    RunKeepsStream(Initial(), [], events);
    assert [] + r.effects == r.effects;
    StreamCounts(r.final, r.effects);
  }

  /**
   * Once stopped, nothing leaves the state: every command is refused with an
   * error, every block returns false, and the encoder port sees nothing more.
   */
  lemma {:induction false} StoppedIsTerminal(events: seq<Event>)
    ensures var r := Run(Machine(Stopped, None), events);
            r.final == Machine(Stopped, None) &&
            EncoderEvents(r.effects) == [] &&
            (forall x :: x in Replies(r.effects) ==> x.outcome.Error?) &&
            (forall k :: 0 <= k < |r.outcomes| ==> r.outcomes[k] == Success(false))
    decreases |events|
  {
    if events != [] {
      var m := Machine(Stopped, None);
      var h := Head(m, events[0]);
      var rest := Run(m, events[1..]);
      assert h.next == m && EncoderEvents(h.effects) == [] &&
             (forall x :: x in Replies(h.effects) ==> x.outcome.Error?) by {
        match events[0] {
          case Deliver(cmd) =>
            CommandStepReplies(m, cmd);
            CommandStepFields(m, cmd);
          case Render(inputs) =>
        }
      }
      assert Run(m, events).outcomes ==
             (if events[0].Render? then [Success(false)] else []) + rest.outcomes;
      RunUnfold(m, events);
      StoppedIsTerminal(events[1..]);
      RepliesAppend(h.effects, rest.effects);
      EncoderEventsAppend(h.effects, rest.effects);
    }
  }

  /** Every answerable command gets exactly one reply, and blocks never reply. */
  lemma {:induction false} OneReplyPerCommand(m: Machine, events: seq<Event>)
    requires Consistent(m)
    ensures |Replies(Run(m, events).effects)| == AnswerableCount(events)
    decreases |events|
  {
    if events != [] {
      var h := Head(m, events[0]);
      if events[0].Deliver? {
        CommandStepReplies(m, events[0].cmd);
      }
      RunUnfold(m, events);
      OneReplyPerCommand(h.next, events[1..]);
      RepliesAppend(h.effects, Run(h.next, events[1..]).effects);
    }
  }
}
