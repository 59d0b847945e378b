/**
 * The wire shapes the processor exchanges: commands arriving on its control
 * port, replies it posts back, the frames it posts to the encoder port, and
 * the ordered log of every side effect it performs on either port.
 */
module Messages {
  import opened Wrappers

  /** Identity of a `MessagePort` (the encoder port handed over by `record`). */
  type PortId = nat

  /** Identity of the `ArrayBuffer` underneath a channel's sample array. */
  type BufferId = nat

  /**
   * One channel of an audio block: an opaque `Float32Array` identity and the
   * identity of its underlying buffer. Sample values are never inspected.
   */
  datatype ChannelData = ChannelData(samples: nat, buffer: BufferId)

  /**
   * The `method` field of a command. `record` carries its `params.encoderPort`;
   * every method name other than the four recognised ones is `Unsupported`.
   */
  datatype Method =
    | Pause
    | Record(encoderPort: PortId)
    | Resume
    | Stop
    | Unsupported(name: string)

  /** A command: its `id` (`None` when it carries no numeric id) and its `method` with params. */
  datatype Command = Command(id: Option<int>, op: Method)

  const UnsupportedMethodCode: int := -32601
  const UnexpectedStateCode: int := -32603
  const UnsupportedMethodText: string := "The requested method is not supported."
  const UnexpectedStateText: string := "The internal state does not allow to process the given message."
  const NoChannelDataText: string := "No channelData was received for the first input."

  /** `result: null` or `error: { code, message }`. */
  datatype Outcome = NullResult | Error(code: int, message: string)

  /** A reply posted on the control port; `id` echoes the command's id. */
  datatype Reply = Reply(id: Option<int>, outcome: Outcome)

  /** A message posted to the encoder port: the channel arrays and the transfer list. */
  datatype Frame = Frame(channels: seq<ChannelData>, transfer: seq<BufferId>)

  /** The end-of-stream frame: an empty array, posted without a transfer list. */
  const Sentinel: Frame := Frame([], [])

  /** One observable side effect, in the order it happens. */
  datatype Effect =
    | Replied(reply: Reply)                 // control port postMessage
    | Posted(port: PortId, frame: Frame)    // encoder port postMessage
    | Closed(port: PortId)                  // encoder port close()

  /** A JSON-RPC error code in the range the JSON-RPC 2.0 specification reserves (section 5.1). */
  predicate ReservedErrorCode(code: int) {
    -32768 <= code <= -32000
  }

  /** `{ id, result: null }`. */
  function Acknowledgement(id: Option<int>): (r: Reply)
    ensures r.id == id && r.outcome.NullResult?
  {
    Reply(id, NullResult)
  }

  /** The error sent when the current state does not allow the command. */
  function UnexpectedStateError(id: Option<int>): (r: Reply)
    ensures r.id == id && r.outcome.Error? && ReservedErrorCode(r.outcome.code)
    ensures r.outcome == Error(-32603, "The internal state does not allow to process the given message.")
  {
    Reply(id, Error(UnexpectedStateCode, UnexpectedStateText))
  }

  /** The error sent for an unrecognised method; only ever built for a numeric id. */
  function UnsupportedMethodError(id: int): (r: Reply)
    ensures r.id == Some(id) && r.outcome.Error? && ReservedErrorCode(r.outcome.code)
    ensures r.outcome == Error(-32601, "The requested method is not supported.")
  {
    Reply(Some(id), Error(UnsupportedMethodCode, UnsupportedMethodText))
  }

  /** The transfer list of a block: each channel's buffer, in channel order. */
  function TransferList(channels: seq<ChannelData>): (r: seq<BufferId>)
    ensures |r| == |channels|
    ensures forall i :: 0 <= i < |r| ==> r[i] == channels[i].buffer
  {
    if channels == [] then [] else [channels[0].buffer] + TransferList(channels[1..])
  }

  /** A frame that carries `channels` unchanged and transfers each channel's buffer in order. */
  predicate Forwards(f: Frame, channels: seq<ChannelData>) {
    f.channels == channels &&
    |f.transfer| == |channels| &&
    forall i :: 0 <= i < |channels| ==> f.transfer[i] == channels[i].buffer
  }

  /** The frame that forwards one block to the encoder port. */
  function DataFrame(channels: seq<ChannelData>): (f: Frame)
    ensures Forwards(f, channels)
    ensures f == Sentinel <==> channels == []
  {
    Frame(channels, TransferList(channels))
  }

  /** The replies in an effect log, i.e. what the control port received, in order. */
  function Replies(effects: seq<Effect>): seq<Reply>
  {
    if effects == [] then []
    else (if effects[0].Replied? then [effects[0].reply] else []) + Replies(effects[1..])
  }

  /** The encoder-port events (posts and closings) in an effect log, in order. */
  function EncoderEvents(effects: seq<Effect>): seq<Effect>
  {
    if effects == [] then []
    else (if effects[0].Replied? then [] else [effects[0]]) + EncoderEvents(effects[1..])
  }

  lemma {:induction false} RepliesAppend(a: seq<Effect>, b: seq<Effect>)
    ensures Replies(a + b) == Replies(a) + Replies(b)
  {
    if a == [] {
      assert a + b == b;
    } else {
      var h := if a[0].Replied? then [a[0].reply] else [];
      assert (a + b)[0] == a[0];
      assert (a + b)[1..] == a[1..] + b;
      calc {
        Replies(a + b);
        h + Replies(a[1..] + b);
        { RepliesAppend(a[1..], b); }
        h + (Replies(a[1..]) + Replies(b));
        (h + Replies(a[1..])) + Replies(b);
      }
    }
  }

  lemma {:induction false} EncoderEventsAppend(a: seq<Effect>, b: seq<Effect>)
    ensures EncoderEvents(a + b) == EncoderEvents(a) + EncoderEvents(b)
  {
    if a == [] {
      assert a + b == b;
    } else {
      var h := if a[0].Replied? then [] else [a[0]];
      assert (a + b)[0] == a[0];
      assert (a + b)[1..] == a[1..] + b;
      calc {
        EncoderEvents(a + b);
        h + EncoderEvents(a[1..] + b);
        { EncoderEventsAppend(a[1..], b); }
        h + (EncoderEvents(a[1..]) + EncoderEvents(b));
        (h + EncoderEvents(a[1..])) + EncoderEvents(b);
      }
    }
  }

  /** How many effects of a log satisfy `p`. */
  function CountWhere(s: seq<Effect>, p: Effect -> bool): (n: nat)
    ensures n <= |s|
    ensures n == 0 <==> forall i :: 0 <= i < |s| ==> !p(s[i])
  {
    if s == [] then 0 else (if p(s[0]) then 1 else 0) + CountWhere(s[1..], p)
  }

  lemma {:induction false} CountWhereAppend(a: seq<Effect>, b: seq<Effect>, p: Effect -> bool)
    ensures CountWhere(a + b, p) == CountWhere(a, p) + CountWhere(b, p)
  {
    if a == [] {
      assert a + b == b;
    } else {
      assert (a + b)[1..] == a[1..] + b;
      CountWhereAppend(a[1..], b, p);
    }
  }
}
