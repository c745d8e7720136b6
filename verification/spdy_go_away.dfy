/**
 Inbound SPDY stream-source channels as one tagged datatype. The go-away
 variant is the GOAWAY control frame of the SPDY Protocol draft 3, section
 2.6.6: it carries the sender's status code and the last stream id it
 processed, and is always the last frame on its stream.
 */
module SpdyGoAway {
  import opened JavaInts

  /** The connection-level framed channel a stream belongs to. */
  datatype FramedChannelRef = FramedChannelRef(id: nat)

  /** The pooled buffer holding the frame payload received so far. */
  datatype PooledData = PooledData(id: nat)

  /** What the channel carries: stream payload, or a go-away control frame. */
  datatype Kind = DataStream | GoAway(status: Int32, lastGoodStreamId: Int32)

  /**
   A stream-source channel: the part handed to the base channel (framed
   channel, payload buffer, frame bytes still to come), whether the last frame
   has been seen, and the variant.
   */
  datatype SourceChannel = SourceChannel(
    framedChannel: FramedChannelRef,
    data: PooledData,
    frameDataRemaining: Int64,
    lastFrameSeen: bool,
    kind: Kind)

  /** Marks that no further frame will arrive on this channel; nothing else changes. */
  function LastFrame(ch: SourceChannel): (r: SourceChannel)
    ensures r.lastFrameSeen
    ensures r.framedChannel == ch.framedChannel && r.data == ch.data
    ensures r.frameDataRemaining == ch.frameDataRemaining && r.kind == ch.kind
  {
    ch.(lastFrameSeen := true)
  }

  /** Marking the last frame twice is the same as marking it once. */
  lemma LastFrameIdempotent(ch: SourceChannel)
    ensures LastFrame(LastFrame(ch)) == LastFrame(ch)
  {
  }

  function GetStatus(ch: SourceChannel): Int32
    requires ch.kind.GoAway?
  {
    ch.kind.status
  }

  function GetLastGoodStreamId(ch: SourceChannel): Int32
    requires ch.kind.GoAway?
  {
    ch.kind.lastGoodStreamId
  }

  /**
   Builds a go-away channel: the base channel receives the framed channel,
   payload and remaining count unchanged, and the channel is marked as the
   last frame before anyone can see it.
   */
  function NewGoAway(framedChannel: FramedChannelRef, data: PooledData, frameDataRemaining: Int64,
                     status: Int32, lastGoodStreamId: Int32): (ch: SourceChannel)
    ensures ch.kind.GoAway?
    ensures GetStatus(ch) == status && GetLastGoodStreamId(ch) == lastGoodStreamId
    ensures ch.lastFrameSeen
    ensures ch.framedChannel == framedChannel && ch.data == data
    ensures ch.frameDataRemaining == frameDataRemaining
  {
    LastFrame(SourceChannel(framedChannel, data, frameDataRemaining, false, GoAway(status, lastGoodStreamId)))
  }

  /** Applies `LastFrame` `n` times: every change a go-away channel can undergo after construction. */
  function MarkedLastFrame(ch: SourceChannel, n: nat): SourceChannel
    decreases n
  {
    if n == 0 then ch else LastFrame(MarkedLastFrame(ch, n - 1))
  }

  /** Status and last good stream id are fixed at construction and never change afterwards. */
  lemma {:induction false} GoAwayFieldsFinal(framedChannel: FramedChannelRef, data: PooledData,
                                              frameDataRemaining: Int64, status: Int32,
                                              lastGoodStreamId: Int32, n: nat)
    ensures var ch := MarkedLastFrame(NewGoAway(framedChannel, data, frameDataRemaining, status, lastGoodStreamId), n);
            && ch.kind.GoAway?
            && GetStatus(ch) == status
            && GetLastGoodStreamId(ch) == lastGoodStreamId
            && ch.lastFrameSeen
    decreases n
  {
    if n > 0 {
      GoAwayFieldsFinal(framedChannel, data, frameDataRemaining, status, lastGoodStreamId, n - 1);
    }
  }
}
