/**
 * The wire vocabulary the broadcast handler works with: envelopes, the
 * payload header that carries the channel id and the header type, and the
 * response statuses.
 */
module Messages {
  import opened Wrappers

  newtype byte = x: int | 0 <= x < 0x100
  newtype int32 = x: int | -0x8000_0000 <= x < 0x8000_0000

  /** A Go `error` value; only its identity matters to the handler. */
  datatype Error = Error(text: string)

  /** A signed envelope: serialized payload bytes plus a signature. */
  datatype Envelope = Envelope(payload: seq<byte>, signature: seq<byte>)

  datatype ChannelHeader = ChannelHeader(channelId: string, headerType: int32)
  datatype Header = Header(channelHeader: Option<ChannelHeader>)

  /**
   * What the payload struct holds after it has been unmarshalled: the
   * header pointer and the channel-header pointer may each be nil.
   */
  datatype Payload = Payload(header: Option<Header>)

  /** `HeaderType_CONFIG_UPDATE` of the common protocol-buffer definitions. */
  const CONFIG_UPDATE: int32 := 2

  /** The response statuses the handler sends. */
  datatype Status = Success | BadRequest | NotFound | ServiceUnavailable | InternalServerError

  /**
   * The three-part header check: a header, a channel header, and a
   * non-empty channel id.
   */
  predicate WellFormed(p: Payload) {
    && p.header.Some?
    && p.header.value.channelHeader.Some?
    && p.header.value.channelHeader.value.channelId != ""
  }

  /** The channel id of a well-formed payload. */
  function ChannelId(p: Payload): string
    requires WellFormed(p)
  {
    p.header.value.channelHeader.value.channelId
  }

  /** Whether a well-formed payload declares a CONFIG_UPDATE transaction. */
  predicate IsConfigUpdate(p: Payload)
    requires WellFormed(p)
  {
    p.header.value.channelHeader.value.headerType == CONFIG_UPDATE
  }
}
