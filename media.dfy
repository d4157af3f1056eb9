/**
 * The media engine (an SFU library) as the signalling coordinator sees it:
 * opaque values for routers, transports, producers and consumers, the
 * outcome of each asynchronous engine call, and a record of the calls the
 * coordinator makes into the engine.  Nothing here forwards media; the
 * engine's answers are supplied from outside, as oracle values.
 */
module Media {

  /** Identifiers handed out by the engine. */
  type Id = string

  /** ICE, DTLS and RTP parameter blobs: relayed verbatim, never inspected. */
  type Opaque = string

  datatype Option<T> = None | Some(value: T)

  /** How an awaited engine promise settles: with a value, or rejected with an error message. */
  datatype Outcome<T> = Resolved(value: T) | Rejected(message: string)

  /** A WebRTC transport with the connection parameters the client needs. */
  datatype Transport = Transport(id: Id, iceParameters: Opaque, iceCandidates: Opaque, dtlsParameters: Opaque)

  /** An inbound track; `kind` is the engine's media kind string ("audio" or "video"). */
  datatype Producer = Producer(id: Id, kind: string)

  /** An outbound forwarding of a producer; `consumerType` is the engine's `type` ("simple", "simulcast", ...). */
  datatype Consumer = Consumer(id: Id, kind: string, rtpParameters: Opaque, consumerType: string, producerPaused: bool)

  /**
   * The room's router: its RTP capabilities and its capability-compatibility
   * check, which answers for a producer id and a peer's RTP capabilities.
   */
  datatype Router = Router(rtpCapabilities: Opaque, canConsume: (Id, Opaque) -> bool)

  /** One call the coordinator makes into the engine, in the order it makes them. */
  datatype EngineCall =
    | NewWebRtcTransport
    | SetMaxIncomingBitrate(bitrate: int)
    | TransportConnect(transportId: Id, dtlsParameters: Opaque)
    | TransportProduce(transportId: Id, kind: string, rtpParameters: Opaque)
    | CanConsume(producerId: Id, rtpCapabilities: Opaque, compatible: bool)
    | TransportConsume(transportId: Id, producerId: Id, rtpCapabilities: Opaque, paused: bool)
    | SetPreferredLayers(consumerId: Id, spatialLayer: int, temporalLayer: int)
    | ConsumerResume(consumerId: Id)
}
