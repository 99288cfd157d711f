/**
  Values handed out by the media engine (mediasoup). The engine itself is not
  modelled: its objects appear only through the fields the signaling server
  reads from them, and those fields are carried through unchanged.
 */
module Engine {

  /** An engine-side JSON value (ICE, DTLS or RTP parameters, RTP capabilities). */
  type Json = string

  /** A WebRTC transport as the server sees it: the four fields it sends back to the client. */
  datatype Transport = Transport(id: string, iceParameters: Json, iceCandidates: Json, dtlsParameters: Json)

  /** A consumer created on a consumer transport. */
  datatype Consumer = Consumer(id: string, kind: string, rtpParameters: Json)

  /** The router. Its RTP capability set is fixed once it exists. */
  datatype Router = Router(rtpCapabilities: Json)
}
