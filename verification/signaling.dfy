/**
  The session table of the signaling server (signaling/src/server.ts): three
  maps keyed by socket id, and one handler per socket event. Every handler is
  one atomic step from a session to a new session, the reply sent through the
  event's callback, and the broadcasts sent to every connected client.
 */
module Signaling {
  import opened Results
  import opened JsMaps
  import opened Engine

  /** The three process-wide maps, each keyed by socket id. */
  datatype Session = Session(
    producerTransports: JsMap<Transport>,
    consumerTransports: JsMap<Transport>,
    producers: JsMap<string>)

  ghost predicate ValidSession(s: Session) {
    JsMaps.Valid(s.producerTransports) && JsMaps.Valid(s.consumerTransports) && JsMaps.Valid(s.producers)
  }

  /** The maps as the server starts: all empty. */
  function Initial(): (s: Session)
    ensures ValidSession(s)
    ensures forall id :: !Has(s.producerTransports, id) && !Has(s.consumerTransports, id) && !Has(s.producers, id)
  {
    Session(Empty(), Empty(), Empty())
  }

  /** The error thrown when a socket has no transport of the kind it needs. */
  datatype LookupError = ProducerTransportNotFound(socketId: string) | ConsumerTransportNotFound(socketId: string)

  /** What a client receives through the event's callback. */
  datatype Reply =
    | TransportCreated(transport: Transport)
    | Ack
      /** `{id}`, the new producer's id */
    | Produced(id: string)
    | Consumed(id: string, producerId: string, kind: string, rtpParameters: Json)
      /** `{error: 'Cannot consume'}` */
    | Refused(error: string)
      /** one `{id}` per listed producer */
    | ProducerList(ids: seq<string>)
    | RtpCapabilities(capabilities: Json)

  /**
    How a handler ends. A handler that throws inside its `async` body never
    calls its callback: the client gets no reply. `disconnect` has no callback.
   */
  datatype Outcome = Replied(reply: Reply) | Threw(error: LookupError) | NoReply

  /** Events sent to every connected client (`io.emit`), each with payload `{id}`. */
  datatype Broadcast = NewProducer(id: string) | DeletedProducer(id: string)

  datatype Step = Step(session: Session, outcome: Outcome, broadcasts: seq<Broadcast>)

  const CannotConsume: string := "Cannot consume"

  /** `getProducerTransport`: the producer transport stored for the socket, or an error. */
  function GetProducerTransport(s: Session, socketId: string): (r: Result<Transport, LookupError>)
    ensures r.Success? <==> Has(s.producerTransports, socketId)
    ensures r.Success? ==> Get(s.producerTransports, socketId) == Some(r.value)
    ensures r.Failure? ==> r.error == ProducerTransportNotFound(socketId)
  {
    match Get(s.producerTransports, socketId)
    case Some(t) => Success(t)
    case None => Failure(ProducerTransportNotFound(socketId))
  }

  /** `getConsumerTransport`: the consumer transport stored for the socket, or an error. */
  function GetConsumerTransport(s: Session, socketId: string): (r: Result<Transport, LookupError>)
    ensures r.Success? <==> Has(s.consumerTransports, socketId)
    ensures r.Success? ==> Get(s.consumerTransports, socketId) == Some(r.value)
    ensures r.Failure? ==> r.error == ConsumerTransportNotFound(socketId)
  {
    match Get(s.consumerTransports, socketId)
    case Some(t) => Success(t)
    case None => Failure(ConsumerTransportNotFound(socketId))
  }

  /** `createProducerTransport`: `created` is the transport the engine made for this socket. */
  function OnCreateProducerTransport(s: Session, socketId: string, created: Transport): (r: Step)
    requires ValidSession(s)
    ensures ValidSession(r.session)
    ensures r.outcome == Replied(TransportCreated(created)) && r.broadcasts == []
    ensures GetProducerTransport(r.session, socketId) == Success(created)
    ensures forall other :: other != socketId ==>
      Get(r.session.producerTransports, other) == Get(s.producerTransports, other)
    ensures r.session.consumerTransports == s.consumerTransports
    ensures r.session.producers == s.producers
  {
    Step(s.(producerTransports := Set(s.producerTransports, socketId, created)),
         Replied(TransportCreated(created)), [])
  }

  /** `connectProducerTransport`: the DTLS handshake itself happens inside the engine. */
  function OnConnectProducerTransport(s: Session, socketId: string, transportId: string, dtlsParameters: Json): (r: Step)
    ensures r.session == s && r.broadcasts == []
    ensures r.outcome == Replied(Ack) <==> Has(s.producerTransports, socketId)
    ensures !Has(s.producerTransports, socketId) ==> r.outcome == Threw(ProducerTransportNotFound(socketId))
  {
    match GetProducerTransport(s, socketId)
    case Failure(e) => Step(s, Threw(e), [])
    case Success(_) => Step(s, Replied(Ack), [])
  }

  /** `createConsumerTransport`: `created` is the transport the engine made for this socket. */
  function OnCreateConsumerTransport(s: Session, socketId: string, created: Transport): (r: Step)
    requires ValidSession(s)
    ensures ValidSession(r.session)
    ensures r.outcome == Replied(TransportCreated(created)) && r.broadcasts == []
    ensures GetConsumerTransport(r.session, socketId) == Success(created)
    ensures forall other :: other != socketId ==>
      Get(r.session.consumerTransports, other) == Get(s.consumerTransports, other)
    ensures r.session.producerTransports == s.producerTransports
    ensures r.session.producers == s.producers
  {
    Step(s.(consumerTransports := Set(s.consumerTransports, socketId, created)),
         Replied(TransportCreated(created)), [])
  }

  /** `connectConsumerTransport` */
  function OnConnectConsumerTransport(s: Session, socketId: string, transportId: string, dtlsParameters: Json): (r: Step)
    ensures r.session == s && r.broadcasts == []
    ensures r.outcome == Replied(Ack) <==> Has(s.consumerTransports, socketId)
    ensures !Has(s.consumerTransports, socketId) ==> r.outcome == Threw(ConsumerTransportNotFound(socketId))
  {
    match GetConsumerTransport(s, socketId)
    case Failure(e) => Step(s, Threw(e), [])
    case Success(_) => Step(s, Replied(Ack), [])
  }

  /** `produce`: `producerId` is the id of the producer the engine created on the socket's producer transport. */
  function OnProduce(s: Session, socketId: string, kind: string, rtpParameters: Json, producerId: string): (r: Step)
    requires ValidSession(s)
    ensures ValidSession(r.session)
    ensures !Has(s.producerTransports, socketId) ==>
      r == Step(s, Threw(ProducerTransportNotFound(socketId)), [])
    ensures Has(s.producerTransports, socketId) ==>
      && r.outcome == Replied(Produced(producerId))
      && Get(r.session.producers, socketId) == Some(producerId)
      && (forall other :: other != socketId ==> Get(r.session.producers, other) == Get(s.producers, other))
      && r.session.producerTransports == s.producerTransports
      && r.session.consumerTransports == s.consumerTransports
    ensures Has(s.producerTransports, socketId) ==>
      r.session.producers.order ==
        if Has(s.producers, socketId) then s.producers.order else s.producers.order + [socketId]
    ensures r.outcome.Replied? ==> r.broadcasts == [NewProducer(r.outcome.reply.id)]
  {
    match GetProducerTransport(s, socketId)
    case Failure(e) => Step(s, Threw(e), [])
    case Success(_) =>
      Step(s.(producers := Set(s.producers, socketId, producerId)),
           Replied(Produced(producerId)), [NewProducer(producerId)])
  }

  /**
    `consume`: `canConsume` is the router's verdict for this producer and these
    RTP capabilities; `consumer` is what the engine created when it was asked.
   */
  function OnConsume(s: Session, socketId: string, producerId: string, rtpCapabilities: Json,
                     canConsume: bool, consumer: Consumer): (r: Step)
    ensures r.session == s && r.broadcasts == []
    ensures !canConsume ==> r.outcome == Replied(Refused(CannotConsume))
    ensures canConsume && !Has(s.consumerTransports, socketId) ==>
      r.outcome == Threw(ConsumerTransportNotFound(socketId))
    ensures canConsume && Has(s.consumerTransports, socketId) ==>
      r.outcome == Replied(Consumed(consumer.id, producerId, consumer.kind, consumer.rtpParameters))
  {
    if !canConsume then Step(s, Replied(Refused(CannotConsume)), [])
    else
      match GetConsumerTransport(s, socketId)
      case Failure(e) => Step(s, Threw(e), [])
      case Success(_) =>
        Step(s, Replied(Consumed(consumer.id, producerId, consumer.kind, consumer.rtpParameters)), [])
  }

  /** The `forEach` of `getProducers`: walks the keys in `order` and keeps the value of every key but `socketId`. */
  function ProducerIdsExcept(order: seq<string>, producers: map<string, string>, socketId: string): (ids: seq<string>)
    requires KeysIn(order, producers)
    ensures |ids| <= |order|
    ensures socketId !in order ==> |ids| == |order|
  {
    if order == [] then []
    else
      (if order[0] != socketId then [producers[order[0]]] else [])
      + ProducerIdsExcept(order[1..], producers, socketId)
  }

  /** `getProducers`: the producer ids of every other socket, in the map's iteration order. */
  function OnGetProducers(s: Session, socketId: string): (r: Step)
    requires ValidSession(s)
    ensures r.session == s && r.broadcasts == []
    ensures r.outcome.Replied? && r.outcome.reply.ProducerList?
    ensures |r.outcome.reply.ids| == Size(s.producers) - (if Has(s.producers, socketId) then 1 else 0)
  {
    ProducerListLength(s.producers, socketId);
    Step(s, Replied(ProducerList(ProducerIdsExcept(s.producers.order, s.producers.entries, socketId))), [])
  }

  /** `disconnect`: drops the socket from all three maps, announcing its producer if it had one. */
  function OnDisconnect(s: Session, socketId: string): (r: Step)
    requires ValidSession(s)
    ensures ValidSession(r.session)
    ensures r.outcome == NoReply
    ensures !Has(r.session.producerTransports, socketId)
    ensures !Has(r.session.consumerTransports, socketId)
    ensures !Has(r.session.producers, socketId)
    ensures forall other :: other != socketId ==> SameEntries(s, r.session, other)
    ensures Has(s.producers, socketId) ==> r.broadcasts == [DeletedProducer(s.producers.entries[socketId])]
    ensures !Has(s.producers, socketId) ==> r.broadcasts == []
  {
    var producers := s.producers;
    var broadcasts := if Has(producers, socketId) then [DeletedProducer(producers.entries[socketId])] else [];
    var producers' := if Has(producers, socketId) then Delete(producers, socketId) else producers;
    Step(Session(Delete(s.producerTransports, socketId), Delete(s.consumerTransports, socketId), producers'),
         NoReply, broadcasts)
  }

  /** `getRouterRtpCapabilities`: `capabilities` is the router's static RTP capability set. */
  function OnGetRouterRtpCapabilities(s: Session, capabilities: Json): (r: Step)
    ensures r.session == s && r.broadcasts == []
    ensures r.outcome == Replied(RtpCapabilities(capabilities))
  {
    Step(s, Replied(RtpCapabilities(capabilities)), [])
  }

  /** Two sessions hold the same entries for one socket in all three maps. */
  ghost predicate SameEntries(s: Session, s': Session, socketId: string) {
    && Get(s.producerTransports, socketId) == Get(s'.producerTransports, socketId)
    && Get(s.consumerTransports, socketId) == Get(s'.consumerTransports, socketId)
    && Get(s.producers, socketId) == Get(s'.producers, socketId)
  }

  /** A socket event, carrying the payload and whatever the engine answered while it was handled. */
  datatype Event =
    | CreateProducerTransport(created: Transport)
    | ConnectProducerTransport(transportId: string, dtlsParameters: Json)
    | CreateConsumerTransport(created: Transport)
    | ConnectConsumerTransport(transportId: string, dtlsParameters: Json)
    | Produce(kind: string, rtpParameters: Json, producerId: string)
    | Consume(producerId: string, rtpCapabilities: Json, canConsume: bool, consumer: Consumer)
    | GetProducers
    | GetRouterRtpCapabilities
    | Disconnect

  /** Every socket with a producer still has the producer transport it produced on. */
  ghost predicate ProducersHaveTransports(s: Session) {
    forall id :: Has(s.producers, id) ==> Has(s.producerTransports, id)
  }

  /** The listener the server registered for `e` on the socket `socketId`, all sharing the one `router`. */
  function Handle(router: Router, s: Session, socketId: string, e: Event): (r: Step)
    requires ValidSession(s)
    ensures ValidSession(r.session)
  {
    match e
    case CreateProducerTransport(created) => OnCreateProducerTransport(s, socketId, created)
    case ConnectProducerTransport(transportId, dtls) => OnConnectProducerTransport(s, socketId, transportId, dtls)
    case CreateConsumerTransport(created) => OnCreateConsumerTransport(s, socketId, created)
    case ConnectConsumerTransport(transportId, dtls) => OnConnectConsumerTransport(s, socketId, transportId, dtls)
    case Produce(kind, rtp, producerId) => OnProduce(s, socketId, kind, rtp, producerId)
    case Consume(producerId, caps, canConsume, consumer) =>
      OnConsume(s, socketId, producerId, caps, canConsume, consumer)
    case GetProducers => OnGetProducers(s, socketId)
    case GetRouterRtpCapabilities => OnGetRouterRtpCapabilities(s, router.rtpCapabilities)
    case Disconnect => OnDisconnect(s, socketId)
  }

  /** One event received on one socket. */
  datatype Request = Request(socketId: string, event: Event)

  /** The session after a sequence of requests, with every outcome and every broadcast in order. */
  datatype Trace = Trace(session: Session, outcomes: seq<Outcome>, broadcasts: seq<Broadcast>)

  /** Handles the requests one after the other, each as one atomic step. */
  function Run(router: Router, s: Session, requests: seq<Request>): (t: Trace)
    requires ValidSession(s)
    ensures ValidSession(t.session)
    ensures |t.outcomes| == |requests|
    decreases |requests|
  {
    if requests == [] then Trace(s, [], [])
    else
      var step := Handle(router, s, requests[0].socketId, requests[0].event);
      var rest := Run(router, step.session, requests[1..]);
      Trace(rest.session, [step.outcome] + rest.outcomes, step.broadcasts + rest.broadcasts)
  }

  // ---------------------------------------------------------------------------
  // getProducers against its reference: all values in iteration order, with
  // the caller's own slot removed.

  lemma ValuesOfCons(order: seq<string>, producers: map<string, string>)
    requires order != [] && KeysIn(order, producers)
    ensures ValuesOf(order, producers) == [producers[order[0]]] + ValuesOf(order[1..], producers)
  {
  }

  /** Without the caller in the map, `getProducers` returns every value in iteration order. */
  lemma {:induction false} ProducerIdsExceptAbsentCaller(
    order: seq<string>, producers: map<string, string>, socketId: string)
    requires KeysIn(order, producers)
    requires socketId !in order
    ensures ProducerIdsExcept(order, producers, socketId) == ValuesOf(order, producers)
  {
    if order != [] {
      ProducerIdsExceptAbsentCaller(order[1..], producers, socketId);
      ValuesOfCons(order, producers);
    }
  }

  /** With the caller in the map, `getProducers` returns every value in iteration order but the caller's. */
  lemma {:induction false} ProducerIdsExceptPresentCaller(
    order: seq<string>, producers: map<string, string>, socketId: string)
    requires KeysIn(order, producers)
    requires Distinct(order)
    requires socketId in order
    ensures ProducerIdsExcept(order, producers, socketId)
         == RemoveAt(ValuesOf(order, producers), IndexOf(order, socketId))
  {
    var rest := order[1..];
    assert order == [order[0]] + rest;
    DistinctCons(order[0], rest);
    ValuesOfCons(order, producers);
    if order[0] == socketId {
      ProducerIdsExceptAbsentCaller(rest, producers, socketId);
    } else {
      ProducerIdsExceptPresentCaller(rest, producers, socketId);
      RemoveAtCons(producers[order[0]], ValuesOf(rest, producers), IndexOf(rest, socketId));
    }
  }

  /** `getProducers` lists one id per stored producer, except the caller's own. */
  lemma ProducerListLength(producers: JsMap<string>, socketId: string)
    requires JsMaps.Valid(producers)
    ensures |ProducerIdsExcept(producers.order, producers.entries, socketId)|
         == Size(producers) - (if Has(producers, socketId) then 1 else 0)
  {
    if Has(producers, socketId) {
      ProducerIdsExceptPresentCaller(producers.order, producers.entries, socketId);
    } else {
      ProducerIdsExceptAbsentCaller(producers.order, producers.entries, socketId);
    }
  }
}
