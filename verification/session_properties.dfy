/**
  Properties of the session table that relate several handlers, or the same
  handler on several sessions, and properties of whole request sequences.
 */
module SessionProperties {
  import opened Results
  import opened JsMaps
  import opened Engine
  import opened Signaling

  /** An event received on one socket never changes what the maps hold for another socket. */
  lemma HandleIsolatesSockets(router: Router, s: Session, socketId: string, e: Event, other: string)
    requires ValidSession(s)
    requires other != socketId
    ensures SameEntries(s, Handle(router, s, socketId, e).session, other)
  {
  }

  /** Only the two transport creations, `produce` and `disconnect` write to the maps. */
  lemma ReadOnlyEvents(router: Router, s: Session, socketId: string, e: Event)
    requires ValidSession(s)
    requires !(e.CreateProducerTransport? || e.CreateConsumerTransport? || e.Produce? || e.Disconnect?)
    ensures Handle(router, s, socketId, e).session == s
  {
  }

  /** Only `produce` and `disconnect` broadcast, and each at most once. */
  lemma BroadcastingEvents(router: Router, s: Session, socketId: string, e: Event)
    requires ValidSession(s)
    ensures |Handle(router, s, socketId, e).broadcasts| <= 1
    ensures Handle(router, s, socketId, e).broadcasts != [] ==> e.Produce? || e.Disconnect?
  {
  }

  /** A producer transport appears only through `createProducerTransport` on that very socket. */
  lemma NewProducerTransportNeedsCreate(router: Router, s: Session, socketId: string, e: Event, id: string)
    requires ValidSession(s)
    requires Has(Handle(router, s, socketId, e).session.producerTransports, id)
    requires !Has(s.producerTransports, id)
    ensures id == socketId && e.CreateProducerTransport?
  {
    if id != socketId {
      HandleIsolatesSockets(router, s, socketId, e, id);
    }
  }

  /** Every event keeps "a socket with a producer has a producer transport". */
  lemma HandleKeepsProducersWithTransports(router: Router, s: Session, socketId: string, e: Event)
    requires ValidSession(s)
    requires ProducersHaveTransports(s)
    ensures ProducersHaveTransports(Handle(router, s, socketId, e).session)
  {
    var s' := Handle(router, s, socketId, e).session;
    forall id | Has(s'.producers, id) ensures Has(s'.producerTransports, id) {
      if id != socketId {
        HandleIsolatesSockets(router, s, socketId, e, id);
        assert Get(s.producers, id) == Get(s'.producers, id);
        assert Has(s.producers, id);
        assert Has(s.producerTransports, id);
        assert Get(s.producerTransports, id) == Get(s'.producerTransports, id);
      } else {
        match e
        case CreateProducerTransport(created) =>
          assert GetProducerTransport(s', id).Success?;
        case Produce(kind, rtp, producerId) =>
          assert Has(s.producerTransports, id);
        case Disconnect =>
        case CreateConsumerTransport(created) =>
          assert Has(s.producers, id);
          assert Has(s'.producerTransports, id);
        case _ =>
          assert Has(s.producers, id);
          assert Has(s'.producerTransports, id);
      }
    }
  }

  /** A whole request sequence keeps "a socket with a producer has a producer transport". */
  lemma {:induction false} RunKeepsProducersWithTransports(router: Router, s: Session, requests: seq<Request>)
    requires ValidSession(s)
    requires ProducersHaveTransports(s)
    ensures ProducersHaveTransports(Run(router, s, requests).session)
    decreases |requests|
  {
    if requests != [] {
      var step := Handle(router, s, requests[0].socketId, requests[0].event);
      HandleKeepsProducersWithTransports(router, s, requests[0].socketId, requests[0].event);
      RunKeepsProducersWithTransports(router, step.session, requests[1..]);
    }
  }

  /** Requests from other sockets never change what the maps hold for `socketId`. */
  lemma {:induction false} RunIsolatesSockets(router: Router, s: Session, requests: seq<Request>, socketId: string)
    requires ValidSession(s)
    requires forall i :: 0 <= i < |requests| ==> requests[i].socketId != socketId
    ensures SameEntries(s, Run(router, s, requests).session, socketId)
    decreases |requests|
  {
    if requests != [] {
      var step := Handle(router, s, requests[0].socketId, requests[0].event);
      HandleIsolatesSockets(router, s, requests[0].socketId, requests[0].event, socketId);
      RunIsolatesSockets(router, step.session, requests[1..], socketId);
    }
  }

  /** A producer transport held at the end was either there at the start or created by the socket itself. */
  lemma {:induction false} ProducerTransportComesFromCreate(router: Router, s: Session, requests: seq<Request>, socketId: string)
    requires ValidSession(s)
    requires Has(Run(router, s, requests).session.producerTransports, socketId)
    ensures Has(s.producerTransports, socketId) ||
      exists i :: 0 <= i < |requests| && requests[i].socketId == socketId && requests[i].event.CreateProducerTransport?
    decreases |requests|
  {
    if requests != [] {
      var q := requests[0];
      var step := Handle(router, s, q.socketId, q.event);
      ProducerTransportComesFromCreate(router, step.session, requests[1..], socketId);
      if Has(step.session.producerTransports, socketId) {
        if !Has(s.producerTransports, socketId) {
          NewProducerTransportNeedsCreate(router, s, q.socketId, q.event, socketId);
          assert requests[0].socketId == socketId && requests[0].event.CreateProducerTransport?;
        }
      } else {
        var i :| 0 <= i < |requests[1..]| && requests[1..][i].socketId == socketId
          && requests[1..][i].event.CreateProducerTransport?;
        assert requests[i + 1] == requests[1..][i];
      }
    }
  }

  /** Every `getRouterRtpCapabilities` in a request sequence is answered with the one router's capabilities. */
  lemma {:induction false} RunCapabilitiesAreFixed(router: Router, s: Session, requests: seq<Request>)
    requires ValidSession(s)
    ensures forall i :: 0 <= i < |requests| && requests[i].event.GetRouterRtpCapabilities? ==>
      Run(router, s, requests).outcomes[i] == Replied(RtpCapabilities(router.rtpCapabilities))
    decreases |requests|
  {
    if requests != [] {
      var step := Handle(router, s, requests[0].socketId, requests[0].event);
      var rest := Run(router, step.session, requests[1..]);
      RunCapabilitiesAreFixed(router, step.session, requests[1..]);
      forall i | 0 <= i < |requests| && requests[i].event.GetRouterRtpCapabilities?
        ensures Run(router, s, requests).outcomes[i] == Replied(RtpCapabilities(router.rtpCapabilities))
      {
        if i > 0 {
          assert requests[i] == requests[1..][i - 1];
          assert Run(router, s, requests).outcomes[i] == rest.outcomes[i - 1];
        }
      }
    }
  }

  /**
    The implicit state machine: a socket that had no producer transport (as
    every socket at start-up) and ends up with a producer created a producer
    transport on the way.
   */
  lemma ProducerNeedsCreatedTransport(router: Router, s: Session, requests: seq<Request>, socketId: string)
    requires ValidSession(s)
    requires ProducersHaveTransports(s)
    requires !Has(s.producerTransports, socketId)
    requires Has(Run(router, s, requests).session.producers, socketId)
    ensures exists i :: (0 <= i < |requests| && requests[i].socketId == socketId
      && requests[i].event.CreateProducerTransport?)
  {
    RunKeepsProducersWithTransports(router, s, requests);
    ProducerTransportComesFromCreate(router, s, requests, socketId);
  }

  /** The maps the server starts with satisfy the invariant of the session table. */
  lemma InitialHasNoProducers()
    ensures ProducersHaveTransports(Initial())
  {
  }

  // ---------------------------------------------------------------------------
  // Lookups and transport creation

  /** Creating a producer transport is what makes the later lookup, and so `connectProducerTransport`, succeed. */
  lemma CreateThenConnectProducerTransport(s: Session, socketId: string, created: Transport,
                                           transportId: string, dtlsParameters: Json)
    requires ValidSession(s)
    ensures var s' := OnCreateProducerTransport(s, socketId, created).session;
      && GetProducerTransport(s', socketId) == Success(created)
      && OnConnectProducerTransport(s', socketId, transportId, dtlsParameters).outcome == Replied(Ack)
  {
  }

  /** The same for the consumer side. */
  lemma CreateThenConnectConsumerTransport(s: Session, socketId: string, created: Transport,
                                           transportId: string, dtlsParameters: Json)
    requires ValidSession(s)
    ensures var s' := OnCreateConsumerTransport(s, socketId, created).session;
      && GetConsumerTransport(s', socketId) == Success(created)
      && OnConnectConsumerTransport(s', socketId, transportId, dtlsParameters).outcome == Replied(Ack)
  {
  }

  // ---------------------------------------------------------------------------
  // consume

  /** A refused `consume` replies the same whatever the maps hold: no transport is looked up. */
  lemma ConsumeRefusalIgnoresSession(s1: Session, s2: Session, socket1: string, socket2: string,
                                     producerId: string, rtpCapabilities: Json, consumer: Consumer)
    ensures OnConsume(s1, socket1, producerId, rtpCapabilities, false, consumer).outcome
         == OnConsume(s2, socket2, producerId, rtpCapabilities, false, consumer).outcome
  {
  }

  // ---------------------------------------------------------------------------
  // getProducers

  /** The ids `getProducers` collects are exactly the values stored under keys other than the caller's. */
  lemma {:induction false} ProducerIdsExceptMembership(
    order: seq<string>, producers: map<string, string>, socketId: string, v: string)
    requires KeysIn(order, producers)
    ensures v in ProducerIdsExcept(order, producers, socketId) <==>
      exists i :: 0 <= i < |order| && order[i] != socketId && producers[order[i]] == v
  {
    if order != [] {
      var rest := order[1..];
      ProducerIdsExceptMembership(rest, producers, socketId, v);
      if exists i :: 0 <= i < |order| && order[i] != socketId && producers[order[i]] == v {
        var i :| 0 <= i < |order| && order[i] != socketId && producers[order[i]] == v;
        if i > 0 { assert rest[i - 1] == order[i]; }
      }
      if exists i :: 0 <= i < |rest| && rest[i] != socketId && producers[rest[i]] == v {
        var i :| 0 <= i < |rest| && rest[i] != socketId && producers[rest[i]] == v;
        assert order[i + 1] == rest[i];
      }
    }
  }

  /** `getProducers` lists a producer id exactly when some other socket holds it. */
  lemma GetProducersListsOthers(s: Session, socketId: string, v: string)
    requires ValidSession(s)
    ensures v in OnGetProducers(s, socketId).outcome.reply.ids <==>
      exists other :: other != socketId && Get(s.producers, other) == Some(v)
  {
    var m := s.producers;
    ProducerIdsExceptMembership(m.order, m.entries, socketId, v);
    if exists other :: other != socketId && Get(m, other) == Some(v) {
      var other :| other != socketId && Get(m, other) == Some(v);
      var i :| 0 <= i < |m.order| && m.order[i] == other;
      assert m.order[i] != socketId && m.entries[m.order[i]] == v;
    }
    if exists i :: 0 <= i < |m.order| && m.order[i] != socketId && m.entries[m.order[i]] == v {
      var i :| 0 <= i < |m.order| && m.order[i] != socketId && m.entries[m.order[i]] == v;
      assert Get(m, m.order[i]) == Some(v);
    }
  }

  /** The engine never hands out the same producer id twice. */
  ghost predicate UniqueProducerIds(s: Session) {
    forall a, b :: Has(s.producers, a) && Has(s.producers, b) && a != b ==>
      s.producers.entries[a] != s.producers.entries[b]
  }

  /** With unique producer ids, the caller never sees its own producer in `getProducers`. */
  lemma GetProducersOmitsCaller(s: Session, socketId: string)
    requires ValidSession(s)
    requires UniqueProducerIds(s)
    requires Has(s.producers, socketId)
    ensures s.producers.entries[socketId] !in OnGetProducers(s, socketId).outcome.reply.ids
  {
    GetProducersListsOthers(s, socketId, s.producers.entries[socketId]);
  }

  /** `getProducers` is the map's values in iteration order with the caller's own slot cut out. */
  lemma GetProducersIsIterationWithoutCaller(s: Session, socketId: string)
    requires ValidSession(s)
    ensures Has(s.producers, socketId) ==>
      OnGetProducers(s, socketId).outcome.reply.ids
        == RemoveAt(Values(s.producers), IndexOf(s.producers.order, socketId))
    ensures !Has(s.producers, socketId) ==>
      OnGetProducers(s, socketId).outcome.reply.ids == Values(s.producers)
  {
    var m := s.producers;
    if Has(m, socketId) {
      ProducerIdsExceptPresentCaller(m.order, m.entries, socketId);
    } else {
      ProducerIdsExceptAbsentCaller(m.order, m.entries, socketId);
    }
  }

  // ---------------------------------------------------------------------------
  // produce and disconnect, seen by the other sockets

  /** After a successful `produce`, every other socket finds the new producer id in `getProducers`. */
  lemma ProducedIsListedToOthers(s: Session, socketId: string, kind: string, rtpParameters: Json,
                                 producerId: string, other: string)
    requires ValidSession(s)
    requires Has(s.producerTransports, socketId)
    requires other != socketId
    ensures var s' := OnProduce(s, socketId, kind, rtpParameters, producerId).session;
      producerId in OnGetProducers(s', other).outcome.reply.ids
  {
    var s' := OnProduce(s, socketId, kind, rtpParameters, producerId).session;
    GetProducersListsOthers(s', other, producerId);
    assert Get(s'.producers, socketId) == Some(producerId);
  }

  /**
    A socket's first `produce` puts its id at the end of every other socket's
    `getProducers` list, after the ids already there, in their old order.
   */
  lemma ProduceAppendsToOthersList(s: Session, socketId: string, kind: string, rtpParameters: Json,
                                   producerId: string, other: string)
    requires ValidSession(s)
    requires Has(s.producerTransports, socketId)
    requires !Has(s.producers, socketId)
    requires other != socketId
    ensures var s' := OnProduce(s, socketId, kind, rtpParameters, producerId).session;
      OnGetProducers(s', other).outcome.reply.ids == OnGetProducers(s, other).outcome.reply.ids + [producerId]
  {
    var s' := OnProduce(s, socketId, kind, rtpParameters, producerId).session;
    var m, m' := s.producers, s'.producers;
    assert m'.order == m.order + [socketId];
    assert m'.entries == m.entries[socketId := producerId];
    assert KeysIn(m.order, m'.entries);
    ProducerIdsExceptFrame(m.order, m'.entries, socketId, other);
    assert m'.entries - {socketId} == m.entries;
    ProducerIdsExceptAppend(m.order, [socketId], m'.entries, other);
    assert ProducerIdsExcept([socketId], m'.entries, other) == [producerId];
  }

  /** A second `disconnect` of the same socket changes nothing and announces nothing. */
  lemma DisconnectIsIdempotent(s: Session, socketId: string)
    requires ValidSession(s)
    ensures var first := OnDisconnect(s, socketId);
      var second := OnDisconnect(first.session, socketId);
      second.session == first.session && second.broadcasts == [] && second.outcome == NoReply
  {
  }

  /** The walk of `getProducers` reads only the entries of the keys it visits. */
  lemma {:induction false} ProducerIdsExceptFrame(
    order: seq<string>, producers: map<string, string>, gone: string, other: string)
    requires KeysIn(order, producers)
    requires gone !in order
    ensures KeysIn(order, producers - {gone})
    ensures ProducerIdsExcept(order, producers - {gone}, other) == ProducerIdsExcept(order, producers, other)
  {
    if order != [] {
      ProducerIdsExceptFrame(order[1..], producers, gone, other);
    }
  }

  /** Keys that all have entries still do when laid end to end. */
  lemma KeysInAppend(a: seq<string>, b: seq<string>, producers: map<string, string>)
    requires KeysIn(a, producers) && KeysIn(b, producers)
    ensures KeysIn(a + b, producers)
  {
    forall j | 0 <= j < |a + b| ensures (a + b)[j] in producers {
      if j < |a| {
        assert (a + b)[j] == a[j];
      } else {
        assert (a + b)[j] == b[j - |a|];
      }
    }
  }

  /** Every stretch of keys that all have entries has only keys with entries. */
  lemma KeysInSlice(order: seq<string>, producers: map<string, string>, i: nat, j: nat)
    requires KeysIn(order, producers)
    requires i <= j <= |order|
    ensures KeysIn(order[i..j], producers)
  {
    forall k | 0 <= k < j - i ensures order[i..j][k] in producers {
      assert order[i..j][k] == order[i + k];
    }
  }

  /** The walk of `getProducers` over two stretches of keys is the walk of the first, then of the second. */
  lemma {:induction false} ProducerIdsExceptAppend(
    a: seq<string>, b: seq<string>, producers: map<string, string>, other: string)
    requires KeysIn(a, producers) && KeysIn(b, producers)
    ensures KeysIn(a + b, producers)
    ensures ProducerIdsExcept(a + b, producers, other)
         == ProducerIdsExcept(a, producers, other) + ProducerIdsExcept(b, producers, other)
  {
    KeysInAppend(a, b, producers);
    if a == [] {
      assert a + b == b;
    } else {
      var t := a[1..];
      KeysInSlice(a, producers, 1, |a|);
      assert a[1..|a|] == t;
      assert (a + b)[1..] == t + b;
      assert (a + b)[0] == a[0];
      ProducerIdsExceptAppend(t, b, producers, other);
      var head := if a[0] != other then [producers[a[0]]] else [];
      calc {
        ProducerIdsExcept(a + b, producers, other);
        head + ProducerIdsExcept(t + b, producers, other);
        head + (ProducerIdsExcept(t, producers, other) + ProducerIdsExcept(b, producers, other));
        (head + ProducerIdsExcept(t, producers, other)) + ProducerIdsExcept(b, producers, other);
        ProducerIdsExcept(a, producers, other) + ProducerIdsExcept(b, producers, other);
      }
    }
  }

  /** Removing the element between two stretches leaves the two stretches. */
  lemma RemoveAtMiddle(a: seq<string>, x: string, b: seq<string>)
    ensures |a| < |a + [x] + b|
    ensures RemoveAt(a + [x] + b, |a|) == a + b
  {
    var s := a + [x] + b;
    assert s[..|a|] == a;
    assert s[|a| + 1..] == b;
  }

  /** A repetition-free sequence splits at `gone` into the keys before it and those after it. */
  lemma SplitAtKey(order: seq<string>, gone: string)
    requires Distinct(order)
    requires gone in order
    ensures var i := IndexOf(order, gone);
      && order == order[..i] + [gone] + order[i + 1..]
      && gone !in order[..i] && gone !in order[i + 1..]
      && Without(order, gone) == order[..i] + order[i + 1..]
  {
    var i := IndexOf(order, gone);
    var pre, post := order[..i], order[i + 1..];
    assert order == pre + [gone] + post;
    forall j | 0 <= j < |post| ensures post[j] != gone {
      assert post[j] == order[i + 1 + j];
    }
    WithoutIsRemoveAt(order, gone);
  }

  /** Dropping the middle key `gone` and its entry drops exactly its id from the walk. */
  lemma ProducerIdsExceptMiddle(
    pre: seq<string>, gone: string, post: seq<string>, producers: map<string, string>, other: string)
    requires KeysIn(pre, producers) && KeysIn(post, producers) && gone in producers
    requires gone !in pre && gone !in post && gone != other
    ensures KeysIn(pre + [gone] + post, producers)
    ensures KeysIn(pre + post, producers - {gone})
    ensures |ProducerIdsExcept(pre, producers, other)| < |ProducerIdsExcept(pre + [gone] + post, producers, other)|
    ensures ProducerIdsExcept(pre + post, producers - {gone}, other)
         == RemoveAt(ProducerIdsExcept(pre + [gone] + post, producers, other), |ProducerIdsExcept(pre, producers, other)|)
  {
    var kept := producers - {gone};
    ProducerIdsExceptFrame(pre, producers, gone, other);
    ProducerIdsExceptFrame(post, producers, gone, other);
    ProducerIdsExceptAppend(pre, post, kept, other);
    assert KeysIn([gone], producers);
    ProducerIdsExceptAppend(pre, [gone], producers, other);
    ProducerIdsExceptAppend(pre + [gone], post, producers, other);
    assert ProducerIdsExcept([gone], producers, other) == [producers[gone]];
    RemoveAtMiddle(ProducerIdsExcept(pre, producers, other), producers[gone], ProducerIdsExcept(post, producers, other));
  }

  /**
    Dropping the key `gone` and its entry removes exactly one id from the walk:
    the one at `gone`'s slot, which comes after the ids of the keys before it.
   */
  lemma ProducerIdsExceptWithout(
    order: seq<string>, producers: map<string, string>, gone: string, other: string)
    requires KeysIn(order, producers)
    requires Distinct(order)
    requires gone in order
    requires gone != other
    ensures KeysIn(order[..IndexOf(order, gone)], producers)
    ensures KeysIn(Without(order, gone), producers - {gone})
    ensures var slot := |ProducerIdsExcept(order[..IndexOf(order, gone)], producers, other)|;
      && slot < |ProducerIdsExcept(order, producers, other)|
      && ProducerIdsExcept(Without(order, gone), producers - {gone}, other)
         == RemoveAt(ProducerIdsExcept(order, producers, other), slot)
  {
    var i := IndexOf(order, gone);
    SplitAtKey(order, gone);
    KeysInSlice(order, producers, 0, i);
    assert order[0..i] == order[..i];
    KeysInSlice(order, producers, i + 1, |order|);
    assert order[i + 1..|order|] == order[i + 1..];
    ProducerIdsExceptMiddle(order[..i], gone, order[i + 1..], producers, other);
  }

  /**
    When a producing socket disconnects, every other socket's `getProducers`
    list loses exactly the departed producer's slot; the rest keep their order.
   */
  lemma DisconnectUnlistsProducer(s: Session, socketId: string, other: string)
    requires ValidSession(s)
    requires Has(s.producers, socketId)
    requires other != socketId
    ensures var m := s.producers;
      var before := OnGetProducers(s, other).outcome.reply.ids;
      var after := OnGetProducers(OnDisconnect(s, socketId).session, other).outcome.reply.ids;
      && KeysIn(m.order[..IndexOf(m.order, socketId)], m.entries)
      && var slot := |ProducerIdsExcept(m.order[..IndexOf(m.order, socketId)], m.entries, other)|;
      && slot < |before|
      && after == RemoveAt(before, slot)
      && |after| == |before| - 1
  {
    var m := s.producers;
    ProducerIdsExceptWithout(m.order, m.entries, socketId, other);
  }

  /** With unique producer ids, the departed producer's id no longer appears in anyone's `getProducers`. */
  lemma DisconnectForgetsProducerId(s: Session, socketId: string, other: string)
    requires ValidSession(s)
    requires UniqueProducerIds(s)
    requires Has(s.producers, socketId)
    requires other != socketId
    ensures s.producers.entries[socketId] !in
      OnGetProducers(OnDisconnect(s, socketId).session, other).outcome.reply.ids
  {
    var s' := OnDisconnect(s, socketId).session;
    GetProducersListsOthers(s', other, s.producers.entries[socketId]);
  }

  /**
    Two sockets: "a" creates a producer transport and produces; "b" then lists
    "a"'s producer; "a" disconnects, which announces the producer's removal,
    and "b"'s next listing is empty.
   */
  lemma TwoSocketScenario(t: Transport)
    ensures var s0 := Initial();
      var s1 := OnCreateProducerTransport(s0, "a", t);
      var s2 := OnProduce(s1.session, "a", "audio", "rtp", "p1");
      var s3 := OnGetProducers(s2.session, "b");
      var s4 := OnDisconnect(s3.session, "a");
      var s5 := OnGetProducers(s4.session, "b");
      && s2.outcome == Replied(Produced("p1")) && s2.broadcasts == [NewProducer("p1")]
      && s3.outcome == Replied(ProducerList(["p1"]))
      && s4.broadcasts == [DeletedProducer("p1")]
      && s5.outcome == Replied(ProducerList([]))
  {
    var s0 := Initial();
    var s1 := OnCreateProducerTransport(s0, "a", t);
    var s2 := OnProduce(s1.session, "a", "audio", "rtp", "p1");
    assert s2.session.producers.order == ["a"];
    var s3 := OnGetProducers(s2.session, "b");
    var s4 := OnDisconnect(s3.session, "a");
    assert s4.session.producers.order == [];
  }
}
