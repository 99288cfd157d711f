# Session table of a mediasoup signaling server, in Dafny

This project models the core of the signaling server of an audio-room
application built on mediasoup, plus two small pure pieces of the code around
it.

* **Session table** (`signaling/src/server.ts`). The server keeps three
  process-wide JavaScript `Map`s keyed by socket id: producer transports,
  consumer transports and producer ids. Each socket event
  (`createProducerTransport`, `connectProducerTransport`,
  `createConsumerTransport`, `connectConsumerTransport`, `produce`, `consume`,
  `getProducers`, `getRouterRtpCapabilities`, `disconnect`) is one pure
  function `Signaling.On…` from a `Session` to a `Step`: the new session, the
  outcome (a reply through the callback, a thrown lookup error, or no reply)
  and the broadcasts sent to every client (`newProducer`, `deletedProducer`).
  `Signaling.Handle` dispatches one `Event`; `Signaling.Run` folds a sequence
  of requests.
* **JavaScript `Map`** (`JsMaps`). `getProducers` walks the producers map with
  `forEach`, so its reply depends on insertion order. `JsMap<V>` is a
  key/value table plus the insertion order. `Set` keeps an existing key in
  place and appends a new key. `Delete` removes the key.
* **DTO projections** (`Interfaces`, `Dto`): `RoomDto.from` and
  `ProducerUserDto.from`.
* **Default language** (`Translation`): `getDefaultLanguage` takes the first
  `-`-separated piece of the browser's language tag and keeps it if it is
  `en` or `fr`, else answers `en`. `navigator.language` is a parameter.
  `split` is modelled in full, with its round trip through `join`.

The media engine is not modelled. What it returns while an event is handled
is part of the event: the transport it created, the id of the new producer,
the router's `canConsume` verdict and the consumer it created. The router's
RTP capability set is fixed once the router exists (signaling/src/server.ts:76),
so it is one `Router` value given to `Handle` and `Run`. A lookup that fails inside an `async` handler throws. The
callback is then never called, and the model records this as
`Outcome.Threw`. Each handler is one atomic step.

Every handler that writes a map requires `ValidSession`. This is the
representation invariant of `JsMap`: each key appears once in the order, and
the order holds exactly the stored keys. Every handler keeps it. `Initial`
establishes it.

### Behaviour of server.ts worth knowing

* The server state is the three maps and nothing else. `server.ts` keeps no
  rooms, passwords, usernames or room ids. `Room`, `ProducerUser` and the
  DTOs are declared in other files, and `server.ts` does not use them.
* `produce` replies with `{id}`, the new producer's id. The `newProducer`
  broadcast carries the same `{id}`.
* `getProducers` always replies. It reads the producers map and has no
  failing branch.
* `consume` is decided by the router's `canConsume` verdict and by whether
  the caller has a consumer transport. A socket may consume its own producer.
* Apart from engine failures, which are left out, the only failure
  `server.ts` raises itself is a lookup that finds no transport. Whether a
  transport was connected before `produce` or `consume` is not checked.
* A missing transport makes the lookup throw. The callback is then never
  called, so the client gets no reply.
* `disconnect` removes the socket's map entries. The transports themselves
  are not closed.

## Model

| member | source | states |
|---|---|---|
| JsMaps.Empty | signaling/src/server.ts:53-55 | a new `Map` is valid and holds no key |
| JsMaps.Size | signaling/src/server.ts:152 | `size` is the number of keys `forEach` visits |
| JsMaps.Has | signaling/src/server.ts:161 | `has(k)` holds exactly for the keys in the iteration order |
| JsMaps.Get | signaling/src/server.ts:161-162 | `get(k)` is undefined exactly when `has(k)` is false, and otherwise the stored value |
| JsMaps.Set | signaling/src/server.ts:128 | after `set(k, v)`, `k` maps to `v` and every other key keeps its value; an existing key keeps its position in iteration order, a new one goes last; validity is kept |
| JsMaps.Delete | signaling/src/server.ts:164-167 | after `delete(k)`, `k` is absent and every other key keeps its value; the remaining keys keep their iteration order, with only `k`'s position removed; deleting an absent key changes nothing; validity is kept |
| JsMaps.WithoutIsRemoveAt | signaling/src/server.ts:164-167 | in a repetition-free key order, dropping a key removes exactly its position |
| JsMaps.DeleteSize | signaling/src/server.ts:164 | `delete` lowers `size` by one exactly when the key was present |
| Signaling.Initial | signaling/src/server.ts:53-55 | the server starts with three empty maps |
| Signaling.GetProducerTransport | signaling/src/server.ts:57-63 | succeeds exactly when a producer transport is stored for the socket, returning that transport; otherwise fails with "producer transport not found" for that socket |
| Signaling.GetConsumerTransport | signaling/src/server.ts:65-71 | the same on the consumer-transport map |
| Signaling.OnCreateProducerTransport | signaling/src/server.ts:80-96 | stores the new transport under the caller, replacing any earlier one, and replies with it; other sockets' entries, the consumer map and the producers map are unchanged; nothing is broadcast |
| Signaling.OnConnectProducerTransport | signaling/src/server.ts:98-101 | acknowledges exactly when the caller has a producer transport, otherwise throws "not found"; no map changes either way |
| Signaling.OnCreateConsumerTransport | signaling/src/server.ts:103-119 | stores the new transport under the caller in the consumer map and replies with it; the producer-transport and producers maps are unchanged |
| Signaling.OnConnectConsumerTransport | signaling/src/server.ts:121-124 | acknowledges exactly when the caller has a consumer transport, otherwise throws "not found"; no map changes |
| Signaling.OnProduce | signaling/src/server.ts:126-134 | without a producer transport it throws and changes nothing; otherwise `producers[caller]` becomes the new id, every other entry and both transport maps are unchanged, a first `produce` puts the caller's key last in iteration order and a repeat keeps its slot, and the one `newProducer` broadcast carries the same id as the reply |
| Signaling.OnConsume | signaling/src/server.ts:136-148 | a negative `canConsume` replies `{error: 'Cannot consume'}`; otherwise a missing consumer transport throws, and a present one replies with the consumer whose `producerId` is the requested id; no map changes and no broadcast |
| Signaling.ProducerIdsExcept | signaling/src/server.ts:151-156 | the walk keeps at most one id per key, and one per key when the caller is not among them |
| Signaling.OnGetProducers | signaling/src/server.ts:150-158 | replies with a list whose length is the producers map's size, minus one if the caller has an entry; no map changes |
| Signaling.OnDisconnect | signaling/src/server.ts:160-168 | the caller is absent from all three maps afterwards, every other socket's entries are unchanged, and `deletedProducer` with the caller's producer id is broadcast if and only if the caller had a producer |
| Signaling.OnGetRouterRtpCapabilities | signaling/src/server.ts:170-173 | replies with the router's capabilities and changes nothing |
| Signaling.Handle | signaling/src/server.ts:78-174 | every event keeps the session valid |
| Signaling.Run | signaling/src/server.ts:78-174 | a request sequence keeps the session valid and yields one outcome per request |
| Signaling.ProducerIdsExceptAbsentCaller | signaling/src/server.ts:150-157 | when the caller has no producer, `getProducers` lists every stored id in iteration order |
| Signaling.ProducerIdsExceptPresentCaller | signaling/src/server.ts:150-157 | when the caller has a producer, `getProducers` lists every stored id in iteration order except the one at the caller's position |
| Signaling.ProducerListLength | signaling/src/server.ts:150-157 | the list has one id per stored producer, except the caller's |
| SessionProperties.HandleIsolatesSockets | signaling/src/server.ts:78-174 | an event on one socket never changes any map entry of another socket |
| SessionProperties.ReadOnlyEvents | signaling/src/server.ts:98-173 | the two connects, `consume`, `getProducers` and `getRouterRtpCapabilities` leave the maps unchanged |
| SessionProperties.BroadcastingEvents | signaling/src/server.ts:126-168 | an event broadcasts at most once, and only `produce` and `disconnect` broadcast |
| SessionProperties.NewProducerTransportNeedsCreate | signaling/src/server.ts:88 | a producer transport appears only through `createProducerTransport` on that same socket |
| SessionProperties.HandleKeepsProducersWithTransports | signaling/src/server.ts:126-168 | every event keeps "each socket with a producer also has a producer transport" |
| SessionProperties.RunKeepsProducersWithTransports | signaling/src/server.ts:126-168 | any request sequence keeps that invariant |
| SessionProperties.RunIsolatesSockets | signaling/src/server.ts:78-174 | requests from other sockets never change a socket's entries |
| SessionProperties.RunCapabilitiesAreFixed | signaling/src/server.ts:170-173 | every `getRouterRtpCapabilities` in a request sequence is answered with the same capability set, the one router's |
| SessionProperties.ProducerTransportComesFromCreate | signaling/src/server.ts:88 | a producer transport held after a request sequence was held at the start or created by that socket during the sequence |
| SessionProperties.ProducerNeedsCreatedTransport | signaling/src/server.ts:126-128 | a socket that had no producer transport and ends up with a producer sent `createProducerTransport` at some point in between |
| SessionProperties.InitialHasNoProducers | signaling/src/server.ts:53-55 | the initial maps satisfy that invariant |
| SessionProperties.CreateThenConnectProducerTransport | signaling/src/server.ts:88-100 | after `createProducerTransport` the lookup returns the new transport and `connectProducerTransport` acknowledges |
| SessionProperties.CreateThenConnectConsumerTransport | signaling/src/server.ts:111-123 | the same for the consumer transport |
| SessionProperties.ConsumeRefusalIgnoresSession | signaling/src/server.ts:137-140 | when `canConsume` is false the reply is the same whatever the maps hold and whoever asks: no transport is looked up |
| SessionProperties.ProducerIdsExceptMembership | signaling/src/server.ts:151-156 | an id is collected exactly when some visited key other than the caller's maps to it |
| SessionProperties.GetProducersListsOthers | signaling/src/server.ts:150-157 | `getProducers` lists an id if and only if some other socket holds it as its producer |
| SessionProperties.GetProducersOmitsCaller | signaling/src/server.ts:153 | with unique producer ids, the caller's own producer id is never listed |
| SessionProperties.GetProducersIsIterationWithoutCaller | signaling/src/server.ts:150-157 | the list is the map's values in iteration order, with the caller's slot removed when it has one |
| SessionProperties.ProducedIsListedToOthers | signaling/src/server.ts:128-157 | after a successful `produce`, every other socket finds the new id in `getProducers` |
| SessionProperties.ProduceAppendsToOthersList | signaling/src/server.ts:128-157 | after a socket's first `produce`, every other socket's `getProducers` list is its old list with the new id appended at the end |
| SessionProperties.DisconnectIsIdempotent | signaling/src/server.ts:160-168 | a second `disconnect` of the same socket changes nothing and broadcasts nothing |
| SessionProperties.ProducerIdsExceptWithout | signaling/src/server.ts:151-164 | deleting a key other than the caller's removes exactly one id from the `forEach` walk: the one at that key's slot, with every other id in its old order |
| SessionProperties.DisconnectUnlistsProducer | signaling/src/server.ts:150-168 | when a producing socket disconnects, every other socket's `getProducers` list is its old list with the departed producer's slot removed, so one shorter, and the rest in the same order |
| SessionProperties.DisconnectForgetsProducerId | signaling/src/server.ts:150-168 | with unique ids, no other socket's `getProducers` list contains the departed producer's id |
| SessionProperties.TwoSocketScenario | signaling/src/server.ts:80-168 | socket a creates a transport and produces `p1`; socket b lists `["p1"]`; a disconnects and `deletedProducer p1` is broadcast; b then lists `[]` |
| Dto.RoomDtoFrom | signaling/src/interface/dto/RoomDto.ts:14-16 | the DTO has the room's id, name and password |
| Dto.RoomDtoFromForgetsUsers | signaling/src/interface/dto/RoomDto.ts:3-16 | two rooms give equal DTOs if and only if they agree on id, name and password; the members are not carried over |
| Dto.RoomDtoFromRoundTrip | signaling/src/interface/dto/RoomDto.ts:8-16 | a DTO built into a room with any members projects back to itself |
| Dto.ProducerUserDtoFrom | signaling/src/interface/dto/ProducerUserDto.ts:7-12 | the DTO has the user's id and username, absent ones staying absent |
| Dto.ProducerUserDtoFromForgetsTransports | signaling/src/interface/dto/ProducerUserDto.ts:3-12 | two users give equal DTOs if and only if they agree on id and username, whatever their transports |
| Dto.ProducerUserDtoFromRoundTrip | signaling/src/interface/dto/ProducerUserDto.ts:7-12 | a DTO built into a user with any transports projects back to itself |
| Translation.Split | frontend/src/app/services/translation/translation.service.ts:13 | `split` returns at least one piece and no piece contains the separator |
| Translation.JoinSplit | frontend/src/app/services/translation/translation.service.ts:13 | joining the pieces of a split with the separator gives the original tag back |
| Translation.SplitJoin | frontend/src/app/services/translation/translation.service.ts:13 | splitting the join of separator-free pieces gives the pieces back |
| Translation.Prefix | frontend/src/app/services/translation/translation.service.ts:13 | `split('-')[0]` is a prefix of the tag without `-`, followed by `-` or by the end of the tag |
| Translation.PrefixIsUnique | frontend/src/app/services/translation/translation.service.ts:13 | those three properties determine `split('-')[0]` |
| Translation.DefaultLanguage | frontend/src/app/services/translation/translation.service.ts:12-15 | the result is always `en` or `fr` |
| Translation.DefaultLanguageFollowsPrefix | frontend/src/app/services/translation/translation.service.ts:13-14 | a prefix of `en` or `fr` is returned as it is; any other prefix gives `en` |
| Translation.DefaultLanguageIsFrenchIff | frontend/src/app/services/translation/translation.service.ts:13-14 | the result is `fr` exactly for the tag `fr` and tags starting `fr-`, and `en` for every other tag |
| Translation.DefaultLanguageOfPlainTag | frontend/src/app/services/translation/translation.service.ts:13 | a tag without `-` is judged as a whole |
| Translation.DefaultLanguageIsIdempotent | frontend/src/app/services/translation/translation.service.ts:13-14 | applying the rule to its own result returns that result |
| Translation.DefaultLanguageExamples | frontend/src/app/services/translation/translation.service.ts:12-15 | `fr-FR` gives `fr`, `en` gives `en`, `de-DE` and the empty tag give `en` |

## Left out

- TLS certificate loading, Express, CORS, the socket.io server and `listen` (signaling/src/server.ts:13-32, 178-180): process start-up and I/O.
- Creating the mediasoup worker and router, and everything inside the engine (signaling/src/server.ts:35-50, 74-76, 81-86): the engine is a foreign library. Its answers are event parameters, and `canConsume` is a boolean parameter.
- Engine failures are left out. Any engine call can reject (signaling/src/server.ts:81, 99, 104, 122, 127 and 141). One example is `createWebRtcTransport` running out of the worker's ports. `disconnect` never closes transports, so it frees no ports. Only the missing-transport errors thrown by the two lookups are modelled. The DTLS state of a transport lives inside the engine.
- Requests are assumed well-formed. Each carries a payload of the shape its listener declares, followed by an acknowledgement function. socket.io passes an acknowledgement only when the client asks for one. When it is missing or shifted, `callback(...)` throws a `TypeError` in signaling/src/server.ts: at line 90 after the map write at line 88, at line 133 after the write and broadcast at lines 128-132, and at lines 157 and 172. The model answers `Replied` in these cases.
- The `transportId` field of the connect payloads is carried but unused, as in `server.ts`. The lookup goes by socket id.
- The interleaving of concurrent handlers across `await` is left out. Each handler is one atomic step. That hides one interleaving. Suppose a `disconnect` arrives while `produce` is awaiting the engine (signaling/src/server.ts:127). Then `producers.set` (line 128) runs after the cleanup. The result is a producer entry for a socket with no producer transport. `getProducers` keeps listing that entry, and no `deletedProducer` is ever sent for it. `ProducersHaveTransports` excludes exactly this state. `HandleKeepsProducersWithTransports` and `RunKeepsProducersWithTransports` hold only because handlers are atomic. `ProducerNeedsCreatedTransport` is proved through them, but its statement holds under any interleaving. The lookup at line 127 runs before the `await`, and a socket's producer transport is written only at line 88, in that socket's own `createProducerTransport` listener.
- Signaling.Run: `Outcome.Threw` models only a runtime where an unhandled promise rejection is not fatal. The lookups at signaling/src/server.ts:99, 122, 127 and 141 throw inside `async` listeners, and nothing catches the rejection. Under Node's default since version 15 such a rejection ends the process and all three maps are lost. `Run` instead keeps handling later requests with the maps unchanged.
- `createConsumerTransport` calls its callback twice, as `callback(callback(…))`. socket.io delivers only the first acknowledgement, so the model replies once with the transport.
- signaling/server.js is left out: it is a raw WebSocket relay that only forwards messages.
- The browser services (WebRTC, signaling socket, audio, notifications) and the Angular components, guards, routes and configuration are left out: they are UI, browser APIs and framework wiring.
- `TranslationService.switchLanguage` is left out: it only calls into the translation library.
- UserSocket.ts and TransportParameters.ts hold types only, with no logic.
- A room registry, password admission and room deletion are left out: no code implements them.
- SessionProperties.GetProducersOmitsCaller: proved only when producer ids are unique across sockets. The engine guarantees this, but the model does not generate ids. With a duplicate id, another socket's entry would list the caller's id.
- SessionProperties.DisconnectForgetsProducerId: assumes unique producer ids too, for the same reason. DisconnectUnlistsProducer, which gives the exact list, needs no such assumption.
