/**
  The room and member records of the signaling server (signaling/src/interface)
  and the data-transfer objects built from them
  (signaling/src/interface/dto). A DTO keeps only the fields that may be sent
  to clients.
 */
module Interfaces {
  import opened Results
  import opened JsMaps
  import opened Engine

  /** `ProducerUser`: every field is optional. */
  datatype ProducerUser = ProducerUser(
    id: Option<string>,
    username: Option<string>,
    producerTransport: Option<Transport>,
    consumerTransport: Option<Transport>)

  /** `Room`: its members are a `Map` from socket id to `ProducerUser`. */
  datatype Room = Room(id: string, name: string, password: string, users: JsMap<ProducerUser>)
}

module Dto {
  import opened Results
  import opened JsMaps
  import opened Engine
  import opened Interfaces

  /** `RoomDto`; its constructor `new RoomDto(id, name, password)` is the datatype constructor. */
  datatype RoomDto = RoomDto(id: string, name: string, password: string)

  /** `ProducerUserDto` */
  datatype ProducerUserDto = ProducerUserDto(id: Option<string>, username: Option<string>)

  /** `RoomDto.from(room)` */
  function RoomDtoFrom(room: Room): (d: RoomDto)
    ensures d.id == room.id
    ensures d.name == room.name
    ensures d.password == room.password
  {
    RoomDto(room.id, room.name, room.password)
  }

  /** `ProducerUserDto.from(producerUser)`: an absent field stays absent. */
  function ProducerUserDtoFrom(user: ProducerUser): (d: ProducerUserDto)
    ensures d.id == user.id
    ensures d.username == user.username
  {
    ProducerUserDto(user.id, user.username)
  }

  /** Two rooms give the same DTO exactly when they agree on id, name and password: the members are dropped. */
  lemma RoomDtoFromForgetsUsers(a: Room, b: Room)
    ensures RoomDtoFrom(a) == RoomDtoFrom(b) <==>
      a.id == b.id && a.name == b.name && a.password == b.password
  {
  }

  /** Any DTO comes back unchanged from a room built out of it, whatever the room's members. */
  lemma RoomDtoFromRoundTrip(d: RoomDto, users: JsMap<ProducerUser>)
    ensures RoomDtoFrom(Room(d.id, d.name, d.password, users)) == d
  {
  }

  /** Two users give the same DTO exactly when they agree on id and username: the transports are dropped. */
  lemma ProducerUserDtoFromForgetsTransports(a: ProducerUser, b: ProducerUser)
    ensures ProducerUserDtoFrom(a) == ProducerUserDtoFrom(b) <==> a.id == b.id && a.username == b.username
  {
  }

  /** Any DTO comes back unchanged from a user built out of it, whatever the user's transports. */
  lemma ProducerUserDtoFromRoundTrip(d: ProducerUserDto, producerTransport: Option<Transport>,
                                     consumerTransport: Option<Transport>)
    ensures ProducerUserDtoFrom(ProducerUser(d.id, d.username, producerTransport, consumerTransport)) == d
  {
  }
}
