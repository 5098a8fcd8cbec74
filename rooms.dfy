/** `RoomsService`: rooms belong to a hotel; their price is what bookings are
    charged per night. */
module Rooms {
  import opened Common
  import opened Tables
  import opened Hotels

  datatype Room = Room(hotelId: Id, name: string, description: string, price: int, capacity: int)

  datatype CreateRoomDto = CreateRoomDto(name: string, description: string, price: int, capacity: int, hotelId: Id)

  datatype UpdateRoomDto = UpdateRoomDto(
    name: Option<string>,
    description: Option<string>,
    price: Option<int>,
    capacity: Option<int>)

  /** The room `create` stores: the request's fields, linked to its hotel. */
  function NewRoom(dto: CreateRoomDto): (r: Room)
    ensures r.hotelId == dto.hotelId && r.price == dto.price && r.capacity == dto.capacity
    ensures r.name == dto.name && r.description == dto.description
  {
    Room(dto.hotelId, dto.name, dto.description, dto.price, dto.capacity)
  }

  /** `repository.update(id, dto)`: an UPDATE of the columns the request
      gives; the others keep their values. */
  function PatchedRoom(room: Room, dto: UpdateRoomDto): (r: Room)
    ensures r.name == Coalesce(dto.name, room.name)
    ensures r.description == Coalesce(dto.description, room.description)
    ensures r.price == Coalesce(dto.price, room.price)
    ensures r.capacity == Coalesce(dto.capacity, room.capacity)
    ensures r.hotelId == room.hotelId
  {
    room.(name := dto.name.GetOr(room.name),
          description := dto.description.GetOr(room.description),
          price := dto.price.GetOr(room.price),
          capacity := dto.capacity.GetOr(room.capacity))
  }

  /** A request that names no column: the UPDATE would have nothing to set. */
  predicate EmptyPatch(dto: UpdateRoomDto) {
    dto.name.None? && dto.description.None? && dto.price.None? && dto.capacity.None?
  }

  /** Sending the same partial update twice leaves the room as the first
      one did. */
  lemma PatchedRoomIdempotent(room: Room, dto: UpdateRoomDto)
    ensures PatchedRoom(PatchedRoom(room, dto), dto) == PatchedRoom(room, dto)
  {
  }

  class RoomsService {
    const rooms: Repository<Room>
    const hotels: Repository<Hotel>

    ghost predicate Valid()
      reads this, rooms, hotels
    {
      rooms.Valid() && hotels.Valid()
    }

    constructor (rooms: Repository<Room>, hotels: Repository<Hotel>)
      ensures this.rooms == rooms && this.hotels == hotels
    {
      this.rooms := rooms;
      this.hotels := hotels;
    }

    /** `create`: `NotFound` without a parent hotel, and then no room is
      saved; otherwise exactly one room, linked to that hotel. */
    method Create(dto: CreateRoomDto) returns (r: Result<Room>, id: Id)
      requires Valid()
      modifies rooms
      ensures Valid()
      ensures dto.hotelId !in hotels.rows ==> r == Err(NotFound) && rooms.rows == old(rooms.rows)
      ensures dto.hotelId in hotels.rows ==>
        r == Ok(NewRoom(dto)) && id !in old(rooms.rows) && rooms.rows == old(rooms.rows)[id := r.value]
    {
      id := 0;
      if dto.hotelId !in hotels.rows {
        return Err(NotFound), id;
      }
      var room := Room(dto.hotelId, dto.name, dto.description, dto.price, dto.capacity);
      id := rooms.Insert(room);
      r := Ok(room);
    }

    method FindOne(id: Id) returns (r: Result<Room>)
      ensures id in rooms.rows <==> r.Ok?
      ensures r.Ok? ==> r.value == rooms.rows[id]
      ensures r.Err? ==> r.error == NotFound
    {
      if id !in rooms.rows {
        return Err(NotFound);
      }
      r := Ok(rooms.rows[id]);
    }

    /** `update`: an UPDATE with no column to set is rejected by the
      repository (`ServerError`) and nothing is written. Otherwise the UPDATE
      touches a row only if it exists, and the follow-up lookup is never
      awaited, so the answer is success. */
    method Update(id: Id, dto: UpdateRoomDto) returns (r: Result<()>)
      requires Valid()
      modifies rooms
      ensures Valid()
      ensures r.Err? <==> EmptyPatch(dto)
      ensures r.Err? ==> r.error == ServerError && rooms.rows == old(rooms.rows)
      ensures r.Ok? && id in old(rooms.rows) ==>
        rooms.rows == old(rooms.rows)[id := PatchedRoom(old(rooms.rows)[id], dto)]
      ensures r.Ok? && id !in old(rooms.rows) ==> rooms.rows == old(rooms.rows)
    {
      if EmptyPatch(dto) {
        return Err(ServerError);
      }
      if id in rooms.rows {
        var room := rooms.rows[id];
        room := room.(name := Coalesce(dto.name, room.name));
        room := room.(description := Coalesce(dto.description, room.description));
        room := room.(price := Coalesce(dto.price, room.price));
        room := room.(capacity := Coalesce(dto.capacity, room.capacity));
        rooms.Save(id, room);
      }
      r := Ok(());
    }

    /** `remove`: `NotFound` for an absent key; otherwise only that room goes. */
    method Remove(id: Id) returns (r: Result<()>)
      requires Valid()
      modifies rooms
      ensures Valid()
      ensures id !in old(rooms.rows) ==> r == Err(NotFound) && rooms.rows == old(rooms.rows)
      ensures id in old(rooms.rows) ==> r == Ok(()) && rooms.rows == old(rooms.rows) - {id}
    {
      var found := FindOne(id);
      if found.Err? {
        return Err(found.error);
      }
      rooms.Remove(id);
      r := Ok(());
    }
  }
}
