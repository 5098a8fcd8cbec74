/** `BookingService`: the booking lifecycle. A booking reserves one room for
    the inclusive range of days `[startDate, endDate]`; it is created
    `pending` (or with an administrator's chosen status), may be moved or
    re-priced, and is cancelled by setting its status. Dates are whole day
    numbers and prices whole currency units. */
module Bookings {
  import opened Common
  import opened Tables
  import opened Rooms

  datatype BookingStatus = Pending | Confirmed | Cancelled

  datatype Booking = Booking(
    userId: Id,
    roomId: Id,
    startDate: int,
    endDate: int,
    totalPrice: int,
    status: BookingStatus)

  datatype CreateBookingDto = CreateBookingDto(roomId: Id, startDate: int, endDate: int, status: Option<BookingStatus>)

  datatype UpdateBookingDto = UpdateBookingDto(startDate: Option<int>, endDate: Option<int>, status: Option<BookingStatus>)

  /** The query string of the listing, as numbers and ids. A `page` or `limit`
      of zero stands for any value that `+x` turns into a falsy number. */
  datatype BookingQuery = BookingQuery(
    page: Option<int>,
    limit: Option<int>,
    status: Option<BookingStatus>,
    userId: Option<Id>)

  /** The `where` object of the listing. */
  datatype BookingWhere = BookingWhere(userId: Option<Id>, status: Option<BookingStatus>)

  datatype BookingPage = BookingPage(total: nat, page: int, lastPage: int, data: seq<Booking>)

  /** The overlap query: a booking of the same room whose range meets
      `[start, end]`, ends included. The status is not consulted. */
  predicate Intersects(b: Booking, roomId: Id, start: int, end: int) {
    b.roomId == roomId && b.startDate <= end && b.endDate >= start
  }

  predicate RoomTaken(bookings: map<Id, Booking>, roomId: Id, start: int, end: int) {
    exists id :: id in bookings && Intersects(bookings[id], roomId, start, end)
  }

  /** No two distinct bookings of one room share a day. */
  ghost predicate NoDoubleBooking(bookings: map<Id, Booking>) {
    forall i, j :: i in bookings && j in bookings && i != j ==>
      !Intersects(bookings[i], bookings[j].roomId, bookings[j].startDate, bookings[j].endDate)
  }

  /** `Math.ceil((end - start) / one day)`: with whole-day dates the number of
      nights is the difference of the day numbers. `start <= end` is not
      checked, so a reversed range gives a negative count. */
  function Nights(start: int, end: int): int {
    end - start
  }

  /** Status of a new booking: an administrator's request (or `pending`) is
      honoured, a regular user's is ignored. */
  function InitialStatus(role: Role, requested: Option<BookingStatus>): (s: BookingStatus)
    ensures role == User ==> s == Pending
    ensures role == Admin && requested.Some? ==> s == requested.value
    ensures requested.None? ==> s == Pending
  {
    if role == Admin then requested.GetOr(Pending) else Pending
  }

  /** `findOne`, `update` and `cancel` let through an administrator or the
      booking's owner. */
  predicate MayAccess(caller: Principal, b: Booking) {
    caller.role == Admin || b.userId == caller.id
  }

  /** Result of `create` against the tables as they were before the call. */
  function CreateOutcome(bookings: map<Id, Booking>, rooms: map<Id, Room>, dto: CreateBookingDto, caller: Principal)
    : (r: Result<Booking>)
    ensures r == Err(NotFound) <==> dto.roomId !in rooms
    ensures r == Err(BadRequest) <==> dto.roomId in rooms && RoomTaken(bookings, dto.roomId, dto.startDate, dto.endDate)
    ensures r.Ok? <==> dto.roomId in rooms && !RoomTaken(bookings, dto.roomId, dto.startDate, dto.endDate)
    ensures r.Ok? ==> forall id :: id in bookings ==>
      !Intersects(bookings[id], dto.roomId, dto.startDate, dto.endDate)
    ensures r.Ok? ==> r.value.roomId == dto.roomId && r.value.userId == caller.id
    ensures r.Ok? ==> r.value.startDate == dto.startDate && r.value.endDate == dto.endDate
    ensures r.Ok? ==> r.value.totalPrice == (dto.endDate - dto.startDate) * rooms[dto.roomId].price
    ensures r.Ok? ==> r.value.status == InitialStatus(caller.role, dto.status)
  {
    if dto.roomId !in rooms then Err(NotFound)
    else if RoomTaken(bookings, dto.roomId, dto.startDate, dto.endDate) then Err(BadRequest)
    else
      var price := Nights(dto.startDate, dto.endDate) * rooms[dto.roomId].price;
      Ok(Booking(caller.id, dto.roomId, dto.startDate, dto.endDate, price, InitialStatus(caller.role, dto.status)))
  }

  /** Result of `findOne`: absent is `NotFound`, someone else's is `Forbidden`
      for a regular user. */
  function FindOneOutcome(bookings: map<Id, Booking>, id: Id, caller: Principal): (r: Result<Booking>)
    ensures r == Err(NotFound) <==> id !in bookings
    ensures r == Err(Forbidden) <==> id in bookings && caller.role == User && bookings[id].userId != caller.id
    ensures r.Ok? <==> id in bookings && MayAccess(caller, bookings[id])
    ensures r.Ok? ==> r.value == bookings[id]
  {
    if id !in bookings then Err(NotFound)
    else if !MayAccess(caller, bookings[id]) then Err(Forbidden)
    else Ok(bookings[id])
  }

  /** Result of `update`: the booking as saved. Dates and price move only when
      both dates are given, priced with the booked room; the overlap check is
      not repeated. A regular user who sends a status is refused before
      anything is saved. */
  function UpdateOutcome(bookings: map<Id, Booking>, rooms: map<Id, Room>, id: Id, dto: UpdateBookingDto, caller: Principal)
    : (r: Result<Booking>)
    ensures id !in bookings ==> r == Err(NotFound)
    ensures id in bookings && !MayAccess(caller, bookings[id]) ==> r == Err(Forbidden)
    ensures r.Ok? <==>
      id in bookings && MayAccess(caller, bookings[id])
      && !(dto.startDate.Some? && dto.endDate.Some? && bookings[id].roomId !in rooms)
      && !(caller.role == User && dto.status.Some?)
    ensures (id in bookings && MayAccess(caller, bookings[id]) && dto.startDate.Some? && dto.endDate.Some?
             && bookings[id].roomId !in rooms) ==> r == Err(ServerError)
    ensures (id in bookings && MayAccess(caller, bookings[id]) && caller.role == User && dto.status.Some?
             && !(dto.startDate.Some? && dto.endDate.Some? && bookings[id].roomId !in rooms)) ==> r == Err(BadRequest)
    ensures r.Ok? ==> r.value.userId == bookings[id].userId && r.value.roomId == bookings[id].roomId
    ensures r.Ok? && dto.startDate.Some? && dto.endDate.Some? ==>
      r.value.startDate == dto.startDate.value && r.value.endDate == dto.endDate.value
      && r.value.totalPrice == (dto.endDate.value - dto.startDate.value) * rooms[bookings[id].roomId].price
    ensures r.Ok? && !(dto.startDate.Some? && dto.endDate.Some?) ==>
      r.value.startDate == bookings[id].startDate && r.value.endDate == bookings[id].endDate
      && r.value.totalPrice == bookings[id].totalPrice
    ensures r.Ok? ==> r.value.status == Coalesce(dto.status, bookings[id].status)
  {
    if id !in bookings then Err(NotFound)
    else
      var b := bookings[id];
      if !MayAccess(caller, b) then Err(Forbidden)
      else if dto.startDate.Some? && dto.endDate.Some? && b.roomId !in rooms then Err(ServerError)
      else if caller.role == User && dto.status.Some? then Err(BadRequest)
      else
        var moved :=
          if dto.startDate.Some? && dto.endDate.Some? then
            b.(startDate := dto.startDate.value, endDate := dto.endDate.value,
               totalPrice := Nights(dto.startDate.value, dto.endDate.value) * rooms[b.roomId].price)
          else b;
        Ok(moved.(status := Coalesce(dto.status, b.status)))
  }

  /** Result of `cancel`: the same access rule as `findOne`; the status
      becomes `cancelled` whatever it was, and nothing else changes. */
  function CancelOutcome(bookings: map<Id, Booking>, id: Id, caller: Principal): (r: Result<Booking>)
    ensures r == Err(NotFound) <==> id !in bookings
    ensures r == Err(Forbidden) <==> id in bookings && !MayAccess(caller, bookings[id])
    ensures r.Ok? <==> id in bookings && MayAccess(caller, bookings[id])
    ensures r.Ok? ==> r.value == bookings[id].(status := Cancelled)
  {
    if id !in bookings then Err(NotFound)
    else if !MayAccess(caller, bookings[id]) then Err(Forbidden)
    else Ok(bookings[id].(status := Cancelled))
  }

  /** The table after an operation that yields the record stored under `id`. */
  function Stored(bookings: map<Id, Booking>, id: Id, r: Result<Booking>): map<Id, Booking> {
    if r.Ok? then bookings[id := r.value] else bookings
  }

  /** Cancelling twice leaves the table as cancelling once did. */
  lemma CancelIdempotent(bookings: map<Id, Booking>, id: Id, caller: Principal)
    requires CancelOutcome(bookings, id, caller).Ok?
    ensures var once := Stored(bookings, id, CancelOutcome(bookings, id, caller));
      CancelOutcome(once, id, caller) == CancelOutcome(bookings, id, caller)
      && Stored(once, id, CancelOutcome(once, id, caller)) == once
  {
  }

  /** A successful `create` keeps every room free of double bookings: the new
      range meets no range already stored for the room, whatever its status. */
  lemma CreatePreservesNoDoubleBooking(bookings: map<Id, Booking>, rooms: map<Id, Room>,
                                        dto: CreateBookingDto, caller: Principal, newId: Id)
    requires NoDoubleBooking(bookings) && newId !in bookings
    requires CreateOutcome(bookings, rooms, dto, caller).Ok?
    ensures NoDoubleBooking(bookings[newId := CreateOutcome(bookings, rooms, dto, caller).value])
  {
    var b := CreateOutcome(bookings, rooms, dto, caller).value;
    var after := bookings[newId := b];
    forall i, j | i in after && j in after && i != j
      ensures !Intersects(after[i], after[j].roomId, after[j].startDate, after[j].endDate)
    {
      if i == newId {
        assert !Intersects(bookings[j], b.roomId, b.startDate, b.endDate);
      } else if j == newId {
        assert !Intersects(bookings[i], b.roomId, b.startDate, b.endDate);
      }
    }
  }

  /** `update` does not repeat the overlap check: moving a booking onto the
      days of another booking of the same room succeeds and leaves the room
      double booked. */
  lemma UpdateCanDoubleBook()
    ensures var rooms := map[0 := Room(0, "101", "", 50, 2)];
      var bookings := map[0 := Booking(1, 0, 10, 12, 100, Pending), 1 := Booking(2, 0, 20, 22, 100, Pending)];
      var caller := Principal(2, User);
      var r := UpdateOutcome(bookings, rooms, 1, UpdateBookingDto(Some(11), Some(13), None), caller);
      NoDoubleBooking(bookings) && r.Ok? && !NoDoubleBooking(Stored(bookings, 1, r))
  {
    var rooms := map[0 := Room(0, "101", "", 50, 2)];
    var bookings := map[0 := Booking(1, 0, 10, 12, 100, Pending), 1 := Booking(2, 0, 20, 22, 100, Pending)];
    var r := UpdateOutcome(bookings, rooms, 1, UpdateBookingDto(Some(11), Some(13), None), Principal(2, User));
    var after := Stored(bookings, 1, r);
    assert Intersects(after[0], after[1].roomId, after[1].startDate, after[1].endDate);
  }

  /** `+query.page || 1`: a missing or falsy page becomes 1; any other value,
      negative ones included, is kept. */
  function PageOf(q: BookingQuery): (page: int)
    ensures page != 0
    ensures q.page.None? || q.page.value == 0 ==> page == 1
    ensures q.page.Some? && q.page.value != 0 ==> page == q.page.value
  {
    if q.page.None? || q.page.value == 0 then 1 else q.page.value
  }

  /** `+query.limit || 10`. */
  function LimitOf(q: BookingQuery): (limit: int)
    ensures limit != 0
    ensures q.limit.None? || q.limit.value == 0 ==> limit == 10
    ensures q.limit.Some? && q.limit.value != 0 ==> limit == q.limit.value
  {
    if q.limit.None? || q.limit.value == 0 then 10 else q.limit.value
  }

  /** A regular user is always restricted to their own bookings; an
      administrator may name a user or see everyone's. */
  function WhereOf(q: BookingQuery, caller: Principal): (w: BookingWhere)
    ensures caller.role == User ==> w.userId == Some(caller.id)
    ensures caller.role == Admin ==> w.userId == q.userId
    ensures w.status == q.status
  {
    var owner := if caller.role == User then Some(caller.id) else q.userId;
    BookingWhere(owner, q.status)
  }

  predicate Selects(w: BookingWhere, b: Booking) {
    (w.userId.Some? ==> b.userId == w.userId.value) && (w.status.Some? ==> b.status == w.status.value)
  }

  function SelectedBy(w: BookingWhere): Booking -> bool {
    b => Selects(w, b)
  }

  function StartDate(b: Booking): int {
    b.startDate
  }

  /** The `lastPage` reported for `total` rows and a positive page size is the
      number of pages needed to show every row. */
  lemma LastPageCoversTotal(total: nat, limit: int)
    requires limit > 0
    ensures (CeilDiv(total, limit) - 1) * limit < total <= CeilDiv(total, limit) * limit
  {
    CeilDivBounds(total, limit);
  }

  /** A page below 1 with a positive page size gives a negative offset. */
  lemma SkipOfFirstPages(page: int, limit: int)
    requires page != 0 && limit > 0 && (page - 1) * limit >= 0
    ensures page >= 1
  {
  }

  class BookingService {
    const bookings: Repository<Booking>
    const rooms: Repository<Room>

    ghost predicate Valid()
      reads this, bookings, rooms
    {
      bookings.Valid() && rooms.Valid()
    }

    constructor (bookings: Repository<Booking>, rooms: Repository<Room>)
      ensures this.bookings == bookings && this.rooms == rooms
    {
      this.bookings := bookings;
      this.rooms := rooms;
    }

    method Create(dto: CreateBookingDto, caller: Principal) returns (r: Result<Booking>, id: Id)
      requires Valid()
      modifies bookings
      ensures Valid()
      ensures r == CreateOutcome(old(bookings.rows), rooms.rows, dto, caller)
      ensures r.Ok? ==> id !in old(bookings.rows) && bookings.rows == old(bookings.rows)[id := r.value]
      ensures r.Err? ==> bookings.rows == old(bookings.rows)
    {
      id := 0;
      if dto.roomId !in rooms.rows {
        return Err(NotFound), id;
      }
      var room := rooms.rows[dto.roomId];
      var overlapping := exists k :: k in bookings.rows && Intersects(bookings.rows[k], dto.roomId, dto.startDate, dto.endDate);
      if overlapping {
        return Err(BadRequest), id;
      }
      var nights := Nights(dto.startDate, dto.endDate);
      var totalPrice := nights * room.price;
      var status := if caller.role == Admin then dto.status.GetOr(Pending) else Pending;
      var booking := Booking(caller.id, dto.roomId, dto.startDate, dto.endDate, totalPrice, status);
      id := bookings.Insert(booking);
      r := Ok(booking);
    }

    /** `findAll`: the `where` object is built step by step, then one page of
      the matching bookings, latest start first. The database refuses a
      negative OFFSET or LIMIT, so a negative page size, or a page below 1,
      is a `ServerError`. */
    method FindAll(query: BookingQuery, caller: Principal) returns (r: Result<BookingPage>)
      requires Valid()
      ensures r.Err? <==> (PageOf(query) - 1) * LimitOf(query) < 0 || LimitOf(query) < 0
      ensures r.Err? ==> r.error == ServerError
      ensures r.Ok? ==> PageOf(query) >= 1 && LimitOf(query) >= 1
      ensures r.Ok? ==> var w := WhereOf(query, caller);
        r.value.data == Find(bookings.rows, bookings.nextId, SelectedBy(w), StartDate,
                             (PageOf(query) - 1) * LimitOf(query), LimitOf(query))
        && r.value.total == Count(bookings.rows, bookings.nextId, SelectedBy(w))
      ensures r.Ok? ==> r.value.page == PageOf(query) && r.value.lastPage == CeilDiv(r.value.total, LimitOf(query))
      ensures r.Ok? && caller.role == User ==> forall b :: b in r.value.data ==> b.userId == caller.id
      ensures r.Ok? ==>
        forall b :: b in r.value.data ==> b in bookings.rows.Values && Selects(WhereOf(query, caller), b)
      ensures r.Ok? ==> SortedDesc(r.value.data, StartDate) && |r.value.data| <= LimitOf(query)
    {
      var page := if query.page.None? || query.page.value == 0 then 1 else query.page.value;
      var limit := if query.limit.None? || query.limit.value == 0 then 10 else query.limit.value;
      var skip := (page - 1) * limit;
      if skip < 0 || limit < 0 {
        return Err(ServerError);
      }
      SkipOfFirstPages(page, limit);

      var where := BookingWhere(None, None);
      if caller.role == User {
        where := where.(userId := Some(caller.id));
      } else if query.userId.Some? {
        where := where.(userId := query.userId);
      }
      if query.status.Some? {
        where := where.(status := query.status);
      }

      var data := Find(bookings.rows, bookings.nextId, SelectedBy(where), StartDate, skip, limit);
      var total := Count(bookings.rows, bookings.nextId, SelectedBy(where));
      FindSound(bookings.rows, bookings.nextId, SelectedBy(where), StartDate, skip, limit);
      r := Ok(BookingPage(total, page, CeilDiv(total, limit), data));
    }

    method FindOne(id: Id, caller: Principal) returns (r: Result<Booking>)
      ensures r == FindOneOutcome(bookings.rows, id, caller)
    {
      if id !in bookings.rows {
        return Err(NotFound);
      }
      var booking := bookings.rows[id];
      if caller.role != Admin && booking.userId != caller.id {
        return Err(Forbidden);
      }
      r := Ok(booking);
    }

    method Update(id: Id, dto: UpdateBookingDto, caller: Principal) returns (r: Result<Booking>)
      requires Valid()
      modifies bookings
      ensures Valid()
      ensures r == UpdateOutcome(old(bookings.rows), rooms.rows, id, dto, caller)
      ensures bookings.rows == Stored(old(bookings.rows), id, r)
    {
      if id !in bookings.rows {
        return Err(NotFound);
      }
      var booking := bookings.rows[id];
      if caller.role == User && booking.userId != caller.id {
        return Err(Forbidden);
      }
      if dto.startDate.Some? && dto.endDate.Some? {
        if booking.roomId !in rooms.rows {
          return Err(ServerError);
        }
        var nights := Nights(dto.startDate.value, dto.endDate.value);
        booking := booking.(startDate := dto.startDate.value);
        booking := booking.(endDate := dto.endDate.value);
        booking := booking.(totalPrice := nights * rooms.rows[booking.roomId].price);
      }
      if dto.status.Some? {
        booking := booking.(status := dto.status.value);
      }
      if caller.role == User && dto.status.Some? {
        return Err(BadRequest);
      }
      bookings.Save(id, booking);
      r := Ok(booking);
    }

    method Cancel(id: Id, caller: Principal) returns (r: Result<Booking>)
      requires Valid()
      modifies bookings
      ensures Valid()
      ensures r == CancelOutcome(old(bookings.rows), id, caller)
      ensures bookings.rows == Stored(old(bookings.rows), id, r)
    {
      if id !in bookings.rows {
        return Err(NotFound);
      }
      var booking := bookings.rows[id];
      if caller.role == User && booking.userId != caller.id {
        return Err(Forbidden);
      }
      booking := booking.(status := Cancelled);
      bookings.Save(id, booking);
      r := Ok(booking);
    }
  }
}
