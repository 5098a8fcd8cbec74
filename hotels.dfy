/** `HotelsService`: the hotel catalogue. Hotels are created and changed by
    administrators; their rows are read by the room and review services. */
module Hotels {
  import opened Common
  import opened Tables

  datatype Hotel = Hotel(
    name: string,
    location: string,
    description: string,
    rating: int,
    image: Option<string>,
    createdAt: int)

  /** `location` and `description` are optional in the request body, but their
      columns are NOT NULL. */
  datatype CreateHotelDto = CreateHotelDto(
    name: string,
    location: Option<string>,
    description: Option<string>,
    rating: Option<int>)

  datatype UpdateHotelDto = UpdateHotelDto(
    name: Option<string>,
    location: Option<string>,
    description: Option<string>,
    rating: Option<int>)

  /** The `where` option of the hotel listing. */
  datatype HotelFilter = AnyHotel | NameLike(name: string) | LocationLike(location: string)

  /** The row that `create` followed by `save` stores: the request's fields, a
      rating of 0 when none is given, no image. Saving fails when a NOT NULL
      column is left empty. */
  function NewHotel(dto: CreateHotelDto, now: int): (r: Result<Hotel>)
    ensures r.Err? <==> dto.location.None? || dto.description.None?
    ensures r.Err? ==> r.error == ServerError
    ensures r.Ok? ==> r.value.name == dto.name
    ensures r.Ok? ==> dto.location == Some(r.value.location) && dto.description == Some(r.value.description)
    ensures r.Ok? ==> r.value.rating == Coalesce(dto.rating, 0) && r.value.image.None? && r.value.createdAt == now
  {
    if dto.location.None? || dto.description.None? then Err(ServerError)
    else Ok(Hotel(dto.name, dto.location.value, dto.description.value, dto.rating.GetOr(0), None, now))
  }

  /** The listing filter: a truthy `location` wins over a truthy `name`. */
  function ListingFilter(name: Option<string>, location: Option<string>): (f: HotelFilter)
    ensures Truthy(location) ==> f == LocationLike(location.value)
    ensures !Truthy(location) && Truthy(name) ==> f == NameLike(name.value)
    ensures !Truthy(location) && !Truthy(name) ==> f == AnyHotel
  {
    if Truthy(location) then LocationLike(location.value)
    else if Truthy(name) then NameLike(name.value)
    else AnyHotel
  }

  predicate Matches(f: HotelFilter, h: Hotel) {
    match f
    case AnyHotel => true
    case NameLike(n) => Contains(h.name, n)
    case LocationLike(l) => Contains(h.location, l)
  }

  function MatchesFilter(f: HotelFilter): Hotel -> bool {
    h => Matches(f, h)
  }

  function CreatedAt(h: Hotel): int {
    h.createdAt
  }

  /** `update`: each of the four fields takes the request's value when one is
      given and keeps the stored one otherwise; nothing else changes. */
  function UpdatedHotel(h: Hotel, dto: UpdateHotelDto): (r: Hotel)
    ensures r.name == Coalesce(dto.name, h.name)
    ensures r.location == Coalesce(dto.location, h.location)
    ensures r.description == Coalesce(dto.description, h.description)
    ensures r.rating == Coalesce(dto.rating, h.rating)
    ensures r.image == h.image && r.createdAt == h.createdAt
  {
    h.(name := dto.name.GetOr(h.name),
       location := dto.location.GetOr(h.location),
       description := dto.description.GetOr(h.description),
       rating := dto.rating.GetOr(h.rating))
  }

  /** Applying the same partial update twice changes nothing the first did not. */
  lemma UpdateIdempotent(h: Hotel, dto: UpdateHotelDto)
    ensures UpdatedHotel(UpdatedHotel(h, dto), dto) == UpdatedHotel(h, dto)
  {
  }

  /** An update that gives no field leaves the hotel as it was. */
  lemma EmptyUpdateIsIdentity(h: Hotel)
    ensures UpdatedHotel(h, UpdateHotelDto(None, None, None, None)) == h
  {
  }

  class HotelsService {
    const hotels: Repository<Hotel>

    ghost predicate Valid()
      reads this, hotels
    {
      hotels.Valid()
    }

    constructor (hotels: Repository<Hotel>)
      ensures this.hotels == hotels
    {
      this.hotels := hotels;
    }

    /** `create`: exactly one row is added, and it is the hotel returned. */
    method Create(dto: CreateHotelDto, now: int) returns (r: Result<Hotel>, id: Id)
      requires Valid()
      modifies hotels
      ensures Valid()
      ensures r == NewHotel(dto, now)
      ensures r.Ok? ==> id !in old(hotels.rows) && hotels.rows == old(hotels.rows)[id := r.value]
      ensures r.Err? ==> hotels.rows == old(hotels.rows)
    {
      id := 0;
      if dto.location.None? || dto.description.None? {
        r := Err(ServerError);
        return;
      }
      var hotel := Hotel(dto.name, dto.location.value, dto.description.value, dto.rating.GetOr(0), None, now);
      id := hotels.Insert(hotel);
      r := Ok(hotel);
    }

    /** `findAll`: clamp the page, then set `where` from `name` and overwrite
      it from `location`, newest first. */
    method FindAll(name: Option<string>, location: Option<string>, pageNumber: Option<int>, perPage: Option<int>)
      returns (page: seq<Hotel>)
      requires Valid()
      ensures var p := ClampedPaging(pageNumber, perPage);
        page == Find(hotels.rows, hotels.nextId, MatchesFilter(ListingFilter(name, location)), CreatedAt, p.skip, p.take)
      ensures |page| <= ClampedPaging(pageNumber, perPage).take
      ensures forall h :: h in page ==> h in hotels.rows.Values && Matches(ListingFilter(name, location), h)
      ensures SortedDesc(page, CreatedAt)
    {
      var paging := ClampedPaging(pageNumber, perPage);
      var where := AnyHotel;
      if Truthy(name) {
        where := NameLike(name.value);
      }
      if Truthy(location) {
        where := LocationLike(location.value);
      }
      page := Find(hotels.rows, hotels.nextId, MatchesFilter(where), CreatedAt, paging.skip, paging.take);
      FindSound(hotels.rows, hotels.nextId, MatchesFilter(where), CreatedAt, paging.skip, paging.take);
    }

    /** `findById`: the stored hotel, or `NotFound`. */
    method FindById(id: Id) returns (r: Result<Hotel>)
      ensures id in hotels.rows <==> r.Ok?
      ensures r.Ok? ==> r.value == hotels.rows[id]
      ensures r.Err? ==> r.error == NotFound
    {
      if id !in hotels.rows {
        return Err(NotFound);
      }
      r := Ok(hotels.rows[id]);
    }

    method Update(id: Id, dto: UpdateHotelDto) returns (r: Result<Hotel>)
      requires Valid()
      modifies hotels
      ensures Valid()
      ensures id !in old(hotels.rows) ==> r == Err(NotFound) && hotels.rows == old(hotels.rows)
      ensures id in old(hotels.rows) ==>
        r == Ok(UpdatedHotel(old(hotels.rows)[id], dto)) && hotels.rows == old(hotels.rows)[id := r.value]
    {
      var found := FindById(id);
      if found.Err? {
        return Err(found.error);
      }
      var hotel := found.value;
      hotel := hotel.(name := Coalesce(dto.name, hotel.name));
      hotel := hotel.(location := Coalesce(dto.location, hotel.location));
      hotel := hotel.(description := Coalesce(dto.description, hotel.description));
      hotel := hotel.(rating := Coalesce(dto.rating, hotel.rating));
      hotels.Save(id, hotel);
      r := Ok(hotel);
    }

    /** `remove`: exactly the hotel with that key disappears. */
    method Remove(id: Id) returns (r: Result<()>)
      requires Valid()
      modifies hotels
      ensures Valid()
      ensures id !in old(hotels.rows) ==> r == Err(NotFound) && hotels.rows == old(hotels.rows)
      ensures id in old(hotels.rows) ==> r == Ok(()) && hotels.rows == old(hotels.rows) - {id}
    {
      var found := FindById(id);
      if found.Err? {
        return Err(found.error);
      }
      hotels.Remove(id);
      r := Ok(());
    }
  }
}
