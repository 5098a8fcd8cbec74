/** `ReviewsService`: hotel reviews and who may change them. Only the author
    may edit a review; the author or an administrator may delete it. */
module Reviews {
  import opened Common
  import opened Tables
  import Hotels
  import Users

  datatype Review = Review(rating: int, comment: string, hotelId: Id, userId: Id, createdAt: int)

  datatype CreateReviewDto = CreateReviewDto(rating: int, comment: string)

  datatype UpdateReviewDto = UpdateReviewDto(rating: Option<int>, comment: Option<string>)

  /** `create`: the hotel is looked up first, then the author; either one
      missing is `NotFound`. The review carries the DTO and both links. */
  function CreateReviewOutcome(hotels: map<Id, Hotels.Hotel>, users: map<Id, Users.User>, hotelId: Id, userId: Id,
                               dto: CreateReviewDto, now: int): (r: Result<Review>)
    ensures r.Ok? <==> hotelId in hotels && userId in users
    ensures r.Err? ==> r.error == NotFound
    ensures r.Ok? ==> r.value == Review(dto.rating, dto.comment, hotelId, userId, now)
  {
    if hotelId !in hotels || userId !in users then Err(NotFound)
    else Ok(Review(dto.rating, dto.comment, hotelId, userId, now))
  }

  /** `update`: anyone but the author is refused, administrators included;
      the rating and the comment change only when supplied. */
  function UpdateReviewOutcome(reviews: map<Id, Review>, id: Id, caller: Id, dto: UpdateReviewDto): (r: Result<Review>)
    ensures r == Err(NotFound) <==> id !in reviews
    ensures r == Err(Forbidden) <==> id in reviews && reviews[id].userId != caller
    ensures r.Ok? <==> id in reviews && reviews[id].userId == caller
    ensures r.Ok? ==>
      r.value.rating == Coalesce(dto.rating, reviews[id].rating)
      && r.value.comment == Coalesce(dto.comment, reviews[id].comment)
    ensures r.Ok? ==> r.value.(rating := reviews[id].rating, comment := reviews[id].comment) == reviews[id]
  {
    if id !in reviews then Err(NotFound)
    else if reviews[id].userId != caller then Err(Forbidden)
    else Ok(reviews[id].(rating := Coalesce(dto.rating, reviews[id].rating),
                         comment := Coalesce(dto.comment, reviews[id].comment)))
  }

  /** `delete`: the author or an administrator. */
  function DeleteReviewOutcome(reviews: map<Id, Review>, id: Id, caller: Principal): (r: Result<()>)
    ensures r == Err(NotFound) <==> id !in reviews
    ensures r == Err(Forbidden) <==> id in reviews && reviews[id].userId != caller.id && caller.role != Admin
    ensures r.Ok? <==> id in reviews && (reviews[id].userId == caller.id || caller.role == Admin)
  {
    if id !in reviews then Err(NotFound)
    else if reviews[id].userId == caller.id || caller.role == Admin then Ok(())
    else Err(Forbidden)
  }

  /** An administrator may delete any review but edit only their own. */
  lemma AdminDeletesButDoesNotEdit(reviews: map<Id, Review>, id: Id, admin: Principal, dto: UpdateReviewDto)
    requires id in reviews && admin.role == Admin && reviews[id].userId != admin.id
    ensures DeleteReviewOutcome(reviews, id, admin).Ok?
    ensures UpdateReviewOutcome(reviews, id, admin.id, dto) == Err(Forbidden)
  {
  }

  /** An edit is a patch: applying the same DTO again changes nothing. */
  lemma UpdateReviewIdempotent(reviews: map<Id, Review>, id: Id, caller: Id, dto: UpdateReviewDto)
    requires UpdateReviewOutcome(reviews, id, caller, dto).Ok?
    ensures var after := reviews[id := UpdateReviewOutcome(reviews, id, caller, dto).value];
      UpdateReviewOutcome(after, id, caller, dto) == UpdateReviewOutcome(reviews, id, caller, dto)
  {
  }

  class ReviewsService {
    const reviews: Repository<Review>
    const hotels: Repository<Hotels.Hotel>
    const users: Repository<Users.User>

    constructor (reviews: Repository<Review>, hotels: Repository<Hotels.Hotel>, users: Repository<Users.User>)
      ensures this.reviews == reviews && this.hotels == hotels && this.users == users
    {
      this.reviews := reviews;
      this.hotels := hotels;
      this.users := users;
    }

    method Create(hotelId: Id, userId: Id, dto: CreateReviewDto, now: int) returns (r: Result<Review>, id: Id)
      requires reviews.Valid()
      modifies reviews
      ensures reviews.Valid()
      ensures r == CreateReviewOutcome(hotels.rows, users.rows, hotelId, userId, dto, now)
      ensures r.Ok? ==> id !in old(reviews.rows) && reviews.rows == old(reviews.rows)[id := r.value]
      ensures r.Err? ==> reviews.rows == old(reviews.rows)
    {
      id := 0;
      if hotelId !in hotels.rows {
        return Err(NotFound), id;
      }
      if userId !in users.rows {
        return Err(NotFound), id;
      }
      var review := Review(dto.rating, dto.comment, hotelId, userId, now);
      id := reviews.Insert(review);
      r := Ok(review);
    }

    method FindOne(id: Id) returns (r: Result<Review>)
      ensures r.Ok? <==> id in reviews.rows
      ensures r.Ok? ==> r.value == reviews.rows[id]
      ensures r.Err? ==> r.error == NotFound
    {
      if id !in reviews.rows {
        return Err(NotFound);
      }
      r := Ok(reviews.rows[id]);
    }

    method Update(id: Id, caller: Id, dto: UpdateReviewDto) returns (r: Result<Review>)
      requires reviews.Valid()
      modifies reviews
      ensures reviews.Valid()
      ensures r == UpdateReviewOutcome(old(reviews.rows), id, caller, dto)
      ensures reviews.rows == if r.Ok? then old(reviews.rows)[id := r.value] else old(reviews.rows)
    {
      var found := FindOne(id);
      if found.Err? {
        return found;
      }
      var review := found.value;
      if review.userId != caller {
        return Err(Forbidden);
      }
      review := review.(rating := Coalesce(dto.rating, review.rating));
      review := review.(comment := Coalesce(dto.comment, review.comment));
      reviews.Save(id, review);
      r := Ok(review);
    }

    method Delete(id: Id, caller: Principal) returns (r: Result<()>)
      requires reviews.Valid()
      modifies reviews
      ensures reviews.Valid()
      ensures r == DeleteReviewOutcome(old(reviews.rows), id, caller)
      ensures reviews.rows == if r.Ok? then old(reviews.rows) - {id} else old(reviews.rows)
    {
      var found := FindOne(id);
      if found.Err? {
        return Err(found.error);
      }
      if found.value.userId == caller.id || caller.role == Admin {
        reviews.Remove(id);
        return Ok(());
      }
      r := Err(Forbidden);
    }
  }
}
