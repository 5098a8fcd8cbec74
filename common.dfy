/** Vocabulary shared by every service of the hotel-booking backend: record
    identifiers, the two user roles, the HTTP error kinds the services throw,
    and the page arithmetic used by the paginated listings. */
module Common {

  /** Primary keys. The database generates UUIDs; the model only needs them
      to be distinct, so it numbers rows in insertion order. */
  type Id = nat

  /** `UserType` in the source: `Admin` and `User`. */
  datatype Role = Admin | User

  /** The exception classes the services throw. `ServerError` stands for an
      unhandled exception (a property read on `null`), which the framework
      answers with status 500. */
  datatype Error = NotFound | Forbidden | BadRequest | Unauthorized | ServerError

  datatype Option<+T> = None | Some(value: T) {
    function GetOr(default: T): T {
      match this
      case Some(v) => v
      case None => default
    }
  }

  datatype Result<+T> = Ok(value: T) | Err(error: Error)

  /** The claims carried by an access token (`JwtPayloadType`): who is calling
      and with which role. The booking service receives the whole user, of
      which it reads only these two fields. */
  datatype Principal = Principal(id: Id, role: Role)

  /** JavaScript truthiness of an optional string: `undefined`, `null` and the
      empty string are falsy. */
  predicate Truthy(s: Option<string>) {
    s.Some? && s.value != ""
  }

  /** SQL `LIKE '%sub%'`: `sub` occurs somewhere in `s`. */
  predicate Contains(s: string, sub: string) {
    sub <= s || (s != [] && Contains(s[1..], sub))
  }

  /** `x ?? fallback` on an optional DTO field. */
  function Coalesce<T>(x: Option<T>, fallback: T): (r: T)
    ensures x.Some? ==> r == x.value
    ensures x.None? ==> r == fallback
  {
    x.GetOr(fallback)
  }

  function Max(a: int, b: int): int {
    if a < b then b else a
  }

  /** `Math.ceil(a / b)` for a non-zero divisor. */
  function CeilDiv(a: int, b: int): (r: int)
    requires b != 0
  {
    if b > 0 then (a + b - 1) / b else (-a - b - 1) / (-b)
  }

  /** For a positive divisor, `CeilDiv(a, b)` is the least `r` with `a <= r * b`. */
  lemma CeilDivBounds(a: int, b: int)
    requires b > 0
    ensures (CeilDiv(a, b) - 1) * b < a <= CeilDiv(a, b) * b
  {
  }

  /** For a negative divisor the quotient is again rounded up: `r` is the
      least integer with `r * b <= a`. */
  lemma CeilDivNegativeBounds(a: int, b: int)
    requires b < 0
    ensures CeilDiv(a, b) * b <= a < (CeilDiv(a, b) - 1) * b
  {
    CeilDivBounds(-a, -b);
    var r := CeilDiv(a, b);
    assert r == CeilDiv(-a, -b);
    assert (r - 1) * (-b) < -a <= r * (-b);
    assert (r - 1) * (-b) == -((r - 1) * b);
    assert r * (-b) == -(r * b);
  }

  /** The page window of `UsersService.findAll` and `HotelsService.findAll`:
      page and page size are clamped to at least one before the offset is
      computed. */
  datatype Paging = Paging(page: int, limit: int, skip: int, take: int)

  function ClampedPaging(pageNumber: Option<int>, perPage: Option<int>): (p: Paging)
    ensures p.page >= 1 && p.limit >= 1 && p.take == p.limit
    ensures p.skip == (p.page - 1) * p.limit && p.skip >= 0
    ensures pageNumber.None? ==> p.page == 1
    ensures perPage.None? ==> p.limit == 10
    ensures pageNumber.Some? ==> p.page == Max(pageNumber.value, 1)
    ensures perPage.Some? ==> p.limit == Max(perPage.value, 1)
  {
    var page := Max(pageNumber.GetOr(1), 1);
    var limit := Max(perPage.GetOr(10), 1);
    assert (page - 1) * limit >= 0 by {
      assert page - 1 >= 0 && limit >= 1;
    }
    Paging(page, limit, (page - 1) * limit, limit)
  }
}
