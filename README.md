# Hotel booking backend: the service layer in Dafny

This project models the service layer of a NestJS hotel-booking backend:
hotels and their rooms, bookings of rooms over ranges of days, payments for
bookings, user accounts with their email-verification, reset-password and
refresh tokens, reviews of hotels, and the two request guards that read the
`Authorization` header.

Every database table is a `Tables.Repository<T>`: a map from primary key to
row plus the key the next insert receives. Each service is a class holding
the repositories it uses, and each service operation is a method that reads
and writes those maps as the TypeScript code does with `findOne`, `save`,
`update` and `remove`. Beside each state-changing method stands a pure
function (`CreateOutcome`, `ConfirmOutcome`, `VerifyEmailOutcome`, ...) that
states what the operation answers and what it stores. The method's
postcondition ties the method to that function. Lemmas about the functions
carry the properties that span several calls: a token works once, a cancel is
idempotent, a create keeps rooms free of double bookings.

Exceptions are values of `Common.Error`: `NotFound`, `Forbidden`,
`BadRequest` and `Unauthorized` are the HTTP exceptions the code throws.
`ServerError` stands for an unhandled exception that the framework turns into
status 500: a `TypeError` (a property read on `null`) or an error raised by the
database or the ORM (a negative offset, an UPDATE with nothing to set).

Things the services get from outside are parameters:
- the current time `now`;
- bcrypt hashes (`hashed`) and the bcrypt comparison (`matches`);
- signed JWTs (`access`, `refresh`, `issued`) and JWT verification (`verify`);
- the random reset token (`token`).

Files:
- `common.dfy`: ids, roles, errors, `Option`/`Result`, JavaScript truthiness, `LIKE`, `Math.ceil`, page clamping.
- `tables.dfy`: repositories and the paginated `find`.
- `hotels.dfy`, `rooms.dfy`, `bookings.dfy`, `payments.dfy`, `users.dfy`, `auth_provider.dfy`, `reviews.dfy`: one service each.
- `headers.dfy`: the `Authorization` header and the request object.
- `auth_roles_guard.dfy`, `auth_guard.dfy`: the two guards.

## Model

| member | source | states |
|---|---|---|
| Common.Coalesce | src/hotels/hotels.service.ts:66-69 | `x ?? fallback` is the given value when there is one and the fallback otherwise |
| Common.ClampedPaging | src/users/users.service.ts:156-164 | page and limit are at least 1 and default to 1 and 10; `take` is the limit and `skip = (page-1)*limit` is never negative |
| Common.CeilDivBounds | src/booking/booking.service.ts:115 | `Math.ceil(a/b)` for positive `b` is the least `r` with `a <= r*b` |
| Common.CeilDivNegativeBounds | src/booking/booking.service.ts:115 | for negative `b` the quotient is again rounded towards positive infinity |
| Tables.Repository.Insert | src/booking/booking.service.ts:68-77 | a save of a new entity adds exactly one row under a fresh key |
| Tables.Repository.Save | src/booking/booking.service.ts:190 | a save of a loaded entity replaces exactly that row |
| Tables.Repository.Remove | src/hotels/hotels.service.ts:76 | a remove deletes exactly the row with that key |
| Tables.RowsBelowMembers | src/booking/booking.service.ts:104-110 | the rows the query engine enumerates are exactly the stored rows |
| Tables.FilterKeeps | src/booking/booking.service.ts:104-110 | every enumerated row that satisfies `where` survives the filter |
| Tables.SortDescCorrect | src/booking/booking.service.ts:109 | `order: 'DESC'` yields a descending permutation of the matching rows |
| Tables.FindSound | src/booking/booking.service.ts:104-110 | a page holds only stored rows that satisfy `where`, in descending order, at most `take` of them |
| Tables.ListAllComplete | src/payment/payment.service.ts:100-105 | an unfiltered, unwindowed find lists every row, in descending order, one entry per stored row |
| Tables.RowsBelowSize | src/payment/payment.service.ts:100-105 | the query engine enumerates one row per stored key |
| Hotels.NewHotel | src/hotels/hotels.service.ts:15-24 | the stored hotel carries the request's fields, rating 0 when none is given and no image; a missing location or description makes the save fail |
| Hotels.ListingFilter | src/hotels/hotels.service.ts:36-42 | a truthy `location` wins over `name`; with neither there is no filter |
| Hotels.UpdatedHotel | src/hotels/hotels.service.ts:63-72 | each of the four fields takes the request's value when given and keeps its own otherwise |
| Hotels.UpdateIdempotent | src/hotels/hotels.service.ts:66-69 | repeating a partial update changes nothing more |
| Hotels.EmptyUpdateIsIdentity | src/hotels/hotels.service.spec.ts:152-157 | an update that gives no field leaves the hotel unchanged |
| Hotels.HotelsService.Create | src/hotels/hotels.service.spec.ts:107-117 | exactly one row is added and it is the hotel returned |
| Hotels.HotelsService.FindAll | src/hotels/hotels.service.ts:26-46 | the clamped page of the filtered hotels, newest first, never more than `limit` |
| Hotels.HotelsService.FindById | src/hotels/hotels.service.ts:48-61 | the stored hotel, or `NotFound` when the key is absent |
| Hotels.HotelsService.Update | src/hotels/hotels.service.ts:63-72 | `NotFound` for an absent key; otherwise the partial update is saved in place |
| Hotels.HotelsService.Remove | src/hotels/hotels.service.spec.ts:165-174 | `NotFound` for an absent key; otherwise exactly that hotel is removed |
| Rooms.NewRoom | src/rooms/rooms.service.ts:21-22 | a created room carries the request's fields and is linked to its hotel |
| Rooms.PatchedRoom | src/rooms/rooms.service.ts:57 | the UPDATE changes the columns the request gives and keeps the others and the hotel link |
| Rooms.PatchedRoomIdempotent | src/rooms/rooms.service.ts:57 | repeating the same UPDATE changes nothing more |
| Rooms.RoomsService.Create | src/rooms/rooms.service.ts:14-29 | `NotFound` without a parent hotel and nothing saved; otherwise exactly one room linked to it |
| Rooms.RoomsService.FindOne | src/rooms/rooms.service.ts:41-54 | the stored room, or `NotFound` |
| Rooms.RoomsService.Update | src/rooms/rooms.service.ts:56-68 | a request that sets no column is a `ServerError` and writes nothing; otherwise success, patching the row only when it exists |
| Rooms.RoomsService.Remove | src/rooms/rooms.service.ts:71-84 | `NotFound` for an absent key; otherwise only that room is deleted |
| Bookings.InitialStatus | src/booking/booking.service.ts:74 | a regular user's booking is always `pending`; an administrator's takes the requested status or `pending` |
| Bookings.CreateOutcome | src/booking/booking.service.ts:22-84 | succeeds exactly when the room exists and no stored booking of it meets the range; `NotFound` exactly when the room is absent; `BadRequest` exactly when a stored booking of that room meets the inclusive range, whatever its status; otherwise the new booking meets none of them and is priced nights times room price |
| Bookings.FindOneOutcome | src/booking/booking.service.ts:120-141 | `NotFound` for an absent id, `Forbidden` for a regular user who does not own it, else the booking |
| Bookings.UpdateOutcome | src/booking/booking.service.ts:143-198 | succeeds exactly when the caller may access the booking, the booked room still exists if both dates are given, and a regular user sends no status; `NotFound`/`Forbidden` as for `findOne`; dates and price change only when both dates are given, using the booked room's price; a regular user who sends a status gets `BadRequest`; status otherwise `??`; owner and room never change |
| Bookings.CancelOutcome | src/booking/booking.service.ts:200-230 | succeeds exactly when the booking exists and the caller may access it (`NotFound`/`Forbidden` otherwise); the status becomes `cancelled` and nothing else changes |
| Bookings.CancelIdempotent | src/booking/booking.service.ts:220-222 | cancelling a cancelled booking answers the same and leaves the table as it was |
| Bookings.CreatePreservesNoDoubleBooking | src/booking/booking.service.ts:39-56 | when no two bookings of a room overlap, a successful create keeps it so |
| Bookings.UpdateCanDoubleBook | src/booking/booking.service.ts:168-178 | a concrete update that moves a booking onto another booking's days succeeds and double-books the room |
| Bookings.PageOf | src/booking/booking.service.ts:87 | `+page \|\| 1`: a missing or zero page becomes 1, any other value is kept |
| Bookings.LimitOf | src/booking/booking.service.ts:88 | `+limit \|\| 10`: a missing or zero limit becomes 10, any other value is kept |
| Bookings.WhereOf | src/booking/booking.service.ts:91-102 | a regular user is restricted to their own bookings; an administrator may name a user; the status filter is passed on |
| Bookings.LastPageCoversTotal | src/booking/booking.service.ts:115 | `lastPage` pages of `limit` rows hold every one of the `total` rows, and one page fewer does not |
| Bookings.BookingService.Create | src/booking/booking.service.ts:22-84 | answers as `CreateOutcome`; on success exactly one booking is added, on failure nothing |
| Bookings.BookingService.FindAll | src/booking/booking.service.ts:86-117 | a page below 1 or a negative limit is a `ServerError` (the database refuses a negative offset or limit); otherwise a regular user sees only their own bookings; the page is sorted by start date descending, holds at most `limit` rows, and `lastPage = ceil(total/limit)` |
| Bookings.BookingService.FindOne | src/booking/booking.service.ts:120-141 | answers as `FindOneOutcome` |
| Bookings.BookingService.Update | src/booking/booking.service.ts:143-198 | answers as `UpdateOutcome` and saves only on success |
| Bookings.BookingService.Cancel | src/booking/booking.service.ts:200-230 | answers as `CancelOutcome` and saves only on success |
| Payments.CheckoutLineItem | src/payment/payment.service.ts:30-40 | one line in `egp` whose unit amount is the amount times 100 |
| Payments.RelatedKey | src/payment/payment.service.ts:45-46 | a relation is the key when the row exists and null otherwise |
| Payments.NewPayment | src/payment/payment.service.ts:49-56 | a new payment is `pending` in `egp` with the given amount and method; a missing booking or user is stored as null |
| Payments.ConfirmOutcome | src/payment/payment.service.ts:77-97 | `NotFound` for an absent id, `Forbidden` for anyone but the owner, `BadRequest` when already completed; otherwise only the status becomes `completed` |
| Payments.ConfirmOnce | src/payment/payment.service.ts:91-93 | a confirmed payment cannot be confirmed again |
| Payments.OwnerCanConfirm | src/payment/payment.service.ts:91-96 | for the owner, confirmation succeeds exactly from `pending` and from `failed` |
| Payments.PaymentService.CreateStripeCheckout | src/payment/payment.service.ts:26-60 | requests the line item and adds exactly one pending Stripe payment |
| Payments.PaymentService.CreateCashPayment | src/payment/payment.service.ts:63-75 | adds exactly one pending cash payment and returns it |
| Payments.PaymentService.ConfirmPayment | src/payment/payment.service.ts:77-97 | answers as `ConfirmOutcome` and saves only on success |
| Payments.PaymentService.GetAllPayments | src/payment/payment.service.ts:99-110 | every payment, newest first, with `total` equal to the number returned and to the number of stored payments |
| Users.UserWithEmail | src/users/users.service.ts:181 | the lookup by email finds the account holding that email, or none when no account does |
| Users.InsertKeepsEmailsUnique | src/users/users.service.ts:181-194 | an account with a free email keeps emails unique |
| Users.SaveKeepsEmailsUnique | src/users/users.service.ts:57-60 | rewriting an account without touching its email keeps emails unique |
| Users.VerifyEmailOutcome | src/users/users.service.ts:48-62 | `NotFound` for a missing user or no pending token, `BadRequest` for another token; a match verifies the account and clears the token |
| Users.VerifyEmailOnce | src/users/users.service.ts:57-60 | a verification link works once; the repeat is `NotFound` |
| Users.RefreshOutcome | src/users/users.service.ts:100-137 | success exactly when the token verifies, its user exists and holds that token; then the stored token becomes the new one; every failure is `BadRequest` |
| Users.RefreshTokenSingleUse | src/users/users.service.ts:109-127 | after a rotation the old refresh token is refused |
| Users.CreateUserOutcome | src/users/users.service.ts:179-201 | succeeds exactly when the email is free, `BadRequest` otherwise; the account is unverified, with the hashed password, the given role, no tokens and no image |
| Users.UpdateUserOutcome | src/users/users.service.ts:209-219 | a missing user is a server error; the username is kept unless given; the password changes only for a non-empty one; nothing else changes |
| Users.DeleteUserOutcome | src/users/users.service.ts:227-241 | `NotFound` for a missing user; allowed exactly for the user themself or an administrator, else `Forbidden` |
| Users.SetProfileImageOutcome | src/users/users.service.ts:249-260 | succeeds exactly for an existing user, with or without an old image, and the account ends with the new image name; `NotFound` otherwise |
| Users.RemoveProfileImageOutcome | src/users/users.service.ts:267-277 | `BadRequest` when no image is set; otherwise the image becomes null |
| Users.ProfileImageLifecycle | src/users/users.service.ts:249-277 | removing right after setting succeeds, removing twice fails |
| Users.UsersService.VerifyEmail | src/users/users.service.ts:48-62 | answers as `VerifyEmailOutcome` and saves only on success |
| Users.UsersService.RefreshToken | src/users/users.service.ts:100-137 | answers with the new token pair exactly when `RefreshOutcome` succeeds; the stored refresh token is the one returned |
| Users.UsersService.GetCurrentUser | src/users/users.service.ts:144-148 | the stored user, or `NotFound` |
| Users.UsersService.FindAll | src/users/users.service.ts:155-172 | the clamped page of accounts whose username contains the search text, newest first |
| Users.UsersService.Create | src/users/users.service.ts:179-201 | answers as `CreateUserOutcome`; a taken email leaves the table unchanged |
| Users.UsersService.Update | src/users/users.service.ts:209-219 | answers as `UpdateUserOutcome` and saves only on success |
| Users.UsersService.Delete | src/users/users.service.ts:227-241 | answers as `DeleteUserOutcome`; on refusal the user remains |
| Users.UsersService.SetProfileImage | src/users/users.service.ts:249-260 | answers as `SetProfileImageOutcome`, also when an old image is removed first |
| Users.UsersService.RemoveProfileImage | src/users/users.service.ts:267-277 | answers as `RemoveProfileImageOutcome` and saves only on success |
| Auth.RegisterOutcome | src/users/auth.provider.ts:30-69 | succeeds exactly when the email is free, `BadRequest` otherwise; the account is an unverified `User` with the hashed password, holding the returned refresh token and no other token and no image |
| Auth.LoginOutcome | src/users/auth.provider.ts:76-112 | an unknown email and a wrong password give the same `BadRequest`; success stores the new refresh token |
| Auth.SendResetOutcome | src/users/auth.provider.ts:117-129 | succeeds exactly for a registered email, `BadRequest` otherwise; the account with that email then holds the new reset token |
| Auth.ResetLinkOutcome | src/users/auth.provider.ts:134-142 | valid exactly when the user exists and holds that very token; otherwise `BadRequest` |
| Auth.ResetPasswordOutcome | src/users/auth.provider.ts:148-163 | succeeds exactly when the link is valid; then the password is the new hash and the token is cleared |
| Auth.SentLinkIsValid | src/users/auth.provider.ts:121-124 | the link built from the saved token passes the link check |
| Auth.ResetTokenSingleUse | src/users/auth.provider.ts:154-160 | after a reset the same token fails both the link check and a second reset |
| Auth.ResetThenLogin | src/users/auth.provider.ts:157-160 | after a reset a login with that email succeeds exactly for the new password |
| Auth.AuthProvider.Register | src/users/auth.provider.ts:30-69 | answers as `RegisterOutcome`; one account is added and its stored refresh token equals the returned one; a taken email adds nothing |
| Auth.AuthProvider.Login | src/users/auth.provider.ts:76-112 | answers as `LoginOutcome`; the stored refresh token equals the returned one |
| Auth.AuthProvider.SendResetPassword | src/users/auth.provider.ts:117-129 | answers as `SendResetOutcome`; only the account with that email changes |
| Auth.AuthProvider.ResetPassword | src/users/auth.provider.ts:148-163 | answers as `ResetPasswordOutcome`; a failure changes nothing |
| Reviews.CreateReviewOutcome | src/reviews/reviews.service.ts:28-47 | `NotFound` when the hotel or the author is missing; otherwise the review carries the request's rating and comment and links both |
| Reviews.UpdateReviewOutcome | src/reviews/reviews.service.ts:74-83 | succeeds exactly when the review exists and the caller wrote it; `NotFound` for an absent id; anyone but the author, administrators included, is `Forbidden`; rating and comment change only when given |
| Reviews.DeleteReviewOutcome | src/reviews/reviews.service.ts:91-100 | allowed exactly for the author or an administrator, else `Forbidden` |
| Reviews.AdminDeletesButDoesNotEdit | src/reviews/reviews.service.ts:76-77 | an administrator may delete another user's review but not edit it |
| Reviews.UpdateReviewIdempotent | src/reviews/reviews.service.ts:79-82 | repeating the same edit changes nothing more |
| Reviews.ReviewsService.Create | src/reviews/reviews.service.ts:28-47 | answers as `CreateReviewOutcome`; adds exactly one review on success and none on failure |
| Reviews.ReviewsService.FindOne | src/reviews/reviews.service.ts:61-65 | the stored review, or `NotFound` |
| Reviews.ReviewsService.Update | src/reviews/reviews.service.ts:74-83 | answers as `UpdateReviewOutcome` and saves only on success |
| Reviews.ReviewsService.Delete | src/reviews/reviews.service.ts:91-100 | answers as `DeleteReviewOutcome`; on refusal the review remains |
| Headers.Split | src/users/guards/auth.guard.ts:15 | `split(' ')` always yields at least one piece |
| Headers.SplitHasNoSpaces | src/users/guards/auth.guard.ts:15 | no piece contains a space |
| Headers.JoinSplit | src/users/guards/auth.guard.ts:15 | joining the pieces with spaces gives back the header |
| Headers.SplitJoin | src/users/guards/auth.guard.ts:15 | splitting a join of space-free pieces gives back the pieces |
| Headers.SplitFirst | src/users/guards/auth-roles.guard.ts:33 | the first piece is the header up to its first space, and the other pieces split what follows that space |
| Headers.SchemeOf | src/users/guards/auth-roles.guard.ts:33 | the scheme is the header up to its first space (all of it when there is none), absent without a header |
| Headers.TokenOf | src/users/guards/auth-roles.guard.ts:33 | a token is present exactly when the header holds a space; it is the space-free text after the first space, up to the next space or the end |
| Headers.BearerHeader | src/users/guards/auth-roles.guard.ts:33-39 | `Bearer <token>` with a space-free token reads as scheme `Bearer` and that token |
| RoleGuard.RolesDecision | src/users/guards/auth-roles.guard.ts:24-62 | `false` exactly without roles metadata; `NoTokenProvided` exactly for a missing token or a scheme other than `Bearer`; admitted exactly when the token verifies and its stored user has an allowed role; every other case is the single `InvalidToken` refusal |
| RoleGuard.BearerTokenAdmitted | src/users/guards/auth-roles.guard.ts:41-57 | a well-formed Bearer header for an existing user with an allowed role is admitted with that user |
| RoleGuard.StoredRoleDecides | src/users/guards/auth-roles.guard.ts:46-54 | the role comes from the users table, not from the token |
| RoleGuard.AuthRolesGuard.CanActivate | src/users/guards/auth-roles.guard.ts:24-62 | answers as `RolesDecision` and attaches the loaded user exactly when it admits |
| TokenGuard.AuthDecision | src/users/guards/auth.guard.ts:13-30 | never a plain `false`; `NoTokenProvided` exactly for a present token under another scheme; admitted with the payload exactly when a non-empty token under `Bearer` verifies; a missing or empty token is always `InvalidToken`; no role check |
| TokenGuard.SchemeOnlyHeaderIsVerified | src/users/guards/auth.guard.ts:17-24 | a one-word header goes to verification as a missing token and fails there with `InvalidToken`, while the role guard refuses it with `NoTokenProvided` |
| TokenGuard.BearerTokenVerified | src/users/guards/auth.guard.ts:17-29 | with a well-formed Bearer header the guard admits exactly when the token verifies |
| TokenGuard.AuthGuard.CanActivate | src/users/guards/auth.guard.ts:13-30 | answers as `AuthDecision` and attaches the payload exactly when it admits |

## Left out

- Stripe: the checkout session, its success and cancel URLs and the returned session URL belong to an external payment provider. Only the line item and the stored record are modelled.
- bcrypt, JWT signing and verification, and `randomBytes` are cryptography and randomness. Their results are parameters and their checks are function parameters.
- The i18n message lookups and the response messages: only the error kinds are modelled.
- Mail sending, the file deletion in `removeProfileImage`, uploads and Multer configuration are I/O. Deleting the old image file is assumed to succeed.
- The OAuth flow and its random password generation: an external provider and randomness.
- Controllers, modules, pipes, `main.ts` and the data-source setup are framework wiring.
- No validation pipe is installed (src/main.ts:8-28), so request bodies and query values reach the services untyped. The model assumes every DTO field already has its declared type; a string where a number is declared, or a missing required field, is not modelled.
- Foreign keys and `ON DELETE CASCADE` are not enforced by the tables. Removing a hotel leaves its rooms and reviews in the model.
- Users.DeleteUserOutcome, Users.UsersService.Delete, Rooms.RoomsService.Remove and Hotels.HotelsService.Remove delete the row even when other rows still refer to it. The initial migration declares the booking and payment references to users, rooms and bookings as `ON DELETE NO ACTION` (db/migrations/1744281857940-initial.ts:18-21). So, as written, deleting a user who has a booking or a payment, removing a room that has a booking, or removing a hotel whose cascaded rooms have a booking fails with a database error (a 500) and deletes nothing.
- Concurrency: the overlap query and the insert in booking `create` can race in the original; every call is atomic here.
- Dates are whole day numbers and prices whole currency units. JavaScript `Date` millisecond arithmetic and `Number(room.price)` float conversion are not modelled.
- Bookings.Nights: with whole-day dates `Math.ceil((end - start) / one day)` is exactly `end - start`; a time of day inside a date is not modelled.
- Primary keys are numbers given out in insertion order rather than UUIDs.
- Reviews.ReviewsService.FindOne, Reviews.ReviewsService.Update, Reviews.ReviewsService.Delete, Reviews.UpdateReviewOutcome and Reviews.DeleteReviewOutcome follow the intended lookup by key. As written, review keys are UUIDs (src/reviews/entities/review.entity.ts:15) and the private lookup searches for `Number(id)` (src/reviews/reviews.service.ts:62), which is `NaN` for a UUID. So every review update and delete fails with a database error (a 500) before any access check.
- Hotels.HotelsService.FindById, Hotels.HotelsService.Update, Hotels.HotelsService.Remove, Reviews.CreateReviewOutcome and Reviews.ReviewsService.Create follow the intended entity. As written, `findById` loads the `rooms` relation (src/hotels/hotels.service.ts:49), which the `Hotel` entity does not declare (src/hotels/entities/hotel.entity.ts:31-32). The ORM then throws for every call, so hotel lookup, update and removal and review creation all answer 500.
- Hotels.Hotel: `rating` is a float column (src/hotels/entities/hotel.entity.ts:19); the model keeps it as an integer.
- `createdAt` comes from the `now` parameter. Rows with equal sort keys (`createdAt` in the hotel, user and payment listings, `startDate` in the booking listing) are listed in key order; the database leaves their order unspecified.
- Tables.Window: a `take` of 0 stands for a find without `take`. The database refuses a negative offset or limit; the booking listing checks for them first and answers `ServerError`, and the hotel and user listings clamp their paging, so the clamping `Window` does for negative values is never relied on.
- Bookings.PageOf and Bookings.LimitOf: the query's page and limit are integers. A fractional `+query.page` or `+query.limit` (`1.5`), and the non-integral offset it would produce, are not modelled.
- Hotels.ListingFilter and Users.UsernameFilter: `%` and `_` inside the search text are taken literally, not as `LIKE` wildcards.
- Booking query values that are not valid statuses or numbers cannot be written in the model's typed query.
- Rooms.RoomsService.Update: the un-awaited lookup is a rejected promise when the room is missing. The unhandled rejection it causes is not modelled.
- Rooms.UpdateRoomDto: the update DTO's source file is not part of this model. Its fields are assumed to be the four editable columns. If it is `PartialType(CreateRoomDto)` it also carries `hotelId`, which `update` would pass to the ORM; that field is not modelled.
- `RoomsService.findAll` and `ReviewsService.getAll` are plain unfiltered reads and are not modelled.
- `UsersService.register`, `login`, `sendResetPassword`, `getResetPassword` and `resetPassword` only forward to `AuthProvider` and are modelled there.
- Users.RefreshOutcome, Users.UsersService.RefreshToken, Users.RefreshTokenSingleUse, Auth.AuthProvider.Register and Auth.AuthProvider.Login follow an intended `refreshToken` column. The `User` entity and the initial migration declare none, so as written `save` never persists the token: `register` and `login` store nothing, a user loaded for a refresh carries no token, and every refresh fails with `BadRequest` (src/users/users.service.ts:109). The model treats the token as a stored field of the user.
- Overlapping bookings are refused with `BadRequest`, not a conflict error. `confirmPayment` checks the payment's owner. There is no webhook handler for Stripe events.
