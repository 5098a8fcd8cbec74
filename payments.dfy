/** `PaymentService`: payment records for bookings and their one guarded
    transition, `pending` to `completed`. The Stripe checkout session itself
    is outside the model; what remains is the line item the service asks
    Stripe for and the record it stores. */
module Payments {
  import opened Common
  import opened Tables
  import Users
  import Bookings

  datatype PaymentMethod = Stripe | Cash

  datatype PaymentStatus = Pending | Completed | Failed

  /** A `payments` row. `booking` and `user` are many-to-one relations that
      may be null; the model keeps the key of the related row, or `None`. */
  datatype Payment = Payment(
    amount: int,
    currency: string,
    paymentMethod: PaymentMethod,
    status: PaymentStatus,
    bookingId: Option<Id>,
    userId: Option<Id>,
    createdAt: int)

  /** The priced line of the checkout session: Stripe takes the amount in
      the currency's smallest unit. */
  datatype LineItem = LineItem(currency: string, unitAmount: int, quantity: nat)

  function CheckoutLineItem(amount: int): (item: LineItem)
    ensures item.currency == "egp" && item.quantity == 1
    ensures item.unitAmount == amount * 100
  {
    LineItem("egp", amount * 100, 1)
  }

  /** A related row looked up by key: `findOne` answers null for a key that
      is not there, and the payment is saved with that null. */
  function RelatedKey<T>(m: map<Id, T>, id: Id): (r: Option<Id>)
    ensures r == Some(id) <==> id in m
    ensures r == None <==> id !in m
  {
    if id in m then Some(id) else None
  }

  /** The record both create operations save: always `pending` in `egp`,
      whether or not the booking and the user exist. */
  function NewPayment(amount: int, kind: PaymentMethod, bookings: map<Id, Bookings.Booking>, bookingId: Id,
                      users: map<Id, Users.User>, userId: Id, now: int): (p: Payment)
    ensures p.amount == amount && p.paymentMethod == kind
    ensures p.status == Pending && p.currency == "egp"
    ensures p.bookingId.Some? <==> bookingId in bookings
    ensures p.bookingId.Some? ==> p.bookingId.value == bookingId
    ensures p.userId.Some? <==> userId in users
    ensures p.userId.Some? ==> p.userId.value == userId
  {
    Payment(amount, "egp", kind, Pending, RelatedKey(bookings, bookingId), RelatedKey(users, userId), now)
  }

  /** `confirmPayment`: a missing payment is `NotFound`; a payment without
      a user is dereferenced (`ServerError`); someone else's is `Forbidden`;
      a completed one is `BadRequest`. Anything else, `failed` included,
      becomes `completed` with every other field kept. */
  function ConfirmOutcome(payments: map<Id, Payment>, id: Id, caller: Id): (r: Result<Payment>)
    ensures r == Err(NotFound) <==> id !in payments
    ensures r == Err(ServerError) <==> id in payments && payments[id].userId.None?
    ensures r == Err(Forbidden) <==>
      id in payments && payments[id].userId.Some? && payments[id].userId.value != caller
    ensures r == Err(BadRequest) <==>
      id in payments && payments[id].userId == Some(caller) && payments[id].status == Completed
    ensures r.Ok? ==> payments[id].status != Completed && r.value == payments[id].(status := Completed)
  {
    if id !in payments then Err(NotFound)
    else
      var p := payments[id];
      if p.userId.None? then Err(ServerError)
      else if p.userId.value != caller then Err(Forbidden)
      else if p.status == Completed then Err(BadRequest)
      else Ok(p.(status := Completed))
  }

  function StoredPayment(payments: map<Id, Payment>, id: Id, r: Result<Payment>): map<Id, Payment> {
    if r.Ok? then payments[id := r.value] else payments
  }

  /** A payment is confirmed at most once: a second confirmation by the
      owner is refused. */
  lemma ConfirmOnce(payments: map<Id, Payment>, id: Id, caller: Id)
    requires ConfirmOutcome(payments, id, caller).Ok?
    ensures ConfirmOutcome(StoredPayment(payments, id, ConfirmOutcome(payments, id, caller)), id, caller)
      == Err(BadRequest)
  {
  }

  /** A payment made by the owner is confirmable from `pending` and from
      `failed`. */
  lemma OwnerCanConfirm(payments: map<Id, Payment>, id: Id, caller: Id)
    requires id in payments && payments[id].userId == Some(caller)
    ensures ConfirmOutcome(payments, id, caller).Ok? <==> payments[id].status in {Pending, Failed}
  {
  }

  function CreatedAt(p: Payment): int {
    p.createdAt
  }

  class PaymentService {
    const payments: Repository<Payment>
    const bookings: Repository<Bookings.Booking>
    const users: Repository<Users.User>

    constructor (payments: Repository<Payment>, bookings: Repository<Bookings.Booking>, users: Repository<Users.User>)
      ensures this.payments == payments && this.bookings == bookings && this.users == users
    {
      this.payments := payments;
      this.bookings := bookings;
      this.users := users;
    }

    /** `createStripeCheckout`: returns the line item sent to Stripe and
      stores a pending Stripe payment. */
    method CreateStripeCheckout(amount: int, bookingId: Id, userId: Id, now: int) returns (item: LineItem, id: Id)
      requires payments.Valid()
      modifies payments
      ensures payments.Valid()
      ensures item == CheckoutLineItem(amount)
      ensures id !in old(payments.rows)
      ensures payments.rows == old(payments.rows)[id := NewPayment(amount, Stripe, bookings.rows, bookingId, users.rows, userId, now)]
    {
      item := LineItem("egp", amount * 100, 1);
      var booking := RelatedKey(bookings.rows, bookingId);
      var user := RelatedKey(users.rows, userId);
      id := payments.Insert(Payment(amount, "egp", Stripe, Pending, booking, user, now));
    }

    method CreateCashPayment(amount: int, bookingId: Id, userId: Id, now: int) returns (p: Payment, id: Id)
      requires payments.Valid()
      modifies payments
      ensures payments.Valid()
      ensures p == NewPayment(amount, Cash, bookings.rows, bookingId, users.rows, userId, now)
      ensures id !in old(payments.rows) && payments.rows == old(payments.rows)[id := p]
    {
      var booking := RelatedKey(bookings.rows, bookingId);
      var user := RelatedKey(users.rows, userId);
      p := Payment(amount, "egp", Cash, Pending, booking, user, now);
      id := payments.Insert(p);
    }

    method ConfirmPayment(id: Id, caller: Id) returns (r: Result<Payment>)
      requires payments.Valid()
      modifies payments
      ensures payments.Valid()
      ensures r == ConfirmOutcome(old(payments.rows), id, caller)
      ensures payments.rows == StoredPayment(old(payments.rows), id, r)
    {
      if id !in payments.rows {
        return Err(NotFound);
      }
      var payment := payments.rows[id];
      if payment.userId.None? {
        return Err(ServerError);
      }
      if payment.userId.value != caller {
        return Err(Forbidden);
      }
      if payment.status == Completed {
        return Err(BadRequest);
      }
      payment := payment.(status := Completed);
      payments.Save(id, payment);
      r := Ok(payment);
    }

    /** `getAllPayments`: every payment, newest first, and their number. */
    method GetAllPayments() returns (all: seq<Payment>, total: nat)
      requires payments.Valid()
      ensures total == |all| && total == |payments.rows|
      ensures SortedDesc(all, CreatedAt)
      ensures forall id :: id in payments.rows ==> payments.rows[id] in all
      ensures forall p :: p in all ==> p in payments.rows.Values
    {
      all := Find(payments.rows, payments.nextId, _ => true, CreatedAt, 0, 0);
      ListAllComplete(payments.rows, payments.nextId, CreatedAt);
      FindSound(payments.rows, payments.nextId, _ => true, CreatedAt, 0, 0);
      total := |all|;
    }
  }
}
