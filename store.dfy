/** The relational store the handlers talk to, held in memory: one map from
    primary key to row per table, and the next value of each auto-increment key.
    Every handler is one atomic step on this object. */
module Store {
  import opened Models

  predicate PropertiesKeyed(m: map<int, Property>, next: int)
  {
    forall k :: k in m ==> 1 <= k < next && m[k].id == k
  }

  predicate ReservationsKeyed(m: map<int, Reservation>, next: int)
  {
    forall k :: k in m ==> 1 <= k < next && m[k].id == k
  }

  predicate InvoicesKeyed(m: map<int, Invoice>, next: int)
  {
    forall k :: k in m ==> 1 <= k < next && m[k].id == k
  }

  predicate UsersKeyed(m: map<int, User>, next: int)
  {
    forall k :: k in m ==> 1 <= k < next && m[k].id == k
  }

  /** Overwriting a stored user with a row of the same id keeps the table keyed. */
  lemma ReplacingUserKeepsKeyed(m: map<int, User>, next: int, k: int, u: User)
    requires UsersKeyed(m, next) && k in m && u.id == k
    ensures UsersKeyed(m[k := u], next)
  {
  }

  /** Every invoice points at a reservation key that has already been handed out
      (invoices are only inserted for a reservation that exists at that moment). */
  predicate InvoicesReferenceIssuedKeys(invoices: map<int, Invoice>, nextReservationId: int)
  {
    forall k :: k in invoices ==> invoices[k].reservationId < nextReservationId
  }

  /** The ids of the invoices attached to reservation `rid`. */
  function InvoicesOf(invoices: map<int, Invoice>, rid: int): (ids: set<int>)
    ensures ids <= invoices.Keys
    ensures forall k :: k in invoices ==> (k in ids <==> invoices[k].reservationId == rid)
  {
    set k | k in invoices && invoices[k].reservationId == rid
  }

  class Db {
    var properties: map<int, Property>
    var reservations: map<int, Reservation>
    var invoices: map<int, Invoice>
    var users: map<int, User>
    var nextPropertyId: int
    var nextReservationId: int
    var nextInvoiceId: int
    var nextUserId: int

    /** Keys are the rows' own ids, issued from 1 upwards by the counters. */
    ghost predicate Valid()
      reads this
    {
      && 1 <= nextPropertyId && 1 <= nextReservationId && 1 <= nextInvoiceId && 1 <= nextUserId
      && PropertiesKeyed(properties, nextPropertyId)
      && ReservationsKeyed(reservations, nextReservationId)
      && InvoicesKeyed(invoices, nextInvoiceId)
      && UsersKeyed(users, nextUserId)
      && InvoicesReferenceIssuedKeys(invoices, nextReservationId)
    }

    constructor ()
      ensures Valid()
      ensures properties == map[] && reservations == map[] && invoices == map[] && users == map[]
      ensures nextPropertyId == 1 && nextReservationId == 1 && nextInvoiceId == 1 && nextUserId == 1
    {
      properties, reservations, invoices, users := map[], map[], map[], map[];
      nextPropertyId, nextReservationId, nextInvoiceId, nextUserId := 1, 1, 1, 1;
    }
  }
}
