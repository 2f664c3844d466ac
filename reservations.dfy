/** Reservation handlers: booking with automatic invoicing, the caller's and the
    administrator's listings, and the status change. */
module Reservations {
  import opened Common
  import opened Models
  import opened Store
  import Schemas

  /** Milliseconds in a day: 1000 * 60 * 60 * 24. */
  const DAY_MS: int := 1000 * 60 * 60 * 24

  /** `Math.abs(end - start)`. */
  function Distance(a: int, b: int): nat
  {
    if a <= b then b - a else a - b
  }

  /** `Math.ceil(n / d)` for a non-negative numerator. */
  function CeilDiv(n: nat, d: int): nat
    requires d > 0
  {
    (n + d - 1) / d
  }

  /** The quotient rounded up is the least multiple count covering `n`. */
  lemma CeilDivBounds(n: nat, d: int)
    requires d > 0
    ensures CeilDiv(n, d) * d >= n
    ensures CeilDiv(n, d) * d < n + d
    ensures CeilDiv(n, d) == 0 <==> n == 0
  {
    var q, m := (n + d - 1) / d, (n + d - 1) % d;
    assert n + d - 1 == q * d + m && 0 <= m < d;
    assert q * d >= n;
    if q == 0 {
      assert n + d - 1 < d;
    }
  }

  /** `diffDays`: whole days between the two instants, rounded up. */
  function DiffDays(startDate: int, endDate: int): nat
  {
    CeilDiv(Distance(startDate, endDate), DAY_MS)
  }

  /** `days`: the day count billed, at least one. */
  function BilledDays(startDate: int, endDate: int): nat
  {
    var d := DiffDays(startDate, endDate);
    if d > 0 then d else 1
  }

  /** `amount = property.price * days`. */
  function InvoiceAmount(price: int, startDate: int, endDate: int): int
  {
    price * BilledDays(startDate, endDate)
  }

  /** The day count is the ceiling of the distance in days: zero only for equal
      instants, and otherwise the least number of days covering the distance. */
  lemma DiffDaysIsCeiling(startDate: int, endDate: int)
    ensures DiffDays(startDate, endDate) == 0 <==> startDate == endDate
    ensures DiffDays(startDate, endDate) * DAY_MS >= Distance(startDate, endDate)
    ensures (DiffDays(startDate, endDate) - 1) * DAY_MS < Distance(startDate, endDate) || startDate == endDate
  {
    CeilDivBounds(Distance(startDate, endDate), DAY_MS);
  }

  /** The billed amount is the nightly price times the days of the stay rounded
      up, with a one-day minimum; it does not depend on the order of the dates
      and is never below one night's price when the price is non-negative. */
  lemma InvoiceAmountProperties(price: int, startDate: int, endDate: int)
    ensures BilledDays(startDate, endDate) >= 1
    ensures startDate == endDate ==> InvoiceAmount(price, startDate, endDate) == price
    ensures startDate != endDate ==>
              InvoiceAmount(price, startDate, endDate) == price * DiffDays(startDate, endDate)
              && DiffDays(startDate, endDate) * DAY_MS >= Distance(startDate, endDate)
              && (DiffDays(startDate, endDate) - 1) * DAY_MS < Distance(startDate, endDate)
    ensures InvoiceAmount(price, startDate, endDate) == InvoiceAmount(price, endDate, startDate)
    ensures price >= 0 ==> InvoiceAmount(price, startDate, endDate) >= price
  {
    DiffDaysIsCeiling(startDate, endDate);
    var b := BilledDays(startDate, endDate);
    if price >= 0 {
      assert price * b == price + price * (b - 1);
    }
  }

  /** A request the validation schema accepts (end strictly after start) is billed
      for exactly its rounded-up day count: the one-day minimum never applies. */
  lemma ValidatedRequestBillsCeilingDays(pid: real, price: int, startDate: int, endDate: int)
    requires Schemas.ValidReservationCreate(Schemas.ReservationBody(Some(pid), Some(startDate), Some(endDate)))
    ensures DiffDays(startDate, endDate) >= 1
    ensures InvoiceAmount(price, startDate, endDate) == price * DiffDays(startDate, endDate)
  {
    DiffDaysIsCeiling(startDate, endDate);
  }

  /** A property at 100.00 a night booked from 2024-06-01 to 2024-06-04 (UTC
      midnights) is billed 300.00. */
  lemma ThreeNightsExample()
    ensures InvoiceAmount(10000, 1717200000000, 1717459200000) == 30000
  {
    assert Distance(1717200000000, 1717459200000) == 3 * DAY_MS;
    assert DiffDays(1717200000000, 1717459200000) == 3;
  }

  /** POST /reservations.  An unknown property answers 404 and writes nothing.
      Otherwise a pending reservation owned by the caller is inserted, and then
      one unpaid invoice for it, priced by `InvoiceAmount` from the property's
      price.  The two inserts are separate statements: when the amount does not
      fit the invoice's DECIMAL(10, 2) column the invoice insert fails, the
      answer is a 500, and the reservation already written stays, without an
      invoice.  Existing reservations are not consulted, so an overlapping stay
      is accepted like any other. */
  method CreateReservation(db: Db, caller: Principal, propertyId: int,
                           startDate: int, endDate: int, now: int)
    returns (r: Outcome<Reservation>)
    requires db.Valid()
    modifies db`reservations, db`invoices, db`nextReservationId, db`nextInvoiceId
    ensures db.Valid()
    ensures propertyId !in old(db.properties) ==>
              r == NotFound("Property not found") && unchanged(db)
    ensures propertyId in old(db.properties) ==>
              var rid := old(db.nextReservationId);
              && db.reservations == old(db.reservations)[rid := NewReservation(rid, caller.userId, propertyId, startDate, endDate, now)]
              && db.reservations[rid].status == Pending && db.reservations[rid].userId == caller.userId
              && db.nextReservationId == rid + 1
    ensures propertyId in old(db.properties) &&
            FitsDecimal(InvoiceAmount(old(db.properties)[propertyId].price, startDate, endDate)) ==>
              var rid, iid := old(db.nextReservationId), old(db.nextInvoiceId);
              && r == Ok(db.reservations[rid])
              && db.invoices == old(db.invoices)[iid := NewInvoice(iid, rid,
                   InvoiceAmount(old(db.properties)[propertyId].price, startDate, endDate), None, None, now)]
              && db.invoices[iid].status == Unpaid
              && InvoicesOf(db.invoices, rid) == {iid}
              && db.nextInvoiceId == iid + 1
    ensures propertyId in old(db.properties) &&
            !FitsDecimal(InvoiceAmount(old(db.properties)[propertyId].price, startDate, endDate)) ==>
              && r == ServerError
              && db.invoices == old(db.invoices) && db.nextInvoiceId == old(db.nextInvoiceId)
              && InvoicesOf(db.invoices, old(db.nextReservationId)) == {}
  {
    if propertyId !in db.properties {
      return NotFound("Property not found");
    }
    var property := db.properties[propertyId];
    var reservation := NewReservation(db.nextReservationId, caller.userId, propertyId, startDate, endDate, now);
    db.reservations := db.reservations[reservation.id := reservation];
    db.nextReservationId := db.nextReservationId + 1;
    assert InvoicesOf(db.invoices, reservation.id) == {} by {
      forall k | k in db.invoices ensures db.invoices[k].reservationId != reservation.id {
      }
    }

    var amount := InvoiceAmount(property.price, startDate, endDate);
    if !FitsDecimal(amount) {
      return ServerError;
    }
    var invoice := NewInvoice(db.nextInvoiceId, reservation.id, amount, None, None, now);
    ghost var before := db.invoices;
    db.invoices := db.invoices[invoice.id := invoice];
    db.nextInvoiceId := db.nextInvoiceId + 1;
    assert InvoicesOf(db.invoices, reservation.id) == {invoice.id} by {
      forall k | k in db.invoices && db.invoices[k].reservationId == reservation.id
        ensures k == invoice.id
      {
        assert k != invoice.id ==> k in InvoicesOf(before, reservation.id);
      }
    }
    r := Ok(reservation);
  }

  /** A property priced 1 000 000.00 a night booked for a hundred days is billed
      beyond what the invoice column holds, so the booking answers 500 after its
      reservation has been written; a property at 100.00 a night for a year is
      billed normally. */
  lemma OversizedStayExample(start: int)
    ensures !FitsDecimal(InvoiceAmount(100_000_000, start, start + 100 * DAY_MS))
    ensures FitsDecimal(InvoiceAmount(10_000, start, start + 365 * DAY_MS))
  {
    assert Distance(start, start + 100 * DAY_MS) == 100 * DAY_MS;
    assert DiffDays(start, start + 100 * DAY_MS) == 100;
    assert Distance(start, start + 365 * DAY_MS) == 365 * DAY_MS;
    assert DiffDays(start, start + 365 * DAY_MS) == 365;
  }

  /** GET /reservations/my: the caller's reservations, keyed by id. */
  function MyReservations(db: Db, caller: Principal): (r: map<int, Reservation>)
    reads db
    ensures r.Keys <= db.reservations.Keys
    ensures forall k :: k in r ==> r[k] == db.reservations[k] && r[k].userId == caller.userId
    ensures forall k :: k in db.reservations && db.reservations[k].userId == caller.userId ==> k in r
  {
    map k | k in db.reservations && db.reservations[k].userId == caller.userId :: db.reservations[k]
  }

  /** GET /reservations (administrators): every reservation. */
  function AllReservations(db: Db): map<int, Reservation>
    reads db
  {
    db.reservations
  }

  /** The per-caller listings split the administrator's listing: each reservation
      is listed for its owner, and for nobody else. */
  lemma ListingsPartitionAll(db: Db, a: Principal, b: Principal)
    ensures forall k :: k in AllReservations(db) ==>
              k in MyReservations(db, Principal(AllReservations(db)[k].userId, a.role))
    ensures a.userId != b.userId ==> MyReservations(db, a).Keys !! MyReservations(db, b).Keys
  {
  }

  /** PATCH /reservations/:id/status, with a status the schema accepted.  Only the
      status of that reservation changes; any status may follow any other. */
  method UpdateReservationStatus(db: Db, id: int, status: ReservationStatus)
    returns (r: Outcome<Reservation>)
    requires db.Valid()
    modifies db`reservations
    ensures db.Valid()
    ensures id !in old(db.reservations) ==> r == NotFound("Reservation not found") && unchanged(db)
    ensures id in old(db.reservations) ==>
              && r == Ok(old(db.reservations)[id].(status := status))
              && db.reservations == old(db.reservations)[id := r.value]
  {
    if id !in db.reservations {
      return NotFound("Reservation not found");
    }
    var reservation := db.reservations[id].(status := status);
    db.reservations := db.reservations[id := reservation];
    r := Ok(reservation);
  }
}
