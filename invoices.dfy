/** Invoice handlers: lookup, manual creation, the field-by-field update with
    falsy fallback, and deletion. */
module Invoices {
  import opened Common
  import opened Models
  import opened Store

  /** GET /invoices/:id.  The caller is not consulted: any authenticated caller
      receives any invoice. */
  function GetInvoice(db: Db, caller: Principal, id: int): (r: Outcome<Invoice>)
    reads db
    ensures id !in db.invoices <==> r == NotFound("Invoice not found")
    ensures id in db.invoices ==> r == Ok(db.invoices[id])
  {
    if id in db.invoices then Ok(db.invoices[id]) else NotFound("Invoice not found")
  }

  /** Two callers asking for the same invoice receive the same answer. */
  lemma GetInvoiceIgnoresOwnership(db: Db, a: Principal, b: Principal, id: int)
    ensures GetInvoice(db, a, id) == GetInvoice(db, b, id)
  {
  }

  /** The body of PUT /invoices/:id. */
  datatype InvoicePatch = InvoicePatch(amount: Option<int>, status: Option<string>, dueDate: Option<int>)

  /** The amount a body writes: a non-zero one (zero is falsy and keeps the old
      amount). */
  predicate WritesAmount(p: InvoicePatch)
  {
    p.amount.Some? && p.amount.value != 0
  }

  /** The invoice after `amount = amount || amount`, `status = status || status`,
      `dueDate = dueDate || dueDate`, or ServerError when the status written is
      outside the ENUM column or the amount written does not fit its
      DECIMAL(10, 2) column. */
  function ApplyPatch(inv: Invoice, p: InvoicePatch): (r: Outcome<Invoice>)
    ensures r.ServerError? <==>
              || (Truthy(p.status) && ParseInvoiceStatus(p.status.value).None?)
              || (WritesAmount(p) && !FitsDecimal(p.amount.value))
    ensures r.Ok? || r.ServerError?
    ensures r.Ok? ==>
              && r.value.id == inv.id && r.value.reservationId == inv.reservationId
              && r.value.issuedDate == inv.issuedDate
              // an amount of 0 is never written: a zero request keeps the old amount
              && (r.value.amount == 0 ==> inv.amount == 0)
              && (r.value.amount != inv.amount ==> p.amount == Some(r.value.amount))
              && (p.amount.Some? && p.amount.value != 0 ==> r.value.amount == p.amount.value)
              && (Truthy(p.status) ==> InvoiceStatusName(r.value.status) == p.status.value)
              && (!Truthy(p.status) ==> r.value.status == inv.status)
              && (p.dueDate.Some? ==> r.value.dueDate == p.dueDate)
              && (p.dueDate.None? ==> r.value.dueDate == inv.dueDate)
  {
    var statusText := OrString(p.status, InvoiceStatusName(inv.status));
    match ParseInvoiceStatus(statusText)
    case None => ServerError
    case Some(status) =>
      if WritesAmount(p) && !FitsDecimal(p.amount.value) then ServerError
      else
      Ok(inv.(amount := OrInt(p.amount, inv.amount),
              status := status,
              dueDate := OrOption(p.dueDate, inv.dueDate)))
  }

  /** A body with no fields leaves the invoice as it was. */
  lemma EmptyPatchIsIdentity(inv: Invoice)
    ensures ApplyPatch(inv, InvoicePatch(None, None, None)) == Ok(inv)
  {
    StatusNamesRoundTrip(Available, Pending, inv.status);
  }

  /** Sending the same body twice changes nothing the second time. */
  lemma ApplyPatchIdempotent(inv: Invoice, p: InvoicePatch)
    requires ApplyPatch(inv, p).Ok?
    ensures ApplyPatch(ApplyPatch(inv, p).value, p) == ApplyPatch(inv, p)
  {
    var once := ApplyPatch(inv, p).value;
    StatusNamesRoundTrip(Available, Pending, once.status);
  }

  /** PUT /invoices/:id: the three assignments, then the save.  A missing invoice
      answers 404; a status the ENUM refuses or an amount beyond the column
      answers 500 and nothing is saved. */
  method UpdateInvoice(db: Db, id: int, patch: InvoicePatch) returns (r: Outcome<Invoice>)
    requires db.Valid()
    modifies db`invoices
    ensures db.Valid()
    ensures id !in old(db.invoices) ==> r == NotFound("Invoice not found") && unchanged(db)
    ensures id in old(db.invoices) ==> r == ApplyPatch(old(db.invoices)[id], patch)
    ensures r.Ok? ==> db.invoices == old(db.invoices)[id := r.value]
    ensures !r.Ok? ==> db.invoices == old(db.invoices)
  {
    if id !in db.invoices {
      return NotFound("Invoice not found");
    }
    var invoice := db.invoices[id];
    invoice := invoice.(amount := OrInt(patch.amount, invoice.amount));
    var statusText := OrString(patch.status, InvoiceStatusName(invoice.status));
    var status := ParseInvoiceStatus(statusText);
    if status.None? {
      return ServerError;
    }
    invoice := invoice.(status := status.value);
    invoice := invoice.(dueDate := OrOption(patch.dueDate, invoice.dueDate));
    if WritesAmount(patch) && !FitsDecimal(invoice.amount) {
      return ServerError;
    }
    db.invoices := db.invoices[id := invoice];
    r := Ok(invoice);
  }

  /** POST /invoices.  A missing reservation answers 404 and inserts nothing; a
      missing amount (a NOT NULL column), an amount beyond its DECIMAL(10, 2)
      column or a status outside the ENUM answers 500.
      Otherwise one invoice is inserted with status `status || 'unpaid'`; an
      invoice the reservation already has is not looked for, so the reservation
      may end up with several. */
  method CreateInvoice(db: Db, reservationId: int, amount: Option<int>, status: Option<string>,
                       dueDate: Option<int>, now: int)
    returns (r: Outcome<Invoice>)
    requires db.Valid()
    modifies db`invoices, db`nextInvoiceId
    ensures db.Valid()
    ensures reservationId !in old(db.reservations) ==>
              r == NotFound("Reservation not found") && unchanged(db)
    ensures (reservationId in old(db.reservations)
             && (amount.None? || !FitsDecimal(amount.value) || ParseInvoiceStatus(OrString(status, "unpaid")).None?)) ==>
              r == ServerError && unchanged(db)
    ensures r.Ok? ==>
              var iid := old(db.nextInvoiceId);
              && reservationId in old(db.reservations) && amount.Some?
              && r.value.id == iid && r.value.reservationId == reservationId
              && r.value.amount == amount.value && r.value.dueDate == dueDate
              && r.value.issuedDate == now
              && (!Truthy(status) ==> r.value.status == Unpaid)
              && (Truthy(status) ==> InvoiceStatusName(r.value.status) == status.value)
              && db.invoices == old(db.invoices)[iid := r.value]
              && InvoicesOf(db.invoices, reservationId) == InvoicesOf(old(db.invoices), reservationId) + {iid}
              && db.nextInvoiceId == iid + 1
    ensures (reservationId in old(db.reservations) && amount.Some? && FitsDecimal(amount.value)
             && ParseInvoiceStatus(OrString(status, "unpaid")).Some?) ==> r.Ok?
  {
    if reservationId !in db.reservations {
      return NotFound("Reservation not found");
    }
    var parsed := ParseInvoiceStatus(OrString(status, "unpaid"));
    if amount.None? || !FitsDecimal(amount.value) || parsed.None? {
      return ServerError;
    }
    var invoice := NewInvoice(db.nextInvoiceId, reservationId, amount.value, parsed, dueDate, now);
    db.invoices := db.invoices[invoice.id := invoice];
    db.nextInvoiceId := db.nextInvoiceId + 1;
    r := Ok(invoice);
  }

  /** DELETE /invoices/:id: removes exactly that invoice. */
  method DeleteInvoice(db: Db, id: int) returns (r: Outcome<string>)
    requires db.Valid()
    modifies db`invoices
    ensures db.Valid()
    ensures id !in old(db.invoices) ==> r == NotFound("Invoice not found") && unchanged(db)
    ensures id in old(db.invoices) ==>
              && r == Ok("Invoice deleted successfully")
              && db.invoices == old(db.invoices) - {id}
              && db.invoices.Keys == old(db.invoices).Keys - {id}
              && forall k :: k in db.invoices ==> db.invoices[k] == old(db.invoices)[k]
  {
    if id !in db.invoices {
      return NotFound("Invoice not found");
    }
    db.invoices := db.invoices - {id};
    r := Ok("Invoice deleted successfully");
  }
}
