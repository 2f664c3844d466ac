/** The payment handler: charge an invoice once through the payment processor and
    mark it paid when the processor reports success. */
module Payments {
  import opened Common
  import opened Models
  import opened Store
  import Admin

  /** What the handler asks the processor to collect. */
  datatype Charge = Charge(amount: int, currency: string, source: string)

  /** POST /payments.  A missing invoice answers 404 and an already paid one 400,
      both without charging.  Otherwise the processor is asked for the invoice's
      own amount in USD; on success only the status becomes paid (so the revenue
      figure rises by exactly that amount), on failure nothing changes.  The
      processor's verdict is the parameter `processor`. */
  method CreatePayment(db: Db, invoiceId: int, source: string, processor: Charge -> bool)
    returns (r: Outcome<string>, charged: Option<Charge>)
    requires db.Valid()
    modifies db`invoices
    ensures db.Valid()
    ensures invoiceId !in old(db.invoices) ==>
              r == NotFound("Invoice not found") && charged == None && unchanged(db)
    ensures invoiceId in old(db.invoices) && old(db.invoices)[invoiceId].status == Paid ==>
              r == BadRequest("Invoice already paid") && charged == None && unchanged(db)
    ensures invoiceId in old(db.invoices) && old(db.invoices)[invoiceId].status != Paid ==>
              var inv := old(db.invoices)[invoiceId];
              && charged == Some(Charge(inv.amount, "USD", source))
              && (processor(charged.value) ==>
                    && r == Ok("Payment successful")
                    && db.invoices == old(db.invoices)[invoiceId := inv.(status := Paid)]
                    && Admin.TotalRevenue(db) == old(Admin.TotalRevenue(db)) + inv.amount)
              && (!processor(charged.value) ==>
                    r == BadRequest("Payment failed") && unchanged(db))
  {
    charged := None;
    if invoiceId !in db.invoices {
      return NotFound("Invoice not found"), charged;
    }
    var invoice := db.invoices[invoiceId];
    if invoice.status == Paid {
      return BadRequest("Invoice already paid"), charged;
    }
    charged := Some(Charge(invoice.amount, "USD", source));
    if processor(charged.value) {
      Admin.PayingAddsAmount(db.invoices, invoiceId, db.nextInvoiceId);
      db.invoices := db.invoices[invoiceId := invoice.(status := Paid)];
      r := Ok("Payment successful");
    } else {
      r := BadRequest("Payment failed");
    }
  }

  /** A second payment of the same invoice is refused without charging, whatever
      the processor would say. */
  method PayTwice(db: Db, invoiceId: int, source: string, processor: Charge -> bool)
    returns (first: Outcome<string>, second: Outcome<string>, secondCharge: Option<Charge>)
    requires db.Valid()
    modifies db`invoices
    ensures first.Ok? ==> second == BadRequest("Invoice already paid") && secondCharge == None
  {
    var c;
    first, c := CreatePayment(db, invoiceId, source, processor);
    second, secondCharge := CreatePayment(db, invoiceId, source, processor);
  }
}
