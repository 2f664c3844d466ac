/** The booking form on a property page: the total shown before booking, and what
    submitting does.  The two date fields hold the text of a date input ("" until
    chosen); `instant` reads such a text as milliseconds, the same reading the
    server applies to the request. */
module ReservationForm {
  import opened Common
  import Reservations

  /** `calculateTotal`: 0 until both dates are chosen; otherwise the nightly
      price times the whole days between them rounded up, or 0 for a zero-day
      stay (there is no one-day minimum here). */
  function CalculateTotal(startDate: string, endDate: string, price: int, instant: string -> int)
    : (total: int)
    ensures startDate == "" || endDate == "" ==> total == 0
    ensures startDate != "" && endDate != "" && instant(startDate) == instant(endDate) ==> total == 0
    ensures startDate != "" && endDate != "" && instant(startDate) != instant(endDate) ==>
              total == Reservations.InvoiceAmount(price, instant(startDate), instant(endDate))
  {
    if startDate == "" || endDate == "" then 0
    else
      var diffDays := Reservations.DiffDays(instant(startDate), instant(endDate));
      Reservations.DiffDaysIsCeiling(instant(startDate), instant(endDate));
      if diffDays > 0 then diffDays * price else 0
  }

  /** The preview does not depend on the order of the two dates. */
  lemma {:induction false} TotalIsSymmetric(startDate: string, endDate: string, price: int, instant: string -> int)
    ensures CalculateTotal(startDate, endDate, price, instant) == CalculateTotal(endDate, startDate, price, instant)
  {
    if startDate != "" && endDate != "" && instant(startDate) != instant(endDate) {
      Reservations.InvoiceAmountProperties(price, instant(startDate), instant(endDate));
    }
  }

  /** Where preview and invoice differ: a stay that starts and ends at the same
      instant previews 0 but is billed one night. */
  lemma {:induction false} SameDayPreviewDiffersFromInvoice(day: string, price: int, instant: string -> int)
    requires day != "" && price != 0
    ensures CalculateTotal(day, day, price, instant) == 0
    ensures Reservations.InvoiceAmount(price, instant(day), instant(day)) == price
    ensures CalculateTotal(day, day, price, instant) != Reservations.InvoiceAmount(price, instant(day), instant(day))
  {
    Reservations.InvoiceAmountProperties(price, instant(day), instant(day));
  }

  /** The body sent to create a reservation. */
  datatype ReservationPayload = ReservationPayload(propertyId: int, startDate: string, endDate: string)

  datatype SubmitAction =
    | GoToLogin
    | SendReservation(payload: ReservationPayload)

  /** `handleSubmit`: without a signed-in user the visitor is sent to the login
      page and nothing is sent; otherwise exactly the property id and the two
      date texts are sent. */
  function HandleSubmit(user: Option<int>, propertyId: int, startDate: string, endDate: string)
    : (a: SubmitAction)
    ensures user.None? <==> a == GoToLogin
    ensures a.SendReservation? ==>
              a.payload.propertyId == propertyId && a.payload.startDate == startDate
              && a.payload.endDate == endDate
  {
    if user.None? then GoToLogin
    else SendReservation(ReservationPayload(propertyId, startDate, endDate))
  }
}
